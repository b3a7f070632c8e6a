/**
 * The Player of blockart/player.py and of its older copy trunk/blockart/player.py:
 * the key inventory, the current-key slot, the input-flag map with its key
 * bindings, the per-tick input processing with its rising-edge latches, and
 * the mouse-driven camera.  The two copies are the same code except that the
 * older one has no camera (no `cameraPosition` and none of its fields).
 *
 * `playerKeys` and `__inputMap` are class attributes that every Player shares;
 * they live in one PlayerClassState object that each Player refers to.
 * The locomotion and animation calls inherited from Agent are recorded as
 * Call values rather than carried out.
 */
module Player {
  import opened Wrappers
  import opened PyList

  /** A key model (a scene-graph node the player can carry), by identity. */
  type KeyId = nat

  // ---------------------------------------------------------------------
  // Input flags and key bindings (player.py:53-88)
  // ---------------------------------------------------------------------

  /** The names `processKey` reads from the input map. */
  const InputNames: set<string> := {"left", "right", "up", "down", "createBlock", "deleteBlock"}

  /** The class attribute `__inputMap` as the class defines it. */
  const InitialInputMap: map<string, bool> := map[
    "left" := false, "right" := false, "up" := false, "down" := false,
    "createBlock" := false, "deleteBlock" := false]

  /** The `accept` calls of `setKeymap`: engine event -> the arguments given to `setKey`. */
  const KeyBindings: map<string, (string, bool)> := map[
    "arrow_left" := ("left", true),           "arrow_left-up" := ("left", false),
    "arrow_right" := ("right", true),         "arrow_right-up" := ("right", false),
    "arrow_up" := ("up", true),               "arrow_up-up" := ("up", false),
    "arrow_down" := ("down", true),           "arrow_down-up" := ("down", false),
    "mouse1" := ("createBlock", true),        "mouse1-up" := ("createBlock", false),
    "mouse3" := ("deleteBlock", true),        "mouse3-up" := ("deleteBlock", false)]

  /** The engine event that presses the control behind input flag `name`. */
  function PressEvent(name: string): string
    requires name in InputNames
  {
    if name == "left" then "arrow_left"
    else if name == "right" then "arrow_right"
    else if name == "up" then "arrow_up"
    else if name == "down" then "arrow_down"
    else if name == "createBlock" then "mouse1"
    else "mouse3"
  }

  /** Panda3D names a release after its press with the suffix "-up". */
  function ReleaseEvent(name: string): string
    requires name in InputNames
  {
    PressEvent(name) + "-up"
  }

  /**
   * Every input flag has one press binding that sets it and one release
   * binding that clears it, and nothing else is bound to `setKey`.
   */
  lemma BindingsSetAndClear()
    ensures forall name :: name in InputNames ==>
      PressEvent(name) in KeyBindings && KeyBindings[PressEvent(name)] == (name, true) &&
      ReleaseEvent(name) in KeyBindings && KeyBindings[ReleaseEvent(name)] == (name, false)
    ensures forall e :: e in KeyBindings ==>
      KeyBindings[e].0 in InputNames &&
      e == if KeyBindings[e].1 then PressEvent(KeyBindings[e].0) else ReleaseEvent(KeyBindings[e].0)
  {
    assert ReleaseEvent("left") == "arrow_left-up";
    assert ReleaseEvent("right") == "arrow_right-up";
    assert ReleaseEvent("up") == "arrow_up-up";
    assert ReleaseEvent("down") == "arrow_down-up";
    assert ReleaseEvent("createBlock") == "mouse1-up";
    assert ReleaseEvent("deleteBlock") == "mouse3-up";
  }

  /** The six flags `processKey` reads. */
  datatype Flags = Flags(left: bool, right: bool, up: bool, down: bool, createBlock: bool, deleteBlock: bool)

  function FlagsOf(inputMap: map<string, bool>): Flags
    requires InputNames <= inputMap.Keys
  {
    Flags(inputMap["left"], inputMap["right"], inputMap["up"], inputMap["down"],
          inputMap["createBlock"], inputMap["deleteBlock"])
  }

  // ---------------------------------------------------------------------
  // One processKey tick (player.py:132-177), as a value
  // ---------------------------------------------------------------------

  /** The engine calls `processKey` makes, in the order it makes them. */
  datatype Call =
    | TurnLeft(angle: real)
    | TurnRight(angle: real)
    | MoveForward(distance: real)
    | MoveBackward(distance: real)
    | CreateBlock
    | DeleteBlock
    | LoopRun           // self.loop("run")
    | StopAndPoseWalk   // self.stop(); self.pose("walk", frame = 5)

  /** The fields `processKey` keeps from one tick to the next. */
  datatype Latches = Latches(lastMouse1State: bool, lastMouse3State: bool, isMoving: bool)

  /** The three rising-edge detectors: the two mouse buttons and the run animation. */
  datatype Edge = Mouse1 | Mouse3 | Running

  /** The level an edge detector watches. */
  function Level(f: Flags, e: Edge): bool {
    match e
    case Mouse1 => f.createBlock
    case Mouse3 => f.deleteBlock
    case Running => f.left || f.right || f.up || f.down
  }

  /** The latch that remembers that level. */
  function Held(l: Latches, e: Edge): bool {
    match e
    case Mouse1 => l.lastMouse1State
    case Mouse3 => l.lastMouse3State
    case Running => l.isMoving
  }

  /** The call made on a rising edge. */
  function Reaction(e: Edge): Call {
    match e
    case Mouse1 => CreateBlock
    case Mouse3 => DeleteBlock
    case Running => LoopRun
  }

  /** One `if` of `processKey`: the call `x` when `cond` holds, nothing otherwise. */
  function Maybe(cond: bool, x: Call): (r: seq<Call>)
    ensures forall y :: y in r <==> cond && y == x
  {
    if cond then [x] else []
  }

  lemma AppendMaybe(s: seq<Call>, cond: bool, x: Call)
    ensures s + Maybe(cond, x) == if cond then s + [x] else s
  {
    if !cond {
      assert s + [] == s;
    }
  }

  /** The locomotion calls of one tick. */
  function Moves(f: Flags, turnAngle: real, distance: real): seq<Call> {
    Maybe(f.left, TurnLeft(turnAngle)) + Maybe(f.right, TurnRight(turnAngle)) +
    Maybe(f.up, MoveForward(distance)) + Maybe(f.down, MoveBackward(distance))
  }

  /** The calls of one tick, in the order `processKey` makes them, and the latches after it. */
  function KeyTick(f: Flags, before: Latches, turnAngle: real, distance: real): (r: (seq<Call>, Latches))
    ensures forall e :: Held(r.1, e) == Level(f, e)
  {
    var moving := f.left || f.right || f.up || f.down;
    var calls := Moves(f, turnAngle, distance) +
      Maybe(f.createBlock && !before.lastMouse1State, CreateBlock) +
      Maybe(f.deleteBlock && !before.lastMouse3State, DeleteBlock) +
      Maybe(!moving, StopAndPoseWalk) +
      Maybe(moving && !before.isMoving, LoopRun);
    (calls, Latches(f.createBlock, f.deleteBlock, moving))
  }

  /** The number of occurrences of `c` in `s`. */
  function CountOf(s: seq<Call>, c: Call): nat
    decreases |s|
  {
    if s == [] then 0 else CountOf(s[..|s|-1], c) + (if s[|s|-1] == c then 1 else 0)
  }

  lemma CountOfSnoc(s: seq<Call>, x: Call, c: Call)
    ensures CountOf(s + [x], c) == CountOf(s, c) + (if x == c then 1 else 0)
  {
    assert (s + [x])[..|s|] == s;
  }

  lemma CountOfMaybe(s: seq<Call>, cond: bool, x: Call, c: Call)
    ensures CountOf(s + Maybe(cond, x), c) == CountOf(s, c) + (if cond && x == c then 1 else 0)
  {
    if cond {
      CountOfSnoc(s, x, c);
    } else {
      assert s + [] == s;
    }
  }

  lemma {:induction false} CountOfAppend(a: seq<Call>, b: seq<Call>, c: Call)
    ensures CountOf(a + b, c) == CountOf(a, c) + CountOf(b, c)
    decreases |b|
  {
    if b == [] {
      assert a + b == a;
    } else {
      var b' := b[..|b|-1];
      assert a + b == (a + b') + [b[|b|-1]];
      CountOfSnoc(a + b', b[|b|-1], c);
      CountOfAppend(a, b', c);
    }
  }

  /** A tick's locomotion calls contain none of the edge calls. */
  lemma MovesCount(f: Flags, turnAngle: real, distance: real, c: Call)
    requires c == CreateBlock || c == DeleteBlock || c == LoopRun
    ensures CountOf(Moves(f, turnAngle, distance), c) == 0
  {
    var m1 := Maybe(f.left, TurnLeft(turnAngle));
    CountOfMaybe([], f.left, TurnLeft(turnAngle), c);
    assert [] + m1 == m1;
    CountOfMaybe(m1, f.right, TurnRight(turnAngle), c);
    var m2 := m1 + Maybe(f.right, TurnRight(turnAngle));
    CountOfMaybe(m2, f.up, MoveForward(distance), c);
    var m3 := m2 + Maybe(f.up, MoveForward(distance));
    CountOfMaybe(m3, f.down, MoveBackward(distance), c);
  }

  /** Counting through the four calls that follow the locomotion calls. */
  lemma TailCount(s: seq<Call>, create: bool, delete: bool, stand: bool, run: bool, c: Call)
    requires c == CreateBlock || c == DeleteBlock || c == LoopRun
    ensures CountOf(s + Maybe(create, CreateBlock) + Maybe(delete, DeleteBlock) + Maybe(stand, StopAndPoseWalk) + Maybe(run, LoopRun), c) ==
      CountOf(s, c) + (if create && c == CreateBlock then 1 else 0) + (if delete && c == DeleteBlock then 1 else 0) + (if run && c == LoopRun then 1 else 0)
  {
    var s1 := s + Maybe(create, CreateBlock);
    CountOfMaybe(s, create, CreateBlock, c);
    var s2 := s1 + Maybe(delete, DeleteBlock);
    CountOfMaybe(s1, delete, DeleteBlock, c);
    var s3 := s2 + Maybe(stand, StopAndPoseWalk);
    CountOfMaybe(s2, stand, StopAndPoseWalk, c);
    CountOfMaybe(s3, run, LoopRun, c);
  }

  /**
   * In one tick each edge's call is made exactly once if its level is up and
   * its latch was down, and not at all otherwise.
   */
  lemma KeyTickCounts(f: Flags, before: Latches, turnAngle: real, distance: real, e: Edge)
    ensures CountOf(KeyTick(f, before, turnAngle, distance).0, Reaction(e)) ==
      if Level(f, e) && !Held(before, e) then 1 else 0
  {
    var moving := f.left || f.right || f.up || f.down;
    MovesCount(f, turnAngle, distance, Reaction(e));
    TailCount(Moves(f, turnAngle, distance), f.createBlock && !before.lastMouse1State,
      f.deleteBlock && !before.lastMouse3State, !moving, moving && !before.isMoving, Reaction(e));
  }

  /** The locomotion calls follow the direction flags. */
  lemma MovesMembers(f: Flags, turnAngle: real, distance: real)
    ensures (TurnLeft(turnAngle) in Moves(f, turnAngle, distance)) == f.left
    ensures (TurnRight(turnAngle) in Moves(f, turnAngle, distance)) == f.right
    ensures (MoveForward(distance) in Moves(f, turnAngle, distance)) == f.up
    ensures (MoveBackward(distance) in Moves(f, turnAngle, distance)) == f.down
    ensures StopAndPoseWalk !in Moves(f, turnAngle, distance)
  {
  }

  /**
   * The locomotion calls follow the direction flags, and the walk pose is
   * struck exactly when no direction is held.
   */
  lemma KeyTickMoves(f: Flags, before: Latches, turnAngle: real, distance: real)
    ensures (StopAndPoseWalk in KeyTick(f, before, turnAngle, distance).0) == !Level(f, Running)
    ensures (TurnLeft(turnAngle) in KeyTick(f, before, turnAngle, distance).0) == f.left
    ensures (TurnRight(turnAngle) in KeyTick(f, before, turnAngle, distance).0) == f.right
    ensures (MoveForward(distance) in KeyTick(f, before, turnAngle, distance).0) == f.up
    ensures (MoveBackward(distance) in KeyTick(f, before, turnAngle, distance).0) == f.down
  {
    var moving := f.left || f.right || f.up || f.down;
    var s := Moves(f, turnAngle, distance);
    MovesMembers(f, turnAngle, distance);
    var create, delete, run := f.createBlock && !before.lastMouse1State, f.deleteBlock && !before.lastMouse3State, moving && !before.isMoving;
    TailMembers(s, create, delete, !moving, run, StopAndPoseWalk);
    TailMembers(s, create, delete, !moving, run, TurnLeft(turnAngle));
    TailMembers(s, create, delete, !moving, run, TurnRight(turnAngle));
    TailMembers(s, create, delete, !moving, run, MoveForward(distance));
    TailMembers(s, create, delete, !moving, run, MoveBackward(distance));
  }

  /** Membership through the four calls that follow the locomotion calls. */
  lemma TailMembers(s: seq<Call>, create: bool, delete: bool, stand: bool, run: bool, y: Call)
    ensures y in s + Maybe(create, CreateBlock) + Maybe(delete, DeleteBlock) + Maybe(stand, StopAndPoseWalk) + Maybe(run, LoopRun) <==>
      y in s || (create && y == CreateBlock) || (delete && y == DeleteBlock) || (stand && y == StopAndPoseWalk) || (run && y == LoopRun)
  {
  }

  /** What the engine supplies to one tick: the flags, and the turn angle and distance for its elapsed time. */
  datatype TickInput = TickInput(flags: Flags, turnAngle: real, distance: real)

  /** The calls of a run of ticks, and the latches after the last one. */
  function Ticks(before: Latches, inputs: seq<TickInput>): (seq<Call>, Latches)
    decreases |inputs|
  {
    if inputs == [] then ([], before)
    else
      var first := KeyTick(inputs[0].flags, before, inputs[0].turnAngle, inputs[0].distance);
      var rest := Ticks(first.1, inputs[1..]);
      (first.0 + rest.0, rest.1)
  }

  /** The number of ticks at which an edge's level goes from down to up. */
  function Rises(held: bool, inputs: seq<TickInput>, e: Edge): nat
    decreases |inputs|
  {
    if inputs == [] then 0
    else
      (if Level(inputs[0].flags, e) && !held then 1 else 0) + Rises(Level(inputs[0].flags, e), inputs[1..], e)
  }

  /**
   * Once per press: over any run of ticks, createBlock, deleteBlock and the
   * run animation are each started exactly as often as their level rises.
   */
  lemma {:induction false} OncePerPress(before: Latches, inputs: seq<TickInput>, e: Edge)
    ensures CountOf(Ticks(before, inputs).0, Reaction(e)) == Rises(Held(before, e), inputs, e)
    decreases |inputs|
  {
    if inputs != [] {
      var first := KeyTick(inputs[0].flags, before, inputs[0].turnAngle, inputs[0].distance);
      KeyTickCounts(inputs[0].flags, before, inputs[0].turnAngle, inputs[0].distance, e);
      OncePerPress(first.1, inputs[1..], e);
      CountOfAppend(first.0, Ticks(first.1, inputs[1..]).0, Reaction(e));
    }
  }

  // ---------------------------------------------------------------------
  // The shared class attributes and the Player itself
  // ---------------------------------------------------------------------

  /** `Player.playerKeys` and `Player.__inputMap`, shared by every Player. */
  class PlayerClassState {
    var playerKeys: seq<KeyId>
    var inputMap: map<string, bool>

    ghost predicate Valid()
      reads this
    {
      InputNames <= inputMap.Keys
    }

    constructor ()
      ensures Valid()
      ensures playerKeys == [] && inputMap == InitialInputMap
    {
      playerKeys := [];
      inputMap := InitialInputMap;
    }
  }

  /** The pitch limits of blockart/player.py:107-108, in degrees. */
  const MinPitch: int := -90
  const MaxPitch: int := 45

  /** The two sequential clamps of the pitch. */
  function PitchClamp(p: int): (r: int)
    ensures MinPitch <= r <= MaxPitch
    ensures MinPitch <= p <= MaxPitch ==> r == p
    ensures p < MinPitch ==> r == MinPitch
    ensures p > MaxPitch ==> r == MaxPitch
  {
    var q := if p < MinPitch then MinPitch else p;
    if q > MaxPitch then MaxPitch else q
  }

  /** What `setCurrentKey` does to the scene graph. */
  datatype HandEffect = Detach(key: KeyId) | AttachToRightHand(key: KeyId)

  /** Why `removeKey` raised. */
  datatype KeyError = AssertionError

  class Player {
    const shared: PlayerClassState
    const turnRate: real
    const speed: real
    var currentKey: Option<KeyId>
    var lastMouse1State: bool
    var lastMouse3State: bool
    var isMoving: bool
    var previousTime: real
    var heading: int
    var pitch: int
    var last: real

    /** player.py:9-30; `isMoving` comes from Agent and starts out false. */
    constructor (shared: PlayerClassState, turnRate: real, speed: real)
      ensures this.shared == shared && this.turnRate == turnRate && this.speed == speed
      ensures currentKey == None
      ensures !lastMouse1State && !lastMouse3State && !isMoving
      ensures heading == 0 && pitch == 0 && last == 0.0
    {
      this.shared := shared;
      this.turnRate := turnRate;
      this.speed := speed;
      currentKey := None;
      lastMouse1State := false;
      lastMouse3State := false;
      isMoving := false;
      previousTime := 0.0;
      heading := 0;
      pitch := 0;
      last := 0.0;
    }

    /** player.py:34-39: detach the key in hand, if any, attach the new one, if any. */
    method SetCurrentKey(key: Option<KeyId>) returns (effects: seq<HandEffect>)
      modifies this`currentKey
      ensures currentKey == key
      ensures effects ==
        (if old(currentKey).Some? then [Detach(old(currentKey).value)] else []) +
        (if key.Some? then [AttachToRightHand(key.value)] else [])
    {
      effects := [];
      if currentKey.Some? {
        effects := effects + [Detach(currentKey.value)];
      }
      if key.Some? {
        effects := effects + [AttachToRightHand(key.value)];
      }
      currentKey := key;
    }

    /** player.py:41-42: append, duplicates allowed. */
    method AddKey(key: KeyId)
      modifies shared`playerKeys
      ensures shared.playerKeys == old(shared.playerKeys) + [key]
      ensures HasKey(key)
    {
      shared.playerKeys := shared.playerKeys + [key];
    }

    /** player.py:44-45. */
    predicate HasKey(key: KeyId): (held: bool)
      reads shared
      ensures held <==> exists i :: 0 <= i < |shared.playerKeys| && shared.playerKeys[i] == key
    {
      key in shared.playerKeys
    }

    /**
     * player.py:47-50: the assert raises when the key is not held; otherwise
     * exactly its first occurrence is deleted.
     */
    method RemoveKey(key: KeyId) returns (r: Outcome<KeyError>)
      modifies shared`playerKeys
      ensures r.Pass? <==> old(HasKey(key))
      ensures r.Pass? ==> shared.playerKeys == RemoveFirst(old(shared.playerKeys), key)
      ensures r.Pass? ==> multiset(shared.playerKeys) == multiset(old(shared.playerKeys)) - multiset{key}
      ensures r.Fail? ==> r.error == AssertionError && shared.playerKeys == old(shared.playerKeys)
    {
      if key !in shared.playerKeys {
        return Fail(AssertionError);
      }
      RemoveFirstMultiset(shared.playerKeys, key);
      shared.playerKeys := RemoveFirst(shared.playerKeys, key);
      return Pass;
    }

    /** The nested `setKey` of player.py:73-74: one entry of the map changes. */
    method SetKey(key: string, value: bool)
      requires shared.Valid()
      modifies shared`inputMap
      ensures shared.Valid()
      ensures shared.inputMap == old(shared.inputMap)[key := value]
    {
      shared.inputMap := shared.inputMap[key := value];
    }

    /** An engine event arriving at the bindings of player.py:76-88. */
    method HandleEvent(event: string)
      requires shared.Valid()
      modifies shared`inputMap
      ensures shared.Valid()
      ensures event in KeyBindings ==>
        shared.inputMap == old(shared.inputMap)[KeyBindings[event].0 := KeyBindings[event].1]
      ensures event !in KeyBindings ==> shared.inputMap == old(shared.inputMap)
    {
      if event in KeyBindings {
        var binding := KeyBindings[event];
        SetKey(binding.0, binding.1);
      }
    }

    function LatchesOf(): Latches
      reads this
    {
      Latches(lastMouse1State, lastMouse3State, isMoving)
    }

    /**
     * blockart/player.py:93-129 with the pointer at (`x`, `y`) pixels and
     * `recentred` the result of moving it back to (100, 100).  Returns the
     * heading given to the agent; the camera placement is engine work.
     */
    method CameraPosition(x: int, y: int, recentred: bool, time: real) returns (agentHeading: int)
      modifies this`heading, this`pitch, this`last
      ensures heading == if recentred then old(heading) - (x - 100) else old(heading)
      ensures pitch == PitchClamp(if recentred then old(pitch) - (y - 100) else old(pitch))
      ensures agentHeading == heading - 180
      ensures last == time
    {
      if recentred {
        heading := heading - (x - 100);
        pitch := pitch - (y - 100);
      }
      if pitch < MinPitch {
        pitch := MinPitch;
      }
      if pitch > MaxPitch {
        pitch := MaxPitch;
      }
      agentHeading := heading - 180;
      last := time;
    }

    /** The turning and walking `if`s of player.py:141-148. */
    static method Locomotion(input: map<string, bool>, turnAngle: real, distance: real) returns (calls: seq<Call>)
      requires InputNames <= input.Keys
      ensures calls == Moves(FlagsOf(input), turnAngle, distance)
    {
      calls := [];
      if input["left"] {
        calls := calls + [TurnLeft(turnAngle)];
      }
      assert calls == Maybe(input["left"], TurnLeft(turnAngle));
      AppendMaybe(calls, input["right"], TurnRight(turnAngle));
      if input["right"] {
        calls := calls + [TurnRight(turnAngle)];
      }
      AppendMaybe(calls, input["up"], MoveForward(distance));
      if input["up"] {
        calls := calls + [MoveForward(distance)];
      }
      AppendMaybe(calls, input["down"], MoveBackward(distance));
      if input["down"] {
        calls := calls + [MoveBackward(distance)];
      }
    }

    /** The mouse-1 latch of player.py:150-155. */
    method CreateBlockEdge(pressed: bool, calls: seq<Call>) returns (calls': seq<Call>)
      modifies this`lastMouse1State
      ensures calls' == calls + Maybe(pressed && !old(lastMouse1State), CreateBlock)
      ensures lastMouse1State == pressed
    {
      AppendMaybe(calls, pressed && !lastMouse1State, CreateBlock);
      calls' := calls;
      if pressed && lastMouse1State == false {
        calls' := calls' + [CreateBlock];
        lastMouse1State := true;
      } else if !pressed {
        lastMouse1State := false;
      }
    }

    /** The mouse-3 latch of player.py:156-161. */
    method DeleteBlockEdge(pressed: bool, calls: seq<Call>) returns (calls': seq<Call>)
      modifies this`lastMouse3State
      ensures calls' == calls + Maybe(pressed && !old(lastMouse3State), DeleteBlock)
      ensures lastMouse3State == pressed
    {
      AppendMaybe(calls, pressed && !lastMouse3State, DeleteBlock);
      calls' := calls;
      if pressed && lastMouse3State == false {
        calls' := calls' + [DeleteBlock];
        lastMouse3State := true;
      } else if !pressed {
        lastMouse3State := false;
      }
    }

    /** The animation switch of player.py:163-173. */
    method Animate(moving: bool, calls: seq<Call>) returns (calls': seq<Call>)
      modifies this`isMoving
      ensures calls' == calls + Maybe(!moving, StopAndPoseWalk) + Maybe(moving && !old(isMoving), LoopRun)
      ensures isMoving == moving
    {
      AppendMaybe(calls, !moving, StopAndPoseWalk);
      AppendMaybe(calls + Maybe(!moving, StopAndPoseWalk), moving && !isMoving, LoopRun);
      calls' := calls;
      if moving {
        if !isMoving {
          calls' := calls' + [LoopRun];
          isMoving := true;
        }
      } else {
        calls' := calls' + [StopAndPoseWalk];
        isMoving := false;
      }
    }

    /** player.py:134-177, one tick of `elapsedTime` seconds at clock time `now`. */
    method ProcessKey(elapsedTime: real, now: real) returns (calls: seq<Call>)
      requires shared.Valid()
      modifies this`lastMouse1State, this`lastMouse3State, this`isMoving, this`previousTime
      ensures calls == KeyTick(FlagsOf(shared.inputMap), old(LatchesOf()), turnRate * elapsedTime, speed * elapsedTime).0
      ensures LatchesOf() == KeyTick(FlagsOf(shared.inputMap), old(LatchesOf()), turnRate * elapsedTime, speed * elapsedTime).1
      ensures previousTime == now
    {
      var turnAngle := turnRate * elapsedTime;
      var distance := speed * elapsedTime;
      var input := shared.inputMap;
      calls := Locomotion(input, turnAngle, distance);
      calls := CreateBlockEdge(input["createBlock"], calls);
      calls := DeleteBlockEdge(input["deleteBlock"], calls);
      calls := Animate(input["left"] || input["right"] || input["up"] || input["down"], calls);
      previousTime := now;
    }
  }

  /** `addKey` then `removeKey` of a key not already held gives back the original key list. */
  method AddThenRemove(p: Player, key: KeyId) returns (r: Outcome<KeyError>)
    requires !p.HasKey(key)
    modifies p.shared`playerKeys
    ensures r.Pass?
    ensures p.shared.playerKeys == old(p.shared.playerKeys)
  {
    AppendThenRemove(p.shared.playerKeys, key);
    p.AddKey(key);
    r := p.RemoveKey(key);
  }
}
