/**
 * The discrete parts of the World of branches/joe-astar/world.py: the table
 * that turns floor-collision events into NPC transitions, the spinning of the
 * room keys nobody holds, the generation counter of the evolution task, and
 * the collide-mask arithmetic that keeps NPCs out of the gates and off the
 * player.  Scene-graph, physics and drawing calls are engine work; the values
 * they produce (elapsed time, who holds which key) are parameters.
 */
module World {
  import opened Wrappers
  import Player

  // ---------------------------------------------------------------------
  // Rooms, messages and NPC orders (world.py:245-269)
  // ---------------------------------------------------------------------

  /** The three rooms, each with a floor, a key, a key nest and an NPC. */
  datatype Room = Room1 | Room2 | Room3

  /** The two transitions the world sends to an NPC. */
  datatype Transition = PlayerEnteredRoom | PlayerLeftRoom

  /** One `handleTransition` call: which room's NPC, and which transition. */
  datatype Order = Order(npc: Room, transition: Transition)

  /** The room's number in the source's names. */
  function RoomNumber(r: Room): nat {
    match r
    case Room1 => 1
    case Room2 => 2
    case Room3 => 3
  }

  function RoomDigit(r: Room): string {
    match r
    case Room1 => "1"
    case Room2 => "2"
    case Room3 => "3"
  }

  /** The message bound to each order by the `accept` calls. */
  function Message(o: Order): string {
    match o.transition
    case PlayerEnteredRoom => "ralph has entered room " + RoomDigit(o.npc)
    case PlayerLeftRoom => "ralph has left room " + RoomDigit(o.npc)
  }

  /** The nested `orderNPC` of world.py:248-261: an if/elif chain over the six messages. */
  function OrderNPC(parameters: string): (r: Option<Order>)
    ensures r.Some? ==> Message(r.value) == parameters
  {
    if parameters == "ralph has entered room 1" then Some(Order(Room1, PlayerEnteredRoom))
    else if parameters == "ralph has left room 1" then Some(Order(Room1, PlayerLeftRoom))
    else if parameters == "ralph has entered room 2" then Some(Order(Room2, PlayerEnteredRoom))
    else if parameters == "ralph has left room 2" then Some(Order(Room2, PlayerLeftRoom))
    else if parameters == "ralph has entered room 3" then Some(Order(Room3, PlayerEnteredRoom))
    else if parameters == "ralph has left room 3" then Some(Order(Room3, PlayerLeftRoom))
    else None
  }

  /**
   * Each of the six messages orders exactly its own room's NPC: with the
   * ensures of OrderNPC, `OrderNPC(m) == Some(o)` holds iff `m == Message(o)`,
   * and every other message orders nobody.
   */
  lemma OrderNPCRoundTrip(o: Order)
    ensures OrderNPC(Message(o)) == Some(o)
  {
    var m := Message(o);
    assert m[|m| - 1] == RoomDigit(o.npc)[0];
    match o.transition
    case PlayerEnteredRoom => assert m[6] == 'h' && m[10] == 'e';
    case PlayerLeftRoom => assert m[6] == 'h' && m[10] == 'l';
  }

  /** The name of the player's collision node, a prefix of every bound event. */
  const PlayerNode: string := "ralph collision node"

  function FloorNode(r: Room): string {
    "room" + RoomDigit(r) + "Floor"
  }

  /** The events the in and out patterns of world.py:245-246 give ("%fn-into-%in", "%fn-out-%in"). */
  function IntoEvent(from: string, into: string): string {
    from + "-into-" + into
  }

  function OutEvent(from: string, into: string): string {
    from + "-out-" + into
  }

  /** The six `accept` calls of world.py:264-269: event name -> `orderNPC` parameter. */
  const CollisionBindings: map<string, string> := map[
    "ralph collision node-into-room1Floor" := "ralph has entered room 1",
    "ralph collision node-out-room1Floor" := "ralph has left room 1",
    "ralph collision node-into-room2Floor" := "ralph has entered room 2",
    "ralph collision node-out-room2Floor" := "ralph has left room 2",
    "ralph collision node-into-room3Floor" := "ralph has entered room 3",
    "ralph collision node-out-room3Floor" := "ralph has left room 3"]

  /** A collision event reaching the world: the order it causes, if any. */
  function OnCollisionEvent(event: string): (r: Option<Order>)
    ensures event !in CollisionBindings ==> r.None?
  {
    if event in CollisionBindings then OrderNPC(CollisionBindings[event]) else None
  }

  /** The player stepping onto room N's floor makes room N's NPC handle `playerEnteredRoom`. */
  lemma IntoFloorEvent(r: Room)
    ensures OnCollisionEvent(IntoEvent(PlayerNode, FloorNode(r))) == Some(Order(r, PlayerEnteredRoom))
  {
    OrderNPCRoundTrip(Order(r, PlayerEnteredRoom));
    match r
    case Room1 => assert IntoEvent(PlayerNode, FloorNode(r)) == "ralph collision node-into-room1Floor";
    case Room2 => assert IntoEvent(PlayerNode, FloorNode(r)) == "ralph collision node-into-room2Floor";
    case Room3 => assert IntoEvent(PlayerNode, FloorNode(r)) == "ralph collision node-into-room3Floor";
  }

  /** The player stepping off room N's floor makes room N's NPC handle `playerLeftRoom`. */
  lemma OutFloorEvent(r: Room)
    ensures OnCollisionEvent(OutEvent(PlayerNode, FloorNode(r))) == Some(Order(r, PlayerLeftRoom))
  {
    OrderNPCRoundTrip(Order(r, PlayerLeftRoom));
    match r
    case Room1 => assert OutEvent(PlayerNode, FloorNode(r)) == "ralph collision node-out-room1Floor";
    case Room2 => assert OutEvent(PlayerNode, FloorNode(r)) == "ralph collision node-out-room2Floor";
    case Room3 => assert OutEvent(PlayerNode, FloorNode(r)) == "ralph collision node-out-room3Floor";
  }

  /** The six bound events are exactly the player's into and out events of the three floors. */
  lemma BoundEventsAreFloorEvents()
    ensures CollisionBindings.Keys == {
      IntoEvent(PlayerNode, FloorNode(Room1)), OutEvent(PlayerNode, FloorNode(Room1)),
      IntoEvent(PlayerNode, FloorNode(Room2)), OutEvent(PlayerNode, FloorNode(Room2)),
      IntoEvent(PlayerNode, FloorNode(Room3)), OutEvent(PlayerNode, FloorNode(Room3))}
  {
    assert IntoEvent(PlayerNode, FloorNode(Room1)) == "ralph collision node-into-room1Floor";
    assert OutEvent(PlayerNode, FloorNode(Room1)) == "ralph collision node-out-room1Floor";
    assert IntoEvent(PlayerNode, FloorNode(Room2)) == "ralph collision node-into-room2Floor";
    assert OutEvent(PlayerNode, FloorNode(Room2)) == "ralph collision node-out-room2Floor";
    assert IntoEvent(PlayerNode, FloorNode(Room3)) == "ralph collision node-into-room3Floor";
    assert OutEvent(PlayerNode, FloorNode(Room3)) == "ralph collision node-out-room3Floor";
  }

  // ---------------------------------------------------------------------
  // Spinning keys (world.py:106-121)
  // ---------------------------------------------------------------------

  /** Degrees per second of `rotate`. */
  const SpinRate: real := 250.0

  /** One `rotate` of the shared angle: add the increment, take off 360 at most once. */
  function SpinStep(angle: real, increment: real): (r: real)
    ensures r == angle + increment || r == angle + increment - 360.0
    ensures 0.0 <= angle < 360.0 && 0.0 <= increment < 360.0 ==> 0.0 <= r < 360.0
  {
    var a := angle + increment;
    if a >= 360.0 then a - 360.0 else a
  }

  /** A key spins when neither the player nor its room's NPC holds it. */
  predicate Spins(r: Room, playerKeys: seq<Player.KeyId>, roomKey: Room -> Player.KeyId, npcHolds: set<Room>) {
    roomKey(r) !in playerKeys && r !in npcHolds
  }

  /** The keys `animateItems` rotates, in the order it rotates them. */
  function SpinningRooms(playerKeys: seq<Player.KeyId>, roomKey: Room -> Player.KeyId, npcHolds: set<Room>): (rs: seq<Room>)
    ensures forall i, j :: 0 <= i < j < |rs| ==> RoomNumber(rs[i]) < RoomNumber(rs[j])
  {
    (if !(roomKey(Room1) in playerKeys || Room1 in npcHolds) then [Room1] else []) +
    (if roomKey(Room2) !in playerKeys && Room2 !in npcHolds then [Room2] else []) +
    (if roomKey(Room3) !in playerKeys && Room3 !in npcHolds then [Room3] else [])
  }

  /**
   * Key N spins iff neither holder has it; room 1's `not (a or b)` and
   * rooms 2 and 3's `not a and not b` are the same rule.
   */
  lemma SpinningRoomsMembers(playerKeys: seq<Player.KeyId>, roomKey: Room -> Player.KeyId, npcHolds: set<Room>, r: Room)
    ensures r in SpinningRooms(playerKeys, roomKey, npcHolds) <==> Spins(r, playerKeys, roomKey, npcHolds)
  {
    var p1 := if !(roomKey(Room1) in playerKeys || Room1 in npcHolds) then [Room1] else [];
    var p2 := if roomKey(Room2) !in playerKeys && Room2 !in npcHolds then [Room2] else [];
    var p3 := if roomKey(Room3) !in playerKeys && Room3 !in npcHolds then [Room3] else [];
    assert SpinningRooms(playerKeys, roomKey, npcHolds) == p1 + p2 + p3;
    assert r in p1 + p2 + p3 <==> r in p1 || r in p2 || r in p3;
  }

  /** The shared angle and the key headings after rotating `rooms` in order. */
  function SpinAll(angle: real, headings: map<Room, real>, rooms: seq<Room>, increment: real): (real, map<Room, real>)
    decreases |rooms|
  {
    if rooms == [] then (angle, headings)
    else
      var a := SpinStep(angle, increment);
      SpinAll(a, headings[rooms[0] := a], rooms[1..], increment)
  }

  lemma {:induction false} SpinAllAppend(angle: real, headings: map<Room, real>, xs: seq<Room>, ys: seq<Room>, increment: real)
    ensures SpinAll(angle, headings, xs + ys, increment) ==
      var s := SpinAll(angle, headings, xs, increment); SpinAll(s.0, s.1, ys, increment)
    decreases |xs|
  {
    if xs == [] {
      assert xs + ys == ys;
    } else {
      var a := SpinStep(angle, increment);
      assert (xs + ys)[0] == xs[0];
      assert (xs + ys)[1..] == xs[1..] + ys;
      SpinAllAppend(a, headings[xs[0] := a], xs[1..], ys, increment);
    }
  }

  /**
   * Rotating a run of keys keeps the shared angle in [0, 360) when each
   * increment is below 360; every key rotated gets a heading in that range,
   * and every other key keeps its heading.
   */
  lemma {:induction false} SpinAllRange(angle: real, headings: map<Room, real>, rooms: seq<Room>, increment: real)
    requires 0.0 <= angle < 360.0 && 0.0 <= increment < 360.0
    ensures 0.0 <= SpinAll(angle, headings, rooms, increment).0 < 360.0
    ensures forall r :: r in rooms ==>
      r in SpinAll(angle, headings, rooms, increment).1 && 0.0 <= SpinAll(angle, headings, rooms, increment).1[r] < 360.0
    ensures forall r :: r !in rooms ==>
      (r in SpinAll(angle, headings, rooms, increment).1 <==> r in headings) &&
      (r in headings ==> SpinAll(angle, headings, rooms, increment).1[r] == headings[r])
    decreases |rooms|
  {
    if rooms != [] {
      var a := SpinStep(angle, increment);
      SpinAllRange(a, headings[rooms[0] := a], rooms[1..], increment);
      forall r | r in rooms
        ensures r in SpinAll(angle, headings, rooms, increment).1 &&
          0.0 <= SpinAll(angle, headings, rooms, increment).1[r] < 360.0
      {
        if r !in rooms[1..] {
          assert r == rooms[0];
        }
      }
    }
  }

  // ---------------------------------------------------------------------
  // The evolution task's generation counter (world.py:463-482)
  // ---------------------------------------------------------------------

  /** `generationLifetimeTicks`. */
  const GenerationLifetimeTicks: nat := 500

  /** One call of `neatEvaluateTask`: the counter and the generation after it. */
  function NeatStep(count: int, generation: int): (int, int) {
    if GenerationLifetimeTicks == count + 1 then (0, generation + 1) else (count + 1, generation)
  }

  function NeatAfter(count: int, generation: int, calls: nat): (int, int)
    decreases calls
  {
    if calls == 0 then (count, generation)
    else
      var s := NeatStep(count, generation);
      NeatAfter(s.0, s.1, calls - 1)
  }

  /**
   * From a counter in [0, 500), `calls` more calls leave the counter at
   * (count + calls) mod 500 and add one generation per 500 calls.
   */
  lemma {:induction false} NeatAfterClosedForm(count: int, generation: int, calls: nat)
    requires 0 <= count < GenerationLifetimeTicks
    ensures NeatAfter(count, generation, calls) ==
      ((count + calls) % GenerationLifetimeTicks, generation + (count + calls) / GenerationLifetimeTicks)
    decreases calls
  {
    if calls > 0 {
      var s := NeatStep(count, generation);
      NeatAfterClosedForm(s.0, s.1, calls - 1);
      if count + 1 == GenerationLifetimeTicks {
        assert count + calls == GenerationLifetimeTicks + (calls - 1);
      } else {
        assert s.0 + (calls - 1) == count + calls;
      }
    }
  }

  // ---------------------------------------------------------------------
  // Collide masks (world.py:285-386)
  // ---------------------------------------------------------------------

  /** A Panda3D BitMask32. */
  type Mask = bv32

  /** `BitMask32.bit(i)`. */
  function Bit(i: nat): Mask
    requires i < 32
  {
    (1 as bv32) << i
  }

  /** The collision masks given to the player and the three NPCs. */
  const PlayerCollisionMask: Mask := Bit(1)

  function NpcCollisionMask(r: Room): Mask {
    match r
    case Room1 => Bit(2)
    case Room2 => Bit(4)
    case Room3 => Bit(4)
  }

  /**
   * An NPC's new into-mask, world.py:336-337 (and 362-363, 385-386): its old
   * into-mask with the player's into-mask bits cleared.  No bit of the
   * player's into-mask survives, and every other bit is unchanged.
   */
  function NpcIntoMask(npcInto: Mask, playerInto: Mask): (r: Mask)
    ensures r & playerInto == 0
    ensures r & !playerInto == npcInto & !playerInto
  {
    npcInto & !playerInto
  }

  /** The collide mask of the gate boxes, world.py:293: the complement of the player's collision mask. */
  function GateCollideMask(playerMask: Mask): (r: Mask)
    ensures r & playerMask == 0
    ensures r | playerMask == 0xFFFF_FFFF
  {
    !playerMask
  }

  /** The gate shares no bit with the player's mask and a bit with every NPC's. */
  lemma GateStopsOnlyNpcs()
    ensures GateCollideMask(PlayerCollisionMask) & PlayerCollisionMask == 0
    ensures forall r :: GateCollideMask(PlayerCollisionMask) & NpcCollisionMask(r) == NpcCollisionMask(r)
    ensures forall r :: NpcCollisionMask(r) != 0
  {
    assert PlayerCollisionMask == 2;
    assert Bit(2) == 4 && Bit(4) == 16;
  }

  // ---------------------------------------------------------------------
  // The world's mutable state
  // ---------------------------------------------------------------------

  class World {
    /** `__mainAgent`, whose key list `animateItems` consults. */
    const mainAgent: Player.Player
    /** `room1Key`, `room2Key`, `room3Key`. */
    const roomKey: Room -> Player.KeyId
    var currentAngle: real
    /** The headings `rotate` has given the keys with `setH`. */
    var keyHeading: map<Room, real>
    var generationCount: int
    var neatEvaluateTaskCallCount: int

    ghost predicate Valid()
      reads this
    {
      0 <= neatEvaluateTaskCallCount < GenerationLifetimeTicks
    }

    /** The shared angle and every key heading lie in [0, 360). */
    ghost predicate AngleInRange()
      reads this
    {
      0.0 <= currentAngle < 360.0 &&
      forall r :: r in keyHeading ==> 0.0 <= keyHeading[r] < 360.0
    }

    constructor (mainAgent: Player.Player, roomKey: Room -> Player.KeyId)
      ensures Valid() && AngleInRange()
      ensures this.mainAgent == mainAgent && this.roomKey == roomKey
      ensures currentAngle == 0.0 && keyHeading == map[]
      ensures generationCount == 0 && neatEvaluateTaskCallCount == 0
    {
      this.mainAgent := mainAgent;
      this.roomKey := roomKey;
      currentAngle := 0.0;
      keyHeading := map[];
      generationCount := 0;
      neatEvaluateTaskCallCount := 0;
    }

    /** world.py:116-121, with `elapsed` the task timer's elapsed time. */
    method Rotate(someItem: Option<Room>, elapsed: real)
      modifies this`currentAngle, this`keyHeading
      ensures someItem.None? ==> currentAngle == old(currentAngle) && keyHeading == old(keyHeading)
      ensures someItem.Some? ==>
        currentAngle == SpinStep(old(currentAngle), SpinRate * elapsed) &&
        keyHeading == old(keyHeading)[someItem.value := currentAngle]
      ensures old(AngleInRange()) && 0.0 <= SpinRate * elapsed < 360.0 ==> AngleInRange()
    {
      if someItem != None {
        currentAngle := currentAngle + SpinRate * elapsed;
        if currentAngle >= 360.0 {
          currentAngle := currentAngle - 360.0;
        }
        keyHeading := keyHeading[someItem.value := currentAngle];
      }
    }

    /**
     * world.py:106-113.  `npcHolds` is the set of rooms whose NPC reports
     * `hasKey()`; the player's `hasKey` is taken to be blockart's membership
     * test on the shared key list.
     */
    method AnimateItems(npcHolds: set<Room>, elapsed: real)
      modifies this`currentAngle, this`keyHeading
      ensures (currentAngle, keyHeading) ==
        SpinAll(old(currentAngle), old(keyHeading),
                SpinningRooms(mainAgent.shared.playerKeys, roomKey, npcHolds), SpinRate * elapsed)
      ensures old(AngleInRange()) && 0.0 <= SpinRate * elapsed < 360.0 ==> AngleInRange()
    {
      ghost var keys := mainAgent.shared.playerKeys;
      ghost var increment := SpinRate * elapsed;
      ghost var p1 := if !(roomKey(Room1) in keys || Room1 in npcHolds) then [Room1] else [];
      ghost var p2 := if roomKey(Room2) !in keys && Room2 !in npcHolds then [Room2] else [];
      ghost var p3 := if roomKey(Room3) !in keys && Room3 !in npcHolds then [Room3] else [];
      if !(mainAgent.HasKey(roomKey(Room1)) || Room1 in npcHolds) {
        Rotate(Some(Room1), elapsed);
      }
      assert (currentAngle, keyHeading) == SpinAll(old(currentAngle), old(keyHeading), p1, increment);
      ghost var a1, h1 := currentAngle, keyHeading;
      if !mainAgent.HasKey(roomKey(Room2)) && Room2 !in npcHolds {
        Rotate(Some(Room2), elapsed);
      }
      assert (currentAngle, keyHeading) == SpinAll(a1, h1, p2, increment);
      ghost var a2, h2 := currentAngle, keyHeading;
      if !mainAgent.HasKey(roomKey(Room3)) && Room3 !in npcHolds {
        Rotate(Some(Room3), elapsed);
      }
      assert (currentAngle, keyHeading) == SpinAll(a2, h2, p3, increment);
      SpinAllAppend(old(currentAngle), old(keyHeading), p1, p2, increment);
      SpinAllAppend(old(currentAngle), old(keyHeading), p1 + p2, p3, increment);
      if old(AngleInRange()) && 0.0 <= increment < 360.0 {
        SpinAllRange(old(currentAngle), old(keyHeading), p1 + p2 + p3, increment);
      }
    }

    /**
     * The counter of world.py:465-474.  Returns true on the calls that start
     * a new generation (where the source swaps the agents' brains).
     */
    method NeatEvaluateTask() returns (newGeneration: bool)
      modifies this`neatEvaluateTaskCallCount, this`generationCount
      ensures (neatEvaluateTaskCallCount, generationCount) ==
        NeatStep(old(neatEvaluateTaskCallCount), old(generationCount))
      ensures newGeneration <==> old(neatEvaluateTaskCallCount) + 1 == GenerationLifetimeTicks
      ensures old(Valid()) ==> Valid()
    {
      neatEvaluateTaskCallCount := neatEvaluateTaskCallCount + 1;
      newGeneration := false;
      if GenerationLifetimeTicks == neatEvaluateTaskCallCount {
        neatEvaluateTaskCallCount := 0;
        generationCount := generationCount + 1;
        newGeneration := true;
      }
    }
  }
}
