# Keepaway: sensors, player input and world bookkeeping

Keepaway is a Panda3D game. A player ("ralph") walks through three rooms. Each room has a key, and NPCs ("Eve") try to keep that key away from the player.

This project models the discrete logic of the game in Dafny and proves properties of it. Everything the game engine measures becomes an input to the model. That covers collision-queue entries, distances, bearings, headings, pointer coordinates, elapsed time, and which NPC holds a key.

- **`NpcSensors`** (trunk/npc.py): the NPC class's sensor bookkeeping.
  - Range-finder angles are spaced by Python 2 integer division.
  - The persistent range-finder table is reset and then overwritten from the collision queue on every tick.
  - The `adjacentAgents` list is kept by a distance threshold.
  - The pie-slice radar reduces each bearing into [0, 2π) and bins it into a slice. That includes what Python's negative list indexing does when there are no slices.
  - `NPC` is a class whose fields are the table (a `map`), the list and the levels (`seq`s). Its methods are proved against functions of the old state and the inputs.
- **`Player`** (blockart/player.py and its older copy trunk/blockart/player.py):
  - The two copies are the same code for the key list, the current key, the input map and its bindings, and `processKey`. Only the newer copy has the mouse camera.
  - `playerKeys` and `__inputMap` are class attributes shared by every Player. They live in one `PlayerClassState` object that each `Player` refers to.
  - The locomotion, block and animation calls that Player inherits from Agent are recorded as `Call` values, in order. `KeyTick` is one tick as a value, and `ProcessKey` is proved equal to it.
  - Lemmas on `KeyTick` and on runs of ticks (`Ticks`) state the rising-edge behaviour of the two mouse latches and of the run animation.
- **`World`** (branches/joe-astar/world.py):
  - The table from floor-collision events to NPC transitions.
  - The rule for which room keys spin, and the spin angle's wrap-around.
  - The evolution task's generation counter.
  - The `BitMask32` arithmetic of the NPC into-masks and the gate collide mask, on `bv32`.
- `PyList` holds Python's `s.index(x)` and `s.remove(x)`, with lemmas about them. `Wrappers` holds `Option` (Python's `None`) and `Outcome` (completes or raises).

The semantics follow the Python 2 source:
- `/` on integers is floor division.
- `int(x)` of a float truncates toward zero.
- `l.remove(x)` deletes the first occurrence.
- `assert` raises, which the model makes a `Fail` outcome.
- A division by zero or an `IndexError` is an explicit `None` or `false` result.

## Model

| member | source | states |
|---|---|---|
| NpcSensors.FloorDiv | trunk/npc.py:49 | Python 2 integer `/`: the quotient is rounded toward minus infinity, `q*b <= a < q*b + b` for a positive divisor, and mirrored for a negative one |
| NpcSensors.FinderAngleBounds | trunk/npc.py:49-64 | with at least two finders, finder i's angle `i * (180 div (count-1))` lies in [0, 180], and the last finder's angle falls short of 180 by less than `count - 1` degrees (the shortfall is `180 mod (count-1)`) |
| NpcSensors.ThirteenFinders | trunk/npc.py:24 | the default 13 finders are aimed at 15·i degrees, from 0 to 180 |
| NpcSensors.SetupRangeFinders | trunk/npc.py:49-64 | the angle loop fails (ZeroDivisionError) exactly when there is one finder; otherwise it yields `count` angles, with angle i equal to `i * (180 div (count-1))` |
| NpcSensors.Trunc | trunk/npc.py:130 | `int(x)` truncates toward zero: for x ≥ 0, r ≤ x < r+1 and r ≥ 0; for x < 0, r-1 < x ≤ r and r ≤ 0 |
| NpcSensors.ResetFindersAt | trunk/npc.py:120-121 | after the reset loop the table's keys are the old keys plus finders 0..n-1; those finders read 0, and every other entry is unchanged |
| NpcSensors.ApplyHitsAt | trunk/npc.py:122-126 | after the queue loop the keys gain exactly the queue's finders; a finder with entries holds the length of its last entry (later entries overwrite); every other entry is unchanged |
| NpcSensors.SenseTable | trunk/npc.py:120-126 | after one tick every finder 0..count-1 reads the length of its last queue entry, or 0 when it has none; the keys are the old keys plus the finders plus the queue's sources |
| NpcSensors.NPC.constructor | trunk/npc.py:18-78 | the NPC starts with the finder angles of the setup loop, a table whose keys are exactly the finders with every entry 0, and an empty adjacency list |
| NpcSensors.NPC.RangeFinderSense | trunk/npc.py:118-133 | the table is the reset-then-apply of the queue; the keys stay exactly the finders when the queue names only finders; the reported vector has `rangeFinderCount` entries, in finder order, each the truncated reading (last hit, or 0) |
| NpcSensors.SurvivorsMembers | trunk/npc.py:160-162 | an old adjacent agent stays exactly when the scan does not find it beyond the threshold; this keeps a list without duplicates duplicate-free |
| NpcSensors.SurvivorsDrop | trunk/npc.py:161-162 | removing an out-of-range agent deletes it from the kept part with `list.remove` when it is there, and nothing otherwise |
| NpcSensors.NewcomersMembers | trunk/npc.py:153-155 | the appended agents are exactly the listed agents other than self, within the threshold and not already adjacent, with no duplicates |
| NpcSensors.AdjacencyOrder | trunk/npc.py:148-163 | for a duplicate-free list, the scan's result is the old entries that were not dropped, in their old order, followed by the newcomers in agent-list order |
| NpcSensors.AdjacencyMembership | trunk/npc.py:148-162 | after the scan, an agent of `agentList` other than self is adjacent iff its distance ≤ `adjacencySensorThreshold`; self and agents not in the list keep their membership; no duplicate appears |
| NpcSensors.NPC.AdjacencySense | trunk/npc.py:139-166 | the in-place loop yields the scan's result: survivors in order, then newcomers; membership follows the threshold rule; the adjacency list stays duplicate-free |
| NpcSensors.ReducedRange | trunk/npc.py:204-207 | the reduced angle lies in [0, 2π) |
| NpcSensors.ReducedUnique | trunk/npc.py:204-207 | an angle in [0, 2π) that differs from `a` by whole turns is the reduced angle of `a` |
| NpcSensors.ReduceAngle | trunk/npc.py:203-207 | the two `while` loops terminate with the unique angle in [0, 2π) that differs from the input by whole turns |
| NpcSensors.SliceIndexRange | trunk/npc.py:212-213 | with at least one slice and a reduced angle, `slices - int(slices·θ/2π) - 1` lies in [0, slices) |
| NpcSensors.PyIndex | trunk/npc.py:215 | Python list indexing: an index in range names itself; any index accepted names a valid position; a negative index counts from the end; others raise IndexError |
| NpcSensors.RadarScanRaised | trunk/npc.py:178-215 | once an increment has raised IndexError, the scan of the whole agent list has raised |
| NpcSensors.RadarScanSlices | trunk/npc.py:177-215 | with at least one slice the scan never raises; it has `radarSlices` levels; level k counts the other agents with distance ≤ `radarLength` in slice k; the levels sum to the number of such agents, so an agent at exactly `radarLength` counts |
| NpcSensors.RadarScanNoSlices | trunk/npc.py:177-215 | with no slices the scan completes, with no levels, exactly when no other agent is within `radarLength` |
| NpcSensors.NPC.RadarSense | trunk/npc.py:176-218 | the per-agent loop yields the scan: `ok` is false exactly when there are no slices and some agent is on the radar; otherwise there are `radarSlices` levels, per-slice counts that sum to the number of agents on the radar |
| NpcSensors.NPC.Sense | trunk/npc.py:104-108 | one tick runs the range finders, then adjacency, then the radar, with each part's result as above |
| PyList.IndexOf | blockart/player.py:50 | `s.index(x)` is the position of the first occurrence of x |
| PyList.RemoveFirstMultiset | blockart/player.py:47-50 | `list.remove` deletes exactly one copy of the key and nothing else |
| PyList.RemoveFirstMembers | trunk/npc.py:161-162 | `list.remove(x)` does not change the membership of any other element |
| PyList.RemoveFirstNoDup | trunk/npc.py:161-162 | on a list without duplicates, x is gone after `remove(x)` and no duplicate appears |
| PyList.AppendThenRemove | blockart/player.py:41-50 | appending an element not in the list and then removing it gives back the list |
| PyList.RemoveFirstInFront | trunk/npc.py:161-162 | removing an element found in the front part of a concatenation leaves the back part as it was |
| PyList.RemoveFirstBehind | trunk/npc.py:161-162 | removing an element absent from a prefix removes it from the rest and leaves that prefix as it was |
| Player.BindingsSetAndClear | trunk/blockart/player.py:69-81 | each of the six input flags has a press event bound to `setKey(flag, True)` and its "-up" release bound to `setKey(flag, False)`; every binding is one of these (the same bindings as blockart/player.py:76-88) |
| Player.KeyTick | blockart/player.py:150-173 | after one tick each latch equals its level: `lastMouse1State == createBlock`, `lastMouse3State == deleteBlock`, `isMoving == left ∨ right ∨ up ∨ down` |
| Player.KeyTickCounts | trunk/blockart/player.py:101-124 | in one tick createBlock, deleteBlock and `loop("run")` are each called exactly once if their level is up and their latch was down, and not at all otherwise (the same code as blockart/player.py:150-173) |
| Player.KeyTickMoves | blockart/player.py:141-173 | turnLeft, turnRight, moveForward and moveBackward are called iff their flags are set; the stop-and-pose-walk happens iff no direction is held |
| Player.OncePerPress | blockart/player.py:150-173 | over any run of ticks, createBlock, deleteBlock and the run animation are each started exactly as often as their level rises from down to up |
| Player.PitchClamp | blockart/player.py:107-108 | the two clamps leave the pitch in [-90, 45]; a pitch already there is unchanged, one below goes to -90 and one above to 45 |
| Player.PlayerClassState.constructor | blockart/player.py:32-58 | the shared key list starts empty and the shared input map holds the six flags, all false |
| Player.Player.constructor | blockart/player.py:9-30 | no current key, latches down, not moving, heading, pitch and `last` 0 |
| Player.Player.SetCurrentKey | blockart/player.py:34-39 | `currentKey` becomes the argument, including `None`; the old key, if any, is detached before the new one, if any, is put in the right hand (the same in trunk/blockart/player.py:27-32) |
| Player.Player.AddKey | blockart/player.py:41-45 | the shared key list becomes the old list with the key appended (duplicates allowed), and `hasKey` then holds (the same in trunk/blockart/player.py:34-38) |
| Player.Player.RemoveKey | blockart/player.py:47-50 | removal completes iff the key is held; then exactly its first occurrence is deleted and the rest stays in order (one copy fewer by multiset); otherwise the assert raises and the list is unchanged (the same in trunk/blockart/player.py:40-43) |
| Player.AddThenRemove | trunk/blockart/player.py:34-43 | `addKey` and then `removeKey` of a key not held completes and gives back the original key list (the same in blockart/player.py:41-50) |
| Player.Player.HasKey | blockart/player.py:44-45 | `hasKey` holds exactly when some position of the shared key list holds the key (the same in trunk/blockart/player.py:37-38) |
| Player.Player.SetKey | blockart/player.py:73-74 | `setKey` changes exactly one entry of the shared input map, and all six flags stay present |
| Player.Player.HandleEvent | blockart/player.py:76-88 | a bound event changes exactly its binding's flag to its binding's value; any other event leaves the map unchanged (the same bindings in trunk/blockart/player.py:69-81) |
| Player.Player.CameraPosition | blockart/player.py:93-129 | heading and pitch move by -(x-100) and -(y-100) only when the pointer recentre succeeds; the pitch is then clamped into [-90, 45]; the agent heading is `heading - 180`; `last` becomes the task time |
| Player.Player.Locomotion | blockart/player.py:141-148 | the four direction `if`s make exactly the locomotion calls of `KeyTick`, in order |
| Player.Player.CreateBlockEdge | blockart/player.py:150-155 | createBlock is called iff the flag is set and the latch was down; the latch then equals the flag |
| Player.Player.DeleteBlockEdge | blockart/player.py:156-161 | deleteBlock is called iff the flag is set and the latch was down; the latch then equals the flag |
| Player.Player.Animate | blockart/player.py:163-173 | when moving, `loop("run")` is called only if the player was not already moving; when not moving, stop and pose walk; `isMoving` then equals the argument |
| Player.Player.ProcessKey | blockart/player.py:134-177 | one tick makes exactly the calls of `KeyTick` on the shared flags, with turn angle `turnRate·elapsed` and distance `speed·elapsed`; it leaves the latches as `KeyTick` says and records the task time (the same code in trunk/blockart/player.py:85-128) |
| World.OrderNPC | branches/joe-astar/world.py:248-261 | a message that orders an NPC is exactly that order's "ralph has entered/left room N" text |
| World.OrderNPCRoundTrip | branches/joe-astar/world.py:248-261 | each of the six messages orders exactly room N's NPC, with `playerEnteredRoom` or `playerLeftRoom`; with `OrderNPC`'s ensures, no other message orders anyone |
| World.OnCollisionEvent | branches/joe-astar/world.py:264-269 | an event without an `accept` binding orders no NPC |
| World.IntoFloorEvent | branches/joe-astar/world.py:245-269 | the player's `-into-roomNFloor` event orders room N's NPC to handle `playerEnteredRoom` |
| World.OutFloorEvent | branches/joe-astar/world.py:245-269 | the player's `-out-roomNFloor` event orders room N's NPC to handle `playerLeftRoom` |
| World.BoundEventsAreFloorEvents | branches/joe-astar/world.py:264-269 | the six bound events are exactly the player's into and out events of the three floors |
| World.SpinStep | branches/joe-astar/world.py:118-120 | the angle grows by the increment and loses 360 at most once; from [0, 360) with an increment below 360 it stays in [0, 360) |
| World.SpinningRooms | branches/joe-astar/world.py:106-113 | the keys are rotated in room order 1, 2, 3 |
| World.SpinningRoomsMembers | branches/joe-astar/world.py:106-113 | key N is rotated iff neither the player nor room N's NPC holds it; room 1's `not (a or b)` and rooms 2 and 3's `not a and not b` are the same rule |
| World.SpinAllRange | branches/joe-astar/world.py:106-121 | a run of rotations keeps the shared angle in [0, 360) when the increment is below 360; every rotated key gets a heading in that range; every other key keeps its heading |
| World.NeatAfterClosedForm | branches/joe-astar/world.py:465-474 | from a counter in [0, 500), n more calls leave the counter at (count+n) mod 500 and add one generation per 500 calls |
| World.NpcIntoMask | branches/joe-astar/world.py:336-337 | room 1's NPC into-mask becomes old & ~player: it shares no bit with the player's into-mask, and every other bit is as before (rooms 2 and 3 do the same at lines 362-363 and 385-386) |
| World.GateCollideMask | branches/joe-astar/world.py:293 | the gate's mask is the complement of the player's: disjoint from it, and together covering all 32 bits |
| World.GateStopsOnlyNpcs | branches/joe-astar/world.py:285-371 | with the player on bit 1 and the NPCs on bits 2, 4 and 4, the gate mask misses the player's mask and contains each NPC's non-empty mask |
| World.World.constructor | branches/joe-astar/world.py:465-467 | the angle, the generation count and the call count start at 0, and no key has been rotated yet |
| World.World.Rotate | branches/joe-astar/world.py:116-121 | `rotate(None)` changes nothing; otherwise the shared angle takes one `SpinStep` of 250·elapsed, and that key's heading becomes the new angle; an angle and headings in [0, 360) stay there when the increment is below 360 |
| World.World.AnimateItems | branches/joe-astar/world.py:106-113 | the angle and key headings are those of rotating, in room order, exactly the keys that neither the player nor their room's NPC holds; an angle and headings in [0, 360) stay there when the increment is below 360 |
| World.World.NeatEvaluateTask | branches/joe-astar/world.py:469-474 | the counter increments and resets to 0 on reaching 500, and the generation count then rises by one; a new generation is reported iff the reset happened; the counter stays in [0, 500) |

## Left out

- Engine plumbing is left out: the scene graph, physics, gravity, collision traversal, model loading and camera `reparentTo`/`lookAt`/`setPos`. It has no logic of its own to state.
- Engine measurements are inputs: collision-queue entries, surface-point lengths, `getPos` distances, bearings, `getH`, and pointer coordinates with the result of `movePointer`.
- Trigonometry and floating point are not modelled. `math.cos`, `sin`, `atan2` and the x == 0 special case become a given `bearing`. The model uses exact reals, with 2π as the constant 6.283185307179586.
- NpcSensors.ReduceAngle: uses exact reals. In floating point, adding 2π to a tiny negative angle can round to exactly 2π. That angle would reach slice index -1, which Python reads as the last slice. With exact reals both loops always end. In floating point, once |angle| ≥ 2^56, subtracting 2π rounds back to the same value, so the source's loop at trunk/npc.py:204 would never end.
- UI text and drawing are left out: `OnscreenText` overlays, the `adjacencyTexts` labels, the rendered range-data string, and the radar and circle `LineSegs`. They produce only screen output.
- `dropWp` is left out. It writes `waypoints.txt` and loads a model (file I/O).
- The `execfile` level loading in world.py is left out (file I/O).
- NPC `think`/`act` are left out. They are empty.
- World.World.NeatEvaluateTask: models only the counters, not the brain swap at world.py:473-480.
  - The swap reads `self.neuralNetwork`, whose definition is commented out, so the source raises AttributeError there. The counter is reset and the generation incremented before that point.
  - world.py never registers the task with the task manager.
- Task-manager scheduling is left out. Each task is a method called once per tick.
- The pathfinder, waypoints, the NPC state machine, `handleTransition` and the branch's NPC `hasKey()` are not part of this model; their source is not available. So `npcHolds` is a parameter of `AnimateItems`, and an `Order` records the `handleTransition` call.
- Agent is not part of this model.
  - `turnLeft`, `moveForward`, `createBlock`, `deleteBlock`, `loop`, `stop` and `pose` are recorded as `Call` values.
  - `isMoving` is a Player field that starts false.
  - `previousPosition = getPos()` is not modelled.
  - An NPC's own into-mask before the update is a parameter of `NpcIntoMask`, and so is the player's.
- Player.Player.CameraPosition: does not model `elapsed` (lines 114-115), because it is computed but only read in commented-out code. The camera placement calls are engine work.
- World.World.AnimateItems: world.py:24 imports the branch's own player.py, which is not part of this model. The player's `hasKey` is taken to be blockart's `key in playerKeys` on the shared key list.
- NpcSensors.NPC.constructor: sets `radarActivationLevels` to the empty list. The source's `__init__` never assigns it; the attribute first exists after the first `radarSense` (trunk/npc.py:177).
- NpcSensors.NPC.constructor: requires `rangeFinderCount != 1`, where the source raises ZeroDivisionError. `SetupRangeFinders` models that error path as `None`.
- World.GateStopsOnlyNpcs: the `find("**/Cube;+h")` node lookup is engine work. The lemma treats the agents' `collisionMask` as the one given to each constructor.
- World.OnCollisionEvent: the event names assume the player's collision node is named "ralph collision node", as the bindings do. Agent, which names that node, is not part of this model.
- The class-level sharing of `playerKeys` and `__inputMap` is modelled as one shared object.
  - `lastMouse1State`, `lastMouse3State` and the camera fields are per Player, as Python makes them once assigned through `self`.
  - Nothing is claimed about isolation between Players.
