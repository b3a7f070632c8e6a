/**
 * The sensor bookkeeping of the NPC class in trunk/npc.py: range-finder setup,
 * the per-tick range-finder table, the adjacent-agents list and the pie-slice
 * radar.  Everything the game engine measures (collision-queue entries,
 * distances between agents, bearings, the NPC's heading) is an input.
 */
module NpcSensors {
  import opened Wrappers
  import opened PyList

  /** An agent of the shared agent list, by identity. */
  type AgentId = nat

  /** A range finder, by its position in the NPC's `rangeFinders` list. */
  type FinderId = nat

  /** Python's `2. * math.pi`, the double nearest to 2π. */
  const TwoPi: real := 6.283185307179586

  // ---------------------------------------------------------------------
  // Range-finder setup (npc.py:39-64)
  // ---------------------------------------------------------------------

  /** Python 2's `/` on integers: the quotient rounded towards minus infinity. */
  function FloorDiv(a: int, b: int): (q: int)
    requires b != 0
    ensures b > 0 ==> q * b <= a < q * b + b
    ensures b < 0 ==> q * b >= a > q * b + b
  {
    if b > 0 then a / b else (-a) / (-b)
  }

  /** The aim, in degrees, of finder `i` when the NPC has `count` finders. */
  function FinderAngle(count: nat, i: nat): int
    requires count != 1
  {
    i * FloorDiv(180, count - 1)
  }

  /** With at least two finders, every finder points into the half-plane [0, 180] degrees. */
  lemma FinderAngleBounds(count: nat, i: nat)
    requires 2 <= count && i < count
    ensures 0 <= FinderAngle(count, i) <= 180
    ensures FinderAngle(count, count - 1) <= 180 < FinderAngle(count, count - 1) + (count - 1)
  {
    var n := count - 1;
    var d := FloorDiv(180, n);
    assert d * n <= 180 < d * n + n;
    assert n * d == d * n;
    assert 0 <= d;
    ScaleMonotone(i, n, d);
  }

  lemma ScaleMonotone(i: nat, n: nat, d: nat)
    requires i <= n
    ensures 0 <= i * d <= n * d
  {
    assert n * d == i * d + (n - i) * d;
  }

  /** The default of 13 finders fans out in 15-degree steps from 0 to 180. */
  lemma ThirteenFinders()
    ensures forall i: nat :: i < 13 ==> FinderAngle(13, i) == 15 * i
    ensures FinderAngle(13, 0) == 0 && FinderAngle(13, 12) == 180
  {
    assert FloorDiv(180, 12) == 15;
  }

  /**
   * The loop of npc.py:49-64 that steps `angle` by `deviation`.  With one
   * finder the division by `count - 1` raises ZeroDivisionError: `None`.
   */
  method SetupRangeFinders(count: nat) returns (angles: Option<seq<int>>)
    ensures angles.None? <==> count == 1
    ensures angles.Some? ==> |angles.value| == count
    ensures angles.Some? ==> forall i :: 0 <= i < count ==> angles.value[i] == FinderAngle(count, i)
  {
    if count == 1 {
      return None;
    }
    var deviation := FloorDiv(180, count - 1);
    var angle := 0;
    var aimed: seq<int> := [];
    for i := 0 to count
      invariant |aimed| == i
      invariant angle == i * deviation
      invariant forall j :: 0 <= j < i ==> aimed[j] == FinderAngle(count, j)
    {
      aimed := aimed + [angle];
      angle := angle + deviation;
    }
    return Some(aimed);
  }

  // ---------------------------------------------------------------------
  // Per-tick range-finder table (npc.py:118-133)
  // ---------------------------------------------------------------------

  /** A collision-queue entry: the finder that hit, and the length of its surface point. */
  datatype Hit = Hit(from: FinderId, length: real)

  /** The finders 0 .. n-1. */
  function FinderSet(n: nat): (fs: set<FinderId>)
    ensures forall f: FinderId :: f in fs <==> f < n
  {
    if n == 0 then {} else FinderSet(n - 1) + {n - 1}
  }

  /** The finders named by the queue's entries. */
  function Sources(queue: seq<Hit>): set<FinderId> {
    set h | h in queue :: h.from
  }

  /** The table after the loop that writes 0 for finders 0 .. n-1 in order. */
  function ResetFinders(table: map<FinderId, real>, n: nat): map<FinderId, real> {
    if n == 0 then table else ResetFinders(table, n - 1)[n - 1 := 0.0]
  }

  /** The table after the loop that writes each queue entry's length under its finder, in order. */
  function ApplyHits(table: map<FinderId, real>, queue: seq<Hit>): map<FinderId, real> {
    if queue == [] then table
    else
      var last := queue[|queue| - 1];
      ApplyHits(table, queue[..|queue| - 1])[last.from := last.length]
  }

  /** The length of the last entry for finder `f`, if any. */
  function LastHit(queue: seq<Hit>, f: FinderId): Option<real> {
    if queue == [] then None
    else if queue[|queue| - 1].from == f then Some(queue[|queue| - 1].length)
    else LastHit(queue[..|queue| - 1], f)
  }

  /** What the table promises for a finder after a tick: its last hit, or 0. */
  function FinderReading(queue: seq<Hit>, f: FinderId): real {
    match LastHit(queue, f)
    case Some(l) => l
    case None => 0.0
  }

  /** Python's `int(x)` on a float: truncation towards zero. */
  function Trunc(x: real): (r: int)
    ensures 0.0 <= x ==> 0 <= r && r as real <= x < r as real + 1.0
    ensures x < 0.0 ==> r <= 0 && r as real - 1.0 < x <= r as real
  {
    if 0.0 <= x then x.Floor else -((-x).Floor)
  }

  lemma {:induction false} ResetFindersAt(table: map<FinderId, real>, n: nat)
    ensures ResetFinders(table, n).Keys == table.Keys + FinderSet(n)
    ensures forall f :: f in ResetFinders(table, n) ==>
      ResetFinders(table, n)[f] == if f < n then 0.0 else table[f]
  {
    if n > 0 {
      ResetFindersAt(table, n - 1);
      assert FinderSet(n) == FinderSet(n - 1) + {n - 1};
    }
  }

  lemma {:induction false} ApplyHitsAt(table: map<FinderId, real>, queue: seq<Hit>)
    ensures ApplyHits(table, queue).Keys == table.Keys + Sources(queue)
    ensures forall f :: f in ApplyHits(table, queue) ==>
      if LastHit(queue, f).Some? then ApplyHits(table, queue)[f] == LastHit(queue, f).value
      else f in table && ApplyHits(table, queue)[f] == table[f]
  {
    if queue != [] {
      var init := queue[..|queue| - 1];
      ApplyHitsAt(table, init);
      assert queue == init + [queue[|queue| - 1]];
      assert Sources(queue) == Sources(init) + {queue[|queue| - 1].from};
    }
  }

  /**
   * One tick's table: a finder with no queue entry reads 0, one with entries
   * reads the length of its last entry; the keys gain only the queue's sources.
   */
  lemma SenseTable(table: map<FinderId, real>, count: nat, queue: seq<Hit>)
    ensures ApplyHits(ResetFinders(table, count), queue).Keys == table.Keys + FinderSet(count) + Sources(queue)
    ensures forall f :: 0 <= f < count ==>
      f in ApplyHits(ResetFinders(table, count), queue) &&
      ApplyHits(ResetFinders(table, count), queue)[f] == FinderReading(queue, f)
  {
    ResetFindersAt(table, count);
    ApplyHitsAt(ResetFinders(table, count), queue);
  }

  // ---------------------------------------------------------------------
  // Adjacent-agents list (npc.py:139-166)
  // ---------------------------------------------------------------------

  /** One iteration of the loop of npc.py:148-163 for agent `a`. */
  function AdjacencyStep(adj: seq<AgentId>, a: AgentId, me: AgentId, distance: AgentId -> real, threshold: real): seq<AgentId> {
    if a == me then adj
    else if distance(a) <= threshold then (if a in adj then adj else adj + [a])
    else if a in adj then RemoveFirst(adj, a)
    else adj
  }

  /** The list after the whole loop over `agents`. */
  function AdjacencyAfter(adj: seq<AgentId>, agents: seq<AgentId>, me: AgentId, distance: AgentId -> real, threshold: real): seq<AgentId> {
    if agents == [] then adj
    else AdjacencyStep(AdjacencyAfter(adj, agents[..|agents| - 1], me, distance, threshold), agents[|agents| - 1], me, distance, threshold)
  }

  /** Agent `x` is out of range and is looked at by the scan, so the scan drops it. */
  predicate DroppedBy(x: AgentId, agents: seq<AgentId>, me: AgentId, distance: AgentId -> real, threshold: real) {
    x in agents && x != me && threshold < distance(x)
  }

  /** The old entries that stay, in their old order. */
  function Survivors(adj: seq<AgentId>, agents: seq<AgentId>, me: AgentId, distance: AgentId -> real, threshold: real): seq<AgentId> {
    if adj == [] then []
    else
      (if DroppedBy(adj[0], agents, me, distance, threshold) then [] else [adj[0]])
      + Survivors(adj[1..], agents, me, distance, threshold)
  }

  /** The agents newly found adjacent, in the order they first occur in `agents`. */
  function Newcomers(adj: seq<AgentId>, agents: seq<AgentId>, me: AgentId, distance: AgentId -> real, threshold: real): seq<AgentId> {
    if agents == [] then []
    else
      var a := agents[|agents| - 1];
      var earlier := Newcomers(adj, agents[..|agents| - 1], me, distance, threshold);
      if a != me && distance(a) <= threshold && a !in adj && a !in earlier then earlier + [a] else earlier
  }

  lemma {:induction false} SurvivorsMembers(adj: seq<AgentId>, agents: seq<AgentId>, me: AgentId, distance: AgentId -> real, threshold: real)
    ensures forall y :: y in Survivors(adj, agents, me, distance, threshold) <==>
      y in adj && !DroppedBy(y, agents, me, distance, threshold)
    ensures NoDup(adj) ==> NoDup(Survivors(adj, agents, me, distance, threshold))
  {
    if adj != [] {
      SurvivorsMembers(adj[1..], agents, me, distance, threshold);
      assert adj == [adj[0]] + adj[1..];
      if NoDup(adj) {
        assert NoDup(adj[1..]);
        assert adj[0] !in adj[1..];
      }
    }
  }

  /** A scan of no agents drops nothing. */
  lemma {:induction false} SurvivorsOfNone(adj: seq<AgentId>, me: AgentId, distance: AgentId -> real, threshold: real)
    ensures Survivors(adj, [], me, distance, threshold) == adj
  {
    if adj != [] {
      SurvivorsOfNone(adj[1..], me, distance, threshold);
      assert adj == [adj[0]] + adj[1..];
    }
  }

  /** An agent the scan does not drop leaves the survivors as they were. */
  lemma {:induction false} SurvivorsKeep(adj: seq<AgentId>, agents: seq<AgentId>, a: AgentId, me: AgentId, distance: AgentId -> real, threshold: real)
    requires a == me || distance(a) <= threshold
    ensures Survivors(adj, agents + [a], me, distance, threshold) == Survivors(adj, agents, me, distance, threshold)
  {
    if adj != [] {
      SurvivorsKeep(adj[1..], agents, a, me, distance, threshold);
      assert DroppedBy(adj[0], agents + [a], me, distance, threshold) == DroppedBy(adj[0], agents, me, distance, threshold);
    }
  }

  /** An agent the scan drops is removed from the survivors, by `remove`. */
  lemma {:induction false} SurvivorsDrop(adj: seq<AgentId>, agents: seq<AgentId>, a: AgentId, me: AgentId, distance: AgentId -> real, threshold: real)
    requires NoDup(adj) && a != me && threshold < distance(a)
    ensures var s := Survivors(adj, agents, me, distance, threshold);
      Survivors(adj, agents + [a], me, distance, threshold) == if a in s then RemoveFirst(s, a) else s
  {
    var s := Survivors(adj, agents, me, distance, threshold);
    if adj != [] {
      var rest := adj[1..];
      var y := adj[0];
      assert adj == [y] + rest;
      assert NoDup(rest);
      SurvivorsDrop(rest, agents, a, me, distance, threshold);
      SurvivorsMembers(rest, agents, me, distance, threshold);
      SurvivorsMembers(rest, agents + [a], me, distance, threshold);
      var sr := Survivors(rest, agents, me, distance, threshold);
      var pre := if DroppedBy(y, agents, me, distance, threshold) then [] else [y];
      assert s == pre + sr;
      if y == a {
        assert a !in rest;
        assert a !in sr;
        assert Survivors(adj, agents + [a], me, distance, threshold) == sr;
        if pre == [a] {
          assert a in s;
          assert IndexOf(s, a) == 0;
          assert RemoveFirst(s, a) == sr;
        } else {
          assert s == sr;
        }
      } else {
        assert DroppedBy(y, agents + [a], me, distance, threshold) == DroppedBy(y, agents, me, distance, threshold);
        assert Survivors(adj, agents + [a], me, distance, threshold) == pre + Survivors(rest, agents + [a], me, distance, threshold);
        if a in sr {
          RemoveFirstBehind(pre, sr, a);
        }
      }
    }
  }

  lemma {:induction false} NewcomersMembers(adj: seq<AgentId>, agents: seq<AgentId>, me: AgentId, distance: AgentId -> real, threshold: real)
    ensures forall y :: y in Newcomers(adj, agents, me, distance, threshold) <==>
      y in agents && y != me && distance(y) <= threshold && y !in adj
    ensures NoDup(Newcomers(adj, agents, me, distance, threshold))
  {
    if agents != [] {
      var init := agents[..|agents| - 1];
      NewcomersMembers(adj, init, me, distance, threshold);
      assert agents == init + [agents[|agents| - 1]];
    }
  }

  /**
   * With no duplicates to begin with, the scan keeps the old entries that are
   * not dropped, in order, and appends the newcomers in agent-list order.
   */
  lemma {:induction false} AdjacencyOrder(adj: seq<AgentId>, agents: seq<AgentId>, me: AgentId, distance: AgentId -> real, threshold: real)
    requires NoDup(adj)
    ensures AdjacencyAfter(adj, agents, me, distance, threshold) ==
      Survivors(adj, agents, me, distance, threshold) + Newcomers(adj, agents, me, distance, threshold)
  {
    if agents == [] {
      SurvivorsOfNone(adj, me, distance, threshold);
    } else {
      var init := agents[..|agents| - 1];
      var a := agents[|agents| - 1];
      assert agents == init + [a];
      AdjacencyOrder(adj, init, me, distance, threshold);
      var s := Survivors(adj, init, me, distance, threshold);
      var n := Newcomers(adj, init, me, distance, threshold);
      SurvivorsMembers(adj, init, me, distance, threshold);
      NewcomersMembers(adj, init, me, distance, threshold);
      var after := AdjacencyAfter(adj, agents, me, distance, threshold);
      assert after == AdjacencyStep(s + n, a, me, distance, threshold);
      if a == me {
        SurvivorsKeep(adj, init, a, me, distance, threshold);
        assert Newcomers(adj, agents, me, distance, threshold) == n;
        assert Survivors(adj, agents, me, distance, threshold) == s;
        assert after == s + n;
      } else if distance(a) <= threshold {
        SurvivorsKeep(adj, init, a, me, distance, threshold);
        if a in s + n {
          assert a in adj || a in n;
          assert Newcomers(adj, agents, me, distance, threshold) == n;
          assert after == s + n;
        } else {
          assert a !in adj;
          assert Newcomers(adj, agents, me, distance, threshold) == n + [a];
          assert s + n + [a] == s + (n + [a]);
          assert after == s + n + [a];
        }
      } else {
        SurvivorsDrop(adj, init, a, me, distance, threshold);
        assert Newcomers(adj, agents, me, distance, threshold) == n;
        assert a !in n;
        if a in s {
          RemoveFirstInFront(s, n, a);
          assert after == RemoveFirst(s, a) + n;
        } else {
          assert after == s + n;
        }
      }
    }
  }

  /**
   * After the scan, an agent of the list other than the NPC itself is adjacent
   * exactly when its distance is at most the threshold; the NPC itself and
   * agents not in the list keep their membership.  No duplicate appears.
   */
  lemma AdjacencyMembership(adj: seq<AgentId>, agents: seq<AgentId>, me: AgentId, distance: AgentId -> real, threshold: real)
    requires NoDup(adj)
    ensures NoDup(AdjacencyAfter(adj, agents, me, distance, threshold))
    ensures forall x :: x in AdjacencyAfter(adj, agents, me, distance, threshold) <==>
      if x in agents && x != me then distance(x) <= threshold else x in adj
  {
    AdjacencyOrder(adj, agents, me, distance, threshold);
    var s := Survivors(adj, agents, me, distance, threshold);
    var n := Newcomers(adj, agents, me, distance, threshold);
    SurvivorsMembers(adj, agents, me, distance, threshold);
    NewcomersMembers(adj, agents, me, distance, threshold);
    forall i, j | 0 <= i < j < |s + n| ensures (s + n)[i] != (s + n)[j] {
      if i < |s| && |s| <= j {
        assert (s + n)[i] in s && (s + n)[j] in n;
      }
    }
  }

  // ---------------------------------------------------------------------
  // Radar (npc.py:176-218)
  // ---------------------------------------------------------------------

  /** What the engine reports around the NPC in one tick. */
  datatype Surroundings = Surroundings(
    distance: AgentId -> real,  // length of the vector between the NPC and an agent
    bearing: AgentId -> real,   // the vector's angle in radians, as atan2 computes it
    headingRadians: real)       // the NPC's own heading, math.radians(self.getH())

  /** An angle reduced into [0, 2π): the value npc.py:204-207's loops reach. */
  function Reduced(a: real): real {
    a - (a / TwoPi).Floor as real * TwoPi
  }

  lemma ReducedRange(a: real)
    ensures 0.0 <= Reduced(a) < TwoPi
  {
    var q := a / TwoPi;
    var f := q.Floor as real;
    assert f <= q < f + 1.0;
    assert q * TwoPi == a;
    assert f * TwoPi <= q * TwoPi;
    assert q * TwoPi < (f + 1.0) * TwoPi;
  }

  /** An angle that differs from `a` by whole turns and lies in [0, 2π) is `Reduced(a)`. */
  lemma ReducedUnique(a: real, r: real, k: int)
    requires 0.0 <= r < TwoPi && r == a + k as real * TwoPi
    ensures r == Reduced(a)
  {
    ReducedRange(a);
    var f := (a / TwoPi).Floor;
    var m := k + f;
    assert r - Reduced(a) == m as real * TwoPi;
  }

  /** The two `while` loops of npc.py:204-207. */
  method ReduceAngle(a: real) returns (r: real)
    ensures 0.0 <= r < TwoPi
    ensures r == Reduced(a)
  {
    r := a;
    ghost var k: int := 0;
    while r >= TwoPi
      invariant r == a + k as real * TwoPi
      decreases r.Floor
    {
      r := r - TwoPi;
      k := k - 1;
    }
    while r < 0.0
      invariant r == a + k as real * TwoPi
      invariant r < TwoPi
      decreases (-r).Floor
    {
      r := r + TwoPi;
      k := k + 1;
    }
    ReducedUnique(a, r, k);
  }

  /** npc.py:212: `int(slices * θ / 2π)`, the slice counted anticlockwise. */
  function Orthant(slices: nat, theta: real): int {
    Trunc(slices as real * theta / TwoPi)
  }

  /** npc.py:213: the slice index, counted the other way round. */
  function SliceIndex(slices: nat, theta: real): int {
    slices - Orthant(slices, theta) - 1
  }

  /** For a reduced angle and at least one slice, the index names a slice. */
  lemma SliceIndexRange(slices: nat, theta: real)
    requires 1 <= slices && 0.0 <= theta < TwoPi
    ensures 0 <= SliceIndex(slices, theta) < slices
  {
    var x := slices as real * theta / TwoPi;
    assert x * TwoPi == slices as real * theta;
    assert slices as real * theta < slices as real * TwoPi;
    assert 0.0 <= x < slices as real;
  }

  /** The slice that agent `a` falls into. */
  function RadarSlot(env: Surroundings, slices: nat, a: AgentId): int {
    SliceIndex(slices, Reduced(env.bearing(a) - env.headingRadians))
  }

  /** Python's `levels[i]` index: negative indices count from the end; `None` for IndexError. */
  function PyIndex(n: nat, i: int): (r: Option<nat>)
    ensures r.Some? ==> r.value < n
    ensures 0 <= i < n ==> r == Some(i)
    ensures -(n as int) <= i < 0 ==> r == Some(i + n)
    ensures (i < -(n as int) || n <= i) ==> r.None?
  {
    if 0 <= i < n then Some(i) else if -(n as int) <= i < 0 then Some(i + n) else None
  }

  /** The NPC sees agent `a` on its radar. */
  predicate OnRadar(env: Surroundings, me: AgentId, radarLength: real, a: AgentId) {
    a != me && env.distance(a) <= radarLength
  }

  function Zeros(n: nat): (z: seq<nat>)
    ensures |z| == n && forall i :: 0 <= i < n ==> z[i] == 0
  {
    if n == 0 then [] else Zeros(n - 1) + [0]
  }

  /** The activation levels after the loop of npc.py:178-215 (`None`: it raised IndexError). */
  function RadarScan(agents: seq<AgentId>, env: Surroundings, me: AgentId, radarLength: real, slices: nat): Option<seq<nat>> {
    if agents == [] then Some(Zeros(slices))
    else RadarStep(RadarScan(agents[..|agents| - 1], env, me, radarLength, slices), agents[|agents| - 1], env, me, radarLength, slices)
  }

  /** One iteration of that loop, for agent `a`. */
  function RadarStep(scan: Option<seq<nat>>, a: AgentId, env: Surroundings, me: AgentId, radarLength: real, slices: nat): Option<seq<nat>> {
    match scan
    case None => None
    case Some(levels) =>
      if !OnRadar(env, me, radarLength, a) then Some(levels)
      else match PyIndex(|levels|, RadarSlot(env, slices, a))
        case None => None
        case Some(k) => Some(levels[k := levels[k] + 1])
  }

  /** Once indexing has raised, the rest of the list does not matter. */
  lemma {:induction false} RadarScanRaised(agents: seq<AgentId>, i: nat, env: Surroundings, me: AgentId, radarLength: real, slices: nat)
    requires i <= |agents| && RadarScan(agents[..i], env, me, radarLength, slices).None?
    ensures RadarScan(agents, env, me, radarLength, slices).None?
  {
    if i == |agents| {
      assert agents[..i] == agents;
    } else {
      var init := agents[..|agents| - 1];
      assert init[..i] == agents[..i];
      RadarScanRaised(init, i, env, me, radarLength, slices);
    }
  }

  /** The number of entries of `agents` on the radar. */
  function OnRadarCount(agents: seq<AgentId>, env: Surroundings, me: AgentId, radarLength: real): nat {
    if agents == [] then 0
    else
      OnRadarCount(agents[..|agents| - 1], env, me, radarLength)
      + if OnRadar(env, me, radarLength, agents[|agents| - 1]) then 1 else 0
  }

  /** The number of entries of `agents` on the radar in slice `k`. */
  function SliceCount(agents: seq<AgentId>, env: Surroundings, me: AgentId, radarLength: real, slices: nat, k: int): nat {
    if agents == [] then 0
    else
      var a := agents[|agents| - 1];
      SliceCount(agents[..|agents| - 1], env, me, radarLength, slices, k)
        + if OnRadar(env, me, radarLength, a) && RadarSlot(env, slices, a) == k then 1 else 0
  }

  function Sum(s: seq<nat>): nat {
    if s == [] then 0 else Sum(s[..|s| - 1]) + s[|s| - 1]
  }

  lemma {:induction false} SumZeros(n: nat)
    ensures Sum(Zeros(n)) == 0
  {
    if n > 0 {
      SumZeros(n - 1);
      assert Zeros(n)[..n - 1] == Zeros(n - 1);
    }
  }

  lemma {:induction false} SumBump(s: seq<nat>, k: nat)
    requires k < |s|
    ensures Sum(s[k := s[k] + 1]) == Sum(s) + 1
  {
    var t := s[k := s[k] + 1];
    if k == |s| - 1 {
      assert t[..|t| - 1] == s[..|s| - 1];
    } else {
      SumBump(s[..|s| - 1], k);
      assert t[..|t| - 1] == s[..|s| - 1][k := s[k] + 1];
    }
  }

  /**
   * With at least one slice the scan never fails; there are `slices` levels,
   * level k counts the agents on the radar in slice k, and the levels add up
   * to the number of agents on the radar.
   */
  lemma {:induction false} RadarScanSlices(agents: seq<AgentId>, env: Surroundings, me: AgentId, radarLength: real, slices: nat)
    requires 1 <= slices
    ensures RadarScan(agents, env, me, radarLength, slices).Some?
    ensures |RadarScan(agents, env, me, radarLength, slices).value| == slices
    ensures Sum(RadarScan(agents, env, me, radarLength, slices).value) == OnRadarCount(agents, env, me, radarLength)
    ensures forall k :: 0 <= k < slices ==>
      RadarScan(agents, env, me, radarLength, slices).value[k] == SliceCount(agents, env, me, radarLength, slices, k)
  {
    if agents == [] {
      SumZeros(slices);
    } else {
      var init := agents[..|agents| - 1];
      var a := agents[|agents| - 1];
      RadarScanSlices(init, env, me, radarLength, slices);
      var levels := RadarScan(init, env, me, radarLength, slices).value;
      if OnRadar(env, me, radarLength, a) {
        ReducedRange(env.bearing(a) - env.headingRadians);
        SliceIndexRange(slices, Reduced(env.bearing(a) - env.headingRadians));
        var k := RadarSlot(env, slices, a);
        assert PyIndex(|levels|, k) == Some(k);
        SumBump(levels, k);
      }
    }
  }

  /** With no slices the scan succeeds exactly when no agent is on the radar, leaving no levels. */
  lemma {:induction false} RadarScanNoSlices(agents: seq<AgentId>, env: Surroundings, me: AgentId, radarLength: real)
    ensures RadarScan(agents, env, me, radarLength, 0).Some? <==> OnRadarCount(agents, env, me, radarLength) == 0
    ensures RadarScan(agents, env, me, radarLength, 0).Some? ==> RadarScan(agents, env, me, radarLength, 0).value == []
  {
    if agents != [] {
      RadarScanNoSlices(agents[..|agents| - 1], env, me, radarLength);
    }
  }

  // ---------------------------------------------------------------------
  // The NPC's sensor state
  // ---------------------------------------------------------------------

  class NPC {
    const me: AgentId
    const rangeFinderCount: nat
    const rangeFinderAngles: seq<int>
    const adjacencySensorThreshold: real
    const radarSlices: nat
    const radarLength: real
    var persistentRangeFinderData: map<FinderId, real>
    var adjacentAgents: seq<AgentId>
    var radarActivationLevels: seq<nat>

    /** Every finder has a table entry, and the adjacency list has no duplicates. */
    ghost predicate Valid()
      reads this
    {
      FinderSet(rangeFinderCount) <= persistentRangeFinderData.Keys &&
      NoDup(adjacentAgents)
    }

    /** npc.py:18-78; one finder makes the source divide by zero, so it is excluded. */
    constructor (me: AgentId, rangeFinderCount: nat, adjacencySensorThreshold: real, radarSlices: nat, radarLength: real)
      requires rangeFinderCount != 1
      ensures Valid()
      ensures this.me == me && this.rangeFinderCount == rangeFinderCount
      ensures this.adjacencySensorThreshold == adjacencySensorThreshold
      ensures this.radarSlices == radarSlices && this.radarLength == radarLength
      ensures |rangeFinderAngles| == rangeFinderCount
      ensures forall i :: 0 <= i < rangeFinderCount ==> rangeFinderAngles[i] == FinderAngle(rangeFinderCount, i)
      ensures persistentRangeFinderData.Keys == FinderSet(rangeFinderCount)
      ensures forall f :: f in persistentRangeFinderData ==> persistentRangeFinderData[f] == 0.0
      ensures adjacentAgents == [] && radarActivationLevels == []
    {
      var table: map<FinderId, real> := map[];
      for f := 0 to rangeFinderCount
        invariant table == ResetFinders(map[], f)
      {
        table := table[f := 0.0];
      }
      ResetFindersAt(map[], rangeFinderCount);
      var angles := SetupRangeFinders(rangeFinderCount);
      this.me := me;
      this.rangeFinderCount := rangeFinderCount;
      this.adjacencySensorThreshold := adjacencySensorThreshold;
      this.radarSlices := radarSlices;
      this.radarLength := radarLength;
      rangeFinderAngles := angles.value;
      persistentRangeFinderData := table;
      adjacentAgents := [];
      radarActivationLevels := [];
    }

    /**
     * npc.py:118-133: reset every finder to 0, apply the queue's hits in
     * order, and report the readings truncated to integers in finder order.
     */
    method RangeFinderSense(queue: seq<Hit>) returns (pd: seq<int>)
      requires Valid()
      modifies this`persistentRangeFinderData
      ensures Valid()
      ensures persistentRangeFinderData == ApplyHits(ResetFinders(old(persistentRangeFinderData), rangeFinderCount), queue)
      ensures persistentRangeFinderData.Keys == old(persistentRangeFinderData).Keys + Sources(queue)
      ensures old(persistentRangeFinderData).Keys == FinderSet(rangeFinderCount) && Sources(queue) <= FinderSet(rangeFinderCount)
        ==> persistentRangeFinderData.Keys == FinderSet(rangeFinderCount)
      ensures forall f :: 0 <= f < rangeFinderCount ==> persistentRangeFinderData[f] == FinderReading(queue, f)
      ensures |pd| == rangeFinderCount
      ensures forall f :: 0 <= f < rangeFinderCount ==> pd[f] == Trunc(FinderReading(queue, f))
    {
      ghost var before := persistentRangeFinderData;
      for f := 0 to rangeFinderCount
        invariant persistentRangeFinderData == ResetFinders(before, f)
      {
        persistentRangeFinderData := persistentRangeFinderData[f := 0.0];
      }
      ghost var reset := persistentRangeFinderData;
      for i := 0 to |queue|
        invariant persistentRangeFinderData == ApplyHits(reset, queue[..i])
      {
        var entry := queue[i];
        assert queue[..i + 1] == queue[..i] + [entry];
        persistentRangeFinderData := persistentRangeFinderData[entry.from := entry.length];
      }
      assert queue[..|queue|] == queue;
      SenseTable(before, rangeFinderCount, queue);
      pd := [];
      for i := 0 to rangeFinderCount
        invariant |pd| == i
        invariant forall f :: 0 <= f < i ==> pd[f] == Trunc(FinderReading(queue, f))
      {
        pd := pd + [Trunc(persistentRangeFinderData[i])];
      }
    }

    /**
     * npc.py:139-166, the list maintenance: each other agent of the list is
     * appended when within the threshold and absent, removed when beyond it
     * and present.
     */
    method AdjacencySense(agentList: seq<AgentId>, distance: AgentId -> real)
      requires Valid()
      modifies this`adjacentAgents
      ensures Valid()
      ensures adjacentAgents == AdjacencyAfter(old(adjacentAgents), agentList, me, distance, adjacencySensorThreshold)
      ensures adjacentAgents ==
        Survivors(old(adjacentAgents), agentList, me, distance, adjacencySensorThreshold) +
        Newcomers(old(adjacentAgents), agentList, me, distance, adjacencySensorThreshold)
      ensures forall x :: x in adjacentAgents <==>
        if x in agentList && x != me then distance(x) <= adjacencySensorThreshold else x in old(adjacentAgents)
    {
      ghost var before := adjacentAgents;
      for i := 0 to |agentList|
        invariant adjacentAgents == AdjacencyAfter(before, agentList[..i], me, distance, adjacencySensorThreshold)
      {
        var agent := agentList[i];
        assert agentList[..i + 1] == agentList[..i] + [agent];
        if me != agent {
          if distance(agent) <= adjacencySensorThreshold {
            if agent !in adjacentAgents {
              adjacentAgents := adjacentAgents + [agent];
            }
          } else if agent in adjacentAgents {
            adjacentAgents := RemoveFirst(adjacentAgents, agent);
          }
        }
      }
      assert agentList[..|agentList|] == agentList;
      AdjacencyOrder(before, agentList, me, distance, adjacencySensorThreshold);
      AdjacencyMembership(before, agentList, me, distance, adjacencySensorThreshold);
    }

    /**
     * npc.py:176-218: bins every other agent within `radarLength` into a pie
     * slice.  `ok` is false when indexing the levels raised IndexError, which
     * happens exactly when there are no slices and some agent is on the radar.
     */
    method RadarSense(agentList: seq<AgentId>, env: Surroundings) returns (ok: bool)
      modifies this`radarActivationLevels
      ensures RadarScan(agentList, env, me, radarLength, radarSlices) == if ok then Some(radarActivationLevels) else None
      ensures |radarActivationLevels| == radarSlices
      ensures ok <==> 1 <= radarSlices || OnRadarCount(agentList, env, me, radarLength) == 0
      ensures ok ==> Sum(radarActivationLevels) == OnRadarCount(agentList, env, me, radarLength)
      ensures ok ==> forall k :: 0 <= k < radarSlices ==>
        radarActivationLevels[k] == SliceCount(agentList, env, me, radarLength, radarSlices, k)
    {
      radarActivationLevels := Zeros(radarSlices);
      ok := true;
      if radarSlices >= 1 {
        RadarScanSlices(agentList, env, me, radarLength, radarSlices);
      } else {
        RadarScanNoSlices(agentList, env, me, radarLength);
      }
      for i := 0 to |agentList|
        invariant |radarActivationLevels| == radarSlices
        invariant RadarScan(agentList[..i], env, me, radarLength, radarSlices) == Some(radarActivationLevels)
      {
        var agent := agentList[i];
        assert agentList[..i + 1][..i] == agentList[..i];
        ghost var next := RadarStep(Some(radarActivationLevels), agent, env, me, radarLength, radarSlices);
        assert RadarScan(agentList[..i + 1], env, me, radarLength, radarSlices) == next;
        if me != agent {
          if env.distance(agent) > radarLength {
            continue;
          }
          var transformAngle := env.bearing(agent) - env.headingRadians;
          transformAngle := ReduceAngle(transformAngle);
          var orthant := Orthant(radarSlices, transformAngle);
          orthant := radarSlices - orthant - 1;
          var slot := PyIndex(|radarActivationLevels|, orthant);
          if slot.None? {
            RadarScanRaised(agentList, i + 1, env, me, radarLength, radarSlices);
            return false;
          }
          radarActivationLevels := radarActivationLevels[slot.value := radarActivationLevels[slot.value] + 1];
        }
      }
      assert agentList[..|agentList|] == agentList;
    }

    /** npc.py:104-108: the range finders, then adjacency, then the radar. */
    method Sense(queue: seq<Hit>, agentList: seq<AgentId>, env: Surroundings) returns (pd: seq<int>, radarOk: bool)
      requires Valid()
      modifies this`persistentRangeFinderData, this`adjacentAgents, this`radarActivationLevels
      ensures Valid()
      ensures persistentRangeFinderData == ApplyHits(ResetFinders(old(persistentRangeFinderData), rangeFinderCount), queue)
      ensures |pd| == rangeFinderCount
      ensures forall f :: 0 <= f < rangeFinderCount ==> pd[f] == Trunc(FinderReading(queue, f))
      ensures adjacentAgents == AdjacencyAfter(old(adjacentAgents), agentList, me, env.distance, adjacencySensorThreshold)
      ensures RadarScan(agentList, env, me, radarLength, radarSlices) == if radarOk then Some(radarActivationLevels) else None
    {
      pd := RangeFinderSense(queue);
      AdjacencySense(agentList, env.distance);
      radarOk := RadarSense(agentList, env);
    }
  }
}
