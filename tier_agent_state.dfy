// The per-placement-group tiering agent state: flush and evict modes, their
// names, idleness, and the temperature of an object over the archived hit sets.

module TierAgentState {
  import opened Wrappers
  import opened Objects

  /** Flush behaviour of the agent. */
  datatype FlushMode = FlushModeIdle | FlushModeActive

  /** Evict behaviour of the agent. */
  datatype EvictMode = EvictModeIdle | EvictModeSome | EvictModeFull

  /**
   * The agent state. `position` is the sweep cursor (None for the default,
   * i.e. the start of the pool), `ageHistogram` the power-of-two histogram of
   * ages seen, `hitSetMap` the past (sealed) hit sets, oldest first, and
   * `recentClean` a few recently seen clean objects.
   */
  datatype AgentState = AgentState(
    position: Option<ObjKey>,
    ageHistogram: seq<int>,
    hitSetMap: seq<HitSet>,
    recentClean: seq<ObjKey>,
    flushMode: FlushMode,
    evictMode: EvictMode)

  /** The static flush-mode name; total over the two modes. */
  function FlushModeName(m: FlushMode): (r: string)
    ensures r == "idle" <==> m == FlushModeIdle
    ensures r == "active" <==> m == FlushModeActive
  {
    match m
    case FlushModeIdle => "idle"
    case FlushModeActive => "active"
  }

  /** The static evict-mode name; total over the three modes. */
  function EvictModeName(m: EvictMode): (r: string)
    ensures r == "idle" <==> m == EvictModeIdle
    ensures r == "some" <==> m == EvictModeSome
    ensures r == "full" <==> m == EvictModeFull
  {
    match m
    case EvictModeIdle => "idle"
    case EvictModeSome => "some"
    case EvictModeFull => "full"
  }

  /** The member getter: the name of the current flush mode. */
  function CurrentFlushModeName(s: AgentState): (r: string)
    ensures r == "idle" <==> s.flushMode == FlushModeIdle
    ensures r == "active" <==> s.flushMode == FlushModeActive
  {
    FlushModeName(s.flushMode)
  }

  /** The member getter: the name of the current evict mode. */
  function CurrentEvictModeName(s: AgentState): (r: string)
    ensures r == "idle" <==> s.evictMode == EvictModeIdle
    ensures r == "some" <==> s.evictMode == EvictModeSome
    ensures r == "full" <==> s.evictMode == EvictModeFull
  {
    EvictModeName(s.evictMode)
  }

  /** The default-constructed agent state. */
  function NewAgentState(): (s: AgentState)
    ensures s.flushMode == FlushModeIdle && s.evictMode == EvictModeIdle
    ensures s.hitSetMap == [] && s.recentClean == [] && s.ageHistogram == []
    ensures s.position == None
  {
    AgentState(None, [], [], [], FlushModeIdle, EvictModeIdle)
  }

  /** False if the agent has any work to do. */
  function IsIdle(s: AgentState): (r: bool)
    ensures r <==> CurrentFlushModeName(s) == "idle" && CurrentEvictModeName(s) == "idle"
    ensures s.flushMode == FlushModeActive ==> !r
    ensures s.evictMode == EvictModeSome || s.evictMode == EvictModeFull ==> !r
  {
    s.flushMode == FlushModeIdle && s.evictMode == EvictModeIdle
  }

  /** A freshly constructed agent has no work to do. */
  lemma NewAgentStateIsIdle()
    ensures IsIdle(NewAgentState())
  {
  }

  /** Number of hit sets in `hs` that contain `o`: the agent's temperature. */
  function Temperature(hs: seq<HitSet>, o: ObjKey): (t: nat)
    ensures t <= |hs|
    decreases |hs|
  {
    if hs == [] then 0
    else Temperature(hs[..|hs| - 1], o) + (if hs[|hs| - 1].Contains(o) then 1 else 0)
  }

  /** The positions in `hs` of the hit sets that contain `o`. */
  ghost function HitIndices(hs: seq<HitSet>, o: ObjKey): set<nat>
  {
    set i: nat | i < |hs| && hs[i].Contains(o)
  }

  /** Temperature counts exactly the hit sets the object appears in. */
  lemma {:induction false} TemperatureCountsHits(hs: seq<HitSet>, o: ObjKey)
    ensures Temperature(hs, o) == |HitIndices(hs, o)|
    decreases |hs|
  {
    if hs != [] {
      var n := |hs| - 1;
      var pre := hs[..n];
      TemperatureCountsHits(pre, o);
      var last: set<nat> := if hs[n].Contains(o) then {n} else {};
      assert HitIndices(hs, o) == HitIndices(pre, o) + last;
      assert n !in HitIndices(pre, o);
    }
  }

  /** Appending a newly sealed hit set raises the temperature by at most one. */
  lemma {:induction false} TemperatureAppend(hs: seq<HitSet>, h: HitSet, o: ObjKey)
    ensures Temperature(hs + [h], o) == Temperature(hs, o) + (if h.Contains(o) then 1 else 0)
  {
    assert (hs + [h])[..|hs|] == hs;
  }

  /** Dropping the oldest hit set (archive trimming) lowers the temperature by at most one. */
  lemma {:induction false} TemperatureTrimOldest(hs: seq<HitSet>, o: ObjKey)
    requires hs != []
    ensures Temperature(hs[1..], o) == Temperature(hs, o) - (if hs[0].Contains(o) then 1 else 0)
    decreases |hs|
  {
    var n := |hs| - 1;
    if n > 0 {
      TemperatureTrimOldest(hs[..n], o);
      assert hs[..n][1..] == hs[1..][..n - 1];
      assert hs[1..][n - 1] == hs[n];
    }
  }

  /** The temperature is maximal exactly when every archived hit set holds the object. */
  lemma {:induction false} TemperatureFull(hs: seq<HitSet>, o: ObjKey)
    ensures Temperature(hs, o) == |hs| <==> forall i :: 0 <= i < |hs| ==> hs[i].Contains(o)
    decreases |hs|
  {
    if hs != [] {
      var n := |hs| - 1;
      TemperatureFull(hs[..n], o);
      assert forall i :: 0 <= i < n ==> hs[..n][i] == hs[i];
    }
  }

  /** The temperature part of agent_estimate_age, over the agent's past hit sets. */
  function EstimateTemperature(s: AgentState, o: ObjKey): (t: nat)
    ensures t <= |s.hitSetMap|
    ensures t == 0 <==> forall i :: 0 <= i < |s.hitSetMap| ==> !s.hitSetMap[i].Contains(o)
  {
    TemperatureCountsHits(s.hitSetMap, o);
    var t := Temperature(s.hitSetMap, o);
    assert t == 0 ==> HitIndices(s.hitSetMap, o) == {};
    assert (exists i :: 0 <= i < |s.hitSetMap| && s.hitSetMap[i].Contains(o)) ==> t > 0 by {
      if i :| 0 <= i < |s.hitSetMap| && s.hitSetMap[i].Contains(o) {
        assert i in HitIndices(s.hitSetMap, o);
      }
    }
    t
  }
}
