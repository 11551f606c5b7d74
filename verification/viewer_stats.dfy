/**
 * The viewer's stat array and its phase-timer table. A phase table maps
 * phase names to timers; stopping a started phase records its elapsed time
 * into a registry of per-name accumulators shared by every phase table.
 */
module ViewerStats {

  /** The stat array (mStats), indexed by stat type. */
  class Stats {
    const values: array<real>

    /** Every stat starts at 0, except the bad-timer stat, which is 1 when the timer is known bad. */
    constructor (count: nat, badTimerIndex: nat, knownBadTimer: bool)
      requires badTimerIndex < count
      ensures fresh(values) && values.Length == count
      ensures forall i :: 0 <= i < count ==>
        values[i] == if knownBadTimer && i == badTimerIndex then 1.0 else 0.0
    {
      var a := new real[count];
      for i := 0 to count
        invariant forall j :: 0 <= j < i ==> a[j] == 0.0
      {
        a[i] := 0.0;
      }
      if knownBadTimer {
        a[badTimerIndex] := 1.0;
      }
      values := a;
    }

    method GetStat(index: nat) returns (v: real)
      requires index < values.Length
      ensures v == values[index]
    {
      v := values[index];
    }

    /** Stores v at index and returns what is then stored there; every other stat is unchanged. */
    method SetStat(index: nat, v: real) returns (stored: real)
      requires index < values.Length
      modifies values
      ensures stored == v && values[index] == v
      ensures forall j :: 0 <= j < values.Length && j != index ==> values[j] == old(values[j])
    {
      values[index] := v;
      stored := values[index];
    }
  }

  /**
   * A frame timer: running or paused, with the elapsed time it reports. How
   * the frame clock advances the elapsed time is outside this model.
   */
  datatype Timer = Timer(started: bool, elapsed: real)

  /** A newly constructed timer: running, with nothing elapsed yet. */
  function FreshTimer(): (t: Timer)
    ensures t.started && t.elapsed == 0.0
  {
    Timer(true, 0.0)
  }

  /** The values pushed so far into the accumulator for name; none if it has none yet. */
  function AccumulatorOf(stats: map<string, seq<real>>, name: string): seq<real> {
    if name in stats then stats[name] else []
  }

  /** Pushes exactly one value into name's accumulator and leaves every other accumulator alone. */
  function Record(stats: map<string, seq<real>>, name: string, v: real): (r: map<string, seq<real>>)
    ensures name in r && r[name] == AccumulatorOf(stats, name) + [v]
    ensures |r[name]| == |AccumulatorOf(stats, name)| + 1
    ensures forall k :: k != name ==> (k in r <==> k in stats) && (k in stats ==> r[k] == stats[k])
  {
    stats[name := AccumulatorOf(stats, name) + [v]]
  }

  /** The per-name accumulators shared by every phase table (the static sStats). */
  class PhaseStatsRegistry {
    var stats: map<string, seq<real>>

    constructor ()
      ensures stats == map[]
    {
      stats := map[];
    }

    /** Returns name's accumulator, creating an empty one when it is absent. */
    method GetPhaseStats(name: string) returns (acc: seq<real>)
      modifies this
      ensures acc == AccumulatorOf(old(stats), name)
      ensures stats == old(stats)[name := acc]
    {
      if name !in stats {
        stats := stats[name := []];
      }
      acc := stats[name];
    }

    /** Pushes one value into name's accumulator, creating it when absent. */
    method RecordPhaseStat(name: string, v: real)
      modifies this
      ensures stats == Record(old(stats), name, v)
    {
      var acc := GetPhaseStats(name);
      stats := stats[name := acc + [v]];
    }
  }

  /** What asLLSD reports for one phase. */
  datatype PhaseReport = PhaseReport(completed: int, elapsed: real)

  /**
   * The timers of a run's phases after stopping the phases in done: those
   * are paused and the others are as they were.
   */
  function PauseAll(phases: map<string, Timer>, done: set<string>): (r: map<string, Timer>)
    ensures r.Keys == phases.Keys
    ensures forall k :: k in r ==> r[k] == if k in done then phases[k].(started := false) else phases[k]
  {
    map k | k in phases :: if k in done then phases[k].(started := false) else phases[k]
  }

  /**
   * The accumulators after stopping the phases in done: every started one
   * among them has pushed its elapsed time once, and nothing else changed.
   */
  function RecordAll(stats: map<string, seq<real>>, phases: map<string, Timer>, done: set<string>)
    : (r: map<string, seq<real>>)
    ensures forall k :: k in r <==> k in stats || (k in done && k in phases && phases[k].started)
  {
    map k | k in stats.Keys + (set n | n in done && n in phases && phases[n].started) ::
      if k in done && k in phases && phases[k].started then AccumulatorOf(stats, k) + [phases[k].elapsed]
      else stats[k]
  }

  /** RecordAll adds exactly one value for each started phase stopped, and none for the rest. */
  lemma RecordAllCounts(stats: map<string, seq<real>>, phases: map<string, Timer>, done: set<string>, k: string)
    ensures var r := RecordAll(stats, phases, done);
      |AccumulatorOf(r, k)| == |AccumulatorOf(stats, k)| + (if k in done && k in phases && phases[k].started then 1 else 0)
  {
  }

  /** One more stopped phase: its timer pauses and, if it was started, its accumulator gets its elapsed time. */
  lemma RecordAllStep(stats: map<string, seq<real>>, phases: map<string, Timer>, done: set<string>, k: string)
    requires k in phases && k !in done
    ensures RecordAll(stats, phases, done + {k})
      == if phases[k].started then Record(RecordAll(stats, phases, done), k, phases[k].elapsed)
         else RecordAll(stats, phases, done)
  {
    var before := RecordAll(stats, phases, done);
    var after := RecordAll(stats, phases, done + {k});
    if phases[k].started {
      var want := Record(before, k, phases[k].elapsed);
      assert after.Keys == want.Keys;
      forall n | n in after ensures after[n] == want[n] {
      }
    } else {
      assert after.Keys == before.Keys;
    }
  }

  /** Stopping nothing records nothing. */
  lemma RecordNone(stats: map<string, seq<real>>, phases: map<string, Timer>)
    ensures RecordAll(stats, phases, {}) == stats
  {
    assert RecordAll(stats, phases, {}).Keys == stats.Keys;
  }

  /** Pausing one more phase k after those in done is pausing done and k together. */
  lemma PauseAllStep(phases: map<string, Timer>, done: set<string>, k: string)
    requires k in phases
    ensures PauseAll(phases, done)[k := phases[k].(started := false)] == PauseAll(phases, done + {k})
  {
  }

  /** Stopping all phases twice: the second stop records nothing and changes no timer. */
  lemma StopAllTwiceRecordsOnce(stats: map<string, seq<real>>, phases: map<string, Timer>)
    ensures var paused := PauseAll(phases, phases.Keys);
      && PauseAll(paused, paused.Keys) == paused
      && RecordAll(stats, paused, paused.Keys) == stats
      && forall k :: k in paused ==> !paused[k].started
  {
    var paused := PauseAll(phases, phases.Keys);
    assert RecordAll(stats, paused, paused.Keys).Keys == stats.Keys;
  }

  /** The phase table (PhaseMap): timers by phase name, feeding a shared registry. */
  class PhaseMap {
    var phases: map<string, Timer>
    const registry: PhaseStatsRegistry

    constructor (registry: PhaseStatsRegistry)
      ensures phases == map[] && this.registry == registry
    {
      phases := map[];
      this.registry := registry;
    }

    /** The timer for name, inserting a fresh one only when name is absent. */
    method GetPhaseTimer(name: string) returns (t: Timer)
      modifies this
      ensures t == if name in old(phases) then old(phases)[name] else FreshTimer()
      ensures phases == old(phases)[name := t]
      ensures phases.Keys == old(phases).Keys + {name}
    {
      if name !in phases {
        phases := phases[name := FreshTimer()];
      }
      t := phases[name];
    }

    /** Gets or inserts name's timer and sets it running. */
    method StartPhase(name: string)
      modifies this
      ensures phases == old(phases)[name := (if name in old(phases) then old(phases)[name] else FreshTimer()).(started := true)]
    {
      var t := GetPhaseTimer(name);
      phases := phases[name := t.(started := true)];
    }

    /**
     * A no-op for an unknown name. Otherwise records the elapsed time iff the
     * timer was started, then leaves the timer paused.
     */
    method StopPhase(name: string)
      modifies this, registry
      ensures name !in old(phases) ==> phases == old(phases) && registry.stats == old(registry.stats)
      ensures name in old(phases) ==>
        var t := old(phases)[name];
        && phases == old(phases)[name := t.(started := false)]
        && registry.stats == if t.started then Record(old(registry.stats), name, t.elapsed) else old(registry.stats)
    {
      if name in phases {
        var t := phases[name];
        if t.started {
          registry.RecordPhaseStat(name, t.elapsed);
        }
        phases := phases[name := t.(started := false)];
      }
    }

    /** Stops every phase: each started one records once, all end paused, and the names stay the same. */
    method StopAllPhases()
      modifies this, registry
      ensures phases == PauseAll(old(phases), old(phases).Keys)
      ensures registry.stats == RecordAll(old(registry.stats), old(phases), old(phases).Keys)
    {
      var todo := phases.Keys;
      ghost var done: set<string> := {};
      RecordNone(registry.stats, phases);
      while todo != {}
        invariant todo + done == old(phases).Keys && todo !! done
        invariant phases == PauseAll(old(phases), done)
        invariant registry.stats == RecordAll(old(registry.stats), old(phases), done)
        decreases todo
      {
        var name :| name in todo;
        PauseAllStep(old(phases), done, name);
        RecordAllStep(old(registry.stats), old(phases), done, name);
        assert phases[name] == old(phases)[name];
        StopPhase(name);
        todo := todo - {name};
        done := done + {name};
      }
    }

    /** Empties the timer table; the shared accumulators are kept. */
    method ClearPhases()
      modifies this
      ensures phases == map[]
      ensures registry.stats == old(registry.stats)
    {
      phases := map[];
    }

    /** Per phase: completed is 1 iff the timer is not running, with its elapsed time. */
    method AsLLSD() returns (result: map<string, PhaseReport>)
      ensures result.Keys == phases.Keys
      ensures forall k :: k in result ==>
        result[k] == PhaseReport(if phases[k].started then 0 else 1, phases[k].elapsed)
    {
      result := map[];
      var todo := phases.Keys;
      while todo != {}
        invariant todo <= phases.Keys && result.Keys == phases.Keys - todo
        invariant forall k :: k in result ==>
          result[k] == PhaseReport(if phases[k].started then 0 else 1, phases[k].elapsed)
        decreases todo
      {
        var name :| name in todo;
        var t := phases[name];
        result := result[name := PhaseReport(if t.started then 0 else 1, t.elapsed)];
        todo := todo - {name};
      }
    }
  }
}
