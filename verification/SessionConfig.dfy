/**
 * Settings updates of one user. A session busy with a query is skipped and left to a deferred task, which retries
 * until the overrides it applied are still the latest ones. Every step below runs without a suspension point.
 */
module SessionConfig {
  import opened Text

  type Config = map<string, string>

  /** Where the deferred task is suspended; sessions are numbered in the order of their creation. */
  datatype Phase =
    | Start
    | Applying(version: nat, config: Config, next: nat, count: nat, waiting: bool)
    | Recheck(version: nat)

  /** `born` is the version when the task was created, `rounds` the number of snapshots it has taken. */
  datatype Deferred = Deferred(phase: Phase, born: nat, rounds: nat)

  datatype ConfigState = ConfigState(
    overrides: Config,
    version: nat,
    sessions: seq<Config>,
    held: set<nat>,
    deferred: Option<Deferred>)

  // ---------- one settings update ----------

  /** Overrides with the keys of an update that carry a value. */
  function Merged(overrides: Config, updates: map<string, Option<string>>): Config {
    overrides + map k | k in updates && updates[k].Some? :: updates[k].value
  }

  /** The merge reports a change exactly when the overrides are no longer the same. */
  method MergeOverrides(before: Config, updates: map<string, Option<string>>) returns (overrides: Config, changed: bool)
    ensures overrides == Merged(before, updates)
    ensures changed <==> overrides != before
  {
    MergeEnds(before, updates);
    hide MergedSoFar, Merged;
    overrides, changed := before, false;
    var todo := updates.Keys;
    ghost var evidence: string := "";
    while todo != {}
      invariant todo <= updates.Keys
      invariant overrides == MergedSoFar(before, updates, todo)
      invariant forall k :: k in todo ==> (k in overrides <==> k in before) && (k in before ==> overrides[k] == before[k])
      invariant !changed ==> overrides == before
      invariant changed ==> evidence !in todo && evidence in overrides && (evidence !in before || before[evidence] != overrides[evidence])
      decreases todo
    {
      var key :| key in todo;
      MergeOne(before, updates, todo, key);
      if updates[key].Some? {
        var value := updates[key].value;
        if key !in overrides || overrides[key] != value {
          overrides := overrides[key := value];
          changed, evidence := true, key;
        }
      }
      todo := todo - {key};
    }
  }

  function MergedSoFar(before: Config, updates: map<string, Option<string>>, todo: set<string>): Config {
    before + map k | k in updates && k !in todo && updates[k].Some? :: updates[k].value
  }

  lemma MergeEnds(before: Config, updates: map<string, Option<string>>)
    ensures MergedSoFar(before, updates, updates.Keys) == before
    ensures MergedSoFar(before, updates, {}) == Merged(before, updates)
  {
  }

  lemma MergeOne(before: Config, updates: map<string, Option<string>>, todo: set<string>, key: string)
    requires key in todo && key in updates
    ensures var overrides := MergedSoFar(before, updates, todo);
            MergedSoFar(before, updates, todo - {key}) == if updates[key].Some? then overrides[key := updates[key].value] else overrides
  {
  }

  /** Sessions after the update was offered to each: busy ones keep what they have. */
  function Offered(sessions: seq<Config>, held: set<nat>, config: Config): (r: seq<Config>)
    ensures |r| == |sessions|
    ensures forall n :: 0 <= n < |sessions| ==> r[n] == if n in held then sessions[n] else config
  {
    seq(|sessions|, n requires 0 <= n < |sessions| => if n in held then sessions[n] else config)
  }

  /** A busy session still has another configuration. */
  predicate Missed(sessions: seq<Config>, held: set<nat>, config: Config) {
    exists n :: 0 <= n < |sessions| && n in held && sessions[n] != config
  }

  method OfferToSessions(before: seq<Config>, held: set<nat>, config: Config) returns (sessions: seq<Config>,
          deferredNeeded: bool)
    ensures sessions == Offered(before, held, config)
    ensures deferredNeeded <==> Missed(before, held, config)
  {
    sessions, deferredNeeded := before, false;
    for n := 0 to |before|
      invariant |sessions| == |before|
      invariant forall m :: 0 <= m < n ==> sessions[m] == Offered(before, held, config)[m]
      invariant forall m :: n <= m < |before| ==> sessions[m] == before[m]
      invariant deferredNeeded <==> exists m :: 0 <= m < n && m in held && before[m] != config
    {
      if sessions[n] != config {
        if n in held {
          deferredNeeded := true;
        } else {
          sessions := sessions[n := config];
        }
      }
    }
  }

  function AfterUpdate(s: ConfigState, build: Config -> Config, updates: map<string, Option<string>>): ConfigState {
    if updates == map[] then s
    else
      var overrides := Merged(s.overrides, updates);
      var version := if overrides != s.overrides then s.version + 1 else s.version;
      var merged := s.(overrides := overrides, version := version);
      if s.sessions == [] then merged
      else
        var config := build(overrides);
        merged.(sessions := Offered(s.sessions, s.held, config),
                deferred := if s.deferred.None? && Missed(s.sessions, s.held, config) then Some(Deferred(Start, version, 0)) else s.deferred)
  }

  // ---------- the steps of the deferred task ----------

  function AfterSnapshot(s: ConfigState, build: Config -> Config): ConfigState
    requires s.deferred.Some? && s.deferred.value.phase.Start?
  {
    var phase := if s.sessions == [] then Recheck(s.version) else Applying(s.version, build(s.overrides), 0, |s.sessions|, false);
    s.(deferred := Some(s.deferred.value.(phase := phase, rounds := s.deferred.value.rounds + 1)))
  }

  /** The comparison with the next session, without its lock; past the last one the loop is left. */
  function AfterCheck(s: ConfigState): ConfigState
    requires s.deferred.Some? && s.deferred.value.phase.Applying? && !s.deferred.value.phase.waiting
  {
    var p := s.deferred.value.phase;
    var phase := if p.next >= p.count then Recheck(p.version)
                 else if p.next < |s.sessions| && s.sessions[p.next] != p.config then p.(waiting := true)
                 else p.(next := p.next + 1);
    s.(deferred := Some(s.deferred.value.(phase := phase)))
  }

  /** The session's lock is free: the snapshot is written, whatever happened since the comparison. */
  function AfterApply(s: ConfigState): ConfigState
    requires s.deferred.Some? && s.deferred.value.phase.Applying? && s.deferred.value.phase.waiting
    requires s.deferred.value.phase.next < |s.sessions|
  {
    var p := s.deferred.value.phase;
    s.(sessions := s.sessions[p.next := p.config],
       deferred := Some(s.deferred.value.(phase := p.(next := p.next + 1, waiting := false))))
  }

  function AfterRecheck(s: ConfigState): ConfigState
    requires s.deferred.Some? && s.deferred.value.phase.Recheck?
  {
    s.(deferred := if s.deferred.value.phase.version == s.version then None else Some(s.deferred.value.(phase := Start)))
  }

  /** The deferred task's next step; it stays where it is while the lock it waits for is taken. */
  function AfterDeferred(s: ConfigState, build: Config -> Config): ConfigState {
    if s.deferred.None? then s
    else
      match s.deferred.value.phase
      case Start => AfterSnapshot(s, build)
      case Applying(_, _, next, _, waiting) =>
        if !waiting then AfterCheck(s) else if next in s.held || next >= |s.sessions| then s else AfterApply(s)
      case Recheck(_) => AfterRecheck(s)
  }

  // ---------- runs ----------

  datatype Step =
    | Update(updates: map<string, Option<string>>)
    | CreateSession
    | Acquire(session: nat)
    | Release(session: nat)
    | RunDeferred

  function After(s: ConfigState, build: Config -> Config, step: Step): ConfigState {
    match step
    case Update(updates) => AfterUpdate(s, build, updates)
    case CreateSession => s.(sessions := s.sessions + [build(s.overrides)])
    case Acquire(n) => s.(held := s.held + {n})
    case Release(n) => s.(held := s.held - {n})
    case RunDeferred => AfterDeferred(s, build)
  }

  function Run(s: ConfigState, build: Config -> Config, steps: seq<Step>): ConfigState {
    if steps == [] then s else After(Run(s, build, steps[..|steps| - 1]), build, steps[|steps| - 1])
  }

  const INITIAL := ConfigState(map[], 0, [], {}, None)

  predicate AllCurrent(s: ConfigState, config: Config) {
    forall n :: 0 <= n < |s.sessions| ==> s.sessions[n] == config
  }

  /** Sessions the snapshot has dealt with, and those created after it, are up to date. */
  predicate CurrentOutside(s: ConfigState, config: Config, next: nat, count: nat) {
    forall n :: 0 <= n < |s.sessions| && !(next <= n < count) ==> s.sessions[n] == config
  }

  /** What every step keeps; a snapshot is only relied on while its version is the latest. */
  predicate Sound(s: ConfigState, build: Config -> Config) {
    match s.deferred
    case None => AllCurrent(s, build(s.overrides))
    case Some(d) =>
      && d.born <= s.version
      && match d.phase
         case Start => d.rounds <= s.version - d.born
         case Applying(v, config, next, count, waiting) =>
           && d.born <= v <= s.version && d.rounds <= v - d.born + 1
           && next <= count <= |s.sessions| && (waiting ==> next < count)
           && (v == s.version ==> config == build(s.overrides) && CurrentOutside(s, config, next, count))
         case Recheck(v) =>
           && d.born <= v <= s.version && d.rounds <= v - d.born + 1
           && (v == s.version ==> AllCurrent(s, build(s.overrides)))
  }

  lemma UpdateKeepsSound(s: ConfigState, build: Config -> Config, updates: map<string, Option<string>>)
    requires Sound(s, build)
    ensures Sound(AfterUpdate(s, build, updates), build)
  {
    hide Merged;
  }

  lemma DeferredKeepsSound(s: ConfigState, build: Config -> Config)
    requires Sound(s, build)
    ensures Sound(AfterDeferred(s, build), build)
  {
  }

  lemma StepKeepsSound(s: ConfigState, build: Config -> Config, step: Step)
    requires Sound(s, build)
    ensures Sound(After(s, build, step), build)
  {
    hide AfterUpdate, AfterDeferred;
    match step
    case Update(updates) => UpdateKeepsSound(s, build, updates);
    case RunDeferred => DeferredKeepsSound(s, build);
    case _ =>
  }

  lemma {:induction false} SoundInEveryRun(build: Config -> Config, steps: seq<Step>)
    ensures Sound(Run(INITIAL, build, steps), build)
  {
    if steps != [] {
      SoundInEveryRun(build, steps[..|steps| - 1]);
      StepKeepsSound(Run(INITIAL, build, steps[..|steps| - 1]), build, steps[|steps| - 1]);
    }
  }

  /**
   * Whatever the interleaving of these steps, once no deferred task is alive every session has the configuration of the latest
   * overrides; and a deferred task takes at most one snapshot more than the versions that passed during it.
   */
  lemma ConvergedInEveryRun(build: Config -> Config, steps: seq<Step>)
    ensures var s := Run(INITIAL, build, steps);
            && (s.deferred.None? ==> forall n :: 0 <= n < |s.sessions| ==> s.sessions[n] == build(s.overrides))
            && (s.deferred.Some? ==> s.deferred.value.rounds <= s.version - s.deferred.value.born + 1)
  {
    SoundInEveryRun(build, steps);
  }

  // ---------- termination of the deferred task ----------

  /** Steps a snapshot round still needs when no lock is in its way. */
  function RoundLeft(phase: Phase): nat {
    match phase
    case Start => 0
    case Applying(_, _, next, count, waiting) => (if next < count then 2 * (count - next) else 0) + (if waiting then 1 else 2)
    case Recheck(_) => 1
  }

  /** Steps until the task ends, as long as the version stays what it is. */
  function StepsLeft(s: ConfigState): nat {
    if s.deferred.None? then 0
    else
      var phase := s.deferred.value.phase;
      RoundLeft(phase) + if !phase.Start? && phase.version == s.version then 0 else 2 * |s.sessions| + 3
  }

  /** Unless it waits for a lock, each step brings the deferred task nearer to its end. */
  lemma DeferredAdvances(s: ConfigState, build: Config -> Config)
    requires Sound(s, build) && s.deferred.Some?
    ensures var phase := s.deferred.value.phase;
            if phase.Applying? && phase.waiting && phase.next in s.held then AfterDeferred(s, build) == s
            else StepsLeft(AfterDeferred(s, build)) < StepsLeft(s)
  {
  }

  function RunAlone(s: ConfigState, build: Config -> Config, count: nat): ConfigState
    decreases count
  {
    if count == 0 then s else RunAlone(AfterDeferred(s, build), build, count - 1)
  }

  /** With no query running and no further update, the deferred task ends and leaves every session up to date. */
  lemma {:induction false} DeferredTaskConverges(s: ConfigState, build: Config -> Config, count: nat)
    requires Sound(s, build) && s.held == {} && StepsLeft(s) <= count
    ensures var end := RunAlone(s, build, count);
            end.deferred.None? && end.overrides == s.overrides && AllCurrent(end, build(end.overrides))
    decreases count
  {
    if count > 0 {
      DeferredKeepsSound(s, build);
      if s.deferred.Some? {
        DeferredAdvances(s, build);
      }
      assert AfterDeferred(s, build).held == {} && AfterDeferred(s, build).overrides == s.overrides;
      hide AfterDeferred, Sound, AllCurrent, StepsLeft;
      DeferredTaskConverges(AfterDeferred(s, build), build, count - 1);
    }
  }

  // ---------- what an update means ----------

  /** The value a key has after an update: the one it carries, or else the one before. */
  function ValueAfter(before: Config, updates: map<string, Option<string>>, key: string): Option<string> {
    if key in updates && updates[key].Some? then updates[key] else if key in before then Some(before[key]) else None
  }

  function Lookup(config: Config, key: string): Option<string> {
    if key in config then Some(config[key]) else None
  }

  /**
   * An update sets the keys that carry a value and counts as a version if that changes anything; each session that is
   * not busy gets the configuration of the new overrides, and a busy one that differs calls for the deferred task.
   */
  lemma UpdateIsOffered(s: ConfigState, build: Config -> Config, updates: map<string, Option<string>>)
    ensures var r := AfterUpdate(s, build, updates);
            && (forall key :: Lookup(r.overrides, key) == ValueAfter(s.overrides, updates, key))
            && r.version == s.version + (if r.overrides == s.overrides then 0 else 1)
            && r.held == s.held && |r.sessions| == |s.sessions|
            && (forall n :: 0 <= n < |s.sessions| ==>
                  r.sessions[n] == if updates == map[] || n in s.held then s.sessions[n] else build(r.overrides))
            && (s.deferred.Some? ==> r.deferred == s.deferred)
            && (s.deferred.None? ==>
                  (r.deferred.Some? <==> updates != map[] && exists n :: 0 <= n < |s.sessions| && n in s.held && s.sessions[n] != build(r.overrides)))
  {
  }

  /** The value in the last of the updates that carries one for the key. */
  function LastValue(steps: seq<Step>, key: string): Option<string> {
    if steps == [] then None
    else
      var last := steps[|steps| - 1];
      if last.Update? && key in last.updates && last.updates[key].Some? then last.updates[key] else LastValue(steps[..|steps| - 1], key)
  }

  function Created(steps: seq<Step>): nat {
    if steps == [] then 0 else Created(steps[..|steps| - 1]) + if steps[|steps| - 1].CreateSession? then 1 else 0
  }

  lemma OnlyUpdatesSet(s: ConfigState, build: Config -> Config, step: Step)
    requires !step.Update?
    ensures After(s, build, step).overrides == s.overrides
    ensures |After(s, build, step).sessions| == |s.sessions| + if step.CreateSession? then 1 else 0
  {
  }

  /** In every run a key has the value it was given last, and there are as many sessions as were created. */
  lemma {:induction false} LatestValueHolds(build: Config -> Config, steps: seq<Step>, key: string)
    ensures Lookup(Run(INITIAL, build, steps).overrides, key) == LastValue(steps, key)
    ensures |Run(INITIAL, build, steps).sessions| == Created(steps)
  {
    if steps != [] {
      var front, last := steps[..|steps| - 1], steps[|steps| - 1];
      LatestValueHolds(build, front, key);
      hide AfterUpdate, AfterDeferred;
      if last.Update? {
        UpdateIsOffered(Run(INITIAL, build, front), build, last.updates);
      } else {
        OnlyUpdatesSet(Run(INITIAL, build, front), build, last);
      }
    }
  }

  // ---------- a snapshot that has become stale ----------

  function Same(config: Config): Config {
    config
  }

  function OneUpdate(value: string): Step {
    Update(map["model" := Some(value)])
  }

  /** The first of two sessions is busy; "b" is chosen while the task waits there with its snapshot of "a". */
  function StaleRun(): seq<Step> {
    [CreateSession, CreateSession, Acquire(0), OneUpdate("a"), RunDeferred, RunDeferred, OneUpdate("b"), Release(0), RunDeferred,
     RunDeferred, RunDeferred]
  }

  const OVERRIDES_A: Config := map["model" := "a"]
  const OVERRIDES_B: Config := map["model" := "b"]

  lemma OverridesDiffer()
    ensures OVERRIDES_A != OVERRIDES_B && OVERRIDES_A != map[] && OVERRIDES_B != map[]
    ensures Merged(map[], map["model" := Some("a")]) == OVERRIDES_A
    ensures Merged(OVERRIDES_A, map["model" := Some("b")]) == OVERRIDES_B
  {
    assert OVERRIDES_A["model"][0] != OVERRIDES_B["model"][0];
    assert "model" in OVERRIDES_A && "model" in OVERRIDES_B;
  }

  function Task(next: nat, waiting: bool): Option<Deferred> {
    Some(Deferred(Applying(1, OVERRIDES_A, next, 2, waiting), 1, 1))
  }

  /**
   * A snapshot taken for "a" is written over the newer "b" that the second session already had: the version recheck is
   * what makes the task go round again.
   */
  lemma StaleSnapshotIsWritten()
    ensures var s := Run(INITIAL, Same, StaleRun());
            && s.overrides == map["model" := "b"]
            && s.sessions == [map["model" := "a"], map["model" := "a"]]
            && Run(INITIAL, Same, StaleRun()[..10]).sessions == [map["model" := "a"], map["model" := "b"]]
            && s.deferred.Some?
  {
    var all := StaleRun();
    StalePrefix();
    StaleSuffix();
    hide After;
    RunOneMore(all, 8);
    RunOneMore(all, 9);
    RunOneMore(all, 10);
    RunOneMore(all, 11);
    assert all[..11] == all;
  }

  function HalfApplied(): ConfigState {
    ConfigState(OVERRIDES_B, 2, [map[], OVERRIDES_B], {0}, Task(0, true))
  }

  lemma StaleSuffix()
    ensures var s9 := After(After(HalfApplied(), Same, Release(0)), Same, RunDeferred);
            && After(s9, Same, RunDeferred) == ConfigState(OVERRIDES_B, 2, [OVERRIDES_A, OVERRIDES_B], {}, Task(1, true))
            && After(After(s9, Same, RunDeferred), Same, RunDeferred)
               == ConfigState(OVERRIDES_B, 2, [OVERRIDES_A, OVERRIDES_A], {}, Task(2, false))
  {
    OverridesDiffer();
    assert After(After(HalfApplied(), Same, Release(0)), Same, RunDeferred)
        == ConfigState(OVERRIDES_B, 2, [OVERRIDES_A, OVERRIDES_B], {}, Task(1, false));
  }

  lemma StaleStates()
    ensures var s3 := ConfigState(map[], 0, [map[], map[]], {0}, None);
            var s4 := ConfigState(OVERRIDES_A, 1, [map[], OVERRIDES_A], {0}, Some(Deferred(Start, 1, 0)));
            && After(After(After(INITIAL, Same, CreateSession), Same, CreateSession), Same, Acquire(0)) == s3
            && After(s3, Same, OneUpdate("a")) == s4
            && After(After(s4, Same, RunDeferred), Same, RunDeferred) == s4.(deferred := Task(0, true))
            && After(s4.(deferred := Task(0, true)), Same, OneUpdate("b")) == HalfApplied()
  {
    OverridesDiffer();
    hide Merged;
    var two: seq<Config> := [map[], map[]];
    assert two[0] != OVERRIDES_A;
    assert Offered(two, {0}, OVERRIDES_A) == [map[], OVERRIDES_A];
    assert Offered([map[], OVERRIDES_A], {0}, OVERRIDES_B) == [map[], OVERRIDES_B];
  }

  lemma StalePrefix()
    ensures Run(INITIAL, Same, StaleRun()[..7]) == HalfApplied()
  {
    var all := StaleRun();
    StaleStates();
    hide After, HalfApplied, Task;
    assert Run(INITIAL, Same, all[..0]) == INITIAL;
    RunOneMore(all, 1);
    RunOneMore(all, 2);
    RunOneMore(all, 3);
    RunOneMore(all, 4);
    RunOneMore(all, 5);
    RunOneMore(all, 6);
    RunOneMore(all, 7);
  }

  lemma RunOneMore(steps: seq<Step>, n: nat)
    requires 0 < n <= |steps|
    ensures Run(INITIAL, Same, steps[..n]) == After(Run(INITIAL, Same, steps[..n - 1]), Same, steps[n - 1])
  {
    assert steps[..n][..n - 1] == steps[..n - 1];
  }

  // ---------- the service ----------

  class SessionConfigService {
    const build: Config -> Config
    var overrides: Config
    var version: nat
    var sessions: seq<Config>
    var held: set<nat>
    var deferred: Option<Deferred>

    function State(): ConfigState
      reads this
    {
      ConfigState(overrides, version, sessions, held, deferred)
    }

    constructor (build: Config -> Config)
      ensures State() == INITIAL && this.build == build
    {
      this.build := build;
      overrides, version, sessions, held, deferred := map[], 0, [], {}, None;
    }

    method UpdateSessionConfig(updates: map<string, Option<string>>)
      modifies this
      ensures State() == AfterUpdate(old(State()), build, updates)
    {
      if updates == map[] {
        return;
      }
      hide Merged, Offered, Missed;
      var merged, changed := MergeOverrides(overrides, updates);
      overrides := merged;
      if changed {
        version := version + 1;
      }
      if sessions == [] {
        return;
      }
      var offered, deferredNeeded := OfferToSessions(sessions, held, build(overrides));
      sessions := offered;
      if deferredNeeded {
        ScheduleDeferredUpdate();
      }
    }

    method ScheduleDeferredUpdate()
      modifies this`deferred
      ensures deferred == if old(deferred).Some? then old(deferred) else Some(Deferred(Start, version, 0))
    {
      if deferred.None? {
        deferred := Some(Deferred(Start, version, 0));
      }
    }

    /** Creation runs under the user lock and reads the overrides as they are then. */
    method Create() returns (session: nat)
      modifies this`sessions
      ensures State() == After(old(State()), build, CreateSession)
      ensures session == |old(sessions)|
    {
      session := |sessions|;
      sessions := sessions + [build(overrides)];
    }

    /** Runs the deferred task up to its next suspension point. */
    method ResumeDeferred()
      modifies this
      ensures State() == After(old(State()), build, RunDeferred)
    {
      if deferred.None? {
        return;
      }
      var d := deferred.value;
      match d.phase
      case Start =>
        var phase := if sessions == [] then Recheck(version) else Applying(version, build(overrides), 0, |sessions|, false);
        deferred := Some(Deferred(phase, d.born, d.rounds + 1));
      case Applying(snapshot, config, next, count, waiting) =>
        if waiting {
          if next !in held && next < |sessions| {
            sessions := sessions[next := config];
            deferred := Some(d.(phase := Applying(snapshot, config, next + 1, count, false)));
          }
        } else if next >= count {
          deferred := Some(d.(phase := Recheck(snapshot)));
        } else if next < |sessions| && sessions[next] != config {
          deferred := Some(d.(phase := Applying(snapshot, config, next, count, true)));
        } else {
          deferred := Some(d.(phase := Applying(snapshot, config, next + 1, count, false)));
        }
      case Recheck(snapshot) =>
        if snapshot == version {
          deferred := None;
        } else {
          deferred := Some(d.(phase := Start));
        }
    }
  }
}
