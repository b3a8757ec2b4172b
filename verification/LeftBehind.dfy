/**
 * What an uncovered session comes to. It can be left behind: without a further settings update everything may come to
 * rest with the session still out of date. So the cover is exact, and so is the condition that keeps it.
 */
module LeftBehind {
  import opened Text
  import opened SessionConfig
  import opened LockHandover

  /** Moves without a new settings update. */
  predicate Quiet(moves: seq<Move>) {
    forall k :: 0 <= k < |moves| ==> !moves[k].Begin?
  }

  ghost predicate CanEndStale(h: State, build: Config -> Config, n: nat) {
    exists moves :: Quiet(moves) && AtRest(MoveAll(h, build, moves)) && Outdated(MoveAll(h, build, moves), build, n)
  }

  ghost predicate CanLeaveBehind(h: State, build: Config -> Config) {
    exists n :: CanEndStale(h, build, n)
  }

  lemma {:induction false} MovesAfter(h: State, build: Config -> Config, first: seq<Move>, rest: seq<Move>)
    ensures MoveAll(h, build, first + rest) == MoveAll(MoveAll(h, build, first), build, rest)
    decreases |rest|
  {
    hide Moved;
    if rest == [] {
      assert first + rest == first;
    } else {
      assert (first + rest)[..|first + rest| - 1] == first + rest[..|rest| - 1];
      MovesAfter(h, build, first, rest[..|rest| - 1]);
    }
  }

  lemma ExtendAll(h: State, build: Config -> Config, first: seq<Move>, n: nat)
    requires Quiet(first) && CanEndStale(MoveAll(h, build, first), build, n)
    ensures CanEndStale(h, build, n)
  {
    hide MoveAll;
    var t := MoveAll(h, build, first);
    var moves :| Quiet(moves) && AtRest(MoveAll(t, build, moves)) && Outdated(MoveAll(t, build, moves), build, n);
    MovesAfter(h, build, first, moves);
    assert Quiet(first + moves);
  }

  lemma Extend(h: State, build: Config -> Config, m: Move, n: nat)
    requires !m.Begin? && CanEndStale(Moved(h, build, m), build, n)
    ensures CanEndStale(h, build, n)
  {
    hide Moved, CanEndStale;
    assert [m][..0] == [];
    assert MoveAll(h, build, [m]) == Moved(h, build, m);
    ExtendAll(h, build, [m], n);
  }

  lemma AtRestIsStale(h: State, build: Config -> Config, n: nat)
    requires AtRest(h) && Outdated(h, build, n)
    ensures CanEndStale(h, build, n)
  {
    assert MoveAll(h, build, []) == h && Quiet([]);
  }

  // ---------- the task ends ----------

  /** A task that is past the session runs to its end without it. */
  lemma {:induction false} TaskEnds(h: State, build: Config -> Config, n: nat)
    requires Fits(h, build) && h.queue == [] && h.base.held == {} && h.promised == {} && Outdated(h, build, n)
    requires h.base.deferred.Some? && !TaskCovers(h.base.deferred.value, h.base.version, n)
    ensures CanEndStale(h, build, n)
    decreases RoundLeft(h.base.deferred.value.phase)
  {
    var t := Moved(h, build, Deferring);
    TaskGoesOn(h, build, n);
    hide Moved, Fits, TaskCovers, RoundLeft;
    if t.base.deferred.Some? {
      TaskEnds(t, build, n);
    } else {
      AtRestIsStale(t, build, n);
    }
    Extend(h, build, Deferring, n);
  }

  lemma TaskGoesOn(h: State, build: Config -> Config, n: nat)
    requires Fits(h, build) && h.queue == [] && h.base.held == {} && h.promised == {} && Outdated(h, build, n)
    requires h.base.deferred.Some? && !TaskCovers(h.base.deferred.value, h.base.version, n)
    ensures var t := Moved(h, build, Deferring);
            && Fits(t, build) && t.queue == [] && t.base.held == {} && t.promised == {} && Outdated(t, build, n)
            && (t.base.deferred.Some? ==>
                  && !TaskCovers(t.base.deferred.value, t.base.version, n)
                  && RoundLeft(t.base.deferred.value.phase) < RoundLeft(h.base.deferred.value.phase))
  {
  }

  // ---------- the updates run out ----------

  /** How many sessions the suspended updates still have before them. */
  function Left(queue: seq<Writer>): nat {
    if queue == [] then 0
    else
      var w := queue[|queue| - 1];
      Left(queue[..|queue| - 1]) + if w.next < w.count then w.count - w.next else 0
  }

  lemma {:induction false} LeftConcat(a: seq<Writer>, b: seq<Writer>)
    ensures Left(a + b) == Left(a) + Left(b)
    decreases |b|
  {
    if b == [] {
      assert a + b == a;
    } else {
      assert (a + b)[..|a + b| - 1] == a + b[..|b| - 1];
      LeftConcat(a, b[..|b| - 1]);
    }
  }

  lemma LeftWithout(queue: seq<Writer>, k: nat)
    requires k < |queue| && queue[k].next < queue[k].count
    ensures Left(queue) == Left(queue[..k] + queue[k + 1..]) + queue[k].count - queue[k].next
  {
    assert queue == queue[..k] + [queue[k]] + queue[k + 1..];
    LeftConcat(queue[..k] + [queue[k]], queue[k + 1..]);
    LeftConcat(queue[..k], [queue[k]]);
    LeftConcat(queue[..k], queue[k + 1..]);
    assert [queue[k]][..0] == [];
  }

  /** Resuming an update leaves less to do, and one update at most in its place, further on. */
  lemma ResumeLeavesLess(h: State, build: Config -> Config, k: nat)
    requires Fits(h, build) && MayResume(h, k)
    ensures var t, w, rest := Resumed(h, k), h.queue[k], Dequeued(h, k).queue;
            && Fits(t, build) && Left(t.queue) < Left(h.queue)
            && t.base.held == h.base.held && t.promised == h.promised && t.base.overrides == h.base.overrides
            && t.base.version == h.base.version && |t.base.sessions| == |h.base.sessions|
            && (t.queue == rest || (|t.queue| == |rest| + 1 && t.queue[..|rest|] == rest && GoesOn(h, w, t.queue[|rest|])))
  {
    var w, stop := h.queue[k], StopOf(h, k);
    assert QueueFits(h);
    ResumedIsPass(h, k);
    StopIsLater(h, k);
    DequeuedFits(h, build, k);
    PassFits(Dequeued(h, k), build, w, stop);
    LeftWithout(h.queue, k);
    hide Resumed, Fits;
    if stop < w.count {
      StopIsFree(h, k);
      hide StopOf;
      var v := Writer(w.config, stop, w.count, w.missed || Misses(Dequeued(h, k), w, stop));
      LeftConcat(Dequeued(h, k).queue, [v]);
      assert [v][..0] == [];
      assert GoesOn(h, w, v);
    }
  }

  /** Who waits after an update was resumed: the others, and perhaps that update further on. */
  lemma WhoWaits(h: State, build: Config -> Config, k: nat, j: nat)
    requires Fits(h, build) && MayResume(h, k) && j < |Resumed(h, k).queue|
    ensures var v := Resumed(h, k).queue[j]; v in h.queue || GoesOn(h, h.queue[k], v)
  {
    ResumeLeavesLess(h, build, k);
    var t, rest := Resumed(h, k), Dequeued(h, k).queue;
    hide Resumed, Fits, MayResume, Left, GoesOn;
    if j < |rest| {
      assert t.queue[j] == rest[j];
      assert rest[j] == h.queue[if j < k then j else j + 1];
    }
  }

  lemma StopIsFree(h: State, k: nat)
    requires k < |h.queue| && h.queue[k].next < h.queue[k].count <= |h.base.sessions| && StopOf(h, k) < h.queue[k].count
    ensures StopOf(h, k) !in h.base.held
  {
  }

  /** The update waits again, at a later session that is not busy. */
  predicate GoesOn(h: State, w: Writer, v: Writer) {
    && v.config == w.config && v.count == w.count && w.next < v.next < v.count && v.next !in h.base.held
    && (v.missed && !w.missed ==> exists n :: n in h.base.held)
  }

  /** A session changes only to the configuration of the resumed update, which then had it before it. */
  lemma ResumeWrites(h: State, build: Config -> Config, k: nat, n: nat)
    requires Fits(h, build) && MayResume(h, k) && n < |h.base.sessions|
    ensures var t, w := Resumed(h, k), h.queue[k];
            |t.base.sessions| == |h.base.sessions| &&
            (t.base.sessions[n] == h.base.sessions[n] || (t.base.sessions[n] == w.config && w.next <= n < w.count && n !in h.base.held))
  {
    assert QueueFits(h);
    ResumedIsPass(h, k);
    StopIsLater(h, k);
    hide Resumed, StopOf, Misses;
  }

  /** The deferred task is left alone if it is alive, or if nothing is busy or was missed. */
  lemma ResumeKeepsTask(h: State, build: Config -> Config, k: nat)
    requires Fits(h, build) && MayResume(h, k)
    requires h.base.deferred.Some? || (h.base.held == {} && !h.queue[k].missed)
    ensures Resumed(h, k).base.deferred == h.base.deferred
  {
    assert QueueFits(h);
    ResumedIsPass(h, k);
    StopIsLater(h, k);
    hide Resumed, StopOf;
  }

  predicate WillNotReach(w: Writer, config: Config, n: nat, alone: bool) {
    !(w.config == config && w.next <= n < w.count) && (alone ==> !w.missed)
  }

  /** No update will bring session `n` up to date, or start a task that would. */
  predicate NobodyWillReach(h: State, build: Config -> Config, n: nat) {
    forall k :: 0 <= k < |h.queue| ==> WillNotReach(h.queue[k], Current(h, build), n, h.base.deferred.None?)
  }

  /** Without a task, or with one that is past the session, all updates run out and leave it as it is. */
  lemma {:induction false} RunOut(h: State, build: Config -> Config, n: nat)
    requires Fits(h, build) && h.base.held == {} && h.promised == {} && Outdated(h, build, n) && NobodyWillReach(h, build, n)
    requires h.base.deferred.Some? ==> !TaskCovers(h.base.deferred.value, h.base.version, n)
    ensures CanEndStale(h, build, n)
    decreases Left(h.queue)
  {
    if h.queue == [] {
      if h.base.deferred.Some? {
        TaskEnds(h, build, n);
      } else {
        AtRestIsStale(h, build, n);
      }
    } else {
      FirstMayResume(h, build);
      FirstRunsOut(h, build, n);
      ResumeLeavesLess(h, build, 0);
      ResumeKeepsTask(h, build, 0);
      hide Fits, MayResume, Resumed, NobodyWillReach, TaskCovers, Outdated, CanEndStale;
      RunOut(Resumed(h, 0), build, n);
      Extend(h, build, Resume(0), n);
    }
  }

  lemma FirstMayResume(h: State, build: Config -> Config)
    requires Fits(h, build) && h.base.held == {} && h.promised == {} && h.queue != []
    ensures MayResume(h, 0)
  {
  }

  lemma FirstStaysOld(h: State, build: Config -> Config, n: nat)
    requires Fits(h, build) && h.base.held == {} && Outdated(h, build, n) && NobodyWillReach(h, build, n) && MayResume(h, 0)
    ensures !h.queue[0].missed || h.base.deferred.Some?
    ensures Outdated(Resumed(h, 0), build, n)
  {
    assert WillNotReach(h.queue[0], Current(h, build), n, h.base.deferred.None?);
    ResumeLeavesLess(h, build, 0);
    ResumeWrites(h, build, 0, n);
    hide Resumed, Fits, MayResume, Left, GoesOn, NobodyWillReach;
  }

  lemma FirstRunsOut(h: State, build: Config -> Config, n: nat)
    requires Fits(h, build) && h.base.held == {} && Outdated(h, build, n) && NobodyWillReach(h, build, n) && MayResume(h, 0)
    ensures !h.queue[0].missed || h.base.deferred.Some?
    ensures Outdated(Resumed(h, 0), build, n) && NobodyWillReach(Resumed(h, 0), build, n)
  {
    FirstStaysOld(h, build, n);
    ResumeLeavesLess(h, build, 0);
    ResumeKeepsTask(h, build, 0);
    var t, config, alone := Resumed(h, 0), Current(h, build), h.base.deferred.None?;
    assert WillNotReach(h.queue[0], config, n, alone);
    hide Resumed, Fits, MayResume, Left, Outdated;
    forall k | 0 <= k < |t.queue|
      ensures WillNotReach(t.queue[k], config, n, alone)
    {
      WhoWaits(h, build, 0, k);
      hide WillNotReach, GoesOn;
      if GoesOn(h, h.queue[0], t.queue[k]) {
        StillWillNotReach(h, h.queue[0], t.queue[k], config, n, alone);
      }
    }
  }

  lemma StillWillNotReach(h: State, w: Writer, v: Writer, config: Config, n: nat, alone: bool)
    requires WillNotReach(w, config, n, alone) && GoesOn(h, w, v) && h.base.held == {}
    ensures WillNotReach(v, config, n, alone)
  {
  }

  // ---------- the session is kept busy while the others run out ----------

  /** The updates that wait for session `n` have an old configuration. */
  predicate OldOnesWait(h: State, build: Config -> Config, n: nat) {
    forall k :: 0 <= k < |h.queue| && h.queue[k].next == n ==> h.queue[k].config != Current(h, build)
  }

  /** With the session busy all updates miss it, and only those that wait for it write it afterwards. */
  lemma {:induction false} RunOutAround(h: State, build: Config -> Config, n: nat)
    requires Fits(h, build) && h.base.held == {n} && h.promised == {} && Outdated(h, build, n) && OldOnesWait(h, build, n)
    requires h.base.deferred.Some? && !TaskCovers(h.base.deferred.value, h.base.version, n)
    ensures CanEndStale(h, build, n)
    decreases Left(h.queue)
  {
    if forall k :: 0 <= k < |h.queue| ==> h.queue[k].next == n {
      var t := Moved(h, build, Unlock(n));
      assert t == h.(base := h.base.(held := {}));
      assert NobodyWillReach(t, build, n);
      hide TaskCovers, Moved;
      RunOut(t, build, n);
      Extend(h, build, Unlock(n), n);
    } else {
      var k := FirstElsewhere(h, n);
      OtherMayResume(h, build, n, k);
      OtherRunsOut(h, build, n, k);
      ResumeLeavesLess(h, build, k);
      ResumeKeepsTask(h, build, k);
      hide Fits, MayResume, Resumed, OldOnesWait, TaskCovers, Outdated, CanEndStale;
      RunOutAround(Resumed(h, k), build, n);
      Extend(h, build, Resume(k), n);
    }
  }

  lemma FirstElsewhere(h: State, n: nat) returns (k: nat)
    requires exists k :: 0 <= k < |h.queue| && h.queue[k].next != n
    ensures k < |h.queue| && h.queue[k].next != n && forall j :: 0 <= j < k ==> h.queue[j].next == n
  {
    k := 0;
    while h.queue[k].next == n
      invariant k < |h.queue| && forall j :: 0 <= j < k ==> h.queue[j].next == n
      invariant exists j :: k <= j < |h.queue| && h.queue[j].next != n
      decreases |h.queue| - k
    {
      k := k + 1;
    }
  }

  lemma OtherMayResume(h: State, build: Config -> Config, n: nat, k: nat)
    requires Fits(h, build) && h.base.held == {n} && h.promised == {}
    requires k < |h.queue| && h.queue[k].next != n && forall j :: 0 <= j < k ==> h.queue[j].next == n
    ensures MayResume(h, k)
  {
  }

  lemma OtherRunsOut(h: State, build: Config -> Config, n: nat, k: nat)
    requires Fits(h, build) && h.base.held == {n} && Outdated(h, build, n) && OldOnesWait(h, build, n) && MayResume(h, k)
    ensures Outdated(Resumed(h, k), build, n) && OldOnesWait(Resumed(h, k), build, n)
  {
    ResumeLeavesLess(h, build, k);
    ResumeWrites(h, build, k, n);
    var t := Resumed(h, k);
    hide Resumed, Fits, MayResume, Left;
    forall j | 0 <= j < |t.queue| && t.queue[j].next == n
      ensures t.queue[j].config != Current(t, build)
    {
      WhoWaits(h, build, k, j);
    }
  }

  // ---------- an uncovered session ----------

  lemma UncoveredRunsOut(h: State, build: Config -> Config, n: nat)
    requires Fits(h, build) && h.base.held == {} && h.promised == {} && Outdated(h, build, n) && !Covered(h, build, n)
    ensures CanEndStale(h, build, n)
  {
    hide CanEndStale;
    if h.base.deferred.None? {
      forall k | 0 <= k < |h.queue|
        ensures !WriterCovers(h.queue[k], Current(h, build), n)
      {
        assert !SomeWriterCovers(h.queue, Current(h, build), n);
      }
      RunOut(h, build, n);
    } else {
      assert !WaitsWith(h.queue, Current(h, build), n);
      var t := Moved(h, build, Lock(n));
      assert t == h.(base := h.base.(held := {n}));
      hide TaskCovers, Moved;
      RunOutAround(t, build, n);
      Extend(h, build, Lock(n), n);
    }
  }

  /** An outdated session that is not covered can be left behind. */
  lemma {:induction false} UncoveredCanEndStale(h: State, build: Config -> Config, n: nat)
    requires Fits(h, build) && Outdated(h, build, n) && !Covered(h, build, n)
    ensures CanEndStale(h, build, n)
    decreases 2 * |h.promised| + |h.base.held|
  {
    hide CanEndStale, SomeWriterCovers, WaitsWith;
    if h.promised != {} {
      var p :| p in h.promised;
      var t := Moved(h, build, WakeUp(p));
      assert t.base.held == h.base.held + {p} && t.promised == h.promised - {p};
      UncoveredCanEndStale(t, build, n);
      Extend(h, build, WakeUp(p), n);
    } else if h.base.held != {} {
      var p :| p in h.base.held;
      var t := Moved(h, build, Unlock(p));
      assert t.base.held == h.base.held - {p};
      UncoveredCanEndStale(t, build, n);
      Extend(h, build, Unlock(p), n);
    } else {
      UncoveredRunsOut(h, build, n);
    }
  }

  lemma KeptOrLeftBehind(h: State, build: Config -> Config)
    requires Fits(h, build) && !Kept(h, build)
    ensures CanLeaveBehind(h, build)
  {
    hide Fits, Covered, Outdated, CanEndStale;
    var n :| 0 <= n < |h.base.sessions| && Outdated(h, build, n) && !Covered(h, build, n);
    UncoveredCanEndStale(h, build, n);
  }

  // ---------- whole runs ----------

  /** A run that does harm has a point from which everything can come to rest with a session left behind. */
  lemma HarmLeavesBehind(h: State, build: Config -> Config, moves: seq<Move>) returns (k: nat)
    requires Kept(h, build) && !HarmlessFrom(h, build, moves)
    ensures k <= |moves| && CanLeaveBehind(MoveAll(h, build, moves[..k]), build)
  {
    hide Kept, HarmlessFrom, MoveAll, CanLeaveBehind;
    KeptIffHarmless(h, build, moves);
    k :| 0 <= k <= |moves| && !Kept(MoveAll(h, build, moves[..k]), build);
    KeptFits(h, build);
    FitsSoFar(h, build, moves[..k]);
    KeptOrLeftBehind(MoveAll(h, build, moves[..k]), build);
  }

  lemma KeptFits(h: State, build: Config -> Config)
    requires Kept(h, build)
    ensures Fits(h, build)
  {
  }

  ghost predicate CanDoHarm(h: State, build: Config -> Config) {
    exists moves :: Quiet(moves) && !HarmlessFrom(h, build, moves)
  }

  /**
   * From a state in which every outdated session is covered, a session can be left behind exactly if a suspended update
   * can still do harm. Both sides are about the moves that are possible without a further settings update.
   */
  lemma LeftBehindIffHarm(h: State, build: Config -> Config)
    requires Kept(h, build)
    ensures CanLeaveBehind(h, build) <==> CanDoHarm(h, build)
  {
    hide Kept, HarmlessFrom, MoveAll;
    if CanLeaveBehind(h, build) {
      var n :| CanEndStale(h, build, n);
      var moves :| Quiet(moves) && AtRest(MoveAll(h, build, moves)) && Outdated(MoveAll(h, build, moves), build, n);
      if HarmlessFrom(h, build, moves) {
        KeptSoFar(h, build, moves, |moves|);
        assert moves[..|moves|] == moves;
        KeptAtRestIsUpToDate(MoveAll(h, build, moves), build);
      }
    }
    if CanDoHarm(h, build) {
      var moves :| Quiet(moves) && !HarmlessFrom(h, build, moves);
      var k := HarmLeavesBehind(h, build, moves);
      var n :| CanEndStale(MoveAll(h, build, moves[..k]), build, n);
      hide CanEndStale;
      ExtendAll(h, build, moves[..k], n);
    }
  }

  /**
   * Every run from the start either does no harm, and has converged whenever it is at rest, or has a point from which it
   * can come to rest with a session left behind; a run that does no harm is covered at every point.
   */
  lemma HarmlessOrLeftBehind(build: Config -> Config, moves: seq<Move>)
    ensures HarmlessFrom(NOTHING, build, moves) <==> KeptThroughout(NOTHING, build, moves)
    ensures HarmlessFrom(NOTHING, build, moves) && AtRest(MoveAll(NOTHING, build, moves)) ==> UpToDate(MoveAll(NOTHING, build, moves), build)
    ensures !HarmlessFrom(NOTHING, build, moves) ==>
              exists k :: 0 <= k <= |moves| && CanLeaveBehind(MoveAll(NOTHING, build, moves[..k]), build)
  {
    hide Kept, KeptThroughout, HarmlessFrom, MoveAll, CanLeaveBehind, UpToDate, AtRest;
    NothingIsKept(build);
    KeptIffHarmless(NOTHING, build, moves);
    if HarmlessFrom(NOTHING, build, moves) {
      if AtRest(MoveAll(NOTHING, build, moves)) {
        ConvergedIfHarmless(build, moves);
      }
    } else {
      var k := HarmLeavesBehind(NOTHING, build, moves);
    }
  }

  // ---------- an update that is caught ----------

  function Model(value: string): map<string, string> {
    map["model" := value]
  }

  function Choose(value: string): Move {
    Begin(map["model" := Some(value)])
  }

  /** A query ends while another waits; "b" is chosen before that one resumes, and "a" again while it runs. */
  function CaughtRun(): seq<Move> {
    [Choose("a"), Create, Lock(0), HandOver(0), Choose("b"), WakeUp(0), Choose("a"), Unlock(0), Resume(0)]
  }

  function CaughtEnd(): State {
    State(ConfigState(Model("a"), 3, [Model("b")], {}, None), {}, [])
  }

  /** The session ends up with "b" although "a" is what was chosen last, and no task is left to notice it. */
  lemma CaughtUpdateStays()
    ensures var h := MoveAll(NOTHING, Same, CaughtRun());
            && h.base.overrides == Model("a") && h.base.sessions == [Model("b")]
            && AtRest(h) && h.base.held == {} && h.promised == {}
    ensures !HarmlessFrom(NOTHING, Same, CaughtRun())
  {
    CaughtRunEnds();
    CaughtEndIsOutdated();
    hide Moved, Harmless, MoveAll, CaughtRun, HarmlessFrom, Model, UpToDate;
    if HarmlessFrom(NOTHING, Same, CaughtRun()) {
      ConvergedIfHarmless(Same, CaughtRun());
    }
  }

  lemma CaughtEndIsOutdated()
    ensures !UpToDate(CaughtEnd(), Same)
  {
    ModelsDiffer();
    assert CaughtEnd().base.sessions[0] == Model("b");
    hide Model;
  }

  lemma ModelsDiffer()
    ensures Model("a") != Model("b")
  {
    assert Model("a")["model"][0] == 'a' && Model("b")["model"][0] == 'b';
  }

  lemma Chosen(overrides: Config, value: string)
    requires overrides == map[] || exists other :: overrides == Model(other)
    ensures Merged(overrides, map["model" := Some(value)]) == Model(value)
  {
  }

  function Released(): State {
    State(ConfigState(Model("a"), 1, [Model("a")], {}, None), {0}, [])
  }

  /** The second query runs and the update to "b" waits behind it. */
  function Caught(): State {
    State(ConfigState(Model("b"), 2, [Model("a")], {0}, None), {}, [Writer(Model("b"), 0, 1, false)])
  }

  lemma CaughtStart()
    ensures var created := Moved(Moved(NOTHING, Same, Choose("a")), Same, Create);
            Moved(Moved(created, Same, Lock(0)), Same, HandOver(0)) == Released()
  {
    Chosen(map[], "a");
    assert "model" in Model("a");
    hide Merged, Model;
    assert Moved(NOTHING, Same, Choose("a")) == State(ConfigState(Model("a"), 1, [], {}, None), {}, []);
  }

  lemma CaughtMiddle()
    ensures Moved(Moved(Released(), Same, Choose("b")), Same, WakeUp(0)) == Caught()
  {
    ModelsDiffer();
    Chosen(Model("a"), "b");
    hide Merged, Model;
    assert Merging(Released(), map["model" := Some("b")]).base.overrides == Model("b");
    assert Moved(Released(), Same, Choose("b"))
        == State(ConfigState(Model("b"), 2, [Model("a")], {}, None), {0}, [Writer(Model("b"), 0, 1, false)]);
  }

  lemma CaughtLast()
    ensures Moved(Moved(Moved(Caught(), Same, Choose("a")), Same, Unlock(0)), Same, Resume(0)) == CaughtEnd()
  {
    ModelsDiffer();
    Chosen(Model("b"), "a");
    hide Merged, Model;
    var waiting := Writer(Model("b"), 0, 1, false);
    var chosen := State(ConfigState(Model("a"), 3, [Model("a")], {0}, None), {}, [waiting]);
    assert Moved(Caught(), Same, Choose("a")) == chosen;
    var free := State(ConfigState(Model("a"), 3, [Model("a")], {}, None), {}, [waiting]);
    assert Moved(chosen, Same, Unlock(0)) == free;
    assert Dequeued(free, 0) == free.(queue := []);
    assert Written(Dequeued(free, 0), waiting) == CaughtEnd();
  }

  lemma CaughtRunHalfway()
    ensures MoveAll(NOTHING, Same, CaughtRun()[..6]) == Caught()
  {
    var all := CaughtRun();
    CaughtStart();
    CaughtMiddle();
    assert all[..0] == [];
    assert MoveAll(NOTHING, Same, []) == NOTHING;
    hide Moved, Caught, MoveAll, Released;
    OneMoreMove(NOTHING, Same, all, 0);
    OneMoreMove(NOTHING, Same, all, 1);
    OneMoreMove(NOTHING, Same, all, 2);
    OneMoreMove(NOTHING, Same, all, 3);
    OneMoreMove(NOTHING, Same, all, 4);
    OneMoreMove(NOTHING, Same, all, 5);
  }

  lemma CaughtRunEnds()
    ensures MoveAll(NOTHING, Same, CaughtRun()) == CaughtEnd()
  {
    var all := CaughtRun();
    CaughtRunHalfway();
    CaughtLast();
    hide Moved, Caught, CaughtEnd, MoveAll;
    OneMoreMove(NOTHING, Same, all, 6);
    OneMoreMove(NOTHING, Same, all, 7);
    OneMoreMove(NOTHING, Same, all, 8);
    assert all[..9] == all;
  }
}
