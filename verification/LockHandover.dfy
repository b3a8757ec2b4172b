/**
 * Settings updates that are caught by a lock hand-over. A lock that was released while somebody waits for it is free
 * but spoken for; an update that finds it so queues there and later goes on with the configuration it started with.
 * An update is suspended nowhere else, so each move below runs up to the next suspension point.
 */
module LockHandover {
  import opened Text
  import opened SessionConfig

  /** An update on its way through the sessions; `missed` once it has met a busy one. */
  datatype Writer = Writer(config: Config, next: nat, count: nat, missed: bool)

  /**
   * `promised` are the sessions whose free lock goes to a query that has not resumed yet; `queue` are the suspended
   * updates, each waiting for the lock of its next session, in the order in which they began to wait.
   */
  datatype State = State(base: ConfigState, promised: set<nat>, queue: seq<Writer>)

  /** A query takes a lock with `Lock` or `WakeUp`, and gives it to another query or to nobody in particular. */
  datatype Move =
    | Begin(updates: map<string, Option<string>>)
    | Resume(place: nat)
    | HandOver(session: nat)
    | WakeUp(session: nat)
    | Create
    | Lock(session: nat)
    | Unlock(session: nat)
    | Deferring

  // ---------- one update ----------

  predicate TaskWaits(base: ConfigState, n: nat) {
    && base.deferred.Some? && base.deferred.value.phase.Applying?
    && base.deferred.value.phase.waiting && base.deferred.value.phase.next == n
  }

  predicate UpdateWaits(queue: seq<Writer>, n: nat) {
    exists k :: 0 <= k < |queue| && queue[k].next == n
  }

  /** Somebody waits for the lock of session `n`. */
  predicate Spoken(h: State, n: nat) {
    n in h.promised || TaskWaits(h.base, n) || UpdateWaits(h.queue, n)
  }

  function Written(h: State, w: Writer): State
    requires w.next < |h.base.sessions|
  {
    h.(base := h.base.(sessions := h.base.sessions[w.next := w.config]))
  }

  /** The update goes from session to session until it ends or is caught. */
  function Onward(h: State, w: Writer): State
    decreases if w.next < w.count then w.count - w.next else 0
  {
    if w.next >= w.count || w.next >= |h.base.sessions| then
      if w.missed && h.base.deferred.None? then h.(base := h.base.(deferred := Some(Deferred(Start, h.base.version, 0)))) else h
    else if h.base.sessions[w.next] == w.config then Onward(h, w.(next := w.next + 1))
    else if w.next in h.base.held then Onward(h, w.(next := w.next + 1, missed := true))
    else if Spoken(h, w.next) then h.(queue := h.queue + [w])
    else Onward(Written(h, w), w.(next := w.next + 1))
  }

  /** The update merges its overrides under the user lock and takes the sessions of that moment. */
  function Merging(h: State, updates: map<string, Option<string>>): State {
    var overrides := Merged(h.base.overrides, updates);
    h.(base := h.base.(overrides := overrides, version := if overrides != h.base.overrides then h.base.version + 1 else h.base.version))
  }

  function Starting(h: State, build: Config -> Config): Writer {
    Writer(build(h.base.overrides), 0, |h.base.sessions|, false)
  }

  function Begun(h: State, build: Config -> Config, updates: map<string, Option<string>>): State {
    if updates == map[] then h
    else
      var merged := Merging(h, updates);
      if h.base.sessions == [] then merged else Onward(merged, Starting(merged, build))
  }

  /** The lock is free and the suspended update is the first one that waits for it. */
  predicate MayResume(h: State, k: nat) {
    && k < |h.queue|
    && var n := h.queue[k].next;
    && n < |h.base.sessions| && n !in h.base.held && n !in h.promised
    && forall j :: 0 <= j < k ==> h.queue[j].next != n
  }

  function Dequeued(h: State, k: nat): State
    requires k < |h.queue|
  {
    h.(queue := h.queue[..k] + h.queue[k + 1..])
  }

  /** It writes its configuration, whatever happened meanwhile, and goes on. */
  function Resumed(h: State, k: nat): State
    requires MayResume(h, k)
  {
    var w := h.queue[k];
    Onward(Written(Dequeued(h, k), w), w.(next := w.next + 1))
  }

  function Moved(h: State, build: Config -> Config, m: Move): State {
    match m
    case Begin(updates) => Begun(h, build, updates)
    case Resume(k) => if MayResume(h, k) then Resumed(h, k) else h
    case HandOver(n) =>
      if n in h.base.held then State(h.base.(held := h.base.held - {n}), h.promised + {n}, h.queue) else h
    case WakeUp(n) =>
      if n in h.promised then State(h.base.(held := h.base.held + {n}), h.promised - {n}, h.queue) else h
    case Create => h.(base := After(h.base, build, CreateSession))
    case Lock(n) => if n in h.promised then h else h.(base := After(h.base, build, Acquire(n)))
    case Unlock(n) => h.(base := After(h.base, build, Release(n)))
    case Deferring => h.(base := AfterDeferred(h.base.(held := h.base.held + h.promised), build).(held := h.base.held))
  }

  function MoveAll(h: State, build: Config -> Config, moves: seq<Move>): State {
    if moves == [] then h else Moved(MoveAll(h, build, moves[..|moves| - 1]), build, moves[|moves| - 1])
  }

  /**
   * A lock is spoken for while a query was promised it, an update is queued for it, or the deferred task waits for it;
   * so it is once a query has handed it over, and once an update was caught at it.
   */
  lemma LockIsClaimed(h: State, build: Config -> Config, n: nat)
    ensures Spoken(h, n) <==> n in h.promised || (exists w :: w in h.queue && w.next == n)
                              || (h.base.deferred.Some? && h.base.deferred.value.phase.Applying?
                                  && h.base.deferred.value.phase.waiting && h.base.deferred.value.phase.next == n)
    ensures n in h.base.held ==> Spoken(Moved(h, build, HandOver(n)), n)
    ensures forall w: Writer :: w.next == n ==> Spoken(h.(queue := h.queue + [w]), n)
  {
    forall w: Writer | w.next == n
      ensures Spoken(h.(queue := h.queue + [w]), n)
    {
      var queue := h.queue + [w];
      assert queue[|h.queue|].next == n;
    }
  }

  // ---------- where an update stops ----------

  /** The update is caught at session `n`. */
  predicate CaughtAt(h: State, config: Config, n: nat)
    requires n < |h.base.sessions|
  {
    h.base.sessions[n] != config && n !in h.base.held && Spoken(h, n)
  }

  /** The session at which the update is caught, or its end. */
  function Stop(h: State, w: Writer): (stop: nat)
    requires w.next <= w.count <= |h.base.sessions|
    ensures w.next <= stop <= w.count
    ensures stop < w.count ==> CaughtAt(h, w.config, stop)
    ensures forall n :: w.next <= n < stop ==> !CaughtAt(h, w.config, n)
    decreases w.count - w.next
  {
    if w.next == w.count || CaughtAt(h, w.config, w.next) then w.next else Stop(h, w.(next := w.next + 1))
  }

  predicate Misses(h: State, w: Writer, stop: nat)
    requires stop <= |h.base.sessions|
  {
    exists n :: w.next <= n < stop && n in h.base.held && h.base.sessions[n] != w.config
  }

  /** What the update has done when it is at `stop`: busy sessions before it are missed, the others written. */
  function Pass(h: State, w: Writer, stop: nat): State
    requires w.next <= stop <= w.count <= |h.base.sessions|
  {
    var before, missed := h.base.sessions, w.missed || Misses(h, w, stop);
    var sessions := seq(|before|, n requires 0 <= n < |before| => if w.next <= n < stop && n !in h.base.held then w.config else before[n]);
    var ends := stop == w.count && missed && h.base.deferred.None?;
    State(h.base.(sessions := sessions, deferred := if ends then Some(Deferred(Start, h.base.version, 0)) else h.base.deferred),
          h.promised,
          if stop < w.count then h.queue + [Writer(w.config, stop, w.count, missed)] else h.queue)
  }

  lemma PassNothing(h: State, w: Writer)
    requires w.next <= w.count <= |h.base.sessions| && (w.next < w.count ==> CaughtAt(h, w.config, w.next))
    ensures Onward(h, w) == Pass(h, w, w.next)
  {
    assert Pass(h, w, w.next).base.sessions == h.base.sessions;
  }

  lemma PassEqual(h: State, w: Writer, stop: nat)
    requires w.next < stop <= w.count <= |h.base.sessions| && h.base.sessions[w.next] == w.config
    ensures Pass(h, w, stop) == Pass(h, w.(next := w.next + 1), stop)
  {
    assert Misses(h, w, stop) == Misses(h, w.(next := w.next + 1), stop);
    hide Misses;
    assert Pass(h, w, stop).base.sessions == Pass(h, w.(next := w.next + 1), stop).base.sessions;
  }

  lemma PassBusy(h: State, w: Writer, stop: nat)
    requires w.next < stop <= w.count <= |h.base.sessions| && h.base.sessions[w.next] != w.config && w.next in h.base.held
    ensures Pass(h, w, stop) == Pass(h, w.(next := w.next + 1, missed := true), stop)
  {
    assert Misses(h, w, stop);
    hide Misses;
    assert Pass(h, w, stop).base.sessions == Pass(h, w.(next := w.next + 1, missed := true), stop).base.sessions;
  }

  lemma PassWrite(h: State, w: Writer, stop: nat)
    requires w.next < stop <= w.count <= |h.base.sessions| && w.next !in h.base.held
    ensures Pass(h, w, stop) == Pass(Written(h, w), w.(next := w.next + 1), stop)
  {
    assert Misses(h, w, stop) == Misses(Written(h, w), w.(next := w.next + 1), stop);
    hide Misses;
    assert Pass(h, w, stop).base.sessions == Pass(Written(h, w), w.(next := w.next + 1), stop).base.sessions;
  }

  /** Writing a session does not change where the update is caught later. */
  lemma {:induction false} StopAfterWrite(h: State, w: Writer, v: Writer)
    requires w.next < v.next <= v.count <= |h.base.sessions|
    ensures Stop(Written(h, w), v) == Stop(h, v)
    decreases v.count - v.next
  {
    if v.next < v.count {
      assert CaughtAt(Written(h, w), v.config, v.next) == CaughtAt(h, v.config, v.next);
      hide CaughtAt;
      StopAfterWrite(h, w, v.(next := v.next + 1));
    }
  }

  /** The walk through the sessions, in one step. */
  lemma {:induction false} OnwardIsPass(h: State, w: Writer)
    requires w.next <= w.count <= |h.base.sessions|
    ensures Onward(h, w) == Pass(h, w, Stop(h, w))
    decreases w.count - w.next
  {
    hide Pass, Spoken;
    var later, stop := w.(next := w.next + 1), Stop(h, w);
    if w.next == w.count || CaughtAt(h, w.config, w.next) {
      PassNothing(h, w);
    } else if h.base.sessions[w.next] == w.config {
      OnwardIsPass(h, later);
      PassEqual(h, w, stop);
    } else if w.next in h.base.held {
      OnwardIsPass(h, later.(missed := true));
      SameStop(h, later);
      PassBusy(h, w, stop);
    } else {
      OnwardIsPass(Written(h, w), later);
      StopAfterWrite(h, w, later);
      PassWrite(h, w, stop);
    }
  }

  lemma {:induction false} SameStop(h: State, w: Writer)
    requires w.next <= w.count <= |h.base.sessions|
    ensures Stop(h, w.(missed := true)) == Stop(h, w)
    decreases w.count - w.next
  {
    hide CaughtAt;
    if w.next < w.count {
      SameStop(h, w.(next := w.next + 1));
    }
  }

  /** Where a resumed update stops. */
  function StopOf(h: State, k: nat): nat
    requires k < |h.queue| && h.queue[k].next < h.queue[k].count <= |h.base.sessions|
  {
    Stop(Dequeued(h, k), h.queue[k].(next := h.queue[k].next + 1))
  }

  lemma ResumedIsPass(h: State, k: nat)
    requires MayResume(h, k) && h.queue[k].next < h.queue[k].count <= |h.base.sessions|
    ensures Resumed(h, k) == Pass(Dequeued(h, k), h.queue[k], StopOf(h, k))
  {
    hide Stop, Pass;
    var rest, w := Dequeued(h, k), h.queue[k];
    var later := w.(next := w.next + 1);
    OnwardIsPass(Written(rest, w), later);
    StopAfterWrite(rest, w, later);
    PassWrite(rest, w, StopOf(h, k));
  }

  // ---------- who brings a session up to date ----------

  function Current(h: State, build: Config -> Config): Config {
    build(h.base.overrides)
  }

  /** The deferred task will still compare session `n` with the latest overrides. */
  predicate TaskCovers(d: Deferred, version: nat, n: nat) {
    match d.phase
    case Start => true
    case Applying(v, _, next, count, _) => v != version || next <= n < count
    case Recheck(v) => v != version
  }

  /** With no deferred task alive the update will reach session `n` with this configuration, or start the task. */
  predicate WriterCovers(w: Writer, config: Config, n: nat) {
    w.missed || (w.config == config && w.next <= n < w.count)
  }

  predicate SomeWriterCovers(queue: seq<Writer>, config: Config, n: nat) {
    exists k :: 0 <= k < |queue| && WriterCovers(queue[k], config, n)
  }

  /** An update waits for session `n` with this configuration. */
  predicate WaitsWith(queue: seq<Writer>, config: Config, n: nat) {
    exists k :: 0 <= k < |queue| && queue[k].next == n && queue[k].config == config
  }

  /**
   * Session `n` will be brought up to date: by the deferred task, by an update that waits for that very session, or, if
   * no task is alive, by any update that has the session before it or that starts the task at its end.
   */
  predicate Covered(h: State, build: Config -> Config, n: nat) {
    match h.base.deferred
    case Some(d) => TaskCovers(d, h.base.version, n) || WaitsWith(h.queue, Current(h, build), n)
    case None => SomeWriterCovers(h.queue, Current(h, build), n)
  }

  predicate TaskFits(h: State, build: Config -> Config) {
    h.base.deferred.Some? ==>
      match h.base.deferred.value.phase
      case Start => true
      case Applying(v, config, next, count, waiting) =>
        && v <= h.base.version && next <= count <= |h.base.sessions| && (waiting ==> next < count)
        && (v == h.base.version ==> config == Current(h, build))
      case Recheck(v) => v <= h.base.version
  }

  predicate QueueFits(h: State) {
    forall k :: 0 <= k < |h.queue| ==> h.queue[k].next < h.queue[k].count <= |h.base.sessions|
  }

  predicate Fits(h: State, build: Config -> Config) {
    TaskFits(h, build) && QueueFits(h)
  }

  predicate Outdated(h: State, build: Config -> Config, n: nat) {
    n < |h.base.sessions| && h.base.sessions[n] != Current(h, build)
  }

  /** Every session that is not up to date will be brought up to date. */
  predicate Kept(h: State, build: Config -> Config) {
    Fits(h, build) && forall n :: 0 <= n < |h.base.sessions| && Outdated(h, build, n) ==> Covered(h, build, n)
  }

  /** Every session that the update writes from here on is covered anyway. */
  predicate WritesCovered(h: State, build: Config -> Config, w: Writer, stop: nat) {
    forall n :: w.next <= n < stop && n !in h.base.held ==> Covered(h, build, n)
  }

  /**
   * A resumed update does no harm if its configuration is the latest, if it starts the deferred task because it meets a
   * busy session, or if the sessions it writes are covered.
   */
  predicate Harmless(h: State, build: Config -> Config, m: Move) {
    m.Resume? && MayResume(h, m.place) && QueueFits(h) ==>
      var w, stop := h.queue[m.place], StopOf(h, m.place);
      || w.config == Current(h, build)
      || (h.base.deferred.None? && Misses(h, w, stop))
      || WritesCovered(h, build, w, stop)
  }

  // ---------- one move ----------

  lemma PassFits(h: State, build: Config -> Config, w: Writer, stop: nat)
    requires Fits(h, build) && w.next <= stop <= w.count <= |h.base.sessions|
    ensures Fits(Pass(h, w, stop), build)
  {
    hide Misses;
    var t := Pass(h, w, stop);
    forall k | 0 <= k < |t.queue|
      ensures t.queue[k].next < t.queue[k].count <= |t.base.sessions|
    {
      if k < |h.queue| {
        assert t.queue[k] == h.queue[k];
      }
    }
  }

  /** What the running update adds to the cover of session `n`. */
  predicate RunningCovers(h: State, build: Config -> Config, w: Writer, n: nat) {
    h.base.deferred.None? && WriterCovers(w, Current(h, build), n)
  }

  lemma LongerQueueCovers(queue: seq<Writer>, more: seq<Writer>, config: Config, n: nat)
    requires queue <= more
    ensures SomeWriterCovers(queue, config, n) ==> SomeWriterCovers(more, config, n)
    ensures WaitsWith(queue, config, n) ==> WaitsWith(more, config, n)
  {
  }

  /** What was covered stays so; and a running update that was the cover has left somebody in its place. */
  lemma PassCovers(h: State, build: Config -> Config, w: Writer, stop: nat, n: nat)
    requires w.next <= stop <= w.count <= |h.base.sessions|
    requires Covered(h, build, n) || (RunningCovers(h, build, w, n) && Outdated(Pass(h, w, stop), build, n))
    ensures Covered(Pass(h, w, stop), build, n)
  {
    var t := Pass(h, w, stop);
    LongerQueueCovers(h.queue, t.queue, Current(h, build), n);
    if h.base.deferred.None? && !Covered(h, build, n) && stop < w.count {
      PassLeavesCover(h, build, w, stop, n);
      assert WriterCovers(t.queue[|h.queue|], Current(h, build), n);
    } else if h.base.deferred.None? && !Covered(h, build, n) {
      PassLeavesCover(h, build, w, stop, n);
    }
  }

  lemma PassLeavesCover(h: State, build: Config -> Config, w: Writer, stop: nat, n: nat)
    requires w.next <= stop <= w.count <= |h.base.sessions|
    requires WriterCovers(w, Current(h, build), n) && Outdated(Pass(h, w, stop), build, n)
    ensures w.missed || Misses(h, w, stop) || (w.config == Current(h, build) && stop <= n < w.count)
  {
    if !w.missed && n < stop {
      assert n in h.base.held && h.base.sessions[n] != w.config;
    }
  }

  lemma PassWithCurrent(h: State, build: Config -> Config, w: Writer, stop: nat)
    requires w.next <= stop <= w.count <= |h.base.sessions| && Fits(h, build) && w.config == Current(h, build)
    requires forall n :: 0 <= n < |h.base.sessions| && Outdated(h, build, n) ==> Covered(h, build, n) || RunningCovers(h, build, w, n)
    ensures Kept(Pass(h, w, stop), build)
  {
    PassFits(h, build, w, stop);
    var t := Pass(h, w, stop);
    forall n | 0 <= n < |t.base.sessions| && Outdated(t, build, n)
      ensures Covered(t, build, n)
    {
      assert Outdated(h, build, n);
      hide Pass, Covered, RunningCovers;
      PassCovers(h, build, w, stop, n);
    }
  }

  /** An update with an old configuration that neither ends in a new task nor waits with the latest one covers nothing. */
  lemma PassWithOldCovers(h: State, build: Config -> Config, w: Writer, stop: nat, n: nat)
    requires w.next <= stop <= w.count <= |h.base.sessions| && w.config != Current(h, build)
    requires h.base.deferred.Some? || !(w.missed || Misses(h, w, stop))
    ensures Covered(Pass(h, w, stop), build, n) <==> Covered(h, build, n)
  {
    hide Misses;
    var t := Pass(h, w, stop);
    LongerQueueCovers(h.queue, t.queue, Current(h, build), n);
    if SomeWriterCovers(t.queue, Current(h, build), n) && h.base.deferred.None? {
      var k :| 0 <= k < |t.queue| && WriterCovers(t.queue[k], Current(h, build), n);
      assert k < |h.queue| && t.queue[k] == h.queue[k];
    }
    if WaitsWith(t.queue, Current(h, build), n) {
      var k :| 0 <= k < |t.queue| && t.queue[k].next == n && t.queue[k].config == Current(h, build);
      assert k < |h.queue| && t.queue[k] == h.queue[k];
    }
  }

  lemma PassWithOld(h: State, build: Config -> Config, w: Writer, stop: nat)
    requires w.next <= stop <= w.count <= |h.base.sessions| && Fits(h, build) && w.config != Current(h, build)
    requires h.base.deferred.Some? || !(w.missed || Misses(h, w, stop))
    requires forall n :: 0 <= n < |h.base.sessions| && Outdated(h, build, n) ==> Covered(h, build, n)
    ensures Kept(Pass(h, w, stop), build) <==> WritesCovered(h, build, w, stop)
  {
    PassFits(h, build, w, stop);
    var t := Pass(h, w, stop);
    forall n | 0 <= n < |t.base.sessions|
      ensures Outdated(t, build, n) <==> (w.next <= n < stop && n !in h.base.held) || Outdated(h, build, n)
      ensures Covered(t, build, n) <==> Covered(h, build, n)
    {
      PassWithOldCovers(h, build, w, stop, n);
    }
    hide Pass, Covered, Outdated, Fits;
  }

  /** An update that starts the deferred task, now or at its end, leaves everything covered. */
  lemma PassThatMissed(h: State, build: Config -> Config, w: Writer, stop: nat)
    requires w.next <= stop <= w.count <= |h.base.sessions| && Fits(h, build)
    requires h.base.deferred.None? && (w.missed || Misses(h, w, stop))
    ensures Kept(Pass(h, w, stop), build)
  {
    PassFits(h, build, w, stop);
    hide Misses, Fits;
    var t := Pass(h, w, stop);
    forall n | 0 <= n < |t.base.sessions|
      ensures Covered(t, build, n)
    {
      if stop < w.count {
        assert WriterCovers(t.queue[|h.queue|], Current(h, build), n);
      }
    }
  }

  lemma BeginKeeps(h: State, build: Config -> Config, updates: map<string, Option<string>>)
    requires Kept(h, build)
    ensures Kept(Begun(h, build, updates), build)
  {
    hide Merged;
    if updates != map[] {
      var merged := Merging(h, updates);
      var w := Starting(merged, build);
      assert Fits(merged, build);
      forall n | 0 <= n < |merged.base.sessions| && Outdated(merged, build, n)
        ensures Covered(merged, build, n) || RunningCovers(merged, build, w, n)
      {
        assert merged.base.overrides == h.base.overrides ==> Outdated(h, build, n) && Covered(h, build, n);
      }
      hide Pass, Stop, Onward, Covered, RunningCovers;
      OnwardIsPass(merged, w);
      PassWithCurrent(merged, build, w, Stop(merged, w));
    }
  }

  lemma QueueWithout(queue: seq<Writer>, k: nat, j: nat)
    requires k < |queue| && j < |queue| && j != k
    ensures var rest := queue[..k] + queue[k + 1..];
            if j < k then rest[j] == queue[j] else rest[j - 1] == queue[j]
  {
  }

  lemma WithoutWriterCovers(queue: seq<Writer>, k: nat, config: Config, n: nat)
    requires k < |queue|
    ensures SomeWriterCovers(queue, config, n) <==>
      SomeWriterCovers(queue[..k] + queue[k + 1..], config, n) || WriterCovers(queue[k], config, n)
  {
    hide WriterCovers;
    var rest := queue[..k] + queue[k + 1..];
    if SomeWriterCovers(queue, config, n) {
      var j :| 0 <= j < |queue| && WriterCovers(queue[j], config, n);
      if j != k {
        QueueWithout(queue, k, j);
        assert WriterCovers(rest[if j < k then j else j - 1], config, n);
      }
    }
    if SomeWriterCovers(rest, config, n) {
      var j :| 0 <= j < |rest| && WriterCovers(rest[j], config, n);
      QueueWithout(queue, k, if j < k then j else j + 1);
    }
  }

  lemma WithoutWaits(queue: seq<Writer>, k: nat, config: Config, n: nat)
    requires k < |queue|
    ensures WaitsWith(queue, config, n) <==>
      WaitsWith(queue[..k] + queue[k + 1..], config, n) || (queue[k].next == n && queue[k].config == config)
  {
    var rest := queue[..k] + queue[k + 1..];
    if WaitsWith(queue, config, n) {
      var j :| 0 <= j < |queue| && queue[j].next == n && queue[j].config == config;
      if j != k {
        QueueWithout(queue, k, j);
        assert rest[if j < k then j else j - 1].next == n;
      }
    }
    if WaitsWith(rest, config, n) {
      var j :| 0 <= j < |rest| && rest[j].next == n && rest[j].config == config;
      QueueWithout(queue, k, if j < k then j else j + 1);
    }
  }

  /** What an update in the queue covers, besides the others. */
  lemma DequeuedCovers(h: State, build: Config -> Config, k: nat, n: nat)
    requires k < |h.queue|
    ensures Covered(Dequeued(h, k), build, n) ==> Covered(h, build, n)
    ensures Covered(h, build, n) ==>
      || Covered(Dequeued(h, k), build, n) || RunningCovers(h, build, h.queue[k], n)
      || (h.queue[k].next == n && h.queue[k].config == Current(h, build))
  {
    WithoutWriterCovers(h.queue, k, Current(h, build), n);
    WithoutWaits(h.queue, k, Current(h, build), n);
    hide SomeWriterCovers, WaitsWith;
  }

  lemma DequeuedFits(h: State, build: Config -> Config, k: nat)
    requires Fits(h, build) && k < |h.queue|
    ensures Fits(Dequeued(h, k), build)
  {
    var rest := Dequeued(h, k);
    assert forall j :: 0 <= j < |rest.queue| ==> rest.queue[j] == h.queue[if j < k then j else j + 1];
  }

  lemma CurrentResumes(h: State, build: Config -> Config, k: nat)
    requires Kept(h, build) && MayResume(h, k) && h.queue[k].config == Current(h, build)
    ensures Kept(Resumed(h, k), build)
  {
    var rest, w := Dequeued(h, k), h.queue[k];
    assert QueueFits(h);
    ResumedIsPass(h, k);
    DequeuedFits(h, build, k);
    hide Pass, Resumed, StopOf, Fits;
    // The session it waits for is written first, so only the sessions behind it need a cover.
    var wrote, later := Written(rest, w), w.(next := w.next + 1);
    WrittenFits(rest, build, w);
    forall n | 0 <= n < |wrote.base.sessions| && Outdated(wrote, build, n)
      ensures Covered(wrote, build, n) || RunningCovers(wrote, build, later, n)
    {
      assert Outdated(h, build, n) && n != w.next;
      DequeuedCovers(h, build, k, n);
    }
    PassWrite(rest, w, StopOf(h, k));
    assert w.next + 1 <= StopOf(h, k) <= w.count by { StopIsLater(h, k); }
    hide Covered, RunningCovers, Written;
    PassWithCurrent(wrote, build, later, StopOf(h, k));
  }

  lemma StopIsLater(h: State, k: nat)
    requires k < |h.queue| && h.queue[k].next < h.queue[k].count <= |h.base.sessions|
    ensures h.queue[k].next + 1 <= StopOf(h, k) <= h.queue[k].count
  {
  }

  lemma WrittenFits(h: State, build: Config -> Config, w: Writer)
    requires Fits(h, build) && w.next < |h.base.sessions|
    ensures Fits(Written(h, w), build)
  {
  }

  lemma OldResumes(h: State, build: Config -> Config, k: nat)
    requires Kept(h, build) && MayResume(h, k) && h.queue[k].config != Current(h, build)
    ensures Kept(Resumed(h, k), build) <==> Harmless(h, build, Resume(k))
  {
    var rest, w := Dequeued(h, k), h.queue[k];
    assert QueueFits(h);
    ResumedIsPass(h, k);
    StopIsLater(h, k);
    DequeuedFits(h, build, k);
    var stop := StopOf(h, k);
    assert Misses(rest, w, stop) == Misses(h, w, stop);
    hide Pass, Resumed, StopOf, Fits, Misses;
    forall n: nat
      ensures Covered(h, build, n) <==> Covered(rest, build, n) || (h.base.deferred.None? && w.missed)
    {
      DequeuedCovers(h, build, k, n);
      if h.base.deferred.None? && w.missed {
        assert WriterCovers(h.queue[k], Current(h, build), n);
      }
    }
    hide Covered;
    if h.base.deferred.None? && (w.missed || Misses(rest, w, stop)) {
      PassThatMissed(rest, build, w, stop);
    } else {
      forall n | 0 <= n < |rest.base.sessions| && Outdated(rest, build, n)
        ensures Covered(rest, build, n)
      {
        assert Outdated(h, build, n);
      }
      PassWithOld(rest, build, w, stop);
    }
  }

  /** An update that waits for the session still covers it when no task is alive. */
  lemma WaitingCovers(h: State, config: Config, n: nat)
    requires QueueFits(h) && WaitsWith(h.queue, config, n)
    ensures SomeWriterCovers(h.queue, config, n)
  {
    var k :| 0 <= k < |h.queue| && h.queue[k].next == n && h.queue[k].config == config;
    assert WriterCovers(h.queue[k], config, n);
  }

  lemma DeferringKeeps(h: State, build: Config -> Config)
    requires Kept(h, build)
    ensures Kept(Moved(h, build, Deferring), build)
  {
    hide SomeWriterCovers, WaitsWith;
    var t := Moved(h, build, Deferring);
    if h.base.deferred.Some? {
      forall n | 0 <= n < |t.base.sessions| && Outdated(t, build, n)
        ensures Covered(t, build, n)
      {
        assert Outdated(h, build, n) ==> Covered(h, build, n);
        if WaitsWith(h.queue, Current(h, build), n) {
          WaitingCovers(h, Current(h, build), n);
        }
      }
    }
  }

  lemma CreateKeeps(h: State, build: Config -> Config)
    requires Kept(h, build)
    ensures Kept(Moved(h, build, Create), build)
  {
    var t := Moved(h, build, Create);
    forall n | 0 <= n < |t.base.sessions| && Outdated(t, build, n)
      ensures Covered(t, build, n)
    {
      assert n < |h.base.sessions| && Outdated(h, build, n);
      assert Covered(h, build, n);
    }
  }

  lemma LocksKeep(h: State, build: Config -> Config, held: set<nat>, promised: set<nat>)
    requires Kept(h, build)
    ensures Kept(State(h.base.(held := held), promised, h.queue), build)
  {
    var t := State(h.base.(held := held), promised, h.queue);
    forall n | 0 <= n < |t.base.sessions| && Outdated(t, build, n)
      ensures Covered(t, build, n)
    {
      assert Outdated(h, build, n) && Covered(h, build, n);
    }
  }

  lemma ResumeKeepsIff(h: State, build: Config -> Config, k: nat)
    requires Kept(h, build) && MayResume(h, k)
    ensures Kept(Resumed(h, k), build) <==> Harmless(h, build, Resume(k))
  {
    if h.queue[k].config == Current(h, build) {
      CurrentResumes(h, build, k);
      hide Kept, Resumed, StopOf;
    } else {
      OldResumes(h, build, k);
    }
  }

  /** A move leaves every outdated session covered exactly if it is harmless. */
  lemma MoveKeepsIff(h: State, build: Config -> Config, m: Move)
    requires Kept(h, build)
    ensures Kept(Moved(h, build, m), build) <==> Harmless(h, build, m)
  {
    hide Kept, Covered, Begun, Resumed, MayResume, AfterDeferred, Harmless;
    match m
    case Begin(updates) => BeginKeeps(h, build, updates); OnlyResumesHarm(h, build, m);
    case Resume(k) =>
      if MayResume(h, k) {
        ResumeKeepsIff(h, build, k);
      } else {
        OnlyResumesHarm(h, build, m);
      }
    case HandOver(n) => LocksKeep(h, build, h.base.held - {n}, h.promised + {n}); OnlyResumesHarm(h, build, m);
    case WakeUp(n) => LocksKeep(h, build, h.base.held + {n}, h.promised - {n}); OnlyResumesHarm(h, build, m);
    case Create => CreateKeeps(h, build); OnlyResumesHarm(h, build, m);
    case Lock(n) => LocksKeep(h, build, h.base.held + {n}, h.promised); OnlyResumesHarm(h, build, m);
    case Unlock(n) => LocksKeep(h, build, h.base.held - {n}, h.promised); OnlyResumesHarm(h, build, m);
    case Deferring => DeferringKeeps(h, build); OnlyResumesHarm(h, build, m);
  }

  lemma OnlyResumesHarm(h: State, build: Config -> Config, m: Move)
    requires m.Resume? ==> !MayResume(h, m.place)
    ensures Harmless(h, build, m)
  {
  }

  /** In every state the positions of updates and task fit the sessions, harmed or not. */
  lemma MoveFits(h: State, build: Config -> Config, m: Move)
    requires Fits(h, build)
    ensures Fits(Moved(h, build, m), build)
  {
    match m
    case Begin(updates) =>
      BegunFits(h, build, updates);
    case Resume(k) =>
      if MayResume(h, k) {
        assert QueueFits(h);
        ResumedIsPass(h, k);
        StopIsLater(h, k);
        DequeuedFits(h, build, k);
        hide Pass, Resumed, StopOf, Fits;
        PassFits(Dequeued(h, k), build, h.queue[k], StopOf(h, k));
      }
    case _ =>
  }

  lemma BegunFits(h: State, build: Config -> Config, updates: map<string, Option<string>>)
    requires Fits(h, build)
    ensures Fits(Begun(h, build, updates), build)
  {
    hide Merged;
    if updates != map[] {
      var merged := Merging(h, updates);
      var w := Starting(merged, build);
      assert Fits(merged, build);
      hide Pass, Stop, Onward, Fits;
      OnwardIsPass(merged, w);
      PassFits(merged, build, w, Stop(merged, w));
    }
  }

  // ---------- whole runs ----------

  const NOTHING := State(INITIAL, {}, [])

  predicate HarmlessFrom(h: State, build: Config -> Config, moves: seq<Move>) {
    forall k :: 0 <= k < |moves| ==> Harmless(MoveAll(h, build, moves[..k]), build, moves[k])
  }

  predicate KeptThroughout(h: State, build: Config -> Config, moves: seq<Move>) {
    forall k :: 0 <= k <= |moves| ==> Kept(MoveAll(h, build, moves[..k]), build)
  }

  lemma OneMoreMove(h: State, build: Config -> Config, moves: seq<Move>, k: nat)
    requires k < |moves|
    ensures MoveAll(h, build, moves[..k + 1]) == Moved(MoveAll(h, build, moves[..k]), build, moves[k])
  {
    hide Moved;
    assert moves[..k + 1][..k] == moves[..k];
  }

  lemma {:induction false} KeptSoFar(h: State, build: Config -> Config, moves: seq<Move>, k: nat)
    requires Kept(h, build) && HarmlessFrom(h, build, moves) && k <= |moves|
    ensures Kept(MoveAll(h, build, moves[..k]), build)
    decreases k
  {
    hide Harmless, Moved, Kept;
    if k == 0 {
      assert moves[..0] == [];
    } else {
      KeptSoFar(h, build, moves, k - 1);
      OneMoreMove(h, build, moves, k - 1);
      MoveKeepsIff(MoveAll(h, build, moves[..k - 1]), build, moves[k - 1]);
    }
  }

  /** Along a run every outdated session stays covered exactly if all its moves are harmless. */
  lemma KeptIffHarmless(h: State, build: Config -> Config, moves: seq<Move>)
    requires Kept(h, build)
    ensures KeptThroughout(h, build, moves) <==> HarmlessFrom(h, build, moves)
  {
    hide Harmless, Moved, Kept;
    if HarmlessFrom(h, build, moves) {
      forall k | 0 <= k <= |moves|
        ensures Kept(MoveAll(h, build, moves[..k]), build)
      {
        KeptSoFar(h, build, moves, k);
      }
    }
    if KeptThroughout(h, build, moves) {
      forall k | 0 <= k < |moves|
        ensures Harmless(MoveAll(h, build, moves[..k]), build, moves[k])
      {
        assert Kept(MoveAll(h, build, moves[..k]), build) && Kept(MoveAll(h, build, moves[..k + 1]), build);
        OneMoreMove(h, build, moves, k);
        MoveKeepsIff(MoveAll(h, build, moves[..k]), build, moves[k]);
      }
    }
  }

  lemma {:induction false} FitsSoFar(h: State, build: Config -> Config, moves: seq<Move>)
    requires Fits(h, build)
    ensures Fits(MoveAll(h, build, moves), build)
    decreases |moves|
  {
    hide Moved, Fits;
    if moves != [] {
      FitsSoFar(h, build, moves[..|moves| - 1]);
      MoveFits(MoveAll(h, build, moves[..|moves| - 1]), build, moves[|moves| - 1]);
    }
  }

  lemma NothingIsKept(build: Config -> Config)
    ensures Kept(NOTHING, build)
  {
  }

  predicate UpToDate(h: State, build: Config -> Config) {
    forall n :: 0 <= n < |h.base.sessions| ==> h.base.sessions[n] == build(h.base.overrides)
  }

  /** No update is under way and no deferred task is alive. */
  predicate AtRest(h: State) {
    h.queue == [] && h.base.deferred.None?
  }

  lemma KeptAtRestIsUpToDate(h: State, build: Config -> Config)
    requires Kept(h, build) && AtRest(h)
    ensures UpToDate(h, build)
  {
    forall n | 0 <= n < |h.base.sessions|
      ensures h.base.sessions[n] == build(h.base.overrides)
    {
      assert Outdated(h, build, n) ==> Covered(h, build, n);
    }
  }

  /** So a run of harmless moves that has come to rest has converged. */
  lemma ConvergedIfHarmless(build: Config -> Config, moves: seq<Move>)
    requires HarmlessFrom(NOTHING, build, moves) && AtRest(MoveAll(NOTHING, build, moves))
    ensures UpToDate(MoveAll(NOTHING, build, moves), build)
  {
    hide Moved, Harmless, Kept;
    NothingIsKept(build);
    KeptSoFar(NOTHING, build, moves, |moves|);
    assert moves[..|moves|] == moves;
    KeptAtRestIsUpToDate(MoveAll(NOTHING, build, moves), build);
  }

  // ---------- updates that are not caught ----------

  /** The update finds a session that is free, spoken for, and not as it should be. */
  predicate IsCaught(h: State, build: Config -> Config, updates: map<string, Option<string>>) {
    updates != map[] && exists n :: 0 <= n < |h.base.sessions| && CaughtAt(h, build(Merged(h.base.overrides, updates)), n)
  }

  lemma MergingCatchesTheSame(h: State, updates: map<string, Option<string>>, config: Config, n: nat)
    requires n < |h.base.sessions|
    ensures CaughtAt(Merging(h, updates), config, n) == CaughtAt(h, config, n)
  {
    hide Merged;
  }

  /** An update queues exactly if it is caught. */
  lemma CaughtIffQueued(h: State, build: Config -> Config, updates: map<string, Option<string>>)
    ensures |Begun(h, build, updates).queue| == |h.queue| + if IsCaught(h, build, updates) then 1 else 0
  {
    hide Merged, CaughtAt, Onward, Misses;
    if updates != map[] && h.base.sessions != [] {
      var merged := Merging(h, updates);
      var w := Starting(merged, build);
      forall n | 0 <= n < |h.base.sessions|
        ensures CaughtAt(merged, w.config, n) == CaughtAt(h, w.config, n)
      {
        MergingCatchesTheSame(h, updates, w.config, n);
      }
      OnwardIsPass(merged, w);
    }
  }

  /** An update that is not caught is the single step of `AfterUpdate`. */
  lemma UncaughtUpdateIsOneStep(h: State, build: Config -> Config, updates: map<string, Option<string>>)
    requires !IsCaught(h, build, updates)
    ensures Begun(h, build, updates) == h.(base := AfterUpdate(h.base, build, updates))
  {
    hide Merged, CaughtAt, Onward;
    if updates != map[] && h.base.sessions != [] {
      var merged := Merging(h, updates);
      var w := Starting(merged, build);
      forall n | 0 <= n < |h.base.sessions|
        ensures CaughtAt(merged, w.config, n) == CaughtAt(h, w.config, n)
      {
        MergingCatchesTheSame(h, updates, w.config, n);
      }
      OnwardIsPass(merged, w);
      assert Stop(merged, w) == w.count;
      hide Stop, IsCaught;
      PassIsOffered(merged, w);
    }
  }

  lemma PassIsOffered(h: State, w: Writer)
    requires w.next == 0 && w.count == |h.base.sessions| && !w.missed
    ensures var missed := Missed(h.base.sessions, h.base.held, w.config);
            Pass(h, w, w.count) == h.(base := h.base.(
              sessions := Offered(h.base.sessions, h.base.held, w.config),
              deferred := if h.base.deferred.None? && missed then Some(Deferred(Start, h.base.version, 0)) else h.base.deferred))
  {
    assert Misses(h, w, w.count) == Missed(h.base.sessions, h.base.held, w.config);
    hide Misses, Missed;
    assert Pass(h, w, w.count).base.sessions == Offered(h.base.sessions, h.base.held, w.config);
  }

  predicate UncaughtRun(build: Config -> Config, moves: seq<Move>) {
    forall k :: 0 <= k < |moves| && moves[k].Begin? ==> !IsCaught(MoveAll(NOTHING, build, moves[..k]), build, moves[k].updates)
  }

  lemma {:induction false} NobodyQueues(build: Config -> Config, moves: seq<Move>, k: nat)
    requires UncaughtRun(build, moves) && k <= |moves|
    ensures MoveAll(NOTHING, build, moves[..k]).queue == []
    decreases k
  {
    hide Begun, AfterDeferred, IsCaught;
    if k == 0 {
      assert moves[..0] == [];
    } else {
      NobodyQueues(build, moves, k - 1);
      OneMoreMove(NOTHING, build, moves, k - 1);
      var before, m := MoveAll(NOTHING, build, moves[..k - 1]), moves[k - 1];
      if m.Begin? {
        CaughtIffQueued(before, build, m.updates);
      }
    }
  }

  /** A run in which no update finds a lock that is free but spoken for is harmless, so it converges. */
  lemma UncaughtRunIsHarmless(build: Config -> Config, moves: seq<Move>)
    requires UncaughtRun(build, moves)
    ensures HarmlessFrom(NOTHING, build, moves)
    ensures var h := MoveAll(NOTHING, build, moves);
            h.queue == [] && (h.base.deferred.None? ==> UpToDate(h, build))
  {
    hide MoveAll, UncaughtRun, UpToDate, Harmless;
    forall k | 0 <= k < |moves|
      ensures Harmless(MoveAll(NOTHING, build, moves[..k]), build, moves[k])
    {
      NobodyQueues(build, moves, k);
      OnlyResumesHarm(MoveAll(NOTHING, build, moves[..k]), build, moves[k]);
    }
    NobodyQueues(build, moves, |moves|);
    assert moves[..|moves|] == moves;
    if MoveAll(NOTHING, build, moves).base.deferred.None? {
      ConvergedIfHarmless(build, moves);
    }
  }
}
