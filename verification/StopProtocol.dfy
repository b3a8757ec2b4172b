/** Runs of the query tracker: a stop is never lost, and registrations never exceed their caps. */
module StopProtocol {
  import opened Text
  import opened ActiveQueries

  datatype Event =
    | Register(user: string, task: Task, turnRef: string, conversation: Option<string>, caps: Caps)
    | Consume(user: string, conversation: Option<string>, turn: Option<string>)
    | Stop(user: string, conversation: Option<string>, turn: Option<string>)
    | CancelQuery(user: string, conversation: Option<string>, turn: Option<string>)
    | Clear(user: string, cleared: Option<Task>)
    | ClearUser(user: string)
    | CountUser(user: string)
    | CountAll
    | Forget(user: string, gone: set<Task>)

  /** One operation, at a time, with the tasks that have finished by then. */
  datatype Tick = Tick(now: real, done: set<Task>, event: Event)

  function RegisterKey(conversation: Option<string>, turn: string): StopKey {
    KeyOf(NormalizeOptional(conversation), Some(turn))
  }

  function After(s: TrackerState, tick: Tick): TrackerState {
    match tick.event
    case Register(u, task, turn, conversation, caps) => AfterRegister(s, u, task, turn, conversation, caps, tick.now, tick.done)
    case Consume(u, conversation, turn) => AfterConsume(s, u, KeyOf(conversation, turn), tick.now)
    case Stop(u, conversation, turn) => AfterPendingStop(s, u, KeyOf(conversation, turn), tick.now)
    case CancelQuery(u, conversation, turn) => AfterCancel(s, u, KeyOf(conversation, turn), tick.now, tick.done)
    case Clear(u, task) => AfterClear(s, u, task)
    case ClearUser(u) => AfterClearUser(s, u)
    case CountUser(u) => s.(active := DropTasks(s.active, u, tick.done))
    case CountAll => s.(active := DropEverywhere(s.active, s.active.Keys, tick.done))
    case Forget(u, gone) => s.(active := DropTasks(s.active, u, gone * tick.done))
  }

  function RunTicks(s: TrackerState, ticks: seq<Tick>): TrackerState {
    if ticks == [] then s else After(RunTicks(s, ticks[..|ticks| - 1]), ticks[|ticks| - 1])
  }

  // ---------- what a cancel achieves ----------

  /** No live task that the request names is left, other tasks and users are untouched, and a miss stores a stop. */
  lemma CancelTakesEffect(s: TrackerState, user: string, key: StopKey, now: real, done: set<Task>)
    ensures var after := AfterCancel(s, user, key, now, done);
            && LiveOf(after.active, done, user) == LiveOf(s.active, done, user) - Cancelled(s, user, key, done)
            && (forall t :: t in LiveOf(after.active, done, user) ==>
                  !Requested(key, TasksOf(after.active, user)[t]) && TasksOf(after.active, user)[t] == TasksOf(s.active, user)[t])
            && (forall u :: u != user ==> TasksOf(after.active, u) == TasksOf(s.active, u) && StopsOf(after, u) == StopsOf(s, u))
            && (Cancelled(s, user, key, done) == {} ==> StopsOf(after, user) == StopsOf(s, user)[key := now + GRACE_SECONDS])
  {
    var cancelled := Cancelled(s, user, key, done);
    DropTasksOf(s.active, user, done + cancelled);
  }

  lemma DropTasksOf(active: map<string, map<Task, TaskRefs>>, user: string, gone: set<Task>)
    ensures TasksOf(DropTasks(active, user, gone), user) == TasksOf(active, user) - gone
    ensures forall u :: u != user ==> TasksOf(DropTasks(active, user, gone), u) == TasksOf(active, u)
  {
  }

  /** Tracked conversation refs have been normalised by the registration. */
  predicate NormalizedRefs(s: TrackerState) {
    forall u, t :: u in s.active && t in s.active[u] ==> NormalizeOptional(s.active[u][t].conversation) == s.active[u][t].conversation
  }

  predicate StopWouldMatch(key: StopKey, refs: TaskRefs) {
    Matches(key, refs.conversation, Some(refs.turn))
  }

  lemma RequestedIffMatches(conversation: Option<string>, turn: Option<string>, refs: TaskRefs)
    requires NormalizeOptional(refs.conversation) == refs.conversation
    ensures var key := KeyOf(conversation, turn);
            && (Requested(key, refs) ==> StopWouldMatch(key, refs))
            && (StopWouldMatch(key, refs) ==> (Requested(key, refs) <==> key.turn.None? || Trimmed(refs.turn)))
  {
    if turn.Some? {
      StripTrims(turn.value);
    }
    if Trimmed(refs.turn) {
      TrimmedIsFixed(refs.turn);
    }
  }

  /**
   * Registrations look stops up by trimmed turn, a cancel compares the turn as registered. So after a cancel no
   * live task is left that the stop would have blocked exactly when the live tasks it names have trimmed turns.
   */
  lemma CancelReachesAllIffTrimmed(s: TrackerState, user: string, conversation: Option<string>, turn: Option<string>,
          now: real, done: set<Task>)
    requires NormalizedRefs(s)
    ensures var key := KeyOf(conversation, turn);
            var after := AfterCancel(s, user, key, now, done);
            var tasks := TasksOf(s.active, user);
            (forall t :: t in LiveOf(after.active, done, user) ==> !StopWouldMatch(key, TasksOf(after.active, user)[t]))
            <==> key.turn.None? || forall t :: t in LiveOf(s.active, done, user) && StopWouldMatch(key, tasks[t]) ==> Trimmed(tasks[t].turn)
  {
    var key := KeyOf(conversation, turn);
    var tasks := TasksOf(s.active, user);
    CancelTakesEffect(s, user, key, now, done);
    forall t | t in tasks
      ensures StopWouldMatch(key, tasks[t]) ==> (Requested(key, tasks[t]) <==> key.turn.None? || Trimmed(tasks[t].turn))
      ensures Requested(key, tasks[t]) ==> StopWouldMatch(key, tasks[t])
    {
      RequestedIffMatches(conversation, turn, tasks[t]);
    }
    hide AfterCancel, StopWouldMatch, Requested, KeyOf;
  }

  /** A task registered for turn " t" keeps running when turn "t" is cancelled. */
  lemma UntrimmedTurnEscapesCancel()
    ensures var s := TrackerState(map["u" := map[1 := TaskRefs(" t", None)]], map[]);
            var key := KeyOf(None, Some("t"));
            var after := AfterCancel(s, "u", key, 0.0, {});
            1 in LiveOf(after.active, {}, "u") && StopWouldMatch(key, TaskRefs(" t", None))
  {
    var s := TrackerState(map["u" := map[1 := TaskRefs(" t", None)]], map[]);
    var key := KeyOf(None, Some("t"));
    assert " t"[1..] == "t";
    assert StripLeft(" t") == StripLeft("t") == "t";
    assert StripRight("t") == "t";
    assert Strip(" t") == "t" && Strip("t") == "t";
    assert !Requested(key, TaskRefs(" t", None));
    CancelTakesEffect(s, "u", key, 0.0, {});
  }

  // ---------- a stored stop ----------

  /** The operation consumes, answers or clears the stop. */
  predicate Releases(s: TrackerState, tick: Tick, user: string, key: StopKey) {
    match tick.event
    case Register(u, _, turn, conversation, caps) =>
      var lookup := RegisterKey(conversation, turn);
      u == user && StatusOf(s, u, lookup, caps, tick.now, tick.done) == StopConsumed && Taken(s, u, lookup, tick.now) == Some(key)
    case Consume(u, conversation, turn) => u == user && Taken(s, u, KeyOf(conversation, turn), tick.now) == Some(key)
    case CancelQuery(u, conversation, turn) =>
      var cancelled := Cancelled(s, u, KeyOf(conversation, turn), tick.done);
      && u == user && cancelled != {}
      && (key in Candidates(KeyOf(conversation, turn)) || LookedUpBy(TasksOf(s.active, u), cancelled, key))
    case ClearUser(u) => u == user
    case _ => false
  }

  lemma ConsumeKeepsOthers(s: TrackerState, user: string, u: string, lookup: StopKey, key: StopKey, now: real)
    requires Live(StopsOf(s, user), key, now)
    ensures var after := AfterConsume(s, u, lookup, now);
            && (key in StopsOf(after, user) <==> !(u == user && Taken(s, u, lookup, now) == Some(key)))
            && (key in StopsOf(after, user) ==> StopsOf(after, user)[key] == StopsOf(s, user)[key])
  {
    TakeStopLeavesTheRest(StopsOf(s, u), Candidates(lookup), now);
  }

  /** An unexpired stop leaves the tracker exactly with an operation that releases it; until then it never expires earlier. */
  lemma StopStaysUnlessReleased(s: TrackerState, tick: Tick, user: string, key: StopKey)
    requires Live(StopsOf(s, user), key, tick.now) && StopsOf(s, user)[key] <= tick.now + GRACE_SECONDS
    ensures var left := StopsOf(After(s, tick), user);
            && (key in left <==> !Releases(s, tick, user, key))
            && (key in left ==> StopsOf(s, user)[key] <= left[key] <= tick.now + GRACE_SECONDS)
  {
    hide TakeStop, Candidates, Strip, DropTasks, DropEverywhere, LookedUpBy, LiveOf, LiveTasks;
    match tick.event
    case Register(u, task, turn, conversation, caps) =>
      var pruned := Pruned(s, u, caps, tick.done);
      ConsumeKeepsOthers(pruned, user, u, RegisterKey(conversation, turn), key, tick.now);
    case Consume(u, conversation, turn) => ConsumeKeepsOthers(s, user, u, KeyOf(conversation, turn), key, tick.now);
    case CancelQuery(u, conversation, turn) =>
    case _ =>
  }

  /** While a matching stop is stored and unexpired, a registration is turned away and nothing new is tracked. */
  lemma StopBlocksRegistration(s: TrackerState, user: string, task: Task, turn: string, conversation: Option<string>,
          caps: Caps, now: real, done: set<Task>, key: StopKey)
    requires Live(StopsOf(s, user), key, now) && Matches(key, conversation, Some(turn))
    ensures StatusOf(s, user, RegisterKey(conversation, turn), caps, now, done) != Registered
    ensures TasksOf(AfterRegister(s, user, task, turn, conversation, caps, now, done).active, user).Keys <= TasksOf(s.active, user).Keys
  {
    NormalizeOptionalTwice(conversation);
    LookupIsWildcardMatch(StopsOf(s, user), conversation, Some(turn), now);
    PruningOnlyRemoves(s, user, caps, done);
    hide TakeStop, Candidates, Pruned;
  }

  lemma PruningOnlyRemoves(s: TrackerState, user: string, caps: Caps, done: set<Task>)
    ensures forall u :: TasksOf(Pruned(s, user, caps, done).active, u).Keys <= TasksOf(s.active, u).Keys
  {
  }

  predicate TimesFrom(start: real, ticks: seq<Tick>) {
    && (forall n :: 0 <= n < |ticks| ==> start <= ticks[n].now)
    && (forall m, n :: 0 <= m <= n < |ticks| ==> ticks[m].now <= ticks[n].now)
  }

  /** Operation `n` registers a query that the stop names. */
  predicate Attempts(tick: Tick, user: string, key: StopKey) {
    tick.event.Register? && tick.event.user == user && Matches(key, tick.event.conversation, Some(tick.event.turnRef))
  }

  function AttemptStatus(s: TrackerState, tick: Tick): Status
    requires tick.event.Register?
  {
    StatusOf(s, tick.event.user, RegisterKey(tick.event.conversation, tick.event.turnRef), tick.event.caps, tick.now, tick.done)
  }

  /** No operation of the run releases the stop, and all come before `expires`. */
  predicate Undisturbed(s: TrackerState, ticks: seq<Tick>, user: string, key: StopKey, expires: real) {
    forall n :: 0 <= n < |ticks| ==> ticks[n].now < expires && !Releases(RunTicks(s, ticks[..n]), ticks[n], user, key)
  }

  /** The stop is there, expires no earlier than before and at most a grace period from now. */
  predicate Holds(s: TrackerState, user: string, key: StopKey, atLeast: real, now: real) {
    key in StopsOf(s, user) && atLeast <= StopsOf(s, user)[key] <= now + GRACE_SECONDS
  }

  function LastTime(start: real, ticks: seq<Tick>): real {
    if ticks == [] then start else ticks[|ticks| - 1].now
  }

  lemma PrefixIsUndisturbed(s: TrackerState, start: real, ticks: seq<Tick>, m: nat, user: string, key: StopKey, expires: real)
    requires Undisturbed(s, ticks, user, key, expires) && TimesFrom(start, ticks) && m <= |ticks|
    ensures Undisturbed(s, ticks[..m], user, key, expires) && TimesFrom(start, ticks[..m])
  {
    hide Releases, RunTicks;
    var front := ticks[..m];
    forall n | 0 <= n < m
      ensures front[n] == ticks[n] && front[..n] == ticks[..n]
    {
    }
  }

  predicate Stored(s: TrackerState, user: string, key: StopKey, expires: real) {
    key in StopsOf(s, user) && StopsOf(s, user)[key] == expires
  }

  /** Until it is released or expires, a stored stop stays, along every run. */
  lemma {:induction false} StopIsHeld(s: TrackerState, start: real, ticks: seq<Tick>, user: string, key: StopKey, expires: real)
    requires Stored(s, user, key, expires) && expires <= start + GRACE_SECONDS
    requires TimesFrom(start, ticks) && Undisturbed(s, ticks, user, key, expires)
    ensures Holds(RunTicks(s, ticks), user, key, expires, LastTime(start, ticks))
  {
    hide Releases, After, StopsOf;
    if ticks != [] {
      var front, last := ticks[..|ticks| - 1], ticks[|ticks| - 1];
      PrefixIsUndisturbed(s, start, ticks, |ticks| - 1, user, key, expires);
      StopIsHeld(s, start, front, user, key, expires);
      assert last.now < expires && !Releases(RunTicks(s, front), last, user, key);
      assert LastTime(start, front) <= last.now;
      StopStaysUnlessReleased(RunTicks(s, front), last, user, key);
    }
  }

  /** Until then every matching registration is turned away. */
  lemma StoredStopIsNeverLost(s: TrackerState, start: real, ticks: seq<Tick>, user: string, key: StopKey, expires: real, n: nat)
    requires Stored(s, user, key, expires) && expires <= start + GRACE_SECONDS
    requires TimesFrom(start, ticks) && Undisturbed(s, ticks, user, key, expires)
    requires n < |ticks| && Attempts(ticks[n], user, key)
    ensures AttemptStatus(RunTicks(s, ticks[..n]), ticks[n]) != Registered
  {
    hide Releases, After, Attempts, AttemptStatus;
    PrefixIsUndisturbed(s, start, ticks, n, user, key, expires);
    StopIsHeld(s, start, ticks[..n], user, key, expires);
    AttemptIsTurnedAway(RunTicks(s, ticks[..n]), ticks[n], user, key);
  }

  lemma AttemptIsTurnedAway(s: TrackerState, tick: Tick, user: string, key: StopKey)
    requires Live(StopsOf(s, user), key, tick.now)
    ensures Attempts(tick, user, key) ==> AttemptStatus(s, tick) != Registered
  {
    if Attempts(tick, user, key) {
      StopBlocksRegistration(s, user, tick.event.task, tick.event.turnRef, tick.event.conversation, tick.event.caps, tick.now, tick.done, key);
    }
  }

  /**
   * A cancel that races ahead of its query: if it finds nothing to cancel, no matching registration is tracked in
   * any later step before the grace period ends, unless the stop is consumed, answered or cleared.
   */
  lemma CancelIsNeverLost(s: TrackerState, user: string, key: StopKey, now: real, done: set<Task>, ticks: seq<Tick>, n: nat)
    requires Cancelled(s, user, key, done) == {} && TimesFrom(now, ticks)
    requires Undisturbed(AfterCancel(s, user, key, now, done), ticks, user, key, now + GRACE_SECONDS)
    requires n < |ticks| && Attempts(ticks[n], user, key)
    ensures var after := AfterCancel(s, user, key, now, done);
            && StopsOf(after, user) == StopsOf(s, user)[key := now + GRACE_SECONDS]
            && AttemptStatus(RunTicks(after, ticks[..n]), ticks[n]) != Registered
  {
    CancelTakesEffect(s, user, key, now, done);
    var after := AfterCancel(s, user, key, now, done);
    hide AfterCancel;
    StoredStopIsNeverLost(after, now, ticks, user, key, now + GRACE_SECONDS, n);
  }

  // ---------- caps ----------

  ghost predicate WithinCaps(s: TrackerState, done: set<Task>, perUser: nat, total: nat) {
    && (forall u :: |LiveOf(s.active, done, u)| <= perUser)
    && |LiveTasks(s.active, done)| <= total
  }

  lemma SubsetIsNotLarger<T>(a: set<T>, b: set<T>)
    requires a <= b
    ensures |a| <= |b|
  {
    if a != b {
      var x :| x in b && x !in a;
      assert b == a + (b - a);
    }
  }

  /** Tasks and their owners only disappear, except that `task` may be new for `user`. */
  ghost predicate OnlyAdds(before: map<string, map<Task, TaskRefs>>, after: map<string, map<Task, TaskRefs>>,
          user: string, task: Option<Task>) {
    forall u: string, t: Task :: u in after && t in after[u] ==> (u in before && t in before[u]) || (u == user && task.Some? && task.value == t)
  }

  lemma LiveAfter(before: map<string, map<Task, TaskRefs>>, after: map<string, map<Task, TaskRefs>>, user: string,
          task: Option<Task>, was: set<Task>, done: set<Task>)
    requires OnlyAdds(before, after, user, task) && was <= done
    ensures forall u :: LiveOf(after, done, u) <= LiveOf(before, was, u) + if u == user && task.Some? then {task.value} else {}
    ensures LiveTasks(after, done) <= LiveTasks(before, was) + if task.Some? then {(user, task.value)} else {}
  {
    forall u: string, t: Task | u in after && t in after[u] && t !in done
      ensures (u in before && t in before[u] && t !in was) || (u == user && task.Some? && task.value == t)
    {
    }
  }

  lemma StepOnlyAdds(s: TrackerState, tick: Tick)
    ensures var e := tick.event;
            OnlyAdds(s.active, After(s, tick).active, if e.CountAll? then "" else e.user,
                     if e.Register? && AttemptStatus(s, tick) == Registered then Some(e.task) else None)
  {
    hide TakeStop, Candidates, Strip, LookedUpBy, LiveOf, LiveTasks, Named;
    if tick.event.Register? {
      RegisterOnlyAdds(s, tick);
    }
  }

  lemma RegisterOnlyAdds(s: TrackerState, tick: Tick)
    requires tick.event.Register?
    ensures OnlyAdds(s.active, After(s, tick).active, tick.event.user,
                     if AttemptStatus(s, tick) == Registered then Some(tick.event.task) else None)
  {
    var e := tick.event;
    PruningOnlyRemoves(s, e.user, e.caps, tick.done);
    hide TakeStop, Candidates, Strip, LiveOf, LiveTasks, Pruned, KeyOf, StatusOf, AfterConsume;
    var key := RegisterKey(e.conversation, e.turnRef);
    var pruned := Pruned(s, e.user, e.caps, tick.done);
    ConsumeKeepsTasks(pruned, e.user, key, tick.now);
    OnlyRemoves(s.active, pruned.active, e.user, e.task, TaskRefs(e.turnRef, NormalizeOptional(e.conversation)));
  }

  lemma ConsumeKeepsTasks(s: TrackerState, user: string, key: StopKey, now: real)
    ensures AfterConsume(s, user, key, now).active == s.active
  {
  }

  lemma OnlyRemoves(before: map<string, map<Task, TaskRefs>>, after: map<string, map<Task, TaskRefs>>, user: string,
          task: Task, refs: TaskRefs)
    requires forall u :: TasksOf(after, u).Keys <= TasksOf(before, u).Keys
    ensures OnlyAdds(before, after, user, None)
    ensures OnlyAdds(before, after[user := TasksOf(after, user)[task := refs]], user, Some(task))
  {
    forall u: string, t: Task | u in after && t in after[u]
      ensures u in before && t in before[u]
    {
      assert t in TasksOf(after, u).Keys;
    }
  }

  lemma StepKeepsCaps(s: TrackerState, tick: Tick, was: set<Task>, perUser: nat, total: nat)
    requires WithinCaps(s, was, perUser, total) && was <= tick.done
    requires tick.event.Register? ==> tick.event.caps == Caps(Some(perUser), Some(total))
    ensures WithinCaps(After(s, tick), tick.done, perUser, total)
  {
    StepOnlyAdds(s, tick);
    var e := tick.event;
    var user := if e.CountAll? then "" else e.user;
    var task := if e.Register? && AttemptStatus(s, tick) == Registered then Some(e.task) else None;
    var now := if task.Some? then tick.done else was;
    LiveAfter(s.active, After(s, tick).active, user, task, now, tick.done);
    var added: set<Task> := if task.Some? then {task.value} else {};
    forall u
      ensures |LiveOf(After(s, tick).active, tick.done, u)| <= perUser
    {
      SubsetIsNotLarger(LiveOf(After(s, tick).active, tick.done, u), LiveOf(s.active, now, u) + if u == user then added else {});
      LiveAfter(s.active, s.active, "", None, was, tick.done);
      SubsetIsNotLarger(LiveOf(s.active, tick.done, u), LiveOf(s.active, was, u));
    }
    SubsetIsNotLarger(LiveTasks(After(s, tick).active, tick.done), LiveTasks(s.active, now) + if task.Some? then {(user, task.value)} else {});
  }

  predicate FixedCaps(ticks: seq<Tick>, perUser: nat, total: nat) {
    && (forall n :: 0 <= n < |ticks| && ticks[n].event.Register? ==> ticks[n].event.caps == Caps(Some(perUser), Some(total)))
    && (forall m, n :: 0 <= m <= n < |ticks| ==> ticks[m].done <= ticks[n].done)
  }

  function LastDone(ticks: seq<Tick>): set<Task> {
    if ticks == [] then {} else ticks[|ticks| - 1].done
  }

  /** With the same caps on every registration, live tasks stay within them in every reachable state. */
  lemma {:induction false} CapsHoldInEveryRun(ticks: seq<Tick>, perUser: nat, total: nat)
    requires FixedCaps(ticks, perUser, total)
    ensures WithinCaps(RunTicks(TrackerState(map[], map[]), ticks), LastDone(ticks), perUser, total)
  {
    var start := TrackerState(map[], map[]);
    if ticks == [] {
      assert LiveTasks(start.active, {}) == {};
      assert forall u :: LiveOf(start.active, {}, u) == {};
    } else {
      CapsHoldInEveryRun(ticks[..|ticks| - 1], perUser, total);
      StepKeepsCaps(RunTicks(start, ticks[..|ticks| - 1]), ticks[|ticks| - 1], LastDone(ticks[..|ticks| - 1]), perUser, total);
    }
  }
}
