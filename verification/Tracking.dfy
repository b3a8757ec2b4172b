/** Which tasks the tracker knows: a registration adds its task, a cancel finds it, and nothing else touches the others. */
module Tracking {
  import opened Text
  import opened ActiveQueries
  import opened StopProtocol

  /** The task is tracked for the user with these references. */
  predicate Tracked(s: TrackerState, user: string, task: Task, refs: TaskRefs) {
    user in s.active && task in s.active[user] && s.active[user][task] == refs
  }

  /** Every live task, except perhaps those of `gone`, is tracked as it was. */
  ghost predicate KeepsLiveBut(before: TrackerState, after: TrackerState, done: set<Task>, gone: set<(string, Task)>) {
    forall u: string, t: Task, refs: TaskRefs :: Tracked(before, u, t, refs) && t !in done && (u, t) !in gone ==> Tracked(after, u, t, refs)
  }

  // ---------- registering ----------

  lemma PruningKeepsLive(s: TrackerState, user: string, caps: Caps, done: set<Task>)
    ensures KeepsLiveBut(s, Pruned(s, user, caps, done), done, {})
  {
    DroppingKeeps(s, user, done, done);
    var own := s.(active := DropTasks(s.active, user, done));
    SweepingKeeps(s, done);
    SweepingKeeps(own, done);
    hide DropTasks, DropEverywhere, LiveOf;
  }

  lemma DroppingKeeps(s: TrackerState, user: string, gone: set<Task>, done: set<Task>)
    requires gone <= done
    ensures KeepsLiveBut(s, s.(active := DropTasks(s.active, user, gone)), done, {})
  {
    var after := s.(active := DropTasks(s.active, user, gone));
    forall u: string, t: Task, refs: TaskRefs | Tracked(s, u, t, refs) && t !in done
      ensures Tracked(after, u, t, refs)
    {
      if u == user {
        assert t in s.active[user] - gone;
      }
    }
  }

  lemma SweepingKeeps(s: TrackerState, done: set<Task>)
    ensures KeepsLiveBut(s, s.(active := DropEverywhere(s.active, s.active.Keys, done)), done, {})
  {
    var after := s.(active := DropEverywhere(s.active, s.active.Keys, done));
    forall u: string, t: Task, refs: TaskRefs | Tracked(s, u, t, refs) && t !in done
      ensures Tracked(after, u, t, refs)
    {
      assert t in s.active[u] - done;
    }
  }

  /** The registration stands for a cap that is reached. */
  predicate CapReached(s: TrackerState, user: string, caps: Caps, done: set<Task>) {
    || (caps.perUser.Some? && |LiveOf(s.active, done, user)| >= caps.perUser.value)
    || (caps.total.Some? && |LiveTasks(s.active, done)| >= caps.total.value)
  }

  ghost predicate StopWaits(s: TrackerState, user: string, turn: string, conversation: Option<string>, now: real) {
    exists key :: Live(StopsOf(s, user), key, now) && Matches(key, conversation, Some(turn))
  }

  /** A query is turned away only for a cap that is reached or a stop that names it; otherwise it is registered. */
  lemma RegisteredUnlessCappedOrStopped(s: TrackerState, user: string, turn: string, conversation: Option<string>,
          caps: Caps, now: real, done: set<Task>)
    ensures StatusOf(s, user, RegisterKey(conversation, turn), caps, now, done) == Registered
            <==> !CapReached(s, user, caps, done) && !StopWaits(s, user, turn, conversation, now)
  {
    NormalizeOptionalTwice(conversation);
    LookupIsWildcardMatch(StopsOf(s, user), conversation, Some(turn), now);
    hide TakeStop, Candidates, Strip, LiveOf, LiveTasks, Matches;
  }

  /** What is tracked after a registration: the new task with its turn and trimmed conversation, and all that was live. */
  lemma RegisteredIsTracked(s: TrackerState, user: string, task: Task, turn: string, conversation: Option<string>,
          caps: Caps, now: real, done: set<Task>)
    ensures var after := AfterRegister(s, user, task, turn, conversation, caps, now, done);
            && KeepsLiveBut(s, after, done, {(user, task)})
            && (StatusOf(s, user, RegisterKey(conversation, turn), caps, now, done) == Registered ==>
                  Tracked(after, user, task, TaskRefs(turn, NormalizeOptional(conversation))))
  {
    PruningKeepsLive(s, user, caps, done);
    var pruned := Pruned(s, user, caps, done);
    hide Pruned, LiveOf, LiveTasks, TakeStop, Candidates, Strip;
    ConsumeKeepsTasks(pruned, user, RegisterKey(conversation, turn), now);
    var after := AfterRegister(s, user, task, turn, conversation, caps, now, done);
    forall u: string, t: Task, refs: TaskRefs | Tracked(s, u, t, refs) && t !in done && (u, t) !in {(user, task)}
      ensures Tracked(after, u, t, refs)
    {
      assert Tracked(pruned, u, t, refs);
    }
  }

  /** A task that was registered is found by a cancel for its trimmed turn, for its conversation, or for both. */
  lemma RegisteredCanBeCancelled(s: TrackerState, user: string, task: Task, turn: string, conversation: Option<string>,
          caps: Caps, now: real, done: set<Task>, byConversation: Option<string>, byTurn: Option<string>,
          later: set<Task>)
    requires StatusOf(s, user, RegisterKey(conversation, turn), caps, now, done) == Registered && task !in later
    requires byTurn.None? || (byTurn == Some(turn) && Trimmed(turn))
    requires byConversation.None? || byConversation == conversation
    ensures var after := AfterRegister(s, user, task, turn, conversation, caps, now, done);
            task in Cancelled(after, user, KeyOf(byConversation, byTurn), later)
  {
    RegisteredIsTracked(s, user, task, turn, conversation, caps, now, done);
    if byTurn.Some? {
      TrimmedIsFixed(turn);
    }
    hide AfterRegister, StatusOf, Strip;
  }

  // ---------- the other operations ----------

  /** A stop request is stored for five seconds, beside those that are there. */
  lemma StopIsStoredForFiveSeconds(s: TrackerState, user: string, key: StopKey, now: real)
    ensures var after := AfterPendingStop(s, user, key, now);
            && after.active == s.active
            && StopsOf(after, user) == StopsOf(s, user)[key := now + 5.0]
            && forall u :: u != user ==> StopsOf(after, u) == StopsOf(s, u)
  {
  }

  /** The stop leaves the conversation open or names it, and likewise the turn. */
  predicate Reaches(stop: StopKey, conversation: Option<string>, turn: Option<string>) {
    && (stop.conversation.None? || (conversation.Some? && stop.conversation == conversation))
    && (stop.turn.None? || (turn.Some? && stop.turn == turn))
  }

  lemma CandidatesReach(key: StopKey, stop: StopKey)
    ensures stop in Candidates(key) <==> Reaches(stop, key.conversation, key.turn)
  {
  }

  /** The stop would turn away the registration of one of the tasks. */
  predicate ReachesSome(stop: StopKey, tasks: map<Task, TaskRefs>, some: set<Task>) {
    exists t :: t in some && t in tasks && Reaches(stop, NormalizeOptional(tasks[t].conversation), NormalizeOptional(Some(tasks[t].turn)))
  }

  /**
   * A cancel that finds tasks takes exactly the stops that reach its own references or those of a task it cancels, and
   * keeps the others with their expiry.
   */
  lemma CancelAnswersStops(s: TrackerState, user: string, key: StopKey, now: real, done: set<Task>, stop: StopKey)
    requires Cancelled(s, user, key, done) != {}
    ensures var after, tasks := StopsOf(AfterCancel(s, user, key, now, done), user), TasksOf(s.active, user);
            && (stop in after <==> stop in StopsOf(s, user) && !Reaches(stop, key.conversation, key.turn)
                                   && !ReachesSome(stop, tasks, Cancelled(s, user, key, done)))
            && (stop in after ==> after[stop] == StopsOf(s, user)[stop])
  {
    var tasks, cancelled := TasksOf(s.active, user), Cancelled(s, user, key, done);
    CandidatesReach(key, stop);
    forall t | t in tasks
      ensures stop in Candidates(KeyOf(tasks[t].conversation, Some(tasks[t].turn)))
              <==> Reaches(stop, NormalizeOptional(tasks[t].conversation), NormalizeOptional(Some(tasks[t].turn)))
    {
      CandidatesReach(KeyOf(tasks[t].conversation, Some(tasks[t].turn)), stop);
    }
    hide Candidates, Reaches, NormalizeOptional, Cancelled, DropTasks;
    assert LookedUpBy(tasks, cancelled, stop) <==> ReachesSome(stop, tasks, cancelled);
  }

  /** Which refusal it is: the user's cap comes first, then the total one, then a stop. */
  lemma RefusalIsTold(s: TrackerState, user: string, turn: string, conversation: Option<string>, caps: Caps, now: real,
          done: set<Task>)
    ensures var status := StatusOf(s, user, RegisterKey(conversation, turn), caps, now, done);
            var own, all := LiveOf(s.active, done, user), LiveTasks(s.active, done);
            && (status == UserLimit <==> caps.perUser.Some? && |own| >= caps.perUser.value)
            && (status == GlobalLimit <==> status != UserLimit && caps.total.Some? && |all| >= caps.total.value)
            && (status == StopConsumed <==> !CapReached(s, user, caps, done) && StopWaits(s, user, turn, conversation, now))
  {
    RegisteredUnlessCappedOrStopped(s, user, turn, conversation, caps, now, done);
    hide TakeStop, StopWaits, LiveOf, LiveTasks, NormalizeOptional;
  }

  /** Counting for a cap forgets the finished tasks it counts over: the user's own, or everyone's. */
  lemma CountingForgetsFinished(s: TrackerState, user: string, caps: Caps, done: set<Task>, u: string, t: Task)
    requires t in done
    ensures var pruned := Pruned(s, user, caps, done);
            && (caps.perUser.Some? ==> t !in TasksOf(pruned.active, user))
            && (caps.total.Some? && !(caps.perUser.Some? && |LiveOf(s.active, done, user)| >= caps.perUser.value) ==>
                  t !in TasksOf(pruned.active, u))
            && (caps.perUser.None? && caps.total.None? ==> pruned == s)
  {
  }

  /** What an operation may take away from the live tasks. */
  ghost predicate MayRemove(s: TrackerState, tick: Tick, u: string, t: Task) {
    match tick.event
    case CancelQuery(user, conversation, turn) =>
      u == user && u in s.active && t in s.active[u] && Requested(KeyOf(conversation, turn), s.active[u][t])
    case Clear(user, task) => u == user && (task.None? || task == Some(t))
    case ClearUser(user) => u == user
    case Register(user, task, _, _, _) => u == user && t == task
    case _ => false
  }

  /** A live task stays tracked with its references through every operation that does not name it. */
  lemma OnlyNamedTasksGo(s: TrackerState, tick: Tick, u: string, t: Task, refs: TaskRefs)
    requires Tracked(s, u, t, refs) && t !in tick.done && !MayRemove(s, tick, u, t)
    ensures Tracked(After(s, tick), u, t, refs)
  {
    hide TakeStop, Candidates, Strip, LookedUpBy, LiveOf, LiveTasks, DropEverywhere, Requested, KeyOf, Pruned;
    match tick.event
    case Register(user, task, turn, conversation, caps) =>
      RegisteredIsTracked(s, user, task, turn, conversation, caps, tick.now, tick.done);
      hide AfterRegister;
    case CancelQuery(user, conversation, turn) =>
      CancelTakesEffect(s, user, KeyOf(conversation, turn), tick.now, tick.done);
      CancelKeepsOthers(s, user, KeyOf(conversation, turn), tick.now, tick.done, u, t, refs);
      hide AfterCancel;
    case CountUser(user) => DroppingKeeps(s, user, tick.done, tick.done);
    case CountAll => SweepingKeeps(s, tick.done);
    case Forget(user, gone) => DroppingKeeps(s, user, gone * tick.done, tick.done);
    case Clear(user, task) =>
      ClearKeepsOthers(s, user, task, u, t, refs);
    case ClearUser(user) =>
      ClearKeepsOthers(s, user, None, u, t, refs);
    case _ =>
  }

  lemma CancelKeepsOthers(s: TrackerState, user: string, key: StopKey, now: real, done: set<Task>, u: string, t: Task,
          refs: TaskRefs)
    requires Tracked(s, u, t, refs) && t !in done && !(u == user && Requested(key, refs))
    ensures Tracked(AfterCancel(s, user, key, now, done), u, t, refs)
  {
    DropTasksOf(s.active, user, done + Cancelled(s, user, key, done));
    hide Requested, DropTasks, Unanswered, TakeStop, Candidates;
    var left := TasksOf(DropTasks(s.active, user, done + Cancelled(s, user, key, done)), u);
    assert t in left && left[t] == refs;
  }

  lemma ClearKeepsOthers(s: TrackerState, user: string, task: Option<Task>, u: string, t: Task, refs: TaskRefs)
    requires Tracked(s, u, t, refs) && !(u == user && (task.None? || task == Some(t)))
    ensures Tracked(AfterClear(s, user, task), u, t, refs)
  {
    if task.Some? {
      DropTasksOf(s.active, user, {task.value});
      assert u == user ==> t in s.active[user] - {task.value};
    }
  }

  /** What is cleared is no longer tracked, and a user who is cleared has no stops either. */
  lemma ClearedIsGone(s: TrackerState, user: string, task: Option<Task>)
    ensures var after := AfterClear(s, user, task);
            && (task.None? ==> TasksOf(after.active, user) == map[])
            && (task.Some? ==> TasksOf(after.active, user) == TasksOf(s.active, user) - {task.value})
            && after.pending == s.pending
    ensures TasksOf(AfterClearUser(s, user).active, user) == map[] && StopsOf(AfterClearUser(s, user), user) == map[]
  {
    if task.Some? {
      DropTasksOf(s.active, user, {task.value});
    }
  }

  /** From its registration on a live task is tracked through every run that does not name it, so a cancel finds it. */
  lemma {:induction false} TaskStaysTracked(s: TrackerState, ticks: seq<Tick>, u: string, t: Task, refs: TaskRefs)
    requires Tracked(s, u, t, refs)
    requires forall n :: 0 <= n < |ticks| ==> t !in ticks[n].done && !MayRemove(RunTicks(s, ticks[..n]), ticks[n], u, t)
    ensures Tracked(RunTicks(s, ticks), u, t, refs)
    decreases |ticks|
  {
    hide After, MayRemove, Tracked;
    if ticks != [] {
      var front, last := ticks[..|ticks| - 1], ticks[|ticks| - 1];
      forall n | 0 <= n < |front|
        ensures t !in front[n].done && !MayRemove(RunTicks(s, front[..n]), front[n], u, t)
      {
        assert front[..n] == ticks[..n];
      }
      TaskStaysTracked(s, front, u, t, refs);
      OnlyNamedTasksGo(RunTicks(s, front), last, u, t, refs);
    }
  }
}
