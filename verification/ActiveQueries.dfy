/** Live query tasks and pending stop requests of every user. */
module ActiveQueries {
  import opened Text

  type Task = nat

  datatype TaskRefs = TaskRefs(turn: string, conversation: Option<string>)

  /** An absent part of a key stands for any value. */
  datatype StopKey = StopKey(conversation: Option<string>, turn: Option<string>)

  datatype Status = Registered | StopConsumed | UserLimit | GlobalLimit

  const GRACE_SECONDS := 5.0

  type Stops = map<StopKey, real>

  datatype TrackerState = TrackerState(active: map<string, map<Task, TaskRefs>>, pending: map<string, Stops>)

  // ---------- keys ----------

  function KeyOf(conversation: Option<string>, turn: Option<string>): StopKey {
    StopKey(NormalizeOptional(conversation), NormalizeOptional(turn))
  }

  /** The stop asks for this conversation and turn, or leaves them open. */
  predicate Matches(key: StopKey, conversation: Option<string>, turn: Option<string>) {
    var refs := KeyOf(conversation, turn);
    (key.conversation.None? || key.conversation == refs.conversation) && (key.turn.None? || key.turn == refs.turn)
  }

  /** How much of a key is fixed; a conversation counts more than a turn. */
  function Specificity(key: StopKey): nat {
    (if key.conversation.Some? then 2 else 0) + (if key.turn.Some? then 1 else 0)
  }

  /** Candidate keys of a registration, most specific first, without repeats. */
  method PendingStopCandidates(conversation: Option<string>, turn: Option<string>) returns (candidates: seq<StopKey>)
    ensures candidates == Candidates(KeyOf(conversation, turn))
  {
    var key := KeyOf(conversation, turn);
    var all := [key, StopKey(key.conversation, None), StopKey(None, key.turn), StopKey(None, None)];
    candidates := [];
    for k := 0 to 4
      invariant k == 0 ==> candidates == []
      invariant k == 1 ==> candidates == [key]
      invariant k == 2 ==> candidates == if key.turn.Some? then [key, all[1]] else [key]
      invariant k == 3 ==> candidates == if key.turn.None? then (if key.conversation.Some? then [key, all[2]] else [key])
                                         else if key.conversation.Some? then [key, all[1], all[2]] else [key, all[1]]
      invariant k == 4 ==> candidates == Candidates(key)
    {
      if all[k] !in candidates {
        candidates := candidates + [all[k]];
      }
    }
  }

  function Candidates(key: StopKey): seq<StopKey> {
    match (key.conversation.Some?, key.turn.Some?)
    case (true, true) => [key, StopKey(key.conversation, None), StopKey(None, key.turn), StopKey(None, None)]
    case (true, false) => [key, StopKey(None, None)]
    case (false, true) => [key, StopKey(None, None)]
    case (false, false) => [key]
  }

  /** The candidates are exactly the matching keys, in falling order of specificity. */
  lemma CandidatesAreTheMatchingKeys(conversation: Option<string>, turn: Option<string>, key: StopKey)
    ensures key in Candidates(KeyOf(conversation, turn)) <==> Matches(key, conversation, turn)
    ensures Falling(Candidates(KeyOf(conversation, turn)))
  {
    var refs := KeyOf(conversation, turn);
    assert refs in Candidates(refs) && StopKey(None, None) in Candidates(refs);
    assert refs.turn.Some? && refs.conversation.Some? ==> StopKey(refs.conversation, None) == Candidates(refs)[1];
    assert refs.turn.Some? && refs.conversation.Some? ==> StopKey(None, refs.turn) == Candidates(refs)[2];
  }

  // ---------- consuming a stop ----------

  /** The first unexpired candidate, and the stops that are left; expired candidates before it go too. */
  function TakeStop(stops: Stops, candidates: seq<StopKey>, now: real): (r: (Stops, Option<StopKey>)) {
    if candidates == [] then (stops, None)
    else if candidates[0] !in stops then TakeStop(stops, candidates[1..], now)
    else if stops[candidates[0]] <= now then TakeStop(stops - {candidates[0]}, candidates[1..], now)
    else (stops - {candidates[0]}, Some(candidates[0]))
  }

  predicate Live(stops: Stops, key: StopKey, now: real) {
    key in stops && stops[key] > now
  }

  /** No later candidate is as specific as an earlier one. */
  predicate Falling(candidates: seq<StopKey>) {
    forall i, j :: 0 <= i < j < |candidates| ==> Specificity(candidates[i]) > Specificity(candidates[j])
  }

  lemma {:induction false} TakeStopTakesFirst(stops: Stops, candidates: seq<StopKey>, now: real)
    requires Falling(candidates)
    ensures var taken := TakeStop(stops, candidates, now).1;
            && (taken.None? ==> forall k :: k in candidates ==> !Live(stops, k, now))
            && (taken.Some? ==> taken.value in candidates && Live(stops, taken.value, now))
            && (taken.Some? ==> forall k :: k in candidates && Live(stops, k, now) ==> Specificity(k) <= Specificity(taken.value))
  {
    if candidates != [] && !Live(stops, candidates[0], now) {
      var rest := if candidates[0] in stops then stops - {candidates[0]} else stops;
      TakeStopTakesFirst(rest, candidates[1..], now);
      assert forall k :: k in candidates ==> k == candidates[0] || k in candidates[1..];
    }
  }

  /** Only the stop that is taken and expired ones disappear. */
  lemma {:induction false} TakeStopLeavesTheRest(stops: Stops, candidates: seq<StopKey>, now: real)
    ensures var r := TakeStop(stops, candidates, now);
            && (forall k :: Live(stops, k, now) && Some(k) != r.1 ==> k in r.0)
            && (forall k :: k in r.0 ==> k in stops && r.0[k] == stops[k] && Some(k) != r.1)
  {
    if candidates != [] && !Live(stops, candidates[0], now) {
      TakeStopLeavesTheRest(if candidates[0] in stops then stops - {candidates[0]} else stops, candidates[1..], now);
    }
  }

  /**
   * A registration finds a stop exactly when an unexpired matching one is stored; it then takes the most specific
   * of them and leaves every other unexpired stop as it was.
   */
  lemma LookupIsWildcardMatch(stops: Stops, conversation: Option<string>, turn: Option<string>, now: real)
    ensures var r := TakeStop(stops, Candidates(KeyOf(conversation, turn)), now);
            && (r.1.Some? <==> exists k :: Live(stops, k, now) && Matches(k, conversation, turn))
            && (r.1.Some? ==> Live(stops, r.1.value, now) && Matches(r.1.value, conversation, turn) && r.1.value !in r.0)
            && (r.1.Some? ==> forall k :: Live(stops, k, now) && Matches(k, conversation, turn) ==> Specificity(k) <= Specificity(r.1.value))
            && (forall k :: Live(stops, k, now) && Some(k) != r.1 ==> k in r.0 && r.0[k] == stops[k])
  {
    var all := Candidates(KeyOf(conversation, turn));
    forall k
      ensures k in all <==> Matches(k, conversation, turn)
    {
      CandidatesAreTheMatchingKeys(conversation, turn, k);
    }
    CandidatesAreTheMatchingKeys(conversation, turn, StopKey(None, None));
    TakeStopTakesFirst(stops, all, now);
    TakeStopLeavesTheRest(stops, all, now);
  }

  // ---------- what each operation does ----------

  function StopsOf(s: TrackerState, user: string): Stops {
    if user in s.pending then s.pending[user] else map[]
  }

  function TasksOf(active: map<string, map<Task, TaskRefs>>, user: string): map<Task, TaskRefs> {
    if user in active then active[user] else map[]
  }

  function WithStops(s: TrackerState, user: string, stops: Stops): TrackerState {
    s.(pending := if stops == map[] then s.pending - {user} else s.pending[user := stops])
  }

  function AfterPendingStop(s: TrackerState, user: string, key: StopKey, now: real): TrackerState {
    s.(pending := s.pending[user := StopsOf(s, user)[key := now + GRACE_SECONDS]])
  }

  /** The stop a lookup takes, if any. */
  function Taken(s: TrackerState, user: string, key: StopKey, now: real): Option<StopKey> {
    TakeStop(StopsOf(s, user), Candidates(key), now).1
  }

  function AfterConsume(s: TrackerState, user: string, key: StopKey, now: real): TrackerState {
    if StopsOf(s, user) == map[] then s else WithStops(s, user, TakeStop(StopsOf(s, user), Candidates(key), now).0)
  }

  /** Removes tasks of a user, and the user with the last of them. */
  function DropTasks(active: map<string, map<Task, TaskRefs>>, user: string,
          gone: set<Task>): map<string, map<Task, TaskRefs>> {
    if TasksOf(active, user) == map[] then active
    else if active[user] - gone == map[] then active - {user}
    else active[user := active[user] - gone]
  }

  function DropEverywhere(active: map<string, map<Task, TaskRefs>>, users: set<string>,
          gone: set<Task>): map<string, map<Task, TaskRefs>> {
    map u | u in active && (u in users && active[u] != map[] ==> active[u] - gone != map[])
      :: if u in users then active[u] - gone else active[u]
  }

  function LiveOf(active: map<string, map<Task, TaskRefs>>, done: set<Task>, user: string): set<Task> {
    TasksOf(active, user).Keys - done
  }

  function LiveTasks(active: map<string, map<Task, TaskRefs>>, done: set<Task>): set<(string, Task)> {
    set u, t | u in active && t in active[u] && t !in done :: (u, t)
  }

  datatype Caps = Caps(perUser: Option<nat>, total: Option<nat>)

  function StatusOf(s: TrackerState, user: string, key: StopKey, caps: Caps, now: real, done: set<Task>): Status {
    if caps.perUser.Some? && |LiveOf(s.active, done, user)| >= caps.perUser.value then UserLimit
    else if caps.total.Some? && |LiveTasks(s.active, done)| >= caps.total.value then GlobalLimit
    else if Taken(s, user, key, now).Some? then StopConsumed
    else Registered
  }

  function Pruned(s: TrackerState, user: string, caps: Caps, done: set<Task>): (r: TrackerState)
    ensures r.pending == s.pending
  {
    var own := if caps.perUser.Some? then DropTasks(s.active, user, done) else s.active;
    if caps.perUser.Some? && |LiveOf(s.active, done, user)| >= caps.perUser.value then s.(active := own)
    else if caps.total.Some? then s.(active := DropEverywhere(own, own.Keys, done))
    else s.(active := own)
  }

  function AfterRegister(s: TrackerState, user: string, task: Task, turn: string, conversation: Option<string>,
          caps: Caps, now: real, done: set<Task>):
    TrackerState
  {
    var key := KeyOf(NormalizeOptional(conversation), Some(turn));
    var status := StatusOf(s, user, key, caps, now, done);
    var pruned := Pruned(s, user, caps, done);
    if status == UserLimit || status == GlobalLimit then pruned
    else
      var asked := AfterConsume(pruned, user, key, now);
      if status == StopConsumed then asked
      else asked.(active := asked.active[user := TasksOf(asked.active, user)[task := TaskRefs(turn, NormalizeOptional(conversation))]])
  }

  /** The test a cancel applies to a tracked task; the stored turn is compared as it was registered. */
  predicate Requested(key: StopKey, refs: TaskRefs) {
    (key.conversation.None? || refs.conversation == key.conversation) && (key.turn.None? || Some(refs.turn) == key.turn)
  }

  function Named(tasks: map<Task, TaskRefs>, key: StopKey, done: set<Task>): set<Task> {
    set t | t in tasks && t !in done && Requested(key, tasks[t])
  }

  function Cancelled(s: TrackerState, user: string, key: StopKey, done: set<Task>): set<Task> {
    Named(TasksOf(s.active, user), key, done)
  }

  /** Stops a cancelled task's own registration would have looked up. */
  predicate LookedUpBy(tasks: map<Task, TaskRefs>, cancelled: set<Task>, stop: StopKey) {
    exists t :: t in cancelled && t in tasks && stop in Candidates(KeyOf(tasks[t].conversation, Some(tasks[t].turn)))
  }

  /** The stops left once a cancel has succeeded. */
  function Unanswered(stops: Stops, key: StopKey, tasks: map<Task, TaskRefs>, cancelled: set<Task>): Stops {
    map k | k in stops && k !in Candidates(key) && !LookedUpBy(tasks, cancelled, k) :: stops[k]
  }

  function AfterCancel(s: TrackerState, user: string, key: StopKey, now: real, done: set<Task>): TrackerState {
    var cancelled := Cancelled(s, user, key, done);
    var left := s.(active := DropTasks(s.active, user, done + cancelled));
    if cancelled == {} then AfterPendingStop(left, user, key, now)
    else if user !in s.pending then left
    else WithStops(left, user, Unanswered(s.pending[user], key, TasksOf(s.active, user), cancelled))
  }

  function AfterClear(s: TrackerState, user: string, task: Option<Task>): TrackerState {
    match task
    case Some(t) => s.(active := DropTasks(s.active, user, {t}))
    case None => if TasksOf(s.active, user) == map[] then s else s.(active := s.active - {user})
  }

  function AfterClearUser(s: TrackerState, user: string): TrackerState {
    AfterClear(s, user, None).(pending := s.pending - {user})
  }

  // ---------- the class ----------

  /** One pass over a user's tasks: counts the live ones and drops the finished ones. */
  method CountLive(all: map<Task, TaskRefs>, done: set<Task>) returns (count: nat, tasks: map<Task, TaskRefs>)
    ensures tasks == all - done
    ensures count == |all.Keys - done|
  {
    tasks, count := all, 0;
    var todo := all.Keys;
    CountEnds(all, done);
    hide LeftAfter, ToCount;
    while todo != {}
      invariant todo <= all.Keys
      invariant tasks == LeftAfter(all, todo, done)
      invariant count + ToCount(todo, done) == ToCount(all.Keys, done)
      decreases todo
    {
      var t :| t in todo;
      OneLessToCount(todo, done, t);
      DropIfDone(all, todo, done, t);
      if t in done {
        tasks := tasks - {t};
      } else {
        count := count + 1;
      }
      todo := todo - {t};
    }
  }

  /** The tasks kept once all but `todo` have been looked at. */
  function LeftAfter(all: map<Task, TaskRefs>, todo: set<Task>, done: set<Task>): map<Task, TaskRefs> {
    all - (done - todo)
  }

  function ToCount(todo: set<Task>, done: set<Task>): nat {
    |todo - done|
  }

  lemma CountEnds(all: map<Task, TaskRefs>, done: set<Task>)
    ensures LeftAfter(all, all.Keys, done) == all && LeftAfter(all, {}, done) == all - done
    ensures ToCount({}, done) == 0 && ToCount(all.Keys, done) == |all.Keys - done|
  {
    assert {} - done == {};
    assert done - {} == done;
  }

  lemma DropIfDone(all: map<Task, TaskRefs>, todo: set<Task>, done: set<Task>, t: Task)
    requires t in todo && todo <= all.Keys
    ensures LeftAfter(all, todo - {t}, done) == if t in done then LeftAfter(all, todo, done) - {t} else LeftAfter(all, todo, done)
  {
    if t in done {
      assert done - (todo - {t}) == (done - todo) + {t};
    } else {
      assert done - (todo - {t}) == done - todo;
    }
  }

  lemma OneLessToCount(todo: set<Task>, done: set<Task>, t: Task)
    requires t in todo
    ensures ToCount(todo, done) == ToCount(todo - {t}, done) + if t in done then 0 else 1
  {
    if t in done {
      assert (todo - {t}) - done == todo - done;
    } else {
      assert todo - done == ((todo - {t}) - done) + {t};
    }
  }

  method CountOne(active: map<string, map<Task, TaskRefs>>, user: string, done: set<Task>)
    returns (count: nat, left: map<string, map<Task, TaskRefs>>)
    ensures left == DropTasks(active, user, done) && count == |LiveOf(active, done, user)|
  {
    if user !in active || active[user] == map[] {
      return 0, active;
    }
    var tasks;
    count, tasks := CountLive(active[user], done);
    left := if tasks == map[] then active - {user} else active[user := tasks];
  }

  method CountEveryone(active: map<string, map<Task, TaskRefs>>, done: set<Task>)
    returns (count: nat, left: map<string, map<Task, TaskRefs>>)
    ensures left == DropEverywhere(active, active.Keys, done) && count == |LiveTasks(active, done)|
  {
    NothingSeen(active, done);
    AllSeen(active, done);
    hide DropEverywhere, DropTasks, LiveAmong, LiveOf, LiveTasks;
    count, left := 0, active;
    var todo := active.Keys;
    ghost var seen: set<string> := {};
    while todo != {}
      invariant seen + todo == active.Keys && seen !! todo
      invariant left == DropEverywhere(active, seen, done)
      invariant count == |LiveAmong(active, seen, done)|
      decreases todo
    {
      var user :| user in todo;
      DropOneMore(active, seen, user, done);
      CountOneMore(active, seen, user, done);
      var own;
      own, left := CountOne(left, user, done);
      count := count + own;
      todo, seen := todo - {user}, seen + {user};
    }
    assert seen == active.Keys;
  }

  class ActiveQueryTracker {
    var activeQueryTasks: map<string, map<Task, TaskRefs>>
    var pendingStopRequests: map<string, Stops>

    function State(): TrackerState
      reads this
    {
      TrackerState(activeQueryTasks, pendingStopRequests)
    }

    constructor ()
      ensures State() == TrackerState(map[], map[])
    {
      activeQueryTasks, pendingStopRequests := map[], map[];
    }

    method RegisterPendingStopRequest(user: string, conversation: Option<string>, turn: Option<string>, now: real)
      modifies this`pendingStopRequests
      ensures State() == AfterPendingStop(old(State()), user, KeyOf(conversation, turn), now)
    {
      var stops := if user in pendingStopRequests then pendingStopRequests[user] else map[];
      pendingStopRequests := pendingStopRequests[user := stops[KeyOf(conversation, turn) := now + GRACE_SECONDS]];
    }

    method ConsumePendingStopRequest(user: string, conversation: Option<string>, turn: Option<string>, now: real)
      returns (consumed: bool)
      modifies this`pendingStopRequests
      ensures State() == AfterConsume(old(State()), user, KeyOf(conversation, turn), now)
      ensures consumed <==> Taken(old(State()), user, KeyOf(conversation, turn), now).Some?
    {
      if user !in pendingStopRequests || pendingStopRequests[user] == map[] {
        EmptyHasNothingToTake(Candidates(KeyOf(conversation, turn)), now);
        return false;
      }
      var stops := pendingStopRequests[user];
      var candidates := PendingStopCandidates(conversation, turn);
      ghost var all := TakeStop(stops, candidates, now);
      consumed := false;
      for k := 0 to |candidates|
        invariant this.pendingStopRequests == old(pendingStopRequests)
        invariant TakeStop(stops, candidates[k..], now) == all
      {
        assert candidates[k..][0] == candidates[k] && candidates[k..][1..] == candidates[k + 1..];
        if candidates[k] in stops {
          if stops[candidates[k]] > now {
            stops := stops - {candidates[k]};
            consumed := true;
            break;
          }
          stops := stops - {candidates[k]};
        }
      }
      pendingStopRequests := if stops == map[] then pendingStopRequests - {user} else pendingStopRequests[user := stops];
    }

    /** Counts the live tasks of one user and forgets the finished ones. */
    method CountUserTasks(user: string, done: set<Task>) returns (count: nat)
      modifies this`activeQueryTasks
      ensures State() == old(State()).(active := DropTasks(old(activeQueryTasks), user, done))
      ensures count == |LiveOf(old(activeQueryTasks), done, user)|
    {
      count, activeQueryTasks := CountOne(activeQueryTasks, user, done);
    }

    /** Counts the live tasks of everyone. */
    method CountAllTasks(done: set<Task>) returns (count: nat)
      modifies this`activeQueryTasks
      ensures State() == old(State()).(active := DropEverywhere(old(activeQueryTasks), old(activeQueryTasks).Keys, done))
      ensures count == |LiveTasks(old(activeQueryTasks), done)|
    {
      count, activeQueryTasks := CountEveryone(activeQueryTasks, done);
    }

    method RegisterActiveQueryTaskWithLimits(user: string, task: Task, turn: string, conversation: Option<string>,
            caps: Caps, now: real, done: set<Task>)
      returns (status: Status)
      modifies this
      ensures State() == AfterRegister(old(State()), user, task, turn, conversation, caps, now, done)
      ensures status == StatusOf(old(State()), user, KeyOf(NormalizeOptional(conversation), Some(turn)), caps, now, done)
    {
      hide Pruned, TakeStop, Candidates, Strip, LiveTasks, LiveOf;
      var limit := CheckCaps(user, caps, done);
      if limit.Some? {
        return limit.value;
      }
      var ref := NormalizeOptional(conversation);
      NormalizeOptionalTwice(conversation);
      var stopped := ConsumePendingStopRequest(user, ref, Some(turn), now);
      if stopped {
        return StopConsumed;
      }
      var tasks := if user in activeQueryTasks then activeQueryTasks[user] else map[];
      activeQueryTasks := activeQueryTasks[user := tasks[task := TaskRefs(turn, ref)]];
      status := Registered;
    }

    /** The cap a further task of the user would exceed, if any. */
    method CheckCaps(user: string, caps: Caps, done: set<Task>) returns (limit: Option<Status>)
      modifies this`activeQueryTasks
      ensures State() == Pruned(old(State()), user, caps, done)
      ensures limit == if caps.perUser.Some? && |LiveOf(old(activeQueryTasks), done, user)| >= caps.perUser.value then Some(UserLimit)
                       else if caps.total.Some? && |LiveTasks(old(activeQueryTasks), done)| >= caps.total.value then Some(GlobalLimit)
                       else None
    {
      if caps.perUser.Some? {
        var own := CountUserTasks(user, done);
        if own >= caps.perUser.value {
          return Some(UserLimit);
        }
        DroppingKeepsLive(old(activeQueryTasks), user, done);
      }
      if caps.total.Some? {
        var all := CountAllTasks(done);
        if all >= caps.total.value {
          return Some(GlobalLimit);
        }
      }
      limit := None;
    }

    method RegisterActiveQueryTask(user: string, task: Task, turn: string, conversation: Option<string>, now: real,
            done: set<Task>)
      returns (stopped: bool)
      modifies this
      ensures State() == AfterRegister(old(State()), user, task, turn, conversation, Caps(None, None), now, done)
      ensures stopped <==> Taken(old(State()), user, KeyOf(NormalizeOptional(conversation), Some(turn)), now).Some?
    {
      var status := RegisterActiveQueryTaskWithLimits(user, task, turn, conversation, Caps(None, None), now, done);
      stopped := status == StopConsumed;
    }

    method ClearActiveQueryTask(user: string, task: Option<Task>)
      modifies this`activeQueryTasks
      ensures State() == AfterClear(old(State()), user, task)
    {
      if user !in activeQueryTasks || activeQueryTasks[user] == map[] {
        return;
      }
      if task.None? {
        activeQueryTasks := activeQueryTasks - {user};
        return;
      }
      var tasks := activeQueryTasks[user] - {task.value};
      activeQueryTasks := if tasks == map[] then activeQueryTasks - {user} else activeQueryTasks[user := tasks];
    }

    /** Cancels every live task the request names; when there is none, remembers the stop. */
    method CancelActiveQueryTask(user: string, conversation: Option<string>, turn: Option<string>, now: real,
            done: set<Task>)
      returns (cancelled: set<Task>, entry: Option<TaskRefs>)
      modifies this
      ensures State() == AfterCancel(old(State()), user, KeyOf(conversation, turn), now, done)
      ensures cancelled == Cancelled(old(State()), user, KeyOf(conversation, turn), done)
      ensures entry.None? <==> cancelled == {}
      ensures entry.Some? ==> exists t :: t in cancelled && entry.value == old(activeQueryTasks)[user][t]
    {
      var key := KeyOf(conversation, turn);
      NormalizeOptionalTwice(conversation);
      NormalizeOptionalTwice(turn);
      cancelled, entry := {}, None;
      if user !in activeQueryTasks || activeQueryTasks[user] == map[] {
        assert Cancelled(old(State()), user, key, done) == {};
        RegisterPendingStopRequest(user, key.conversation, key.turn, now);
        return;
      }
      var tasks := activeQueryTasks[user];
      var all := tasks;
      cancelled, entry := SelectRequested(all, key, done);
      tasks := all - (done + cancelled);
      activeQueryTasks := if tasks == map[] then activeQueryTasks - {user} else activeQueryTasks[user := tasks];
      if cancelled == {} {
        RegisterPendingStopRequest(user, key.conversation, key.turn, now);
        return;
      }
      if user in pendingStopRequests {
        var stops := RemoveAnswered(pendingStopRequests[user], key, all, cancelled);
        pendingStopRequests := if stops == map[] then pendingStopRequests - {user} else pendingStopRequests[user := stops];
      }
    }

    /** Whether a live task of the user (in that conversation) is tracked; finished tasks met on the way are forgotten. */
    method HasActiveQueryTask(user: string, conversation: Option<string>, done: set<Task>) returns (found: bool,
            ghost gone: set<Task>)
      modifies this`activeQueryTasks
      ensures gone <= done && State() == old(State()).(active := DropTasks(old(activeQueryTasks), user, gone))
      ensures found <==> exists t :: t in TasksOf(old(activeQueryTasks), user) && t !in done
                           && Requested(StopKey(NormalizeOptional(conversation), None), TasksOf(old(activeQueryTasks), user)[t])
    {
      gone := {};
      if user !in activeQueryTasks || activeQueryTasks[user] == map[] {
        return false, {};
      }
      var ref := NormalizeOptional(conversation);
      var tasks := activeQueryTasks[user];
      ghost var all := tasks;
      var todo := tasks.Keys;
      found := false;
      while todo != {} && !found
        invariant todo <= all.Keys && gone <= done && tasks == all - gone && gone !! todo
        invariant found <==> exists t :: t in all.Keys - todo && t !in done && Requested(StopKey(ref, None), all[t])
        invariant this.activeQueryTasks == old(activeQueryTasks)
        decreases todo
      {
        var t :| t in todo;
        todo := todo - {t};
        if t in done {
          tasks, gone := tasks - {t}, gone + {t};
        } else if ref.None? || tasks[t].conversation == ref {
          found := true;
          assert t in all.Keys - todo && Requested(StopKey(ref, None), all[t]);
        }
      }
      activeQueryTasks := if tasks == map[] then activeQueryTasks - {user} else activeQueryTasks[user := tasks];
    }

    method ClearUserState(user: string)
      modifies this
      ensures State() == AfterClearUser(old(State()), user)
    {
      ClearActiveQueryTask(user, None);
      pendingStopRequests := pendingStopRequests - {user};
    }
  }

  /** The live tasks a request names, found one at a time, and the last one met. */
  method SelectRequested(tasks: map<Task, TaskRefs>, key: StopKey, done: set<Task>) returns (cancelled: set<Task>,
          entry: Option<TaskRefs>)
    ensures cancelled == Named(tasks, key, done)
    ensures entry.None? <==> cancelled == {}
    ensures entry.Some? ==> exists t :: t in cancelled && entry.value == tasks[t]
  {
    var todo := tasks.Keys;
    cancelled, entry := {}, None;
    while todo != {}
      invariant todo <= tasks.Keys
      invariant cancelled == set t | t in tasks && t !in todo && t !in done && Requested(key, tasks[t])
      invariant entry.None? <==> cancelled == {}
      invariant entry.Some? ==> exists t :: t in cancelled && entry.value == tasks[t]
      decreases todo
    {
      var t :| t in todo;
      todo := todo - {t};
      if t in done {
        continue;
      }
      if key.conversation.Some? && tasks[t].conversation != key.conversation {
        continue;
      }
      if key.turn.Some? && Some(tasks[t].turn) != key.turn {
        continue;
      }
      cancelled, entry := cancelled + {t}, Some(tasks[t]);
    }
  }

  method RemoveKeys(stops: Stops, keys: seq<StopKey>) returns (left: Stops)
    ensures left == map k | k in stops && k !in keys :: stops[k]
  {
    left := stops;
    for i := 0 to |keys|
      invariant left == map k | k in stops && k !in keys[..i] :: stops[k]
    {
      left := left - {keys[i]};
    }
  }

  /** Drops the stops named by the request and those named by each cancelled task. */
  method RemoveAnswered(stops: Stops, key: StopKey, tasks: map<Task, TaskRefs>, cancelled: set<Task>)
    returns (left: Stops)
    requires cancelled <= tasks.Keys
    ensures left == Unanswered(stops, key, tasks, cancelled)
  {
    left := RemoveKeys(stops, Candidates(key));
    var todo := cancelled;
    while todo != {}
      invariant todo <= cancelled
      invariant left == Unanswered(stops, key, tasks, cancelled - todo)
      decreases todo
    {
      var t :| t in todo;
      left := RemoveKeys(left, Candidates(KeyOf(tasks[t].conversation, Some(tasks[t].turn))));
      assert forall k :: LookedUpBy(tasks, cancelled - (todo - {t}), k)
                    <==> LookedUpBy(tasks, cancelled - todo, k) || k in Candidates(KeyOf(tasks[t].conversation, Some(tasks[t].turn)));
      todo := todo - {t};
    }
    assert cancelled - todo == cancelled;
  }

  lemma {:induction false} EmptyHasNothingToTake(candidates: seq<StopKey>, now: real)
    ensures TakeStop(map[], candidates, now) == (map[], None)
  {
    if candidates != [] {
      EmptyHasNothingToTake(candidates[1..], now);
    }
  }

  function LiveAmong(active: map<string, map<Task, TaskRefs>>, users: set<string>,
          done: set<Task>): set<(string, Task)> {
    set u, t | u in active && u in users && t in active[u] && t !in done :: (u, t)
  }

  lemma NothingSeen(active: map<string, map<Task, TaskRefs>>, done: set<Task>)
    ensures DropEverywhere(active, {}, done) == active && LiveAmong(active, {}, done) == {}
  {
  }

  lemma AllSeen(active: map<string, map<Task, TaskRefs>>, done: set<Task>)
    ensures LiveAmong(active, active.Keys, done) == LiveTasks(active, done)
  {
  }

  lemma DropOneMore(active: map<string, map<Task, TaskRefs>>, seen: set<string>, user: string, done: set<Task>)
    requires user in active && user !in seen
    ensures DropTasks(DropEverywhere(active, seen, done), user, done) == DropEverywhere(active, seen + {user}, done)
    ensures LiveOf(DropEverywhere(active, seen, done), done, user) == LiveOf(active, done, user)
  {
  }

  function Pairs(user: string, tasks: set<Task>): set<(string, Task)> {
    set t | t in tasks :: (user, t)
  }

  lemma {:induction false} PairsCount(user: string, tasks: set<Task>)
    ensures |Pairs(user, tasks)| == |tasks|
  {
    if tasks != {} {
      var t :| t in tasks;
      PairsCount(user, tasks - {t});
      assert Pairs(user, tasks) == Pairs(user, tasks - {t}) + {(user, t)};
    } else {
      assert Pairs(user, tasks) == {};
    }
  }

  lemma IsLive(active: map<string, map<Task, TaskRefs>>, users: set<string>, done: set<Task>, u: string, t: Task)
    ensures (u, t) in LiveAmong(active, users, done) <==> u in active && u in users && t in active[u] && t !in done
    ensures (u, t) in LiveTasks(active, done) <==> u in active && t in active[u] && t !in done
  {
    if u in active && u in users && t in active[u] && t !in done {
      assert (u, t) in LiveAmong(active, users, done);
    }
  }

  lemma CountOneMore(active: map<string, map<Task, TaskRefs>>, seen: set<string>, user: string, done: set<Task>)
    requires user in active && user !in seen
    ensures |LiveAmong(active, seen + {user}, done)| == |LiveAmong(active, seen, done)| + |LiveOf(active, done, user)|
  {
    PairsCount(user, LiveOf(active, done, user));
    LiveOfOneMore(active, seen, user, done);
  }

  lemma LiveOfOneMore(active: map<string, map<Task, TaskRefs>>, seen: set<string>, user: string, done: set<Task>)
    requires user in active && user !in seen
    ensures LiveAmong(active, seen + {user}, done) == LiveAmong(active, seen, done) + Pairs(user, LiveOf(active, done, user))
    ensures LiveAmong(active, seen, done) !! Pairs(user, LiveOf(active, done, user))
  {
    var own := Pairs(user, LiveOf(active, done, user));
    forall u: string, t: Task
      ensures (u, t) in LiveAmong(active, seen + {user}, done) <==> (u, t) in LiveAmong(active, seen, done) || (u, t) in own
      ensures !((u, t) in LiveAmong(active, seen, done) && (u, t) in own)
    {
      IsLive(active, seen + {user}, done, u, t);
      IsLive(active, seen, done, u, t);
    }
  }

  lemma DroppingKeepsLive(active: map<string, map<Task, TaskRefs>>, user: string, done: set<Task>)
    ensures LiveTasks(DropTasks(active, user, done), done) == LiveTasks(active, done)
  {
    var left := DropTasks(active, user, done);
    forall u: string, t: Task
      ensures (u, t) in LiveTasks(left, done) <==> (u, t) in LiveTasks(active, done)
    {
      IsLive(left, {}, done, u, t);
      IsLive(active, {}, done, u, t);
      assert u in active && t !in done ==> (t in active[u] <==> t in active[u] - done);
    }
  }
}
