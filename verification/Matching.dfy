/** What a closed history means row by row: calls and role=tool rows are matched one to one inside their turns. */
module Matching {
  import opened Text
  import opened Messages
  import opened History
  import opened Compaction
  import opened Linkage

  // ---------- positions ----------

  /** The open calls before row `n`. */
  function OpenAt(rows: seq<StoredMessage>, n: nat): Option<seq<string>>
    requires n <= |rows|
  {
    if n == 0 then Some([]) else Next(OpenAt(rows, n - 1), rows[n - 1])
  }

  lemma {:induction false} OpenAtIsReplay(rows: seq<StoredMessage>, n: nat)
    requires n <= |rows|
    ensures OpenAt(rows, n) == Replay(rows[..n])
  {
    if n == 0 {
      assert rows[..0] == [];
    } else {
      OpenAtIsReplay(rows, n - 1);
      ReplayRow(rows, n - 1);
    }
  }

  lemma {:induction false} OpenAtPrefix(rows: seq<StoredMessage>, m: nat, n: nat)
    requires m <= n <= |rows| && OpenAt(rows, n).Some?
    ensures OpenAt(rows, m).Some?
    decreases n
  {
    if m < n {
      OpenAtPrefix(rows, m, n - 1);
    }
  }

  /** Role=tool rows strictly between `i` and `j`. */
  function ToolsBetween(rows: seq<StoredMessage>, i: nat, j: nat): nat
    requires i < j <= |rows|
  {
    if j == i + 1 then 0 else ToolsBetween(rows, i, j - 1) + if rows[j - 1].role == Tool then 1 else 0
  }

  lemma {:induction false} ToolsGrow(rows: seq<StoredMessage>, i: nat, j: nat, n: nat)
    requires i < j <= n <= |rows|
    ensures ToolsBetween(rows, i, j) <= ToolsBetween(rows, i, n)
    decreases n
  {
    if j < n {
      ToolsGrow(rows, i, j, n - 1);
    }
  }

  /** Neither a user row nor another call row stands strictly between `i` and `j`. */
  predicate SameTurn(rows: seq<StoredMessage>, i: nat, j: nat)
    requires j <= |rows|
  {
    forall m :: i < m < j ==> rows[m].role != User && Calls(rows[m]) == []
  }

  /** Role=tool row `j` is the answer to call number `k` of row `i`. */
  predicate Answers(rows: seq<StoredMessage>, j: nat, i: nat, k: nat) {
    && i < j < |rows|
    && k < |Calls(rows[i])|
    && rows[j].role == Tool
    && rows[j].toolCallId == Some(Calls(rows[i])[k].id)
    && SameTurn(rows, i, j)
    && ToolsBetween(rows, i, j) == k
  }

  ghost predicate AnswersSomeCall(rows: seq<StoredMessage>, j: nat) {
    exists i, k :: Answers(rows, j, i, k)
  }

  ghost predicate HasAnswer(rows: seq<StoredMessage>, i: nat, k: nat) {
    exists j :: Answers(rows, j, i, k)
  }

  /** Every role=tool row answers a call of its own user turn, and every call is answered there. */
  ghost predicate Matched(rows: seq<StoredMessage>) {
    && (forall j: nat :: j < |rows| && rows[j].role == Tool ==> AnswersSomeCall(rows, j))
    && (forall i: nat, k: nat :: i < |rows| && k < |Calls(rows[i])| ==> HasAnswer(rows, i, k))
  }

  /** A row answers one call only, and a call has one answer only. */
  lemma AnswersIsOneToOne(rows: seq<StoredMessage>, j: nat, i: nat, k: nat, j': nat, i': nat, k': nat)
    requires Answers(rows, j, i, k) && Answers(rows, j', i', k')
    ensures j == j' <==> i == i' && k == k'
  {
    if i == i' && j < j' {
      ToolsGrow(rows, i, j + 1, j');
    }
    if i == i' && j' < j {
      ToolsGrow(rows, i, j' + 1, j);
    }
  }

  // ---------- a history that closes is matched ----------

  /** The open calls are those of row `i` that its answers before row `n` leave over. */
  predicate OpenIn(rows: seq<StoredMessage>, n: nat, i: nat, open: seq<string>)
    requires n <= |rows|
  {
    && i < n && SameTurn(rows, i, n)
    && ToolsBetween(rows, i, n) <= |Calls(rows[i])|
    && open == CallIds(Calls(rows[i]))[ToolsBetween(rows, i, n)..]
  }

  lemma {:induction false} OpenTurn(rows: seq<StoredMessage>, n: nat) returns (i: nat)
    requires n <= |rows| && OpenAt(rows, n).Some? && OpenAt(rows, n).value != []
    ensures OpenIn(rows, n, i, OpenAt(rows, n).value)
    decreases n
  {
    if Calls(rows[n - 1]) != [] {
      i := n - 1;
    } else {
      i := OpenTurn(rows, n - 1);
      OpenInStep(rows, n - 1, i, OpenAt(rows, n - 1).value);
    }
  }

  lemma OpenInStep(rows: seq<StoredMessage>, n: nat, i: nat, open: seq<string>)
    requires n < |rows| && OpenIn(rows, n, i, open) && open != [] && Calls(rows[n]) == [] && Next(Some(open), rows[n]).Some?
    ensures OpenIn(rows, n + 1, i, Next(Some(open), rows[n]).value)
  {
    var t := ToolsBetween(rows, i, n);
    assert CallIds(Calls(rows[i]))[t..][1..] == CallIds(Calls(rows[i]))[t + 1..];
  }

  lemma ToolRowAnswers(rows: seq<StoredMessage>, j: nat)
    requires j < |rows| && OpenAt(rows, |rows|).Some? && rows[j].role == Tool
    ensures AnswersSomeCall(rows, j)
  {
    OpenAtPrefix(rows, j + 1, |rows|);
    var i := OpenTurn(rows, j);
    NextAnswer(rows, j, i);
  }

  /** While the answer to a call is still to come, the call is open; so a history that closes contains it. */
  lemma {:induction false} AnswerComes(rows: seq<StoredMessage>, i: nat, k: nat, j: nat)
    requires OpenAt(rows, |rows|) == Some([]) && i < j <= |rows| && k < |Calls(rows[i])|
    requires OpenAt(rows, j).Some? && OpenIn(rows, j, i, OpenAt(rows, j).value) && ToolsBetween(rows, i, j) <= k
    ensures HasAnswer(rows, i, k)
    decreases |rows| - j
  {
    assert OpenAt(rows, j).value != [];
    OpenAtPrefix(rows, j + 1, |rows|);
    if rows[j].role == Tool && ToolsBetween(rows, i, j) == k {
      NextAnswer(rows, j, i);
    } else {
      OpenInStep(rows, j, i, OpenAt(rows, j).value);
      hide OpenIn, Next;
      AnswerComes(rows, i, k, j + 1);
    }
  }

  lemma CallIsAnswered(rows: seq<StoredMessage>, i: nat, k: nat)
    requires OpenAt(rows, |rows|) == Some([]) && i < |rows| && k < |Calls(rows[i])|
    ensures HasAnswer(rows, i, k)
  {
    OpenAtPrefix(rows, i + 1, |rows|);
    FreshTurnOpens(rows, i);
    AnswerComes(rows, i, k, i + 1);
  }

  lemma FreshTurnOpens(rows: seq<StoredMessage>, i: nat)
    requires i < |rows| && OpenAt(rows, i + 1).Some? && Calls(rows[i]) != []
    ensures OpenIn(rows, i + 1, i, OpenAt(rows, i + 1).value)
  {
  }

  lemma NextAnswer(rows: seq<StoredMessage>, j: nat, i: nat)
    requires j < |rows| && OpenAt(rows, j).Some? && OpenIn(rows, j, i, OpenAt(rows, j).value)
    requires OpenAt(rows, j + 1).Some? && rows[j].role == Tool
    ensures Answers(rows, j, i, ToolsBetween(rows, i, j))
  {
  }

  // ---------- a matched history closes ----------

  /** No call before row `n` still waits for an answer. */
  ghost predicate NothingWaits(rows: seq<StoredMessage>, n: nat) {
    forall i: nat, k: nat, j: nat :: i < n && Answers(rows, j, i, k) ==> j < n
  }

  /** Before row `n` either everything is answered, or row `i` waits for the rest of its answers. */
  ghost predicate Progress(rows: seq<StoredMessage>, n: nat, open: seq<string>)
    requires n <= |rows|
  {
    if open == [] then NothingWaits(rows, n) else exists i :: OpenIn(rows, n, i, open)
  }

  lemma {:induction false} MatchedReplays(rows: seq<StoredMessage>, n: nat)
    requires Matched(rows) && TypedRows(rows) && n <= |rows|
    ensures OpenAt(rows, n).Some? && Progress(rows, n, OpenAt(rows, n).value)
    decreases n
  {
    if n > 0 {
      MatchedReplays(rows, n - 1);
      hide Matched, TypedRows, Next, Progress;
      MatchedStep(rows, n - 1, OpenAt(rows, n - 1).value);
    }
  }

  lemma MatchedStep(rows: seq<StoredMessage>, n: nat, open: seq<string>)
    requires Matched(rows) && TypedRows(rows) && n < |rows| && Progress(rows, n, open)
    ensures Next(Some(open), rows[n]).Some? && Progress(rows, n + 1, Next(Some(open), rows[n]).value)
  {
    hide Matched, TypedRows, Next, NothingWaits, OpenIn;
    if open == [] {
      MatchedFromClosed(rows, n);
    } else {
      var i :| OpenIn(rows, n, i, open);
      MatchedFromOpen(rows, n, i, open);
    }
  }

  lemma NothingAnswersHere(rows: seq<StoredMessage>, n: nat)
    requires NothingWaits(rows, n)
    ensures !AnswersSomeCall(rows, n)
  {
  }

  lemma MatchedFromClosed(rows: seq<StoredMessage>, n: nat)
    requires Matched(rows) && TypedRows(rows) && n < |rows| && NothingWaits(rows, n)
    ensures Next(Some([]), rows[n]).Some? && Progress(rows, n + 1, Next(Some([]), rows[n]).value)
  {
    NothingAnswersHere(rows, n);
    if Calls(rows[n]) != [] {
      assert OpenIn(rows, n + 1, n, CallIds(Calls(rows[n])));
    }
  }

  lemma MatchedFromOpen(rows: seq<StoredMessage>, n: nat, i: nat, open: seq<string>)
    requires Matched(rows) && n < |rows| && open != [] && OpenIn(rows, n, i, open)
    ensures Next(Some(open), rows[n]).Some? && Progress(rows, n + 1, Next(Some(open), rows[n]).value)
  {
    var t := ToolsBetween(rows, i, n);
    assert HasAnswer(rows, i, t);
    var j: nat :| Answers(rows, j, i, t);
    if j < n {
      ToolsGrow(rows, i, j + 1, n);
    }
    hide Matched;
    if rows[n].role == Tool {
      assert j == n by { AnswerIsHere(rows, n, i, j); }
      OpenInStep(rows, n, i, open);
      if |open| == 1 {
        AllAnsweredBy(rows, n, i);
      }
    } else {
      OpenInStep(rows, n, i, open);
    }
  }

  /** The first role=tool row after the answers already given is the next answer. */
  lemma AnswerIsHere(rows: seq<StoredMessage>, n: nat, i: nat, j: nat)
    requires i < n <= j < |rows| && Answers(rows, j, i, ToolsBetween(rows, i, n)) && rows[n].role == Tool
    ensures j == n
  {
    if n < j {
      ToolsGrow(rows, i, n + 1, j);
    }
  }

  /** Once the last call row has all its answers, no call before row `n + 1` is answered later. */
  lemma AllAnsweredBy(rows: seq<StoredMessage>, n: nat, i: nat)
    requires i < n < |rows| && SameTurn(rows, i, n) && rows[n].role == Tool
    requires ToolsBetween(rows, i, n) + 1 == |Calls(rows[i])|
    ensures NothingWaits(rows, n + 1)
  {
    forall i': nat, k: nat, j: nat | i' < n + 1 && Answers(rows, j, i', k)
      ensures j < n + 1
    {
      if j > n {
        assert i <= i';
        assert i' == i;
        ToolsGrow(rows, i, n + 1, j);
      }
    }
  }

  lemma NothingIsLeft(rows: seq<StoredMessage>, i: nat, open: seq<string>)
    requires Matched(rows) && OpenIn(rows, |rows|, i, open)
    ensures open == []
  {
    if open != [] {
      var t := ToolsBetween(rows, i, |rows|);
      assert HasAnswer(rows, i, t);
      var j: nat :| Answers(rows, j, i, t);
      ToolsGrow(rows, i, j + 1, |rows|);
    }
  }

  /**
   * A history closes exactly when calls and role=tool rows are matched; by `AnswersIsOneToOne` each then has
   * exactly one partner, later in the same user turn.
   */
  lemma ClosedIffMatched(rows: seq<StoredMessage>)
    requires TypedRows(rows)
    ensures Replay(rows) == Some([]) <==> Matched(rows)
  {
    OpenAtIsReplay(rows, |rows|);
    assert rows[..|rows|] == rows;
    if OpenAt(rows, |rows|) == Some([]) {
      forall j: nat | j < |rows| && rows[j].role == Tool
        ensures AnswersSomeCall(rows, j)
      {
        ToolRowAnswers(rows, j);
      }
      forall i: nat, k: nat | i < |rows| && k < |Calls(rows[i])|
        ensures HasAnswer(rows, i, k)
      {
        CallIsAnswered(rows, i, k);
      }
    }
    if Matched(rows) {
      MatchedReplays(rows, |rows|);
      if OpenAt(rows, |rows|).value != [] {
        var i := OpenTurn(rows, |rows|);
        NothingIsLeft(rows, i, OpenAt(rows, |rows|).value);
      }
    }
  }

  // ---------- counting ids ----------

  /** How often the first `n` rows issue `id`. */
  function Issued(rows: seq<StoredMessage>, n: nat, id: string): nat
    requires n <= |rows|
  {
    if n == 0 then 0 else Issued(rows, n - 1, id) + multiset(CallIds(Calls(rows[n - 1])))[id]
  }

  /** How many of the first `n` rows are role=tool rows for `id`. */
  function Answered(rows: seq<StoredMessage>, n: nat, id: string): nat
    requires n <= |rows|
  {
    if n == 0 then 0
    else Answered(rows, n - 1, id) + if rows[n - 1].role == Tool && rows[n - 1].toolCallId == Some(id) then 1 else 0
  }

  lemma PopFront(open: seq<string>, id: string)
    requires open != []
    ensures multiset(open)[id] == multiset(open[1..])[id] + if open[0] == id then 1 else 0
  {
    assert open == [open[0]] + open[1..];
  }

  /** Conservation: every id is answered or still open exactly as often as it was issued. */
  lemma {:induction false} IssuedIsAnsweredOrOpen(rows: seq<StoredMessage>, n: nat, id: string)
    requires n <= |rows| && OpenAt(rows, n).Some?
    ensures Issued(rows, n, id) == Answered(rows, n, id) + multiset(OpenAt(rows, n).value)[id]
  {
    if n > 0 {
      IssuedIsAnsweredOrOpen(rows, n - 1, id);
      if rows[n - 1].role == Tool {
        PopFront(OpenAt(rows, n - 1).value, id);
      }
    }
  }

  // ---------- whole runs ----------

  /** In every state a safe run reaches, nothing staged means exactly: calls and outputs are matched. */
  lemma NothingStagedIffMatched(prompt: Option<string>, steps: seq<Step>, env: Env)
    requires SafeRun(Initial(prompt), steps, env)
    ensures var s := TakeAll(Initial(prompt), steps, env);
            s.pending == [] <==> Matched(s.rows)
  {
    LinkedInEverySafeRun(prompt, steps, env);
    ClosedIffMatched(TakeAll(Initial(prompt), steps, env).rows);
  }
}
