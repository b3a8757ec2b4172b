/** Model-history checkpoints: exporting the history as rows, and installing such rows again. */
module Checkpoint {
  import opened Text
  import opened Messages
  import opened Tokens
  import opened History
  import opened HistoryRuns

  datatype ModelRow = ModelRow(
    id: string,
    conversation: string,
    revision: string,
    role: Role,
    messageType: MessageType,
    content: string,
    toolCallId: Option<string>,
    toolCalls: Option<seq<ToolCall>>,
    toolName: Option<string>,
    imageRefs: Option<seq<string>>,
    compactionFacts: Option<map<string, string>>,
    sourceDisplayRowIds: seq<string>)

  datatype ModelHistory = ModelHistory(conversation: string, revision: string, checkpointId: string, rows: seq<ModelRow>)

  datatype InstallError = ConversationMismatch(index: nat) | RevisionMismatch(index: nat)

  // ---------- export ----------

  function CleanRefs(refs: seq<string>): seq<string> {
    if refs == [] then []
    else CleanRefs(refs[..|refs| - 1]) + (if Blank(refs[|refs| - 1]) then [] else [Strip(refs[|refs| - 1])])
  }

  function StringList(refs: Option<seq<string>>): seq<string> {
    if refs.None? then [] else CleanRefs(refs.value)
  }

  lemma {:induction false} CleanRefsTwice(refs: seq<string>)
    ensures CleanRefs(CleanRefs(refs)) == CleanRefs(refs)
  {
    if refs != [] {
      var front, last := CleanRefs(refs[..|refs| - 1]), refs[|refs| - 1];
      CleanRefsTwice(refs[..|refs| - 1]);
      StripTrims(last);
      if !Blank(last) {
        var all := front + [Strip(last)];
        assert all[..|all| - 1] == front && all[|all| - 1] == Strip(last);
        assert !Blank(Strip(last));
      } else {
        assert CleanRefs(refs) == front;
      }
    }
  }

  /** The row number with at least four digits. */
  function Padded(n: nat): string {
    (if n < 10 then "000" else if n < 100 then "00" else if n < 1000 then "0" else "") + Digits(n)
  }

  function ExportRow(m: StoredMessage, conversation: string, revision: string, checkpointId: string,
          index: nat): ModelRow {
    ModelRow(checkpointId + ":row:" + Padded(index), conversation, revision, m.role, m.messageType, m.content, m.toolCallId, m.toolCalls,
             m.toolName, Some(StringList(m.imageRefs)), m.compactionFacts, [])
  }

  function ExportRows(rows: seq<StoredMessage>, conversation: string, revision: string,
          checkpointId: string): (out: seq<ModelRow>)
    ensures |out| == |rows|
    ensures forall k :: 0 <= k < |rows| ==> out[k] == ExportRow(rows[k], conversation, revision, checkpointId, k + 1)
  {
    seq(|rows|, k requires 0 <= k < |rows| => ExportRow(rows[k], conversation, revision, checkpointId, k + 1))
  }

  /** Nothing is exported for a missing or blank reference. */
  function Export(rows: seq<StoredMessage>, conversation: Option<string>, revision: Option<string>,
          turn: Option<string>): Option<ModelHistory> {
    var conversationRef, revisionRef, turnRef := NormalizeOptional(conversation), NormalizeOptional(revision), NormalizeOptional(turn);
    if conversationRef.None? || revisionRef.None? then None
    else
      var id := "mh:" + revisionRef.value + ":" + if turnRef.Some? then turnRef.value else "latest";
      Some(ModelHistory(conversationRef.value, revisionRef.value, id, ExportRows(rows, conversationRef.value, revisionRef.value, id)))
  }

  // ---------- install ----------

  function StoredRole(row: ModelRow): Role {
    if row.role == Tool then Tool
    else if row.role == Assistant || row.messageType == AssistantResponse then Assistant
    else User
  }

  function Restored(row: ModelRow, at: int): StoredMessage {
    StoredMessage(StoredRole(row), row.content, row.messageType, at, row.imageRefs, row.toolCalls, row.toolCallId, NonEmpty(row.toolName),
                  row.compactionFacts)
  }

  predicate Kept(row: ModelRow) {
    StoredRole(row) == Assistant ==> Replayable(row.content, row.toolCalls)
  }

  /** The first `n` rows without the system rows. */
  function EntriesFirst(rows: seq<ModelRow>, n: nat): (entries: seq<ModelRow>)
    requires n <= |rows|
    ensures |entries| <= n
  {
    if n == 0 then [] else EntriesFirst(rows, n - 1) + (if rows[n - 1].role == System then [] else [rows[n - 1]])
  }

  /** The messages stored for the first `n` entries. */
  function RestoreFirst(entries: seq<ModelRow>, n: nat, at: int): (rows: seq<StoredMessage>)
    requires n <= |entries|
    ensures |rows| <= n
  {
    if n == 0 then [] else RestoreFirst(entries, n - 1, at) + (if Kept(entries[n - 1]) then [Restored(entries[n - 1], at)] else [])
  }

  function Restore(rows: seq<ModelRow>, at: int): seq<StoredMessage> {
    var entries := EntriesFirst(rows, |rows|);
    RestoreFirst(entries, |entries|, at)
  }

  /** The first system row that says something. */
  function PromptFirst(rows: seq<ModelRow>, n: nat): Option<string>
    requires n <= |rows|
  {
    if n == 0 then None
    else
      var earlier := PromptFirst(rows, n - 1);
      if earlier.None? && rows[n - 1].role == System && rows[n - 1].content != "" then Some(rows[n - 1].content) else earlier
  }

  /** Rows of another conversation or revision stop the installation. */
  function Refusal(rows: seq<ModelRow>, index: nat, conversation: string, revision: string): Option<InstallError>
    requires index < |rows|
  {
    if rows[index].conversation != conversation then Some(ConversationMismatch(index))
    else if rows[index].revision != revision then Some(RevisionMismatch(index))
    else None
  }

  /** The error names the first row that belongs elsewhere, and in what. */
  predicate Explains(e: InstallError, rows: seq<ModelRow>, conversation: string, revision: string) {
    && e.index < |rows|
    && (forall k :: 0 <= k < e.index ==> rows[k].conversation == conversation && rows[k].revision == revision)
    && match e
       case ConversationMismatch(k) => rows[k].conversation != conversation
       case RevisionMismatch(k) => rows[k].conversation == conversation && rows[k].revision != revision
  }

  method SelectEntries(rows: seq<ModelRow>, conversation: string, revision: string)
    returns (error: Option<InstallError>, entries: seq<ModelRow>, prompt: Option<string>)
    ensures error.None? <==> forall k :: 0 <= k < |rows| ==> rows[k].conversation == conversation && rows[k].revision == revision
    ensures error.Some? ==> Explains(error.value, rows, conversation, revision)
    ensures error.None? ==> entries == EntriesFirst(rows, |rows|) && prompt == PromptFirst(rows, |rows|)
  {
    error, entries, prompt := None, [], None;
    for n := 0 to |rows|
      invariant error.None?
      invariant forall k :: 0 <= k < n ==> rows[k].conversation == conversation && rows[k].revision == revision
      invariant entries == EntriesFirst(rows, n) && prompt == PromptFirst(rows, n)
    {
      error := Refusal(rows, n, conversation, revision);
      if error.Some? {
        return;
      }
      if rows[n].role == System {
        if prompt.None? && rows[n].content != "" {
          prompt := Some(rows[n].content);
        }
      } else {
        entries := entries + [rows[n]];
      }
    }
  }

  method BuildStored(entries: seq<ModelRow>, at: int) returns (stored: seq<StoredMessage>)
    ensures stored == RestoreFirst(entries, |entries|, at)
  {
    stored := [];
    for n := 0 to |entries|
      invariant stored == RestoreFirst(entries, n, at)
    {
      if StoredRole(entries[n]) == Assistant && !Replayable(entries[n].content, entries[n].toolCalls) {
        continue;
      }
      stored := stored + [Restored(entries[n], at)];
    }
  }

  function AfterInstall(s: HistoryState, rows: seq<ModelRow>, at: int): HistoryState {
    var prompt := PromptFirst(rows, |rows|);
    AfterReplace(s, Restore(rows, at)).(systemPrompt := if prompt.Some? then prompt else s.systemPrompt)
  }

  /** Installs all rows or, when one belongs elsewhere, nothing. */
  method InstallModelHistory(history: ConversationHistory, conversation: string, revision: string,
          rows: seq<ModelRow>, at: int)
    returns (error: Option<InstallError>)
    modifies history
    ensures error.None? <==> forall k :: 0 <= k < |rows| ==> rows[k].conversation == conversation && rows[k].revision == revision
    ensures error.Some? ==> Explains(error.value, rows, conversation, revision)
    ensures history.State() == if error.None? then AfterInstall(old(history.State()), rows, at) else old(history.State())
  {
    hide ToLlmAll, EntriesFirst, RestoreFirst, PromptFirst;
    var entries, prompt;
    error, entries, prompt := SelectEntries(rows, conversation, revision);
    if error.Some? {
      return;
    }
    var stored := BuildStored(entries, at);
    history.ReplaceWithStoredMessages(stored);
    if prompt.Some? {
      history.systemPrompt := prompt;
    }
  }

  // ---------- the round trip ----------

  /** A row that installation neither drops nor rewrites. */
  predicate Stable(m: StoredMessage) {
    && m.role != System
    && (m.role == User ==> m.messageType != AssistantResponse)
    && (m.role == Assistant ==> Replayable(m.content, m.toolCalls))
    && m.toolName != Some("")
  }

  lemma {:induction false} EntriesIfFull(rows: seq<ModelRow>, n: nat)
    requires n <= |rows|
    ensures |EntriesFirst(rows, n)| == n <==> forall k :: 0 <= k < n ==> rows[k].role != System
    ensures |EntriesFirst(rows, n)| == n ==> EntriesFirst(rows, n) == rows[..n]
  {
    if n > 0 {
      EntriesIfFull(rows, n - 1);
      assert rows[..n] == rows[..n - 1] + [rows[n - 1]];
    }
  }

  lemma {:induction false} RestoreIfFull(entries: seq<ModelRow>, n: nat, at: int)
    requires n <= |entries|
    ensures var rows := RestoreFirst(entries, n, at);
            && (|rows| == n <==> forall k :: 0 <= k < n ==> Kept(entries[k]))
            && (|rows| == n ==> forall k :: 0 <= k < n ==> rows[k] == Restored(entries[k], at))
  {
    if n > 0 {
      RestoreIfFull(entries, n - 1, at);
    }
  }

  /** A row comes back as it was exported exactly if it is stable. */
  lemma RowRoundTrip(m: StoredMessage, conversation: string, revision: string, id: string, index: nat, at: int)
    ensures var row := ExportRow(m, conversation, revision, id, index);
            Stable(m) <==> row.role != System && Kept(row) && ExportRow(Restored(row, at), conversation, revision, id, index) == row
  {
    CleanRefsTwice(if m.imageRefs.None? then [] else m.imageRefs.value);
  }

  lemma RestoreIfAllKept(out: seq<ModelRow>, at: int)
    ensures var back := Restore(out, at);
            && (|back| == |out| <==> forall k :: 0 <= k < |out| ==> out[k].role != System && Kept(out[k]))
            && (|back| == |out| ==> forall k :: 0 <= k < |out| ==> back[k] == Restored(out[k], at))
  {
    var entries := EntriesFirst(out, |out|);
    EntriesIfFull(out, |out|);
    RestoreIfFull(entries, |entries|, at);
    assert out[..|out|] == out;
  }

  /** Exporting, installing and exporting again gives the same rows exactly when every row is stable. */
  lemma RoundTripIffStable(rows: seq<StoredMessage>, conversation: string, revision: string, id: string, at: int)
    ensures var out := ExportRows(rows, conversation, revision, id);
            ExportRows(Restore(out, at), conversation, revision, id) == out <==> forall k :: 0 <= k < |rows| ==> Stable(rows[k])
  {
    var out := ExportRows(rows, conversation, revision, id);
    RestoreIfAllKept(out, at);
    var back := Restore(out, at);
    var again := ExportRows(back, conversation, revision, id);
    hide ExportRow, Restored, Kept, Stable, Restore, ExportRows;
    forall k | 0 <= k < |rows|
      ensures Stable(rows[k]) <==>
        out[k].role != System && Kept(out[k]) && ExportRow(Restored(out[k], at), conversation, revision, id, k + 1) == out[k]
    {
      RowRoundTrip(rows[k], conversation, revision, id, k + 1, at);
    }
    if |back| == |rows| {
      assert forall k :: 0 <= k < |rows| ==> again[k] == ExportRow(Restored(out[k], at), conversation, revision, id, k + 1);
      assert again == out <==> forall k :: 0 <= k < |rows| ==> again[k] == out[k];
    } else {
      assert |again| != |out|;
    }
  }

  predicate NamedTools(rows: seq<StoredMessage>) {
    forall k :: 0 <= k < |rows| ==> rows[k].toolName != Some("")
  }

  /** Whatever the history went through, its checkpoint survives being installed, as long as tool names are not empty. */
  lemma ReachableRoundTrip(prompt: Option<string>, ops: seq<Op>, conversation: Option<string>,
          revision: Option<string>, turn: Option<string>, at: int)
    requires forall i :: 0 <= i < |ops| && ops[i].Replace? ==> TypedRows(ops[i].rows)
    ensures var rows := Run(Initial(prompt), ops).rows;
            var first := Export(rows, conversation, revision, turn);
            first.Some? ==>
              (Export(Restore(first.value.rows, at), conversation, revision, turn) == first <==> NamedTools(rows))
  {
    var rows := Run(Initial(prompt), ops).rows;
    TypedInEveryRun(prompt, ops);
    hide Run;
    TypedIsStableIfNamed(rows);
    var first := Export(rows, conversation, revision, turn);
    if first.Some? {
      RoundTripIffStable(rows, first.value.conversation, first.value.revision, first.value.checkpointId, at);
      hide ExportRows, Restore, Stable, NamedTools;
    }
  }

  lemma TypedIsStableIfNamed(rows: seq<StoredMessage>)
    requires TypedRows(rows)
    ensures NamedTools(rows) <==> forall k :: 0 <= k < |rows| ==> Stable(rows[k])
  {
    assert forall k :: 0 <= k < |rows| ==> TypedRow(rows[k]) && (Stable(rows[k]) <==> rows[k].toolName != Some(""));
  }

  /** A tool output recorded under an empty name: installed and exported again, it has no name. */
  lemma EmptyNameIsLost(at: int)
    ensures var rows := Run(Initial(None), [AddOutput("done", 0, Some(""), None)]).rows;
            var first := Export(rows, Some("c"), Some("r"), None);
            first.Some? && Export(Restore(first.value.rows, at), Some("c"), Some("r"), None) != first
  {
    var ops := [AddOutput("done", 0, Some(""), None)];
    assert ops[..0] == [];
    assert Run(Initial(None), []) == Initial(None);
    var rows := Run(Initial(None), ops).rows;
    assert rows == [UnlinkedOutputRow("done", 0, Some(""), None)];
    assert rows[0].toolName == Some("");
    TrimmedIsFixed("c");
    TrimmedIsFixed("r");
    hide Run, Strip, ExportRows, Restore;
    ReachableRoundTrip(None, ops, Some("c"), Some("r"), None, at);
  }

  // ---------- what comes back ----------

  /** Cleaning treats each reference by itself: a blank one goes, another is trimmed. */
  lemma {:induction false} RefsAreCleanedOneByOne(a: seq<string>, b: seq<string>)
    ensures CleanRefs(a + b) == CleanRefs(a) + CleanRefs(b)
    ensures |a| == 1 ==> CleanRefs(a) == if AllSpace(a[0]) then [] else [Strip(a[0])]
    decreases |b|
  {
    if |a| == 1 {
      BlankIffSpace(a[0]);
      assert a[..0] == [];
    }
    if b == [] {
      assert a + b == a;
    } else {
      assert (a + b)[..|a + b| - 1] == a + b[..|b| - 1];
      RefsAreCleanedOneByOne(a, b[..|b| - 1]);
    }
  }

  /** The stored row again, except for its time and its image references, which are trimmed and without blanks. */
  predicate Returned(m: StoredMessage, back: StoredMessage, at: int) {
    && back.role == m.role && back.content == m.content && back.messageType == m.messageType && back.timestamp == at
    && back.imageRefs == Some(CleanRefs(if m.imageRefs.Some? then m.imageRefs.value else []))
    && back.toolCalls == m.toolCalls && back.toolCallId == m.toolCallId && back.toolName == m.toolName
    && back.compactionFacts == m.compactionFacts
  }

  predicate AllReturned(rows: seq<StoredMessage>, back: seq<StoredMessage>, at: int) {
    |back| == |rows| && forall k :: 0 <= k < |rows| ==> Returned(rows[k], back[k], at)
  }

  lemma RowReturnsIffStable(m: StoredMessage, conversation: string, revision: string, id: string, index: nat, at: int)
    ensures var row := ExportRow(m, conversation, revision, id, index);
            Stable(m) <==> row.role != System && Kept(row) && Returned(m, Restored(row, at), at)
  {
    assert CleanRefs([]) == [];
    hide CleanRefs, Replayable;
  }

  /** What is exported and installed is what was stored, row by row, exactly if every row is stable. */
  lemma RowsReturnIffStable(rows: seq<StoredMessage>, conversation: string, revision: string, id: string, at: int)
    ensures AllReturned(rows, Restore(ExportRows(rows, conversation, revision, id), at), at)
            <==> forall k :: 0 <= k < |rows| ==> Stable(rows[k])
  {
    var out := ExportRows(rows, conversation, revision, id);
    RestoreIfAllKept(out, at);
    var back := Restore(out, at);
    hide ExportRow, Restored, Kept, Stable, Restore, Returned;
    forall k | 0 <= k < |rows|
      ensures Stable(rows[k]) <==> out[k].role != System && Kept(out[k]) && Returned(rows[k], Restored(out[k], at), at)
    {
      RowReturnsIffStable(rows[k], conversation, revision, id, k + 1, at);
    }
  }

  /** Where a row belongs, as the installation checks it. */
  predicate BelongTo(rows: seq<ModelRow>, conversation: string, revision: string) {
    forall k :: 0 <= k < |rows| ==> rows[k].conversation == conversation && rows[k].revision == revision
  }

  /** A conversation and a revision that are not blank name the checkpoint of the rows. */
  lemma ExportNames(rows: seq<StoredMessage>, conversation: string, revision: string, turn: Option<string>)
    requires !AllSpace(conversation) && !AllSpace(revision)
    ensures var checkpoint := Export(rows, Some(conversation), Some(revision), turn);
            && checkpoint.Some?
            && checkpoint.value.conversation == Strip(conversation) && checkpoint.value.revision == Strip(revision)
            && checkpoint.value.checkpointId
               == "mh:" + Strip(revision) + ":" + (if turn.Some? && !AllSpace(turn.value) then Strip(turn.value) else "latest")
            && checkpoint.value.rows == ExportRows(rows, Strip(conversation), Strip(revision), checkpoint.value.checkpointId)
  {
    BlankIffSpace(conversation);
    BlankIffSpace(revision);
    if turn.Some? {
      BlankIffSpace(turn.value);
    }
    hide AllSpace, Strip, ExportRows;
  }

  /** The row says what was stored, and belongs to the conversation and the revision. */
  predicate Exports(row: ModelRow, m: StoredMessage, conversation: string, revision: string) {
    && row.role == m.role && row.content == m.content && row.messageType == m.messageType
    && row.toolCalls == m.toolCalls && row.toolCallId == m.toolCallId && row.toolName == m.toolName
    && row.imageRefs == Some(CleanRefs(if m.imageRefs.Some? then m.imageRefs.value else [])) && row.compactionFacts == m.compactionFacts
    && row.conversation == conversation && row.revision == revision
  }

  predicate AllExported(out: seq<ModelRow>, rows: seq<StoredMessage>, conversation: string, revision: string) {
    |out| == |rows| && forall k :: 0 <= k < |rows| ==> Exports(out[k], rows[k], conversation, revision)
  }

  lemma EveryRowIsExported(rows: seq<StoredMessage>, conversation: string, revision: string, id: string)
    ensures AllExported(ExportRows(rows, conversation, revision, id), rows, conversation, revision)
    ensures Numbered(ExportRows(rows, conversation, revision, id), id)
  {
    assert CleanRefs([]) == [];
    hide CleanRefs, Padded;
  }

  /** A row's number has at least four digits and reads back. */
  lemma PaddedReadsBack(n: nat)
    ensures forall k :: 0 <= k < |Padded(n)| ==> '0' <= Padded(n)[k] <= '9'
    ensures |Padded(n)| >= 4 && ReadDigits(Padded(n)) == n && (n < 10000 ==> |Padded(n)| == 4)
  {
    DigitsReadBack(n);
    DigitCount(n);
    var digits := Digits(n);
    hide Digits;
    if n < 10 {
      LeadingZeros("000", digits);
    } else if n < 100 {
      LeadingZeros("00", digits);
    } else if n < 1000 {
      LeadingZeros("0", digits);
    } else {
      assert "" + digits == digits;
    }
  }

  lemma DigitCount(n: nat)
    ensures |Digits(n)| >= (if n < 10 then 1 else if n < 100 then 2 else if n < 1000 then 3 else 4)
    ensures n < 10000 ==> |Digits(n)| == if n < 10 then 1 else if n < 100 then 2 else if n < 1000 then 3 else 4
  {
    assert n >= 10 ==> |Digits(n)| == |Digits(n / 10)| + 1;
    assert n >= 100 ==> |Digits(n / 10)| == |Digits(n / 10 / 10)| + 1;
    assert n >= 1000 ==> |Digits(n / 10 / 10)| == |Digits(n / 10 / 10 / 10)| + 1;
  }

  lemma {:induction false} LeadingZeros(zeros: string, digits: string)
    requires forall k :: 0 <= k < |zeros| ==> zeros[k] == '0'
    requires forall k :: 0 <= k < |digits| ==> '0' <= digits[k] <= '9'
    ensures forall k :: 0 <= k < |zeros + digits| ==> '0' <= (zeros + digits)[k] <= '9'
    ensures ReadDigits(zeros + digits) == ReadDigits(digits)
    decreases |zeros| + |digits|
  {
    var all := zeros + digits;
    assert forall k :: 0 <= k < |all| ==> '0' <= all[k] <= '9';
    if digits != "" {
      var front := digits[..|digits| - 1];
      assert all[..|all| - 1] == zeros + front;
      LeadingZeros(zeros, front);
    } else if zeros != "" {
      var front := zeros[..|zeros| - 1];
      assert all[..|all| - 1] == front + digits;
      LeadingZeros(front, digits);
    }
  }

  /** The rows of a checkpoint are numbered from one. */
  predicate Numbered(out: seq<ModelRow>, id: string) {
    forall k :: 0 <= k < |out| ==> out[k].id == id + ":row:" + Padded(k + 1) && out[k].sourceDisplayRowIds == []
  }

  lemma ExportedBelong(rows: seq<StoredMessage>, conversation: string, revision: string, id: string)
    ensures BelongTo(ExportRows(rows, conversation, revision, id), conversation, revision)
  {
  }

  lemma InstalledRows(into: HistoryState, rows: seq<ModelRow>, at: int)
    ensures AfterInstall(into, rows, at).rows == Restore(rows, at) && AfterInstall(into, rows, at).pending == []
  {
  }

  /**
   * The checkpoint of a reachable history can be installed in its conversation and revision, over whatever is there,
   * and gives the stored rows back exactly if no tool name is empty.
   */
  lemma ReachableHistoryReturns(prompt: Option<string>, ops: seq<Op>, conversation: string, revision: string,
          turn: Option<string>, into: HistoryState, at: int)
    requires forall i :: 0 <= i < |ops| && ops[i].Replace? ==> TypedRows(ops[i].rows)
    requires !AllSpace(conversation) && !AllSpace(revision)
    ensures var rows := Run(Initial(prompt), ops).rows;
            var checkpoint := Export(rows, Some(conversation), Some(revision), turn);
            && checkpoint.Some?
            && BelongTo(checkpoint.value.rows, Strip(conversation), Strip(revision))
            && AfterInstall(into, checkpoint.value.rows, at).pending == []
            && (AllReturned(rows, AfterInstall(into, checkpoint.value.rows, at).rows, at) <==> NamedTools(rows))
  {
    var rows := Run(Initial(prompt), ops).rows;
    hide Run, AllSpace, Strip, Export, ExportRows, AfterInstall, Restore, Stable, AllReturned, NamedTools, BelongTo;
    TypedInEveryRun(prompt, ops);
    TypedIsStableIfNamed(rows);
    ExportNames(rows, conversation, revision, turn);
    var checkpoint := Export(rows, Some(conversation), Some(revision), turn).value;
    ExportedBelong(rows, checkpoint.conversation, checkpoint.revision, checkpoint.checkpointId);
    InstalledRows(into, checkpoint.rows, at);
    RowsReturnIffStable(rows, checkpoint.conversation, checkpoint.revision, checkpoint.checkpointId, at);
  }

  predicate SaysPrompt(row: ModelRow) {
    row.role == System && row.content != ""
  }

  /** The prompt installed is that of the first system row that says something; the other rows become messages. */
  lemma {:induction false} FirstPromptWins(rows: seq<ModelRow>, n: nat)
    requires n <= |rows|
    ensures var prompt := PromptFirst(rows, n);
            if prompt.None? then forall k :: 0 <= k < n ==> !SaysPrompt(rows[k])
            else exists k :: 0 <= k < n && SaysPrompt(rows[k]) && prompt.value == rows[k].content
                             && forall j :: 0 <= j < k ==> !SaysPrompt(rows[j])
    ensures forall row :: row in EntriesFirst(rows, n) <==> row in rows[..n] && row.role != System
    decreases n
  {
    if n > 0 {
      FirstPromptWins(rows, n - 1);
      assert rows[..n] == rows[..n - 1] + [rows[n - 1]];
    }
  }

  /** The prompt after an installation: that of the first system row that says something, or the one there was. */
  lemma PromptIsInstalled(into: HistoryState, rows: seq<ModelRow>, at: int)
    ensures var prompt := AfterInstall(into, rows, at).systemPrompt;
            || ((forall k :: 0 <= k < |rows| ==> !SaysPrompt(rows[k])) && prompt == into.systemPrompt)
            || exists k :: 0 <= k < |rows| && SaysPrompt(rows[k]) && prompt == Some(rows[k].content)
                           && forall j :: 0 <= j < k ==> !SaysPrompt(rows[j])
  {
    FirstPromptWins(rows, |rows|);
    hide SaysPrompt, PromptFirst, Restore, AfterReplace;
  }
}
