/** Replaying a transcript: tool rows are matched with the calls of earlier assistant rows. */
module Rehydrate {
  import opened Text
  import opened Messages

  datatype EntryRole = FromUser | FromAssistant | FromTool

  datatype RawCall = RawCall(id: Option<string>, name: string, arguments: string, thoughtSignature: string)

  /** One transcript row; `structuredCalls` are the calls found in its structured payload. */
  datatype Entry = Entry(
    role: EntryRole,
    content: string,
    messageType: Option<string>,
    toolName: Option<string>,
    correlationId: Option<string>,
    toolCallId: Option<string>,
    structuredCalls: seq<RawCall>,
    toolCalls: seq<RawCall>)

  datatype HydratedEntry = HydratedEntry(
    role: EntryRole,
    content: string,
    messageType: MessageType,
    toolName: Option<string>,
    correlationId: Option<string>,
    toolCalls: seq<ToolCall>,
    toolCallId: Option<string>)

  datatype RehydrateError =
    | UnsupportedType(index: nat)
    | OutputWithoutCall(index: nat)
    | OutputForUnknownCall(index: nat, id: string)
    | UnansweredCalls(ids: seq<string>)

  datatype Result<T> = Ok(value: T) | Err(error: RehydrateError)

  // ---------- reading one row ----------

  function Dashed(s: string): string {
    seq(|s|, k requires 0 <= k < |s| => if s[k] == '_' then '-' else s[k])
  }

  function TypeText(e: Entry): string {
    match e.messageType case None => "" case Some(t) => Lower(Strip(t))
  }

  /** The type the row is stored with; a spelled-out type must be one of the four. */
  function StoredType(e: Entry): Option<MessageType> {
    var text := TypeText(e);
    if text == "" then Some(match e.role case FromTool => ToolOutput case FromAssistant => AssistantResponse case FromUser => UserQuery)
    else if text == "user_query" then Some(UserQuery)
    else if text == "tool_output" then Some(ToolOutput)
    else if text == "assistant_response" then Some(AssistantResponse)
    else if text == "context_compaction" then Some(ContextCompaction)
    else None
  }

  predicate IsBundleTrace(e: Entry) {
    var name := NormalizeOptional(e.toolName);
    name.Some? && Dashed(Lower(name.value)) in {"tool-bundle", "bundled-tools"}
  }

  /** Calls without an id are dropped, the others keep their trimmed id. */
  function NormalizeCalls(raw: seq<RawCall>, index: nat := 0): (calls: seq<ToolCall>)
    ensures forall k :: 0 <= k < |calls| ==> calls[k].id != "" && Trimmed(calls[k].id)
  {
    if raw == [] then []
    else
      var id := NormalizeOptional(raw[0].id);
      var rest := NormalizeCalls(raw[1..], index + 1);
      if id.None? then rest
      else
        StripTrims(raw[0].id.value);
        var name := if Strip(raw[0].name) == "" then "unknown_tool_" + Digits(index) else Strip(raw[0].name);
        [ToolCall(id.value, name, raw[0].arguments, Strip(raw[0].thoughtSignature))] + rest
  }

  function EntryCalls(e: Entry): seq<ToolCall> {
    var structured := NormalizeCalls(e.structuredCalls);
    if structured != [] then structured else NormalizeCalls(e.toolCalls)
  }

  /** What a row means for the linkage. */
  datatype Row = Issues(ids: seq<string>) | Output(callId: Option<string>) | Inert | Unsupported

  function RowOf(e: Entry): Row {
    if StoredType(e).None? then Unsupported
    else if IsBundleTrace(e) then Inert
    else if e.role == FromTool || TypeText(e) == "tool_output" then
      var own := NormalizeOptional(e.toolCallId);
      Output(if own.Some? then own else NormalizeOptional(e.correlationId))
    else if e.role == FromAssistant && EntryCalls(e) != [] then Issues(CallIds(EntryCalls(e)))
    else Inert
  }

  // ---------- the linkage state ----------

  /** Ids issued so far, and those not answered yet, oldest first. */
  datatype Link = Link(known: set<string>, pending: seq<string>)

  const UNLINKED := Link({}, [])

  function Register(link: Link, id: string): Link {
    if id == "" then link
    else Link(link.known + {id}, if id in link.pending then link.pending else link.pending + [id])
  }

  /** Registers the first `n` ids. */
  function RegisterFirst(link: Link, ids: seq<string>, n: nat): Link
    requires n <= |ids|
  {
    if n == 0 then link else Register(RegisterFirst(link, ids, n - 1), ids[n - 1])
  }

  function Without(ids: seq<string>, id: string): seq<string> {
    if ids == [] then [] else if ids[0] == id then ids[1..] else [ids[0]] + Without(ids[1..], id)
  }

  /** The id an output row ends up with. */
  function EffectiveId(link: Link, callId: Option<string>): Option<string> {
    if callId.Some? then callId else if link.pending == [] then None else Some(link.pending[0])
  }

  function After(link: Link, row: Row): Link {
    match row
    case Issues(ids) => RegisterFirst(link, ids, |ids|)
    case Output(callId) =>
      var id := EffectiveId(link, callId);
      if id.None? then link else link.(pending := Without(link.pending, id.value))
    case _ => link
  }

  predicate Rejects(link: Link, row: Row) {
    match row
    case Unsupported => true
    case Output(callId) =>
      var id := EffectiveId(link, callId);
      id.None? || id.value !in link.known
    case _ => false
  }

  class RehydrateToolLinkageState {
    var known: set<string>
    var pending: seq<string>

    function State(): Link
      reads this
    {
      Link(known, pending)
    }

    constructor ()
      ensures State() == UNLINKED
    {
      known, pending := {}, [];
    }

    method RegisterToolCallIds(ids: seq<string>)
      modifies this
      ensures State() == RegisterFirst(old(State()), ids, |ids|)
    {
      for n := 0 to |ids|
        invariant State() == RegisterFirst(old(State()), ids, n)
      {
        if ids[n] != "" {
          known := known + {ids[n]};
          if ids[n] !in pending {
            pending := pending + [ids[n]];
          }
        }
      }
    }

    method ConsumeToolOutputToolCallId(explicit: Option<string>) returns (id: Option<string>)
      modifies this`pending
      requires explicit.Some? ==> explicit.value != ""
      ensures State() == After(old(State()), Output(explicit))
      ensures id == EffectiveId(old(State()), explicit)
    {
      if explicit.Some? {
        pending := RemoveFirst(pending, explicit.value);
        return explicit;
      }
      if pending == [] {
        return None;
      }
      id := Some(pending[0]);
      pending := pending[1..];
    }
  }

  /** `list.remove`, when the id is there. */
  method RemoveFirst(ids: seq<string>, id: string) returns (left: seq<string>)
    ensures left == Without(ids, id)
  {
    var n := 0;
    assert ids[..0] + Without(ids[0..], id) == Without(ids, id) by {
      assert ids[0..] == ids;
    }
    while n < |ids| && ids[n] != id
      invariant 0 <= n <= |ids|
      invariant Without(ids, id) == ids[..n] + Without(ids[n..], id)
    {
      KeptId(ids, id, n);
      hide Without;
      n := n + 1;
    }
    if n < |ids| {
      assert ids[n..][1..] == ids[n + 1..];
      left := ids[..n] + ids[n + 1..];
    } else {
      left := ids;
    }
  }

  lemma KeptId(ids: seq<string>, id: string, n: nat)
    requires n < |ids| && ids[n] != id
    ensures ids[..n] + Without(ids[n..], id) == ids[..n + 1] + Without(ids[n + 1..], id)
  {
    var rest := Without(ids[n + 1..], id);
    assert ids[n..][1..] == ids[n + 1..];
    assert Without(ids[n..], id) == [ids[n]] + rest;
    hide Without;
    assert ids[..n + 1] == ids[..n] + [ids[n]];
    assert ids[..n] + ([ids[n]] + rest) == (ids[..n] + [ids[n]]) + rest;
  }

  // ---------- the replay ----------

  function Linked(e: Entry, stored: MessageType, id: string): HydratedEntry {
    HydratedEntry(FromTool, e.content, stored, NormalizeOptional(e.toolName), NormalizeOptional(e.correlationId), [], Some(id))
  }

  /** What a row contributes to the history, given the linkage before it. */
  function Hydrate(e: Entry, link: Link): seq<HydratedEntry>
    requires !Rejects(link, RowOf(e))
  {
    var stored := StoredType(e).value;
    if IsBundleTrace(e) then
      if Blank(e.content) then [] else [HydratedEntry(FromAssistant, e.content, AssistantResponse, None, None, [], None)]
    else if RowOf(e).Output? then [Linked(e, stored, EffectiveId(link, RowOf(e).callId).value)]
    else
      var calls := if e.role == FromAssistant then EntryCalls(e) else [];
      if e.role == FromAssistant && calls == [] && Blank(e.content) then []
      else [HydratedEntry(e.role, e.content, stored, NormalizeOptional(e.toolName), NormalizeOptional(e.correlationId), calls, None)]
  }

  method NormalizeEntry(e: Entry, index: nat, state: RehydrateToolLinkageState) returns (r: Result<seq<HydratedEntry>>)
    modifies state
    ensures state.State() == After(old(state.State()), RowOf(e))
    ensures r.Ok? <==> !Rejects(old(state.State()), RowOf(e))
    ensures r.Ok? ==> r.value == Hydrate(e, old(state.State()))
  {
    var stored := StoredType(e);
    if stored.None? {
      return Err(UnsupportedType(index));
    }
    if IsBundleTrace(e) {
      return Ok(if Blank(e.content) then [] else [HydratedEntry(FromAssistant, e.content, AssistantResponse, None, None, [], None)]);
    }
    if e.role == FromTool || TypeText(e) == "tool_output" {
      var own := NormalizeOptional(e.toolCallId);
      var callId := if own.Some? then own else NormalizeOptional(e.correlationId);
      var id := state.ConsumeToolOutputToolCallId(callId);
      if id.None? {
        return Err(OutputWithoutCall(index));
      }
      if id.value !in state.known {
        return Err(OutputForUnknownCall(index, id.value));
      }
      return Ok([Linked(e, stored.value, id.value)]);
    }
    var calls := EntryCalls(e);
    if e.role == FromAssistant && calls != [] {
      state.RegisterToolCallIds(CallIds(calls));
    } else if e.role == FromAssistant && Blank(e.content) {
      return Ok([]);
    }
    r := Ok([HydratedEntry(e.role, e.content, stored.value, NormalizeOptional(e.toolName), NormalizeOptional(e.correlationId),
                           if e.role == FromAssistant then calls else [], None)]);
  }

  function Rows(entries: seq<Entry>): (rows: seq<Row>)
    ensures |rows| == |entries|
    ensures forall k :: 0 <= k < |rows| ==> rows[k] == RowOf(entries[k])
  {
    seq(|entries|, k requires 0 <= k < |entries| => RowOf(entries[k]))
  }

  /** The linkage before row `n`. */
  function Scan(rows: seq<Row>, n: nat): Link
    requires n <= |rows|
  {
    if n == 0 then UNLINKED else After(Scan(rows, n - 1), rows[n - 1])
  }

  /** No row is turned away, and no call is left open. */
  predicate Accepted(rows: seq<Row>) {
    (forall k :: 0 <= k < |rows| ==> !Rejects(Scan(rows, k), rows[k])) && Scan(rows, |rows|).pending == []
  }

  function HydrateFirst(entries: seq<Entry>, n: nat): seq<HydratedEntry>
    requires n <= |entries|
    requires forall k :: 0 <= k < n ==> !Rejects(Scan(Rows(entries), k), RowOf(entries[k]))
  {
    if n == 0 then [] else HydrateFirst(entries, n - 1) + Hydrate(entries[n - 1], Scan(Rows(entries), n - 1))
  }

  lemma NoRows(entries: seq<Entry>)
    ensures Scan(Rows(entries), 0) == UNLINKED && HydrateFirst(entries, 0) == []
  {
  }

  lemma OneMoreRow(entries: seq<Entry>, n: nat)
    requires n < |entries|
    ensures Rows(entries)[n] == RowOf(entries[n])
    ensures Scan(Rows(entries), n + 1) == After(Scan(Rows(entries), n), RowOf(entries[n]))
    ensures (forall k :: 0 <= k <= n ==> !Rejects(Scan(Rows(entries), k), RowOf(entries[k]))) ==>
              HydrateFirst(entries, n + 1) == HydrateFirst(entries, n) + Hydrate(entries[n], Scan(Rows(entries), n))
  {
  }

  /** The replay loop: it succeeds exactly on accepted transcripts. */
  method Execute(entries: seq<Entry>) returns (r: Result<seq<HydratedEntry>>)
    ensures r.Ok? <==> Accepted(Rows(entries))
    ensures r.Ok? ==> r.value == HydrateFirst(entries, |entries|)
  {
    hide Hydrate, HydrateFirst, Scan, After, Rejects, RowOf, Rows;
    var state := new RehydrateToolLinkageState();
    var hydrated: seq<HydratedEntry> := [];
    NoRows(entries);
    for n := 0 to |entries|
      invariant state.State() == Scan(Rows(entries), n)
      invariant fresh(state)
      invariant forall k :: 0 <= k < n ==> !Rejects(Scan(Rows(entries), k), RowOf(entries[k]))
      invariant hydrated == HydrateFirst(entries, n)
    {
      OneMoreRow(entries, n);
      var normalized := NormalizeEntry(entries[n], n, state);
      if normalized.Err? {
        assert Rejects(Scan(Rows(entries), n), Rows(entries)[n]);
        return Err(normalized.error);
      }
      hydrated := hydrated + normalized.value;
    }
    if state.pending != [] {
      return Err(UnansweredCalls(state.pending));
    }
    r := Ok(hydrated);
  }

  // ---------- what acceptance means ----------

  predicate Distinct(ids: seq<string>) {
    forall i, j :: 0 <= i < j < |ids| ==> ids[i] != ids[j]
  }

  predicate IssuedAt(rows: seq<Row>, i: nat, id: string) {
    i < |rows| && rows[i].Issues? && id in rows[i].ids && id != ""
  }

  /** Row `k` answers `id`, by naming it or by taking the oldest open call. */
  predicate AnsweredAt(rows: seq<Row>, k: nat, id: string) {
    k < |rows| && rows[k].Output? && EffectiveId(Scan(rows, k), rows[k].callId) == Some(id)
  }

  ghost predicate IssuedBefore(rows: seq<Row>, n: nat, id: string) {
    exists i :: 0 <= i < n && IssuedAt(rows, i, id)
  }

  /** The row from which `id` has been open without a break, if it is open before row `n`. */
  function OpenSince(rows: seq<Row>, n: nat, id: string): Option<nat>
    requires n <= |rows|
  {
    if n == 0 then None
    else if AnsweredAt(rows, n - 1, id) then None
    else
      var before := OpenSince(rows, n - 1, id);
      if before.None? && IssuedAt(rows, n - 1, id) then Some(n - 1) else before
  }

  /** A call is open exactly if it was issued and no later row before `n` answered it. */
  lemma {:induction false} OpenIffUnanswered(rows: seq<Row>, n: nat, id: string)
    requires n <= |rows|
    ensures OpenSince(rows, n, id).Some? <==> exists i :: 0 <= i < n && IssuedAt(rows, i, id) && forall k :: i < k < n ==> !AnsweredAt(rows, k, id)
  {
    if n > 0 {
      OpenIffUnanswered(rows, n - 1, id);
      if AnsweredAt(rows, n - 1, id) {
        assert !IssuedAt(rows, n - 1, id);
      }
    }
  }

  predicate Rising(ids: seq<string>, rank: string -> Option<nat>) {
    && (forall i :: 0 <= i < |ids| ==> rank(ids[i]).Some?)
    && (forall i, j :: 0 <= i < j < |ids| ==> rank(ids[i]).value <= rank(ids[j]).value)
  }

  /** The list holds exactly the ranked ids, once each and in rank order. */
  ghost predicate Tracks(ids: seq<string>, rank: string -> Option<nat>) {
    && Distinct(ids) && Rising(ids, rank)
    && forall id :: rank(id).Some? ==> id in ids
  }

  lemma DropFirstTracks(ids: seq<string>, rank: string -> Option<nat>, rest: string -> Option<nat>)
    requires ids != [] && Tracks(ids, rank)
    requires forall x :: rest(x) == if x == ids[0] then None else rank(x)
    ensures Tracks(ids[1..], rest)
    ensures forall x :: x in ids[1..] ==> rank(ids[0]).Some? && rank(ids[0]).value <= rest(x).value
  {
    assert forall k :: 0 <= k < |ids| - 1 ==> ids[1..][k] == ids[k + 1];
    assert forall x :: x in ids ==> x == ids[0] || x in ids[1..];
  }

  lemma PrependTracks(first: string, ids: seq<string>, rest: string -> Option<nat>, rank: string -> Option<nat>)
    requires Tracks(ids, rest) && rest(first).None? && rank(first).Some?
    requires forall x :: x != first ==> rank(x) == rest(x)
    requires forall x :: x in ids ==> rank(first).value <= rest(x).value
    ensures Tracks([first] + ids, rank)
  {
    assert forall k :: 1 <= k <= |ids| ==> ([first] + ids)[k] == ids[k - 1];
  }

  lemma {:induction false} WithoutTracks(ids: seq<string>, id: string, rank: string -> Option<nat>,
          after: string -> Option<nat>)
    requires Tracks(ids, rank)
    requires forall x :: after(x) == if x == id then None else rank(x)
    ensures Tracks(Without(ids, id), after)
    ensures forall x :: x in Without(ids, id) ==> x in ids
  {
    if ids != [] && ids[0] == id {
      DropFirstTracks(ids, rank, after);
    } else if ids != [] {
      var rest := x => if x == ids[0] then None else rank(x);
      var afterRest := x => if x == ids[0] then None else after(x);
      DropFirstTracks(ids, rank, rest);
      WithoutTracks(ids[1..], id, rest, afterRest);
      hide Tracks;
      PrependTracks(ids[0], Without(ids[1..], id), afterRest, after);
    }
  }

  lemma RegisterTracks(link: Link, id: string, at: nat, rank: string -> Option<nat>, after: string -> Option<nat>)
    requires Tracks(link.pending, rank)
    requires forall x :: rank(x).Some? ==> rank(x).value <= at
    requires forall x :: after(x) == if rank(x).None? && x == id && id != "" then Some(at) else rank(x)
    ensures Tracks(Register(link, id).pending, after)
  {
  }

  lemma {:induction false} RegisterFirstTracks(link: Link, ids: seq<string>, n: nat, at: nat,
          rank: string -> Option<nat>, after: string -> Option<nat>)
    requires n <= |ids| && Tracks(link.pending, rank)
    requires forall x :: rank(x).Some? ==> rank(x).value <= at
    requires forall x :: after(x) == Opened(rank, ids, n, at, x)
    ensures Tracks(RegisterFirst(link, ids, n).pending, after)
  {
    hide Tracks, Register;
    if n > 0 {
      var mid := x => Opened(rank, ids, n - 1, at, x);
      RegisterFirstTracks(link, ids, n - 1, at, rank, mid);
      forall x: string
        ensures mid(x).Some? ==> mid(x).value <= at
        ensures after(x) == if mid(x).None? && x == ids[n - 1] && ids[n - 1] != "" then Some(at) else mid(x)
      {
        OpenedStep(rank, ids, n, at, x);
      }
      hide Opened;
      RegisterTracks(RegisterFirst(link, ids, n - 1), ids[n - 1], at, mid, after);
    } else {
      TracksAlike(link.pending, rank, after);
    }
  }

  /** The rank of an id once the first `n` ids have been registered at `at`. */
  function Opened(rank: string -> Option<nat>, ids: seq<string>, n: nat, at: nat, id: string): Option<nat>
    requires n <= |ids|
  {
    if rank(id).None? && id in ids[..n] && id != "" then Some(at) else rank(id)
  }

  lemma OpenedStep(rank: string -> Option<nat>, ids: seq<string>, n: nat, at: nat, id: string)
    requires 0 < n <= |ids|
    ensures var mid := Opened(rank, ids, n - 1, at, id);
            Opened(rank, ids, n, at, id) == if mid.None? && id == ids[n - 1] && id != "" then Some(at) else mid
  {
    assert ids[..n] == ids[..n - 1] + [ids[n - 1]];
  }

  lemma TracksAlike(ids: seq<string>, rank: string -> Option<nat>, same: string -> Option<nat>)
    requires Tracks(ids, rank) && forall x :: same(x) == rank(x)
    ensures Tracks(ids, same)
  {
  }

  lemma {:induction false} RegisterFirstKnows(link: Link, ids: seq<string>, n: nat, id: string)
    requires n <= |ids|
    ensures id in RegisterFirst(link, ids, n).known <==> id in link.known || (id in ids[..n] && id != "")
  {
    if n > 0 {
      RegisterFirstKnows(link, ids, n - 1, id);
      assert ids[..n] == ids[..n - 1] + [ids[n - 1]];
    }
  }

  lemma {:induction false} OpenIsEarlier(rows: seq<Row>, n: nat, id: string)
    requires n <= |rows|
    ensures var since := OpenSince(rows, n, id);
            since.Some? ==> since.value < n && IssuedAt(rows, since.value, id)
  {
    if n > 0 {
      OpenIsEarlier(rows, n - 1, id);
    }
  }

  /** Pending ids are the open calls, each once, in the order in which they were opened. */
  lemma {:induction false} PendingIsOpen(rows: seq<Row>, n: nat)
    requires n <= |rows|
    ensures Tracks(Scan(rows, n).pending, id => OpenSince(rows, n, id))
  {
    if n > 0 {
      PendingIsOpen(rows, n - 1);
      StepTracks(rows, n, id => OpenSince(rows, n - 1, id), id => OpenSince(rows, n, id));
    }
  }

  lemma StepTracks(rows: seq<Row>, n: nat, rank: string -> Option<nat>, after: string -> Option<nat>)
    requires 0 < n <= |rows|
    requires forall x :: rank(x) == OpenSince(rows, n - 1, x) && after(x) == OpenSince(rows, n, x)
    requires Tracks(Scan(rows, n - 1).pending, rank)
    ensures Tracks(Scan(rows, n).pending, after)
  {
    var link := Scan(rows, n - 1);
    forall x: string
      ensures rank(x).Some? ==> rank(x).value <= n - 1
    {
      OpenIsEarlier(rows, n - 1, x);
    }
    hide Tracks, RegisterFirst, Without;
    match rows[n - 1]
    case Issues(ids) =>
      assert ids[..|ids|] == ids;
      forall x: string
        ensures after(x) == Opened(rank, ids, |ids|, n - 1, x)
      {
        assert rank(x) == OpenSince(rows, n - 1, x) && after(x) == OpenSince(rows, n, x);
      }
      RegisterFirstTracks(link, ids, |ids|, n - 1, rank, after);
    case Output(callId) =>
      var id := EffectiveId(link, callId);
      if id.Some? {
        WithoutTracks(link.pending, id.value, rank, after);
      } else {
        TracksAlike(link.pending, rank, after);
      }
    case _ =>
      TracksAlike(link.pending, rank, after);
  }

  /** An id is pending exactly while it is open. */
  lemma PendingIffOpen(rows: seq<Row>, n: nat, id: string)
    requires n <= |rows|
    ensures id in Scan(rows, n).pending <==> OpenSince(rows, n, id).Some?
  {
    PendingIsOpen(rows, n);
    var rank := id => OpenSince(rows, n, id);
    var pending := Scan(rows, n).pending;
    hide Scan, OpenSince;
    if id in pending {
      var k :| 0 <= k < |pending| && pending[k] == id;
      assert rank(pending[k]).Some?;
    } else {
      assert rank(id).Some? ==> id in pending;
    }
  }

  /** Known ids are exactly those an earlier row issued. */
  lemma {:induction false} KnownIsIssued(rows: seq<Row>, n: nat, id: string)
    requires n <= |rows|
    ensures id in Scan(rows, n).known <==> IssuedBefore(rows, n, id)
  {
    if n > 0 {
      KnownIsIssued(rows, n - 1, id);
      if rows[n - 1].Issues? {
        var ids := rows[n - 1].ids;
        RegisterFirstKnows(Scan(rows, n - 1), ids, |ids|, id);
        assert ids[..|ids|] == ids;
      }
      assert IssuedBefore(rows, n, id) <==> IssuedBefore(rows, n - 1, id) || IssuedAt(rows, n - 1, id);
    }
  }

  /** Open calls are known ones. */
  lemma PendingIsKnown(rows: seq<Row>, n: nat)
    requires n <= |rows|
    ensures Distinct(Scan(rows, n).pending)
    ensures forall id :: id in Scan(rows, n).pending ==> id in Scan(rows, n).known
  {
    PendingIsOpen(rows, n);
    forall id | id in Scan(rows, n).pending
      ensures id in Scan(rows, n).known
    {
      PendingIffOpen(rows, n, id);
      KnownIsIssued(rows, n, id);
      OpenIsEarlier(rows, n, id);
    }
  }

  /** A row without an id answers the call that has been open longest. */
  lemma NamelessOutputTakesOldest(rows: seq<Row>, n: nat, id: string)
    requires n < |rows| && rows[n] == Output(None) && AnsweredAt(rows, n, id)
    ensures var since := OpenSince(rows, n, id);
            since.Some? && forall x :: OpenSince(rows, n, x).Some? ==> since.value <= OpenSince(rows, n, x).value
  {
    PendingIsOpen(rows, n);
    var pending := Scan(rows, n).pending;
    forall x: string | OpenSince(rows, n, x).Some?
      ensures OpenSince(rows, n, id).value <= OpenSince(rows, n, x).value
    {
      PendingIffOpen(rows, n, x);
      var j :| 0 <= j < |pending| && pending[j] == x;
      assert j > 0 ==> OpenSince(rows, n, pending[0]).value <= OpenSince(rows, n, pending[j]).value;
    }
  }

  ghost predicate AnsweredLater(rows: seq<Row>, i: nat, id: string) {
    exists k :: i < k < |rows| && AnsweredAt(rows, k, id)
  }

  /** No output names a call that was not issued before it, and none goes without a call. */
  ghost predicate OutputsHaveCalls(rows: seq<Row>) {
    && (forall k :: 0 <= k < |rows| ==> rows[k] != Unsupported)
    && (forall k :: 0 <= k < |rows| && rows[k].Output? && rows[k].callId.Some? ==> IssuedBefore(rows, k, rows[k].callId.value))
    && (forall k :: 0 <= k < |rows| && rows[k] == Output(None) ==> exists id :: OpenSince(rows, k, id).Some?)
  }

  ghost predicate CallsHaveOutputs(rows: seq<Row>) {
    forall i: nat, id: string :: IssuedAt(rows, i, id) ==> AnsweredLater(rows, i, id)
  }

  /** Exactly the transcripts whose outputs all have calls and whose calls all have outputs are accepted. */
  lemma AcceptedIffLinked(rows: seq<Row>)
    ensures Accepted(rows) <==> OutputsHaveCalls(rows) && CallsHaveOutputs(rows)
  {
    forall k | 0 <= k < |rows|
      ensures Rejects(Scan(rows, k), rows[k]) <==>
        || rows[k].Unsupported?
        || (rows[k].Output? && rows[k].callId.Some? && !IssuedBefore(rows, k, rows[k].callId.value))
        || (rows[k] == Output(None) && !exists id :: OpenSince(rows, k, id).Some?)
    {
      RejectedIffUnmatched(rows, k);
    }
    NothingPendingIffAnswered(rows);
    hide Rejects, Scan;
  }

  lemma RejectedIffUnmatched(rows: seq<Row>, k: nat)
    requires k < |rows|
    ensures Rejects(Scan(rows, k), rows[k]) <==>
      || rows[k].Unsupported?
      || (rows[k].Output? && rows[k].callId.Some? && !IssuedBefore(rows, k, rows[k].callId.value))
      || (rows[k] == Output(None) && !exists id :: OpenSince(rows, k, id).Some?)
  {
    if rows[k].Output? && rows[k].callId.Some? {
      KnownIsIssued(rows, k, rows[k].callId.value);
    } else if rows[k].Output? {
      PendingIsKnown(rows, k);
      var pending := Scan(rows, k).pending;
      if pending != [] {
        PendingIffOpen(rows, k, pending[0]);
      } else {
        forall id
          ensures OpenSince(rows, k, id).None?
        {
          PendingIffOpen(rows, k, id);
        }
      }
    }
  }

  lemma NothingPendingIffAnswered(rows: seq<Row>)
    ensures Scan(rows, |rows|).pending == [] <==> CallsHaveOutputs(rows)
  {
    var pending := Scan(rows, |rows|).pending;
    if pending != [] {
      PendingIffOpen(rows, |rows|, pending[0]);
      OpenIffUnanswered(rows, |rows|, pending[0]);
      var i :| 0 <= i < |rows| && IssuedAt(rows, i, pending[0]) && forall k :: i < k < |rows| ==> !AnsweredAt(rows, k, pending[0]);
      assert !AnsweredLater(rows, i, pending[0]);
    } else {
      forall i: nat, id: string | IssuedAt(rows, i, id)
        ensures AnsweredLater(rows, i, id)
      {
        OpenIffUnanswered(rows, |rows|, id);
        PendingIffOpen(rows, |rows|, id);
      }
    }
  }

  /** When every output names its call, nothing but the ids in the transcript decides. */
  lemma NamedTranscriptAccepted(rows: seq<Row>)
    requires forall k :: 0 <= k < |rows| && rows[k].Output? ==> rows[k].callId.Some?
    ensures Accepted(rows) <==>
      && (forall k :: 0 <= k < |rows| ==> rows[k] != Unsupported)
      && (forall k :: 0 <= k < |rows| && rows[k].Output? ==> IssuedBefore(rows, k, rows[k].callId.value))
      && (forall i: nat, id: string :: IssuedAt(rows, i, id) ==> exists k :: i < k < |rows| && rows[k] == Output(Some(id)))
  {
    forall i: nat, id: string | IssuedAt(rows, i, id)
      ensures AnsweredLater(rows, i, id) <==> exists k :: i < k < |rows| && rows[k] == Output(Some(id))
    {
      AnsweredByName(rows, i, id);
    }
    hide Accepted, AnsweredLater, IssuedAt;
    AcceptedIffLinked(rows);
  }

  lemma AnsweredByName(rows: seq<Row>, i: nat, id: string)
    requires forall k :: 0 <= k < |rows| && rows[k].Output? ==> rows[k].callId.Some?
    ensures AnsweredLater(rows, i, id) <==> exists k :: i < k < |rows| && rows[k] == Output(Some(id))
  {
    assert forall k :: 0 <= k < |rows| ==> (AnsweredAt(rows, k, id) <==> rows[k] == Output(Some(id)));
  }

  // ---------- what the replay produces ----------

  /** A hydrated entry read as a transcript row. */
  function OutRow(h: HydratedEntry): Row {
    if h.toolCallId.Some? then Output(h.toolCallId) else if h.toolCalls != [] then Issues(CallIds(h.toolCalls)) else Inert
  }

  function OutRows(entries: seq<HydratedEntry>): (rows: seq<Row>)
    ensures |rows| == |entries| && forall k :: 0 <= k < |rows| ==> rows[k] == OutRow(entries[k])
  {
    seq(|entries|, k requires 0 <= k < |entries| => OutRow(entries[k]))
  }

  predicate AcceptedFirst(rows: seq<Row>, n: nat)
    requires n <= |rows|
  {
    forall k :: 0 <= k < n ==> !Rejects(Scan(rows, k), rows[k])
  }

  lemma {:induction false} ScanPrefix(a: seq<Row>, b: seq<Row>, n: nat)
    requires n <= |a|
    ensures Scan(a + b, n) == Scan(a, n)
    decreases n
  {
    hide After;
    if n > 0 {
      ScanPrefix(a, b, n - 1);
      assert (a + b)[n - 1] == a[n - 1];
    }
  }

  lemma AppendedRow(rows: seq<Row>, row: Row)
    requires AcceptedFirst(rows, |rows|) && !Rejects(Scan(rows, |rows|), row)
    ensures var more := rows + [row];
            AcceptedFirst(more, |more|) && Scan(more, |more|) == After(Scan(rows, |rows|), row)
  {
    hide Rejects, After;
    var more := rows + [row];
    forall k | 0 <= k < |more|
      ensures !Rejects(Scan(more, k), more[k])
    {
      ScanPrefix(rows, [row], k);
    }
    ScanPrefix(rows, [row], |rows|);
  }

  /** A row contributes at most one entry, and one that means the same for the linkage, with its id filled in. */
  lemma HydratedMeansTheSame(e: Entry, link: Link)
    requires !Rejects(link, RowOf(e))
    ensures var out := Hydrate(e, link);
            && (out == [] ==> After(link, RowOf(e)) == link)
            && (out != [] ==> |out| == 1 && After(link, OutRow(out[0])) == After(link, RowOf(e)) && !Rejects(link, OutRow(out[0])))
            && (RowOf(e).Output? ==> out != [] && OutRow(out[0]) == Output(EffectiveId(link, RowOf(e).callId)))
  {
    hide RegisterFirst, Without, NormalizeCalls, StoredType;
  }

  lemma OutRowsAppend(entries: seq<HydratedEntry>, one: HydratedEntry)
    ensures OutRows(entries + [one]) == OutRows(entries) + [OutRow(one)]
  {
    hide OutRow;
  }

  lemma HydratedStep(before: seq<HydratedEntry>, e: Entry, link: Link)
    requires AcceptedFirst(OutRows(before), |before|) && Scan(OutRows(before), |before|) == link && !Rejects(link, RowOf(e))
    ensures var out := OutRows(before + Hydrate(e, link));
            AcceptedFirst(out, |out|) && Scan(out, |out|) == After(link, RowOf(e))
  {
    HydratedMeansTheSame(e, link);
    var one := Hydrate(e, link);
    hide Rejects, After, Hydrate, RowOf, OutRow, OutRows, AcceptedFirst, Scan;
    if one == [] {
      assert before + one == before;
    } else {
      assert one == [one[0]];
      OutRowsAppend(before, one[0]);
      AppendedRow(OutRows(before), OutRow(one[0]));
    }
  }

  lemma {:induction false} HydratedScan(entries: seq<Entry>, n: nat)
    requires n <= |entries| && forall k :: 0 <= k < n ==> !Rejects(Scan(Rows(entries), k), RowOf(entries[k]))
    ensures var out := OutRows(HydrateFirst(entries, n));
            AcceptedFirst(out, |out|) && Scan(out, |out|) == Scan(Rows(entries), n)
    decreases n
  {
    hide Rejects, After, Hydrate, RowOf, OutRow, OutRows, AcceptedFirst, HydrateFirst, Scan, Rows;
    if n > 0 {
      HydratedScan(entries, n - 1);
      OneMoreRow(entries, n - 1);
      HydratedStep(HydrateFirst(entries, n - 1), entries[n - 1], Scan(Rows(entries), n - 1));
    } else {
      HydratedStart(entries);
    }
  }

  lemma HydratedStart(entries: seq<Entry>)
    ensures var out := OutRows(HydrateFirst(entries, 0));
            AcceptedFirst(out, |out|) && Scan(out, |out|) == Scan(Rows(entries), 0)
  {
    assert OutRows([]) == [];
  }

  /** A transcript that is replayed becomes a history in which every output names its call and every call is answered. */
  lemma ReplayedHistoryIsLinked(entries: seq<Entry>)
    requires Accepted(Rows(entries))
    ensures var out := OutRows(HydrateFirst(entries, |entries|));
            && Accepted(out)
            && forall k :: 0 <= k < |out| && out[k].Output? ==> out[k].callId.Some?
  {
    HydratedScan(entries, |entries|);
  }
}
