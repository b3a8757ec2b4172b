/** Sampling a provider: a transient failure is retried once, as long as nothing has been shown. */
module ProviderRetry {
  import opened Text

  const MAX_ATTEMPTS := 2
  const TRANSIENT_MARKERS: seq<string> := [
    "connection timeout", "timed out", "connection reset", "disconnect/reset before headers", "reset before headers", "upstream connect error"]

  /** An error with its metadata; `contentStatus` is the HTTP status its text mentions. */
  datatype ProviderError = ProviderError(
    content: string,
    partialResponse: Option<bool>,
    retryable: Option<bool>,
    transient: bool,
    statusCode: Option<int>,
    contentStatus: Option<int>,
    errorKind: string)

  datatype StreamEvent = Chunk(text: string) | Thinking | WebSearch | Error(error: ProviderError) | Full(text: string) | Unsupported

  datatype Fault = RateLimit | Api(error: ProviderError) | Other(text: string)

  /** What one attempt meets: a stream or a complete text, then possibly a fault, and a fault while tokens are counted. */
  datatype Attempt = Attempt(native: bool, text: string, events: seq<StreamEvent>, fault: Option<Fault>, counting: Option<Fault>)

  datatype Yield = Shown(text: string) | Thought | Searched | Failure(text: string) | FullResponse(text: string) | TokenCount

  datatype Next = Going | Retry | Failed | Completed | Raised

  /** An attempt under way: the text so far, what was yielded, and whether any of it can be seen. */
  datatype Progress = Progress(text: string, shown: seq<Yield>, emitted: bool, next: Next)

  // ---------- the retry policy ----------

  predicate IsTransient(e: ProviderError) {
    var status := if e.statusCode.Some? then e.statusCode else e.contentStatus;
    var kind := Lower(Strip(e.errorKind));
    || (status.Some? && status.value in {502, 503, 504})
    || (kind == "transient_network" && e.retryable == Some(true))
    || (e.retryable == Some(true) && e.transient && kind in {"server_error", "transient_network", "rate_limit"})
    || exists k :: 0 <= k < |TRANSIENT_MARKERS| && Contains(Lower(e.content), TRANSIENT_MARKERS[k])
  }

  predicate ShouldRetry(e: ProviderError, attempt: nat, emitted: bool) {
    attempt < MAX_ATTEMPTS && !emitted && e.partialResponse != Some(true) && e.retryable != Some(false) && IsTransient(e)
  }

  /** The error's own metadata wins over what is known about the text so far. */
  function WithStreamState(e: ProviderError, text: string): ProviderError {
    if e.partialResponse.Some? then e else e.(partialResponse := Some(text != ""))
  }

  // ---------- one attempt ----------

  function Show(p: Progress, y: Yield): Progress {
    p.(shown := p.shown + [y])
  }

  function AfterError(p: Progress, e: ProviderError, attempt: nat, otherwise: Next): Progress {
    if ShouldRetry(WithStreamState(e, p.text), attempt, p.emitted) then p.(next := Retry)
    else Show(p, Failure(e.content)).(next := otherwise)
  }

  function AfterFault(p: Progress, f: Fault, attempt: nat): Progress {
    match f
    case RateLimit => Show(p, Failure("Rate limit exceeded. Please wait.")).(next := Raised)
    case Api(e) => AfterError(p, e, attempt, Raised)
    case Other(text) => Show(p, Failure("LLM error: " + text)).(next := Raised)
  }

  function AfterEvent(p: Progress, e: StreamEvent, attempt: nat): Progress {
    match e
    case Chunk(text) => Show(p, Shown(text)).(text := p.text + text, emitted := true)
    case Thinking => Show(p, Thought).(emitted := true)
    case WebSearch => Show(p, Searched).(emitted := true)
    case Full(text) => p.(text := text)
    case Error(error) => AfterError(p, error, attempt, Failed)
    case Unsupported => AfterFault(p, Other("Unsupported stream event type from LLM client"), attempt)
  }

  /** The first `n` events; nothing more is read once the attempt has ended. */
  function Stream(events: seq<StreamEvent>, n: nat, attempt: nat): Progress
    requires n <= |events|
  {
    if n == 0 then Progress("", [], false, Going)
    else
      var before := Stream(events, n - 1, attempt);
      if before.next == Going then AfterEvent(before, events[n - 1], attempt) else before
  }

  function NativeText(text: string): Progress {
    if text == "" then Progress("", [], false, Going) else Progress(text, [Shown(text)], true, Going)
  }

  function Received(a: Attempt, attempt: nat): Progress {
    if a.native then (if a.fault.Some? then AfterFault(NativeText(""), a.fault.value, attempt) else NativeText(a.text))
    else
      var p := Stream(a.events, |a.events|, attempt);
      if p.next == Going && a.fault.Some? then AfterFault(p, a.fault.value, attempt) else p
  }

  function Sampled(a: Attempt, attempt: nat): Progress {
    var p := Received(a, attempt);
    if p.next != Going then p
    else
      var full := Show(p, FullResponse(p.text));
      if a.counting.Some? then AfterFault(full, a.counting.value, attempt) else Show(full, TokenCount).(next := Completed)
  }

  // ---------- all attempts ----------

  datatype Outcome = Outcome(shown: seq<Yield>, attempts: nat, next: Next)

  function Attempts(script: nat -> Attempt, attempt: nat): Outcome
    requires 1 <= attempt <= MAX_ATTEMPTS
    decreases MAX_ATTEMPTS - attempt
  {
    var p := Sampled(script(attempt), attempt);
    if p.next == Retry && attempt < MAX_ATTEMPTS then
      var rest := Attempts(script, attempt + 1);
      Outcome(p.shown + rest.shown, rest.attempts, rest.next)
    else Outcome(p.shown, attempt, p.next)
  }

  method ReadStream(events: seq<StreamEvent>, attempt: nat) returns (p: Progress)
    ensures p == Stream(events, |events|, attempt)
  {
    hide IsTransient;
    p := Progress("", [], false, Going);
    var n := 0;
    while n < |events| && p.next == Going
      invariant 0 <= n <= |events|
      invariant p == Stream(events, n, attempt)
    {
      p := AfterEvent(p, events[n], attempt);
      n := n + 1;
    }
    StoppedStays(events, n, attempt);
  }

  lemma {:induction false} StoppedStays(events: seq<StreamEvent>, n: nat, attempt: nat)
    requires n <= |events| && (n == |events| || Stream(events, n, attempt).next != Going)
    ensures Stream(events, |events|, attempt) == Stream(events, n, attempt)
    decreases |events| - n
  {
    if n < |events| {
      StoppedStays(events, n + 1, attempt);
    }
  }

  method GetResponse(script: nat -> Attempt) returns (r: Outcome)
    ensures r == Attempts(script, 1)
  {
    hide IsTransient, Sampled;
    var shown: seq<Yield> := [];
    var attempt := 1;
    ghost var all := Attempts(script, 1);
    while true
      invariant 1 <= attempt <= MAX_ATTEMPTS
      invariant var rest := Attempts(script, attempt); all == Outcome(shown + rest.shown, rest.attempts, rest.next)
      decreases MAX_ATTEMPTS - attempt
    {
      var p := Sample(script(attempt), attempt);
      if p.next != Retry || attempt >= MAX_ATTEMPTS {
        return Outcome(shown + p.shown, attempt, p.next);
      }
      assert (shown + p.shown) + Attempts(script, attempt + 1).shown == shown + (p.shown + Attempts(script, attempt + 1).shown);
      shown := shown + p.shown;
      attempt := attempt + 1;
    }
  }

  method Sample(a: Attempt, attempt: nat) returns (p: Progress)
    ensures p == Sampled(a, attempt)
  {
    hide AfterFault, Stream;
    if a.native {
      if a.fault.Some? {
        p := AfterFault(NativeText(""), a.fault.value, attempt);
      } else {
        p := NativeText(a.text);
      }
    } else {
      p := ReadStream(a.events, attempt);
      if p.next == Going && a.fault.Some? {
        p := AfterFault(p, a.fault.value, attempt);
      }
    }
    if p.next != Going {
      return;
    }
    p := Show(p, FullResponse(p.text));
    if a.counting.Some? {
      p := AfterFault(p, a.counting.value, attempt);
    } else {
      p := Show(p, TokenCount).(next := Completed);
    }
  }

  // ---------- what is retried ----------

  predicate IsVisible(y: Yield) {
    y.Shown? || y.Thought? || y.Searched?
  }

  predicate Invisible(shown: seq<Yield>) {
    forall k :: 0 <= k < |shown| ==> !IsVisible(shown[k])
  }

  /** The text of all chunks yielded. */
  function ChunkText(shown: seq<Yield>): string {
    if shown == [] then "" else ChunkText(shown[..|shown| - 1]) + if shown[|shown| - 1].Shown? then shown[|shown| - 1].text else ""
  }

  predicate NoFullEvents(a: Attempt) {
    forall k :: 0 <= k < |a.events| ==> !a.events[k].Full?
  }

  lemma ShowOne(p: Progress, y: Yield)
    ensures ChunkText(Show(p, y).shown) == ChunkText(p.shown) + if y.Shown? then y.text else ""
    ensures Invisible(Show(p, y).shown) <==> Invisible(p.shown) && !IsVisible(y)
  {
    var shown := p.shown + [y];
    assert shown[..|shown| - 1] == p.shown;
    assert Invisible(shown) ==> Invisible(p.shown) by {
      assert forall k :: 0 <= k < |p.shown| ==> shown[k] == p.shown[k];
    }
    assert shown[|p.shown|] == y;
  }

  /** While an attempt goes on, its flag tells whether anything can be seen, and its text is what was shown. */
  predicate Tracks(p: Progress, plain: bool) {
    && (p.emitted <==> !Invisible(p.shown))
    && (plain ==> p.text == ChunkText(p.shown))
  }

  lemma FaultTracks(p: Progress, f: Fault, attempt: nat, plain: bool)
    requires Tracks(p, plain)
    ensures var r := AfterFault(p, f, attempt);
            && Tracks(r, plain) && r.next in {Retry, Raised}
            && (r.next == Retry ==> attempt < MAX_ATTEMPTS && Invisible(r.shown))
  {
    hide IsTransient, ChunkText, Invisible, Strip, Lower;
    match f
    case RateLimit => ShowOne(p, Failure("Rate limit exceeded. Please wait."));
    case Api(e) => ShowOne(p, Failure(e.content));
    case Other(text) => ShowOne(p, Failure("LLM error: " + text));
  }

  lemma EventTracks(p: Progress, e: StreamEvent, attempt: nat, plain: bool)
    requires Tracks(p, plain) && p.next == Going && (plain ==> !e.Full?)
    ensures var r := AfterEvent(p, e, attempt);
            && Tracks(r, plain) && r.next in {Going, Retry, Failed, Raised}
            && (r.next == Retry ==> attempt < MAX_ATTEMPTS && Invisible(r.shown))
  {
    hide IsTransient, ChunkText, Invisible;
    match e
    case Chunk(text) => ShowOne(p, Shown(text));
    case Thinking => ShowOne(p, Thought);
    case WebSearch => ShowOne(p, Searched);
    case Full(text) =>
    case Error(error) => ShowOne(p, Failure(error.content));
    case Unsupported => FaultTracks(p, Other("Unsupported stream event type from LLM client"), attempt, plain);
  }

  lemma {:induction false} StreamTracks(events: seq<StreamEvent>, n: nat, attempt: nat, plain: bool)
    requires n <= |events| && (plain ==> forall k :: 0 <= k < n ==> !events[k].Full?)
    ensures var p := Stream(events, n, attempt);
            && Tracks(p, plain) && p.next in {Going, Retry, Failed, Raised}
            && (p.next == Retry ==> attempt < MAX_ATTEMPTS && Invisible(p.shown))
  {
    if n > 0 {
      StreamTracks(events, n - 1, attempt, plain);
      var before := Stream(events, n - 1, attempt);
      hide Tracks, AfterEvent, Invisible;
      if before.next == Going {
        EventTracks(before, events[n - 1], attempt, plain);
      }
    }
  }

  lemma ReceivedTracks(a: Attempt, attempt: nat, plain: bool)
    requires plain ==> NoFullEvents(a)
    ensures var p := Received(a, attempt);
            && Tracks(p, plain) && p.next in {Going, Retry, Failed, Raised}
            && (p.next == Retry ==> attempt < MAX_ATTEMPTS && Invisible(p.shown))
  {
    assert ChunkText([]) == "";
    if a.native {
      ShowOne(Progress("", [], false, Going), Shown(a.text));
      assert [] + [Shown(a.text)] == [Shown(a.text)];
      if a.fault.Some? {
        FaultTracks(NativeText(""), a.fault.value, attempt, plain);
      }
    } else {
      StreamTracks(a.events, |a.events|, attempt, plain);
      var p := Stream(a.events, |a.events|, attempt);
      hide Tracks, AfterFault, Stream, Invisible;
      if p.next == Going && a.fault.Some? {
        FaultTracks(p, a.fault.value, attempt, plain);
      }
    }
  }

  /** An attempt is followed by another only if nothing of it can be seen and the budget allows it. */
  lemma RetriedOnlyUnseen(a: Attempt, attempt: nat)
    ensures Sampled(a, attempt).next == Retry ==> attempt < MAX_ATTEMPTS && Invisible(Sampled(a, attempt).shown)
  {
    ReceivedTracks(a, attempt, false);
    var p := Received(a, attempt);
    hide Received, AfterFault, Invisible;
    if p.next == Going {
      ShowOne(p, FullResponse(p.text));
      if a.counting.Some? {
        FaultTracks(Show(p, FullResponse(p.text)), a.counting.value, attempt, false);
      }
    }
  }

  /** The run ended with a response, and its text is what the user has seen of it. */
  predicate RespondsWith(shown: seq<Yield>, text: string) {
    && |shown| >= 2 && shown[|shown| - 2..] == [FullResponse(text), TokenCount]
    && text == ChunkText(shown[..|shown| - 2])
  }

  lemma CompletedShowsItsText(a: Attempt, attempt: nat)
    requires NoFullEvents(a) && Sampled(a, attempt).next == Completed
    ensures RespondsWith(Sampled(a, attempt).shown, Sampled(a, attempt).text)
  {
    ReceivedTracks(a, attempt, true);
    var p := Received(a, attempt);
    hide Received, ChunkText;
    assert (p.shown + [FullResponse(p.text)]) + [TokenCount] == p.shown + [FullResponse(p.text), TokenCount];
  }

  lemma {:induction false} ChunkTextAdds(a: seq<Yield>, b: seq<Yield>)
    ensures ChunkText(a + b) == ChunkText(a) + ChunkText(b)
  {
    if b == [] {
      assert a + b == a;
    } else {
      assert (a + b)[..|a + b| - 1] == a + b[..|b| - 1];
      ChunkTextAdds(a, b[..|b| - 1]);
    }
  }

  lemma {:induction false} InvisibleHasNoText(shown: seq<Yield>)
    requires Invisible(shown)
    ensures ChunkText(shown) == ""
  {
    if shown != [] {
      InvisibleHasNoText(shown[..|shown| - 1]);
    }
  }

  lemma RespondsAfter(before: seq<Yield>, shown: seq<Yield>, text: string)
    requires Invisible(before) && RespondsWith(shown, text)
    ensures RespondsWith(before + shown, text)
  {
    InvisibleHasNoText(before);
    ChunkTextAdds(before, shown[..|shown| - 2]);
    var all := before + shown;
    assert all[..|all| - 2] == before + shown[..|shown| - 2];
    assert all[|all| - 2..] == shown[|shown| - 2..];
  }

  /**
   * Over at most two attempts, and with no attempt after anything could be seen, the text of the response is exactly
   * what the chunks have shown of it.
   */
  lemma {:induction false} ResponseIsWhatWasShown(script: nat -> Attempt, attempt: nat)
    requires 1 <= attempt <= MAX_ATTEMPTS
    ensures var r := Attempts(script, attempt);
            && r.attempts <= MAX_ATTEMPTS && r.next != Retry && r.next != Going
            && (r.next == Failed || r.next == Raised ==> EndsInFailure(r.shown))
            && (r.attempts > attempt ==> Invisible(Sampled(script(attempt), attempt).shown))
            && ((forall k :: NoFullEvents(script(k))) && r.next == Completed ==> exists text :: RespondsWith(r.shown, text))
    decreases MAX_ATTEMPTS - attempt
  {
    var p := Sampled(script(attempt), attempt);
    RetriedOnlyUnseen(script(attempt), attempt);
    SampledEnds(script(attempt), attempt);
    if p.next == Retry {
      ResponseIsWhatWasShown(script, attempt + 1);
      var rest := Attempts(script, attempt + 1);
      hide Sampled, Invisible, RespondsWith, NoFullEvents;
      if (forall k :: NoFullEvents(script(k))) && rest.next == Completed {
        var text :| RespondsWith(rest.shown, text);
        RespondsAfter(p.shown, rest.shown, text);
      }
    } else if (forall k :: NoFullEvents(script(k))) && p.next == Completed {
      CompletedShowsItsText(script(attempt), attempt);
    }
  }

  predicate EndsInFailure(shown: seq<Yield>) {
    shown != [] && shown[|shown| - 1].Failure?
  }

  /** An attempt that ends for good without a response has said so last. */
  predicate Explained(p: Progress) {
    p.next == Failed || p.next == Raised ==> EndsInFailure(p.shown)
  }

  lemma {:induction false} StreamIsExplained(events: seq<StreamEvent>, n: nat, attempt: nat)
    requires n <= |events|
    ensures Explained(Stream(events, n, attempt))
  {
    hide IsTransient;
    if n > 0 {
      StreamIsExplained(events, n - 1, attempt);
    }
  }

  lemma SampledEnds(a: Attempt, attempt: nat)
    ensures Sampled(a, attempt).next != Going && Explained(Sampled(a, attempt))
  {
    hide IsTransient, Stream;
    StreamIsExplained(a.events, |a.events|, attempt);
  }

  // ---------- what becomes of an attempt ----------

  /** The gateway's own status, or else the one its text mentions, says that the provider is out of reach for a moment. */
  predicate OutOfReach(e: ProviderError) {
    if e.statusCode.Some? then e.statusCode.value in {502, 503, 504} else e.contentStatus.Some? && e.contentStatus.value in {502, 503, 504}
  }

  predicate SpeaksOfConnection(text: string) {
    || Contains(text, "connection timeout") || Contains(text, "timed out") || Contains(text, "connection reset")
    || Contains(text, "disconnect/reset before headers") || Contains(text, "reset before headers") || Contains(text, "upstream connect error")
  }

  /** An error worth another attempt: none was made yet, nothing was shown or received, and the trouble may pass. */
  predicate Retries(e: ProviderError, attempt: nat, text: string, seen: bool) {
    var kind := Lower(Strip(e.errorKind));
    && attempt <= 1 && !seen
    && (if e.partialResponse.Some? then !e.partialResponse.value else text == "")
    && e.retryable != Some(false)
    && (|| OutOfReach(e) || SpeaksOfConnection(Lower(e.content))
        || (e.retryable == Some(true) && kind == "transient_network")
        || (e.retryable == Some(true) && e.transient && (kind == "server_error" || kind == "rate_limit")))
  }

  lemma RetriesIff(e: ProviderError, attempt: nat, text: string, seen: bool)
    ensures ShouldRetry(WithStreamState(e, text), attempt, seen) <==> Retries(e, attempt, text, seen)
  {
    hide Contains, Lower, Strip;
    var state := WithStreamState(e, text);
    MarkersAre(Lower(state.content));
    hide TRANSIENT_MARKERS;
  }

  lemma MarkersAre(text: string)
    ensures (exists k :: 0 <= k < |TRANSIENT_MARKERS| && Contains(text, TRANSIENT_MARKERS[k])) <==> SpeaksOfConnection(text)
  {
    hide Contains;
    assert TRANSIENT_MARKERS[0] == "connection timeout" && TRANSIENT_MARKERS[1] == "timed out" && TRANSIENT_MARKERS[2] == "connection reset";
    assert TRANSIENT_MARKERS[3] == "disconnect/reset before headers" && TRANSIENT_MARKERS[4] == "reset before headers";
    assert TRANSIENT_MARKERS[5] == "upstream connect error" && |TRANSIENT_MARKERS| == 6;
  }

  /** Events that say something and end nothing. */
  predicate Clean(events: seq<StreamEvent>) {
    forall k :: 0 <= k < |events| ==> !events[k].Error? && !events[k].Unsupported?
  }

  /** What the events show, one for one; a full text shows nothing by itself. */
  function Said(events: seq<StreamEvent>): seq<Yield> {
    if events == [] then []
    else
      var said := Said(events[..|events| - 1]);
      match events[|events| - 1]
      case Chunk(text) => said + [Shown(text)]
      case Thinking => said + [Thought]
      case WebSearch => said + [Searched]
      case _ => said
  }

  /** The text received: the chunks since the last full text, after it. */
  function Words(events: seq<StreamEvent>): string {
    if events == [] then ""
    else
      match events[|events| - 1]
      case Chunk(text) => Words(events[..|events| - 1]) + text
      case Full(text) => text
      case _ => Words(events[..|events| - 1])
  }

  predicate Seen(events: seq<StreamEvent>) {
    exists k :: 0 <= k < |events| && !events[k].Full?
  }

  lemma {:induction false} CleanStream(events: seq<StreamEvent>, n: nat, attempt: nat)
    requires n <= |events| && Clean(events[..n])
    ensures Stream(events, n, attempt) == Progress(Words(events[..n]), Said(events[..n]), Seen(events[..n]), Going)
    decreases n
  {
    hide AfterError, AfterFault;
    if n == 0 {
      assert events[..0] == [];
    } else {
      assert events[..n][..n - 1] == events[..n - 1];
      assert forall k :: 0 <= k < n - 1 ==> events[..n][k] == events[..n - 1][k];
      assert !events[..n][n - 1].Error? && !events[..n][n - 1].Unsupported?;
      CleanStream(events, n - 1, attempt);
      SeenOneMore(events, n);
    }
  }

  lemma SeenOneMore(events: seq<StreamEvent>, n: nat)
    requires 0 < n <= |events|
    ensures Seen(events[..n]) <==> Seen(events[..n - 1]) || !events[n - 1].Full?
  {
    if Seen(events[..n - 1]) {
      var k :| 0 <= k < n - 1 && !events[..n - 1][k].Full?;
      assert !events[..n][k].Full?;
    }
    if !events[n - 1].Full? {
      assert !events[..n][n - 1].Full?;
    }
    if Seen(events[..n]) {
      var k :| 0 <= k < n && !events[..n][k].Full?;
      assert k < n - 1 ==> !events[..n - 1][k].Full?;
    }
  }

  /** The first event that ends the stream, or its end. */
  lemma StreamEndsAt(events: seq<StreamEvent>) returns (n: nat)
    ensures n <= |events| && Clean(events[..n])
    ensures n < |events| ==> events[n].Error? || events[n].Unsupported?
  {
    n := 0;
    while n < |events| && !events[n].Error? && !events[n].Unsupported?
      invariant n <= |events| && Clean(events[..n])
    {
      n := n + 1;
    }
  }

  /** What was shown before is shown, and then the failure, unless the attempt is made again. */
  predicate Handles(p: Progress, shown: seq<Yield>, f: Fault, attempt: nat, text: string, seen: bool, ending: Next) {
    match f
    case RateLimit => p.shown == shown + [Failure("Rate limit exceeded. Please wait.")] && p.next == ending
    case Other(message) => p.shown == shown + [Failure("LLM error: " + message)] && p.next == ending
    case Api(e) =>
      if Retries(e, attempt, text, seen) then p.shown == shown && p.next == Retry
      else p.shown == shown + [Failure(e.content)] && p.next == ending
  }

  lemma FaultHandles(p: Progress, f: Fault, attempt: nat)
    ensures Handles(AfterFault(p, f, attempt), p.shown, f, attempt, p.text, p.emitted, Raised)
  {
    hide ShouldRetry, Retries, WithStreamState;
    if f.Api? {
      RetriesIff(f.error, attempt, p.text, p.emitted);
    }
  }

  lemma ErrorHandles(p: Progress, e: ProviderError, attempt: nat)
    ensures Handles(AfterError(p, e, attempt, Failed), p.shown, Api(e), attempt, p.text, p.emitted, Failed)
  {
    hide ShouldRetry, Retries, WithStreamState;
    RetriesIff(e, attempt, p.text, p.emitted);
  }

  lemma StopsAt(events: seq<StreamEvent>, n: nat, attempt: nat)
    requires n < |events| && Clean(events[..n]) && AfterEvent(Stream(events, n, attempt), events[n], attempt).next != Going
    ensures Stream(events, |events|, attempt) == AfterEvent(Stream(events, n, attempt), events[n], attempt)
  {
    CleanStream(events, n, attempt);
    hide AfterEvent, Said, Words, Seen;
    assert Stream(events, n + 1, attempt) == AfterEvent(Stream(events, n, attempt), events[n], attempt);
    StoppedStays(events, n + 1, attempt);
  }

  /** An error event ends the attempt with the error's own text, or asks for another attempt. */
  lemma StreamErrorIsHandled(a: Attempt, n: nat, attempt: nat)
    requires !a.native && n < |a.events| && Clean(a.events[..n]) && a.events[n].Error?
    ensures var before := a.events[..n];
            Handles(Sampled(a, attempt), Said(before), Api(a.events[n].error), attempt, Words(before), Seen(before), Failed)
  {
    CleanStream(a.events, n, attempt);
    var p := Stream(a.events, n, attempt);
    ErrorHandles(p, a.events[n].error, attempt);
    hide AfterError, Retries, Stream, Said, Words, Seen, Clean;
    assert AfterEvent(p, a.events[n], attempt).next != Going;
    StopsAt(a.events, n, attempt);
  }

  lemma UnsupportedIsHandled(a: Attempt, n: nat, attempt: nat)
    requires !a.native && n < |a.events| && Clean(a.events[..n]) && a.events[n].Unsupported?
    ensures var p := Sampled(a, attempt);
            && p.next == Raised
            && p.shown == Said(a.events[..n]) + [Failure("LLM error: " + "Unsupported stream event type from LLM client")]
  {
    CleanStream(a.events, n, attempt);
    hide Stream, Said, Words, Seen, Clean;
    StopsAt(a.events, n, attempt);
  }

  /** What is received before a fault may come: a native client's text comes with no fault. */
  predicate Receives(a: Attempt, text: string, shown: seq<Yield>, seen: bool) {
    if a.native then
      if a.fault.Some? || a.text == "" then text == "" && shown == [] && !seen
      else text == a.text && shown == [Shown(a.text)] && seen
    else Clean(a.events) && text == Words(a.events) && shown == Said(a.events) && seen == Seen(a.events)
  }

  lemma ReceivedIs(a: Attempt, attempt: nat, text: string, shown: seq<Yield>, seen: bool)
    requires Receives(a, text, shown, seen)
    ensures if a.fault.None? then Received(a, attempt) == Progress(text, shown, seen, Going)
            else Handles(Received(a, attempt), shown, a.fault.value, attempt, text, seen, Raised)
  {
    if !a.native {
      assert a.events[..|a.events|] == a.events;
      CleanStream(a.events, |a.events|, attempt);
    }
    hide AfterFault, Stream, Said, Words, Seen, Clean, Handles;
    if a.fault.Some? {
      FaultHandles(Progress(text, shown, seen, Going), a.fault.value, attempt);
    }
  }

  /** A fault of the call is told in its own words, or asks for another attempt. */
  lemma FaultIsHandled(a: Attempt, attempt: nat, text: string, shown: seq<Yield>, seen: bool)
    requires Receives(a, text, shown, seen) && a.fault.Some?
    ensures Handles(Sampled(a, attempt), shown, a.fault.value, attempt, text, seen, Raised)
  {
    ReceivedIs(a, attempt, text, shown, seen);
    hide Received, Receives, Retries;
  }

  /** An attempt without a fault ends with the text received, word for word; only the counting of tokens can fail then. */
  lemma TextIsTheResponse(a: Attempt, attempt: nat, text: string, shown: seq<Yield>, seen: bool)
    requires Receives(a, text, shown, seen) && a.fault.None?
    ensures var p := Sampled(a, attempt);
            if a.counting.None? then p.next == Completed && p.shown == shown + [FullResponse(text), TokenCount]
            else Handles(p, shown + [FullResponse(text)], a.counting.value, attempt, text, seen, Raised)
  {
    ReceivedIs(a, attempt, text, shown, seen);
    hide Received, Receives, AfterFault, Handles;
    if a.counting.Some? {
      FaultHandles(Progress(text, shown + [FullResponse(text)], seen, Going), a.counting.value, attempt);
    } else {
      assert (shown + [FullResponse(text)]) + [TokenCount] == shown + [FullResponse(text), TokenCount];
    }
  }

  /** An attempt that asks for another gets it, and what the user sees is that of both; there are no more than two. */
  lemma SecondAttemptIsMade(script: nat -> Attempt)
    ensures Attempts(script, 1) == (
      var first, second := Sampled(script(1), 1), Sampled(script(2), 2);
      if first.next == Retry then Outcome(first.shown + second.shown, 2, second.next) else Outcome(first.shown, 1, first.next))
  {
    hide Sampled;
    assert Attempts(script, 2) == Outcome(Sampled(script(2), 2).shown, 2, Sampled(script(2), 2).next);
  }

  /** A gateway error before anything was received is retried, and the second attempt's text is the response. */
  lemma GatewayErrorIsRetried(script: nat -> Attempt, e: ProviderError, status: int)
    requires script(1).fault == Some(Api(e)) && (script(1).native || script(1).events == [])
    requires status in {502, 503, 504} && e.statusCode == Some(status) && e.partialResponse.None? && e.retryable.None?
    requires !script(2).native && Clean(script(2).events) && script(2).fault.None? && script(2).counting.None?
    ensures var events := script(2).events;
            Attempts(script, 1) == Outcome(Said(events) + [FullResponse(Words(events)), TokenCount], 2, Completed)
  {
    FaultIsHandled(script(1), 1, "", [], false);
    var events := script(2).events;
    TextIsTheResponse(script(2), 2, Words(events), Said(events), Seen(events));
    SecondAttemptIsMade(script);
    hide Sampled, Attempts, Said, Words, Seen, Clean, SpeaksOfConnection, Lower, Strip;
    assert Retries(e, 1, "", false);
    assert [] + (Said(events) + [FullResponse(Words(events)), TokenCount]) == Said(events) + [FullResponse(Words(events)), TokenCount];
  }
}
