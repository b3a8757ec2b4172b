/** The visible token estimate (four characters a token) and text truncation under it. */
module Tokens {
  import opened Text
  import opened Messages

  /** A token counter for stored rows and the truncator that goes with it. */
  datatype Tokenizer = Tokenizer(
    count: seq<StoredMessage> -> nat,
    truncate: (string, int) -> (string, bool))

  const TRUNCATION_MARKER := "\n\n[[TRUNCATED DURING CONTEXT COMPACTION]]\n\n"

  function Chars(messages: seq<LlmMessage>): nat {
    if messages == [] then 0 else Chars(messages[..|messages| - 1]) + |messages[|messages| - 1].content|
  }

  lemma {:induction false} CharsConcat(a: seq<LlmMessage>, b: seq<LlmMessage>)
    ensures Chars(a + b) == Chars(a) + Chars(b)
  {
    if b == [] {
      assert a + b == a;
    } else {
      assert (a + b)[..|a + b| - 1] == a + b[..|b| - 1];
      CharsConcat(a, b[..|b| - 1]);
    }
  }

  function Estimate(messages: seq<LlmMessage>): nat {
    Chars(messages) / 4
  }

  /** Adds the lengths up row by row. */
  method FallbackTokenEstimate(messages: seq<LlmMessage>) returns (tokens: nat)
    ensures tokens == Estimate(messages)
  {
    var total := 0;
    for k := 0 to |messages|
      invariant total == Chars(messages[..k])
    {
      assert messages[..k + 1][..k] == messages[..k];
      total := total + |messages[k].content|;
    }
    assert messages[..|messages|] == messages;
    tokens := total / 4;
  }

  /** Cuts a text that is too long to its two ends around a marker, or to its beginning; the flag says whether it cut. */
  function FallbackTruncate(text: string, limit: int, marker: string): (r: (string, bool))
    requires limit >= 1
    ensures r.1 <==> (|text| + 3) / 4 > limit
    ensures !r.1 ==> r.0 == text
    ensures r.1 ==> |r.0| == 4 * limit
  {
    var original := if text == "" then 0 else if 1 >= (|text| + 3) / 4 then 1 else (|text| + 3) / 4;
    if original <= limit then (text, false)
    else
      var charLimit := 4 * limit;
      if |marker| >= charLimit then (text[..charLimit], true)
      else
        var available := charLimit - |marker|;
        var head := available / 2;
        var tail := available - head;
        (text[..head] + marker + text[|text| - tail..], true)
  }

  /** `cut` is the first `h` characters of `text`, the marker, and the last `t` characters. */
  predicate EndsKept(text: string, cut: string, marker: string, h: int, t: int) {
    && 0 <= h && 0 <= t && h + t <= |text| && h + |marker| + t == |cut|
    && cut[..h] == text[..h]
    && cut[h..h + |marker|] == marker
    && cut[|cut| - t..] == text[|text| - t..]
  }

  /**
   * What is cut keeps as much of both ends as fits beside the marker, in equal parts up to one character; without room
   * for the marker it is the beginning of the text.
   */
  lemma TruncationKeepsBothEnds(text: string, limit: int, marker: string)
    requires limit >= 1 && (|text| + 3) / 4 > limit
    ensures var cut := FallbackTruncate(text, limit, marker).0;
            if |marker| >= 4 * limit then cut == text[..4 * limit]
            else exists h, t :: EndsKept(text, cut, marker, h, t) && 0 <= t - h <= 1 && h + t == 4 * limit - |marker|
  {
    if |marker| < 4 * limit {
      var cut := FallbackTruncate(text, limit, marker).0;
      var room := 4 * limit - |marker|;
      var h, t := room / 2, room - room / 2;
      assert cut == text[..h] + marker + text[|text| - t..];
      hide FallbackTruncate;
      assert cut[h..h + |marker|] == marker;
      assert cut[|cut| - t..] == text[|text| - t..];
      assert EndsKept(text, cut, marker, h, t);
    }
  }

  function EstimateRows(rows: seq<StoredMessage>): nat {
    Estimate(ToLlmAll(rows))
  }

  function FallbackTruncateTail(text: string, limit: int): (string, bool) {
    FallbackTruncate(text, if limit < 1 then 1 else limit, TRUNCATION_MARKER)
  }

  /** The counter used when no tokenizer library is available. */
  function Fallback(): Tokenizer {
    Tokenizer(rows => EstimateRows(rows), (text, limit) => FallbackTruncateTail(text, limit))
  }

  /** A text over the limit is cut to cost exactly the limit. */
  lemma TruncationMeetsLimit(m: StoredMessage, limit: int)
    requires limit >= 1
    requires EstimateRows([m]) > limit
    ensures FallbackTruncateTail(m.content, limit).1
    ensures forall m': StoredMessage :: m'.content == FallbackTruncateTail(m.content, limit).0 ==> EstimateRows([m']) == limit
  {
    forall x: StoredMessage
      ensures EstimateRows([x]) == |x.content| / 4
    {
      var llm := ToLlmAll([x]);
      assert llm[..|llm| - 1] == [];
      assert Chars(llm) == Chars([]) + |llm[0].content|;
    }
    assert EstimateRows([m]) == |m.content| / 4;
  }
}
