/** Optional values and the few string helpers the conversation code relies on. */
module Text {

  datatype Option<+T> = None | Some(value: T)

  /** The characters Python's `str.strip` removes. */
  predicate IsSpace(c: char) {
    var n := c as int;
    || 0x09 <= n <= 0x0D || 0x1C <= n <= 0x20 || n == 0x85 || n == 0xA0 || n == 0x1680
    || 0x2000 <= n <= 0x200A || n == 0x2028 || n == 0x2029 || n == 0x202F || n == 0x205F || n == 0x3000
  }

  function StripLeft(s: string): string {
    if s != "" && IsSpace(s[0]) then StripLeft(s[1..]) else s
  }

  function StripRight(s: string): string {
    if s != "" && IsSpace(s[|s| - 1]) then StripRight(s[..|s| - 1]) else s
  }

  /** `str.strip()` */
  function Strip(s: string): string {
    StripRight(StripLeft(s))
  }

  predicate Blank(s: string) {
    Strip(s) == ""
  }

  predicate Trimmed(s: string) {
    s != "" ==> !IsSpace(s[0]) && !IsSpace(s[|s| - 1])
  }

  lemma StripRightKeepsStart(s: string)
    ensures StripRight(s) <= s
    ensures StripRight(s) != "" ==> !IsSpace(StripRight(s)[|StripRight(s)| - 1])
  {
  }

  lemma {:induction false} StripLeftStart(s: string)
    ensures StripLeft(s) != "" ==> !IsSpace(StripLeft(s)[0])
  {
    if s != "" && IsSpace(s[0]) {
      StripLeftStart(s[1..]);
    }
  }

  /** Stripping leaves no space at either end, and stripping again changes nothing. */
  lemma StripTrims(s: string)
    ensures Trimmed(Strip(s))
    ensures Strip(Strip(s)) == Strip(s)
  {
    StripLeftStart(s);
    StripRightKeepsStart(StripLeft(s));
    TrimmedIsFixed(Strip(s));
  }

  lemma TrimmedIsFixed(s: string)
    requires Trimmed(s)
    ensures Strip(s) == s
  {
  }

  /** A string that begins with a visible character is not blank. */
  lemma VisibleStartIsNotBlank(s: string)
    requires s != "" && !IsSpace(s[0])
    ensures Strip(s) != ""
  {
    KeepsVisible(s, 0);
  }

  lemma {:induction false} KeepsVisible(s: string, k: nat)
    requires k < |s| && !IsSpace(s[k])
    ensures StripRight(s) != ""
  {
    if IsSpace(s[|s| - 1]) {
      assert s[..|s| - 1][k] == s[k];
      KeepsVisible(s[..|s| - 1], k);
    }
  }

  /** An optional reference: trimmed, and absent when nothing is left. */
  function NormalizeOptional(value: Option<string>): Option<string> {
    match value
    case None => None
    case Some(s) => if Strip(s) == "" then None else Some(Strip(s))
  }

  lemma NormalizeOptionalTwice(value: Option<string>)
    ensures NormalizeOptional(NormalizeOptional(value)) == NormalizeOptional(value)
  {
    if value.Some? {
      StripTrims(value.value);
    }
  }

  /** Decimal digits of a natural number, as an f-string renders it. */
  function Digits(n: nat): (s: string)
    ensures s != "" && !IsSpace(s[|s| - 1])
  {
    var last := [(n % 10 + '0' as int) as char];
    if n < 10 then last else Digits(n / 10) + last
  }

  /** ASCII letters in lower case. */
  function Lower(s: string): string {
    seq(|s|, k requires 0 <= k < |s| => if 'A' <= s[k] <= 'Z' then (s[k] as int + 32) as char else s[k])
  }

  predicate HasAt(s: string, part: string, k: nat) {
    k + |part| <= |s| && s[k..k + |part|] == part
  }

  /** `part in s` */
  predicate Contains(s: string, part: string) {
    exists k :: 0 <= k <= |s| && HasAt(s, part, k)
  }

  lemma {:induction false} DigitsAreInjective(m: nat, n: nat)
    requires Digits(m) == Digits(n)
    ensures m == n
  {
    var a, b := Digits(m), Digits(n);
    assert a[|a| - 1] == (m % 10 + '0' as int) as char && b[|b| - 1] == (n % 10 + '0' as int) as char;
    if m >= 10 && n >= 10 {
      assert a[..|a| - 1] == Digits(m / 10) && b[..|b| - 1] == Digits(n / 10);
      DigitsAreInjective(m / 10, n / 10);
    }
  }

  // ---------- what the helpers keep ----------

  predicate AllSpace(s: string) {
    forall k :: 0 <= k < |s| ==> IsSpace(s[k])
  }

  lemma {:induction false} StripLeftCuts(s: string) returns (n: nat)
    ensures n <= |s| && AllSpace(s[..n]) && s[n..] == StripLeft(s)
  {
    n := 0;
    if s != "" && IsSpace(s[0]) {
      n := StripLeftCuts(s[1..]);
      assert s[..n + 1] == [s[0]] + s[1..][..n];
      n := n + 1;
    }
  }

  lemma {:induction false} StripRightCuts(s: string) returns (n: nat)
    ensures n <= |s| && AllSpace(s[n..]) && s[..n] == StripRight(s)
  {
    n := |s|;
    if s != "" && IsSpace(s[|s| - 1]) {
      var front := s[..|s| - 1];
      assert StripRight(s) == StripRight(front);
      hide IsSpace, StripRight;
      n := StripRightCuts(front);
      assert s[..n] == front[..n];
      assert s[n..] == front[n..] + [s[|s| - 1]];
    }
  }

  /** Stripping cuts white space off both ends and nothing else; with `StripTrims`, all of it. */
  lemma StripCutsSpace(s: string) returns (left: string, right: string)
    ensures s == left + Strip(s) + right && AllSpace(left) && AllSpace(right)
  {
    var m := StripLeftCuts(s);
    var n := StripRightCuts(s[m..]);
    left, right := s[..m], s[m..][n..];
    assert s[m..] == s[m..][..n] + s[m..][n..];
  }

  /** A text is blank exactly if it consists of white space. */
  lemma BlankIffSpace(s: string)
    ensures Blank(s) <==> AllSpace(s)
  {
    var left, right := StripCutsSpace(s);
    StripTrims(s);
    if !Blank(s) {
      assert s[|left|] == Strip(s)[0];
    }
  }

  function ReadDigits(s: string): nat
    requires forall k :: 0 <= k < |s| ==> '0' <= s[k] <= '9'
  {
    if s == "" then 0 else 10 * ReadDigits(s[..|s| - 1]) + (s[|s| - 1] as int - '0' as int)
  }

  /** Digits read back as the number. */
  lemma {:induction false} DigitsReadBack(n: nat)
    ensures forall k :: 0 <= k < |Digits(n)| ==> '0' <= Digits(n)[k] <= '9'
    ensures ReadDigits(Digits(n)) == n
    decreases n
  {
    var s := Digits(n);
    if n >= 10 {
      DigitsReadBack(n / 10);
      assert s[..|s| - 1] == Digits(n / 10);
    } else {
      assert s[..0] == "";
    }
  }

  /** A text contains what stands somewhere in it, at its ends included. */
  lemma ContainsIff(s: string, part: string)
    ensures Contains(s, part) <==> exists left, right :: s == left + part + right
  {
    if Contains(s, part) {
      var k :| 0 <= k <= |s| && HasAt(s, part, k);
      assert s == s[..k] + part + s[k + |part|..];
    }
    if exists left, right :: s == left + part + right {
      var left, right :| s == left + part + right;
      assert HasAt(s, part, |left|);
    }
  }

  /** Lower case keeps the place of each letter in the alphabet, and everything else. */
  lemma LowerIs(s: string, k: nat)
    requires k < |s|
    ensures |Lower(s)| == |s|
    ensures if 'A' <= s[k] <= 'Z' then Lower(s)[k] as int - 'a' as int == s[k] as int - 'A' as int else Lower(s)[k] == s[k]
  {
  }
}
