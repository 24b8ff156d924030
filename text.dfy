/**
 * String helpers shared by the model: ASCII case folding, substring search,
 * Kotlin's `isBlank`, `takeLast`, `indexOf` and decimal rendering of integers.
 * Strings are `seq<char>`; Kotlin's UTF-16 details are not modelled.
 */
module Text {
  import opened Wrappers

  /** ASCII lower-casing of one character; every other character is kept. */
  function LowerChar(c: char): char {
    if 'A' <= c <= 'Z' then (c as int + 32) as char else c
  }

  function Lower(s: string): (r: string)
    ensures |r| == |s|
    ensures forall i :: 0 <= i < |s| ==> r[i] == LowerChar(s[i])
  {
    seq(|s|, i requires 0 <= i < |s| => LowerChar(s[i]))
  }

  /** `n` occurs in `h` starting at index `i`. */
  predicate ContainsAt(h: string, n: string, i: nat) {
    i + |n| <= |h| && h[i..i + |n|] == n
  }

  /** Kotlin's `h.contains(n)`. */
  predicate Contains(h: string, n: string) {
    exists i: nat | i <= |h| :: ContainsAt(h, n, i)
  }

  /** Folding both sides keeps an exact occurrence. */
  lemma LowerKeepsOccurrence(h: string, n: string, i: nat)
    requires ContainsAt(h, n, i)
    ensures ContainsAt(Lower(h), Lower(n), i)
  {
    forall j | 0 <= j < |n|
      ensures Lower(h)[i..i + |n|][j] == Lower(n)[j]
    {
      assert h[i..i + |n|][j] == n[j];
    }
  }

  /** Kotlin's `h.contains(n, ignoreCase = true)`, with ASCII case folding. */
  predicate ContainsIgnoreCase(h: string, n: string) {
    Contains(Lower(h), Lower(n))
  }

  /** Ignoring case only widens `contains`: an exact occurrence always counts, and a longer needle never does. */
  lemma ContainsIgnoreCaseBounds(h: string, n: string)
    ensures Contains(h, n) ==> ContainsIgnoreCase(h, n)
    ensures ContainsIgnoreCase(h, n) ==> |n| <= |h|
  {
    if Contains(h, n) {
      var i: nat :| i <= |h| && ContainsAt(h, n, i);
      LowerKeepsOccurrence(h, n, i);
    }
  }

  predicate StartsWith(s: string, prefix: string) {
    |prefix| <= |s| && s[..|prefix|] == prefix
  }

  /** A needle with a character that never occurs in the haystack is not in it. */
  lemma AbsentChar(h: string, n: string, k: nat)
    requires k < |n|
    requires forall j :: 0 <= j < |h| ==> h[j] != n[k]
    ensures !Contains(h, n)
  {
    forall i: nat | i <= |h|
      ensures !ContainsAt(h, n, i)
    {
      if i + |n| <= |h| {
        assert h[i..i + |n|][k] == h[i + k];
      }
    }
  }

  /**
   * Case-insensitive absence: if the letter `n[k]` occurs in `h` neither in
   * lower nor in upper case, `h` does not contain `n` ignoring case.
   */
  lemma AbsentLetterIgnoreCase(h: string, n: string, k: nat)
    requires k < |n| && 'a' <= LowerChar(n[k]) <= 'z'
    requires forall j :: 0 <= j < |h| ==> h[j] != LowerChar(n[k]) && h[j] != (LowerChar(n[k]) as int - 32) as char
    ensures !ContainsIgnoreCase(h, n)
  {
    AbsentChar(Lower(h), Lower(n), k);
  }

  /** Case-insensitive presence, from a position where the folded text matches. */
  lemma PresentIgnoreCase(h: string, n: string, i: nat)
    requires i + |n| <= |h|
    requires forall j :: 0 <= j < |n| ==> LowerChar(h[i + j]) == LowerChar(n[j])
    ensures ContainsIgnoreCase(h, n)
  {
    assert Lower(h)[i..i + |n|] == Lower(n);
    assert ContainsAt(Lower(h), Lower(n), i);
  }

  /**
   * Kotlin's `Char.isWhitespace` on the JVM: the control characters TAB..CR and
   * FS..US, and every space, line or paragraph separator of Unicode.
   */
  function IsWhitespace(c: char): (w: bool)
    ensures c == ' ' || c == '\t' || c == '\n' || c == '\r' ==> w
    ensures ('a' <= c <= 'z') || ('A' <= c <= 'Z') || ('0' <= c <= '9') ==> !w
  {
    || ('\t' <= c <= '\r')
    || ('\U{1C}' <= c <= '\U{1F}')
    || c == ' ' || c == '\U{A0}' || c == '\U{1680}'
    || ('\U{2000}' <= c <= '\U{200A}')
    || c == '\U{2028}' || c == '\U{2029}' || c == '\U{202F}' || c == '\U{205F}' || c == '\U{3000}'
  }

  /** Kotlin's `isBlank`: empty, or whitespace only. */
  function IsBlank(s: string): (blank: bool)
    ensures blank <==> forall i :: 0 <= i < |s| ==> IsWhitespace(s[i])
  {
    |s| == 0 || (IsWhitespace(s[0]) && IsBlank(s[1..]))
  }

  /** Kotlin's `takeLast(n)`: the last `n` characters, or all of `s` if it is shorter. */
  function TakeLast(s: string, n: nat): (r: string)
    ensures |r| == if |s| < n then |s| else n
    ensures r == s[|s| - |r|..]
  {
    if |s| <= n then s else s[|s| - n..]
  }

  /** Kotlin's `indexOf(sep)`: the first position where `sep` occurs. */
  function IndexOf(s: string, sep: string): (r: Option<nat>)
    ensures r.Some? ==> ContainsAt(s, sep, r.value)
    ensures r.Some? ==> forall j: nat :: j < r.value ==> !ContainsAt(s, sep, j)
    ensures r.None? ==> !Contains(s, sep)
    decreases |s|
  {
    if |s| < |sep| then
      assert forall j: nat :: !ContainsAt(s, sep, j);
      None
    else if s[..|sep|] == sep then
      Some(0)
    else
      match IndexOf(s[1..], sep)
      case None =>
        assert forall j: nat | 1 <= j :: ContainsAt(s, sep, j) == ContainsAt(s[1..], sep, j - 1);
        None
      case Some(k) =>
        assert forall j: nat | 1 <= j :: ContainsAt(s, sep, j) == ContainsAt(s[1..], sep, j - 1);
        Some(k + 1)
  }

  /**
   * When no proper suffix of `sep` is also a prefix of it (true of ", "), and `a`
   * does not contain `sep`, the first `sep` in `a + sep + b` is the one after `a`.
   */
  lemma FirstOccurrenceAfter(a: string, sep: string, b: string)
    requires |sep| > 0 && !Contains(a, sep)
    requires forall j :: 0 < j < |sep| ==> !StartsWith(sep, sep[j..])
    ensures IndexOf(a + sep + b, sep) == Some(|a|)
  {
    var s := a + sep + b;
    assert ContainsAt(s, sep, |a|) by { assert s[|a|..|a| + |sep|] == sep; }
    forall i: nat | i < |a|
      ensures !ContainsAt(s, sep, i)
    {
      if i + |sep| <= |a| {
        assert s[i..i + |sep|] == a[i..i + |sep|];
        assert !ContainsAt(a, sep, i);
      } else {
        var j := |a| - i;
        assert s[i..i + |sep|][j..] == s[|a|..i + |sep|] == sep[..|sep| - j];
        assert !StartsWith(sep, sep[j..]);
      }
    }
  }

  // ----- decimal rendering of integers (Kotlin's string template on an Int) -----

  function DigitChar(d: nat): (c: char)
    requires d < 10
    ensures '0' <= c <= '9'
  {
    ('0' as int + d) as char
  }

  predicate AllDigits(s: string) {
    forall i :: 0 <= i < |s| ==> '0' <= s[i] <= '9'
  }

  /** Decimal digits of `n`, most significant first, without leading zeros. */
  function NatToDecimal(n: nat): (s: string)
    ensures |s| > 0 && AllDigits(s)
    ensures s[0] == '0' ==> n == 0
    decreases n
  {
    if n < 10 then [DigitChar(n)] else NatToDecimal(n / 10) + [DigitChar(n % 10)]
  }

  /** The number a string of decimal digits denotes. */
  function DecimalValue(s: string): nat
    requires AllDigits(s)
  {
    if s == [] then 0 else DecimalValue(s[..|s| - 1]) * 10 + (s[|s| - 1] as int - '0' as int)
  }

  /** Kotlin's `Int.toString()`: a minus sign for negative numbers, then the digits. */
  function IntToDecimal(i: int): (s: string)
    ensures |s| > 0
    ensures s[0] == '-' <==> i < 0
    ensures AllDigits(s[if i < 0 then 1 else 0..])
    ensures |s| > (if i < 0 then 1 else 0) && (s[if i < 0 then 1 else 0] == '0' ==> i == 0)
  {
    if i < 0 then "-" + NatToDecimal(-i) else NatToDecimal(i)
  }

  /** Reads back an optional minus sign followed by decimal digits. */
  function ParseInt(s: string): Option<int> {
    if |s| > 1 && s[0] == '-' && AllDigits(s[1..]) then Some(-(DecimalValue(s[1..]) as int))
    else if |s| > 0 && AllDigits(s) then Some(DecimalValue(s))
    else None
  }

  lemma {:induction false} DecimalRoundTrip(n: nat)
    ensures DecimalValue(NatToDecimal(n)) == n
    decreases n
  {
    if n >= 10 {
      var s := NatToDecimal(n);
      DecimalRoundTrip(n / 10);
      assert s[..|s| - 1] == NatToDecimal(n / 10);
    }
  }

  /** Rendering an integer and parsing it back gives the integer. */
  lemma IntRoundTrip(i: int)
    ensures ParseInt(IntToDecimal(i)) == Some(i)
  {
    var s := IntToDecimal(i);
    if i < 0 {
      var d := NatToDecimal(-i);
      assert s == "-" + d && s[1..] == d;
      DecimalRoundTrip(-i);
    } else {
      assert s == NatToDecimal(i) && '0' <= s[0] <= '9';
      DecimalRoundTrip(i);
    }
  }
}
