/** The string operations that parameters pass through: trimming, lower-casing and the decimal
    printing and parsing of unsigned 64-bit numbers (plugin/kodo_parameters.go:469-501). */
module Text {
  import opened Wrappers

  const UINT64_LIMIT: nat := 0x1_0000_0000_0000_0000

  // -- decimal numbers ---------------------------------------------------------------------------

  predicate IsDigit(c: char) { '0' <= c <= '9' }

  function DigitChar(d: nat): char
    requires d < 10
  {
    '0' + d as char
  }

  function DigitValue(c: char): nat
    requires IsDigit(c)
  {
    (c - '0') as nat
  }

  /** The decimal text of a number. */
  function FormatUint(n: nat): string {
    if n < 10 then [DigitChar(n)] else FormatUint(n / 10) + [DigitChar(n % 10)]
  }

  predicate AllDigits(s: string) { forall i :: 0 <= i < |s| ==> IsDigit(s[i]) }

  function DecimalValue(s: string): nat
    requires AllDigits(s)
  {
    if s == "" then 0 else 10 * DecimalValue(s[..|s| - 1]) + DigitValue(s[|s| - 1])
  }

  /** Base-10 parsing into 64 bits: no sign, no other characters, no overflow. */
  function ParseUint(s: string): Option<nat> {
    if s == "" || !AllDigits(s) then None
    else
      var v := DecimalValue(s);
      if v < UINT64_LIMIT then Some(v) else None
  }

  lemma {:induction false} FormatUintDigits(n: nat)
    ensures FormatUint(n) != "" && AllDigits(FormatUint(n)) && DecimalValue(FormatUint(n)) == n
  {
    if n < 10 {
      assert FormatUint(n)[..0] == "";
    } else {
      FormatUintDigits(n / 10);
      var s := FormatUint(n);
      assert s[..|s| - 1] == FormatUint(n / 10);
    }
  }

  /** Printing and parsing a 64-bit number gives it back. */
  lemma UintRoundTrip(n: nat)
    requires n < UINT64_LIMIT
    ensures ParseUint(FormatUint(n)) == Some(n)
  {
    FormatUintDigits(n);
  }

  lemma FormatUintInjective(m: nat, n: nat)
    requires FormatUint(m) == FormatUint(n)
    ensures m == n
  {
    FormatUintDigits(m);
    FormatUintDigits(n);
  }

  // -- parts -------------------------------------------------------------------------------------

  predicate Contains(s: string, part: string) { exists i :: 0 <= i <= |s| && part <= s[i..] }

  // -- white space -------------------------------------------------------------------------------

  /** Go's `unicode.IsSpace`. */
  predicate IsSpace(c: char) {
    || '\t' <= c <= '\r' || c == ' ' || c == '\U{0085}' || c == '\U{00A0}' || c == '\U{1680}'
    || '\U{2000}' <= c <= '\U{200A}' || c == '\U{2028}' || c == '\U{2029}' || c == '\U{202F}'
    || c == '\U{205F}' || c == '\U{3000}'
  }

  function TrimLeft(s: string): string {
    if s != "" && IsSpace(s[0]) then TrimLeft(s[1..]) else s
  }

  function TrimRight(s: string): string {
    if s != "" && IsSpace(s[|s| - 1]) then TrimRight(s[..|s| - 1]) else s
  }

  function TrimSpace(s: string): string { TrimRight(TrimLeft(s)) }

  /** No white space at either end. */
  predicate Trimmed(s: string) {
    s != "" ==> !IsSpace(s[0]) && !IsSpace(s[|s| - 1])
  }

  lemma {:induction false} TrimLeftEnd(s: string)
    ensures TrimLeft(s) != "" ==> !IsSpace(TrimLeft(s)[0])
  {
    if s != "" && IsSpace(s[0]) {
      TrimLeftEnd(s[1..]);
    }
  }

  lemma {:induction false} TrimRightEnds(s: string)
    ensures TrimRight(s) <= s
    ensures TrimRight(s) != "" ==> !IsSpace(TrimRight(s)[|TrimRight(s)| - 1])
  {
    if s != "" && IsSpace(s[|s| - 1]) {
      TrimRightEnds(s[..|s| - 1]);
    }
  }

  lemma TrimSpaceTrims(s: string)
    ensures Trimmed(TrimSpace(s))
  {
    TrimLeftEnd(s);
    TrimRightEnds(TrimLeft(s));
  }

  lemma {:induction false} TrimLeftTakesSpaces(s: string) returns (n: nat)
    ensures n <= |s| && TrimLeft(s) == s[n..] && forall i :: 0 <= i < n ==> IsSpace(s[i])
  {
    n := 0;
    if s != "" && IsSpace(s[0]) {
      n := TrimLeftTakesSpaces(s[1..]);
      n := n + 1;
    }
  }

  lemma {:induction false} TrimRightTakesSpaces(s: string) returns (n: nat)
    ensures n <= |s| && TrimRight(s) == s[..n] && forall i :: n <= i < |s| ==> IsSpace(s[i])
  {
    n := |s|;
    if s != "" && IsSpace(s[|s| - 1]) {
      n := TrimRightTakesSpaces(s[..|s| - 1]);
    }
  }

  /** Trimming takes away white space at the ends, and all of it. */
  lemma TrimSpaceExactly(s: string, t: string)
    ensures TrimSpace(s) == t <==>
            Trimmed(t) && exists m: nat, n: nat ::
              m <= n <= |s| && t == s[m..n] && forall i :: 0 <= i < |s| && (i < m || n <= i) ==> IsSpace(s[i])
  {
    TrimSpaceTrims(s);
    var m := TrimLeftTakesSpaces(s);
    var n := TrimRightTakesSpaces(TrimLeft(s));
    assert TrimSpace(s) == s[m..m + n];
    assert forall i :: m + n <= i < |s| ==> s[i] == TrimLeft(s)[i - m];
    if Trimmed(t) {
      if p: nat, q: nat :|
        p <= q <= |s| && t == s[p..q] && forall i :: 0 <= i < |s| && (i < p || q <= i) ==> IsSpace(s[i])
      {
        SamePart(s, m, m + n, p, q);
      }
    }
  }

  /** Two trimmed parts with nothing but white space around them are equal. */
  lemma SamePart(s: string, m: nat, n: nat, p: nat, q: nat)
    requires m <= n <= |s| && p <= q <= |s| && Trimmed(s[m..n]) && Trimmed(s[p..q])
    requires forall i :: 0 <= i < |s| && (i < m || n <= i) ==> IsSpace(s[i])
    requires forall i :: 0 <= i < |s| && (i < p || q <= i) ==> IsSpace(s[i])
    ensures s[m..n] == s[p..q]
  {
    if m < n {
      assert s[m..n][0] == s[m] && s[m..n][n - m - 1] == s[n - 1];
    }
    if p < q {
      assert s[p..q][0] == s[p] && s[p..q][q - p - 1] == s[q - 1];
    }
  }

  lemma TrimmedStays(s: string)
    requires Trimmed(s)
    ensures TrimSpace(s) == s
  {
  }

  lemma DigitsTrimmed(n: nat)
    ensures Trimmed(FormatUint(n))
  {
    FormatUintDigits(n);
  }

  // -- letter case -------------------------------------------------------------------------------

  /** Lower-casing, character by character. */
  function ToLower(lower: char -> char, s: string): string {
    if s == "" then "" else [lower(s[0])] + ToLower(lower, s[1..])
  }

  predicate IsLowerAscii(c: char) { 'a' <= c <= 'z' || '0' <= c <= '9' }

  predicate AllLowerAscii(s: string) { forall c :: c in s ==> IsLowerAscii(c) }

  /** Lower-casing leaves lower-case ASCII letters and digits alone. */
  ghost predicate KeepsLower(lower: char -> char) {
    forall c :: IsLowerAscii(c) ==> lower(c) == c
  }

  lemma {:induction false} LowerStays(lower: char -> char, s: string)
    requires KeepsLower(lower) && AllLowerAscii(s)
    ensures ToLower(lower, s) == s
  {
    if s != "" {
      LowerStays(lower, s[1..]);
    }
  }

  lemma LowerAsciiTrimmed(s: string)
    requires AllLowerAscii(s)
    ensures Trimmed(s)
  {
    if s != "" {
      assert s[0] in s && s[|s| - 1] in s;
    }
  }
}
