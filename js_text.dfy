/**
 * The JavaScript string operations the components rely on, over Dafny
 * strings: decimal digits, `startsWith`, `trim` and `String(n)` for an
 * integer.
 */
module JsText {

  /** A character `\d` matches in a regular expression without the `u` flag. */
  predicate IsDigit(c: char) {
    '0' <= c <= '9'
  }

  predicate AllDigits(s: string) {
    forall i :: 0 <= i < |s| ==> IsDigit(s[i])
  }

  function DigitValue(c: char): (d: nat)
    requires IsDigit(c)
    ensures d <= 9
  {
    (c as int - '0' as int) as nat
  }

  function DigitChar(d: nat): (c: char)
    requires d <= 9
    ensures IsDigit(c) && DigitValue(c) == d
  {
    ('0' as int + d) as char
  }

  /** The value of a string of decimal digits, most significant first. */
  function DecimalValue(s: string): (v: nat)
    requires AllDigits(s)
    decreases |s|
  {
    if s == [] then 0
    else DecimalValue(s[..|s| - 1]) * 10 + DigitValue(s[|s| - 1])
  }

  /** `s.startsWith(prefix)`. */
  predicate StartsWith(s: string, prefix: string) {
    |prefix| <= |s| && s[..|prefix|] == prefix
  }

  /** `s` starts with `prefix` exactly when `s` is `prefix` followed by some text. */
  lemma StartsWithIff(s: string, prefix: string)
    ensures StartsWith(s, prefix) <==> exists rest :: s == prefix + rest
  {
    if StartsWith(s, prefix) {
      assert s == prefix + s[|prefix|..];
    }
  }

  /**
   * The characters `String.prototype.trim` removes: ECMAScript's WhiteSpace
   * and LineTerminator code points.
   */
  predicate IsJsWhitespace(c: char) {
    c == '\t' || c == '\n' || c == '\U{000B}' || c == '\U{000C}' || c == '\r' || c == ' '
    || c == '\U{00A0}' || c == '\U{1680}' || ('\U{2000}' <= c <= '\U{200A}')
    || c == '\U{2028}' || c == '\U{2029}' || c == '\U{202F}' || c == '\U{205F}'
    || c == '\U{3000}' || c == '\U{FEFF}'
  }

  predicate AllWhitespace(s: string) {
    forall i :: 0 <= i < |s| ==> IsJsWhitespace(s[i])
  }

  /** The end of the run of whitespace starting at `i`: the first non-blank at or after `i`, or `|s|`. */
  function BlankRunEnd(s: string, i: nat): (k: nat)
    requires i <= |s|
    ensures i <= k <= |s|
    ensures forall m :: i <= m < k ==> IsJsWhitespace(s[m])
    ensures k == |s| || !IsJsWhitespace(s[k])
    decreases |s| - i
  {
    if i < |s| && IsJsWhitespace(s[i]) then BlankRunEnd(s, i + 1) else i
  }

  /** The start of the run of whitespace ending at `j`: just after the last non-blank before `j`, or 0. */
  function BlankRunStart(s: string, j: nat): (k: nat)
    requires j <= |s|
    ensures k <= j
    ensures forall m :: k <= m < j ==> IsJsWhitespace(s[m])
    ensures k == 0 || !IsJsWhitespace(s[k - 1])
    decreases j
  {
    if j > 0 && IsJsWhitespace(s[j - 1]) then BlankRunStart(s, j - 1) else j
  }

  /** `s.trim()`: the text between the leading and the trailing whitespace. */
  function Trim(s: string): (r: string)
    ensures |r| <= |s|
    ensures r == [] || (!IsJsWhitespace(r[0]) && !IsJsWhitespace(r[|r| - 1]))
  {
    var a := BlankRunEnd(s, 0);
    var b := BlankRunStart(s, |s|);
    if a < b then s[a..b] else []
  }

  lemma SliceAllWhitespace(s: string, i: nat, j: nat)
    requires i <= j <= |s| && forall m :: i <= m < j ==> IsJsWhitespace(s[m])
    ensures AllWhitespace(s[i..j])
  {
    forall n | 0 <= n < j - i ensures IsJsWhitespace(s[i..j][n]) {
      assert s[i..j][n] == s[i + n];
    }
  }

  /**
   * The trimmed string is the middle of `s`: only whitespace is dropped
   * before and after it, and it neither starts nor ends with whitespace.
   */
  lemma TrimShape(s: string)
    ensures var lead, t := BlankRunEnd(s, 0), Trim(s);
      lead + |t| <= |s| && t == s[lead..lead + |t|]
      && AllWhitespace(s[..lead]) && AllWhitespace(s[lead + |t|..])
    ensures Trim(s) == [] || (!IsJsWhitespace(Trim(s)[0]) && !IsJsWhitespace(Trim(s)[|Trim(s)| - 1]))
  {
    var a := BlankRunEnd(s, 0);
    var b := BlankRunStart(s, |s|);
    SliceAllWhitespace(s, 0, a);
    assert s[..a] == s[0..a];
    if a < b {
      SliceAllWhitespace(s, b, |s|);
    }
  }

  /** Trimming is idempotent. */
  lemma TrimIdempotent(s: string)
    ensures Trim(Trim(s)) == Trim(s)
  {
    var t := Trim(s);
    TrimShape(s);
    if t != [] {
      assert BlankRunEnd(t, 0) == 0;
      assert BlankRunStart(t, |t|) == |t|;
      assert t[0..|t|] == t;
    }
  }

  /** `s.trim()` is empty exactly when `s` holds only whitespace. */
  lemma TrimEmptyIff(s: string)
    ensures Trim(s) == [] <==> AllWhitespace(s)
  {
    var a := BlankRunEnd(s, 0);
    var b := BlankRunStart(s, |s|);
    if a < |s| {
      assert !IsJsWhitespace(s[a]);
    }
  }

  /** `String(n)` for a non-negative integer: its decimal digits without leading zeros. */
  function NatText(n: nat): (r: string)
    ensures |r| >= 1 && AllDigits(r)
    ensures r[0] == '0' ==> r == "0"
    decreases n
  {
    if n < 10 then [DigitChar(n)] else NatText(n / 10) + [DigitChar(n % 10)]
  }

  /** `String(n)` for an integer. */
  function IntText(n: int): (r: string)
    ensures |r| >= 1
  {
    if n < 0 then "-" + NatText(-n) else NatText(n)
  }

  /** Reading the digits of `String(n)` back gives `n`. */
  lemma {:induction false} NatTextValue(n: nat)
    ensures DecimalValue(NatText(n)) == n
    decreases n
  {
    var r := NatText(n);
    if n >= 10 {
      NatTextValue(n / 10);
      assert r[..|r| - 1] == NatText(n / 10);
    }
  }

  /** Distinct naturals have distinct texts. */
  lemma NatTextInjective(m: nat, n: nat)
    requires NatText(m) == NatText(n)
    ensures m == n
  {
    NatTextValue(m);
    NatTextValue(n);
  }

  /** Only the text of a negative integer starts with a minus sign. */
  lemma IntTextSign(n: int)
    ensures IntText(n)[0] == '-' <==> n < 0
  {
    if n >= 0 {
      assert IsDigit(NatText(n)[0]);
    }
  }

  /** Distinct integers have distinct texts, so a label names one id. */
  lemma IntTextInjective(a: int, b: int)
    requires IntText(a) == IntText(b)
    ensures a == b
  {
    IntTextSign(a);
    IntTextSign(b);
    if a < 0 {
      assert NatText(-a) == IntText(a)[1..] == NatText(-b);
      NatTextInjective(-a, -b);
    } else {
      NatTextInjective(a, b);
    }
  }
}
