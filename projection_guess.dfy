/**
 * `isLikelyEPSG3857`: both map components guess the projection of a
 * stored WKT text from its first number, matched by the regular
 * expression `-?\d+(\.\d+)?` and read with `parseFloat`. A value above
 * 180 cannot be a longitude, so the text is taken to be in EPSG:3857.
 */
module ProjectionGuess {
  import opened Wrappers
  import opened JsText
  import opened MapModel

  /** The first match: where it starts, its sign, its integer digits and its fraction digits. */
  datatype Token = Token(start: nat, negative: bool, intDigits: string, fracDigits: string)

  /** The text of the match, `match[0]`. */
  function TokenText(t: Token): string {
    (if t.negative then "-" else "") + t.intDigits + (if t.fracDigits == [] then "" else "." + t.fracDigits)
  }

  /** A match can start at `i`: a digit, or a minus sign directly followed by a digit. */
  predicate MatchStartsAt(s: string, i: nat) {
    i < |s| && (IsDigit(s[i]) || (s[i] == '-' && i + 1 < |s| && IsDigit(s[i + 1])))
  }

  /** The end of the longest run of digits starting at `j`. */
  function DigitRunEnd(s: string, j: nat): (k: nat)
    requires j <= |s|
    ensures j <= k <= |s|
    ensures forall m :: j <= m < k ==> IsDigit(s[m])
    ensures k == |s| || !IsDigit(s[k])
    decreases |s| - j
  {
    if j < |s| && IsDigit(s[j]) then DigitRunEnd(s, j + 1) else j
  }

  lemma DigitSlice(s: string, j: nat, k: nat)
    requires j <= k <= |s| && forall m :: j <= m < k ==> IsDigit(s[m])
    ensures AllDigits(s[j..k])
  {
    forall n | 0 <= n < k - j ensures IsDigit(s[j..k][n]) {
      assert s[j..k][n] == s[j + n];
    }
  }

  /**
   * The match starting at `i`: the sign, as many digits as follow, and a
   * fraction only when the dot is followed by a digit (backtracking drops
   * a bare dot).
   */
  function TokenAt(s: string, i: nat): (t: Token)
    requires MatchStartsAt(s, i)
    ensures t.start == i && t.negative == (s[i] == '-')
    ensures |t.intDigits| >= 1 && AllDigits(t.intDigits) && AllDigits(t.fracDigits)
  {
    var neg := s[i] == '-';
    var a := if neg then i + 1 else i;
    var b := DigitRunEnd(s, a);
    DigitSlice(s, a, b);
    if b + 1 < |s| && s[b] == '.' && IsDigit(s[b + 1]) then
      var c := DigitRunEnd(s, b + 1);
      DigitSlice(s, b + 1, c);
      Token(i, neg, s[a..b], s[b + 1..c])
    else
      Token(i, neg, s[a..b], "")
  }

  lemma TextOfParts(s: string, i: nat, a: nat, b: nat, c: nat, t: Token)
    requires i <= a <= b <= c <= |s| && a - i <= 1
    requires t.negative == (a == i + 1) && (a == i + 1 ==> s[i] == '-')
    requires t.intDigits == s[a..b]
    requires (b == c && t.fracDigits == []) || (b + 1 < c && s[b] == '.' && t.fracDigits == s[b + 1..c])
    ensures s[i..c] == TokenText(t)
  {
    var sign := if t.negative then "-" else "";
    assert s[i..a] == sign;
    if b == c {
      calc {
        TokenText(t);
        sign + s[a..b] + "";
        s[i..a] + s[a..b];
        s[i..b];
      }
    } else {
      assert s[b..c] == [s[b]] + s[b + 1..c];
      calc {
        TokenText(t);
        sign + s[a..b] + ("." + s[b + 1..c]);
        s[i..a] + s[a..b] + s[b..c];
        s[i..c];
      }
    }
  }

  /** `match[0]`: the token's text is the text found at its start. */
  lemma TokenTextFound(s: string, i: nat)
    requires MatchStartsAt(s, i)
    ensures var t := TokenAt(s, i);
      i + |TokenText(t)| <= |s| && s[i..i + |TokenText(t)|] == TokenText(t)
  {
    var t := TokenAt(s, i);
    var neg := s[i] == '-';
    var a := if neg then i + 1 else i;
    var b := DigitRunEnd(s, a);
    var c := if t.fracDigits == [] then b else DigitRunEnd(s, b + 1);
    TextOfParts(s, i, a, b, c, t);
  }

  /**
   * The match is greedy: the integer digits stop at a non-digit, and the
   * fraction is present exactly when a dot followed by a digit comes next.
   */
  lemma TokenIsGreedy(s: string, i: nat)
    requires MatchStartsAt(s, i)
    ensures var t := TokenAt(s, i);
      var e := i + (if t.negative then 1 else 0) + |t.intDigits|;
      && (e == |s| || !IsDigit(s[e]))
      && (t.fracDigits == [] <==> !(e + 1 < |s| && s[e] == '.' && IsDigit(s[e + 1])))
  {
  }

  function FirstTokenFrom(s: string, from: nat): (r: Option<Token>)
    ensures r.None? ==> forall j :: from <= j < |s| ==> !MatchStartsAt(s, j)
    ensures r.Some? ==>
      from <= r.value.start && MatchStartsAt(s, r.value.start) && r.value == TokenAt(s, r.value.start)
      && forall j :: from <= j < r.value.start ==> !MatchStartsAt(s, j)
    decreases |s| - from
  {
    if from >= |s| then None
    else if MatchStartsAt(s, from) then Some(TokenAt(s, from))
    else FirstTokenFrom(s, from + 1)
  }

  /** `wktString.match(...)`: the leftmost match, or `null`. */
  function FirstToken(s: string): (r: Option<Token>)
    ensures r.None? <==> forall j :: 0 <= j < |s| ==> !MatchStartsAt(s, j)
    ensures r.Some? ==>
      MatchStartsAt(s, r.value.start) && r.value == TokenAt(s, r.value.start)
      && forall j :: 0 <= j < r.value.start ==> !MatchStartsAt(s, j)
  {
    FirstTokenFrom(s, 0)
  }

  /** The value of the fraction digits `d1 d2 …`: `0.d1d2…`. */
  function FracValue(ds: string): (v: real)
    requires AllDigits(ds)
    ensures 0.0 <= v < 1.0
    ensures v > 0.0 <==> exists i :: 0 <= i < |ds| && ds[i] != '0'
    decreases |ds|
  {
    if ds == [] then 0.0
    else
      var rest := FracValue(ds[1..]);
      assert forall i :: 1 <= i < |ds| ==> ds[i] == ds[1..][i - 1];
      (DigitValue(ds[0]) as real + rest) / 10.0
  }

  /** `parseFloat(match[0])`, over exact reals. */
  function TokenValue(t: Token): real
    requires AllDigits(t.intDigits) && AllDigits(t.fracDigits)
  {
    var magnitude := DecimalValue(t.intDigits) as real + FracValue(t.fracDigits);
    if t.negative then -magnitude else magnitude
  }

  /**
   * `isLikelyEPSG3857`: true exactly when there is a first number, it is
   * not negative, and its value exceeds 180. No absolute value is taken,
   * so a large negative first coordinate gives false, and a text with no
   * number gives false.
   */
  function IsLikelyEPSG3857(s: string): (r: bool)
    ensures r <==>
      FirstToken(s).Some?
      && !FirstToken(s).value.negative
      && (DecimalValue(FirstToken(s).value.intDigits) > 180
          || (DecimalValue(FirstToken(s).value.intDigits) == 180 && FracValue(FirstToken(s).value.fracDigits) > 0.0))
  {
    match FirstToken(s)
    case None => false
    case Some(t) => TokenValue(t) > 180.0
  }

  /** The `dataProjection` the loaders pass to the WKT reader. */
  function DataProjection(wkt: string): (p: Projection)
    ensures p == EPSG3857 <==> IsLikelyEPSG3857(wkt)
  {
    if IsLikelyEPSG3857(wkt) then EPSG3857 else EPSG4326
  }

  /** A text whose first number is negative is read as EPSG:4326, however large the number. */
  lemma NegativeFirstNumberIsGeographic(s: string, i: nat)
    requires MatchStartsAt(s, i) && s[i] == '-'
    requires forall j :: 0 <= j < i ==> !MatchStartsAt(s, j)
    ensures DataProjection(s) == EPSG4326
  {
    assert FirstToken(s).value.start == i;
  }

  /** A first number whose integer part is at least 181 makes the text EPSG:3857; at most 179, EPSG:4326. */
  lemma IntegerPartDecides(s: string)
    requires FirstToken(s).Some? && !FirstToken(s).value.negative
    ensures DecimalValue(FirstToken(s).value.intDigits) >= 181 ==> DataProjection(s) == EPSG3857
    ensures DecimalValue(FirstToken(s).value.intDigits) <= 179 ==> DataProjection(s) == EPSG4326
  {
  }
}
