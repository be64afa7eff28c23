/**
 * The global `parseInt(string, 10)` of ECMA-262 (section 19.2.5, "parseInt ( string, radix )"),
 * on strings of Unicode characters, with the result an unbounded mathematical integer and
 * `None` standing for NaN.  Also the decimal rendering of an integer, its inverse.
 */
module JsParseInt {
  import opened Wrappers

  /**
   * StrWhiteSpaceChar: WhiteSpace (TAB, VT, FF, ZWNBSP and every code point of
   * Unicode category Zs) and LineTerminator (LF, CR, LS, PS).
   */
  const StrWhiteSpaceChars: set<char> := {
    '\t', '\U{000B}', '\U{000C}', '\U{FEFF}',
    ' ', '\U{00A0}', '\U{1680}',
    '\U{2000}', '\U{2001}', '\U{2002}', '\U{2003}', '\U{2004}', '\U{2005}',
    '\U{2006}', '\U{2007}', '\U{2008}', '\U{2009}', '\U{200A}',
    '\U{202F}', '\U{205F}', '\U{3000}',
    '\n', '\r', '\U{2028}', '\U{2029}'
  }

  predicate IsStrWhiteSpace(c: char) {
    c in StrWhiteSpaceChars
  }

  predicate AllWhiteSpace(s: string) {
    forall i :: 0 <= i < |s| ==> IsStrWhiteSpace(s[i])
  }

  /** A radix-10 digit: only the ASCII digits count. */
  predicate IsDecimalDigit(c: char) {
    '0' <= c <= '9'
  }

  predicate AllDigits(s: string) {
    forall i :: 0 <= i < |s| ==> IsDecimalDigit(s[i])
  }

  /** The optional sign parseInt accepts after the white space. */
  predicate IsSignPrefix(sign: string) {
    sign == "" || sign == "+" || sign == "-"
  }

  /** The value of a digit run under a sign prefix. */
  function Signed(sign: string, v: nat): int {
    if sign == "-" then 0 - v else v
  }

  function DigitValue(c: char): (d: nat)
    requires IsDecimalDigit(c)
    ensures d < 10
  {
    c as int - '0' as int
  }

  function DigitChar(d: nat): (c: char)
    requires d < 10
    ensures IsDecimalDigit(c) && DigitValue(c) == d
  {
    ('0' as int + d) as char
  }

  /** TrimString(S, start): the input without its leading white space. */
  function TrimStart(s: string): string {
    if s != [] && IsStrWhiteSpace(s[0]) then TrimStart(s[1..]) else s
  }

  /** Z: the longest prefix consisting of radix-10 digits. */
  function LeadingDigits(s: string): (z: string)
    ensures AllDigits(z)
  {
    if s != [] && IsDecimalDigit(s[0]) then [s[0]] + LeadingDigits(s[1..]) else []
  }

  /** The mathematical value of a digit string, most significant digit first. */
  function DigitsValue(z: string): nat
    requires AllDigits(z)
  {
    if z == [] then 0 else DigitsValue(z[..|z| - 1]) * 10 + DigitValue(z[|z| - 1])
  }

  /** The value of the longest leading digit run; `None` when that run is empty. */
  function ParseDigits(r: string): Option<nat> {
    var z := LeadingDigits(r);
    if z == [] then None else Some(DigitsValue(z))
  }

  /** The length of the sign prefix (`+` or `-`) at the start of a trimmed string. */
  function SignLength(t: string): (k: nat)
    ensures k <= |t| && IsSignPrefix(t[..k])
  {
    if t != [] && (t[0] == '-' || t[0] == '+') then 1 else 0
  }

  /** Steps after trimming: an optional sign, then the digits. */
  function ParseSignedDigits(t: string): Option<int> {
    var k := SignLength(t);
    match ParseDigits(t[k..])
    case None => None
    case Some(v) => Some(Signed(t[..k], v))
  }

  /** parseInt(s, 10); `None` is NaN. */
  function ParseInt10(s: string): Option<int> {
    ParseSignedDigits(TrimStart(s))
  }

  /** The decimal rendering of a natural number: no sign, no leading zero. */
  function NatToDecimal(n: nat): (s: string)
    ensures |s| > 0 && AllDigits(s)
    ensures s[0] == '0' ==> n == 0
  {
    if n < 10 then [DigitChar(n)] else NatToDecimal(n / 10) + [DigitChar(n % 10)]
  }

  /** The decimal rendering of an integer, as `String(n)` gives it for a safe integer. */
  function IntToDecimal(n: int): string {
    if n < 0 then "-" + NatToDecimal(-n) else NatToDecimal(n)
  }

  // ---------------------------------------------------------------------------
  // Lemmas

  lemma {:induction false} TrimStartSkipsWhiteSpace(w: string, x: string)
    requires AllWhiteSpace(w)
    requires x == [] || !IsStrWhiteSpace(x[0])
    ensures TrimStart(w + x) == x
  {
    if w == [] {
      assert w + x == x;
    } else {
      assert (w + x)[1..] == w[1..] + x;
      TrimStartSkipsWhiteSpace(w[1..], x);
    }
  }

  lemma {:induction false} LeadingDigitsOfDigitRun(d: string, tail: string)
    requires AllDigits(d)
    requires tail == [] || !IsDecimalDigit(tail[0])
    ensures LeadingDigits(d + tail) == d
  {
    if d == [] {
      assert d + tail == tail;
    } else {
      assert (d + tail)[1..] == d[1..] + tail;
      LeadingDigitsOfDigitRun(d[1..], tail);
    }
  }

  /** The value of a rendering is the number rendered. */
  lemma {:induction false} DigitsValueOfNatToDecimal(n: nat)
    ensures DigitsValue(NatToDecimal(n)) == n
  {
    var s := NatToDecimal(n);
    if n >= 10 {
      assert s[..|s| - 1] == NatToDecimal(n / 10);
      DigitsValueOfNatToDecimal(n / 10);
    }
  }

  lemma ParseDigitsOfDigitRun(d: string, tail: string)
    requires d != [] && AllDigits(d)
    requires tail == [] || !IsDecimalDigit(tail[0])
    ensures ParseDigits(d + tail) == Some(DigitsValue(d))
  {
    LeadingDigitsOfDigitRun(d, tail);
  }

  lemma SignLengthOfSignedRun(sign: string, y: string)
    requires IsSignPrefix(sign)
    requires y != [] && y[0] != '+' && y[0] != '-'
    ensures SignLength(sign + y) == |sign|
  {
    var x := sign + y;
    assert x[0] == if sign == "" then y[0] else sign[0];
  }

  lemma ParseSignedDigitsAfterSign(sign: string, y: string)
    requires IsSignPrefix(sign)
    requires SignLength(sign + y) == |sign|
    ensures ParseSignedDigits(sign + y) ==
      match ParseDigits(y)
      case None => None
      case Some(v) => Some(Signed(sign, v))
  {
    var x := sign + y;
    assert x[..|sign|] == sign && x[|sign|..] == y;
  }

  lemma ParseSignedDigitsOfNumeric(sign: string, d: string, tail: string)
    requires IsSignPrefix(sign)
    requires d != [] && AllDigits(d)
    requires tail == [] || !IsDecimalDigit(tail[0])
    ensures ParseSignedDigits(sign + d + tail) == Some(Signed(sign, DigitsValue(d)))
  {
    var y := d + tail;
    assert sign + d + tail == sign + y;
    assert y[0] == d[0];
    ParseDigitsOfDigitRun(d, tail);
    SignLengthOfSignedRun(sign, y);
    ParseSignedDigitsAfterSign(sign, y);
  }

  /**
   * White space, an optional sign and a non-empty run of digits that is not followed by
   * another digit parse as the signed value of that run; whatever follows is ignored.
   */
  lemma ParseIntOfNumeric(w: string, sign: string, d: string, tail: string)
    requires AllWhiteSpace(w) && IsSignPrefix(sign)
    requires d != [] && AllDigits(d)
    requires tail == [] || !IsDecimalDigit(tail[0])
    ensures ParseInt10(w + sign + d + tail) == Some(Signed(sign, DigitsValue(d)))
  {
    var x := sign + d + tail;
    assert w + sign + d + tail == w + x;
    assert x[0] == if sign == "" then d[0] else sign[0];
    TrimStartSkipsWhiteSpace(w, x);
    ParseSignedDigitsOfNumeric(sign, d, tail);
  }

  /**
   * White space, an optional sign and then no digit parse as NaN.  Without a sign, what
   * follows the white space must be neither more white space nor a sign character.
   */
  lemma ParseIntOfNonNumeric(w: string, sign: string, tail: string)
    requires AllWhiteSpace(w) && IsSignPrefix(sign)
    requires tail == [] || !IsDecimalDigit(tail[0])
    requires sign == "" && tail != [] ==> !IsStrWhiteSpace(tail[0]) && tail[0] != '+' && tail[0] != '-'
    ensures ParseInt10(w + sign + tail) == None
  {
    var x := sign + tail;
    assert w + sign + tail == w + x;
    TrimStartSkipsWhiteSpace(w, x);
    assert ParseDigits(tail) == None;
    assert SignLength(x) == |sign|;
    assert x[|sign|..] == tail;
  }

  lemma ConcatRegroup(a: string, b: string, c: string, e: string)
    ensures a + (b + (c + e)) == a + b + c + e
  {
  }

  /**
   * What TrimStart removes is a run of white space at the front of the input, and what
   * it keeps does not start with white space.
   */
  lemma {:induction false} SplitWhiteSpace(s: string) returns (w: string, t: string)
    ensures s == w + t && t == TrimStart(s) && AllWhiteSpace(w)
    ensures t == [] || !IsStrWhiteSpace(t[0])
  {
    if s != [] && IsStrWhiteSpace(s[0]) {
      var w';
      w', t := SplitWhiteSpace(s[1..]);
      w := [s[0]] + w';
      assert s == [s[0]] + s[1..];
      assert forall i :: 0 < i < |w| ==> w[i] == w'[i - 1];
    } else {
      w, t := [], s;
    }
  }

  /** The sign prefix splits off the front of a trimmed string. */
  lemma SplitSign(t: string) returns (sign: string, rest: string)
    ensures t == sign + rest && IsSignPrefix(sign)
    ensures sign == t[..SignLength(t)] && rest == t[SignLength(t)..]
  {
    sign := t[..SignLength(t)];
    rest := t[SignLength(t)..];
  }

  /**
   * LeadingDigits takes a prefix of the input, and what follows that prefix does not
   * start with a digit: the run is the longest one.
   */
  lemma {:induction false} SplitLeadingDigits(rest: string) returns (d: string, tail: string)
    ensures rest == d + tail && d == LeadingDigits(rest)
    ensures tail == [] || !IsDecimalDigit(tail[0])
  {
    if rest != [] && IsDecimalDigit(rest[0]) {
      var d';
      d', tail := SplitLeadingDigits(rest[1..]);
      d := [rest[0]] + d';
      assert rest == [rest[0]] + rest[1..];
      assert forall i :: 0 < i < |d| ==> d[i] == d'[i - 1];
    } else {
      d, tail := [], rest;
    }
  }

  /** parseInt's steps: trim, take the sign, read the digits. */
  lemma ParseIntSteps(s: string, t: string, sign: string, rest: string)
    requires t == TrimStart(s) && sign == t[..SignLength(t)] && rest == t[SignLength(t)..]
    ensures ParseInt10(s) ==
      match ParseDigits(rest)
      case None => None
      case Some(v) => Some(Signed(sign, v))
  {
  }

  /** Every string parseInt accepts has the shape of ParseIntOfNumeric. */
  lemma ParseIntSomeShape(s: string) returns (w: string, sign: string, d: string, tail: string)
    requires ParseInt10(s).Some?
    ensures s == w + sign + d + tail
    ensures AllWhiteSpace(w) && IsSignPrefix(sign) && d != [] && AllDigits(d)
    ensures tail == [] || !IsDecimalDigit(tail[0])
    ensures ParseInt10(s).value == Signed(sign, DigitsValue(d))
  {
    var t, rest;
    w, t := SplitWhiteSpace(s);
    sign, rest := SplitSign(t);
    ParseIntSteps(s, t, sign, rest);
    assert ParseDigits(rest).Some?;
    d, tail := SplitLeadingDigits(rest);
    assert s == w + (sign + (d + tail));
    ConcatRegroup(w, sign, d, tail);
    ParseIntOfNumeric(w, sign, d, tail);
  }

  /** Every string parseInt rejects has the shape of ParseIntOfNonNumeric. */
  lemma ParseIntNoneShape(s: string) returns (w: string, sign: string, tail: string)
    requires ParseInt10(s).None?
    ensures s == w + sign + tail
    ensures AllWhiteSpace(w) && IsSignPrefix(sign)
    ensures tail == [] || !IsDecimalDigit(tail[0])
    ensures sign == "" && tail != [] ==> !IsStrWhiteSpace(tail[0]) && tail[0] != '+' && tail[0] != '-'
  {
    var t;
    w, t := SplitWhiteSpace(s);
    sign, tail := SplitSign(t);
    ParseIntSteps(s, t, sign, tail);
    assert LeadingDigits(tail) == [];
    assert s == w + (sign + tail);
    ConcatRegroup(w, sign, tail, "");
    assert tail + "" == tail;
  }

  /** A rendering behind a sign parses back to the signed number. */
  lemma ParseIntOfRendering(sign: string, m: nat)
    requires IsSignPrefix(sign)
    ensures ParseInt10(sign + NatToDecimal(m)) == Some(Signed(sign, m))
  {
    var d := NatToDecimal(m);
    assert "" + sign == sign;
    assert sign + d + "" == sign + d;
    DigitsValueOfNatToDecimal(m);
    ParseIntOfNumeric("", sign, d, "");
  }

  /** parseInt(String(n), 10) == n for every integer n. */
  lemma ParseIntRoundTrip(n: int)
    ensures ParseInt10(IntToDecimal(n)) == Some(n)
  {
    var rendering := IntToDecimal(n);
    if n < 0 {
      assert rendering == "-" + NatToDecimal(-n);
      ParseIntOfRendering("-", -n);
    } else {
      assert rendering == "" + NatToDecimal(n);
      ParseIntOfRendering("", n);
    }
  }
}
