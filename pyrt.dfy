/**
 * The parts of the Python runtime the integration relies on: truthiness, `int()`,
 * `str()` and `float()` of JSON values, and the text form of integers. Library
 * functions the model does not define (json.dumps, json.loads, repr of floats and
 * containers, float() of a string) come in as a `Host`.
 */
module Py {
  import opened Wrappers
  import opened Json
  import opened Exceptions

  /**
   * Host library functions, taken as given: `dumps` is json.dumps, `loads` is
   * json.loads (None when it raises JSONDecodeError), `loadsObject` is json.loads of
   * a text that begins with `{` (whose only possible value is a dict),
   * `decodeError` is str() of the JSONDecodeError json.loads raises for a text,
   * `repr` is str() of a float, a list or a dict, and `parseFloat` is float() of a
   * string (None on ValueError).
   */
  datatype Host = Host(
    dumps: Json -> string,
    loads: string -> Option<Json>,
    loadsObject: string -> Option<Fields>,
    decodeError: string -> string,
    repr: Json -> string,
    parseFloat: string -> Option<real>)

  /** `bool(j)`. */
  predicate Truthy(j: Json) {
    match j
    case JNull => false
    case JBool(b) => b
    case JInt(i) => i != 0
    case JFloat(r) => r != 0.0
    case JStr(s) => |s| > 0
    case JArr(items) => |items| > 0
    case JObj(fields) => |fields| > 0
  }

  /** `c.isspace()`: the characters `str.strip()` removes. */
  predicate IsSpace(c: char) {
    c in {'\U{9}', '\U{A}', '\U{B}', '\U{C}', '\U{D}', '\U{1C}', '\U{1D}', '\U{1E}',
          '\U{1F}', '\U{20}', '\U{85}', '\U{A0}', '\U{1680}', '\U{2000}', '\U{2001}', '\U{2002}',
          '\U{2003}', '\U{2004}', '\U{2005}', '\U{2006}', '\U{2007}', '\U{2008}', '\U{2009}', '\U{200A}',
          '\U{2028}', '\U{2029}', '\U{202F}', '\U{205F}', '\U{3000}'}
  }

  /**
   * The characters int() skips around a literal. CPython first turns each non-ASCII
   * whitespace character into a space and then skips only tab, line feed, vertical
   * tab, form feed, carriage return and space, so the separators U+001C to U+001F,
   * which `str.isspace()` counts as whitespace, are refused.
   */
  predicate IsIntSpace(c: char) {
    IsSpace(c) && !('\U{1C}' <= c <= '\U{1F}')
  }

  predicate IsDigit(c: char) {
    '0' <= c <= '9'
  }

  predicate AllDigits(s: string) {
    forall i :: 0 <= i < |s| ==> IsDigit(s[i])
  }

  function DigitChar(d: nat): (c: char)
    requires d < 10
    ensures IsDigit(c)
  {
    ['0', '1', '2', '3', '4', '5', '6', '7', '8', '9'][d]
  }

  function DigitValue(c: char): (d: nat)
    requires IsDigit(c)
    ensures d < 10
  {
    (c as int) - ('0' as int)
  }

  lemma DigitValueOfChar(d: nat)
    requires d < 10
    ensures DigitValue(DigitChar(d)) == d
  {
  }

  /** `s.lstrip()` when `ws` is IsSpace: the leading characters `ws` holds for removed. */
  function StripLeft(s: string, ws: char -> bool): (r: string)
    ensures |r| <= |s| && r == s[|s| - |r|..]
    ensures forall i :: 0 <= i < |s| - |r| ==> ws(s[i])
    ensures |r| > 0 ==> !ws(r[0])
  {
    if |s| > 0 && ws(s[0]) then StripLeft(s[1..], ws) else s
  }

  /** `s.rstrip()` when `ws` is IsSpace: the trailing characters `ws` holds for removed. */
  function StripRight(s: string, ws: char -> bool): (r: string)
    ensures |r| <= |s| && r == s[..|r|]
    ensures forall i :: |r| <= i < |s| ==> ws(s[i])
    ensures |r| > 0 ==> !ws(r[|r| - 1])
  {
    if |s| > 0 && ws(s[|s| - 1]) then StripRight(s[..|s| - 1], ws) else s
  }

  /** `s.strip()`. */
  function Strip(s: string): string {
    StripRight(StripLeft(s, IsSpace), IsSpace)
  }

  /** The text int() reads once the whitespace it skips around a literal is gone. */
  function IntStrip(s: string): string {
    StripRight(StripLeft(s, IsIntSpace), IsIntSpace)
  }

  /**
   * The digit part of a base-10 integer literal as int() accepts it: digits, with
   * single underscores allowed between two digits.
   */
  predicate DigitGroups(r: string) {
    |r| > 0 && forall i :: 0 <= i < |r| ==> GroupChar(r, i)
  }

  /** Position `i` of a digit group holds a digit, or an underscore between two digits. */
  predicate GroupChar(r: string, i: int)
    requires 0 <= i < |r|
  {
    IsDigit(r[i]) || (r[i] == '_' && 0 < i < |r| - 1 && IsDigit(r[i - 1]) && IsDigit(r[i + 1]))
  }

  /** The digits of `r` with the underscores taken out. */
  function DropUnderscores(r: string): (d: string)
    requires forall i :: 0 <= i < |r| ==> IsDigit(r[i]) || r[i] == '_'
    ensures AllDigits(d)
    ensures AllDigits(r) ==> d == r
  {
    if |r| == 0 then []
    else if r[0] == '_' then DropUnderscores(r[1..])
    else [r[0]] + DropUnderscores(r[1..])
  }

  /** The number a string of decimal digits denotes. */
  function DecimalValue(d: string): nat
    requires AllDigits(d)
  {
    if |d| == 0 then 0 else 10 * DecimalValue(d[..|d| - 1]) + DigitValue(d[|d| - 1])
  }

  /** The unsigned integer a digit group denotes. */
  function GroupValue(r: string): nat
    requires DigitGroups(r)
  {
    assert forall i :: 0 <= i < |r| ==> IsDigit(r[i]) || r[i] == '_' by {
      forall i | 0 <= i < |r| ensures IsDigit(r[i]) || r[i] == '_' {
        assert GroupChar(r, i);
      }
    }
    DecimalValue(DropUnderscores(r))
  }

  /** The optional sign and digits of an int() literal, whitespace already stripped. */
  function ParseSigned(t: string): Option<int> {
    if |t| > 0 && (t[0] == '+' || t[0] == '-') then
      if DigitGroups(t[1..]) then
        var n: int := GroupValue(t[1..]);
        Some(if t[0] == '-' then -n else n)
      else None
    else if DigitGroups(t) then Some(GroupValue(t))
    else None
  }

  /**
   * The longest digit string int() and str() convert between text and int: the
   * default of `sys.get_int_max_str_digits()`.
   */
  const MaxStrDigits := 4300

  /** The number of decimal digits in `s`; underscores, signs and spaces do not count. */
  function DigitCount(s: string): nat {
    if |s| == 0 then 0 else (if IsDigit(s[0]) then 1 else 0) + DigitCount(s[1..])
  }

  /**
   * The syntax of a base-10 int() literal: the surrounding IsIntSpace characters are
   * ignored, then an optional sign, then digit groups. None where the text is not
   * such a literal.
   */
  function ParseIntLiteral(s: string): Option<int> {
    ParseSigned(IntStrip(s))
  }

  /**
   * `int(s)` for a str `s`, base 10: a literal of at most MaxStrDigits digits.
   * None where int() raises ValueError.
   */
  function ParseInt(s: string): Option<int> {
    if DigitCount(s) > MaxStrDigits then None else ParseIntLiteral(s)
  }

  /** Every character int() accepts is whitespace it skips, a digit, a sign or an underscore. */
  lemma ParseIntCharset(s: string)
    requires ParseInt(s).Some?
    ensures forall i :: 0 <= i < |s| ==> IsIntSpace(s[i]) || IsDigit(s[i]) || s[i] in "+-_"
  {
    var l := StripLeft(s, IsIntSpace);
    var t := IntStrip(s);
    forall i | 0 <= i < |s| && !IsIntSpace(s[i]) ensures IsDigit(s[i]) || s[i] in "+-_" {
      assert i >= |s| - |l|;
      var k := i - (|s| - |l|);
      assert s[i] == l[k];
      assert k < |t|;
      assert t[k] == s[i];
      if t[0] == '+' || t[0] == '-' {
        if k > 0 {
          assert t[k] == t[1..][k - 1];
          assert GroupChar(t[1..], k - 1);
        }
      } else {
        assert GroupChar(t, k);
      }
    }
  }

  /**
   * A separator U+001C to U+001F anywhere in the text makes int() raise, although
   * it is whitespace to `str.isspace()` and `str.strip()` would remove it.
   */
  lemma ParseIntRefusesSeparator(s: string, i: int)
    requires 0 <= i < |s| && '\U{1C}' <= s[i] <= '\U{1F}'
    ensures ParseInt(s) == None
    ensures IsSpace(s[i])
  {
    SeparatorChar(s[i]);
    if ParseInt(s).Some? {
      ParseIntCharset(s);
      assert false;
    }
  }

  lemma SeparatorChar(c: char)
    requires '\U{1C}' <= c <= '\U{1F}'
    ensures IsSpace(c) && !IsIntSpace(c) && !IsDigit(c) && c !in "+-_"
  {
  }

  /** `str(n)` for a non-negative int. */
  function NatToDecimal(n: nat): (s: string)
    ensures |s| > 0 && AllDigits(s)
  {
    if n < 10 then [DigitChar(n)] else NatToDecimal(n / 10) + [DigitChar(n % 10)]
  }

  /** `str(i)` for an int. */
  function IntToDecimal(i: int): string {
    if i < 0 then "-" + NatToDecimal(-i) else NatToDecimal(i)
  }

  lemma {:induction false} NatToDecimalValue(n: nat)
    ensures DecimalValue(NatToDecimal(n)) == n
  {
    var s := NatToDecimal(n);
    if n < 10 {
      DigitValueOfChar(n);
    } else {
      NatToDecimalValue(n / 10);
      assert s[..|s| - 1] == NatToDecimal(n / 10);
      DigitValueOfChar(n % 10);
    }
  }

  lemma DigitsAreGroups(d: string)
    requires |d| > 0 && AllDigits(d)
    ensures DigitGroups(d) && GroupValue(d) == DecimalValue(d)
  {
    assert forall i :: 0 <= i < |d| ==> GroupChar(d, i);
  }

  lemma {:induction false} NatDecimalStripped(n: nat)
    ensures IntStrip(NatToDecimal(n)) == NatToDecimal(n)
  {
    var s := NatToDecimal(n);
    assert !IsIntSpace(s[0]);
    assert StripLeft(s, IsIntSpace) == s;
    assert !IsIntSpace(s[|s| - 1]);
  }

  lemma {:induction false} NegDecimalStripped(n: nat)
    ensures IntStrip("-" + NatToDecimal(n)) == "-" + NatToDecimal(n)
  {
    var d := NatToDecimal(n);
    var s := "-" + d;
    assert !IsIntSpace(s[0]);
    assert StripLeft(s, IsIntSpace) == s;
    assert s[|s| - 1] == d[|d| - 1];
    assert !IsIntSpace(s[|s| - 1]);
  }

  lemma ParseSignedNegative(d: string)
    requires |d| > 0 && AllDigits(d)
    ensures ParseSigned("-" + d) == Some(-(DecimalValue(d) as int))
  {
    var t := "-" + d;
    assert t[0] == '-';
    assert t[1..] == d;
    DigitsAreGroups(d);
  }

  lemma ParseSignedDigits(d: string)
    requires |d| > 0 && AllDigits(d)
    ensures ParseSigned(d) == Some(DecimalValue(d))
  {
    assert IsDigit(d[0]);
    DigitsAreGroups(d);
  }

  lemma ParseIntOfStripped(s: string, v: int)
    requires IntStrip(s) == s && ParseSigned(s) == Some(v)
    ensures ParseIntLiteral(s) == Some(v)
  {
  }

  /** Every character of a decimal numeral is a digit, so its digit count is its length. */
  lemma {:induction false} DigitCountOfDigits(d: string)
    requires AllDigits(d)
    ensures DigitCount(d) == |d|
  {
    if |d| > 0 {
      DigitCountOfDigits(d[1..]);
    }
  }

  /** The number of digits `str(i)` writes. */
  function DecimalDigits(i: int): nat {
    if i < 0 then |NatToDecimal(-i)| else |NatToDecimal(i)|
  }

  lemma {:induction false} ParseSignedNatDecimal(n: nat)
    ensures ParseSigned(NatToDecimal(n)) == Some(n as int)
  {
    ParseSignedDigits(NatToDecimal(n));
    NatToDecimalValue(n);
  }

  lemma {:induction false} ParseSignedNegDecimal(n: nat)
    ensures ParseSigned("-" + NatToDecimal(n)) == Some(-(n as int))
  {
    ParseSignedNegative(NatToDecimal(n));
    NatToDecimalValue(n);
  }

  lemma {:induction false} ParseIntNat(n: nat)
    ensures ParseIntLiteral(NatToDecimal(n)) == Some(n as int)
  {
    NatDecimalStripped(n);
    ParseSignedNatDecimal(n);
    ParseIntOfStripped(NatToDecimal(n), n as int);
  }

  lemma {:induction false} ParseIntNeg(n: nat)
    ensures ParseIntLiteral("-" + NatToDecimal(n)) == Some(-(n as int))
  {
    NegDecimalStripped(n);
    ParseSignedNegDecimal(n);
    ParseIntOfStripped("-" + NatToDecimal(n), -(n as int));
  }

  /** The text `str(i)` produces is an int() literal denoting `i`, whatever its length. */
  lemma {:induction false} ParseIntLiteralRoundTrip(i: int)
    ensures ParseIntLiteral(IntToDecimal(i)) == Some(i)
  {
    var s := IntToDecimal(i);
    if i < 0 {
      var n: nat := -i;
      assert s == "-" + NatToDecimal(n);
      ParseIntNeg(n);
    } else {
      var n: nat := i;
      assert s == NatToDecimal(n);
      ParseIntNat(n);
    }
  }

  /**
   * The text `str(i)` produces reads back as `i` through `int()` exactly when it
   * has at most MaxStrDigits digits; a longer one is refused with ValueError.
   */
  lemma {:induction false} ParseIntRoundTrip(i: int)
    ensures ParseInt(IntToDecimal(i)) == (if DecimalDigits(i) <= MaxStrDigits then Some(i) else None)
  {
    ParseIntLiteralRoundTrip(i);
    var s := IntToDecimal(i);
    if i < 0 {
      var d := NatToDecimal(-i);
      assert s == "-" + d && s[1..] == d;
      DigitCountOfDigits(d);
      assert DigitCount(s) == |d|;
    } else {
      DigitCountOfDigits(s);
    }
  }

  /** `int(j)` for a JSON value; a float is truncated toward zero. */
  function IntOf(j: Json): (r: Result<int, Exc>)
    ensures r.Err? ==> r.error == ValueError || r.error == TypeError
    ensures j.JInt? ==> r == Ok(j.i)
    ensures r.Err? && r.error == ValueError <==> j.JStr? && ParseInt(j.s).None?
    ensures r.Err? && r.error == TypeError <==> j.JNull? || j.JArr? || j.JObj?
    ensures j.JStr? && ParseInt(j.s).Some? ==> r == Ok(ParseInt(j.s).value)
  {
    match j
    case JInt(i) => Ok(i)
    case JBool(b) => Ok(if b then 1 else 0)
    case JFloat(x) => Ok(if x >= 0.0 then x.Floor else -((-x).Floor))
    case JStr(s) => if ParseInt(s).Some? then Ok(ParseInt(s).value) else Err(ValueError)
    case _ => Err(TypeError)
  }

  /**
   * The least integer magnitude float() refuses: 2^1024 - 2^970, half-way between
   * the largest double and 2^1024, which round-half-to-even takes to 2^1024.
   */
  const FloatOverflow: int := 179769313486231580793728971405303415079934132710037826936173778980444968292764750946649017977587207096330286416692887910946555547851940402630657488671505820681908902000708383676273854845817711531764475730270069855571366959622842914819860834936475292719074168444365510704342711559699508093042880177904174497792

  /** float() of this int stays within the double range. */
  predicate FitsDouble(i: int) {
    -FloatOverflow < i < FloatOverflow
  }

  /**
   * `float(j)` for a JSON value. An int beyond the double range raises
   * OverflowError; None, a list or a dict raises TypeError; a string float()
   * rejects raises ValueError.
   */
  function FloatOf(h: Host, j: Json): (r: Result<real, Exc>)
    ensures r.Err? ==> r.error == ValueError || r.error == TypeError || r.error == OverflowError
    ensures r.Err? && r.error == TypeError <==> j.JNull? || j.JArr? || j.JObj?
    ensures r.Err? && r.error == OverflowError <==> j.JInt? && !FitsDouble(j.i)
    ensures r.Err? && r.error == ValueError <==> j.JStr? && h.parseFloat(j.s).None?
    ensures j.JFloat? ==> r == Ok(j.r)
    ensures j.JInt? && FitsDouble(j.i) ==> r == Ok(j.i as real)
  {
    match j
    case JInt(i) => if FitsDouble(i) then Ok(i as real) else Err(OverflowError)
    case JBool(b) => Ok(if b then 1.0 else 0.0)
    case JFloat(x) => Ok(x)
    case JStr(s) => if h.parseFloat(s).Some? then Ok(h.parseFloat(s).value) else Err(ValueError)
    case _ => Err(TypeError)
  }

  /** `str(j)`; the host's repr supplies the text of floats, lists and dicts. */
  function StrOf(h: Host, j: Json): (r: string)
    ensures j.JStr? ==> r == j.s
    ensures j.JInt? && DecimalDigits(j.i) <= MaxStrDigits ==> ParseInt(r) == Some(j.i)
  {
    match j
    case JStr(s) => s
    case JNull => "None"
    case JBool(b) => if b then "True" else "False"
    case JInt(i) => ParseIntRoundTrip(i); IntToDecimal(i)
    case _ => h.repr(j)
  }
}
