/**
  The slice of JavaScript values the product stores handle: JSON-like values,
  plain objects as string-keyed maps, truthiness, object spread, `parseInt`
  and the decimal text of an integer (what `${id}` puts into a URL).
 */
module Js {
  import opened Options
  import opened Text

  /**
    A JavaScript value. Objects and arrays are `Ref`s to an address, so that strict
    equality (`===`) is equality of these values: primitives by value, objects by identity.
    Numbers are finite (the stores never hold NaN or an infinity).
   */
  datatype JsValue =
    | Undefined
    | Null
    | Bool(b: bool)
    | Num(n: real)
    | Str(s: string)
    | Ref(address: nat)

  /** JavaScript truthiness: `undefined`, `null`, `false`, `0` and `""` are falsy. */
  predicate Truthy(v: JsValue) {
    match v
    case Undefined => false
    case Null => false
    case Bool(b) => b
    case Num(n) => n != 0.0
    case Str(s) => s != []
    case Ref(_) => true
  }

  /** A plain object: its own enumerable properties. */
  type Object = map<string, JsValue>

  /** `o[key]`: a missing property reads as `undefined`. */
  function Get(o: Object, key: string): JsValue {
    if key in o then o[key] else Undefined
  }

  /** `{ ...base, ...over }`: every property of both, `over` winning where both have one. */
  function Spread(base: Object, over: Object): (r: Object)
    ensures r.Keys == base.Keys + over.Keys
    ensures forall k :: k in over ==> Get(r, k) == over[k]
    ensures forall k :: k !in over ==> Get(r, k) == Get(base, k)
  {
    base + over
  }

  // ---- parseInt(string) with no radix argument ----

  /** The value of a hexadecimal digit character, if it is one. */
  function HexValue(c: char): (v: Option<nat>)
    ensures v.Some? ==> v.value < 16
  {
    if '0' <= c <= '9' then Some(c as int - '0' as int)
    else if 'a' <= c <= 'f' then Some(c as int - 'a' as int + 10)
    else if 'A' <= c <= 'F' then Some(c as int - 'A' as int + 10)
    else None
  }

  predicate IsDigitIn(c: char, radix: nat) {
    HexValue(c).Some? && HexValue(c).value < radix
  }

  predicate AllDigits(s: string, radix: nat) {
    forall i :: 0 <= i < |s| ==> IsDigitIn(s[i], radix)
  }

  /** The length of the longest prefix of `s` made of digits of `radix`. */
  function DigitRun(s: string, radix: nat): (n: nat)
    ensures n <= |s|
    ensures forall i :: 0 <= i < n ==> IsDigitIn(s[i], radix)
    ensures n == |s| || !IsDigitIn(s[n], radix)
  {
    if s == [] || !IsDigitIn(s[0], radix) then 0 else 1 + DigitRun(s[1..], radix)
  }

  /** The number written by a string of digits of `radix`, most significant first. */
  function ValueOf(ds: string, radix: nat): nat
    requires AllDigits(ds, radix)
  {
    if ds == [] then 0
    else
      assert IsDigitIn(ds[|ds| - 1], radix);
      ValueOf(ds[..|ds| - 1], radix) * radix + HexValue(ds[|ds| - 1]).value
  }

  /**
    The unsigned part of `parseInt`: hexadecimal after a `0x`/`0X` prefix, decimal otherwise,
    up to the first character that is not a digit; None (NaN) when no digit was read.
   */
  function ParseMagnitude(u: string): Option<nat> {
    var hex := |u| >= 2 && u[0] == '0' && (u[1] == 'x' || u[1] == 'X');
    var radix := if hex then 16 else 10;
    var digits := if hex then u[2..] else u;
    var n := DigitRun(digits, radix);
    if n == 0 then None else Some(ValueOf(digits[..n], radix))
  }

  /**
    `parseInt(s)` with no radix: skip leading white space, take one optional sign, read the
    magnitude. Blank text is NaN, and only a leading minus gives a negative number.
   */
  function ParseInt(s: string): (r: Option<int>)
    ensures TrimStart(s) == [] ==> r.None?
    ensures r.Some? && r.value < 0 ==> TrimStart(s) != [] && TrimStart(s)[0] == '-'
  {
    var t := TrimStart(s);
    if t != [] && (t[0] == '-' || t[0] == '+') then
      match ParseMagnitude(t[1..])
      case None => None
      case Some(v) =>
        var m: int := v;
        Some(if t[0] == '-' then -m else m)
    else
      match ParseMagnitude(t)
      case None => None
      case Some(v) => Some(v)
  }

  // ---- the decimal text of an integer ----

  predicate IsDecimalDigit(c: char) {
    '0' <= c <= '9'
  }

  function DigitChar(d: nat): (c: char)
    requires d < 10
    ensures IsDecimalDigit(c) && HexValue(c) == Some(d)
  {
    ('0' as int + d) as char
  }

  /** The decimal numeral of a natural number, without leading zeros. */
  function DecimalNat(n: nat): (s: string)
    ensures |s| > 0
    ensures forall i :: 0 <= i < |s| ==> IsDecimalDigit(s[i])
  {
    (if n < 10 then [] else DecimalNat(n / 10)) + [DigitChar(n % 10)]
  }

  /**
    JavaScript writes an integer-valued number in plain digits only while its magnitude is
    below 10^21; from there on `String(n)` uses exponent notation (`1e+21`).
   */
  const PlainLimit: int := 1000000000000000000000

  predicate PlainNotation(n: int) {
    -PlainLimit < n < PlainLimit
  }

  /**
    `String(n)` for an integer-valued number in plain notation (see `PlainNotation`): a minus
    sign for negatives, then the numeral. Beyond that range this is not what JavaScript writes.
   */
  function Decimal(n: int): (s: string)
    ensures |s| > 0 && (s[0] == '-' || IsDecimalDigit(s[0]))
  {
    if n < 0 then "-" + DecimalNat(-n) else DecimalNat(n)
  }

  /** Reading back a numeral gives the number it was written from. */
  lemma {:induction false} ValueOfDecimalNat(n: nat)
    ensures AllDigits(DecimalNat(n), 10)
    ensures ValueOf(DecimalNat(n), 10) == n
  {
    var s := DecimalNat(n);
    var d := n % 10;
    var init := if n < 10 then [] else DecimalNat(n / 10);
    assert s == init + [DigitChar(d)];
    assert s[..|s| - 1] == init;
    assert AllDigits(s, 10) by {
      forall i | 0 <= i < |s| ensures IsDigitIn(s[i], 10) {
        assert IsDecimalDigit(s[i]);
      }
    }
    if n >= 10 {
      ValueOfDecimalNat(n / 10);
    }
    assert ValueOf(init, 10) == n / 10;
    assert ValueOf(s, 10) == ValueOf(init, 10) * 10 + d;
  }

  /** A string of digits is read to its end. */
  lemma {:induction false} DigitRunAll(s: string, radix: nat)
    requires AllDigits(s, radix)
    ensures DigitRun(s, radix) == |s|
  {
    if s != [] {
      DigitRunAll(s[1..], radix);
    }
  }

  /** Decimal digits with no `x` in second place are read as a decimal number to their end. */
  lemma ParseMagnitudeDigits(u: string)
    requires u != [] && AllDigits(u, 10)
    requires |u| >= 2 ==> u[1] != 'x' && u[1] != 'X'
    ensures ParseMagnitude(u) == Some(ValueOf(u, 10))
  {
    DigitRunAll(u, 10);
    assert u[..|u|] == u;
  }

  /** A numeral is read back as the number it was written from. */
  lemma ParseMagnitudeDecimal(m: nat)
    ensures ParseMagnitude(DecimalNat(m)) == Some(m)
  {
    var u := DecimalNat(m);
    ValueOfDecimalNat(m);
    assert |u| >= 2 ==> IsDecimalDigit(u[1]);
    ParseMagnitudeDigits(u);
  }

  /** A visible first character that is not a sign: the whole text is the magnitude. */
  lemma ParseIntUnsigned(t: string)
    requires t != [] && !IsJsSpace(t[0]) && t[0] != '-' && t[0] != '+'
    requires ParseMagnitude(t).Some?
    ensures ParseInt(t) == Some(ParseMagnitude(t).value)
  {
    TrimStartVisible(t);
  }

  /** A leading minus negates the magnitude that follows it. */
  lemma ParseIntNegative(t: string)
    requires t != [] && t[0] == '-' && ParseMagnitude(t[1..]).Some?
    ensures ParseInt(t) == Some(-(ParseMagnitude(t[1..]).value as int))
  {
    TrimStartVisible(t);
  }

  /** A numeral is read back as its value. */
  lemma ParseIntNumeral(m: nat, u: string)
    requires u == DecimalNat(m)
    ensures ParseInt(u) == Some(m as int)
  {
    ParseMagnitudeDecimal(m);
    assert IsDecimalDigit(u[0]);
    ParseIntUnsigned(u);
  }

  /** A minus sign followed by a numeral is read back as the negated value. */
  lemma ParseIntNegativeNumeral(m: nat, s: string)
    requires s == "-" + DecimalNat(m)
    ensures ParseInt(s) == Some(-(m as int))
  {
    assert s[1..] == DecimalNat(m);
    ParseMagnitudeDecimal(m);
    ParseIntNegative(s);
  }

  lemma TrimStartVisible(s: string)
    requires s != [] && !IsJsSpace(s[0])
    ensures TrimStart(s) == s
  {
  }

}
