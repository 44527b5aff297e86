/** The values a caller passes as keyword arguments, and how `str.format`
    renders them into a path (Python's `format(value, "")`, which for the
    built-in scalar types is `str(value)`). */
module Values {

  /** A Python value handed to an endpoint as a keyword argument. Anything that
      is not `None`, a `bool`, an `int` or a `str` (a dict payload, a float, a
      user object) is an `Object`, known to the model only by its `str()` text. */
  datatype Value =
    | Null
    | Bool(b: bool)
    | Int(i: int)
    | Str(s: string)
    | Object(text: string)

  /** Python keyword arguments, or any dict from names to values. */
  type Kwargs = map<string, Value>

  /** The text `format(v, "")` produces for a value: `None`, `True` and
      `False` by name, a str unchanged, an int as decimal text that reads back
      as the same int, and any other object as its `str()` text. */
  function Render(v: Value): (r: string)
    ensures v.Null? ==> r == "None"
    ensures v.Bool? ==> r == (if v.b then "True" else "False")
    ensures v.Str? ==> r == v.s
    ensures v.Object? ==> r == v.text
    ensures v.Int? ==> 0 < |r| && (r[0] == '-' <==> v.i < 0)
    ensures v.Int? ==> (r[0] == '0' ==> r == "0") && (r[0] == '-' ==> 1 < |r| && r[1] != '0')
    ensures v.Int? ==> && (r[0] == '-' ==> AllDigits(r[1..]))
                       && (r[0] != '-' ==> AllDigits(r))
                       && DecimalToInt(r) == v.i
  {
    match v
    case Null => "None"
    case Bool(b) => if b then "True" else "False"
    case Int(i) => IntToDecimal(i)
    case Str(s) => s
    case Object(text) => text
  }

  predicate IsDigit(c: char)
  {
    '0' <= c <= '9'
  }

  predicate AllDigits(s: string)
  {
    forall i :: 0 <= i < |s| ==> IsDigit(s[i])
  }

  function DigitChar(d: nat): (c: char)
    requires d < 10
    ensures IsDigit(c)
  {
    (d + '0' as int) as char
  }

  function DigitValue(c: char): nat
    requires IsDigit(c)
  {
    c as int - '0' as int
  }

  /** The decimal digits of a natural number, most significant first. */
  function NatToDecimal(n: nat): (s: string)
    ensures 0 < |s| && AllDigits(s)
    ensures s[0] == '0' ==> n == 0 && s == "0"
  {
    if n < 10 then [DigitChar(n)] else NatToDecimal(n / 10) + [DigitChar(n % 10)]
  }

  /** The number a string of decimal digits denotes. */
  function DecimalToNat(s: string): nat
    requires AllDigits(s)
  {
    if |s| == 0 then 0 else DecimalToNat(s[..|s| - 1]) * 10 + DigitValue(s[|s| - 1])
  }

  lemma {:induction false} NatDecimalRoundTrip(n: nat)
    ensures DecimalToNat(NatToDecimal(n)) == n
  {
    if n >= 10 {
      var s := NatToDecimal(n / 10);
      var t := s + [DigitChar(n % 10)];
      assert t[..|t| - 1] == s;
      NatDecimalRoundTrip(n / 10);
    }
  }

  /** `str(i)` for a Python int: an optional minus sign, then the digits of
      `|i|`. Reading the text back gives `i`. */
  function IntToDecimal(i: int): (s: string)
    ensures 0 < |s|
    ensures s[0] == '-' <==> i < 0
    ensures s[0] == '0' ==> s == "0"
    ensures s[0] == '-' ==> 1 < |s| && s[1] != '0'
    ensures s[0] == '-' ==> AllDigits(s[1..])
    ensures s[0] != '-' ==> AllDigits(s)
    ensures DecimalToInt(s) == i
  {
    if i < 0 then
      var s := "-" + NatToDecimal(-i);
      assert s[1..] == NatToDecimal(-i);
      NatDecimalRoundTrip(-i);
      s
    else
      NatDecimalRoundTrip(i);
      NatToDecimal(i)
  }

  /** Python's `int(s)` on the strings that `str` produces for ints. */
  function DecimalToInt(s: string): int
    requires 0 < |s|
    requires s[0] == '-' ==> AllDigits(s[1..])
    requires s[0] != '-' ==> AllDigits(s)
  {
    if s[0] == '-' then -(DecimalToNat(s[1..]) as int) else DecimalToNat(s)
  }

}
