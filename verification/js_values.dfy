/**
 The slice of JavaScript values that flows through the resource screens: form
 fields, record ids, response fields. Numbers are integers here; the model also
 fixes how a value turns into text inside a template literal, which is how a
 record id ends up in a request path.
 */
module Js {

  /** A JavaScript value as the screens see it. `File` is a browser File picked
      in an `<input type="file">`; only its name is kept. */
  datatype Value =
    | Undefined
    | Null
    | Bool(b: bool)
    | Num(n: int)
    | Str(s: string)
    | File(name: string)

  /** JavaScript truthiness: `undefined`, `null`, `false`, `0` and `''` are falsy,
      every other value (objects and files included) is truthy. */
  predicate Truthy(v: Value)
  {
    match v
    case Undefined => false
    case Null => false
    case Bool(b) => b
    case Num(n) => n != 0
    case Str(s) => s != ""
    case File(_) => true
  }

  predicate IsDigit(c: char)
  {
    '0' <= c <= '9'
  }

  /** The numeric value of a decimal digit; 0 for any other character. */
  function DigitValue(c: char): (d: nat)
    ensures d < 10
  {
    if IsDigit(c) then c as int - '0' as int else 0
  }

  function DigitChar(d: nat): (c: char)
    requires d < 10
    ensures IsDigit(c) && DigitValue(c) == d
  {
    ('0' as int + d) as char
  }

  /** Decimal digits of a natural number, most significant first, no leading zeros. */
  function Decimal(n: nat): (s: string)
    ensures |s| > 0
    ensures forall i :: 0 <= i < |s| ==> IsDigit(s[i])
    decreases n
  {
    if n < 10 then [DigitChar(n)] else Decimal(n / 10) + [DigitChar(n % 10)]
  }

  /** Reads a string of decimal digits back as a number. */
  function ParseDecimal(s: string): (n: nat)
    decreases |s|
  {
    if |s| == 0 then 0 else 10 * ParseDecimal(s[..|s| - 1]) + DigitValue(s[|s| - 1])
  }

  /** `String(n)` for an integer-valued number: a minus sign, then the digits of |n|. */
  function IntText(n: int): (s: string)
  {
    if n < 0 then "-" + Decimal(-n) else Decimal(n)
  }

  function ParseInt(s: string): (n: int)
  {
    if |s| > 0 && s[0] == '-' then 0 - ParseDecimal(s[1..]) else ParseDecimal(s)
  }

  /** The text a value becomes inside a template literal `${v}`: a string is
      itself, a number reads back as that number, and the empty values spell
      their own names. */
  function Text(v: Value): (t: string)
    ensures v.Str? ==> t == v.s
    ensures v.Num? ==> ParseInt(t) == v.n
    ensures v.Null? ==> t == "null"
    ensures v.Undefined? ==> t == "undefined"
  {
    match v
    case Undefined => "undefined"
    case Null => "null"
    case Bool(b) => if b then "true" else "false"
    case Num(n) => IntTextRoundTrip(n); IntText(n)
    case Str(s) => s
    case File(_) => "[object File]"
  }

  /** Exactly five values are falsy: `undefined`, `null`, `false`, `0` and `''`. */
  lemma FalsyValues(v: Value)
    ensures !Truthy(v) <==> v in {Undefined, Null, Bool(false), Num(0), Str("")}
  {
  }

  lemma {:induction false} DecimalRoundTrip(n: nat)
    ensures ParseDecimal(Decimal(n)) == n
    decreases n
  {
    if n >= 10 {
      var s := Decimal(n);
      assert s[..|s| - 1] == Decimal(n / 10);
      DecimalRoundTrip(n / 10);
    }
  }

  /** Reading the rendered text of an integer gives the integer back. */
  lemma IntTextRoundTrip(n: int)
    ensures ParseInt(IntText(n)) == n
  {
    if n < 0 {
      var s := IntText(n);
      assert s[1..] == Decimal(-n);
      DecimalRoundTrip(-n);
    } else {
      DecimalRoundTrip(n);
      assert Decimal(n)[0] != '-';
    }
  }

  /** Two numeric ids render to the same text only when they are the same id. */
  lemma NumTextInjective(a: int, b: int)
    ensures Text(Num(a)) == Text(Num(b)) <==> a == b
  {
    if Text(Num(a)) == Text(Num(b)) {
      IntTextRoundTrip(a);
      IntTextRoundTrip(b);
    }
  }
}
