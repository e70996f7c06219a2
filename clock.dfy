/**
 * The desktop clock (script.js, updateClock): hours and minutes are shown
 * zero-padded to two characters and the colon between them blinks, being
 * opaque on even seconds.
 *
 * The source pads with `v < 10 ? '0' + v : v`, so a field is either a
 * string (below ten) or still a number; assigning it to textContent turns
 * it into text, and `seconds % 2` coerces a padded string such as '05' back
 * to a number. Both conversions are modelled here on decimal digits.
 */
module Clock {
  import opened Wrappers

  /** A JavaScript value as the padding ternary can produce it. */
  datatype JsValue = Num(n: nat) | Str(s: string)

  /** What the page shows: hour text, minute text and the colon's opacity. */
  datatype ClockFace = ClockFace(hours: string, minutes: string, colonOpacity: string)

  predicate IsDigit(c: char) { '0' <= c <= '9' }

  predicate AllDigits(s: string) { forall k :: 0 <= k < |s| ==> IsDigit(s[k]) }

  function Digit(d: nat): (c: char)
    requires d < 10
    ensures IsDigit(c)
  {
    ('0' as int + d) as char
  }

  function DigitValue(c: char): (d: nat)
    requires IsDigit(c)
    ensures d < 10 && Digit(d) == c
  {
    c as int - '0' as int
  }

  /** JavaScript's String(n) for a non-negative integer: its decimal digits, no leading zero. */
  function DecimalString(n: nat): (s: string)
    ensures AllDigits(s) && |s| >= 1
    ensures |s| == 1 <==> n < 10
    ensures |s| == 2 <==> 10 <= n < 100
    ensures n >= 10 ==> s[0] != '0'
  {
    if n < 10 then [Digit(n)] else DecimalString(n / 10) + [Digit(n % 10)]
  }

  /** The value of a string of decimal digits, leading zeros allowed (Number('05') is 5). */
  function ParseDecimal(s: string): nat
    requires AllDigits(s)
  {
    if s == [] then 0 else ParseDecimal(s[..|s| - 1]) * 10 + DigitValue(s[|s| - 1])
  }

  /** Printing a number and reading it back gives the number. */
  lemma {:induction false} ParseDecimalString(n: nat)
    ensures ParseDecimal(DecimalString(n)) == n
  {
    var s := DecimalString(n);
    if n >= 10 {
      assert s[..|s| - 1] == DecimalString(n / 10);
      ParseDecimalString(n / 10);
    }
  }

  /** The padding ternary `v < 10 ? '0' + v : v`. */
  function Pad(v: nat): JsValue
  {
    if v < 10 then Str("0" + DecimalString(v)) else Num(v)
  }

  /** How textContent renders a value. */
  function Text(x: JsValue): string
  {
    match x
    case Num(n) => DecimalString(n)
    case Str(s) => s
  }

  /**
   * JavaScript's numeric coercion of a value, None standing for NaN. Only
   * strings of decimal digits convert here (the empty string is 0, as in
   * JavaScript); the padding never produces any other string.
   */
  function ToNumber(x: JsValue): Option<nat>
  {
    match x
    case Num(n) => Some(n)
    case Str(s) => if AllDigits(s) then Some(ParseDecimal(s)) else None
  }

  /** `seconds % 2 === 0 ? '1' : '0'`; NaN is never even. */
  function ColonOpacity(seconds: JsValue): string
  {
    match ToNumber(seconds)
    case Some(n) => if n % 2 == 0 then "1" else "0"
    case None => "0"
  }

  /** A padded field shows two digits whose value is the field, and coerces back to it. */
  lemma PaddedField(v: nat)
    requires v < 100
    ensures |Text(Pad(v))| == 2 && AllDigits(Text(Pad(v)))
    ensures ParseDecimal(Text(Pad(v))) == v
    ensures ToNumber(Pad(v)) == Some(v)
  {
    ParseDecimalString(v);
    if v < 10 {
      var s := Text(Pad(v));
      assert s == ['0', Digit(v)];
      assert s[..1] == "0";
    }
  }

  /** One tick of updateClock, for the hours, minutes and seconds of the current time. */
  function Display(hours: nat, minutes: nat, seconds: nat): (face: ClockFace)
    requires hours < 24 && minutes < 60 && seconds < 60
    ensures |face.hours| == 2 && AllDigits(face.hours) && ParseDecimal(face.hours) == hours
    ensures |face.minutes| == 2 && AllDigits(face.minutes) && ParseDecimal(face.minutes) == minutes
    ensures face.colonOpacity == "1" <==> seconds % 2 == 0
    ensures face.colonOpacity == "1" || face.colonOpacity == "0"
  {
    PaddedField(hours);
    PaddedField(minutes);
    PaddedField(seconds);
    ClockFace(Text(Pad(hours)), Text(Pad(minutes)), ColonOpacity(Pad(seconds)))
  }
}
