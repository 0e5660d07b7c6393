/** Small JavaScript-value helpers shared by the whole model.

    The storefront is written in JavaScript, where an absent property is
    `undefined` and conditions test "truthiness". Strings are the only
    values whose truthiness matters here: `undefined` and `""` are falsy,
    every other string is truthy. */
module Js {

  /** `None` stands for an absent value, `Some` for a present one. Where an
      absent value is printed (`Interp`), it is `undefined`. */
  datatype Option<+T> = None | Some(value: T)

  /** A value or an error, for operations that throw in the source. */
  datatype Result<+T, +E> = Success(value: T) | Failure(error: E)

  /** JavaScript truthiness of an optional string. */
  predicate Truthy(s: Option<string>)
  {
    s.Some? && s.value != ""
  }

  /** JavaScript `a || b` on optional strings: `a` when it is truthy, else `b`. */
  function Or(a: Option<string>, b: Option<string>): (r: Option<string>)
    ensures Truthy(a) ==> r == a
    ensures !Truthy(a) ==> r == b
    ensures Truthy(r) <==> Truthy(a) || Truthy(b)
  {
    if Truthy(a) then a else b
  }

  /** JavaScript `a || ''`: the string shown in a form field that starts
      from an optional stored value. */
  function OrEmpty(a: Option<string>): (r: string)
    ensures Truthy(a) ==> r == a.value
    ensures !Truthy(a) ==> r == ""
  {
    if Truthy(a) then a.value else ""
  }

  /** A template literal `${x}` of an optional string argument: an absent
      argument prints as the text "undefined". */
  function Interp(a: Option<string>): (r: string)
    ensures a.Some? ==> r == a.value
    ensures a.None? ==> r == "undefined"
  {
    match a
    case Some(s) => s
    case None => "undefined"
  }

  /** Decimal digits of a natural number, most significant first, as
      `String(n)` prints it. */
  function NatToDecimal(n: nat): (r: string)
    ensures |r| >= 1
    ensures forall i :: 0 <= i < |r| ==> '0' <= r[i] <= '9'
    ensures n > 0 ==> r[0] != '0'
    decreases n
  {
    if n < 10 then [DigitChar(n)] else NatToDecimal(n / 10) + [DigitChar(n % 10)]
  }

  function DigitChar(d: nat): (c: char)
    requires d < 10
    ensures '0' <= c <= '9'
    ensures c as int - '0' as int == d
  {
    ('0' as int + d) as char
  }

  /** The value of a string of decimal digits (`parseInt` on digits only). */
  function DecimalToNat(s: string): nat
    requires forall i :: 0 <= i < |s| ==> '0' <= s[i] <= '9'
  {
    if s == [] then 0
    else DecimalToNat(s[..|s| - 1]) * 10 + (s[|s| - 1] as int - '0' as int)
  }

  /** Reading back what `NatToDecimal` printed gives the same number. */
  lemma {:induction false} DecimalRoundTrip(n: nat)
    ensures DecimalToNat(NatToDecimal(n)) == n
    decreases n
  {
    if n >= 10 {
      var s := NatToDecimal(n);
      assert s[..|s| - 1] == NatToDecimal(n / 10);
      DecimalRoundTrip(n / 10);
    }
  }

  /** `String(i)` for any integer, with a leading minus sign when negative. */
  function IntToString(i: int): (r: string)
    ensures |r| >= 1
    ensures i >= 0 ==> r == NatToDecimal(i)
    ensures i < 0 ==> r[0] == '-'
  {
    if i >= 0 then NatToDecimal(i) else "-" + NatToDecimal(-i)
  }
}
