/** Values shared by both handlers: optional JSON fields, fallible results,
    JavaScript truthiness of the few value kinds the handlers test, HTTP
    status classes, and the decimal rendering used in detail strings. */
module Common {

  datatype Option<+T> = None | Some(value: T)

  datatype Result<+R, +E> = Success(value: R) | Failure(error: E)

  /** The mailing-list group every signup joins and every listing reads. */
  const GroupId: string := "180021804830558048"

  /** JavaScript truthiness of an optional string: `undefined`, `null`
      and the empty string are falsy, every other string is truthy. */
  predicate Truthy(s: Option<string>)
  {
    s.Some? && s.value != ""
  }

  /** `x || fallback` for an optional string. */
  function OrElse(s: Option<string>, fallback: string): string
  {
    if Truthy(s) then s.value else fallback
  }

  /** `x || 0` for an optional number: a missing field reads as zero. */
  function OrZero(n: Option<int>): int
  {
    if n.Some? then n.value else 0
  }

  /** `Response.ok` of the Fetch API: the status is in the 2xx range. */
  predicate StatusOk(status: nat)
  {
    200 <= status <= 299
  }

  function DigitChar(d: nat): (c: char)
    requires d < 10
    ensures '0' <= c <= '9'
    ensures c as int - '0' as int == d
  {
    "0123456789"[d]
  }

  /** The number a string of decimal digits spells, most significant first. */
  ghost function DigitsValue(s: string): nat
    requires forall i :: 0 <= i < |s| ==> '0' <= s[i] <= '9'
  {
    if s == [] then 0
    else DigitsValue(s[..|s| - 1]) * 10 + (s[|s| - 1] as int - '0' as int)
  }

  /** Decimal text of a natural number, as a template literal renders it:
      digits only, without leading zeros, spelling `n`. */
  function NatToString(n: nat): (s: string)
    ensures |s| > 0
    ensures forall i :: 0 <= i < |s| ==> '0' <= s[i] <= '9'
    ensures DigitsValue(s) == n
    ensures s[0] == '0' ==> s == "0"
    decreases n
  {
    if n < 10 then [DigitChar(n)]
    else
      var prefix := NatToString(n / 10);
      var s := prefix + [DigitChar(n % 10)];
      assert s[..|s| - 1] == prefix;
      s
  }

  /** Decimal text of an integer, with a leading minus sign when negative. */
  function IntToString(n: int): (s: string)
    ensures |s| > 0
    ensures (s[0] == '-') <==> n < 0
  {
    if n < 0 then "-" + NatToString(-n) else NatToString(n)
  }
}
