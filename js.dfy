/** JavaScript values the sidebar code relies on: values that may be
    `null`/`undefined`, their truthiness, and the `||` operator. */
module Js {

  /** A value that may be absent (`null` or `undefined`). */
  datatype Option<+T> = None | Some(value: T)

  /** Truthiness of an optional string: `null`, `undefined` and `""` are falsy. */
  predicate Truthy(o: Option<string>)
  {
    o.Some? && o.value != ""
  }

  /** Truthiness of an optional number: `undefined` and `0` are falsy. */
  predicate TruthyNumber(o: Option<int>)
  {
    o.Some? && o.value != 0
  }

  /** `a || b` on optional strings: the left operand if it is truthy, else the right one. */
  function Or(a: Option<string>, b: Option<string>): (r: Option<string>)
    ensures Truthy(r) <==> Truthy(a) || Truthy(b)
    ensures r == a || r == b
  {
    if Truthy(a) then a else b
  }

  /** `a || ""`: an absent string reads as the empty string, a present one as itself. */
  function OrEmpty(a: Option<string>): (r: string)
    ensures a.None? ==> r == ""
    ensures a.Some? ==> r == a.value
  {
    if Truthy(a) then a.value else ""
  }

  /** `a || 0`: an absent number reads as zero, a present one as itself. */
  function OrZero(a: Option<int>): (r: int)
    ensures a.None? ==> r == 0
    ensures a.Some? ==> r == a.value
  {
    if TruthyNumber(a) then a.value else 0
  }

  /** The first truthy element of `xs`, or `None` when there is none. */
  function FirstTruthy(xs: seq<Option<string>>): (r: Option<string>)
    ensures Truthy(r) <==> exists i :: 0 <= i < |xs| && Truthy(xs[i])
    ensures r.Some? ==> r in xs
    ensures forall i :: 0 <= i < |xs| && Truthy(xs[i]) && (forall j :: 0 <= j < i ==> !Truthy(xs[j])) ==> r == xs[i]
  {
    if xs == [] then None
    else if Truthy(xs[0]) then xs[0]
    else FirstTruthy(xs[1..])
  }

  /** `checks.some(check => !check)` over the truthiness of each check. */
  function SomeFalsy(checks: seq<bool>): (r: bool)
    ensures r <==> exists i :: 0 <= i < |checks| && !checks[i]
  {
    |checks| > 0 && (!checks[0] || SomeFalsy(checks[1..]))
  }
}
