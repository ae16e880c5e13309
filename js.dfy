/** The few pieces of JavaScript semantics the application code leans on:
    `null`/`undefined`, truthiness of strings, the `||` default, and the
    results of `Number(...)` and `BigInt(...)` on user-typed text. */
module Js {
  import opened Decimal

  /** A value that may be `null` or `undefined`. */
  datatype Option<+T> = None | Some(value: T)

  /** JavaScript truthiness of an optional string: `null`, `undefined` and
      the empty string are falsy, every other string is truthy. */
  predicate Truthy(s: Option<string>) { s.Some? && s.value != "" }

  /** `s || fallback`: the string itself when it is truthy, else the fallback. */
  function OrElse(s: Option<string>, fallback: string): (r: string)
    ensures Truthy(s) ==> r == s.value
    ensures !Truthy(s) ==> r == fallback
    ensures r != "" <==> Truthy(s) || fallback != ""
  {
    if Truthy(s) then s.value else fallback
  }

  /** What the JavaScript engine answers about a user-typed string.
      `isNumeric(s)` is `!isNaN(Number(s))`, `isPositive(s)` is
      `Number(s) > 0`, and `toBigInt(s)` is `BigInt(s)`, `None` when that
      call throws. The full grammar of JavaScript numeric literals is not
      modelled; `Agrees` pins down the answers on plain digit strings. */
  datatype NumberParsing = NumberParsing(
    isNumeric: string -> bool,
    isPositive: string -> bool,
    toBigInt: string -> Option<int>)

  /** The engine's answers on strings of decimal digits: they are numbers,
      positive exactly when they denote a positive value, and `BigInt`
      reads them exactly. */
  ghost predicate Agrees(p: NumberParsing) {
    forall s :: IsDigits(s) ==>
      p.isNumeric(s) && (p.isPositive(s) <==> Value(s) > 0) && p.toBigInt(s) == Some(Value(s))
  }
}
