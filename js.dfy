/** JavaScript semantics the application code relies on, stated over exact reals:
    optional values, truthiness, `Math.round` and `Number.prototype.toFixed`. */
module Js {

  /** An optional value: `undefined` (or `null`) versus a present value. */
  datatype Option<+T> = None | Some(value: T) {

    /** The present value, or `default` when absent. */
    function GetOr(default: T): T
    {
      if Some? then value else default
    }
  }

  /** A value received in a JSON request body, as far as the code inspects it. */
  datatype JsValue =
    | Undefined
    | Null
    | Bool(b: bool)
    | Number(n: real)
    | Str(s: string)
    | Array(items: seq<JsValue>)
    | Object

  /** JavaScript truthiness: `undefined`, `null`, `false`, `0` and `""` are falsy. */
  predicate Truthy(v: JsValue)
  {
    match v
    case Undefined => false
    case Null => false
    case Bool(b) => b
    case Number(n) => n != 0.0
    case Str(s) => s != ""
    case Array(_) => true
    case Object => true
  }

  /** `v != null` in JavaScript: neither `null` nor `undefined`. */
  predicate Present(v: JsValue)
  {
    !v.Undefined? && !v.Null?
  }

  /** `v || fallback`. */
  function Or(v: JsValue, fallback: JsValue): (r: JsValue)
    ensures Truthy(v) ==> r == v
    ensures !Truthy(v) ==> r == fallback
  {
    if Truthy(v) then v else fallback
  }

  /** `x || fallback` for an optional number: an absent value and `0` both give `fallback`. */
  function NumOr(x: Option<real>, fallback: real): (r: real)
    ensures r == fallback || (x.Some? && r == x.value && r != 0.0)
    ensures x.Some? && x.value != 0.0 ==> r == x.value
  {
    if x.Some? && x.value != 0.0 then x.value else fallback
  }

  /** `s || fallback` for an optional string: an absent value and `""` both give `fallback`. */
  function StrOr(x: Option<string>, fallback: string): (r: string)
    ensures r == fallback || (x.Some? && r == x.value && r != "")
    ensures x.Some? && x.value != "" ==> r == x.value
  {
    if x.Some? && x.value != "" then x.value else fallback
  }

  /** `Math.round`: the integer nearest to `x`, halves rounded towards +infinity. */
  function Round(x: real): (r: int)
    ensures x - 0.5 < r as real <= x + 0.5
  {
    (x + 0.5).Floor
  }

  lemma RoundMonotone(x: real, y: real)
    requires x <= y
    ensures Round(x) <= Round(y)
  {
  }

  /** Rounding is exact on integers. */
  lemma RoundOfInt(n: int)
    ensures Round(n as real) == n
  {
  }

  /** 10 to the power `digits`. */
  function Pow10(digits: nat): (p: nat)
    ensures p >= 1
  {
    if digits == 0 then 1 else 10 * Pow10(digits - 1)
  }

  /** The factor `toFixed(digits)` scales by, as a real. */
  function Scale(digits: nat): (r: real)
    ensures r >= 1.0
  {
    Pow10(digits) as real
  }

  /** The integer nearest to `y`, a tie going away from zero. */
  function RoundHalfAway(y: real): (n: int)
    ensures -0.5 <= n as real - y <= 0.5
    ensures y >= 0.0 ==> n >= 0
    ensures y <= 0.0 ==> n <= 0
  {
    if y >= 0.0 then Round(y) else -Round(-y)
  }

  /** The value of `Number(x.toFixed(digits))`: `x` rounded to `digits` decimals, a
      tie going to the value of larger magnitude. */
  function ToFixed(x: real, digits: nat): (r: real)
    ensures r * Scale(digits) == RoundHalfAway(x * Scale(digits)) as real
    ensures -0.5 / Scale(digits) <= r - x <= 0.5 / Scale(digits)
    ensures x >= 0.0 ==> r >= 0.0
    ensures x <= 0.0 ==> r <= 0.0
  {
    var n := RoundHalfAway(x * Scale(digits));
    ScaledRounding(x, Scale(digits), n as real);
    n as real / Scale(digits)
  }

  /** Dividing a rounding of `x * s` by `s` is within `0.5 / s` of `x`, with `x`'s sign. */
  lemma ScaledRounding(x: real, s: real, n: real)
    requires s >= 1.0
    requires -0.5 <= n - x * s <= 0.5
    requires x * s >= 0.0 ==> n >= 0.0
    requires x * s <= 0.0 ==> n <= 0.0
    ensures n / s * s == n
    ensures -0.5 / s <= n / s - x <= 0.5 / s
    ensures x >= 0.0 ==> n / s >= 0.0
    ensures x <= 0.0 ==> n / s <= 0.0
  {
    DivideBounds(n - x * s, s, 0.5);
    assert (n - x * s) / s == n / s - x;
  }

  lemma DivideBounds(e: real, s: real, h: real)
    requires s > 0.0 && -h <= e <= h
    ensures -h / s <= e / s <= h / s
  {
  }

  /** Dividing by a non-zero square keeps the order. */
  lemma OverSquareMonotone(a: real, b: real, x: real)
    requires x != 0.0 && a <= b
    ensures a / (x * x) <= b / (x * x)
  {
    assert x * x > 0.0;
  }
}
