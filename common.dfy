/** Small shared vocabulary: an optional value (JavaScript's null / undefined)
    and the truthiness-driven defaults the source uses everywhere. */
module Common {

  datatype Option<+T> = None | Some(value: T)

  /** A named set of float parameters, a JavaScript object such as `{ decay: 0.5 }`. */
  type Params = map<string, real>

  /** A full engine snapshot `{engine, params, fx}` (step locks and `normalState`). */
  datatype Snapshot = Snapshot(engine: string, params: Params, fx: Params)

  /** `x || d` for a number: a missing value or 0 falls back to `d`. */
  function OrInt(x: Option<int>, d: int): (r: int)
    ensures x.Some? && x.value != 0 ==> r == x.value
    ensures x.None? || x.value == 0 ==> r == d
  {
    if x.Some? && x.value != 0 then x.value else d
  }

  /** `x || d` for a real number. */
  function OrReal(x: Option<real>, d: real): (r: real)
    ensures x.Some? && x.value != 0.0 ==> r == x.value
    ensures x.None? || x.value == 0.0 ==> r == d
  {
    if x.Some? && x.value != 0.0 then x.value else d
  }

  /** `x || d` for a string: a missing or empty string falls back to `d`. */
  function OrString(x: Option<string>, d: string): (r: string)
    ensures x.Some? && x.value != "" ==> r == x.value
    ensures x.None? || x.value == "" ==> r == d
  {
    if x.Some? && x.value != "" then x.value else d
  }

  /** `x ?? d`: only a missing value falls back; 0 is kept. */
  function Nullish<T>(x: Option<T>, d: T): (r: T)
    ensures x.Some? ==> r == x.value
    ensures x.None? ==> r == d
  {
    if x.Some? then x.value else d
  }

  function MinInt(a: int, b: int): int { if a <= b then a else b }
  function MaxInt(a: int, b: int): int { if a >= b then a else b }
  function MinReal(a: real, b: real): real { if a <= b then a else b }
  function MaxReal(a: real, b: real): real { if a >= b then a else b }

  /** JavaScript's `%` on integers with a positive divisor: it truncates toward
      zero, so a negative dividend gives a remainder in (-b, 0]. */
  function JsRem(a: int, b: int): (r: int)
    requires b > 0
    ensures a >= 0 ==> r == a % b
    ensures a < 0 ==> -b < r <= 0 && (r == 0 || r == a % b - b)
  {
    var m := a % b;
    if a >= 0 || m == 0 then m else m - b
  }

  /** `Math.round` on a real: the nearest integer, halves rounding up. */
  function Round(x: real): (r: int)
    ensures x - 0.5 < r as real <= x + 0.5
  {
    (x + 0.5).Floor
  }
}
