/** Small pieces shared by every widget model: an optional value (JavaScript's `null`
    or "not found"), JavaScript's `Math.round`, and the clamp `Math.max(lo, Math.min(hi, x))`. */
module Common {

  datatype Option<+T> = None | Some(value: T)

  /** `Math.round` on a finite number: the nearest integer, halves rounded up
      (towards +Infinity), computed as floor(x + 1/2). */
  function JsRound(x: real): (r: int)
    ensures r as real - 0.5 <= x < r as real + 0.5
  {
    (x + 0.5).Floor
  }

  /** `Math.min(a, b)` on integers. */
  function MinInt(a: int, b: int): (r: int)
    ensures r <= a && r <= b && (r == a || r == b)
  {
    if a <= b then a else b
  }

  /** `Math.max(lo, Math.min(hi, x))`. */
  function Clamp(lo: real, hi: real, x: real): (r: real)
    requires lo <= hi
    ensures lo <= r <= hi
    ensures lo <= x <= hi ==> r == x
    ensures x < lo ==> r == lo
    ensures hi < x ==> r == hi
  {
    if x < lo then lo else if hi < x then hi else x
  }
}
