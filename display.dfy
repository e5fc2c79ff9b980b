/**
 * Numeric helpers shared by the two dashboards: the colour tiers their
 * CSS classes encode, JavaScript's Math.max/Math.min clamp, Math.floor
 * and Math.round, all over the reals.
 */
module Display {

  /** The tier a `text-*-600` / `bg-*-500` class encodes. */
  datatype Colour = Green | Yellow | Red

  function Rank(c: Colour): (r: nat)
    ensures r <= 2
  {
    match c
    case Green => 0
    case Yellow => 1
    case Red => 2
  }

  /** The more severe of two colours. */
  function MaxColour(a: Colour, b: Colour): (r: Colour)
    ensures r == a || r == b
    ensures Rank(r) >= Rank(a) && Rank(r) >= Rank(b)
  {
    if Rank(a) >= Rank(b) then a else b
  }

  /** `Math.max(lo, Math.min(hi, x))` on real values. */
  function Clamp(lo: real, hi: real, x: real): (r: real)
    requires lo <= hi
    ensures lo <= r <= hi
    ensures lo <= x <= hi ==> r == x
    ensures x < lo ==> r == lo
    ensures hi < x ==> r == hi
  {
    var m := if hi < x then hi else x;
    if m < lo then lo else m
  }

  /** The integer instance of `Clamp`, for the gas reading. */
  function ClampInt(lo: int, hi: int, x: int): (r: int)
    requires lo <= hi
    ensures lo <= r <= hi
    ensures lo <= x <= hi ==> r == x
    ensures x < lo ==> r == lo
    ensures hi < x ==> r == hi
  {
    var m := if hi < x then hi else x;
    if m < lo then lo else m
  }

  /** `Math.min(a, b)` on reals. */
  function Min(a: real, b: real): (r: real)
    ensures r <= a && r <= b
    ensures r == a || r == b
  {
    if a <= b then a else b
  }

  /** `Math.floor(x)`: the largest integer not above `x`. */
  function Floor(x: real): (r: int)
    ensures r as real <= x < r as real + 1.0
  {
    x.Floor
  }

  /** `Math.round(x)`: the nearest integer, halves rounded upwards. */
  function Round(x: real): (r: int)
    ensures r as real - 0.5 <= x < r as real + 0.5
  {
    Floor(x + 0.5)
  }
}
