/** Numeric helpers of the dashboard, over reals (NaN and infinities are not modelled). */
module Helpers {

  /** `clamp`: the value raised to `lo`, then lowered to `hi`. */
  function Clamp(value: real, lo: real, hi: real): (r: real)
    ensures r <= hi
    ensures lo <= hi ==> lo <= r
    ensures lo <= value <= hi ==> r == value
    ensures value < lo && lo <= hi ==> r == lo
    ensures value > hi ==> r == hi
    ensures lo > hi ==> r == hi
    ensures r == value || r == lo || r == hi
  {
    var raised := if value > lo then value else lo;
    if raised < hi then raised else hi
  }

  /** Clamping twice with the same bounds changes nothing more. */
  lemma ClampIdempotent(value: real, lo: real, hi: real)
    ensures Clamp(Clamp(value, lo, hi), lo, hi) == Clamp(value, lo, hi)
  {
  }

  /** Clamping is monotone in the value. */
  lemma ClampMonotone(a: real, b: real, lo: real, hi: real)
    requires a <= b
    ensures Clamp(a, lo, hi) <= Clamp(b, lo, hi)
  {
  }

  const Success: string := "var(--success)"
  const Danger: string := "var(--danger)"
  const Neutral: string := "var(--text-secondary)"

  /** `getChangeColor`: the colour of a signed change. */
  function ChangeColor(change: real): (r: string)
    ensures r == Success <==> change > 0.0
    ensures r == Danger <==> change < 0.0
    ensures r == Neutral <==> change == 0.0
  {
    if change > 0.0 then Success
    else if change < 0.0 then Danger
    else Neutral
  }

  /** Negating a change swaps gain and loss colours and keeps the neutral one. */
  lemma ChangeColorNegated(change: real)
    ensures ChangeColor(-change) == (if change > 0.0 then Danger else if change < 0.0 then Success else Neutral)
  {
  }
}
