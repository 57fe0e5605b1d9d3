/** Types and arithmetic every other module uses. Amounts of money are whole paise. */
module Common {

  datatype Option<+T> = None | Some(value: T) {
    function GetOr(default: T): T {
      match this
      case Some(v) => v
      case None => default
    }

    /** The source's `a ?? b` on nullable columns. */
    function OrElse(other: Option<T>): Option<T> {
      if Some? then this else other
    }
  }

  function Max(a: int, b: int): int {
    if a >= b then a else b
  }

  function Min(a: int, b: int): int {
    if a <= b then a else b
  }

  function Abs(a: int): int {
    if a < 0 then -a else a
  }

  /** `roundMoney` on an amount given in paise: nearest whole paise, halves go up. */
  function RoundPaise(x: real): (p: int)
    ensures x - 0.5 < p as real <= x + 0.5
  {
    (x + 0.5).Floor
  }

  lemma RoundMonotone(x: real, y: real)
    requires x <= y
    ensures RoundPaise(x) <= RoundPaise(y)
  {
  }

  lemma RoundWhole(n: int)
    ensures RoundPaise(n as real) == n
  {
  }

  /** `roundMoney(amount * (pct / 100))`. */
  function PercentOf(amount: int, pct: real): int {
    RoundPaise(amount as real * (pct / 100.0))
  }

  lemma PercentOfMonotone(low: int, high: int, pct: real)
    requires low <= high && 0.0 <= pct
    ensures PercentOf(low, pct) <= PercentOf(high, pct)
  {
    MulMonotone(pct / 100.0, low as real, high as real);
    RoundMonotone(low as real * (pct / 100.0), high as real * (pct / 100.0));
  }

  lemma PercentOfNonNegative(amount: int, pct: real)
    requires 0 <= amount && 0.0 <= pct
    ensures 0 <= PercentOf(amount, pct)
  {
    MulNonNegative(amount as real, pct / 100.0);
  }

  // Multiplication facts over the reals, one step at a time.

  lemma MulMonotone(a: real, x: real, y: real)
    requires 0.0 <= a && x <= y
    ensures a * x <= a * y
  {
    assert a * (y - x) >= 0.0;
  }

  lemma MulNonNegative(a: real, b: real)
    requires 0.0 <= a && 0.0 <= b
    ensures 0.0 <= a * b
  {
  }
}
