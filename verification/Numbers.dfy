/** Integer and rational helpers shared by the policy and planner modules. */
module Numbers {
  datatype Option<+T> = None | Some(value: T)

  function Min(a: int, b: int): int {
    if a <= b then a else b
  }

  function Max(a: int, b: int): int {
    if a >= b then a else b
  }

  function Clamp(value: int, lo: int, hi: int): int {
    Max(lo, Min(hi, value))
  }

  function MinReal(a: real, b: real): real {
    if a <= b then a else b
  }

  function MaxReal(a: real, b: real): real {
    if a >= b then a else b
  }

  function ClampReal(value: real, lo: real, hi: real): real {
    MaxReal(lo, MinReal(hi, value))
  }

  /** Python's `int(x)`: drop the fraction, towards zero. */
  function Truncate(x: real): int {
    if x >= 0.0 then x.Floor else -((-x).Floor)
  }

  /** Python's `round(x)`: to the nearest integer, a tie to the even neighbour. */
  function Round(x: real): (r: int)
    ensures x - 0.5 <= r as real <= x + 0.5
    ensures r as real == x - 0.5 || r as real == x + 0.5 ==> r % 2 == 0
  {
    var below := x.Floor;
    var rest := x - below as real;
    if rest < 0.5 then below
    else if rest > 0.5 then below + 1
    else if below % 2 == 0 then below
    else below + 1
  }

  lemma RoundMonotone(x: real, y: real)
    requires x <= y
    ensures Round(x) <= Round(y)
  {
  }

  lemma RoundOfInt(n: int)
    ensures Round(n as real) == n
  {
  }

  lemma TruncateMonotone(x: real, y: real)
    requires x <= y
    ensures Truncate(x) <= Truncate(y)
  {
  }

  lemma MulMonotone(a: int, b: int, c: int)
    requires a <= b && 0 <= c
    ensures a * c <= b * c
  {
  }

  /** The quotient is the greatest integer whose product fits. */
  lemma DivIsGreatest(a: int, c: int, q: int)
    requires 0 < c
    ensures q * c <= a <==> q <= a / c
  {
    if q <= a / c {
      MulMonotone(q, a / c, c);
    }
    if q > a / c {
      MulMonotone(a / c + 1, q, c);
    }
  }

  /** A fraction of a count stays between nothing and the count. */
  lemma FractionBounds(n: int, f: real)
    requires 0 <= n && 0.0 <= f <= 1.0
    ensures 0.0 <= n as real * f <= n as real
    ensures 0 <= Truncate(n as real * f) <= n
  {
    assert n as real * f <= n as real * 1.0;
  }
}
