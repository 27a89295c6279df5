/** JavaScript's Math.round over the reals: the nearest integer, halves rounded
    toward positive infinity. */
module Rounding {

  function Abs(x: real): real {
    if x < 0.0 then -x else x
  }

  /** Math.round(x), taken over the reals (no IEEE-754 rounding of x itself). */
  function Round(x: real): (r: int)
    ensures r as real - 0.5 <= x < r as real + 0.5
  {
    (x + 0.5).Floor
  }

  /** The characterisation above determines the result: Round(x) is the only
      integer n with n - 1/2 <= x < n + 1/2. */
  lemma RoundUnique(x: real, n: int)
    ensures Round(x) == n <==> n as real - 0.5 <= x < n as real + 0.5
  {
  }

  /** Round(x) is a nearest integer to x, and among two equally near integers
      it is the larger one. */
  lemma RoundIsNearest(x: real, n: int)
    ensures Abs(x - Round(x) as real) <= Abs(x - n as real)
    ensures Abs(x - Round(x) as real) == Abs(x - n as real) ==> n <= Round(x)
  {
  }

  /** Integers are left alone. */
  lemma RoundOfInteger(n: int)
    ensures Round(n as real) == n
  {
  }
}
