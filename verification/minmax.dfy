/** The MIN and MAX helpers of common.h (lines 77-89), on integers.

    In C they are statement expressions that evaluate each argument once and
    pick one of them with a strict comparison. Their compile-time branch for
    arguments of mismatched types has no run-time meaning and is not part of
    this model. */
module MinMax {

  /** MIN(a, b): the smaller of the two arguments. */
  function Min(a: int, b: int): (r: int)
    ensures r <= a && r <= b
    ensures r == a || r == b
  {
    if a < b then a else b
  }

  /** MAX(a, b): the larger of the two arguments. */
  function Max(a: int, b: int): (r: int)
    ensures r >= a && r >= b
    ensures r == a || r == b
  {
    if a > b then a else b
  }

}
