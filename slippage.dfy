/**
 * The minimum output bound of the swap: the quoted output less a fixed
 * 100 basis points, rounded down.
 */
module Slippage {
  import opened Primitives

  /** `BASIS_POINT_MAX` of the pool program. */
  const BASIS_POINT_MAX: int := 10000
  /** The share of the quote that must arrive: 10000 - 100 basis points. */
  const KEPT_BASIS_POINTS: int := 9900

  /**
   * `amount_out * 9900 / BASIS_POINT_MAX` as written: the product is a `u64`,
   * so it fails (a panic with overflow checks) once it reaches 2^64.
   */
  function MinAmountOutAsWritten(amountOut: U64): (r: Result<U64>)
    ensures r.Ok? <==> amountOut as int * KEPT_BASIS_POINTS < U64_MODULUS
    ensures r.Err? ==> r.error == ArithmeticOverflow
  {
    var product := amountOut as int * KEPT_BASIS_POINTS;
    if product < U64_MODULUS then Ok((product as U64) / (BASIS_POINT_MAX as U64))
    else Err(ArithmeticOverflow)
  }

  /**
   * The intended bound, with the product formed in a wider integer: the
   * largest amount whose ratio to the quote is at most 9900 / 10000.
   */
  function MinAmountOut(amountOut: U64): (r: U64)
    ensures r as int * BASIS_POINT_MAX <= amountOut as int * KEPT_BASIS_POINTS
    ensures amountOut as int * KEPT_BASIS_POINTS < (r as int + 1) * BASIS_POINT_MAX
    ensures r <= amountOut
    ensures 0 < amountOut ==> r < amountOut
  {
    var wide := amountOut as U128 * KEPT_BASIS_POINTS as U128 / BASIS_POINT_MAX as U128;
    wide as U64
  }

  /** A larger quote never gives a smaller bound. */
  lemma MinAmountOutMonotone(a: U64, b: U64)
    requires a <= b
    ensures MinAmountOut(a) <= MinAmountOut(b)
  {
    var ra, rb := MinAmountOut(a) as int, MinAmountOut(b) as int;
    assert ra * BASIS_POINT_MAX <= a as int * KEPT_BASIS_POINTS;
    assert a as int * KEPT_BASIS_POINTS <= b as int * KEPT_BASIS_POINTS;
    assert b as int * KEPT_BASIS_POINTS < (rb + 1) * BASIS_POINT_MAX;
  }

  /** A quote of 1,000,000 allows no less than 990,000. */
  lemma MinAmountOutExample()
    ensures MinAmountOut(1_000_000) == 990_000
    ensures MinAmountOutAsWritten(1_000_000) == Ok(990_000)
  {
  }

  /** Below the overflow point the code as written gives the intended bound. */
  lemma AsWrittenAgreesBelowOverflow(amountOut: U64)
    requires amountOut as int * KEPT_BASIS_POINTS < U64_MODULUS
    ensures MinAmountOutAsWritten(amountOut) == Ok(MinAmountOut(amountOut))
  {
  }

  /** The same expression in a build without overflow checks: the product wraps modulo 2^64 before the division. */
  function MinAmountOutWrapping(amountOut: U64): (r: U64)
    ensures r as int * BASIS_POINT_MAX < U64_MODULUS
    ensures amountOut as int * KEPT_BASIS_POINTS < U64_MODULUS ==> r == MinAmountOut(amountOut)
  {
    ((amountOut as int * KEPT_BASIS_POINTS % U64_MODULUS) / BASIS_POINT_MAX) as U64
  }

  /** Once the product overflows, the wrapped minimum falls strictly below the intended 99% of the quote. */
  lemma WrappingUndercutsBound(amountOut: U64)
    requires U64_MODULUS <= amountOut as int * KEPT_BASIS_POINTS
    ensures MinAmountOutWrapping(amountOut) < MinAmountOut(amountOut)
  {
    var wrapped := MinAmountOutWrapping(amountOut) as int;
    var intended := MinAmountOut(amountOut) as int;
    assert U64_MODULUS <= amountOut as int * KEPT_BASIS_POINTS < (intended + 1) * BASIS_POINT_MAX;
    assert wrapped * BASIS_POINT_MAX < U64_MODULUS;
  }

  /** A wrapped minimum that is not near 0: about a third of the intended bound. */
  lemma WrappingExample()
    ensures MinAmountOutWrapping(2_794_961_223_289_327) == 922_337_203_685_478
    ensures MinAmountOut(2_794_961_223_289_327) == 2_767_011_611_056_433
  {
  }

  /** The smallest quote for which the code as written overflows, while the bound itself fits. */
  lemma AsWrittenOverflows()
    ensures MinAmountOutAsWritten(1_863_307_482_192_884).Ok?
    ensures MinAmountOutAsWritten(1_863_307_482_192_885) == Err(ArithmeticOverflow)
    ensures MinAmountOut(1_863_307_482_192_885) == 1_844_674_407_370_956
  {
  }
}
