/** Unsigned 64-bit amounts and the way the chain reports a failed check.

    `Coin` and `Vest` are 64-bit counters whose arithmetic panics instead of
    wrapping.  A panic aborts the enclosing transaction, or the enclosing block
    when it happens in a per-block pass; `Panic` is that outcome. */
module Amounts {

  const TWO_64: int := 0x1_0000_0000_0000_0000
  const TWO_32: int := 0x1_0000_0000

  type U64 = x: int | 0 <= x < TWO_64
  type U32 = x: int | 0 <= x < TWO_32

  datatype Result<+T> = Ok(value: T) | Panic {
    predicate IsFailure() { Panic? }

    function PropagateFailure<U>(): Result<U>
      requires Panic?
    {
      Panic
    }

    function Extract(): T
      requires Ok?
    {
      value
    }
  }

  datatype Outcome = Pass | Fail {
    predicate IsFailure() { Fail? }

    function PropagateFailure<U>(): Result<U>
      requires Fail?
    {
      Panic
    }
  }

  /** `opAssert`, `mustSuccess` and `MustExist`: panic unless the condition holds. */
  function Check(condition: bool): Outcome {
    if condition then Pass else Fail
  }

  /** Reads a row; a missing row panics. */
  function Find<K, V>(m: map<K, V>, k: K): Result<V> {
    if k in m then Ok(m[k]) else Panic
  }

  /** The unchecked `uint64` addition. */
  function WrapAdd(x: U64, y: U64): U64 {
    if x + y < TWO_64 then x + y else x + y - TWO_64
  }

  /** The unchecked `uint64` subtraction. */
  function WrapSub(x: U64, y: U64): U64 {
    if y <= x then x - y else x - y + TWO_64
  }

  /** The unchecked `uint64` multiplication. */
  function WrapMul(x: U64, y: U64): (r: U64)
    ensures x * y < TWO_64 ==> r == x * y
  {
    ProductNonNegative(x, y);
    x * y % TWO_64
  }

  lemma ProductNonNegative(x: nat, y: nat)
    ensures 0 <= x * y
  {
  }

  /** The overflow test compares against the wrapped sum; it rejects exactly the
      sums that do not fit. */
  function Add(x: U64, y: U64): (r: Result<U64>)
    ensures r == if x + y < TWO_64 then Ok(x + y) else Panic
  {
    if x > WrapAdd(y, x) then Panic else Ok(WrapAdd(x, y))
  }

  function Sub(x: U64, y: U64): (r: Result<U64>)
    ensures r.Ok? ==> r.value + y == x
    ensures r.Panic? <==> x < y
  {
    if x < y then Panic else Ok(x - y)
  }

  /** The overflow test divides the largest value; it rejects exactly the products
      that do not fit. */
  function Mul(x: U64, c: U64): (r: Result<U64>)
    ensures r == if x * c < TWO_64 then Ok(x * c) else Panic
  {
    if x == 0 then Ok(x)
    else
      QuotientTest(x, c);
      if (TWO_64 - 1) / x < c then Panic else Ok(x * c)
  }

  lemma QuotientTest(x: U64, c: U64)
    requires x != 0
    ensures (TWO_64 - 1) / x < c <==> TWO_64 <= x * c
  {
    var q := (TWO_64 - 1) / x;
    assert q * x <= TWO_64 - 1 < (q + 1) * x;
    if q < c {
      assert (q + 1) * x <= c * x;
    } else {
      assert c * x <= q * x;
    }
  }
}
