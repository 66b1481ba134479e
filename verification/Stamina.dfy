/** Stamina: a usage that decays over a window, in fixed-point arithmetic, and the charges
    made against it. */
module Stamina {
  import opened Amounts

  const LIMIT_PRECISION: int := 1_000_000
  const WINDOW_SIZE: U64 := 86_400
  const NET_CONSUME_POINT_NUM: U64 := 10
  const CPU_CONSUME_POINT_DEN: U64 := 100
  const TWO_63: int := 0x8000_0000_0000_0000

  // ----- arithmetic -----

  /** The cast of a `uint64` to `int64`. */
  function Signed(x: U64): int {
    if x < TWO_63 then x else x - TWO_64
  }

  /** The low 64 bits of a big number's magnitude. */
  function Unsigned(x: int): U64 {
    (if x >= 0 then x else -x) % TWO_64
  }

  /** `divideCeilBig`. */
  function DivideCeil(num: int, den: int): (q: int)
    requires den > 0
    ensures num <= q * den < num + den
  {
    num / den + if num % den > 0 then 1 else 0
  }

  type Period = p: int | 0 < p < TWO_63 witness 1

  /** The usage per block, in units of the precision, rounded up. */
  function Average(x: U64, period: Period): int {
    DivideCeil(Signed(x) * LIMIT_PRECISION, period)
  }

  /** The share that is left after `delta` blocks, rounded up. */
  function Decay(delta: U64, period: Period): int {
    DivideCeil((period - delta) * LIMIT_PRECISION, period)
  }

  function Scale(average: int, factor: int): int {
    average * factor / LIMIT_PRECISION
  }

  /** The average of the earlier usage, decayed. */
  function Decayed(used: U64, last: U64, now: U64, period: Period): int {
    if now <= last then Average(used, period)
    else if now < WrapAdd(last, period) then Scale(Average(used, period), Decay(now - last, period))
    else 0
  }

  /** `calculateEMA`. */
  function EMA(used: U64, more: U64, last: U64, now: U64, period: Period): U64 {
    Unsigned(Scale(Decayed(used, last, now, period) + Average(more, period), period))
  }

  /** The same, as the source computes it: big numbers updated in place. */
  method CalculateEMA(used: U64, more: U64, last: U64, now: U64, period: Period) returns (r: U64)
    ensures r == EMA(used, more, last, now, period)
  {
    hide DivideCeil, Unsigned;
    var usedBig := Signed(used);
    usedBig := usedBig * LIMIT_PRECISION;
    var moreBig := Signed(more);
    moreBig := moreBig * LIMIT_PRECISION;
    var avgOld := DivideCeil(usedBig, period);
    var avgUse := DivideCeil(moreBig, period);
    if now > last {
      if now < WrapAdd(last, period) {
        var delta := now - last;
        var gap := period - delta;
        gap := gap * LIMIT_PRECISION;
        var decay := DivideCeil(gap, period);
        avgOld := avgOld * decay;
        avgOld := avgOld / LIMIT_PRECISION;
      } else {
        avgOld := 0;
      }
    }
    assert avgOld == Decayed(used, last, now, period);
    hide Decayed, Average;
    avgOld := avgOld + avgUse;
    avgOld := avgOld * period;
    avgOld := avgOld / LIMIT_PRECISION;
    r := Unsigned(avgOld);
  }

  // ----- rounding -----

  /** What rounding up adds to a usage, in units of the precision. */
  function Excess(x: U64, period: Period): int {
    Average(x, period) * period - Signed(x) * LIMIT_PRECISION
  }

  lemma ExcessBounds(x: U64, period: Period)
    ensures 0 <= Excess(x, period) < period
  {
  }

  lemma FloorExact(whole: nat, e: nat)
    ensures (whole * LIMIT_PRECISION + e) / LIMIT_PRECISION == whole <==> e < LIMIT_PRECISION
    ensures (whole * LIMIT_PRECISION + e) / LIMIT_PRECISION == whole + e / LIMIT_PRECISION
  {
  }

  /** Without decay the two usages add up exactly when the rounding stays below one unit,
      whatever the window. */
  lemma AddsExactlyIff(used: U64, more: U64, last: U64, now: U64, period: Period)
    requires now <= last && used < TWO_63 && more < TWO_63
    ensures EMA(used, more, last, now, period) == used + more
            <==> Excess(used, period) + Excess(more, period) < LIMIT_PRECISION
  {
    hide DivideCeil, Average, Unsigned;
    ExcessBounds(used, period);
    ExcessBounds(more, period);
    var e := Excess(used, period) + Excess(more, period);
    var a, b := Average(used, period), Average(more, period);
    Distribute(a, b, period);
    assert (a + b) * period == (used + more) * LIMIT_PRECISION + e;
    FloorExact(used + more, e);
    Wrapped(used + more, e / LIMIT_PRECISION);
  }

  /** A small excess is never lost by the wrap-around. */
  lemma Wrapped(x: nat, k: nat)
    requires x < TWO_64 && k < TWO_64
    ensures Unsigned(x + k) == x <==> k == 0
  {
  }

  lemma Distribute(a: int, b: int, c: int)
    ensures (a + b) * c == a * c + b * c
  {
  }

  /** The bound under which rounding never loses anything. */
  lemma AddsExactly(used: U64, more: U64, last: U64, now: U64, period: Period)
    requires now <= last && used < TWO_63 && more < TWO_63 && 2 * (period - 1) < LIMIT_PRECISION
    ensures EMA(used, more, last, now, period) == used + more
  {
    hide EMA, Average, Excess;
    ExcessBounds(used, period);
    ExcessBounds(more, period);
    AddsExactlyIff(used, more, last, now, period);
  }

  // ----- decay -----

  lemma DecayBounds(delta: U64, period: Period)
    requires 0 < delta < period
    ensures 0 < Decay(delta, period) <= LIMIT_PRECISION
  {
    var q := Decay(delta, period);
    assert (period - delta) * LIMIT_PRECISION <= q * period < (period - delta) * LIMIT_PRECISION + period;
    if q > LIMIT_PRECISION {
      IntMulMonotone(LIMIT_PRECISION + 1, q, period);
    }
    if q <= 0 {
      IntMulMonotone(q, 0, period);
    }
  }

  lemma ScaleDown(a: nat, d: nat)
    requires d <= LIMIT_PRECISION
    ensures 0 <= a * d / LIMIT_PRECISION <= a
  {
    assert a * d <= a * LIMIT_PRECISION;
  }

  lemma FloorMonotone(x: nat, y: nat)
    requires x <= y
    ensures 0 <= x / LIMIT_PRECISION <= y / LIMIT_PRECISION
  {
  }

  /** Waiting never increases a usage. */
  lemma DecayNeverIncreases(used: U64, last: U64, now: U64, period: Period)
    requires period <= LIMIT_PRECISION
    ensures EMA(used, 0, last, now, period) <= used
  {
    if used < TWO_63 {
      PositiveDecays(used, last, now, period);
    } else {
      hide EMA;
      NegativeDecays(used, last, now, period);
    }
  }

  lemma PositiveDecays(used: U64, last: U64, now: U64, period: Period)
    requires used < TWO_63 && period <= LIMIT_PRECISION
    ensures EMA(used, 0, last, now, period) <= used
  {
    ExcessBounds(used, period);
    ExcessBounds(0, period);
    NoUse(period);
    var a := Average(used, period);
    assert a * period == used * LIMIT_PRECISION + Excess(used, period);
    FloorExact(used, Excess(used, period));
    hide DivideCeil, Excess;
    AverageNonNegative(used, period);
    if last < now < WrapAdd(last, period) {
      DecayBounds(now - last, period);
      ScaleDown(a, Decay(now - last, period));
      var b := a * Decay(now - last, period) / LIMIT_PRECISION;
      MulMonotone(b, a, period);
      FloorMonotone(b * period, a * period);
    }
  }

  /** A usage that reads as negative does not pass 2^63 either. */
  lemma NegativeDecays(used: U64, last: U64, now: U64, period: Period)
    requires used >= TWO_63
    ensures EMA(used, 0, last, now, period) <= TWO_63
  {
    hide DivideCeil, Signed;
    NoUse(period);
    var a := Average(used, period);
    AverageNegative(used, period);
    if now <= last {
      NegativeFloor(a, a * period, period);
    } else if now < WrapAdd(last, period) {
      DecayBounds(now - last, period);
      var f := Decay(now - last, period);
      ScaleUp(a, f);
      var b := a * f / LIMIT_PRECISION;
      IntMulMonotone(a, b, period);
      NegativeFloor(b, b * period, period);
    }
  }

  lemma AverageNegative(used: U64, period: Period)
    requires used >= TWO_63
    ensures Average(used, period) <= 0 && Average(used, period) * period >= -TWO_63 * LIMIT_PRECISION
  {
    var q := Average(used, period);
    assert Signed(used) * LIMIT_PRECISION < 0;
    assert Signed(used) * LIMIT_PRECISION <= q * period < Signed(used) * LIMIT_PRECISION + period;
    NotPositive(q, period);
  }

  lemma NotPositive(q: int, period: Period)
    requires q * period < period
    ensures q <= 0
  {
    if q >= 1 {
      IntMulMonotone(1, q, period);
      assert false;
    }
  }

  lemma ScaleUp(a: int, f: int)
    requires a <= 0 <= f <= LIMIT_PRECISION
    ensures a <= a * f / LIMIT_PRECISION <= 0
  {
    MulMonotone(f, LIMIT_PRECISION, -a);
    assert a * LIMIT_PRECISION <= a * f <= 0;
    FloorBetween(a, a * f);
  }

  lemma FloorBetween(a: int, x: int)
    requires a * LIMIT_PRECISION <= x <= 0
    ensures a <= x / LIMIT_PRECISION <= 0
  {
  }

  lemma NegativeFloor(b: int, x: int, period: Period)
    requires b <= 0 && x == b * period && x >= -TWO_63 * LIMIT_PRECISION
    ensures Unsigned(x / LIMIT_PRECISION) <= TWO_63
  {
    MulMonotone(0, -b, period);
    assert x <= 0;
    FloorBetween(-TWO_63, x);
  }

  /** In a window beyond the precision a usage can grow by being read; no caller has one. */
  lemma GrowsBeyondPrecision()
    ensures EMA(1, 0, 0, 0, 3_000_000) == 3
  {
  }

  lemma IntMulMonotone(a: int, b: int, c: nat)
    requires a <= b
    ensures a * c <= b * c
  {
  }

  lemma MulMonotone(a: nat, b: nat, c: nat)
    requires a <= b
    ensures 0 <= a * c <= b * c
  {
  }

  lemma AverageNonNegative(x: U64, period: Period)
    requires x < TWO_63
    ensures 0 <= Average(x, period)
  {
    var q := Average(x, period);
    assert 0 <= x * LIMIT_PRECISION <= q * period;
    if q < 0 {
      IntMulMonotone(q, -1, period);
    }
  }

  lemma NoUse(period: Period)
    ensures Average(0, period) == 0
  {
  }

  /** After a full window nothing is left. */
  lemma ZeroAfterWindow(used: U64, last: U64, now: U64, period: Period)
    requires now >= last + period
    ensures EMA(used, 0, last, now, period) == 0
  {
    NoUse(period);
  }

  /** Beyond the bound rounding can add a unit. */
  lemma InexactBeyondBound()
    ensures EMA(1, 1, 0, 0, 999_999) == 3
  {
  }

  // ----- what is left inside the window -----

  /** A product, so that sums of products can be reasoned about as sums. */
  function By(a: nat, b: nat): nat {
    a * b
  }

  lemma ByGrows(a: nat, b: nat, c: nat)
    requires a <= b
    ensures By(a, c) <= By(b, c)
  {
  }

  /** `x` is at most so many units of the precision and a rest. */
  lemma BySum(x: nat, n: nat, rest: nat, c: nat)
    requires x <= n * LIMIT_PRECISION + rest
    ensures By(x, c) <= By(n, c) * LIMIT_PRECISION + By(rest, c)
  {
    ByGrows(x, n * LIMIT_PRECISION + rest, c);
    assert (n * LIMIT_PRECISION + rest) * c == n * c * LIMIT_PRECISION + rest * c;
  }

  lemma ByUnits(n: nat, x: nat, c: nat)
    requires n * LIMIT_PRECISION <= x
    ensures By(n, c) * LIMIT_PRECISION <= By(x, c)
  {
    ByGrows(n * LIMIT_PRECISION, x, c);
  }

  lemma BySwap(a: nat, b: nat, c: nat)
    ensures By(By(a, b), c) == By(By(a, c), b) == By(By(b, a), c) && By(a, b) == By(b, a)
  {
  }

  lemma ByPlus(a: nat, b: nat, c: nat)
    ensures By(a + b, c) == By(a, c) + By(b, c) && By(LIMIT_PRECISION, c) == c * LIMIT_PRECISION
  {
  }

  /** From the four roundings: what is left is not far below the exact share. */
  lemma ShareAtLeast(used: nat, left: nat, p: nat, a: nat, f: nat, b: nat, r: nat)
    requires used * LIMIT_PRECISION <= By(a, p) && left * LIMIT_PRECISION <= By(f, p) && p <= LIMIT_PRECISION
    requires By(a, f) <= b * LIMIT_PRECISION + LIMIT_PRECISION && By(b, p) <= r * LIMIT_PRECISION + LIMIT_PRECISION
    ensures By(used, left) <= By(r, p) + 2 * p
  {
    hide By;
    BySum(By(a, f), b, LIMIT_PRECISION, p);
    ByPlus(LIMIT_PRECISION, p, p);
    ByUnits(left, By(f, p), a);
    BySwap(f, p, a);
    BySwap(a, f, p);
    BySwap(f, a, p);
    assert By(By(f, p), a) == By(By(a, f), p);
    assert By(left, a) <= r * LIMIT_PRECISION + (LIMIT_PRECISION + p);
    BySum(By(left, a), r, LIMIT_PRECISION + p, p);
    ByUnits(used, By(a, p), left);
    BySwap(a, p, left);
    BySwap(a, left, p);
    ByGrows(p, LIMIT_PRECISION, p);
  }

  /** Nor is it far above. */
  lemma ShareAtMost(used: nat, left: nat, p: nat, a: nat, f: nat, b: nat, r: nat)
    requires By(a, p) <= used * LIMIT_PRECISION + p && By(f, p) <= left * LIMIT_PRECISION + p && left < p <= LIMIT_PRECISION
    requires b * LIMIT_PRECISION <= By(a, f) && r * LIMIT_PRECISION <= By(b, p)
    ensures By(r, p) * LIMIT_PRECISION <= By(used, left) * LIMIT_PRECISION + By(used, p) + p * LIMIT_PRECISION
  {
    hide By;
    ByUnits(b, By(a, f), p);
    BySum(By(f, p), left, p, a);
    BySwap(f, p, a);
    BySwap(f, a, p);
    BySwap(p, a, p);
    assert r * LIMIT_PRECISION * LIMIT_PRECISION <= By(left, a) * LIMIT_PRECISION + By(p, a);
    BySum(r * LIMIT_PRECISION * LIMIT_PRECISION, By(left, a), By(p, a), p);
    ByUnits(r * LIMIT_PRECISION, r * LIMIT_PRECISION * LIMIT_PRECISION, p);
    ByUnits(r, r * LIMIT_PRECISION, p);
    BySwap(left, a, p);
    BySwap(a, left, p);
    var x := By(a, p);
    BySum(x, used, p, left);
    BySum(x, used, p, p);
    BySwap(p, left, p);
    ByGrows(left + 1, p, p);
    ByPlus(left, 1, p);
    ByPlus(p, p, p);
    ByGrows(p, LIMIT_PRECISION, p);
    assert By(1, p) == p by { ByOne(p); }
  }

  lemma ByOne(p: nat)
    ensures By(1, p) == p
  {
  }

  lemma Floors(x: nat)
    ensures x / LIMIT_PRECISION * LIMIT_PRECISION <= x <= x / LIMIT_PRECISION * LIMIT_PRECISION + LIMIT_PRECISION
  {
  }

  /** Inside the window the usage falls in proportion to the blocks that have passed: up to
      rounding, what is left of it is the share of the window still to come. */
  lemma DecaysInProportion(used: U64, last: U64, now: U64, period: Period)
    requires used < TWO_63 && period <= LIMIT_PRECISION && last < now < last + period < TWO_64
    ensures var r, left := EMA(used, 0, last, now, period), period - (now - last);
            && used * left <= r * period + 2 * period
            && r * period * LIMIT_PRECISION <= used * left * LIMIT_PRECISION + used * period + period * LIMIT_PRECISION
  {
    var left := period - (now - last);
    var a, f := Average(used, period), Decay(now - last, period);
    assert used * LIMIT_PRECISION <= a * period < used * LIMIT_PRECISION + period;
    assert left * LIMIT_PRECISION <= f * period < left * LIMIT_PRECISION + period;
    AverageNonNegative(used, period);
    DecayBounds(now - last, period);
    NoUse(period);
    hide DivideCeil, Average, Decay;
    var b, r := Rounded(used, period, a, f);
    assert Decayed(used, last, now, period) == b;
    assert EMA(used, 0, last, now, period) == r;
    ShareAtLeast(used, left, period, a, f, b, r);
    ShareAtMost(used, left, period, a, f, b, r);
  }

  lemma Rounded(used: U64, period: Period, a: nat, f: nat) returns (b: nat, r: nat)
    requires a * period < used * LIMIT_PRECISION + period && period <= LIMIT_PRECISION && f <= LIMIT_PRECISION
    ensures b == Scale(a, f) && r == Scale(b, period) && r == Unsigned(r) && r <= used
    ensures b * LIMIT_PRECISION <= a * f <= b * LIMIT_PRECISION + LIMIT_PRECISION
    ensures r * LIMIT_PRECISION <= b * period <= r * LIMIT_PRECISION + LIMIT_PRECISION
  {
    ScaleDown(a, f);
    b := a * f / LIMIT_PRECISION;
    Floors(a * f);
    MulMonotone(b, a, period);
    Floors(b * period);
    FloorMonotone(0, b * period);
    r := b * period / LIMIT_PRECISION;
  }

  /** Close to the end of the block numbers the end of the window wraps around, and everything
      is forgotten at once. */
  lemma WrappedWindow(used: U64, last: U64, now: U64, period: Period)
    requires last < now && last + period >= TWO_64
    ensures EMA(used, 0, last, now, period) == 0
  {
    NoUse(period);
  }

  lemma CeilMonotone(x: int, y: int, den: int)
    requires x <= y && den > 0
    ensures DivideCeil(x, den) <= DivideCeil(y, den)
  {
    var a, b := DivideCeil(x, den), DivideCeil(y, den);
    if a > b {
      IntMulMonotone(b + 1, a, den);
    }
  }

  /** The decayed average moves towards zero. */
  lemma DecayedFalls(used: U64, last: U64, now: U64, later: U64, period: Period)
    requires now <= later
    ensures var x, y := Decayed(used, last, now, period), Decayed(used, last, later, period);
            if used < TWO_63 then 0 <= y <= x <= Average(used, period) else Average(used, period) <= x <= y <= 0
  {
    if used < TWO_63 {
      AverageNonNegative(used, period);
    } else {
      AverageNegative(used, period);
    }
    if last < now < WrapAdd(last, period) {
      DecayBounds(now - last, period);
    }
    if last < later < WrapAdd(last, period) {
      DecayBounds(later - last, period);
      if last < now {
        CeilMonotone((period - (later - last)) * LIMIT_PRECISION, (period - (now - last)) * LIMIT_PRECISION, period);
      }
    }
    hide DivideCeil, Average;
    var a := Average(used, period);
    if last < now < WrapAdd(last, period) {
      ScaleTowards(a, Decay(now - last, period), LIMIT_PRECISION);
    }
    if last < later < WrapAdd(last, period) {
      ScaleTowards(a, Decay(later - last, period), LIMIT_PRECISION);
      if last < now {
        ScaleTowards(a, Decay(later - last, period), Decay(now - last, period));
      }
    }
  }

  lemma ScaleTowards(a: int, f: nat, g: nat)
    requires f <= g <= LIMIT_PRECISION
    ensures if a >= 0 then 0 <= Scale(a, f) <= Scale(a, g) <= a else a <= Scale(a, g) <= Scale(a, f) <= 0
  {
    if a >= 0 {
      MulMonotone(f, g, a);
      ScaleDown(a, g);
      FloorMonotone(a * f, a * g);
    } else {
      MulMonotone(f, g, -a);
      ScaleUp(a, f);
      ScaleUp(a, g);
      assert a * g <= a * f;
      FloorOrder(a * g, a * f);
    }
  }

  lemma FloorOrder(x: int, y: int)
    requires x <= y
    ensures x / LIMIT_PRECISION <= y / LIMIT_PRECISION
  {
  }

  /** A later block never reads a larger usage, in any window. */
  lemma LaterReadsLess(used: U64, last: U64, now: U64, later: U64, period: Period)
    requires now <= later
    ensures EMA(used, 0, last, later, period) <= EMA(used, 0, last, now, period)
  {
    hide DivideCeil, Average, Decayed, Unsigned;
    DecayedFalls(used, last, now, later, period);
    NoUse(period);
    var x, y := Decayed(used, last, now, period), Decayed(used, last, later, period);
    if used < TWO_63 {
      PositiveReads(used, x, y, period);
    } else {
      NegativeReads(used, x, y, period);
    }
  }

  lemma PositiveReads(used: U64, x: nat, y: nat, period: Period)
    requires used < TWO_63 && y <= x <= Average(used, period)
    ensures Unsigned(Scale(y, period)) <= Unsigned(Scale(x, period))
  {
    var a := Average(used, period);
    assert a * period < used * LIMIT_PRECISION + period;
    hide DivideCeil, Average;
    MulMonotone(y, x, period);
    MulMonotone(x, a, period);
    FloorMonotone(y * period, x * period);
    FloorMonotone(x * period, a * period);
    Fits(used, a * period, period);
  }

  lemma NegativeReads(used: U64, x: int, y: int, period: Period)
    requires used >= TWO_63 && Average(used, period) <= x <= y <= 0
    ensures Unsigned(Scale(y, period)) <= Unsigned(Scale(x, period))
  {
    var a := Average(used, period);
    AverageNegative(used, period);
    hide DivideCeil, Average;
    IntMulMonotone(x, y, period);
    IntMulMonotone(a, x, period);
    IntMulMonotone(y, 0, period);
    NegativeOrder(x * period, y * period);
  }

  lemma NegativeOrder(x: int, y: int)
    requires -TWO_63 * LIMIT_PRECISION <= x <= y <= 0
    ensures Unsigned(y / LIMIT_PRECISION) <= Unsigned(x / LIMIT_PRECISION)
  {
    FloorOrder(x, y);
    FloorBetween(-TWO_63, x);
    FloorBetween(-TWO_63, y);
  }

  lemma Fits(used: nat, x: nat, period: Period)
    requires used < TWO_63 && x < used * LIMIT_PRECISION + period
    ensures x / LIMIT_PRECISION < TWO_64
  {
  }

  // ----- charging -----

  /** The usage of an account at a block, before it is charged again. */
  function UsageAt(used: U64, last: U64, now: U64): U64 {
    EMA(used, 0, last, now, WINDOW_SIZE)
  }

  /** `GetFreeLeft` and `GetStakeLeft`. */
  function Left(max: U64, used: U64, last: U64, now: U64): U64 {
    var u := UsageAt(used, last, now);
    if max < u then 0 else max - u
  }

  /** `Consume` and `ConsumeFree`: fails when the allowance does not cover the charge. */
  function Consume(max: U64, used: U64, charge: U64, last: U64, now: U64): (bool, U64) {
    var u := UsageAt(used, last, now);
    if max < u then (false, 0)
    else if max - u < charge then (false, 0)
    else (true, EMA(u, charge, now, now, WINDOW_SIZE))
  }

  /** The usage that a charge leaves behind, before it is stored. */
  function Stored(max: U64, used: U64, charge: U64, last: U64, now: U64): int {
    if Consume(max, used, charge, last, now).0 then UsageAt(used, last, now) + charge else max
  }

  /** What is stored: a charge that is not covered uses the allowance up. */
  function After(max: U64, used: U64, charge: U64, last: U64, now: U64): U64 {
    var (ok, u) := Consume(max, used, charge, last, now);
    if ok then u else max
  }

  /** Within one block usages add up, as signed numbers, in every window up to half the
      precision, as those of stamina and of the average load are. */
  lemma AddsSigned(used: U64, more: U64, last: U64, now: U64, period: Period)
    requires now <= last && 2 * (period - 1) < LIMIT_PRECISION
    ensures EMA(used, more, last, now, period) == Unsigned(Signed(used) + Signed(more))
  {
    hide DivideCeil, Average, Unsigned, Signed;
    ExcessBounds(used, period);
    ExcessBounds(more, period);
    var a, b := Average(used, period), Average(more, period);
    var e := Excess(used, period) + Excess(more, period);
    Distribute(a, b, period);
    assert (a + b) * period == (Signed(used) + Signed(more)) * LIMIT_PRECISION + e;
    SignedFloor(Signed(used) + Signed(more), e);
  }

  /** They add up as they are exactly when both are below 2^63, or make up 2^63 together. */
  lemma AddsUpIff(used: U64, more: U64, last: U64, now: U64, period: Period)
    requires now <= last && 2 * (period - 1) < LIMIT_PRECISION
    ensures EMA(used, more, last, now, period) == used + more
            <==> (used < TWO_63 && more < TWO_63) || used + more == TWO_63
  {
    hide EMA;
    AddsSigned(used, more, last, now, period);
  }

  lemma SignedFloor(whole: int, e: nat)
    requires e < LIMIT_PRECISION
    ensures (whole * LIMIT_PRECISION + e) / LIMIT_PRECISION == whole
  {
  }

  /** A stored usage reads back as itself exactly up to 2^63; beyond, as what it lacks of
      2^64. */
  lemma ReadsBack(used: U64, last: U64, now: U64)
    requires now <= last
    ensures UsageAt(used, last, now) == if used <= TWO_63 then used else TWO_64 - used
  {
    hide EMA;
    AddsSigned(used, 0, last, now, WINDOW_SIZE);
  }

  /** No usage reads as more than 2^63. */
  lemma UsageBound(used: U64, last: U64, now: U64)
    ensures UsageAt(used, last, now) <= TWO_63
  {
    hide EMA;
    if used < TWO_63 {
      DecayNeverIncreases(used, last, now, WINDOW_SIZE);
    } else {
      NegativeDecays(used, last, now, WINDOW_SIZE);
    }
  }

  /** What a charge stores, when the allowance covers it. */
  lemma ChargeStores(max: U64, used: U64, charge: U64, last: U64, now: U64)
    requires Consume(max, used, charge, last, now).0
    ensures var v := UsageAt(used, last, now) + charge;
            v <= max && (v <= TWO_63 ==> After(max, used, charge, last, now) == v)
            && (v > TWO_63 ==> UsageAt(After(max, used, charge, last, now), now, now) < v)
  {
    hide EMA;
    UsageBound(used, last, now);
    var u := UsageAt(used, last, now);
    AddsSigned(u, charge, now, now, WINDOW_SIZE);
    ReadsBack(After(max, used, charge, last, now), now, now);
  }

  /** A charge takes the use, or all that is left; the allowance shrinks by no more than that,
      and by exactly that if and only if the usage left behind does not pass 2^63. */
  lemma ChargeExactIff(max: U64, used: U64, charge: U64, last: U64, now: U64)
    ensures var (ok, u) := Consume(max, used, charge, last, now);
            if ok then charge <= Left(max, used, last, now) else Left(max, used, last, now) <= charge
    ensures var rest := Left(max, used, last, now) - Min(charge, Left(max, used, last, now));
            && Left(max, After(max, used, charge, last, now), now, now) >= rest
            && (Left(max, After(max, used, charge, last, now), now, now) == rest
                <==> Stored(max, used, charge, last, now) <= TWO_63)
  {
    hide UsageAt;
    ReadsBack(After(max, used, charge, last, now), now, now);
    if Consume(max, used, charge, last, now).0 {
      ChargeStores(max, used, charge, last, now);
    }
  }

  /** Limits up to 2^63 are never a matter. */
  lemma WithinLimit(max: U64, used: U64, charge: U64, last: U64, now: U64)
    requires max <= TWO_63
    ensures Stored(max, used, charge, last, now) <= TWO_63
  {
  }

  /** What an account may use comes back with the blocks that pass, in proportion, and all of it
      after a full window. */
  lemma AllowanceRecovers(max: U64, used: U64, last: U64, now: U64)
    requires used < TWO_63 && used <= max && last < now && last + WINDOW_SIZE < TWO_64
    ensures var missing, left := max - Left(max, used, last, now), WINDOW_SIZE - (now - last);
            if left <= 0 then missing == 0
            else used * left <= missing * WINDOW_SIZE + 2 * WINDOW_SIZE
                 && missing * WINDOW_SIZE * LIMIT_PRECISION
                    <= used * left * LIMIT_PRECISION + used * WINDOW_SIZE + WINDOW_SIZE * LIMIT_PRECISION
  {
    hide EMA;
    DecayNeverIncreases(used, last, now, WINDOW_SIZE);
    if now < last + WINDOW_SIZE {
      DecaysInProportion(used, last, now, WINDOW_SIZE);
    } else {
      ZeroAfterWindow(used, last, now, WINDOW_SIZE);
    }
  }

  datatype Row = Row(free: U64, freeBlock: U64, stake: U64, stakeBlock: U64)

  /** What an account can still use at a block, free and staked together. */
  function Allowance(r: Row, maxFree: U64, maxStake: U64, now: U64): int {
    Left(maxFree, r.free, r.freeBlock, now) + Left(maxStake, r.stake, r.stakeBlock, now)
  }

  function Min(a: int, b: int): int {
    if a < b then a else b
  }

  /** The charge is the use, or all that is left; the allowance shrinks by no more than it, and
      by exactly it if and only if the usages left behind are representable. */
  ghost predicate Charged(before: Row, after: Row, use: U64, paid: U64, maxFree: U64, maxStake: U64, now: U64) {
    && paid == Min(use, Allowance(before, maxFree, maxStake, now))
    && Allowance(after, maxFree, maxStake, now) >= Allowance(before, maxFree, maxStake, now) - paid
    && (Allowance(after, maxFree, maxStake, now) == Allowance(before, maxFree, maxStake, now) - paid
        <==> Representable(before, use, maxFree, maxStake, now))
  }

  /** Neither allowance is left with a usage beyond 2^63, which the signed arithmetic misreads. */
  predicate Representable(r: Row, use: U64, maxFree: U64, maxStake: U64, now: U64) {
    && Stored(maxFree, r.free, use, r.freeBlock, now) <= TWO_63
    && (Consume(maxFree, r.free, use, r.freeBlock, now).0
        || Stored(maxStake, r.stake, Rest(r, use, maxFree, now), r.stakeBlock, now) <= TWO_63)
  }

  /** What the free allowance leaves to the staked one. */
  function Rest(r: Row, use: U64, maxFree: U64, now: U64): U64 {
    var left := Left(maxFree, r.free, r.freeBlock, now);
    if use <= left then 0 else use - left
  }

  /** Limits up to 2^63 are always representable. */
  lemma SmallLimits(r: Row, use: U64, maxFree: U64, maxStake: U64, now: U64)
    requires maxFree <= TWO_63 && maxStake <= TWO_63
    ensures Representable(r, use, maxFree, maxStake, now)
  {
    hide Stored, Consume, Rest;
    WithinLimit(maxFree, r.free, use, r.freeBlock, now);
    WithinLimit(maxStake, r.stake, Rest(r, use, maxFree, now), r.stakeBlock, now);
  }

  /** Beyond, a charge can go unnoticed: a limit that is used up reads as hardly used. */
  lemma LimitMisread(now: U64)
    ensures Left(TWO_64 - 1, TWO_64 - 1, now, now) == TWO_64 - 2
  {
    hide EMA;
    ReadsBack(TWO_64 - 1, now, now);
  }

  function UseOf(raw: U64, isNet: bool): U64 {
    if isNet then WrapMul(raw, NET_CONSUME_POINT_NUM) else raw / CPU_CONSUME_POINT_DEN
  }

  /** Ten points for a byte of the network, wrapping around, and one for every hundred steps of
      the processor that are full. */
  lemma UseMeans(raw: U64)
    ensures raw * 10 < TWO_64 ==> UseOf(raw, true) == raw * 10
    ensures UseOf(raw, true) < TWO_64 && (raw * 10 - UseOf(raw, true)) % TWO_64 == 0
    ensures UseOf(raw, false) * 100 <= raw < (UseOf(raw, false) + 1) * 100
  {
  }

  class Accounts {
    var rows: map<string, Row>

    /** The body of the loop of `deductStamina`: one caller pays from the free allowance
        first, then from the staked one. */
    method DeductOne(caller: string, use: U64, maxFree: U64, maxStake: U64, now: U64) returns (paid: U64)
      requires caller in rows
      modifies this
      ensures caller in rows && rows == old(rows)[caller := rows[caller]]
      ensures Charged(old(rows)[caller], rows[caller], use, paid, maxFree, maxStake, now)
    {
      hide Left, Consume, Stored, UsageAt;
      paid := 0;
      var row := rows[caller];
      var (ok, free) := Consume(maxFree, row.free, use, row.freeBlock, now);
      ChargeExactIff(maxFree, row.free, use, row.freeBlock, now);
      if !ok {
        var freeLeft := Left(maxFree, row.free, row.freeBlock, now);
        paid := paid + freeLeft;
        rows := rows[caller := rows[caller].(free := maxFree)];
        rows := rows[caller := rows[caller].(freeBlock := now)];
      } else {
        rows := rows[caller := rows[caller].(free := free)];
        rows := rows[caller := rows[caller].(freeBlock := now)];
        paid := use;
        return;
      }
      var left := use - paid;
      assert left == Rest(row, use, maxFree, now);
      var (staked, stake) := Consume(maxStake, row.stake, left, row.stakeBlock, now);
      ChargeExactIff(maxStake, row.stake, left, row.stakeBlock, now);
      if !staked {
        var stakeLeft := Left(maxStake, row.stake, row.stakeBlock, now);
        paid := paid + stakeLeft;
        rows := rows[caller := rows[caller].(stake := maxStake)];
        rows := rows[caller := rows[caller].(stakeBlock := now)];
      } else {
        rows := rows[caller := rows[caller].(stake := stake)];
        rows := rows[caller := rows[caller].(stakeBlock := now)];
        paid := paid + left;
      }
    }

    /** `deductStamina` over all callers, in any order; a missing account is skipped. */
    method DeductStamina(spent: map<string, U64>, isNet: bool, maxFree: U64, maxStake: map<string, U64>, now: U64)
      returns (paid: map<string, U64>)
      requires forall n :: n in spent && n in rows ==> n in maxStake
      modifies this
      ensures rows.Keys == old(rows).Keys
      ensures forall n :: n in rows && n !in spent ==> rows[n] == old(rows)[n]
      ensures forall n :: n in paid <==> n in spent && n in rows
      ensures forall n :: n in paid ==>
                Charged(old(rows)[n], rows[n], UseOf(spent[n], isNet), paid[n], maxFree, maxStake[n], now)
    {
      hide Charged, UseOf;
      paid := map[];
      var todo := spent.Keys;
      while todo != {}
        invariant todo <= spent.Keys && rows.Keys == old(rows).Keys
        invariant forall n :: n in rows && (n !in spent || n in todo) ==> rows[n] == old(rows)[n]
        invariant forall n :: n in paid <==> n in spent && n !in todo && n in rows
        invariant forall n :: n in paid ==>
                    Charged(old(rows)[n], rows[n], UseOf(spent[n], isNet), paid[n], maxFree, maxStake[n], now)
        decreases |todo|
      {
        var caller :| caller in todo;
        todo := todo - {caller};
        if caller in rows {
          var cost := DeductOne(caller, UseOf(spent[caller], isNet), maxFree, maxStake[caller], now);
          paid := paid[caller := cost];
        }
      }
    }
  }
}
