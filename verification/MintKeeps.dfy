/** The annual budget and the mint of one block. */
module MintKeeps {
  import opened Amounts
  import opened Sums
  import opened LedgerState
  import opened Evaluators
  import opened Economist
  import opened LedgerInvariant
  import opened LedgerKeeps

  /** Above every annual budget; amounts below it can be multiplied by a rate. */
  const MINT_CAP: int := 600_000_000_000_000

  const LIFETIME_BUDGET: int := SUPPLY_UNIT * 35_000

  // ----- the budget table -----

  lemma ClosedBudgetTable()
    ensures ClosedBudget(1) == 0
    ensures ClosedBudget(4) == SUPPLY_UNIT * 2_688
    ensures ClosedBudget(7) == SUPPLY_UNIT * 9_408
    ensures ClosedBudget(10) == SUPPLY_UNIT * 20_160
    ensures ClosedBudget(13) == LIFETIME_BUDGET
  {
    assert ClosedBudget(2) == SUPPLY_UNIT * 448;
    assert ClosedBudget(4) == SUPPLY_UNIT * 2_688;
    assert ClosedBudget(6) == SUPPLY_UNIT * 6_720;
    assert ClosedBudget(8) == SUPPLY_UNIT * 12_544;
    assert ClosedBudget(10) == SUPPLY_UNIT * 20_160;
    assert ClosedBudget(12) == SUPPLY_UNIT * 29_568;
  }

  /** No year after the twelfth has a budget. */
  lemma {:induction false} ClosedBudgetTail(y: nat)
    requires 13 <= y <= TWO_32
    ensures ClosedBudget(y) == LIFETIME_BUDGET
    decreases y
  {
    if y == 13 {
      ClosedBudgetTable();
    } else {
      ClosedBudgetTail(y - 1);
    }
  }

  /** While a budgeted year is open, the closed years leave room for it. */
  lemma {:induction false} ClosedBudgetRoom(y: U32)
    requires 1 <= y <= LAST_YEAR
    ensures ClosedBudget(y) + Budget(y) <= LIFETIME_BUDGET
    decreases LAST_YEAR - y
  {
    if y == LAST_YEAR {
      ClosedBudgetTable();
    } else {
      ClosedBudgetRoom(y + 1);
    }
  }

  /** The lifetime bound: never more than the lifetime budget, and all of it exactly
      when the twelfth year is closed. */
  lemma MintedBound(y: Year)
    requires MintOk(y)
    ensures 0 <= Minted(y) <= LIFETIME_BUDGET
    ensures Minted(y) == LIFETIME_BUDGET <==> y.ith > LAST_YEAR
  {
    hide ClosedBudget;
    if y.ith <= LAST_YEAR {
      ClosedBudgetRoom(y.ith);
    } else {
      ClosedBudgetTail(y.ith);
    }
  }

  // ----- one block -----

  lemma BudgetSteps(y: U32)
    requires 1 <= y < TWO_32 - 1
    ensures if y <= LAST_YEAR then 0 < Budget(y) else Budget(y) == 0
    ensures Budget(y) < MINT_CAP
    ensures Budget(y) == Budget(y + 1) <==> y > LAST_YEAR
    ensures ClosedBudget(y + 1) == ClosedBudget(y) + Budget(y)
  {
  }

  lemma PerBlockBound(budget: U64)
    ensures PerBlock(budget) <= budget
  {
  }

  /** What this year has minted so far. */
  function Spent(y: Year): U64 {
    if y.budget != Budget(y.ith) then 0 else y.minted
  }

  lemma MintOutcome(y: Year)
    requires MintOk(y) && y.ith < TWO_32 - 1
    ensures Spent(y) <= Budget(y.ith) && MintYear(y).Ok?
    ensures var minted, z, budget := MintAmount(y).1, MintYear(y).value, Budget(y.ith);
            || (z == Year(y.ith + 1, budget, budget) && minted == budget - Spent(y))
            || (z == Year(y.ith, budget, Spent(y) + minted) && z.minted < budget && minted == PerBlock(budget))
  {
    hide ClosedBudget, Budget, PerBlock;
    BudgetSteps(y.ith);
    PerBlockBound(Budget(y.ith));
  }

  /** One mint creates at most what the year has left, and records exactly what it
      creates; the year's number moves on exactly when its budget is used up. */
  lemma MintStep(y: Year)
    requires MintOk(y) && y.ith < TWO_32 - 1
    ensures MintYear(y).Ok?
    ensures var minted, z := MintAmount(y).1, MintYear(y).value;
            && MintOk(z) && Minted(z) == Minted(y) + minted
            && z.budget == Budget(y.ith) && z.minted <= z.budget
            && z.ith == (if z.minted == z.budget then y.ith + 1 else y.ith)
            && 0 <= minted < MINT_CAP
  {
    hide ClosedBudget, Budget, MintAmount, MintYear;
    BudgetSteps(y.ith);
    MintOutcome(y);
  }

  /** The year number is 32 bits wide: one mint keeps the books exactly when the
      number does not wrap. */
  lemma MintKeepsBooks(y: Year)
    requires MintOk(y)
    ensures MintYear(y).Ok? && (MintOk(MintYear(y).value) <==> y.ith < TWO_32 - 1)
  {
    if y.ith < TWO_32 - 1 {
      hide ClosedBudget, Budget;
      MintStep(y);
    } else {
      assert MintYear(y).value.ith == 0;
    }
  }

  // ----- the pace of a year -----

  const MINTS_PER_YEAR: nat := 31_536_000

  /** The budget of every year: as many times 448 units as its number says, and 56 more in the
      last; together 35 percent of the total supply. */
  lemma YearBudget(y: U32)
    ensures Budget(y) * 100_000 == COS_TOTAL_SUPPLY * (if y > 12 then 0 else 448 * y + if y == 12 then 56 else 0)
    ensures LIFETIME_BUDGET * 100 == COS_TOTAL_SUPPLY * 35
  {
    assert SUPPLY_UNIT * 100_000 == COS_TOTAL_SUPPLY;
  }

  lemma PerBlockPace(budget: U64)
    ensures PerBlock(budget) * MINTS_PER_YEAR <= budget < (PerBlock(budget) + 1) * MINTS_PER_YEAR
  {
  }

  /** While a year stays open, one mint is its budget spread over the blocks of a year, rounded
      down. */
  lemma MintPace(y: Year)
    requires MintOk(y) && y.ith < TWO_32 - 1 && MintYear(y).Ok? && MintYear(y).value.ith == y.ith
    ensures var m := MintAmount(y).1; m * MINTS_PER_YEAR <= Budget(y.ith) < (m + 1) * MINTS_PER_YEAR
  {
    hide ClosedBudget, Budget, PerBlock, MintAmount, MintYear;
    MintOutcome(y);
    PerBlockPace(Budget(y.ith));
  }

  /** The first mint of a year, and any but the last of it. */
  lemma OpenStep(y: Year, spent: U64, m: U64)
    requires 1 <= y.ith <= LAST_YEAR && Spent(y) == spent && m == PerBlock(Budget(y.ith)) && spent + m < Budget(y.ith)
    ensures MintYear(y) == Ok(Year(y.ith, Budget(y.ith), spent + m)) && MintAmount(y).1 == m
  {
    assert 0 < Budget(y.ith) < MINT_CAP by { BudgetSteps(y.ith); }
    hide Budget, PerBlock;
  }

  lemma LastStep(y: Year, spent: U64, m: U64)
    requires 1 <= y.ith <= LAST_YEAR && Spent(y) == spent && m == PerBlock(Budget(y.ith))
    requires spent < Budget(y.ith) <= spent + m
    ensures MintYear(y) == Ok(Year(y.ith + 1, Budget(y.ith), Budget(y.ith))) && MintAmount(y).1 == Budget(y.ith) - spent
  {
    assert 0 < Budget(y.ith) < MINT_CAP by { BudgetSteps(y.ith); }
    PerBlockBound(Budget(y.ith));
    hide Budget, PerBlock;
  }

  /** From its first mint on, a year has minted the same amount with every block. */
  lemma {:induction false} YearRuns(y: Year, n: nat, m: U64)
    requires 1 <= y.ith <= LAST_YEAR && Spent(y) == 0 && m == PerBlock(Budget(y.ith)) && n * m < Budget(y.ith)
    ensures MintTimes(y, n).1 == n * m && MintTimes(y, n).0.ith == y.ith && Spent(MintTimes(y, n).0) == n * m
  {
    if n > 0 {
      hide Budget, PerBlock, MintYear, MintAmount;
      assert n * m == (n - 1) * m + m;
      YearRuns(y, n - 1, m);
      OpenStep(MintTimes(y, n - 1).0, (n - 1) * m, m);
    }
  }

  /** A budgeted year stays open for as many mints as a year has blocks, all but the last of
      which may close it, mints evenly until it closes, and has closed 23 mints later at the
      latest, with exactly its budget minted. */
  lemma YearPace(y: Year) returns (last: nat)
    requires 1 <= y.ith <= LAST_YEAR && Spent(y) == 0
    ensures MINTS_PER_YEAR <= last <= MINTS_PER_YEAR + 23
    ensures forall n :: 0 <= n < last ==>
              MintTimes(y, n).0.ith == y.ith && MintTimes(y, n).1 * MINTS_PER_YEAR <= n * Budget(y.ith)
    ensures MintTimes(y, last).0.ith == y.ith + 1 && MintTimes(y, last).1 == Budget(y.ith)
  {
    var budget := Budget(y.ith);
    var m := PerBlock(budget);
    assert m > 1_400_000 by { FirstPace(y.ith); }
    PerBlockPace(budget);
    hide Budget, PerBlock, MintYear, MintAmount, MintTimes;
    last := LastMint(budget, m);
    forall n | 0 <= n < last
      ensures MintTimes(y, n).0.ith == y.ith && MintTimes(y, n).1 * MINTS_PER_YEAR <= n * budget
    {
      Fewer(n, last - 1, m);
      YearRuns(y, n, m);
      Spread(n, m, budget);
    }
    Fewer(last - 1, last - 1, m);
    YearRuns(y, last - 1, m);
    var z := MintTimes(y, last - 1).0;
    LastStep(z, (last - 1) * m, m);
    OneMoreMint(y, last);
  }

  lemma OneMoreMint(y: Year, n: nat)
    requires n > 0 && MintYear(MintTimes(y, n - 1).0).Ok?
    ensures MintTimes(y, n).0 == MintYear(MintTimes(y, n - 1).0).value
    ensures MintTimes(y, n).1 == MintTimes(y, n - 1).1 + MintAmount(MintTimes(y, n - 1).0).1
  {
    hide MintYear, MintAmount;
  }

  lemma FirstPace(y: U32)
    requires 1 <= y <= LAST_YEAR
    ensures PerBlock(Budget(y)) > 1_400_000
  {
    assert Budget(y) >= SUPPLY_UNIT * 448;
  }

  lemma Fewer(n: nat, k: nat, m: nat)
    requires n <= k
    ensures n * m <= k * m
  {
  }

  lemma Spread(n: nat, m: nat, budget: nat)
    requires m * MINTS_PER_YEAR <= budget
    ensures n * m * MINTS_PER_YEAR <= n * budget
  {
    Fewer(m * MINTS_PER_YEAR, budget, n);
  }

  /** The first number of mints of size `m` that reaches the budget. */
  lemma LastMint(budget: nat, m: nat) returns (last: nat)
    requires m > 1_400_000 && m * MINTS_PER_YEAR <= budget < (m + 1) * MINTS_PER_YEAR
    ensures MINTS_PER_YEAR <= last <= MINTS_PER_YEAR + 23 && (last - 1) * m < budget <= last * m
  {
    last := MINTS_PER_YEAR;
    while last * m < budget
      invariant MINTS_PER_YEAR <= last <= MINTS_PER_YEAR + 23 && (last - 1) * m < budget
      decreases MINTS_PER_YEAR + 23 - last
    {
      assert last < MINTS_PER_YEAR + 23;
      last := last + 1;
    }
  }

  // ----- after the last year -----

  /** The year after `n` mints, and all they created. */
  function MintTimes(y: Year, n: nat): (Year, nat) {
    if n == 0 then (y, 0)
    else
      var (z, total) := MintTimes(y, n - 1);
      match MintYear(z)
      case Ok(w) => (w, total + MintAmount(z).1)
      case Panic => (z, total)
  }

  lemma {:induction false} MintTimesAdd(y: Year, m: nat, n: nat)
    ensures var (z, a) := MintTimes(y, m);
            var (w, b) := MintTimes(z, n);
            MintTimes(y, m + n) == (w, a + b)
  {
    hide MintYear, MintAmount;
    if n > 0 {
      MintTimesAdd(y, m, n - 1);
    }
  }

  /** Every year comes to its end, and records all it minted. */
  lemma {:induction false} LastNumberReached(y: Year) returns (n: nat)
    requires MintOk(y)
    ensures var (z, total) := MintTimes(y, n);
            z.ith == TWO_32 - 1 && MintOk(z) && Minted(z) == Minted(y) + total
    decreases TWO_32 - y.ith, Budget(y.ith) - Spent(y)
  {
    hide Budget, MintYear, MintAmount, Minted, MintOk;
    n := 0;
    if y.ith < TWO_32 - 1 {
      MintStep(y);
      YearMoves(y);
      var m := LastNumberReached(MintYear(y).value);
      MintTimesAdd(y, 1, m);
      assert MintTimes(y, 0) == (y, 0) && MintTimes(y, 1) == (MintYear(y).value, MintAmount(y).1);
      n := 1 + m;
    }
  }

  /** While a year stays open, what it has left shrinks with every mint. */
  lemma YearMoves(y: Year)
    requires MintOk(y) && y.ith < TWO_32 - 1
    ensures MintYear(y).Ok? && Spent(y) <= Budget(y.ith) && y.ith > 0
    ensures var z := MintYear(y).value;
            || z.ith == y.ith + 1
            || (z.ith == y.ith && Spent(y) < Spent(z) <= Budget(y.ith))
  {
    hide ClosedBudget, Budget, PerBlock, MintAmount, MintYear;
    MintOutcome(y);
    if MintYear(y).value.ith == y.ith {
      PerBlockPositive(y.ith);
    }
  }

  lemma PerBlockPositive(y: U32)
    requires Budget(y) > 0 && y > 0
    ensures PerBlock(Budget(y)) > 0
  {
    assert Budget(y) >= SUPPLY_UNIT * 448;
  }

  lemma FirstYear()
    ensures MintOk(Year(1, 0, 0)) && Minted(Year(1, 0, 0)) == 0
  {
    ClosedBudgetTable();
    hide ClosedBudget;
  }

  /** Once the largest year number has passed, the first year begins again. */
  lemma FirstYearAgain()
    ensures var y := Year(TWO_32 - 1, 0, 0);
            MintTimes(y, 3).1 > 0 && MintTimes(y, 2).0 == Year(1, 0, 0)
  {
    var y := Year(TWO_32 - 1, 0, 0);
    assert MintTimes(y, 0) == (y, 0);
    assert MintTimes(y, 1) == (Year(0, 0, 0), 0);
    assert MintTimes(y, 2) == (Year(1, 0, 0), 0);
    assert MintAmount(Year(1, 0, 0)).1 > 0;
  }

  /** From genesis on, enough blocks mint more than the lifetime budget. */
  lemma LifetimeExceeded() returns (n: nat)
    ensures MintTimes(Year(1, 0, 0), n).1 > LIFETIME_BUDGET
  {
    hide Budget, MintYear, MintAmount, MintTimes, Minted, MintOk;
    var first := Year(1, 0, 0);
    FirstYear();
    var m := LastNumberReached(first);
    var (z, total) := MintTimes(first, m);
    MintedBound(z);
    assert z == Year(TWO_32 - 1, 0, 0) by { LastYears(z); }
    FirstYearAgain();
    MintTimesAdd(first, m, 3);
    n := m + 3;
  }

  lemma LastYears(y: Year)
    requires MintOk(y) && y.ith == TWO_32 - 1
    ensures y == Year(TWO_32 - 1, 0, 0)
  {
  }

  /** A block's mint is split without remainder: six tenths for creators, of which three
      quarters go to posts, fifteen hundredths to replies and the rest to votes, one tenth
      for applications, and what is left for the producer. */
  lemma SplitExact(minted: U64)
    requires minted < MINT_CAP
    ensures var s, creators := SplitMint(minted), minted * 6 / 10;
            && s.bp + s.posts + s.replies + s.votes + s.dapps == minted
            && s.posts + s.replies + s.votes == creators && s.dapps == minted / 10
            && s.posts == creators * 3 / 4 && s.replies == creators * 15 / 100
  {
    var creator := minted * REWARD_RATE_CREATOR / PERCENT;
    var dapp := minted * REWARD_RATE_DAPP / PERCENT;
    assert SplitMint(minted).dapps == dapp;
    assert creator + dapp <= minted;
    assert creator * REWARD_RATE_AUTHOR / PERCENT + creator * REWARD_RATE_REPLY / PERCENT <= creator;
  }
}
