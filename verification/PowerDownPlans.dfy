/** A power-down from its announcement to its last instalment. */
module PowerDownPlans {
  import opened Amounts
  import opened LedgerState
  import opened Evaluators
  import opened Economist
  import opened LedgerInvariant
  import opened BlockPassKeeps
  import opened BookEffects

  // ----- what a plan has paid -----

  /** `k` instalments at a rate, until the amount is reached. */
  function PaidAfter(k: nat, rate: nat, amount: nat): nat {
    if k * rate < amount then k * rate else amount
  }

  /** One more instalment pays the rate, or what is left. */
  lemma OneMoreInstalment(k: nat, rate: nat, amount: nat)
    ensures var paid := PaidAfter(k, rate, amount);
            && paid <= amount
            && PaidAfter(k + 1, rate, amount) == if rate < amount - paid then paid + rate else amount
  {
    assert (k + 1) * rate == k * rate + rate;
  }

  /** Account `n` has received `k` instalments of a plan, and its own vest covers the others. */
  ghost predicate Plan(s: State, n: Name, amount: nat, rate: nat, k: nat) {
    && n in s.accounts
    && var a := s.accounts[n];
    && a.toPowerdown == amount && a.hasPowerdown == PaidAfter(k, rate, amount)
    && (a.hasPowerdown < amount ==>
          a.eachRate == rate && a.borrowed + s.props.accountCreateFee + (amount - a.hasPowerdown) <= a.vest)
  }

  /** The row of an account after an instalment that was not stopped. */
  lemma RowAfter(s: State, n: Name)
    requires PowerDownOne(s, n).Ok?
    ensures var t := PowerDownOne(s, n).value;
            && n in s.accounts && n in t.accounts && t.props.accountCreateFee == s.props.accountCreateFee
            && s.accounts[n].borrowed <= s.accounts[n].vest && s.accounts[n].hasPowerdown <= s.accounts[n].toPowerdown
            && var a, b := s.accounts[n], t.accounts[n];
            && LargestInstalment(a, s.props.accountCreateFee, a.vest - b.vest)
            && b.balance - a.balance == b.hasPowerdown - a.hasPowerdown == a.vest - b.vest
            && b.toPowerdown == a.toPowerdown && b.borrowed == a.borrowed
            && (b.hasPowerdown == b.toPowerdown || b.vest <= s.props.accountCreateFee || b.eachRate == a.eachRate)
  {
    hide UpdateBpVoteValue;
    var a := s.accounts[n];
    var q := PowerDownQuota(a, s.props.accountCreateFee).value;
    QuotaCovered(a, s.props.accountCreateFee);
    var v := a.(vest := a.vest - q, balance := a.balance + q, hasPowerdown := a.hasPowerdown + q);
    VoteRow(PutAccount(s, n, v), n, a.vest, v.vest);
  }

  /** The index of votes is not kept in the rows of accounts. */
  lemma VoteRow(s: State, n: Name, before: U64, after: U64)
    requires n in s.accounts && UpdateBpVoteValue(s, n, before, after).Ok?
    ensures var t := UpdateBpVoteValue(s, n, before, after).value;
            t.accounts == s.accounts && t.props == s.props
  {
  }

  /** One instalment carries the plan on. */
  lemma PlanStep(s: State, n: Name, amount: nat, rate: nat, k: nat)
    requires Plan(s, n, amount, rate, k) && PowerDownOne(s, n).Ok?
    ensures var t := PowerDownOne(s, n).value;
            && Plan(t, n, amount, rate, k + 1)
            && Balance(t, n) - Balance(s, n) == PaidAfter(k + 1, rate, amount) - PaidAfter(k, rate, amount)
  {
    hide PowerDownOne, PaidAfter;
    RowAfter(s, n);
    OneMoreInstalment(k, rate, amount);
    assert PaidAfter(k + 1, rate, amount) <= amount by { OneMoreInstalment(k + 1, rate, amount); }
  }

  // ----- a whole run of instalments -----

  /** The states before and after each instalment of an account.  In between anything may happen
      but a new announcement, as long as the account's own vest still covers what is left. */
  ghost predicate PowersDown(first: State, run: seq<(State, State)>, n: Name) {
    forall i {:trigger run[i]} :: 0 <= i < |run| ==>
      && PowerDownOne(run[i].0, n) == Ok(run[i].1)
      && Kept(if i == 0 then first else run[i - 1].1, run[i].0, n)
  }

  ghost predicate Kept(s: State, t: State, n: Name) {
    && n in s.accounts && n in t.accounts
    && var a, b := s.accounts[n], t.accounts[n];
    && b.toPowerdown == a.toPowerdown && b.hasPowerdown == a.hasPowerdown && b.eachRate == a.eachRate
    && b.borrowed + t.props.accountCreateFee + (b.toPowerdown - b.hasPowerdown) <= b.vest
  }

  /** The coins an account received from its instalments. */
  function Received(run: seq<(State, State)>, n: Name): int {
    if run == [] then 0
    else Received(run[..|run| - 1], n) + Balance(run[|run| - 1].1, n) - Balance(run[|run| - 1].0, n)
  }

  function Balance(s: State, n: Name): int {
    if n in s.accounts then s.accounts[n].balance else 0
  }

  lemma KeptPlan(s: State, t: State, n: Name, amount: nat, rate: nat, k: nat)
    requires Plan(s, n, amount, rate, k) && Kept(s, t, n)
    ensures Plan(t, n, amount, rate, k)
  {
    hide PaidAfter;
  }

  /** After `k` instalments the account has received `k` times the rate, or the amount. */
  lemma {:induction false} PlanRun(first: State, run: seq<(State, State)>, n: Name, amount: nat, rate: nat)
    requires Plan(first, n, amount, rate, 0) && PowersDown(first, run, n)
    ensures Plan(if run == [] then first else run[|run| - 1].1, n, amount, rate, |run|)
    ensures Received(run, n) == PaidAfter(|run|, rate, amount)
  {
    hide Plan, PaidAfter, PowerDownOne, Kept, PowersDown, Balance;
    if run == [] {
      NothingPaidYet(rate, amount);
    } else {
      var k := |run| - 1;
      EarlierOn(first, run, n);
      PlanRun(first, run[..k], n, amount, rate);
      KeptPlan(if k == 0 then first else run[k - 1].1, run[k].0, n, amount, rate, k);
      PlanStep(run[k].0, n, amount, rate, k);
    }
  }

  lemma EarlierOn(first: State, run: seq<(State, State)>, n: Name)
    requires run != [] && PowersDown(first, run, n)
    ensures PowersDown(first, run[..|run| - 1], n)
    ensures var k := |run| - 1;
            PowerDownOne(run[k].0, n) == Ok(run[k].1) && Kept(if k == 0 then first else run[k - 1].1, run[k].0, n)
  {
    hide Kept, PowerDownOne;
  }

  lemma NothingPaidYet(rate: nat, amount: nat)
    ensures PaidAfter(0, rate, amount) == 0
  {
  }

  lemma PlanRow(s: State, n: Name, amount: nat, rate: nat, k: nat)
    requires Plan(s, n, amount, rate, k)
    ensures n in s.accounts && s.accounts[n].hasPowerdown == PaidAfter(k, rate, amount)
  {
    hide PaidAfter;
  }

  // ----- from the announcement on -----

  /** An announced power-down is a plan, with nothing paid yet, at the whole part of one
      instalment's share. */
  lemma Announced(s: State, n: Name, amount: U64) returns (rate: nat)
    requires Records(s) && ApplyConvertVest(s, n, amount).Ok?
    ensures rate * Instalments(s) <= amount < (rate + 1) * Instalments(s)
    ensures Plan(ApplyConvertVest(s, n, amount).value, n, amount, rate, 0)
  {
    hide Records, ApplyConvertVest, Instalments, PaidAfter;
    ConvertVestIff(s, n, amount);
    rate := ApplyConvertVest(s, n, amount).value.accounts[n].eachRate;
    NothingPaidYet(rate, amount);
  }

  /** An account is due for its first instalment a week of blocks after the announcement, as long
      as its schedule is not changed before. */
  lemma FirstDue(s: State, n: Name, amount: U64, t: State)
    requires Records(s) && ApplyConvertVest(s, n, amount).Ok? && n in t.accounts
    requires t.accounts[n].nextPowerdown == ApplyConvertVest(s, n, amount).value.accounts[n].nextPowerdown
    ensures n in PowerDownDue(t) <==> (s.props.head + 604_800) % TWO_64 < t.props.head
    ensures s.props.head + 604_800 < TWO_64 ==> (n in PowerDownDue(t) <==> t.props.head - s.props.head > 604_800)
  {
    hide Records, ApplyConvertVest, Instalments;
    ConvertVestIff(s, n, amount);
  }

  /** What `k` instalments pay of an amount whose rate was rounded down for `w` of them. */
  lemma PaidOff(k: nat, rate: nat, amount: nat, w: nat)
    requires 0 < w && rate * w <= amount < (rate + 1) * w
    ensures amount < w ==> PaidAfter(k, rate, amount) == 0
    ensures k <= w ==> PaidAfter(k, rate, amount) == k * rate
    ensures k == w ==> amount - PaidAfter(k, rate, amount) < w
    ensures k == w + 1 ==> (PaidAfter(k, rate, amount) == amount <==> amount - rate * w <= rate)
    ensures w <= amount && 2 * w <= k + 1 ==> PaidAfter(k, rate, amount) == amount
  {
    assert (rate + 1) * w == rate * w + w;
    if amount < w {
      NoRate(rate, w, amount);
    } else {
      SomeRate(rate, w, amount);
    }
    if k <= w {
      TimesOrdered(k, w, rate);
    } else if k == w + 1 {
      assert (w + 1) * rate == w * rate + rate;
    }
    if w <= amount && 2 * w <= k + 1 {
      TimesOrdered(2 * w - 1, k, rate);
      assert (2 * w - 1) * rate == w * rate + (w - 1) * rate;
      TimesOrdered(1, rate, w - 1);
    }
  }

  lemma TimesOrdered(a: nat, b: nat, c: nat)
    requires a <= b
    ensures a * c <= b * c && c * a <= c * b
  {
  }

  lemma NoRate(rate: nat, w: nat, amount: nat)
    requires rate * w <= amount < w
    ensures rate == 0
  {
    if rate >= 1 {
      TimesOrdered(1, rate, w);
    }
  }

  lemma SomeRate(rate: nat, w: nat, amount: nat)
    requires w <= amount < (rate + 1) * w
    ensures 1 <= rate
  {
  }

  /** From the announcement on, whatever happens between its instalments: an account has received
      the rate for each of them until the amount is reached.  Twelve (later six) instalments pay
      all but less than one unit for each, and the next one the rest exactly when the rest is no
      more than the rate.  An amount below twelve (later six) is never paid at all. */
  lemma ConvertPays(s: State, n: Name, amount: U64, run: seq<(State, State)>)
    requires Records(s) && ApplyConvertVest(s, n, amount).Ok?
    requires PowersDown(ApplyConvertVest(s, n, amount).value, run, n)
    ensures run != [] ==>
              var last := run[|run| - 1].1;
              n in last.accounts && last.accounts[n].hasPowerdown == Received(run, n)
    ensures Received(run, n) == PaidAfter(|run|, amount / Instalments(s), amount)
    ensures amount < Instalments(s) ==> Received(run, n) == 0
    ensures |run| <= Instalments(s) ==> Received(run, n) == |run| * (amount / Instalments(s))
    ensures |run| == Instalments(s) ==> amount - Received(run, n) < Instalments(s)
    ensures |run| == Instalments(s) + 1 ==>
              (Received(run, n) == amount <==> amount % Instalments(s) <= amount / Instalments(s))
    ensures Instalments(s) <= amount && 2 * Instalments(s) <= |run| + 1 ==> Received(run, n) == amount
  {
    hide Records, ApplyConvertVest, PaidAfter, PowersDown, Received, Plan;
    var rate := Announced(s, n, amount);
    var first := ApplyConvertVest(s, n, amount).value;
    PlanRun(first, run, n, amount, rate);
    if run != [] {
      PlanRow(run[|run| - 1].1, n, amount, rate, |run|);
    }
    PaidOff(|run|, rate, amount, Instalments(s));
  }
}
