/** What each operation does and exactly when it succeeds.  Whatever the debt of the books, the
    arithmetic behind an operation's own checks never over- or underflows, save for one case: a
    vote update that meets a stale weight. */
module OpEffects {
  import opened Amounts
  import opened Sums
  import opened LedgerState
  import opened Evaluators
  import opened Economist
  import opened LedgerInvariant
  import opened LedgerKeeps
  import opened DelegationKeeps
  import opened MintKeeps
  import opened PassKeeps
  import opened VestMoves

  // ----- bounds -----

  /** The books of a reachable state: no more vest is missing than was lost. */
  ghost predicate Reachable(s: State, d: Debt) {
    Holds(s, d) && d.lost >= 0
  }

  /** Everything a sum is made of is small. */
  lemma Room(s: State, n: Name, d: Debt)
    requires Reachable(s, d) && n in s.accounts
    ensures s.props.totalCos + s.props.totalVest + s.props.ticketsIncome <= COS_TOTAL_SUPPLY
    ensures s.accounts[n].balance <= s.props.totalCos
    ensures s.accounts[n].vest <= Sum(s.accounts, VestOf, ()) <= s.props.totalVest
    ensures s.props.stakeVest <= s.props.totalVest && s.props.ticketsBpBonus <= s.props.totalVest
  {
    hide Sum, Records, IndexOk, Minted, MintOk;
    SupplyBound(s);
    SumBounds(s.accounts, BalanceOf, ());
    SumBounds(s.contracts, ContractBalance, ());
    SumBounds(s.accounts, VestOf, ());
    SumBounds(s.accounts, DeliveringOf, ());
  }

  lemma TwoBalances(s: State, a: Name, b: Name, d: Debt)
    requires Reachable(s, d) && a in s.accounts && b in s.accounts && a != b
    ensures s.accounts[a].balance + s.accounts[b].balance <= s.props.totalCos
  {
    hide Sum, Records, IndexOk, Minted, MintOk;
    SumBounds(s.contracts, ContractBalance, ());
    SumRemove(s.accounts, BalanceOf, (), a);
    SumBounds(s.accounts - {a}, BalanceOf, ());
    assert b in s.accounts - {a};
  }

  /** A stake record is covered by both accounts and by the total. */
  lemma StakeCovered(m: map<Name, Account>, stakes: map<StakeKey, StakeRecord>, stakeVest: int, key: StakeKey)
    requires StakesOk(m, stakes, stakeVest) && key in stakes
    ensures key.from in m && key.to in m && stakes[key].amount <= stakeVest
    ensures stakes[key].amount <= m[key.from].stakeFrom <= stakeVest
    ensures stakes[key].amount <= m[key.to].stakeFor <= stakeVest
  {
    hide Sum;
    SumBounds(stakes, StakeAmount, ());
    SumBounds(stakes, StakedBy, key.from);
    SumBounds(stakes, StakedTo, key.to);
    StakedWithin(stakes, key.from);
    StakedWithin(stakes, key.to);
  }

  /** No account's share of the records exceeds all records. */
  lemma {:induction false} StakedWithin(stakes: map<StakeKey, StakeRecord>, n: Name)
    ensures Sum(stakes, StakedBy, n) <= Sum(stakes, StakeAmount, ())
    ensures Sum(stakes, StakedTo, n) <= Sum(stakes, StakeAmount, ())
    decreases |stakes|
  {
    if stakes == map[] {
      SumZero(stakes, StakedBy, n);
      SumZero(stakes, StakedTo, n);
      SumZero(stakes, StakeAmount, ());
    } else {
      hide Sum;
      var k :| k in stakes;
      SumRemove(stakes, StakedBy, n, k);
      SumRemove(stakes, StakedTo, n, k);
      SumRemove(stakes, StakeAmount, (), k);
      StakedWithin(stakes - {k}, n);
    }
  }

  lemma StakesWithin(s: State, n: Name)
    requires Records(s) && n in s.accounts
    ensures s.accounts[n].stakeFrom <= s.props.stakeVest && s.accounts[n].stakeFor <= s.props.stakeVest
  {
    hide Sum, OrdersOk, LimitsOk, NamesOk;
    StakedWithin(s.stakes, n);
  }

  // ----- transfers -----

  /** The row gains `coins` and `vest`, and changes in nothing else. */
  predicate Gains(a: Account, b: Account, coins: int, vest: int) {
    && b.balance == a.balance + coins && b.vest == a.vest + vest
    && b == a.(balance := b.balance, vest := b.vest)
  }

  /** `amount` where the condition holds. */
  function If(condition: bool, amount: int): int {
    if condition then amount else 0
  }

  ghost predicate Transferred(m: map<Name, Account>, m2: map<Name, Account>, from: Name, to: Name, amount: int) {
    m2.Keys == m.Keys && forall n :: n in m ==> Gains(m[n], m2[n], If(n == to, amount) - If(n == from, amount), 0)
  }

  /** A transfer succeeds exactly when its own checks pass, and moves the coins. */
  lemma TransferIff(s: State, from: Name, to: Name, amount: U64, d: Debt)
    requires Reachable(s, d)
    ensures ApplyTransfer(s, from, to, amount).Ok? <==>
            && from in s.accounts && to in s.accounts && from != to && !IsBadGuy(s, from)
            && amount <= s.accounts[from].balance
    ensures ApplyTransfer(s, from, to, amount).Ok? ==>
              var t := ApplyTransfer(s, from, to, amount).value;
              t == s.(accounts := t.accounts) && Transferred(s.accounts, t.accounts, from, to, amount)
  {
    hide Reachable, Transferred;
    if from in s.accounts && to in s.accounts && from != to {
      TwoBalances(s, from, to, d);
      Room(s, to, d);
      var m := s.accounts;
      if amount <= m[from].balance {
        TransferRows(m, from, to, amount, m[from].(balance := m[from].balance - amount),
                     m[to].(balance := m[to].balance + amount));
      }
    }
  }

  lemma TransferRows(m: map<Name, Account>, from: Name, to: Name, amount: int, a: Account, b: Account)
    requires from in m && to in m && from != to
    requires Gains(m[from], a, -amount, 0) && Gains(m[to], b, amount, 0)
    ensures Transferred(m, m[from := a][to := b], from, to, amount)
  {
  }

  /** Coins of `from` became vest of `to`. */
  ghost predicate Vested(m: map<Name, Account>, m2: map<Name, Account>, from: Name, to: Name, amount: int) {
    m2.Keys == m.Keys && forall n :: n in m ==> Gains(m[n], m2[n], -If(n == from, amount), If(n == to, amount))
  }

  /** The totals moved from coins to vest. */
  predicate TotalsToVest(p: Props, q: Props, amount: int, staked: int) {
    && q == p.(totalCos := q.totalCos, totalVest := q.totalVest, stakeVest := q.stakeVest)
    && q.totalCos == p.totalCos - amount && q.totalVest == p.totalVest + amount
    && q.stakeVest == p.stakeVest + staked
  }

  /** A transfer to vest succeeds exactly when its own checks pass and the receiver's vote is
      not stale. */
  lemma TransferToVestIff(s: State, from: Name, to: Name, amount: U64, d: Debt)
    requires Reachable(s, d)
    ensures ApplyTransferToVest(s, from, to, amount).Ok? <==>
            && from in s.accounts && to in s.accounts && !IsBadGuy(s, from) && amount <= s.accounts[from].balance
            && !Stale(s, to)
    ensures ApplyTransferToVest(s, from, to, amount).Ok? ==>
              var t := ApplyTransferToVest(s, from, to, amount).value;
              && t == s.(accounts := t.accounts, producers := t.producers, props := t.props)
              && Vested(s.accounts, t.accounts, from, to, amount) && TotalsToVest(s.props, t.props, amount, 0)
              && Moved(s, t, [Move(to, amount)])
  {
    hide Holds, Vested, Moved, PutVest, Stale;
    if from in s.accounts && to in s.accounts && amount <= s.accounts[from].balance {
      Room(s, from, d);
      Room(s, to, d);
      var b := s.accounts[from].(balance := s.accounts[from].balance - amount);
      var s1 := PutAccount(s, from, b);
      var a := s1.accounts[to].(vest := s1.accounts[to].vest + amount);
      VestStep(s, from, to, b, a, d);
      if ApplyTransferToVest(s, from, to, amount).Ok? {
        VestedRows(s.accounts, from, to, amount, b, a);
        MovedFrame(s, PutVest(s1, to, a).value, ApplyTransferToVest(s, from, to, amount).value, [Move(to, amount)]);
      }
    }
  }

  /** Row `to` gains vest after row `from` has paid. */
  lemma VestStep(s: State, from: Name, to: Name, b: Account, a: Account, d: Debt)
    requires Reachable(s, d) && from in s.accounts && to in s.accounts
    requires b == s.accounts[from].(balance := b.balance)
    requires a == s.accounts[from := b][to].(vest := a.vest) && a.vest >= s.accounts[to].vest
    requires Sum(s.accounts, VestOf, ()) - s.accounts[to].vest + a.vest < TWO_64
    ensures var s1 := PutAccount(s, from, b);
            && (PutVest(s1, to, a).Ok? <==> !Stale(s, to))
            && (PutVest(s1, to, a).Ok? ==>
                  && PutVest(s1, to, a).value
                     == s1.(accounts := s1.accounts[to := a], producers := PutVest(s1, to, a).value.producers)
                  && Moved(s, PutVest(s1, to, a).value, [Move(to, a.vest - s.accounts[to].vest)]))
  {
    hide Sum, StakesOk, OrdersOk, LimitsOk, NamesOk, TallyOk, CountsOk, VotersOk, Minted, MintOk, PutVest, Moved;
    var s1 := PutAccount(s, from, b);
    RowKeeps(s, from, b, d.drift);
    AccountSums(s.accounts, from, b);
    PutVestIff(s1, to, a, d.drift);
    if PutVest(s1, to, a).Ok? {
      PutVestKeeps(s1, to, a, d.drift);
      MovedNone(s);
      MovedFrame(s, s, s1, []);
      MovedOne(s, s1, PutVest(s1, to, a).value, [], to, a);
      assert [] + [Move(to, a.vest - s.accounts[to].vest)] == [Move(to, a.vest - s.accounts[to].vest)];
    }
  }

  lemma VestedRows(m: map<Name, Account>, from: Name, to: Name, amount: int, a: Account, b: Account)
    requires from in m && to in m && Gains(m[from], a, -amount, 0) && Gains(m[from := a][to], b, 0, amount)
    ensures Vested(m, m[from := a][to := b], from, to, amount)
  {
  }

  /** The creator paid the fee; the new account starts with it as vest. */
  ghost predicate Created(m: map<Name, Account>, m2: map<Name, Account>, creator: Name, fee: int, name: Name, a: Account) {
    && creator in m && name !in m && m2.Keys == m.Keys + {name} && m2[name] == a
    && forall n :: n in m ==> Gains(m[n], m2[n], -If(n == creator, fee), 0)
  }

  /** An account is created exactly when the creator pays the fee and name and key are new. */
  lemma AccountCreateIff(s: State, creator: Name, fee: U64, newAccount: Name, key: PubKey, d: Debt)
    requires Reachable(s, d)
    ensures ApplyAccountCreate(s, creator, fee, newAccount, key).Ok? <==>
            && creator in s.accounts && s.props.accountCreateFee <= fee <= s.accounts[creator].balance
            && newAccount !in s.accounts && !KeyInUse(s, key)
    ensures ApplyAccountCreate(s, creator, fee, newAccount, key).Ok? ==>
              var t := ApplyAccountCreate(s, creator, fee, newAccount, key).value;
              && t == s.(accounts := t.accounts, props := t.props) && TotalsToVest(s.props, t.props, fee, 0)
              && Created(s.accounts, t.accounts, creator, fee, newAccount, NewAccount(fee, key))
  {
    hide Reachable, KeyInUse, Created;
    if creator in s.accounts && fee <= s.accounts[creator].balance {
      Room(s, creator, d);
      var a := s.accounts[creator].(balance := s.accounts[creator].balance - fee);
      KeyUseKept(s, creator, a, key);
      if newAccount !in s.accounts {
        CreatedRows(s.accounts, creator, fee, newAccount, a, NewAccount(fee, key));
      }
    }
  }

  lemma CreatedRows(m: map<Name, Account>, creator: Name, fee: int, name: Name, a: Account, b: Account)
    requires creator in m && name !in m && Gains(m[creator], a, -fee, 0)
    ensures Created(m, m[creator := a][name := b], creator, fee, name, b)
  {
  }

  lemma KeyUseKept(s: State, n: Name, a: Account, key: PubKey)
    requires n in s.accounts && a.pubKey == s.accounts[n].pubKey
    ensures KeyInUse(PutAccount(s, n, a), key) == KeyInUse(s, key)
  {
    if KeyInUse(s, key) {
      var k :| k in s.accounts && s.accounts[k].pubKey == key;
      assert k in PutAccount(s, n, a).accounts && PutAccount(s, n, a).accounts[k].pubKey == key;
    }
  }

  // ----- stakes -----

  /** Coins moved between the balance of `from` and its stake on `to`. */
  ghost predicate Staked(m: map<Name, Account>, m2: map<Name, Account>, from: Name, to: Name, amount: int) {
    m2.Keys == m.Keys && forall n :: n in m ==> StakedRow(m[n], m2[n], If(n == from, amount), If(n == to, amount))
  }

  predicate StakedRow(a: Account, b: Account, out: int, on: int) {
    && b.balance == a.balance - out && b.stakeFrom == a.stakeFrom + out && b.stakeFor == a.stakeFor + on
    && b == a.(balance := b.balance, stakeFrom := b.stakeFrom, stakeFor := b.stakeFor)
  }

  lemma StakedRows(m: map<Name, Account>, key: StakeKey, d: int, a: Account, b: Account)
    requires StakeStep(m, key, d, a, b)
    ensures Staked(m, StakeRows(m, key, a, b), key.from, key.to, d)
  {
  }

  lemma RecordCovered(s: State, key: StakeKey)
    requires Records(s) && key in s.stakes
    ensures key.from in s.accounts && key.to in s.accounts && s.stakes[key].amount <= s.props.stakeVest
    ensures s.stakes[key].amount <= s.accounts[key.from].stakeFrom
    ensures s.stakes[key].amount <= s.accounts[key.to].stakeFor
  {
    hide Sum, OrdersOk, LimitsOk, NamesOk, StakesOk;
    StakeCovered(s.accounts, s.stakes, s.props.stakeVest, key);
  }

  /** `amount` more or less on one record, with its effect on the rows and the totals. */
  ghost predicate StakeMoved(s: State, t: State, key: StakeKey, amount: int) {
    && t == s.(accounts := t.accounts, stakes := t.stakes, props := t.props)
    && Staked(s.accounts, t.accounts, key.from, key.to, amount) && TotalsToVest(s.props, t.props, amount, amount)
    && key in t.stakes && t.stakes - {key} == s.stakes - {key}
    && t.stakes[key].amount == (if key in s.stakes then s.stakes[key].amount else 0) + amount
  }

  /** A stake succeeds exactly when its own checks pass; the freeze starts over with it. */
  lemma StakeIff(s: State, from: Name, to: Name, amount: U64, d: Debt)
    requires Reachable(s, d)
    ensures ApplyStake(s, from, to, amount).Ok? <==>
            && from in s.accounts && to in s.accounts && !IsBadGuy(s, from) && amount <= s.accounts[from].balance
    ensures ApplyStake(s, from, to, amount).Ok? ==>
              var t := ApplyStake(s, from, to, amount).value;
              && StakeMoved(s, t, StakeKey(from, to), amount)
              && t.stakes[StakeKey(from, to)].lastStakeBlock == s.props.head
  {
    hide ApplyStake, StakeStep, Staked, StakeRows, Reachable;
    StakeOk(s, from, to, amount, d);
    if ApplyStake(s, from, to, amount).Ok? {
      StakeMark(s, from, to, amount);
      var r, a, b := StakeShape(s, from, to, amount);
      StakedRows(s.accounts, StakeKey(from, to), amount, a, b);
    }
  }

  lemma StakeOk(s: State, from: Name, to: Name, amount: U64, d: Debt)
    requires Reachable(s, d)
    ensures ApplyStake(s, from, to, amount).Ok? <==>
            && from in s.accounts && to in s.accounts && !IsBadGuy(s, from) && amount <= s.accounts[from].balance
  {
    hide Money, Records, IndexOk;
    if from in s.accounts && to in s.accounts && amount <= s.accounts[from].balance {
      Room(s, from, d);
      StakesWithin(s, from);
      StakesWithin(s, to);
      if StakeKey(from, to) in s.stakes {
        RecordCovered(s, StakeKey(from, to));
      }
    }
  }

  /** The freeze starts over with every stake. */
  lemma StakeMark(s: State, from: Name, to: Name, amount: U64)
    requires ApplyStake(s, from, to, amount).Ok?
    ensures var t := ApplyStake(s, from, to, amount).value;
            StakeKey(from, to) in t.stakes && t.stakes[StakeKey(from, to)].lastStakeBlock == s.props.head
  {
  }

  /** What an unstake asks for: a record that covers it, and that is not frozen. */
  predicate MayUnStake(s: State, key: StakeKey, amount: U64) {
    && key in s.stakes && amount <= s.stakes[key].amount
    && (s.props.head - s.stakes[key].lastStakeBlock) % TWO_64 > STAKE_FREEZE_TIME
  }

  /** An unstake succeeds exactly when the record covers it and the freeze is over. */
  lemma UnStakeIff(s: State, creditor: Name, debtor: Name, amount: U64, d: Debt)
    requires Reachable(s, d)
    ensures ApplyUnStake(s, creditor, debtor, amount).Ok? <==> MayUnStake(s, StakeKey(creditor, debtor), amount)
    ensures ApplyUnStake(s, creditor, debtor, amount).Ok? ==>
              var key, t := StakeKey(creditor, debtor), ApplyUnStake(s, creditor, debtor, amount).value;
              && StakeMoved(s, t, key, -(amount as int))
              && t.stakes[key].lastStakeBlock == s.stakes[key].lastStakeBlock
  {
    hide ApplyUnStake, StakeStep, Staked, StakeRows, Reachable;
    UnStakeOk(s, creditor, debtor, amount, d);
    if ApplyUnStake(s, creditor, debtor, amount).Ok? {
      UnStakeMark(s, creditor, debtor, amount);
      var r, a, b := UnStakeShape(s, creditor, debtor, amount);
      StakedRows(s.accounts, StakeKey(creditor, debtor), 0 - amount, a, b);
    }
  }

  lemma UnStakeOk(s: State, creditor: Name, debtor: Name, amount: U64, d: Debt)
    requires Reachable(s, d)
    ensures ApplyUnStake(s, creditor, debtor, amount).Ok? <==> MayUnStake(s, StakeKey(creditor, debtor), amount)
  {
    hide Money, Records, IndexOk;
    if StakeKey(creditor, debtor) in s.stakes {
      RecordCovered(s, StakeKey(creditor, debtor));
      Room(s, creditor, d);
      Room(s, debtor, d);
    }
  }

  lemma UnStakeMark(s: State, creditor: Name, debtor: Name, amount: U64)
    requires ApplyUnStake(s, creditor, debtor, amount).Ok?
    ensures var key, t := StakeKey(creditor, debtor), ApplyUnStake(s, creditor, debtor, amount).value;
            key in s.stakes && key in t.stakes && t.stakes[key].lastStakeBlock == s.stakes[key].lastStakeBlock
  {
  }
}
