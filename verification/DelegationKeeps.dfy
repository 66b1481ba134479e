/** Delegation keeps the books, and what an order records is always covered. */
module DelegationKeeps {
  import opened Amounts
  import opened Sums
  import opened LedgerState
  import opened Evaluators
  import opened Economist
  import opened LedgerInvariant
  import opened LedgerKeeps

  // ----- the order book -----

  /** Row `n` of `m2` differs from row `n` of `m` by what order `o` weighs more than `was`. */
  ghost predicate OrderStep(m: map<Name, Account>, m2: map<Name, Account>, n: Name, id: U64, was: Order, o: Order)
    requires n in m && n in m2
  {
    && m2[n].lent == m[n].lent + LentBy(n, id, o) - LentBy(n, id, was)
    && m2[n].borrowed == m[n].borrowed + BorrowedBy(n, id, o) - BorrowedBy(n, id, was)
    && m2[n].delivering == m[n].delivering + DeliveringTo(n, id, o) - DeliveringTo(n, id, was)
  }

  /** An order that weighs nothing, for the time before it is written and after it is removed. */
  const NO_ORDER := Order("", "", 0, 0, 0, false)

  lemma OrderWritten(m: map<Name, Account>, m2: map<Name, Account>, orders: map<U64, Order>, id: U64, o: Order)
    requires OrdersOk(m, orders) && m2.Keys == m.Keys
    requires o.from in m && o.to in m && o.from != o.to && (!o.delivering ==> o.delivery == MAX_INT64)
    requires forall n :: n in m ==> OrderStep(m, m2, n, id, if id in orders then orders[id] else NO_ORDER, o)
    ensures OrdersOk(m2, orders[id := o])
  {
    hide Sum;
    forall n | n in m
      ensures m2[n].lent == Sum(orders[id := o], LentBy, n)
      ensures m2[n].borrowed == Sum(orders[id := o], BorrowedBy, n)
      ensures m2[n].delivering == Sum(orders[id := o], DeliveringTo, n)
    {
      SumPut(orders, LentBy, n, id, o);
      SumPut(orders, BorrowedBy, n, id, o);
      SumPut(orders, DeliveringTo, n, id, o);
    }
  }

  lemma OrderRemoved(m: map<Name, Account>, m2: map<Name, Account>, orders: map<U64, Order>, id: U64)
    requires OrdersOk(m, orders) && m2.Keys == m.Keys && id in orders
    requires forall n :: n in m ==> OrderStep(m, m2, n, id, orders[id], NO_ORDER)
    ensures OrdersOk(m2, orders - {id})
  {
    hide Sum;
    forall n | n in m
      ensures m2[n].lent == Sum(orders - {id}, LentBy, n)
      ensures m2[n].borrowed == Sum(orders - {id}, BorrowedBy, n)
      ensures m2[n].delivering == Sum(orders - {id}, DeliveringTo, n)
    {
      SumRemove(orders, LentBy, n, id);
      SumRemove(orders, BorrowedBy, n, id);
      SumRemove(orders, DeliveringTo, n, id);
    }
  }

  /** A row whose delegation totals change, the order book aside. */
  ghost predicate VestRow(a: Account, b: Account) {
    && a.stakeFor == b.stakeFor && a.stakeFrom == b.stakeFrom && a.bpVoteCount == b.bpVoteCount
    && a.hasPowerdown == b.hasPowerdown && a.toPowerdown == b.toPowerdown
    && (b.borrowed <= b.vest || a.vest - a.borrowed <= b.vest - b.borrowed)
  }

  lemma VestRowKeeps(s: State, n: Name, a: Account, drift: map<Name, nat>)
    requires StakesOk(s.accounts, s.stakes, s.props.stakeVest) && LimitsOk(s.accounts) && IndexOk(s, drift)
    requires n in s.accounts && VestRow(s.accounts[n], a) && PutVest(s, n, a).Ok?
    ensures var t := PutVest(s, n, a).value;
            t == s.(accounts := s.accounts[n := a], producers := t.producers)
            && t.producers.Keys == s.producers.Keys
            && StakesOk(t.accounts, s.stakes, s.props.stakeVest) && LimitsOk(t.accounts) && IndexOk(t, drift)
  {
    assert LimitsOk(s.accounts[n := a]);
    hide Sum, StakesOk, LimitsOk, IndexOk, PutVest;
    PutVestKeepsIndex(s, n, a, drift);
    StakesRow(s.accounts, s.stakes, s.props.stakeVest, n, a);
  }

  // ----- DelegateVest -----

  lemma LendBook(m: map<Name, Account>, orders: map<U64, Order>, id: U64, o: Order, a: Account, b: Account)
    requires OrdersOk(m, orders) && id !in orders && o.from in m && o.to in m && o.from != o.to
    requires !o.delivering && o.delivery == MAX_INT64
    requires a.lent == m[o.from].lent + o.amount
    requires a.borrowed == m[o.from].borrowed && a.delivering == m[o.from].delivering
    requires b.borrowed == m[o.to].borrowed + o.amount
    requires b.lent == m[o.to].lent && b.delivering == m[o.to].delivering
    ensures OrdersOk(m[o.from := a][o.to := b], orders[id := o])
  {
    hide OrdersOk;
    OrderWritten(m, m[o.from := a][o.to := b], orders, id, o);
  }

  lemma LendKeeps(s: State, id: U64, o: Order, d: Debt)
    requires Holds(s, d) && id !in s.orders && Lend(s, id, o).Ok?
    requires o.from != o.to && !o.delivering && o.delivery == MAX_INT64
    requires o.from in s.accounts && s.accounts[o.from].borrowed + o.amount <= s.accounts[o.from].vest
    ensures Holds(Lend(s, id, o).value, d)
  {
    hide Sum, StakesOk, OrdersOk, LimitsOk, NamesOk, TallyOk, CountsOk, VotersOk, PutVest;
    var t := Lend(s, id, o).value;
    var s1 := s.(orderCounter := id, orders := s.orders[id := o]);
    var a := s.accounts[o.from].(lent := s.accounts[o.from].lent + o.amount,
                                 vest := s.accounts[o.from].vest - o.amount);
    VestRowKeeps(s1, o.from, a, d.drift);
    var s2 := PutVest(s1, o.from, a).value;
    var b := s.accounts[o.to].(borrowed := s.accounts[o.to].borrowed + o.amount,
                               vest := s.accounts[o.to].vest + o.amount);
    VestRowKeeps(s2, o.to, b, d.drift);
    AccountSums(s.accounts, o.from, a);
    AccountSums(s2.accounts, o.to, b);
    LendBook(s.accounts, s.orders, id, o, a, b);
    assert t.accounts.Keys == s.accounts.Keys;
  }

  lemma DelegateVestKeeps(s: State, from: Name, to: Name, amount: U64, expiration: U64, d: Debt)
    requires Holds(s, d) && ApplyDelegateVest(s, from, to, amount, expiration).Ok?
    ensures Holds(ApplyDelegateVest(s, from, to, amount, expiration).value, d)
  {
    hide Holds, Lend;
    LendKeeps(s, WrapAdd(s.orderCounter, 1),
              Order(from, to, amount, WrapAdd(WrapAdd(s.props.head, 1), expiration), MAX_INT64, false), d);
  }

  // ----- UnDelegateVest -----

  lemma LenderRowKeeps(s: State, n: Name, a: Account, drift: map<Name, nat>)
    requires StakesOk(s.accounts, s.stakes, s.props.stakeVest) && LimitsOk(s.accounts) && IndexOk(s, drift)
    requires n in s.accounts && VestRow(s.accounts[n], a) && a.vest == s.accounts[n].vest
    ensures StakesOk(s.accounts[n := a], s.stakes, s.props.stakeVest) && LimitsOk(s.accounts[n := a])
            && IndexOk(PutAccount(s, n, a), drift)
  {
    assert LimitsOk(s.accounts[n := a]);
    hide Sum, StakesOk, LimitsOk, IndexOk;
    IndexRow(s, n, a, drift);
    StakesRow(s.accounts, s.stakes, s.props.stakeVest, n, a);
  }

  lemma RecallBook(m: map<Name, Account>, orders: map<U64, Order>, id: U64, o: Order, a: Account, b: Account)
    requires OrdersOk(m, orders) && id in orders && o.from in m && o.to in m && o.from != o.to
    requires !orders[id].delivering && o == orders[id].(delivering := true, delivery := o.delivery)
    requires a.lent == m[o.from].lent - o.amount && a.delivering == m[o.from].delivering + o.amount
    requires a.borrowed == m[o.from].borrowed
    requires b.borrowed == m[o.to].borrowed - o.amount
    requires b.lent == m[o.to].lent && b.delivering == m[o.to].delivering
    ensures OrdersOk(m[o.from := a][o.to := b], orders[id := o])
  {
    hide OrdersOk;
    OrderWritten(m, m[o.from := a][o.to := b], orders, id, o);
  }

  lemma RecallKeeps(s: State, id: U64, o: Order, d: Debt)
    requires Holds(s, d) && id in s.orders && !s.orders[id].delivering && Recall(s, id, o).Ok?
    requires o == s.orders[id].(delivering := true, delivery := o.delivery) && o.from != o.to
    ensures Holds(Recall(s, id, o).value, d)
  {
    hide Sum, StakesOk, OrdersOk, LimitsOk, NamesOk, TallyOk, CountsOk, VotersOk, PutVest;
    var t := Recall(s, id, o).value;
    var s1 := s.(orders := s.orders[id := o]);
    var a := s.accounts[o.from].(lent := s.accounts[o.from].lent - o.amount,
                                 delivering := s.accounts[o.from].delivering + o.amount);
    LenderRowKeeps(s1, o.from, a, d.drift);
    var s2 := PutAccount(s1, o.from, a);
    var b := s.accounts[o.to].(borrowed := s.accounts[o.to].borrowed - o.amount,
                               vest := s.accounts[o.to].vest - o.amount);
    VestRowKeeps(s2, o.to, b, d.drift);
    AccountSums(s.accounts, o.from, a);
    AccountSums(s2.accounts, o.to, b);
    RecallBook(s.accounts, s.orders, id, o, a, b);
    assert t.accounts.Keys == s.accounts.Keys;
  }

  lemma UnDelegateVestKeeps(s: State, account: Name, id: U64, d: Debt)
    requires Holds(s, d) && ApplyUnDelegateVest(s, account, id).Ok?
    ensures Holds(ApplyUnDelegateVest(s, account, id).value, d)
  {
    hide Money, IndexOk, StakesOk, LimitsOk, NamesOk, Recall;
    var delivery := WrapAdd(WrapAdd(s.props.head, 1), VEST_DELEGATION_DELIVERY_IN_BLOCKS);
    RecallKeeps(s, id, s.orders[id].(delivering := true, delivery := delivery), d);
  }

  // ----- no underflow -----

  /** All vest, whether held or on its way back, fits the vest total. */
  lemma VestBounds(s: State, n: Name, d: Debt)
    requires Money(s, d) && d.lost >= 0 && n in s.accounts
    ensures Sum(s.accounts, VestOf, ()) + Sum(s.accounts, DeliveringOf, ()) <= s.props.totalVest
    ensures s.accounts[n].vest <= Sum(s.accounts, VestOf, ())
    ensures 0 <= s.accounts[n].delivering <= Sum(s.accounts, DeliveringOf, ())
  {
    hide Sum, Minted, MintOk;
    SumBounds(s.accounts, VestOf, ());
    SumBounds(s.accounts, DeliveringOf, ());
  }

  /** What an order records is covered by the rows it names. */
  lemma OrderCovered(m: map<Name, Account>, orders: map<U64, Order>, id: U64)
    requires OrdersOk(m, orders) && LimitsOk(m) && id in orders
    ensures var o := orders[id];
            && o.from in m && o.to in m && o.from != o.to
            && (!o.delivering ==> o.amount <= m[o.from].lent && o.amount <= m[o.to].borrowed <= m[o.to].vest)
            && (o.delivering ==> o.amount <= m[o.from].delivering)
  {
    hide Sum;
    var o := orders[id];
    SumBounds(orders, LentBy, o.from);
    SumBounds(orders, BorrowedBy, o.to);
    SumBounds(orders, DeliveringTo, o.from);
  }

  /** Calling an order back panics exactly when the borrower's vote is stale. */
  lemma RecallIff(s: State, id: U64, o: Order, d: Debt)
    requires Holds(s, d) && d.lost >= 0 && id in s.orders && !s.orders[id].delivering
    requires o == s.orders[id].(delivering := true, delivery := o.delivery)
    ensures o.to in s.accounts && (Recall(s, id, o).Ok? <==> !Stale(s, o.to))
  {
    hide Sum, OrdersOk, LimitsOk, StakesOk, NamesOk, TallyOk, CountsOk, VotersOk, PutVest, Minted, MintOk;
    OrderCovered(s.accounts, s.orders, id);
    VestBounds(s, o.from, d);
    VestBounds(s, o.to, d);
    var a := s.accounts[o.from].(lent := s.accounts[o.from].lent - o.amount,
                                 delivering := s.accounts[o.from].delivering + o.amount);
    var b := s.accounts[o.to].(borrowed := s.accounts[o.to].borrowed - o.amount,
                               vest := s.accounts[o.to].vest - o.amount);
    var s1 := PutAccount(s.(orders := s.orders[id := o]), o.from, a);
    assert IndexOk(s1, d.drift) by {
      LenderRowKeeps(s.(orders := s.orders[id := o]), o.from, a, d.drift);
    }
    AccountSums(s.accounts, o.from, a);
    PutVestIff(s1, o.to, b, d.drift);
  }
}
