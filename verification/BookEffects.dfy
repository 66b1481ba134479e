/** What tickets, power-downs, delegations and votes do to the books, and exactly when they
    succeed. */
module BookEffects {
  import opened Amounts
  import opened Sums
  import opened LedgerState
  import opened Evaluators
  import opened Economist
  import opened LedgerInvariant
  import opened LedgerKeeps
  import opened DelegationKeeps
  import opened MintKeeps
  import opened PassKeeps
  import opened VestMoves
  import opened BlockPassKeeps
  import opened OpEffects

  // ----- tickets -----

  /** The price of `count` tickets. */
  function TicketFee(price: U64, count: U64): (fee: nat) {
    ProductMonotone(price, 0, count);
    price * count
  }

  /** What buying tickets asks for: the price, and room for the count. */
  predicate MayAcquire(s: State, account: Name, count: U64) {
    && account in s.accounts && 0 < count <= MAX_TICKETS_PER_TURN
    && TicketFee(s.props.perTicketPrice, count) <= s.accounts[account].balance
    && s.accounts[account].chargedTicket + count < TWO_32
  }

  /** The fee leaves the balance and the coin total, and waits as ticket income. */
  predicate Acquired(s: State, t: State, account: Name, count: U64, fee: int) {
    && account in s.accounts && account in t.accounts
    && t == s.(accounts := s.accounts[account := t.accounts[account]], props := t.props)
    && t.accounts[account].balance == s.accounts[account].balance - fee
    && t.accounts[account].chargedTicket == s.accounts[account].chargedTicket + count
    && t.accounts[account].vest == s.accounts[account].vest
    && t.props.ticketsIncome == s.props.ticketsIncome + fee && t.props.totalCos == s.props.totalCos - fee
    && t.props == s.props.(ticketsIncome := t.props.ticketsIncome, totalCos := t.props.totalCos,
                           chargedTicketsNum := (s.props.chargedTicketsNum + count) % TWO_64)
  }

  /** Tickets are bought exactly when the balance covers them and their count fits. */
  lemma AcquireTicketIff(s: State, account: Name, count: U64, recordFree: bool, d: Debt)
    requires Reachable(s, d)
    ensures ApplyAcquireTicket(s, account, count, recordFree).Ok? <==> recordFree && MayAcquire(s, account, count)
    ensures ApplyAcquireTicket(s, account, count, recordFree).Ok? ==>
              Acquired(s, ApplyAcquireTicket(s, account, count, recordFree).value, account, count,
                       TicketFee(s.props.perTicketPrice, count))
  {
    hide Reachable, ApplyAcquireTicket, MayAcquire, Acquired, TicketFee;
    AcquireTicketGuard(s, account, count, recordFree);
    if recordFree && MayAcquire(s, account, count) {
      AcquireTicketEffect(s, account, count, d);
    }
  }

  lemma AcquireTicketGuard(s: State, account: Name, count: U64, recordFree: bool)
    ensures ApplyAcquireTicket(s, account, count, recordFree).Ok? ==> recordFree && MayAcquire(s, account, count)
  {
    hide TicketFee;
    FeeFits(s.props.perTicketPrice, count);
    hide Mul;
    if account in s.accounts && count <= MAX_TICKETS_PER_TURN {
      TicketWrap(s.accounts[account].chargedTicket, count);
    }
  }

  lemma AcquireTicketEffect(s: State, account: Name, count: U64, d: Debt)
    requires Reachable(s, d) && MayAcquire(s, account, count)
    ensures ApplyAcquireTicket(s, account, count, true).Ok?
    ensures Acquired(s, ApplyAcquireTicket(s, account, count, true).value, account, count,
                     TicketFee(s.props.perTicketPrice, count))
  {
    hide Reachable, TicketFee;
    FeeFits(s.props.perTicketPrice, count);
    hide Mul;
    TicketWrap(s.accounts[account].chargedTicket, count);
    Room(s, account, d);
  }

  lemma FeeFits(price: U64, count: U64)
    ensures Mul(price, count)
            == if TicketFee(price, count) < TWO_64 then Ok(TicketFee(price, count)) else Panic
  {
    hide Mul;
  }

  /** The overflow check rejects exactly the sums that do not fit. */
  lemma TicketWrap(a: U32, count: U64)
    requires count <= MAX_TICKETS_PER_TURN
    ensures (a + count) % TWO_32 == if a + count < TWO_32 then a + count else a + count - TWO_32
  {
  }

  /** The share of the income that `used` tickets carry. */
  function TicketShare(p: Props, used: U64): int {
    if p.chargedTicketsNum == 0 then 0 else p.ticketsIncome / p.chargedTicketsNum * used
  }

  lemma ShareWithinIncome(p: Props, used: U64)
    requires used <= p.chargedTicketsNum
    ensures 0 <= TicketShare(p, used) <= p.ticketsIncome
  {
    if p.chargedTicketsNum != 0 {
      var each := p.ticketsIncome / p.chargedTicketsNum;
      assert each * p.chargedTicketsNum <= p.ticketsIncome;
      ProductMonotone(each, used, p.chargedTicketsNum);
    }
  }

  lemma ProductMonotone(a: nat, b: nat, c: nat)
    requires b <= c
    ensures 0 <= a * b <= a * c
  {
  }

  /** A ticket's share moves from the income to the producers' bonus, as vest. */
  lemma SpendTicketsEffect(s: State, used: U64, d: Debt)
    requires Reachable(s, d) && s.accounts != map[] && used <= s.props.chargedTicketsNum
    ensures SpendTickets(s.props, used).Ok?
    ensures var p, q, share := s.props, SpendTickets(s.props, used).value, TicketShare(s.props, used);
            && q.ticketsIncome == p.ticketsIncome - share && q.ticketsBpBonus == p.ticketsBpBonus + share
            && q.totalVest == p.totalVest + share && q.chargedTicketsNum == p.chargedTicketsNum - used
            && q == p.(ticketsIncome := q.ticketsIncome, ticketsBpBonus := q.ticketsBpBonus,
                       totalVest := q.totalVest, chargedTicketsNum := q.chargedTicketsNum)
  {
    hide Reachable;
    var n :| n in s.accounts;
    Room(s, n, d);
    ShareWithinIncome(s.props, used);
    var p := s.props;
    if p.chargedTicketsNum != 0 {
      assert Mul(p.ticketsIncome / p.chargedTicketsNum, used) == Ok(TicketShare(p, used));
    }
    hide Mul;
  }

  function UsedTickets(count: U64, freeTicket: bool): int {
    if freeTicket then count - 1 else count
  }

  /** The tickets are gone, and their share of the income has moved to the producers' bonus. */
  predicate Voted(s: State, t: State, account: Name, used: int, share: int) {
    && account in s.accounts && 0 <= used <= s.accounts[account].chargedTicket
    && t == s.(accounts := t.accounts, props := t.props)
    && t.accounts == s.accounts[account := s.accounts[account].(chargedTicket := s.accounts[account].chargedTicket - used)]
    && t.props.ticketsIncome == s.props.ticketsIncome - share
    && t.props.ticketsBpBonus == s.props.ticketsBpBonus + share && t.props.totalVest == s.props.totalVest + share
    && t.props.chargedTicketsNum == s.props.chargedTicketsNum - used
    && t.props == s.props.(ticketsIncome := t.props.ticketsIncome, ticketsBpBonus := t.props.ticketsBpBonus,
                           totalVest := t.props.totalVest, chargedTicketsNum := t.props.chargedTicketsNum)
  }

  /** What a ticket vote asks for: enough tickets, and a producer to earn their share. */
  predicate MayVote(s: State, account: Name, count: U64, freeTicket: bool) {
    && account in s.accounts && 0 < count <= MAX_TICKETS_PER_TURN && s.props.producer in s.accounts
    && UsedTickets(count, freeTicket) <= s.accounts[account].chargedTicket
    && UsedTickets(count, freeTicket) <= s.props.chargedTicketsNum
  }

  /** A ticket vote succeeds exactly when its own checks pass. */
  lemma VoteByTicketIff(s: State, account: Name, count: U64, freeTicket: bool, postVotable: bool, d: Debt)
    requires Reachable(s, d)
    ensures ApplyVoteByTicket(s, account, count, freeTicket, postVotable).Ok? <==>
            postVotable && MayVote(s, account, count, freeTicket)
    ensures ApplyVoteByTicket(s, account, count, freeTicket, postVotable).Ok? ==>
              var used := UsedTickets(count, freeTicket);
              Voted(s, ApplyVoteByTicket(s, account, count, freeTicket, postVotable).value, account, used,
                    TicketShare(s.props, used))
  {
    hide Reachable, ApplyVoteByTicket, MayVote, Voted, TicketShare, UsedTickets;
    VoteByTicketGuard(s, account, count, freeTicket, postVotable);
    if postVotable && MayVote(s, account, count, freeTicket) {
      VoteByTicketEffect(s, account, count, freeTicket, d);
    }
  }

  lemma VoteByTicketGuard(s: State, account: Name, count: U64, freeTicket: bool, postVotable: bool)
    ensures ApplyVoteByTicket(s, account, count, freeTicket, postVotable).Ok? ==>
              postVotable && MayVote(s, account, count, freeTicket)
  {
    hide SpendTickets;
  }

  lemma VoteByTicketEffect(s: State, account: Name, count: U64, freeTicket: bool, d: Debt)
    requires Reachable(s, d) && MayVote(s, account, count, freeTicket)
    ensures ApplyVoteByTicket(s, account, count, freeTicket, true).Ok?
    ensures var used := UsedTickets(count, freeTicket);
            Voted(s, ApplyVoteByTicket(s, account, count, freeTicket, true).value, account, used,
                  TicketShare(s.props, used))
  {
    hide Reachable, SpendTickets, TicketShare;
    SpendTicketsEffect(s, UsedTickets(count, freeTicket), d);
  }

  // ----- power-down -----

  /** The number of instalments a power-down's rate is meant for: 12, and 6 from the second hard
      fork on. */
  function Instalments(s: State): nat {
    if s.props.head + 1 < 11_314_200 then 12 else 6
  }

  /** A power-down may be announced for exactly what is neither borrowed nor the account fee.  It
      starts anew, at the whole part of one instalment's share, a week of blocks later. */
  lemma ConvertVestIff(s: State, from: Name, amount: U64)
    requires Records(s)
    ensures ApplyConvertVest(s, from, amount).Ok? <==>
            from in s.accounts && s.accounts[from].borrowed + s.props.accountCreateFee + amount <= s.accounts[from].vest
    ensures ApplyConvertVest(s, from, amount).Ok? ==>
              var t := ApplyConvertVest(s, from, amount).value;
              && from in s.accounts && t == s.(accounts := t.accounts) && from in t.accounts
              && t.accounts == s.accounts[from := t.accounts[from]]
              && var rate, next := t.accounts[from].eachRate, t.accounts[from].nextPowerdown;
              && t.accounts[from] == s.accounts[from].(toPowerdown := amount, hasPowerdown := 0, eachRate := rate,
                                                       nextPowerdown := next)
              && rate * Instalments(s) <= amount < (rate + 1) * Instalments(s)
              && next == (s.props.head + 604_800) % TWO_64
  {
    hide Records;
    if from in s.accounts {
      LimitsOf(s, from);
    }
  }

  // ----- delegations -----

  /** The amount of an order that is not on its way back. */
  function OpenAmount(u: (), id: U64, o: Order): int {
    if o.delivering then 0 else o.amount
  }

  datatype Book = Book(orders: map<U64, Order>, lent: bool)

  /** What the book says an account lent, or borrowed. */
  ghost function Held(b: Book, n: Name, a: Account): int {
    if b.lent then Sum(b.orders, LentBy, n) else Sum(b.orders, BorrowedBy, n)
  }

  datatype Side = Side(order: Order, lent: bool)

  function HeldByOrder(s: Side, n: Name, a: Account): int {
    if s.lent then LentBy(n, 0, s.order) else BorrowedBy(n, 0, s.order)
  }

  lemma EmptyBook(m: map<Name, Account>, lent: bool)
    ensures Sum(m, Held, Book(map[], lent)) == 0
  {
    hide Sum;
    var orders: map<U64, Order> := map[];
    forall n | n in m
      ensures Held(Book(orders, lent), n, m[n]) == 0
    {
      SumZero(orders, LentBy, n);
      SumZero(orders, BorrowedBy, n);
    }
    SumZero(m, Held, Book(orders, lent));
  }

  /** One order adds its amount to one lender, and to one borrower. */
  lemma BookStep(m: map<Name, Account>, orders: map<U64, Order>, id: U64, lent: bool)
    requires id in orders && orders[id].from in m && orders[id].to in m
    ensures Sum(m, Held, Book(orders, lent))
            == Sum(m, Held, Book(orders - {id}, lent)) + OpenAmount((), id, orders[id])
  {
    hide Sum;
    var o := orders[id];
    forall n | n in m
      ensures Held(Book(orders, lent), n, m[n])
              == Held(Book(orders - {id}, lent), n, m[n]) + HeldByOrder(Side(o, lent), n, m[n])
    {
      SumRemove(orders, LentBy, n, id);
      SumRemove(orders, BorrowedBy, n, id);
    }
    SumSplit(m, Held, Book(orders, lent), Held, Book(orders - {id}, lent), HeldByOrder, Side(o, lent));
    SumSpike(m, HeldByOrder, Side(o, lent), if lent then o.from else o.to);
  }

  /** Lenders and borrowers are two views of the same orders. */
  lemma {:induction false} BookTotals(m: map<Name, Account>, orders: map<U64, Order>, lent: bool)
    requires forall id :: id in orders ==> orders[id].from in m && orders[id].to in m
    ensures Sum(m, Held, Book(orders, lent)) == Sum(orders, OpenAmount, ())
    decreases |orders|
  {
    hide Sum, Held;
    if orders == map[] {
      EmptyBook(m, lent);
      SumZero(orders, OpenAmount, ());
    } else {
      var id :| id in orders;
      BookTotals(m, orders - {id}, lent);
      SumRemove(orders, OpenAmount, (), id);
      BookStep(m, orders, id, lent);
    }
  }

  /** All that is lent is borrowed, and all that is borrowed is vest. */
  lemma LentIsBorrowed(s: State)
    requires Records(s)
    ensures Sum(s.accounts, Held, Book(s.orders, true)) == Sum(s.accounts, Held, Book(s.orders, false))
            <= Sum(s.accounts, VestOf, ())
    ensures forall n :: n in s.accounts ==> s.accounts[n].lent <= Sum(s.accounts, VestOf, ())
  {
    hide Sum, StakesOk, NamesOk;
    BookTotals(s.accounts, s.orders, true);
    BookTotals(s.accounts, s.orders, false);
    SumLess(s.accounts, Held, Book(s.orders, false), VestOf, ());
    forall n | n in s.accounts
      ensures 0 <= Held(Book(s.orders, true), n, s.accounts[n]) == s.accounts[n].lent
    {
    }
    SumBounds(s.accounts, Held, Book(s.orders, true));
  }

  /** The rows of an order that is placed. */
  ghost predicate Lent(m: map<Name, Account>, m2: map<Name, Account>, o: Order) {
    m2.Keys == m.Keys && forall n :: n in m ==> LentRow(m[n], m2[n], If(n == o.from, o.amount), If(n == o.to, o.amount))
  }

  predicate LentRow(a: Account, b: Account, out: int, in_: int) {
    && b.vest == a.vest - out + in_ && b.lent == a.lent + out && b.borrowed == a.borrowed + in_
    && b == a.(vest := b.vest, lent := b.lent, borrowed := b.borrowed)
  }

  /** The rows of an order that is called back. */
  ghost predicate Recalled(m: map<Name, Account>, m2: map<Name, Account>, o: Order) {
    m2.Keys == m.Keys
    && forall n :: n in m ==> RecalledRow(m[n], m2[n], If(n == o.from, o.amount), If(n == o.to, o.amount))
  }

  predicate RecalledRow(a: Account, b: Account, back: int, in_: int) {
    && b.vest == a.vest - in_ && b.borrowed == a.borrowed - in_
    && b.lent == a.lent - back && b.delivering == a.delivering + back
    && b == a.(vest := b.vest, lent := b.lent, borrowed := b.borrowed, delivering := b.delivering)
  }

  /** The lender's vest falls, the borrower's rises. */
  function LendMoves(o: Order): seq<Move> {
    [Move(o.from, -(o.amount as int)), Move(o.to, o.amount)]
  }

  function LenderRow(a: Account, amount: U64): Account
    requires a.lent + amount < TWO_64 && amount <= a.vest
  {
    a.(lent := a.lent + amount, vest := a.vest - amount)
  }

  function BorrowerRow(b: Account, amount: U64): Account
    requires b.borrowed + amount < TWO_64 && b.vest + amount < TWO_64
  {
    b.(borrowed := b.borrowed + amount, vest := b.vest + amount)
  }

  lemma LendRoom(s: State, o: Order, d: Debt)
    requires Reachable(s, d) && o.from in s.accounts && o.to in s.accounts
    requires s.accounts[o.from].borrowed + o.amount <= s.accounts[o.from].vest
    ensures Sum(s.accounts, VestOf, ()) + o.amount < TWO_64
    ensures s.accounts[o.from].lent + o.amount < TWO_64
    ensures s.accounts[o.to].borrowed + o.amount < TWO_64 && s.accounts[o.to].vest + o.amount < TWO_64
  {
    hide Sum, Money, IndexOk, Records;
    Room(s, o.from, d);
    Room(s, o.to, d);
    LentIsBorrowed(s);
    LimitsOf(s, o.to);
  }

  /** The lender's half of an order. */
  lemma LendFirst(s: State, id: U64, o: Order, d: Debt)
    requires Reachable(s, d) && o.from in s.accounts && o.amount <= s.accounts[o.from].vest
    requires s.accounts[o.from].lent + o.amount < TWO_64
    requires s.accounts[o.from].borrowed + o.amount <= s.accounts[o.from].vest
    requires Sum(s.accounts, VestOf, ()) < TWO_64
    ensures var s0, a := s.(orderCounter := id, orders := s.orders[id := o]), LenderRow(s.accounts[o.from], o.amount);
            && (PutVest(s0, o.from, a).Ok? <==> !Stale(s, o.from))
            && (PutVest(s0, o.from, a).Ok? ==>
                  var s1 := PutVest(s0, o.from, a).value;
                  && s1 == s0.(accounts := s.accounts[o.from := a], producers := s1.producers)
                  && IndexOk(s1, d.drift) && Moved(s, s1, [Move(o.from, -(o.amount as int))])
                  && Sum(s1.accounts, VestOf, ()) == Sum(s.accounts, VestOf, ()) - o.amount)
  {
    hide Sum, StakesOk, OrdersOk, LimitsOk, NamesOk, TallyOk, CountsOk, VotersOk, Minted, MintOk, PutVest, Moved, Money;
    var s0, a := s.(orderCounter := id, orders := s.orders[id := o]), LenderRow(s.accounts[o.from], o.amount);
    AccountSums(s.accounts, o.from, a);
    PutVestIff(s0, o.from, a, d.drift);
    if PutVest(s0, o.from, a).Ok? {
      VestRowKeeps(s0, o.from, a, d.drift);
      MovedNone(s);
      MovedFrame(s, s, s0, []);
      MovedOne(s, s0, PutVest(s0, o.from, a).value, [], o.from, a);
      assert [] + [Move(o.from, a.vest - s.accounts[o.from].vest)] == [Move(o.from, -(o.amount as int))];
    }
  }

  /** Placing an order that the lender's own vest covers panics exactly when one of the two
      votes is stale, the lender's being moved first. */
  lemma LendIff(s: State, id: U64, o: Order, d: Debt)
    requires Reachable(s, d) && o.from in s.accounts && o.to in s.accounts && o.from != o.to
    requires s.accounts[o.from].borrowed + o.amount <= s.accounts[o.from].vest
    ensures Lend(s, id, o).Ok? <==> Covered(s, LendMoves(o))
    ensures Lend(s, id, o).Ok? ==>
              var t := Lend(s, id, o).value;
              && Lent(s.accounts, t.accounts, o) && t.orders == s.orders[id := o] && t.props == s.props
              && Moved(s, t, LendMoves(o))
  {
    hide Sum, Reachable, IndexOk, PutVest, Moved, Covered, CoveredAt, Lent, Stale;
    LendRoom(s, o, d);
    LendFirst(s, id, o, d);
    MovedNone(s);
    var first, second := Move(o.from, -(o.amount as int)), Move(o.to, o.amount);
    assert [] + [first] == [first] && [first] + [second] == LendMoves(o);
    CoveredMore(s, [], first);
    CoveredMore(s, [first], second);
    MovedStale(s, s, [], o.from);
    var a, b := LenderRow(s.accounts[o.from], o.amount), BorrowerRow(s.accounts[o.to], o.amount);
    var s0 := s.(orderCounter := id, orders := s.orders[id := o]);
    if PutVest(s0, o.from, a).Ok? {
      var s1 := PutVest(s0, o.from, a).value;
      PutVestIff(s1, o.to, b, d.drift);
      MovedStale(s, s1, [first], o.to);
      if PutVest(s1, o.to, b).Ok? {
        LendSecond(s, s1, o, a, b);
        LentRows(s.accounts, o, a, b);
      }
    }
  }

  lemma LendSecond(s: State, s1: State, o: Order, a: Account, b: Account)
    requires o.from in s.accounts && o.to in s.accounts && o.from != o.to && s1.accounts == s.accounts[o.from := a]
    requires Moved(s, s1, [Move(o.from, -(o.amount as int))]) && PutVest(s1, o.to, b).Ok?
    requires b.vest == s.accounts[o.to].vest + o.amount
    ensures var t := PutVest(s1, o.to, b).value;
            && t == s1.(accounts := s.accounts[o.from := a][o.to := b], producers := t.producers)
            && Moved(s, t, LendMoves(o))
  {
    hide Moved;
    MovedOne(s, s1, PutVest(s1, o.to, b).value, [Move(o.from, -(o.amount as int))], o.to, b);
    assert [Move(o.from, -(o.amount as int))] + [Move(o.to, o.amount)] == LendMoves(o);
  }

  lemma LentRows(m: map<Name, Account>, o: Order, a: Account, b: Account)
    requires o.from in m && o.to in m && o.from != o.to
    requires LentRow(m[o.from], a, o.amount, 0) && LentRow(m[o.to], b, 0, o.amount)
    ensures Lent(m, m[o.from := a][o.to := b], o)
  {
  }

  /** What calling an order back does. */
  lemma RecallEffect(s: State, id: U64, o: Order)
    requires Recall(s, id, o).Ok? && o.from != o.to
    ensures var t := Recall(s, id, o).value;
            && Recalled(s.accounts, t.accounts, o) && t.orders == s.orders[id := o] && t.props == s.props
            && Moved(s, t, [Move(o.to, -(o.amount as int))])
  {
    hide PutVest, Moved, Recalled;
    var a := s.accounts[o.from];
    var a1 := a.(lent := a.lent - o.amount, delivering := a.delivering + o.amount);
    var s1 := s.(orders := s.orders[id := o], accounts := s.accounts[o.from := a1]);
    var b := s.accounts[o.to];
    var b1 := b.(borrowed := b.borrowed - o.amount, vest := b.vest - o.amount);
    PutVestFrame(s1, o.to, b1);
    RecalledRows(s.accounts, o, a1, b1);
    MovedNone(s);
    MovedFrame(s, s, s1, []);
    MovedOne(s, s1, PutVest(s1, o.to, b1).value, [], o.to, b1);
    assert [] + [Move(o.to, -(o.amount as int))] == [Move(o.to, -(o.amount as int))];
  }

  lemma PutVestFrame(s: State, n: Name, a: Account)
    requires n in s.accounts && PutVest(s, n, a).Ok?
    ensures var t := PutVest(s, n, a).value;
            t == s.(accounts := s.accounts[n := a], producers := t.producers)
  {
  }

  lemma RecalledRows(m: map<Name, Account>, o: Order, a: Account, b: Account)
    requires o.from in m && o.to in m && o.from != o.to
    requires RecalledRow(m[o.from], a, o.amount, 0) && RecalledRow(m[o.to], b, 0, o.amount)
    ensures Recalled(m, m[o.from := a][o.to := b], o)
  {
  }

  /** What may be lent: own vest that is neither the account fee nor promised to a running
      power-down. */
  function Lendable(a: Account, fee: U64): int {
    var own := a.vest - a.borrowed - fee;
    if a.eachRate == 0 then own
    else if own <= a.toPowerdown - a.hasPowerdown then Min(own, 0)
    else own - (a.toPowerdown - a.hasPowerdown)
  }

  function Min(a: int, b: int): int {
    if a < b then a else b
  }

  /** A delegation succeeds exactly when its own checks pass and neither vote is stale. */
  lemma DelegateVestIff(s: State, from: Name, to: Name, amount: U64, expiration: U64, d: Debt)
    requires Reachable(s, d)
    ensures ApplyDelegateVest(s, from, to, amount, expiration).Ok? <==>
            && from in s.accounts && to in s.accounts && from != to && AtLeast(s, HARD_FORK3) && !IsBadGuy(s, from)
            && s.accounts[from].reputation > MIN_REPUTATION
            && MIN_VEST_DELEGATION_AMOUNT <= amount <= Lendable(s.accounts[from], s.props.accountCreateFee)
            && WrapAdd(s.orderCounter, 1) !in s.orders
            && Covered(s, [Move(from, -(amount as int)), Move(to, amount)])
    ensures ApplyDelegateVest(s, from, to, amount, expiration).Ok? ==>
              var t, id := ApplyDelegateVest(s, from, to, amount, expiration).value, WrapAdd(s.orderCounter, 1);
              && Placed(s, t, id) && t.orders[id].from == from && t.orders[id].to == to
              && t.orders[id].amount == amount && !t.orders[id].delivering
              && t.orders[id].maturity == (s.props.head + 1 + expiration) % TWO_64
              && Moved(s, t, [Move(from, -(amount as int)), Move(to, amount)])
  {
    hide Money, IndexOk, Records, Lend, Lent, Covered, Moved;
    if from in s.accounts && to in s.accounts && from != to {
      LimitsOf(s, from);
      var o := Order(from, to, amount, WrapAdd(WrapAdd(s.props.head, 1), expiration), MAX_INT64, false);
      var id := WrapAdd(s.orderCounter, 1);
      if s.accounts[from].borrowed + amount <= s.accounts[from].vest {
        LendIff(s, id, o, d);
      }
    }
  }

  /** A new order, and the rows that lend and borrow its amount. */
  ghost predicate Placed(s: State, t: State, id: U64) {
    id !in s.orders && id in t.orders && t.orders == s.orders[id := t.orders[id]] && t.props == s.props
    && Lent(s.accounts, t.accounts, t.orders[id])
  }

  /** The order is marked and its amount leaves the borrower; the lender waits for the
      delivery block. */
  ghost predicate CalledBack(s: State, t: State, id: U64) {
    && id in s.orders && id in t.orders && t.orders == s.orders[id := t.orders[id]] && t.props == s.props
    && t.orders[id] == s.orders[id].(delivering := true, delivery := t.orders[id].delivery)
    && t.orders[id].delivery == (s.props.head + 1 + VEST_DELEGATION_DELIVERY_IN_BLOCKS) % TWO_64
    && Recalled(s.accounts, t.accounts, s.orders[id])
    && Moved(s, t, [Move(s.orders[id].to, -(s.orders[id].amount as int))])
  }

  /** An order is called back exactly when its own checks pass and the borrower's vote is not
      stale. */
  lemma UnDelegateVestIff(s: State, account: Name, id: U64, d: Debt)
    requires Reachable(s, d)
    ensures ApplyUnDelegateVest(s, account, id).Ok? <==>
            && account in s.accounts && AtLeast(s, HARD_FORK3) && s.accounts[account].reputation > MIN_REPUTATION
            && id in s.orders && s.orders[id].from == account
            && s.props.head >= s.orders[id].maturity && !s.orders[id].delivering
            && s.orders[id].to in s.accounts && !Stale(s, s.orders[id].to)
    ensures ApplyUnDelegateVest(s, account, id).Ok? ==> CalledBack(s, ApplyUnDelegateVest(s, account, id).value, id)
  {
    hide Sum, Money, IndexOk, StakesOk, LimitsOk, NamesOk, Recall, Recalled, Moved, Stale;
    if id in s.orders && !s.orders[id].delivering {
      var delivery := WrapAdd(WrapAdd(s.props.head, 1), VEST_DELEGATION_DELIVERY_IN_BLOCKS);
      RecallIff(s, id, s.orders[id].(delivering := true, delivery := delivery), d);
    }
    if ApplyUnDelegateVest(s, account, id).Ok? {
      var delivery := WrapAdd(WrapAdd(s.props.head, 1), VEST_DELEGATION_DELIVERY_IN_BLOCKS);
      var o := s.orders[id].(delivering := true, delivery := delivery);
      OrderCovered(s.accounts, s.orders, id);
      RecallEffect(s, id, o);
      RecalledSame(s.accounts, Recall(s, id, o).value.accounts, o, s.orders[id]);
    }
  }

  /** A recalled order falls due for delivery a week of blocks after it was called back, as long
      as no block number wraps around at 64 bits. */
  lemma DeliveryDueIff(s: State, t: State, id: U64, later: State)
    requires CalledBack(s, t, id) && id in later.orders && later.orders[id] == t.orders[id]
    ensures id in DeliveryDue(later) <==> (s.props.head + 1 + 604_800) % TWO_64 < (later.props.head + 1) % TWO_64
    ensures s.props.head + 1 + 604_800 < TWO_64 && later.props.head + 1 < TWO_64 ==>
              (id in DeliveryDue(later) <==> later.props.head - s.props.head > 604_800)
  {
    hide Moved, Recalled;
  }

  lemma RecalledSame(m: map<Name, Account>, m2: map<Name, Account>, o: Order, p: Order)
    requires Recalled(m, m2, o) && o.from == p.from && o.to == p.to && o.amount == p.amount
    ensures Recalled(m, m2, p)
  {
  }

  // ----- votes -----

  /** A vote can be withdrawn unless it is stale; a new one needs an active producer and a
      voter without a vote.  Either way the producer's weight moves by the voter's vest. */
  lemma BpVoteIff(s: State, voter: Name, producer: Name, cancel: bool, d: Debt)
    requires Reachable(s, d)
    ensures ApplyBpVote(s, voter, producer, cancel).Ok? <==>
            && voter in s.accounts && producer in s.accounts && producer in s.producers
            && (if cancel then voter in s.votes && s.votes[voter] == producer && !Stale(s, voter)
                else s.producers[producer].active && voter !in s.votes)
    ensures ApplyBpVote(s, voter, producer, cancel).Ok? ==>
              var t := ApplyBpVote(s, voter, producer, cancel).value;
              && t.votes == (if cancel then s.votes - {voter} else s.votes[voter := producer])
              && t.producers == s.producers[producer := t.producers[producer]]
              && t.producers[producer].voteVest - s.producers[producer].voteVest
                 == if cancel then 0 - s.accounts[voter].vest else s.accounts[voter].vest
  {
    hide Sum, Money, Records, TallyOk, CountsOk;
    if voter in s.accounts && producer in s.producers {
      VoterBounds(s, voter, producer, d);
    }
  }

  lemma VoterBounds(s: State, voter: Name, producer: Name, d: Debt)
    requires Reachable(s, d) && voter in s.accounts && producer in s.producers
    ensures voter in s.votes && s.votes[voter] == producer ==> s.producers[producer].voterCount > 0
    ensures s.accounts[voter].vest + s.producers[producer].voteVest < TWO_64
  {
    hide Sum, Money, Records;
    Room(s, voter, d);
    VotesBounded(s.votes, s.accounts, producer);
    if voter in s.votes && s.votes[voter] == producer {
      SumBounds(s.votes, VoteCount, producer);
    }
  }
}
