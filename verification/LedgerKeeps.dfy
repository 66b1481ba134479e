/** Every operation keeps the ledger's invariant. */
module LedgerKeeps {
  import opened Amounts
  import opened Sums
  import opened LedgerState
  import opened Evaluators
  import opened Economist
  import opened LedgerInvariant

  // ----- steps shared by the operations -----

  /** Row `b` keeps the stakes, delegations and limits of row `a`. */
  ghost predicate SameBooks(a: Account, b: Account) {
    && a.borrowed == b.borrowed && a.lent == b.lent && a.delivering == b.delivering
    && a.stakeFor == b.stakeFor && a.stakeFrom == b.stakeFrom
    && (a.vest <= b.vest || b.borrowed <= b.vest)
    && ((a.hasPowerdown == b.hasPowerdown && a.toPowerdown == b.toPowerdown) || b.hasPowerdown <= b.toPowerdown)
  }

  lemma StakesRow(m: map<Name, Account>, stakes: map<StakeKey, StakeRecord>, stakeVest: int, n: Name, a: Account)
    requires StakesOk(m, stakes, stakeVest) && n in m
    requires a.stakeFor == m[n].stakeFor && a.stakeFrom == m[n].stakeFrom
    ensures StakesOk(m[n := a], stakes, stakeVest)
  {
    hide Sum;
  }

  lemma OrdersRow(m: map<Name, Account>, orders: map<U64, Order>, n: Name, a: Account)
    requires OrdersOk(m, orders) && n in m
    requires a.lent == m[n].lent && a.borrowed == m[n].borrowed && a.delivering == m[n].delivering
    ensures OrdersOk(m[n := a], orders)
  {
    hide Sum;
  }

  /** Writing a row that keeps its stakes and delegations keeps the books. */
  lemma RecordsRow(s: State, n: Name, a: Account)
    requires Records(s) && n in s.accounts && SameBooks(s.accounts[n], a)
    ensures Records(PutAccount(s, n, a))
  {
    assert LimitsOk(s.accounts[n := a]);
    hide Sum, StakesOk, OrdersOk, LimitsOk;
    StakesRow(s.accounts, s.stakes, s.props.stakeVest, n, a);
    OrdersRow(s.accounts, s.orders, n, a);
    assert s.accounts[n := a].Keys == s.accounts.Keys;
  }

  /** Writing a row that keeps its vest and its vote count keeps the index. */
  lemma IndexRow(s: State, n: Name, a: Account, drift: map<Name, nat>)
    requires IndexOk(s, drift) && n in s.accounts
    requires a.vest == s.accounts[n].vest && a.bpVoteCount == s.accounts[n].bpVoteCount
    ensures IndexOk(PutAccount(s, n, a), drift)
  {
    hide Sum;
    TallyFrame(s.producers, s.votes, s.accounts, drift, n, a);
  }

  lemma RowKeeps(s: State, n: Name, a: Account, drift: map<Name, nat>)
    requires Records(s) && IndexOk(s, drift) && n in s.accounts && SameBooks(s.accounts[n], a)
    requires a.vest == s.accounts[n].vest && a.bpVoteCount == s.accounts[n].bpVoteCount
    ensures Records(PutAccount(s, n, a)) && IndexOk(PutAccount(s, n, a), drift)
  {
    hide Sum, Records, IndexOk;
    RecordsRow(s, n, a);
    IndexRow(s, n, a, drift);
  }

  lemma PutVestKeeps(s: State, n: Name, a: Account, drift: map<Name, nat>)
    requires Records(s) && IndexOk(s, drift) && n in s.accounts
    requires SameBooks(s.accounts[n], a) && a.bpVoteCount == s.accounts[n].bpVoteCount
    requires PutVest(s, n, a).Ok?
    ensures var t := PutVest(s, n, a).value;
            t == s.(accounts := s.accounts[n := a], producers := t.producers)
            && t.producers.Keys == s.producers.Keys
            && Records(t) && IndexOk(t, drift)
  {
    hide Sum, StakesOk, OrdersOk, LimitsOk, NamesOk, IndexOk, UpdateBpVoteValue;
    PutVestKeepsIndex(s, n, a, drift);
    RecordsRow(s, n, a);
  }

  lemma TransferKeeps(s: State, from: Name, to: Name, amount: U64, d: Debt)
    requires Holds(s, d) && ApplyTransfer(s, from, to, amount).Ok?
    ensures Holds(ApplyTransfer(s, from, to, amount).value, d)
  {
    hide Sum, Records, IndexOk;
    var s1 := SubBalance(s, from, amount).value;
    var s2 := AddBalance(s1, to, amount).value;
    AccountSums(s.accounts, from, s1.accounts[from]);
    AccountSums(s1.accounts, to, s2.accounts[to]);
    RowKeeps(s, from, s1.accounts[from], d.drift);
    RowKeeps(s1, to, s2.accounts[to], d.drift);
  }

  lemma TransferToVestKeeps(s: State, from: Name, to: Name, amount: U64, d: Debt)
    requires Holds(s, d) && ApplyTransferToVest(s, from, to, amount).Ok?
    ensures Holds(ApplyTransferToVest(s, from, to, amount).value, d)
  {
    hide Sum, StakesOk, OrdersOk, LimitsOk, NamesOk, TallyOk, CountsOk, VotersOk, PutVest;
    var s1 := SubBalance(s, from, amount).value;
    var a := s1.accounts[to].(vest := Add(s1.accounts[to].vest, amount).value);
    AccountSums(s.accounts, from, s1.accounts[from]);
    AccountSums(s1.accounts, to, a);
    RowKeeps(s, from, s1.accounts[from], d.drift);
    PutVestKeeps(s1, to, a, d.drift);
  }

  // ----- accounts and producers -----

  lemma NewAccountSums(m: map<Name, Account>, n: Name, a: Account)
    requires n !in m
    ensures Sum(m[n := a], BalanceOf, ()) == Sum(m, BalanceOf, ()) + a.balance
    ensures Sum(m[n := a], VestOf, ()) == Sum(m, VestOf, ()) + a.vest
    ensures Sum(m[n := a], DeliveringOf, ()) == Sum(m, DeliveringOf, ()) + a.delivering
  {
    hide Sum;
    SumPut(m, BalanceOf, (), n, a);
    SumPut(m, VestOf, (), n, a);
    SumPut(m, DeliveringOf, (), n, a);
  }

  /** Nothing refers to an account before it exists. */
  lemma NewAccountStakes(m: map<Name, Account>, stakes: map<StakeKey, StakeRecord>, stakeVest: int, n: Name, a: Account)
    requires StakesOk(m, stakes, stakeVest) && n !in m && a.stakeFor == a.stakeFrom == 0
    ensures StakesOk(m[n := a], stakes, stakeVest)
  {
    hide Sum;
    SumZero(stakes, StakedBy, n);
    SumZero(stakes, StakedTo, n);
  }

  lemma NewAccountOrders(m: map<Name, Account>, orders: map<U64, Order>, n: Name, a: Account)
    requires OrdersOk(m, orders) && n !in m && a.lent == a.borrowed == a.delivering == 0
    ensures OrdersOk(m[n := a], orders)
  {
    hide Sum;
    SumZero(orders, LentBy, n);
    SumZero(orders, BorrowedBy, n);
    SumZero(orders, DeliveringTo, n);
  }

  lemma NewAccountRecords(s: State, n: Name, vest: U64, key: PubKey)
    requires Records(s) && n !in s.accounts
    ensures Records(PutAccount(s, n, NewAccount(vest, key)))
  {
    var a := NewAccount(vest, key);
    assert LimitsOk(s.accounts[n := a]);
    hide StakesOk, OrdersOk, LimitsOk;
    NewAccountStakes(s.accounts, s.stakes, s.props.stakeVest, n, a);
    NewAccountOrders(s.accounts, s.orders, n, a);
  }

  lemma NewAccountIndex(s: State, n: Name, vest: U64, key: PubKey, drift: map<Name, nat>)
    requires IndexOk(s, drift) && n !in s.accounts
    ensures IndexOk(PutAccount(s, n, NewAccount(vest, key)), drift)
  {
    hide Sum;
    var m := s.accounts[n := NewAccount(vest, key)];
    forall p | p in s.producers
      ensures s.producers[p].voteVest + DriftOf(drift, p) == VotesFor(s.votes, m, p)
    {
      SumAgree(s.votes, VoteWeight, Ballot(s.accounts, p), Ballot(m, p));
    }
  }

  lemma AccountCreateKeeps(s: State, creator: Name, fee: U64, newAccount: Name, key: PubKey, d: Debt)
    requires Holds(s, d) && ApplyAccountCreate(s, creator, fee, newAccount, key).Ok?
    ensures Holds(ApplyAccountCreate(s, creator, fee, newAccount, key).value, d)
  {
    hide Sum, StakesOk, OrdersOk, LimitsOk, NamesOk, TallyOk, CountsOk, VotersOk, KeyInUse;
    var s1 := SubBalance(s, creator, fee).value;
    AccountSums(s.accounts, creator, s1.accounts[creator]);
    NewAccountSums(s1.accounts, newAccount, NewAccount(fee, key));
    RowKeeps(s, creator, s1.accounts[creator], d.drift);
    NewAccountRecords(s1, newAccount, fee, key);
    NewAccountIndex(s1, newAccount, fee, key, d.drift);
  }

  lemma ConvertVestKeeps(s: State, from: Name, amount: U64, d: Debt)
    requires Holds(s, d) && ApplyConvertVest(s, from, amount).Ok?
    ensures Holds(ApplyConvertVest(s, from, amount).value, d)
  {
    hide Sum, StakesOk, OrdersOk, LimitsOk, NamesOk, IndexOk;
    var t := ApplyConvertVest(s, from, amount).value;
    AccountSums(s.accounts, from, t.accounts[from]);
    RowKeeps(s, from, t.accounts[from], d.drift);
  }

  /** Nobody votes for a producer before it exists. */
  lemma NewProducer(s: State, owner: Name, drift: map<Name, nat>)
    requires IndexOk(s, drift) && owner !in s.producers
    ensures IndexOk(s.(producers := s.producers[owner := Producer(true, 0, 0, 0)]), drift)
  {
    hide Sum;
    SumZero(s.votes, VoteWeight, Ballot(s.accounts, owner));
    SumZero(s.votes, VoteCount, owner);
  }

  lemma BpRegisterKeeps(s: State, owner: Name, propsInRange: bool, d: Debt)
    requires Holds(s, d) && ApplyBpRegister(s, owner, propsInRange).Ok?
    ensures Holds(ApplyBpRegister(s, owner, propsInRange).value, d)
  {
    hide Sum, StakesOk, OrdersOk, LimitsOk, TallyOk, CountsOk, VotersOk, Minted, MintOk;
    NewProducer(s, owner, d.drift);
  }

  /** Switching a producer on or off. */
  lemma ActiveKeeps(s: State, p: Name, active: bool, d: Debt)
    requires Holds(s, d) && p in s.producers
    ensures Holds(s.(producers := s.producers[p := s.producers[p].(active := active)]), d)
  {
    hide Sum, StakesOk, OrdersOk, LimitsOk, TallyOk, CountsOk, VotersOk, Minted, MintOk;
    var producers := s.producers[p := s.producers[p].(active := active)];
    assert producers.Keys == s.producers.Keys;
    ActiveTally(s.producers, s.votes, s.accounts, d.drift, p, active);
  }

  lemma ActiveTally(producers: map<Name, Producer>, votes: map<Name, Name>, m: map<Name, Account>, drift: map<Name, nat>,
                    p: Name, active: bool)
    requires TallyOk(producers, votes, m, drift) && CountsOk(producers, votes) && p in producers
    ensures TallyOk(producers[p := producers[p].(active := active)], votes, m, drift)
    ensures CountsOk(producers[p := producers[p].(active := active)], votes)
  {
    hide Sum;
  }

  lemma BpEnableKeeps(s: State, owner: Name, cancel: bool, d: Debt)
    requires Holds(s, d) && ApplyBpEnable(s, owner, cancel).Ok?
    ensures Holds(ApplyBpEnable(s, owner, cancel).value, d)
  {
    hide Inv;
    ActiveKeeps(s, owner, !cancel, d);
  }

  lemma SetReputationKeeps(s: State, name: Name, value: U32, d: Debt)
    requires Holds(s, d) && ApplySetReputation(s, name, value).Ok?
    ensures Holds(ApplySetReputation(s, name, value).value, d)
  {
    hide Sum, StakesOk, OrdersOk, LimitsOk, NamesOk, IndexOk;
    var a := s.accounts[name].(reputation := value);
    AccountSums(s.accounts, name, a);
    RowKeeps(s, name, a, d.drift);
    if name in s.producers {
      ActiveKeeps(PutAccount(s, name, a), name, false, d);
    }
  }

  // ----- votes -----

  /** A new vote adds the voter to one tally and one count. */
  lemma VoteAdded(s: State, voter: Name, producer: Name, p: Name)
    requires voter in s.accounts && voter !in s.votes
    ensures VotesFor(s.votes[voter := producer], s.accounts, p)
            == VotesFor(s.votes, s.accounts, p) + (if p == producer then s.accounts[voter].vest else 0)
    ensures Sum(s.votes[voter := producer], VoteCount, p)
            == Sum(s.votes, VoteCount, p) + (if p == producer then 1 else 0)
  {
    hide Sum;
    SumPut(s.votes, VoteWeight, Ballot(s.accounts, p), voter, producer);
    SumPut(s.votes, VoteCount, p, voter, producer);
  }

  lemma VoteRemoved(s: State, voter: Name, p: Name)
    requires voter in s.accounts && voter in s.votes
    ensures VotesFor(s.votes - {voter}, s.accounts, p)
            == VotesFor(s.votes, s.accounts, p) - (if p == s.votes[voter] then s.accounts[voter].vest else 0)
    ensures Sum(s.votes - {voter}, VoteCount, p)
            == Sum(s.votes, VoteCount, p) - (if p == s.votes[voter] then 1 else 0)
  {
    hide Sum;
    SumRemove(s.votes, VoteWeight, Ballot(s.accounts, p), voter);
    SumRemove(s.votes, VoteCount, p, voter);
  }

  lemma BpVoteTally(s: State, voter: Name, producer: Name, cancel: bool, drift: map<Name, nat>)
    requires IndexOk(s, drift) && ApplyBpVote(s, voter, producer, cancel).Ok?
    ensures var t := ApplyBpVote(s, voter, producer, cancel).value;
            TallyOk(t.producers, t.votes, s.accounts, drift) && CountsOk(t.producers, t.votes)
  {
    hide Sum, VotesFor, VotersOk;
    var t := ApplyBpVote(s, voter, producer, cancel).value;
    forall p | p in t.producers
      ensures p in s.producers
      ensures t.producers[p].voteVest + DriftOf(drift, p) == VotesFor(t.votes, s.accounts, p)
      ensures t.producers[p].voterCount == Sum(t.votes, VoteCount, p)
    {
      if cancel {
        VoteRemoved(s, voter, p);
      } else {
        VoteAdded(s, voter, producer, p);
      }
    }
  }

  lemma BpVoteVoters(s: State, voter: Name, producer: Name, cancel: bool)
    requires VotersOk(s.votes, s.accounts, s.producers.Keys)
    requires ApplyBpVote(s, voter, producer, cancel).Ok?
    ensures var t := ApplyBpVote(s, voter, producer, cancel).value;
            VotersOk(t.votes, t.accounts, t.producers.Keys) && t.producers.Keys == s.producers.Keys
  {
  }

  lemma BpVoteKeeps(s: State, voter: Name, producer: Name, cancel: bool, d: Debt)
    requires Holds(s, d) && ApplyBpVote(s, voter, producer, cancel).Ok?
    ensures Holds(ApplyBpVote(s, voter, producer, cancel).value, d)
  {
    hide Sum, StakesOk, OrdersOk, LimitsOk, NamesOk, TallyOk, CountsOk, VotersOk;
    var t := ApplyBpVote(s, voter, producer, cancel).value;
    var a := t.accounts[voter];
    BpVoteTally(s, voter, producer, cancel, d.drift);
    BpVoteVoters(s, voter, producer, cancel);
    AccountSums(s.accounts, voter, a);
    RecordsRow(s, voter, a);
    TallyFrame(t.producers, t.votes, s.accounts, d.drift, voter, a);
  }

  // ----- stakes -----

  /** `d` moves onto (or, when negative, off) the stake of `from` on `to`. */
  lemma StakeMoves(m: map<Name, Account>, m2: map<Name, Account>, stakes: map<StakeKey, StakeRecord>,
                   stakeVest: int, key: StakeKey, r: StakeRecord, d: int)
    requires StakesOk(m, stakes, stakeVest) && m2.Keys == m.Keys && key.from in m && key.to in m
    requires r.amount == (if key in stakes then stakes[key].amount else 0) + d
    requires forall n :: n in m ==> m2[n].stakeFrom == m[n].stakeFrom + if n == key.from then d else 0
    requires forall n :: n in m ==> m2[n].stakeFor == m[n].stakeFor + if n == key.to then d else 0
    ensures StakesOk(m2, stakes[key := r], stakeVest + d)
  {
    hide Sum;
    SumPut(stakes, StakeAmount, (), key, r);
    forall n | n in m
      ensures m2[n].stakeFrom == Sum(stakes[key := r], StakedBy, n)
      ensures m2[n].stakeFor == Sum(stakes[key := r], StakedTo, n)
    {
      SumPut(stakes, StakedBy, n, key, r);
      SumPut(stakes, StakedTo, n, key, r);
    }
  }

  /** A row that differs in stakes alone, stakes aside. */
  lemma StakeRowKeeps(s: State, n: Name, a: Account, drift: map<Name, nat>)
    requires OrdersOk(s.accounts, s.orders) && LimitsOk(s.accounts) && IndexOk(s, drift)
    requires n in s.accounts && SameBooks(s.accounts[n].(stakeFor := a.stakeFor, stakeFrom := a.stakeFrom), a)
    requires a.vest == s.accounts[n].vest && a.bpVoteCount == s.accounts[n].bpVoteCount
    ensures OrdersOk(s.accounts[n := a], s.orders) && LimitsOk(s.accounts[n := a]) && IndexOk(PutAccount(s, n, a), drift)
  {
    assert LimitsOk(s.accounts[n := a]);
    hide Sum, OrdersOk, LimitsOk, IndexOk;
    OrdersRow(s.accounts, s.orders, n, a);
    IndexRow(s, n, a, drift);
  }

  /** The two rows a stake of `d` writes. */
  function StakeRows(m: map<Name, Account>, key: StakeKey, a: Account, b: Account): map<Name, Account> {
    m[key.from := a][key.to := b]
  }

  ghost predicate StakeStep(m: map<Name, Account>, key: StakeKey, d: int, a: Account, b: Account) {
    && key.from in m && key.to in m
    && 0 <= m[key.from].balance - d < TWO_64 && 0 <= m[key.from].stakeFrom + d < TWO_64
    && a == m[key.from].(balance := m[key.from].balance - d, stakeFrom := m[key.from].stakeFrom + d)
    && (var c := m[key.from := a][key.to];
        0 <= c.stakeFor + d < TWO_64 && b == c.(stakeFor := c.stakeFor + d))
  }

  /** Moving `d` between an account's balance and its stake keeps everything but the coin total. */
  lemma StakeStepKeeps(s: State, t: State, key: StakeKey, r: StakeRecord, d: int, a: Account, b: Account, drift: map<Name, nat>)
    requires Records(s) && IndexOk(s, drift) && StakeStep(s.accounts, key, d, a, b)
    requires r.amount == (if key in s.stakes then s.stakes[key].amount else 0) + d
    requires t == s.(accounts := StakeRows(s.accounts, key, a, b), stakes := s.stakes[key := r], props := t.props)
    requires t.props.stakeVest == s.props.stakeVest + d
    ensures Records(t) && IndexOk(t, drift)
    ensures Sum(t.accounts, BalanceOf, ()) == Sum(s.accounts, BalanceOf, ()) - d
    ensures Sum(t.accounts, VestOf, ()) == Sum(s.accounts, VestOf, ())
    ensures Sum(t.accounts, DeliveringOf, ()) == Sum(s.accounts, DeliveringOf, ())
  {
    hide Sum, StakesOk, OrdersOk, LimitsOk, NamesOk, TallyOk, CountsOk, VotersOk;
    var s1 := PutAccount(s, key.from, a);
    AccountSums(s.accounts, key.from, a);
    AccountSums(s1.accounts, key.to, b);
    StakeRowKeeps(s, key.from, a, drift);
    StakeRowKeeps(s1, key.to, b, drift);
    StakeMoves(s.accounts, t.accounts, s.stakes, s.props.stakeVest, key, r, d);
    assert t.accounts.Keys == s.accounts.Keys;
  }

  /** The state after a stake (`d` positive) or an unstake (`d` negative). */
  ghost predicate StakeResult(s: State, t: State, key: StakeKey, r: StakeRecord, d: int, a: Account, b: Account) {
    && t == s.(accounts := StakeRows(s.accounts, key, a, b), stakes := s.stakes[key := r], props := t.props)
    && t.props == s.props.(totalCos := t.props.totalCos, totalVest := t.props.totalVest,
                           stakeVest := t.props.stakeVest)
    && t.props.totalCos == s.props.totalCos - d && t.props.totalVest == s.props.totalVest + d
    && t.props.stakeVest == s.props.stakeVest + d
    && r.amount == (if key in s.stakes then s.stakes[key].amount else 0) + d
  }

  lemma StakeShape(s: State, from: Name, to: Name, amount: U64) returns (r: StakeRecord, a: Account, b: Account)
    requires ApplyStake(s, from, to, amount).Ok?
    ensures StakeStep(s.accounts, StakeKey(from, to), amount, a, b)
    ensures StakeResult(s, ApplyStake(s, from, to, amount).value, StakeKey(from, to), r, amount, a, b)
  {
    var t := ApplyStake(s, from, to, amount).value;
    a := s.accounts[from].(balance := s.accounts[from].balance - amount,
                           stakeFrom := s.accounts[from].stakeFrom + amount);
    var c := s.accounts[from := a][to];
    b := c.(stakeFor := c.stakeFor + amount);
    r := t.stakes[StakeKey(from, to)];
    assert t.accounts == StakeRows(s.accounts, StakeKey(from, to), a, b);
  }

  lemma UnStakeShape(s: State, creditor: Name, debtor: Name, amount: U64)
    returns (r: StakeRecord, a: Account, b: Account)
    requires ApplyUnStake(s, creditor, debtor, amount).Ok?
    ensures StakeStep(s.accounts, StakeKey(creditor, debtor), 0 - amount, a, b)
    ensures StakeResult(s, ApplyUnStake(s, creditor, debtor, amount).value, StakeKey(creditor, debtor), r,
                        0 - amount, a, b)
  {
    var t := ApplyUnStake(s, creditor, debtor, amount).value;
    a := s.accounts[creditor].(balance := s.accounts[creditor].balance + amount,
                               stakeFrom := s.accounts[creditor].stakeFrom - amount);
    var c := s.accounts[creditor := a][debtor];
    b := c.(stakeFor := c.stakeFor - amount);
    r := t.stakes[StakeKey(creditor, debtor)];
    assert t.accounts == StakeRows(s.accounts, StakeKey(creditor, debtor), a, b);
  }

  lemma StakeKeeps(s: State, from: Name, to: Name, amount: U64, d: Debt)
    requires Holds(s, d) && ApplyStake(s, from, to, amount).Ok?
    ensures Holds(ApplyStake(s, from, to, amount).value, d)
  {
    hide Sum, Records, IndexOk, ApplyStake, StakeStep;
    var r, a, b := StakeShape(s, from, to, amount);
    StakeStepKeeps(s, ApplyStake(s, from, to, amount).value, StakeKey(from, to), r, amount, a, b, d.drift);
  }

  lemma UnStakeKeeps(s: State, creditor: Name, debtor: Name, amount: U64, d: Debt)
    requires Holds(s, d) && ApplyUnStake(s, creditor, debtor, amount).Ok?
    ensures Holds(ApplyUnStake(s, creditor, debtor, amount).value, d)
  {
    hide Sum, Records, IndexOk, ApplyUnStake, StakeStep;
    var r, a, b := UnStakeShape(s, creditor, debtor, amount);
    StakeStepKeeps(s, ApplyUnStake(s, creditor, debtor, amount).value, StakeKey(creditor, debtor), r,
                   0 - amount, a, b, d.drift);
  }

  // ----- tickets -----

  lemma AcquireTicketKeeps(s: State, account: Name, count: U64, recordFree: bool, d: Debt)
    requires Holds(s, d) && ApplyAcquireTicket(s, account, count, recordFree).Ok?
    ensures Holds(ApplyAcquireTicket(s, account, count, recordFree).value, d)
  {
    hide Sum, StakesOk, OrdersOk, LimitsOk, NamesOk, TallyOk, CountsOk, VotersOk, Mul;
    var t := ApplyAcquireTicket(s, account, count, recordFree).value;
    assert t.accounts == s.accounts[account := t.accounts[account]];
    AccountSums(s.accounts, account, t.accounts[account]);
    RowKeeps(s, account, t.accounts[account], d.drift);
  }

  lemma VoteByTicketKeeps(s: State, account: Name, count: U64, freeTicket: bool, postVotable: bool, d: Debt)
    requires Holds(s, d) && ApplyVoteByTicket(s, account, count, freeTicket, postVotable).Ok?
    ensures Holds(ApplyVoteByTicket(s, account, count, freeTicket, postVotable).value, d)
  {
    hide Sum, StakesOk, OrdersOk, LimitsOk, NamesOk, TallyOk, CountsOk, VotersOk, Mul;
    var t := ApplyVoteByTicket(s, account, count, freeTicket, postVotable).value;
    AccountSums(s.accounts, account, t.accounts[account]);
    RowKeeps(s, account, t.accounts[account], d.drift);
  }
}
