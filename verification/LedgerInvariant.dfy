/** What every reachable state of the ledger satisfies.

    Two steps of the chain leave something out of the books: a contract that pays vest to a
    voter skips the vote index, and the bonus loop that then meets this index stops half way.
    A `Debt` says what is missing, so that everything else can be stated exactly. */
module LedgerInvariant {
  import opened Amounts
  import opened Sums
  import opened LedgerState
  import opened Evaluators
  import opened Economist

  // ----- weights of the table sums -----

  function BalanceOf(u: (), n: Name, a: Account): int { a.balance }

  function VestOf(u: (), n: Name, a: Account): int { a.vest }

  function DeliveringOf(u: (), n: Name, a: Account): int { a.delivering }

  function ContractBalance(u: (), id: ContractId, b: U64): int { b }

  function StakeAmount(u: (), k: StakeKey, r: StakeRecord): int { r.amount }

  function StakedBy(n: Name, k: StakeKey, r: StakeRecord): int { if k.from == n then r.amount else 0 }

  function StakedTo(n: Name, k: StakeKey, r: StakeRecord): int { if k.to == n then r.amount else 0 }

  /** Orders that are not on their way back, by lender and by borrower. */
  function LentBy(n: Name, id: U64, o: Order): int {
    if o.from == n && !o.delivering then o.amount else 0
  }

  function BorrowedBy(n: Name, id: U64, o: Order): int {
    if o.to == n && !o.delivering then o.amount else 0
  }

  function DeliveringTo(n: Name, id: U64, o: Order): int {
    if o.from == n && o.delivering then o.amount else 0
  }

  datatype Ballot = Ballot(accounts: map<Name, Account>, producer: Name)

  function VoteWeight(b: Ballot, voter: Name, producer: Name): int {
    if producer == b.producer && voter in b.accounts then b.accounts[voter].vest else 0
  }

  function VoteCount(p: Name, voter: Name, producer: Name): int {
    if producer == p then 1 else 0
  }

  function DappAmount(u: (), post: U64, amount: U64): int { amount }

  // ----- what is missing -----

  /** Vest that was taken out of the books and handed to nobody; for each producer, the vest of
      its voters that its weight does not count; and, while a cashout is under way, what posts
      have earned for applications beyond what the pool has recorded. */
  datatype Debt = Debt(lost: int, drift: map<Name, nat>, noted: int)

  const NO_DEBT := Debt(0, map[], 0)

  function DriftOf(drift: map<Name, nat>, p: Name): nat {
    if p in drift then drift[p] else 0
  }

  // ----- conservation -----

  /** The coins in circulation are those on accounts and contracts. */
  ghost predicate CosOk(s: State) {
    s.props.totalCos == Sum(s.accounts, BalanceOf, ()) + Sum(s.contracts, ContractBalance, ())
  }

  /** What the four pools hold, and what they have paid. */
  function PoolsLeft(p: Props): int {
    p.posts.rewards + p.replies.rewards + p.dapps.rewards + p.votes.rewards
  }

  function PoolsClaimed(p: Props): int {
    p.posts.claimed + p.replies.claimed + p.dapps.claimed + p.votes.claimed
  }

  ghost function VestHeld(s: State): int {
    Sum(s.accounts, VestOf, ()) + Sum(s.accounts, DeliveringOf, ()) + s.props.stakeVest + PoolsLeft(s.props)
    + s.props.ticketsBpBonus
  }

  ghost predicate VestOk(s: State, lost: int) {
    s.props.totalVest == VestHeld(s) + lost
  }

  /** All that the pool of the applications paid is noted on posts. */
  ghost predicate DappsOk(s: State, noted: int) {
    Sum(s.dappRewards, DappAmount, ()) == s.props.dapps.claimed + noted
  }

  /** The budgets of the years before `y`. */
  ghost function ClosedBudget(y: nat): nat
    decreases y
  {
    if y <= 1 || y > TWO_32 then 0 else ClosedBudget(y - 1) + Budget(y - 1)
  }

  /** A year is open while it has budget left; when the last of it is minted the
      year counter moves on, and the budget is replaced at the next mint. */
  ghost predicate YearOpen(y: Year) {
    && y.budget == Budget(y.ith)
    && (if y.ith <= LAST_YEAR then y.minted < y.budget else y.minted == 0)
  }

  ghost predicate YearClosed(y: Year)
    requires y.ith >= 1
  {
    y.budget == Budget(y.ith - 1) && y.minted == y.budget
  }

  ghost predicate MintOk(y: Year) {
    y.ith >= 1 && (if y.budget == Budget(y.ith) then YearOpen(y) else YearClosed(y))
  }

  /** Everything minted since genesis. */
  ghost function Minted(y: Year): int {
    ClosedBudget(y.ith) + (if y.budget == Budget(y.ith) then y.minted else 0)
  }

  ghost predicate SupplyOk(s: State) {
    s.props.totalCos + s.props.totalVest + s.props.ticketsIncome == COS_INIT_SUPPLY + Minted(s.props.year)
  }

  /** The pools hold and have paid no more than was minted. */
  ghost predicate PoolsOk(p: Props) {
    PoolsLeft(p) + PoolsClaimed(p) <= Minted(p.year)
  }

  // ----- order books -----

  /** Each account's stake totals agree with the stake records, and so does the global total. */
  ghost predicate StakesOk(accounts: map<Name, Account>, stakes: map<StakeKey, StakeRecord>, stakeVest: int) {
    && stakeVest == Sum(stakes, StakeAmount, ())
    && (forall n :: n in accounts ==>
          && accounts[n].stakeFrom == Sum(stakes, StakedBy, n)
          && accounts[n].stakeFor == Sum(stakes, StakedTo, n))
    && (forall k :: k in stakes ==> k.from in accounts && k.to in accounts)
  }

  /** Each account's delegation totals agree with the order book. */
  ghost predicate OrdersOk(accounts: map<Name, Account>, orders: map<U64, Order>) {
    && (forall n :: n in accounts ==>
          && accounts[n].lent == Sum(orders, LentBy, n)
          && accounts[n].borrowed == Sum(orders, BorrowedBy, n)
          && accounts[n].delivering == Sum(orders, DeliveringTo, n))
    && (forall id :: id in orders ==>
          && orders[id].from in accounts && orders[id].to in accounts
          && orders[id].from != orders[id].to
          && (!orders[id].delivering ==> orders[id].delivery == MAX_INT64))
  }

  ghost predicate LimitsOk(accounts: map<Name, Account>) {
    forall n :: n in accounts ==>
      && accounts[n].borrowed <= accounts[n].vest
      && accounts[n].hasPowerdown <= accounts[n].toPowerdown
  }

  // ----- vote index -----

  ghost function VotesFor(votes: map<Name, Name>, accounts: map<Name, Account>, p: Name): int {
    Sum(votes, VoteWeight, Ballot(accounts, p))
  }

  /** Each producer's weight is the vest of those who vote for it, less its drift. */
  ghost predicate TallyOk(producers: map<Name, Producer>, votes: map<Name, Name>, accounts: map<Name, Account>,
                          drift: map<Name, nat>) {
    forall p :: p in producers ==> producers[p].voteVest + DriftOf(drift, p) == VotesFor(votes, accounts, p)
  }

  ghost predicate CountsOk(producers: map<Name, Producer>, votes: map<Name, Name>) {
    forall p :: p in producers ==> producers[p].voterCount == Sum(votes, VoteCount, p)
  }

  ghost predicate VotersOk(votes: map<Name, Name>, accounts: map<Name, Account>, producers: set<Name>) {
    && (forall v :: v in votes ==> v in accounts && votes[v] in producers)
    && (forall n :: n in accounts ==> accounts[n].bpVoteCount == if n in votes then 1 else 0)
  }

  ghost predicate IndexOk(s: State, drift: map<Name, nat>) {
    TallyOk(s.producers, s.votes, s.accounts, drift) && CountsOk(s.producers, s.votes)
    && VotersOk(s.votes, s.accounts, s.producers.Keys) && drift.Keys <= s.producers.Keys
  }

  ghost predicate NamesOk(accounts: set<Name>, producers: set<Name>, schedule: seq<Name>) {
    producers <= accounts && forall i :: 0 <= i < |schedule| ==> schedule[i] in producers
  }

  /** The sums. */
  ghost predicate Money(s: State, d: Debt) {
    CosOk(s) && VestOk(s, d.lost) && MintOk(s.props.year) && SupplyOk(s) && PoolsOk(s.props) && DappsOk(s, d.noted)
  }

  /** The books of stakes and delegations. */
  ghost predicate Records(s: State) {
    StakesOk(s.accounts, s.stakes, s.props.stakeVest) && OrdersOk(s.accounts, s.orders)
    && LimitsOk(s.accounts) && NamesOk(s.accounts.Keys, s.producers.Keys, s.schedule)
  }

  /** The books are right but for the debt. */
  ghost predicate Holds(s: State, d: Debt) {
    Money(s, d) && Records(s) && IndexOk(s, d.drift)
  }

  /** The books are right. */
  ghost predicate Inv(s: State) {
    Holds(s, NO_DEBT)
  }

  // ----- one row at a time -----

  lemma AccountSums(m: map<Name, Account>, n: Name, a: Account)
    requires n in m
    ensures Sum(m[n := a], BalanceOf, ()) == Sum(m, BalanceOf, ()) + a.balance - m[n].balance
    ensures Sum(m[n := a], VestOf, ()) == Sum(m, VestOf, ()) + a.vest - m[n].vest
    ensures Sum(m[n := a], DeliveringOf, ()) == Sum(m, DeliveringOf, ()) + a.delivering - m[n].delivering
  {
    hide Sum;
    SumPut(m, BalanceOf, (), n, a);
    SumPut(m, VestOf, (), n, a);
    SumPut(m, DeliveringOf, (), n, a);
  }

  /** A change of one account's vest moves the tally of the producer it votes for. */
  lemma VoteShift(votes: map<Name, Name>, m: map<Name, Account>, n: Name, a: Account, p: Name)
    requires n in m
    ensures VotesFor(votes, m[n := a], p)
            == VotesFor(votes, m, p) + (if n in votes && votes[n] == p then a.vest - m[n].vest else 0)
  {
    hide Sum;
    var f, g := Ballot(m, p), Ballot(m[n := a], p);
    if n in votes {
      SumRemove(votes, VoteWeight, f, n);
      SumRemove(votes, VoteWeight, g, n);
      SumAgree(votes - {n}, VoteWeight, f, g);
    } else {
      SumAgree(votes, VoteWeight, f, g);
    }
  }

  /** Writing a row that keeps its vest, or that does not vote, keeps every tally. */
  lemma TallyFrame(producers: map<Name, Producer>, votes: map<Name, Name>, m: map<Name, Account>, drift: map<Name, nat>,
                   n: Name, a: Account)
    requires TallyOk(producers, votes, m, drift) && n in m
    requires a.vest == m[n].vest || n !in votes
    ensures TallyOk(producers, votes, m[n := a], drift)
  {
    hide Sum;
    forall p | p in producers
      ensures producers[p].voteVest + DriftOf(drift, p) == VotesFor(votes, m[n := a], p)
    {
      VoteShift(votes, m, n, a, p);
    }
  }

  /** The vest of a voter and the weight of its producer move together, but for `more`, which
      joins the drift. */
  lemma TallyMoves(producers: map<Name, Producer>, votes: map<Name, Name>, m: map<Name, Account>, drift: map<Name, nat>,
                   n: Name, a: Account, q: Producer, more: nat)
    requires TallyOk(producers, votes, m, drift) && n in m && n in votes && votes[n] in producers
    requires q.voteVest + more == producers[votes[n]].voteVest - m[n].vest + a.vest
    ensures TallyOk(producers[votes[n] := q], votes, m[n := a], drift[votes[n] := DriftOf(drift, votes[n]) + more])
    ensures more == 0 ==> TallyOk(producers[votes[n] := q], votes, m[n := a], drift)
  {
    hide Sum;
    forall p | p in producers
      ensures producers[votes[n] := q][p].voteVest + DriftOf(drift, p) + (if p == votes[n] then more else 0)
              == VotesFor(votes, m[n := a], p)
    {
      VoteShift(votes, m, n, a, p);
    }
  }

  lemma CountsFrame(producers: map<Name, Producer>, votes: map<Name, Name>, p: Name, q: Producer)
    requires CountsOk(producers, votes) && p in producers && q.voterCount == producers[p].voterCount
    ensures CountsOk(producers[p := q], votes)
  {
    hide Sum;
  }

  /** `updateBpVoteValue` keeps the index across a vest change. */
  lemma PutVestKeepsIndex(s: State, n: Name, a: Account, drift: map<Name, nat>)
    requires IndexOk(s, drift) && n in s.accounts
    requires a.bpVoteCount == s.accounts[n].bpVoteCount
    requires PutVest(s, n, a).Ok?
    ensures var t := PutVest(s, n, a).value;
            IndexOk(t, drift) && t == s.(accounts := s.accounts[n := a], producers := t.producers)
            && t.producers.Keys == s.producers.Keys
  {
    hide Sum;
    if n in s.votes {
      var bp := s.votes[n];
      var q := PutVest(s, n, a).value.producers[bp];
      TallyMoves(s.producers, s.votes, s.accounts, drift, n, a, q, 0);
      CountsFrame(s.producers, s.votes, bp, q);
    } else {
      TallyFrame(s.producers, s.votes, s.accounts, drift, n, a);
    }
  }

  /** A row written without the vote update: what its vest gains joins the drift. */
  lemma SkippedIndex(s: State, n: Name, a: Account, drift: map<Name, nat>)
    requires IndexOk(s, drift) && n in s.accounts && n in s.votes
    requires a.bpVoteCount == s.accounts[n].bpVoteCount && a.vest >= s.accounts[n].vest
    ensures var bp := s.votes[n];
            IndexOk(PutAccount(s, n, a), drift[bp := DriftOf(drift, bp) + a.vest - s.accounts[n].vest])
  {
    hide Sum;
    var bp := s.votes[n];
    TallyMoves(s.producers, s.votes, s.accounts, drift, n, a, s.producers[bp], a.vest - s.accounts[n].vest);
    assert s.producers[bp := s.producers[bp]] == s.producers;
  }

  /** The votes for one producer never exceed the vest of all accounts. */
  lemma {:induction false} VotesBounded(votes: map<Name, Name>, m: map<Name, Account>, p: Name)
    requires forall v :: v in votes ==> v in m
    ensures 0 <= VotesFor(votes, m, p) <= Sum(m, VestOf, ())
    decreases |votes|
  {
    hide Sum;
    if votes == map[] {
      SumZero(votes, VoteWeight, Ballot(m, p));
      SumBounds(m, VestOf, ());
    } else {
      var v :| v in votes;
      var f, g := Ballot(m, p), Ballot(m - {v}, p);
      SumRemove(votes, VoteWeight, f, v);
      SumRemove(m, VestOf, (), v);
      SumAgree(votes - {v}, VoteWeight, f, g);
      VotesBounded(votes - {v}, m - {v}, p);
    }
  }

  lemma VoteIsCounted(votes: map<Name, Name>, m: map<Name, Account>, v: Name)
    requires v in votes && v in m
    ensures m[v].vest <= VotesFor(votes, m, votes[v])
  {
    hide Sum;
    SumBounds(votes, VoteWeight, Ballot(m, votes[v]));
  }

  /** The producer an account votes for is credited with less than the account's own vest. */
  predicate Stale(s: State, n: Name)
    requires n in s.accounts
  {
    n in s.votes && s.votes[n] in s.producers && s.producers[s.votes[n]].voteVest < s.accounts[n].vest
  }

  /** The vote update of a vest change panics exactly on a stale index. */
  lemma PutVestIff(s: State, n: Name, a: Account, drift: map<Name, nat>)
    requires IndexOk(s, drift) && n in s.accounts
    requires Sum(s.accounts, VestOf, ()) - s.accounts[n].vest + a.vest < TWO_64
    ensures PutVest(s, n, a).Ok? <==> !Stale(s, n)
  {
    hide Sum;
    if n in s.votes {
      VotesBounded(s.votes, s.accounts, s.votes[n]);
    }
  }

  /** Without drift no index is stale. */
  lemma NeverStale(s: State, n: Name, drift: map<Name, nat>)
    requires IndexOk(s, drift) && n in s.accounts && (n in s.votes ==> DriftOf(drift, s.votes[n]) == 0)
    ensures !Stale(s, n)
  {
    hide Sum;
    if n in s.votes {
      VoteIsCounted(s.votes, s.accounts, n);
    }
  }
}
