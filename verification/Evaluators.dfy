/** The operations of a transaction: what each evaluator's `Apply` does to the tables. */
module Evaluators {
  import opened Amounts
  import opened LedgerState

  datatype Op =
    | AccountCreate(creator: Name, fee: U64, newAccount: Name, pubKey: PubKey)
    | Transfer(from: Name, to: Name, amount: U64)
    | TransferToVest(from: Name, to: Name, amount: U64)
    | ConvertVest(from: Name, amount: U64)
    | BpRegister(owner: Name, propsInRange: bool)
    | BpEnable(owner: Name, cancel: bool)
    | BpVote(voter: Name, producer: Name, cancel: bool)
    | Stake(from: Name, to: Name, amount: U64)
    | UnStake(creditor: Name, debtor: Name, amount: U64)
    | AcquireTicket(account: Name, count: U64, recordFree: bool)
    | VoteByTicket(account: Name, count: U64, freeTicket: bool, postVotable: bool)
    | DelegateVest(from: Name, to: Name, amount: U64, expiration: U64)
    | UnDelegateVest(account: Name, orderId: U64)
    | ContractDeploy(id: ContractId, codeAccepted: bool)
    | ContractToUser(contract: ContractId, to: Name, amount: U64)
    | ContractToUserVest(contract: ContractId, to: Name, amount: U64)
    | UserToContract(from: Name, contract: ContractId, amount: U64, signed: bool)
    | ContractToContract(fromContract: ContractId, toContract: ContractId, amount: U64)
    | SetReputation(name: Name, value: U32)

  function ApplyOp(s: State, op: Op): Result<State> {
    match op
    case AccountCreate(c, f, n, k) => ApplyAccountCreate(s, c, f, n, k)
    case Transfer(f, t, a) => ApplyTransfer(s, f, t, a)
    case TransferToVest(f, t, a) => ApplyTransferToVest(s, f, t, a)
    case ConvertVest(f, a) => ApplyConvertVest(s, f, a)
    case BpRegister(o, r) => ApplyBpRegister(s, o, r)
    case BpEnable(o, c) => ApplyBpEnable(s, o, c)
    case BpVote(v, p, c) => ApplyBpVote(s, v, p, c)
    case Stake(f, t, a) => ApplyStake(s, f, t, a)
    case UnStake(c, d, a) => ApplyUnStake(s, c, d, a)
    case AcquireTicket(n, c, r) => ApplyAcquireTicket(s, n, c, r)
    case VoteByTicket(n, c, f, p) => ApplyVoteByTicket(s, n, c, f, p)
    case DelegateVest(f, t, a, e) => ApplyDelegateVest(s, f, t, a, e)
    case UnDelegateVest(n, o) => ApplyUnDelegateVest(s, n, o)
    case ContractDeploy(id, ok) => ApplyContractDeploy(s, id, ok)
    case ContractToUser(c, t, a) => ApplyContractToUser(s, c, t, a)
    case ContractToUserVest(c, t, a) => ApplyContractToUserVest(s, c, t, a)
    case UserToContract(f, c, a, ok) => ApplyUserToContract(s, f, c, a, ok)
    case ContractToContract(f, t, a) => ApplyContractToContract(s, f, t, a)
    case SetReputation(n, v) => ApplySetReputation(s, n, v)
  }

  // ----- rows -----

  function PutAccount(s: State, n: Name, a: Account): State {
    s.(accounts := s.accounts[n := a])
  }

  /** `accountWrap.Modify(Balance.Sub)`: panics on a missing row too. */
  function SubBalance(s: State, n: Name, amount: U64): Result<State> {
    var a :- Find(s.accounts, n);
    var b :- Sub(a.balance, amount);
    Ok(PutAccount(s, n, a.(balance := b)))
  }

  function AddBalance(s: State, n: Name, amount: U64): Result<State> {
    var a :- Find(s.accounts, n);
    var b :- Add(a.balance, amount);
    Ok(PutAccount(s, n, a.(balance := b)))
  }

  /** `updateBpVoteValue`. */
  function UpdateBpVoteValue(s: State, voter: Name, oldVest: U64, newVest: U64): Result<State> {
    if voter !in s.votes then Ok(s)
    else
      var bp := s.votes[voter];
      if bp !in s.producers then Ok(s)
      else
        var rest :- Sub(s.producers[bp].voteVest, oldVest);
        var sum :- Add(rest, newVest);
        Ok(s.(producers := s.producers[bp := s.producers[bp].(voteVest := sum)]))
  }

  /** Writes an account whose vest may have changed, then repairs the vote index. */
  function PutVest(s: State, n: Name, a: Account): Result<State>
    requires n in s.accounts
  {
    UpdateBpVoteValue(PutAccount(s, n, a), n, s.accounts[n].vest, a.vest)
  }

  /** `TransferToVest` of the global properties. */
  function CosToVest(s: State, amount: U64): Result<State> {
    var c :- Sub(s.props.totalCos, amount);
    var v :- Add(s.props.totalVest, amount);
    Ok(s.(props := s.props.(totalCos := c, totalVest := v)))
  }

  /** `TransferFromVest` of the global properties. */
  function VestToCos(s: State, amount: U64): Result<State> {
    var c :- Add(s.props.totalCos, amount);
    var v :- Sub(s.props.totalVest, amount);
    Ok(s.(props := s.props.(totalCos := c, totalVest := v)))
  }

  // ----- evaluators -----

  predicate KeyInUse(s: State, key: PubKey) {
    exists n :: n in s.accounts && s.accounts[n].pubKey == key
  }

  function NewAccount(vest: U64, key: PubKey): Account {
    Account(0, vest, 0, 0, 0, 0, 0, 0, 0, 0, MAX_UINT64, DEFAULT_REPUTATION, 0, 0, key)
  }

  function ApplyAccountCreate(s: State, creator: Name, fee: U64, newAccount: Name, key: PubKey): Result<State> {
    var a :- Find(s.accounts, creator);
    :- Check(fee >= s.props.accountCreateFee);
    :- Check(a.balance >= fee);
    var s1 :- SubBalance(s, creator, fee);
    :- Check(newAccount !in s1.accounts && !KeyInUse(s1, key));
    var s2 := PutAccount(s1, newAccount, NewAccount(fee, key));
    CosToVest(s2, fee)
  }

  function ApplyTransfer(s: State, from: Name, to: Name, amount: U64): Result<State> {
    var _ :- Find(s.accounts, to);
    :- Check(from != to);
    :- Check(!IsBadGuy(s, from));
    var s1 :- SubBalance(s, from, amount);
    AddBalance(s1, to, amount)
  }

  function ApplyTransferToVest(s: State, from: Name, to: Name, amount: U64): Result<State> {
    var _ :- Find(s.accounts, to);
    :- Check(!IsBadGuy(s, from));
    var s1 :- SubBalance(s, from, amount);
    var v :- Add(s1.accounts[to].vest, amount);
    var s2 :- PutVest(s1, to, s1.accounts[to].(vest := v));
    CosToVest(s2, amount)
  }

  function ApplyConvertVest(s: State, from: Name, amount: U64): Result<State> {
    var a :- Find(s.accounts, from);
    var own :- Sub(a.vest, a.borrowed);
    var free :- Sub(own, s.props.accountCreateFee);
    :- Check(free >= amount);
    var weeks := if AtLeast(s, HARD_FORK2) then HARD_FORK2_CONVERT_WEEKS else CONVERT_WEEKS;
    Ok(PutAccount(s, from, a.(nextPowerdown := WrapAdd(s.props.head, POWER_DOWN_BLOCK_INTERVAL),
                              eachRate := amount / (weeks - 1),
                              hasPowerdown := 0,
                              toPowerdown := amount)))
  }

  function ApplyBpRegister(s: State, owner: Name, propsInRange: bool): Result<State> {
    var a :- Find(s.accounts, owner);
    :- Check(a.vest >= MIN_BP_REGISTER_VEST);
    :- Check(owner !in s.producers);
    :- Check(a.reputation > MIN_REPUTATION);
    :- Check(propsInRange);
    Ok(s.(producers := s.producers[owner := Producer(true, 0, 0, 0)]))
  }

  function ApplyBpEnable(s: State, owner: Name, cancel: bool): Result<State> {
    var p :- Find(s.producers, owner);
    :- Check(p.active == cancel);
    Ok(s.(producers := s.producers[owner := p.(active := !cancel)]))
  }

  function ApplyBpVote(s: State, voter: Name, producer: Name, cancel: bool): Result<State> {
    var a :- Find(s.accounts, voter);
    var _ :- Find(s.accounts, producer);
    var p :- Find(s.producers, producer);
    if cancel then
      :- Check(voter in s.votes && s.votes[voter] == producer);
      var vv :- Sub(p.voteVest, a.vest);
      :- Check(p.voterCount > 0);
      :- Check(a.bpVoteCount > 0);
      Ok(s.(votes := s.votes - {voter},
            producers := s.producers[producer := p.(voteVest := vv, voterCount := p.voterCount - 1)],
            accounts := s.accounts[voter := a.(bpVoteCount := a.bpVoteCount - 1)]))
    else
      :- Check(p.active);
      :- Check(!(voter in s.votes && s.votes[voter] == producer));
      :- Check(a.bpVoteCount < PER_USER_BP_VOTE_LIMIT);
      :- Check(voter !in s.votes);
      var vv :- Add(p.voteVest, a.vest);
      Ok(s.(votes := s.votes[voter := producer],
            producers := s.producers[producer := p.(voteVest := vv, voterCount := p.voterCount + 1)],
            accounts := s.accounts[voter := a.(bpVoteCount := a.bpVoteCount + 1)]))
  }

  /** The staked amount joins the vest total and the stake total. */
  function CosToStake(s: State, amount: U64): Result<State> {
    var t :- CosToVest(s, amount);
    var v :- Add(s.props.stakeVest, amount);
    Ok(t.(props := t.props.(stakeVest := v)))
  }

  function StakeToCos(s: State, amount: U64): Result<State> {
    var t :- VestToCos(s, amount);
    var v :- Sub(s.props.stakeVest, amount);
    Ok(t.(props := t.props.(stakeVest := v)))
  }

  function ApplyStake(s: State, from: Name, to: Name, amount: U64): Result<State> {
    var a :- Find(s.accounts, from);
    var _ :- Find(s.accounts, to);
    :- Check(!IsBadGuy(s, from));
    var b :- Sub(a.balance, amount);
    var sf :- Add(a.stakeFrom, amount);
    var m1 := s.accounts[from := a.(balance := b, stakeFrom := sf)];
    var st :- Add(m1[to].stakeFor, amount);
    var m2 := m1[to := m1[to].(stakeFor := st)];
    var key := StakeKey(from, to);
    var total :- Add(if key in s.stakes then s.stakes[key].amount else 0, amount);
    CosToStake(s.(accounts := m2, stakes := s.stakes[key := StakeRecord(total, s.props.head)]), amount)
  }

  function ApplyUnStake(s: State, creditor: Name, debtor: Name, amount: U64): Result<State> {
    var key := StakeKey(creditor, debtor);
    var record :- Find(s.stakes, key);
    :- Check((s.props.head - record.lastStakeBlock) % TWO_64 > STAKE_FREEZE_TIME);
    var d :- Find(s.accounts, debtor);
    var st :- Sub(d.stakeFor, amount);
    var m1 := s.accounts[debtor := d.(stakeFor := st)];
    var c :- Find(m1, creditor);
    var b :- Add(c.balance, amount);
    var sf :- Sub(c.stakeFrom, amount);
    var m2 := m1[creditor := c.(balance := b, stakeFrom := sf)];
    var rest :- Sub(record.amount, amount);
    StakeToCos(s.(accounts := m2, stakes := s.stakes[key := record.(amount := rest)]), amount)
  }

  function ApplyAcquireTicket(s: State, account: Name, count: U64, recordFree: bool): Result<State> {
    var fee :- Mul(s.props.perTicketPrice, count);
    :- Check(count > 0);
    :- Check(count <= MAX_TICKETS_PER_TURN);
    var s1 :- SubBalance(s, account, fee);
    var a := s1.accounts[account];
    var tickets := (a.chargedTicket + count) % TWO_32;
    :- Check(tickets > a.chargedTicket);
    var s2 := PutAccount(s1, account, a.(chargedTicket := tickets));
    :- Check(recordFree);
    var income :- Add(s2.props.ticketsIncome, fee);
    var cos :- Sub(s2.props.totalCos, fee);
    Ok(s2.(props := s2.props.(ticketsIncome := income, totalCos := cos,
                              chargedTicketsNum := WrapAdd(s2.props.chargedTicketsNum, count))))
  }

  function ApplyVoteByTicket(s: State, account: Name, count: U64, freeTicket: bool, postVotable: bool): Result<State> {
    var a :- Find(s.accounts, account);
    :- Check(postVotable);
    :- Check(count > 0);
    :- Check(count <= MAX_TICKETS_PER_TURN);
    var used: U64 := if freeTicket then count - 1 else count;
    :- Check(a.chargedTicket >= used);
    var s1 := PutAccount(s, account, a.(chargedTicket := a.chargedTicket - used));
    :- Check(s1.props.producer in s1.accounts);
    :- Check(s1.props.chargedTicketsNum >= used);
    var p :- SpendTickets(s1.props, used);
    Ok(s1.(props := p))
  }

  /** The used tickets' share of the income becomes the producers' bonus. */
  function SpendTickets(p: Props, used: U64): Result<Props>
    requires used <= p.chargedTicketsNum
  {
    var equal :- if p.chargedTicketsNum == 0 then Ok(0) else Mul(p.ticketsIncome / p.chargedTicketsNum, used);
    var income :- Sub(p.ticketsIncome, equal);
    var bonus :- Add(p.ticketsBpBonus, equal);
    var total :- Add(p.totalVest, equal);
    Ok(p.(ticketsIncome := income, chargedTicketsNum := p.chargedTicketsNum - used, ticketsBpBonus := bonus,
          totalVest := total))
  }

  /** What `DelegateVest` may take: vest that is neither borrowed, nor the account
      fee, nor promised to a running power-down. */
  function MaxDelegation(a: Account, fee: U64): Result<U64> {
    var own :- Sub(a.vest, a.borrowed);
    var free :- Sub(own, fee);
    if a.eachRate == 0 then Ok(free)
    else
      var inPowerDown :- Sub(a.toPowerdown, a.hasPowerdown);
      if free <= inPowerDown then Ok(0) else Sub(free, inPowerDown)
  }

  function ApplyDelegateVest(s: State, from: Name, to: Name, amount: U64, expiration: U64): Result<State> {
    var a :- Find(s.accounts, from);
    var _ :- Find(s.accounts, to);
    :- Check(AtLeast(s, HARD_FORK3));
    :- Check(!IsBadGuy(s, from));
    :- Check(a.reputation > MIN_REPUTATION);
    :- Check(from != to);
    :- Check(amount >= MIN_VEST_DELEGATION_AMOUNT);
    var max :- MaxDelegation(a, s.props.accountCreateFee);
    :- Check(max >= amount);
    var id := WrapAdd(s.orderCounter, 1);
    :- Check(id !in s.orders);
    Lend(s, id, Order(from, to, amount, WrapAdd(WrapAdd(s.props.head, 1), expiration), MAX_INT64, false))
  }

  /** Records the order and moves its amount from the lender to the borrower. */
  function Lend(s: State, id: U64, o: Order): Result<State> {
    var a :- Find(s.accounts, o.from);
    var fl :- Add(a.lent, o.amount);
    var fv :- Sub(a.vest, o.amount);
    var s1 :- PutVest(s.(orderCounter := id, orders := s.orders[id := o]), o.from, a.(lent := fl, vest := fv));
    var b :- Find(s1.accounts, o.to);
    var tb :- Add(b.borrowed, o.amount);
    var tv :- Add(b.vest, o.amount);
    PutVest(s1, o.to, b.(borrowed := tb, vest := tv))
  }

  function ApplyUnDelegateVest(s: State, account: Name, orderId: U64): Result<State> {
    var a :- Find(s.accounts, account);
    :- Check(AtLeast(s, HARD_FORK3));
    :- Check(a.reputation > MIN_REPUTATION);
    var o :- Find(s.orders, orderId);
    :- Check(o.from == account);
    :- Check(s.props.head >= o.maturity);
    :- Check(!o.delivering);
    :- Check(o.to in s.accounts);
    var delivery := WrapAdd(WrapAdd(s.props.head, 1), VEST_DELEGATION_DELIVERY_IN_BLOCKS);
    Recall(s, orderId, o.(delivering := true, delivery := delivery))
  }

  /** Takes the order's amount back from the borrower; the lender waits for its delivery. */
  function Recall(s: State, id: U64, o: Order): Result<State> {
    var a :- Find(s.accounts, o.from);
    var fl :- Sub(a.lent, o.amount);
    var fd :- Add(a.delivering, o.amount);
    var s1 := s.(orders := s.orders[id := o], accounts := s.accounts[o.from := a.(lent := fl, delivering := fd)]);
    var b :- Find(s1.accounts, o.to);
    var tb :- Sub(b.borrowed, o.amount);
    var tv :- Sub(b.vest, o.amount);
    PutVest(s1, o.to, b.(borrowed := tb, vest := tv))
  }

  // ----- contracts -----

  function ApplyContractDeploy(s: State, id: ContractId, codeAccepted: bool): Result<State> {
    if !codeAccepted || IsBadGuy(s, id.owner) then Panic
    else Ok(if id in s.contracts then s else s.(contracts := s.contracts[id := 0]))
  }

  function ApplyContractToUser(s: State, contract: ContractId, to: Name, amount: U64): Result<State> {
    var balance :- Find(s.contracts, contract);
    :- Check(balance >= amount);
    var _ :- Find(s.accounts, to);
    var s1 := s.(contracts := s.contracts[contract := balance - amount]);
    Ok(PutAccount(s1, to, s1.accounts[to].(balance := WrapAdd(s1.accounts[to].balance, amount))))
  }

  /** Writes the vest without `updateBpVoteValue`. */
  function ApplyContractToUserVest(s: State, contract: ContractId, to: Name, amount: U64): Result<State> {
    var balance :- Find(s.contracts, contract);
    var c :- Sub(balance, amount);
    var _ :- Find(s.accounts, to);
    var s1 := s.(contracts := s.contracts[contract := c]);
    var v :- Add(s1.accounts[to].vest, amount);
    CosToVest(PutAccount(s1, to, s1.accounts[to].(vest := v)), amount)
  }

  function ApplyUserToContract(s: State, from: Name, contract: ContractId, amount: U64, signed: bool): Result<State> {
    var a :- Find(s.accounts, from);
    :- Check(signed);
    :- Check(a.balance >= amount);
    var balance :- Find(s.contracts, contract);
    var s1 := s.(contracts := s.contracts[contract := WrapAdd(balance, amount)]);
    Ok(PutAccount(s1, from, s1.accounts[from].(balance := s1.accounts[from].balance - amount)))
  }

  function ApplyContractToContract(s: State, from: ContractId, to: ContractId, amount: U64): Result<State> {
    if from == to then Ok(s)
    else
      var fromBalance :- Find(s.contracts, from);
      :- Check(fromBalance >= amount);
      var toBalance :- Find(s.contracts, to);
      var s1 := s.(contracts := s.contracts[from := fromBalance - amount]);
      Ok(s1.(contracts := s1.contracts[to := WrapAdd(toBalance, amount)]))
  }

  function ApplySetReputation(s: State, name: Name, value: U32): Result<State> {
    var a :- Find(s.accounts, name);
    var s1 := PutAccount(s, name, a.(reputation := value));
    Ok(if value == MIN_REPUTATION && name in s1.producers
       then s1.(producers := s1.producers[name := s1.producers[name].(active := false)]) else s1)
  }

  // ----- transactions -----

  function ApplyOps(s: State, ops: seq<Op>): Result<State> {
    if ops == [] then Ok(s)
    else
      var t :- ApplyOps(s, ops[..|ops| - 1]);
      ApplyOp(t, ops[|ops| - 1])
  }

  /** A panic in any operation discards the whole transaction. */
  function ApplyTransaction(s: State, ops: seq<Op>): State {
    match ApplyOps(s, ops)
    case Ok(t) => t
    case Panic => s
  }

  function ApplyTransactions(s: State, trxs: seq<seq<Op>>): State {
    if trxs == [] then s
    else ApplyTransaction(ApplyTransactions(s, trxs[..|trxs| - 1]), trxs[|trxs| - 1])
  }
}
