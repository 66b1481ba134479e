/** The tables themselves, updated in place row by row as the evaluators and the economist
    do.  Every method is proved to do what the function of the same name says; `false` is a
    panic, after which whatever was written is up to the caller to discard. */
module Ledger {
  import opened Amounts
  import opened LedgerState
  import opened Evaluators
  import opened Economist

  class Tables {
    var accounts: map<Name, Account>
    var contracts: map<ContractId, U64>
    var producers: map<Name, Producer>
    var votes: map<Name, Name>
    var stakes: map<StakeKey, StakeRecord>
    var orders: map<U64, Order>
    var orderCounter: U64
    var schedule: seq<Name>
    var dappRewards: map<U64, U64>
    var props: Props

    constructor (s: State)
      ensures View() == s
    {
      accounts, contracts, producers, votes := s.accounts, s.contracts, s.producers, s.votes;
      stakes, orders, orderCounter := s.stakes, s.orders, s.orderCounter;
      schedule, dappRewards, props := s.schedule, s.dappRewards, s.props;
    }

    function View(): State
      reads this
    {
      State(accounts, contracts, producers, votes, stakes, orders, orderCounter, schedule, dappRewards, props)
    }

    /** The outcome `r` happened: the tables hold its state, or it is a panic. */
    ghost predicate Gives(ok: bool, r: Result<State>)
      reads this
    {
      if ok then r == Ok(View()) else r.Panic?
    }

    // ----- rows -----

    method SubBalance(n: Name, amount: U64) returns (ok: bool)
      modifies this`accounts
      ensures Gives(ok, Evaluators.SubBalance(old(View()), n, amount))
    {
      if n !in accounts {
        return false;
      }
      var b := Sub(accounts[n].balance, amount);
      if b.Panic? {
        return false;
      }
      accounts := accounts[n := accounts[n].(balance := b.value)];
      return true;
    }

    method AddBalance(n: Name, amount: U64) returns (ok: bool)
      modifies this`accounts
      ensures Gives(ok, Evaluators.AddBalance(old(View()), n, amount))
    {
      if n !in accounts {
        return false;
      }
      var b := Add(accounts[n].balance, amount);
      if b.Panic? {
        return false;
      }
      accounts := accounts[n := accounts[n].(balance := b.value)];
      return true;
    }

    method UpdateBpVoteValue(voter: Name, oldVest: U64, newVest: U64) returns (ok: bool)
      modifies this`producers
      ensures Gives(ok, Evaluators.UpdateBpVoteValue(old(View()), voter, oldVest, newVest))
      ensures !ok ==> producers == old(producers)
    {
      if voter !in votes || votes[voter] !in producers {
        return true;
      }
      var bp := votes[voter];
      var rest := Sub(producers[bp].voteVest, oldVest);
      if rest.Panic? {
        return false;
      }
      var sum := Add(rest.value, newVest);
      if sum.Panic? {
        return false;
      }
      producers := producers[bp := producers[bp].(voteVest := sum.value)];
      return true;
    }

    method CosToVest(amount: U64) returns (ok: bool)
      modifies this`props
      ensures Gives(ok, Evaluators.CosToVest(old(View()), amount))
    {
      var c := Sub(props.totalCos, amount);
      if c.Panic? {
        return false;
      }
      props := props.(totalCos := c.value);
      var v := Add(props.totalVest, amount);
      if v.Panic? {
        return false;
      }
      props := props.(totalVest := v.value);
      return true;
    }

    method VestToCos(amount: U64) returns (ok: bool)
      modifies this`props
      ensures Gives(ok, Evaluators.VestToCos(old(View()), amount))
    {
      var c := Add(props.totalCos, amount);
      if c.Panic? {
        return false;
      }
      props := props.(totalCos := c.value);
      var v := Sub(props.totalVest, amount);
      if v.Panic? {
        return false;
      }
      props := props.(totalVest := v.value);
      return true;
    }

    method CosToStake(amount: U64) returns (ok: bool)
      modifies this`props
      ensures Gives(ok, Evaluators.CosToStake(old(View()), amount))
    {
      ok := CosToVest(amount);
      if !ok {
        return;
      }
      var v := Add(props.stakeVest, amount);
      if v.Panic? {
        return false;
      }
      props := props.(stakeVest := v.value);
    }

    method StakeToCos(amount: U64) returns (ok: bool)
      modifies this`props
      ensures Gives(ok, Evaluators.StakeToCos(old(View()), amount))
    {
      ok := VestToCos(amount);
      if !ok {
        return;
      }
      var v := Sub(props.stakeVest, amount);
      if v.Panic? {
        return false;
      }
      props := props.(stakeVest := v.value);
    }

    /** Writes an account and repairs the vote index. */
    method SetVest(n: Name, a: Account) returns (ok: bool)
      requires n in accounts
      modifies this`accounts, this`producers
      ensures Gives(ok, PutVest(old(View()), n, a))
      ensures accounts == old(accounts)[n := a]
    {
      var oldVest := accounts[n].vest;
      accounts := accounts[n := a];
      ok := UpdateBpVoteValue(n, oldVest, a.vest);
    }

    // ----- evaluators -----

    method AccountCreate(creator: Name, fee: U64, newAccount: Name, key: PubKey) returns (ok: bool)
      modifies this
      ensures Gives(ok, ApplyAccountCreate(old(View()), creator, fee, newAccount, key))
    {
      if creator !in accounts || fee < props.accountCreateFee || accounts[creator].balance < fee {
        return false;
      }
      ok := SubBalance(creator, fee);
      if !ok {
        return;
      }
      if newAccount in accounts || KeyInUse(View(), key) {
        return false;
      }
      accounts := accounts[newAccount := NewAccount(fee, key)];
      ok := CosToVest(fee);
    }

    method Transfer(from: Name, to: Name, amount: U64) returns (ok: bool)
      modifies this
      ensures Gives(ok, ApplyTransfer(old(View()), from, to, amount))
    {
      if to !in accounts || from == to || IsBadGuy(View(), from) {
        return false;
      }
      ok := SubBalance(from, amount);
      if !ok {
        return;
      }
      ok := AddBalance(to, amount);
    }

    method TransferToVest(from: Name, to: Name, amount: U64) returns (ok: bool)
      modifies this
      ensures Gives(ok, ApplyTransferToVest(old(View()), from, to, amount))
    {
      if to !in accounts || IsBadGuy(View(), from) {
        return false;
      }
      ok := SubBalance(from, amount);
      if !ok {
        return;
      }
      var v := Add(accounts[to].vest, amount);
      if v.Panic? {
        return false;
      }
      ok := SetVest(to, accounts[to].(vest := v.value));
      if !ok {
        return;
      }
      ok := CosToVest(amount);
    }

    method ConvertVest(from: Name, amount: U64) returns (ok: bool)
      modifies this
      ensures Gives(ok, ApplyConvertVest(old(View()), from, amount))
    {
      if from !in accounts {
        return false;
      }
      var own := Sub(accounts[from].vest, accounts[from].borrowed);
      if own.Panic? {
        return false;
      }
      var free := Sub(own.value, props.accountCreateFee);
      if free.Panic? || free.value < amount {
        return false;
      }
      var weeks := CONVERT_WEEKS;
      if AtLeast(View(), HARD_FORK2) {
        weeks := HARD_FORK2_CONVERT_WEEKS;
      }
      accounts := accounts[from := accounts[from].(nextPowerdown := WrapAdd(props.head, POWER_DOWN_BLOCK_INTERVAL),
                                                   eachRate := amount / (weeks - 1),
                                                   hasPowerdown := 0, toPowerdown := amount)];
      return true;
    }

    method BpRegister(owner: Name, propsInRange: bool) returns (ok: bool)
      modifies this
      ensures Gives(ok, ApplyBpRegister(old(View()), owner, propsInRange))
    {
      if owner !in accounts || accounts[owner].vest < MIN_BP_REGISTER_VEST || owner in producers
         || accounts[owner].reputation <= MIN_REPUTATION || !propsInRange {
        return false;
      }
      producers := producers[owner := Producer(true, 0, 0, 0)];
      return true;
    }

    method BpEnable(owner: Name, cancel: bool) returns (ok: bool)
      modifies this
      ensures Gives(ok, ApplyBpEnable(old(View()), owner, cancel))
    {
      if owner !in producers || producers[owner].active != cancel {
        return false;
      }
      producers := producers[owner := producers[owner].(active := !cancel)];
      return true;
    }

    method BpVote(voter: Name, producer: Name, cancel: bool) returns (ok: bool)
      modifies this
      ensures Gives(ok, ApplyBpVote(old(View()), voter, producer, cancel))
    {
      if voter !in accounts || producer !in accounts || producer !in producers {
        return false;
      }
      var vest := accounts[voter].vest;
      if cancel {
        if !(voter in votes && votes[voter] == producer) {
          return false;
        }
        votes := votes - {voter};
        var vv := Sub(producers[producer].voteVest, vest);
        if vv.Panic? {
          return false;
        }
        if producers[producer].voterCount == 0 || accounts[voter].bpVoteCount == 0 {
          return false;
        }
        producers := producers[producer := producers[producer].(voteVest := vv.value,
                                                                voterCount := producers[producer].voterCount - 1)];
        accounts := accounts[voter := accounts[voter].(bpVoteCount := accounts[voter].bpVoteCount - 1)];
      } else {
        if !producers[producer].active || voter in votes
           || accounts[voter].bpVoteCount >= PER_USER_BP_VOTE_LIMIT {
          return false;
        }
        votes := votes[voter := producer];
        accounts := accounts[voter := accounts[voter].(bpVoteCount := accounts[voter].bpVoteCount + 1)];
        var vv := Add(producers[producer].voteVest, vest);
        if vv.Panic? {
          return false;
        }
        producers := producers[producer := producers[producer].(voteVest := vv.value,
                                                                voterCount := producers[producer].voterCount + 1)];
      }
      return true;
    }

    method Stake(from: Name, to: Name, amount: U64) returns (ok: bool)
      modifies this
      ensures Gives(ok, ApplyStake(old(View()), from, to, amount))
    {
      hide Evaluators.CosToStake, Evaluators.StakeToCos;
      if from !in accounts || to !in accounts || IsBadGuy(View(), from) {
        return false;
      }
      ok := SubBalance(from, amount);
      if !ok {
        return;
      }
      var sf := Add(accounts[from].stakeFrom, amount);
      if sf.Panic? {
        return false;
      }
      accounts := accounts[from := accounts[from].(stakeFrom := sf.value)];
      assert accounts == old(accounts)[from := accounts[from]];
      var st := Add(accounts[to].stakeFor, amount);
      if st.Panic? {
        return false;
      }
      accounts := accounts[to := accounts[to].(stakeFor := st.value)];
      var key := StakeKey(from, to);
      var total := Add(if key in stakes then stakes[key].amount else 0, amount);
      if total.Panic? {
        return false;
      }
      stakes := stakes[key := StakeRecord(total.value, props.head)];
      ok := CosToStake(amount);
    }

    method UnStake(creditor: Name, debtor: Name, amount: U64) returns (ok: bool)
      modifies this
      ensures Gives(ok, ApplyUnStake(old(View()), creditor, debtor, amount))
    {
      hide Evaluators.CosToStake, Evaluators.StakeToCos;
      var key := StakeKey(creditor, debtor);
      if key !in stakes || (props.head - stakes[key].lastStakeBlock) % TWO_64 <= STAKE_FREEZE_TIME
         || debtor !in accounts {
        return false;
      }
      var st := Sub(accounts[debtor].stakeFor, amount);
      if st.Panic? {
        return false;
      }
      accounts := accounts[debtor := accounts[debtor].(stakeFor := st.value)];
      ghost var paid := accounts;
      ok := AddBalance(creditor, amount);
      if !ok {
        return;
      }
      var sf := Sub(accounts[creditor].stakeFrom, amount);
      if sf.Panic? {
        return false;
      }
      accounts := accounts[creditor := accounts[creditor].(stakeFrom := sf.value)];
      assert accounts == paid[creditor := accounts[creditor]];
      var rest := Sub(stakes[key].amount, amount);
      if rest.Panic? {
        return false;
      }
      stakes := stakes[key := stakes[key].(amount := rest.value)];
      ok := StakeToCos(amount);
    }

    method AcquireTicket(account: Name, count: U64, recordFree: bool) returns (ok: bool)
      modifies this
      ensures Gives(ok, ApplyAcquireTicket(old(View()), account, count, recordFree))
    {
      hide Mul;
      if count == 0 || count > MAX_TICKETS_PER_TURN {
        return false;
      }
      var fee := Mul(props.perTicketPrice, count);
      if fee.Panic? {
        return false;
      }
      ok := SubBalance(account, fee.value);
      if !ok {
        return;
      }
      var tickets := (accounts[account].chargedTicket + count) % TWO_32;
      if tickets <= accounts[account].chargedTicket {
        return false;
      }
      accounts := accounts[account := accounts[account].(chargedTicket := tickets)];
      if !recordFree {
        return false;
      }
      var income := Add(props.ticketsIncome, fee.value);
      if income.Panic? {
        return false;
      }
      props := props.(ticketsIncome := income.value);
      var cos := Sub(props.totalCos, fee.value);
      if cos.Panic? {
        return false;
      }
      props := props.(totalCos := cos.value, chargedTicketsNum := WrapAdd(props.chargedTicketsNum, count));
      return true;
    }

    method VoteByTicket(account: Name, count: U64, freeTicket: bool, postVotable: bool) returns (ok: bool)
      modifies this
      ensures Gives(ok, ApplyVoteByTicket(old(View()), account, count, freeTicket, postVotable))
    {
      hide Evaluators.SpendTickets;
      if account !in accounts || !postVotable || count == 0 || count > MAX_TICKETS_PER_TURN {
        return false;
      }
      var used: U64 := if freeTicket then count - 1 else count;
      if accounts[account].chargedTicket < used {
        return false;
      }
      accounts := accounts[account := accounts[account].(chargedTicket := accounts[account].chargedTicket - used)];
      if props.producer !in accounts || props.chargedTicketsNum < used {
        return false;
      }
      ok := SpendTickets(used);
    }

    method SpendTickets(used: U64) returns (ok: bool)
      requires used <= props.chargedTicketsNum
      modifies this`props
      ensures var r := Evaluators.SpendTickets(old(props), used);
              if ok then r == Ok(props) else r.Panic?
    {
      hide Mul;
      var equal := Ok(0);
      if props.chargedTicketsNum != 0 {
        equal := Mul(props.ticketsIncome / props.chargedTicketsNum, used);
      }
      if equal.Panic? {
        return false;
      }
      var income := Sub(props.ticketsIncome, equal.value);
      if income.Panic? {
        return false;
      }
      props := props.(ticketsIncome := income.value, chargedTicketsNum := props.chargedTicketsNum - used);
      var bonus := Add(props.ticketsBpBonus, equal.value);
      if bonus.Panic? {
        return false;
      }
      props := props.(ticketsBpBonus := bonus.value);
      var total := Add(props.totalVest, equal.value);
      if total.Panic? {
        return false;
      }
      props := props.(totalVest := total.value);
      return true;
    }

    method LendOrder(id: U64, o: Order) returns (ok: bool)
      modifies this
      ensures Gives(ok, Lend(old(View()), id, o))
    {
      if o.from !in accounts {
        return false;
      }
      var fl, fv := Add(accounts[o.from].lent, o.amount), Sub(accounts[o.from].vest, o.amount);
      if fl.Panic? || fv.Panic? {
        return false;
      }
      orderCounter := id;
      orders := orders[id := o];
      ok := SetVest(o.from, accounts[o.from].(lent := fl.value, vest := fv.value));
      if !ok {
        return;
      }
      if o.to !in accounts {
        return false;
      }
      var tb, tv := Add(accounts[o.to].borrowed, o.amount), Add(accounts[o.to].vest, o.amount);
      if tb.Panic? || tv.Panic? {
        return false;
      }
      ok := SetVest(o.to, accounts[o.to].(borrowed := tb.value, vest := tv.value));
    }

    method DelegateVest(from: Name, to: Name, amount: U64, expiration: U64) returns (ok: bool)
      modifies this
      ensures Gives(ok, ApplyDelegateVest(old(View()), from, to, amount, expiration))
    {
      hide Lend;
      if from !in accounts || to !in accounts || !AtLeast(View(), HARD_FORK3) || IsBadGuy(View(), from)
         || accounts[from].reputation <= MIN_REPUTATION || from == to || amount < MIN_VEST_DELEGATION_AMOUNT {
        return false;
      }
      var max := MaxDelegation(accounts[from], props.accountCreateFee);
      if max.Panic? || max.value < amount {
        return false;
      }
      var id := WrapAdd(orderCounter, 1);
      if id in orders {
        return false;
      }
      ok := LendOrder(id, Order(from, to, amount, WrapAdd(WrapAdd(props.head, 1), expiration), MAX_INT64, false));
    }

    method RecallOrder(id: U64, o: Order) returns (ok: bool)
      modifies this
      ensures Gives(ok, Recall(old(View()), id, o))
    {
      if o.from !in accounts {
        return false;
      }
      orders := orders[id := o];
      var fl, fd := Sub(accounts[o.from].lent, o.amount), Add(accounts[o.from].delivering, o.amount);
      if fl.Panic? || fd.Panic? {
        return false;
      }
      accounts := accounts[o.from := accounts[o.from].(lent := fl.value, delivering := fd.value)];
      if o.to !in accounts {
        return false;
      }
      var tb, tv := Sub(accounts[o.to].borrowed, o.amount), Sub(accounts[o.to].vest, o.amount);
      if tb.Panic? || tv.Panic? {
        return false;
      }
      ok := SetVest(o.to, accounts[o.to].(borrowed := tb.value, vest := tv.value));
    }

    method UnDelegateVest(account: Name, id: U64) returns (ok: bool)
      modifies this
      ensures Gives(ok, ApplyUnDelegateVest(old(View()), account, id))
    {
      hide Recall;
      if account !in accounts || !AtLeast(View(), HARD_FORK3) || accounts[account].reputation <= MIN_REPUTATION
         || id !in orders {
        return false;
      }
      var o := orders[id];
      if o.from != account || props.head < o.maturity || o.delivering || o.to !in accounts {
        return false;
      }
      var delivery := WrapAdd(WrapAdd(props.head, 1), VEST_DELEGATION_DELIVERY_IN_BLOCKS);
      ok := RecallOrder(id, o.(delivering := true, delivery := delivery));
    }

    method ContractDeploy(id: ContractId, codeAccepted: bool) returns (ok: bool)
      modifies this
      ensures Gives(ok, ApplyContractDeploy(old(View()), id, codeAccepted))
    {
      if !codeAccepted || IsBadGuy(View(), id.owner) {
        return false;
      }
      if id !in contracts {
        contracts := contracts[id := 0];
      }
      return true;
    }

    method ContractToUser(contract: ContractId, to: Name, amount: U64) returns (ok: bool)
      modifies this
      ensures Gives(ok, ApplyContractToUser(old(View()), contract, to, amount))
    {
      if contract !in contracts || contracts[contract] < amount || to !in accounts {
        return false;
      }
      contracts := contracts[contract := contracts[contract] - amount];
      accounts := accounts[to := accounts[to].(balance := WrapAdd(accounts[to].balance, amount))];
      return true;
    }

    method ContractToUserVest(contract: ContractId, to: Name, amount: U64) returns (ok: bool)
      modifies this
      ensures Gives(ok, ApplyContractToUserVest(old(View()), contract, to, amount))
    {
      if contract !in contracts {
        return false;
      }
      var c := Sub(contracts[contract], amount);
      if c.Panic? || to !in accounts {
        return false;
      }
      contracts := contracts[contract := c.value];
      var v := Add(accounts[to].vest, amount);
      if v.Panic? {
        return false;
      }
      accounts := accounts[to := accounts[to].(vest := v.value)];
      ok := CosToVest(amount);
    }

    method UserToContract(from: Name, contract: ContractId, amount: U64, signed: bool) returns (ok: bool)
      modifies this
      ensures Gives(ok, ApplyUserToContract(old(View()), from, contract, amount, signed))
    {
      if from !in accounts || !signed || accounts[from].balance < amount || contract !in contracts {
        return false;
      }
      contracts := contracts[contract := WrapAdd(contracts[contract], amount)];
      accounts := accounts[from := accounts[from].(balance := accounts[from].balance - amount)];
      return true;
    }

    method ContractToContract(from: ContractId, to: ContractId, amount: U64) returns (ok: bool)
      modifies this
      ensures Gives(ok, ApplyContractToContract(old(View()), from, to, amount))
    {
      if from == to {
        return true;
      }
      if from !in contracts || contracts[from] < amount || to !in contracts {
        return false;
      }
      var toBalance := contracts[to];
      contracts := contracts[from := contracts[from] - amount];
      contracts := contracts[to := WrapAdd(toBalance, amount)];
      return true;
    }

    method SetReputation(name: Name, value: U32) returns (ok: bool)
      modifies this
      ensures Gives(ok, ApplySetReputation(old(View()), name, value))
    {
      if name !in accounts {
        return false;
      }
      accounts := accounts[name := accounts[name].(reputation := value)];
      if value == MIN_REPUTATION && name in producers {
        producers := producers[name := producers[name].(active := false)];
      }
      return true;
    }

    // ----- transactions -----

    method Apply(op: Op) returns (ok: bool)
      modifies this
      ensures Gives(ok, ApplyOp(old(View()), op))
    {
      hide ApplyAccountCreate, ApplyTransfer, ApplyTransferToVest, ApplyConvertVest, ApplyBpRegister, ApplyBpEnable,
           ApplyBpVote, ApplyStake, ApplyUnStake, ApplyAcquireTicket, ApplyVoteByTicket, ApplyDelegateVest,
           ApplyUnDelegateVest, ApplyContractDeploy, ApplyContractToUser, ApplyContractToUserVest,
           ApplyUserToContract, ApplyContractToContract, ApplySetReputation, View, Gives;
      match op
      case AccountCreate(c, f, n, k) => ok := AccountCreate(c, f, n, k);
      case Transfer(f, t, a) => ok := Transfer(f, t, a);
      case TransferToVest(f, t, a) => ok := TransferToVest(f, t, a);
      case ConvertVest(f, a) => ok := ConvertVest(f, a);
      case BpRegister(o, r) => ok := BpRegister(o, r);
      case BpEnable(o, c) => ok := BpEnable(o, c);
      case BpVote(v, p, c) => ok := BpVote(v, p, c);
      case Stake(f, t, a) => ok := Stake(f, t, a);
      case UnStake(c, d, a) => ok := UnStake(c, d, a);
      case AcquireTicket(n, c, r) => ok := AcquireTicket(n, c, r);
      case VoteByTicket(n, c, f, p) => ok := VoteByTicket(n, c, f, p);
      case DelegateVest(f, t, a, e) => ok := DelegateVest(f, t, a, e);
      case UnDelegateVest(n, o) => ok := UnDelegateVest(n, o);
      case ContractDeploy(id, c) => ok := ContractDeploy(id, c);
      case ContractToUser(c, t, a) => ok := ContractToUser(c, t, a);
      case ContractToUserVest(c, t, a) => ok := ContractToUserVest(c, t, a);
      case UserToContract(f, c, a, s) => ok := UserToContract(f, c, a, s);
      case ContractToContract(f, t, a) => ok := ContractToContract(f, t, a);
      case SetReputation(n, v) => ok := SetReputation(n, v);
    }

    method Restore(s: State)
      modifies this
      ensures View() == s
    {
      accounts, contracts, producers, votes := s.accounts, s.contracts, s.producers, s.votes;
      stakes, orders, orderCounter := s.stakes, s.orders, s.orderCounter;
      schedule, dappRewards, props := s.schedule, s.dappRewards, s.props;
    }

    /** A panic in any operation discards what the transaction wrote. */
    method ApplyTransaction(ops: seq<Op>)
      modifies this
      ensures View() == Evaluators.ApplyTransaction(old(View()), ops)
    {
      hide ApplyOp;
      var before := View();
      for i := 0 to |ops|
        invariant ApplyOps(before, ops[..i]) == Ok(View())
      {
        assert ops[..i + 1][..i] == ops[..i];
        var ok := Apply(ops[i]);
        if !ok {
          OpsPanic(before, ops, i + 1);
          Restore(before);
          return;
        }
      }
      assert ops[..|ops|] == ops;
    }
  }

  lemma {:induction false} OpsPanic(s: State, ops: seq<Op>, n: nat)
    requires n <= |ops| && ApplyOps(s, ops[..n]).Panic?
    ensures ApplyOps(s, ops).Panic?
    decreases |ops| - n
  {
    hide ApplyOp;
    if n < |ops| {
      assert ops[..n + 1][..n] == ops[..n];
      OpsPanic(s, ops, n + 1);
    } else {
      assert ops[..n] == ops;
    }
  }
}
