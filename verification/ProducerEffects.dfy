/** Registering, enabling, disabling and banning producers: when each succeeds, and what every
    operation of the chain does to the producers' switches and the accounts' reputations. */
module ProducerEffects {
  import opened Amounts
  import opened LedgerState
  import opened Evaluators

  // ----- when they succeed -----

  /** An account becomes a producer exactly when it is none yet, is not banned and holds the vest
      asked for; it starts switched on, without votes. */
  lemma BpRegisterIff(s: State, owner: Name, propsInRange: bool)
    ensures ApplyBpRegister(s, owner, propsInRange).Ok? <==>
            propsInRange && owner in s.accounts && owner !in s.producers
            && s.accounts[owner].vest >= 30_000_000_000 && s.accounts[owner].reputation > 0
    ensures ApplyBpRegister(s, owner, propsInRange).Ok? ==>
              var t := ApplyBpRegister(s, owner, propsInRange).value;
              && t == s.(producers := t.producers) && t.producers.Keys == s.producers.Keys + {owner}
              && (forall n :: n in s.producers ==> t.producers[n] == s.producers[n])
              && var p := t.producers[owner];
              p.active && p.voteVest == 0 && p.voterCount == 0 && p.genBlocks == 0
  {
  }

  /** A producer can be switched exactly to what it is not. */
  lemma BpEnableIff(s: State, owner: Name, cancel: bool)
    ensures ApplyBpEnable(s, owner, cancel).Ok? <==> owner in s.producers && s.producers[owner].active == cancel
    ensures ApplyBpEnable(s, owner, cancel).Ok? ==>
              var t := ApplyBpEnable(s, owner, cancel).value;
              && t == s.(producers := t.producers) && t.producers.Keys == s.producers.Keys
              && (forall n :: n in s.producers && n != owner ==> t.producers[n] == s.producers[n])
              && t.producers[owner] == s.producers[owner].(active := !cancel)
  {
  }

  /** Switching a producer and switching it back leaves the chain as it was. */
  lemma SwitchedBack(s: State, owner: Name, cancel: bool)
    requires ApplyBpEnable(s, owner, cancel).Ok?
    ensures ApplyBpEnable(ApplyBpEnable(s, owner, cancel).value, owner, !cancel) == Ok(s)
  {
    var t := ApplyBpEnable(s, owner, cancel).value;
    assert t.producers[owner].(active := cancel) == s.producers[owner];
    assert t.producers[owner := s.producers[owner]] == s.producers;
  }

  /** Any account's reputation can be set; the lowest one switches its producer off. */
  lemma SetReputationIff(s: State, name: Name, value: U32)
    ensures ApplySetReputation(s, name, value).Ok? <==> name in s.accounts
    ensures ApplySetReputation(s, name, value).Ok? ==>
              var t := ApplySetReputation(s, name, value).value;
              && t == s.(accounts := t.accounts, producers := t.producers)
              && t.accounts == s.accounts[name := s.accounts[name].(reputation := value)]
              && t.producers.Keys == s.producers.Keys
              && forall n :: n in s.producers ==>
                   t.producers[n] == s.producers[n].(active := s.producers[n].active && !(n == name && value == 0))
  {
  }

  // ----- all operations -----

  /** The producers' switches and the accounts' reputations stay; new accounts are not banned. */
  ghost predicate Quiet(s: State, t: State) {
    && t.producers.Keys == s.producers.Keys && s.accounts.Keys <= t.accounts.Keys
    && (forall n :: n in s.producers ==> t.producers[n].active == s.producers[n].active)
    && (forall n :: n in s.accounts ==> t.accounts[n].reputation == s.accounts[n].reputation)
    && (forall n :: n in t.accounts && n !in s.accounts ==> t.accounts[n].reputation > 0)
  }

  lemma QuietOn(s: State, t: State, u: State)
    requires Quiet(s, t) && Quiet(t, u)
    ensures Quiet(s, u)
  {
  }

  lemma VestQuiet(s: State, n: Name, a: Account)
    requires n in s.accounts && a.reputation == s.accounts[n].reputation && PutVest(s, n, a).Ok?
    ensures Quiet(s, PutVest(s, n, a).value)
    ensures PutVest(s, n, a).value.accounts == s.accounts[n := a]
  {
  }

  lemma TransferToVestQuiet(s: State, from: Name, to: Name, amount: U64)
    requires ApplyTransferToVest(s, from, to, amount).Ok?
    ensures Quiet(s, ApplyTransferToVest(s, from, to, amount).value)
  {
    hide PutVest, Quiet;
    var s1 := SubBalance(s, from, amount).value;
    assert Quiet(s, s1) by { RowQuiet(s, from, s1.accounts[from]); }
    var a := s1.accounts[to].(vest := Add(s1.accounts[to].vest, amount).value);
    VestQuiet(s1, to, a);
    var s2 := PutVest(s1, to, a).value;
    QuietOn(s, s1, s2);
    PropsQuiet(s, s2, ApplyTransferToVest(s, from, to, amount).value);
  }

  lemma RowQuiet(s: State, n: Name, a: Account)
    requires n in s.accounts && a.reputation == s.accounts[n].reputation
    ensures Quiet(s, PutAccount(s, n, a))
  {
  }

  lemma PropsQuiet(s: State, t: State, u: State)
    requires Quiet(s, t) && u.accounts == t.accounts && u.producers == t.producers
    ensures Quiet(s, u)
  {
  }

  lemma LendQuiet(s: State, id: U64, o: Order)
    requires Lend(s, id, o).Ok?
    ensures Quiet(s, Lend(s, id, o).value)
  {
    hide PutVest, Quiet;
    var a := s.accounts[o.from];
    var x := a.(lent := Add(a.lent, o.amount).value, vest := Sub(a.vest, o.amount).value);
    var s0 := s.(orderCounter := id, orders := s.orders[id := o]);
    VestQuiet(s0, o.from, x);
    var s1 := PutVest(s0, o.from, x).value;
    var b := s1.accounts[o.to];
    VestQuiet(s1, o.to, b.(borrowed := Add(b.borrowed, o.amount).value, vest := Add(b.vest, o.amount).value));
    assert Quiet(s, s0) by { SelfQuiet(s, s0); }
    QuietOn(s, s0, s1);
    QuietOn(s, s1, Lend(s, id, o).value);
  }

  lemma RecallQuiet(s: State, id: U64, o: Order)
    requires Recall(s, id, o).Ok?
    ensures Quiet(s, Recall(s, id, o).value)
  {
    hide PutVest, Quiet;
    var a := s.accounts[o.from];
    var x := a.(lent := Sub(a.lent, o.amount).value, delivering := Add(a.delivering, o.amount).value);
    var s1 := s.(orders := s.orders[id := o], accounts := s.accounts[o.from := x]);
    RowQuiet(s, o.from, x);
    PropsQuiet(s, PutAccount(s, o.from, x), s1);
    var b := s1.accounts[o.to];
    VestQuiet(s1, o.to, b.(borrowed := Sub(b.borrowed, o.amount).value, vest := Sub(b.vest, o.amount).value));
    QuietOn(s, s1, Recall(s, id, o).value);
  }

  lemma SelfQuiet(s: State, t: State)
    requires t.accounts == s.accounts && t.producers == s.producers
    ensures Quiet(s, t)
  {
  }

  lemma BpVoteQuiet(s: State, voter: Name, producer: Name, cancel: bool)
    requires ApplyBpVote(s, voter, producer, cancel).Ok?
    ensures Quiet(s, ApplyBpVote(s, voter, producer, cancel).value)
  {
  }

  lemma AccountCreateQuiet(s: State, creator: Name, fee: U64, newAccount: Name, key: PubKey)
    requires ApplyAccountCreate(s, creator, fee, newAccount, key).Ok?
    ensures Quiet(s, ApplyAccountCreate(s, creator, fee, newAccount, key).value)
  {
    hide KeyInUse;
  }

  lemma TransferQuiet(s: State, from: Name, to: Name, amount: U64)
    requires ApplyTransfer(s, from, to, amount).Ok?
    ensures Quiet(s, ApplyTransfer(s, from, to, amount).value)
  {
  }

  lemma ConvertVestQuiet(s: State, from: Name, amount: U64)
    requires ApplyConvertVest(s, from, amount).Ok?
    ensures Quiet(s, ApplyConvertVest(s, from, amount).value)
  {
  }

  lemma StakeQuiet(s: State, from: Name, to: Name, amount: U64)
    requires ApplyStake(s, from, to, amount).Ok?
    ensures Quiet(s, ApplyStake(s, from, to, amount).value)
  {
  }

  lemma UnStakeQuiet(s: State, creditor: Name, debtor: Name, amount: U64)
    requires ApplyUnStake(s, creditor, debtor, amount).Ok?
    ensures Quiet(s, ApplyUnStake(s, creditor, debtor, amount).value)
  {
  }

  lemma AcquireTicketQuiet(s: State, account: Name, count: U64, recordFree: bool)
    requires ApplyAcquireTicket(s, account, count, recordFree).Ok?
    ensures Quiet(s, ApplyAcquireTicket(s, account, count, recordFree).value)
  {
  }

  lemma VoteByTicketQuiet(s: State, account: Name, count: U64, freeTicket: bool, postVotable: bool)
    requires ApplyVoteByTicket(s, account, count, freeTicket, postVotable).Ok?
    ensures Quiet(s, ApplyVoteByTicket(s, account, count, freeTicket, postVotable).value)
  {
    hide SpendTickets;
  }

  lemma ContractDeployQuiet(s: State, id: ContractId, codeAccepted: bool)
    requires ApplyContractDeploy(s, id, codeAccepted).Ok?
    ensures Quiet(s, ApplyContractDeploy(s, id, codeAccepted).value)
  {
  }

  lemma ContractToUserQuiet(s: State, contract: ContractId, to: Name, amount: U64)
    requires ApplyContractToUser(s, contract, to, amount).Ok?
    ensures Quiet(s, ApplyContractToUser(s, contract, to, amount).value)
  {
  }

  lemma ContractToUserVestQuiet(s: State, contract: ContractId, to: Name, amount: U64)
    requires ApplyContractToUserVest(s, contract, to, amount).Ok?
    ensures Quiet(s, ApplyContractToUserVest(s, contract, to, amount).value)
  {
  }

  lemma UserToContractQuiet(s: State, from: Name, contract: ContractId, amount: U64, signed: bool)
    requires ApplyUserToContract(s, from, contract, amount, signed).Ok?
    ensures Quiet(s, ApplyUserToContract(s, from, contract, amount, signed).value)
  {
  }

  lemma ContractToContractQuiet(s: State, from: ContractId, to: ContractId, amount: U64)
    requires ApplyContractToContract(s, from, to, amount).Ok?
    ensures Quiet(s, ApplyContractToContract(s, from, to, amount).value)
  {
  }

  /** Every operation but registering, switching and setting a reputation is quiet. */
  lemma OpQuiet(s: State, op: Op)
    requires !op.BpRegister? && !op.BpEnable? && !op.SetReputation? && ApplyOp(s, op).Ok?
    ensures Quiet(s, ApplyOp(s, op).value)
  {
    hide Quiet, ApplyAccountCreate, ApplyTransfer, ApplyConvertVest, ApplyStake, ApplyUnStake, ApplyAcquireTicket,
         ApplyVoteByTicket, ApplyContractDeploy, ApplyContractToUser, ApplyContractToUserVest, ApplyUserToContract,
         ApplyContractToContract, ApplyTransferToVest, ApplyBpVote, Lend, Recall, MaxDelegation;
    match op
    case TransferToVest(f, t, a) => TransferToVestQuiet(s, f, t, a);
    case BpVote(v, p, c) => BpVoteQuiet(s, v, p, c);
    case DelegateVest(f, t, a, e) =>
      LendQuiet(s, WrapAdd(s.orderCounter, 1), Order(f, t, a, WrapAdd(WrapAdd(s.props.head, 1), e), MAX_INT64, false));
    case UnDelegateVest(a, id) =>
      RecallQuiet(s, id, s.orders[id].(delivering := true,
                                       delivery := WrapAdd(WrapAdd(s.props.head, 1), VEST_DELEGATION_DELIVERY_IN_BLOCKS)));
    case AccountCreate(c, f, n, k) => AccountCreateQuiet(s, c, f, n, k);
    case Transfer(f, t, a) => TransferQuiet(s, f, t, a);
    case ConvertVest(f, a) => ConvertVestQuiet(s, f, a);
    case Stake(f, t, a) => StakeQuiet(s, f, t, a);
    case UnStake(c, d, a) => UnStakeQuiet(s, c, d, a);
    case AcquireTicket(a, c, r) => AcquireTicketQuiet(s, a, c, r);
    case VoteByTicket(a, c, f, p) => VoteByTicketQuiet(s, a, c, f, p);
    case ContractDeploy(i, c) => ContractDeployQuiet(s, i, c);
    case ContractToUser(c, t, a) => ContractToUserQuiet(s, c, t, a);
    case ContractToUserVest(c, t, a) => ContractToUserVestQuiet(s, c, t, a);
    case UserToContract(f, c, a, g) => UserToContractQuiet(s, f, c, a, g);
    case ContractToContract(f, t, a) => ContractToContractQuiet(s, f, t, a);
  }

  lemma AsOp(s: State, op: Op)
    ensures op.BpRegister? ==> ApplyOp(s, op) == ApplyBpRegister(s, op.owner, op.propsInRange)
    ensures op.BpEnable? ==> ApplyOp(s, op) == ApplyBpEnable(s, op.owner, op.cancel)
    ensures op.SetReputation? ==> ApplyOp(s, op) == ApplySetReputation(s, op.name, op.value)
  {
  }

  /** The switch of a producer after an operation. */
  function SwitchAfter(op: Op, n: Name, on: bool): bool {
    if op.BpEnable? && op.owner == n then !op.cancel
    else on && !(op.SetReputation? && op.name == n && op.value == 0)
  }

  /** What any operation that succeeds does to the producers: only registering adds one, none is
      ever removed, and only switching a producer and banning its account touch its switch. */
  lemma OpSwitches(s: State, op: Op)
    requires ApplyOp(s, op).Ok?
    ensures var t := ApplyOp(s, op).value;
            && t.producers.Keys == s.producers.Keys + (if op.BpRegister? then {op.owner} else {})
            && (forall n :: n in s.producers ==> t.producers[n].active == SwitchAfter(op, n, s.producers[n].active))
            && (op.BpRegister? ==> op.owner !in s.producers && t.producers[op.owner].active)
  {
    hide ApplyOp, ApplyBpRegister, ApplyBpEnable, ApplySetReputation;
    AsOp(s, op);
    if op.BpRegister? {
      BpRegisterIff(s, op.owner, op.propsInRange);
    } else if op.BpEnable? {
      BpEnableIff(s, op.owner, op.cancel);
    } else if op.SetReputation? {
      SetReputationIff(s, op.name, op.value);
    } else {
      OpQuiet(s, op);
    }
  }

  /** A producer that is off stays off through any transaction that does not switch it on. */
  lemma {:induction false} StaysOff(s: State, ops: seq<Op>, n: Name)
    requires n in s.producers && !s.producers[n].active && ApplyOps(s, ops).Ok?
    requires forall i :: 0 <= i < |ops| ==> ops[i] != BpEnable(n, false)
    ensures var t := ApplyOps(s, ops).value;
            n in t.producers && !t.producers[n].active
  {
    hide ApplyOp;
    if ops != [] {
      StaysOff(s, ops[..|ops| - 1], n);
      OpSwitches(ApplyOps(s, ops[..|ops| - 1]).value, ops[|ops| - 1]);
      assert ops[|ops| - 1] != BpEnable(n, false);
    }
  }

  // ----- banned producers -----

  /** No banned account's producer is on. */
  ghost predicate BannedOff(s: State) {
    forall n :: n in s.producers && n in s.accounts && s.accounts[n].reputation == 0 ==> !s.producers[n].active
  }

  /** Banning switches a producer off, but switching it on again does not ask for its reputation:
      that operation, and no other, lets a banned producer run. */
  lemma BannedOffIff(s: State, op: Op)
    requires BannedOff(s) && ApplyOp(s, op).Ok?
    ensures BannedOff(ApplyOp(s, op).value) <==>
            !(op.BpEnable? && !op.cancel && op.owner in s.accounts && s.accounts[op.owner].reputation == 0)
  {
    hide ApplyOp, ApplyBpRegister, ApplyBpEnable, ApplySetReputation;
    AsOp(s, op);
    if op.BpRegister? {
      BpRegisterIff(s, op.owner, op.propsInRange);
    } else if op.BpEnable? {
      BpEnableIff(s, op.owner, op.cancel);
    } else if op.SetReputation? {
      SetReputationIff(s, op.name, op.value);
    } else {
      OpQuiet(s, op);
    }
  }

  /** Such an operation on a banned producer always succeeds. */
  lemma BannedComesBack(s: State, n: Name)
    requires n in s.accounts && n in s.producers
    ensures var t := ApplySetReputation(s, n, 0).value;
            && ApplySetReputation(s, n, 0).Ok? && ApplyBpEnable(t, n, false).Ok?
            && !BannedOff(ApplyBpEnable(t, n, false).value)
  {
    hide ApplyBpEnable, ApplySetReputation;
    SetReputationIff(s, n, 0);
    var t := ApplySetReputation(s, n, 0).value;
    BpEnableIff(t, n, false);
    assert n in ApplyBpEnable(t, n, false).value.producers;
  }
}
