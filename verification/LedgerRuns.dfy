/** Whole runs of the ledger: blocks of transactions followed by the per-block passes. */
module LedgerRuns {
  import opened Amounts
  import opened Sums
  import opened LedgerState
  import opened Evaluators
  import opened Economist
  import opened LedgerInvariant
  import opened LedgerKeeps
  import opened DelegationKeeps
  import opened ContractKeeps
  import opened MintKeeps
  import opened PassKeeps
  import opened CashoutKeeps
  import opened BlockPassKeeps
  import opened BonusKeeps
  import opened VestMoves

  // ----- operations -----

  /** What is missing after an operation: a contract's vest payment to a voter skips the vote
      index. */
  function OpDebt(s: State, op: Op, d: Debt): Debt {
    if op.ContractToUserVest? then VestDebt(s, op.to, op.amount, d) else d
  }

  /** A contract may pay vest to an account that does not vote. */
  predicate SafeOp(s: State, op: Op) {
    op.ContractToUserVest? ==> op.amount == 0 || op.to !in s.votes
  }

  lemma TransferOpKeeps(s: State, op: Op, d: Debt)
    requires Holds(s, d) && ApplyOp(s, op).Ok?
    requires op.AccountCreate? || op.Transfer? || op.TransferToVest? || op.ConvertVest? || op.Stake? || op.UnStake?
    ensures Holds(ApplyOp(s, op).value, d)
  {
    hide Holds, ApplyAccountCreate, ApplyTransfer, ApplyTransferToVest, ApplyConvertVest, ApplyStake, ApplyUnStake;
    match op
    case AccountCreate(c, f, n, k) => AccountCreateKeeps(s, c, f, n, k, d);
    case Transfer(f, t, a) => TransferKeeps(s, f, t, a, d);
    case TransferToVest(f, t, a) => TransferToVestKeeps(s, f, t, a, d);
    case ConvertVest(f, a) => ConvertVestKeeps(s, f, a, d);
    case Stake(f, t, a) => StakeKeeps(s, f, t, a, d);
    case UnStake(c, b, a) => UnStakeKeeps(s, c, b, a, d);
  }

  lemma VoteOpKeeps(s: State, op: Op, d: Debt)
    requires Holds(s, d) && ApplyOp(s, op).Ok?
    requires op.BpRegister? || op.BpEnable? || op.BpVote? || op.AcquireTicket? || op.VoteByTicket?
             || op.DelegateVest? || op.UnDelegateVest? || op.SetReputation?
    ensures Holds(ApplyOp(s, op).value, d)
  {
    hide Holds, ApplyBpRegister, ApplyBpEnable, ApplyBpVote, ApplyAcquireTicket, ApplyVoteByTicket,
         ApplyDelegateVest, ApplyUnDelegateVest, ApplySetReputation;
    match op
    case BpRegister(o, r) => BpRegisterKeeps(s, o, r, d);
    case BpEnable(o, c) => BpEnableKeeps(s, o, c, d);
    case BpVote(v, p, c) => BpVoteKeeps(s, v, p, c, d);
    case AcquireTicket(n, c, r) => AcquireTicketKeeps(s, n, c, r, d);
    case VoteByTicket(n, c, f, p) => VoteByTicketKeeps(s, n, c, f, p, d);
    case DelegateVest(f, t, a, e) => DelegateVestKeeps(s, f, t, a, e, d);
    case UnDelegateVest(n, o) => UnDelegateVestKeeps(s, n, o, d);
    case SetReputation(n, v) => SetReputationKeeps(s, n, v, d);
  }

  lemma ContractOpKeeps(s: State, op: Op, d: Debt)
    requires Holds(s, d) && d.lost >= 0 && ApplyOp(s, op).Ok?
    requires op.ContractDeploy? || op.ContractToUser? || op.ContractToUserVest? || op.UserToContract?
             || op.ContractToContract?
    ensures Holds(ApplyOp(s, op).value, OpDebt(s, op, d))
  {
    hide Holds, ApplyContractDeploy, ApplyContractToUser, ApplyContractToUserVest, ApplyUserToContract,
         ApplyContractToContract, VestDebt;
    match op
    case ContractDeploy(id, ok) => ContractDeployKeeps(s, id, ok, d);
    case ContractToUser(c, t, a) => ContractToUserKeeps(s, c, t, a, d);
    case ContractToUserVest(c, t, a) => ContractToUserVestKeeps(s, c, t, a, d);
    case UserToContract(f, c, a, ok) => UserToContractKeeps(s, f, c, a, ok, d);
    case ContractToContract(f, t, a) => ContractToContractKeeps(s, f, t, a, d);
  }

  /** Every operation that succeeds keeps the sums and the books, whatever the vote index looks
      like, and the index but for what a contract pays to a voter. */
  lemma OpKeeps(s: State, op: Op, d: Debt)
    requires Holds(s, d) && d.lost >= 0 && ApplyOp(s, op).Ok?
    ensures Holds(ApplyOp(s, op).value, OpDebt(s, op, d))
  {
    hide Holds, ApplyOp;
    if op.ContractDeploy? || op.ContractToUser? || op.ContractToUserVest? || op.UserToContract?
       || op.ContractToContract? {
      ContractOpKeeps(s, op, d);
    } else if op.AccountCreate? || op.Transfer? || op.TransferToVest? || op.ConvertVest? || op.Stake? || op.UnStake? {
      TransferOpKeeps(s, op, d);
    } else {
      VoteOpKeeps(s, op, d);
    }
  }

  /** A right index stays right exactly when the operation is not such a payment. */
  lemma OpKeepsIndex(s: State, op: Op)
    requires Inv(s) && ApplyOp(s, op).Ok?
    ensures Inv(ApplyOp(s, op).value) <==> SafeOp(s, op)
  {
    hide Holds, ApplyOp, VestDebt;
    OpKeeps(s, op, NO_DEBT);
    if op.ContractToUserVest? {
      VestPayment(s, op);
    }
  }

  lemma VestPayment(s: State, op: Op)
    requires Inv(s) && op.ContractToUserVest? && ApplyOp(s, op).Ok?
    ensures Inv(ApplyOp(s, op).value) <==> SafeOp(s, op)
  {
    hide Inv, ApplyContractToUserVest;
    ContractToUserVestIndex(s, op.contract, op.to, op.amount);
  }

  // ----- what operations leave alone -----

  /** The fields that only the block passes write; producers are never removed. */
  ghost predicate OpFrame(s: State, t: State) {
    && t.schedule == s.schedule && s.producers.Keys <= t.producers.Keys
    && t.props.head == s.props.head && t.props.year == s.props.year && t.props.producer == s.props.producer
    && t.props.bootCompleted == s.props.bootCompleted
  }

  lemma UpdateVoteFrame(s: State, voter: Name, oldVest: U64, newVest: U64)
    requires UpdateBpVoteValue(s, voter, oldVest, newVest).Ok?
    ensures OpFrame(s, UpdateBpVoteValue(s, voter, oldVest, newVest).value)
    ensures UpdateBpVoteValue(s, voter, oldVest, newVest).value.accounts == s.accounts
  {
  }

  lemma LendFrame(s: State, id: U64, o: Order)
    requires Lend(s, id, o).Ok?
    ensures OpFrame(s, Lend(s, id, o).value)
  {
    hide UpdateBpVoteValue;
    var a := s.accounts[o.from];
    var s0 := s.(orderCounter := id, orders := s.orders[id := o]);
    var a1 := a.(lent := Add(a.lent, o.amount).value, vest := Sub(a.vest, o.amount).value);
    UpdateVoteFrame(PutAccount(s0, o.from, a1), o.from, a.vest, a1.vest);
    var s1 := PutVest(s0, o.from, a1).value;
    var b := s1.accounts[o.to];
    var b1 := b.(borrowed := Add(b.borrowed, o.amount).value, vest := Add(b.vest, o.amount).value);
    UpdateVoteFrame(PutAccount(s1, o.to, b1), o.to, b.vest, b1.vest);
  }

  lemma RecallFrame(s: State, id: U64, o: Order)
    requires Recall(s, id, o).Ok?
    ensures OpFrame(s, Recall(s, id, o).value)
  {
    hide UpdateBpVoteValue;
    var a := s.accounts[o.from];
    var a1 := a.(lent := Sub(a.lent, o.amount).value, delivering := Add(a.delivering, o.amount).value);
    var s1 := s.(orders := s.orders[id := o], accounts := s.accounts[o.from := a1]);
    var b := s1.accounts[o.to];
    var b1 := b.(borrowed := Sub(b.borrowed, o.amount).value, vest := Sub(b.vest, o.amount).value);
    UpdateVoteFrame(PutAccount(s1, o.to, b1), o.to, b.vest, b1.vest);
  }

  lemma DelegationFrames(s: State, op: Op)
    requires (op.TransferToVest? || op.DelegateVest? || op.UnDelegateVest?) && ApplyOp(s, op).Ok?
    ensures OpFrame(s, ApplyOp(s, op).value)
  {
    hide UpdateBpVoteValue, Lend, Recall, ApplyAccountCreate, ApplyTransfer, ApplyConvertVest, ApplyStake,
         ApplyUnStake, ApplyBpRegister, ApplyBpEnable, ApplyBpVote, ApplyAcquireTicket, ApplyVoteByTicket,
         ApplySetReputation, ApplyContractDeploy, ApplyContractToUser, ApplyContractToUserVest, ApplyUserToContract,
         ApplyContractToContract;
    match op
    case TransferToVest(f, t, a) =>
      var s1 := SubBalance(s, f, a).value;
      var v := Add(s1.accounts[t].vest, a).value;
      UpdateVoteFrame(PutAccount(s1, t, s1.accounts[t].(vest := v)), t, s1.accounts[t].vest, v);
    case DelegateVest(f, t, a, e) =>
      LendFrame(s, WrapAdd(s.orderCounter, 1),
                Order(f, t, a, WrapAdd(WrapAdd(s.props.head, 1), e), MAX_INT64, false));
    case UnDelegateVest(n, id) =>
      RecallFrame(s, id, s.orders[id].(delivering := true,
                                       delivery := WrapAdd(WrapAdd(s.props.head, 1),
                                                           VEST_DELEGATION_DELIVERY_IN_BLOCKS)));
  }

  lemma AccountFrames(s: State, op: Op)
    requires op.AccountCreate? || op.Transfer? || op.ConvertVest? || op.Stake? || op.UnStake?
    requires ApplyOp(s, op).Ok?
    ensures OpFrame(s, ApplyOp(s, op).value)
  {
    hide KeyInUse, ApplyTransferToVest, ApplyDelegateVest, ApplyUnDelegateVest, ApplyBpRegister, ApplyBpEnable,
         ApplyBpVote, ApplyAcquireTicket, ApplyVoteByTicket, ApplySetReputation, ApplyContractDeploy,
         ApplyContractToUser, ApplyContractToUserVest, ApplyUserToContract, ApplyContractToContract;
  }

  lemma SpendFrame(p: Props, used: U64)
    requires used <= p.chargedTicketsNum && SpendTickets(p, used).Ok?
    ensures var q := SpendTickets(p, used).value;
            q.head == p.head && q.year == p.year && q.producer == p.producer && q.bootCompleted == p.bootCompleted
  {
    hide Mul;
  }

  lemma ProducerFrames(s: State, op: Op)
    requires op.BpRegister? || op.BpEnable? || op.BpVote? || op.SetReputation?
    requires ApplyOp(s, op).Ok?
    ensures OpFrame(s, ApplyOp(s, op).value)
  {
    hide ApplyAcquireTicket, ApplyVoteByTicket, ApplyAccountCreate, ApplyTransfer, ApplyConvertVest, ApplyStake,
         ApplyUnStake, ApplyTransferToVest, ApplyDelegateVest, ApplyUnDelegateVest, ApplyContractDeploy,
         ApplyContractToUser, ApplyContractToUserVest, ApplyUserToContract, ApplyContractToContract;
  }

  lemma TicketFrames(s: State, op: Op)
    requires (op.AcquireTicket? || op.VoteByTicket?) && ApplyOp(s, op).Ok?
    ensures OpFrame(s, ApplyOp(s, op).value)
  {
    hide SpendTickets, Mul, ApplyBpRegister, ApplyBpEnable, ApplyBpVote, ApplySetReputation, ApplyAccountCreate,
         ApplyTransfer, ApplyConvertVest, ApplyStake, ApplyUnStake, ApplyTransferToVest, ApplyDelegateVest,
         ApplyUnDelegateVest, ApplyContractDeploy, ApplyContractToUser, ApplyContractToUserVest, ApplyUserToContract,
         ApplyContractToContract;
    if op.VoteByTicket? {
      SpendFrame(s.props, if op.freeTicket then op.count - 1 else op.count);
    }
  }

  lemma ContractFrames(s: State, op: Op)
    requires op.ContractDeploy? || op.ContractToUser? || op.ContractToUserVest? || op.UserToContract?
             || op.ContractToContract?
    requires ApplyOp(s, op).Ok?
    ensures OpFrame(s, ApplyOp(s, op).value)
  {
    hide ApplyAccountCreate, ApplyTransfer, ApplyConvertVest, ApplyStake, ApplyUnStake, ApplyTransferToVest,
         ApplyDelegateVest, ApplyUnDelegateVest, ApplyBpRegister, ApplyBpEnable, ApplyBpVote, ApplyAcquireTicket,
         ApplyVoteByTicket, ApplySetReputation;
  }

  lemma OpFrames(s: State, op: Op)
    requires ApplyOp(s, op).Ok?
    ensures OpFrame(s, ApplyOp(s, op).value)
  {
    hide ApplyOp, OpFrame;
    if op.TransferToVest? || op.DelegateVest? || op.UnDelegateVest? {
      DelegationFrames(s, op);
    } else if op.AccountCreate? || op.Transfer? || op.ConvertVest? || op.Stake? || op.UnStake? {
      AccountFrames(s, op);
    } else if op.ContractDeploy? || op.ContractToUser? || op.ContractToUserVest? || op.UserToContract?
              || op.ContractToContract? {
      ContractFrames(s, op);
    } else if op.AcquireTicket? || op.VoteByTicket? {
      TicketFrames(s, op);
    } else {
      ProducerFrames(s, op);
    }
  }

  // ----- transactions -----

  function OpsDebt(s: State, ops: seq<Op>, d: Debt): Debt {
    if ops == [] then d
    else
      var init := ops[..|ops| - 1];
      match ApplyOps(s, init)
      case Ok(t) => OpDebt(t, ops[|ops| - 1], OpsDebt(s, init, d))
      case Panic => d
  }

  /** Operations touch neither what is lost nor what is noted. */
  lemma {:induction false} OpsDebtDrift(s: State, ops: seq<Op>, d: Debt)
    ensures OpsDebt(s, ops, d) == d.(drift := OpsDebt(s, ops, d).drift)
  {
    hide ApplyOps;
    if ops != [] {
      OpsDebtDrift(s, ops[..|ops| - 1], d);
    }
  }

  lemma {:induction false} OpsKeep(s: State, ops: seq<Op>, d: Debt)
    requires Holds(s, d) && d.lost >= 0 && ApplyOps(s, ops).Ok?
    ensures Holds(ApplyOps(s, ops).value, OpsDebt(s, ops, d)) && OpFrame(s, ApplyOps(s, ops).value)
  {
    hide Holds, ApplyOp, OpDebt;
    if ops != [] {
      var init := ops[..|ops| - 1];
      OpsKeep(s, init, d);
      OpsDebtDrift(s, init, d);
      OpKeeps(ApplyOps(s, init).value, ops[|ops| - 1], OpsDebt(s, init, d));
      OpFrames(ApplyOps(s, init).value, ops[|ops| - 1]);
    }
  }

  function TransactionsDebt(s: State, trxs: seq<seq<Op>>, d: Debt): Debt {
    if trxs == [] then d
    else
      var init, last := trxs[..|trxs| - 1], trxs[|trxs| - 1];
      var t, e := ApplyTransactions(s, init), TransactionsDebt(s, init, d);
      if ApplyOps(t, last).Ok? then OpsDebt(t, last, e) else e
  }

  lemma {:induction false} TransactionsDebtDrift(s: State, trxs: seq<seq<Op>>, d: Debt)
    ensures TransactionsDebt(s, trxs, d) == d.(drift := TransactionsDebt(s, trxs, d).drift)
  {
    hide ApplyOps, OpsDebt, ApplyTransactions;
    if trxs != [] {
      var init, last := trxs[..|trxs| - 1], trxs[|trxs| - 1];
      TransactionsDebtDrift(s, init, d);
      OpsDebtDrift(ApplyTransactions(s, init), last, TransactionsDebt(s, init, d));
    }
  }

  /** A transaction that panics changes nothing; one that succeeds keeps the books. */
  lemma {:induction false} TransactionsKeep(s: State, trxs: seq<seq<Op>>, d: Debt)
    requires Holds(s, d) && d.lost >= 0
    ensures Holds(ApplyTransactions(s, trxs), TransactionsDebt(s, trxs, d)) && OpFrame(s, ApplyTransactions(s, trxs))
  {
    hide Holds, ApplyOps, OpsDebt;
    if trxs != [] {
      var init := trxs[..|trxs| - 1];
      var t := ApplyTransactions(s, init);
      TransactionsKeep(s, init, d);
      TransactionsDebtDrift(s, init, d);
      if ApplyOps(t, trxs[|trxs| - 1]).Ok? {
        OpsKeep(t, trxs[|trxs| - 1], TransactionsDebt(s, init, d));
      }
    }
  }

  // ----- transactions that leave the index alone -----

  predicate SafeOps(s: State, ops: seq<Op>) {
    ops == []
    || (var init := ops[..|ops| - 1];
        SafeOps(s, init) && (ApplyOps(s, init).Ok? ==> SafeOp(ApplyOps(s, init).value, ops[|ops| - 1])))
  }

  lemma {:induction false} SafeOpsDebt(s: State, ops: seq<Op>, d: Debt)
    requires SafeOps(s, ops)
    ensures OpsDebt(s, ops, d) == d
  {
    hide ApplyOps;
    if ops != [] {
      SafeOpsDebt(s, ops[..|ops| - 1], d);
    }
  }

  predicate SafeTransactions(s: State, trxs: seq<seq<Op>>) {
    trxs == []
    || (var init := trxs[..|trxs| - 1];
        SafeTransactions(s, init) && SafeOps(ApplyTransactions(s, init), trxs[|trxs| - 1]))
  }

  lemma {:induction false} SafeDebt(s: State, trxs: seq<seq<Op>>, d: Debt)
    requires SafeTransactions(s, trxs)
    ensures TransactionsDebt(s, trxs, d) == d
  {
    hide ApplyOps, ApplyTransactions, SafeOps, OpsDebt;
    if trxs != [] {
      var init := trxs[..|trxs| - 1];
      SafeDebt(s, init, d);
      SafeOpsDebt(ApplyTransactions(s, init), trxs[|trxs| - 1], d);
    }
  }

  // ----- blocks -----

  /** A block that ends a production round brings a new schedule and new parameters. */
  datatype Round = SameRound | NewRound(schedule: seq<Name>, accountCreateFee: U64, perTicketPrice: U64)

  /** A block, with what the tables outside this model contribute to it: the posts, replies
      and votes that fall due, and the order in which the sorted indexes list rows. */
  datatype Block = Block(producer: Name, trxs: seq<seq<Op>>, round: Round,
                         posts: seq<Item>, replies: seq<Item>, dapps: seq<Item>, votes: seq<Item>,
                         poweredDown: seq<Name>, delivered: seq<U64>)

  /** `updateGlobalProperties`. */
  function Advance(s: State, producer: Name): State {
    s.(props := s.props.(head := WrapAdd(s.props.head, 1), producer := producer))
  }

  /** `shuffle`, then `updateGlobalResourceParam`. */
  function StartRound(s: State, round: Round): State {
    match round
    case SameRound => s
    case NewRound(schedule, fee, price) =>
      var t := ShareTicketBonus(s);
      t.(schedule := schedule, props := t.props.(accountCreateFee := fee, perTicketPrice := price))
  }

  /** `updateGlobalBpBootMark`. */
  function BootMark(s: State, initminer: Name): State {
    if s.props.bootCompleted || s.schedule == [initminer] then s
    else
      var t := s.(props := s.props.(bootCompleted := true));
      if initminer in t.producers
      then t.(producers := t.producers[initminer := t.producers[initminer].(active := false)]) else t
  }

  /** The block up to its economist passes. */
  function BeforePasses(s: State, b: Block): State {
    StartRound(Advance(ApplyTransactions(s, b.trxs), b.producer), b.round)
  }

  function UpToCashout(s: State, b: Block): Result<State> {
    var t :- Mint(BeforePasses(s, b));
    Do(t, b.posts, b.replies, b.dapps, b.votes)
  }

  function UpToPowerDown(s: State, b: Block): Result<State> {
    var t :- UpToCashout(s, b);
    PowerDown(t, b.poweredDown)
  }

  function ApplyBlock(s: State, b: Block, initminer: Name): Result<State> {
    var t :- UpToPowerDown(s, b);
    var u :- Deliver(t, b.delivered);
    Ok(BootMark(u, initminer))
  }

  /** What is missing once the block has been applied. */
  function BlockDebt(s: State, b: Block, d: Debt): Debt {
    var e := TransactionsDebt(s, b.trxs, d);
    if b.round.SameRound? then e else BonusDebt(Sharing(s, b), e)
  }

  /** The state in which a block that ends a round shares out the bonus. */
  function Sharing(s: State, b: Block): State {
    Advance(ApplyTransactions(s, b.trxs), b.producer)
  }

  /** `list` holds each element of `rows` once. */
  ghost predicate Lists<T>(list: seq<T>, rows: set<T>) {
    && Distinct(list) && (forall i :: 0 <= i < |list| ==> list[i] in rows) && rows == set i | 0 <= i < |list| :: list[i]
  }

  /** A block the consensus lets through: signed by a registered producer, scheduling
      registered producers, and before the 32-bit year number or the 63-bit block number run
      out.  The sorted indexes list the rows that are due. */
  ghost predicate BlockOk(s: State, b: Block) {
    && b.producer in s.producers
    && (b.round.NewRound? ==>
          forall i :: 0 <= i < |b.round.schedule| ==> b.round.schedule[i] in Sharing(s, b).producers)
    && s.props.year.ith < TWO_32 - 1 && s.props.head + 1 < MAX_INT64
    && (UpToCashout(s, b).Ok? && UpToCashout(s, b).value.props.bootCompleted ==>
          Lists(b.poweredDown, PowerDownDue(UpToCashout(s, b).value)))
    && (UpToPowerDown(s, b).Ok? && UpToPowerDown(s, b).value.props.bootCompleted ==>
          Lists(b.delivered, DeliveryDue(UpToPowerDown(s, b).value)))
  }

  lemma PropsKeep(s: State, schedule: seq<Name>, p: Props, d: Debt)
    requires Holds(s, d) && forall i :: 0 <= i < |schedule| ==> schedule[i] in s.producers
    requires p == s.props.(head := p.head, producer := p.producer, bootCompleted := p.bootCompleted,
                           accountCreateFee := p.accountCreateFee, perTicketPrice := p.perTicketPrice)
    ensures Holds(s.(schedule := schedule, props := p), d)
  {
    hide Sum, StakesOk, OrdersOk, LimitsOk, TallyOk, CountsOk, VotersOk, Minted, MintOk;
  }

  lemma ScheduleOk(s: State, d: Debt)
    requires Holds(s, d)
    ensures forall i :: 0 <= i < |s.schedule| ==> s.schedule[i] in s.producers
  {
    hide Money, StakesOk, OrdersOk, LimitsOk, IndexOk;
  }

  lemma SharingKeeps(s: State, b: Block, d: Debt)
    requires Holds(s, d) && d.lost >= 0 && BlockOk(s, b)
    ensures var t := Sharing(s, b);
            && Holds(t, TransactionsDebt(s, b.trxs, d)) && TransactionsDebt(s, b.trxs, d).lost == d.lost
            && TransactionsDebt(s, b.trxs, d).noted == d.noted && s.producers.Keys <= t.producers.Keys
            && t.props.year == s.props.year && t.props.head == s.props.head + 1 && t.props.producer in t.producers
            && t.props.bootCompleted == s.props.bootCompleted
  {
    hide Holds, ApplyTransactions, TransactionsDebt, UpToCashout, UpToPowerDown, Lists;
    TransactionsKeep(s, b.trxs, d);
    TransactionsDebtDrift(s, b.trxs, d);
    var s1, e := ApplyTransactions(s, b.trxs), TransactionsDebt(s, b.trxs, d);
    ScheduleOk(s1, e);
    PropsKeep(s1, s1.schedule, Sharing(s, b).props, e);
  }

  lemma BeforePassesKeeps(s: State, b: Block, d: Debt)
    requires Holds(s, d) && d.lost >= 0 && BlockOk(s, b)
    ensures var t, e := BeforePasses(s, b), BlockDebt(s, b, d);
            && Holds(t, e) && e.lost >= d.lost && e.noted == d.noted && t.props.producer in t.producers
            && t.props.year == s.props.year && t.props.head == s.props.head + 1
            && t.props.bootCompleted == s.props.bootCompleted
  {
    hide Holds, ApplyTransactions, TransactionsDebt, ShareTicketBonus, UpToCashout, UpToPowerDown, Lists, Sharing, BonusDebt,
         Covered, BonusMoves;
    SharingKeeps(s, b, d);
    var t, e := Sharing(s, b), TransactionsDebt(s, b.trxs, d);
    assert Advance(ApplyTransactions(s, b.trxs), b.producer) == t by { SharingIs(s, b); }
    if b.round.NewRound? {
      ShareTicketBonusKeeps(t, e);
      BonusLossIff(t, e);
      PropsKeep(ShareTicketBonus(t), b.round.schedule, BeforePasses(s, b).props, BonusDebt(t, e));
    }
  }

  lemma SharingIs(s: State, b: Block)
    ensures Sharing(s, b) == Advance(ApplyTransactions(s, b.trxs), b.producer)
  {
  }

  lemma BootMarkKeeps(s: State, initminer: Name, d: Debt)
    requires Holds(s, d)
    ensures Holds(BootMark(s, initminer), d)
  {
    hide Holds;
    ScheduleOk(s, d);
    PropsKeep(s, s.schedule, s.props.(bootCompleted := true), d);
    var t := s.(props := s.props.(bootCompleted := true));
    if initminer in t.producers {
      ActiveKeeps(t, initminer, false, d);
    }
  }

  // ----- when a block is discarded -----

  /** The instalments and deliveries of a block, none before the first producers take over. */
  function InstalmentsOf(s: State, b: Block): seq<Move> {
    if s.props.bootCompleted then PowerDownMoves(s, b.poweredDown) else []
  }

  ghost function DeliveriesOf(s: State, b: Block): seq<Move>
    requires s.props.bootCompleted ==> Lists(b.delivered, DeliveryDue(s))
  {
    if s.props.bootCompleted then DeliverMoves(s, b.delivered) else []
  }

  /** No change of vest by the passes of the block meets a stale vote. */
  ghost predicate Survives(s: State, b: Block)
    requires BlockOk(s, b)
  {
    var t := BeforePasses(s, b);
    && Covered(t, MintMoves(t))
    && (Mint(t).Ok? ==> Covered(Mint(t).value, DoMoves(Mint(t).value, b.posts, b.replies, b.dapps, b.votes)))
    && (UpToCashout(s, b).Ok? ==> Covered(UpToCashout(s, b).value, InstalmentsOf(UpToCashout(s, b).value, b)))
    && (UpToPowerDown(s, b).Ok? ==> Covered(UpToPowerDown(s, b).value, DeliveriesOf(UpToPowerDown(s, b).value, b)))
  }

  lemma BlockBounds(s: State, b: Block)
    requires BlockOk(s, b)
    ensures s.props.year.ith < TWO_32 - 1 && s.props.head + 1 < MAX_INT64
  {
    hide UpToCashout, UpToPowerDown, Lists;
  }

  lemma CashoutStepIff(s: State, b: Block, d: Debt)
    requires Holds(s, d) && d.lost >= 0 && d.noted == 0 && BlockOk(s, b)
    ensures var t := BeforePasses(s, b);
            UpToCashout(s, b).Ok? <==>
              Covered(t, MintMoves(t))
              && (Mint(t).Ok? ==> Covered(Mint(t).value, DoMoves(Mint(t).value, b.posts, b.replies, b.dapps, b.votes)))
    ensures UpToCashout(s, b).Ok? ==>
              var u := UpToCashout(s, b).value;
              Holds(u, BlockDebt(s, b, d)) && u.props.head == s.props.head + 1
  {
    hide Holds, BeforePasses, Mint, Do, BlockOk, BlockDebt, Covered, Moved, DoMoves, MintMoves, MintYear;
    assert s.props.year.ith < TWO_32 - 1 by { BlockBounds(s, b); }
    BeforePassesKeeps(s, b, d);
    var t, e := BeforePasses(s, b), BlockDebt(s, b, d);
    MintIff(t, e);
    if Mint(t).Ok? {
      DoIff(Mint(t).value, b.posts, b.replies, b.dapps, b.votes, e);
    }
  }

  lemma PowerDownStepIff(s: State, b: Block, d: Debt)
    requires Holds(s, d) && d.lost >= 0 && d.noted == 0 && BlockOk(s, b) && UpToCashout(s, b).Ok?
    ensures UpToPowerDown(s, b).Ok? <==> Covered(UpToCashout(s, b).value, InstalmentsOf(UpToCashout(s, b).value, b))
    ensures UpToPowerDown(s, b).Ok? ==>
              var u := UpToPowerDown(s, b).value;
              Holds(u, BlockDebt(s, b, d)) && u.props.head == s.props.head + 1
  {
    hide Holds, UpToCashout, PowerDownAll, BlockDebt, Covered, Moved, PowerDownMoves, BeforePasses;
    CashoutStepIff(s, b, d);
    BeforePassesKeeps(s, b, d);
    var t := UpToCashout(s, b).value;
    MovedNone(t);
    if t.props.bootCompleted {
      PowerDownAllIff(t, b.poweredDown, BlockDebt(s, b, d));
    }
  }

  lemma DeliverStepIff(s: State, b: Block, d: Debt)
    requires Holds(s, d) && d.lost >= 0 && d.noted == 0 && BlockOk(s, b) && UpToPowerDown(s, b).Ok?
    ensures var t := UpToPowerDown(s, b).value;
            && (Deliver(t, b.delivered).Ok? <==> Covered(t, DeliveriesOf(t, b)))
            && (Deliver(t, b.delivered).Ok? ==> Holds(Deliver(t, b.delivered).value, BlockDebt(s, b, d)))
  {
    hide Holds, UpToCashout, UpToPowerDown, DeliverAll, BlockDebt, Covered, Moved, BeforePasses;
    assert UpToCashout(s, b).Ok? by { PowerDownAfterCashout(s, b); }
    PowerDownStepIff(s, b, d);
    BeforePassesKeeps(s, b, d);
    var t, e := UpToPowerDown(s, b).value, BlockDebt(s, b, d);
    MovedNone(t);
    if t.props.bootCompleted {
      HoldsRecords(t, e);
      forall i | 0 <= i < |b.delivered|
        ensures b.delivered[i] in t.orders && t.orders[b.delivered[i]].delivering
      {
        assert b.delivered[i] in DeliveryDue(t);
        DueIsRecalled(t, b.delivered[i]);
      }
      DeliverAllIff(t, b.delivered, e);
    }
  }

  lemma PowerDownAfterCashout(s: State, b: Block)
    requires UpToPowerDown(s, b).Ok?
    ensures UpToCashout(s, b).Ok?
  {
    hide UpToCashout, PowerDown;
  }

  /** A block is discarded exactly when a pass meets a stale vote.  Otherwise it keeps the
      books, but for what its transactions and its bonus leave out. */
  lemma BlockIff(s: State, b: Block, initminer: Name, d: Debt)
    requires Holds(s, d) && d.lost >= 0 && d.noted == 0 && BlockOk(s, b)
    ensures ApplyBlock(s, b, initminer).Ok? <==> Survives(s, b)
    ensures ApplyBlock(s, b, initminer).Ok? ==> Holds(ApplyBlock(s, b, initminer).value, BlockDebt(s, b, d))
    ensures BlockDebt(s, b, d).lost >= d.lost && BlockDebt(s, b, d).noted == 0
  {
    hide Holds, UpToCashout, UpToPowerDown, Deliver, BootMark, BlockDebt, Covered, BlockOk, BeforePasses, Mint, DoMoves,
         MintMoves, InstalmentsOf, DeliveriesOf;
    BeforePassesKeeps(s, b, d);
    CashoutStepIff(s, b, d);
    CashoutBeforePowerDown(s, b);
    if UpToCashout(s, b).Ok? {
      PowerDownStepIff(s, b, d);
      if UpToPowerDown(s, b).Ok? {
        DeliverStepIff(s, b, d);
        var t := UpToPowerDown(s, b).value;
        if Deliver(t, b.delivered).Ok? {
          BootMarkKeeps(Deliver(t, b.delivered).value, initminer, BlockDebt(s, b, d));
        }
      }
    }
  }

  lemma CashoutBeforePowerDown(s: State, b: Block)
    ensures UpToPowerDown(s, b).Ok? ==> UpToCashout(s, b).Ok?
  {
    hide UpToCashout, PowerDown;
  }

  // ----- runs -----

  /** A block that panics leaves the state as it was. */
  function Run(s: State, blocks: seq<Block>, initminer: Name): State {
    if blocks == [] then s
    else
      var t := Run(s, blocks[..|blocks| - 1], initminer);
      match ApplyBlock(t, blocks[|blocks| - 1], initminer)
      case Ok(u) => u
      case Panic => t
  }

  ghost predicate RunOk(s: State, blocks: seq<Block>, initminer: Name) {
    blocks == []
    || (var init := blocks[..|blocks| - 1];
        RunOk(s, init, initminer) && BlockOk(Run(s, init, initminer), blocks[|blocks| - 1]))
  }

  /** What is missing after a run. */
  function RunDebt(s: State, blocks: seq<Block>, initminer: Name, d: Debt): Debt {
    if blocks == [] then d
    else
      var init, b := blocks[..|blocks| - 1], blocks[|blocks| - 1];
      var t, e := Run(s, init, initminer), RunDebt(s, init, initminer, d);
      if ApplyBlock(t, b, initminer).Ok? then BlockDebt(t, b, e) else e
  }

  /** The books hold over every run, whatever contracts pay to whom, but for the debt; what is
      lost only grows. */
  lemma {:induction false} RunKeeps(s: State, blocks: seq<Block>, initminer: Name, d: Debt)
    requires Holds(s, d) && d.lost >= 0 && d.noted == 0 && RunOk(s, blocks, initminer)
    ensures Holds(Run(s, blocks, initminer), RunDebt(s, blocks, initminer, d))
    ensures RunDebt(s, blocks, initminer, d).lost >= d.lost && RunDebt(s, blocks, initminer, d).noted == 0
  {
    hide Holds, ApplyBlock, BlockOk, BlockDebt, Survives;
    if blocks != [] {
      var init := blocks[..|blocks| - 1];
      RunKeeps(s, init, initminer, d);
      BlockIff(Run(s, init, initminer), blocks[|blocks| - 1], initminer, RunDebt(s, init, initminer, d));
    }
  }

  /** The bonus of a block that ends a round is handed out in full: no producer before the last
      one paid has a stale vote. */
  predicate BonusReached(s: State, b: Block) {
    b.round.NewRound? ==> Covered(Sharing(s, b), ButLast(BonusMoves(Sharing(s, b))))
  }

  ghost predicate NothingDropped(s: State, blocks: seq<Block>, initminer: Name) {
    blocks == []
    || (var init, b := blocks[..|blocks| - 1], blocks[|blocks| - 1];
        var t := Run(s, init, initminer);
        NothingDropped(s, init, initminer) && (ApplyBlock(t, b, initminer).Ok? ==> BonusReached(t, b)))
  }

  lemma BlockLossIff(s: State, b: Block, d: Debt)
    ensures BlockDebt(s, b, d).lost == d.lost <==> BonusReached(s, b)
  {
    hide Covered, BonusDebt, BonusMoves, TransactionsDebt, Sharing;
    TransactionsDebtDrift(s, b.trxs, d);
    BonusLossIff(Sharing(s, b), TransactionsDebt(s, b.trxs, d));
  }

  /** A run loses nothing exactly when every bonus it shares out reaches its producers. */
  lemma {:induction false} RunLossIff(s: State, blocks: seq<Block>, initminer: Name, d: Debt)
    requires Holds(s, d) && d.lost >= 0 && d.noted == 0 && RunOk(s, blocks, initminer)
    ensures RunDebt(s, blocks, initminer, d).lost == d.lost <==> NothingDropped(s, blocks, initminer)
  {
    hide Holds, ApplyBlock, BlockOk, BlockDebt, BonusReached, Survives;
    if blocks != [] {
      var init, b := blocks[..|blocks| - 1], blocks[|blocks| - 1];
      RunLossIff(s, init, initminer, d);
      RunKeeps(s, init, initminer, d);
      BlockIff(Run(s, init, initminer), b, initminer, RunDebt(s, init, initminer, d));
      BlockLossIff(Run(s, init, initminer), b, RunDebt(s, init, initminer, d));
    }
  }

  lemma {:induction false} RunOkPrefix(s: State, blocks: seq<Block>, initminer: Name, n: nat)
    requires RunOk(s, blocks, initminer) && n <= |blocks|
    ensures RunOk(s, blocks[..n], initminer)
    ensures n < |blocks| ==> BlockOk(Run(s, blocks[..n], initminer), blocks[n])
  {
    hide BlockOk, Run;
    if n == |blocks| {
      assert blocks[..n] == blocks;
    } else {
      var init := blocks[..|blocks| - 1];
      assert init[..n] == blocks[..n];
      RunOkPrefix(s, init, initminer, n);
    }
  }

  lemma GenesisOk(initminer: Name, key: PubKey, fee: U64, price: U64)
    ensures Inv(Genesis(initminer, key, fee, price))
  {
    var s := Genesis(initminer, key, fee, price);
    assert s.accounts - {initminer} == map[];
    SumRemove(s.accounts, BalanceOf, (), initminer);
    SumRemove(s.accounts, VestOf, (), initminer);
    SumRemove(s.accounts, DeliveringOf, (), initminer);
    assert ClosedBudget(1) == 0;
  }

  /** Every finite set of rows can be listed. */
  lemma {:induction false} SomeList<T>(rows: set<T>) returns (list: seq<T>)
    ensures Lists(list, rows)
    decreases |rows|
  {
    list := [];
    if rows != {} {
      var x :| x in rows;
      var rest := SomeList(rows - {x});
      list := rest + [x];
      assert forall y :: y in rows ==> y == x || y in rows - {x};
      forall y | y in rows
        ensures exists i :: 0 <= i < |list| && list[i] == y
      {
        if y == x {
          assert list[|rest|] == y;
        } else {
          var i :| 0 <= i < |rest| && rest[i] == y;
          assert list[i] == y;
        }
      }
    }
  }

  /** No run is stuck: whatever a registered producer puts into a block, the run can go on
      with it. */
  lemma RunGoesOn(s: State, b: Block) returns (next: Block)
    requires b.producer in s.producers
    requires b.round.NewRound? ==>
               forall i :: 0 <= i < |b.round.schedule| ==> b.round.schedule[i] in Sharing(s, b).producers
    requires s.props.year.ith < TWO_32 - 1 && s.props.head + 1 < MAX_INT64
    ensures BlockOk(s, next) && next == b.(poweredDown := next.poweredDown, delivered := next.delivered)
  {
    hide Mint, Do, PowerDown, BeforePasses, PowerDownDue, DeliveryDue, Lists;
    next := b;
    if UpToCashout(s, b).Ok? {
      var names := SomeList(PowerDownDue(UpToCashout(s, b).value));
      next := b.(poweredDown := names);
      SameBefore(s, b, next);
      if UpToPowerDown(s, next).Ok? {
        var ids := SomeList(DeliveryDue(UpToPowerDown(s, next).value));
        var last := next.(delivered := ids);
        SameBefore(s, next, last);
        next := last;
      }
    }
  }

  /** What is listed for the last two passes does not touch what comes before them. */
  lemma SameBefore(s: State, b: Block, c: Block)
    requires c == b.(poweredDown := c.poweredDown, delivered := c.delivered)
    ensures UpToCashout(s, c) == UpToCashout(s, b)
    ensures c.poweredDown == b.poweredDown ==> UpToPowerDown(s, c) == UpToPowerDown(s, b)
  {
    hide Mint, Do, PowerDown, StartRound, ApplyTransactions;
  }

  /** All coins and vest that accounts, contracts, records and pools hold. */
  ghost function Circulating(s: State): int {
    Sum(s.accounts, BalanceOf, ()) + Sum(s.contracts, ContractBalance, ()) + VestHeld(s) + s.props.ticketsIncome
  }

  /** Over every run from genesis: what circulates and what was lost add up to the initial
      supply plus what was minted, and never exceed the total supply, which is reached exactly
      when the twelfth year has closed.  Nothing is lost exactly when every bonus shared out
      reaches its producers. */
  lemma SupplyOverRuns(initminer: Name, key: PubKey, fee: U64, price: U64, blocks: seq<Block>)
    requires RunOk(Genesis(initminer, key, fee, price), blocks, initminer)
    ensures var g := Genesis(initminer, key, fee, price);
            var s, lost := Run(g, blocks, initminer), RunDebt(g, blocks, initminer, NO_DEBT).lost;
            && Records(s) && lost >= 0
            && Circulating(s) + lost == COS_INIT_SUPPLY + Minted(s.props.year) <= COS_TOTAL_SUPPLY
            && (Minted(s.props.year) == LIFETIME_BUDGET <==> s.props.year.ith > LAST_YEAR)
            && (lost == 0 <==> NothingDropped(g, blocks, initminer))
  {
    hide Records, IndexOk, Sum, MintOk, Minted, VestHeld, Run, RunOk, RunDebt, NothingDropped;
    var g := Genesis(initminer, key, fee, price);
    GenesisOk(initminer, key, fee, price);
    RunKeeps(g, blocks, initminer, NO_DEBT);
    RunLossIff(g, blocks, initminer, NO_DEBT);
    MintedBound(Run(g, blocks, initminer).props.year);
  }

  // ----- runs that leave the index alone -----

  ghost predicate SafeRun(s: State, blocks: seq<Block>, initminer: Name) {
    blocks == []
    || (var init := blocks[..|blocks| - 1];
        SafeRun(s, init, initminer) && SafeTransactions(Run(s, init, initminer), blocks[|blocks| - 1].trxs))
  }

  /** With a right index no pass can discard a block, and the index stays right. */
  lemma BlockSafe(s: State, b: Block, initminer: Name)
    requires Inv(s) && BlockOk(s, b) && SafeTransactions(s, b.trxs)
    ensures ApplyBlock(s, b, initminer).Ok? && Inv(ApplyBlock(s, b, initminer).value)
  {
    hide Holds, UpToCashout, UpToPowerDown, Deliver, BootMark, BlockOk, BeforePasses, Mint, SafeTransactions, Survives;
    assert BlockDebt(s, b, NO_DEBT) == NO_DEBT by { BlockNoDebt(s, b); }
    BlockIff(s, b, initminer, NO_DEBT);
    PassesGo(s, b);
  }

  lemma BlockNoDebt(s: State, b: Block)
    requires Inv(s) && BlockOk(s, b) && SafeTransactions(s, b.trxs)
    ensures BlockDebt(s, b, NO_DEBT) == NO_DEBT
  {
    hide Holds, BlockOk, TransactionsDebt, Sharing, SafeTransactions, BonusDebt, Covered, BonusMoves;
    SafeDebt(s, b.trxs, NO_DEBT);
    SharingKeeps(s, b, NO_DEBT);
    BonusExact(Sharing(s, b), NO_DEBT);
  }

  /** Payments are never stopped by a right index. */
  lemma PassesGo(s: State, b: Block)
    requires Inv(s) && BlockOk(s, b) && BlockDebt(s, b, NO_DEBT) == NO_DEBT
    ensures Survives(s, b)
  {
    hide Holds, UpToCashout, UpToPowerDown, BlockOk, BlockDebt, BeforePasses, Mint, DoMoves, MintMoves, Covered, Lists,
         InstalmentsOf, DeliveriesOf;
    var t := BeforePasses(s, b);
    BeforePassesKeeps(s, b, NO_DEBT);
    CashoutStepIff(s, b, NO_DEBT);
    MintGoes(t);
    if Mint(t).Ok? {
      assert s.props.year.ith < TWO_32 - 1 by { BlockBounds(s, b); }
      MintHolds(t);
      DoGoes(Mint(t).value, b);
    }
    if UpToCashout(s, b).Ok? {
      InstalmentsGo(s, b);
    }
    if UpToPowerDown(s, b).Ok? {
      DeliveriesGo(s, b);
    }
  }

  lemma MintHolds(t: State)
    requires Inv(t) && t.props.year.ith < TWO_32 - 1 && t.props.producer in t.producers && Mint(t).Ok?
    ensures Inv(Mint(t).value)
  {
    hide Holds, Mint, Covered, Moved, MintMoves, MintYear;
    MintIff(t, NO_DEBT);
  }

  lemma MintGoes(t: State)
    requires Inv(t)
    ensures Covered(t, MintMoves(t))
  {
    hide Money, Records, IndexOk, SplitMint, MintAmount, Covered;
    NothingStale(t, NO_DEBT, MintMoves(t));
  }

  lemma DoGoes(t: State, b: Block)
    requires Inv(t)
    ensures Covered(t, DoMoves(t, b.posts, b.replies, b.dapps, b.votes))
  {
    hide Money, Records, IndexOk, Covered, Decay, ItemMoves;
    var p := t.props;
    forall kind, items
      ensures Upward(CashoutMoves(Decayed(t), kind, items))
    {
      var pool := GetPool(Decayed(t).props, kind);
      ItemsUpward(t.accounts, items, pool.weightedVps + SumWvp(items), pool.rewards);
    }
    NothingStale(t, NO_DEBT, DoMoves(t, b.posts, b.replies, b.dapps, b.votes));
  }

  lemma {:induction false} ItemsUpward(m: map<Name, Account>, items: seq<Item>, weight: nat, pool: nat)
    ensures Upward(ItemMoves(m, items, weight, pool))
  {
    if items != [] {
      ItemsUpward(m, items[..|items| - 1], weight, pool);
    }
  }

  lemma InstalmentsGo(s: State, b: Block)
    requires Inv(s) && BlockOk(s, b) && BlockDebt(s, b, NO_DEBT) == NO_DEBT && UpToCashout(s, b).Ok?
    ensures Covered(UpToCashout(s, b).value, InstalmentsOf(UpToCashout(s, b).value, b))
  {
    hide Holds, UpToCashout, BlockDebt, BeforePasses, Covered, PowerDownMoves;
    CashoutStepIff(s, b, NO_DEBT);
    var t := UpToCashout(s, b).value;
    MovedNone(t);
    if t.props.bootCompleted {
      PowerDownAllGoes(t, b.poweredDown, NO_DEBT);
    }
  }

  lemma DeliveriesGo(s: State, b: Block)
    requires Inv(s) && BlockOk(s, b) && BlockDebt(s, b, NO_DEBT) == NO_DEBT && UpToPowerDown(s, b).Ok?
    ensures Covered(UpToPowerDown(s, b).value, DeliveriesOf(UpToPowerDown(s, b).value, b))
  {
    hide Holds, UpToCashout, UpToPowerDown, BlockDebt, BeforePasses, Covered;
    PowerDownAfterCashout(s, b);
    PowerDownStepIff(s, b, NO_DEBT);
    var t := UpToPowerDown(s, b).value;
    MovedNone(t);
    if t.props.bootCompleted {
      DeliveriesUpward(t, b.delivered);
      assert IndexOk(t, NO_DEBT.drift) by { HoldsIndex(t, NO_DEBT); }
      NothingStale(t, NO_DEBT, DeliverMoves(t, b.delivered));
    }
  }

  lemma {:induction false} DeliveriesUpward(s: State, ids: seq<U64>)
    requires forall i :: 0 <= i < |ids| ==> ids[i] in s.orders
    ensures Upward(DeliverMoves(s, ids))
  {
    if ids != [] {
      DeliveriesUpward(s, ids[..|ids| - 1]);
    }
  }

  /** Over runs without vest payments from contracts to voters everything is right, the vote
      index included, and no block is discarded. */
  lemma {:induction false} SafeRunKeeps(s: State, blocks: seq<Block>, initminer: Name)
    requires Inv(s) && RunOk(s, blocks, initminer) && SafeRun(s, blocks, initminer)
    ensures Inv(Run(s, blocks, initminer))
    ensures forall i :: 0 <= i < |blocks| ==> ApplyBlock(Run(s, blocks[..i], initminer), blocks[i], initminer).Ok?
  {
    hide Holds, ApplyBlock, BlockOk, SafeTransactions;
    if blocks != [] {
      var init := blocks[..|blocks| - 1];
      SafeRunKeeps(s, init, initminer);
      assert forall i :: 0 <= i < |init| ==> blocks[..i] == init[..i];
      BlockSafe(Run(s, init, initminer), blocks[|blocks| - 1], initminer);
    }
  }
}
