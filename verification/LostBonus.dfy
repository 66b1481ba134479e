/** A run of ten blocks from genesis that loses vest, made by the rule of the consensus.  Two
    producers take over at the end of the first round.  In the block that ends the second one
    votes for the other, a contract pays it vest, which its vote does not count, and tickets
    are spent; the loop that shares out their bonus stops at it. */
module LostBonus {
  import opened Amounts
  import opened Sums
  import opened LedgerState
  import opened Evaluators
  import opened Economist
  import opened LedgerInvariant
  import opened BonusKeeps
  import opened BlockPassKeeps
  import opened CashoutKeeps
  import opened PassKeeps
  import opened MintKeeps
  import opened VestMoves
  import opened LedgerRuns
  import opened Rounds

  /** The first producer of the chain, the two that follow it, their keys, and the contract. */
  datatype Cast = Cast(m: Name, p: Name, q: Name, mKey: PubKey, pKey: PubKey, qKey: PubKey, contract: ContractId)

  predicate Apart(c: Cast) {
    c.m != c.p && c.m != c.q && c.p != c.q && c.mKey != c.pKey && c.mKey != c.qKey && c.pKey != c.qKey
  }

  const FEE: U64 := DEFAULT_ACCOUNT_CREATE_FEE
  const PRICE: U64 := PER_TICKET_PRICE

  /** What a producer holds in the beginning, and what is left then to the first one. */
  const HELD: U64 := FEE + MIN_BP_REGISTER_VEST
  const LEFT: U64 := COS_INIT_SUPPLY - 2 * HELD

  function Row(balance: U64, vest: U64, tickets: U32, votes: U32, key: PubKey): Account {
    Account(balance, vest, 0, 0, 0, 0, 0, 0, 0, 0, MAX_UINT64, DEFAULT_REPUTATION, tickets, votes, key)
  }

  // ----- lists of transactions -----

  lemma OneMoreOp(s: State, ops: seq<Op>, t: State, op: Op)
    requires ApplyOps(s, ops) == Ok(t)
    ensures ApplyOps(s, ops + [op]) == ApplyOp(t, op)
  {
    hide ApplyOp;
    assert (ops + [op])[..|ops|] == ops;
  }

  lemma OneOp(s: State, op: Op)
    ensures ApplyOps(s, [op]) == ApplyOp(s, op)
  {
    hide ApplyOp;
    assert ApplyOps(s, []) == Ok(s);
    assert [] + [op] == [op];
    OneMoreOp(s, [], s, op);
  }

  lemma OneMoreTrx(s: State, trxs: seq<seq<Op>>, t: State, ops: seq<Op>)
    requires ApplyTransactions(s, trxs) == t && ApplyOps(t, ops).Ok?
    ensures ApplyTransactions(s, trxs + [ops]) == ApplyOps(t, ops).value
  {
    hide ApplyOps;
    assert (trxs + [ops])[..|trxs|] == trxs;
  }

  lemma NoTrx(s: State)
    ensures ApplyTransactions(s, []) == s
  {
  }

  // ----- the first round: two producers register -----

  /** Before the passes start, with `rows` and `producers`. */
  function Scene(c: Cast, rows: map<Name, Account>, producers: map<Name, Producer>, head: U64, cos: U64, vest: U64): State {
    var pool := Pool(0, 0, 2_000_000_000);
    State(rows, map[], producers, map[], map[], map[], 0, [c.m], map[],
          Props(head, c.m, false, cos, vest, 0, FEE, PRICE, 0, 0, 0, Year(1, 0, 0), pool, pool, pool, pool))
  }

  const FRESH := Producer(true, 0, 0, 0)

  function Create(c: Cast): seq<Op> {
    [AccountCreate(c.m, FEE, c.p, c.pKey), TransferToVest(c.m, c.p, MIN_BP_REGISTER_VEST),
     AccountCreate(c.m, FEE, c.q, c.qKey), TransferToVest(c.m, c.q, MIN_BP_REGISTER_VEST)]
  }

  function MinerRow(c: Cast, balance: U64): Account {
    Row(balance, 0, 0, 0, c.mKey)
  }

  function RowsP(c: Cast, balance: U64, vest: U64): map<Name, Account> {
    map[c.m := MinerRow(c, balance), c.p := Row(0, vest, 0, 0, c.pKey)]
  }

  function RowsQ(c: Cast, balance: U64, vest: U64): map<Name, Account> {
    map[c.m := MinerRow(c, balance), c.p := Row(0, HELD, 0, 0, c.pKey), c.q := Row(0, vest, 0, 0, c.qKey)]
  }

  lemma CreatesP(c: Cast)
    requires Apart(c)
    ensures ApplyAccountCreate(Genesis(c.m, c.mKey, FEE, PRICE), c.m, FEE, c.p, c.pKey)
            == Ok(Scene(c, RowsP(c, COS_INIT_SUPPLY - FEE, FEE), map[c.m := FRESH], 0, COS_INIT_SUPPLY - FEE, FEE))
  {
    var s := ApplyAccountCreate(Genesis(c.m, c.mKey, FEE, PRICE), c.m, FEE, c.p, c.pKey).value;
    assert s.accounts == RowsP(c, COS_INIT_SUPPLY - FEE, FEE);
  }

  lemma VestsP(c: Cast)
    requires Apart(c)
    ensures ApplyTransferToVest(Scene(c, RowsP(c, COS_INIT_SUPPLY - FEE, FEE), map[c.m := FRESH], 0, COS_INIT_SUPPLY - FEE, FEE),
                                c.m, c.p, MIN_BP_REGISTER_VEST)
            == Ok(Scene(c, RowsP(c, COS_INIT_SUPPLY - HELD, HELD), map[c.m := FRESH], 0, COS_INIT_SUPPLY - HELD, HELD))
  {
    var s := Scene(c, RowsP(c, COS_INIT_SUPPLY - FEE, FEE), map[c.m := FRESH], 0, COS_INIT_SUPPLY - FEE, FEE);
    var t := ApplyTransferToVest(s, c.m, c.p, MIN_BP_REGISTER_VEST).value;
    assert t.accounts == RowsP(c, COS_INIT_SUPPLY - HELD, HELD);
  }

  lemma CreatesQ(c: Cast)
    requires Apart(c)
    ensures ApplyAccountCreate(Scene(c, RowsP(c, COS_INIT_SUPPLY - HELD, HELD), map[c.m := FRESH], 0, COS_INIT_SUPPLY - HELD, HELD),
                               c.m, FEE, c.q, c.qKey)
            == Ok(Scene(c, RowsQ(c, COS_INIT_SUPPLY - HELD - FEE, FEE), map[c.m := FRESH], 0, COS_INIT_SUPPLY - HELD - FEE,
                        HELD + FEE))
  {
    hide KeyInUse, IsBadGuy;
    var s := Scene(c, RowsP(c, COS_INIT_SUPPLY - HELD, HELD), map[c.m := FRESH], 0, COS_INIT_SUPPLY - HELD, HELD);
    var s1 := s.(accounts := RowsP(c, COS_INIT_SUPPLY - HELD - FEE, HELD));
    assert s.accounts[c.m := MinerRow(c, COS_INIT_SUPPLY - HELD - FEE)] == s1.accounts;
    assert SubBalance(s, c.m, FEE) == Ok(s1);
    assert !KeyInUse(s1, c.qKey) by { KeyIsNew(c, s1, COS_INIT_SUPPLY - HELD - FEE); }
    assert s1.accounts[c.q := Row(0, FEE, 0, 0, c.qKey)] == RowsQ(c, COS_INIT_SUPPLY - HELD - FEE, FEE);
  }

  lemma KeyIsNew(c: Cast, s: State, balance: U64)
    requires Apart(c) && s.accounts == RowsP(c, balance, HELD)
    ensures !KeyInUse(s, c.qKey)
  {
  }

  lemma VestsQ(c: Cast)
    requires Apart(c)
    ensures ApplyTransferToVest(Scene(c, RowsQ(c, COS_INIT_SUPPLY - HELD - FEE, FEE), map[c.m := FRESH], 0,
                                      COS_INIT_SUPPLY - HELD - FEE, HELD + FEE), c.m, c.q, MIN_BP_REGISTER_VEST)
            == Ok(Scene(c, RowsQ(c, LEFT, HELD), map[c.m := FRESH], 0, LEFT, 2 * HELD))
  {
    var s := Scene(c, RowsQ(c, COS_INIT_SUPPLY - HELD - FEE, FEE), map[c.m := FRESH], 0, COS_INIT_SUPPLY - HELD - FEE, HELD + FEE);
    var t := ApplyTransferToVest(s, c.m, c.q, MIN_BP_REGISTER_VEST).value;
    assert t.accounts == RowsQ(c, LEFT, HELD);
  }

  lemma CreateRuns(c: Cast)
    requires Apart(c)
    ensures ApplyTransactions(Genesis(c.m, c.mKey, FEE, PRICE), [Create(c)])
            == Scene(c, RowsQ(c, LEFT, HELD), map[c.m := FRESH], 0, LEFT, 2 * HELD)
  {
    hide ApplyAccountCreate, ApplyTransfer, ApplyTransferToVest, ApplyConvertVest, ApplyBpRegister, ApplyBpEnable,
         ApplyBpVote, ApplyStake, ApplyUnStake, ApplyAcquireTicket, ApplyVoteByTicket, ApplyDelegateVest,
         ApplyUnDelegateVest, ApplyContractDeploy, ApplyContractToUser, ApplyContractToUserVest, ApplyUserToContract,
         ApplyContractToContract, ApplySetReputation, Genesis, Scene, RowsP, RowsQ, ApplyOps;
    var g, ops := Genesis(c.m, c.mKey, FEE, PRICE), Create(c);
    CreatesP(c);
    VestsP(c);
    CreatesQ(c);
    VestsQ(c);
    OneOp(g, ops[0]);
    assert [ops[0]] + [ops[1]] == ops[..2] && ops[..2] + [ops[2]] == ops[..3] && ops[..3] + [ops[3]] == ops;
    OneMoreOp(g, [ops[0]], ApplyOp(g, ops[0]).value, ops[1]);
    OneMoreOp(g, ops[..2], ApplyOps(g, ops[..2]).value, ops[2]);
    OneMoreOp(g, ops[..3], ApplyOps(g, ops[..3]).value, ops[3]);
    NoTrx(g);
    assert [] + [ops] == [ops];
    OneMoreTrx(g, [], g, ops);
  }

  lemma RegisterRuns(c: Cast)
    requires Apart(c)
    ensures ApplyTransactions(Scene(c, RowsQ(c, LEFT, HELD), map[c.m := FRESH], 1, LEFT, 2 * HELD),
                              [[BpRegister(c.p, true)], [BpRegister(c.q, true)]])
            == Scene(c, RowsQ(c, LEFT, HELD), map[c.m := FRESH, c.p := FRESH, c.q := FRESH], 1, LEFT, 2 * HELD)
  {
    hide ApplyOps, ApplyTransactions, RowsQ;
    var s := Scene(c, RowsQ(c, LEFT, HELD), map[c.m := FRESH], 1, LEFT, 2 * HELD);
    var t := Scene(c, RowsQ(c, LEFT, HELD), map[c.m := FRESH, c.p := FRESH], 1, LEFT, 2 * HELD);
    var u := Scene(c, RowsQ(c, LEFT, HELD), map[c.m := FRESH, c.p := FRESH, c.q := FRESH], 1, LEFT, 2 * HELD);
    RowsHeld(c);
    assert s.producers[c.p := FRESH] == t.producers && t.producers[c.q := FRESH] == u.producers;
    OneOp(s, BpRegister(c.p, true));
    OneOp(t, BpRegister(c.q, true));
    NoTrx(s);
    assert [] + [[BpRegister(c.p, true)]] == [[BpRegister(c.p, true)]];
    OneMoreTrx(s, [], s, [BpRegister(c.p, true)]);
    OneMoreTrx(s, [[BpRegister(c.p, true)]], t, [BpRegister(c.q, true)]);
    assert [[BpRegister(c.p, true)]] + [[BpRegister(c.q, true)]] == [[BpRegister(c.p, true)], [BpRegister(c.q, true)]];
  }

  lemma RowsHeld(c: Cast)
    requires Apart(c)
    ensures var rows := RowsQ(c, LEFT, HELD);
            rows.Keys == {c.m, c.p, c.q} && rows[c.p] == Row(0, HELD, 0, 0, c.pKey) && rows[c.q] == Row(0, HELD, 0, 0, c.qKey)
            && rows[c.m] == Row(LEFT, 0, 0, 0, c.mKey)
  {
  }

  /** The block of producer `n` with nothing but transactions. */
  function Plain(n: Name, trxs: seq<seq<Op>>, round: Round): Block {
    Block(n, trxs, round, [], [], [], [], [], [])
  }

  function Early(c: Cast, head: U64): State {
    Scene(c, RowsQ(c, LEFT, HELD), map[c.m := FRESH, c.p := FRESH, c.q := FRESH], head, LEFT, 2 * HELD)
  }

  /** Before the passes start, a block does what its transactions do. */
  lemma EarlyBlock(s: State, t: State, n: Name, trxs: seq<seq<Op>>)
    requires ApplyTransactions(s, trxs) == t && !t.props.bootCompleted && t.schedule == [n] == s.schedule
    requires n in s.producers && s.props.year.ith < TWO_32 - 1 && s.props.head + 1 < 5 && t.props.head == s.props.head
    ensures ApplyBlock(s, Plain(n, trxs, SameRound), n) == Ok(Advance(t, n))
    ensures BlockOk(s, Plain(n, trxs, SameRound)) && ByRule(s, Plain(n, trxs, SameRound), n)
  {
    hide ApplyTransactions;
  }

  /** The names at the end of the first round; all weigh the same. */
  lemma FirstElection(c: Cast)
    requires Apart(c)
    ensures Elects(map[c.m := FRESH, c.p := FRESH, c.q := FRESH], [c.p, c.q], c.m)
  {
    var producers, names := map[c.m := FRESH, c.p := FRESH, c.q := FRESH], [c.p, c.q, c.m];
    assert Ranked(producers, names);
    ExceptLast(c);
    assert Elected(names, c.m) == [c.p, c.q];
  }

  lemma ExceptLast(c: Cast)
    requires Apart(c)
    ensures Except([c.p, c.q, c.m], c.m) == [c.p, c.q] && Except([c.q, c.p], c.m) == [c.q, c.p]
  {
    ExceptMore([], c.p, c.m);
    ExceptMore([c.p], c.q, c.m);
    ExceptMore([c.p, c.q], c.m, c.m);
    ExceptMore([], c.q, c.m);
    ExceptMore([c.q], c.p, c.m);
  }

  lemma {:induction false} ExceptMore(names: seq<Name>, x: Name, n: Name)
    ensures Except(names + [x], n) == Except(names, n) + if x == n then [] else [x]
    ensures Except([], n) == [] && [] + [x] == [x] && (|names| == 1 ==> names + [x] == [names[0], x])
    ensures |names| == 2 ==> names + [x] == [names[0], names[1], x]
  {
    assert (names + [x])[..|names|] == names;
  }

  /** The fifth block ends the round: the two producers take over, the first one retires. */
  function TakenOver(c: Cast): State {
    Early(c, 5).(schedule := [c.p, c.q], props := Early(c, 5).props.(bootCompleted := true),
                 producers := map[c.m := FRESH.(active := false), c.p := FRESH, c.q := FRESH])
  }

  function Fifth(c: Cast): Block {
    Plain(c.m, [], NewRound([c.p, c.q], FEE, PRICE))
  }

  lemma TakesOver(c: Cast)
    requires Apart(c)
    ensures ApplyBlock(Early(c, 4), Fifth(c), c.m) == Ok(TakenOver(c))
    ensures BlockOk(Early(c, 4), Fifth(c)) && ByRule(Early(c, 4), Fifth(c), c.m)
  {
    hide RowsQ, Elects, Lists;
    var s, b := Early(c, 4), Fifth(c);
    NoTrx(s);
    FirstElection(c);
    assert Sharing(s, b) == Early(c, 5) && ShareTicketBonus(Early(c, 5)) == Early(c, 5);
    var t := BeforePasses(s, b);
    assert t == Early(c, 5).(schedule := [c.p, c.q]);
    assert UpToPowerDown(s, b) == Ok(t);
    assert BootMark(t, c.m).producers == TakenOver(c).producers;
  }

  // ----- the second round -----

  /** The state in the second round.  The books of `c.q`, the pools and the year move on with
      every block; of the rest the parameters tell what is set. */
  datatype Books = Books(balance: U64, vest: U64, tickets: U32, voted: bool, contracts: map<ContractId, U64>,
                         cos: U64, income: U64, num: U64, bonus: U64)

  const START := Books(LEFT, HELD, 0, false, map[], LEFT, 0, 0, 0)

  predicate RowsOn(c: Cast, rows: map<Name, Account>, k: Books) {
    && rows.Keys == {c.m, c.p, c.q} && rows[c.m] == Row(k.balance, 0, k.tickets, 0, c.mKey)
    && rows[c.p] == Row(0, k.vest, 0, if k.voted then 1 else 0, c.pKey)
    && rows[c.q] == Row(0, rows[c.q].vest, 0, 0, c.qKey)
  }

  predicate ProducersOn(c: Cast, producers: map<Name, Producer>, voted: bool) {
    && producers.Keys == {c.m, c.p, c.q} && !producers[c.m].active && producers[c.p].active && producers[c.q].active
    && producers[c.p].voteVest == 0 && producers[c.q].voteVest == (if voted then HELD else 0)
  }

  predicate PropsOn(p: Props, head: U64, k: Books) {
    && p.head == head && p.bootCompleted && p.totalCos == k.cos && p.perTicketPrice == PRICE
    && p.ticketsIncome == k.income && p.chargedTicketsNum == k.num && p.ticketsBpBonus == k.bonus
    && p.totalVest <= 2 * COS_TOTAL_SUPPLY && p.year.ith <= head
  }

  predicate On(c: Cast, s: State, head: U64, k: Books) {
    && RowsOn(c, s.accounts, k) && ProducersOn(c, s.producers, k.voted) && PropsOn(s.props, head, k)
    && s.contracts == k.contracts && s.votes == (if k.voted then map[c.p := c.q] else map[])
    && s.orders == map[] && s.schedule == [c.p, c.q]
  }

  lemma StartsOn(c: Cast)
    requires Apart(c)
    ensures On(c, TakenOver(c), 5, START)
  {
    hide RowsQ;
    RowsHeld(c);
  }

  /** What a mint leaves alone when its producer does not vote. */
  predicate Quiet(p: Props, q: Props) {
    && q == p.(year := q.year, totalVest := q.totalVest, posts := q.posts, replies := q.replies, votes := q.votes,
               dapps := q.dapps)
    && q.year.ith <= p.year.ith + 1
  }

  lemma FillPoolsQuiet(p: Props, split: Split)
    requires FillPools(p, split).Ok?
    ensures Quiet(p, FillPools(p, split).value)
  {
  }

  lemma YearQuiet(y: Year)
    requires MintYear(y).Ok?
    ensures MintYear(y).value.ith <= y.ith + 1
  {
  }

  lemma MintQuiet(s: State)
    requires Mint(s).Ok? && s.props.producer !in s.votes
    ensures var t, n := Mint(s).value, s.props.producer;
            && Quiet(s.props, t.props) && t == s.(accounts := t.accounts, producers := t.producers, props := t.props)
            && (s.props.bootCompleted ==>
                  && n in s.accounts && n in s.producers && n in t.accounts
                  && t.accounts == s.accounts[n := s.accounts[n].(vest := t.accounts[n].vest)]
                  && t.producers == s.producers[n := s.producers[n].(genBlocks := s.producers[n].genBlocks + 1)])
            && (!s.props.bootCompleted ==> t == s)
  {
    hide MintYear, MintAmount, SplitMint, FillPools;
    if s.props.bootCompleted {
      YearQuiet(s.props.year);
      FillPoolsQuiet(s.props, SplitMint(MintAmount(s.props.year).1));
    }
  }

  /** After its transactions and its round, a block with nothing due changes the books of its
      producer alone. */
  lemma PassesQuiet(s: State, b: Block)
    requires b.posts == b.replies == b.dapps == b.votes == [] && b.poweredDown == [] && b.delivered == []
    requires var t := BeforePasses(s, b);
             && t.props.bootCompleted && t.props.producer !in t.votes && t.orders == map[]
             && (forall n :: n in t.accounts ==> t.accounts[n].nextPowerdown == MAX_UINT64)
    ensures UpToCashout(s, b).Ok? ==>
              var u := UpToCashout(s, b).value;
              && PowerDownDue(u) == {} && DeliveryDue(u) == {} && UpToPowerDown(s, b) == Ok(u)
              && Mint(BeforePasses(s, b)).Ok? && u.accounts == Mint(BeforePasses(s, b)).value.accounts
              && u == Mint(BeforePasses(s, b)).value.(props := u.props) && Quiet(BeforePasses(s, b).props, u.props)
  {
    hide BeforePasses, Mint, Decay;
    var t := BeforePasses(s, b);
    if Mint(t).Ok? {
      MintQuiet(t);
      DecayQuiet(Mint(t).value);
    }
  }

  lemma DecayQuiet(t: State)
    ensures Do(t, [], [], [], []).Ok?
    ensures var u := Do(t, [], [], [], []).value;
            u == t.(props := u.props) && Quiet(t.props, u.props) && u.props.year == t.props.year
  {
    hide Decay;
  }

  /** An empty block of the second round. */
  lemma QuietBlock(c: Cast, s: State, head: U64)
    requires Apart(c) && Inv(s) && On(c, s, head, START) && 5 <= head < 9
    ensures var b := Plain(c.q, [], SameRound);
            && BlockOk(s, b) && ByRule(s, b, c.m) && ApplyBlock(s, b, c.m).Ok?
            && Inv(ApplyBlock(s, b, c.m).value) && On(c, ApplyBlock(s, b, c.m).value, head + 1, START)
            && ApplyBlock(s, b, c.m).value.props.producer == c.q
  {
    hide Inv, On, BlockOk, ByRule, ApplyBlock;
    var b := Plain(c.q, [], SameRound);
    QuietOk(c, s, head);
    assert SafeTransactions(s, []) by { NothingUnsafe(s); }
    BlockSafe(s, b, c.m);
    QuietResult(c, s, head);
  }

  lemma QuietOk(c: Cast, s: State, head: U64)
    requires Apart(c) && On(c, s, head, START) && 5 <= head < 9
    ensures var b := Plain(c.q, [], SameRound); BlockOk(s, b) && ByRule(s, b, c.m)
  {
    hide UpToCashout, UpToPowerDown, RowsOn, ProducersOn, ApplyTransactions;
    var b := Plain(c.q, [], SameRound);
    NoTrx(s);
    assert BeforePasses(s, b) == Advance(s, c.q);
    RowsFacts(c, s.accounts, START);
    ProducersFacts(c, s.producers, false);
    PassesQuiet(s, b);
    NotBeforeCashout(s, b);
    assert BlockOk(s, b) by { NothingListed(s, b); }
  }

  /** With nothing due the empty lists are right. */
  lemma NothingListed(s: State, b: Block)
    requires b.poweredDown == [] && b.delivered == [] && b.producer in s.producers && b.round.SameRound?
    requires s.props.year.ith < TWO_32 - 1 && s.props.head + 1 < MAX_INT64
    requires UpToCashout(s, b).Ok? ==> PowerDownDue(UpToCashout(s, b).value) == {}
    requires UpToPowerDown(s, b).Ok? ==> DeliveryDue(UpToPowerDown(s, b).value) == {}
    ensures BlockOk(s, b)
  {
    hide UpToCashout, UpToPowerDown, PowerDownDue, DeliveryDue;
  }

  lemma NotBeforeCashout(s: State, b: Block)
    ensures UpToPowerDown(s, b).Ok? ==> UpToCashout(s, b).Ok?
  {
    if UpToPowerDown(s, b).Ok? {
      PowerDownAfterCashout(s, b);
    }
  }

  lemma NothingUnsafe(s: State)
    ensures SafeTransactions(s, [])
  {
  }

  lemma RowsFacts(c: Cast, rows: map<Name, Account>, k: Books)
    requires RowsOn(c, rows, k)
    ensures c.m in rows && c.p in rows && c.q in rows && rows[c.p].vest == k.vest
    ensures forall n :: n in rows ==> rows[n].nextPowerdown == MAX_UINT64
  {
  }

  lemma ProducersFacts(c: Cast, producers: map<Name, Producer>, voted: bool)
    requires ProducersOn(c, producers, voted)
    ensures c.m in producers && c.p in producers && c.q in producers
  {
  }

  lemma QuietResult(c: Cast, s: State, head: U64)
    requires Apart(c) && Inv(s) && On(c, s, head, START) && 5 <= head < 9
    requires var b := Plain(c.q, [], SameRound);
             ApplyBlock(s, b, c.m).Ok? && Inv(ApplyBlock(s, b, c.m).value)
    ensures On(c, ApplyBlock(s, Plain(c.q, [], SameRound), c.m).value, head + 1, START)
    ensures ApplyBlock(s, Plain(c.q, [], SameRound), c.m).value.props.producer == c.q
  {
    hide Inv, UpToCashout, Mint, ApplyTransactions;
    var b := Plain(c.q, [], SameRound);
    NoTrx(s);
    var t := Advance(s, c.q);
    assert BeforePasses(s, b) == t;
    PassesQuiet(s, b);
    MintQuiet(t);
    var v := ApplyBlock(s, b, c.m).value;
    assert v == UpToCashout(s, b).value;
    assert v.props.totalVest <= COS_TOTAL_SUPPLY by { TotalBound(v); }
  }

  lemma TotalBound(s: State)
    requires Inv(s)
    ensures s.props.totalVest <= COS_TOTAL_SUPPLY
  {
    hide Sum, Records, IndexOk;
    SupplyBound(s);
  }

  // ----- the tenth block: the transactions -----

  lemma Votes(c: Cast, s: State, k: Books)
    requires Apart(c) && On(c, s, 9, k) && !k.voted && k.vest == HELD
    ensures var r := ApplyBpVote(s, c.p, c.q, false); r.Ok? && On(c, r.value, 9, k.(voted := true))
  {
  }

  lemma Deploys(c: Cast, s: State, k: Books)
    requires Apart(c) && On(c, s, 9, k) && k.contracts == map[]
    ensures var r := ApplyContractDeploy(s, c.contract, true);
            r.Ok? && On(c, r.value, 9, k.(contracts := map[c.contract := 0]))
  {
  }

  lemma Funds(c: Cast, s: State, k: Books)
    requires Apart(c) && On(c, s, 9, k) && k.contracts == map[c.contract := 0] && k.balance >= 5
    ensures var r := ApplyUserToContract(s, c.m, c.contract, 5, true);
            r.Ok? && On(c, r.value, 9, k.(balance := k.balance - 5, contracts := map[c.contract := 5]))
  {
  }

  lemma PaysVest(c: Cast, s: State, k: Books)
    requires Apart(c) && On(c, s, 9, k) && k.contracts == map[c.contract := 5] && k.vest == HELD && k.cos >= 5
    requires s.props.totalVest <= COS_TOTAL_SUPPLY
    ensures var r := ApplyContractToUserVest(s, c.contract, c.p, 5);
            && r.Ok? && r.value.props.totalVest <= COS_TOTAL_SUPPLY + 5 && r.value.props.producer == s.props.producer
            && On(c, r.value, 9, k.(vest := HELD + 5, cos := k.cos - 5, contracts := map[c.contract := 0]))
  {
  }

  lemma Buys(c: Cast, s: State, k: Books)
    requires Apart(c) && On(c, s, 9, k) && k.balance >= 2 * PRICE && k.cos >= 2 * PRICE
    requires k.tickets == 0 && k.income == 0 && k.num == 0
    ensures var r := ApplyAcquireTicket(s, c.m, 2, true);
            && r.Ok? && r.value.props.totalVest == s.props.totalVest && r.value.props.producer == s.props.producer
            && On(c, r.value, 9, k.(balance := k.balance - 2 * PRICE, cos := k.cos - 2 * PRICE, tickets := 2,
                                    income := 2 * PRICE, num := 2))
  {
    BuysShape(s, c.m);
    var a := s.accounts[c.m].(balance := k.balance - 2 * PRICE, chargedTicket := 2);
    hide ApplyAcquireTicket;
    assert ApplyAcquireTicket(s, c.m, 2, true).value.accounts == s.accounts[c.m := a];
  }

  lemma BuysShape(s: State, n: Name)
    requires s.props.perTicketPrice == PRICE && n in s.accounts && s.accounts[n].balance >= 2 * PRICE
    requires s.accounts[n].chargedTicket == 0 && s.props.ticketsIncome == 0 && s.props.chargedTicketsNum == 0
    requires s.props.totalCos >= 2 * PRICE
    ensures ApplyAcquireTicket(s, n, 2, true)
            == Ok(s.(accounts := s.accounts[n := s.accounts[n].(balance := s.accounts[n].balance - 2 * PRICE,
                                                               chargedTicket := 2)],
                     props := s.props.(ticketsIncome := 2 * PRICE, totalCos := s.props.totalCos - 2 * PRICE,
                                       chargedTicketsNum := 2)))
  {
    assert Mul(s.props.perTicketPrice, 2) == Ok(2 * PRICE);
    hide Mul;
    var a := s.accounts[n].(balance := s.accounts[n].balance - 2 * PRICE, chargedTicket := 2);
    assert ApplyAcquireTicket(s, n, 2, true).value.accounts == s.accounts[n := a];
  }

  lemma Spends(c: Cast, s: State, k: Books)
    requires Apart(c) && On(c, s, 9, k) && k.tickets == 2 && k.income == 2 * PRICE && k.num == 2 && k.bonus == 0
    requires s.props.producer == c.q && s.props.totalVest <= COS_TOTAL_SUPPLY + 5
    ensures var r := ApplyVoteByTicket(s, c.m, 2, false, true);
            r.Ok? && On(c, r.value, 9, k.(tickets := 0, income := 0, num := 0, bonus := 2 * PRICE))
  {
    assert s.props.ticketsIncome / s.props.chargedTicketsNum == PRICE;
    assert Mul(PRICE, 2) == Ok(2 * PRICE);
    hide Mul;
  }

  function Second(c: Cast): seq<seq<Op>> {
    [[BpVote(c.p, c.q, false)], [ContractDeploy(c.contract, true)],
     [UserToContract(c.m, c.contract, 5, true), ContractToUserVest(c.contract, c.p, 5)],
     [AcquireTicket(c.m, 2, true)], [VoteByTicket(c.m, 2, false, true)]]
  }

  /** What the books are then. */
  function Spent(c: Cast): Books {
    Books(LEFT - 5 - 2 * PRICE, HELD + 5, 0, true, map[c.contract := 0], LEFT - 5 - 2 * PRICE, 0, 0, 2 * PRICE)
  }

  /** The vote and the payment. */
  lemma PaymentRuns(c: Cast, s: State) returns (t: State)
    requires Apart(c) && On(c, s, 9, START) && s.props.totalVest <= COS_TOTAL_SUPPLY && s.props.producer == c.q
    ensures ApplyTransactions(s, Second(c)[..3]) == t && t.props.totalVest <= COS_TOTAL_SUPPLY + 5
    ensures On(c, t, 9, START.(balance := LEFT - 5, vest := HELD + 5, voted := true, cos := LEFT - 5,
                               contracts := map[c.contract := 0]))
    ensures t.props.producer == c.q
  {
    hide ApplyAccountCreate, ApplyTransfer, ApplyTransferToVest, ApplyConvertVest, ApplyBpRegister, ApplyBpEnable,
         ApplyBpVote, ApplyStake, ApplyUnStake, ApplyAcquireTicket, ApplyVoteByTicket, ApplyDelegateVest,
         ApplyUnDelegateVest, ApplyContractDeploy, ApplyContractToUser, ApplyContractToUserVest, ApplyUserToContract,
         ApplyContractToContract, ApplySetReputation, On, ApplyOps, ApplyTransactions, Second;
    var k1 := START.(voted := true);
    Votes(c, s, START);
    var s1 := ApplyBpVote(s, c.p, c.q, false).value;
    var k2 := k1.(contracts := map[c.contract := 0]);
    Deploys(c, s1, k1);
    var s2 := ApplyContractDeploy(s1, c.contract, true).value;
    var k3 := k2.(balance := LEFT - 5, contracts := map[c.contract := 5]);
    Funds(c, s2, k2);
    var s3 := ApplyUserToContract(s2, c.m, c.contract, 5, true).value;
    assert s3.props == s.props by { SameProps(c, s); }
    PaysVest(c, s3, k3);
    t := ApplyContractToUserVest(s3, c.contract, c.p, 5).value;
    PaymentSteps(c, s, s1, s2, s3, t);
  }

  lemma PaymentSteps(c: Cast, s: State, s1: State, s2: State, s3: State, t: State)
    requires ApplyBpVote(s, c.p, c.q, false) == Ok(s1) && ApplyContractDeploy(s1, c.contract, true) == Ok(s2)
    requires ApplyUserToContract(s2, c.m, c.contract, 5, true) == Ok(s3)
    requires ApplyContractToUserVest(s3, c.contract, c.p, 5) == Ok(t)
    ensures ApplyTransactions(s, Second(c)[..3]) == t
  {
    hide ApplyAccountCreate, ApplyTransfer, ApplyTransferToVest, ApplyConvertVest, ApplyBpRegister, ApplyBpEnable,
         ApplyBpVote, ApplyStake, ApplyUnStake, ApplyAcquireTicket, ApplyVoteByTicket, ApplyDelegateVest,
         ApplyUnDelegateVest, ApplyContractDeploy, ApplyContractToUser, ApplyContractToUserVest, ApplyUserToContract,
         ApplyContractToContract, ApplySetReputation, ApplyOps, ApplyTransactions;
    var trxs := Second(c);
    OneOp(s, trxs[0][0]);
    OneOp(s1, trxs[1][0]);
    OneOp(s2, trxs[2][0]);
    assert [trxs[2][0]] + [trxs[2][1]] == trxs[2];
    OneMoreOp(s2, [trxs[2][0]], s3, trxs[2][1]);
    NoTrx(s);
    assert [] + [trxs[0]] == trxs[..1] && trxs[..1] + [trxs[1]] == trxs[..2] && trxs[..2] + [trxs[2]] == trxs[..3];
    OneMoreTrx(s, [], s, trxs[0]);
    OneMoreTrx(s, trxs[..1], s1, trxs[1]);
    OneMoreTrx(s, trxs[..2], s2, trxs[2]);
  }

  /** All of the block's transactions. */
  lemma SecondRuns(c: Cast, s: State)
    requires Apart(c) && On(c, s, 9, START) && s.props.totalVest <= COS_TOTAL_SUPPLY && s.props.producer == c.q
    ensures On(c, ApplyTransactions(s, Second(c)), 9, Spent(c))
  {
    hide ApplyAccountCreate, ApplyTransfer, ApplyTransferToVest, ApplyConvertVest, ApplyBpRegister, ApplyBpEnable,
         ApplyBpVote, ApplyStake, ApplyUnStake, ApplyAcquireTicket, ApplyVoteByTicket, ApplyDelegateVest,
         ApplyUnDelegateVest, ApplyContractDeploy, ApplyContractToUser, ApplyContractToUserVest, ApplyUserToContract,
         ApplyContractToContract, ApplySetReputation, On, ApplyOps, ApplyTransactions;
    var trxs := Second(c);
    var t := PaymentRuns(c, s);
    var k := START.(balance := LEFT - 5, vest := HELD + 5, voted := true, cos := LEFT - 5, contracts := map[c.contract := 0]);
    Buys(c, t, k);
    var u := ApplyAcquireTicket(t, c.m, 2, true).value;
    Spends(c, u, k.(balance := LEFT - 5 - 2 * PRICE, cos := LEFT - 5 - 2 * PRICE, tickets := 2, income := 2 * PRICE, num := 2));
    OneOp(t, trxs[3][0]);
    OneOp(u, trxs[4][0]);
    assert trxs[..3] + [trxs[3]] == trxs[..4] && trxs[..4] + [trxs[4]] == trxs;
    OneMoreTrx(s, trxs[..3], t, trxs[3]);
    OneMoreTrx(s, trxs[..4], u, trxs[4]);
  }

  lemma SameProps(c: Cast, s: State)
    requires ApplyBpVote(s, c.p, c.q, false).Ok?
    requires ApplyContractDeploy(ApplyBpVote(s, c.p, c.q, false).value, c.contract, true).Ok?
    requires var t := ApplyContractDeploy(ApplyBpVote(s, c.p, c.q, false).value, c.contract, true).value;
             ApplyUserToContract(t, c.m, c.contract, 5, true).Ok?
    ensures var t := ApplyContractDeploy(ApplyBpVote(s, c.p, c.q, false).value, c.contract, true).value;
            ApplyUserToContract(t, c.m, c.contract, 5, true).value.props == s.props
  {
  }

  // ----- the tenth block: the bonus -----

  function Tenth(c: Cast): Block {
    Plain(c.q, Second(c), NewRound([c.p, c.q], FEE, PRICE))
  }

  /** Sharing out: two shares, and the first meets a stale vote. */
  lemma FirstShareStops(c: Cast, u: State)
    requires Apart(c) && On(c, u, 10, Spent(c))
    ensures !Covered(u, ButLast(BonusMoves(u)))
    ensures ShareTicketBonus(u)
            == PutAccount(u.(props := u.props.(ticketsBpBonus := 0)), c.p, u.accounts[c.p].(vest := HELD + 5 + PRICE))
  {
    var names := [c.p, c.q];
    assert ShareOf(2 * PRICE, 2, true) == PRICE && ShareOf(2 * PRICE, 2, false) == PRICE;
    assert ShareMoves(names, 2 * PRICE, 0) == [] && ShareMoves(names, 2 * PRICE, 1) == [Move(c.p, PRICE)];
    assert BonusMoves(u) == [Move(c.p, PRICE), Move(c.q, PRICE)];
    assert ButLast(BonusMoves(u)) == [Move(c.p, PRICE)] && [Move(c.p, PRICE)][..0] == [];
    assert !CoveredAt(u, [], c.p);
    ShareStops(c, u);
  }

  lemma ShareStops(c: Cast, u: State)
    requires Apart(c) && On(c, u, 10, Spent(c))
    ensures ShareTicketBonus(u)
            == PutAccount(u.(props := u.props.(ticketsBpBonus := 0)), c.p, u.accounts[c.p].(vest := HELD + 5 + PRICE))
  {
    var s, names := u.(props := u.props.(ticketsBpBonus := 0)), [c.p, c.q];
    assert ShareOf(2 * PRICE, 2, true) == PRICE;
    assert ShareLoop(s, names, 2 * PRICE, 0) == (s, false);
    var t := PutAccount(s, c.p, s.accounts[c.p].(vest := HELD + 5 + PRICE));
    assert ShareOne(s, c.p, PRICE) == (t, true);
    assert ShareLoop(s, names, 2 * PRICE, 1) == (t, true);
    assert ShareLoop(s, names, 2 * PRICE, 2) == (t, true);
  }

  /** The election at the end of the second round. */
  lemma SecondElection(c: Cast, producers: map<Name, Producer>)
    requires Apart(c) && ProducersOn(c, producers, true)
    ensures Elects(producers, [c.p, c.q], c.m)
  {
    var names := [c.q, c.p];
    assert Ranked(producers, names);
    ExceptLast(c);
    assert Elected(names, c.m) == [c.q, c.p];
  }

  lemma TenthStarts(c: Cast, s: State)
    requires Apart(c) && On(c, s, 9, START) && s.props.totalVest <= COS_TOTAL_SUPPLY && s.props.producer == c.q
    ensures On(c, Sharing(s, Tenth(c)), 10, Spent(c)) && Sharing(s, Tenth(c)).props.producer == c.q
    ensures !BonusReached(s, Tenth(c)) && ByRule(s, Tenth(c), c.m)
    ensures var t := BeforePasses(s, Tenth(c));
            && t.votes == map[c.p := c.q] && t.orders == map[] && t.props.bootCompleted && t.props.producer == c.q
            && forall n :: n in t.accounts ==> t.accounts[n].nextPowerdown == MAX_UINT64
    ensures c.p in Sharing(s, Tenth(c)).producers && c.q in Sharing(s, Tenth(c)).producers
  {
    hide ApplyTransactions, BonusMoves, Covered, ShareTicketBonus, Elects, Second;
    SecondRuns(c, s);
    var u := Sharing(s, Tenth(c));
    FirstShareStops(c, u);
    SecondElection(c, u.producers);
  }

  lemma TenthOk(c: Cast, s: State)
    requires Apart(c) && On(c, s, 9, START) && s.props.totalVest <= COS_TOTAL_SUPPLY && s.props.producer == c.q
    ensures BlockOk(s, Tenth(c)) && Survives(s, Tenth(c))
  {
    hide UpToCashout, UpToPowerDown, BeforePasses, Sharing, Mint, SplitMint, MintAmount, Second, ByRule, BonusReached;
    var b := Tenth(c);
    TenthStarts(c, s);
    PassesQuiet(s, b);
    NotBeforeCashout(s, b);
    assert BlockOk(s, b);
    var t := BeforePasses(s, b);
    assert [MintMoves(t)[0]][..0] == [];
    assert Covered(t, MintMoves(t));
    assert forall u: State :: DoMoves(u, [], [], [], []) == [];
    assert forall u: State :: InstalmentsOf(u, b) == [];
    if UpToPowerDown(s, b).Ok? {
      assert DeliveriesOf(UpToPowerDown(s, b).value, b) == [];
    }
  }

  // ----- the run -----

  function Blocks(c: Cast): seq<Block> {
    var quiet, early := Plain(c.q, [], SameRound), Plain(c.m, [], SameRound);
    [Plain(c.m, [Create(c)], SameRound), Plain(c.m, [[BpRegister(c.p, true)], [BpRegister(c.q, true)]], SameRound),
     early, early, Fifth(c), quiet, quiet, quiet, quiet, Tenth(c)]
  }

  /** Some blocks of a run, all of them allowed and none discarded, end in `t`. */
  ghost predicate Reaches(c: Cast, blocks: seq<Block>, t: State) {
    var g := Genesis(c.m, c.mKey, FEE, PRICE);
    RunOk(g, blocks, c.m) && RunByRule(g, blocks, c.m) && Run(g, blocks, c.m) == t
  }

  lemma ReachesMore(c: Cast, blocks: seq<Block>, s: State, b: Block)
    requires Reaches(c, blocks, s) && BlockOk(s, b) && ByRule(s, b, c.m) && ApplyBlock(s, b, c.m).Ok?
    ensures Reaches(c, blocks + [b], ApplyBlock(s, b, c.m).value)
  {
    hide BlockOk, ByRule, ApplyBlock, Genesis;
    assert (blocks + [b])[..|blocks|] == blocks;
  }

  lemma FirstBlocks(c: Cast)
    requires Apart(c)
    ensures Reaches(c, Blocks(c)[..2], Early(c, 2))
  {
    hide BlockOk, ByRule, ApplyBlock, Reaches, RowsQ, ApplyTransactions;
    var g, bs := Genesis(c.m, c.mKey, FEE, PRICE), Blocks(c);
    assert Reaches(c, [], g) by { ReachesNone(c); }
    var s0 := Scene(c, RowsQ(c, LEFT, HELD), map[c.m := FRESH], 0, LEFT, 2 * HELD);
    var s1 := Scene(c, RowsQ(c, LEFT, HELD), map[c.m := FRESH], 1, LEFT, 2 * HELD);
    CreateRuns(c);
    EarlyBlock(g, s0, c.m, [Create(c)]);
    ReachesMore(c, [], g, bs[0]);
    assert Advance(s0, c.m) == s1 && [] + [bs[0]] == bs[..1];
    RegisterRuns(c);
    EarlyBlock(s1, Early(c, 1), c.m, [[BpRegister(c.p, true)], [BpRegister(c.q, true)]]);
    ReachesMore(c, bs[..1], s1, bs[1]);
    assert Advance(Early(c, 1), c.m) == Early(c, 2) && bs[..1] + [bs[1]] == bs[..2];
  }

  /** Nothing happens in the third block, nor in the fourth. */
  lemma EmptyEarly(c: Cast, n: nat)
    requires Apart(c) && 2 <= n < 4 && Reaches(c, Blocks(c)[..n], Early(c, n as U64))
    ensures Reaches(c, Blocks(c)[..n + 1], Early(c, (n + 1) as U64))
  {
    hide BlockOk, ByRule, ApplyBlock, Reaches, RowsQ, ApplyTransactions;
    var bs, s := Blocks(c), Early(c, n as U64);
    NoTrx(s);
    EarlyBlock(s, s, c.m, []);
    ReachesMore(c, bs[..n], s, bs[n]);
    assert Advance(s, c.m) == Early(c, (n + 1) as U64) && bs[..n] + [bs[n]] == bs[..n + 1];
  }

  lemma FirstRound(c: Cast)
    requires Apart(c)
    ensures Reaches(c, Blocks(c)[..5], TakenOver(c))
  {
    hide BlockOk, ByRule, ApplyBlock, Reaches, Early, TakenOver;
    var bs := Blocks(c);
    FirstBlocks(c);
    EmptyEarly(c, 2);
    EmptyEarly(c, 3);
    TakesOver(c);
    ReachesMore(c, bs[..4], Early(c, 4), bs[4]);
    assert bs[..4] + [bs[4]] == bs[..5];
  }

  lemma ReachesNone(c: Cast)
    ensures Reaches(c, [], Genesis(c.m, c.mKey, FEE, PRICE))
  {
  }

  /** The quiet blocks of the second round. */
  lemma {:induction false} QuietBlocks(c: Cast, n: nat) returns (s: State)
    requires Apart(c) && n <= 4
    ensures Reaches(c, Blocks(c)[..5 + n], s) && Inv(s) && On(c, s, (5 + n) as U64, START) && (n > 0 ==> s.props.producer == c.q)
  {
    hide BlockOk, ByRule, ApplyBlock, Reaches, Inv, On, SafeRun;
    var g, bs := Genesis(c.m, c.mKey, FEE, PRICE), Blocks(c);
    if n == 0 {
      FirstRound(c);
      s := TakenOver(c);
      StartsOn(c);
      assert Inv(s) by { TakenOverInv(c); }
    } else {
      var t := QuietBlocks(c, n - 1);
      QuietBlock(c, t, (4 + n) as U64);
      ReachesMore(c, bs[..4 + n], t, bs[4 + n]);
      assert bs[..4 + n] + [bs[4 + n]] == bs[..5 + n];
      s := ApplyBlock(t, bs[4 + n], c.m).value;
    }
  }

  lemma TakenOverInv(c: Cast)
    requires Apart(c)
    ensures Inv(TakenOver(c))
  {
    hide BlockOk, ByRule, ApplyBlock, Inv, Genesis;
    var g, bs := Genesis(c.m, c.mKey, FEE, PRICE), Blocks(c)[..5];
    FirstRound(c);
    GenesisOk(c.m, c.mKey, FEE, PRICE);
    assert SafeRun(g, bs, c.m) by { FirstRoundSafe(c); }
    SafeRunKeeps(g, bs, c.m);
  }

  lemma {:induction false} PlainSafe(s: State, blocks: seq<Block>, initminer: Name)
    requires forall i :: 0 <= i < |blocks| ==> NoVest(blocks[i].trxs)
    ensures SafeRun(s, blocks, initminer)
  {
    if blocks != [] {
      PlainSafe(s, blocks[..|blocks| - 1], initminer);
      TrxsSafe(Run(s, blocks[..|blocks| - 1], initminer), blocks[|blocks| - 1].trxs);
    }
  }

  /** No operation is a contract's vest payment. */
  predicate NoVest(trxs: seq<seq<Op>>) {
    forall i, j :: 0 <= i < |trxs| && 0 <= j < |trxs[i]| ==> !trxs[i][j].ContractToUserVest?
  }

  lemma {:induction false} TrxsSafe(s: State, trxs: seq<seq<Op>>)
    requires NoVest(trxs)
    ensures SafeTransactions(s, trxs)
  {
    hide ApplyTransactions;
    if trxs != [] {
      TrxsSafe(s, trxs[..|trxs| - 1]);
      OpsSafe(ApplyTransactions(s, trxs[..|trxs| - 1]), trxs[|trxs| - 1]);
    }
  }

  lemma {:induction false} OpsSafe(s: State, ops: seq<Op>)
    requires forall j :: 0 <= j < |ops| ==> !ops[j].ContractToUserVest?
    ensures SafeOps(s, ops)
  {
    hide ApplyOps;
    if ops != [] {
      OpsSafe(s, ops[..|ops| - 1]);
    }
  }

  lemma FirstRoundSafe(c: Cast)
    ensures SafeRun(Genesis(c.m, c.mKey, FEE, PRICE), Blocks(c)[..5], c.m)
  {
    PlainSafe(Genesis(c.m, c.mKey, FEE, PRICE), Blocks(c)[..5], c.m);
  }

  /** Ten blocks from genesis, made by the rule of the consensus, at the end of which vest has
      been taken out of the books and handed to nobody. */
  lemma BonusIsLost(c: Cast)
    requires Apart(c)
    ensures var g, blocks := Genesis(c.m, c.mKey, FEE, PRICE), Blocks(c);
            && RunOk(g, blocks, c.m) && RunByRule(g, blocks, c.m)
            && RunDebt(g, blocks, c.m, NO_DEBT).lost > 0 && !VestOk(Run(g, blocks, c.m), 0)
  {
    hide Genesis, ApplyBlock, BlockOk, ByRule, BonusReached, Survives, Inv, BlockDebt, On;
    var g, blocks, y := Genesis(c.m, c.mKey, FEE, PRICE), Blocks(c), Tenth(c);
    var s := QuietBlocks(c, 4);
    assert s.props.totalVest <= COS_TOTAL_SUPPLY by { TotalBound(s); }
    TenthOk(c, s);
    TenthStarts(c, s);
    assert blocks[..9] + [y] == blocks && blocks[..|blocks| - 1] == blocks[..9];
    assert Holds(g, NO_DEBT) by {
      GenesisOk(c.m, c.mKey, FEE, PRICE);
      InvIs(g);
    }
    RunKeeps(g, blocks[..9], c.m, NO_DEBT);
    BlockIff(s, y, c.m, RunDebt(g, blocks[..9], c.m, NO_DEBT));
    ReachesMore(c, blocks[..9], s, y);
    RunLossIff(g, blocks, c.m, NO_DEBT);
    RunKeeps(g, blocks, c.m, NO_DEBT);
    LostVest(Run(g, blocks, c.m), RunDebt(g, blocks, c.m, NO_DEBT));
  }

  lemma InvIs(s: State)
    requires Inv(s)
    ensures Holds(s, NO_DEBT)
  {
  }

  lemma LostVest(s: State, d: Debt)
    requires Holds(s, d) && d.lost > 0
    ensures !VestOk(s, 0)
  {
    hide Records, IndexOk, Sum;
  }
}
