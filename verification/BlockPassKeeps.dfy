/** Weight decay, the cashouts of a block, power-down and the delivery of recalled vest: each
    pass keeps the books, and discards the block exactly when one of its changes of vest meets a
    stale vote. */
module BlockPassKeeps {
  import opened Amounts
  import opened Sums
  import opened LedgerState
  import opened Evaluators
  import opened Economist
  import opened LedgerInvariant
  import opened LedgerKeeps
  import opened DelegationKeeps
  import opened MintKeeps
  import opened PassKeeps
  import opened CashoutKeeps
  import opened VestMoves

  /** The fields the passes leave alone, orders aside. */
  ghost predicate SameRest(s: State, t: State) {
    && t.accounts.Keys == s.accounts.Keys && t.producers.Keys == s.producers.Keys
    && t.orders == s.orders && t.schedule == s.schedule
    && t.props.head == s.props.head && t.props.year == s.props.year && t.props.producer == s.props.producer
    && t.props.bootCompleted == s.props.bootCompleted && t.props.accountCreateFee == s.props.accountCreateFee
  }

  // ----- Do -----

  function Decayed(s: State): State {
    s.(props := s.props.(posts := Decay(s.props.posts), replies := Decay(s.props.replies),
                         votes := Decay(s.props.votes), dapps := Decay(s.props.dapps)))
  }

  lemma DecayKeeps(s: State, d: Debt)
    requires Holds(s, d)
    ensures Holds(Decayed(s), d)
  {
    hide Holds, Proportion;
    PoolsKeep(s, Decayed(s).props, d, d);
  }

  /** All payments of a block's cashouts, told from the state before them. */
  function DoMoves(s: State, posts: seq<Item>, replies: seq<Item>, dapps: seq<Item>, votes: seq<Item>): seq<Move> {
    if !s.props.bootCompleted then []
    else
      CashoutMoves(Decayed(s), Posts, posts) + CashoutMoves(Decayed(s), Replies, replies)
      + CashoutMoves(Decayed(s), Dapps, dapps) + CashoutMoves(Decayed(s), Votes, votes)
  }

  /** State `t` is `s` after some cashouts with the payments `a`; the pools outside `done` have
      not been touched. */
  ghost predicate Stage(s: State, t: State, a: seq<Move>, done: set<PoolKind>) {
    && Moved(s, t, a) && SameRest(s, t)
    && (forall k :: k !in done ==> GetPool(t.props, k) == GetPool(s.props, k))
    && (forall n :: Eligible(t.accounts, n) == Eligible(s.accounts, n))
  }

  lemma {:induction false} MovesSame(m: map<Name, Account>, m2: map<Name, Account>, items: seq<Item>, weight: nat, pool: nat)
    requires forall n :: Eligible(m2, n) == Eligible(m, n)
    ensures ItemMoves(m2, items, weight, pool) == ItemMoves(m, items, weight, pool)
  {
    hide Eligible, Proportion;
    if items != [] {
      MovesSame(m, m2, items[..|items| - 1], weight, pool);
    }
  }

  /** One more cashout. */
  lemma StageOn(s: State, t: State, a: seq<Move>, done: set<PoolKind>, kind: PoolKind, items: seq<Item>, d: Debt)
    requires Stage(s, t, a, done) && kind !in done && Covered(s, a) && Holds(t, d) && d.lost >= 0 && d.noted == 0
    ensures var b := a + CashoutMoves(s, kind, items);
            && (Cashout(t, kind, items).Ok? <==> Covered(s, b))
            && (Cashout(t, kind, items).Ok? ==>
                  Stage(s, Cashout(t, kind, items).value, b, done + {kind}) && Holds(Cashout(t, kind, items).value, d))
  {
    hide Holds, Cashout, ItemMoves, Moved, Covered, Eligible, GetPool, PutPool, SumWvp;
    MovesSame(s.accounts, t.accounts, items, GetPool(s.props, kind).weightedVps + SumWvp(items), GetPool(s.props, kind).rewards);
    var moves := CashoutMoves(s, kind, items);
    assert CashoutMoves(t, kind, items) == moves;
    CashoutIff(t, kind, items, d);
    CoveredOn(s, t, a, moves);
    if Cashout(t, kind, items).Ok? {
      var u := Cashout(t, kind, items).value;
      StageNext(s, t, u, a, moves, done, kind, items);
    }
  }

  lemma StageNext(s: State, t: State, u: State, a: seq<Move>, b: seq<Move>, done: set<PoolKind>, kind: PoolKind,
                  items: seq<Item>)
    requires Stage(s, t, a, done) && CashedOut(t, u, kind, items) && b == CashoutMoves(t, kind, items)
    ensures Stage(s, u, a + b, done + {kind})
  {
    hide Moved, ItemMoves, Sum, ItemsPaid, Eligible, SumWvp;
    MovedOn(s, t, u, a, b);
    forall n
      ensures Eligible(u.accounts, n) == Eligible(t.accounts, n)
    {
      SameEligible(t.accounts, u.accounts, items, GetPool(t.props, kind).weightedVps + SumWvp(items),
                   GetPool(t.props, kind).rewards, n);
    }
  }

  lemma StageStart(s: State)
    ensures Stage(s, s, [], {}) && Covered(s, [])
  {
    MovedNone(s);
  }

  /** The cashouts of a block discard it exactly when one of their payments meets a stale
      vote. */
  lemma DoIff(s: State, posts: seq<Item>, replies: seq<Item>, dapps: seq<Item>, votes: seq<Item>, d: Debt)
    requires Holds(s, d) && d.lost >= 0 && d.noted == 0
    ensures Do(s, posts, replies, dapps, votes).Ok? <==> Covered(s, DoMoves(s, posts, replies, dapps, votes))
    ensures Do(s, posts, replies, dapps, votes).Ok? ==>
              var t := Do(s, posts, replies, dapps, votes).value;
              Holds(t, d) && SameRest(s, t) && Moved(s, t, DoMoves(s, posts, replies, dapps, votes))
  {
    hide Holds, Cashout, Decay, CashoutMoves, Moved, Covered, Stage;
    MovedNone(s);
    if s.props.bootCompleted {
      CashoutsIff(s, posts, replies, dapps, votes, d);
    }
  }

  lemma CashoutsIff(s: State, posts: seq<Item>, replies: seq<Item>, dapps: seq<Item>, votes: seq<Item>, d: Debt)
    requires Holds(s, d) && d.lost >= 0 && d.noted == 0 && s.props.bootCompleted
    ensures Do(s, posts, replies, dapps, votes).Ok? <==> Covered(s, DoMoves(s, posts, replies, dapps, votes))
    ensures Do(s, posts, replies, dapps, votes).Ok? ==>
              var t := Do(s, posts, replies, dapps, votes).value;
              Holds(t, d) && SameRest(s, t) && Moved(s, t, DoMoves(s, posts, replies, dapps, votes))
  {
    hide Holds, Cashout, Decay, CashoutMoves, Moved, Covered, Stage;
    DecayKeeps(s, d);
    var s1 := Decayed(s);
    var a, b := CashoutMoves(s1, Posts, posts), CashoutMoves(s1, Replies, replies);
    var c, e := CashoutMoves(s1, Dapps, dapps), CashoutMoves(s1, Votes, votes);
    assert DoMoves(s, posts, replies, dapps, votes) == a + b + c + e;
    CoveredSame(s, s1, a + b + c + e);
    CoveredPrefix(s1, a, b);
    CoveredPrefix(s1, a + b, c);
    CoveredPrefix(s1, a + b + c, e);
    StageStart(s1);
    assert [] + a == a && {} + {Posts} == {Posts};
    assert {Posts} + {Replies} == {Posts, Replies} && {Posts, Replies} + {Dapps} == {Posts, Replies, Dapps};
    assert {Posts, Replies, Dapps} + {Votes} == {Posts, Replies, Dapps, Votes};
    StageOn(s1, s1, [], {}, Posts, posts, d);
    if Covered(s1, a) {
      var s2 := Cashout(s1, Posts, posts).value;
      StageOn(s1, s2, a, {Posts}, Replies, replies, d);
      if Covered(s1, a + b) {
        var s3 := Cashout(s2, Replies, replies).value;
        StageOn(s1, s3, a + b, {Posts, Replies}, Dapps, dapps, d);
        if Covered(s1, a + b + c) {
          var s4 := Cashout(s3, Dapps, dapps).value;
          StageOn(s1, s4, a + b + c, {Posts, Replies, Dapps}, Votes, votes, d);
          if Covered(s1, a + b + c + e) {
            StageEnds(s, s1, Cashout(s4, Votes, votes).value, a + b + c + e);
          }
        }
      }
    }
  }

  lemma StageEnds(s: State, s1: State, t: State, a: seq<Move>)
    requires s1 == Decayed(s) && Stage(s1, t, a, {Posts, Replies, Dapps, Votes})
    ensures SameRest(s, t) && Moved(s, t, a)
  {
    hide Gain, VoterGain, Decay, Eligible;
  }

  lemma {:induction false} CoveredPrefix(s: State, a: seq<Move>, b: seq<Move>)
    ensures Covered(s, a + b) ==> Covered(s, a)
  {
    hide CoveredAt;
    if b == [] {
      assert a + b == a;
    } else {
      assert (a + b)[..|a + b| - 1] == a + b[..|b| - 1];
      CoveredPrefix(s, a, b[..|b| - 1]);
    }
  }

  // ----- PowerDown -----

  /** `q` is the largest instalment within the rate, what is left of the announced amount and
      the vest that is neither borrowed nor the account fee. */
  predicate LargestInstalment(a: Account, fee: U64, q: int) {
    && 0 <= q <= a.eachRate && a.hasPowerdown + q <= a.toPowerdown && (q == 0 || a.borrowed + fee + q <= a.vest)
    && (q == a.eachRate || a.hasPowerdown + q == a.toPowerdown || a.borrowed + fee + q == a.vest
        || (q == 0 && a.vest < a.borrowed + fee))
  }

  /** A power-down instalment is covered by the account's own vest, its announced amount
      and the rate, and no larger one would be. */
  lemma QuotaCovered(a: Account, fee: U64)
    requires a.borrowed <= a.vest && a.hasPowerdown <= a.toPowerdown
    ensures PowerDownQuota(a, fee).Ok?
    ensures var q := PowerDownQuota(a, fee).value;
            && q <= a.eachRate && a.hasPowerdown + q <= a.toPowerdown && a.borrowed + q <= a.vest
            && (q > 0 ==> a.borrowed + fee + q <= a.vest) && LargestInstalment(a, fee, q)
  {
  }

  lemma LimitsOf(s: State, n: Name)
    requires Records(s) && n in s.accounts
    ensures s.accounts[n].borrowed <= s.accounts[n].vest && s.accounts[n].hasPowerdown <= s.accounts[n].toPowerdown
  {
    hide StakesOk, OrdersOk, NamesOk;
  }

  /** Vest becomes coins of the same account. */
  lemma VestToCosIff(s: State, n: Name, q: U64, a: Account, d: Debt)
    requires Holds(s, d) && d.lost >= 0 && n in s.accounts && q <= s.accounts[n].vest
    requires s.accounts[n].balance + q < TWO_64
    requires a == s.accounts[n].(vest := s.accounts[n].vest - q, balance := s.accounts[n].balance + q,
                                 hasPowerdown := a.hasPowerdown)
    requires a.borrowed <= a.vest && a.hasPowerdown <= a.toPowerdown
    ensures PutVest(s, n, a).Ok? <==> !Stale(s, n)
    ensures PutVest(s, n, a).Ok? ==> VestToCos(PutVest(s, n, a).value, q).Ok?
    ensures PutVest(s, n, a).Ok? ==>
              var t := VestToCos(PutVest(s, n, a).value, q).value;
              Holds(t, d) && t == s.(accounts := s.accounts[n := a], producers := t.producers, props := t.props)
              && t.props.totalCos == s.props.totalCos + q && t.props.totalVest == s.props.totalVest - q
              && SameRest(s, t) && t == PutVest(s, n, a).value.(props := t.props) && t.votes == s.votes
  {
    hide Sum, StakesOk, OrdersOk, LimitsOk, NamesOk, TallyOk, CountsOk, VotersOk, PutVest, Minted, MintOk, Stale;
    SupplyBound(s);
    VestSumBound(s, d);
    SumBounds(s.accounts, VestOf, ());
    AccountSums(s.accounts, n, a);
    PutVestIff(s, n, a, d.drift);
    if PutVest(s, n, a).Ok? {
      PutVestKeeps(s, n, a, d.drift);
    }
  }

  lemma CoinRoom(s: State, n: Name, q: U64, d: Debt)
    requires Holds(s, d) && d.lost >= 0 && n in s.accounts && q <= s.accounts[n].vest
    ensures s.accounts[n].balance + q < TWO_64
  {
    hide Sum, Records, IndexOk, Minted, MintOk;
    SupplyBound(s);
    VestSumBound(s, d);
    SumBounds(s.accounts, VestOf, ());
    SumBounds(s.accounts, BalanceOf, ());
    SumBounds(s.contracts, ContractBalance, ());
  }

  /** The instalment of an account. */
  function QuotaOf(s: State, n: Name): U64 {
    if n in s.accounts && PowerDownQuota(s.accounts[n], s.props.accountCreateFee).Ok?
    then PowerDownQuota(s.accounts[n], s.props.accountCreateFee).value else 0
  }

  /** The account's schedule after an instalment: it ends when all is paid or no more vest than
      the account fee is left, and comes due again a week of blocks later otherwise. */
  predicate Rescheduled(s: State, t: State, n: Name)
    requires n in s.accounts && n in t.accounts
  {
    var a := t.accounts[n];
    if a.hasPowerdown == a.toPowerdown || a.vest <= s.props.accountCreateFee
    then a.eachRate == 0 && a.nextPowerdown == 0xFFFF_FFFF_FFFF_FFFF
    else a.eachRate == s.accounts[n].eachRate && a.nextPowerdown == (s.props.head + 604_800) % TWO_64
  }

  /** Power-down of one account panics exactly when its vote is stale; otherwise the largest
      instalment within its limits moves from vest to balance, and nothing else but the account's
      schedule changes. */
  lemma PowerDownOneIff(s: State, n: Name, d: Debt)
    requires Holds(s, d) && d.lost >= 0 && n in s.accounts
    ensures PowerDownOne(s, n).Ok? <==> !Stale(s, n)
    ensures PowerDownOne(s, n).Ok? ==>
              var t := PowerDownOne(s, n).value;
              && Holds(t, d) && SameRest(s, t) && Moved(s, t, [Move(n, 0 - QuotaOf(s, n))])
              && t.accounts == s.accounts[n := t.accounts[n]] && Instalment(s, t, n, QuotaOf(s, n))
              && LargestInstalment(s.accounts[n], s.props.accountCreateFee, s.accounts[n].vest - t.accounts[n].vest)
              && Rescheduled(s, t, n)
  {
    hide Sum, Holds, PutVest, VestToCos, PowerDownQuota, Stale, Moved, SameRest, LargestInstalment;
    assert Records(s) by { HoldsRecords(s, d); }
    LimitsOf(s, n);
    QuotaCovered(s.accounts[n], s.props.accountCreateFee);
    var q := QuotaOf(s, n);
    CoinRoom(s, n, q, d);
    var a := s.accounts[n].(vest := s.accounts[n].vest - q, balance := s.accounts[n].balance + q,
                            hasPowerdown := s.accounts[n].hasPowerdown + q);
    VestToCosIff(s, n, q, a, d);
    if !Stale(s, n) {
      var u := PutVest(s, n, a).value;
      var t := VestToCos(u, q).value;
      var v := PowerDownOne(s, n).value;
      ScheduleKeeps(t, n, v.accounts[n], d);
      SameRestOn(s, t, v);
      PowerDownMoved(s, u, v, n, a);
    }
  }

  lemma SameRestOn(s: State, t: State, u: State)
    requires SameRest(s, t) && SameRest(t, u)
    ensures SameRest(s, u)
  {
  }

  lemma HoldsRecords(s: State, d: Debt)
    requires Holds(s, d)
    ensures Records(s)
  {
  }

  /** What one instalment moves. */
  predicate Instalment(s: State, t: State, n: Name, q: U64) {
    && n in s.accounts && n in t.accounts
    && t.accounts[n].vest == s.accounts[n].vest - q && t.accounts[n].balance == s.accounts[n].balance + q
    && t.accounts[n].hasPowerdown == s.accounts[n].hasPowerdown + q
    && t.accounts[n] == s.accounts[n].(vest := t.accounts[n].vest, balance := t.accounts[n].balance,
                                       hasPowerdown := t.accounts[n].hasPowerdown, eachRate := t.accounts[n].eachRate,
                                       nextPowerdown := t.accounts[n].nextPowerdown)
    && t.props.totalCos == s.props.totalCos + q && t.props.totalVest == s.props.totalVest - q
  }

  lemma PowerDownMoved(s: State, u: State, v: State, n: Name, a: Account)
    requires n in s.accounts && PutVest(s, n, a) == Ok(u)
    requires v.votes == u.votes && v.producers == u.producers
    requires u.accounts == s.accounts[n := a] && n in v.accounts && v.accounts == s.accounts[n := v.accounts[n]]
    requires v.accounts[n].vest == a.vest
    ensures Moved(s, v, [Move(n, a.vest - s.accounts[n].vest)])
  {
    hide Moved, PutVest, Gain, VoterGain;
    MovedNone(s);
    MovedOne(s, s, u, [], n, a);
    assert [] + [Move(n, a.vest - s.accounts[n].vest)] == [Move(n, a.vest - s.accounts[n].vest)];
    MovedFrame(s, u, v, [Move(n, a.vest - s.accounts[n].vest)]);
  }

  /** The power-down schedule of an account is not part of the books. */
  lemma ScheduleKeeps(s: State, n: Name, a: Account, d: Debt)
    requires Holds(s, d) && n in s.accounts
    requires a == s.accounts[n].(eachRate := a.eachRate, nextPowerdown := a.nextPowerdown)
    ensures Holds(PutAccount(s, n, a), d) && SameRest(s, PutAccount(s, n, a))
  {
    hide Sum, StakesOk, OrdersOk, LimitsOk, NamesOk, TallyOk, CountsOk, VotersOk, Minted, MintOk;
    AccountSums(s.accounts, n, a);
    RowKeeps(s, n, a, d.drift);
  }

  /** The instalments of a list of accounts. */
  function PowerDownMoves(s: State, names: seq<Name>): seq<Move> {
    if names == [] then []
    else PowerDownMoves(s, names[..|names| - 1]) + [Move(names[|names| - 1], 0 - QuotaOf(s, names[|names| - 1]))]
  }

  predicate Distinct<T(==)>(list: seq<T>) {
    forall i, j :: 0 <= i < j < |list| ==> list[i] != list[j]
  }

  /** The pass over accounts that are all different. */
  lemma {:induction false} PowerDownAllIff(s: State, names: seq<Name>, d: Debt)
    requires Holds(s, d) && d.lost >= 0 && Distinct(names) && forall i :: 0 <= i < |names| ==> names[i] in s.accounts
    ensures PowerDownAll(s, names).Ok? <==> Covered(s, PowerDownMoves(s, names))
    ensures PowerDownAll(s, names).Ok? ==>
              var t := PowerDownAll(s, names).value;
              && Holds(t, d) && SameRest(s, t) && Moved(s, t, PowerDownMoves(s, names))
              && forall n :: n in s.accounts && n !in names ==> t.accounts[n] == s.accounts[n]
  {
    hide Holds, PowerDownOne, Moved, Covered, QuotaOf, Stale, Instalment;
    if names == [] {
      MovedNone(s);
    } else {
      var init, n := names[..|names| - 1], names[|names| - 1];
      PowerDownAllIff(s, init, d);
      var moves := PowerDownMoves(s, init);
      CoveredMore(s, moves, Move(n, 0 - QuotaOf(s, n)));
      if PowerDownAll(s, init).Ok? {
        var t := PowerDownAll(s, init).value;
        assert n !in init && t.accounts[n] == s.accounts[n];
        SameQuota(s, t, n);
        PowerDownOneIff(t, n, d);
        MovedStale(s, t, moves, n);
        if PowerDownOne(t, n).Ok? {
          MovedOn(s, t, PowerDownOne(t, n).value, moves, [Move(n, 0 - QuotaOf(s, n))]);
        }
      }
    }
  }

  /** While the index is right, no account's power-down is stopped. */
  lemma {:induction false} PowerDownAllGoes(s: State, names: seq<Name>, d: Debt)
    requires Holds(s, d) && d.lost >= 0 && (forall p :: DriftOf(d.drift, p) == 0)
    requires Distinct(names) && forall i :: 0 <= i < |names| ==> names[i] in s.accounts
    ensures Covered(s, PowerDownMoves(s, names))
  {
    hide Holds, PowerDownOne, Moved, Covered, QuotaOf, Stale, Instalment;
    PowerDownAllIff(s, names, d);
    if names != [] {
      var init, n := names[..|names| - 1], names[|names| - 1];
      PowerDownAllGoes(s, init, d);
      PowerDownAllIff(s, init, d);
      var t := PowerDownAll(s, init).value;
      PowerDownOneIff(t, n, d);
      assert IndexOk(t, d.drift) by { HoldsIndex(t, d); }
      NeverStale(t, n, d.drift);
    } else {
      MovedNone(s);
    }
  }

  lemma HoldsIndex(s: State, d: Debt)
    requires Holds(s, d)
    ensures IndexOk(s, d.drift)
  {
  }

  lemma SameQuota(s: State, t: State, n: Name)
    requires n in s.accounts && n in t.accounts && t.accounts[n] == s.accounts[n]
    requires t.props.accountCreateFee == s.props.accountCreateFee
    ensures QuotaOf(t, n) == QuotaOf(s, n)
  {
  }

  // ----- DeliverDelegatedVests -----

  lemma DeliverBook(m: map<Name, Account>, orders: map<U64, Order>, id: U64, a: Account)
    requires OrdersOk(m, orders) && id in orders && orders[id].delivering && orders[id].from in m
    requires a.delivering == m[orders[id].from].delivering - orders[id].amount
    requires a.lent == m[orders[id].from].lent && a.borrowed == m[orders[id].from].borrowed
    ensures OrdersOk(m[orders[id].from := a], orders - {id})
  {
    hide OrdersOk;
    OrderRemoved(m, m[orders[id].from := a], orders, id);
  }

  /** Delivering a recalled order panics exactly when the lender's vote is stale; otherwise it
      is paid in full, and removed. */
  lemma DeliverOneIff(s: State, id: U64, d: Debt)
    requires Holds(s, d) && d.lost >= 0 && id in s.orders && s.orders[id].delivering
    ensures s.orders[id].from in s.accounts && (DeliverOne(s, id).Ok? <==> !Stale(s, s.orders[id].from))
    ensures DeliverOne(s, id).Ok? ==>
              var t, o := DeliverOne(s, id).value, s.orders[id];
              && Holds(t, d) && t.orders == s.orders - {id} && SameRest(s, t.(orders := s.orders))
              && Moved(s, t, [Move(o.from, o.amount)])
              && t.accounts[o.from].delivering == s.accounts[o.from].delivering - o.amount
  {
    hide Sum, StakesOk, OrdersOk, LimitsOk, NamesOk, TallyOk, CountsOk, VotersOk, PutVest, Minted, MintOk, Stale, Moved;
    var o := s.orders[id];
    OrderCovered(s.accounts, s.orders, id);
    VestBounds(s, o.from, d);
    var a := s.accounts[o.from].(delivering := s.accounts[o.from].delivering - o.amount,
                                 vest := s.accounts[o.from].vest + o.amount);
    PutVestIff(s, o.from, a, d.drift);
    if PutVest(s, o.from, a).Ok? {
      var u := PutVest(s, o.from, a).value;
      VestRowKeeps(s, o.from, a, d.drift);
      AccountSums(s.accounts, o.from, a);
      DeliverBook(s.accounts, s.orders, id, a);
      assert s.accounts[o.from := a].Keys == s.accounts.Keys;
      PowerDownMoved(s, u, DeliverOne(s, id).value, o.from, a);
    }
  }

  /** The payments of a list of orders. */
  function DeliverMoves(s: State, ids: seq<U64>): seq<Move>
    requires forall i :: 0 <= i < |ids| ==> ids[i] in s.orders
  {
    if ids == [] then []
    else
      var o := s.orders[ids[|ids| - 1]];
      DeliverMoves(s, ids[..|ids| - 1]) + [Move(o.from, o.amount)]
  }

  /** All recalled orders of a list without repetition are delivered, unless a payment meets a
      stale vote. */
  lemma {:induction false} DeliverAllIff(s: State, ids: seq<U64>, d: Debt)
    requires Holds(s, d) && d.lost >= 0 && Distinct(ids)
    requires forall i :: 0 <= i < |ids| ==> ids[i] in s.orders && s.orders[ids[i]].delivering
    ensures DeliverAll(s, ids).Ok? <==> Covered(s, DeliverMoves(s, ids))
    ensures DeliverAll(s, ids).Ok? ==>
              var t := DeliverAll(s, ids).value;
              && Holds(t, d) && SameRest(s, t.(orders := s.orders)) && Moved(s, t, DeliverMoves(s, ids))
              && t.orders == s.orders - (set i | 0 <= i < |ids| :: ids[i])
  {
    hide Holds, DeliverOne, Moved, Covered, Stale;
    if ids == [] {
      MovedNone(s);
    } else {
      var k := |ids| - 1;
      var init, id := ids[..k], ids[k];
      var o := s.orders[id];
      DeliverAllIff(s, init, d);
      var moves := DeliverMoves(s, init);
      CoveredMore(s, moves, Move(o.from, o.amount));
      if DeliverAll(s, init).Ok? {
        var t := DeliverAll(s, init).value;
        assert id in t.orders && t.orders[id] == o;
        DeliverOneIff(t, id, d);
        MovedStale(s, t, moves, o.from);
        assert t.orders - {id} == s.orders - (set i | 0 <= i < |ids| :: ids[i]);
        if DeliverOne(t, id).Ok? {
          MovedOn(s, t, DeliverOne(t, id).value, moves, [Move(o.from, o.amount)]);
        }
      }
    }
  }

  /** Only recalled orders have a delivery block below the largest signed number. */
  lemma DueIsRecalled(s: State, id: U64)
    requires Records(s) && s.props.head < MAX_INT64 && id in DeliveryDue(s)
    ensures s.orders[id].delivering
  {
    hide StakesOk, LimitsOk, NamesOk;
  }
}
