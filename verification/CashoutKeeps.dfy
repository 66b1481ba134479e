/** The four cashouts: proportional rewards, rounded down, never overdraw their pool. */
module CashoutKeeps {
  import opened Amounts
  import opened Sums
  import opened LedgerState
  import opened Evaluators
  import opened Economist
  import opened LedgerInvariant
  import opened LedgerKeeps
  import opened MintKeeps
  import opened PassKeeps
  import opened VestMoves

  // ----- proportions -----

  /** A proportion is the whole part of the exact share. */
  lemma ProportionExact(wvp: nat, weight: nat, pool: nat)
    requires 0 < weight
    ensures Proportion(wvp, weight, pool) * weight <= wvp * pool < (Proportion(wvp, weight, pool) + 1) * weight
  {
    var x := wvp * pool;
    assert x == x / weight * weight + x % weight;
    assert (x / weight + 1) * weight == x / weight * weight + weight;
  }

  /** A proportion is rounded down. */
  lemma ProportionFloor(wvp: nat, weight: nat, pool: nat)
    ensures Proportion(wvp, weight, pool) * weight <= wvp * pool
  {
    if weight != 0 {
      var x := wvp * pool;
      assert x / weight * weight <= x;
    }
  }

  /** If `c` parts of `weight` were taken for `w` weights, one more item adds its own part. */
  lemma PartsAdd(c: nat, r: nat, w: nat, v: nat, weight: nat, pool: nat)
    requires c * weight <= w * pool && r * weight <= v * pool
    ensures (c + r) * weight <= (w + v) * pool
  {
    assert (c + r) * weight == c * weight + r * weight;
    assert (w + v) * pool == w * pool + v * pool;
  }

  lemma PartsBounded(c: nat, w: nat, weight: nat, pool: nat)
    requires c * weight <= w * pool && w <= weight && 0 < weight
    ensures c <= pool
  {
    MulMonotone(w, weight, pool);
    if c > pool {
      MulMonotone(pool + 1, c, weight);
    }
  }

  lemma MulMonotone(a: nat, b: nat, c: nat)
    requires a <= b
    ensures a * c <= b * c
  {
  }

  lemma {:induction false} SumWvpPrefix(items: seq<Item>, k: nat)
    requires k <= |items|
    ensures SumWvp(items[..k]) <= SumWvp(items)
    decreases |items| - k
  {
    if k < |items| {
      assert items[..k + 1][..k] == items[..k];
      SumWvpPrefix(items, k + 1);
    } else {
      assert items[..k] == items;
    }
  }

  // ----- rewards -----

  /** What the items before `k` claim of the pool, were none of them refused. */
  function Rewards(items: seq<Item>, weight: nat, pool: nat): nat {
    if items == [] then 0
    else Rewards(items[..|items| - 1], weight, pool) + Proportion(items[|items| - 1].wvp, weight, pool)
  }

  lemma {:induction false} RewardsParts(items: seq<Item>, weight: nat, pool: nat)
    ensures Rewards(items, weight, pool) * weight <= SumWvp(items) * pool
  {
    if items != [] {
      var rest, item := items[..|items| - 1], items[|items| - 1];
      RewardsParts(rest, weight, pool);
      ProportionFloor(item.wvp, weight, pool);
      PartsAdd(Rewards(rest, weight, pool), Proportion(item.wvp, weight, pool), SumWvp(rest), item.wvp, weight, pool);
    }
  }

  lemma {:induction false} RewardsZero(items: seq<Item>, pool: nat)
    ensures Rewards(items, 0, pool) == 0
  {
    if items != [] {
      RewardsZero(items[..|items| - 1], pool);
    }
  }

  /** Rounding every item down loses less than one unit for each. */
  lemma {:induction false} RewardsNearly(items: seq<Item>, weight: nat, pool: nat)
    requires 0 < weight
    ensures Rewards(items, weight, pool) * weight <= SumWvp(items) * pool
    ensures SumWvp(items) * pool <= Rewards(items, weight, pool) * weight + |items| * (weight - 1)
  {
    RewardsParts(items, weight, pool);
    if items != [] {
      hide Proportion;
      var rest, item := items[..|items| - 1], items[|items| - 1];
      RewardsNearly(rest, weight, pool);
      ProportionExact(item.wvp, weight, pool);
      OneMoreShare(Rewards(rest, weight, pool), Proportion(item.wvp, weight, pool), SumWvp(rest), item.wvp, |rest|, weight,
                   pool);
    }
  }

  lemma OneMoreShare(c: nat, r: nat, w: nat, v: nat, k: nat, weight: nat, pool: nat)
    requires 0 < weight && w * pool <= c * weight + k * (weight - 1) && v * pool < (r + 1) * weight
    ensures (w + v) * pool <= (c + r) * weight + (k + 1) * (weight - 1)
  {
    assert (w + v) * pool == w * pool + v * pool;
    assert (c + r) * weight == c * weight + r * weight;
    assert (r + 1) * weight == r * weight + weight;
    assert (k + 1) * (weight - 1) == k * (weight - 1) + (weight - 1);
  }

  /** For any weights the rounded rewards add up to at most the pool, and to the exact share of
      the items but for less than one unit for each. */
  lemma RewardsWithinPool(items: seq<Item>, weight: nat, pool: nat)
    requires SumWvp(items) <= weight
    ensures Rewards(items, weight, pool) <= pool
    ensures 0 < weight ==> SumWvp(items) * pool <= Rewards(items, weight, pool) * weight + |items| * (weight - 1)
  {
    if weight == 0 {
      RewardsZero(items, pool);
    } else {
      RewardsNearly(items, weight, pool);
      PartsBounded(Rewards(items, weight, pool), SumWvp(items), weight, pool);
    }
  }

  predicate Eligible(m: map<Name, Account>, n: Name) {
    n in m && m[n].reputation != MIN_REPUTATION
  }

  function Rewarded(m: map<Name, Account>, n: Name, reward: nat): map<Name, Account> {
    if reward != 0 && Eligible(m, n) && m[n].vest + reward < TWO_64
    then m[n := m[n].(vest := m[n].vest + reward)] else m
  }

  /** A reward goes through unless it meets a stale vote. */
  lemma ProcessRewardIff(s: State, n: Name, reward: nat, d: Debt)
    requires Holds(s, d) && reward < TWO_64 && Sum(s.accounts, VestOf, ()) + reward < TWO_64
    ensures ProcessReward(s, n, reward).Ok? <==> (reward != 0 && Eligible(s.accounts, n) ==> !Stale(s, n))
    ensures ProcessReward(s, n, reward).Ok? ==>
              var (t, paid) := ProcessReward(s, n, reward).value;
              var given := if paid then reward else 0;
              && paid == (reward == 0 || Eligible(s.accounts, n))
              && t.accounts == Rewarded(s.accounts, n, reward) && t.dappRewards == s.dappRewards
              && SameBut(s, t) && Holds(t, Paid(d, given))
              && Sum(t.accounts, VestOf, ()) == Sum(s.accounts, VestOf, ()) + given
  {
    hide Sum, Holds, PutVest, Stale;
    assert Holds(s, Paid(d, 0)) by { PaidNought(s, d); }
    if reward != 0 && Eligible(s.accounts, n) {
      PayVest(s, n, reward, d);
      assert ProcessReward(s, n, reward).Ok? ==>
          ProcessReward(s, n, reward) == Ok((PutVest(s, n, WithVest(s, n, reward)).value, true));
    }
  }

  lemma PaidNought(s: State, d: Debt)
    requires Holds(s, d)
    ensures Holds(s, Paid(d, 0))
  {
    assert Paid(d, 0) == d;
  }

  /** What the items pay to account `n`: nothing when it is missing or banned. */
  function PaidTo(m: map<Name, Account>, n: Name, items: seq<Item>, weight: nat, pool: nat): nat {
    if items == [] then 0
    else
      var item := items[|items| - 1];
      PaidTo(m, n, items[..|items| - 1], weight, pool)
      + if item.beneficiary == n && Eligible(m, n) then Proportion(item.wvp, weight, pool) else 0
  }

  /** Every account gains what its items pay, and changes in nothing else. */
  ghost predicate ItemsPaid(m: map<Name, Account>, m2: map<Name, Account>, items: seq<Item>, weight: nat, pool: nat) {
    m2.Keys == m.Keys
    && forall n :: n in m ==>
         m2[n] == m[n].(vest := m2[n].vest) && m2[n].vest == m[n].vest + PaidTo(m, n, items, weight, pool)
  }

  lemma OneMorePaid(m: map<Name, Account>, m2: map<Name, Account>, items: seq<Item>, weight: nat, pool: nat)
    requires items != [] && ItemsPaid(m, m2, items[..|items| - 1], weight, pool)
    requires forall n :: n in m2 ==> m2[n].vest + Proportion(items[|items| - 1].wvp, weight, pool) < TWO_64
    ensures var item := items[|items| - 1];
            ItemsPaid(m, Rewarded(m2, item.beneficiary, Proportion(item.wvp, weight, pool)), items, weight, pool)
  {
    hide Proportion;
  }

  lemma PaidNothing(m: map<Name, Account>, weight: nat, pool: nat)
    ensures ItemsPaid(m, m, [], weight, pool)
  {
  }

  // ----- what posts note -----

  ghost function Noted(s: State): int {
    Sum(s.dappRewards, DappAmount, ())
  }

  /** After a cashout of `kind` has paid `c`, before it is settled. */
  function Claimed(d: Debt, kind: PoolKind, c: int): Debt {
    d.(lost := d.lost - c, noted := d.noted + if kind.Dapps? then c else 0)
  }

  lemma NoteKeeps(s: State, kind: PoolKind, post: U64, reward: nat, d: Debt)
    requires Holds(s, d) && Noted(s) + reward < TWO_64
    ensures NoteReward(s, kind, post, reward).Ok?
    ensures var t := NoteReward(s, kind, post, reward).value;
            && t == s.(dappRewards := t.dappRewards) && Holds(t, d.(noted := d.noted + if kind.Dapps? then reward else 0))
            && Noted(t) == Noted(s) + if kind.Dapps? then reward else 0
  {
    hide Sum, StakesOk, OrdersOk, LimitsOk, NamesOk, TallyOk, CountsOk, VotersOk, Minted, MintOk, PoolsLeft, PoolsClaimed;
    SumBounds(s.dappRewards, DappAmount, ());
    var total: U64 := (DappRewardOf(s, post) + reward) % TWO_64;
    SumPut(s.dappRewards, DappAmount, (), post, total);
  }

  // ----- the loop -----

  /** The payments of the items: one for each reward that is not zero and not refused. */
  function ItemMoves(m: map<Name, Account>, items: seq<Item>, weight: nat, pool: nat): seq<Move> {
    if items == [] then []
    else
      var item := items[|items| - 1];
      ItemMoves(m, items[..|items| - 1], weight, pool)
      + ItemMove(m, item.beneficiary, Proportion(item.wvp, weight, pool))
  }

  function ItemMove(m: map<Name, Account>, n: Name, reward: nat): seq<Move> {
    if reward != 0 && Eligible(m, n) then [Move(n, reward)] else []
  }

  lemma OneMove(m: map<Name, Account>, n: Name, reward: nat)
    ensures ItemMove(m, n, reward) != [] ==> |ItemMove(m, n, reward)| == 1 && ItemMove(m, n, reward)[0].name == n
  {
  }

  /** What the loop has done when it has not panicked. */
  ghost predicate LoopDone(s: State, kind: PoolKind, items: seq<Item>, weight: nat, pool: nat, t: State, claimed: nat) {
    && SameBut(s, t) && claimed <= Rewards(items, weight, pool)
    && Sum(t.accounts, VestOf, ()) == Sum(s.accounts, VestOf, ()) + claimed
    && Noted(t) == Noted(s) + (if kind.Dapps? then claimed else 0)
    && ItemsPaid(s.accounts, t.accounts, items, weight, pool)
    && Moved(s, t, ItemMoves(s.accounts, items, weight, pool))
  }

  lemma NothingDone(s: State, kind: PoolKind, weight: nat, pool: nat)
    ensures LoopDone(s, kind, [], weight, pool, s, 0)
  {
    hide Sum;
    PaidNothing(s.accounts, weight, pool);
    MovedNone(s);
  }

  /** There is room for the rewards of all items. */
  ghost predicate Fits(s: State, rewards: nat) {
    && 0 <= Sum(s.accounts, VestOf, ()) && Sum(s.accounts, VestOf, ()) + rewards < TWO_64
    && 0 <= Noted(s) && Noted(s) + rewards < TWO_64
  }

  lemma FitsInit(s: State, items: seq<Item>, weight: nat, pool: nat)
    requires items != [] && Fits(s, Rewards(items, weight, pool))
    ensures Fits(s, Rewards(items[..|items| - 1], weight, pool))
  {
    hide Sum, Noted;
  }

  lemma FitsOne(s: State, kind: PoolKind, items: seq<Item>, weight: nat, pool: nat, t: State, claimed: nat)
    requires items != [] && LoopDone(s, kind, items[..|items| - 1], weight, pool, t, claimed)
    requires Fits(s, Rewards(items, weight, pool))
    ensures Fits(t, Proportion(items[|items| - 1].wvp, weight, pool))
    ensures forall n :: n in t.accounts ==> t.accounts[n].vest + Proportion(items[|items| - 1].wvp, weight, pool) < TWO_64
  {
    hide Sum, Proportion, ItemsPaid, Moved, Noted;
    SumBounds(t.accounts, VestOf, ());
  }

  /** One item behind those before it: it goes through unless it meets a stale vote. */
  lemma PayItemIff(s: State, kind: PoolKind, items: seq<Item>, weight: nat, pool: nat, t: State, claimed: nat, d: Debt)
    requires items != [] && LoopDone(s, kind, items[..|items| - 1], weight, pool, t, claimed)
    requires Holds(t, d) && Fits(s, Rewards(items, weight, pool))
    ensures var item := items[|items| - 1];
            var reward := Proportion(item.wvp, weight, pool);
            PayItem(t, kind, item, reward).Ok? <==>
              (ItemMove(s.accounts, item.beneficiary, reward) != [] ==>
                 CoveredAt(s, ItemMoves(s.accounts, items[..|items| - 1], weight, pool), item.beneficiary))
  {
    hide Sum, Holds, ProcessReward, NoteReward, Proportion, Rewarded, ItemsPaid, Moved, CoveredAt, Stale, Noted, ItemMoves;
    var item := items[|items| - 1];
    var n, reward := item.beneficiary, Proportion(item.wvp, weight, pool);
    FitsOne(s, kind, items, weight, pool, t, claimed);
    SameEligible(s.accounts, t.accounts, items[..|items| - 1], weight, pool, n);
    ProcessRewardIff(t, n, reward, d);
    if Eligible(s.accounts, n) {
      MovedStale(s, t, ItemMoves(s.accounts, items[..|items| - 1], weight, pool), n);
    }
    if ProcessReward(t, n, reward).Ok? {
      var (u, paid) := ProcessReward(t, n, reward).value;
      SameNoted(t, u);
      NoteKeeps(u, kind, item.post, if paid then reward else 0, Paid(d, if paid then reward else 0));
    }
  }

  /** One payment on its own. */
  lemma PayItemPays(t: State, kind: PoolKind, item: Item, reward: nat, d: Debt)
    requires Holds(t, d) && Fits(t, reward) && PayItem(t, kind, item, reward).Ok?
    ensures var (v, given) := PayItem(t, kind, item, reward).value;
            && given <= reward && SameBut(t, v) && v.accounts == Rewarded(t.accounts, item.beneficiary, reward)
            && Sum(v.accounts, VestOf, ()) == Sum(t.accounts, VestOf, ()) + given
            && Noted(v) == Noted(t) + (if kind.Dapps? then given else 0)
            && Holds(v, Claimed(d, kind, given))
            && ProcessReward(t, item.beneficiary, reward).Ok?
            && v == ProcessReward(t, item.beneficiary, reward).value.0.(dappRewards := v.dappRewards)
  {
    hide Sum, Holds, ProcessReward, NoteReward, Rewarded, Stale, Noted, Eligible;
    ProcessRewardIff(t, item.beneficiary, reward, d);
    var (u, paid) := ProcessReward(t, item.beneficiary, reward).value;
    var given := if paid then reward else 0;
    SameNoted(t, u);
    NoteKeeps(u, kind, item.post, given, Paid(d, given));
  }

  lemma PayItemDone(s: State, kind: PoolKind, items: seq<Item>, weight: nat, pool: nat, t: State, claimed: nat, d: Debt)
    requires items != [] && LoopDone(s, kind, items[..|items| - 1], weight, pool, t, claimed)
    requires Holds(t, Claimed(d, kind, claimed)) && Fits(s, Rewards(items, weight, pool))
    requires PayItem(t, kind, items[|items| - 1], Proportion(items[|items| - 1].wvp, weight, pool)).Ok?
    ensures var (u, given) := PayItem(t, kind, items[|items| - 1], Proportion(items[|items| - 1].wvp, weight, pool)).value;
            LoopDone(s, kind, items, weight, pool, u, claimed + given) && Holds(u, Claimed(d, kind, claimed + given))
  {
    hide Sum, Holds, PayItem, ProcessReward, Proportion, Rewarded, ItemsPaid, Moved, Noted, SameBut, Fits;
    var item := items[|items| - 1];
    var n, reward := item.beneficiary, Proportion(item.wvp, weight, pool);
    FitsOne(s, kind, items, weight, pool, t, claimed);
    SameEligible(s.accounts, t.accounts, items[..|items| - 1], weight, pool, n);
    PayItemPays(t, kind, item, reward, Claimed(d, kind, claimed));
    var (v, given) := PayItem(t, kind, item, reward).value;
    OneMorePaid(s.accounts, t.accounts, items, weight, pool);
    ItemMoved(s, t, ProcessReward(t, n, reward).value.0, v, ItemMoves(s.accounts, items[..|items| - 1], weight, pool), n,
              reward);
    SameButOn(s, t, v);
    ClaimedMore(d, kind, claimed, given);
  }

  lemma SameButOn(s: State, t: State, v: State)
    requires SameBut(s, t) && SameBut(t, v)
    ensures SameBut(s, v)
  {
  }

  lemma SameNoted(s: State, t: State)
    requires s.dappRewards == t.dappRewards
    ensures Noted(s) == Noted(t)
  {
  }

  lemma ClaimedMore(d: Debt, kind: PoolKind, a: int, b: int)
    ensures Claimed(Claimed(d, kind, a), kind, b) == Claimed(d, kind, a + b)
  {
  }

  /** Rewards do not change who is eligible. */
  lemma SameEligible(m: map<Name, Account>, m2: map<Name, Account>, items: seq<Item>, weight: nat, pool: nat, n: Name)
    requires ItemsPaid(m, m2, items, weight, pool)
    ensures Eligible(m2, n) == Eligible(m, n)
  {
    hide PaidTo;
  }

  lemma ItemMoved(s: State, t: State, u: State, v: State, moves: seq<Move>, n: Name, reward: nat)
    requires Moved(s, t, moves) && (Eligible(t.accounts, n) <==> Eligible(s.accounts, n))
    requires ProcessReward(t, n, reward).Ok? && ProcessReward(t, n, reward).value.0 == u && v == u.(dappRewards := v.dappRewards)
    requires Eligible(t.accounts, n) ==> t.accounts[n].vest + reward < TWO_64
    ensures Moved(s, v, moves + ItemMove(s.accounts, n, reward))
  {
    hide Moved, PutVest, Gain, VoterGain;
    if reward != 0 && Eligible(t.accounts, n) {
      MovedOne(s, t, u, moves, n, WithVest(t, n, reward));
    } else {
      assert u == t && moves + [] == moves;
    }
    MovedFrame(s, u, v, moves + ItemMove(s.accounts, n, reward));
  }

  /** The loop goes through exactly when no payment meets a stale vote, and then claims exactly
      what the accounts gain. */
  lemma {:induction false} PayItemsIff(s: State, kind: PoolKind, items: seq<Item>, weight: nat, pool: nat, d: Debt)
    requires Holds(s, d) && Fits(s, Rewards(items, weight, pool))
    ensures PayItems(s, kind, items, weight, pool).Ok? <==> Covered(s, ItemMoves(s.accounts, items, weight, pool))
    ensures PayItems(s, kind, items, weight, pool).Ok? ==>
              var (t, claimed) := PayItems(s, kind, items, weight, pool).value;
              LoopDone(s, kind, items, weight, pool, t, claimed) && Holds(t, Claimed(d, kind, claimed))
  {
    hide Holds, PayItem, Proportion, LoopDone, Covered, CoveredAt, Fits, Rewards, ItemMove;
    if items == [] {
      MovedNone(s);
      NothingDone(s, kind, weight, pool);
      assert Claimed(d, kind, 0) == d;
    } else {
      var init, item := items[..|items| - 1], items[|items| - 1];
      FitsInit(s, items, weight, pool);
      PayItemsIff(s, kind, init, weight, pool, d);
      var moves := ItemMoves(s.accounts, init, weight, pool);
      var move := ItemMove(s.accounts, item.beneficiary, Proportion(item.wvp, weight, pool));
      if PayItems(s, kind, init, weight, pool).Ok? {
        var (t, claimed) := PayItems(s, kind, init, weight, pool).value;
        PayItemIff(s, kind, items, weight, pool, t, claimed, Claimed(d, kind, claimed));
        if PayItem(t, kind, item, Proportion(item.wvp, weight, pool)).Ok? {
          PayItemDone(s, kind, items, weight, pool, t, claimed, d);
        }
      }
      if move == [] {
        assert moves + move == moves;
      } else {
        assert |move| == 1 && move[0].name == item.beneficiary by {
          OneMove(s.accounts, item.beneficiary, Proportion(item.wvp, weight, pool));
        }
        CoveredMore(s, moves, move[0]);
        assert move == [move[0]];
      }
    }
  }

  // ----- one cashout -----

  /** Everything but the accounts' vest, the vote index, the notes and one pool stays. */
  ghost predicate PoolStep(s: State, t: State, kind: PoolKind) {
    SameBut(s, t.(props := s.props)) && t.props == PutPool(s.props, kind, GetPool(t.props, kind))
  }

  /** What writing one pool does to the totals. */
  lemma PutPoolMoves(p: Props, kind: PoolKind, pool: Pool)
    ensures var q, was := PutPool(p, kind, pool), GetPool(p, kind);
            && PoolsLeft(q) == PoolsLeft(p) - was.rewards + pool.rewards
            && PoolsClaimed(q) == PoolsClaimed(p) - was.claimed + pool.claimed
            && q.dapps.claimed == p.dapps.claimed + (if kind.Dapps? then pool.claimed - was.claimed else 0)
            && q == p.(posts := q.posts, replies := q.replies, dapps := q.dapps, votes := q.votes)
            && GetPool(q, kind) == pool && q == PutPool(p, kind, GetPool(q, kind))
            && 0 <= was.rewards <= PoolsLeft(p) && 0 <= was.claimed <= PoolsClaimed(p)
            && forall k :: k != kind ==> GetPool(q, k) == GetPool(p, k)
  {
  }

  /** Pools may change when their totals move as the debt does. */
  lemma PoolsKeep(s: State, q: Props, d: Debt, e: Debt)
    requires Holds(s, d) && e.drift == d.drift
    requires q == s.props.(posts := q.posts, replies := q.replies, dapps := q.dapps, votes := q.votes)
    requires PoolsLeft(q) + e.lost == PoolsLeft(s.props) + d.lost
    requires PoolsLeft(q) + PoolsClaimed(q) <= PoolsLeft(s.props) + PoolsClaimed(s.props)
    requires q.dapps.claimed + e.noted == s.props.dapps.claimed + d.noted
    ensures Holds(s.(props := q), e)
  {
    hide Sum, StakesOk, OrdersOk, LimitsOk, NamesOk, TallyOk, CountsOk, VotersOk, Minted, MintOk, PoolsLeft, PoolsClaimed;
  }

  /** The weights of the pools are not part of the books. */
  lemma WeighKeeps(s: State, kind: PoolKind, weight: nat, d: Debt)
    requires Holds(s, d)
    ensures var t := Weigh(s, kind, weight);
            && Holds(t, d) && t == s.(props := t.props) && PoolStep(s, t, kind)
            && GetPool(t.props, kind) == GetPool(s.props, kind).(weightedVps := weight)
  {
    hide Holds, GetPool, PutPool, PoolsLeft, PoolsClaimed;
    PutPoolMoves(s.props, kind, GetPool(s.props, kind).(weightedVps := weight));
    PoolsKeep(s, Weigh(s, kind, weight).props, d, d);
  }

  /** What is paid fits. */
  lemma PoolRoom(s: State, kind: PoolKind, d: Debt)
    requires Holds(s, d) && d.lost >= 0 && d.noted == 0
    ensures 0 <= Sum(s.accounts, VestOf, ()) && Sum(s.accounts, VestOf, ()) + GetPool(s.props, kind).rewards <= s.props.totalVest
    ensures 0 <= Noted(s) && Noted(s) + GetPool(s.props, kind).rewards < TWO_64
  {
    hide Sum, Records, IndexOk, Minted, MintOk, GetPool, PoolsLeft, PoolsClaimed;
    SumBounds(s.accounts, VestOf, ());
    SumBounds(s.accounts, DeliveringOf, ());
    SumBounds(s.dappRewards, DappAmount, ());
    PutPoolMoves(s.props, kind, GetPool(s.props, kind));
    PutPoolMoves(s.props, Dapps, s.props.dapps);
    assert GetPool(s.props, Dapps) == s.props.dapps by { DappsPool(s.props); }
    MintedBound(s.props.year);
  }

  lemma DappsPool(p: Props)
    ensures GetPool(p, Dapps) == p.dapps
  {
  }

  /** Taking the claims out of the pool settles them. */
  lemma TakeClaimsKeeps(s: State, kind: PoolKind, claimed: nat, d: Debt)
    requires Holds(s, Claimed(d, kind, claimed)) && claimed <= GetPool(s.props, kind).rewards
    ensures TakeClaims(s, kind, claimed).Ok?
    ensures var t := TakeClaims(s, kind, claimed).value;
            var before, after := GetPool(s.props, kind), GetPool(t.props, kind);
            && Holds(t, d) && t == s.(props := t.props) && PoolStep(s, t, kind)
            && before.rewards - after.rewards == claimed == after.claimed - before.claimed
            && after.weightedVps == before.weightedVps
  {
    hide Holds, GetPool, PutPool, PoolsLeft, PoolsClaimed;
    var pool := GetPool(s.props, kind);
    PutPoolMoves(s.props, kind, pool);
    ClaimedFits(s, Claimed(d, kind, claimed));
    var next := pool.(rewards := pool.rewards - claimed, claimed := pool.claimed + claimed);
    PutPoolMoves(s.props, kind, next);
    PoolsKeep(s, PutPool(s.props, kind, next), Claimed(d, kind, claimed), d);
  }

  lemma ClaimedFits(s: State, d: Debt)
    requires Holds(s, d)
    ensures PoolsLeft(s.props) + PoolsClaimed(s.props) < TWO_64
  {
    hide Sum, Records, IndexOk, Minted, MintOk, PoolsLeft, PoolsClaimed;
    MintedBound(s.props.year);
  }

  lemma PoolSteps(s: State, t: State, u: State, v: State, kind: PoolKind)
    requires PoolStep(s, t, kind) && SameBut(t, u) && PoolStep(u, v, kind)
    ensures PoolStep(s, v, kind) && GetPool(u.props, kind) == GetPool(t.props, kind)
  {
  }

  /** The payments of a cashout. */
  function CashoutMoves(s: State, kind: PoolKind, items: seq<Item>): seq<Move> {
    var pool := GetPool(s.props, kind);
    ItemMoves(s.accounts, items, pool.weightedVps + SumWvp(items), pool.rewards)
  }

  /** What a cashout does when it is not discarded: its pool loses exactly what the accounts
      gain, and its weight grows by that of the items. */
  ghost predicate CashedOut(s: State, t: State, kind: PoolKind, items: seq<Item>) {
    var before, after := GetPool(s.props, kind), GetPool(t.props, kind);
    && Sum(t.accounts, VestOf, ()) - Sum(s.accounts, VestOf, ()) == before.rewards - after.rewards
                                                                 == after.claimed - before.claimed
    && after.weightedVps == before.weightedVps + SumWvp(items)
    && ItemsPaid(s.accounts, t.accounts, items, before.weightedVps + SumWvp(items), before.rewards)
    && PoolStep(s, t, kind) && Moved(s, t, CashoutMoves(s, kind, items))
  }

  /** The pool always covers the claims: a cashout keeps the books, and is discarded exactly
      when one of its payments meets a stale vote. */
  lemma CashoutIff(s: State, kind: PoolKind, items: seq<Item>, d: Debt)
    requires Holds(s, d) && d.lost >= 0 && d.noted == 0
    ensures Cashout(s, kind, items).Ok? <==> Covered(s, CashoutMoves(s, kind, items))
    ensures Cashout(s, kind, items).Ok? ==>
              Holds(Cashout(s, kind, items).value, d) && CashedOut(s, Cashout(s, kind, items).value, kind, items)
  {
    hide Sum, Holds, GetPool, PutPool, ItemsPaid, PayItems, PoolStep, Weigh, TakeClaims, Moved, Covered, LoopDone;
    if items == [] {
      PoolStepSelf(s, kind);
      assert SumWvp(items) == 0;
      PaidNothing(s.accounts, GetPool(s.props, kind).weightedVps + SumWvp(items), GetPool(s.props, kind).rewards);
      MovedNone(s);
    } else {
      CashoutPays(s, kind, items, d);
    }
  }

  lemma PoolStepSelf(s: State, kind: PoolKind)
    ensures PoolStep(s, s, kind)
  {
  }

  lemma CashoutPays(s: State, kind: PoolKind, items: seq<Item>, d: Debt)
    requires Holds(s, d) && d.lost >= 0 && d.noted == 0 && items != []
    ensures Cashout(s, kind, items).Ok? <==> Covered(s, CashoutMoves(s, kind, items))
    ensures Cashout(s, kind, items).Ok? ==>
              Holds(Cashout(s, kind, items).value, d) && CashedOut(s, Cashout(s, kind, items).value, kind, items)
  {
    hide Sum, Holds, PayItems, ItemsPaid, GetPool, PutPool, PoolStep, Weigh, TakeClaims, Moved, Covered, LoopDone, Noted,
         SumWvp, ItemMoves;
    var pool := GetPool(s.props, kind);
    var weight := pool.weightedVps + SumWvp(items);
    var s1 := Weigh(s, kind, weight);
    WeighKeeps(s, kind, weight, d);
    RewardsWithinPool(items, weight, pool.rewards);
    PoolRoom(s1, kind, d);
    assert Fits(s1, Rewards(items, weight, pool.rewards));
    PayItemsIff(s1, kind, items, weight, pool.rewards, d);
    CoveredSame(s, s1, CashoutMoves(s, kind, items));
    if PayItems(s1, kind, items, weight, pool.rewards).Ok? {
      var (t, claimed) := PayItems(s1, kind, items, weight, pool.rewards).value;
      LoopParts(s1, kind, items, weight, pool.rewards, t, claimed);
      TakeClaimsKeeps(t, kind, claimed, d);
      var u := TakeClaims(t, kind, claimed).value;
      PoolSteps(s, s1, t, u, kind);
      MovedProps(s, s1, t, u, CashoutMoves(s, kind, items));
    }
  }

  lemma LoopParts(s: State, kind: PoolKind, items: seq<Item>, weight: nat, pool: nat, t: State, claimed: nat)
    requires LoopDone(s, kind, items, weight, pool, t, claimed)
    ensures SameBut(s, t) && claimed <= Rewards(items, weight, pool)
    ensures Sum(t.accounts, VestOf, ()) == Sum(s.accounts, VestOf, ()) + claimed
    ensures ItemsPaid(s.accounts, t.accounts, items, weight, pool)
    ensures Moved(s, t, ItemMoves(s.accounts, items, weight, pool))
  {
    hide Sum, ItemsPaid, Moved;
  }

  /** The properties play no part in whether moves are covered. */
  lemma {:induction false} CoveredSame(s: State, t: State, moves: seq<Move>)
    requires t == s.(props := t.props)
    ensures Covered(t, moves) <==> Covered(s, moves)
  {
    if moves != [] {
      CoveredSame(s, t, moves[..|moves| - 1]);
    }
  }

  lemma MovedProps(s: State, s1: State, t: State, u: State, moves: seq<Move>)
    requires s1 == s.(props := s1.props) && Moved(s1, t, moves) && u == t.(props := u.props)
    ensures Moved(s, u, moves)
  {
    hide Gain, VoterGain;
  }
}
