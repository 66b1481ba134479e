/** How much a cashout pays: every beneficiary its share of the pool, rounded down once for each
    item, so that a pool keeps back less than one unit for each item it pays. */
module CashoutShares {
  import opened Amounts
  import opened LedgerState
  import opened Evaluators
  import opened Economist
  import opened LedgerInvariant
  import opened LedgerKeeps
  import opened VestMoves
  import opened CashoutKeeps
  import opened BlockPassKeeps

  // ----- proportions -----

  /** One item never claims more than the pool. */
  lemma ShareFits(wvp: nat, weight: nat, pool: nat)
    requires wvp <= weight
    ensures Proportion(wvp, weight, pool) <= pool
  {
    hide Proportion;
    if weight == 0 {
      NoShare(wvp, pool);
    } else {
      ProportionFloor(wvp, weight, pool);
      PartsBounded(Proportion(wvp, weight, pool), wvp, weight, pool);
    }
  }

  lemma NoShare(wvp: nat, pool: nat)
    ensures Proportion(wvp, 0, pool) == 0
  {
  }

  // ----- whose items -----

  /** The items of account `n`. */
  function ItemsOf(items: seq<Item>, n: Name): seq<Item> {
    if items == [] then []
    else
      var rest, item := ItemsOf(items[..|items| - 1], n), items[|items| - 1];
      if item.beneficiary == n then rest + [item] else rest
  }

  /** The items that are paid: their beneficiary exists and is not banned. */
  function Payable(m: map<Name, Account>, items: seq<Item>): seq<Item> {
    if items == [] then []
    else
      var rest, item := Payable(m, items[..|items| - 1]), items[|items| - 1];
      if Eligible(m, item.beneficiary) then rest + [item] else rest
  }

  /** The items of a post. */
  function ItemsFor(items: seq<Item>, post: U64): seq<Item> {
    if items == [] then []
    else
      var rest, item := ItemsFor(items[..|items| - 1], post), items[|items| - 1];
      if item.post == post then rest + [item] else rest
  }

  lemma RewardsMore(items: seq<Item>, item: Item, weight: nat, pool: nat)
    ensures Rewards(items + [item], weight, pool) == Rewards(items, weight, pool) + Proportion(item.wvp, weight, pool)
  {
    assert (items + [item])[..|items|] == items;
  }

  /** An account that can be paid is paid for exactly its own items. */
  lemma {:induction false} PaidForOwn(m: map<Name, Account>, n: Name, items: seq<Item>, weight: nat, pool: nat)
    ensures PaidTo(m, n, items, weight, pool) == if Eligible(m, n) then Rewards(ItemsOf(items, n), weight, pool) else 0
  {
    hide Proportion, Eligible;
    if items != [] {
      PaidForOwn(m, n, items[..|items| - 1], weight, pool);
      RewardsMore(ItemsOf(items[..|items| - 1], n), items[|items| - 1], weight, pool);
    }
  }

  /** When no beneficiary is missing or banned, all items are paid. */
  lemma {:induction false} AllPayable(m: map<Name, Account>, items: seq<Item>)
    requires forall i :: 0 <= i < |items| ==> Eligible(m, items[i].beneficiary)
    ensures Payable(m, items) == items
  {
    hide Eligible;
    if items != [] {
      AllPayable(m, items[..|items| - 1]);
    }
  }

  // ----- one cashout -----

  ghost predicate SameEligibles(s: State, t: State) {
    forall n :: Eligible(t.accounts, n) == Eligible(s.accounts, n)
  }

  lemma RewardSame(s: State, n: Name, reward: nat)
    requires ProcessReward(s, n, reward).Ok?
    ensures var (t, paid) := ProcessReward(s, n, reward).value;
            && paid == (reward == 0 || Eligible(s.accounts, n))
            && SameEligibles(s, t) && t.props == s.props && t.dappRewards == s.dappRewards
  {
  }

  /** What the loop has claimed, and what it has noted for every post. */
  ghost predicate LoopPaid(s: State, kind: PoolKind, items: seq<Item>, weight: nat, pool: nat, t: State, claimed: nat) {
    && SameEligibles(s, t) && t.props == s.props
    && claimed == Rewards(Payable(s.accounts, items), weight, pool)
    && (!kind.Dapps? ==> t.dappRewards == s.dappRewards)
    && (kind.Dapps? ==> forall post :: NotedMore(s, t, post, Rewards(ItemsFor(Payable(s.accounts, items), post), weight, pool)))
  }

  predicate NotedMore(s: State, t: State, post: U64, amount: nat) {
    DappRewardOf(t, post) == DappRewardOf(s, post) + amount
  }

  function NoteFor(p: U64, post: U64, reward: nat): nat {
    if p == post then reward else 0
  }

  lemma NoteMore(s: State, kind: PoolKind, post: U64, reward: nat)
    requires NoteReward(s, kind, post, reward).Ok? && reward < TWO_64
    ensures var t := NoteReward(s, kind, post, reward).value;
            && t == s.(dappRewards := t.dappRewards) && (!kind.Dapps? ==> t == s)
            && (kind.Dapps? ==> forall p :: NotedMore(s, t, p, NoteFor(p, post, reward)))
  {
  }

  /** One more item. */
  lemma PaidMore(s: State, kind: PoolKind, items: seq<Item>, weight: nat, pool: nat, t: State, claimed: nat)
    requires items != [] && LoopPaid(s, kind, items[..|items| - 1], weight, pool, t, claimed)
    requires Proportion(items[|items| - 1].wvp, weight, pool) < TWO_64
    requires PayItem(t, kind, items[|items| - 1], Proportion(items[|items| - 1].wvp, weight, pool)).Ok?
    ensures var (u, given) := PayItem(t, kind, items[|items| - 1], Proportion(items[|items| - 1].wvp, weight, pool)).value;
            LoopPaid(s, kind, items, weight, pool, u, claimed + given)
  {
    hide Proportion, ProcessReward, NoteReward, Rewards, Eligible, NotedMore, ItemsFor;
    var item := items[|items| - 1];
    var reward := Proportion(item.wvp, weight, pool);
    RewardSame(t, item.beneficiary, reward);
    var (t1, paid) := ProcessReward(t, item.beneficiary, reward).value;
    var given := if paid then reward else 0;
    NoteMore(t1, kind, item.post, given);
    var before := Payable(s.accounts, items[..|items| - 1]);
    RewardsMore(before, item, weight, pool);
    if kind.Dapps? {
      var u := NoteReward(t1, kind, item.post, given).value;
      forall post
        ensures NotedMore(s, u, post, Rewards(ItemsFor(Payable(s.accounts, items), post), weight, pool))
      {
        NotedOnce(s, t, t1, u, before, item, post, Eligible(s.accounts, item.beneficiary), given, weight, pool);
      }
    }
  }

  lemma NotedOnce(s: State, t: State, t1: State, u: State, before: seq<Item>, item: Item, post: U64, eligible: bool,
                  given: nat, weight: nat, pool: nat)
    requires NotedMore(s, t, post, Rewards(ItemsFor(before, post), weight, pool)) && t1.dappRewards == t.dappRewards
    requires NotedMore(t1, u, post, NoteFor(post, item.post, given))
    requires given == if eligible then Proportion(item.wvp, weight, pool) else 0
    ensures NotedMore(s, u, post, Rewards(ItemsFor(if eligible then before + [item] else before, post), weight, pool))
  {
    hide Proportion, Rewards;
    assert (before + [item])[..|before|] == before;
    RewardsMore(ItemsFor(before, post), item, weight, pool);
  }

  /** The loop claims the rewards of the items it can pay, and notes them to their posts. */
  lemma {:induction false} PayItemsPaid(s: State, kind: PoolKind, items: seq<Item>, weight: nat, pool: U64)
    requires SumWvp(items) <= weight && PayItems(s, kind, items, weight, pool).Ok?
    ensures var (t, claimed) := PayItems(s, kind, items, weight, pool).value;
            LoopPaid(s, kind, items, weight, pool, t, claimed)
  {
    hide Proportion, PayItem, LoopPaid;
    if items == [] {
      NothingPaid(s, kind, weight, pool);
    } else {
      var init, item := items[..|items| - 1], items[|items| - 1];
      PayItemsPaid(s, kind, init, weight, pool);
      var (t, claimed) := PayItems(s, kind, init, weight, pool).value;
      ShareFits(item.wvp, weight, pool);
      PaidMore(s, kind, items, weight, pool, t, claimed);
    }
  }

  lemma NothingPaid(s: State, kind: PoolKind, weight: nat, pool: nat)
    ensures LoopPaid(s, kind, [], weight, pool, s, 0)
  {
    hide Eligible;
  }

  /** What a cashout takes out of its pool, adds to its weight and notes to the posts. */
  ghost predicate PoolPaid(s: State, t: State, kind: PoolKind, items: seq<Item>) {
    var before, after, paid := GetPool(s.props, kind), GetPool(t.props, kind), Payable(s.accounts, items);
    var weight := before.weightedVps + SumWvp(items);
    && after.weightedVps == weight
    && before.rewards - after.rewards == after.claimed - before.claimed == Rewards(paid, weight, before.rewards)
    && (forall k :: k != kind ==> GetPool(t.props, k) == GetPool(s.props, k))
    && (!kind.Dapps? ==> t.dappRewards == s.dappRewards)
    && (kind.Dapps? ==> forall post :: NotedMore(s, t, post, Rewards(ItemsFor(paid, post), weight, before.rewards)))
  }

  lemma {:induction false} PayableLess(m: map<Name, Account>, items: seq<Item>, weight: nat, pool: nat)
    ensures Rewards(Payable(m, items), weight, pool) <= Rewards(items, weight, pool)
    ensures SumWvp(Payable(m, items)) <= SumWvp(items) && |Payable(m, items)| <= |items|
  {
    hide Proportion, Eligible;
    if items != [] {
      PayableLess(m, items[..|items| - 1], weight, pool);
      RewardsMore(Payable(m, items[..|items| - 1]), items[|items| - 1], weight, pool);
      assert (Payable(m, items[..|items| - 1]) + [items[|items| - 1]])[..|Payable(m, items[..|items| - 1])|]
          == Payable(m, items[..|items| - 1]);
    }
  }

  lemma CashoutPaid(s: State, kind: PoolKind, items: seq<Item>)
    requires Cashout(s, kind, items).Ok?
    ensures PoolPaid(s, Cashout(s, kind, items).value, kind, items)
  {
    hide Rewards, PayItems, NotedMore, Eligible, SumWvp;
    var pool := GetPool(s.props, kind);
    var weight := pool.weightedVps + SumWvp(items);
    if items == [] {
      NothingPaid(s, kind, weight, pool.rewards);
      assert SumWvp(items) == 0 by { NoWeight(); }
    } else {
      var s1 := Weigh(s, kind, weight);
      PayItemsPaid(s1, kind, items, weight, pool.rewards);
      RewardsWithinPool(items, weight, pool.rewards);
      PayableLess(s.accounts, items, weight, pool.rewards);
      var (t, claimed) := PayItems(s1, kind, items, weight, pool.rewards).value;
      SettledPaid(s, s1, t, kind, items, weight, claimed);
    }
  }

  lemma NoWeight()
    ensures SumWvp([]) == 0
  {
  }

  lemma SettledPaid(s: State, s1: State, t: State, kind: PoolKind, items: seq<Item>, weight: nat, claimed: nat)
    requires weight == GetPool(s.props, kind).weightedVps + SumWvp(items) && s1 == Weigh(s, kind, weight)
    requires LoopPaid(s1, kind, items, weight, GetPool(s.props, kind).rewards, t, claimed)
    requires claimed <= GetPool(s.props, kind).rewards && TakeClaims(t, kind, claimed).Ok?
    ensures PoolPaid(s, TakeClaims(t, kind, claimed).value, kind, items)
  {
    hide Rewards, Eligible, SumWvp, Payable, ItemsFor;
  }

  // ----- what everybody gets -----

  /** An account's gain `g` is its exact share `share / weight` of the pool, rounded down once
      for each of its `k` items. */
  predicate RoundedShare(g: int, share: int, weight: nat, k: nat) {
    g * weight <= share <= g * weight + k * (weight - 1)
  }

  lemma RewardsRounded(items: seq<Item>, weight: nat, pool: nat)
    requires 0 < weight
    ensures RoundedShare(Rewards(items, weight, pool), SumWvp(items) * pool, weight, |items|)
  {
    hide Rewards, SumWvp;
    RewardsNearly(items, weight, pool);
  }

  /** Every account that exists and is not banned gains its own share of the pool. */
  lemma CashoutShares(s: State, kind: PoolKind, items: seq<Item>, d: Debt, n: Name)
    requires Holds(s, d) && d.lost >= 0 && d.noted == 0 && Cashout(s, kind, items).Ok? && n in s.accounts
    requires 0 < GetPool(s.props, kind).weightedVps + SumWvp(items)
    ensures var t, pool, own := Cashout(s, kind, items).value, GetPool(s.props, kind), ItemsOf(items, n);
            && n in t.accounts && t.accounts[n] == s.accounts[n].(vest := t.accounts[n].vest)
            && (Eligible(s.accounts, n) ==>
                  RoundedShare(t.accounts[n].vest - s.accounts[n].vest, SumWvp(own) * pool.rewards,
                               pool.weightedVps + SumWvp(items), |own|))
            && (!Eligible(s.accounts, n) ==> t.accounts[n] == s.accounts[n])
  {
    hide Holds, Cashout, GetPool, SumWvp, ItemsOf, PaidTo, Rewards, Covered, Moved, PoolStep, Eligible, RoundedShare;
    CashoutIff(s, kind, items, d);
    var pool := GetPool(s.props, kind);
    var weight := pool.weightedVps + SumWvp(items);
    PaidForOwn(s.accounts, n, items, weight, pool.rewards);
    RewardsRounded(ItemsOf(items, n), weight, pool.rewards);
  }

  lemma PoolTakes(s: State, kind: PoolKind, items: seq<Item>)
    requires Cashout(s, kind, items).Ok?
    ensures var t, pool := Cashout(s, kind, items).value, GetPool(s.props, kind);
            pool.rewards - GetPool(t.props, kind).rewards
            == Rewards(Payable(s.accounts, items), pool.weightedVps + SumWvp(items), pool.rewards)
  {
    hide Cashout, GetPool, SumWvp, Payable, Rewards, NotedMore, ItemsFor;
    CashoutPaid(s, kind, items);
  }

  /** The pool pays out the exact share of the items it can pay but for less than one unit for
      each. */
  lemma PoolShares(s: State, kind: PoolKind, items: seq<Item>)
    requires Cashout(s, kind, items).Ok? && 0 < GetPool(s.props, kind).weightedVps + SumWvp(items)
    ensures var t, pool, paid := Cashout(s, kind, items).value, GetPool(s.props, kind), Payable(s.accounts, items);
            RoundedShare(pool.rewards - GetPool(t.props, kind).rewards, SumWvp(paid) * pool.rewards,
                         pool.weightedVps + SumWvp(items), |paid|)
  {
    hide Cashout, GetPool, SumWvp, Payable, Rewards, Eligible, RoundedShare;
    PoolTakes(s, kind, items);
    var pool := GetPool(s.props, kind);
    RewardsRounded(Payable(s.accounts, items), pool.weightedVps + SumWvp(items), pool.rewards);
  }

  /** When no beneficiary is missing or banned, the pool pays more than the exact share of all
      items less one unit for each. */
  lemma AllShares(s: State, kind: PoolKind, items: seq<Item>)
    requires Cashout(s, kind, items).Ok? && 0 < GetPool(s.props, kind).weightedVps + SumWvp(items) && items != []
    requires forall i :: 0 <= i < |items| ==> Eligible(s.accounts, items[i].beneficiary)
    ensures var pool := GetPool(s.props, kind);
            var weight := pool.weightedVps + SumWvp(items);
            var paid := pool.rewards - GetPool(Cashout(s, kind, items).value.props, kind).rewards;
            && RoundedShare(paid, SumWvp(items) * pool.rewards, weight, |items|)
            && pool.rewards * SumWvp(items) < (paid + |items|) * weight
  {
    hide Cashout, GetPool, SumWvp, Payable, Eligible, RoundedShare;
    PoolShares(s, kind, items);
    AllPayable(s.accounts, items);
    var pool := GetPool(s.props, kind);
    NearlyAll(pool.rewards - GetPool(Cashout(s, kind, items).value.props, kind).rewards, pool.rewards, SumWvp(items),
              pool.weightedVps + SumWvp(items), |items|);
  }

  lemma NearlyAll(paid: int, rewards: nat, w: nat, weight: nat, k: nat)
    requires 0 < k && RoundedShare(paid, w * rewards, weight, k)
    ensures rewards * w < (paid + k) * weight
  {
    assert (paid + k) * weight == paid * weight + k * weight;
    assert k * (weight - 1) == k * weight - k;
  }

  // ----- the weights -----

  /** A block takes one part in 907200 off a pool's weight, rounded down, and nothing else. */
  lemma DecayExact(pool: Pool)
    ensures var k := pool.weightedVps - Decay(pool).weightedVps;
            && 0 <= k <= pool.weightedVps && k * 907_200 <= pool.weightedVps < (k + 1) * 907_200
            && Decay(pool) == pool.(weightedVps := pool.weightedVps - k)
  {
    hide Proportion;
    ProportionExact(BLOCK_INTERVAL, VP_DECAY_TIME, pool.weightedVps);
    ShareFits(BLOCK_INTERVAL, VP_DECAY_TIME, pool.weightedVps);
  }

  /** The weight of every pool after a block: what the block before it left, less its decay, and
      the weight of the items cashed out. */
  lemma DoWeights(s: State, posts: seq<Item>, replies: seq<Item>, dapps: seq<Item>, votes: seq<Item>)
    requires s.props.bootCompleted && Do(s, posts, replies, dapps, votes).Ok?
    ensures var p, q := s.props, Do(s, posts, replies, dapps, votes).value.props;
            && q.posts.weightedVps == Decay(p.posts).weightedVps + SumWvp(posts)
            && q.replies.weightedVps == Decay(p.replies).weightedVps + SumWvp(replies)
            && q.dapps.weightedVps == Decay(p.dapps).weightedVps + SumWvp(dapps)
            && q.votes.weightedVps == Decay(p.votes).weightedVps + SumWvp(votes)
  {
    hide Cashout, Decay, SumWvp, PoolPaid;
    var s1 := Decayed(s);
    Weights(s1, Posts, posts);
    var s2 := Cashout(s1, Posts, posts).value;
    Weights(s2, Replies, replies);
    var s3 := Cashout(s2, Replies, replies).value;
    Weights(s3, Dapps, dapps);
    Weights(Cashout(s3, Dapps, dapps).value, Votes, votes);
  }

  lemma Weights(s: State, kind: PoolKind, items: seq<Item>)
    requires Cashout(s, kind, items).Ok?
    ensures var p, q := s.props, Cashout(s, kind, items).value.props;
            && q.posts.weightedVps == p.posts.weightedVps + (if kind.Posts? then SumWvp(items) else 0)
            && q.replies.weightedVps == p.replies.weightedVps + (if kind.Replies? then SumWvp(items) else 0)
            && q.dapps.weightedVps == p.dapps.weightedVps + (if kind.Dapps? then SumWvp(items) else 0)
            && q.votes.weightedVps == p.votes.weightedVps + (if kind.Votes? then SumWvp(items) else 0)
  {
    hide Cashout, SumWvp, Rewards, NotedMore, Payable;
    CashoutPaid(s, kind, items);
    var p, q := s.props, Cashout(s, kind, items).value.props;
    assert GetPool(q, Posts) == q.posts && GetPool(q, Replies) == q.replies;
    assert GetPool(q, Dapps) == q.dapps && GetPool(q, Votes) == q.votes;
  }
}
