/** The value-moving passes that run once per block, after its transactions. */
module Economist {
  import opened Amounts
  import opened LedgerState
  import opened Evaluators

  // ----- annual budget -----

  const SUPPLY_UNIT: U64 := COS_TOTAL_SUPPLY / 1000 / 100
  const BLOCKS_PER_YEAR: U64 := 31_536_000 // 86 400 / BLOCK_INTERVAL * 365
  const LAST_YEAR: U32 := 12

  /** `BaseBudget` / `CalculateBudget`. */
  function Budget(ith: U32): U64 {
    if ith > LAST_YEAR then 0
    else SUPPLY_UNIT * 448 * ith + (if ith == LAST_YEAR then SUPPLY_UNIT * 56 else 0)
  }

  /** `CalculatePerBlockBudget`. */
  function PerBlock(budget: U64): U64 {
    budget / BLOCKS_PER_YEAR
  }

  // ----- Mint -----

  function NextYear(ith: U32): U32 {
    if ith + 1 < TWO_32 then ith + 1 else 0
  }

  /** `Mint` before it touches the producer: the year after a change of budget has
      been noticed, and the amount this block creates. */
  function MintAmount(y: Year): (Year, U64) {
    var budget := Budget(y.ith);
    var z := if y.budget != budget then y.(budget := budget, minted := 0) else y;
    var perBlock := PerBlock(budget);
    if z.budget > z.minted && z.budget <= WrapAdd(z.minted, perBlock) then
      (z.(ith := NextYear(z.ith)), z.budget - z.minted)
    else if z.budget <= z.minted then
      (z.(ith := NextYear(z.ith)), 0)
    else
      (z, perBlock)
  }

  /** How one block's mint is split between the producer and the four pools. */
  datatype Split = Split(bp: U64, posts: U64, replies: U64, votes: U64, dapps: U64)

  function Part(amount: U64, rate: U64): U64 {
    WrapMul(amount, rate) / PERCENT
  }

  function SplitMint(minted: U64): Split {
    var creator := Part(minted, REWARD_RATE_CREATOR);
    var dapp := Part(minted, REWARD_RATE_DAPP);
    var posts := Part(creator, REWARD_RATE_AUTHOR);
    var replies := Part(creator, REWARD_RATE_REPLY);
    Split(WrapSub(WrapSub(minted, creator), dapp), posts, replies, WrapSub(WrapSub(creator, posts), replies), dapp)
  }

  function AddToPool(p: Props, kind: PoolKind, amount: U64): Result<Props> {
    var pool := GetPool(p, kind);
    var r :- Add(pool.rewards, amount);
    Ok(PutPool(p, kind, pool.(rewards := r)))
  }

  function FillPools(p: Props, split: Split): Result<Props> {
    var p1 :- AddToPool(p, Posts, split.posts);
    var p2 :- AddToPool(p1, Replies, split.replies);
    var p3 :- AddToPool(p2, Votes, split.votes);
    AddToPool(p3, Dapps, split.dapps)
  }

  /** The year after one mint. */
  function MintYear(y: Year): Result<Year> {
    var (z, minted) := MintAmount(y);
    var m :- Add(z.minted, minted);
    Ok(z.(minted := m))
  }

  function Mint(s: State): Result<State> {
    if !s.props.bootCompleted then Ok(s)
    else
      var year :- MintYear(s.props.year);
      PayMint(s, s.props.producer, MintAmount(s.props.year).1, year)
  }

  /** Credits the producer and the pools, then raises the total. */
  function PayMint(s: State, bp: Name, minted: U64, year: Year): Result<State> {
    var split := SplitMint(minted);
    var a :- Find(s.accounts, bp);
    var vest :- Add(split.bp, a.vest);
    var p :- Find(s.producers, bp);
    var s1 := s.(producers := s.producers[bp := p.(genBlocks := p.genBlocks + 1)]);
    var s2 :- PutVest(s1, bp, a.(vest := vest));
    var p1 :- FillPools(s2.props, split);
    var tv :- Add(p1.totalVest, minted);
    Ok(s2.(props := p1.(year := year, totalVest := tv)))
  }

  // ----- cashouts -----

  datatype Item = Item(beneficiary: Name, wvp: nat, post: U64)

  function SumWvp(items: seq<Item>): nat {
    if items == [] then 0 else SumWvp(items[..|items| - 1]) + items[|items| - 1].wvp
  }

  /** `ProportionAlgorithm`. */
  function Proportion(numerator: nat, denominator: nat, total: nat): nat {
    if denominator == 0 then 0 else numerator * total / denominator
  }

  /** `processRewardForAccount`; the flag is false when the account is missing or banned. */
  function ProcessReward(s: State, n: Name, reward: nat): Result<(State, bool)> {
    if reward == 0 then Ok((s, true))
    else if n !in s.accounts then Ok((s, false))
    else if s.accounts[n].reputation == MIN_REPUTATION then Ok((s, false))
    else
      var v :- Add(reward % TWO_64, s.accounts[n].vest);
      var t :- PutVest(s, n, s.accounts[n].(vest := v));
      Ok((t, true))
  }

  function DappRewardOf(s: State, post: U64): U64 {
    if post in s.dappRewards then s.dappRewards[post] else 0
  }

  /** `finalizePostDappCashout`: the post's record of what it earned for its applications. */
  function NoteReward(s: State, kind: PoolKind, post: U64, reward: nat): Result<State> {
    if !kind.Dapps? then Ok(s)
    else
      var total :- Add(reward % TWO_64, DappRewardOf(s, post));
      Ok(s.(dappRewards := s.dappRewards[post := total]))
  }

  /** One item: what it is paid, zero when the beneficiary is missing or banned. */
  function PayItem(s: State, kind: PoolKind, item: Item, reward: nat): Result<(State, nat)> {
    var (t, paid) :- ProcessReward(s, item.beneficiary, reward);
    var given := if paid then reward else 0;
    var u :- NoteReward(t, kind, item.post, given);
    Ok((u, given))
  }

  /** The loop of a cashout over its first items: the state and what was claimed. */
  function PayItems(s: State, kind: PoolKind, items: seq<Item>, weight: nat, pool: nat): Result<(State, nat)> {
    if items == [] then Ok((s, 0))
    else
      var (t, claimed) :- PayItems(s, kind, items[..|items| - 1], weight, pool);
      var item := items[|items| - 1];
      var (u, given) :- PayItem(t, kind, item, Proportion(item.wvp, weight, pool));
      Ok((u, claimed + given))
  }

  /** `cashoutPosts`, `cashoutReplies`, `cashoutDapps` and `cashoutVotes`. */
  function Cashout(s: State, kind: PoolKind, items: seq<Item>): Result<State> {
    if items == [] then Ok(s)
    else
      var pool := GetPool(s.props, kind);
      var weight := pool.weightedVps + SumWvp(items);
      var (t, claimed) :- PayItems(Weigh(s, kind, weight), kind, items, weight, pool.rewards);
      TakeClaims(t, kind, claimed)
  }

  function Weigh(s: State, kind: PoolKind, weight: nat): State {
    s.(props := PutPool(s.props, kind, GetPool(s.props, kind).(weightedVps := weight)))
  }

  function TakeClaims(s: State, kind: PoolKind, claimed: nat): Result<State> {
    var pool := GetPool(s.props, kind);
    var rest :- Sub(pool.rewards, claimed % TWO_64);
    var total :- Add(pool.claimed, claimed % TWO_64);
    Ok(s.(props := PutPool(s.props, kind, pool.(rewards := rest, claimed := total))))
  }

  function Decay(pool: Pool): Pool {
    pool.(weightedVps := pool.weightedVps - Proportion(BLOCK_INTERVAL, VP_DECAY_TIME, pool.weightedVps))
  }

  /** `Do`: decay the global weights, then the four cashouts. */
  function Do(s: State, posts: seq<Item>, replies: seq<Item>, dapps: seq<Item>, votes: seq<Item>): Result<State> {
    if !s.props.bootCompleted then Ok(s)
    else
      var p := s.props;
      var s1 := s.(props := p.(posts := Decay(p.posts), replies := Decay(p.replies),
                               votes := Decay(p.votes), dapps := Decay(p.dapps)));
      var s2 :- Cashout(s1, Posts, posts);
      var s3 :- Cashout(s2, Replies, replies);
      var s4 :- Cashout(s3, Dapps, dapps);
      Cashout(s4, Votes, votes)
  }

  // ----- PowerDown -----

  function Min(x: U64, y: U64): U64 {
    if x < y then x else y
  }

  function PowerDownQuota(a: Account, fee: U64): Result<U64> {
    var own :- Sub(a.vest, a.borrowed);
    var max := if own < fee then 0 else own - fee;
    var remaining :- Sub(a.toPowerdown, a.hasPowerdown);
    Ok(Min(max, Min(a.eachRate, remaining)))
  }

  function PowerDownOne(s: State, n: Name): Result<State> {
    var a :- Find(s.accounts, n);
    var fee := s.props.accountCreateFee;
    var quota :- PowerDownQuota(a, fee);
    var v :- Sub(a.vest, quota);
    var b :- Add(a.balance, quota);
    var h :- Add(a.hasPowerdown, quota);
    var s1 :- PutVest(s, n, a.(vest := v, balance := b, hasPowerdown := h));
    var s2 :- VestToCos(s1, quota);
    var a2 := s2.accounts[n];
    var a3 := if a2.hasPowerdown >= a2.toPowerdown || a2.vest <= fee
              then a2.(eachRate := 0, nextPowerdown := MAX_UINT64)
              else a2.(nextPowerdown := WrapAdd(s.props.head, POWER_DOWN_BLOCK_INTERVAL));
    Ok(PutAccount(s2, n, a3))
  }

  function PowerDownAll(s: State, names: seq<Name>): Result<State> {
    if names == [] then Ok(s)
    else
      var t :- PowerDownAll(s, names[..|names| - 1]);
      PowerDownOne(t, names[|names| - 1])
  }

  /** The pass is off until the first producers have taken over. */
  function PowerDown(s: State, names: seq<Name>): Result<State> {
    if !s.props.bootCompleted then Ok(s) else PowerDownAll(s, names)
  }

  /** The accounts the sorted index yields below the head block. */
  function PowerDownDue(s: State): set<Name> {
    set n | n in s.accounts && s.accounts[n].nextPowerdown < s.props.head
  }

  // ----- DeliverDelegatedVests -----

  function DeliverOne(s: State, id: U64): Result<State> {
    var o :- Find(s.orders, id);
    var a :- Find(s.accounts, o.from);
    var d :- Sub(a.delivering, o.amount);
    var v :- Add(a.vest, o.amount);
    var s1 :- PutVest(s, o.from, a.(delivering := d, vest := v));
    Ok(s1.(orders := s1.orders - {id}))
  }

  function DeliverAll(s: State, ids: seq<U64>): Result<State> {
    if ids == [] then Ok(s)
    else
      var t :- DeliverAll(s, ids[..|ids| - 1]);
      DeliverOne(t, ids[|ids| - 1])
  }

  function Deliver(s: State, ids: seq<U64>): Result<State> {
    if !s.props.bootCompleted then Ok(s) else DeliverAll(s, ids)
  }

  /** The orders the sorted index yields below `head + 1`. */
  function DeliveryDue(s: State): set<U64> {
    set id | id in s.orders && s.orders[id].delivery < WrapAdd(s.props.head, 1)
  }

  // ----- ShareTicketBonus -----

  /** One producer's share.  A panic is recovered outside the loop, so what was
      written before it stays; the flag says that the loop stopped. */
  function ShareOne(s: State, n: Name, amount: U64): (State, bool) {
    if amount == 0 then (s, false)
    else if n !in s.accounts then (s, true)
    else
      match Add(s.accounts[n].vest, amount)
      case Panic => (s, true)
      case Ok(v) =>
        var a := s.accounts[n].(vest := v);
        match PutVest(s, n, a)
        case Panic => (PutAccount(s, n, a), true)
        case Ok(t) => (t, false)
  }

  lemma QuotientBound(x: nat, n: nat)
    requires 0 < n
    ensures 0 <= x / n <= x
  {
    var q := x / n;
    assert q * n <= x;
    TimesAtLeast(q, n);
  }

  lemma {:induction false} TimesAtLeast(q: nat, n: nat)
    requires 0 < n
    ensures q <= q * n
  {
    if n > 1 {
      TimesAtLeast(q, n - 1);
      assert q * n == q * (n - 1) + q;
    }
  }

  /** An equal share of the bonus; the first producer takes the remainder as well. */
  function ShareOf(bonus: U64, n: nat, first: bool): U64
    requires 0 < n
  {
    QuotientBound(bonus, n);
    if first then (bonus - bonus / n * (n - 1)) % TWO_64 else bonus / n
  }

  /** The shares of the first `k` scheduled producers. */
  function ShareLoop(s: State, names: seq<Name>, bonus: U64, k: nat): (State, bool)
    requires k <= |names|
  {
    if k == 0 then (s, false)
    else
      var (t, stopped) := ShareLoop(s, names, bonus, k - 1);
      if stopped then (t, true) else ShareOne(t, names[k - 1], ShareOf(bonus, |names|, k == 1))
  }

  function ShareTicketBonus(s: State): State {
    var bonus := s.props.ticketsBpBonus;
    if bonus == 0 || s.schedule == [] then s
    else ShareLoop(s.(props := s.props.(ticketsBpBonus := 0)), s.schedule, bonus, |s.schedule|).0
  }
}
