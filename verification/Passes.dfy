/** The per-block passes over the tables, loop by loop. */
module Passes {
  import opened Amounts
  import opened LedgerState
  import opened Evaluators
  import opened Economist
  import opened Ledger

  // ----- Mint -----

  /** `CalculateBudget` and the year bookkeeping of `Mint`. */
  method StartMint(y: Year) returns (z: Year, minted: U64)
    ensures (z, minted) == MintAmount(y)
  {
    hide Budget, PerBlock;
    z := y;
    var ith := y.ith;
    var annualBudget := Budget(ith);
    if z.budget != annualBudget {
      z := z.(budget := annualBudget);
      z := z.(minted := 0);
    }
    var blockCurrent := PerBlock(annualBudget);
    if z.budget > z.minted && z.budget <= WrapAdd(z.minted, blockCurrent) {
      blockCurrent := z.budget - z.minted;
      z := z.(ith := NextYear(z.ith));
    } else if z.budget <= z.minted {
      blockCurrent := 0;
      z := z.(ith := NextYear(z.ith));
    }
    minted := blockCurrent;
  }

  method PayProducer(t: Tables, bp: Name, minted: U64, year: Year) returns (ok: bool)
    modifies t
    ensures t.Gives(ok, PayMint(old(t.View()), bp, minted, year))
  {
    hide SplitMint, FillPools, UpdateBpVoteValue;
    var split := SplitMint(minted);
    if bp !in t.accounts {
      return false;
    }
    var vest := Add(split.bp, t.accounts[bp].vest);
    if vest.Panic? || bp !in t.producers {
      return false;
    }
    t.producers := t.producers[bp := t.producers[bp].(genBlocks := t.producers[bp].genBlocks + 1)];
    ok := t.SetVest(bp, t.accounts[bp].(vest := vest.value));
    if !ok {
      return;
    }
    var p := FillPools(t.props, split);
    if p.Panic? {
      return false;
    }
    t.props := p.value;
    var tv := Add(t.props.totalVest, minted);
    if tv.Panic? {
      return false;
    }
    t.props := t.props.(year := year, totalVest := tv.value);
  }

  method MintBlock(t: Tables) returns (ok: bool)
    modifies t
    ensures t.Gives(ok, Mint(old(t.View())))
  {
    hide MintAmount, PayMint;
    if !t.props.bootCompleted {
      return true;
    }
    var year, minted := StartMint(t.props.year);
    var m := Add(year.minted, minted);
    if m.Panic? {
      return false;
    }
    ok := PayProducer(t, t.props.producer, minted, year.(minted := m.value));
  }

  // ----- cashouts -----

  method Reward(t: Tables, n: Name, reward: nat) returns (ok: bool, paid: bool)
    modifies t
    ensures var r := ProcessReward(old(t.View()), n, reward);
            if ok then r == Ok((t.View(), paid)) else r.Panic?
  {
    hide UpdateBpVoteValue;
    if reward == 0 {
      return true, true;
    }
    if n !in t.accounts || t.accounts[n].reputation == MIN_REPUTATION {
      return true, false;
    }
    var v := Add(reward % TWO_64, t.accounts[n].vest);
    if v.Panic? {
      return false, false;
    }
    ok := t.SetVest(n, t.accounts[n].(vest := v.value));
    paid := true;
  }

  /** One item: the account is paid, and a post notes what it earned for an application. */
  method PayOne(t: Tables, kind: PoolKind, item: Item, reward: nat) returns (ok: bool, given: nat)
    modifies t
    ensures var r := PayItem(old(t.View()), kind, item, reward);
            if ok then r == Ok((t.View(), given)) else r.Panic?
  {
    hide ProcessReward;
    var paid;
    ok, paid := Reward(t, item.beneficiary, reward);
    given := if paid then reward else 0;
    if ok && kind.Dapps? {
      var total := Add(given % TWO_64, DappRewardOf(t.View(), item.post));
      if total.Panic? {
        return false, given;
      }
      t.dappRewards := t.dappRewards[item.post := total.value];
    }
  }

  /** The loop of every cashout. */
  method PayAll(t: Tables, kind: PoolKind, items: seq<Item>, weight: nat, pool: nat) returns (ok: bool, claimed: nat)
    modifies t
    ensures var r := PayItems(old(t.View()), kind, items, weight, pool);
            if ok then r == Ok((t.View(), claimed)) else r.Panic?
  {
    hide PayItem, Proportion;
    claimed := 0;
    for i := 0 to |items|
      invariant PayItems(old(t.View()), kind, items[..i], weight, pool) == Ok((t.View(), claimed))
    {
      assert items[..i + 1][..i] == items[..i];
      var given;
      ok, given := PayOne(t, kind, items[i], Proportion(items[i].wvp, weight, pool));
      if !ok {
        ItemsPanic(old(t.View()), kind, items, i + 1, weight, pool);
        return;
      }
      claimed := claimed + given;
    }
    assert items[..|items|] == items;
    ok := true;
  }

  lemma {:induction false} ItemsPanic(s: State, kind: PoolKind, items: seq<Item>, n: nat, weight: nat, pool: nat)
    requires n <= |items| && PayItems(s, kind, items[..n], weight, pool).Panic?
    ensures PayItems(s, kind, items, weight, pool).Panic?
    decreases |items| - n
  {
    hide PayItem, Proportion;
    if n < |items| {
      assert items[..n + 1][..n] == items[..n];
      ItemsPanic(s, kind, items, n + 1, weight, pool);
    } else {
      assert items[..n] == items;
    }
  }

  method AddWeights(items: seq<Item>) returns (sum: nat)
    ensures sum == SumWvp(items)
  {
    sum := 0;
    for i := 0 to |items|
      invariant sum == SumWvp(items[..i])
    {
      assert items[..i + 1][..i] == items[..i];
      sum := sum + items[i].wvp;
    }
    assert items[..|items|] == items;
  }

  method CashoutPool(t: Tables, kind: PoolKind, items: seq<Item>) returns (ok: bool)
    modifies t
    ensures t.Gives(ok, Cashout(old(t.View()), kind, items))
  {
    hide PayItems, GetPool, PutPool, SumWvp;
    if |items| == 0 {
      return true;
    }
    var rewards := GetPool(t.props, kind).rewards;
    var sum := AddWeights(items);
    var weight := GetPool(t.props, kind).weightedVps + sum;
    t.props := PutPool(t.props, kind, GetPool(t.props, kind).(weightedVps := weight));
    var claimed;
    ok, claimed := PayAll(t, kind, items, weight, rewards);
    if !ok {
      return;
    }
    var pool := GetPool(t.props, kind);
    var rest := Sub(pool.rewards, claimed % TWO_64);
    if rest.Panic? {
      return false;
    }
    var total := Add(pool.claimed, claimed % TWO_64);
    if total.Panic? {
      return false;
    }
    t.props := PutPool(t.props, kind, pool.(rewards := rest.value, claimed := total.value));
  }

  method DoCashouts(t: Tables, posts: seq<Item>, replies: seq<Item>, dapps: seq<Item>, votes: seq<Item>)
    returns (ok: bool)
    modifies t
    ensures t.Gives(ok, Do(old(t.View()), posts, replies, dapps, votes))
  {
    hide Cashout, Decay;
    if !t.props.bootCompleted {
      return true;
    }
    t.props := t.props.(posts := Decay(t.props.posts), replies := Decay(t.props.replies),
                        votes := Decay(t.props.votes), dapps := Decay(t.props.dapps));
    ok := CashoutPool(t, Posts, posts);
    if ok {
      ok := CashoutPool(t, Replies, replies);
    }
    if ok {
      ok := CashoutPool(t, Dapps, dapps);
    }
    if ok {
      ok := CashoutPool(t, Votes, votes);
    }
  }

  // ----- PowerDown -----

  method PowerDownAccount(t: Tables, n: Name) returns (ok: bool)
    modifies t
    ensures t.Gives(ok, PowerDownOne(old(t.View()), n))
  {
    hide PowerDownQuota, UpdateBpVoteValue;
    if n !in t.accounts {
      return false;
    }
    var fee := t.props.accountCreateFee;
    var quota := PowerDownQuota(t.accounts[n], fee);
    if quota.Panic? {
      return false;
    }
    var a := t.accounts[n];
    var v, b, h := Sub(a.vest, quota.value), Add(a.balance, quota.value), Add(a.hasPowerdown, quota.value);
    if v.Panic? || b.Panic? || h.Panic? {
      return false;
    }
    ok := t.SetVest(n, a.(vest := v.value, balance := b.value, hasPowerdown := h.value));
    if !ok {
      return;
    }
    ok := t.VestToCos(quota.value);
    if !ok {
      return;
    }
    if t.accounts[n].hasPowerdown >= t.accounts[n].toPowerdown || t.accounts[n].vest <= fee {
      t.accounts := t.accounts[n := t.accounts[n].(eachRate := 0, nextPowerdown := MAX_UINT64)];
    } else {
      t.accounts := t.accounts[n := t.accounts[n].(nextPowerdown := WrapAdd(t.props.head, POWER_DOWN_BLOCK_INTERVAL))];
    }
  }

  method PowerDownDueAccounts(t: Tables, names: seq<Name>) returns (ok: bool)
    modifies t
    ensures t.Gives(ok, PowerDown(old(t.View()), names))
  {
    hide PowerDownOne;
    if !t.props.bootCompleted {
      return true;
    }
    for i := 0 to |names|
      invariant PowerDownAll(old(t.View()), names[..i]) == Ok(t.View())
    {
      assert names[..i + 1][..i] == names[..i];
      ok := PowerDownAccount(t, names[i]);
      if !ok {
        PowerDownPanic(old(t.View()), names, i + 1);
        return;
      }
    }
    assert names[..|names|] == names;
    ok := true;
  }

  lemma {:induction false} PowerDownPanic(s: State, names: seq<Name>, n: nat)
    requires n <= |names| && PowerDownAll(s, names[..n]).Panic?
    ensures PowerDownAll(s, names).Panic?
    decreases |names| - n
  {
    hide PowerDownOne;
    if n < |names| {
      assert names[..n + 1][..n] == names[..n];
      PowerDownPanic(s, names, n + 1);
    } else {
      assert names[..n] == names;
    }
  }

  // ----- DeliverDelegatedVests -----

  method DeliverOrder(t: Tables, id: U64) returns (ok: bool)
    modifies t
    ensures t.Gives(ok, DeliverOne(old(t.View()), id))
  {
    hide UpdateBpVoteValue;
    if id !in t.orders || t.orders[id].from !in t.accounts {
      return false;
    }
    var o := t.orders[id];
    var d := Sub(t.accounts[o.from].delivering, o.amount);
    if d.Panic? {
      return false;
    }
    var v := Add(t.accounts[o.from].vest, o.amount);
    if v.Panic? {
      return false;
    }
    ok := t.SetVest(o.from, t.accounts[o.from].(delivering := d.value, vest := v.value));
    if !ok {
      return;
    }
    t.orders := t.orders - {id};
  }

  method DeliverDelegatedVests(t: Tables, ids: seq<U64>) returns (ok: bool)
    modifies t
    ensures t.Gives(ok, Deliver(old(t.View()), ids))
  {
    hide DeliverOne;
    if !t.props.bootCompleted {
      return true;
    }
    for i := 0 to |ids|
      invariant DeliverAll(old(t.View()), ids[..i]) == Ok(t.View())
    {
      assert ids[..i + 1][..i] == ids[..i];
      ok := DeliverOrder(t, ids[i]);
      if !ok {
        DeliverPanic(old(t.View()), ids, i + 1);
        return;
      }
    }
    assert ids[..|ids|] == ids;
    ok := true;
  }

  lemma {:induction false} DeliverPanic(s: State, ids: seq<U64>, n: nat)
    requires n <= |ids| && DeliverAll(s, ids[..n]).Panic?
    ensures DeliverAll(s, ids).Panic?
    decreases |ids| - n
  {
    hide DeliverOne;
    if n < |ids| {
      assert ids[..n + 1][..n] == ids[..n];
      DeliverPanic(s, ids, n + 1);
    } else {
      assert ids[..n] == ids;
    }
  }

  // ----- ShareTicketBonus -----

  /** A panic stops the loop and what was written stays. */
  method ShareOut(t: Tables, n: Name, amount: U64) returns (stopped: bool)
    modifies t
    ensures (t.View(), stopped) == ShareOne(old(t.View()), n, amount)
  {
    if amount == 0 {
      return false;
    }
    if n !in t.accounts {
      return true;
    }
    var v := Add(t.accounts[n].vest, amount);
    if v.Panic? {
      return true;
    }
    var oldVest := t.accounts[n].vest;
    t.accounts := t.accounts[n := t.accounts[n].(vest := v.value)];
    var ok := t.UpdateBpVoteValue(n, oldVest, v.value);
    stopped := !ok;
  }

  method ShareBonus(t: Tables)
    modifies t
    ensures t.View() == ShareTicketBonus(old(t.View()))
  {
    hide ShareOne, ShareOf;
    var bonus := t.props.ticketsBpBonus;
    var n := |t.schedule|;
    if bonus == 0 || n == 0 {
      return;
    }
    var names := t.schedule;
    t.props := t.props.(ticketsBpBonus := 0);
    ghost var start := t.View();
    var share, firstShare := ShareOf(bonus, n, false), ShareOf(bonus, n, true);
    for i := 0 to n
      invariant ShareLoop(start, names, bonus, i) == (t.View(), false)
    {
      var amount := share;
      if i == 0 {
        amount := firstShare;
      }
      var stopped := ShareOut(t, names[i], amount);
      if stopped {
        StoppedStays(start, names, bonus, i + 1, n);
        return;
      }
    }
  }

  lemma {:induction false} StoppedStays(s: State, names: seq<Name>, bonus: U64, k: nat, n: nat)
    requires k <= n <= |names| && ShareLoop(s, names, bonus, k).1
    ensures ShareLoop(s, names, bonus, n) == ShareLoop(s, names, bonus, k)
  {
    hide ShareOne;
    if k < n {
      StoppedStays(s, names, bonus, k, n - 1);
    }
  }
}
