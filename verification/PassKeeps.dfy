/** The mint of a block, and what every pass that pays vest has in common.

    A pass first pays accounts and settles the totals at its end; in between the vest held
    exceeds what the totals say, which is a negative debt. */
module PassKeeps {
  import opened Amounts
  import opened Sums
  import opened LedgerState
  import opened Evaluators
  import opened Economist
  import opened LedgerInvariant
  import opened LedgerKeeps
  import opened DelegationKeeps
  import opened MintKeeps
  import opened VestMoves

  /** Only accounts, the vote index with them, and what posts note may differ. */
  ghost predicate SameBut(s: State, t: State) {
    && t == s.(accounts := t.accounts, producers := t.producers, dappRewards := t.dappRewards)
    && t.accounts.Keys == s.accounts.Keys && t.producers.Keys == s.producers.Keys
  }

  function Paid(d: Debt, amount: int): Debt {
    d.(lost := d.lost - amount)
  }

  function WithVest(s: State, n: Name, amount: U64): Account
    requires n in s.accounts && s.accounts[n].vest + amount < TWO_64
  {
    s.accounts[n].(vest := s.accounts[n].vest + amount)
  }

  /** Paying vest to one account goes through exactly when its vote is not stale. */
  lemma PayVest(s: State, n: Name, amount: U64, d: Debt)
    requires Holds(s, d) && n in s.accounts && Sum(s.accounts, VestOf, ()) + amount < TWO_64
    ensures s.accounts[n].vest + amount < TWO_64
    ensures PutVest(s, n, WithVest(s, n, amount)).Ok? <==> !Stale(s, n)
    ensures PutVest(s, n, WithVest(s, n, amount)).Ok? ==>
              var t := PutVest(s, n, WithVest(s, n, amount)).value;
              && Holds(t, Paid(d, amount)) && SameBut(s, t)
              && Sum(t.accounts, VestOf, ()) == Sum(s.accounts, VestOf, ()) + amount
              && t.accounts == s.accounts[n := WithVest(s, n, amount)] && t.dappRewards == s.dappRewards
  {
    hide Sum, StakesOk, OrdersOk, LimitsOk, NamesOk, TallyOk, CountsOk, VotersOk, PutVest, Minted, MintOk, Stale;
    SumBounds(s.accounts, VestOf, ());
    var a := WithVest(s, n, amount);
    PutVestIff(s, n, a, d.drift);
    if PutVest(s, n, a).Ok? {
      PutVestKeeps(s, n, a, d.drift);
      AccountSums(s.accounts, n, a);
    }
  }

  /** What no sum exceeds. */
  lemma SupplyBound(s: State)
    requires MintOk(s.props.year) && SupplyOk(s)
    ensures s.props.totalCos + s.props.totalVest + s.props.ticketsIncome <= COS_TOTAL_SUPPLY
  {
    hide Sum, Minted, MintOk;
    MintedBound(s.props.year);
  }

  // ----- Mint -----

  lemma FillPoolsMoves(p: Props, split: Split)
    requires MintOk(p.year) && PoolsOk(p)
    requires split.posts < MINT_CAP && split.replies < MINT_CAP && split.votes < MINT_CAP && split.dapps < MINT_CAP
    ensures FillPools(p, split).Ok?
    ensures var q := FillPools(p, split).value;
            && q == p.(posts := q.posts, replies := q.replies, dapps := q.dapps, votes := q.votes)
            && q.posts == p.posts.(rewards := q.posts.rewards) && q.posts.rewards == p.posts.rewards + split.posts
            && q.replies == p.replies.(rewards := q.replies.rewards)
            && q.replies.rewards == p.replies.rewards + split.replies
            && q.dapps == p.dapps.(rewards := q.dapps.rewards) && q.dapps.rewards == p.dapps.rewards + split.dapps
            && q.votes == p.votes.(rewards := q.votes.rewards) && q.votes.rewards == p.votes.rewards + split.votes
  {
    hide Minted, MintOk;
    MintedBound(p.year);
  }

  /** Filling the pools and raising the total settles what the producer was paid. */
  lemma MintSettles(s: State, split: Split, minted: U64, z: Year, d: Debt)
    requires Holds(s, Paid(d, split.bp))
    requires split.bp + split.posts + split.replies + split.votes + split.dapps == minted < MINT_CAP
    requires MintOk(z) && Minted(z) == Minted(s.props.year) + minted
    ensures FillPools(s.props, split).Ok? && s.props.totalVest + minted < TWO_64
    ensures Holds(s.(props := FillPools(s.props, split).value.(year := z, totalVest := s.props.totalVest + minted)), d)
  {
    hide Sum, StakesOk, OrdersOk, LimitsOk, NamesOk, TallyOk, CountsOk, VotersOk, Minted, MintOk, FillPools;
    SupplyBound(s);
    FillPoolsMoves(s.props, split);
  }

  /** Crediting a mint to producer `p`: discarded exactly when its own vote is stale. */
  lemma PayMintIff(s: State, p: Name, minted: U64, z: Year, d: Debt)
    requires Holds(s, d) && d.lost >= 0 && p in s.producers && minted < MINT_CAP
    requires MintOk(z) && Minted(z) == Minted(s.props.year) + minted
    ensures p in s.accounts && (PayMint(s, p, minted, z).Ok? <==> !Stale(s, p))
    ensures PayMint(s, p, minted, z).Ok? ==>
              var t := PayMint(s, p, minted, z).value;
              && Holds(t, d) && t.props.year == z && t.props.head == s.props.head && MintRest(s, t)
              && Moved(s, t, [Move(p, SplitMint(minted).bp)])
  {
    hide Sum, Holds, PutVest, Minted, MintOk, SplitMint, FillPools, Stale, Moved;
    assert p in s.accounts by { MintPre(s, p, d); }
    SplitExact(minted);
    GenBlocksKeep(s, p, d);
    VestSumBound(s, d);
    var split := SplitMint(minted);
    var s1 := s.(producers := s.producers[p := s.producers[p].(genBlocks := s.producers[p].genBlocks + 1)]);
    PayVest(s1, p, split.bp, d);
    assert split.bp + s.accounts[p].vest == s.accounts[p].vest + split.bp;
    if !Stale(s, p) {
      var s2 := PutVest(s1, p, WithVest(s1, p, split.bp)).value;
      MintSettles(s2, split, minted, z, d);
      FillPoolsFrame(s2.props, split);
      MintMoved(s, s1, s2, PayMint(s, p, minted, z).value, p, split.bp);
    }
  }

  lemma MintMoved(s: State, s1: State, s2: State, t: State, p: Name, amount: U64)
    requires p in s.producers && p in s.accounts && s.accounts[p].vest + amount < TWO_64
    requires s1 == s.(producers := s.producers[p := s.producers[p].(genBlocks := s.producers[p].genBlocks + 1)])
    requires PutVest(s1, p, WithVest(s1, p, amount)) == Ok(s2) && t == s2.(props := t.props)
    ensures Moved(s, t, [Move(p, amount)])
  {
    hide Gain, VoterGain, PutVest, Moved;
    MovedNone(s);
    MovedFrame(s, s, s1, []);
    MovedOne(s, s1, s2, [], p, WithVest(s1, p, amount));
    assert [] + [Move(p, amount)] == [Move(p, amount)];
    MovedFrame(s, s2, t, [Move(p, amount)]);
  }

  /** What a mint leaves alone. */
  ghost predicate MintRest(s: State, t: State) {
    && t.accounts.Keys == s.accounts.Keys && t.producers.Keys == s.producers.Keys
    && t.orders == s.orders && t.schedule == s.schedule && t.props.bootCompleted == s.props.bootCompleted
  }

  lemma FillPoolsFrame(p: Props, split: Split)
    requires FillPools(p, split).Ok?
    ensures var q := FillPools(p, split).value;
            q.totalVest == p.totalVest && q.head == p.head && q.bootCompleted == p.bootCompleted
  {
  }

  /** What the producer of the block earns by its mint. */
  function MintMoves(s: State): seq<Move> {
    if !s.props.bootCompleted then [] else [Move(s.props.producer, SplitMint(MintAmount(s.props.year).1).bp)]
  }

  /** A block's mint keeps the books and adds exactly the minted amount to the supply.  It
      discards the block exactly when the vote of the block's own producer is stale. */
  lemma MintIff(s: State, d: Debt)
    requires Holds(s, d) && d.lost >= 0 && s.props.year.ith < TWO_32 - 1 && s.props.producer in s.producers
    ensures Mint(s).Ok? <==> Covered(s, MintMoves(s))
    ensures Mint(s).Ok? ==>
              var t := Mint(s).value;
              && Holds(t, d) && Moved(s, t, MintMoves(s)) && t.props.head == s.props.head && MintRest(s, t)
              && (if s.props.bootCompleted then MintYear(s.props.year) == Ok(t.props.year) else t == s)
  {
    hide Sum, Holds, Minted, MintOk, MintAmount, MintYear, PayMint, SplitMint, Moved, Covered;
    MovedNone(s);
    if s.props.bootCompleted {
      var p := s.props.producer;
      MintPre(s, p, d);
      MintStep(s.props.year);
      PayMintIff(s, p, MintAmount(s.props.year).1, MintYear(s.props.year).value, d);
      MovedStale(s, s, [], p);
      CoveredMore(s, [], MintMoves(s)[0]);
      assert [] + [MintMoves(s)[0]] == MintMoves(s);
    }
  }

  predicate Grown(before: Pool, after: Pool, amount: int) {
    after == before.(rewards := after.rewards) && after.rewards == before.rewards + amount
  }

  /** Where a mint goes: a tenth to the applications, three fifths to the writers and voters, of
      these three quarters to posts and 15 parts in a hundred to replies, and all that is left to
      the block's producer, who has made one block more. */
  ghost predicate MintedTo(s: State, t: State, p: Name, minted: nat)
    requires p in s.accounts && p in t.accounts && p in s.producers && p in t.producers
  {
    var a, b, creators := s.props, t.props, minted * 6 / 10;
    && Grown(a.posts, b.posts, creators * 3 / 4) && Grown(a.replies, b.replies, creators * 15 / 100)
    && Grown(a.votes, b.votes, creators - creators * 3 / 4 - creators * 15 / 100) && Grown(a.dapps, b.dapps, minted / 10)
    && t.accounts == s.accounts[p := s.accounts[p].(vest := t.accounts[p].vest)]
    && t.accounts[p].vest == s.accounts[p].vest + minted - creators - minted / 10
    && t.producers[p].genBlocks == s.producers[p].genBlocks + 1
  }

  lemma MintShares(s: State, d: Debt)
    requires Holds(s, d) && d.lost >= 0 && s.props.year.ith < TWO_32 - 1 && s.props.producer in s.producers
    requires s.props.bootCompleted && Mint(s).Ok?
    ensures var t, p := Mint(s).value, s.props.producer;
            && p in s.accounts && p in t.accounts && p in t.producers
            && t.props.totalVest >= s.props.totalVest && MintedTo(s, t, p, t.props.totalVest - s.props.totalVest)
  {
    hide Sum, Holds, Minted, MintOk, MintAmount, MintYear, PayMint;
    MintPre(s, s.props.producer, d);
    MintStep(s.props.year);
    PayMintShares(s, s.props.producer, MintAmount(s.props.year).1, MintYear(s.props.year).value, d);
  }

  lemma PayMintShares(s: State, p: Name, minted: U64, z: Year, d: Debt)
    requires Holds(s, d) && p in s.producers && p in s.accounts && minted < MINT_CAP && PayMint(s, p, minted, z).Ok?
    ensures var t := PayMint(s, p, minted, z).value;
            && p in t.accounts && p in t.producers && t.props.totalVest == s.props.totalVest + minted
            && MintedTo(s, t, p, minted)
  {
    hide Sum, Holds, Minted, MintOk, SplitMint, FillPools, UpdateBpVoteValue;
    SplitExact(minted);
    MintRoom(s, d);
    var split := SplitMint(minted);
    FillPoolsMoves(s.props, split);
    FillPoolsFrame(s.props, split);
    var a := s.accounts[p].(vest := s.accounts[p].vest + split.bp);
    var s1 := s.(producers := s.producers[p := s.producers[p].(genBlocks := s.producers[p].genBlocks + 1)]);
    MintVotes(PutAccount(s1, p, a), p, s.accounts[p].vest, a.vest);
  }

  lemma MintRoom(s: State, d: Debt)
    requires Holds(s, d)
    ensures MintOk(s.props.year) && PoolsOk(s.props)
  {
    hide Sum, Records, IndexOk, Minted, MintOk;
  }

  lemma MintVotes(s: State, n: Name, before: U64, after: U64)
    requires n in s.producers && UpdateBpVoteValue(s, n, before, after).Ok?
    ensures var t := UpdateBpVoteValue(s, n, before, after).value;
            && t.accounts == s.accounts && t.props == s.props && t.producers.Keys == s.producers.Keys
            && t.producers[n].genBlocks == s.producers[n].genBlocks
  {
  }

  lemma MintPre(s: State, p: Name, d: Debt)
    requires Holds(s, d) && p in s.producers
    ensures MintOk(s.props.year) && p in s.accounts
  {
    hide Sum, StakesOk, OrdersOk, LimitsOk, IndexOk, Minted, MintOk;
  }

  lemma VestSumBound(s: State, d: Debt)
    requires Holds(s, d) && d.lost >= 0
    ensures 0 <= Sum(s.accounts, VestOf, ()) <= s.props.totalVest <= COS_TOTAL_SUPPLY
  {
    hide Sum, Records, IndexOk, Minted, MintOk;
    SumBounds(s.accounts, VestOf, ());
    SumBounds(s.accounts, DeliveringOf, ());
    SupplyBound(s);
  }

  lemma GenBlocksKeep(s: State, p: Name, d: Debt)
    requires Holds(s, d) && p in s.producers && p in s.accounts
    ensures var t := s.(producers := s.producers[p := s.producers[p].(genBlocks := s.producers[p].genBlocks + 1)]);
            Holds(t, d) && (Stale(t, p) <==> Stale(s, p))
  {
    hide Sum, StakesOk, OrdersOk, LimitsOk, Minted, MintOk;
    assert s.producers[p := s.producers[p].(genBlocks := s.producers[p].genBlocks + 1)].Keys == s.producers.Keys;
  }
}
