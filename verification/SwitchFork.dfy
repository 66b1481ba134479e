/** Switching to another branch of the chain, and back when a block of it fails. */
module SwitchFork {
  import opened Options
  import D = Dynasties

  type Dynasty = D.Dynasty

  datatype Block = Block(num: nat, hash: nat)

  /** The database after a block: the shuffled producers, and all the rest. */
  datatype Snapshot = Snapshot(schedule: seq<string>, rest: nat)

  /** What pushing a block does.  A block that ends a production round starts a dynasty; one
      that fails leaves the database alone, but may have started a dynasty before. */
  datatype Effect = Done(after: Snapshot, round: Option<Dynasty>) | Failed(round: Option<Dynasty>)

  /** Pushing a block is deterministic; dynasties are numbered by their block, and the
      schedule changes with a dynasty only. */
  ghost predicate Numbered(run: (Snapshot, Block) -> Effect) {
    forall s, b :: match run(s, b) {
                     case Done(t, Some(d)) => d.num == b.num && t.schedule == d.validators
                     case Done(t, None) => t.schedule == s.schedule
                     case Failed(Some(d)) => d.num == b.num
                     case Failed(None) => true
                   }
  }

  // ----- dynasties of a chain -----

  /** The dynasty started by block `k`. */
  function Round(run: (Snapshot, Block) -> Effect, snaps: seq<Snapshot>, chain: seq<Block>, k: nat): seq<Dynasty>
    requires 1 <= k < |chain| && |snaps| == |chain|
  {
    var e := run(snaps[k - 1], chain[k]);
    if e.Done? && e.round.Some? then [e.round.value] else []
  }

  /** The dynasties started by the blocks from `lo` up to, but not including, `hi`. */
  function Rounds(run: (Snapshot, Block) -> Effect, snaps: seq<Snapshot>, chain: seq<Block>, lo: nat, hi: nat): seq<Dynasty>
    requires 1 <= lo && hi <= |chain| && |snaps| == |chain|
  {
    if hi <= lo then [] else Rounds(run, snaps, chain, lo, hi - 1) + Round(run, snaps, chain, hi - 1)
  }

  lemma {:induction false} RoundsPrefix(run: (Snapshot, Block) -> Effect, snaps: seq<Snapshot>, chain: seq<Block>,
                                        lo: nat, hi: nat, n: nat)
    requires 1 <= lo && hi <= n <= |chain| && |snaps| == |chain|
    ensures Rounds(run, snaps[..n], chain[..n], lo, hi) == Rounds(run, snaps, chain, lo, hi)
  {
    if hi > lo {
      RoundsPrefix(run, snaps, chain, lo, hi - 1, n);
    }
  }

  predicate AllFrom(list: seq<Dynasty>, num: nat) {
    forall i :: 0 <= i < |list| ==> list[i].num >= num
  }

  predicate AllBelow(list: seq<Dynasty>, num: nat) {
    forall i :: 0 <= i < |list| ==> list[i].num < num
  }

  predicate Consecutive(chain: seq<Block>) {
    chain != [] && forall i :: 0 <= i < |chain| ==> chain[i].num == i
  }

  lemma RoundNumbered(run: (Snapshot, Block) -> Effect, snaps: seq<Snapshot>, chain: seq<Block>, k: nat)
    requires Numbered(run) && 1 <= k < |chain| && |snaps| == |chain| && Consecutive(chain)
    ensures AllFrom(Round(run, snaps, chain, k), k) && AllBelow(Round(run, snaps, chain, k), k + 1)
  {
    var e := run(snaps[k - 1], chain[k]);
  }

  lemma {:induction false} RoundsNumbered(run: (Snapshot, Block) -> Effect, snaps: seq<Snapshot>, chain: seq<Block>,
                                          lo: nat, hi: nat)
    requires Numbered(run) && 1 <= lo && hi <= |chain| && |snaps| == |chain| && Consecutive(chain)
    ensures AllFrom(Rounds(run, snaps, chain, lo, hi), lo) && AllBelow(Rounds(run, snaps, chain, lo, hi), hi)
  {
    hide Numbered, Round;
    if hi > lo {
      RoundsNumbered(run, snaps, chain, lo, hi - 1);
      RoundNumbered(run, snaps, chain, hi - 1);
    }
  }

  lemma {:induction false} RoundsSplit(run: (Snapshot, Block) -> Effect, snaps: seq<Snapshot>, chain: seq<Block>,
                                       lo: nat, mid: nat, hi: nat)
    requires 1 <= lo <= mid <= hi <= |chain| && |snaps| == |chain|
    ensures Rounds(run, snaps, chain, lo, hi) == Rounds(run, snaps, chain, lo, mid) + Rounds(run, snaps, chain, mid, hi)
  {
    if hi > mid {
      RoundsSplit(run, snaps, chain, lo, mid, hi - 1);
    }
  }

  /** Popping removes exactly the dynasties from `num` on. */
  lemma {:induction false} BeforeCuts(list: seq<Dynasty>, tail: seq<Dynasty>, num: nat)
    requires AllBelow(list, num) && AllFrom(tail, num)
    ensures D.Before(list + tail, num) == list
  {
    var all := list + tail;
    if tail == [] {
      assert all == list;
    } else {
      var init := tail[..|tail| - 1];
      assert all[..|all| - 1] == list + init && all[|all| - 1] == tail[|tail| - 1];
      BeforeCuts(list, init, num);
    }
  }

  /** Each snapshot results from pushing its block on the one before. */
  ghost predicate Consistent(run: (Snapshot, Block) -> Effect, snaps: seq<Snapshot>, chain: seq<Block>) {
    && |snaps| == |chain| && Consecutive(chain)
    && forall k :: 1 <= k < |chain| ==> run(snaps[k - 1], chain[k]).Done? && run(snaps[k - 1], chain[k]).after == snaps[k]
  }

  lemma ConsistentExtends(run: (Snapshot, Block) -> Effect, snaps: seq<Snapshot>, chain: seq<Block>, b: Block)
    requires Consistent(run, snaps, chain) && b.num == |chain| && run(snaps[|snaps| - 1], b).Done?
    ensures Consistent(run, snaps + [run(snaps[|snaps| - 1], b).after], chain + [b])
  {
  }

  lemma ConsistentCut(run: (Snapshot, Block) -> Effect, snaps: seq<Snapshot>, chain: seq<Block>, n: nat)
    requires Consistent(run, snaps, chain) && 1 <= n <= |chain|
    ensures Consistent(run, snaps[..n], chain[..n])
  {
  }

  /** One more block adds its own dynasty. */
  lemma RoundsExtend(run: (Snapshot, Block) -> Effect, snaps: seq<Snapshot>, chain: seq<Block>, lo: nat, b: Block)
    requires |snaps| == |chain| && 1 <= lo <= |chain| && run(snaps[|snaps| - 1], b).Done?
    ensures var e := run(snaps[|snaps| - 1], b);
            Rounds(run, snaps + [e.after], chain + [b], lo, |chain| + 1)
            == Rounds(run, snaps, chain, lo, |chain|) + (if e.round.Some? then [e.round.value] else [])
  {
    hide Numbered;
    var n, e := |chain|, run(snaps[|snaps| - 1], b);
    var snaps2, chain2 := snaps + [e.after], chain + [b];
    assert snaps2[..n] == snaps && chain2[..n] == chain;
    RoundsPrefix(run, snaps2, chain2, lo, n, n);
  }

  lemma Regroup(a: seq<Dynasty>, b: seq<Dynasty>, c: seq<Dynasty>, d: seq<Dynasty>)
    ensures a + (b + c) + d == (a + b) + (c + d)
  {
  }

  lemma BelowConcat(a: seq<Dynasty>, b: seq<Dynasty>, lo: nat, num: nat)
    requires AllBelow(a, lo) && AllBelow(b, num) && lo <= num
    ensures AllBelow(a + b, num)
  {
  }

  lemma FromConcat(a: seq<Dynasty>, b: seq<Dynasty>, num: nat)
    requires AllFrom(a, num) && AllFrom(b, num)
    ensures AllFrom(a + b, num)
  {
  }

  /** Popping leaves the dynasties of the blocks that stay. */
  lemma PopRounds(run: (Snapshot, Block) -> Effect, snaps: seq<Snapshot>, chain: seq<Block>, lo: nat, num: nat,
                  kept: seq<Dynasty>, extra: seq<Dynasty>)
    requires Numbered(run) && Consecutive(chain) && |snaps| == |chain| && 1 <= lo <= num <= |chain|
    requires AllBelow(kept, lo) && AllFrom(extra, num)
    ensures D.Before(kept + Rounds(run, snaps, chain, lo, |chain|) + extra, num)
            == kept + Rounds(run, snaps[..num], chain[..num], lo, num)
  {
    hide Rounds, Numbered, AllBelow, AllFrom, D.Before;
    RoundsSplit(run, snaps, chain, lo, num, |chain|);
    RoundsNumbered(run, snaps, chain, lo, num);
    RoundsNumbered(run, snaps, chain, num, |chain|);
    RoundsPrefix(run, snaps, chain, lo, num, num);
    var stay, go := Rounds(run, snaps, chain, lo, num), Rounds(run, snaps, chain, num, |chain|);
    Regroup(kept, stay, go, extra);
    BelowConcat(kept, stay, lo, num);
    FromConcat(go, extra, num);
    BeforeCuts(kept + stay, go + extra, num);
  }

  // ----- branches -----

  /** A branch lists blocks from its head down to the common ancestor: the `m` blocks right
      above the ancestor, in the order they are applied. */
  function Upward(branch: seq<Block>, m: nat): seq<Block>
    requires m < |branch|
  {
    seq(m, i requires 0 <= i < m => branch[|branch| - 2 - i])
  }

  predicate Descends(branch: seq<Block>, ancestor: Block) {
    branch != [] && branch[|branch| - 1] == ancestor
    && forall k :: 0 <= k < |branch| ==> branch[k].num == ancestor.num + |branch| - 1 - k
  }

  /** The branch is the top of the chain. */
  predicate TopOf(branch: seq<Block>, chain: seq<Block>) {
    |branch| <= |chain| && forall k :: 0 <= k < |branch| ==> branch[k] == chain[|chain| - 1 - k]
  }

  lemma UpwardGrows(branch: seq<Block>, m: nat)
    requires m + 1 < |branch|
    ensures Upward(branch, m + 1) == Upward(branch, m) + [branch[|branch| - 2 - m]] && |Upward(branch, m)| == m
    ensures |Upward(branch, |branch| - 1)| == |branch| - 1 && Upward(branch, |branch| - 1)[m] == branch[|branch| - 2 - m]
  {
  }

  lemma UpwardNone(branch: seq<Block>)
    requires branch != []
    ensures Upward(branch, 0) == [] && |Upward(branch, |branch| - 1)| == |branch| - 1
  {
  }

  // ----- what becomes of a branch -----

  datatype Outcome = Switched | SwitchedBack | Rejected

  /** The database when block `k` of a branch is tried: the blocks before it, pushed on `s`. */
  function Reached(run: (Snapshot, Block) -> Effect, s: Snapshot, blocks: seq<Block>, k: nat): Snapshot
    requires k <= |blocks|
  {
    if k == 0 then s
    else
      var before := Reached(run, s, blocks, k - 1);
      var e := run(before, blocks[k - 1]);
      if e.Done? then e.after else before
  }

  lemma ReachedNone(run: (Snapshot, Block) -> Effect, s: Snapshot, blocks: seq<Block>)
    ensures Reached(run, s, blocks, 0) == s
  {
  }

  /** A trial of the blocks of a branch, in order, on the database `start`. */
  datatype Trial = Trial(run: (Snapshot, Block) -> Effect, accepts: (seq<string>, Block) -> bool,
                         start: Snapshot, blocks: seq<Block>) {
    /** The producers then in force let the block pass. */
    predicate Accepted(k: nat)
      requires k < |blocks|
    {
      accepts(Reached(run, start, blocks, k).schedule, blocks[k])
    }

    predicate Applies(k: nat)
      requires k < |blocks|
    {
      run(Reached(run, start, blocks, k), blocks[k]).Done?
    }

    /** The first `m` blocks pass. */
    predicate Passes(m: nat)
      requires m <= |blocks|
    {
      forall k :: 0 <= k < m ==> Accepted(k) && Applies(k)
    }

    /** `r` is what becomes of the trial, and `m` the number of blocks that pass before it
        stops. */
    predicate Ends(r: Outcome, m: nat)
    {
      && m <= |blocks| && Passes(m)
      && (r.Switched? <==> m == |blocks|)
      && (r.Rejected? <==> m < |blocks| && !Accepted(m))
      && (r.SwitchedBack? <==> m < |blocks| && Accepted(m) && !Applies(m))
    }
  }

  /** One more block passes. */
  lemma PassesOneMore(t: Trial, m: nat)
    requires m < |t.blocks| && t.Passes(m) && t.Accepted(m) && t.Applies(m)
    ensures t.Passes(m + 1)
    ensures Reached(t.run, t.start, t.blocks, m + 1) == t.run(Reached(t.run, t.start, t.blocks, m), t.blocks[m]).after
  {
  }

  /** The outcome and the place where a trial stops are determined by the branch: it ends
      well exactly when every block passes. */
  lemma OneEnd(t: Trial, r: Outcome, m: nat, r2: Outcome, m2: nat)
    requires t.Ends(r, m) && t.Ends(r2, m2)
    ensures r == r2 && m == m2
    ensures r.Switched? <==> t.Passes(|t.blocks|)
  {
  }

  // ----- the node -----

  class Sabft {
    const run: (Snapshot, Block) -> Effect
    const accepts: (seq<string>, Block) -> bool      // `validateProducer`

    var chain: seq<Block>
    var snaps: seq<Snapshot>
    var producers: seq<string>
    var dynasties: seq<Dynasty>
    var forkHead: Block

    ghost var lib: nat
    ghost var kept: seq<Dynasty>                     // the dynasties up to the last irreversible block

    /** The database holds the snapshots of the chain; `extra` dynasties are left behind. */
    ghost predicate Dirty(extra: seq<Dynasty>)
      reads this
    {
      && Numbered(run) && Consistent(run, snaps, chain) && lib < |chain| && AllBelow(kept, lib + 1)
      && dynasties == kept + Rounds(run, snaps, chain, lib + 1, |chain|) + extra
    }

    /** Producers and dynasties are those of the chain. */
    ghost predicate Valid()
      reads this
    {
      Dirty([]) && producers == snaps[|snaps| - 1].schedule
    }

    /** A node that starts at the genesis block, whose producers are the first dynasty. */
    constructor (run: (Snapshot, Block) -> Effect, accepts: (seq<string>, Block) -> bool, genesis: Block, first: Snapshot)
      requires Numbered(run) && genesis.num == 0
      ensures Valid() && chain == [genesis] && snaps == [first] && forkHead == genesis && lib == 0
      ensures dynasties == [D.Dynasty(0, first.schedule)] && this.run == run && this.accepts == accepts
    {
      this.run := run;
      this.accepts := accepts;
      chain := [genesis];
      snaps := [first];
      producers := first.schedule;
      dynasties := [D.Dynasty(0, first.schedule)];
      forkHead := genesis;
      lib := 0;
      kept := [D.Dynasty(0, first.schedule)];
      new;
      assert kept + [] + [] == dynasties;
    }

    /** `PushBlock`: a block that fails may leave a dynasty and producers behind. */
    method ApplyBlock(b: Block) returns (ok: bool, ghost extra: seq<Dynasty>)
      requires Valid() && b.num == |chain|
      modifies this`chain, this`snaps, this`producers, this`dynasties
      ensures ok == run(old(snaps)[|old(snaps)| - 1], b).Done?
      ensures ok ==> Valid() && chain == old(chain) + [b]
                     && snaps == old(snaps) + [run(old(snaps)[|old(snaps)| - 1], b).after]
      ensures !ok ==> chain == old(chain) && snaps == old(snaps) && Dirty(extra) && AllFrom(extra, b.num)
    {
      hide Rounds;
      ghost var rounds := Rounds(run, snaps, chain, lib + 1, |chain|);
      assert kept + rounds + [] == kept + rounds;
      extra := [];
      var e := run(snaps[|snaps| - 1], b);
      if e.round.Some? {
        producers := e.round.value.validators;
        dynasties := dynasties + [e.round.value];
        extra := [e.round.value];
      }
      if e.Failed? {
        return false, extra;
      }
      RoundsExtend(run, snaps, chain, lib + 1, b);
      ConsistentExtends(run, snaps, chain, b);
      hide Numbered, Consistent;
      chain := chain + [b];
      snaps := snaps + [e.after];
      assert dynasties == kept + Rounds(run, snaps, chain, lib + 1, |chain|) + [];
      return true, [];
    }

    /** Reverts the blocks from `num` on; producers and dynasties follow the database. */
    method PopBlock(num: nat, ghost extra: seq<Dynasty>)
      requires Dirty(extra) && lib < num <= |chain| && AllFrom(extra, num)
      modifies this`chain, this`snaps, this`producers, this`dynasties
      ensures Valid() && chain == old(chain)[..num] && snaps == old(snaps)[..num]
    {
      hide Rounds, Numbered;
      PopRounds(run, snaps, chain, lib + 1, num, kept, extra);
      ConsistentCut(run, snaps, chain, num);
      if num < |chain| {
        chain := chain[..num];
        snaps := snaps[..num];
      } else {
        assert chain[..num] == chain && snaps[..num] == snaps;
      }
      producers := snaps[|snaps| - 1].schedule;
      dynasties := D.Before(dynasties, num);
      assert dynasties == kept + Rounds(run, snaps, chain, lib + 1, |chain|) + [];
    }

    /** Pushes the old branch again; what went through once goes through again. */
    method SwitchBack(branch0: seq<Block>, ghost chain0: seq<Block>, ghost snaps0: seq<Snapshot>)
      requires Valid() && Consistent(run, snaps0, chain0) && TopOf(branch0, chain0) && branch0 != []
      requires chain == chain0[..|chain0| - |branch0| + 1] && snaps == snaps0[..|chain0| - |branch0| + 1]
      modifies this`chain, this`snaps, this`producers, this`dynasties
      ensures Valid() && chain == chain0 && snaps == snaps0
    {
      hide Rounds, Numbered;
      var i := |branch0| - 2;
      while i >= 0
        invariant -1 <= i < |branch0| - 1
        invariant Valid() && chain == chain0[..|chain0| - 1 - i] && snaps == snaps0[..|chain0| - 1 - i]
      {
        var b := branch0[i];
        ghost var n := |chain0| - 1 - i;
        assert b == chain0[n];
        var ok;
        ghost var extra;
        ok, extra := ApplyBlock(b);
        assert chain0[..n + 1] == chain0[..n] + [b] && snaps0[..n + 1] == snaps0[..n] + [snaps0[n]];
        i := i - 1;
      }
    }

    /** The trial of a branch on what is now the latest snapshot. */
    ghost function TrialOf(start: Snapshot, branch: seq<Block>): Trial
      requires branch != []
    {
      Trial(run, accepts, start, Upward(branch, |branch| - 1))
    }

    /** Pushes the new branch above the ancestor, as far as it goes. */
    method ApplyBranch(branch1: seq<Block>) returns (r: Outcome, ghost m: nat, ghost left: seq<Dynasty>)
      requires Valid() && |branch1| > 0 && branch1[|branch1| - 1] == forkHead
      requires Descends(branch1, chain[|chain| - 1])
      modifies this`chain, this`snaps, this`producers, this`dynasties, this`forkHead
      ensures TrialOf(old(snaps)[|old(snaps)| - 1], branch1).Ends(r, m)
      ensures m < |branch1| && chain == old(chain) + Upward(branch1, m)
      ensures |snaps| == |chain| && snaps[..|old(chain)|] == old(snaps)
      ensures !r.SwitchedBack? ==> Valid() && forkHead == branch1[|branch1| - 1 - m]
      ensures r.SwitchedBack? ==> Dirty(left) && AllFrom(left, |old(chain)|)
    {
      hide Rounds, Numbered, Consistent, AllBelow, Upward, Reached;
      assert |snaps| == |chain| && chain[|chain| - 1].num == |chain| - 1 by { ConsistentShape(run, snaps, chain); }
      ghost var n, start := |chain|, snaps[|snaps| - 1];
      ghost var trial := TrialOf(start, branch1);
      m, left := 0, [];
      UpwardNone(branch1);
      assert Reached(run, start, trial.blocks, 0) == start by { ReachedNone(run, start, trial.blocks); }
      var k := |branch1| - 2;
      while k >= 0
        invariant -1 <= k < |branch1| - 1 && m == |branch1| - 2 - k
        invariant Valid() && chain == old(chain) + Upward(branch1, m) && |snaps| == |chain| && snaps[..n] == old(snaps)
        invariant forkHead == branch1[k + 1]
        invariant trial.Passes(m) && snaps[|snaps| - 1] == Reached(run, start, trial.blocks, m)
      {
        var b := branch1[k];
        UpwardGrows(branch1, m);
        if !accepts(producers, b) {
          return Rejected, m, left;
        }
        assert b.num == |chain|;
        var ok;
        ok, left := ApplyBlock(b);
        if !ok {
          AllFromLess(left, b.num, n);
          return SwitchedBack, m, left;
        }
        PassesOneMore(trial, m);
        forkHead := b;
        m := m + 1;
        k := k - 1;
      }
      return Switched, m, left;
    }

    /** What a switch to `branch1` leaves: the blocks that pass above the ancestor, or, when
        one of them fails to apply, the chain, the database, the producers and the dynasties
        as they were.  The head of the fork database is then the ancestor, wherever it was.
        A block whose producer is rejected ends the switch half way. */
    ghost predicate SwitchLeaves(chain0: seq<Block>, snaps0: seq<Snapshot>, producers0: seq<string>,
                                 dynasties0: seq<Dynasty>, branch0: seq<Block>, branch1: seq<Block>, r: Outcome, m: nat)
      requires branch0 != [] && |branch0| <= |chain0| && m < |branch1|
      reads this
    {
      if r.SwitchedBack? then
        && chain == chain0 && snaps == snaps0 && producers == producers0 && dynasties == dynasties0
        && forkHead == branch0[|branch0| - 1]
      else
        && chain == chain0[..|chain0| - |branch0| + 1] + Upward(branch1, m)
        && forkHead == branch1[|branch1| - 1 - m]
    }

    /** The outcome and the place `m` where the branch stops are those of the trial of its
        blocks on the snapshot of the common ancestor. */
    method Switch(branch0: seq<Block>, branch1: seq<Block>) returns (r: Outcome, ghost m: nat)
      requires Valid() && TopOf(branch0, chain) && |branch0| >= 2
      requires Descends(branch1, branch0[|branch0| - 1]) && lib <= branch0[|branch0| - 1].num
      modifies this`chain, this`snaps, this`producers, this`dynasties, this`forkHead
      ensures Valid() && |old(snaps)| == |old(chain)| && m < |branch1|
      ensures TrialOf(old(snaps)[|old(chain)| - |branch0|], branch1).Ends(r, m)
      ensures SwitchLeaves(old(chain), old(snaps), old(producers), old(dynasties), branch0, branch1, r, m)
    {
      hide Rounds, Numbered, AllBelow, Upward, Reached;
      var poppedNum := |branch0| - 1;
      ghost var a := |chain| - |branch0|;
      PopBlock(branch0[poppedNum - 1].num, []);
      forkHead := branch0[poppedNum];
      var from := forkHead;
      ghost var left;
      r, m, left := ApplyBranch(branch1);
      if r.SwitchedBack? {
        PopBlock(branch0[poppedNum - 1].num, left);
        assert chain == old(chain)[..a + 1];
        SwitchBack(branch0, old(chain), old(snaps));
        forkHead := from;
      }
    }
  }

  lemma ConsistentShape(run: (Snapshot, Block) -> Effect, snaps: seq<Snapshot>, chain: seq<Block>)
    requires Consistent(run, snaps, chain)
    ensures |snaps| == |chain| > 0 && chain[|chain| - 1].num == |chain| - 1
  {
  }

  lemma AllFromLess(list: seq<Dynasty>, a: nat, b: nat)
    requires AllFrom(list, a) && b <= a
    ensures AllFrom(list, b)
  {
  }
}
