/** The outcome of a batch is that of one sequential order that depends on the batch alone. */
module Confluence {
  import opened Storage
  import opened Scheduler
  import opened ParallelApply
  import opened Interleaving

  // ----- plans are independent -----

  lemma SplitParts(b: Batch, plan: seq<seq<nat>>, shared: seq<nat>, loners: seq<nat>)
    requires Split(b.foot, plan, shared, loners)
    ensures var deps, firsts := Dependents(b.foot, |b.foot|), Firsts(b.foot, |b.foot|);
            && InBatch(b, deps) && InBatch(b, firsts) && InBatch(b, shared) && InBatch(b, loners)
            && Apart(b, firsts) && Apart(b, shared)
            && (forall p :: 0 <= p < |deps| ==> Dependent(b.foot, deps[p]))
            && (forall p, q :: 0 <= p < q < |deps| ==> deps[p] != deps[q])
            && (forall p :: 0 <= p < |firsts| ==> !Dependent(b.foot, firsts[p]))
            && (forall p :: 0 <= p < |shared| ==> !Dependent(b.foot, shared[p]))
            && (forall p :: 0 <= p < |loners| ==> !Dependent(b.foot, loners[p]) && Isolated(b.foot, loners[p]))
  {
    hide Dependent, Isolated, Dependents, Firsts, Overlap;
    var firsts := Firsts(b.foot, |b.foot|);
    FirstsAre(b.foot, |b.foot|);
    DependentsAre(b.foot, |b.foot|);
    forall p, q | 0 <= p < q < |firsts|
      ensures !Overlap(b.foot, firsts[p], firsts[q])
    {
      FirstsDisjoint(b.foot, firsts[p], firsts[q]);
    }
    forall p, q | 0 <= p < q < |shared|
      ensures !Overlap(b.foot, shared[p], shared[q])
    {
      FirstsDisjoint(b.foot, shared[p], shared[q]);
    }
  }

  lemma IsolatedFrom(foot: seq<set<Prop>>, i: nat, j: nat)
    requires i < |foot| && j < |foot| && i != j && Isolated(foot, i)
    ensures !Overlap(foot, i, j) && !Overlap(foot, j, i)
  {
    OverlapSym(foot, i, j);
  }

  /** A loner differs from every transaction of the first group. */
  lemma SplitIndependent(b: Batch, plan: seq<seq<nat>>, shared: seq<nat>, loners: seq<nat>)
    requires Split(b.foot, plan, shared, loners)
    ensures Independent(b, plan)
  {
    hide Dependent, Isolated, Dependents, Firsts, Overlap;
    SplitParts(b, plan, shared, loners);
    var deps := Dependents(b.foot, |b.foot|);
    assert plan[0] == deps + shared;
    assert forall g :: 1 <= g < |plan| ==> plan[g] == [loners[g - 1]];
    forall g, h, p, q | 0 <= g < |plan| && 0 <= h < |plan| && g != h && 0 <= p < |plan[g]| && 0 <= q < |plan[h]|
      ensures !Overlap(b.foot, plan[g][p], plan[h][q]) && plan[g][p] != plan[h][q]
    {
      assert plan[g][p] != plan[h][q] by { LonersDiffer(b, plan, shared, loners, g, h, p, q); }
      if g > 0 {
        IsolatedFrom(b.foot, plan[g][p], plan[h][q]);
      } else {
        IsolatedFrom(b.foot, plan[h][q], plan[g][p]);
      }
    }
  }

  lemma LonersDiffer(b: Batch, plan: seq<seq<nat>>, shared: seq<nat>, loners: seq<nat>, g: nat, h: nat, p: nat, q: nat)
    requires Split(b.foot, plan, shared, loners)
    requires g < |plan| && h < |plan| && g != h && p < |plan[g]| && q < |plan[h]|
    ensures plan[g][p] != plan[h][q]
  {
    hide Dependent, Isolated, Dependents, Firsts, Overlap;
    SplitParts(b, plan, shared, loners);
    if g > 0 && h > 0 {
      assert plan[g][p] == loners[g - 1] && plan[h][q] == loners[h - 1];
    } else if g > 0 {
      assert plan[g][p] == loners[g - 1] && plan[h] == Dependents(b.foot, |b.foot|) + shared;
    } else {
      assert plan[h][q] == loners[h - 1] && plan[g] == Dependents(b.foot, |b.foot|) + shared;
    }
  }

  // ----- what a complete execution leaves -----

  ghost predicate Settled(b: Batch, plan: seq<seq<nat>>, c: Content, s: Config)
    requires Independent(b, plan)
  {
    && (forall g, p :: 0 <= g < |plan| && 0 <= p < |plan[g]| ==>
          plan[g][p] in s.receipts && s.receipts[plan[g][p]] == OutcomeAt(b, c, plan[g], p).receipt)
    && (forall g, k :: 0 <= g < |plan| && OwnedBy(b, plan[g], k) ==>
          Lookup(s.base, k) == Lookup(After(b, c, plan[g]), k))
    && (forall k :: (forall g :: 0 <= g < |plan| ==> !OwnedBy(b, plan[g], k)) ==> Lookup(s.base, k) == Lookup(c, k))
  }

  lemma CompleteSettles(b: Batch, plan: seq<seq<nat>>, c: Content, order: seq<nat>)
    requires Independent(b, plan) && Confined(b) && Complete(Exec(b, plan, c, order))
    ensures Settled(b, plan, c, Exec(b, plan, c, order))
  {
    ExecInv(b, plan, c, order);
    hide Confined, Overlap, Apply, Patch, OwnedBy, Exec, OutcomeAt, After;
  }

  /** An empty group in front changes nothing. */
  lemma SettledWithEmpty(b: Batch, plan: seq<seq<nat>>, c: Content, s: Config)
    requires Independent(b, plan) && Settled(b, plan, c, s) && Independent(b, [[]] + plan)
    ensures Settled(b, [[]] + plan, c, s)
  {
    hide Overlap, OutcomeAt, After, Independent;
    var full := [[]] + plan;
    assert forall g :: 0 <= g < |plan| ==> full[g + 1] == plan[g];
    forall k
      ensures !OwnedBy(b, full[0], k)
    {
    }
  }

  // ----- a batch that is not split -----

  /** One group that holds the whole batch runs as if alone, whatever its transactions do. */
  ghost predicate RunsWhole(b: Batch, c: Content, list: seq<nat>, s: Config)
    requires |s.groups| == 1
  {
    var g := s.groups[0];
    && g.done <= |list| && g.changes == Patch(b, c, list[..g.done])
    && (g.committed ==> g.done == |list|)
    && s.base == (if g.committed then Apply(c, g.changes) else c)
    && forall p :: 0 <= p < g.done ==> list[p] in s.receipts && s.receipts[list[p]] == OutcomeAt(b, c, list, p).receipt
  }

  lemma WholeStep(b: Batch, c: Content, list: seq<nat>, s: Config, g: nat)
    requires |s.groups| == 1 && RunsWhole(b, c, list, s)
    requires forall p, q :: 0 <= p < q < |list| ==> list[p] != list[q]
    ensures |Step(b, [list], s, g).groups| == 1 && RunsWhole(b, c, list, Step(b, [list], s, g))
  {
    hide Patch, Apply;
    var group := s.groups[0];
    if g == 0 && !group.committed && group.done < |list| {
      PatchExtends(b, c, list, group.done);
    }
  }

  lemma {:induction false} WholeExec(b: Batch, c: Content, list: seq<nat>, order: seq<nat>)
    requires forall p, q :: 0 <= p < q < |list| ==> list[p] != list[q]
    ensures RunsWhole(b, c, list, Exec(b, [list], c, order))
  {
    hide Step, Apply;
    if order == [] {
      assert list[..0] == [];
    } else {
      WholeExec(b, c, list, order[..|order| - 1]);
      WholeStep(b, c, list, Exec(b, [list], c, order[..|order| - 1]), order[|order| - 1]);
    }
  }

  lemma WholeReference(b: Batch, c: Content, order: seq<nat>)
    requires Whole(b.foot) && Complete(Exec(b, [Upto(|b.foot|)], c, order))
    ensures Reference(b, c, Exec(b, [Upto(|b.foot|)], c, order))
  {
    hide Exec, Whole, OutcomeAt, Patch, Apply;
    WholeExec(b, c, Upto(|b.foot|), order);
    assert Upto(|b.foot|)[..|b.foot|] == Upto(|b.foot|);
  }

  // ----- a batch that is split -----

  /** A loner does on the initial content what it does behind the dependent ones. */
  lemma LonerRuns(b: Batch, c: Content, deps: seq<nat>, i: nat)
    requires Confined(b) && InBatch(b, deps) && i < |b.foot| && Isolated(b.foot, i) && i !in deps
    ensures b.run(i, c) == b.run(i, After(b, c, deps))
    ensures forall k :: Owns(b, i, k) ==> !OwnedBy(b, deps, k)
  {
    hide Confined, Overlap, Patch;
    forall k | Owns(b, i, k)
      ensures !OwnedBy(b, deps, k)
    {
      forall p | 0 <= p < |deps|
        ensures !Owns(b, deps[p], k)
      {
        ApartOwners(b, i, deps[p], k);
      }
    }
    forall k | Sees(b, i, k)
      ensures Lookup(c, k) == Lookup(After(b, c, deps), k)
    {
      if !OwnedBy(b, deps, k) {
        AfterFrame(b, c, deps, k);
      }
    }
    ConfinedRuns(b, i, c, After(b, c, deps));
  }

  lemma SingleRuns(b: Batch, c: Content, i: nat)
    ensures OutcomeAt(b, c, [i], 0) == b.run(i, c)
    ensures After(b, c, [i]) == Apply(c, b.run(i, c).writes)
  {
    assert [i][..0] == [];
    assert Patch(b, c, []) == [];
    assert [] + b.run(i, c).writes == b.run(i, c).writes;
  }

  /** The receipt of a first transaction, wherever the plan puts it. */
  lemma FirstReceipt(b: Batch, c: Content, plan: seq<seq<nat>>, shared: seq<nat>, loners: seq<nat>, s: Config, i: nat)
    requires Confined(b) && Split(b.foot, plan, shared, loners) && Independent(b, plan) && Settled(b, plan, c, s)
    requires i < |b.foot| && !Dependent(b.foot, i)
    ensures i in s.receipts
    ensures s.receipts[i] == b.run(i, After(b, c, Dependents(b.foot, |b.foot|))).receipt
  {
    hide Confined, Overlap, Patch, Apply, OwnedBy, Dependent, Isolated, Dependents, Firsts, After;
    SplitParts(b, plan, shared, loners);
    var deps := Dependents(b.foot, |b.foot|);
    assert plan[0] == deps + shared;
    if i in SharedFirsts(b.foot) {
      var r :| 0 <= r < |shared| && shared[r] == i;
      ApartRuns(b, c, deps, shared, r);
      assert plan[0][|deps| + r] == i;
    } else {
      assert i in Loners(b.foot);
      var r :| 0 <= r < |loners| && loners[r] == i;
      assert plan[1 + r] == [i];
      SingleRuns(b, c, i);
      LonerRuns(b, c, deps, i);
      assert plan[1 + r][0] == i;
    }
  }

  /** A key owned by a first transaction ends up as that one leaves it. */
  lemma FirstKey(b: Batch, c: Content, plan: seq<seq<nat>>, shared: seq<nat>, loners: seq<nat>, s: Config, i: nat, k: Key)
    requires Confined(b) && Split(b.foot, plan, shared, loners) && Independent(b, plan) && Settled(b, plan, c, s)
    requires i < |b.foot| && !Dependent(b.foot, i) && Owns(b, i, k)
    ensures var after := After(b, c, Dependents(b.foot, |b.foot|));
            Lookup(s.base, k) == Lookup(Apply(after, b.run(i, after).writes), k)
  {
    hide Confined, Overlap, Patch, Apply, Dependent, Isolated, Dependents, Firsts, Owns, OutcomeAt, After;
    SplitParts(b, plan, shared, loners);
    var deps := Dependents(b.foot, |b.foot|);
    assert plan[0] == deps + shared;
    if i in SharedFirsts(b.foot) {
      var r :| 0 <= r < |shared| && shared[r] == i;
      ApartEnds(b, c, deps, shared, |shared|, r, k);
      assert shared[..|shared|] == shared;
      assert Owns(b, plan[0][|deps| + r], k);
    } else {
      assert i in Loners(b.foot);
      var r :| 0 <= r < |loners| && loners[r] == i;
      assert plan[1 + r] == [i];
      assert Owns(b, plan[1 + r][0], k);
      SingleRuns(b, c, i);
      LonerRuns(b, c, deps, i);
      AfterFrame(b, c, deps, k);
      SameWrites(c, After(b, c, deps), b.run(i, c).writes, k);
    }
  }

  /** A key no first transaction owns ends up as the dependent ones leave it. */
  lemma OtherKey(b: Batch, c: Content, plan: seq<seq<nat>>, shared: seq<nat>, loners: seq<nat>, s: Config, k: Key)
    requires Confined(b) && Split(b.foot, plan, shared, loners) && Independent(b, plan) && Settled(b, plan, c, s)
    requires forall i :: 0 <= i < |b.foot| && !Dependent(b.foot, i) ==> !Owns(b, i, k)
    ensures Lookup(s.base, k) == Lookup(After(b, c, Dependents(b.foot, |b.foot|)), k)
  {
    hide Confined, Overlap, Patch, Apply, Dependent, Isolated, Dependents, Firsts, Owns, OutcomeAt, After;
    SplitParts(b, plan, shared, loners);
    var deps := Dependents(b.foot, |b.foot|);
    assert plan[0] == deps + shared;
    if OwnedBy(b, deps, k) {
      var p :| 0 <= p < |deps| && Owns(b, deps[p], k);
      assert Owns(b, plan[0][p], k);
      ApartKeeps(b, c, deps, shared, |shared|, k);
      assert shared[..|shared|] == shared;
    } else {
      forall g | 0 <= g < |plan|
        ensures !OwnedBy(b, plan[g], k)
      {
        if g > 0 {
          assert plan[g] == [loners[g - 1]];
        }
      }
      AfterFrame(b, c, deps, k);
    }
  }

  lemma SplitReference(b: Batch, c: Content, plan: seq<seq<nat>>, shared: seq<nat>, loners: seq<nat>, s: Config)
    requires Confined(b) && !Whole(b.foot) && Split(b.foot, plan, shared, loners)
    requires Independent(b, plan) && Settled(b, plan, c, s)
    ensures Reference(b, c, s)
  {
    hide Confined, Overlap, Patch, Apply, Dependent, Isolated, Dependents, Firsts, Owns, After, Split, Settled, Whole;
    SplitParts(b, plan, shared, loners);
    var deps, firsts := Dependents(b.foot, |b.foot|), Firsts(b.foot, |b.foot|);
    FirstsAre(b.foot, |b.foot|);
    assert firsts[..|firsts|] == firsts;
    forall k
      ensures Lookup(s.base, k) == Lookup(After(b, c, deps + firsts), k)
    {
      if OwnedBy(b, firsts, k) {
        var q :| 0 <= q < |firsts| && Owns(b, firsts[q], k);
        FirstKey(b, c, plan, shared, loners, s, firsts[q], k);
        ApartEnds(b, c, deps, firsts, |firsts|, q, k);
      } else {
        forall i | 0 <= i < |b.foot| && !Dependent(b.foot, i)
          ensures !Owns(b, i, k)
        {
          assert i in firsts;
        }
        OtherKey(b, c, plan, shared, loners, s, k);
        ApartKeeps(b, c, deps, firsts, |firsts|, k);
      }
    }
    SameReads(s.base, After(b, c, deps + firsts));
    forall p | 0 <= p < |deps + firsts|
      ensures (deps + firsts)[p] in s.receipts
      ensures s.receipts[(deps + firsts)[p]] == OutcomeAt(b, c, deps + firsts, p).receipt
    {
      if p < |deps| {
        DependentReceipt(b, c, plan, shared, loners, s, p);
      } else {
        FirstReceipt(b, c, plan, shared, loners, s, firsts[p - |deps|]);
        ApartRuns(b, c, deps, firsts, p - |deps|);
      }
    }
  }

  lemma DependentReceipt(b: Batch, c: Content, plan: seq<seq<nat>>, shared: seq<nat>, loners: seq<nat>, s: Config, p: nat)
    requires Split(b.foot, plan, shared, loners) && Independent(b, plan) && Settled(b, plan, c, s)
    requires p < |Dependents(b.foot, |b.foot|)|
    ensures var deps, firsts := Dependents(b.foot, |b.foot|), Firsts(b.foot, |b.foot|);
            deps[p] in s.receipts && s.receipts[deps[p]] == OutcomeAt(b, c, deps + firsts, p).receipt
  {
    hide Overlap, Dependent, Isolated, Dependents, Firsts, Owns, After;
    var deps, firsts := Dependents(b.foot, |b.foot|), Firsts(b.foot, |b.foot|);
    assert plan[0] == deps + shared && plan[0][p] == deps[p];
    assert (deps + shared)[..p] == deps[..p] == (deps + firsts)[..p];
  }

  // ----- the theorem -----

  /** For every batch, every plan the scheduler may make of it and every interleaving that
      runs to the end, the database and the receipts are those of the order of reference.
      Only a batch that is split relies on the footprints. */
  lemma Confluent(b: Batch, c: Content, plan: seq<seq<nat>>, order: seq<nat>)
    requires (Whole(b.foot) || Confined(b)) && Schedule(b.foot, plan) && Complete(Exec(b, plan, c, order))
    ensures Reference(b, c, Exec(b, plan, c, order))
  {
    hide Confined, Split, Settled, Reference, Exec, Independent, Complete, Whole;
    var s := Exec(b, plan, c, order);
    var shared, loners :| Planned(b.foot, plan, shared, loners);
    if Whole(b.foot) {
      WholeReference(b, c, order);
    } else if Split(b.foot, plan, shared, loners) {
      SplitIndependent(b, plan, shared, loners);
      CompleteSettles(b, plan, c, order);
      SplitReference(b, c, plan, shared, loners, s);
    } else {
      SplitIndependent(b, [[]] + plan, shared, loners);
      TailIndependent(b, plan);
      CompleteSettles(b, plan, c, order);
      SettledWithEmpty(b, plan, c, s);
      SplitReference(b, c, [[]] + plan, shared, loners, s);
    }
  }

  lemma TailIndependent(b: Batch, plan: seq<seq<nat>>)
    requires Independent(b, [[]] + plan)
    ensures Independent(b, plan)
  {
    hide Overlap;
    var full := [[]] + plan;
    forall g | 0 <= g < |plan|
      ensures InBatch(b, plan[g])
    {
      assert full[g + 1] == plan[g];
    }
    forall g, h, p, q | 0 <= g < |plan| && 0 <= h < |plan| && g != h && 0 <= p < |plan[g]| && 0 <= q < |plan[h]|
      ensures !Overlap(b.foot, plan[g][p], plan[h][q]) && plan[g][p] != plan[h][q]
    {
      assert full[g + 1][p] == plan[g][p] && full[h + 1][q] == plan[h][q];
    }
    forall g, p, q | 0 <= g < |plan| && 0 <= p < q < |plan[g]|
      ensures plan[g][p] != plan[g][q]
    {
      assert full[g + 1][p] == plan[g][p] && full[g + 1][q] == plan[g][q];
    }
  }
}
