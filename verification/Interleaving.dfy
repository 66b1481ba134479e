/** Every interleaving of the groups gives the same database and receipts. */
module Interleaving {
  import opened Storage
  import opened Scheduler
  import opened ParallelApply

  /** A group at work: transactions applied, changes on its patch, patch committed or not. */
  datatype Group = Group(done: nat, changes: seq<WriteOp>, committed: bool)

  datatype Config = Config(base: Content, groups: seq<Group>, receipts: map<nat, Receipt>)

  function Begin(plan: seq<seq<nat>>, c: Content): Config {
    Config(c, seq(|plan|, i => Group(0, [], false)), map[])
  }

  /** One step of group `g`: its next transaction, reading the patch over the database as it
      is now; after the last one the patch is committed. */
  function Step(b: Batch, plan: seq<seq<nat>>, s: Config, g: nat): Config
    requires |s.groups| == |plan|
  {
    if g >= |plan| || s.groups[g].committed then s
    else
      var group := s.groups[g];
      if group.done < |plan[g]| then
        var i := plan[g][group.done];
        var outcome := b.run(i, Apply(s.base, group.changes));
        s.(groups := s.groups[g := Group(group.done + 1, group.changes + outcome.writes, false)],
           receipts := s.receipts[i := outcome.receipt])
      else
        s.(base := Apply(s.base, group.changes), groups := s.groups[g := group.(committed := true)])
  }

  /** An interleaving is the order in which the groups take steps. */
  function Exec(b: Batch, plan: seq<seq<nat>>, c: Content, order: seq<nat>): (s: Config)
    ensures |s.groups| == |plan|
  {
    if order == [] then Begin(plan, c)
    else Step(b, plan, Exec(b, plan, c, order[..|order| - 1]), order[|order| - 1])
  }

  predicate Complete(s: Config) {
    forall g :: 0 <= g < |s.groups| ==> s.groups[g].committed
  }

  /** Groups hold different transactions that do not overlap. */
  ghost predicate Independent(b: Batch, plan: seq<seq<nat>>) {
    && (forall g :: 0 <= g < |plan| ==> InBatch(b, plan[g]))
    && (forall g, h, p, q :: 0 <= g < |plan| && 0 <= h < |plan| && g != h
                             && 0 <= p < |plan[g]| && 0 <= q < |plan[h]| ==>
          !Overlap(b.foot, plan[g][p], plan[h][q]) && plan[g][p] != plan[h][q])
    && (forall g, p, q :: 0 <= g < |plan| && 0 <= p < q < |plan[g]| ==> plan[g][p] != plan[g][q])
  }

  // ----- the invariant -----

  /** Each patch holds what the group alone would have written. */
  ghost predicate Patches(b: Batch, plan: seq<seq<nat>>, c: Content, groups: seq<Group>)
    requires |groups| == |plan|
  {
    forall g :: 0 <= g < |plan| ==>
      && groups[g].done <= |plan[g]|
      && groups[g].changes == Patch(b, c, plan[g][..groups[g].done])
      && (groups[g].committed ==> groups[g].done == |plan[g]|)
  }

  /** Each key is as the committed group that owns it left it, or as it was. */
  ghost predicate Base(b: Batch, plan: seq<seq<nat>>, c: Content, groups: seq<Group>, base: Content)
    requires |groups| == |plan| && Independent(b, plan)
  {
    && (forall g, k :: 0 <= g < |plan| && groups[g].committed && OwnedBy(b, plan[g], k) ==>
          Lookup(base, k) == Lookup(After(b, c, plan[g]), k))
    && (forall k :: (forall g :: 0 <= g < |plan| && groups[g].committed ==> !OwnedBy(b, plan[g], k)) ==>
          Lookup(base, k) == Lookup(c, k))
  }

  ghost predicate Receipts(b: Batch, plan: seq<seq<nat>>, c: Content, groups: seq<Group>, receipts: map<nat, Receipt>)
    requires |groups| == |plan|
  {
    forall g, p :: 0 <= g < |plan| && 0 <= p < |plan[g]| && p < groups[g].done ==>
      plan[g][p] in receipts && receipts[plan[g][p]] == OutcomeAt(b, c, plan[g], p).receipt
  }

  ghost predicate Inv(b: Batch, plan: seq<seq<nat>>, c: Content, s: Config)
    requires |s.groups| == |plan| && Independent(b, plan)
  {
    Patches(b, plan, c, s.groups) && Base(b, plan, c, s.groups, s.base) && Receipts(b, plan, c, s.groups, s.receipts)
  }

  /** A key one group owns is not owned by another. */
  lemma OneOwner(b: Batch, plan: seq<seq<nat>>, g: nat, h: nat, k: Key)
    requires Independent(b, plan) && g < |plan| && h < |plan| && g != h && OwnedBy(b, plan[g], k)
    ensures !OwnedBy(b, plan[h], k)
  {
    var p :| 0 <= p < |plan[g]| && Owns(b, plan[g][p], k);
    forall q | 0 <= q < |plan[h]|
      ensures !Owns(b, plan[h][q], k)
    {
      ApartOwners(b, plan[g][p], plan[h][q], k);
    }
  }

  /** What a transaction of an uncommitted group sees does not depend on the others. */
  lemma SeesOwn(b: Batch, plan: seq<seq<nat>>, c: Content, s: Config, g: nat, i: nat)
    requires |s.groups| == |plan| && Independent(b, plan) && Inv(b, plan, c, s) && Confined(b)
    requires g < |plan| && !s.groups[g].committed && i in plan[g]
    ensures AgreeFor(b, i, Apply(s.base, s.groups[g].changes), Apply(c, s.groups[g].changes))
  {
    hide Patches, Receipts, Confined;
    forall k | Sees(b, i, k)
      ensures Lookup(Apply(s.base, s.groups[g].changes), k) == Lookup(Apply(c, s.groups[g].changes), k)
    {
      forall h | 0 <= h < |plan| && s.groups[h].committed
        ensures !OwnedBy(b, plan[h], k)
      {
        if Owns(b, i, k) {
          assert OwnedBy(b, plan[g], k);
          OneOwner(b, plan, g, h, k);
        }
      }
      SameWrites(s.base, c, s.groups[g].changes, k);
    }
  }

  /** A group's next transaction does what it does when the group runs alone. */
  lemma RunsAlone(b: Batch, plan: seq<seq<nat>>, c: Content, s: Config, g: nat)
    requires |s.groups| == |plan| && Independent(b, plan) && Inv(b, plan, c, s) && Confined(b)
    requires g < |plan| && !s.groups[g].committed && s.groups[g].done < |plan[g]|
    ensures b.run(plan[g][s.groups[g].done], Apply(s.base, s.groups[g].changes))
            == OutcomeAt(b, c, plan[g], s.groups[g].done)
  {
    hide Confined, Base, Receipts, Apply, Patch;
    var group := s.groups[g];
    var i := plan[g][group.done];
    assert i < |b.foot|;
    SeesOwn(b, plan, c, s, g, i);
    ConfinedRuns(b, i, Apply(s.base, group.changes), Apply(c, group.changes));
  }

  lemma PatchExtends(b: Batch, c: Content, list: seq<nat>, p: nat)
    requires p < |list|
    ensures Patch(b, c, list[..p + 1]) == Patch(b, c, list[..p]) + OutcomeAt(b, c, list, p).writes
  {
    assert list[..p + 1][..p] == list[..p];
  }

  lemma PatchesStep(b: Batch, plan: seq<seq<nat>>, c: Content, groups: seq<Group>, g: nat)
    requires |groups| == |plan| && Patches(b, plan, c, groups) && g < |plan|
    requires !groups[g].committed && groups[g].done < |plan[g]|
    ensures Patches(b, plan, c,
                    groups[g := Group(groups[g].done + 1,
                                      groups[g].changes + OutcomeAt(b, c, plan[g], groups[g].done).writes, false)])
  {
    hide Patch, OutcomeAt;
    PatchExtends(b, c, plan[g], groups[g].done);
  }

  lemma ReceiptsStep(b: Batch, plan: seq<seq<nat>>, c: Content, groups: seq<Group>, receipts: map<nat, Receipt>,
                     g: nat, changes: seq<WriteOp>)
    requires |groups| == |plan| && Receipts(b, plan, c, groups, receipts) && Independent(b, plan) && g < |plan|
    requires groups[g].done < |plan[g]|
    ensures Receipts(b, plan, c, groups[g := Group(groups[g].done + 1, changes, false)],
                     receipts[plan[g][groups[g].done] := OutcomeAt(b, c, plan[g], groups[g].done).receipt])
  {
    hide OutcomeAt, Overlap;
  }

  lemma TrxStep(b: Batch, plan: seq<seq<nat>>, c: Content, s: Config, g: nat)
    requires |s.groups| == |plan| && Independent(b, plan) && Inv(b, plan, c, s) && Confined(b)
    requires g < |plan| && !s.groups[g].committed && s.groups[g].done < |plan[g]|
    ensures Inv(b, plan, c, Step(b, plan, s, g))
  {
    hide Confined, Patches, Base, Receipts, Independent, Apply, Patch, OutcomeAt;
    RunsAlone(b, plan, c, s, g);
    PatchesStep(b, plan, c, s.groups, g);
    ReceiptsStep(b, plan, c, s.groups, s.receipts, g,
                 s.groups[g].changes + OutcomeAt(b, c, plan[g], s.groups[g].done).writes);
    BaseFrame(b, plan, c, s.groups, Step(b, plan, s, g).groups, s.base);
  }

  lemma BaseFrame(b: Batch, plan: seq<seq<nat>>, c: Content, groups: seq<Group>, now: seq<Group>, base: Content)
    requires |groups| == |now| == |plan| && Independent(b, plan) && Base(b, plan, c, groups, base)
    requires forall g :: 0 <= g < |plan| ==> now[g].committed == groups[g].committed
    ensures Base(b, plan, c, now, base)
  {
    hide Overlap, Apply, Patch, OwnedBy;
  }

  /** Committing a patch settles the keys of its group and leaves all others alone. */
  lemma BaseCommit(b: Batch, plan: seq<seq<nat>>, c: Content, groups: seq<Group>, base: Content, g: nat)
    requires |groups| == |plan| && Independent(b, plan) && Base(b, plan, c, groups, base) && Confined(b)
    requires g < |plan| && !groups[g].committed
    ensures Base(b, plan, c, groups[g := groups[g].(committed := true)], Apply(base, Patch(b, c, plan[g])))
  {
    hide Overlap, Confined, Patch, Apply;
    var now, ops := groups[g := groups[g].(committed := true)], Patch(b, c, plan[g]);
    forall k
      ensures OwnedBy(b, plan[g], k) ==> Lookup(Apply(base, ops), k) == Lookup(After(b, c, plan[g]), k)
      ensures !OwnedBy(b, plan[g], k) ==> Lookup(Apply(base, ops), k) == Lookup(base, k)
    {
      if OwnedBy(b, plan[g], k) {
        forall h | 0 <= h < |plan| && groups[h].committed
          ensures !OwnedBy(b, plan[h], k)
        {
          OneOwner(b, plan, g, h, k);
        }
        SameWrites(base, c, ops, k);
      } else {
        PatchFrame(b, c, base, plan[g], k);
      }
    }
    BaseParts(b, plan, c, groups, base, g, Apply(base, ops));
  }

  lemma {:induction false} PatchFrame(b: Batch, c: Content, d: Content, list: seq<nat>, k: Key)
    requires Confined(b) && InBatch(b, list) && !OwnedBy(b, list, k)
    ensures Lookup(Apply(d, Patch(b, c, list)), k) == Lookup(d, k)
  {
    hide Confined, Owns;
    if list != [] {
      var init := list[..|list| - 1];
      assert forall p :: 0 <= p < |init| ==> init[p] == list[p];
      PatchFrame(b, c, d, init, k);
      var writes := b.run(list[|list| - 1], After(b, c, init)).writes;
      ApplyConcat(d, Patch(b, c, init), writes);
      RunFrame(b, list[|list| - 1], Apply(d, Patch(b, c, init)), After(b, c, init), k);
    }
  }

  lemma BaseParts(b: Batch, plan: seq<seq<nat>>, c: Content, groups: seq<Group>, base: Content, g: nat, now: Content)
    requires |groups| == |plan| && Independent(b, plan) && Base(b, plan, c, groups, base) && g < |plan|
    requires forall k :: OwnedBy(b, plan[g], k) ==> Lookup(now, k) == Lookup(After(b, c, plan[g]), k)
    requires forall k :: !OwnedBy(b, plan[g], k) ==> Lookup(now, k) == Lookup(base, k)
    ensures Base(b, plan, c, groups[g := groups[g].(committed := true)], now)
  {
    hide Overlap, OwnedBy, After, Lookup;
    var after := groups[g := groups[g].(committed := true)];
    forall h, k | 0 <= h < |plan| && after[h].committed && OwnedBy(b, plan[h], k)
      ensures Lookup(now, k) == Lookup(After(b, c, plan[h]), k)
    {
      if h != g {
        OneOwner(b, plan, h, g, k);
      }
    }
    forall k | forall h :: 0 <= h < |plan| && after[h].committed ==> !OwnedBy(b, plan[h], k)
      ensures Lookup(now, k) == Lookup(c, k)
    {
      assert after[g].committed;
      forall h | 0 <= h < |plan| && groups[h].committed
        ensures !OwnedBy(b, plan[h], k)
      {
        assert after[h].committed;
      }
    }
  }

  lemma CommitStep(b: Batch, plan: seq<seq<nat>>, c: Content, s: Config, g: nat)
    requires |s.groups| == |plan| && Independent(b, plan) && Inv(b, plan, c, s) && Confined(b)
    requires g < |plan| && !s.groups[g].committed && s.groups[g].done >= |plan[g]|
    ensures Inv(b, plan, c, Step(b, plan, s, g))
  {
    hide Confined, Base, Independent, Apply, Patch, OutcomeAt;
    assert plan[g][..s.groups[g].done] == plan[g];
    BaseCommit(b, plan, c, s.groups, s.base, g);
  }

  lemma {:induction false} ExecInv(b: Batch, plan: seq<seq<nat>>, c: Content, order: seq<nat>)
    requires Independent(b, plan) && Confined(b)
    ensures Inv(b, plan, c, Exec(b, plan, c, order))
  {
    hide Confined, Independent;
    if order == [] {
      assert Inv(b, plan, c, Begin(plan, c)) by {
        assert forall g :: 0 <= g < |plan| ==> plan[g][..0] == [];
      }
    } else {
      hide Inv, Apply;
      var init, g := order[..|order| - 1], order[|order| - 1];
      ExecInv(b, plan, c, init);
      var s := Exec(b, plan, c, init);
      if g < |plan| && !s.groups[g].committed {
        if s.groups[g].done < |plan[g]| {
          TrxStep(b, plan, c, s, g);
        } else {
          CommitStep(b, plan, c, s, g);
        }
      }
    }
  }

  // ----- the order of reference -----

  lemma {:induction false} FirstsAre(foot: seq<set<Prop>>, n: nat)
    requires n <= |foot|
    ensures Enumerates(Firsts(foot, n), set i | 0 <= i < n && !Dependent(foot, i))
  {
    hide Dependent;
    if n > 0 {
      FirstsAre(foot, n - 1);
    }
  }

  lemma {:induction false} DependentsAre(foot: seq<set<Prop>>, n: nat)
    requires n <= |foot|
    ensures Enumerates(Dependents(foot, n), set i | 0 <= i < n && Dependent(foot, i))
  {
    hide Dependent;
    if n > 0 {
      DependentsAre(foot, n - 1);
    }
  }

  /** The outcome of a batch: the database, and the receipt of each transaction, of the
      sequential run in the order of reference. */
  ghost predicate Reference(b: Batch, c: Content, s: Config) {
    && s.base == After(b, c, Canonical(b.foot))
    && forall p :: 0 <= p < |Canonical(b.foot)| ==>
         Canonical(b.foot)[p] in s.receipts
         && s.receipts[Canonical(b.foot)[p]] == OutcomeAt(b, c, Canonical(b.foot), p).receipt
  }
}
