/** Applying the groups of a batch concurrently, each on its own database patch.  The
    outcome does not depend on the interleaving nor on the order of the scheduler's map. */
module ParallelApply {
  import opened Storage
  import opened Scheduler

  /** The row a key belongs to: one property, or the globals nobody in a split batch writes. */
  datatype Owner = Global | Of(prop: Prop)

  datatype Receipt = Receipt(status: nat, netUsage: nat, cpuUsage: nat)

  /** What one transaction commits to the patch of its group. */
  datatype Outcome = Outcome(writes: seq<WriteOp>, receipt: Receipt)

  /** A batch: footprints, owners of keys, and what each transaction does to a content. */
  datatype Batch = Batch(foot: seq<set<Prop>>, owner: Key -> Owner, run: (nat, Content) -> Outcome)

  predicate Owns(b: Batch, i: nat, k: Key)
    requires i < |b.foot|
  {
    b.owner(k).Of? && b.owner(k).prop in b.foot[i]
  }

  predicate Sees(b: Batch, i: nat, k: Key)
    requires i < |b.foot|
  {
    b.owner(k).Global? || Owns(b, i, k)
  }

  ghost predicate AgreeFor(b: Batch, i: nat, c: Content, d: Content)
    requires i < |b.foot|
  {
    forall k :: Sees(b, i, k) ==> Lookup(c, k) == Lookup(d, k)
  }

  /** Each transaction reads its own properties and globals, and writes its own properties. */
  ghost predicate Confined(b: Batch) {
    && (forall i: nat, c, d :: i < |b.foot| && AgreeFor(b, i, c, d) ==> b.run(i, c) == b.run(i, d))
    && (forall i: nat, c, w :: i < |b.foot| && w in b.run(i, c).writes ==> Owns(b, i, w.key))
  }

  // ----- one group -----

  predicate InBatch(b: Batch, list: seq<nat>) {
    forall p :: 0 <= p < |list| ==> list[p] < |b.foot|
  }

  /** The changes a group's patch collects, one transaction after the other. */
  function Patch(b: Batch, c: Content, list: seq<nat>): seq<WriteOp> {
    if list == [] then []
    else
      var before := Patch(b, c, list[..|list| - 1]);
      before + b.run(list[|list| - 1], Apply(c, before)).writes
  }

  function After(b: Batch, c: Content, list: seq<nat>): Content {
    Apply(c, Patch(b, c, list))
  }

  /** What transaction `list[p]` does when the list is applied in order. */
  function OutcomeAt(b: Batch, c: Content, list: seq<nat>, p: nat): Outcome
    requires p < |list|
  {
    b.run(list[p], After(b, c, list[..p]))
  }

  lemma AfterStep(b: Batch, c: Content, list: seq<nat>)
    requires list != []
    ensures var init := list[..|list| - 1];
            After(b, c, list) == Apply(After(b, c, init), b.run(list[|list| - 1], After(b, c, init)).writes)
  {
    var init := list[..|list| - 1];
    ApplyConcat(c, Patch(b, c, init), b.run(list[|list| - 1], After(b, c, init)).writes);
  }

  /** Writes to other keys leave a key alone. */
  lemma {:induction false} WritesFrame(c: Content, ops: seq<WriteOp>, k: Key)
    requires forall w :: w in ops ==> w.key != k
    ensures Lookup(Apply(c, ops), k) == Lookup(c, k)
  {
    if ops != [] {
      assert ops[|ops| - 1] in ops;
      assert forall w :: w in ops[..|ops| - 1] ==> w in ops;
      WritesFrame(c, ops[..|ops| - 1], k);
    }
  }

  lemma RunFrame(b: Batch, i: nat, c: Content, d: Content, k: Key)
    requires Confined(b) && i < |b.foot| && !Owns(b, i, k)
    ensures Lookup(Apply(c, b.run(i, d).writes), k) == Lookup(c, k)
  {
    WritesFrame(c, b.run(i, d).writes, k);
  }

  /** The same writes on contents that agree on a key leave them agreeing on it. */
  lemma SameWrites(c: Content, d: Content, ops: seq<WriteOp>, k: Key)
    requires Lookup(c, k) == Lookup(d, k)
    ensures Lookup(Apply(c, ops), k) == Lookup(Apply(d, ops), k)
  {
    ApplyAt(c, ops, k);
    ApplyAt(d, ops, k);
  }

  ghost predicate OwnedBy(b: Batch, list: seq<nat>, k: Key)
    requires InBatch(b, list)
  {
    exists p :: 0 <= p < |list| && Owns(b, list[p], k)
  }

  lemma {:induction false} AfterFrame(b: Batch, c: Content, list: seq<nat>, k: Key)
    requires Confined(b) && InBatch(b, list) && !OwnedBy(b, list, k)
    ensures Lookup(After(b, c, list), k) == Lookup(c, k)
  {
    hide Confined, Owns;
    if list != [] {
      var init := list[..|list| - 1];
      assert forall p :: 0 <= p < |init| ==> init[p] == list[p];
      AfterFrame(b, c, init, k);
      AfterStep(b, c, list);
      RunFrame(b, list[|list| - 1], After(b, c, init), After(b, c, init), k);
    }
  }

  // ----- transactions that do not overlap -----

  ghost predicate Apart(b: Batch, list: seq<nat>)
    requires InBatch(b, list)
  {
    forall p, q :: 0 <= p < q < |list| ==> !Overlap(b.foot, list[p], list[q])
  }

  lemma ApartOwners(b: Batch, i: nat, j: nat, k: Key)
    requires i < |b.foot| && j < |b.foot| && !Overlap(b.foot, i, j) && Owns(b, i, k)
    ensures !Owns(b, j, k)
  {
  }

  /** Behind `first`, transactions that do not overlap each see the state after `first`. */
  lemma {:induction false} ApartSees(b: Batch, c: Content, first: seq<nat>, list: seq<nat>, p: nat, i: nat)
    requires Confined(b) && InBatch(b, first) && InBatch(b, list) && p <= |list| && i < |b.foot|
    requires forall q :: 0 <= q < p ==> !Overlap(b.foot, list[q], i)
    ensures AgreeFor(b, i, After(b, c, first + list[..p]), After(b, c, first))
  {
    hide Confined, Overlap;
    if p == 0 {
      assert first + list[..0] == first;
    } else {
      ApartSees(b, c, first, list, p - 1, i);
      var so, before := first + list[..p], first + list[..p - 1];
      assert so[..|so| - 1] == before && so[|so| - 1] == list[p - 1];
      AfterStep(b, c, so);
      forall k | Sees(b, i, k)
        ensures Lookup(After(b, c, so), k) == Lookup(After(b, c, first), k)
      {
        assert !Owns(b, list[p - 1], k) by {
          if Owns(b, i, k) {
            OverlapSym(b.foot, list[p - 1], i);
            ApartOwners(b, i, list[p - 1], k);
          }
        }
        RunFrame(b, list[p - 1], After(b, c, before), After(b, c, before), k);
      }
    }
  }

  lemma OverlapSym(foot: seq<set<Prop>>, i: nat, j: nat)
    requires i < |foot| && j < |foot|
    ensures Overlap(foot, i, j) == Overlap(foot, j, i)
  {
  }

  lemma ApartRuns(b: Batch, c: Content, first: seq<nat>, list: seq<nat>, p: nat)
    requires Confined(b) && InBatch(b, first) && InBatch(b, list) && Apart(b, list) && p < |list|
    ensures OutcomeAt(b, c, first + list, |first| + p) == b.run(list[p], After(b, c, first))
  {
    hide Overlap, Patch, AgreeFor;
    ApartSees(b, c, first, list, p, list[p]);
    assert (first + list)[..|first| + p] == first + list[..p];
  }

  /** A key owned by one of them ends up as that one leaves it. */
  lemma {:induction false} ApartEnds(b: Batch, c: Content, first: seq<nat>, list: seq<nat>, n: nat, p: nat, k: Key)
    requires Confined(b) && InBatch(b, first) && InBatch(b, list) && Apart(b, list)
    requires p < n <= |list| && Owns(b, list[p], k)
    ensures Lookup(After(b, c, first + list[..n]), k)
            == Lookup(Apply(After(b, c, first), b.run(list[p], After(b, c, first)).writes), k)
    decreases n
  {
    hide Confined, Overlap, Patch;
    var so, before := first + list[..n], first + list[..n - 1];
    assert so[..|so| - 1] == before && so[|so| - 1] == list[n - 1];
    AfterStep(b, c, so);
    ApartSees(b, c, first, list, n - 1, list[n - 1]);
    if p == n - 1 {
      assert b.run(list[p], After(b, c, before)) == b.run(list[p], After(b, c, first)) by {
        ConfinedRuns(b, list[p], After(b, c, before), After(b, c, first));
      }
      assert Sees(b, list[p], k);
      SameWrites(After(b, c, before), After(b, c, first), b.run(list[p], After(b, c, first)).writes, k);
    } else {
      ApartEnds(b, c, first, list, n - 1, p, k);
      ApartOwners(b, list[p], list[n - 1], k);
      RunFrame(b, list[n - 1], After(b, c, before), After(b, c, before), k);
    }
  }

  lemma ConfinedRuns(b: Batch, i: nat, c: Content, d: Content)
    requires Confined(b) && i < |b.foot| && AgreeFor(b, i, c, d)
    ensures b.run(i, c) == b.run(i, d)
  {
  }

  /** A key owned by none of them stays as `first` left it. */
  lemma {:induction false} ApartKeeps(b: Batch, c: Content, first: seq<nat>, list: seq<nat>, n: nat, k: Key)
    requires Confined(b) && InBatch(b, first) && InBatch(b, list) && n <= |list| && !OwnedBy(b, list, k)
    ensures Lookup(After(b, c, first + list[..n]), k) == Lookup(After(b, c, first), k)
    decreases n
  {
    hide Confined, Patch;
    if n == 0 {
      assert first + list[..0] == first;
    } else {
      var so, before := first + list[..n], first + list[..n - 1];
      assert so[..|so| - 1] == before && so[|so| - 1] == list[n - 1];
      AfterStep(b, c, so);
      ApartKeeps(b, c, first, list, n - 1, k);
      RunFrame(b, list[n - 1], After(b, c, before), After(b, c, before), k);
    }
  }
}
