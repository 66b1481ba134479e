/** When the outcome of a batch is that of its transactions in the order of the block.  Every
    schedule can be run to its end, so the question is never empty. */
module BlockOrder {
  import opened Options
  import opened Storage
  import opened Scheduler
  import opened ParallelApply
  import opened Interleaving
  import opened Confluence

  // ----- every schedule has a complete execution -----

  /** `n` more steps of group `g`. */
  function Turns(g: nat, n: nat): seq<nat> {
    seq(n, i => g)
  }

  lemma StepElsewhere(b: Batch, plan: seq<seq<nat>>, s: Config, g: nat, h: nat)
    requires |s.groups| == |plan| && h < |plan| && (g != h || s.groups[h].committed)
    ensures Step(b, plan, s, g).groups[h] == s.groups[h]
  {
    hide Apply;
  }

  lemma StepOwn(b: Batch, plan: seq<seq<nat>>, s: Config, g: nat)
    requires |s.groups| == |plan| && g < |plan| && !s.groups[g].committed
    ensures var group := Step(b, plan, s, g).groups[g];
            if s.groups[g].done < |plan[g]| then group.done == s.groups[g].done + 1 && !group.committed
            else group.committed
  {
    hide Apply;
  }

  /** Given its turns, a group commits; those that have committed stay so. */
  lemma {:induction false} GroupEnds(b: Batch, plan: seq<seq<nat>>, c: Content, order: seq<nat>, g: nat, n: nat)
    requires g < |plan|
    ensures var s, t := Exec(b, plan, c, order), Exec(b, plan, c, order + Turns(g, n));
            && (t.groups[g].committed || t.groups[g].done == s.groups[g].done + n <= |plan[g]|
                || s.groups[g].done > |plan[g]|)
            && forall h :: 0 <= h < |plan| && s.groups[h].committed ==> t.groups[h].committed
  {
    hide Step;
    if n == 0 {
      assert order + Turns(g, 0) == order;
    } else {
      GroupEnds(b, plan, c, order, g, n - 1);
      var so, all := order + Turns(g, n - 1), order + Turns(g, n);
      assert all[..|all| - 1] == so && all[|all| - 1] == g;
      var t := Exec(b, plan, c, so);
      if !t.groups[g].committed {
        StepOwn(b, plan, t, g);
      }
      forall h | 0 <= h < |plan| && t.groups[h].committed
        ensures Exec(b, plan, c, all).groups[h].committed
      {
        StepElsewhere(b, plan, t, g, h);
      }
    }
  }

  lemma {:induction false} DoneBound(b: Batch, plan: seq<seq<nat>>, c: Content, order: seq<nat>, g: nat)
    requires g < |plan|
    ensures Exec(b, plan, c, order).groups[g].done <= |plan[g]|
  {
    hide Apply;
    if order != [] {
      DoneBound(b, plan, c, order[..|order| - 1], g);
    }
  }

  lemma {:induction false} CompletesFirst(b: Batch, plan: seq<seq<nat>>, c: Content, n: nat) returns (order: seq<nat>)
    requires n <= |plan|
    ensures forall g :: 0 <= g < n ==> Exec(b, plan, c, order).groups[g].committed
  {
    hide Exec;
    order := [];
    if n > 0 {
      var before := CompletesFirst(b, plan, c, n - 1);
      order := before + Turns(n - 1, |plan[n - 1]| + 1);
      DoneBound(b, plan, c, before, n - 1);
      GroupEnds(b, plan, c, before, n - 1, |plan[n - 1]| + 1);
    }
  }

  /** No schedule is stuck: one interleaving at least runs to the end. */
  lemma Completes(b: Batch, plan: seq<seq<nat>>, c: Content) returns (order: seq<nat>)
    ensures Complete(Exec(b, plan, c, order))
  {
    hide Exec;
    order := CompletesFirst(b, plan, c, |plan|);
  }

  lemma {:induction false} SomeList(items: set<nat>) returns (list: seq<nat>)
    ensures Enumerates(list, items)
    decreases items
  {
    list := [];
    if items != {} {
      var i :| i in items;
      var rest := SomeList(items - {i});
      list := rest + [i];
      assert forall j :: j in items ==> j == i || j in items - {i};
    }
  }

  /** Every batch has a schedule. */
  lemma Schedules(foot: seq<set<Prop>>) returns (plan: seq<seq<nat>>)
    ensures Schedule(foot, plan)
  {
    hide Whole, Dependents, SharedFirsts, Loners, Enumerates;
    if Whole(foot) {
      plan := [Upto(|foot|)];
      assert Planned(foot, plan, [], []);
    } else {
      var shared := SomeList(SharedFirsts(foot));
      var loners := SomeList(Loners(foot));
      plan := [Dependents(foot, |foot|) + shared] + Singles(loners);
      assert Planned(foot, plan, shared, loners);
    }
  }

  // ----- block order -----

  /** The database and the receipts of the transactions applied in the order of the block. */
  ghost predicate InBlockOrder(b: Batch, c: Content, s: Config) {
    && s.base == After(b, c, Upto(|b.foot|))
    && forall i :: 0 <= i < |b.foot| ==>
         i in s.receipts && s.receipts[i] == OutcomeAt(b, c, Upto(|b.foot|), i).receipt
  }

  /** Whatever transactions with these footprints do, and however they are scheduled and
      interleaved, the outcome is that of the order of the block. */
  ghost predicate FollowsBlock(foot: seq<set<Prop>>) {
    forall b: Batch, c, plan, order {:trigger Exec(b, plan, c, order)} ::
      b.foot == foot && Confined(b) && Schedule(foot, plan) && Complete(Exec(b, plan, c, order)) ==>
        InBlockOrder(b, c, Exec(b, plan, c, order))
  }

  lemma SameOrder(b: Batch, c: Content, s: Config)
    requires Reference(b, c, s) && Canonical(b.foot) == Upto(|b.foot|)
    ensures InBlockOrder(b, c, s)
  {
    hide Canonical, After, OutcomeAt;
    forall i | 0 <= i < |b.foot|
      ensures i in s.receipts && s.receipts[i] == OutcomeAt(b, c, Upto(|b.foot|), i).receipt
    {
      assert Canonical(b.foot)[i] == i;
    }
  }

  lemma Follows(foot: seq<set<Prop>>)
    requires Whole(foot) || Dependents(foot, |foot|) == []
    ensures FollowsBlock(foot)
  {
    hide Whole, Dependents, Firsts, Exec, Confined, InBlockOrder, Reference, Schedule, Complete;
    if !Whole(foot) {
      AllFirsts(foot, |foot|);
      assert [] + Firsts(foot, |foot|) == Firsts(foot, |foot|);
    }
    forall b: Batch, c, plan, order | b.foot == foot && Confined(b) && Schedule(foot, plan) && Complete(Exec(b, plan, c, order))
      ensures InBlockOrder(b, c, Exec(b, plan, c, order))
    {
      Confluent(b, c, plan, order);
      SameOrder(b, c, Exec(b, plan, c, order));
    }
  }

  // ----- two writers of one row -----

  /** Transactions `j` and `d` write a property they share; the others do nothing. */
  function TwoWriters(foot: seq<set<Prop>>, j: nat, d: nat, k: Prop): Batch {
    Batch(foot, key => Of(key),
          (i: nat, c: Content) => Outcome(if i == j then [Put(k, "0")] else if i == d then [Put(k, "1")] else [],
                                          Receipt(200, 0, 0)))
  }

  lemma TwoWritersConfined(foot: seq<set<Prop>>, j: nat, d: nat, k: Prop)
    requires j < |foot| && d < |foot| && k in foot[j] && k in foot[d]
    ensures Confined(TwoWriters(foot, j, d, k))
  {
  }

  /** What the last of the two leaves. */
  function LastWrite(list: seq<nat>, j: nat, d: nat): Option<Value> {
    if list == [] then None
    else if list[|list| - 1] == j then Some("0")
    else if list[|list| - 1] == d then Some("1")
    else LastWrite(list[..|list| - 1], j, d)
  }

  lemma {:induction false} TwoWritersLeave(foot: seq<set<Prop>>, j: nat, d: nat, k: Prop, list: seq<nat>)
    ensures Lookup(After(TwoWriters(foot, j, d, k), map[], list), k) == LastWrite(list, j, d)
  {
    hide Patch;
    var b := TwoWriters(foot, j, d, k);
    if list == [] {
      assert After(b, map[], list) == map[] by { NothingApplied(b, map[]); }
    } else {
      var init, i := list[..|list| - 1], list[|list| - 1];
      TwoWritersLeave(foot, j, d, k, init);
      AfterStep(b, map[], list);
      OneWrite(After(b, map[], init), b.run(i, After(b, map[], init)).writes);
    }
  }

  lemma NothingApplied(b: Batch, c: Content)
    ensures After(b, c, []) == c
  {
  }

  lemma OneWrite(c: Content, ops: seq<WriteOp>)
    requires |ops| <= 1
    ensures Apply(c, ops) == if ops == [] then c else Write(c, ops[0])
  {
    if ops != [] {
      assert ops[..0] == [];
    }
  }

  lemma {:induction false} LastInBlock(n: nat, j: nat, d: nat)
    requires j < d < n
    ensures LastWrite(Upto(n), j, d) == Some("1")
  {
    assert Upto(n)[..n - 1] == Upto(n - 1);
    if d < n - 1 {
      LastInBlock(n - 1, j, d);
    }
  }

  lemma {:induction false} LastBehind(first: seq<nat>, list: seq<nat>, j: nat, d: nat)
    requires j in list && d !in list
    ensures LastWrite(first + list, j, d) == Some("0")
  {
    var all := first + list;
    if list[|list| - 1] != j {
      assert all[..|all| - 1] == first + list[..|list| - 1];
      LastBehind(first, list[..|list| - 1], j, d);
    }
  }

  /** The first dependent transaction, and an earlier one that found the shared property
      untouched. */
  lemma {:induction false} FirstPair(foot: seq<set<Prop>>, n: nat) returns (j: nat, d: nat, k: Prop)
    requires n <= |foot| && Dependents(foot, n) != []
    ensures j < d < n && Dependent(foot, d) && !Dependent(foot, j) && k in foot[j] && k in foot[d]
  {
    if Dependents(foot, n - 1) != [] {
      j, d, k := FirstPair(foot, n - 1);
    } else {
      d := n - 1;
      k :| k in foot[d] && Touched(foot, d, k);
      j :| 0 <= j < d && k in foot[j];
      NoDependents(foot, n - 1, j);
    }
  }

  lemma OrderMatters(foot: seq<set<Prop>>)
    requires !Whole(foot) && Dependents(foot, |foot|) != []
    ensures !FollowsBlock(foot)
  {
    hide Whole, Exec, Confined, Reference, Schedule, Complete, TwoWriters, Dependent, After;
    var j, d, k := FirstPair(foot, |foot|);
    var b := TwoWriters(foot, j, d, k);
    assert b.foot == foot by { TwoWritersFoot(foot, j, d, k); }
    TwoWritersConfined(foot, j, d, k);
    var plan := Schedules(foot);
    var order := Completes(b, plan, map[]);
    Confluent(b, map[], plan, order);
    FirstsAre(foot, |foot|);
    TwoWritersLeave(foot, j, d, k, Canonical(foot));
    TwoWritersLeave(foot, j, d, k, Upto(|foot|));
    LastInBlock(|foot|, j, d);
    LastBehind(Dependents(foot, |foot|), Firsts(foot, |foot|), j, d);
    assert Exec(b, plan, map[], order).base == After(b, map[], Canonical(foot)) by {
      ReferenceBase(b, map[], Exec(b, plan, map[], order));
    }
    assert !InBlockOrder(b, map[], Exec(b, plan, map[], order));
  }

  lemma TwoWritersFoot(foot: seq<set<Prop>>, j: nat, d: nat, k: Prop)
    ensures TwoWriters(foot, j, d, k).foot == foot
  {
  }

  lemma ReferenceBase(b: Batch, c: Content, s: Config)
    requires Reference(b, c, s)
    ensures s.base == After(b, c, Canonical(b.foot))
  {
  }

  /** The outcome follows the order of the block, for all transactions with these footprints,
      exactly when the batch is not split or nothing in it depends on anything: otherwise the
      first dependent transaction takes effect before the one it depends on. */
  lemma BlockOrderIff(foot: seq<set<Prop>>)
    ensures FollowsBlock(foot) <==> Whole(foot) || Dependents(foot, |foot|) == []
  {
    hide FollowsBlock, Whole, Dependents;
    if Whole(foot) || Dependents(foot, |foot|) == [] {
      Follows(foot);
    } else {
      OrderMatters(foot);
    }
  }
}
