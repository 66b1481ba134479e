/** Splitting a batch of transactions into groups that can run concurrently.  A
    transaction is its index; its footprint is the set of properties it affects. */
module Scheduler {

  type Prop = string

  /** Affects everything. */
  const EVERYTHING: Prop := "*"

  // ----- what the footprints say -----

  predicate Touched(foot: seq<set<Prop>>, n: nat, k: Prop)
    requires n <= |foot|
  {
    exists j :: 0 <= j < n && k in foot[j]
  }

  /** Some earlier transaction affects a property of `i`. */
  predicate Dependent(foot: seq<set<Prop>>, i: nat)
    requires i < |foot|
  {
    exists k :: k in foot[i] && Touched(foot, i, k)
  }

  predicate Overlap(foot: seq<set<Prop>>, i: nat, j: nat)
    requires i < |foot| && j < |foot|
  {
    exists k :: k in foot[i] && k in foot[j]
  }

  /** No other transaction affects a property of `i`. */
  predicate Isolated(foot: seq<set<Prop>>, i: nat)
    requires i < |foot|
  {
    forall j :: 0 <= j < |foot| && j != i ==> !Overlap(foot, i, j)
  }

  /** The dependent transactions before `n`, in order. */
  function Dependents(foot: seq<set<Prop>>, n: nat): seq<nat>
    requires n <= |foot|
  {
    if n == 0 then []
    else Dependents(foot, n - 1) + if Dependent(foot, n - 1) then [n - 1] else []
  }

  function Upto(n: nat): seq<nat> {
    seq(n, i => i)
  }

  /** `list` holds each index with property `p` once. */
  ghost predicate Enumerates(list: seq<nat>, items: set<nat>) {
    && (forall a, b :: 0 <= a < b < |list| ==> list[a] != list[b])
    && (forall a :: 0 <= a < |list| ==> list[a] in items)
    && (forall i :: i in items ==> i in list)
  }

  function SharedFirsts(foot: seq<set<Prop>>): set<nat> {
    set i | 0 <= i < |foot| && !Dependent(foot, i) && !Isolated(foot, i)
  }

  function Loners(foot: seq<set<Prop>>): set<nat> {
    set i | 0 <= i < |foot| && !Dependent(foot, i) && Isolated(foot, i)
  }

  /** Two transactions that found all their properties untouched do not overlap. */
  lemma FirstsDisjoint(foot: seq<set<Prop>>, i: nat, j: nat)
    requires i < |foot| && j < |foot| && i != j && !Dependent(foot, i) && !Dependent(foot, j)
    ensures !Overlap(foot, i, j)
  {
  }

  // ----- counting -----

  function Changers(foot: seq<set<Prop>>, n: nat, k: Prop): nat
    requires n <= |foot|
  {
    if n == 0 then 0 else Changers(foot, n - 1, k) + if k in foot[n - 1] then 1 else 0
  }

  lemma {:induction false} ChangersPositive(foot: seq<set<Prop>>, n: nat, k: Prop)
    requires n <= |foot|
    ensures Changers(foot, n, k) > 0 <==> Touched(foot, n, k)
  {
    if n > 0 {
      ChangersPositive(foot, n - 1, k);
      if k in foot[n - 1] {
        assert Touched(foot, n, k);
      }
    }
  }

  /** Given that `i` affects `k`, the count exceeds one exactly when another one does too. */
  lemma {:induction false} ChangersShared(foot: seq<set<Prop>>, n: nat, k: Prop, i: nat)
    requires i < n <= |foot| && k in foot[i]
    ensures Changers(foot, n, k) > 1 <==> exists j :: 0 <= j < n && j != i && k in foot[j]
  {
    if n - 1 == i {
      ChangersPositive(foot, i, k);
    } else {
      ChangersShared(foot, n - 1, k, i);
      ChangersPositive(foot, n - 1, k);
      if k in foot[n - 1] {
        assert Touched(foot, n - 1, k);
      }
    }
  }

  function Count(props: map<Prop, nat>, k: Prop): nat {
    if k in props then props[k] else 0
  }

  /** `props` counts the changers among the first `n` transactions. */
  ghost predicate Counts(props: map<Prop, nat>, foot: seq<set<Prop>>, n: nat)
    requires n <= |foot|
  {
    forall k :: Count(props, k) == Changers(foot, n, k)
  }

  /** Counts one transaction's properties and tells whether one was counted before. */
  method CountProps(foot: seq<set<Prop>>, i: nat, before: map<Prop, nat>) returns (props: map<Prop, nat>, dep: bool)
    requires i < |foot| && Counts(before, foot, i)
    ensures Counts(props, foot, i + 1) && dep == Dependent(foot, i)
  {
    props, dep := before, false;
    var todo := foot[i];
    while todo != {}
      invariant todo <= foot[i]
      invariant forall k :: Count(props, k) == Changers(foot, i, k) + if k in foot[i] && k !in todo then 1 else 0
      invariant dep <==> exists k :: k in foot[i] && k !in todo && Touched(foot, i, k)
      decreases |todo|
    {
      var k :| k in todo;
      ChangersPositive(foot, i, k);
      if Count(props, k) > 0 {
        dep := true;
      }
      props := props[k := Count(props, k) + 1];
      todo := todo - {k};
    }
  }

  /** The sum of the counts exceeds the number of properties exactly when one is shared. */
  method IsShared(foot: seq<set<Prop>>, i: nat, props: map<Prop, nat>) returns (shared: bool)
    requires i < |foot| && Counts(props, foot, |foot|)
    ensures shared == !Isolated(foot, i)
  {
    var s, todo := 0, foot[i];
    ghost var met := 0;
    while todo != {}
      invariant todo <= foot[i] && met + |todo| == |foot[i]| && met <= s
      invariant s > met <==> exists k, j :: k in foot[i] && k !in todo && 0 <= j < |foot| && j != i && k in foot[j]
      decreases |todo|
    {
      var k :| k in todo;
      ChangersShared(foot, |foot|, k, i);
      ChangersPositive(foot, |foot|, k);
      assert Touched(foot, |foot|, k);
      s := s + Count(props, k);
      todo := todo - {k};
      met := met + 1;
    }
    shared := s > |foot[i]|;
    assert Isolated(foot, i) <==> !(exists k, j :: k in foot[i] && 0 <= j < |foot| && j != i && k in foot[j]) by {
      IsolatedAlt(foot, i);
    }
  }

  lemma IsolatedAlt(foot: seq<set<Prop>>, i: nat)
    requires i < |foot|
    ensures Isolated(foot, i) <==> !(exists k, j :: k in foot[i] && 0 <= j < |foot| && j != i && k in foot[j])
  {
    if k, j :| k in foot[i] && 0 <= j < |foot| && j != i && k in foot[j] {
      assert Overlap(foot, i, j);
    }
  }

  // ----- the plan -----

  /** A batch that cannot be split: something affects everything, or nothing stands alone. */
  predicate Whole(foot: seq<set<Prop>>) {
    (exists i :: 0 <= i < |foot| && EVERYTHING in foot[i]) || Loners(foot) == {}
  }

  /** The groups of a batch that is split: the dependent transactions in order and behind
      them the first ones they depend on, then every loner in a group of its own. */
  ghost predicate Split(foot: seq<set<Prop>>, groups: seq<seq<nat>>, shared: seq<nat>, loners: seq<nat>) {
    && Enumerates(shared, SharedFirsts(foot)) && Enumerates(loners, Loners(foot))
    && groups == [Dependents(foot, |foot|) + shared] + Singles(loners)
  }

  function Singles(list: seq<nat>): seq<seq<nat>> {
    seq(|list|, i requires 0 <= i < |list| => [list[i]])
  }

  /** The schedules the scheduler may produce for a batch. */
  ghost predicate Planned(foot: seq<set<Prop>>, plan: seq<seq<nat>>, shared: seq<nat>, loners: seq<nat>) {
    if Whole(foot) then plan == [Upto(|foot|)]
    else Split(foot, plan, shared, loners) || (Split(foot, [[]] + plan, shared, loners) && shared == [])
  }

  ghost predicate Schedule(foot: seq<set<Prop>>, plan: seq<seq<nat>>) {
    exists shared, loners :: Planned(foot, plan, shared, loners)
  }

  /** The first loop: counts all properties and separates the dependent transactions. */
  method Collect(foot: seq<set<Prop>>)
    returns (all: bool, props: map<Prop, nat>, deps: seq<nat>, possible: set<nat>)
    ensures all <==> exists i :: 0 <= i < |foot| && EVERYTHING in foot[i]
    ensures !all ==> && Counts(props, foot, |foot|) && deps == Dependents(foot, |foot|)
                     && possible == set i | 0 <= i < |foot| && !Dependent(foot, i)
  {
    all, props, deps, possible := false, map[], [], {};
    for i := 0 to |foot|
      invariant Counts(props, foot, i) && deps == Dependents(foot, i)
      invariant possible == set j | 0 <= j < i && !Dependent(foot, j)
      invariant forall j :: 0 <= j < i ==> EVERYTHING !in foot[j]
    {
      if EVERYTHING in foot[i] {
        return true, props, deps, possible;
      }
      var dep: bool;
      props, dep := CountProps(foot, i, props);
      if dep {
        deps := deps + [i];
      } else {
        possible := possible + {i};
      }
    }
  }

  /** The second loop, over a map, hence in any order. */
  method Recheck(foot: seq<set<Prop>>, props: map<Prop, nat>, deps: seq<nat>, possible: set<nat>)
    returns (groups: seq<seq<nat>>)
    requires Counts(props, foot, |foot|) && deps == Dependents(foot, |foot|)
    requires possible == set i | 0 <= i < |foot| && !Dependent(foot, i)
    ensures exists shared, loners :: Split(foot, groups, shared, loners)
  {
    hide Isolated, Dependent, Changers, Dependents;
    groups := [deps];
    ghost var shared: seq<nat>, loners: seq<nat> := [], [];
    var todo := possible;
    assert deps + shared == deps;
    while todo != {}
      invariant todo <= possible
      invariant Enumerates(shared, SharedFirsts(foot) - todo) && Enumerates(loners, Loners(foot) - todo)
      invariant groups == [deps + shared] + Singles(loners)
      decreases |todo|
    {
      var i :| i in todo;
      var more := IsShared(foot, i, props);
      if more {
        groups := groups[0 := groups[0] + [i]];
        assert deps + shared + [i] == deps + (shared + [i]);
        shared := shared + [i];
      } else {
        groups := groups + [[i]];
        assert Singles(loners) + [[i]] == Singles(loners + [i]);
        loners := loners + [i];
      }
      todo := todo - {i};
    }
    assert SharedFirsts(foot) - todo == SharedFirsts(foot);
    assert Loners(foot) - todo == Loners(foot);
    assert Split(foot, groups, shared, loners);
  }

  /** `schedule` and `ScheduleTrxs`: the batch in its own order when it cannot be split,
      otherwise a split, whatever the order of the map; an empty first group is dropped. */
  method ScheduleTrxs(foot: seq<set<Prop>>) returns (groups: seq<seq<nat>>)
    ensures Schedule(foot, groups)
  {
    hide Isolated, Dependent, Changers, Dependents;
    groups := [Upto(|foot|)];
    assert Whole(foot) ==> Planned(foot, groups, [], []);
    var all, props, deps, possible := Collect(foot);
    if all {
      return;
    }
    var split := Recheck(foot, props, deps, possible);
    ghost var shared, loners :| Split(foot, split, shared, loners);
    if |split| == 1 {
      assert loners == [];
      return;
    }
    assert loners[0] in Loners(foot);
    if split[0] == [] {
      assert [[]] + split[1..] == split;
      if |split| <= 2 {
        OnlyOne(foot, loners);
        assert Planned(foot, groups, shared, loners);
        return;
      }
      split := split[1..];
    }
    assert Planned(foot, split, shared, loners);
    groups := split;
  }

  /** When the only group is a single loner, it is the whole batch. */
  lemma OnlyOne(foot: seq<set<Prop>>, loners: seq<nat>)
    requires Enumerates(loners, Loners(foot)) && |loners| == 1
    requires Dependents(foot, |foot|) == [] && SharedFirsts(foot) == {}
    ensures [Upto(|foot|)] == Singles(loners)
  {
    hide Dependent, Isolated, Dependents;
    forall i | 0 <= i < |foot|
      ensures i in loners
    {
      NoDependents(foot, |foot|, i);
      assert i in Loners(foot) || i in SharedFirsts(foot);
    }
    assert loners[0] in Loners(foot);
    assert 0 in loners && loners[0] == 0;
    assert |foot| <= 1 || 1 in loners;
    assert Upto(|foot|) == [loners[0]];
  }

  lemma {:induction false} NoDependents(foot: seq<set<Prop>>, n: nat, i: nat)
    requires i < n <= |foot| && Dependents(foot, n) == []
    ensures !Dependent(foot, i)
  {
    hide Dependent;
    if i < n - 1 {
      NoDependents(foot, n - 1, i);
    }
  }

  // ----- the order the outcome follows -----

  /** The transactions that find all their properties untouched, in order. */
  function Firsts(foot: seq<set<Prop>>, n: nat): seq<nat>
    requires n <= |foot|
  {
    if n == 0 then []
    else Firsts(foot, n - 1) + if Dependent(foot, n - 1) then [] else [n - 1]
  }

  /** One sequential order that depends on the batch alone. */
  function Canonical(foot: seq<set<Prop>>): seq<nat> {
    if Whole(foot) then Upto(|foot|) else Dependents(foot, |foot|) + Firsts(foot, |foot|)
  }

  lemma {:induction false} AllFirsts(foot: seq<set<Prop>>, n: nat)
    requires n <= |foot| && Dependents(foot, n) == []
    ensures Firsts(foot, n) == Upto(n)
  {
    hide Dependent;
    if n > 0 {
      AllFirsts(foot, n - 1);
    }
  }
}
