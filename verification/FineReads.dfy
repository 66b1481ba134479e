/** The groups of a batch interleaved read by read: while a transaction is under way, other
    groups may commit between two of its reads.  The outcome is the same all the same. */
module FineReads {
  import opened Options
  import opened Storage
  import opened Scheduler
  import opened ParallelApply
  import opened Interleaving
  import opened Confluence

  /** Code that asks the database for one row after the other, or comes to its end. */
  datatype Next = Ask(key: Key) | Done(outcome: Outcome)

  const NOTHING := Outcome([], Receipt(0, 0, 0))

  /** A batch of such code: what transaction `i` does next follows from the answers it got.  It
      asks at most `limit(i)` times. */
  datatype Code = Code(foot: seq<set<Prop>>, owner: Key -> Owner, next: (nat, seq<Option<Value>>) -> Next, limit: nat -> nat)

  /** The same, with an end when the limit is reached. */
  function Turn(f: Code, i: nat, answers: seq<Option<Value>>): Next {
    var n := f.next(i, answers);
    if n.Ask? && |answers| >= f.limit(i) then Done(NOTHING) else n
  }

  /** What transaction `i` does on a content that does not change. */
  function RunFrom(f: Code, i: nat, c: Content, answers: seq<Option<Value>>): Outcome
    decreases f.limit(i) - |answers|
  {
    match Turn(f, i, answers)
    case Done(o) => o
    case Ask(k) => RunFrom(f, i, c, answers + [Lookup(c, k)])
  }

  function BatchOf(f: Code): Batch {
    Batch(f.foot, f.owner, (i: nat, c: Content) => RunFrom(f, i, c, []))
  }

  /** Each transaction asks for its own properties and globals, and writes its own properties. */
  ghost predicate Keeps(f: Code) {
    && (forall i: nat, answers ::
          i < |f.foot| && f.next(i, answers).Ask? ==> Sees(BatchOf(f), i, f.next(i, answers).key))
    && (forall i: nat, answers, w ::
          i < |f.foot| && f.next(i, answers).Done? && w in f.next(i, answers).outcome.writes ==> Owns(BatchOf(f), i, w.key))
  }

  lemma {:induction false} KeepsRuns(f: Code, i: nat, c: Content, d: Content, answers: seq<Option<Value>>)
    requires Keeps(f) && i < |f.foot| && AgreeFor(BatchOf(f), i, c, d)
    ensures RunFrom(f, i, c, answers) == RunFrom(f, i, d, answers)
    ensures forall w :: w in RunFrom(f, i, c, answers).writes ==> Owns(BatchOf(f), i, w.key)
    decreases f.limit(i) - |answers|
  {
    match Turn(f, i, answers)
    case Done(o) =>
    case Ask(k) =>
      assert Sees(BatchOf(f), i, k);
      KeepsRuns(f, i, c, d, answers + [Lookup(c, k)]);
  }

  lemma KeepsConfined(f: Code)
    requires Keeps(f)
    ensures Confined(BatchOf(f))
  {
    hide Keeps, AgreeFor;
    var b := BatchOf(f);
    forall i: nat, c, d | i < |b.foot| && AgreeFor(b, i, c, d)
      ensures b.run(i, c) == b.run(i, d)
    {
      KeepsRuns(f, i, c, d, []);
    }
    forall i: nat, c, w | i < |b.foot| && w in b.run(i, c).writes
      ensures Owns(b, i, w.key)
    {
      assert AgreeFor(b, i, c, c) by { SameAgrees(b, i, c); }
      KeepsRuns(f, i, c, c, []);
    }
  }

  lemma SameAgrees(b: Batch, i: nat, c: Content)
    requires i < |b.foot|
    ensures AgreeFor(b, i, c, c)
  {
  }

  // ----- interleavings -----

  /** A group at work, with the answers its current transaction has got. */
  datatype FineGroup = FineGroup(group: Group, answers: seq<Option<Value>>)

  datatype FineConfig = FineConfig(base: Content, groups: seq<FineGroup>, receipts: map<nat, Receipt>)

  function FineBegin(plan: seq<seq<nat>>, c: Content): FineConfig {
    FineConfig(c, seq(|plan|, i => FineGroup(Group(0, [], false), [])), map[])
  }

  /** One step of group `g`: one read of its current transaction, through its patch from the
      database as it is now; or the end of that transaction; or the commit. */
  function FineStep(f: Code, plan: seq<seq<nat>>, s: FineConfig, g: nat): FineConfig
    requires |s.groups| == |plan|
  {
    if g >= |plan| || s.groups[g].group.committed then s
    else
      var group, answers := s.groups[g].group, s.groups[g].answers;
      if group.done < |plan[g]| then
        var i := plan[g][group.done];
        match Turn(f, i, answers)
        case Ask(k) =>
          s.(groups := s.groups[g := FineGroup(group, answers + [Lookup(Apply(s.base, group.changes), k)])])
        case Done(o) =>
          s.(groups := s.groups[g := FineGroup(Group(group.done + 1, group.changes + o.writes, false), [])],
             receipts := s.receipts[i := o.receipt])
      else
        s.(base := Apply(s.base, group.changes), groups := s.groups[g := FineGroup(group.(committed := true), [])])
  }

  function FineExec(f: Code, plan: seq<seq<nat>>, c: Content, order: seq<nat>): (s: FineConfig)
    ensures |s.groups| == |plan|
  {
    if order == [] then FineBegin(plan, c)
    else FineStep(f, plan, FineExec(f, plan, c, order[..|order| - 1]), order[|order| - 1])
  }

  /** What is left when transactions under way are forgotten. */
  function Coarse(s: FineConfig): Config {
    Config(s.base, seq(|s.groups|, i requires 0 <= i < |s.groups| => s.groups[i].group), s.receipts)
  }

  // ----- one read at a time is as good as all at once -----

  /** The answers are those of the content `c`: going on from them is going on from the start. */
  ghost predicate Honest(f: Code, i: nat, c: Content, answers: seq<Option<Value>>) {
    RunFrom(f, i, c, []) == RunFrom(f, i, c, answers)
  }

  /** Every transaction under way has got the answers it would have got alone. */
  ghost predicate Progress(f: Code, plan: seq<seq<nat>>, c: Content, s: FineConfig)
    requires |s.groups| == |plan|
  {
    forall g :: 0 <= g < |plan| && s.groups[g].group.done < |plan[g]| ==>
      Honest(f, plan[g][s.groups[g].group.done], Apply(c, s.groups[g].group.changes), s.groups[g].answers)
  }

  /** A group reads what it would read of the initial content: either the rows are its own, or
      there is no other group. */
  lemma ReadsAlike(f: Code, plan: seq<seq<nat>>, c: Content, order: seq<nat>, g: nat)
    requires Schedule(f.foot, plan) && (Whole(f.foot) || Keeps(f)) && g < |plan|
    requires var s := Exec(BatchOf(f), plan, c, order);
             !s.groups[g].committed && s.groups[g].done < |plan[g]|
    ensures var s := Exec(BatchOf(f), plan, c, order);
            var i, changes := plan[g][s.groups[g].done], s.groups[g].changes;
            && (forall answers :: f.next(i, answers).Ask? ==>
                  Lookup(Apply(s.base, changes), f.next(i, answers).key) == Lookup(Apply(c, changes), f.next(i, answers).key))
            && RunFrom(f, i, Apply(s.base, changes), []) == RunFrom(f, i, Apply(c, changes), [])
  {
    hide Exec, Apply, RunFrom, Turn, Schedule, Whole;
    var b := BatchOf(f);
    var s := Exec(b, plan, c, order);
    var i, changes := plan[g][s.groups[g].done], s.groups[g].changes;
    if Whole(f.foot) {
      ScheduleWhole(f.foot, plan);
      WholeBase(b, c, order, |f.foot|);
    } else {
      KeepsConfined(f);
      ScheduleIndependent(b, plan);
      ExecInv(b, plan, c, order);
      SeesOwn(b, plan, c, s, g, i);
      KeepsRuns(f, i, Apply(s.base, changes), Apply(c, changes), []);
    }
  }

  lemma ScheduleIndependent(b: Batch, plan: seq<seq<nat>>)
    requires Schedule(b.foot, plan) && !Whole(b.foot)
    ensures Independent(b, plan)
  {
    hide Split, Independent, Whole;
    var shared, loners :| Planned(b.foot, plan, shared, loners);
    if Split(b.foot, plan, shared, loners) {
      SplitIndependent(b, plan, shared, loners);
    } else {
      SplitIndependent(b, [[]] + plan, shared, loners);
      TailIndependent(b, plan);
    }
  }

  lemma ScheduleWhole(foot: seq<set<Prop>>, plan: seq<seq<nat>>)
    requires Schedule(foot, plan) && Whole(foot)
    ensures plan == [Upto(|foot|)]
  {
    hide Whole;
  }

  lemma WholeBase(b: Batch, c: Content, order: seq<nat>, n: nat)
    ensures var s := Exec(b, [Upto(n)], c, order); !s.groups[0].committed ==> s.base == c
  {
    hide Exec;
    WholeExec(b, c, Upto(n), order);
  }

  lemma HonestMore(f: Code, i: nat, c: Content, answers: seq<Option<Value>>)
    requires Honest(f, i, c, answers)
    ensures var t := Turn(f, i, answers);
            if t.Ask? then Honest(f, i, c, answers + [Lookup(c, t.key)]) else RunFrom(f, i, c, []) == t.outcome
  {
  }

  /** Whether a step of group `g` ends a transaction or commits, and does not only read. */
  predicate Ends(f: Code, plan: seq<seq<nat>>, s: FineConfig, g: nat)
    requires |s.groups| == |plan|
  {
    && g < |plan| && !s.groups[g].group.committed
    && (s.groups[g].group.done < |plan[g]| ==> Turn(f, plan[g][s.groups[g].group.done], s.groups[g].answers).Done?)
  }

  /** One step read by read is one whole step, or none. */
  lemma StepAlike(f: Code, plan: seq<seq<nat>>, c: Content, s: FineConfig, order: seq<nat>, g: nat) returns (now: seq<nat>)
    requires Schedule(f.foot, plan) && (Whole(f.foot) || Keeps(f)) && |s.groups| == |plan|
    requires Coarse(s) == Exec(BatchOf(f), plan, c, order) && Progress(f, plan, c, s)
    ensures Coarse(FineStep(f, plan, s, g)) == Exec(BatchOf(f), plan, c, now)
    ensures Progress(f, plan, c, FineStep(f, plan, s, g))
  {
    hide Coarse, Exec, Progress, FineStep, Ends, Schedule, Whole, Keeps;
    StepProgress(f, plan, c, s, order, g);
    StepCoarse(f, plan, c, s, order, g);
    now := if Ends(f, plan, s, g) then order + [g] else order;
  }

  /** A read gets the answer it would have got alone. */
  lemma StepProgress(f: Code, plan: seq<seq<nat>>, c: Content, s: FineConfig, order: seq<nat>, g: nat)
    requires Schedule(f.foot, plan) && (Whole(f.foot) || Keeps(f)) && |s.groups| == |plan|
    requires Coarse(s) == Exec(BatchOf(f), plan, c, order) && Progress(f, plan, c, s)
    ensures Progress(f, plan, c, FineStep(f, plan, s, g))
  {
    hide Apply, RunFrom, Turn, Schedule, Whole, Keeps, Honest, Exec;
    if g < |plan| && !s.groups[g].group.committed {
      var group, answers, t := s.groups[g].group, s.groups[g].answers, FineStep(f, plan, s, g);
      assert Coarse(s).groups[g] == group;
      if group.done < |plan[g]| {
        var i := plan[g][group.done];
        ReadsAlike(f, plan, c, order, g);
        HonestMore(f, i, Apply(c, group.changes), answers);
        match Turn(f, i, answers)
        case Ask(k) => TurnAsks(f, i, answers, k);
        case Done(o) => HonestStart(f, plan[g], group.done + 1, Apply(c, t.groups[g].group.changes));
      }
    }
  }

  lemma StepCoarse(f: Code, plan: seq<seq<nat>>, c: Content, s: FineConfig, order: seq<nat>, g: nat)
    requires Schedule(f.foot, plan) && (Whole(f.foot) || Keeps(f)) && |s.groups| == |plan|
    requires Coarse(s) == Exec(BatchOf(f), plan, c, order) && Progress(f, plan, c, s)
    ensures Coarse(FineStep(f, plan, s, g)) == Exec(BatchOf(f), plan, c, if Ends(f, plan, s, g) then order + [g] else order)
  {
    hide Apply, RunFrom, Turn, Schedule, Whole, Keeps, Honest;
    var t := FineStep(f, plan, s, g);
    if g < |plan| && !s.groups[g].group.committed {
      var group, answers := s.groups[g].group, s.groups[g].answers;
      assert Coarse(s).groups[g] == group && (order + [g])[..|order|] == order;
      if group.done < |plan[g]| {
        var i := plan[g][group.done];
        ReadsAlike(f, plan, c, order, g);
        HonestMore(f, i, Apply(c, group.changes), answers);
        match Turn(f, i, answers)
        case Ask(k) => assert Coarse(t).groups == Coarse(s).groups;
        case Done(o) =>
          assert Coarse(t).groups == Coarse(s).groups[g := Group(group.done + 1, group.changes + o.writes, false)];
      } else {
        assert Coarse(t).groups == Coarse(s).groups[g := group.(committed := true)];
      }
    }
  }

  lemma TurnAsks(f: Code, i: nat, answers: seq<Option<Value>>, k: Key)
    requires Turn(f, i, answers) == Ask(k)
    ensures f.next(i, answers) == Ask(k)
  {
  }

  lemma HonestStart(f: Code, list: seq<nat>, p: nat, c: Content)
    ensures p < |list| ==> Honest(f, list[p], c, [])
  {
  }

  /** Every interleaving of reads has an interleaving of whole transactions with the same
      database, patches and receipts. */
  lemma {:induction false} Simulated(f: Code, plan: seq<seq<nat>>, c: Content, order: seq<nat>) returns (whole: seq<nat>)
    requires Schedule(f.foot, plan) && (Whole(f.foot) || Keeps(f))
    ensures Coarse(FineExec(f, plan, c, order)) == Exec(BatchOf(f), plan, c, whole)
    ensures Progress(f, plan, c, FineExec(f, plan, c, order))
  {
    hide Schedule, Whole, Keeps, Honest;
    if order == [] {
      whole := [];
      assert Coarse(FineBegin(plan, c)).groups == Begin(plan, c).groups;
      forall g | 0 <= g < |plan| && 0 < |plan[g]|
        ensures Honest(f, plan[g][0], Apply(c, []), [])
      {
        HonestStart(f, plan[g], 0, Apply(c, []));
      }
    } else {
      hide FineStep, Coarse;
      var before := Simulated(f, plan, c, order[..|order| - 1]);
      whole := StepAlike(f, plan, c, FineExec(f, plan, c, order[..|order| - 1]), before, order[|order| - 1]);
    }
  }

  /** For every batch, every plan and every interleaving of reads, ends and commits that runs to
      the end, the database and the receipts are those of the order of reference. */
  lemma FineConfluent(f: Code, c: Content, plan: seq<seq<nat>>, order: seq<nat>)
    requires (Whole(f.foot) || Keeps(f)) && Schedule(f.foot, plan) && Complete(Coarse(FineExec(f, plan, c, order)))
    ensures Reference(BatchOf(f), c, Coarse(FineExec(f, plan, c, order)))
  {
    hide Schedule, Whole, Keeps, FineExec, Coarse, Exec, Reference, Complete;
    var whole := Simulated(f, plan, c, order);
    if !Whole(f.foot) {
      KeepsConfined(f);
    }
    Confluent(BatchOf(f), c, plan, whole);
  }
}
