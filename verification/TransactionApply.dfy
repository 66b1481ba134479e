/** One transaction through its nested database patches, and a group of them. */
module TransactionApply {
  import opened Options
  import opened Storage
  import opened Patches
  import opened Scheduler
  import opened ParallelApply

  const STATUS_SUCCESS: nat := 200
  const STATUS_FAIL_DEDUCT_STAMINA: nat := 201
  const STATUS_ERROR: nat := 500

  type Fees = map<string, nat>

  // ----- programs -----

  /** What code that works on a patch does next: read or write a row, record a fee or a usage,
      come to its end, or panic. */
  datatype Action =
    | Read(key: Key)
    | Change(op: WriteOp)
    | Charge(caller: string, amount: nat)
    | Spend(net: nat, cpu: nat)
    | Finish
    | Abort

  /** Deterministic code: its next action follows from the answers to those before.  It takes
      at most `limit` actions. */
  datatype Program = Program(next: seq<Option<Value>> -> Action, limit: nat)

  datatype Trace = Trace(answers: seq<Option<Value>>, writes: seq<WriteOp>, fees: Fees, net: nat, cpu: nat,
                         ended: bool, panicked: bool)

  function FeeOf(fees: Fees, caller: string): nat {
    if caller in fees then fees[caller] else 0
  }

  /** One action on a flat content: reads see the writes before them. */
  function Act(t: Trace, content: Content, a: Action): Trace {
    match a
    case Read(k) => t.(answers := t.answers + [Lookup(Apply(content, t.writes), k)])
    case Change(op) => t.(answers := t.answers + [None], writes := t.writes + [op])
    case Charge(c, n) => t.(answers := t.answers + [None], fees := t.fees[c := FeeOf(t.fees, c) + n])
    case Spend(n, c) => t.(answers := t.answers + [None], net := t.net + n, cpu := t.cpu + c)
    case Finish => t.(ended := true)
    case Abort => t.(ended := true, panicked := true)
  }

  function Begun(fees: Fees): Trace {
    Trace([], [], fees, 0, 0, false, false)
  }

  /** The first `n` actions of a program. */
  function Actions(p: Program, content: Content, fees: Fees, n: nat): Trace {
    if n == 0 then Begun(fees)
    else
      var t := Actions(p, content, fees, n - 1);
      if t.ended then t else Act(t, content, p.next(t.answers))
  }

  /** What a program does to a content. */
  function Meaning(p: Program, content: Content, fees: Fees): Trace {
    Actions(p, content, fees, p.limit)
  }

  lemma {:induction false} EndedStays(p: Program, content: Content, fees: Fees, n: nat, m: nat)
    requires n <= m && Actions(p, content, fees, n).ended
    ensures Actions(p, content, fees, m) == Actions(p, content, fees, n)
    decreases m - n
  {
    if n < m {
      EndedStays(p, content, fees, n + 1, m);
    }
  }

  /** One action on the youngest patch, which has made the writes of `t` so far. */
  method Perform(s: Stack, t: Trace, a: Action, ghost content: Content) returns (r: Trace)
    requires s.Valid() && s.layers != [] && s.View() == Apply(content, t.writes)
    modifies s`layers
    ensures r == Act(t, content, a) && s.View() == Apply(content, r.writes)
    ensures s.Valid() && |s.layers| == |old(s.layers)| && t.writes <= r.writes
    ensures s.layers[..|s.layers| - 1] == old(s.layers)[..|s.layers| - 1]
    ensures s.layers[|s.layers| - 1].changes == old(s.layers)[|s.layers| - 1].changes + r.writes[|t.writes|..]
  {
    hide Apply;
    match a {
      case Read(k) =>
        var v := s.Get(k);
        r := t.(answers := t.answers + [v]);
      case Change(op) =>
        s.Write(op);
        ApplyLast(content, t.writes, op);
        r := t.(answers := t.answers + [None], writes := t.writes + [op]);
      case Charge(c, amount) =>
        r := t.(answers := t.answers + [None], fees := t.fees[c := FeeOf(t.fees, c) + amount]);
      case Spend(net, cpu) =>
        r := t.(answers := t.answers + [None], net := t.net + net, cpu := t.cpu + cpu);
      case Finish =>
        r := t.(ended := true);
      case Abort =>
        r := t.(ended := true, panicked := true);
    }
  }

  /** Code on the youngest patch does there what it does on a flat content, and leaves the
      patches below alone. */
  method Execute(s: Stack, p: Program, fees: Fees) returns (r: Trace)
    requires s.Valid() && s.layers != []
    modifies s`layers
    ensures r == Meaning(p, old(s.View()), fees)
    ensures s.Valid() && |s.layers| == |old(s.layers)| && s.View() == Apply(old(s.View()), r.writes)
    ensures s.layers[..|s.layers| - 1] == old(s.layers)[..|s.layers| - 1]
    ensures s.layers[|s.layers| - 1].changes == old(s.layers)[|s.layers| - 1].changes + r.writes
  {
    hide Apply, Act;
    ghost var view, top := s.View(), |s.layers| - 1;
    r := Begun(fees);
    assert Apply(view, []) == view by { ApplyNothing(view); }
    for n := 0 to p.limit
      invariant r == Actions(p, view, fees, n) && !r.ended
      invariant s.Valid() && |s.layers| == top + 1 && s.View() == Apply(view, r.writes)
      invariant s.layers[..top] == old(s.layers)[..top]
      invariant s.layers[top].changes == old(s.layers)[top].changes + r.writes
    {
      ghost var before := r.writes;
      r := Perform(s, r, p.next(r.answers), view);
      assert r.writes == before + r.writes[|before|..];
      if r.ended {
        EndedStays(p, view, fees, n + 1, p.limit);
        return;
      }
    }
  }

  lemma ApplyNothing(c: Content)
    ensures Apply(c, []) == c
  {
  }

  lemma ApplyLast(c: Content, ops: seq<WriteOp>, op: WriteOp)
    ensures Apply(c, ops + [op]) == Write(Apply(c, ops), op)
  {
    assert (ops + [op])[..|ops|] == ops;
  }

  // ----- transactions -----

  /** The check of the net allowance and the operations, one program each, and the code that
      charges stamina for the fees recorded. */
  datatype Transaction = Transaction(ops: seq<Program>, pay: Fees -> Program)

  /** The writes and fees of the first `i` operations, each on what the ones before left. */
  datatype Progress = Progress(writes: seq<WriteOp>, fees: Fees)

  function Operation(t: Transaction, content: Content, p: Progress, i: nat): Trace
    requires i < |t.ops|
  {
    Meaning(t.ops[i], Apply(content, p.writes), p.fees)
  }

  function Through(t: Transaction, content: Content, i: nat): Progress
    requires i <= |t.ops|
  {
    if i == 0 then Progress([], map[])
    else
      var p := Through(t, content, i - 1);
      var r := Operation(t, content, p, i - 1);
      Progress(p.writes + r.writes, r.fees)
  }

  /** Operation `i`, on what the ones before it left, panics. */
  predicate Panics(t: Transaction, content: Content, i: nat)
    requires i < |t.ops|
  {
    Operation(t, content, Through(t, content, i), i).panicked
  }

  /** The first operation from `i` on that panics, or the end. */
  function StopsAt(t: Transaction, content: Content, i: nat): (n: nat)
    requires i <= |t.ops|
    ensures i <= n <= |t.ops| && (n < |t.ops| ==> Panics(t, content, n))
    ensures forall k :: i <= k < n ==> !Panics(t, content, k)
    decreases |t.ops| - i
  {
    if i == |t.ops| || Panics(t, content, i) then i else StopsAt(t, content, i + 1)
  }

  /** What the operations leave for their transaction: their writes, all or none, the fees of
      all that began, and whether one of them panicked. */
  datatype Body = Body(writes: seq<WriteOp>, fees: Fees, panicked: bool)

  function BodyOf(t: Transaction, content: Content): Body {
    var n := StopsAt(t, content, 0);
    if n == |t.ops| then Body(Through(t, content, n).writes, Through(t, content, n).fees, false)
    else Body([], Operation(t, content, Through(t, content, n), n).fees, true)
  }

  /** `HasGasFee` decides whether a failed transaction pays. */
  function StatusOf(b: Body): nat {
    if !b.panicked then STATUS_SUCCESS
    else if b.fees != map[] then STATUS_FAIL_DEDUCT_STAMINA
    else STATUS_ERROR
  }

  function PayOf(t: Transaction, content: Content, b: Body): Trace {
    Meaning(t.pay(b.fees), Apply(content, b.writes), map[])
  }

  /** The transaction is committed: it did not fail without paying, and paying did not panic. */
  predicate Commits(t: Transaction, content: Content) {
    var b := BodyOf(t, content);
    StatusOf(b) != STATUS_ERROR && !PayOf(t, content, b).panicked
  }

  function Committed(t: Transaction, content: Content): Outcome {
    var b := BodyOf(t, content);
    var pay := PayOf(t, content, b);
    if Commits(t, content) then Outcome(b.writes + pay.writes, Receipt(StatusOf(b), pay.net, pay.cpu))
    else Outcome([], Receipt(StatusOf(b), 0, 0))
  }

  /** All of the operations or none: however far they got before one of them panicked, the
      database sees none of it, only the stamina charged; without fees, or when charging
      panics itself, it sees nothing. */
  lemma AllOrNothing(t: Transaction, content: Content)
    ensures var o, b := Committed(t, content), BodyOf(t, content);
            var all := forall i :: 0 <= i < |t.ops| ==> !Panics(t, content, i);
            var done := Apply(content, Through(t, content, |t.ops|).writes);
            var after := Apply(content, o.writes);
            && (o.receipt.status == STATUS_SUCCESS <==> all)
            && (o.receipt.status == STATUS_ERROR <==> !all && b.fees == map[])
            && after == (if !Commits(t, content) then content
                         else if all then Apply(done, Meaning(t.pay(b.fees), done, map[]).writes)
                         else Apply(content, Meaning(t.pay(b.fees), content, map[]).writes))
  {
    hide Meaning, Apply, Panics, Through, Operation;
    var b := BodyOf(t, content);
    ApplyNothing(content);
    ApplyConcat(content, b.writes, PayOf(t, content, b).writes);
  }

  /** `applyTransactionOnDb` on the patch `txDb`, the youngest: the operations run on a patch
      of their own, which is merged or abandoned; stamina is charged on `txDb` itself. */
  method ApplyOnPatch(s: Stack, t: Transaction) returns (receipt: Receipt, err: bool)
    requires s.Valid() && s.layers != [] && s.layers[|s.layers| - 1].changes == []
    modifies s`layers
    ensures s.Valid() && |s.layers| == |old(s.layers)|
    ensures s.layers[..|s.layers| - 1] == old(s.layers)[..|s.layers| - 1]
    ensures err == !Commits(t, old(s.View())) && receipt == Committed(t, old(s.View())).receipt
    ensures !err ==> s.layers[|s.layers| - 1].changes == Committed(t, old(s.View())).writes
  {
    hide Meaning, Apply;
    ghost var view, top := s.View(), |s.layers| - 1;
    var fees, panicked := RunOperations(s, t);
    var status := STATUS_SUCCESS;
    if panicked {
      s.Drop();
      if fees == map[] {
        return Receipt(STATUS_ERROR, 0, 0), true;
      }
      status := STATUS_FAIL_DEDUCT_STAMINA;
    } else {
      s.Merge();
    }
    ghost var body := BodyOf(t, view);
    assert s.layers[top].changes == body.writes && s.layers[..top] == old(s.layers)[..top];
    assert s.View() == Apply(view, body.writes) by {
      PatchSees(s.base, old(s.layers), s.layers, body.writes);
    }
    var r := Execute(s, t.pay(fees), map[]);
    if r.panicked {
      return Receipt(status, 0, 0), true;
    }
    return Receipt(status, r.net, r.cpu), false;
  }

  lemma PatchSees(base: Content, was: seq<Layer>, now: seq<Layer>, writes: seq<WriteOp>)
    requires |was| == |now| > 0 && now[..|now| - 1] == was[..|now| - 1]
    requires was[|now| - 1].changes == [] && now[|now| - 1].changes == writes
    ensures Seen(base, now) == Apply(Seen(base, was), writes)
  {
  }

  /** The operations, on a patch of their own that is left open. */
  method RunOperations(s: Stack, t: Transaction) returns (fees: Fees, panicked: bool)
    requires s.Valid() && s.layers != []
    modifies s`layers
    ensures s.Valid() && |s.layers| == |old(s.layers)| + 1 && s.layers[..|old(s.layers)|] == old(s.layers)
    ensures fees == BodyOf(t, old(s.View())).fees && panicked == BodyOf(t, old(s.View())).panicked
    ensures !panicked ==> s.layers[|old(s.layers)|].changes == BodyOf(t, old(s.View())).writes
  {
    hide Meaning, Apply;
    ghost var view, top := s.View(), |s.layers|;
    s.NewPatch();
    assert Apply(view, []) == view by { ApplyNothing(view); }
    fees := map[];
    for i := 0 to |t.ops|
      invariant s.Valid() && |s.layers| == top + 1 && s.layers[..top] == old(s.layers)
      invariant s.View() == Apply(view, Through(t, view, i).writes)
      invariant s.layers[top].changes == Through(t, view, i).writes && fees == Through(t, view, i).fees
      invariant forall k :: 0 <= k < i ==> !Panics(t, view, k)
    {
      var r := Execute(s, t.ops[i], fees);
      fees := r.fees;
      if r.panicked {
        OnlyStop(t, view, i);
        return fees, true;
      }
      ApplyConcat(view, Through(t, view, i).writes, r.writes);
    }
    OnlyStop(t, view, |t.ops|);
    return fees, false;
  }

  lemma OnlyStop(t: Transaction, content: Content, n: nat)
    requires n <= |t.ops| && (n < |t.ops| ==> Panics(t, content, n))
    requires forall k :: 0 <= k < n ==> !Panics(t, content, k)
    ensures StopsAt(t, content, 0) == n
  {
    hide Panics;
    var m := StopsAt(t, content, 0);
  }

  // ----- groups -----

  /** `applySingle` with its patch: what the patch below then reads is decided by
      `AllOrNothing`. */
  method ApplySingle(s: Stack, t: Transaction) returns (receipt: Receipt)
    requires s.Valid() && s.layers != []
    modifies s`layers
    ensures s.Valid() && |s.layers| == |old(s.layers)|
    ensures s.layers[..|s.layers| - 1] == old(s.layers)[..|s.layers| - 1]
    ensures receipt == Committed(t, old(s.View())).receipt
    ensures s.layers[|s.layers| - 1].changes
            == old(s.layers)[|s.layers| - 1].changes + Committed(t, old(s.View())).writes
    ensures s.View() == Apply(old(s.View()), Committed(t, old(s.View())).writes)
  {
    hide Apply, Commits, Committed;
    ghost var view, n := s.View(), |s.layers|;
    s.NewPatch();
    var err;
    receipt, err := ApplyOnPatch(s, t);
    assert s.layers[..n] == old(s.layers);
    if err {
      s.Drop();
      assert Committed(t, view).writes == [] by { NothingCommitted(t, view); }
      ApplyNothing(view);
    } else {
      s.Merge();
      assert s.layers[..n - 1] == old(s.layers)[..n - 1];
      OnTop(s.base, old(s.layers), s.layers, Committed(t, view).writes);
    }
  }

  lemma NothingCommitted(t: Transaction, content: Content)
    requires !Commits(t, content)
    ensures Committed(t, content).writes == []
  {
    hide Meaning, Apply;
  }

  lemma OnTop(base: Content, was: seq<Layer>, now: seq<Layer>, writes: seq<WriteOp>)
    requires |was| == |now| > 0 && now[..|now| - 1] == was[..|now| - 1]
    requires now[|now| - 1].changes == was[|now| - 1].changes + writes
    ensures Seen(base, now) == Apply(Seen(base, was), writes)
  {
    ApplyConcat(Seen(base, was[..|was| - 1]), was[|was| - 1].changes, writes);
  }

  /** The batch of these transactions. */
  function BatchOf(foot: seq<set<Prop>>, owner: Key -> Owner, trxs: seq<Transaction>): Batch {
    Batch(foot, owner, (i: nat, c: Content) => if i < |trxs| then Committed(trxs[i], c)
                                               else Outcome([], Receipt(0, 0, 0)))
  }

  /** `applyGroup`: one patch for the group, one for each transaction over it; the group's
      patch goes to the database at the end. */
  method ApplyGroup(b: Batch, trxs: seq<Transaction>, s: Stack, group: seq<nat>) returns (receipts: seq<Receipt>)
    requires b == BatchOf(b.foot, b.owner, trxs) && s.Valid() && s.layers == []
    requires forall p :: 0 <= p < |group| ==> group[p] < |trxs|
    modifies s
    ensures s.Valid() && s.layers == [] && s.base == After(b, old(s.base), group) && |receipts| == |group|
    ensures forall p :: 0 <= p < |group| ==> receipts[p] == OutcomeAt(b, old(s.base), group, p).receipt
  {
    hide Apply, Committed;
    ghost var trunk := s.base;
    s.NewPatch();
    receipts := [];
    assert group[..0] == [];
    ApplyNothing(trunk);
    for p := 0 to |group|
      modifies s`layers
      invariant s.Valid() && |s.layers| == 1 && s.base == trunk && |receipts| == p
      invariant s.layers[0].changes == Patch(b, trunk, group[..p]) && s.View() == After(b, trunk, group[..p])
      invariant forall q :: 0 <= q < p ==> receipts[q] == OutcomeAt(b, trunk, group, q).receipt
    {
      assert group[..p + 1][..p] == group[..p];
      AfterStep(b, trunk, group[..p + 1]);
      var receipt := ApplySingle(s, trxs[group[p]]);
      receipts := receipts + [receipt];
    }
    assert group[..|group|] == group;
    s.Store();
  }

  // ----- failures -----

  /** A transaction that commits nothing is invisible to those behind it. */
  lemma {:induction false} FailureInvisible(b: Batch, c: Content, before: seq<nat>, i: nat, behind: seq<nat>)
    requires b.run(i, After(b, c, before)).writes == []
    ensures Patch(b, c, before + [i] + behind) == Patch(b, c, before + behind)
  {
    var all, rest := before + [i] + behind, before + behind;
    if behind == [] {
      assert all[..|before|] == before && rest == before;
    } else {
      var init := behind[..|behind| - 1];
      FailureInvisible(b, c, before, i, init);
      assert all[..|all| - 1] == before + [i] + init && rest[..|rest| - 1] == before + init;
    }
  }

  /** A transaction that is not committed, as every one with status 500, leaves the database
      and every other receipt of its group as if it had not been there. */
  lemma FailureIsolated(b: Batch, trxs: seq<Transaction>, c: Content, before: seq<nat>, i: nat, behind: seq<nat>, q: nat)
    requires b == BatchOf(b.foot, b.owner, trxs) && i < |trxs| && !Commits(trxs[i], After(b, c, before))
    ensures After(b, c, before + [i] + behind) == After(b, c, before + behind)
    ensures q < |before| ==> OutcomeAt(b, c, before + [i] + behind, q) == OutcomeAt(b, c, before + behind, q)
    ensures q < |behind| ==>
              OutcomeAt(b, c, before + [i] + behind, |before| + 1 + q) == OutcomeAt(b, c, before + behind, |before| + q)
  {
    hide Patch, Apply, Commits;
    NothingCommitted(trxs[i], After(b, c, before));
    FailureInvisible(b, c, before, i, behind);
    if q < |before| {
      assert (before + [i] + behind)[..q] == (before + behind)[..q];
    }
    if q < |behind| {
      FailureInvisible(b, c, before, i, behind[..q]);
      assert (before + [i] + behind)[..|before| + 1 + q] == before + [i] + behind[..q];
      assert (before + behind)[..|before| + q] == before + behind[..q];
    }
  }
}
