/** The reversible, transactional key-value store below the chain: batches with a revert
    log per revision, revision tags, and a stack of tagged in-memory sessions. */
module Storage {
  import opened Options

  type Key = string
  type Value = string
  type Content = map<Key, Value>

  datatype WriteOp = Put(key: Key, value: Value) | Delete(key: Key)

  function Lookup(c: Content, k: Key): Option<Value> {
    if k in c then Some(c[k]) else None
  }

  function Write(c: Content, op: WriteOp): Content {
    match op
    case Put(k, v) => c[k := v]
    case Delete(k) => c - {k}
  }

  function Apply(c: Content, ops: seq<WriteOp>): Content {
    if ops == [] then c else Write(Apply(c, ops[..|ops| - 1]), ops[|ops| - 1])
  }

  /** What a list of writes makes of one key. */
  function Effect(ops: seq<WriteOp>, k: Key, before: Option<Value>): Option<Value> {
    if ops == [] then before
    else
      var op := ops[|ops| - 1];
      if op.key == k then (if op.Put? then Some(op.value) else None)
      else Effect(ops[..|ops| - 1], k, before)
  }

  lemma {:induction false} ApplyAt(c: Content, ops: seq<WriteOp>, k: Key)
    ensures Lookup(Apply(c, ops), k) == Effect(ops, k, Lookup(c, k))
  {
    if ops != [] {
      ApplyAt(c, ops[..|ops| - 1], k);
    }
  }

  /** Two contents are equal when every key reads the same. */
  lemma SameReads(a: Content, b: Content)
    requires forall k :: Lookup(a, k) == Lookup(b, k)
    ensures a == b
  {
    assert forall k :: k in a <==> Lookup(a, k).Some?;
    assert forall k :: k in b <==> Lookup(b, k).Some?;
    forall k | k in a
      ensures k in b && a[k] == b[k]
    {
      assert Lookup(a, k) == Lookup(b, k);
    }
  }

  lemma {:induction false} ApplyConcat(c: Content, a: seq<WriteOp>, b: seq<WriteOp>)
    ensures Apply(c, a + b) == Apply(Apply(c, a), b)
  {
    if b == [] {
      assert a + b == a;
    } else {
      assert (a + b)[..|a + b| - 1] == a + b[..|b| - 1];
      ApplyConcat(c, a, b[..|b| - 1]);
    }
  }

  // ----- batches -----

  /** `shrink`: a put is dropped when the same key is deleted later. */
  function Shrink(ops: seq<WriteOp>): seq<WriteOp> {
    if ops == [] then []
    else if ops[0].Put? && Delete(ops[0].key) in ops[1..] then Shrink(ops[1..])
    else [ops[0]] + Shrink(ops[1..])
  }

  /** Deletes of absent keys are not issued. */
  predicate Issued(c: Content, op: WriteOp) {
    op.Put? || op.key in c
  }

  function Issue(c: Content, ops: seq<WriteOp>): seq<WriteOp> {
    if ops == [] then []
    else Issue(c, ops[..|ops| - 1]) + if Issued(c, ops[|ops| - 1]) then [ops[|ops| - 1]] else []
  }

  /** The write that restores the key of `op` to what it is in `c`. */
  function Restore(c: Content, op: WriteOp): WriteOp {
    if op.key in c then Put(op.key, c[op.key]) else Delete(op.key)
  }

  /** The revert log of a batch: the issued writes, last first, each undone. */
  function Reverts(c: Content, ops: seq<WriteOp>): seq<WriteOp> {
    if ops == [] then []
    else (if Issued(c, ops[|ops| - 1]) then [Restore(c, ops[|ops| - 1])] else []) + Reverts(c, ops[..|ops| - 1])
  }

  predicate Touches(ops: seq<WriteOp>, k: Key) {
    exists i :: 0 <= i < |ops| && ops[i].key == k
  }

  /** The effect on a key of one more write in front. */
  lemma {:induction false} EffectFirst(ops: seq<WriteOp>, k: Key, before: Option<Value>)
    requires ops != []
    ensures Effect(ops, k, before)
            == Effect(ops[1..], k, if ops[0].key == k then (if ops[0].Put? then Some(ops[0].value) else None) else before)
  {
    if |ops| > 1 {
      assert ops[1..][..|ops| - 2] == ops[..|ops| - 1][1..];
      EffectFirst(ops[..|ops| - 1], k, before);
    }
  }

  /** Once a key is deleted, what was there before does not matter. */
  lemma {:induction false} DeletedForgets(ops: seq<WriteOp>, k: Key, a: Option<Value>, b: Option<Value>)
    requires Delete(k) in ops
    ensures Effect(ops, k, a) == Effect(ops, k, b)
  {
    var last := ops[|ops| - 1];
    if last.key != k {
      assert Delete(k) in ops[..|ops| - 1];
      DeletedForgets(ops[..|ops| - 1], k, a, b);
    }
  }

  /** Shrinking changes no key, provided the deletes that stay are kept. */
  lemma {:induction false} ShrinkEffect(ops: seq<WriteOp>, k: Key, before: Option<Value>)
    ensures Effect(Shrink(ops), k, before) == Effect(ops, k, before)
  {
    if ops != [] {
      var rest := ops[1..];
      EffectFirst(ops, k, before);
      var after := if ops[0].key == k then (if ops[0].Put? then Some(ops[0].value) else None) else before;
      if ops[0].Put? && Delete(ops[0].key) in rest {
        ShrinkEffect(rest, k, before);
        if ops[0].key == k {
          DeletedForgets(rest, k, before, after);
        }
      } else {
        ShrinkEffect(rest, k, after);
        EffectFirst(Shrink(ops), k, before);
        assert Shrink(ops)[1..] == Shrink(rest);
      }
    }
  }

  lemma {:induction false} ShrinkElements(ops: seq<WriteOp>, i: nat)
    requires i < |Shrink(ops)|
    ensures Shrink(ops)[i] in ops
  {
    if ops[0].Put? && Delete(ops[0].key) in ops[1..] {
      ShrinkElements(ops[1..], i);
    } else if i > 0 {
      ShrinkElements(ops[1..], i - 1);
    }
  }

  /** After shrinking no put is followed by a delete of its key. */
  predicate NoPutBeforeDelete(ops: seq<WriteOp>) {
    forall i, j :: 0 <= i < j < |ops| && ops[i].Put? && ops[j].Delete? ==> ops[i].key != ops[j].key
  }

  lemma {:induction false} ShrinkOrders(ops: seq<WriteOp>)
    ensures NoPutBeforeDelete(Shrink(ops))
  {
    if ops != [] {
      ShrinkOrders(ops[1..]);
      if !(ops[0].Put? && Delete(ops[0].key) in ops[1..]) {
        var s := Shrink(ops);
        forall i, j | 0 <= i < j < |s| && s[i].Put? && s[j].Delete?
          ensures s[i].key != s[j].key
        {
          assert s[j] == Shrink(ops[1..])[j - 1];
          ShrinkElements(ops[1..], j - 1);
          if i > 0 {
            assert s[i] == Shrink(ops[1..])[i - 1];
          }
        }
      }
    }
  }

  /** In a shrunk batch a delete that is not issued finds its key absent anyway. */
  lemma {:induction false} IssueEffect(c: Content, ops: seq<WriteOp>, k: Key)
    requires NoPutBeforeDelete(ops)
    ensures Effect(Issue(c, ops), k, Lookup(c, k)) == Effect(ops, k, Lookup(c, k))
  {
    if ops != [] {
      var init, last := ops[..|ops| - 1], ops[|ops| - 1];
      if Issued(c, last) {
        assert Issue(c, ops)[..|Issue(c, ops)| - 1] == Issue(c, init);
        IssueEffect(c, init, k);
      } else {
        assert Issue(c, ops) == Issue(c, init);
        IssueEffect(c, init, k);
        if last.key == k {
          OnlyDeletes(init, k);
        }
      }
    }
  }

  lemma {:induction false} OnlyDeletes(ops: seq<WriteOp>, k: Key)
    requires forall i :: 0 <= i < |ops| && ops[i].Put? ==> ops[i].key != k
    ensures Effect(ops, k, None) == None
  {
    if ops != [] {
      assert forall i :: 0 <= i < |ops| - 1 ==> ops[..|ops| - 1][i] == ops[i];
      OnlyDeletes(ops[..|ops| - 1], k);
    }
  }

  /** What the store issues for a batch has the effect of the whole batch. */
  lemma BatchExact(c: Content, ops: seq<WriteOp>)
    ensures Apply(c, Issue(c, Shrink(ops))) == Apply(c, ops)
  {
    forall k
      ensures Lookup(Apply(c, Issue(c, Shrink(ops))), k) == Lookup(Apply(c, ops), k)
    {
      ApplyAt(c, Issue(c, Shrink(ops)), k);
      ApplyAt(c, ops, k);
      ShrinkOrders(ops);
      IssueEffect(c, Shrink(ops), k);
      ShrinkEffect(ops, k, Lookup(c, k));
    }
    SameReads(Apply(c, Issue(c, Shrink(ops))), Apply(c, ops));
  }

  lemma {:induction false} RevertsEffect(c: Content, ops: seq<WriteOp>, k: Key, now: Option<Value>)
    requires now == Effect(Issue(c, ops), k, Lookup(c, k)) || Touches(Issue(c, ops), k)
    ensures Effect(Reverts(c, ops), k, now) == Lookup(c, k)
  {
    if ops != [] {
      var init, last := ops[..|ops| - 1], ops[|ops| - 1];
      if Issued(c, last) {
        assert Reverts(c, ops)[1..] == Reverts(c, init);
        EffectFirst(Reverts(c, ops), k, now);
        if last.key == k {
          RestoredStays(c, init, k);
        } else {
          assert Issue(c, ops)[..|Issue(c, ops)| - 1] == Issue(c, init);
          if Touches(Issue(c, ops), k) {
            var i :| 0 <= i < |Issue(c, ops)| && Issue(c, ops)[i].key == k;
            assert Issue(c, init)[i].key == k;
          }
          RevertsEffect(c, init, k, now);
        }
      } else {
        assert Reverts(c, ops) == Reverts(c, init) && Issue(c, ops) == Issue(c, init);
        RevertsEffect(c, init, k, now);
      }
    }
  }

  /** Reverting again writes the same old value. */
  lemma {:induction false} RestoredStays(c: Content, ops: seq<WriteOp>, k: Key)
    ensures Effect(Reverts(c, ops), k, Lookup(c, k)) == Lookup(c, k)
  {
    if ops != [] {
      var init := ops[..|ops| - 1];
      RestoredStays(c, init, k);
      if Issued(c, ops[|ops| - 1]) {
        EffectFirst(Reverts(c, ops), k, Lookup(c, k));
        assert Reverts(c, ops)[1..] == Reverts(c, init);
      } else {
        assert Reverts(c, ops) == Reverts(c, init);
      }
    }
  }

  /** The revert log of a batch restores exactly the content before it. */
  lemma RevertExact(c: Content, ops: seq<WriteOp>)
    ensures Apply(Apply(c, ops), Reverts(c, Shrink(ops))) == c
  {
    BatchExact(c, ops);
    var d := Apply(c, ops);
    var reverts := Reverts(c, Shrink(ops));
    forall k
      ensures Lookup(Apply(d, reverts), k) == Lookup(c, k)
    {
      ApplyAt(d, reverts, k);
      ApplyAt(c, Issue(c, Shrink(ops)), k);
      RevertsEffect(c, Shrink(ops), k, Lookup(d, k));
    }
    SameReads(Apply(d, reverts), c);
  }

  // ----- one session -----

  /** How a session answers reads: its own rows, then its removals, then the store below. */
  datatype Overlay = Overlay(rows: Content, removals: set<Key>)

  function Record(o: Overlay, op: WriteOp): Overlay {
    match op
    case Put(k, v) => Overlay(o.rows[k := v], o.removals - {k})
    case Delete(k) => Overlay(o.rows - {k}, o.removals + {k})
  }

  function RecordAll(ops: seq<WriteOp>): Overlay {
    if ops == [] then Overlay(map[], {}) else Record(RecordAll(ops[..|ops| - 1]), ops[|ops| - 1])
  }

  function ReadThrough(o: Overlay, below: Content, k: Key): Option<Value> {
    if k in o.rows then Some(o.rows[k])
    else if k in o.removals then None
    else Lookup(below, k)
  }

  /** Reading through a session is reading the store with the session's changes applied. */
  lemma {:induction false} SessionReads(below: Content, changes: seq<WriteOp>, k: Key)
    ensures ReadThrough(RecordAll(changes), below, k) == Lookup(Apply(below, changes), k)
  {
    if changes != [] {
      SessionReads(below, changes[..|changes| - 1], k);
    }
  }
}
