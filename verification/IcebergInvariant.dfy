/** How the database represents a chain of snapshots, and that every database call the
    iceberg makes keeps the representation. */
module IcebergInvariant {
  import opened Options
  import opened Storage
  import opened Database

  /** The tag of the revision that ends block `n`; block 0 is the genesis state. */
  function TagOf(n: nat): Tag {
    if n == 0 then GenesisTag else BlockTag(n)
  }

  /** Only blocks that wrote something have a revision: `marks` lists the block of each, oldest
      first.  Revisions below the first of them carry no tag. */
  function Low(db: Db, marks: seq<nat>): nat
    requires |marks| <= db.current + 1
  {
    db.current + 1 - |marks|
  }

  ghost predicate Rising(marks: seq<nat>) {
    forall i, j :: 0 <= i < j < |marks| ==> marks[i] < marks[j]
  }

  /** Revision `low + j` holds the snapshot of block `marks[j]`: the revert logs lead from each
      back to the one before. */
  ghost predicate Logged(log: map<nat, seq<WriteOp>>, low: nat, marks: seq<nat>, chain: seq<Content>) {
    && (forall j :: 0 <= j < |marks| ==> marks[j] < |chain|)
    && (forall j :: 0 <= j < |marks| - 1 ==> LeadsBack(log, low, marks, chain, j))
  }

  ghost predicate LeadsBack(log: map<nat, seq<WriteOp>>, low: nat, marks: seq<nat>, chain: seq<Content>, j: nat)
    requires j + 1 < |marks| && marks[j] < |chain| && marks[j + 1] < |chain|
  {
    low + j in log && Apply(chain[marks[j + 1]], log[low + j]) == chain[marks[j]]
  }

  /** Each revision carries the tag of its block, and there are no other tags. */
  ghost predicate Tagged(tagRev: map<Tag, nat>, revTag: map<nat, Tag>, low: nat, marks: seq<nat>) {
    && (forall r :: r in revTag <==> low <= r < low + |marks|)
    && (forall j :: 0 <= j < |marks| ==> revTag[low + j] == TagOf(marks[j]))
    && (forall j :: 0 <= j < |marks| ==> TagOf(marks[j]) in tagRev && tagRev[TagOf(marks[j])] == low + j)
    && (forall t :: t in tagRev ==> tagRev[t] in revTag && revTag[tagRev[t]] == t)
  }

  /** A block in the store without a revision has changed nothing. */
  ghost predicate Steady(chain: seq<Content>, marks: seq<nat>, sea: nat)
    requires sea <= |chain| && marks != []
  {
    forall n :: marks[0] < n < sea && n !in marks ==> chain[n] == chain[n - 1]
  }

  /** The sessions from `sea` on lead from each snapshot to the next. */
  ghost predicate Layered(sessions: seq<seq<WriteOp>>, chain: seq<Content>, sea: nat)
    requires 1 <= sea <= |chain|
  {
    forall i :: 0 <= i < |sessions| && sea + i < |chain| ==>
      Apply(chain[sea + i - 1], sessions[i]) == chain[sea + i]
  }

  ghost predicate Named(tags: map<Tag, nat>, sea: nat, next: nat) {
    && (forall n :: sea <= n < next ==> BlockTag(n) in tags)
    && (forall t :: t in tags ==> t.BlockTag? && sea <= t.num < next && tags[t] == t.num - sea)
  }

  ghost predicate Bounds(db: Db, chain: seq<Content>, marks: seq<nat>, sea: nat, next: nat) {
    && marks != [] && Rising(marks) && marks[|marks| - 1] < sea <= |chain| <= next <= |chain| + 1
    && |marks| <= db.current + 1 && db.base <= Low(db, marks) && (db.base < Low(db, marks) ==> marks[0] == 0)
    && |db.sessions| == next - sea
  }

  /** The database stands for `chain`: the blocks before `sea` are in the store, those of
      `marks` with a revision to come back to, and those before `next` in sessions, the last
      of which is still open when `next` exceeds the chain. */
  ghost predicate Sound(db: Db, chain: seq<Content>, marks: seq<nat>, sea: nat, next: nat) {
    && Bounds(db, chain, marks, sea, next)
    && db.content == chain[sea - 1] && db.reversible
    && Logged(db.log, Low(db, marks), marks, chain)
    && Tagged(db.tagRev, db.revTag, Low(db, marks), marks)
    && Steady(chain, marks, sea)
    && Layered(db.sessions, chain, sea)
    && Named(db.tags, sea, next)
  }

  lemma SoundBounds(db: Db, chain: seq<Content>, marks: seq<nat>, sea: nat, next: nat)
    requires Sound(db, chain, marks, sea, next)
    ensures Bounds(db, chain, marks, sea, next)
  {
  }

  /** The blocks above the last revision changed nothing. */
  lemma {:induction false} SteadyAbove(chain: seq<Content>, marks: seq<nat>, sea: nat, n: nat)
    requires marks != [] && Rising(marks) && marks[|marks| - 1] <= n < sea <= |chain| && Steady(chain, marks, sea)
    ensures chain[n] == chain[marks[|marks| - 1]]
    decreases n
  {
    if n > marks[|marks| - 1] {
      SteadyAbove(chain, marks, sea, n - 1);
    }
  }

  // ----- reading -----

  lemma {:induction false} BelowIsSnapshot(db: Db, chain: seq<Content>, marks: seq<nat>, sea: nat, next: nat, i: nat)
    requires Sound(db, chain, marks, sea, next) && i <= |db.sessions| && sea + i <= |chain|
    ensures Below(db.content, db.sessions, i) == chain[sea + i - 1]
  {
    hide Logged, Tagged, Named, Steady, Rising;
    if i > 0 {
      BelowIsSnapshot(db, chain, marks, sea, next, i - 1);
    }
  }

  /** Between blocks a reader sees the latest snapshot; inside a block, the latest
      snapshot with the block's writes. */
  lemma ViewIsLatest(db: Db, chain: seq<Content>, marks: seq<nat>, sea: nat, next: nat)
    requires Sound(db, chain, marks, sea, next)
    ensures View(db) == if next == |chain| then chain[|chain| - 1]
                        else Apply(chain[|chain| - 1], db.sessions[|db.sessions| - 1])
  {
    hide Logged, Tagged, Named, Steady, Rising;
    BelowIsSnapshot(db, chain, marks, sea, next, |chain| - sea);
  }

  // ----- sessions -----

  lemma BeginSound(db: Db, chain: seq<Content>, marks: seq<nat>, sea: nat, next: nat)
    requires Sound(db, chain, marks, sea, next) && next == |chain|
    ensures Sound(BeginTransactionWithTag(db, BlockTag(next)), chain, marks, sea, next + 1)
    ensures View(BeginTransactionWithTag(db, BlockTag(next))) == View(db)
  {
    hide Logged, Tagged, View, Steady, Rising;
    ViewIsLatest(db, chain, marks, sea, next);
    ViewIsLatest(BeginTransactionWithTag(db, BlockTag(next)), chain, marks, sea, next + 1);
  }

  lemma WriteSound(db: Db, chain: seq<Content>, marks: seq<nat>, sea: nat, next: nat, op: WriteOp)
    requires Sound(db, chain, marks, sea, next) && next == |chain| + 1
    ensures Sound(WriteFront(db, op), chain, marks, sea, next)
    ensures View(WriteFront(db, op)) == Write(View(db), op)
    ensures WriteFront(db, op).sessions[|db.sessions| - 1] == db.sessions[|db.sessions| - 1] + [op]
  {
    hide Logged, Tagged, Named, View, Apply, Layered, Steady, Rising;
    var d := WriteFront(db, op);
    var top := |db.sessions| - 1;
    ViewIsLatest(db, chain, marks, sea, next);
    LayeredFront(db.sessions, chain, sea, op);
    ViewIsLatest(d, chain, marks, sea, next);
    ApplyOne(chain[|chain| - 1], db.sessions[top], op);
  }

  lemma ApplyOne(c: Content, ops: seq<WriteOp>, op: WriteOp)
    ensures Apply(c, ops + [op]) == Write(Apply(c, ops), op)
  {
    assert (ops + [op])[..|ops|] == ops;
  }

  /** The open session, above the chain, may change. */
  lemma LayeredFront(sessions: seq<seq<WriteOp>>, chain: seq<Content>, sea: nat, op: WriteOp)
    requires 1 <= sea <= |chain| && sessions != [] && sea + |sessions| == |chain| + 1 && Layered(sessions, chain, sea)
    ensures var top := |sessions| - 1;
            Layered(sessions[top := sessions[top] + [op]], chain, sea)
  {
    hide Apply;
  }

  lemma EndSound(db: Db, chain: seq<Content>, marks: seq<nat>, sea: nat, next: nat)
    requires Sound(db, chain, marks, sea, next) && next == |chain| + 1
    ensures Sound(db, chain + [View(db)], marks, sea, next)
  {
    hide Tagged, Named, View, Rising, Apply, Logged;
    ViewIsLatest(db, chain, marks, sea, next);
    LoggedGrows(db.log, Low(db, marks), marks, chain, View(db));
  }

  lemma LoggedGrows(log: map<nat, seq<WriteOp>>, low: nat, marks: seq<nat>, chain: seq<Content>, c: Content)
    requires Logged(log, low, marks, chain)
    ensures Logged(log, low, marks, chain + [c])
  {
    hide Apply;
    forall j | 0 <= j < |marks| - 1
      ensures LeadsBack(log, low, marks, chain + [c], j)
    {
      assert LeadsBack(log, low, marks, chain, j);
    }
  }

  lemma DiscardSound(db: Db, chain: seq<Content>, marks: seq<nat>, sea: nat, next: nat)
    requires Sound(db, chain, marks, sea, next) && next == |chain| + 1
    ensures Discard(db).1 && Sound(Discard(db).0, chain, marks, sea, next - 1)
  {
    hide Logged, Tagged, Apply, Steady, Rising;
  }

  lemma RollbackSound(db: Db, chain: seq<Content>, marks: seq<nat>, sea: nat, next: nat, n: nat)
    requires Sound(db, chain, marks, sea, next) && next == |chain| && sea <= n < next
    ensures RollbackTag(db, BlockTag(n)).1
    ensures Sound(RollbackTag(db, BlockTag(n)).0, chain[..n], marks, sea, n)
  {
    hide Tagged, Apply, Logged, Rising;
    LoggedCut(db.log, Low(db, marks), marks, chain, |marks| - 1, n);
    assert marks[..|marks|] == marks;
  }

  // ----- the store -----

  /** A new revision takes the tag of its block. */
  lemma TaggedExtends(db: Db, low: nat, marks: seq<nat>, n: nat)
    requires Tagged(db.tagRev, db.revTag, low, marks) && n > 0 && n !in marks
    ensures var d := TagRevision(db, low + |marks|, BlockTag(n));
            && d == db.(tagRev := d.tagRev, revTag := d.revTag)
            && Tagged(d.tagRev, d.revTag, low, marks + [n])
  {
    assert BlockTag(n) !in db.tagRev by { Untagged(db.tagRev, db.revTag, low, marks, n); }
  }

  lemma TagAt(tagRev: map<Tag, nat>, revTag: map<nat, Tag>, low: nat, marks: seq<nat>, j: nat)
    requires Tagged(tagRev, revTag, low, marks) && j < |marks|
    ensures TagOf(marks[j]) in tagRev && tagRev[TagOf(marks[j])] == low + j
  {
  }

  lemma RisingCut(marks: seq<nat>, b: nat)
    requires Rising(marks) && b < |marks|
    ensures Rising(marks[..b + 1]) && Rising(marks[b..]) && marks[0] <= marks[b] <= marks[|marks| - 1]
  {
  }

  /** Only the blocks listed have a tag. */
  lemma Untagged(tagRev: map<Tag, nat>, revTag: map<nat, Tag>, low: nat, marks: seq<nat>, n: nat)
    requires Tagged(tagRev, revTag, low, marks)
    ensures TagOf(n) in tagRev <==> n in marks
  {
    if TagOf(n) in tagRev {
      var r := tagRev[TagOf(n)];
      assert revTag[low + (r - low)] == TagOf(marks[r - low]);
    }
    if n in marks {
      var j :| 0 <= j < |marks| && marks[j] == n;
    }
  }

  lemma LoggedExtends(log: map<nat, seq<WriteOp>>, low: nat, marks: seq<nat>, chain: seq<Content>, n: nat,
                      reverts: seq<WriteOp>)
    requires Logged(log, low, marks, chain) && marks != [] && n < |chain|
    requires Apply(chain[n], reverts) == chain[marks[|marks| - 1]]
    ensures Logged(log[low + |marks| - 1 := reverts], low, marks + [n], chain)
  {
    hide Apply;
    var more, now := marks + [n], log[low + |marks| - 1 := reverts];
    forall j | 0 <= j < |more| - 1
      ensures LeadsBack(now, low, more, chain, j)
    {
      if j < |marks| - 1 {
        assert LeadsBack(log, low, marks, chain, j);
      }
    }
  }

  lemma LayeredDrops(sessions: seq<seq<WriteOp>>, chain: seq<Content>, sea: nat, n: nat)
    requires 1 <= sea && sea + n <= |chain| && n <= |sessions| && Layered(sessions, chain, sea)
    ensures Layered(sessions[n..], chain, sea + n)
  {
    hide Apply;
  }

  function ShiftTags(tags: map<Tag, nat>, n: nat): map<Tag, nat> {
    map t | t in tags && tags[t] >= n :: tags[t] - n
  }

  lemma NamedShifts(tags: map<Tag, nat>, sea: nat, next: nat, n: nat)
    requires Named(tags, sea, next) && sea + n <= next
    ensures Named(ShiftTags(tags, n), sea + n, next)
  {
  }

  /** Squashing block `sea + n` writes the first `n + 1` sessions as one batch. */
  lemma SquashShape(db: Db, sea: nat, next: nat, n: nat)
    requires Named(db.tags, sea, next) && |db.sessions| == next - sea && sea + n < next
    ensures var (d, ok) := Squash(db, BlockTag(sea + n));
            && ok && d == WriteBatch(db.(preset := BlockTag(sea + n)), Flatten(db.sessions[..n + 1]))
                             .(sessions := db.sessions[n + 1..], tags := ShiftTags(db.tags, n + 1))
  {
    hide WriteBatch;
  }

  lemma {:induction false} ShrinkNonEmpty(ops: seq<WriteOp>)
    requires ops != []
    ensures Shrink(ops) != []
  {
    if ops[0].Put? && Delete(ops[0].key) in ops[1..] {
      ShrinkNonEmpty(ops[1..]);
    }
  }

  /** A batch that is not empty makes one revision, under the tag that was preset. */
  lemma BatchShape(db: Db, ops: seq<WriteOp>)
    requires db.reversible && ops != [] && db.preset != NoTag
    ensures var d := TagRevision(db, db.current + 1, db.preset);
            WriteBatch(db, ops)
            == d.(content := Apply(db.content, ops), log := db.log[db.current := Reverts(db.content, Shrink(ops))],
                  current := db.current + 1, preset := NoTag)
  {
    hide Apply, Issue, Reverts, Shrink;
    ShrinkNonEmpty(ops);
    BatchExact(db.content, ops);
  }

  lemma EmptyBatch(db: Db)
    ensures WriteBatch(db, []) == db
  {
  }

  lemma ApplyNothing(c: Content)
    ensures Apply(c, []) == c
  {
  }

  lemma OneSession(sessions: seq<seq<WriteOp>>)
    requires sessions != []
    ensures Flatten(sessions[..1]) == sessions[0]
  {
    assert sessions[..1][..0] == [];
    assert [] + sessions[0] == sessions[0];
  }

  /** The blocks with a revision once block `sea` is in the store. */
  function Sunk(marks: seq<nat>, sea: nat, session: seq<WriteOp>): seq<nat> {
    if session == [] then marks else marks + [sea]
  }

  /** Sinking the oldest block in memory: one revision that can be undone if it wrote, and none
      if it did not. */
  lemma SinkSound(db: Db, chain: seq<Content>, marks: seq<nat>, sea: nat, next: nat)
    requires Sound(db, chain, marks, sea, next) && sea < |chain|
    ensures Squash(db, BlockTag(sea)).1 && db.sessions != []
    ensures Sound(Squash(db, BlockTag(sea)).0, chain, Sunk(marks, sea, db.sessions[0]), sea + 1, next)
  {
    hide Sound, Squash;
    FirstSession(db, chain, marks, sea, next);
    if db.sessions[0] == [] {
      SinkEmpty(db, chain, marks, sea, next);
    } else {
      SinkOne(db, chain, marks, sea, next);
    }
  }

  lemma FirstSession(db: Db, chain: seq<Content>, marks: seq<nat>, sea: nat, next: nat)
    requires Sound(db, chain, marks, sea, next) && sea < |chain|
    ensures sea >= 1 && db.sessions != [] && Apply(chain[sea - 1], db.sessions[0]) == chain[sea]
  {
    hide Logged, Tagged, Named, Steady, Rising, Apply;
    assert sea + 0 < |chain|;
  }

  lemma SinkEmpty(db: Db, chain: seq<Content>, marks: seq<nat>, sea: nat, next: nat)
    requires Sound(db, chain, marks, sea, next) && sea < |chain| && db.sessions[0] == []
    ensures Squash(db, BlockTag(sea)).1
    ensures Sound(Squash(db, BlockTag(sea)).0, chain, marks, sea + 1, next)
  {
    hide Apply, WriteBatch, Squash, Tagged, Logged, Layered, Named, Flatten, Steady, Rising;
    FirstSession(db, chain, marks, sea, next);
    ApplyNothing(chain[sea - 1]);
    SquashShape(db, sea, next, 0);
    OneSession(db.sessions);
    EmptyBatch(db.(preset := BlockTag(sea)));
    LayeredDrops(db.sessions, chain, sea, 1);
    NamedShifts(db.tags, sea, next, 1);
    SteadyMore(chain, marks, marks, sea);
  }

  lemma SteadyMore(chain: seq<Content>, marks: seq<nat>, more: seq<nat>, sea: nat)
    requires sea < |chain| && marks != [] && Steady(chain, marks, sea)
    requires more == marks + [sea] || (more == marks && sea > 0 && chain[sea] == chain[sea - 1])
    ensures Steady(chain, more, sea + 1)
  {
    assert forall m :: m in marks ==> m in more;
    assert sea !in more ==> more == marks;
  }

  lemma SinkOne(db: Db, chain: seq<Content>, marks: seq<nat>, sea: nat, next: nat)
    requires Sound(db, chain, marks, sea, next) && sea < |chain| && db.sessions[0] != []
    ensures Squash(db, BlockTag(sea)).1
    ensures Sound(Squash(db, BlockTag(sea)).0, chain, marks + [sea], sea + 1, next)
  {
    hide Apply, Reverts, Shrink, WriteBatch, TagRevision, Squash, Tagged, Logged, Layered, Named, Flatten, Steady;
    var ops := db.sessions[0];
    FirstSession(db, chain, marks, sea, next);
    OneSession(db.sessions);
    var d := db.(preset := BlockTag(sea));
    SquashShape(db, sea, next, 0);
    BatchShape(d, ops);
    RevertExact(db.content, ops);
    var low := Low(db, marks);
    TaggedExtends(d, low, marks, sea);
    SteadyAbove(chain, marks, sea, sea - 1);
    LoggedExtends(db.log, low, marks, chain, sea, Reverts(db.content, Shrink(ops)));
    LayeredDrops(db.sessions, chain, sea, 1);
    NamedShifts(db.tags, sea, next, 1);
    SteadyMore(chain, marks, marks + [sea], sea);
  }

  /** A block leaves a revision to come back to exactly when it wrote something. */
  lemma SinkTagsBlock(db: Db, chain: seq<Content>, marks: seq<nat>, sea: nat, next: nat)
    requires Sound(db, chain, marks, sea, next) && sea < |chain|
    ensures db.sessions != []
    ensures var d := Squash(db, BlockTag(sea)).0;
            && (BlockTag(sea) in d.tagRev <==> db.sessions[0] != [])
            && (RevertToTag(d, BlockTag(sea)).1 <==> db.sessions[0] != [])
  {
    hide Squash, Apply, Logged, Layered, Named, Steady;
    SinkSound(db, chain, marks, sea, next);
    var d, after := Squash(db, BlockTag(sea)).0, Sunk(marks, sea, db.sessions[0]);
    Untagged(d.tagRev, d.revTag, Low(d, after), after, sea);
  }

  // ----- rebasing -----

  /** The tags of the revisions that stay, those of `marks[a..b]`. */
  lemma CleanTagged(db: Db, low: nat, marks: seq<nat>, a: nat, b: nat)
    requires Tagged(db.tagRev, db.revTag, low, marks) && Rising(marks) && a < b <= |marks|
    requires db.current == low + b - 1 && (if a == 0 then db.base <= low else db.base == low + a)
    ensures var d := CleanTags(db);
            && d == db.(tagRev := d.tagRev, revTag := d.revTag)
            && Tagged(d.tagRev, d.revTag, low + a, marks[a..b])
  {
    var d := CleanTags(db);
    forall j | 0 <= j < b - a
      ensures TagOf(marks[a..b][j]) in d.tagRev && d.tagRev[TagOf(marks[a..b][j])] == low + a + j
      ensures d.revTag[low + a + j] == TagOf(marks[a..b][j])
    {
      assert marks[a..b][j] == marks[a + j];
      assert db.revTag[low + (a + j)] == TagOf(marks[a + j]);
      forall q | q in db.revTag && db.revTag[q] == TagOf(marks[a + j])
        ensures q == low + a + j
      {
        assert db.revTag[low + (q - low)] == TagOf(marks[q - low]);
      }
    }
  }

  lemma LoggedRebased(log: map<nat, seq<WriteOp>>, low: nat, marks: seq<nat>, chain: seq<Content>, a: nat)
    requires Logged(log, low, marks, chain) && a < |marks|
    ensures Logged(map i | i in log && i >= low + a :: log[i], low + a, marks[a..], chain)
  {
    hide Apply;
    var lo, rest := low + a, marks[a..];
    var kept := map i | i in log && i >= lo :: log[i];
    forall j | 0 <= j < |rest| - 1
      ensures LeadsBack(kept, lo, rest, chain, j)
    {
      assert LeadsBack(log, low, marks, chain, a + j);
    }
  }

  lemma SteadyRebased(chain: seq<Content>, marks: seq<nat>, sea: nat, a: nat)
    requires sea <= |chain| && a < |marks| && Rising(marks) && Steady(chain, marks, sea)
    ensures Steady(chain, marks[a..], sea)
  {
    forall n | marks[a] < n < sea && n in marks
      ensures n in marks[a..]
    {
      var k :| 0 <= k < |marks| && marks[k] == n;
      assert k > a;
      assert marks[a..][k - a] == n;
    }
  }

  /** Finalizing a block that is already in the store, and has a revision. */
  lemma RebaseSound(db: Db, chain: seq<Content>, marks: seq<nat>, sea: nat, next: nat, a: nat)
    requires Sound(db, chain, marks, sea, next) && a < |marks| && marks[a] > 0
    ensures var (d, ok) := RebaseToTag(db, BlockTag(marks[a]));
            ok && Sound(d, chain, marks[a..], sea, next) && View(d) == View(db)
  {
    hide Apply, View, CleanTags, Logged, Layered, Named, Steady;
    var low := Low(db, marks);
    assert TagOf(marks[a]) == BlockTag(marks[a]) && db.tagRev[TagOf(marks[a])] == low + a;
    var d := db.(base := low + a, log := map i | i in db.log && i >= low + a :: db.log[i]);
    LoggedRebased(db.log, low, marks, chain, a);
    CleanTagged(d, low, marks, a, |marks|);
    assert marks[a..|marks|] == marks[a..];
    SteadyRebased(chain, marks, sea, a);
    if a == 0 {
      assert marks[0..] == marks;
    }
    ViewIsLatest(db, chain, marks, sea, next);
    ViewIsLatest(RebaseToTag(db, BlockTag(marks[a])).0, chain, marks[a..], sea, next);
  }

  /** One without a revision cannot be found. */
  lemma RebaseFails(db: Db, chain: seq<Content>, marks: seq<nat>, sea: nat, next: nat, n: nat)
    requires Sound(db, chain, marks, sea, next) && n > 0 && n !in marks
    ensures RebaseToTag(db, BlockTag(n)) == (db, false)
  {
    hide Apply, Logged, Layered, Named, Steady;
    Untagged(db.tagRev, db.revTag, Low(db, marks), marks, n);
  }

  /** The only revision left once blocks in memory up to `n` are finalized. */
  function Settled(marks: seq<nat>, n: nat, ops: seq<WriteOp>): seq<nat>
    requires marks != []
  {
    if ops == [] then [marks[|marks| - 1]] else [n]
  }

  /** Finalizing blocks in memory: the store takes them over without a revision of their
      own, and the only revision left stands for the block finalized, unless nothing was
      written since the one before. */
  lemma FinalizeSound(db: Db, chain: seq<Content>, marks: seq<nat>, sea: nat, next: nat, n: nat)
    requires Sound(db, chain, marks, sea, next) && sea <= n < |chain|
    ensures var (d1, ok1) := EnableReversion(db, false);
            var (d2, ok2) := Squash(d1, BlockTag(n));
            var (d3, ok3) := EnableReversion(d2, true);
            && ok1 && ok2 && ok3 && View(d3) == View(db)
            && Sound(d3, chain, Settled(marks, n, Flatten(db.sessions[..n - sea + 1])), n + 1, next)
  {
    hide Apply, View, Shrink, WriteBatch, Squash, EnableReversion, Tagged, Layered, Logged, Named, Flatten, TagRevision,
         Steady;
    var d1 := EnableReversion(db, false).0;
    var top := marks[|marks| - 1];
    DisableShape(db, Low(db, marks), marks);
    var ops := Flatten(db.sessions[..n - sea + 1]);
    FlattenLayers(db.sessions, chain, sea, n - sea + 1);
    SquashShape(d1, sea, next, n - sea);
    var d := d1.(preset := BlockTag(n));
    var d2 := Squash(d1, BlockTag(n)).0;
    if ops == [] {
      EmptyBatch(d);
      ApplyNothing(chain[sea - 1]);
      SteadyEmpty(db.sessions, chain, marks, sea, n);
    } else {
      PlainBatchShape(d, ops);
      RetagOnly(d.(content := Apply(db.content, ops)), top, n);
      SteadyOne(chain, n);
    }
    EnableShape(d2);
    LayeredDrops(db.sessions, chain, sea, n - sea + 1);
    NamedShifts(db.tags, sea, next, n - sea + 1);
    LoggedOne(d2.log, d2.base, chain, Settled(marks, n, ops)[0]);
    ViewIsLatest(db, chain, marks, sea, next);
    ViewIsLatest(d2.(reversible := true), chain, Settled(marks, n, ops), n + 1, next);
  }

  lemma SteadyOne(chain: seq<Content>, n: nat)
    requires n < |chain|
    ensures Steady(chain, [n], n + 1)
  {
  }

  /** Sessions that are all empty have changed nothing. */
  lemma SteadyEmpty(sessions: seq<seq<WriteOp>>, chain: seq<Content>, marks: seq<nat>, sea: nat, n: nat)
    requires 1 <= sea <= n < |chain| && n - sea < |sessions| && Layered(sessions, chain, sea)
    requires marks != [] && Rising(marks) && marks[|marks| - 1] < sea && Steady(chain, marks, sea)
    requires Flatten(sessions[..n - sea + 1]) == []
    ensures Steady(chain, [marks[|marks| - 1]], n + 1)
  {
    hide Apply, Flatten;
    var top := marks[|marks| - 1];
    forall k | top < k < n + 1
      ensures chain[k] == chain[k - 1]
    {
      if k < sea {
        assert k !in marks;
      } else {
        FlattenEmpty(sessions[..n - sea + 1], k - sea);
        assert sea + (k - sea) < |chain|;
        ApplyNothing(chain[k - 1]);
      }
    }
  }

  lemma {:induction false} FlattenEmpty(sessions: seq<seq<WriteOp>>, i: nat)
    requires i < |sessions| && Flatten(sessions) == []
    ensures sessions[i] == []
  {
    if i < |sessions| - 1 {
      FlattenEmpty(sessions[..|sessions| - 1], i);
    }
  }

  lemma DisableShape(db: Db, low: nat, marks: seq<nat>)
    requires db.reversible && marks != [] && Rising(marks) && db.base <= low && db.current == low + |marks| - 1
    requires Tagged(db.tagRev, db.revTag, low, marks)
    ensures var (d, ok) := EnableReversion(db, false);
            && ok
            && d == db.(base := db.current, reversible := false, log := d.log, tagRev := d.tagRev, revTag := d.revTag)
            && Tagged(d.tagRev, d.revTag, db.current, [marks[|marks| - 1]])
  {
    hide CleanTags, Tagged, Rising, TagOf, EnableReversion;
    DisableMoves(db);
    var top := |marks| - 1;
    assert marks[top..|marks|] == [marks[top]];
    if db.base != db.current {
      CleanTagged(AtCurrent(db), low, marks, top, |marks|);
    } else {
      assert marks == [marks[top]];
    }
  }

  function AtCurrent(db: Db): Db {
    db.(base := db.current, log := map i | i in db.log && i >= db.current :: db.log[i])
  }

  lemma DisableMoves(db: Db)
    requires db.reversible && db.base <= db.current
    ensures EnableReversion(db, false)
            == ((if db.base == db.current then db else CleanTags(AtCurrent(db))).(reversible := false), true)
  {
    hide CleanTags;
  }

  lemma EnableShape(db: Db)
    requires !db.reversible
    ensures EnableReversion(db, true) == (db.(reversible := true), true)
  {
  }

  lemma PlainBatchShape(db: Db, ops: seq<WriteOp>)
    requires !db.reversible && ops != [] && db.preset != NoTag
    ensures WriteBatch(db, ops)
            == TagRevision(db.(content := Apply(db.content, ops)), db.current, db.preset).(preset := NoTag)
  {
    hide Apply, TagRevision;
    ShrinkNonEmpty(ops);
    ShrinkExact(db.content, ops);
  }

  /** Shrinking alone keeps the effect of a batch. */
  lemma ShrinkExact(c: Content, ops: seq<WriteOp>)
    ensures Apply(c, Shrink(ops)) == Apply(c, ops)
  {
    forall k
      ensures Lookup(Apply(c, Shrink(ops)), k) == Lookup(Apply(c, ops), k)
    {
      ApplyAt(c, Shrink(ops), k);
      ApplyAt(c, ops, k);
      ShrinkEffect(ops, k, Lookup(c, k));
    }
    SameReads(Apply(c, Shrink(ops)), Apply(c, ops));
  }

  /** The only revision left changes its tag. */
  lemma RetagOnly(db: Db, was: nat, n: nat)
    requires was < n && Tagged(db.tagRev, db.revTag, db.current, [was])
    ensures var d := TagRevision(db, db.current, BlockTag(n));
            && d == db.(tagRev := d.tagRev, revTag := d.revTag)
            && Tagged(d.tagRev, d.revTag, db.current, [n])
  {
    assert [was][0] == was && [n][0] == n;
    assert db.revTag[db.current + 0] == TagOf([was][0]) && TagOf(was) != BlockTag(n);
  }

  lemma LoggedOne(log: map<nat, seq<WriteOp>>, low: nat, chain: seq<Content>, n: nat)
    requires n < |chain|
    ensures Logged(log, low, [n], chain)
  {
  }

  lemma {:induction false} FlattenLayers(sessions: seq<seq<WriteOp>>, chain: seq<Content>, sea: nat, n: nat)
    requires 1 <= sea && sea + n <= |chain| && n <= |sessions| && Layered(sessions, chain, sea)
    ensures Apply(chain[sea - 1], Flatten(sessions[..n])) == chain[sea + n - 1]
  {
    if n > 0 {
      FlattenLayers(sessions, chain, sea, n - 1);
      assert sessions[..n][..n - 1] == sessions[..n - 1];
      ApplyConcat(chain[sea - 1], Flatten(sessions[..n - 1]), sessions[n - 1]);
      assert sea + (n - 1) < |chain|;
    }
  }

  // ----- reverting -----

  lemma {:induction false} UndoIsSnapshot(log: map<nat, seq<WriteOp>>, low: nat, marks: seq<nat>, chain: seq<Content>,
                                          from: nat, to: nat)
    requires Logged(log, low, marks, chain) && to <= from < |marks|
    ensures Undo(chain[marks[from]], log, low + from, low + to) == chain[marks[to]]
    decreases from - to
  {
    hide Apply;
    if from != to {
      UndoIsSnapshot(log, low, marks, chain, from - 1, to);
      assert LeadsBack(log, low, marks, chain, from - 1);
    }
  }

  lemma LoggedCut(log: map<nat, seq<WriteOp>>, low: nat, marks: seq<nat>, chain: seq<Content>, b: nat, n: nat)
    requires Logged(log, low, marks, chain) && Rising(marks) && b < |marks| && marks[b] < n <= |chain|
    ensures Logged(map i | i in log && i < low + b :: log[i], low, marks[..b + 1], chain[..n])
    ensures Logged(log, low, marks[..b + 1], chain[..n])
  {
    hide Apply;
    var kept, rest := map i | i in log && i < low + b :: log[i], marks[..b + 1];
    assert forall j :: 0 <= j < |rest| ==> rest[j] == marks[j] && (j < b ==> marks[j] < marks[b]);
    forall j | 0 <= j < |rest| - 1
      ensures LeadsBack(kept, low, rest, chain[..n], j) && LeadsBack(log, low, rest, chain[..n], j)
    {
      assert LeadsBack(log, low, marks, chain, j);
    }
  }

  lemma SteadyCut(chain: seq<Content>, marks: seq<nat>, sea: nat, b: nat, n: nat)
    requires n <= sea <= |chain| && b < |marks| && Rising(marks) && Steady(chain, marks, sea)
    requires b + 1 < |marks| ==> n <= marks[b + 1]
    ensures Steady(chain[..n], marks[..b + 1], n)
  {
    forall k | marks[0] < k < n && k in marks
      ensures k in marks[..b + 1]
    {
      var i :| 0 <= i < |marks| && marks[i] == k;
      assert i <= b;
      assert marks[..b + 1][i] == k;
    }
  }

  lemma NothingInMemory(sessions: seq<seq<WriteOp>>, tags: map<Tag, nat>, chain: seq<Content>, sea: nat, n: nat)
    requires sessions == [] && Named(tags, sea, sea) && 1 <= n <= |chain|
    ensures Layered(sessions, chain[..n], n) && Named(tags, n, n)
  {
  }

  /** Reverting a block in the store, with nothing left in memory, to the block before it,
      which has a revision. */
  lemma RevertSound(db: Db, chain: seq<Content>, marks: seq<nat>, sea: nat, b: nat)
    requires Sound(db, chain, marks, sea, sea) && sea == |chain| && b < |marks|
    ensures var n := marks[b] + 1;
            var (d, ok) := RevertToTag(db, TagOf(marks[b]));
            ok && Sound(d, chain[..n], marks[..b + 1], n, n)
  {
    hide Apply, CleanTags, Undo, Logged, Layered, Named, Steady, Tagged, TagOf, Rising;
    var low, n := Low(db, marks), marks[b] + 1;
    TagAt(db.tagRev, db.revTag, low, marks, b);
    RisingCut(marks, b);
    NothingInMemory(db.sessions, db.tags, chain, sea, n);
    LoggedCut(db.log, low, marks, chain, b, n);
    SteadyCut(chain, marks, sea, b, n);
    SteadyAbove(chain, marks, sea, sea - 1);
    UndoIsSnapshot(db.log, low, marks, chain, |marks| - 1, b);
    var d := db.(content := Undo(db.content, db.log, db.current, low + b), current := low + b,
                 log := map i | i in db.log && i < low + b :: db.log[i]);
    CleanTagged(d, low, marks, 0, b + 1);
    if b == |marks| - 1 {
      assert marks[..b + 1] == marks;
    }
  }

  /** No block from `n` on in the store wrote, nor the one before: there is nothing to undo. */
  lemma NothingToRevert(db: Db, chain: seq<Content>, marks: seq<nat>, sea: nat, n: nat)
    requires Sound(db, chain, marks, sea, sea) && sea == |chain| && marks[|marks| - 1] < n - 1 < sea
    ensures RevertToTag(db, TagOf(n - 1)) == (db, false)
    ensures Sound(db, chain[..n], marks, n, n)
  {
    hide Apply, Layered, Named;
    Untagged(db.tagRev, db.revTag, Low(db, marks), marks, n - 1);
    NothingInMemory(db.sessions, db.tags, chain, sea, n);
    LoggedCut(db.log, Low(db, marks), marks, chain, |marks| - 1, n);
    SteadyCut(chain, marks, sea, |marks| - 1, n);
    SteadyAbove(chain, marks, sea, sea - 1);
    SteadyAbove(chain, marks, sea, n - 1);
    assert marks[..|marks|] == marks;
  }

  /** Some later block wrote and the one before did not: its snapshot cannot be found. */
  lemma RevertFails(db: Db, chain: seq<Content>, marks: seq<nat>, sea: nat, n: nat)
    requires Sound(db, chain, marks, sea, sea) && 0 < n && n - 1 !in marks
    ensures RevertToTag(db, TagOf(n - 1)) == (db, false)
  {
    hide Apply, Layered, Named, Logged, Steady;
    Untagged(db.tagRev, db.revTag, Low(db, marks), marks, n - 1);
  }

  /** The blocks with a revision below block `n`. */
  function Before(marks: seq<nat>, n: nat): seq<nat> {
    if marks == [] || marks[|marks| - 1] < n then marks else Before(marks[..|marks| - 1], n)
  }

  lemma {:induction false} BeforeIs(marks: seq<nat>, n: nat, b: nat)
    requires Rising(marks) && b < |marks| && marks[b] == n - 1
    ensures Before(marks, n) == marks[..b + 1]
  {
    if b == |marks| - 1 {
      assert marks[..b + 1] == marks;
    } else {
      assert marks[b] < marks[|marks| - 1];
      BeforeIs(marks[..|marks| - 1], n, b);
      assert marks[..|marks| - 1][..b + 1] == marks[..b + 1];
    }
  }

  /** What is left in the store once everything in memory is dropped. */
  function Dropped(db: Db, sea: nat, next: nat): Db {
    if sea < next then RollbackTag(db, BlockTag(sea)).0 else db
  }

  lemma DroppedSound(db: Db, chain: seq<Content>, marks: seq<nat>, sea: nat, next: nat)
    requires Sound(db, chain, marks, sea, next) && next == |chain|
    ensures Sound(Dropped(db, sea, next), chain[..sea], marks, sea, sea)
  {
    hide RollbackTag, Logged, Tagged, Layered, Named, Steady;
    if sea < next {
      RollbackSound(db, chain, marks, sea, next, sea);
    } else {
      assert chain[..sea] == chain;
    }
  }

  /** Reverting a block in the store: first everything in memory is dropped. */
  lemma RevertThrough(db: Db, chain: seq<Content>, marks: seq<nat>, sea: nat, next: nat, n: nat)
    requires Sound(db, chain, marks, sea, next) && next == |chain| && 0 < n < sea
    requires n - 1 in marks || marks[|marks| - 1] < n
    ensures Sound(RevertToTag(Dropped(db, sea, next), TagOf(n - 1)).0, chain[..n], Before(marks, n), n, n)
  {
    hide RollbackTag, RevertToTag, Logged, Tagged, Layered, Named, Steady;
    var d := Dropped(db, sea, next);
    DroppedSound(db, chain, marks, sea, next);
    assert chain[..sea][..n] == chain[..n];
    if n - 1 in marks {
      var b :| 0 <= b < |marks| && marks[b] == n - 1;
      BeforeIs(marks, n, b);
      RevertSound(d, chain[..sea], marks, sea, b);
    } else {
      assert marks[|marks| - 1] != n - 1;
      NothingToRevert(d, chain[..sea], marks, sea, n);
    }
  }

  lemma RevertStaysPut(db: Db, chain: seq<Content>, marks: seq<nat>, sea: nat, next: nat, n: nat)
    requires Sound(db, chain, marks, sea, next) && next == |chain| && 0 < n < sea && n - 1 !in marks
    ensures var d := RevertToTag(Dropped(db, sea, next), TagOf(n - 1)).0;
            View(d) == chain[sea - 1]
  {
    hide RollbackTag, RevertToTag, Logged, Tagged, Layered, Named, Steady, View;
    var d := Dropped(db, sea, next);
    DroppedSound(db, chain, marks, sea, next);
    RevertFails(d, chain[..sea], marks, sea, n);
    ViewIsLatest(d, chain[..sea], marks, sea, sea);
  }

  /** Reopening the database: what was in memory is gone, and so are the last blocks in the
      store that wrote nothing. */
  lemma ReopenSound(db: Db, chain: seq<Content>, marks: seq<nat>, sea: nat, next: nat)
    requires Sound(db, chain, marks, sea, next)
    ensures var n := marks[|marks| - 1] + 1;
            n <= sea && chain[n - 1] == chain[sea - 1] && Sound(Reopen(db), chain[..n], marks, n, n)
  {
    hide Apply;
    var n := marks[|marks| - 1] + 1;
    SteadyAbove(chain, marks, sea, sea - 1);
    SteadyCut(chain, marks, sea, |marks| - 1, n);
    LoggedCut(db.log, Low(db, marks), marks, chain, |marks| - 1, n);
    assert marks[..|marks|] == marks;
  }

  // ----- the first start -----

  lemma {:induction false} WriteAllShape(db: Db, ops: seq<WriteOp>)
    requires db.sessions == [[]]
    ensures WriteAll(db, ops) == db.(sessions := [ops])
  {
    if ops != [] {
      WriteAllShape(db, ops[..|ops| - 1]);
      assert ops == ops[..|ops| - 1] + [ops[|ops| - 1]];
    }
  }

  /** The store the chain starts from stands for the genesis state alone: its rows are one
      revision, which is tagged, above an empty one, which is not. */
  lemma OpenNewSound(ops: seq<WriteOp>)
    ensures Sound(OpenNew(ops), [Apply(map[], ops)], [0], 1, 1)
    ensures ops != [] ==> OpenNew(ops).base < Low(OpenNew(ops), [0])
  {
    hide Apply, Reverts, Shrink, Issue, WriteAll, TagRevision, WriteBatch;
    var b := BeginTransaction(EMPTY_DB);
    assert b.sessions == [[]];
    WriteAllShape(b, ops);
    var d := Commit(WriteAll(b, ops)).0;
    if ops == [] {
      EmptyBatch(b.(sessions := [ops]));
      assert Apply(map[], []) == map[] by { ApplyNothing(map[]); }
    } else {
      FirstBatch(b.(sessions := [ops]), ops);
    }
    FirstTag(d);
    var t := TagRevision(d, d.current, GenesisTag);
    LoggedOne(t.log, d.current, [Apply(map[], ops)], 0);
  }

  lemma FirstBatch(db: Db, ops: seq<WriteOp>)
    requires db.reversible && ops != [] && db.preset == NoTag
    ensures WriteBatch(db, ops) == db.(content := Apply(db.content, ops), current := db.current + 1,
                                       log := db.log[db.current := Reverts(db.content, Shrink(ops))])
  {
    hide Apply, Issue, Reverts, Shrink;
    ShrinkNonEmpty(ops);
    BatchExact(db.content, ops);
  }

  lemma FirstTag(db: Db)
    requires db.tagRev == map[] && db.revTag == map[]
    ensures var d := TagRevision(db, db.current, GenesisTag);
            d == db.(tagRev := d.tagRev, revTag := d.revTag) && Tagged(d.tagRev, d.revTag, db.current, [0])
  {
    assert [0][0] == 0;
  }
}
