/** The block iceberg: recent blocks in memory, older ones in the reversible store. */
module BlockIceberg {
  import opened Options
  import opened Storage
  import opened Database
  import opened IcebergInvariant

  const HIGH_WATERMARK: nat := 128
  const LOW_WATERMARK: nat := 127

  const APPLY_HASH_KEY: Key := "__latest_block_apply_checksum__"

  /** The blocks that wrote nothing: in memory their session is empty, and in the store, above
      the finalized block, they have no revision. */
  ghost predicate IdleOf(idle: set<nat>, sessions: seq<seq<WriteOp>>, marks: seq<nat>, finalized: nat, sea: nat, height: nat) {
    && (forall n :: n in idle ==> n < height)
    && (forall n :: finalized < n < sea ==> (n in marks <==> n !in idle))
    && (forall i :: 0 <= i < |sessions| && sea + i < height ==> (sessions[i] == [] <==> sea + i in idle))
  }

  /** The database stands for the chain, and `idle` for its blocks that wrote nothing.  Of a
      finalized block without a revision the store does not know. */
  ghost predicate Stands(db: Db, chain: seq<Content>, marks: seq<nat>, idle: set<nat>, finalized: nat, sea: nat, next: nat) {
    && Sound(db, chain, marks, sea, next) && IdleOf(idle, db.sessions, marks, finalized, sea, |chain|)
    && marks[0] <= finalized < sea && (finalized in marks ==> marks[0] == finalized)
  }

  function Under(blocks: set<nat>, n: nat): set<nat> {
    set k | k in blocks && k < n
  }

  class BlockIceberg {
    var db: Db
    var inProgress: bool
    var next: nat
    var hasFinalized: bool
    var finalized: nat
    var seaLevel: nat
    var lastApplyHash: Option<Value>
    const enableApplyHash: bool

    /** The snapshots: `chain[n]` is the content after block `n`; the blocks that have a
        revision in the store; and those that wrote nothing. */
    ghost var chain: seq<Content>
    ghost var marks: seq<nat>
    ghost var idle: set<nat>

    ghost predicate Valid()
      reads this
    {
      && Stands(db, chain, marks, idle, finalized, seaLevel, next)
      && inProgress == (next == |chain| + 1)
      && hasFinalized == (finalized > 0)
      && next - seaLevel <= LOW_WATERMARK
      && (enableApplyHash ==> lastApplyHash == Lookup(chain[|chain| - 1], APPLY_HASH_KEY))
    }

    /** What readers of the database see. */
    function Content(): Content
      reads this
    {
      View(db)
    }

    /** `NewBlockIceberg`: the chain is cut at what the store holds. */
    constructor (stored: Db, enableApplyHash: bool, ghost history: seq<Content>, ghost kept: seq<nat>)
      requires Sound(stored, history, kept, |history|, |history|) && kept[|kept| - 1] == |history| - 1
      ensures Valid() && !inProgress && chain == history && marks == kept && finalized == kept[0]
      ensures next == seaLevel == |history| && db == stored && this.enableApplyHash == enableApplyHash
      ensures forall n :: n in idle <==> finalized < n < |history| && n !in kept
    {
      var latest := if stored.current in stored.revTag then stored.revTag[stored.current] else NoTag;
      var oldest := if stored.base in stored.revTag then stored.revTag[stored.base] else NoTag;
      var head := if latest.BlockTag? then latest.num else 0;
      EndTags(stored, history, kept, |history|, |history|);
      db := stored;
      inProgress := false;
      next := head + 1;
      hasFinalized := oldest.BlockTag?;
      finalized := if oldest.BlockTag? then oldest.num else 0;
      seaLevel := head + 1;
      lastApplyHash := Lookup(View(stored), APPLY_HASH_KEY);
      this.enableApplyHash := enableApplyHash;
      chain := history;
      marks := kept;
      idle := set n | kept[0] < n < |history| && n !in kept;
      ViewIsLatest(stored, history, kept, |history|, |history|);
    }

    /** Readers see the latest snapshot between blocks. */
    lemma SeesLatest()
      requires Valid() && !inProgress
      ensures Content() == chain[|chain| - 1] && |chain| == next
    {
      hide Sound, View, IdleOf;
      ViewIsLatest(db, chain, marks, seaLevel, next);
      SoundBounds(db, chain, marks, seaLevel, next);
    }

    method BeginBlock(num: nat) returns (ok: bool)
      requires Valid()
      modifies this
      ensures Valid() && chain == old(chain) && finalized == old(finalized) && idle == old(idle)
      ensures ok == (num != 0 && !old(inProgress) && num == old(next))
      ensures ok ==> inProgress && next == old(next) + 1 && Content() == old(Content())
      ensures ok ==> Unwritten()
      ensures ok ==> seaLevel == if next - old(seaLevel) >= 128 then next - 127 else old(seaLevel)
      ensures !ok ==> unchanged(this)
    {
      hide Stands, View;
      if num == 0 || inProgress || next != num {
        return false;
      }
      StandsBounds(db, chain, marks, idle, finalized, seaLevel, next);
      SeesLatest();
      inProgress := true;
      next := next + 1;
      if next - seaLevel >= HIGH_WATERMARK {
        Sink(next - seaLevel - LOW_WATERMARK);
      }
      BeginStands(db, chain, marks, idle, finalized, seaLevel, num);
      db := BeginTransactionWithTag(db, BlockTag(num));
      return true;
    }

    /** Moves the oldest blocks in memory into the store, while the next one is about to begin. */
    method Sink(blocks: nat)
      requires next == |chain| + 1 && seaLevel + blocks < next
      requires Stands(db, chain, marks, idle, finalized, seaLevel, next - 1)
      modifies this`db, this`seaLevel, this`marks
      ensures seaLevel == old(seaLevel) + blocks
      ensures Stands(db, chain, marks, idle, finalized, seaLevel, next - 1)
    {
      hide Stands, Squash;
      var num, left: nat := seaLevel, blocks;
      while left > 0
        invariant seaLevel == num == old(seaLevel) + blocks - left && left <= blocks
        invariant Stands(db, chain, marks, idle, finalized, seaLevel, next - 1)
      {
        SinkStands(db, chain, marks, idle, finalized, seaLevel, next - 1);
        var (d, squashed) := Squash(db, BlockTag(num));
        marks := Sunk(marks, seaLevel, db.sessions[0]);
        db := d;
        seaLevel := seaLevel + 1;
        num := num + 1;
        left := left - 1;
      }
    }

    /** One write of the block in progress. */
    method WriteRow(op: WriteOp)
      requires Valid() && inProgress
      modifies this`db
      ensures Valid() && Content() == Write(old(Content()), op) && !Unwritten()
    {
      hide Stands, View, Write, WriteFront;
      StandsBounds(db, chain, marks, idle, finalized, seaLevel, next);
      WriteStands(db, chain, marks, idle, finalized, seaLevel, next, op);
      db := WriteFront(db, op);
    }

    /** The block in progress has written nothing yet. */
    predicate Unwritten()
      reads this
    {
      db.sessions != [] && db.sessions[|db.sessions| - 1] == []
    }

    method CommitBlock(applyHash: Value)
      requires Valid() && inProgress
      modifies this`db, this`lastApplyHash, this`chain, this`idle
      ensures Stands(db, chain, marks, idle, finalized, seaLevel, next) && chain != [] && |chain| == |old(chain)| + 1
      ensures enableApplyHash ==> lastApplyHash == Lookup(chain[|chain| - 1], APPLY_HASH_KEY)
      ensures chain == old(chain) + [if enableApplyHash then old(Content())[APPLY_HASH_KEY := applyHash]
                                     else old(Content())]
      ensures idle == if !enableApplyHash && old(Unwritten()) then old(idle) + {|old(chain)|} else old(idle)
    {
      hide Stands, View;
      if enableApplyHash {
        WriteRow(Put(APPLY_HASH_KEY, applyHash));
        lastApplyHash := Some(applyHash);
      }
      EndStands(db, chain, marks, idle, finalized, seaLevel, next);
      if Unwritten() {
        idle := idle + {|chain|};
      }
      chain := chain + [Content()];
    }

    /** A committed block is the next snapshot, a discarded one never was. */
    method EndBlock(commit: bool, applyHash: Value) returns (ok: bool)
      requires Valid()
      modifies this
      ensures Valid() && finalized == old(finalized) && seaLevel == old(seaLevel)
      ensures ok == old(inProgress)
      ensures !ok ==> unchanged(this)
      ensures ok ==> !inProgress && Content() == chain[|chain| - 1]
      ensures ok && !commit ==> chain == old(chain) && idle == old(idle)
      ensures ok && commit ==>
                && chain == old(chain) + [if enableApplyHash then old(Content())[APPLY_HASH_KEY := applyHash]
                                          else old(Content())]
                && idle == if !enableApplyHash && old(Unwritten()) then old(idle) + {|old(chain)|} else old(idle)
    {
      hide Stands, View, Discard;
      if !inProgress {
        return false;
      }
      StandsBounds(db, chain, marks, idle, finalized, seaLevel, next);
      if !commit {
        DiscardStands(db, chain, marks, idle, finalized, seaLevel, next);
        var (d, discarded) := Discard(db);
        db := d;
        next := next - 1;
      } else {
        CommitBlock(applyHash);
      }
      inProgress := false;
      SeesLatest();
      return true;
    }

    /** Block `num` is in memory; or the one before it has a revision; or no block from it on
        that is in the store wrote anything. */
    ghost predicate Reaches(num: nat)
      requires num > 0
      reads this
    {
      num >= seaLevel || TagOf(num - 1) in db.tagRev || forall n :: num <= n < seaLevel ==> n in idle
    }

    /** The part of `RevertBlock` that goes down to the store. */
    method RevertInStore(num: nat)
      requires Valid() && !inProgress && finalized < num < seaLevel && |chain| == next
      modifies this`db, this`marks, this`seaLevel
      ensures seaLevel == num
      ensures if old(Reaches(num)) then Stands(db, chain[..num], marks, Under(idle, num), finalized, num, num)
              else Content() == chain[old(seaLevel) - 1]
                   && !Stands(db, chain[..num], marks, Under(idle, num), finalized, num, num)
    {
      hide Stands, View, RollbackTag, RevertToTag, Before;
      ghost var reaches := Reaches(num);
      if reaches {
        RevertStands(db, chain, marks, idle, finalized, seaLevel, next, num);
      } else {
        RevertMisses(db, chain, marks, idle, finalized, seaLevel, next, num);
      }
      if seaLevel < next {
        var (d, rolledBack) := RollbackTag(db, BlockTag(seaLevel));
        db := d;
      }
      if num > 1 {
        var (d, reverted) := RevertToTag(db, BlockTag(num - 1));
        db := d;
      } else {
        var (d, reverted) := RevertToTag(db, GenesisTag);
        db := d;
      }
      if reaches {
        marks := Before(marks, num);
      }
      seaLevel := num;
    }

    /** Reverting block `num` restores exactly the content before it began if it reaches it;
        otherwise the store stays where it is, and the iceberg no longer stands for its
        chain. */
    method RevertBlock(num: nat) returns (ok: bool)
      requires Valid()
      modifies this
      ensures finalized == old(finalized)
      ensures ok == (old(finalized) < num < old(next) && !old(inProgress))
      ensures !ok ==> unchanged(this)
      ensures ok ==> chain == old(chain)[..num] && next == num && !inProgress && num > 0
      ensures Valid() <==> (ok ==> old(Reaches(num)))
      ensures ok ==> 0 < old(seaLevel) <= |old(chain)| && num < |old(chain)|
      ensures ok ==> Content() == old(chain)[if old(Reaches(num)) then num - 1 else old(seaLevel) - 1]
    {
      hide Stands, View, RollbackTag, RevertToTag, Before;
      StandsBounds(db, chain, marks, idle, finalized, seaLevel, next);
      if num == 0 || inProgress || (hasFinalized && finalized >= num) || next <= num {
        return false;
      }
      ghost var reaches := Reaches(num);
      if num >= seaLevel {
        RollbackStands(db, chain, marks, idle, finalized, seaLevel, next, num);
        var (d, rolledBack) := RollbackTag(db, BlockTag(num));
        db := d;
      } else {
        RevertInStore(num);
      }
      chain := chain[..num];
      idle := Under(idle, num);
      next := num;
      if reaches {
        StandsBounds(db, chain, marks, idle, finalized, seaLevel, next);
        StandsView(db, chain, marks, idle, finalized, seaLevel, next);
      }
      if enableApplyHash {
        lastApplyHash := Lookup(View(db), APPLY_HASH_KEY);
      }
      return true;
    }

    /** Above the finalized block, a block in the store has a revision exactly when it wrote
        something. */
    lemma TagIff(n: nat)
      requires Valid() && finalized < n < seaLevel
      ensures TagOf(n) in db.tagRev <==> n !in idle
    {
      hide Sound;
      SoundTags(db, chain, marks, seaLevel, next, n);
    }

    /** Finalizing changes no snapshot; it only forbids to revert it.  A block in the store
        without a revision is not found there. */
    method FinalizeBlock(num: nat) returns (ok: bool)
      requires Valid()
      modifies this
      ensures Valid() && chain == old(chain) && next == old(next) && inProgress == old(inProgress) && idle == old(idle)
      ensures ok == (num != 0 && (num <= old(finalized) || num < |chain|))
      ensures Content() == old(Content())
      ensures finalized == if ok && num > old(finalized) then num else old(finalized)
      ensures seaLevel == if ok && num >= old(seaLevel) then num + 1 else old(seaLevel)
      ensures ok && old(finalized) < num < old(seaLevel) ==> (TagOf(num) in db.tagRev <==> num !in idle)
    {
      hide Stands, View, RebaseToTag, EnableReversion, Squash, Flatten, From, Settled;
      StandsBounds(db, chain, marks, idle, finalized, seaLevel, next);
      if num == 0 {
        return false;
      }
      if hasFinalized && finalized >= num {
        return true;
      }
      var n := next;
      if n > 0 {
        n := n - 1;
      }
      if n > 0 && inProgress {
        n := n - 1;
      }
      if n < num {
        return false;
      }
      if num < seaLevel {
        RebaseStands(db, chain, marks, idle, finalized, seaLevel, next, num);
        var (d, rebased) := RebaseToTag(db, BlockTag(num));
        db := d;
        marks := From(marks, num);
      } else {
        FinalizeStands(db, chain, marks, idle, finalized, seaLevel, next, num);
        var (d1, off) := EnableReversion(db, false);
        var (d2, squashed) := Squash(d1, BlockTag(num));
        var (d3, on) := EnableReversion(d2, true);
        marks := Settled(marks, num, Flatten(db.sessions[..num - seaLevel + 1]));
        db := d3;
        seaLevel := num + 1;
      }
      hasFinalized, finalized := true, num;
      return true;
    }
  }

  // ----- the blocks that wrote nothing -----

  lemma IdleBegins(idle: set<nat>, sessions: seq<seq<WriteOp>>, marks: seq<nat>, finalized: nat, sea: nat, height: nat)
    requires IdleOf(idle, sessions, marks, finalized, sea, height) && sea + |sessions| == height
    ensures IdleOf(idle, sessions + [[]], marks, finalized, sea, height)
  {
  }

  lemma IdleSinks(idle: set<nat>, sessions: seq<seq<WriteOp>>, marks: seq<nat>, finalized: nat, sea: nat, height: nat)
    requires IdleOf(idle, sessions, marks, finalized, sea, height) && sessions != [] && sea < height
    requires marks != [] && marks[0] <= finalized < sea && (forall m :: m in marks ==> m < sea)
    ensures var now := Sunk(marks, sea, sessions[0]);
            && IdleOf(idle, sessions[1..], now, finalized, sea + 1, height)
            && now != [] && now[0] == marks[0] && (finalized in now <==> finalized in marks)
  {
    var now := Sunk(marks, sea, sessions[0]);
    assert sea + 0 < height;
    forall i | 0 <= i < |sessions[1..]| && sea + 1 + i < height
      ensures sessions[1..][i] == [] <==> sea + 1 + i in idle
    {
      assert sessions[1..][i] == sessions[i + 1] && sea + (i + 1) < height;
    }
  }

  lemma IdleDiscards(idle: set<nat>, sessions: seq<seq<WriteOp>>, marks: seq<nat>, finalized: nat, sea: nat, height: nat)
    requires IdleOf(idle, sessions, marks, finalized, sea, height) && sessions != [] && sea + |sessions| == height + 1
    ensures IdleOf(idle, sessions[..|sessions| - 1], marks, finalized, sea, height)
  {
  }

  lemma IdleEnds(idle: set<nat>, sessions: seq<seq<WriteOp>>, marks: seq<nat>, finalized: nat, sea: nat, height: nat)
    requires IdleOf(idle, sessions, marks, finalized, sea, height) && sessions != [] && sea + |sessions| == height + 1
    requires sea <= height
    ensures IdleOf(if sessions[|sessions| - 1] == [] then idle + {height} else idle, sessions, marks, finalized, sea,
                   height + 1)
  {
  }

  lemma IdleRollsBack(idle: set<nat>, sessions: seq<seq<WriteOp>>, marks: seq<nat>, finalized: nat, sea: nat, height: nat,
                      n: nat)
    requires IdleOf(idle, sessions, marks, finalized, sea, height) && sea <= n < height && n - sea <= |sessions|
    ensures IdleOf(Under(idle, n), sessions[..n - sea], marks, finalized, sea, n)
  {
  }

  lemma IdleReverts(idle: set<nat>, sessions: seq<seq<WriteOp>>, marks: seq<nat>, finalized: nat, sea: nat, height: nat,
                    n: nat)
    requires IdleOf(idle, sessions, marks, finalized, sea, height) && finalized < n < sea && Rising(marks)
    ensures IdleOf(Under(idle, n), [], Before(marks, n), finalized, n, n)
  {
    forall k | finalized < k < n
      ensures k in Before(marks, n) <==> k in marks
    {
      BeforeHas(marks, n, k);
    }
  }

  lemma {:induction false} BeforeHas(marks: seq<nat>, n: nat, k: nat)
    requires Rising(marks)
    ensures k in Before(marks, n) <==> k in marks && k < n
  {
    if marks != [] && marks[|marks| - 1] >= n {
      BeforeHas(marks[..|marks| - 1], n, k);
      assert marks == marks[..|marks| - 1] + [marks[|marks| - 1]];
    }
  }

  /** The oldest revision stays. */
  lemma {:induction false} BeforeFacts(marks: seq<nat>, n: nat, finalized: nat)
    requires Rising(marks) && marks != [] && marks[0] <= finalized < n && (finalized in marks ==> marks[0] == finalized)
    ensures var b := Before(marks, n);
            b != [] && b[0] == marks[0] && (finalized in b ==> b[0] == finalized)
  {
    if marks[|marks| - 1] >= n {
      BeforeFacts(marks[..|marks| - 1], n, finalized);
    }
  }

  lemma IdleSettles(idle: set<nat>, sessions: seq<seq<WriteOp>>, marks: seq<nat>, finalized: nat, sea: nat, height: nat,
                    n: nat, kept: seq<nat>)
    requires IdleOf(idle, sessions, marks, finalized, sea, height) && sea <= n < height && n - sea < |sessions|
    ensures IdleOf(idle, sessions[n - sea + 1..], kept, n, n + 1, height)
  {
    var rest := sessions[n - sea + 1..];
    forall i | 0 <= i < |rest| && n + 1 + i < height
      ensures rest[i] == [] <==> n + 1 + i in idle
    {
      assert rest[i] == sessions[n - sea + 1 + i] && sea + (n - sea + 1 + i) < height;
    }
  }

  // ----- what the database calls do to the sessions -----

  lemma SquashSessions(db: Db, chain: seq<Content>, marks: seq<nat>, sea: nat, next: nat, n: nat)
    requires Sound(db, chain, marks, sea, next) && sea <= n < next
    ensures Squash(db, BlockTag(n)).0.sessions == db.sessions[n - sea + 1..]
    ensures forall m :: m in marks ==> m < sea
  {
    hide WriteBatch, Logged, Tagged, Layered, Steady, Apply, Flatten;
  }

  lemma DiscardSessions(db: Db)
    requires db.sessions != []
    ensures Discard(db).0.sessions == db.sessions[..|db.sessions| - 1]
  {
  }

  lemma RollbackSessions(db: Db, chain: seq<Content>, marks: seq<nat>, sea: nat, next: nat, n: nat)
    requires Sound(db, chain, marks, sea, next) && sea <= n < next
    ensures RollbackTag(db, BlockTag(n)).0.sessions == db.sessions[..n - sea] && n - sea <= |db.sessions|
  {
    hide Logged, Tagged, Layered, Steady, Apply, Rising;
  }

  lemma NoSessions(db: Db, chain: seq<Content>, marks: seq<nat>, sea: nat, next: nat)
    requires Sound(db, chain, marks, sea, next)
    ensures sea == next ==> db.sessions == []
  {
    hide Logged, Tagged, Layered, Steady, Apply, Rising, Named;
  }

  lemma MarksAbove(db: Db, chain: seq<Content>, marks: seq<nat>, sea: nat, next: nat)
    requires marks != [] && marks[|marks| - 1] >= sea
    ensures !Sound(db, chain, marks, sea, next)
  {
  }

  lemma RebaseSessions(db: Db, n: nat)
    ensures RebaseToTag(db, BlockTag(n)).0.sessions == db.sessions
  {
  }

  lemma FinalizeSessions(db: Db, chain: seq<Content>, marks: seq<nat>, sea: nat, next: nat, n: nat)
    requires Sound(db, chain, marks, sea, next) && sea <= n < next
    ensures EnableReversion(Squash(EnableReversion(db, false).0, BlockTag(n)).0, true).0.sessions
            == db.sessions[n - sea + 1..]
  {
    hide WriteBatch, Logged, Tagged, Layered, Steady, Apply, Flatten, CleanTags, Rising;
    DisableSessions(db);
    var d := EnableReversion(db, false).0;
    SquashShape(d, sea, next, n - sea);
    DisableSessions(Squash(d, BlockTag(n)).0);
  }

  lemma DisableSessions(db: Db)
    ensures EnableReversion(db, false).0.sessions == db.sessions && EnableReversion(db, false).0.tags == db.tags
    ensures EnableReversion(db, true).0.sessions == db.sessions
  {
  }

  /** The tags of the oldest and the latest revision. */
  lemma EndTags(db: Db, chain: seq<Content>, marks: seq<nat>, sea: nat, next: nat)
    requires Sound(db, chain, marks, sea, next)
    ensures db.current in db.revTag && db.revTag[db.current] == TagOf(marks[|marks| - 1])
    ensures db.base in db.revTag ==> db.revTag[db.base] == TagOf(marks[0])
    ensures db.base !in db.revTag ==> marks[0] == 0
  {
    hide Logged, Layered, Steady, Apply, Rising, Named;
    var low := Low(db, marks);
    assert db.revTag[low + (|marks| - 1)] == TagOf(marks[|marks| - 1]);
    assert db.revTag[low + 0] == TagOf(marks[0]);
  }

  /** The revisions from that of block `n` on, or all of them when it has none. */
  function From(marks: seq<nat>, n: nat): seq<nat> {
    if n !in marks || marks[0] == n then marks else From(marks[1..], n)
  }

  lemma {:induction false} FromIs(marks: seq<nat>, a: nat)
    requires Rising(marks) && a < |marks|
    ensures From(marks, marks[a]) == marks[a..]
  {
    if a > 0 {
      assert marks[0] < marks[a] && marks[1..][a - 1] == marks[a];
      FromIs(marks[1..], a - 1);
    }
  }

  lemma FromNone(marks: seq<nat>, n: nat)
    requires n !in marks
    ensures From(marks, n) == marks
  {
  }

  // ----- every step -----

  lemma StandsBounds(db: Db, chain: seq<Content>, marks: seq<nat>, idle: set<nat>, finalized: nat, sea: nat, next: nat)
    requires Stands(db, chain, marks, idle, finalized, sea, next)
    ensures marks != [] && finalized < sea <= |chain| <= next <= |chain| + 1 && |db.sessions| == next - sea
  {
    hide IdleOf;
    SoundBounds(db, chain, marks, sea, next);
  }

  lemma StandsView(db: Db, chain: seq<Content>, marks: seq<nat>, idle: set<nat>, finalized: nat, sea: nat, next: nat)
    requires Stands(db, chain, marks, idle, finalized, sea, next)
    ensures next == |chain| && chain != [] ==> View(db) == chain[|chain| - 1]
  {
    hide IdleOf, View, Sound;
    ViewIsLatest(db, chain, marks, sea, next);
    SoundBounds(db, chain, marks, sea, next);
  }

  lemma BeginStands(db: Db, chain: seq<Content>, marks: seq<nat>, idle: set<nat>, finalized: nat, sea: nat, next: nat)
    requires Stands(db, chain, marks, idle, finalized, sea, next) && next == |chain|
    ensures var d := BeginTransactionWithTag(db, BlockTag(next));
            Stands(d, chain, marks, idle, finalized, sea, next + 1) && View(d) == View(db)
    ensures View(db) == chain[|chain| - 1]
  {
    hide IdleOf, View, Sound;
    SoundBounds(db, chain, marks, sea, next);
    ViewIsLatest(db, chain, marks, sea, next);
    BeginSound(db, chain, marks, sea, next);
    IdleBegins(idle, db.sessions, marks, finalized, sea, |chain|);
  }

  lemma SinkStands(db: Db, chain: seq<Content>, marks: seq<nat>, idle: set<nat>, finalized: nat, sea: nat, next: nat)
    requires Stands(db, chain, marks, idle, finalized, sea, next) && sea < |chain|
    ensures db.sessions != [] && Squash(db, BlockTag(sea)).1
    ensures Stands(Squash(db, BlockTag(sea)).0, chain, Sunk(marks, sea, db.sessions[0]), idle, finalized, sea + 1, next)
  {
    hide IdleOf, Sound, Squash;
    SoundBounds(db, chain, marks, sea, next);
    SinkSound(db, chain, marks, sea, next);
    SquashSessions(db, chain, marks, sea, next, sea);
    IdleSinks(idle, db.sessions, marks, finalized, sea, |chain|);
  }

  lemma WriteStands(db: Db, chain: seq<Content>, marks: seq<nat>, idle: set<nat>, finalized: nat, sea: nat, next: nat,
                    op: WriteOp)
    requires Stands(db, chain, marks, idle, finalized, sea, next) && next == |chain| + 1
    ensures var d := WriteFront(db, op);
            && Stands(d, chain, marks, idle, finalized, sea, next) && View(d) == Write(View(db), op)
            && d.sessions != [] && d.sessions[|d.sessions| - 1] != []
  {
    hide Sound, View, Write;
    SoundBounds(db, chain, marks, sea, next);
    WriteSound(db, chain, marks, sea, next, op);
  }

  lemma DiscardStands(db: Db, chain: seq<Content>, marks: seq<nat>, idle: set<nat>, finalized: nat, sea: nat, next: nat)
    requires Stands(db, chain, marks, idle, finalized, sea, next) && next == |chain| + 1
    ensures Stands(Discard(db).0, chain, marks, idle, finalized, sea, next - 1)
  {
    hide IdleOf, Sound, Discard;
    SoundBounds(db, chain, marks, sea, next);
    DiscardSound(db, chain, marks, sea, next);
    DiscardSessions(db);
    IdleDiscards(idle, db.sessions, marks, finalized, sea, |chain|);
  }

  lemma EndStands(db: Db, chain: seq<Content>, marks: seq<nat>, idle: set<nat>, finalized: nat, sea: nat, next: nat)
    requires Stands(db, chain, marks, idle, finalized, sea, next) && next == |chain| + 1
    ensures db.sessions != []
    ensures Stands(db, chain + [View(db)], marks, if db.sessions[|db.sessions| - 1] == [] then idle + {|chain|} else idle,
                   finalized, sea, next)
  {
    hide IdleOf, Sound, View;
    SoundBounds(db, chain, marks, sea, next);
    EndSound(db, chain, marks, sea, next);
    IdleEnds(idle, db.sessions, marks, finalized, sea, |chain|);
  }

  lemma RollbackStands(db: Db, chain: seq<Content>, marks: seq<nat>, idle: set<nat>, finalized: nat, sea: nat, next: nat,
                       n: nat)
    requires Stands(db, chain, marks, idle, finalized, sea, next) && next == |chain| && sea <= n < next
    ensures Stands(RollbackTag(db, BlockTag(n)).0, chain[..n], marks, Under(idle, n), finalized, sea, n)
  {
    hide IdleOf, Sound, RollbackTag;
    SoundBounds(db, chain, marks, sea, next);
    RollbackSound(db, chain, marks, sea, next, n);
    RollbackSessions(db, chain, marks, sea, next, n);
    IdleRollsBack(idle, db.sessions, marks, finalized, sea, |chain|, n);
  }

  /** In terms of revisions: the block before has one, or there is none from it on. */
  lemma ReachesMeans(db: Db, chain: seq<Content>, marks: seq<nat>, idle: set<nat>, finalized: nat, sea: nat, next: nat,
                     n: nat)
    requires Stands(db, chain, marks, idle, finalized, sea, next) && finalized < n < sea
    ensures (TagOf(n - 1) in db.tagRev || forall k :: n <= k < sea ==> k in idle)
            <==> n - 1 in marks || marks[|marks| - 1] < n
  {
    hide Logged, Layered, Named, Steady;
    Untagged(db.tagRev, db.revTag, Low(db, marks), marks, n - 1);
    assert marks[|marks| - 1] in marks;
  }

  lemma RevertStands(db: Db, chain: seq<Content>, marks: seq<nat>, idle: set<nat>, finalized: nat, sea: nat, next: nat,
                     n: nat)
    requires Stands(db, chain, marks, idle, finalized, sea, next) && next == |chain| && finalized < n < sea
    requires TagOf(n - 1) in db.tagRev || forall k :: n <= k < sea ==> k in idle
    ensures Stands(RevertToTag(Dropped(db, sea, next), TagOf(n - 1)).0, chain[..n], Before(marks, n), Under(idle, n),
                   finalized, n, n)
  {
    ReachesMeans(db, chain, marks, idle, finalized, sea, next, n);
    hide IdleOf, Sound, RevertToTag, Before, Rising;
    SoundBounds(db, chain, marks, sea, next);
    RevertThrough(db, chain, marks, sea, next, n);
    IdleReverts(idle, db.sessions, marks, finalized, sea, |chain|, n);
    BeforeFacts(marks, n, finalized);
    NoSessions(RevertToTag(Dropped(db, sea, next), TagOf(n - 1)).0, chain[..n], Before(marks, n), n, n);
  }

  lemma RevertMisses(db: Db, chain: seq<Content>, marks: seq<nat>, idle: set<nat>, finalized: nat, sea: nat, next: nat,
                     n: nat)
    requires Stands(db, chain, marks, idle, finalized, sea, next) && next == |chain| && finalized < n < sea
    requires !(TagOf(n - 1) in db.tagRev || forall k :: n <= k < sea ==> k in idle)
    ensures var d := RevertToTag(Dropped(db, sea, next), TagOf(n - 1)).0;
            && View(d) == chain[sea - 1] && !Stands(d, chain[..n], marks, Under(idle, n), finalized, n, n)
  {
    ReachesMeans(db, chain, marks, idle, finalized, sea, next, n);
    hide IdleOf, Sound, RevertToTag, View;
    SoundBounds(db, chain, marks, sea, next);
    RevertStaysPut(db, chain, marks, sea, next, n);
    MarksAbove(RevertToTag(Dropped(db, sea, next), TagOf(n - 1)).0, chain[..n], marks, n, n);
  }

  lemma RebaseStands(db: Db, chain: seq<Content>, marks: seq<nat>, idle: set<nat>, finalized: nat, sea: nat, next: nat,
                     n: nat)
    requires Stands(db, chain, marks, idle, finalized, sea, next) && finalized < n < sea
    ensures var d := RebaseToTag(db, BlockTag(n)).0;
            && Stands(d, chain, From(marks, n), idle, n, sea, next) && View(d) == View(db)
            && (TagOf(n) in d.tagRev <==> n !in idle)
  {
    hide Sound, View, RebaseToTag, TagOf;
    SoundBounds(db, chain, marks, sea, next);
    var d := RebaseToTag(db, BlockTag(n)).0;
    if n in marks {
      var a :| 0 <= a < |marks| && marks[a] == n;
      FromIs(marks, a);
      RebaseSound(db, chain, marks, sea, next, a);
      RebaseSessions(db, n);
      IdleRebased(idle, db.sessions, marks, finalized, sea, |chain|, a);
    } else {
      FromNone(marks, n);
      RebaseFails(db, chain, marks, sea, next, n);
    }
    SoundTags(d, chain, From(marks, n), sea, next, n);
  }

  lemma SoundTags(db: Db, chain: seq<Content>, marks: seq<nat>, sea: nat, next: nat, n: nat)
    requires Sound(db, chain, marks, sea, next)
    ensures TagOf(n) in db.tagRev <==> n in marks
  {
    hide Logged, Layered, Named, Steady;
    Untagged(db.tagRev, db.revTag, Low(db, marks), marks, n);
  }

  lemma IdleRebased(idle: set<nat>, sessions: seq<seq<WriteOp>>, marks: seq<nat>, finalized: nat, sea: nat, height: nat,
                    a: nat)
    requires IdleOf(idle, sessions, marks, finalized, sea, height) && a < |marks| && Rising(marks) && finalized < marks[a]
    ensures IdleOf(idle, sessions, marks[a..], marks[a], sea, height) && marks[a] in marks[a..]
  {
    assert marks[a..][0] == marks[a];
    forall n | marks[a] < n < sea
      ensures n in marks[a..] <==> n in marks
    {
      if n in marks {
        var j :| 0 <= j < |marks| && marks[j] == n;
        assert j > a && marks[a..][j - a] == n;
      }
    }
  }

  lemma FinalizeStands(db: Db, chain: seq<Content>, marks: seq<nat>, idle: set<nat>, finalized: nat, sea: nat, next: nat,
                       n: nat)
    requires Stands(db, chain, marks, idle, finalized, sea, next) && sea <= n < |chain|
    ensures n - sea < |db.sessions|
    ensures var d := EnableReversion(Squash(EnableReversion(db, false).0, BlockTag(n)).0, true).0;
            && Stands(d, chain, Settled(marks, n, Flatten(db.sessions[..n - sea + 1])), idle, n, n + 1, next)
            && View(d) == View(db)
  {
    hide IdleOf, Sound, View, EnableReversion, Squash, Flatten;
    SoundBounds(db, chain, marks, sea, next);
    FinalizeSound(db, chain, marks, sea, next, n);
    FinalizeSessions(db, chain, marks, sea, next, n);
    IdleSettles(idle, db.sessions, marks, finalized, sea, |chain|, n,
                Settled(marks, n, Flatten(db.sessions[..n - sea + 1])));
  }

  /** Some block from `n` on that is in the store wrote something. */
  ghost predicate WroteFrom(idle: set<nat>, n: nat, sea: nat) {
    exists k :: n <= k < sea && k !in idle
  }

  lemma ReopenStands(db: Db, chain: seq<Content>, marks: seq<nat>, idle: set<nat>, finalized: nat, sea: nat, next: nat)
    requires Stands(db, chain, marks, idle, finalized, sea, next)
    ensures var n := marks[|marks| - 1] + 1;
            && n <= sea && chain[n - 1] == chain[sea - 1] && Sound(Reopen(db), chain[..n], marks, n, n)
            && (forall k :: finalized < k < sea ==> (k < n <==> WroteFrom(idle, k, sea)))
            && (marks[0] == finalized <==> TagOf(finalized) in db.tagRev)
  {
    hide Sound, Reopen;
    ReopenSound(db, chain, marks, sea, next);
    SoundBounds(db, chain, marks, sea, next);
    SoundTags(db, chain, marks, sea, next, finalized);
    var top := marks[|marks| - 1];
    assert top in marks && marks[0] in marks;
    forall k | finalized < k < sea
      ensures k <= top <==> WroteFrom(idle, k, sea)
    {
      if i :| k <= i < sea && i !in idle {
        var j :| 0 <= j < |marks| && marks[j] == i;
      }
    }
  }

  // ----- starting -----

  /** The first start: the iceberg over the store that holds the genesis rows. */
  method Open(rows: seq<WriteOp>, enableApplyHash: bool) returns (r: BlockIceberg)
    ensures fresh(r) && r.Valid() && !r.inProgress && r.enableApplyHash == enableApplyHash
    ensures r.chain == [Apply(map[], rows)] && r.next == 1 && !r.hasFinalized && r.idle == {}
  {
    hide Sound, Apply, View, OpenNew, IdleOf;
    OpenNewSound(rows);
    r := new BlockIceberg(OpenNew(rows), enableApplyHash, [Apply(map[], rows)], [0]);
  }

  /** A restart loses what was in memory, and the latest blocks in the store that wrote
      nothing; readers see the store as it was.  The finalized block stays finalized exactly
      when it has a revision. */
  method Restart(b: BlockIceberg) returns (r: BlockIceberg)
    requires b.Valid()
    ensures fresh(r) && r.Valid() && !r.inProgress && r.Content() == b.chain[b.seaLevel - 1]
    ensures r.next == |r.chain| <= b.seaLevel && r.chain == b.chain[..r.next]
    ensures forall n :: b.finalized < n < b.seaLevel ==> (n < r.next <==> WroteFrom(b.idle, n, b.seaLevel))
    ensures r.finalized <= b.finalized && (r.finalized == b.finalized <==> TagOf(b.finalized) in b.db.tagRev)
  {
    hide Sound, Apply, View, Reopen, IdleOf, WroteFrom;
    ReopenStands(b.db, b.chain, b.marks, b.idle, b.finalized, b.seaLevel, b.next);
    SoundBounds(b.db, b.chain, b.marks, b.seaLevel, b.next);
    ghost var top := b.marks[|b.marks| - 1];
    r := new BlockIceberg(Reopen(b.db), b.enableApplyHash, b.chain[..top + 1], b.marks);
    r.SeesLatest();
  }
}
