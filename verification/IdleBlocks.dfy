/** What becomes of a block that writes nothing: two runs from genesis. */
module IdleBlocks {
  import opened Options
  import opened Storage
  import opened Database
  import opened IcebergInvariant
  import opened BlockIceberg

  /** One block of at most one write. */
  method PushBlock(b: BlockIceberg, row: Option<WriteOp>)
    requires b.Valid() && !b.inProgress && b.chain != [] && b.next > 0 && !b.enableApplyHash
    modifies b
    ensures b.Valid() && !b.inProgress && b.next == old(b.next) + 1 == |b.chain|
    ensures b.chain == old(b.chain) + [if row.Some? then Write(old(b.chain)[old(b.next) - 1], row.value)
                                       else old(b.chain)[old(b.next) - 1]]
    ensures b.idle == if row.Some? then old(b.idle) else old(b.idle) + {old(b.next)}
    ensures b.finalized == old(b.finalized)
  {
    hide Stands, View, Write;
    b.SeesLatest();
    var began := b.BeginBlock(b.next);
    if row.Some? {
      b.WriteRow(row.value);
    }
    var ended := b.EndBlock(true, "");
    b.SeesLatest();
  }

  /** A key that is written once stays. */
  ghost predicate Since(chain: seq<Content>, k: Key, n: nat) {
    forall i :: n <= i < |chain| ==> k in chain[i]
  }

  /** The second block writes nothing, and all others do, until the first three are in the
      store. */
  method FewBlocks() returns (b: BlockIceberg)
    ensures fresh(b) && b.Valid() && !b.inProgress && b.finalized == 0 && b.idle == {2} && b.next == |b.chain|
    ensures 3 < b.seaLevel <= |b.chain| && "y" !in b.chain[2] && Since(b.chain, "y", 3)
  {
    hide Stands, View;
    b := Open([], false);
    PushBlock(b, Some(Put("x", "1")));
    PushBlock(b, None);
    PushBlock(b, Some(Put("y", "1")));
    while b.next < 140
      invariant fresh(b) && b.Valid() && !b.inProgress && b.finalized == 0 && b.idle == {2} && !b.enableApplyHash
      invariant 4 <= b.next == |b.chain| && "y" !in b.chain[2] && Since(b.chain, "y", 3)
      decreases 140 - b.next
    {
      assert "y" in b.chain[b.next - 1];
      PushBlock(b, Some(Put("z", "1")));
    }
    StandsBounds(b.db, b.chain, b.marks, b.idle, b.finalized, b.seaLevel, b.next);
  }

  /** Reverting the third block does not bring back what the second left. */
  method SnapshotLost() returns (b: BlockIceberg)
    ensures b.next == |b.chain| == 3 && b.Content() != b.chain[2]
  {
    hide Stands, View;
    b := FewBlocks();
    b.TagIff(2);
    assert !b.Reaches(3) by { assert 3 !in b.idle && 3 < b.seaLevel; }
    assert "y" in b.chain[b.seaLevel - 1];
    var ok := b.RevertBlock(3);
  }

  /** Finalizing the second block is forgotten with a restart, after which it can be
      reverted. */
  method FinalityLost() returns (b: BlockIceberg, r: BlockIceberg, reverted: bool)
    ensures reverted && r.next <= b.finalized == 2
  {
    hide Stands, View, WroteFrom;
    b := FewBlocks();
    var ok := b.FinalizeBlock(2);
    StandsBounds(b.db, b.chain, b.marks, b.idle, b.finalized, b.seaLevel, b.next);
    r := Restart(b);
    assert WroteFrom(b.idle, 3, b.seaLevel) by { Wrote(b.idle, 3, b.seaLevel); }
    reverted := r.RevertBlock(r.finalized + 1);
  }

  lemma Wrote(idle: set<nat>, n: nat, sea: nat)
    requires n < sea && n !in idle
    ensures WroteFrom(idle, n, sea)
  {
  }
}
