/** The signatures of the transactions in the latest blocks, kept in memory in step with
    the database. */
module History {

  type Bytes = seq<int>

  /** The longest life of a transaction in seconds, over the block interval, plus one. */
  const MAX_HISTORY_BLOCKS: nat := 61
  const SIGNATURE_SIZE: nat := 65

  type Signature = s: Bytes | |s| == SIGNATURE_SIZE witness seq(SIGNATURE_SIZE, i => 0)

  // ----- one block -----

  function Join(sigs: seq<Signature>): Bytes {
    if sigs == [] then [] else Join(sigs[..|sigs| - 1]) + sigs[|sigs| - 1]
  }

  function Chunk(data: Bytes, i: nat): Bytes
    requires (i + 1) * SIGNATURE_SIZE <= |data|
  {
    data[i * SIGNATURE_SIZE..(i + 1) * SIGNATURE_SIZE]
  }

  lemma {:induction false} JoinLength(sigs: seq<Signature>)
    ensures |Join(sigs)| == |sigs| * SIGNATURE_SIZE
  {
    if sigs != [] {
      JoinLength(sigs[..|sigs| - 1]);
    }
  }

  lemma {:induction false} JoinChunk(sigs: seq<Signature>, i: nat)
    requires i < |sigs|
    ensures |Join(sigs)| == |sigs| * SIGNATURE_SIZE && Chunk(Join(sigs), i) == sigs[i]
  {
    var init := sigs[..|sigs| - 1];
    JoinLength(init);
    JoinLength(sigs);
    if i < |sigs| - 1 {
      JoinChunk(init, i);
      assert Chunk(Join(sigs), i) == Chunk(Join(init), i);
    }
  }

  /** A stored block: the blob, and the signatures cut out of it. */
  datatype Entry = Entry(data: Bytes, trxs: set<Bytes>)

  function EntryOf(sigs: seq<Signature>): Entry {
    Entry(Join(sigs), set i | 0 <= i < |sigs| :: sigs[i])
  }

  /** The entry that a blob is cut into. */
  function CutEntry(data: Bytes): Entry {
    Entry(data, set i | 0 <= i < |data| / SIGNATURE_SIZE :: Chunk(data, i))
  }

  /** Cutting the blob of a block gives back exactly its signatures. */
  lemma CutJoin(sigs: seq<Signature>)
    ensures CutEntry(Join(sigs)) == EntryOf(sigs)
  {
    JoinLength(sigs);
    forall i | 0 <= i < |sigs|
      ensures Chunk(Join(sigs), i) == sigs[i]
    {
      JoinChunk(sigs, i);
    }
    var data := Join(sigs);
    assert (set i | 0 <= i < |data| / SIGNATURE_SIZE :: Chunk(data, i)) == set i | 0 <= i < |sigs| :: sigs[i];
  }

  method NewInBlockEntry(data: Bytes) returns (e: Entry)
    ensures e == CutEntry(data)
  {
    var trxs: set<Bytes> := {};
    var count := |data| / SIGNATURE_SIZE;
    var offset := 0;
    for i := 0 to count
      invariant offset == i * SIGNATURE_SIZE
      invariant trxs == set k | 0 <= k < i :: Chunk(data, k)
    {
      assert data[offset..offset + SIGNATURE_SIZE] == Chunk(data, i);
      trxs := trxs + {data[offset..offset + SIGNATURE_SIZE]};
      offset := offset + SIGNATURE_SIZE;
    }
    e := Entry(data, trxs);
  }

  // ----- the window -----

  /** The oldest block kept when `last` is the latest. */
  function Start(last: nat): nat {
    if last >= MAX_HISTORY_BLOCKS then last - MAX_HISTORY_BLOCKS + 1 else 1
  }

  /** What the checker holds in memory. */
  datatype Memory = Memory(trxs: map<nat, Entry>, last: nat)

  type Rows = map<nat, Bytes>

  function WithoutOldest<T>(m: map<nat, T>, num: nat): map<nat, T> {
    if num > MAX_HISTORY_BLOCKS then m - {num - MAX_HISTORY_BLOCKS} else m
  }

  function Without<T>(m: map<nat, T>, from: nat, to: nat): map<nat, T> {
    map i | i in m && !(from <= i <= to) :: m[i]
  }

  /** With the rows of a range read from the table. */
  function Loaded(trxs: map<nat, Entry>, rows: Rows, from: nat, to: nat): map<nat, Entry> {
    map i | i in trxs.Keys + rows.Keys && (i in trxs || from <= i <= to) ::
      if i in rows && from <= i <= to then CutEntry(rows[i]) else trxs[i]
  }

  /** A block that is newer than all known enters the memory, and the one that became too old
      leaves it. */
  function Note(m: Memory, num: nat, sigs: seq<Signature>): Memory {
    if num > m.last then Memory(WithoutOldest(m.trxs[num := CutEntry(Join(sigs))], num), num) else m
  }

  /** The same in the table. */
  function NoteRow(rows: Rows, last: nat, num: nat, sigs: seq<Signature>): Rows {
    if num > last then WithoutOldest(rows[num := Join(sigs)], num) else rows
  }

  /** The blocks from `num` on leave the memory, and the ones that were too old come back from
      the table. */
  function Forget(m: Memory, rows: Rows, num: nat): Memory
    requires num >= 1
  {
    if num > m.last then m
    else
      var kept := Without(m.trxs, num, m.last);
      var start, newStart := Start(m.last), Start(num - 1);
      Memory(if newStart < start then Loaded(kept, Without(rows, num, m.last), newStart, start - 1) else kept, num - 1)
  }

  function ForgetRows(rows: Rows, last: nat, num: nat): Rows {
    if num > last then rows else Without(rows, num, last)
  }

  /** Some entry carries the signature. */
  predicate Found(trxs: map<nat, Entry>, sig: Bytes) {
    exists i :: i in trxs && sig in trxs[i].trxs
  }

  class InBlockTrxChecker {
    var trxs: map<nat, Entry>
    var last: nat
    var rows: Rows                      // the database's table of block signatures

    function Mem(): Memory
      reads this
    {
      Memory(trxs, last)
    }

    constructor (stored: Rows, last: nat)
      ensures Mem() == Memory(Loaded(map[], stored, Start(last), last), last) && rows == stored
    {
      trxs := map[];
      this.last := last;
      rows := stored;
      new;
      LoadAll();
    }

    method LoadAll()
      requires trxs == map[]
      modifies this`trxs
      ensures trxs == Loaded(map[], rows, Start(last), last)
    {
      if last < 1 {
        assert Loaded(map[], rows, Start(last), last) == map[];
        return;
      }
      var start := 1;
      if last >= MAX_HISTORY_BLOCKS {
        start := last - MAX_HISTORY_BLOCKS + 1;
      }
      Load(start, last);
    }

    /** Reads the rows that exist in the range. */
    method Load(from: nat, to: nat)
      modifies this`trxs
      ensures trxs == Loaded(old(trxs), rows, from, to)
    {
      hide CutEntry;
      var i := from;
      while i <= to
        invariant from <= i && (i <= to + 1 || i == from)
        invariant forall k :: k in trxs <==> k in old(trxs) || (k in rows && from <= k < i)
        invariant forall k :: k in trxs ==>
                    trxs[k] == if k in rows && from <= k < i then CutEntry(rows[k]) else old(trxs)[k]
      {
        if i in rows {
          var e := NewInBlockEntry(rows[i]);
          trxs := trxs[i := e];
        }
        i := i + 1;
      }
    }

    method Remove(from: nat, to: nat)
      modifies this`rows
      ensures rows == Without(old(rows), from, to)
      ensures from == to ==> rows == old(rows) - {from}
    {
      var i := from;
      while i <= to
        invariant from <= i && (i <= to + 1 || i == from)
        invariant rows == map k | k in old(rows) && !(from <= k < i) :: old(rows)[k]
      {
        rows := rows - {i};
        i := i + 1;
      }
    }

    method Delete(from: nat, to: nat)
      modifies this`trxs
      ensures trxs == Without(old(trxs), from, to)
      ensures from == to ==> trxs == old(trxs) - {from}
    {
      var i := from;
      while i <= to
        invariant from <= i && (i <= to + 1 || i == from)
        invariant trxs == map k | k in old(trxs) && !(from <= k < i) :: old(trxs)[k]
      {
        trxs := trxs - {i};
        i := i + 1;
      }
    }

    /** Forgets the block that is too old when block `num` is the latest. */
    method DropOldest(num: nat)
      modifies this`trxs, this`rows
      ensures trxs == WithoutOldest(old(trxs), num) && rows == WithoutOldest(old(rows), num)
    {
      if num > MAX_HISTORY_BLOCKS {
        var oldBlock := num - MAX_HISTORY_BLOCKS;
        Remove(oldBlock, oldBlock);
        Delete(oldBlock, oldBlock);
      }
    }

    method BlockApplied(num: nat, sigs: seq<Signature>)
      modifies this
      ensures Mem() == Note(old(Mem()), num, sigs) && rows == NoteRow(old(rows), old(last), num, sigs)
    {
      hide Join, CutEntry, WithoutOldest;
      if num > last {
        var e := NewInBlockEntry(Join(sigs));
        trxs := trxs[num := e];
        rows := rows[num := e.data];
        assert e.data == Join(sigs) by { CutData(Join(sigs)); }
        DropOldest(num);
        last := num;
      }
    }

    /** The database may have gone back to the state before block `num`; the memory follows. */
    method BlockReverted(num: nat)
      requires 1 <= num
      modifies this
      ensures Mem() == Forget(old(Mem()), old(rows), num) && rows == ForgetRows(old(rows), old(last), num)
    {
      hide Loaded, Without;
      if num <= last {
        var start := 1;
        if last >= MAX_HISTORY_BLOCKS {
          start := last - MAX_HISTORY_BLOCKS + 1;
        }
        Remove(num, last);
        Delete(num, last);
        last := num - 1;
        var newStart := 1;
        if last >= MAX_HISTORY_BLOCKS {
          newStart := last - MAX_HISTORY_BLOCKS + 1;
        }
        if newStart < start {
          Load(newStart, start - 1);
        }
      }
    }

    method Has(sig: Bytes) returns (found: bool)
      ensures found == Found(trxs, sig)
    {
      var todo := trxs.Keys;
      while todo != {}
        invariant todo <= trxs.Keys
        invariant forall i :: i in trxs && i !in todo ==> sig !in trxs[i].trxs
        decreases |todo|
      {
        var i :| i in todo;
        if sig in trxs[i].trxs {
          return true;
        }
        todo := todo - {i};
      }
      return false;
    }
  }

  lemma CutData(data: Bytes)
    ensures CutEntry(data).data == data
  {
  }

  // ----- what it stands for -----

  /** The signatures of every block of the chain; the genesis block has none. */
  type Chain = c: seq<seq<Signature>> | c != [] && c[0] == [] witness [[]]

  /** `trxs` holds the entries of the latest blocks, no more and no less. */
  ghost predicate WindowOf(trxs: map<nat, Entry>, chain: Chain) {
    && (forall i :: i in trxs <==> Start(|chain| - 1) <= i < |chain|)
    && (forall i :: i in trxs ==> trxs[i] == EntryOf(chain[i]))
  }

  /** The same of the database's table, whose rows are the blobs. */
  ghost predicate RowsOf(rows: Rows, chain: Chain) {
    && (forall i :: i in rows <==> Start(|chain| - 1) <= i < |chain|)
    && (forall i :: i in rows ==> rows[i] == Join(chain[i]))
  }

  /** Both the memory and the table hold exactly the window. */
  ghost predicate InStep(m: Memory, rows: Rows, chain: Chain) {
    |chain| == m.last + 1 && WindowOf(m.trxs, chain) && RowsOf(rows, chain)
  }

  /** The signature is in one of the latest blocks. */
  ghost predicate Recent(chain: Chain, sig: Bytes) {
    exists i :: Start(|chain| - 1) <= i < |chain| && sig in chain[i]
  }

  /** A signature is found exactly when a block of the window carries it. */
  lemma FoundIsRecent(trxs: map<nat, Entry>, chain: Chain, sig: Bytes)
    requires WindowOf(trxs, chain)
    ensures Found(trxs, sig) <==> Recent(chain, sig)
  {
    hide Join;
    if Recent(chain, sig) {
      var i :| Start(|chain| - 1) <= i < |chain| && sig in chain[i];
      assert i in trxs;
    }
  }

  /** Loading from a right table leaves the window in memory. */
  lemma LoadInStep(rows: Rows, chain: Chain)
    requires RowsOf(rows, chain)
    ensures InStep(Memory(Loaded(map[], rows, Start(|chain| - 1), |chain| - 1), |chain| - 1), rows, chain)
  {
    hide Join, CutEntry, EntryOf;
    forall i | i in rows
      ensures CutEntry(rows[i]) == EntryOf(chain[i])
    {
      CutJoin(chain[i]);
    }
  }

  /** A new block moves the window on. */
  lemma NoteInStep(m: Memory, rows: Rows, chain: Chain, sigs: seq<Signature>)
    requires InStep(m, rows, chain)
    ensures InStep(Note(m, |chain|, sigs), NoteRow(rows, m.last, |chain|, sigs), chain + [sigs])
  {
    hide Join, CutEntry, EntryOf;
    CutJoin(sigs);
  }

  /** When the table has gone back, the memory follows, for a reversion of any depth. */
  lemma ForgetInStep(m: Memory, rows: Rows, chain: Chain, num: nat)
    requires 1 <= num <= m.last && |chain| == m.last + 1 && WindowOf(m.trxs, chain) && RowsOf(rows, chain[..num])
    ensures InStep(Forget(m, rows, num), ForgetRows(rows, m.last, num), chain[..num])
    ensures ForgetRows(rows, m.last, num) == rows
  {
    hide Join, CutEntry, EntryOf;
    assert ForgetRows(rows, m.last, num) == rows;
    forall i | i in rows
      ensures CutEntry(rows[i]) == EntryOf(chain[i])
    {
      CutJoin(chain[..num][i]);
    }
  }
}
