/** When no signed transaction occurs twice on the chain, and when one can. */
module ReplaySafety {
  import opened Amounts
  import opened History
  import opened Discards

  const TRX_MAX_EXPIRATION_TIME: nat := 60

  type Id = seq<int>

  datatype Trx = Trx(id: Id, sig: Signature, expiration: U32)

  datatype Block = Block(time: U32, trxs: seq<Trx>)

  /** `CheckExpiration`; the sum wraps around at 32 bits. */
  predicate ExpirationOk(expiration: U32, blockTime: U32) {
    blockTime <= expiration <= (blockTime + TRX_MAX_EXPIRATION_TIME) % TWO_32
  }

  /** A transaction is in time exactly when it expires within the next minute; close to the end
      of time the wrapped bound refuses everything. */
  lemma ExpirationBound(expiration: U32, blockTime: U32)
    ensures ExpirationOk(expiration, blockTime) <==> blockTime <= expiration <= blockTime + 60 < TWO_32
  {
  }

  function SigsOf(b: Block): seq<Signature> {
    seq(|b.trxs|, i requires 0 <= i < |b.trxs| => b.trxs[i].sig)
  }

  /** A chain starts with a genesis block without transactions. */
  predicate Rooted(chain: seq<Block>) {
    chain != [] && chain[0].trxs == []
  }

  function Sigs(chain: seq<Block>): Chain
    requires Rooted(chain)
  {
    seq(|chain|, i requires 0 <= i < |chain| => SigsOf(chain[i]))
  }

  predicate Distinct(ids: seq<Id>) {
    forall i, j :: 0 <= i < j < |ids| ==> ids[i] != ids[j]
  }

  function Ids(b: Block): seq<Id> {
    seq(|b.trxs|, i requires 0 <= i < |b.trxs| => b.trxs[i].id)
  }

  /** What `CheckBlockTrxs` demands of a block on top of `chain`, other checks aside. */
  ghost predicate TrxsAccepted(chain: seq<Block>, b: Block)
    requires Rooted(chain)
  {
    && (forall i :: 0 <= i < |b.trxs| ==>
          ExpirationOk(b.trxs[i].expiration, b.time) && !Recent(Sigs(chain), b.trxs[i].sig))
    && Distinct(Ids(b))
  }

  /** `validateBlockHeader` demands a later time, `CheckBlockTrxs` the rest. */
  ghost predicate Accepted(chain: seq<Block>, b: Block)
    requires Rooted(chain)
  {
    chain[|chain| - 1].time < b.time && TrxsAccepted(chain, b)
  }

  // ----- the check -----

  predicate AllPass(verdicts: seq<bool>) {
    forall i :: 0 <= i < |verdicts| ==> verdicts[i]
  }

  /** What `CheckBlockTrxs` demands of the transactions of a block, given the memory of the
      checker, other checks aside. */
  ghost predicate TrxsPass(trxs: map<nat, Entry>, b: Block) {
    && (forall i :: 0 <= i < |b.trxs| ==>
          ExpirationOk(b.trxs[i].expiration, b.time) && !Found(trxs, b.trxs[i].sig))
    && Distinct(Ids(b))
  }

  /** Accepts exactly the blocks whose transactions pass every check and do not repeat;
      `others` stands for the signature, size and reference-block checks of each. */
  method CheckBlockTrxs(history: InBlockTrxChecker, b: Block, others: seq<bool>) returns (ok: bool)
    requires |others| == |b.trxs|
    ensures ok <==> TrxsPass(history.trxs, b) && AllPass(others)
  {
    hide Found;
    var failed := false;
    for i := 0 to |b.trxs|
      invariant failed <==> !(forall k :: 0 <= k < i ==>
                               && others[k] && ExpirationOk(b.trxs[k].expiration, b.time)
                               && !Found(history.trxs, b.trxs[k].sig))
    {
      var seen := history.Has(b.trxs[i].sig);
      if !ExpirationOk(b.trxs[i].expiration, b.time) || !others[i] || seen {
        failed := true;
      }
    }
    if failed {
      return false;
    }
    var met: set<Id> := {};
    for i := 0 to |b.trxs|
      invariant met == set k | 0 <= k < i :: b.trxs[k].id
      invariant Distinct(Ids(b)[..i])
    {
      if b.trxs[i].id in met {
        ghost var k :| 0 <= k < i && b.trxs[k].id == b.trxs[i].id;
        assert Ids(b)[k] == Ids(b)[i];
        return false;
      }
      met := met + {b.trxs[i].id};
    }
    assert Ids(b)[..|b.trxs|] == Ids(b);
    return true;
  }

  // ----- chains -----

  ghost predicate ChainOk(chain: seq<Block>) {
    Rooted(chain) && forall n :: 1 <= n < |chain| ==> Accepted(chain[..n], chain[n])
  }

  /** No two positions of the chain carry the same signed transaction. */
  ghost predicate NoReplay(chain: seq<Block>) {
    forall i, a, j, b ::
      0 <= i < |chain| && 0 <= a < |chain[i].trxs| && 0 <= j < |chain| && 0 <= b < |chain[j].trxs| && (i, a) != (j, b)
      ==> chain[i].trxs[a] != chain[j].trxs[b]
  }

  lemma {:induction false} TimesGrow(chain: seq<Block>, i: nat, j: nat)
    requires ChainOk(chain) && i <= j < |chain|
    ensures chain[i].time + (j - i) <= chain[j].time
    decreases j
  {
    if i < j {
      TimesGrow(chain, i, j - 1);
      assert Accepted(chain[..j], chain[j]);
    }
  }

  /** While a transaction is alive, its block is in the window. */
  lemma AliveIsRecent(chain: seq<Block>, i: nat, a: nat, j: nat)
    requires ChainOk(chain) && i < j < |chain| && a < |chain[i].trxs|
    requires chain[j].time <= chain[i].trxs[a].expiration
    ensures Recent(Sigs(chain[..j]), chain[i].trxs[a].sig)
  {
    assert Accepted(chain[..i], chain[i]);
    ExpirationBound(chain[i].trxs[a].expiration, chain[i].time);
    TimesGrow(chain, i, j);
    assert Start(j - 1) <= i;
    assert Sigs(chain[..j])[i] == SigsOf(chain[i]);
    assert SigsOf(chain[i])[a] == chain[i].trxs[a].sig;
  }

  /** A transaction that comes again while it is alive finds itself in the window. */
  lemma NotTwice(chain: seq<Block>, i: nat, a: nat, j: nat, b: nat)
    requires ChainOk(chain) && i < j < |chain| && a < |chain[i].trxs| && b < |chain[j].trxs|
    ensures chain[i].trxs[a] != chain[j].trxs[b]
  {
    assert Accepted(chain[..j], chain[j]);
    assert !Recent(Sigs(chain[..j]), chain[j].trxs[b].sig);
    if chain[j].time <= chain[i].trxs[a].expiration {
      AliveIsRecent(chain, i, a, j);
    }
  }

  lemma ChainHasNoReplay(chain: seq<Block>)
    requires ChainOk(chain)
    ensures NoReplay(chain)
  {
    forall i, a, j, b | 0 <= i < |chain| && 0 <= a < |chain[i].trxs| && 0 <= j < |chain| && 0 <= b < |chain[j].trxs|
                        && (i, a) != (j, b)
      ensures chain[i].trxs[a] != chain[j].trxs[b]
    {
      if i < j {
        NotTwice(chain, i, a, j, b);
      } else if j < i {
        NotTwice(chain, j, b, i, a);
      } else {
        assert Accepted(chain[..i], chain[i]);
        assert Ids(chain[i])[a] != Ids(chain[i])[b];
      }
    }
  }

  // ----- runs -----

  /** The memory of the checker, and the table of the database at every height, to which it
      goes back with the chain. */
  datatype Books = Books(mem: Memory, tables: seq<Rows>)

  /** A block is noted in memory and table before its passes.  When it is discarded, the table
      goes back to what it was, and the memory does not. */
  function Play(events: seq<Event<Block>>): (books: Books)
    ensures |books.tables| == Next(events)
  {
    if events == [] then Books(Memory(map[], 0), [map[]])
    else
      var init := events[..|events| - 1];
      var was, n := Play(init), Next(init);
      var now := was.tables[n - 1];
      match events[|events| - 1]
      case Stand(b) =>
        Books(Note(was.mem, n, SigsOf(b)), was.tables + [NoteRow(now, was.mem.last, n, SigsOf(b))])
      case Fall(b) => Books(Note(was.mem, n, SigsOf(b)), was.tables)
      case Undo(num) =>
        var back := if num < n then was.tables[..num] else was.tables;
        var top := |back| - 1;
        Books(Forget(was.mem, back[top], num), back[top := ForgetRows(back[top], was.mem.last, num)])
  }

  function ChainOf(genesis: Block, events: seq<Event<Block>>): seq<Block> {
    [genesis] + Standing(events)
  }

  function SigsAt(genesis: Block, events: seq<Event<Block>>): Chain
    requires genesis.trxs == []
  {
    Sigs(ChainOf(genesis, events))
  }

  /** A block passes the check of the node, which looks at the head of the chain and at its
      own memory. */
  ghost predicate Passes(genesis: Block, events: seq<Event<Block>>, b: Block) {
    ChainOf(genesis, events)[Next(events) - 1].time < b.time && TrxsPass(Play(events).mem.trxs, b)
  }

  /** The verdicts of the other checks on the transactions of a block. */
  type Checks = (seq<Event<Block>>, Block) -> seq<bool>

  ghost predicate Judges(checks: Checks) {
    forall events, b :: |checks(events, b)| == |b.trxs|
  }

  ghost predicate Accepts(genesis: Block, events: seq<Event<Block>>, b: Block, checks: Checks) {
    Passes(genesis, events, b) && AllPass(checks(events, b))
  }

  /** Every block that stands, or was discarded by a pass, was accepted before. */
  ghost predicate Allowed(genesis: Block, events: seq<Event<Block>>, checks: Checks) {
    events == []
    || (var init, e := events[..|events| - 1], events[|events| - 1];
        Allowed(genesis, init, checks) && (!e.Undo? ==> Accepts(genesis, init, e.block, checks)))
  }

  // ----- the window -----

  /** Memory and tables hold exactly the window of the chain, at every height. */
  ghost predicate AllInStep(books: Books, chain: Chain) {
    && |books.tables| == |chain| == books.mem.last + 1 && WindowOf(books.mem.trxs, chain)
    && forall h :: 0 <= h < |chain| ==> RowsOf(books.tables[h], chain[..h + 1])
  }

  /** Of the first `sure` blocks the memory holds those of the window, and rightly. */
  ghost predicate MemUpTo(m: Memory, chain: Chain, sure: nat)
    requires sure < |chain|
  {
    && (forall i :: i in m.trxs ==> 1 <= i <= m.last)
    && (forall i :: 1 <= i <= sure ==> (i in m.trxs <==> Start(m.last) <= i))
    && (forall i :: 1 <= i <= sure && i in m.trxs ==> m.trxs[i] == EntryOf(chain[i]))
  }

  /** So does the table at height `h`; it knows nothing of the blocks owed. */
  ghost predicate RowsUpTo(rows: Rows, h: nat, chain: Chain, sure: nat, owed: set<nat>)
    requires sure < |chain|
  {
    && (forall i :: i in rows ==> 1 <= i <= h && i !in owed)
    && (forall i :: 1 <= i <= sure && Start(h) <= i <= h ==> i in rows && rows[i] == Join(chain[i]))
    && (h <= sure ==> RowsOf(rows, chain[..h + 1]))
  }

  ghost predicate TablesUpTo(tables: seq<Rows>, chain: Chain, sure: nat, owed: set<nat>)
    requires sure < |chain|
  {
    |tables| == |chain| && forall h :: 0 <= h < |chain| ==> RowsUpTo(tables[h], h, chain, sure, owed)
  }

  /** The chain may change beyond the sure blocks. */
  lemma MemElsewhere(m: Memory, chain: Chain, sure: nat, other: Chain)
    requires sure < |chain| && sure < |other| && chain[..sure + 1] == other[..sure + 1] && MemUpTo(m, chain, sure)
    ensures MemUpTo(m, other, sure)
  {
    hide EntryOf;
    assert forall i :: 0 <= i <= sure ==> chain[i] == chain[..sure + 1][i] == other[i];
  }

  /** Whether noted or not, a block leaves what the memory knows of the blocks before. */
  lemma MemNotes(m: Memory, chain: Chain, sure: nat, sigs: seq<Signature>)
    requires sure < |chain| && MemUpTo(m, chain, sure) && |chain| - 1 <= m.last <= |chain|
    ensures MemUpTo(Note(m, |chain|, sigs), chain, sure)
    ensures sure == m.last ==> MemUpTo(Note(m, |chain|, sigs), chain + [sigs], sure + 1)
  {
    hide EntryOf, CutEntry, Join;
    CutJoin(sigs);
  }

  /** A reversion: what was too old comes back from the table before it. */
  lemma MemForgets(m: Memory, rows: Rows, chain: Chain, sure: nat, owed: set<nat>, num: Number)
    requires sure < |chain| && MemUpTo(m, chain, sure) && num <= m.last
    requires RowsUpTo(rows, num - 1, chain, sure, owed)
    ensures MemUpTo(Forget(m, rows, num), chain, if num <= sure then num - 1 else sure)
    ensures ForgetRows(rows, m.last, num) == rows
  {
    hide EntryOf, CutEntry, Join, RowsOf;
    assert ForgetRows(rows, m.last, num) == rows;
    forall i | 1 <= i <= sure && i in rows && Start(num - 1) <= i
      ensures CutEntry(rows[i]) == EntryOf(chain[i])
    {
      CutJoin(chain[i]);
    }
  }

  /** One more table, with the block noted or not. */
  lemma TableNotes(rows: Rows, last: nat, chain: Chain, sure: nat, owed: set<nat>, sigs: seq<Signature>)
    requires sure < |chain| && RowsUpTo(rows, |chain| - 1, chain, sure, owed)
    requires |chain| - 1 <= last <= |chain| && (last == |chain| <==> |chain| in owed)
    requires sure + 1 == |chain| && last < |chain| ==> owed == {}
    ensures var more := sure + 1 == |chain| && last < |chain|;
            RowsUpTo(NoteRow(rows, last, |chain|, sigs), |chain|, chain + [sigs], if more then sure + 1 else sure, owed)
  {
    hide RowsUpTo, NoteRow;
    if last < |chain| {
      RowNoted(rows, last, chain, sure, owed, sigs);
      if sure + 1 == |chain| {
        RowSure(rows, last, chain, owed, sigs);
      }
    } else {
      RowSkipped(rows, last, chain, sure, owed, sigs);
    }
  }

  lemma RowNoted(rows: Rows, last: nat, chain: Chain, sure: nat, owed: set<nat>, sigs: seq<Signature>)
    requires sure < |chain| && RowsUpTo(rows, |chain| - 1, chain, sure, owed) && last == |chain| - 1 && |chain| !in owed
    ensures RowsUpTo(NoteRow(rows, last, |chain|, sigs), |chain|, chain + [sigs], sure, owed)
  {
    hide Join, RowsOf;
  }

  lemma RowSure(rows: Rows, last: nat, chain: Chain, owed: set<nat>, sigs: seq<Signature>)
    requires RowsUpTo(rows, |chain| - 1, chain, |chain| - 1, owed) && last == |chain| - 1 && owed == {}
    ensures RowsUpTo(NoteRow(rows, last, |chain|, sigs), |chain|, chain + [sigs], |chain|, owed)
  {
    hide Join;
    assert chain[..|chain|] == chain && (chain + [sigs])[..|chain| + 1] == chain + [sigs];
  }

  lemma RowSkipped(rows: Rows, last: nat, chain: Chain, sure: nat, owed: set<nat>, sigs: seq<Signature>)
    requires sure < |chain| && RowsUpTo(rows, |chain| - 1, chain, sure, owed) && last == |chain|
    ensures RowsUpTo(NoteRow(rows, last, |chain|, sigs), |chain|, chain + [sigs], sure, owed)
  {
    hide Join, RowsOf;
  }

  lemma RowsElsewhere(rows: Rows, h: nat, chain: Chain, sure: nat, owed: set<nat>, other: Chain, less: nat, now: set<nat>)
    requires sure < |chain| && less < |other| && less <= sure && RowsUpTo(rows, h, chain, sure, owed)
    requires chain[..less + 1] == other[..less + 1] && (forall i :: i in now && i <= h ==> i in owed)
    ensures RowsUpTo(rows, h, other, less, now)
  {
    hide Join, RowsOf;
    assert forall i :: 0 <= i <= less ==> chain[i] == chain[..less + 1][i] == other[i];
    if h <= less {
      assert chain[..h + 1] == chain[..less + 1][..h + 1] == other[..h + 1];
    }
  }

  lemma TablesGrow(tables: seq<Rows>, chain: Chain, sure: nat, owed: set<nat>, rows: Rows, sigs: seq<Signature>, more: nat)
    requires sure < |chain| && TablesUpTo(tables, chain, sure, owed) && sure <= more <= sure + 1 && more <= |chain|
    requires more == sure + 1 ==> sure + 1 == |chain|
    requires RowsUpTo(rows, |chain|, chain + [sigs], more, owed)
    ensures TablesUpTo(tables + [rows], chain + [sigs], more, owed)
  {
    hide RowsUpTo;
    forall h | 0 <= h < |chain|
      ensures RowsUpTo(tables[h], h, chain + [sigs], more, owed)
    {
      assert RowsUpTo(tables[h], h, chain, sure, owed);
      RowsGrow(tables[h], h, chain, sure, owed, sigs, more);
    }
  }

  lemma RowsGrow(rows: Rows, h: nat, chain: Chain, sure: nat, owed: set<nat>, sigs: seq<Signature>, more: nat)
    requires sure < |chain| && h < |chain| && RowsUpTo(rows, h, chain, sure, owed) && sure <= more <= |chain|
    requires more > sure ==> sure + 1 == |chain|
    ensures RowsUpTo(rows, h, chain + [sigs], more, owed)
  {
    hide Join, RowsOf;
    assert (chain + [sigs])[..h + 1] == chain[..h + 1];
  }

  /** A discarded block is owed from then on. */
  lemma TablesOwe(tables: seq<Rows>, chain: Chain, sure: nat, owed: set<nat>)
    requires sure < |chain| && TablesUpTo(tables, chain, sure, owed)
    ensures TablesUpTo(tables, chain, sure, owed + {|chain|})
  {
    hide Join, RowsOf;
    forall h | 0 <= h < |chain|
      ensures RowsUpTo(tables[h], h, chain, sure, owed + {|chain|})
    {
      assert RowsUpTo(tables[h], h, chain, sure, owed);
    }
  }

  lemma TablesCut(tables: seq<Rows>, chain: Chain, sure: nat, owed: set<nat>, num: Number, now: set<nat>)
    requires sure < |chain| && TablesUpTo(tables, chain, sure, owed) && num < |chain| && now <= owed
    ensures TablesUpTo(tables[..num], chain[..num], if num <= sure then num - 1 else sure, now)
  {
    hide RowsUpTo;
    var less := if num <= sure then num - 1 else sure;
    assert chain[..num][..less + 1] == chain[..less + 1];
    forall h | 0 <= h < num
      ensures RowsUpTo(tables[h], h, chain[..num], less, now)
    {
      assert RowsUpTo(tables[h], h, chain, sure, owed);
      RowsElsewhere(tables[h], h, chain, sure, owed, chain[..num], less, now);
    }
  }

  /** What holds of the books over every run. */
  ghost predicate BooksOk(genesis: Block, events: seq<Event<Block>>)
    requires genesis.trxs == []
  {
    var books, chain := Play(events), SigsAt(genesis, events);
    && Sure(events) < |chain| && books.mem.last == Last(events) && MemUpTo(books.mem, chain, Sure(events))
    && TablesUpTo(books.tables, chain, Sure(events), Owed(events).Keys)
  }

  lemma NoEvents(genesis: Block)
    requires genesis.trxs == []
    ensures BooksOk(genesis, [])
  {
    assert SigsAt(genesis, []) == [[]];
  }

  lemma SigsStand(genesis: Block, events: seq<Event<Block>>, b: Block)
    requires genesis.trxs == []
    ensures SigsAt(genesis, events + [Stand(b)]) == SigsAt(genesis, events) + [SigsOf(b)]
  {
    OneMore(events, Stand(b));
  }

  lemma StandKeeps(genesis: Block, events: seq<Event<Block>>, b: Block)
    requires genesis.trxs == [] && BooksOk(genesis, events)
    ensures BooksOk(genesis, events + [Stand(b)])
  {
    hide MemUpTo, TablesUpTo, RowsUpTo, Note, NoteRow, SigsAt;
    OneMore(events, Stand(b));
    SigsStand(genesis, events, b);
    OwedShape(events);
    SureShape(events);
    var was, chain, sigs := Play(events), SigsAt(genesis, events), SigsOf(b);
    assert |chain| == Next(events) by { ChainLength(genesis, events); }
    var sure, owed := Sure(events), Owed(events).Keys;
    MemNotes(was.mem, chain, sure, sigs);
    assert RowsUpTo(was.tables[|chain| - 1], |chain| - 1, chain, sure, owed) by { LastTable(was.tables, chain, sure, owed); }
    TableNotes(was.tables[|chain| - 1], was.mem.last, chain, sure, owed, sigs);
    var more := if sure + 1 == |chain| && was.mem.last < |chain| then sure + 1 else sure;
    TablesGrow(was.tables, chain, sure, owed, NoteRow(was.tables[|chain| - 1], was.mem.last, |chain|, sigs), sigs, more);
    assert (chain + [sigs])[..sure + 1] == chain[..sure + 1];
    MemElsewhere(Note(was.mem, |chain|, sigs), chain, sure, chain + [sigs]);
    assert Play(events + [Stand(b)]).mem.last == Last(events + [Stand(b)]) by { NoteLast(was.mem, |chain|, sigs); }
  }

  lemma NoteLast(m: Memory, num: nat, sigs: seq<Signature>)
    ensures Note(m, num, sigs).last == if num > m.last then num else m.last
  {
  }

  lemma ChainLength(genesis: Block, events: seq<Event<Block>>)
    requires genesis.trxs == []
    ensures |SigsAt(genesis, events)| == Next(events)
  {
  }

  lemma LastTable(tables: seq<Rows>, chain: Chain, sure: nat, owed: set<nat>)
    requires sure < |chain| && TablesUpTo(tables, chain, sure, owed)
    ensures RowsUpTo(tables[|chain| - 1], |chain| - 1, chain, sure, owed)
  {
    hide RowsUpTo;
  }

  lemma FallKeeps(genesis: Block, events: seq<Event<Block>>, b: Block)
    requires genesis.trxs == [] && BooksOk(genesis, events)
    ensures BooksOk(genesis, events + [Fall(b)])
  {
    hide MemUpTo, TablesUpTo, RowsUpTo, Note, NoteRow, SigsAt;
    OneMore(events, Fall(b));
    assert SigsAt(genesis, events + [Fall(b)]) == SigsAt(genesis, events) by { SameSigs(genesis, events, Fall(b)); }
    OwedShape(events);
    var was, chain := Play(events), SigsAt(genesis, events);
    assert |chain| == Next(events) by { ChainLength(genesis, events); }
    var sure, owed := Sure(events), Owed(events).Keys;
    MemNotes(was.mem, chain, sure, SigsOf(b));
    NoteLast(was.mem, |chain|, SigsOf(b));
    TablesOwe(was.tables, chain, sure, owed);
    assert Owed(events + [Fall(b)]).Keys == owed + {|chain|};
  }

  lemma SameSigs(genesis: Block, events: seq<Event<Block>>, e: Event<Block>)
    requires genesis.trxs == [] && (e.Fall? || (e.Undo? && e.num >= Next(events)))
    ensures SigsAt(genesis, events + [e]) == SigsAt(genesis, events)
  {
    OneMore(events, e);
  }

  lemma SigsUndo(genesis: Block, events: seq<Event<Block>>, num: Number)
    requires genesis.trxs == [] && num < Next(events)
    ensures SigsAt(genesis, events + [Undo(num)]) == SigsAt(genesis, events)[..num]
  {
    OneMore(events, Undo(num));
  }

  lemma UndoKeeps(genesis: Block, events: seq<Event<Block>>, num: Number)
    requires genesis.trxs == [] && BooksOk(genesis, events)
    ensures BooksOk(genesis, events + [Undo(num)])
  {
    hide BooksOk;
    if num < Next(events) {
      UndoBehind(genesis, events, num);
    } else {
      UndoBeyond(genesis, events, num);
    }
  }

  lemma UndoBehind(genesis: Block, events: seq<Event<Block>>, num: Number)
    requires genesis.trxs == [] && BooksOk(genesis, events) && num < Next(events)
    ensures BooksOk(genesis, events + [Undo(num)])
  {
    hide MemUpTo, TablesUpTo, RowsUpTo, Forget, ForgetRows, SigsAt;
    OneMore(events, Undo(num));
    OwedShape(events);
    SureShape(events);
    var was, chain := Play(events), SigsAt(genesis, events);
    ChainLength(genesis, events);
    SigsUndo(genesis, events, num);
    UndoTables(was, chain, Sure(events), Owed(events).Keys, num, Owed(events + [Undo(num)]).Keys);
    ForgetLast(was.mem, was.tables[num - 1], num);
  }

  lemma UndoBeyond(genesis: Block, events: seq<Event<Block>>, num: Number)
    requires genesis.trxs == [] && BooksOk(genesis, events) && num >= Next(events)
    ensures BooksOk(genesis, events + [Undo(num)])
  {
    hide MemUpTo, TablesUpTo, RowsUpTo, Forget, ForgetRows, SigsAt;
    OneMore(events, Undo(num));
    OwedShape(events);
    SureShape(events);
    var was, chain := Play(events), SigsAt(genesis, events);
    ChainLength(genesis, events);
    SameSigs(genesis, events, Undo(num));
    UndoAhead(was, chain, Sure(events), Owed(events).Keys, num);
    TablesElsewhere(was.tables, chain, Sure(events), Owed(events).Keys, Owed(events + [Undo(num)]).Keys);
    ForgetLast(was.mem, was.tables[|chain| - 1], num);
  }

  lemma ForgetLast(m: Memory, rows: Rows, num: Number)
    ensures Forget(m, rows, num).last == if num <= m.last then num - 1 else m.last
  {
  }

  lemma TablesElsewhere(tables: seq<Rows>, chain: Chain, sure: nat, owed: set<nat>, now: set<nat>)
    requires sure < |chain| && TablesUpTo(tables, chain, sure, owed) && now <= owed
    ensures TablesUpTo(tables, chain, sure, now)
  {
    hide RowsUpTo;
    forall h | 0 <= h < |chain|
      ensures RowsUpTo(tables[h], h, chain, sure, now)
    {
      assert RowsUpTo(tables[h], h, chain, sure, owed);
      RowsElsewhere(tables[h], h, chain, sure, owed, chain, sure, now);
    }
  }

  lemma UndoTables(was: Books, chain: Chain, sure: nat, owed: set<nat>, num: Number, now: set<nat>)
    requires sure < |chain| && MemUpTo(was.mem, chain, sure) && TablesUpTo(was.tables, chain, sure, owed)
    requires num < |chain| && |chain| - 1 <= was.mem.last && now <= owed
    ensures var less, back := if num <= sure then num - 1 else sure, was.tables[..num];
            && less < |chain[..num]| && MemUpTo(Forget(was.mem, back[num - 1], num), chain[..num], less)
            && back[num - 1 := ForgetRows(back[num - 1], was.mem.last, num)] == back
            && TablesUpTo(back, chain[..num], less, now)
  {
    hide MemUpTo, RowsUpTo, Forget, ForgetRows;
    var less, back := if num <= sure then num - 1 else sure, was.tables[..num];
    assert RowsUpTo(was.tables[num - 1], num - 1, chain, sure, owed);
    MemForgets(was.mem, was.tables[num - 1], chain, sure, owed, num);
    TablesCut(was.tables, chain, sure, owed, num, now);
    assert chain[..num][..less + 1] == chain[..less + 1];
    MemElsewhere(Forget(was.mem, back[num - 1], num), chain, less, chain[..num]);
  }

  /** A reversion the database cannot do, because there is no such block, still takes back a
      discarded one. */
  lemma UndoAhead(was: Books, chain: Chain, sure: nat, owed: set<nat>, num: Number)
    requires sure < |chain| && MemUpTo(was.mem, chain, sure) && TablesUpTo(was.tables, chain, sure, owed)
    requires num >= |chain| && |chain| - 1 <= was.mem.last <= |chain|
    ensures var rows := was.tables[|chain| - 1];
            && MemUpTo(Forget(was.mem, rows, num), chain, sure)
            && was.tables[|chain| - 1 := ForgetRows(rows, was.mem.last, num)] == was.tables
  {
    hide MemUpTo, RowsUpTo;
    if num <= was.mem.last {
      assert RowsUpTo(was.tables[|chain| - 1], |chain| - 1, chain, sure, owed);
      MemForgets(was.mem, was.tables[|chain| - 1], chain, sure, owed, num);
    }
  }

  lemma {:induction false} RunBooks(genesis: Block, events: seq<Event<Block>>)
    requires genesis.trxs == []
    ensures BooksOk(genesis, events)
  {
    hide BooksOk;
    if events == [] {
      NoEvents(genesis);
    } else {
      var init, e := events[..|events| - 1], events[|events| - 1];
      RunBooks(genesis, init);
      assert events == init + [e];
      match e
      case Stand(b) => StandKeeps(genesis, init, b);
      case Fall(b) => FallKeeps(genesis, init, b);
      case Undo(num) => UndoKeeps(genesis, init, num);
    }
  }

  /** Over every run: memory and tables are the window of the chain exactly when every
      discarded block has been followed by a reversion at or below its number. */
  lemma WindowIff(genesis: Block, events: seq<Event<Block>>)
    requires genesis.trxs == []
    ensures AllInStep(Play(events), SigsAt(genesis, events)) <==> Owed(events) == map[]
  {
    hide EntryOf, Join, SigsAt;
    RunBooks(genesis, events);
    OwedShape(events);
    SureShape(events);
    var books, chain := Play(events), SigsAt(genesis, events);
    assert |chain| == Next(events) by { ChainLength(genesis, events); }
    if Owed(events) == map[] {
      forall h | 0 <= h < |chain|
        ensures RowsOf(books.tables[h], chain[..h + 1])
      {
        assert RowsUpTo(books.tables[h], h, chain, Sure(events), Owed(events).Keys);
      }
    } else if books.mem.last + 1 == |chain| {
      var i := Sure(events) + 1;
      assert i in Owed(events) && i < |chain|;
      assert RowsUpTo(books.tables[i], i, chain, Sure(events), Owed(events).Keys);
      assert i !in books.tables[i] && |chain[..i + 1]| == i + 1;
      assert !RowsOf(books.tables[i], chain[..i + 1]);
    }
  }

  // ----- replays -----

  /** The blocks before the first one owed were accepted against the true window. */
  lemma {:induction false} SureAccepted(genesis: Block, events: seq<Event<Block>>, checks: Checks)
    requires genesis.trxs == [] && Allowed(genesis, events, checks)
    ensures Sure(events) < Next(events) && ChainOk(ChainOf(genesis, events)[..Sure(events) + 1])
  {
    hide ChainOk, Accepts;
    SureShape(events);
    if events == [] {
      assert ChainOk([genesis]) && ChainOf(genesis, events)[..1] == [genesis] by { GenesisOk(genesis); }
    } else {
      var init, e := events[..|events| - 1], events[|events| - 1];
      SureAccepted(genesis, init, checks);
      SureShape(init);
      var was := ChainOf(genesis, init);
      if Sure(events) <= Sure(init) {
        SurePrefix(genesis, events);
        ChainOkCut(was[..Sure(init) + 1], Sure(events) + 1);
      } else {
        SureMore(genesis, events);
        AcceptedInStep(genesis, init, e.block, checks);
        ChainOkGrows(was, e.block);
      }
    }
  }

  lemma {:induction false} SurePrefix(genesis: Block, events: seq<Event<Block>>)
    requires events != [] && Sure(events) <= Sure(events[..|events| - 1]) < Next(events[..|events| - 1])
    requires Sure(events) < Next(events)
    ensures var init := events[..|events| - 1];
            ChainOf(genesis, events)[..Sure(events) + 1]
            == ChainOf(genesis, init)[..Sure(init) + 1][..Sure(events) + 1]
  {
  }

  lemma {:induction false} SureMore(genesis: Block, events: seq<Event<Block>>)
    requires events != [] && Sure(events[..|events| - 1]) < Sure(events) < Next(events)
    requires Sure(events[..|events| - 1]) < Next(events[..|events| - 1])
    ensures var init, e := events[..|events| - 1], events[|events| - 1];
            && e.Stand? && Sure(init) + 1 == Next(init) && Last(init) < Next(init)
            && ChainOf(genesis, init)[..Sure(init) + 1] == ChainOf(genesis, init)
            && ChainOf(genesis, events)[..Sure(events) + 1] == ChainOf(genesis, init) + [e.block]
  {
  }

  lemma GenesisOk(genesis: Block)
    requires genesis.trxs == []
    ensures ChainOk([genesis])
  {
  }

  lemma ChainOkCut(chain: seq<Block>, n: nat)
    requires ChainOk(chain) && 1 <= n <= |chain|
    ensures ChainOk(chain[..n])
  {
    hide Accepted;
    forall k | 1 <= k < n
      ensures Accepted(chain[..n][..k], chain[..n][k])
    {
      assert chain[..n][..k] == chain[..k] && Accepted(chain[..k], chain[k]);
    }
  }

  lemma ChainOkGrows(chain: seq<Block>, b: Block)
    requires ChainOk(chain) && Accepted(chain, b)
    ensures ChainOk(chain + [b])
  {
    hide Accepted;
    var all := chain + [b];
    forall k | 1 <= k < |all|
      ensures Accepted(all[..k], all[k])
    {
      assert all[..k] == chain[..k];
      if k < |chain| {
        assert Accepted(chain[..k], chain[k]);
      } else {
        assert chain[..k] == chain;
      }
    }
  }

  /** With nothing owed the memory is the window. */
  lemma AcceptedInStep(genesis: Block, events: seq<Event<Block>>, b: Block, checks: Checks)
    requires genesis.trxs == [] && Accepts(genesis, events, b, checks)
    requires Sure(events) + 1 == Next(events) && Last(events) < Next(events)
    ensures Accepted(ChainOf(genesis, events), b)
  {
    hide Found, Recent, EntryOf, Join;
    SureShape(events);
    OwedShape(events);
    assert Owed(events) == map[];
    WindowIff(genesis, events);
    var trxs, chain := Play(events).mem.trxs, SigsAt(genesis, events);
    forall i | 0 <= i < |b.trxs|
      ensures !Recent(chain, b.trxs[i].sig)
    {
      FoundIsRecent(trxs, chain, b.trxs[i].sig);
    }
  }

  /** Over every run in which no block stands on the number of a discarded one, unless that was
      taken back before, no signed transaction occurs twice on the chain.  In general that is
      true of the blocks before the first number owed. */
  lemma ReplaySafe(genesis: Block, events: seq<Event<Block>>, checks: Checks)
    requires genesis.trxs == [] && Allowed(genesis, events, checks)
    ensures Sure(events) < Next(events) && NoReplay(ChainOf(genesis, events)[..Sure(events) + 1])
    ensures (forall i :: i in Owed(events) ==> i >= Next(events)) ==> NoReplay(ChainOf(genesis, events))
  {
    SureAccepted(genesis, events, checks);
    SureShape(events);
    ChainHasNoReplay(ChainOf(genesis, events)[..Sure(events) + 1]);
    if forall i :: i in Owed(events) ==> i >= Next(events) {
      assert Sure(events) + 1 == Next(events);
      assert ChainOf(genesis, events)[..Sure(events) + 1] == ChainOf(genesis, events);
    }
  }

  /** After any run: a block that stands on the number of a discarded one is not noted, and
      each of its transactions is accepted again as long as it lives. */
  lemma ReplayAfterDiscard(genesis: Block, events: seq<Event<Block>>, failed: Block, second: Block, a: nat, again: Block)
    requires Passes(genesis, events + [Fall(failed)], second) && a < |second.trxs| && again.trxs == [second.trxs[a]]
    requires second.time < again.time && ExpirationOk(second.trxs[a].expiration, again.time)
    ensures var run := events + [Fall(failed)] + [Stand(second)];
            Passes(genesis, run, again) && !NoReplay(ChainOf(genesis, run + [Stand(again)]))
  {
    hide Found;
    var first := events + [Fall(failed)];
    var run := first + [Stand(second)];
    OneMore(events, Fall(failed));
    OneMore(first, Stand(second));
    OneMore(run, Stand(again));
    NotedBefore(events, failed);
    assert Play(run).mem == Play(first).mem;
    var n := Next(first);
    var chain := ChainOf(genesis, run + [Stand(again)]);
    assert chain[n] == second && chain[n + 1] == again && |chain| == n + 2;
    assert chain[n].trxs[a] == chain[n + 1].trxs[0];
  }

  /** The number of a discarded block is known, and so is not noted again. */
  lemma NotedBefore(events: seq<Event<Block>>, failed: Block)
    ensures var first := events + [Fall(failed)];
            Next(first) == Next(events) && Play(first).mem.last >= Next(first)
  {
    OneMore(events, Fall(failed));
    NoteLast(Play(events).mem, Next(events), SigsOf(failed));
  }

  const SOME_SIG: Signature := seq(SIGNATURE_SIZE, i => 7)

  /** Such a run from genesis: an empty block is discarded, the next one carries a transaction,
      and the one after it carries it again. */
  lemma Replayed() returns (run: seq<Event<Block>>)
    ensures var genesis, checks := Block(0, []), (e: seq<Event<Block>>, b: Block) => seq(|b.trxs|, i => true);
            Allowed(genesis, run, checks) && !NoReplay(ChainOf(genesis, run))
  {
    var genesis, checks := Block(0, []), (e: seq<Event<Block>>, b: Block) => seq(|b.trxs|, i => true);
    var trx := Trx([], SOME_SIG, 10);
    var failed, second, again := Block(1, []), Block(2, [trx]), Block(3, [trx]);
    var e1, e2, e3 := Fall(failed), Stand(second), Stand(again);
    assert Play([]).mem.trxs == map[];
    assert Accepts(genesis, [], failed, checks);
    OneMore([], e1);
    assert [] + [e1] == [e1];
    assert Allowed(genesis, [e1], checks);
    assert Accepts(genesis, [e1], second, checks) by { NothingFound(failed, SOME_SIG); }
    OneMore([e1], e2);
    assert Allowed(genesis, [e1] + [e2], checks);
    ReplayAfterDiscard(genesis, [], failed, second, 0, again);
    OneMore([e1] + [e2], e3);
    run := [e1] + [e2] + [e3];
  }

  lemma NothingFound(failed: Block, sig: Bytes)
    requires failed.trxs == []
    ensures !Found(Play([Fall(failed)]).mem.trxs, sig)
  {
    var e: Event<Block> := Fall(failed);
    assert [e][..0] == [];
    assert SigsOf(failed) == [];
    assert Join([]) == [];
    assert CutEntry([]).trxs == {};
  }

  // ----- the window at work -----

  class Node {
    var history: InBlockTrxChecker
    var chain: seq<Block>
    var tables: seq<Rows>

    /** The node has gone through the events. */
    ghost predicate Is(genesis: Block, events: seq<Event<Block>>)
      reads this, history
    {
      && chain == ChainOf(genesis, events) && tables == Play(events).tables
      && history.Mem() == Play(events).mem && history.rows == tables[|tables| - 1]
    }

    constructor (genesis: Block)
      ensures Is(genesis, []) && fresh(history)
    {
      var h := new InBlockTrxChecker(map[], 0);
      assert Loaded(map[], map[], Start(0), 0) == map[];
      history := h;
      chain := [genesis];
      tables := [map[]];
    }

    /** A block is checked against the window and enters it, and then its passes decide whether
        it stands; if not, the database goes back and the memory does not. */
    method PushBlock(b: Block, others: seq<bool>, stands: bool, ghost genesis: Block, ghost events: seq<Event<Block>>)
      returns (accepted: bool)
      requires Is(genesis, events) && |others| == |b.trxs|
      modifies this`chain, this`tables, history
      ensures history == old(history) && accepted == (Passes(genesis, events, b) && AllPass(others))
      ensures Is(genesis, if !accepted then events else events + [if stands then Stand(b) else Fall(b)])
    {
      hide Note, NoteRow, TrxsPass;
      accepted := CheckBlockTrxs(history, b, others);
      accepted := accepted && chain[|chain| - 1].time < b.time;
      if accepted {
        OneMore(events, Stand(b));
        OneMore(events, Fall(b));
        history.BlockApplied(|chain|, SigsOf(b));
        if stands {
          chain := chain + [b];
          tables := tables + [history.rows];
        } else {
          history.rows := tables[|tables| - 1];
        }
      }
    }

    /** The database goes back to the table before block `num` if there is such a block; the
        window is told in any case. */
    method PopBlock(num: Number, ghost genesis: Block, ghost events: seq<Event<Block>>)
      requires Is(genesis, events)
      modifies this`chain, this`tables, history
      ensures Is(genesis, events + [Undo(num)]) && history == old(history)
    {
      hide Forget, ForgetRows;
      OneMore(events, Undo(num));
      if num < |chain| {
        chain := chain[..num];
        tables := tables[..num];
        history.rows := tables[num - 1];
      }
      history.BlockReverted(num);
      tables := tables[|tables| - 1 := history.rows];
    }
  }

  /** The attempts that have an effect: a block that is not accepted has none. */
  ghost function Effective(genesis: Block, attempts: seq<Event<Block>>, checks: Checks): seq<Event<Block>> {
    if attempts == [] then []
    else
      var done, e := Effective(genesis, attempts[..|attempts| - 1], checks), attempts[|attempts| - 1];
      if e.Undo? || Accepts(genesis, done, e.block, checks) then done + [e] else done
  }

  /** A node that keeps its window through any run of blocks pushed, discarded and popped: its
      window is right exactly when no discarded block is left, and while none has a block
      standing on its number, no signed transaction occurs twice. */
  method RunNode(genesis: Block, attempts: seq<Event<Block>>, checks: Checks) returns (node: Node, events: seq<Event<Block>>)
    requires genesis.trxs == [] && Judges(checks)
    ensures node.Is(genesis, events) && events == Effective(genesis, attempts, checks) && Allowed(genesis, events, checks)
    ensures AllInStep(Books(node.history.Mem(), node.tables), SigsAt(genesis, events)) <==> Owed(events) == map[]
    ensures (forall i :: i in Owed(events) ==> i >= |node.chain|) ==> NoReplay(node.chain)
  {
    hide AllInStep, Passes, AllPass, NoReplay, Play;
    node := new Node(genesis);
    events := [];
    for i := 0 to |attempts|
      invariant fresh(node) && fresh(node.history) && node.Is(genesis, events)
      invariant events == Effective(genesis, attempts[..i], checks) && Allowed(genesis, events, checks)
    {
      assert attempts[..i + 1][..i] == attempts[..i];
      var e := attempts[i];
      OneMore(events, e);
      if e.Undo? {
        node.PopBlock(e.num, genesis, events);
        events := events + [e];
      } else {
        var accepted := node.PushBlock(e.block, checks(events, e.block), e.Stand?, genesis, events);
        if accepted {
          events := events + [e];
        }
      }
    }
    assert attempts[..|attempts|] == attempts;
    WindowIff(genesis, events);
    ReplaySafe(genesis, events, checks);
  }
}
