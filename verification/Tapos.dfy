/** The ring of recent block ids that transactions refer to. */
module Tapos {
  import opened Discards

  const SLOTS: nat := 0x800

  type Id = seq<int>

  /** The ring slot of a block: the low eleven bits of its number. */
  function Slot(num: nat): (r: nat)
    ensures r < SLOTS
  {
    num % SLOTS
  }

  /** The block summary table after the blocks `1..|ids|`; every slot starts with the
      zero id. */
  function Summary(ids: seq<Id>, zero: Id): (r: seq<Id>)
    ensures |r| == SLOTS
  {
    if ids == [] then seq(SLOTS, i => zero)
    else Summary(ids[..|ids| - 1], zero)[Slot(|ids|) := ids[|ids| - 1]]
  }

  /** Some block from `from` up to, but not including, `to` uses the slot. */
  ghost predicate Used(s: nat, from: nat, to: nat) {
    exists n :: from <= n < to && Slot(n) == s
  }

  /** Blocks that do not use a slot leave it alone. */
  lemma {:induction false} SlotKept(ids: seq<Id>, zero: Id, m: nat, s: nat)
    requires m <= |ids| && s < SLOTS && !Used(s, m + 1, |ids| + 1)
    ensures Summary(ids, zero)[s] == Summary(ids[..m], zero)[s]
  {
    if m < |ids| {
      var init := ids[..|ids| - 1];
      assert Slot(|ids|) != s;
      assert init[..m] == ids[..m];
      SlotKept(init, zero, m, s);
    } else {
      assert ids[..m] == ids;
    }
  }

  lemma UsedStep(s: nat, from: nat, i: nat)
    requires from <= i
    ensures Used(s, from, i + 1) <==> Used(s, from, i) || s == Slot(i)
  {
    if s == Slot(i) {
      assert Used(s, from, i + 1);
    }
  }

  /** As many consecutive blocks as there are slots use every slot. */
  lemma RoundUsesAll(from: nat, s: nat)
    requires s < SLOTS
    ensures Used(s, from, from + SLOTS)
  {
    var n := from + (s - from) % SLOTS;
    var q := (s - from) / SLOTS;
    assert n == s - q * SLOTS;
    SlotOf(n, q, s);
  }

  lemma SlotOf(n: nat, q: int, s: nat)
    requires s < SLOTS && n == s - q * SLOTS
    ensures Slot(n) == s
  {
  }

  lemma NotUsed(from: nat, to: nat)
    requires to <= from
    ensures forall s :: 0 <= s < SLOTS ==> !Used(s, from, to)
  {
  }

  type Ring = r: seq<Id> | |r| == SLOTS witness seq(SLOTS, i => [])

  /** The slots of the blocks in a range are read from the table. */
  ghost function Loaded(ring: Ring, table: Ring, from: nat, to: nat): Ring {
    seq(SLOTS, s requires 0 <= s < SLOTS => if Used(s, from, to + 1) then table[s] else ring[s])
  }

  /** The slots of the blocks that are new come from the table. */
  ghost function Note(ring: Ring, last: nat, table: Ring, num: nat): Ring {
    if num <= last then ring
    else if num - last < SLOTS then Loaded(ring, table, last + 1, num) else table
  }

  /** The slots of the blocks from `num` on come from the table that was before them. */
  ghost function Forget(ring: Ring, last: nat, table: Ring, num: nat): Ring {
    if num > last then ring
    else if last - num + 1 < SLOTS then Loaded(ring, table, num, last) else table
  }

  class TaposChecker {
    var blockIds: array<Id>
    var lastBlock: nat
    var summary: Ring              // the database's table of block summaries

    constructor (stored: Ring, last: nat)
      ensures blockIds.Length == SLOTS && fresh(blockIds) && blockIds[..] == stored == summary && lastBlock == last
    {
      blockIds := new Id[SLOTS](i => []);
      lastBlock := last;
      summary := stored;
      new;
      LoadAll();
    }

    /** Copies the slots of a range of blocks from the table. */
    method LoadBlockId(from: nat, to: nat)
      requires blockIds.Length == SLOTS
      modifies blockIds
      ensures blockIds[..] == Loaded(old(blockIds[..]), summary, from, to)
    {
      hide Used, Slot;
      var i := from;
      NotUsed(from, from);
      while i <= to
        invariant from <= i && (i <= to + 1 || i == from)
        invariant forall s :: 0 <= s < SLOTS ==>
                    blockIds[s] == if Used(s, from, i) then summary[s] else old(blockIds[s])
      {
        var n := Slot(i);
        blockIds[n] := summary[n];
        forall s | 0 <= s < SLOTS
          ensures blockIds[s] == if Used(s, from, i + 1) then summary[s] else old(blockIds[s])
        {
          UsedStep(s, from, i);
        }
        i := i + 1;
      }
      if from > to {
        NotUsed(from, to + 1);
      }
    }

    method LoadAll()
      requires blockIds.Length == SLOTS
      modifies blockIds
      ensures blockIds[..] == summary
    {
      LoadBlockId(1, SLOTS);
      forall s | 0 <= s < SLOTS
        ensures blockIds[s] == summary[s]
      {
        RoundUsesAll(1, s);
        assert blockIds[..][s] == summary[s];
      }
    }

    /** `createBlockSummary`, which writes the table. */
    method CreateBlockSummary(num: nat, id: Id, ghost ids: seq<Id>, ghost zero: Id)
      requires summary == Summary(ids, zero) && num == |ids| + 1
      modifies this`summary
      ensures summary == Summary(ids + [id], zero)
    {
      summary := summary[Slot(num) := id];
      assert (ids + [id])[..|ids|] == ids;
    }

    method BlockApplied(num: nat)
      requires blockIds.Length == SLOTS
      modifies this`lastBlock, blockIds
      ensures blockIds[..] == Note(old(blockIds[..]), old(lastBlock), summary, num)
      ensures lastBlock == if num > old(lastBlock) then num else old(lastBlock)
    {
      hide Loaded;
      if num > lastBlock {
        var count := num - lastBlock;
        if count < SLOTS {
          LoadBlockId(lastBlock + 1, num);
        } else {
          LoadAll();
        }
        lastBlock := num;
      }
    }

    method BlockReverted(num: Number)
      requires blockIds.Length == SLOTS
      modifies this`lastBlock, blockIds
      ensures blockIds[..] == Forget(old(blockIds[..]), old(lastBlock), summary, num)
      ensures lastBlock == if num <= old(lastBlock) then num - 1 else old(lastBlock)
    {
      hide Loaded;
      if num <= lastBlock {
        var count := lastBlock - num + 1;
        if count < SLOTS {
          LoadBlockId(num, lastBlock);
        } else {
          LoadAll();
        }
        lastBlock := num - 1;
      }
    }
  }

  // ----- runs -----

  /** The table after the events. */
  function TableAfter(events: seq<Event<Id>>, zero: Id): Ring {
    Summary(Standing(events), zero)
  }

  /** The ring after the events.  A block that is discarded is in the table when the ring is
      told, and no longer afterwards. */
  ghost function RingAfter(events: seq<Event<Id>>, zero: Id): Ring {
    if events == [] then TableAfter([], zero)
    else
      var init := events[..|events| - 1];
      var was, last := RingAfter(init, zero), Last(init);
      match events[|events| - 1]
      case Stand(id) => Note(was, last, Summary(Standing(init) + [id], zero), Next(init))
      case Fall(id) => Note(was, last, Summary(Standing(init) + [id], zero), Next(init))
      case Undo(num) => Forget(was, last, TableAfter(events, zero), num)
  }

  /** The discarded blocks that neither a reversion at or below their number nor the next block
      of their slot has followed. */
  function Wrong(events: seq<Event<Id>>): map<nat, Id> {
    if events == [] then map[]
    else
      var init := events[..|events| - 1];
      var was, n := Wrong(init), Next(init);
      match events[|events| - 1]
      case Stand(_) => if n > Last(init) then was - {n - SLOTS} else was
      case Fall(id) => if n > Last(init) then (was - {n - SLOTS})[n := id] else was
      case Undo(num) => Below(was, num)
  }

  /** The slots of such blocks hold them, all others are those of the table. */
  ghost predicate RingOk(ring: Ring, table: Ring, wrong: map<nat, Id>, last: nat) {
    && (forall i :: i in wrong ==> i <= last < i + SLOTS && ring[Slot(i)] == wrong[i])
    && (forall s :: 0 <= s < SLOTS && (forall i :: i in wrong ==> Slot(i) != s) ==> ring[s] == table[s])
  }

  lemma SlotsApart(i: nat, j: nat)
    requires i < j < i + SLOTS
    ensures Slot(i) != Slot(j)
  {
  }

  lemma SlotAgain(i: nat, j: nat)
    requires i < j && Slot(i) == Slot(j)
    ensures j >= i + SLOTS
  {
    if j < i + SLOTS {
      SlotsApart(i, j);
    }
  }

  lemma OneSlot(ring: Ring, table: Ring, last: nat)
    ensures Note(ring, last, table, last + 1) == ring[Slot(last + 1) := table[Slot(last + 1)]]
  {
    hide Slot;
    var now := ring[Slot(last + 1) := table[Slot(last + 1)]];
    NotUsed(last + 1, last + 1);
    forall s | 0 <= s < SLOTS
      ensures Loaded(ring, table, last + 1, last + 1)[s] == now[s]
    {
      UsedStep(s, last + 1, last + 1);
    }
  }

  /** A new block takes its slot. */
  lemma SlotTaken(ring: Ring, table: Ring, wrong: map<nat, Id>, last: nat, id: Id, stands: bool)
    requires RingOk(ring, table, wrong, last)
    ensures var n, s := last + 1, Slot(last + 1);
            RingOk(ring[s := id], if stands then table[s := id] else table,
                   if stands then wrong - {n - SLOTS} else (wrong - {n - SLOTS})[n := id], n)
  {
    hide Slot;
    var n, s := last + 1, Slot(last + 1);
    var now := if stands then wrong - {n - SLOTS} else (wrong - {n - SLOTS})[n := id];
    forall i | i in wrong && i != n - SLOTS
      ensures Slot(i) != s
    {
      SlotsApart(i, n);
    }
    forall t | 0 <= t < SLOTS && t != s && (forall i :: i in now ==> Slot(i) != t)
      ensures ring[t] == table[t]
    {
      if n - SLOTS in wrong {
        SameSlot(n, n - SLOTS);
      }
      assert forall i :: i in wrong ==> Slot(i) != t;
    }
  }

  lemma SameSlot(n: nat, m: nat)
    requires n == m + SLOTS
    ensures Slot(n) == Slot(m)
  {
  }

  /** A block whose number is known changes the table alone, in a slot that is wrong. */
  lemma SlotSkipped(ring: Ring, table: Ring, wrong: map<nat, Id>, last: nat, id: Id)
    requires RingOk(ring, table, wrong, last) && last in wrong
    ensures RingOk(ring, table[Slot(last) := id], wrong, last)
  {
    hide Slot;
  }

  /** A reversion reads the slots of the blocks undone from the table before them. */
  lemma SlotsReread(ring: Ring, ids: seq<Id>, zero: Id, wrong: map<nat, Id>, last: nat, num: Number)
    requires RingOk(ring, Summary(ids, zero), wrong, last) && |ids| <= last
    ensures var less := if num <= |ids| then ids[..num - 1] else ids;
            RingOk(Forget(ring, last, Summary(less, zero), num), Summary(less, zero), Below(wrong, num),
                   if num <= last then num - 1 else last)
  {
    hide Slot, Summary;
    var less := if num <= |ids| then ids[..num - 1] else ids;
    var table, now := Summary(less, zero), Forget(ring, last, Summary(less, zero), num);
    if num <= last {
      forall i | i in Below(wrong, num)
        ensures now[Slot(i)] == wrong[i] && last - num + 1 < SLOTS
      {
        if j :| num <= j < last + 1 && Slot(j) == Slot(i) {
          SlotAgain(i, j);
        }
        assert !Used(Slot(i), num, last + 1);
      }
      forall s | 0 <= s < SLOTS && forall i :: i in Below(wrong, num) ==> Slot(i) != s
        ensures now[s] == table[s]
      {
        if last - num + 1 < SLOTS && !Used(s, num, last + 1) {
          assert forall i :: i in wrong ==> Slot(i) != s;
          if num <= |ids| {
            SlotKept(ids, zero, num - 1, s);
          }
        }
      }
    } else {
      assert Below(wrong, num) == wrong;
    }
  }

  lemma {:induction false} RunRing(events: seq<Event<Id>>, zero: Id)
    ensures RingOk(RingAfter(events, zero), TableAfter(events, zero), Wrong(events), Last(events))
    ensures Last(events) == Next(events) ==> Last(events) in Wrong(events)
  {
    hide Slot, RingOk, Note, Forget;
    if events == [] {
      assert RingOk(TableAfter([], zero), TableAfter([], zero), map[], 0) by { NothingWrong(TableAfter([], zero)); }
    } else {
      var init, e := events[..|events| - 1], events[|events| - 1];
      RunRing(init, zero);
      OwedShape(init);
      match e
      case Stand(id) => RingNotes(init, zero, id, true);
      case Fall(id) => RingNotes(init, zero, id, false);
      case Undo(num) => SlotsReread(RingAfter(init, zero), Standing(init), zero, Wrong(init), Last(init), num);
    }
  }

  /** One more block: the ring takes it up when its number is new. */
  lemma RingNotes(init: seq<Event<Id>>, zero: Id, id: Id, stands: bool)
    requires RingOk(RingAfter(init, zero), TableAfter(init, zero), Wrong(init), Last(init))
    requires Next(init) - 1 <= Last(init) <= Next(init) && (Last(init) == Next(init) ==> Last(init) in Wrong(init))
    ensures var n, last, ids := Next(init), Last(init), Standing(init);
            var ring := Note(RingAfter(init, zero), last, Summary(ids + [id], zero), n);
            var table := Summary(if stands then ids + [id] else ids, zero);
            var was := Wrong(init);
            RingOk(ring, table, if n <= last then was else if stands then was - {n - SLOTS} else (was - {n - SLOTS})[n := id], n)
  {
    hide Slot, RingOk, Note, RingAfter, Wrong, Last, Standing;
    var n, last, ring, ids := Next(init), Last(init), RingAfter(init, zero), Standing(init);
    SummaryGrows(ids, zero, id);
    if n > last {
      OneSlot(ring, Summary(ids + [id], zero), last);
      SlotTaken(ring, Summary(ids, zero), Wrong(init), last, id, stands);
    } else {
      NoteKnown(ring, last, Summary(ids + [id], zero), n);
      if stands {
        SlotSkipped(ring, Summary(ids, zero), Wrong(init), last, id);
      }
    }
  }

  lemma NothingWrong(ring: Ring)
    ensures RingOk(ring, ring, map[], 0)
  {
  }

  lemma NoteKnown(ring: Ring, last: nat, table: Ring, num: nat)
    requires num <= last
    ensures Note(ring, last, table, num) == ring
  {
  }

  lemma SummaryGrows(ids: seq<Id>, zero: Id, id: Id)
    ensures Summary(ids + [id], zero) == Summary(ids, zero)[Slot(|ids| + 1) := id]
  {
    assert (ids + [id])[..|ids|] == ids;
  }

  /** Over every run: the ring is the table exactly when every discarded block has been followed
      by a reversion at or below its number or by the next block of its slot, or happens to
      have the id that the table holds there. */
  lemma RingIff(events: seq<Event<Id>>, zero: Id)
    ensures RingAfter(events, zero) == TableAfter(events, zero) <==>
            forall i :: i in Wrong(events) ==> Wrong(events)[i] == TableAfter(events, zero)[Slot(i)]
  {
    hide RingAfter, TableAfter, Wrong, Slot;
    RunRing(events, zero);
    var ring, table, wrong := RingAfter(events, zero), TableAfter(events, zero), Wrong(events);
    if forall i :: i in wrong ==> wrong[i] == table[Slot(i)] {
      forall s | 0 <= s < SLOTS
        ensures ring[s] == table[s]
      {
        if i :| i in wrong && Slot(i) == s {
          assert ring[Slot(i)] == wrong[i];
        }
      }
    }
  }

  /** A wrong slot belongs to a discarded block that is owed. */
  lemma {:induction false} WrongIsOwed(events: seq<Event<Id>>)
    ensures forall i :: i in Wrong(events) ==> i in Owed(events) && i + SLOTS > Last(events)
  {
    if events != [] {
      var init := events[..|events| - 1];
      WrongIsOwed(init);
      OwedShape(init);
    }
  }

  /** The checker driven through any run: its ring is right under exactly that condition. */
  method RunChecker(events: seq<Event<Id>>, zero: Id) returns (c: TaposChecker)
    ensures fresh(c) && c.blockIds.Length == SLOTS && c.summary == TableAfter(events, zero)
    ensures c.blockIds[..] == RingAfter(events, zero)
    ensures c.blockIds[..] == c.summary <==>
            forall i :: i in Wrong(events) ==> Wrong(events)[i] == c.summary[Slot(i)]
  {
    hide Slot, Note, Forget, Loaded, Summary;
    var tables := [Summary([], zero)];
    c := new TaposChecker(tables[0], 0);
    for k := 0 to |events|
      invariant fresh(c) && fresh(c.blockIds) && c.blockIds.Length == SLOTS && c.lastBlock == Last(events[..k])
      invariant c.blockIds[..] == RingAfter(events[..k], zero) && |tables| == Next(events[..k])
      invariant forall h :: 0 <= h < |tables| ==> tables[h] == Summary(Standing(events[..k])[..h], zero)
      invariant c.summary == TableAfter(events[..k], zero)
    {
      var e := events[k];
      ghost var init, ids := events[..k], Standing(events[..k]);
      assert events[..k + 1][..k] == init;
      var n := |tables|;
      match e
      case Stand(id) =>
        c.CreateBlockSummary(n, id, ids, zero);
        c.BlockApplied(n);
        assert (ids + [id])[..n] == ids + [id] && forall h :: 0 <= h < n ==> (ids + [id])[..h] == ids[..h];
        tables := tables + [c.summary];
      case Fall(id) =>
        c.CreateBlockSummary(n, id, ids, zero);
        c.BlockApplied(n);
        assert ids[..n - 1] == ids;
        c.summary := tables[n - 1];
      case Undo(num) =>
        if num < n {
          assert forall h :: 0 <= h < num ==> ids[..num - 1][..h] == ids[..h];
          assert ids[..num - 1][..num - 1] == ids[..num - 1];
          tables := tables[..num];
          c.summary := tables[num - 1];
        }
        c.BlockReverted(num);
    }
    assert events[..|events|] == events;
    RingIff(events, zero);
  }
}
