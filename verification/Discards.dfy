/** What the caches of the transaction manager are told.  A block is announced to them before
    the passes at its end, and when one of these panics the database forgets the block, but
    nobody tells the caches.  The next block of that number is then taken for known. */
module Discards {

  /** Blocks are numbered from one. */
  type Number = n: nat | n >= 1 witness 1

  /** A block stands, or is discarded after it was announced; a reversion of all blocks from
      a number on is announced, whether the database can do it or not. */
  datatype Event<T> = Stand(block: T) | Fall(block: T) | Undo(num: Number)

  /** The blocks of the chain; block `i + 1` is at index `i`. */
  function Standing<T>(events: seq<Event<T>>): seq<T> {
    if events == [] then []
    else
      var was := Standing(events[..|events| - 1]);
      match events[|events| - 1]
      case Stand(b) => was + [b]
      case Fall(_) => was
      case Undo(num) => if num <= |was| then was[..num - 1] else was
  }

  /** The number of the next block. */
  function Next<T>(events: seq<Event<T>>): Number {
    |Standing(events)| + 1
  }

  /** The latest number the caches know of. */
  function Last<T>(events: seq<Event<T>>): nat {
    if events == [] then 0
    else
      var init := events[..|events| - 1];
      match events[|events| - 1]
      case Stand(_) => if Next(init) > Last(init) then Next(init) else Last(init)
      case Fall(_) => if Next(init) > Last(init) then Next(init) else Last(init)
      case Undo(num) => if num <= Last(init) then num - 1 else Last(init)
  }

  /** The discarded blocks that no reversion at or below their number has followed, under
      their numbers. */
  function Owed<T>(events: seq<Event<T>>): map<nat, T> {
    if events == [] then map[]
    else
      var init := events[..|events| - 1];
      match events[|events| - 1]
      case Stand(_) => Owed(init)
      case Fall(b) => if Next(init) in Owed(init) then Owed(init) else Owed(init)[Next(init) := b]
      case Undo(num) => Below(Owed(init), num)
  }

  function Below<T>(m: map<nat, T>, num: nat): map<nat, T> {
    map i | i in m && i < num :: m[i]
  }

  /** How many blocks of the chain come before the first number owed. */
  function Sure<T>(events: seq<Event<T>>): nat {
    if events == [] then 0
    else
      var init := events[..|events| - 1];
      match events[|events| - 1]
      case Stand(_) => if Sure(init) + 1 == Next(init) && Last(init) < Next(init) then Sure(init) + 1 else Sure(init)
      case Fall(_) => Sure(init)
      case Undo(num) => if num <= Sure(init) then num - 1 else Sure(init)
  }

  lemma OneMore<T>(events: seq<Event<T>>, e: Event<T>)
    ensures (events + [e])[..|events + [e]| - 1] == events && (events + [e])[|events + [e]| - 1] == e
  {
  }

  /** The caches are at most one block ahead, which is then owed. */
  lemma {:induction false} OwedShape<T>(events: seq<Event<T>>)
    ensures Next(events) - 1 <= Last(events) <= Next(events)
    ensures Last(events) == Next(events) <==> Next(events) in Owed(events)
    ensures forall i :: i in Owed(events) ==> 1 <= i <= Last(events)
  {
    if events != [] {
      OwedShape(events[..|events| - 1]);
    }
  }

  /** The blocks before the first owed one are sure; without any, all are. */
  lemma {:induction false} SureShape<T>(events: seq<Event<T>>)
    ensures Sure(events) < Next(events)
    ensures forall i :: i in Owed(events) ==> i > Sure(events)
    ensures if Owed(events) == map[] then Sure(events) == Last(events) == Next(events) - 1
            else Sure(events) + 1 in Owed(events)
  {
    OwedShape(events);
    if events != [] {
      var init := events[..|events| - 1];
      SureShape(init);
      OwedShape(init);
      if events[|events| - 1].Undo? {
        var num := events[|events| - 1].num;
        assert Owed(events) == Below(Owed(init), num);
        if Owed(events) == map[] && Owed(init) != map[] {
          assert Sure(init) + 1 !in Below(Owed(init), num);
          assert num <= Sure(init) + 1 <= Last(init);
        }
      }
    }
  }
}
