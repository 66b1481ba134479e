/** The chain of checkpoints: commits waiting in a cache under the block they build on, and
    those already flushed to the store. */
module Checkpoint {
  import opened Amounts
  import opened Options
  import opened ByteKeys

  const MAX_UNCOMMITTED_BLOCK_NUM: U64 := 600

  /** A block id carries its number. */
  datatype Id = Id(num: U64, hash: nat)

  const EMPTY: Id := Id(0, 0)

  /** `wellFormed` is the verdict of the commit's own basic validation. */
  datatype Commit = Commit(prev: Id, proposed: Id, height: U64, wellFormed: bool)

  datatype Value = CommitValue(commit: Commit) | KeyValue(key: Bytes)

  datatype AddResult = Added | InvalidCheckPoint | OutOfRange | Exists

  // ----- what is flushed -----

  /** Each commit builds on the one before; the last proposed block is `last`. */
  ghost predicate Linked(origin: Id, chain: seq<Commit>, last: Id) {
    if chain == [] then last == origin
    else
      var c := chain[|chain| - 1];
      c.proposed == last && Linked(origin, chain[..|chain| - 1], c.prev)
  }

  /** The commits by block number, a later one replacing an earlier one. */
  ghost function Recorded(chain: seq<Commit>): map<U64, Commit> {
    if chain == [] then map[]
    else Recorded(chain[..|chain| - 1])[chain[|chain| - 1].proposed.num := chain[|chain| - 1]]
  }

  /** The store holds the recorded commits, and index rows besides. */
  ghost predicate Stored(db: map<Bytes, Value>, recorded: map<U64, Commit>) {
    && (forall n: U64 :: NumKey(n) in db <==> n in recorded)
    && (forall n: U64 :: n in recorded ==> db[NumKey(n)] == CommitValue(recorded[n]))
    && (forall k :: k in db ==> IsNumKey(k) || IsIndexKey(k))
  }

  ghost predicate IsNumKey(k: Bytes) {
    exists n: U64 :: k == NumKey(n)
  }

  ghost predicate IsIndexKey(k: Bytes) {
    exists h: U64 :: k == IndexKey(h)
  }

  lemma ChainExtends(origin: Id, chain: seq<Commit>, last: Id, c: Commit)
    requires Linked(origin, chain, last) && c.prev == last
    ensures Linked(origin, chain + [c], c.proposed)
    ensures Recorded(chain + [c]) == Recorded(chain)[c.proposed.num := c]
  {
    assert (chain + [c])[..|chain|] == chain;
  }

  lemma StoredAdds(db: map<Bytes, Value>, recorded: map<U64, Commit>, c: Commit)
    requires Stored(db, recorded)
    ensures Stored(db[NumKey(c.proposed.num) := CommitValue(c)][IndexKey(c.height) := KeyValue(NumKey(c.proposed.num))],
                   recorded[c.proposed.num := c])
  {
    hide NumKey, IndexKey;
    var key, idx := NumKey(c.proposed.num), IndexKey(c.height);
    var now := db[key := CommitValue(c)][idx := KeyValue(key)];
    forall n: U64
      ensures NumKey(n) in now <==> n in recorded[c.proposed.num := c]
      ensures n in recorded[c.proposed.num := c] ==> now[NumKey(n)] == CommitValue(recorded[c.proposed.num := c][n])
    {
      BelowLimit(n, c.height);
      NumKeyOrder(n, c.proposed.num);
    }
    assert IsNumKey(key) && IsIndexKey(idx);
  }

  class BFTCheckPoint {
    var lastCommitted: Id
    var nextCP: Id
    var cache: map<Id, Commit>
    var db: map<Bytes, Value>

    /** Where the checkpoint chain started, and the commits flushed since. */
    ghost var origin: Id
    ghost var chain: seq<Commit>

    ghost predicate Valid()
      reads this
    {
      && nextCP == Next(cache, lastCommitted)
      && (forall k :: k in cache ==> cache[k].prev == k && cache[k].proposed.num > 0)
      && Linked(origin, chain, lastCommitted)
      && Stored(db, Recorded(chain))
    }

    /** Opens a store that holds the commits `flushed` from `start` up to the last committed
        block; a new store holds none. */
    constructor (stored: map<Bytes, Value>, last: Id, ghost start: Id, ghost flushed: seq<Commit>)
      requires Linked(start, flushed, last) && Stored(stored, Recorded(flushed))
      ensures Valid() && lastCommitted == last && cache == map[] && db == stored
      ensures origin == start && chain == flushed
    {
      lastCommitted := last;
      nextCP := EMPTY;
      cache := map[];
      db := stored;
      origin := start;
      chain := flushed;
    }

    method Add(commit: Commit) returns (r: AddResult)
      requires Valid()
      modifies this`cache, this`nextCP
      ensures Valid()
      ensures r == if !commit.wellFormed then InvalidCheckPoint
                   else if commit.proposed.num > WrapAdd(lastCommitted.num, MAX_UNCOMMITTED_BLOCK_NUM)
                           || commit.proposed.num <= lastCommitted.num then OutOfRange
                   else if commit.prev in old(cache) then Exists else Added
      ensures cache == if r == Added then old(cache)[commit.prev := commit] else old(cache)
    {
      if !commit.wellFormed {
        return InvalidCheckPoint;
      }
      var blockNum, libNum := commit.proposed.num, lastCommitted.num;
      if blockNum > WrapAdd(libNum, MAX_UNCOMMITTED_BLOCK_NUM) || blockNum <= libNum {
        return OutOfRange;
      }
      if commit.prev in cache {
        return Exists;
      }
      cache := cache[commit.prev := commit];
      if lastCommitted == commit.prev {
        nextCP := commit.proposed;
      }
      return Added;
    }

    /** Panics unless the commit builds on the last committed block. */
    method Remove(commit: Commit) returns (panicked: bool)
      requires Valid()
      modifies this`cache, this`nextCP
      ensures Valid() && panicked == (lastCommitted != commit.prev)
      ensures cache == if panicked then old(cache) else old(cache) - {lastCommitted}
    {
      if lastCommitted != commit.prev {
        return true;
      }
      RemoveNextUncommitted();
      return false;
    }

    method RemoveNextUncommitted()
      requires Valid()
      modifies this`cache, this`nextCP
      ensures Valid() && cache == old(cache) - {lastCommitted} && nextCP == EMPTY
    {
      cache := cache - {lastCommitted};
      nextCP := EMPTY;
    }

    function NextUncommitted(): Option<Commit>
      reads this
    {
      if lastCommitted in cache then Some(cache[lastCommitted]) else None
    }

    /** Moves one commit from the cache to the store. */
    method FlushOne()
      requires Valid() && lastCommitted in cache
      modifies this
      ensures Valid() && origin == old(origin)
      ensures chain == old(chain) + [old(cache)[old(lastCommitted)]]
      ensures cache == old(cache) - {old(lastCommitted)}
      ensures lastCommitted == old(cache)[old(lastCommitted)].proposed
    {
      hide NumKey, IndexKey, Stored, Recorded, Linked;
      var c := cache[lastCommitted];
      var key := NumKey(nextCP.num);
      StoredAdds(db, Recorded(chain), c);
      ChainExtends(origin, chain, lastCommitted, c);
      db := db[key := CommitValue(c)];
      db := db[IndexKey(c.height) := KeyValue(key)];
      cache := cache - {lastCommitted};
      lastCommitted := nextCP;
      nextCP := EMPTY;
      if lastCommitted in cache {
        nextCP := cache[lastCommitted].proposed;
      }
      chain := chain + [c];
    }

    /** Flushes along the chain until `bid` or until the next commit is missing; every pass
        takes a commit out of the cache. */
    method Flush(bid: Id) returns (panicked: bool)
      requires Valid()
      modifies this
      ensures Valid() && origin == old(origin)
      ensures panicked == (old(lastCommitted) !in old(cache))
      ensures panicked ==> unchanged(this)
      ensures Moved(old(cache), old(chain), cache, chain)
      ensures !panicked ==> |chain| > |old(chain)| && (lastCommitted == bid || lastCommitted !in cache)
    {
      hide Linked, Stored, Recorded, Moved;
      NothingMoved(cache, chain);
      if lastCommitted !in cache {
        return true;
      }
      while true
        invariant Valid() && origin == old(origin) && lastCommitted in cache
        invariant |chain| >= |old(chain)| && Moved(old(cache), old(chain), cache, chain)
        decreases |cache|
      {
        OneMoved(old(cache), old(chain), cache, chain, lastCommitted);
        FlushOne();
        if lastCommitted == bid {
          return false;
        }
        if nextCP == EMPTY {
          return false;
        }
      }
    }
  }

  /** A node that starts over: what was flushed is still there, what was waiting is not. */
  method Restart(cp: BFTCheckPoint) returns (r: BFTCheckPoint)
    requires cp.Valid()
    ensures fresh(r) && r.Valid() && r.cache == map[] && r.lastCommitted == cp.lastCommitted
    ensures r.origin == cp.origin && r.chain == cp.chain
  {
    hide Linked, Stored, Recorded;
    r := new BFTCheckPoint(cp.db, cp.lastCommitted, cp.origin, cp.chain);
  }

  /** The first start, on an empty store. */
  method Start(last: Id) returns (r: BFTCheckPoint)
    ensures fresh(r) && r.Valid() && r.lastCommitted == r.origin == last && r.cache == map[] && r.chain == []
  {
    hide NumKey, IndexKey;
    r := new BFTCheckPoint(map[], last, last, []);
  }

  // ----- reading -----

  predicate InRange(n: U64, start: U64) {
    start <= n < TWO_64 - 1
  }

  /** `r` is the recorded commit with the least number from `start` on, the largest number
      excepted; none when there is none. */
  ghost predicate LeastFrom(recorded: map<U64, Commit>, start: U64, r: Option<Commit>) {
    if r.None? then forall n :: n in recorded ==> !InRange(n, start)
    else exists m :: LeastAt(recorded, start, m) && recorded[m] == r.value
  }

  ghost predicate LeastAt(recorded: map<U64, Commit>, start: U64, m: U64) {
    m in recorded && InRange(m, start) && forall n :: n in recorded && InRange(n, start) ==> m <= n
  }

  /** A key the iteration visits is the key of a checkpoint in range. */
  lemma VisitedKey(db: map<Bytes, Value>, recorded: map<U64, Commit>, k: Bytes, start: U64) returns (n: U64)
    requires Stored(db, recorded) && k in db && !Less(k, NumKey(start)) && Less(k, MAX_KEY)
    ensures k == NumKey(n) && n in recorded && InRange(n, start)
  {
    hide Less, NumKey, IndexKey;
    if IsIndexKey(k) {
      var h: U64 :| k == IndexKey(h);
      BelowLimit(0, h);
    }
    n :| k == NumKey(n);
    BelowLimit(n, 0);
    NumKeyOrder(n, start);
  }

  lemma KeyVisited(n: U64, start: U64)
    ensures !Less(NumKey(n), NumKey(start)) && Less(NumKey(n), MAX_KEY) <==> InRange(n, start)
  {
    hide Less, NumKey;
    BelowLimit(n, 0);
    NumKeyOrder(n, start);
  }

  /** `GetNext`: the first key the iteration from `num + 1` yields. */
  method GetNext(cp: BFTCheckPoint, num: U64) returns (r: Option<Commit>)
    requires cp.Valid()
    ensures LeastFrom(Recorded(cp.chain), WrapAdd(num, 1), r)
  {
    hide Less, NumKey, IndexKey, Recorded;
    ghost var recorded := Recorded(cp.chain);
    var start: U64 := WrapAdd(num, 1);
    var best: Option<Bytes> := None;
    ghost var m: U64 := 0;
    var todo := cp.db.Keys;
    while todo != {}
      invariant todo <= cp.db.Keys
      invariant best.Some? ==> best.value == NumKey(m) && m in recorded && InRange(m, start)
      invariant forall n :: n in recorded && InRange(n, start) && NumKey(n) !in todo ==> best.Some? && m <= n
      decreases |todo|
    {
      var k :| k in todo;
      todo := todo - {k};
      if !Less(k, NumKey(start)) && Less(k, MAX_KEY) {
        ghost var n := VisitedKey(cp.db, recorded, k, start);
        NumKeyOrder(n, m);
        SameKeys(n);
        if best.None? || Less(k, best.value) {
          best := Some(k);
          m := n;
        }
      } else {
        OutOfRangeKey(recorded, k, start);
      }
    }
    if best.None? {
      return None;
    }
    assert LeastAt(recorded, start, m);
    return Some(cp.db[best.value].commit);
  }

  lemma SameKeys(n: U64)
    ensures forall i: U64 :: NumKey(i) == NumKey(n) ==> i == n
  {
    hide NumKey;
    forall i: U64 | NumKey(i) == NumKey(n)
      ensures i == n
    {
      NumKeyOrder(i, n);
    }
  }

  lemma OutOfRangeKey(recorded: map<U64, Commit>, k: Bytes, start: U64)
    requires Less(k, NumKey(start)) || !Less(k, MAX_KEY)
    ensures forall n :: n in recorded && NumKey(n) == k ==> !InRange(n, start)
  {
    hide Less, NumKey;
    forall n | n in recorded && NumKey(n) == k
      ensures !InRange(n, start)
    {
      KeyVisited(n, start);
    }
  }

  /** Below the largest number the result is the stored commit with the least block number
      above the one asked for. */
  lemma NextIsLeastAbove(recorded: map<U64, Commit>, num: U64, r: Option<Commit>)
    requires LeastFrom(recorded, WrapAdd(num, 1), r) && num < TWO_64 - 1
    ensures r.None? ==> forall n :: n in recorded && n < TWO_64 - 1 ==> n <= num
    ensures r.Some? ==> exists m: U64 :: m in recorded && recorded[m] == r.value && m > num
                                    && forall n :: n in recorded && num < n < TWO_64 - 1 ==> m <= n
  {
    if r.Some? {
      var m: U64 :| LeastAt(recorded, WrapAdd(num, 1), m) && recorded[m] == r.value;
      assert m > num && forall n :: n in recorded && num < n < TWO_64 - 1 ==> m <= n;
    }
  }

  /** At the largest number the search starts over at zero: it is right exactly when no
      checkpoint is found that way. */
  lemma NextWraps(recorded: map<U64, Commit>, r: Option<Commit>)
    requires LeastFrom(recorded, WrapAdd(TWO_64 - 1, 1), r)
    ensures r.None? <==> forall n :: n in recorded ==> n == TWO_64 - 1
  {
    if r.None? {
      assert forall n :: n in recorded ==> !InRange(n, 0);
    } else {
      var m: U64 :| LeastAt(recorded, 0, m) && recorded[m] == r.value;
    }
  }

  /** The links of the flushed chain, one by one. */
  lemma {:induction false} LinkedMeans(origin: Id, chain: seq<Commit>, last: Id)
    requires Linked(origin, chain, last) && chain != []
    ensures chain[0].prev == origin && chain[|chain| - 1].proposed == last
    ensures forall i :: 0 < i < |chain| ==> chain[i].prev == chain[i - 1].proposed
  {
    if |chain| > 1 {
      LinkedMeans(origin, chain[..|chain| - 1], chain[|chain| - 1].prev);
    }
  }

  // ----- flushing -----

  /** The commits behind `chain0` came out of the cache `cache0`, and no others did. */
  ghost predicate Moved(cache0: map<Id, Commit>, chain0: seq<Commit>, cache: map<Id, Commit>, chain: seq<Commit>) {
    && |chain0| <= |chain| && chain[..|chain0|] == chain0
    && (forall i :: |chain0| <= i < |chain| ==> chain[i].prev in cache0 && chain[i] == cache0[chain[i].prev])
    && (forall k :: k in cache <==> k in cache0 && !Flushed(chain[|chain0|..], k))
    && (forall k :: k in cache ==> cache[k] == cache0[k])
  }

  lemma NothingMoved(cache: map<Id, Commit>, chain: seq<Commit>)
    ensures Moved(cache, chain, cache, chain)
  {
  }

  lemma OneMoved(cache0: map<Id, Commit>, chain0: seq<Commit>, cache: map<Id, Commit>, chain: seq<Commit>, k: Id)
    requires Moved(cache0, chain0, cache, chain) && k in cache && cache[k].prev == k
    ensures Moved(cache0, chain0, cache - {k}, chain + [cache[k]])
    ensures |cache - {k}| < |cache|
  {
    var n := |chain0|;
    assert (chain + [cache[k]])[n..] == chain[n..] + [cache[k]];
    FlushedGrows(chain[n..], cache[k]);
    assert cache.Keys == (cache - {k}).Keys + {k};
  }

  /** What the cache holds for the last committed block. */
  function Next(cache: map<Id, Commit>, last: Id): Id {
    if last in cache then cache[last].proposed else EMPTY
  }

  ghost predicate Flushed(commits: seq<Commit>, k: Id) {
    exists i :: 0 <= i < |commits| && commits[i].prev == k
  }

  lemma FlushedGrows(commits: seq<Commit>, c: Commit)
    ensures forall k :: Flushed(commits + [c], k) <==> Flushed(commits, k) || k == c.prev
  {
    forall k
      ensures Flushed(commits + [c], k) <==> Flushed(commits, k) || k == c.prev
    {
      if Flushed(commits, k) {
        var i :| 0 <= i < |commits| && commits[i].prev == k;
        assert (commits + [c])[i].prev == k;
      }
      assert (commits + [c])[|commits|].prev == c.prev;
    }
  }
}
