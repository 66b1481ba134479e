/** The cache of account keys, kept in step with the database across blocks, and the freeze
    flag of accounts, which is not. */
module AuthCache {
  import opened Options

  type Name = string
  type Key = seq<int>

  datatype Auth = Auth(key: Key, frozen: bool)

  type Table = map<Name, Auth>

  /** What a block does to the account table: an account creation or key update, or a contract
      that sets the freeze flag. */
  datatype AuthOp = SetKey(name: Name, key: Key) | SetFreeze(name: Name, on: bool)

  predicate Frozen(table: Table, n: Name) {
    n in table && table[n].frozen
  }

  function Write(table: Table, op: AuthOp): Table {
    match op
    case SetKey(n, k) => table[n := Auth(k, Frozen(table, n))]
    case SetFreeze(n, on) => if n in table then table[n := table[n].(frozen := on)] else table
  }

  function WriteAuth(table: Table, ops: seq<AuthOp>): Table {
    if ops == [] then table else Write(WriteAuth(table, ops[..|ops| - 1]), ops[|ops| - 1])
  }

  /** The accounts whose key the operations set, in order. */
  function KeyNames(ops: seq<AuthOp>): seq<Name> {
    if ops == [] then []
    else KeyNames(ops[..|ops| - 1]) + if ops[|ops| - 1].SetKey? then [ops[|ops| - 1].name] else []
  }

  /** The table after the first `n` blocks. */
  function TableAt(base: Table, blocks: seq<seq<AuthOp>>, n: nat): Table
    requires n <= |blocks|
  {
    if n == 0 then base else WriteAuth(TableAt(base, blocks, n - 1), blocks[n - 1])
  }

  lemma {:induction false} TableAtPrefix(base: Table, blocks: seq<seq<AuthOp>>, m: nat, n: nat)
    requires n <= m <= |blocks|
    ensures TableAt(base, blocks[..m], n) == TableAt(base, blocks, n)
  {
    if n > 0 {
      TableAtPrefix(base, blocks, m, n - 1);
    }
  }

  function LookupKey(table: Table, n: Name): Option<Key> {
    if n in table then Some(table[n].key) else None
  }

  lemma {:induction false} KeyFrame(table: Table, ops: seq<AuthOp>, n: Name)
    requires n !in KeyNames(ops)
    ensures LookupKey(WriteAuth(table, ops), n) == LookupKey(table, n)
  {
    if ops != [] {
      assert forall x :: x in KeyNames(ops[..|ops| - 1]) ==> x in KeyNames(ops);
      if ops[|ops| - 1].SetKey? {
        assert KeyNames(ops)[|KeyNames(ops)| - 1] == ops[|ops| - 1].name;
      }
      KeyFrame(table, ops[..|ops| - 1], n);
    }
  }

  /** An account that nobody freezes does not become frozen. */
  lemma {:induction false} FreezeFrame(table: Table, ops: seq<AuthOp>, n: Name)
    requires SetFreeze(n, true) !in ops && !Frozen(table, n)
    ensures !Frozen(WriteAuth(table, ops), n)
  {
    if ops != [] {
      assert forall op :: op in ops[..|ops| - 1] ==> op in ops;
      assert ops[|ops| - 1] in ops;
      FreezeFrame(table, ops[..|ops| - 1], n);
    }
  }

  lemma NoOps(table: Table)
    ensures WriteAuth(table, []) == table && KeyNames([]) == []
  {
  }

  /** The key that the operations leave an account whose key they set. */
  function LastKey(ops: seq<AuthOp>, n: Name): Key
    requires n in KeyNames(ops)
  {
    var op := ops[|ops| - 1];
    if op.SetKey? && op.name == n then op.key else LastKey(ops[..|ops| - 1], n)
  }

  lemma {:induction false} KeySet(table: Table, ops: seq<AuthOp>, n: Name)
    requires n in KeyNames(ops)
    ensures LookupKey(WriteAuth(table, ops), n) == Some(LastKey(ops, n))
  {
    var op := ops[|ops| - 1];
    if !(op.SetKey? && op.name == n) {
      KeySet(table, ops[..|ops| - 1], n);
    }
  }

  /** The cache once the operations of a block are announced. */
  function Told(cache: map<Name, Key>, ops: seq<AuthOp>): map<Name, Key> {
    map n | n in cache.Keys + (set x | x in KeyNames(ops)) :: if n in KeyNames(ops) then LastKey(ops, n) else cache[n]
  }

  lemma {:induction false} NamesMore(ops: seq<AuthOp>, op: AuthOp, n: Name)
    ensures KeyNames(ops + [op]) == KeyNames(ops) + if op.SetKey? then [op.name] else []
    ensures n in KeyNames(ops + [op]) <==> n in KeyNames(ops) || (op.SetKey? && op.name == n)
    ensures n in KeyNames(ops + [op]) ==>
              LastKey(ops + [op], n) == if op.SetKey? && op.name == n then op.key else LastKey(ops, n)
  {
    assert (ops + [op])[..|ops|] == ops;
  }

  lemma {:induction false} ToldMore(cache: map<Name, Key>, ops: seq<AuthOp>, op: AuthOp)
    ensures Told(cache, ops + [op]) == if op.SetKey? then Told(cache, ops)[op.name := op.key] else Told(cache, ops)
    ensures KeyNames(ops + [op]) == KeyNames(ops) + if op.SetKey? then [op.name] else []
  {
    hide KeyNames, LastKey;
    var now := if op.SetKey? then Told(cache, ops)[op.name := op.key] else Told(cache, ops);
    NamesMore(ops, op, op.name);
    forall n
      ensures n in Told(cache, ops + [op]) <==> n in now
      ensures n in now ==> Told(cache, ops + [op])[n] == now[n]
    {
      NamesMore(ops, op, n);
    }
  }

  lemma ToldNothing(cache: map<Name, Key>)
    ensures Told(cache, []) == cache && KeyNames([]) == []
  {
  }

  /** What is cached after a block is announced is right for the table with the block. */
  lemma ToldCoherent(cache: map<Name, Key>, table: Table, ops: seq<AuthOp>)
    requires Coherent(cache, table)
    ensures Coherent(Told(cache, ops), WriteAuth(table, ops))
  {
    hide KeyNames, LastKey, WriteAuth;
    forall n | n in Told(cache, ops)
      ensures LookupKey(WriteAuth(table, ops), n) == Some(Told(cache, ops)[n])
    {
      if n in KeyNames(ops) {
        KeySet(table, ops, n);
      } else {
        KeyFrame(table, ops, n);
      }
    }
  }

  lemma OneOp(table: Table, op: AuthOp)
    ensures WriteAuth(table, [op]) == Write(table, op) && KeyNames([op]) == if op.SetKey? then [op.name] else []
    ensures op.SetKey? ==> LastKey([op], op.name) == op.key
    ensures TableAt(table, [[op]], 1) == Write(table, op) && TableAt(table, [[op]], 0) == table
  {
    assert [op][..0] == [];
    assert TableAt(table, [[op]], 0) == table;
  }

  /** The accounts logged for a block. */
  function LogOf(changes: map<nat, seq<Name>>, i: nat): seq<Name> {
    if i in changes then changes[i] else []
  }

  ghost predicate Coherent(cache: map<Name, Key>, table: Table) {
    forall n :: n in cache ==> LookupKey(table, n) == Some(cache[n])
  }

  /** The log of every uncommitted block since `start` names the accounts whose key it set;
      no block to come has a log. */
  ghost predicate Covered(changes: map<nat, seq<Name>>, blocks: seq<seq<AuthOp>>, origin: nat, start: nat, commit: nat) {
    && (forall k :: 0 <= k < |blocks| && origin + k >= start && origin + k >= commit ==>
          LogOf(changes, origin + k + 1) == KeyNames(blocks[k]))
    && (forall i :: i in changes ==> i <= origin + |blocks|)
  }

  lemma CoveredExtends(changes: map<nat, seq<Name>>, blocks: seq<seq<AuthOp>>, origin: nat, start: nat, commit: nat,
                       now: map<nat, seq<Name>>, ops: seq<AuthOp>)
    requires Covered(changes, blocks, origin, start, commit) && start <= origin + |blocks|
    requires LogOf(now, origin + |blocks| + 1) == KeyNames(ops)
    requires forall i :: i in now ==> i in changes || i == origin + |blocks| + 1
    requires forall i :: i != origin + |blocks| + 1 ==> LogOf(now, i) == LogOf(changes, i)
    ensures Covered(now, blocks + [ops], origin, start, commit)
  {
  }

  lemma CoveredReverts(changes: map<nat, seq<Name>>, blocks: seq<seq<AuthOp>>, origin: nat, start: nat, commit: nat, m: nat)
    requires Covered(changes, blocks, origin, start, commit) && m <= |blocks| && origin <= start
    ensures var now := if origin + m < start then origin + m else start;
            Covered(map k | k in changes && !(origin + m < k <= origin + |blocks|) :: changes[k], blocks[..m], origin, now,
                    commit)
  {
  }

  /** What no log of the blocks from `m` on names, none of them set, as far as they are logged. */
  lemma LoggedDropped(changes: map<nat, seq<Name>>, blocks: seq<seq<AuthOp>>, origin: nat, start: nat, commit: nat,
                      m: nat, cache: map<Name, Key>)
    requires Covered(changes, blocks, origin, start, commit) && commit <= origin + m
    requires forall n, i :: n in cache && origin + m < i <= origin + |blocks| ==> n !in LogOf(changes, i)
    ensures forall n, k :: n in cache && m <= k < |blocks| && k >= start - origin ==> n !in KeyNames(blocks[k])
  {
    hide KeyNames, LogOf;
    forall n, k | n in cache && m <= k < |blocks| && k >= start - origin
      ensures n !in KeyNames(blocks[k])
    {
      assert LogOf(changes, origin + k + 1) == KeyNames(blocks[k]);
    }
  }

  /** An account whose key no block from `m` on sets has kept it. */
  lemma {:induction false} KeyKept(base: Table, blocks: seq<seq<AuthOp>>, m: nat, n: nat, name: Name)
    requires m <= n <= |blocks| && forall k :: m <= k < n ==> name !in KeyNames(blocks[k])
    ensures LookupKey(TableAt(base, blocks, n), name) == LookupKey(TableAt(base, blocks, m), name)
    decreases n - m
  {
    if m < n {
      KeyKept(base, blocks, m, n - 1, name);
      KeyFrame(TableAt(base, blocks, n - 1), blocks[n - 1], name);
    }
  }

  /** Of the blocks from `m` on, those before `u` have no log: the accounts whose key they set
      must have got the key they had. */
  ghost predicate SameKeys(base: Table, blocks: seq<seq<AuthOp>>, m: nat, u: int, cache: map<Name, Key>)
    requires m <= |blocks|
  {
    forall n, k :: n in cache && m <= k < |blocks| && k < u && n in KeyNames(blocks[k]) ==>
      LookupKey(TableAt(base, blocks, m), n) == LookupKey(TableAt(base, blocks, |blocks|), n)
  }

  /** Once the accounts named by the logs are dropped, the cache is right for the shorter
      chain exactly when the blocks without a log have not changed what is still cached. */
  lemma CoherentReverts(base: Table, blocks: seq<seq<AuthOp>>, m: nat, u: int, cache: map<Name, Key>)
    requires m <= |blocks| && Coherent(cache, TableAt(base, blocks, |blocks|))
    requires forall n, k :: n in cache && m <= k < |blocks| && k >= u ==> n !in KeyNames(blocks[k])
    ensures Coherent(cache, TableAt(base, blocks[..m], m)) <==> SameKeys(base, blocks, m, u, cache)
  {
    hide TableAt;
    TableAtPrefix(base, blocks, m, m);
    if SameKeys(base, blocks, m, u, cache) {
      forall n | n in cache
        ensures LookupKey(TableAt(base, blocks, m), n) == Some(cache[n])
      {
        if forall k :: m <= k < |blocks| ==> n !in KeyNames(blocks[k]) {
          KeyKept(base, blocks, m, |blocks|, n);
        }
      }
    }
  }

  /** Every cached account that is frozen in `table` is named by the log of a block from `from`
      to `to`. */
  ghost predicate ThawedWithout(cache: map<Name, Key>, changes: map<nat, seq<Name>>, from: nat, to: nat, table: Table) {
    forall n :: n in cache && Frozen(table, n) ==> exists k :: from <= k <= to && n in LogOf(changes, k)
  }

  class AuthFetcher {
    var cache: map<Name, Key>
    var changes: map<nat, seq<Name>>
    var last: nat
    var commit: nat

    /** The table at block `origin`, the blocks since, and the block the fetcher was created
        at, or the lowest one reverted to. */
    ghost var origin: nat
    ghost var base: Table
    ghost var blocks: seq<seq<AuthOp>>
    ghost var start: nat

    /** The account table of the database. */
    ghost function Accounts(): Table
      reads this
    {
      TableAt(base, blocks, |blocks|)
    }

    /** Every cached key is the database's, and the log of every block since the start that
        can still be reverted names all accounts whose key it set. */
    ghost predicate Valid()
      reads this
    {
      && last == origin + |blocks| && origin <= start <= last && origin <= commit
      && Coherent(cache, Accounts()) && Covered(changes, blocks, origin, start, commit)
    }

    /** Nothing frozen is cached. */
    ghost predicate Thawed()
      reads this
    {
      forall n :: n in cache ==> !Frozen(Accounts(), n)
    }

    constructor (head: nat, lastCommit: nat, ghost from: nat, ghost table: Table, ghost older: seq<seq<AuthOp>>)
      requires head == from + |older| && from <= lastCommit
      ensures Valid() && Thawed() && start == last == head && commit == lastCommit && cache == map[] && changes == map[]
      ensures origin == from && base == table && blocks == older
    {
      cache := map[];
      changes := map[];
      last := head;
      commit := lastCommit;
      origin := from;
      base := table;
      blocks := older;
      start := head;
    }

    /** Freecache may drop anything at any time; `Discard` drops one account. */
    method Evict(names: set<Name>)
      requires Valid()
      modifies this`cache
      ensures Valid() && cache == old(cache) - names && (old(Thawed()) ==> Thawed())
    {
      cache := cache - names;
    }

    /** A block was announced on top of the chain, and discarded: its log is there, and what is
        cached of the accounts it names is not sure. */
    ghost predicate Ahead(fallen: seq<AuthOp>)
      reads this
    {
      && last == origin + |blocks| + 1 && origin <= start < last && origin <= commit < last
      && LogOf(changes, last) == KeyNames(fallen) && Covered(changes - {last}, blocks, origin, start, commit)
      && forall n :: n in cache && n !in KeyNames(fallen) ==> LookupKey(Accounts(), n) == Some(cache[n])
    }

    /** What is cached is served.  The freeze flag is looked at only when nothing is, and then
        the key is the database's. */
    method GetPublicKey(account: Name, row: Option<Auth>) returns (key: Option<Key>)
      requires row == if account in Accounts() then Some(Accounts()[account]) else None
      modifies this`cache
      ensures old(Valid()) ==> Valid() && (old(Thawed()) ==> Thawed())
      ensures forall fallen :: old(Ahead(fallen)) ==> Ahead(fallen)
      ensures key == if account in old(cache) then Some(old(cache)[account])
                     else if row.Some? && !row.value.frozen then LookupKey(Accounts(), account) else None
      ensures old(Valid()) && key.Some? ==> key == LookupKey(Accounts(), account)
      ensures cache == if key.Some? then old(cache)[account := key.value] else old(cache)
    {
      if account in cache {
        assert cache == cache[account := cache[account]];
        return Some(cache[account]);
      }
      if row.None? {
        return None;
      }
      if row.value.frozen {
        return None;
      }
      cache := cache[account := row.value.key];
      return Some(row.value.key);
    }

    // ----- applying -----

    /** While a block is applied, accounts that contracts freeze are discarded. */
    method Discards(ops: seq<AuthOp>)
      modifies this`cache
      ensures cache == map n | n in old(cache) && SetFreeze(n, true) !in ops :: old(cache)[n]
    {
      for i := 0 to |ops|
        invariant cache == map n | n in old(cache) && SetFreeze(n, true) !in ops[..i] :: old(cache)[n]
      {
        if ops[i].SetFreeze? && ops[i].on {
          cache := cache - {ops[i].name};
        }
      }
      assert ops[..|ops|] == ops;
    }

    /** Caches the new key and logs the change. */
    method NewAccount(num: nat, name: Name, key: Key)
      modifies this`cache, this`changes
      ensures cache == old(cache)[name := key]
      ensures changes == old(changes)[num := LogOf(old(changes), num) + [name]]
    {
      cache := cache[name := key];
      changes := changes[num := LogOf(changes, num) + [name]];
    }

    method NewAccounts(num: nat, ops: seq<AuthOp>)
      requires num !in changes
      modifies this`cache, this`changes
      ensures cache == Told(old(cache), ops) && LogOf(changes, num) == KeyNames(ops)
      ensures forall k :: k != num ==> LogOf(changes, k) == LogOf(old(changes), k)
      ensures forall k :: k in changes ==> k in old(changes) || k == num
      ensures changes - {num} == old(changes)
    {
      hide KeyNames, Told;
      ToldNothing(cache);
      assert ops[..0] == [];
      for i := 0 to |ops|
        invariant cache == Told(old(cache), ops[..i]) && LogOf(changes, num) == KeyNames(ops[..i])
        invariant forall k :: k != num ==> LogOf(changes, k) == LogOf(old(changes), k)
        invariant forall k :: k in changes ==> k in old(changes) || k == num
        invariant changes - {num} == old(changes)
      {
        assert ops[..i + 1] == ops[..i] + [ops[i]];
        ToldMore(old(cache), ops[..i], ops[i]);
        if ops[i].SetKey? {
          NewAccount(num, ops[i].name, ops[i].key);
        }
      }
      assert ops[..|ops|] == ops;
    }

    /** A block is announced.  One whose number is known is ignored. */
    method BlockApplied(num: nat, ops: seq<AuthOp>)
      requires num > last ==> num !in changes
      modifies this`cache, this`changes, this`last
      ensures num <= old(last) ==> unchanged(this)
      ensures num > old(last) ==>
                && last == num && cache == Told(old(cache), ops) && LogOf(changes, num) == KeyNames(ops)
                && (forall k :: k != num ==> LogOf(changes, k) == LogOf(old(changes), k))
                && (forall k :: k in changes ==> k in old(changes) || k == num) && changes - {num} == old(changes)
    {
      if num > last {
        NewAccounts(num, ops);
        last := num;
      }
    }

    /** The next block: nothing frozen is cached afterwards exactly when no account whose key
        it set is frozen at its end. */
    method ApplyBlock(ops: seq<AuthOp>)
      requires Valid() && Thawed()
      modifies this
      ensures Valid() && Accounts() == WriteAuth(old(Accounts()), ops) && blocks == old(blocks) + [ops]
      ensures origin == old(origin) && base == old(base) && commit == old(commit) && start == old(start)
      ensures (forall n :: n in KeyNames(ops) ==> n in cache) && LogOf(changes, last) == KeyNames(ops)
      ensures Thawed() <==> forall n :: n in KeyNames(ops) ==> !Frozen(Accounts(), n)
    {
      hide WriteAuth, Coherent, KeyNames, TableAt, LogOf, LastKey;
      Discards(ops);
      forall n | n in cache
        ensures !Frozen(WriteAuth(Accounts(), ops), n)
      {
        FreezeFrame(Accounts(), ops, n);
      }
      CoherentLess(old(cache), cache, Accounts());
      ToldCoherent(cache, Accounts(), ops);
      BlockApplied(last + 1, ops);
      CoveredExtends(old(changes), blocks, origin, start, commit, changes, ops);
      blocks := blocks + [ops];
      TableGrows(base, old(blocks), ops);
    }

    /** The next block is announced, and then discarded: the cache stays right exactly when the
        block set no key to anything but what it was. */
    method FallBlock(ops: seq<AuthOp>)
      requires Valid() && commit <= last
      modifies this`cache, this`changes, this`last
      ensures Ahead(ops) && last == old(last) + 1
      ensures cache == Told(map n | n in old(cache) && SetFreeze(n, true) !in ops :: old(cache)[n], ops)
      ensures Coherent(cache, Accounts()) <==>
              forall n :: n in KeyNames(ops) ==> LookupKey(Accounts(), n) == Some(LastKey(ops, n))
    {
      hide KeyNames, TableAt, LogOf, LastKey, Covered;
      Discards(ops);
      assert last + 1 !in changes by { NoLogToCome(changes, blocks, origin, start, commit); }
      BlockApplied(last + 1, ops);
      assert forall n :: n in KeyNames(ops) ==> n in cache && cache[n] == LastKey(ops, n);
    }

    /** A block that stands on the number of a discarded one is ignored: the cache is right
        exactly when no account that either of them names is cached with another key.  From
        then on blocks below are as if the fetcher had been created after them. */
    method SkipBlock(ops: seq<AuthOp>, ghost fallen: seq<AuthOp>)
      requires Ahead(fallen)
      modifies this
      ensures blocks == old(blocks) + [ops] && Accounts() == WriteAuth(old(Accounts()), ops) && last == old(last)
      ensures base == old(base) && origin == old(origin) && commit == old(commit) && start == last
      ensures changes == old(changes)
      ensures cache == map n | n in old(cache) && SetFreeze(n, true) !in ops :: old(cache)[n]
      ensures Valid() <==>
              forall n :: n in cache && (n in KeyNames(fallen) || n in KeyNames(ops)) ==>
                LookupKey(Accounts(), n) == Some(cache[n])
    {
      hide KeyNames, TableAt, LogOf, WriteAuth;
      Discards(ops);
      BlockApplied(last, ops);
      blocks := blocks + [ops];
      start := last;
      TableGrows(base, old(blocks), ops);
      forall n | n in cache && n !in KeyNames(fallen) && n !in KeyNames(ops)
        ensures LookupKey(Accounts(), n) == Some(cache[n])
      {
        KeyFrame(old(Accounts()), ops, n);
      }
      assert forall i :: i in changes && i != last ==> i in changes - {last};
    }

    // ----- reverting -----

    method Drop(names: seq<Name>)
      modifies this`cache
      ensures cache == map n | n in old(cache) && n !in names :: old(cache)[n]
    {
      for j := 0 to |names|
        invariant cache == map n | n in old(cache) && n !in names[..j] :: old(cache)[n]
      {
        cache := cache - {names[j]};
      }
      assert names[..|names|] == names;
    }

    /** Drops the accounts changed by a range of blocks, and the log of the range. */
    method DropBlocks(from: nat, to: nat)
      requires from <= to + 1
      modifies this`cache, this`changes
      ensures forall n :: n in cache <==> n in old(cache) && forall k :: from <= k <= to ==> n !in LogOf(old(changes), k)
      ensures forall n :: n in cache ==> cache[n] == old(cache)[n]
      ensures changes == map k | k in old(changes) && !(from <= k <= to) :: old(changes)[k]
    {
      var i := from;
      while i <= to
        invariant from <= i <= to + 1
        invariant forall n :: n in cache <==> n in old(cache) && forall k :: from <= k < i ==> n !in LogOf(old(changes), k)
        invariant forall n :: n in cache ==> cache[n] == old(cache)[n]
        invariant changes == map k | k in old(changes) && !(from <= k < i) :: old(changes)[k]
      {
        assert LogOf(changes, i) == LogOf(old(changes), i);
        ghost var before := cache;
        Drop(LogOf(changes, i));
        assert forall n :: n in cache <==> n in before && n !in LogOf(old(changes), i);
        changes := changes - {i};
        i := i + 1;
      }
    }

    /** Block `num` and all above it are undone, unless it is committed or still to come. */
    predicate Undoes(num: nat)
      reads this
    {
      commit < num <= last
    }

    /** How many blocks stay. */
    ghost function Stays(num: nat): nat
      reads this
    {
      if num <= origin then 0 else if num - 1 - origin < |blocks| then num - 1 - origin else |blocks|
    }

    /** Forgets the keys that the logged blocks set, a discarded one included.  All others stay
        right exactly when the blocks without a log changed none of them. */
    method BlockReverted(num: nat, ghost fallen: Option<seq<AuthOp>>)
      requires if fallen.Some? then Ahead(fallen.value) else Valid()
      modifies this
      ensures origin == old(origin) && base == old(base) && commit == old(commit)
      ensures !old(Undoes(num)) ==> unchanged(this)
      ensures blocks == if old(Undoes(num)) then old(blocks)[..old(Stays(num))] else old(blocks)
      ensures old(Undoes(num)) ==>
                (Valid() <==> SameKeys(base, old(blocks), old(Stays(num)), old(start) - origin, cache))
      ensures old(Undoes(num)) ==> Accounts() == TableAt(base, old(blocks), old(Stays(num))) && last == num - 1
      ensures old(Undoes(num)) ==>
                forall n :: n in cache <==> n in old(cache) && forall k :: num <= k <= old(last) ==> n !in LogOf(old(changes), k)
      ensures old(Undoes(num)) ==> forall n :: n in cache ==> cache[n] == old(cache)[n]
      ensures old(Undoes(num)) && Valid() ==>
                (Thawed() <==> ThawedWithout(old(cache), old(changes), num, old(last),
                                             TableAt(base, old(blocks), old(Stays(num)))))
    {
      hide KeyNames, TableAt, Coherent, Covered, LogOf;
      if num <= last && num > commit {
        ghost var m := Stays(num);
        DropBlocks(num, last);
        RevertedMeans(old(cache), cache, old(changes), changes, base, blocks, origin, start, commit, num, last, fallen);
        assert ThawedWithout(old(cache), old(changes), num, last, TableAt(base, blocks, m))
               <==> forall n :: n in cache ==> !Frozen(TableAt(base, blocks, m), n);
        last := num - 1;
        start := if last < start then last else start;
        blocks := blocks[..m];
      }
    }

    /** Committed blocks cannot be reverted, so their log is dropped. */
    method BlockCommitted(num: nat)
      requires Valid()
      modifies this`changes, this`commit
      ensures Valid() && blocks == old(blocks)
      ensures commit == if old(commit) < num <= last then num else old(commit)
    {
      hide KeyNames, TableAt;
      if num > commit && num <= last {
        var i := commit + 1;
        while i <= num
          modifies this`changes
          invariant commit + 1 <= i <= num + 1
          invariant changes == map k | k in old(changes) && !(commit < k < i) :: old(changes)[k]
        {
          changes := changes - {i};
          i := i + 1;
        }
        commit := num;
      }
    }
  }

  lemma NoLogToCome(changes: map<nat, seq<Name>>, blocks: seq<seq<AuthOp>>, origin: nat, start: nat, commit: nat)
    requires Covered(changes, blocks, origin, start, commit)
    ensures origin + |blocks| + 1 !in changes
  {
    hide KeyNames;
  }

  lemma TableGrows(base: Table, blocks: seq<seq<AuthOp>>, ops: seq<AuthOp>)
    ensures TableAt(base, blocks + [ops], |blocks| + 1) == WriteAuth(TableAt(base, blocks, |blocks|), ops)
  {
    hide WriteAuth;
    TableAtPrefix(base, blocks + [ops], |blocks|, |blocks|);
    assert (blocks + [ops])[..|blocks|] == blocks;
  }

  /** What is left was neither set by a discarded block nor changed. */
  lemma DroppedCoherent(cache: map<Name, Key>, less: map<Name, Key>, table: Table, fallen: Option<seq<AuthOp>>,
                        changes: map<nat, seq<Name>>, num: nat, last: nat)
    requires num <= last && forall n :: n in less ==> n in cache && less[n] == cache[n] && n !in LogOf(changes, last)
    requires fallen.None? ==> Coherent(cache, table)
    requires fallen.Some? ==>
               && LogOf(changes, last) == KeyNames(fallen.value)
               && forall n :: n in cache && n !in KeyNames(fallen.value) ==> LookupKey(table, n) == Some(cache[n])
    ensures Coherent(less, table)
  {
    hide KeyNames;
  }

  lemma LoggedAlike(changes: map<nat, seq<Name>>, logs: map<nat, seq<Name>>, last: nat, ahead: bool)
    requires logs == if ahead then changes - {last} else changes
    ensures forall k :: k != last || !ahead ==> LogOf(logs, k) == LogOf(changes, k)
  {
  }

  lemma LogsLeft(changes: map<nat, seq<Name>>, logs: map<nat, seq<Name>>, left: map<nat, seq<Name>>,
                 blocks: seq<seq<AuthOp>>, origin: nat, start: nat, commit: nat, num: nat, last: nat, m: nat, ahead: bool)
    requires logs == (if ahead then changes - {last} else changes) && Covered(logs, blocks, origin, start, commit)
    requires origin < num <= last && last == origin + |blocks| + (if ahead then 1 else 0)
    requires m == if num - 1 - origin < |blocks| then num - 1 - origin else |blocks|
    requires left == map k | k in changes && !(num <= k <= last) :: changes[k]
    ensures left == map k | k in logs && !(origin + m < k <= origin + |blocks|) :: logs[k]
  {
    hide KeyNames;
  }

  /** Once the logs from `num` to `last` are dropped with the accounts they name. */
  lemma RevertedMeans(cache: map<Name, Key>, less: map<Name, Key>, changes: map<nat, seq<Name>>, left: map<nat, seq<Name>>,
                      base: Table, blocks: seq<seq<AuthOp>>, origin: nat, start: nat, commit: nat, num: nat, last: nat,
                      fallen: Option<seq<AuthOp>>)
    requires origin <= commit < num <= last == origin + |blocks| + (if fallen.Some? then 1 else 0) && origin <= start
    requires forall n :: n in less <==> n in cache && forall k :: num <= k <= last ==> n !in LogOf(changes, k)
    requires forall n :: n in less ==> less[n] == cache[n]
    requires left == map k | k in changes && !(num <= k <= last) :: changes[k]
    requires var logs := if fallen.Some? then changes - {last} else changes;
             Covered(logs, blocks, origin, start, commit)
    requires fallen.None? ==> Coherent(cache, TableAt(base, blocks, |blocks|))
    requires fallen.Some? ==>
               && LogOf(changes, last) == KeyNames(fallen.value)
               && forall n :: n in cache && n !in KeyNames(fallen.value) ==>
                    LookupKey(TableAt(base, blocks, |blocks|), n) == Some(cache[n])
    ensures var m := if num - 1 - origin < |blocks| then num - 1 - origin else |blocks|;
            && (Coherent(less, TableAt(base, blocks[..m], m)) <==> SameKeys(base, blocks, m, start - origin, less))
            && Covered(left, blocks[..m], origin, if num - 1 < start then num - 1 else start, commit)
            && TableAt(base, blocks[..m], m) == TableAt(base, blocks, m)
  {
    hide KeyNames, TableAt, Coherent, Covered, LogOf;
    var m := if num - 1 - origin < |blocks| then num - 1 - origin else |blocks|;
    var logs := if fallen.Some? then changes - {last} else changes;
    var table := TableAt(base, blocks, |blocks|);
    DroppedCoherent(cache, less, table, fallen, changes, num, last);
    LoggedAlike(changes, logs, last, fallen.Some?);
    LoggedDropped(logs, blocks, origin, start, commit, m, less);
    CoherentReverts(base, blocks, m, start - origin, less);
    CoveredReverts(logs, blocks, origin, start, commit, m);
    LogsLeft(changes, logs, left, blocks, origin, start, commit, num, last, m, fallen.Some?);
    CoveredFrom(left, blocks[..m], origin, if origin + m < start then origin + m else start,
                if num - 1 < start then num - 1 else start, commit);
    TableAtPrefix(base, blocks, m, m);
  }

  lemma CoveredFrom(changes: map<nat, seq<Name>>, blocks: seq<seq<AuthOp>>, origin: nat, start: nat, now: nat, commit: nat)
    requires Covered(changes, blocks, origin, start, commit) && (start <= now || start == origin + |blocks| <= now)
    ensures Covered(changes, blocks, origin, now, commit)
  {
    hide KeyNames;
  }

  lemma CoherentLess(cache: map<Name, Key>, less: map<Name, Key>, table: Table)
    requires Coherent(cache, table) && forall n :: n in less ==> n in cache && less[n] == cache[n]
    ensures Coherent(less, table)
  {
  }

  // ----- runs -----

  /** An account whose key is set and which is frozen in one block keeps being served. */
  method FrozenInOneBlock(key: Key) returns (f: AuthFetcher, served: Option<Key>)
    ensures f.Valid() && Frozen(f.Accounts(), "a") && served == Some(key)
  {
    hide Coherent, Covered, TableAt;
    f := new AuthFetcher(0, 0, 0, map[], []);
    assert f.Accounts() == map[] by { NoBlocks(map[]); }
    var ops := [SetKey("a", key), SetFreeze("a", true)];
    f.ApplyBlock(ops);
    assert ops[..1] == [SetKey("a", key)];
    OneOp(map[], SetKey("a", key));
    assert WriteAuth(map[], ops) == map["a" := Auth(key, true)] && KeyNames(ops)[0] == "a";
    served := f.GetPublicKey("a", Some(Auth(key, true)));
  }

  lemma NoBlocks(table: Table)
    ensures TableAt(table, [], 0) == table
  {
  }

  /** So does an account that was served between a block that unfreezes it and the reversion
      of that block. */
  method FrozenAgain(key: Key) returns (f: AuthFetcher, served: Option<Key>)
    ensures f.Valid() && Frozen(f.Accounts(), "a") && served == Some(key)
  {
    hide Coherent, Covered, TableAt, WriteAuth, KeyNames;
    ghost var table := map["a" := Auth(key, true)];
    f := new AuthFetcher(0, 0, 0, table, []);
    assert f.Accounts() == table by { NoBlocks(table); }
    var op := SetFreeze("a", false);
    OneOp(table, op);
    f.ApplyBlock([op]);
    assert [] + [[op]] == [[op]];
    served := f.GetPublicKey("a", Some(Auth(key, false)));
    f.BlockReverted(1, None);
    served := f.GetPublicKey("a", Some(Auth(key, true)));
  }

  /** A fetcher created after a key was changed serves the new key when that block is undone. */
  method StaleKey(was: Key, now: Key) returns (f: AuthFetcher, served: Option<Key>)
    requires was != now
    ensures served == Some(now) && LookupKey(f.Accounts(), "a") == Some(was)
  {
    hide Covered, TableAt, WriteAuth, KeyNames;
    ghost var table, op := map["a" := Auth(was, false)], SetKey("a", now);
    OneOp(table, op);
    NoBlocks(table);
    f := new AuthFetcher(1, 0, 0, table, [[op]]);
    served := f.GetPublicKey("a", Some(Auth(now, false)));
    f.BlockReverted(1, None);
    assert f.blocks == [];
    served := f.GetPublicKey("a", Some(Auth(was, false)));
  }

  /** The key that a discarded block set is served. */
  method DiscardedKey(was: Key, now: Key) returns (f: AuthFetcher, served: Option<Key>)
    requires was != now
    ensures served == Some(now) && LookupKey(f.Accounts(), "a") == Some(was)
  {
    hide Coherent, Covered, TableAt, WriteAuth, KeyNames, LastKey;
    ghost var table := map["a" := Auth(was, false)];
    var op := SetKey("a", now);
    OneOp(table, op);
    f := new AuthFetcher(0, 0, 0, table, []);
    assert f.Accounts() == table by { NoBlocks(table); }
    f.FallBlock([op]);
    served := f.GetPublicKey("a", Some(Auth(was, false)));
  }

  /** A key change in the block that then stands on the number of a discarded one is not
      noticed. */
  method SkippedKey(was: Key, now: Key) returns (f: AuthFetcher, served: Option<Key>)
    requires was != now
    ensures served == Some(was) && LookupKey(f.Accounts(), "a") == Some(now)
  {
    hide Covered, TableAt, WriteAuth, KeyNames, LastKey;
    ghost var table := map["a" := Auth(was, false)];
    var op := SetKey("a", now);
    OneOp(table, op);
    f := new AuthFetcher(0, 0, 0, table, []);
    assert f.Accounts() == table by { NoBlocks(table); }
    served := f.GetPublicKey("a", Some(Auth(was, false)));
    NoOps(table);
    f.FallBlock([]);
    assert f.cache == map["a" := was];
    f.SkipBlock([op], []);
    served := f.GetPublicKey("a", Some(Auth(now, false)));
  }

  /** Nor does a reversion at that number help, once the changed key has been read. */
  method UnhealedKey(was: Key, now: Key) returns (f: AuthFetcher, served: Option<Key>)
    requires was != now
    ensures served == Some(now) && LookupKey(f.Accounts(), "a") == Some(was)
  {
    hide Covered, TableAt, WriteAuth, KeyNames, LastKey;
    ghost var table := map["a" := Auth(was, false)];
    var op := SetKey("a", now);
    OneOp(table, op);
    f := new AuthFetcher(0, 0, 0, table, []);
    assert f.Accounts() == table by { NoBlocks(table); }
    NoOps(table);
    f.FallBlock([]);
    assert f.cache == map[];
    f.SkipBlock([op], []);
    assert f.Valid();
    served := f.GetPublicKey("a", Some(Auth(now, false)));
    assert LogOf(f.changes, 1) == [];
    f.BlockReverted(1, None);
    assert [] + [[op]] == [[op]];
    assert f.Accounts() == table;
    served := f.GetPublicKey("a", Some(Auth(was, false)));
  }
}
