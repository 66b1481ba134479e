/** The Merkle root of a block's transactions, computed in place. */
module Merkle {

  type Hash = seq<int>

  type PairHash = (Hash, Hash) -> Hash

  // ----- level by level -----

  /** The next level: neighbours are hashed together, an odd last one moves up as it is. */
  function LevelUp(pair: PairHash, ids: seq<Hash>): (up: seq<Hash>)
    ensures |up| == (|ids| + 1) / 2
  {
    if |ids| <= 1 then ids else [pair(ids[0], ids[1])] + LevelUp(pair, ids[2..])
  }

  function Root(pair: PairHash, ids: seq<Hash>): Hash
    requires ids != []
    decreases |ids|
  {
    if |ids| == 1 then ids[0] else Root(pair, LevelUp(pair, ids))
  }

  lemma {:induction false} LevelUpAt(pair: PairHash, ids: seq<Hash>, k: nat)
    requires 2 * k < |ids|
    ensures LevelUp(pair, ids)[k] == if 2 * k + 1 < |ids| then pair(ids[2 * k], ids[2 * k + 1]) else ids[2 * k]
  {
    if |ids| > 1 && k > 0 {
      LevelUpAt(pair, ids[2..], k - 1);
    }
  }

  // ----- in place -----

  /** One level: the upper hashes overwrite the front of the array. */
  method HashLevel(pair: PairHash, ids: array<Hash>, current: nat) returns (k: nat)
    requires 1 < current <= ids.Length
    modifies ids
    ensures k == (current + 1) / 2
    ensures ids[..k] == LevelUp(pair, old(ids[..current]))
  {
    hide LevelUp;
    ghost var level, up := ids[..current], LevelUp(pair, ids[..current]);
    var iMax := current - current % 2;
    k := 0;
    var i := 0;
    while i < iMax
      invariant 0 <= i <= iMax && i == 2 * k
      invariant forall j :: 0 <= j < k ==> ids[j] == up[j]
      invariant forall j :: i <= j < current ==> ids[j] == level[j]
    {
      LevelUpAt(pair, level, k);
      ids[k] := pair(ids[i], ids[i + 1]);
      k := k + 1;
      i := i + 2;
    }
    if current % 2 == 1 {
      LevelUpAt(pair, level, k);
      ids[k] := ids[iMax];
      k := k + 1;
    }
    assert ids[..k] == up;
  }

  /** `CalculateMerkleRoot`; a block without transactions has the zero root. */
  method CalculateMerkleRoot(pair: PairHash, digests: seq<Hash>, zero: Hash) returns (root: Hash)
    ensures root == if digests == [] then zero else Root(pair, digests)
  {
    if |digests| == 0 {
      return zero;
    }
    var ids := new Hash[|digests|];
    for i := 0 to |digests|
      invariant forall j :: 0 <= j < i ==> ids[j] == digests[j]
    {
      ids[i] := digests[i];
    }
    var current := |digests|;
    assert ids[..current] == digests;
    while current > 1
      invariant 1 <= current <= ids.Length && Root(pair, ids[..current]) == Root(pair, digests)
      decreases current
    {
      current := HashLevel(pair, ids, current);
    }
    return ids[0];
  }

  // ----- as a tree -----

  function PowerOf2(h: nat): nat {
    if h == 0 then 1 else 2 * PowerOf2(h - 1)
  }

  /** The height of the left subtree: the largest power of two below the number of leaves. */
  function LeftHeight(n: nat): (h: nat)
    requires n > 1
    ensures PowerOf2(h) < n <= 2 * PowerOf2(h)
  {
    if n == 2 then 0 else LeftHeight((n + 1) / 2) + 1
  }

  /** The root by recursion over the leaves: a full left subtree, and the rest. */
  function Tree(pair: PairHash, ids: seq<Hash>): Hash
    requires ids != []
    decreases |ids|
  {
    if |ids| == 1 then ids[0]
    else
      var p := PowerOf2(LeftHeight(|ids|));
      PowerPositive(LeftHeight(|ids|));
      pair(Tree(pair, ids[..p]), Tree(pair, ids[p..]))
  }

  lemma {:induction false} PowerPositive(h: nat)
    ensures PowerOf2(h) > 0
  {
    if h > 0 {
      PowerPositive(h - 1);
    }
  }

  lemma {:induction false} LevelUpConcat(pair: PairHash, a: seq<Hash>, b: seq<Hash>)
    requires |a| % 2 == 0
    ensures LevelUp(pair, a + b) == LevelUp(pair, a) + LevelUp(pair, b)
  {
    if a == [] {
      assert a + b == b;
    } else {
      assert (a + b)[2..] == a[2..] + b;
      LevelUpConcat(pair, a[2..], b);
    }
  }

  /** A full left part and a right part that is not larger join at the top. */
  lemma {:induction false} RootJoins(pair: PairHash, a: seq<Hash>, b: seq<Hash>, h: nat)
    requires |a| == PowerOf2(h) && 0 < |b| <= |a|
    ensures Root(pair, a + b) == pair(Root(pair, a), Root(pair, b))
    decreases h
  {
    if h == 0 {
      assert a + b == [a[0], b[0]];
      assert LevelUp(pair, [a[0], b[0]]) == [pair(a[0], b[0])];
    } else {
      LevelUpConcat(pair, a, b);
      RootJoins(pair, LevelUp(pair, a), LevelUp(pair, b), h - 1);
      if |b| == 1 {
        assert LevelUp(pair, b) == b;
      }
    }
  }

  /** The two constructions agree on every list. */
  lemma {:induction false} RootIsTree(pair: PairHash, ids: seq<Hash>)
    requires ids != []
    ensures Root(pair, ids) == Tree(pair, ids)
    decreases |ids|
  {
    hide LevelUp, PowerOf2, LeftHeight;
    if |ids| > 1 {
      var h := LeftHeight(|ids|);
      var p := PowerOf2(h);
      PowerPositive(h);
      RootIsTree(pair, ids[..p]);
      RootIsTree(pair, ids[p..]);
      RootJoins(pair, ids[..p], ids[p..], h);
      assert ids[..p] + ids[p..] == ids;
    }
  }

  // ----- the root determines the leaves -----

  ghost predicate Injective(pair: PairHash) {
    forall a, b, c, d :: pair(a, b) == pair(c, d) ==> a == c && b == d
  }

  lemma {:induction false} LevelUpInjective(pair: PairHash, a: seq<Hash>, b: seq<Hash>)
    requires Injective(pair) && |a| == |b| && LevelUp(pair, a) == LevelUp(pair, b)
    ensures a == b
  {
    if |a| > 1 {
      assert LevelUp(pair, a)[0] == LevelUp(pair, b)[0];
      assert LevelUp(pair, a)[1..] == LevelUp(pair, a[2..]);
      assert LevelUp(pair, b)[1..] == LevelUp(pair, b[2..]);
      LevelUpInjective(pair, a[2..], b[2..]);
      assert a == [a[0], a[1]] + a[2..] && b == [b[0], b[1]] + b[2..];
    }
  }

  /** Two lists of the same length with the same root are the same. */
  lemma {:induction false} RootInjective(pair: PairHash, a: seq<Hash>, b: seq<Hash>)
    requires Injective(pair) && |a| == |b| && a != [] && Root(pair, a) == Root(pair, b)
    ensures a == b
    decreases |a|
  {
    if |a| > 1 {
      RootInjective(pair, LevelUp(pair, a), LevelUp(pair, b));
      LevelUpInjective(pair, a, b);
    }
  }
}
