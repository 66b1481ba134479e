/** The shuffle of the production order. */
module Shuffle {

  const MULTIPLIER: bv64 := 2695921657736338717

  /** The generator: a 64-bit xorshift of the seed and the position. */
  function Random(seed: bv64, i: bv64): bv64 {
    var k := seed + i * MULTIPLIER;
    var a := k ^ (k >> 12);
    var b := a ^ (a << 25);
    var c := b ^ (b >> 27);
    c * MULTIPLIER
  }

  /** Numbers the generator gives. */
  lemma RandomNumbers()
    ensures Random(0, 1) == 15417205847820840598 && Random(1, 0) == 1371670103324106013 && Random(1, 1) == 16694038853321199993
  {
  }

  function Draw(seed: bv64, i: nat): nat
    requires i < 0x1_0000_0000
  {
    Random(seed, i as bv64) as nat
  }

  function Choose(k: nat, n: nat): (j: nat)
    requires 0 < n
    ensures j < n
  {
    k % n
  }

  /** The order a seed gives from position `i` on: the producer drawn from those not placed yet
      comes next, and the first of them takes the place it left. */
  function Order<T>(seed: bv64, left: seq<T>, i: nat): seq<T>
    requires i + |left| <= 0x1_0000_0000
    decreases |left|
  {
    if left == [] then []
    else
      var j := Choose(Draw(seed, i), |left|);
      [left[j]] + Order(seed, left[j := left[0]][1..], i + 1)
  }

  /** Position `i` gets the producer that the draw for `i` picks from those still left, whatever
      the positions before it got. */
  lemma {:induction false} Placed<T>(seed: bv64, left: seq<T>, i: nat, k: nat) returns (rest: seq<T>)
    requires i + |left| <= 0x1_0000_0000 && k < |left|
    ensures |Order(seed, left, i)| == |left| && |rest| == |left| - k
    ensures multiset(Order(seed, left, i)[..k]) + multiset(rest) == multiset(left)
    ensures Order(seed, left, i)[k] == rest[Choose(Draw(seed, i + k), |left| - k)]
    ensures Order(seed, left, i)[k..] == Order(seed, rest, i + k)
    decreases k
  {
    hide Draw, Choose, Order;
    OrderStep(seed, left, i);
    var j := Choose(Draw(seed, i), |left|);
    var order := Order(seed, left, i);
    if k == 0 {
      rest := left;
      assert order[..0] == [] && order[0..] == order;
    } else {
      var next := left[j := left[0]][1..];
      rest := Placed(seed, next, i + 1, k - 1);
      Taken(left, j);
      Behind(left[j], order[1..], k);
      assert order == [left[j]] + order[1..];
    }
  }

  lemma OrderStep<T>(seed: bv64, left: seq<T>, i: nat)
    requires i + |left| <= 0x1_0000_0000 && left != []
    ensures var j, order := Choose(Draw(seed, i), |left|), Order(seed, left, i);
            && |order| == |left| && order[0] == left[j]
            && order[1..] == Order(seed, left[j := left[0]][1..], i + 1)
  {
    hide Draw, Choose;
    OrderLength(seed, left, i);
  }

  lemma Behind<T>(first: T, tail: seq<T>, k: nat)
    requires 0 < k <= |tail|
    ensures ([first] + tail)[k] == tail[k - 1] && ([first] + tail)[k..] == tail[k - 1..]
    ensures multiset(([first] + tail)[..k]) == multiset{first} + multiset(tail[..k - 1])
  {
    assert ([first] + tail)[..k] == [first] + tail[..k - 1];
  }

  lemma {:induction false} OrderLength<T>(seed: bv64, left: seq<T>, i: nat)
    requires i + |left| <= 0x1_0000_0000
    ensures |Order(seed, left, i)| == |left|
    decreases |left|
  {
    hide Draw, Choose;
    if left != [] {
      OrderLength(seed, left[Choose(Draw(seed, i), |left|) := left[0]][1..], i + 1);
    }
  }

  /** Taking one producer out leaves the others. */
  lemma Taken<T>(left: seq<T>, j: nat)
    requires j < |left|
    ensures multiset{left[j]} + multiset(left[j := left[0]][1..]) == multiset(left)
  {
    var swapped := left[j := left[0]];
    assert swapped == [left[0]] + swapped[1..];
    assert multiset(swapped) == multiset(left)[left[j] := multiset(left)[left[j]] - 1] + multiset{left[0]};
  }

  /** `p` rearranges the positions `0..n`. */
  ghost predicate Permutation(p: seq<nat>, n: nat) {
    && |p| == n && (forall i :: 0 <= i < n ==> p[i] < n)
    && (forall i, j :: 0 <= i < j < n ==> p[i] != p[j])
  }

  /** Names and keys were rearranged alike. */
  ghost predicate Rearranged<T>(p: seq<nat>, before: seq<T>, after: seq<T>) {
    Permutation(p, |before|) && |after| == |before| && forall i :: 0 <= i < |p| ==> after[i] == before[p[i]]
  }

  lemma SwapKeeps<T>(p: seq<nat>, before: seq<T>, after: seq<T>, i: nat, j: nat)
    requires Rearranged(p, before, after) && i < |p| && j < |p|
    ensures Permutation(p[i := p[j]][j := p[i]], |before|)
    ensures Rearranged(p[i := p[j]][j := p[i]], before, after[i := after[j]][j := after[i]])
  {
  }

  method Swap<T>(a: array<T>, i: nat, j: nat)
    requires i < a.Length && j < a.Length
    modifies a
    ensures a[..] == old(a[..])[i := old(a[j])][j := old(a[i])]
  {
    a[i], a[j] := a[j], a[i];
  }

  /** One swap places one producer. */
  lemma PlaceOne<T>(seed: bv64, s: seq<T>, i: nat, j: nat)
    requires i <= j < |s| < 0x1_0000_0000 && j == i + Choose(Draw(seed, i), |s| - i)
    ensures var t := s[i := s[j]][j := s[i]];
            t[..i + 1] + Order(seed, t[i + 1..], i + 1) == s[..i] + Order(seed, s[i..], i)
  {
    hide Draw, Choose;
    var t := s[i := s[j]][j := s[i]];
    var left := s[i..];
    assert left[j - i := left[0]][1..] == t[i + 1..];
    assert t[..i + 1] == s[..i] + [s[j]];
  }

  /** For every seed the result is the order that seed gives, the same for names and keys: a
      permutation that keeps each name with its key. */
  method UpdateProducers<K>(seed: bv64, names: array<string>, keys: array<K>) returns (ghost p: seq<nat>)
    requires names.Length == keys.Length < 0x1_0000_0000 && names as object != keys as object
    modifies names, keys
    ensures Rearranged(p, old(names[..]), names[..]) && Rearranged(p, old(keys[..]), keys[..])
    ensures names[..] == Order(seed, old(names[..]), 0) && keys[..] == Order(seed, old(keys[..]), 0)
  {
    hide Draw, Choose, Rearranged, Order;
    var n := names.Length;
    p := seq(n, i => i);
    Unmoved(names[..]);
    Unmoved(keys[..]);
    FromStart(seed, names[..]);
    FromStart(seed, keys[..]);
    for i := 0 to n
      invariant |p| == n
      invariant Rearranged(p, old(names[..]), names[..]) && Rearranged(p, old(keys[..]), keys[..])
      invariant names[..][..i] + Order(seed, names[..][i..], i) == Order(seed, old(names[..]), 0)
      invariant keys[..][..i] + Order(seed, keys[..][i..], i) == Order(seed, old(keys[..]), 0)
    {
      var k := Draw(seed, i);
      var j := i + Choose(k, n - i);
      SwapKeeps(p, old(names[..]), names[..], i, j);
      SwapKeeps(p, old(keys[..]), keys[..], i, j);
      PlaceOne(seed, names[..], i, j);
      PlaceOne(seed, keys[..], i, j);
      Swap(names, i, j);
      Swap(keys, i, j);
      p := p[i := p[j]][j := p[i]];
    }
    ToEnd(seed, names[..]);
    ToEnd(seed, keys[..]);
  }

  lemma FromStart<T>(seed: bv64, s: seq<T>)
    requires |s| <= 0x1_0000_0000
    ensures s[..0] + Order(seed, s[0..], 0) == Order(seed, s, 0)
  {
    assert s[0..] == s;
  }

  lemma ToEnd<T>(seed: bv64, s: seq<T>)
    requires |s| <= 0x1_0000_0000
    ensures s[..|s|] + Order(seed, s[|s|..], |s|) == s
  {
  }

  lemma Unmoved<T>(s: seq<T>)
    ensures Rearranged(seq(|s|, i => i), s, s)
  {
  }
}
