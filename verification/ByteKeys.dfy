/** Database keys as byte strings: big-endian numbers and their lexicographic order. */
module ByteKeys {
  import opened Amounts

  type Bytes = seq<int>

  /** `x` in `w` bytes, most significant first. */
  function BigEndian(x: nat, w: nat): (b: Bytes)
    ensures |b| == w
  {
    if w == 0 then [] else BigEndian(x / 256, w - 1) + [x % 256]
  }

  /** The order in which the database iterates over its keys. */
  predicate Less(a: Bytes, b: Bytes) {
    if a == [] then b != []
    else if b == [] then false
    else a[0] < b[0] || (a[0] == b[0] && Less(a[1..], b[1..]))
  }

  lemma {:induction false} LessIrreflexive(a: Bytes)
    ensures !Less(a, a)
  {
    if a != [] {
      LessIrreflexive(a[1..]);
    }
  }

  /** Of two keys of equal length, the last byte decides only after all others. */
  lemma {:induction false} LessAppend(a: Bytes, p: int, b: Bytes, q: int)
    requires |a| == |b|
    ensures Less(a + [p], b + [q]) <==> Less(a, b) || (a == b && p < q)
  {
    if a != [] {
      assert (a + [p])[1..] == a[1..] + [p] && (b + [q])[1..] == b[1..] + [q];
      LessAppend(a[1..], p, b[1..], q);
      assert a == [a[0]] + a[1..] && b == [b[0]] + b[1..];
    }
  }

  function Pow256(w: nat): nat {
    if w == 0 then 1 else 256 * Pow256(w - 1)
  }

  /** Byte order is numeric order, and different numbers have different keys. */
  lemma {:induction false} BigEndianOrder(x: nat, y: nat, w: nat)
    requires x < Pow256(w) && y < Pow256(w)
    ensures Less(BigEndian(x, w), BigEndian(y, w)) <==> x < y
    ensures BigEndian(x, w) == BigEndian(y, w) <==> x == y
    decreases w
  {
    if w > 0 {
      BigEndianOrder(x / 256, y / 256, w - 1);
      LessAppend(BigEndian(x / 256, w - 1), x % 256, BigEndian(y / 256, w - 1), y % 256);
      var a, b := BigEndian(x / 256, w - 1), BigEndian(y / 256, w - 1);
      assert (a + [x % 256])[..w - 1] == a && (b + [y % 256])[..w - 1] == b;
      assert (a + [x % 256])[w - 1] == x % 256 && (b + [y % 256])[w - 1] == y % 256;
    }
  }

  lemma EightBytes()
    ensures Pow256(8) == TWO_64
  {
    assert Pow256(2) == 0x1_0000;
    assert Pow256(4) == 0x1_0000_0000;
    assert Pow256(6) == 0x1_0000_0000_0000;
  }

  const MAX_KEY: Bytes := [255, 255, 255, 255, 255, 255, 255, 255]

  /** The key of a checkpoint. */
  function NumKey(n: U64): Bytes {
    BigEndian(n, 8)
  }

  /** `getIdxKey`: sixteen bytes behind the index prefix. */
  function IndexKey(height: U64): Bytes {
    MAX_KEY + BigEndian(height, 8)
  }

  lemma NumKeyOrder(x: U64, y: U64)
    ensures Less(NumKey(x), NumKey(y)) <==> x < y
    ensures NumKey(x) == NumKey(y) <==> x == y
  {
    EightBytes();
    BigEndianOrder(x, y, 8);
  }

  lemma {:induction false} PrefixFirst(a: Bytes, b: Bytes)
    ensures !Less(a + b, a)
  {
    if a == [] {
      assert a + b == b;
    } else {
      assert (a + b)[1..] == a[1..] + b;
      PrefixFirst(a[1..], b);
    }
  }

  /** The limit of an iteration over checkpoints: below it are exactly the checkpoints
      whose number is not the largest one; no index key is. */
  lemma BelowLimit(n: U64, height: U64)
    ensures Less(NumKey(n), MAX_KEY) <==> n < TWO_64 - 1
    ensures !Less(IndexKey(height), MAX_KEY)
    ensures NumKey(n) != IndexKey(height)
  {
    MaxKeyIsLast();
    NumKeyOrder(n, TWO_64 - 1);
    PrefixFirst(MAX_KEY, BigEndian(height, 8));
    assert |NumKey(n)| == 8 && |IndexKey(height)| == 16;
  }

  lemma MaxKeyIsLast()
    ensures NumKey(TWO_64 - 1) == MAX_KEY
  {
    assert BigEndian(0xFF, 1) == [255];
    assert BigEndian(0xFFFF, 2) == [255, 255];
    assert BigEndian(0xFFFF_FF, 3) == [255, 255, 255];
    assert BigEndian(0xFFFF_FFFF, 4) == [255, 255, 255, 255];
    assert BigEndian(0xFFFF_FFFF_FF, 5) == [255, 255, 255, 255, 255];
    assert BigEndian(0xFFFF_FFFF_FFFF, 6) == [255, 255, 255, 255, 255, 255];
    assert BigEndian(0xFFFF_FFFF_FFFF_FF, 7) == [255, 255, 255, 255, 255, 255, 255];
  }
}
