/** The validator sets of the chain, and which of them is in force. */
module Dynasties {
  import opened Amounts
  import opened Options

  /** The validators chosen at block `num`. */
  datatype Dynasty = Dynasty(num: nat, validators: seq<string>)

  /** A block that failed after its shuffle leaves a dynasty behind, so a number may repeat. */
  predicate Sorted(list: seq<Dynasty>) {
    forall i, j :: 0 <= i < j < |list| ==> list[i].num <= list[j].num
  }

  /** The dynasties from block `num` on are undone. */
  function Before(list: seq<Dynasty>, num: nat): seq<Dynasty> {
    if list == [] then []
    else if list[|list| - 1].num >= num then Before(list[..|list| - 1], num)
    else list
  }

  /** The list without those that a later one, not above `num`, has replaced. */
  function Since(list: seq<Dynasty>, num: nat): seq<Dynasty> {
    if |list| > 1 && list[1].num <= num then Since(list[1..], num) else list
  }

  class Dynasties {
    var list: seq<Dynasty>

    /** Every dynasty of the current chain, and the last irreversible block. */
    ghost var history: seq<Dynasty>
    ghost var lib: nat

    /** The list starts with the latest dynasty up to the last irreversible block. */
    ghost predicate Valid()
      reads this
    {
      && history != [] && Sorted(history) && history[0].num <= lib
      && list == Since(history, lib)
    }

    constructor (first: Dynasty, irreversible: nat)
      requires first.num <= irreversible
      ensures Valid() && list == history == [first] && lib == irreversible
    {
      list := [first];
      history := [first];
      lib := irreversible;
    }

    /** A production round ends at block `d.num`, which is not below any block tried before
        it on this chain. */
    method PushBack(d: Dynasty)
      requires Valid() && d.num >= history[|history| - 1].num && d.num > lib
      modifies this
      ensures Valid() && history == old(history) + [d] && lib == old(lib) && list == old(list) + [d]
    {
      list := list + [d];
      history := history + [d];
      SinceAppend(old(history), d, lib);
    }

    /** Removes from the front what is not above `num`; gives the last one removed. */
    method PopBefore(num: nat) returns (last: Option<Dynasty>, ghost k: nat)
      modifies this`list
      ensures k <= |old(list)| && list == old(list)[k..]
      ensures forall i :: 0 <= i < k ==> old(list)[i].num <= num
      ensures k < |old(list)| ==> old(list)[k].num > num
      ensures last == if k == 0 then None else Some(old(list)[k - 1])
    {
      last := None;
      k := 0;
      while list != []
        invariant 0 <= k <= |old(list)| && list == old(list)[k..]
        invariant forall i :: 0 <= i < k ==> old(list)[i].num <= num
        invariant last == if k == 0 then None else Some(old(list)[k - 1])
        decreases |list|
      {
        var d := list[0];
        if d.num > num {
          break;
        }
        last := Some(d);
        list := list[1..];
        k := k + 1;
      }
    }

    /** Block `num` became irreversible: what it replaced is forgotten. */
    method Purge(num: nat)
      requires Valid() && num >= lib
      modifies this
      ensures Valid() && lib == num && history == old(history)
    {
      hide Sorted, Since;
      var last;
      ghost var k;
      last, k := PopBefore(num);
      SinceSorted(history, old(lib));
      if last.Some? {
        list := [last.value] + list;
        assert list == old(list)[k - 1..];
      }
      SinceCuts(old(list), k, num);
      SinceTwice(history, old(lib), num);
      lib := num;
    }

    /** Blocks from `num` on, all above the last irreversible one, are undone. */
    method PopAfter(num: nat)
      requires Valid() && num > lib
      modifies this
      ensures Valid() && lib == old(lib) && history == Before(old(history), num)
      ensures list == Before(old(list), num)
    {
      SinceBefore(history, lib, num);
      BeforeKeeps(history, num);
      while list != []
        invariant Before(list, num) == Before(old(list), num)
        invariant history == old(history) && lib == old(lib)
        decreases |list|
      {
        var d := list[|list| - 1];
        if d.num < num {
          break;
        }
        list := list[..|list| - 1];
      }
      history := Before(history, num);
    }

    /** The validators in force come from the latest dynasty up to the last irreversible
        block. */
    function Front(): Dynasty
      requires Valid()
      reads this
    {
      SinceSorted(history, lib);
      list[0]
    }
  }

  // ----- about the two cuts -----

  lemma {:induction false} SinceSorted(list: seq<Dynasty>, num: nat)
    requires list != [] && Sorted(list)
    ensures var s := Since(list, num);
            && s != [] && Sorted(s)
            && (list[0].num <= num ==> s[0].num <= num)
            && (|s| > 1 ==> s[1].num > num)
  {
    if |list| > 1 && list[1].num <= num {
      SinceSorted(list[1..], num);
    }
  }

  lemma {:induction false} SinceAppend(list: seq<Dynasty>, d: Dynasty, num: nat)
    requires list != [] && d.num > num
    ensures Since(list + [d], num) == Since(list, num) + [d]
  {
    if |list| > 1 && list[1].num <= num {
      assert (list + [d])[1..] == list[1..] + [d];
      SinceAppend(list[1..], d, num);
    }
  }

  lemma {:induction false} SinceTwice(list: seq<Dynasty>, a: nat, b: nat)
    requires a <= b
    ensures Since(Since(list, a), b) == Since(list, b)
  {
    if |list| > 1 && list[1].num <= a {
      SinceTwice(list[1..], a, b);
    }
  }

  /** Dropping `k - 1` leading dynasties that are not above `num` is the cut. */
  lemma {:induction false} SinceCuts(list: seq<Dynasty>, k: nat, num: nat)
    requires k <= |list| && (forall i :: 0 <= i < k ==> list[i].num <= num)
    requires k < |list| ==> list[k].num > num
    requires Sorted(list)
    ensures Since(list, num) == if k == 0 then list else list[k - 1..]
  {
    if k > 1 {
      assert list[1..][k - 2..] == list[k - 1..];
      SinceCuts(list[1..], k - 1, num);
    }
  }

  lemma {:induction false} BeforeKeeps(list: seq<Dynasty>, num: nat)
    requires Sorted(list)
    ensures Sorted(Before(list, num)) && Before(list, num) <= list
    ensures list != [] && list[0].num < num ==> Before(list, num) != [] && Before(list, num)[0] == list[0]
  {
    if list != [] && list[|list| - 1].num >= num {
      BeforeKeeps(list[..|list| - 1], num);
    }
  }

  /** Undoing reversible blocks does not touch what is in force. */
  lemma {:induction false} SinceBefore(list: seq<Dynasty>, lib: nat, num: nat)
    requires Sorted(list) && num > lib && list != [] && list[0].num <= lib
    ensures Before(Since(list, lib), num) == Since(Before(list, num), lib)
  {
    SinceSorted(list, lib);
    BeforeKeeps(list, num);
    if list[|list| - 1].num >= num {
      var init := list[..|list| - 1];
      assert list == init + [list[|list| - 1]];
      SinceAppend(init, list[|list| - 1], lib);
      SinceBefore(init, lib, num);
      var s := Since(list, lib);
      assert s[..|s| - 1] == Since(init, lib);
    } else {
      var s := Since(list, lib);
      SinceLast(list, lib);
    }
  }

  lemma {:induction false} SinceLast(list: seq<Dynasty>, num: nat)
    requires list != []
    ensures Since(list, num) != [] && Since(list, num)[|Since(list, num)| - 1] == list[|list| - 1]
  {
    if |list| > 1 && list[1].num <= num {
      SinceLast(list[1..], num);
    }
  }

  /** The front is the last dynasty that is not above the last irreversible block: all
      behind it are, and none before it is newer. */
  lemma {:induction false} FrontIsLatest(history: seq<Dynasty>, lib: nat) returns (k: nat)
    requires history != [] && Sorted(history) && history[0].num <= lib
    ensures k < |history| && Since(history, lib) == history[k..]
    ensures history[k].num <= lib && forall i :: k < i < |history| ==> history[i].num > lib
    ensures forall i :: 0 <= i <= k ==> history[i].num <= history[k].num
  {
    SinceSorted(history, lib);
    k := 0;
    if |history| > 1 && history[1].num <= lib {
      var j := FrontIsLatest(history[1..], lib);
      k := j + 1;
      assert history[1..][j..] == history[k..];
      forall i | k < i < |history|
        ensures history[i].num > lib
      {
        assert history[1..][i - 1] == history[i];
      }
    } else {
      forall i | 0 < i < |history|
        ensures history[i].num > lib
      {
        assert history[1].num <= history[i].num;
      }
    }
  }
}
