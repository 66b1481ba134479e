/** Database patches laid over one another: each keeps its own rows, the keys it removed and
    the list of its changes, and answers reads it cannot answer itself from below. */
module Patches {
  import opened Options
  import opened Storage

  datatype Layer = Layer(rows: Content, removals: set<Key>, changes: seq<WriteOp>)

  const EMPTY_LAYER := Layer(map[], {}, [])

  /** What is read through the layers: the changes of each applied to what lies below. */
  function Seen(base: Content, layers: seq<Layer>): Content {
    if layers == [] then base else Apply(Seen(base, layers[..|layers| - 1]), layers[|layers| - 1].changes)
  }

  /** The rows and removals of a layer are what its changes leave. */
  ghost predicate LayerOk(l: Layer) {
    Overlay(l.rows, l.removals) == RecordAll(l.changes)
  }

  /** One more write to a layer. */
  function Written(l: Layer, op: WriteOp): Layer {
    match op
    case Put(k, v) => Layer(l.rows[k := v], l.removals - {k}, l.changes + [op])
    case Delete(k) => Layer(l.rows - {k}, l.removals + {k}, l.changes + [op])
  }

  lemma WrittenOk(l: Layer, op: WriteOp)
    requires LayerOk(l)
    ensures LayerOk(Written(l, op)) && Written(l, op).changes == l.changes + [op]
  {
    assert (l.changes + [op])[..|l.changes|] == l.changes;
  }

  lemma SeenTop(base: Content, layers: seq<Layer>, l: Layer)
    ensures Seen(base, layers + [l]) == Apply(Seen(base, layers), l.changes)
  {
    assert (layers + [l])[..|layers|] == layers;
  }

  class Stack {
    var base: Content
    var layers: seq<Layer>

    ghost predicate Valid()
      reads this
    {
      forall i :: 0 <= i < |layers| ==> LayerOk(layers[i])
    }

    /** What a reader of the youngest patch sees. */
    function View(): Content
      reads this
    {
      Seen(base, layers)
    }

    constructor (base: Content)
      ensures Valid() && this.base == base && layers == []
    {
      this.base := base;
      layers := [];
    }

    method NewPatch()
      requires Valid()
      modifies this`layers
      ensures Valid() && layers == old(layers) + [EMPTY_LAYER] && View() == old(View())
    {
      SeenTop(base, layers, EMPTY_LAYER);
      layers := layers + [EMPTY_LAYER];
    }

    /** Asks the youngest patch first, then those below, then the database. */
    method Get(k: Key) returns (v: Option<Value>)
      requires Valid()
      ensures v == Lookup(View(), k)
    {
      var i := |layers|;
      assert layers[..i] == layers;
      while i > 0
        invariant 0 <= i <= |layers| && Lookup(View(), k) == Lookup(Seen(base, layers[..i]), k)
      {
        var l := layers[i - 1];
        assert layers[..i][..i - 1] == layers[..i - 1];
        SessionReads(Seen(base, layers[..i - 1]), l.changes, k);
        if k in l.rows {
          return Some(l.rows[k]);
        }
        if k in l.removals {
          return None;
        }
        i := i - 1;
      }
      return Lookup(base, k);
    }

    /** A write goes to patch `i`. */
    method WriteTo(i: nat, op: WriteOp)
      requires Valid() && i < |layers|
      modifies this`layers
      ensures Valid() && |layers| == |old(layers)| && layers[i].changes == old(layers)[i].changes + [op]
      ensures forall j :: 0 <= j < |layers| && j != i ==> layers[j] == old(layers)[j]
    {
      hide LayerOk, Written;
      WrittenOk(layers[i], op);
      layers := layers[i := Written(layers[i], op)];
    }

    /** A write to the youngest patch: the ones below do not notice. */
    method Write(op: WriteOp)
      requires Valid() && layers != []
      modifies this`layers
      ensures Valid() && layers != [] && layers[..|layers| - 1] == old(layers)[..|old(layers)| - 1]
      ensures layers[|layers| - 1].changes == old(layers)[|old(layers)| - 1].changes + [op]
      ensures View() == Storage.Write(old(View()), op)
    {
      var top := |layers| - 1;
      WriteTo(top, op);
      assert layers[..top] == old(layers)[..top];
      assert (old(layers)[top].changes + [op])[..|old(layers)[top].changes|] == old(layers)[top].changes;
    }

    /** Abandons the youngest patch. */
    method Drop()
      requires Valid() && layers != []
      modifies this`layers
      ensures Valid() && layers == old(layers)[..|old(layers)| - 1]
    {
      layers := layers[..|layers| - 1];
    }

    /** Replays the changes of the youngest patch into the one below: a reader sees no
        difference, and everything else below stays. */
    method Merge()
      requires Valid() && |layers| >= 2
      modifies this`layers
      ensures Valid() && |layers| == |old(layers)| - 1 && View() == old(View())
      ensures layers[..|layers| - 1] == old(layers)[..|layers| - 1]
      ensures layers[|layers| - 1].changes
              == old(layers)[|layers| - 1].changes + old(layers)[|layers|].changes
    {
      var top := |layers| - 1;
      var ops := layers[top].changes;
      for n := 0 to |ops|
        invariant Valid() && |layers| == top + 1 && layers[top] == old(layers)[top]
        invariant layers[..top - 1] == old(layers)[..top - 1]
        invariant layers[top - 1].changes == old(layers)[top - 1].changes + ops[..n]
      {
        WriteTo(top - 1, ops[n]);
      }
      assert ops[..|ops|] == ops;
      layers := layers[..top];
      MergedSees(base, old(layers), layers);
    }

    /** Replays the changes of the only patch into the database. */
    method Store()
      requires Valid() && |layers| == 1
      modifies this`layers, this`base
      ensures Valid() && layers == [] && base == old(View()) == View()
    {
      var ops := layers[0].changes;
      SeenTop(base, [], layers[0]);
      assert layers == [] + [layers[0]];
      for n := 0 to |ops|
        invariant base == Apply(old(base), ops[..n]) && layers == old(layers)
      {
        assert ops[..n + 1][..n] == ops[..n];
        base := Storage.Write(base, ops[n]);
      }
      assert ops[..|ops|] == ops;
      layers := [];
    }
  }

  lemma MergedSees(base: Content, was: seq<Layer>, now: seq<Layer>)
    requires |was| == |now| + 1 && now != [] && now[..|now| - 1] == was[..|now| - 1]
    requires now[|now| - 1].changes == was[|now| - 1].changes + was[|now|].changes
    ensures Seen(base, now) == Seen(base, was)
  {
    assert was[..|now|][..|now| - 1] == was[..|now| - 1];
    ApplyConcat(Seen(base, was[..|now| - 1]), was[|now| - 1].changes, was[|now|].changes);
  }
}
