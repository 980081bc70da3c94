/**
  `flatten` (notion_docs_sync/markdown.py): a generator that splices every
  nested list into the enclosing sequence, at any depth, while strings and
  dicts are yielded as they are.
*/
module Flattening {
  import opened Blocks

  /** `list(flatten(os))`. The result type has no list constructor, so the
      output holds no nested list by construction. */
  function Flatten(os: seq<Out>): seq<Item>
    decreases os
  {
    if os == [] then []
    else
      var head := match os[0]
        case Leaf(x) => [x]
        case Nest(inner) => Flatten(inner);
      head + Flatten(os[1..])
  }

  /** The leaves of a single render result. */
  function Items(o: Out): seq<Item> {
    Flatten([o])
  }

  /** Flattening distributes over concatenation of sibling results. */
  lemma {:induction false} FlattenConcat(a: seq<Out>, b: seq<Out>)
    ensures Flatten(a + b) == Flatten(a) + Flatten(b)
    decreases a
  {
    if a == [] {
      assert a + b == b;
    } else {
      assert (a + b)[0] == a[0];
      assert (a + b)[1..] == a[1..] + b;
      FlattenConcat(a[1..], b);
    }
  }

  /** A list of leaves is yielded unchanged: strings and dicts keep their
      sibling order. */
  lemma {:induction false} FlattenLift(xs: seq<Item>)
    ensures Flatten(Lift(xs)) == xs
    decreases xs
  {
    if xs != [] {
      assert Lift(xs)[1..] == Lift(xs[1..]);
      FlattenLift(xs[1..]);
    }
  }

  /** A nested list anywhere among the siblings is spliced in place. */
  lemma FlattenSplice(a: seq<Out>, inner: seq<Out>, b: seq<Out>)
    ensures Flatten(a + [Nest(inner)] + b) == Flatten(a) + Flatten(inner) + Flatten(b)
  {
    FlattenConcat(a + [Nest(inner)], b);
    FlattenConcat(a, [Nest(inner)]);
    assert [Nest(inner)][1..] == [];
  }

  /** Flattening an already flat result changes nothing. */
  lemma FlattenIdempotent(os: seq<Out>)
    ensures Flatten(Lift(Flatten(os))) == Flatten(os)
  {
    FlattenLift(Flatten(os));
  }

  /** The leaves of a render result that is itself a list of leaves. */
  lemma ItemsOfNest(xs: seq<Item>)
    ensures Items(Nest(Lift(xs))) == xs
  {
    FlattenLift(xs);
    assert [Nest(Lift(xs))][1..] == [];
    assert Flatten([Nest(Lift(xs))]) == Flatten(Lift(xs)) + Flatten([]);
  }

  /** The leaves of a single leaf. */
  lemma ItemsOfLeaf(x: Item)
    ensures Items(Leaf(x)) == [x]
  {
    assert [Leaf(x)][1..] == [];
    assert Flatten([Leaf(x)]) == [x] + Flatten([]);
  }

  /** Splitting off the first sibling result. */
  lemma FlattenCons(o: Out, os: seq<Out>)
    ensures Flatten([o] + os) == Items(o) + Flatten(os)
  {
    FlattenConcat([o], os);
  }

  /** Siblings that each rendered to a single leaf flatten to those leaves. */
  lemma {:induction false} FlattenOfLeaves(os: seq<Out>)
    requires forall i :: 0 <= i < |os| ==> os[i].Leaf?
    ensures |Flatten(os)| == |os|
    ensures forall i :: 0 <= i < |os| ==> Flatten(os)[i] == os[i].item
    decreases os
  {
    if os != [] {
      FlattenOfLeaves(os[1..]);
    }
  }

  /** Siblings whose results hold only dicts flatten to only dicts. */
  lemma {:induction false} FlattenAllDicts(os: seq<Out>)
    requires forall i :: 0 <= i < |os| ==> AllDicts(Items(os[i]))
    ensures AllDicts(Flatten(os))
    decreases os
  {
    if os != [] {
      FlattenCons(os[0], os[1..]);
      assert os == [os[0]] + os[1..];
      FlattenAllDicts(os[1..]);
    }
  }
}
