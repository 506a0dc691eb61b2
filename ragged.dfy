/**
 * The ragged batch layout and the two backend operations the adapter uses
 * to move between it and a list of per-item arrays.
 *
 * A 2-D array is modelled by its sequence of rows; the row type `R` is left
 * abstract, since nothing here looks inside a row (feature width, dtype and
 * device are not part of the model).
 */
module RaggedArrays {

  /** A batch of variable-length sequences: every item's rows concatenated
      in batch order in `data`, and the number of rows of item `i` in
      `lengths[i]`. */
  datatype Ragged<R> = Ragged(data: seq<R>, lengths: seq<nat>)

  function Sum(lengths: seq<nat>): nat
  {
    if lengths == [] then 0 else lengths[0] + Sum(lengths[1..])
  }

  /** The length invariant of a ragged batch: the lengths account for
      every row of the buffer and for nothing more. Nothing in the library
      checks it; the array backend's `unflatten` relies on it. */
  predicate Consistent<R>(r: Ragged<R>)
  {
    Sum(r.lengths) == |r.data|
  }

  /** The item lengths of a list of arrays, in list order. */
  function Lengths<R>(items: seq<seq<R>>): (lengths: seq<nat>)
    ensures |lengths| == |items|
    ensures forall i :: 0 <= i < |items| ==> lengths[i] == |items[i]|
  {
    seq(|items|, i requires 0 <= i < |items| => |items[i]|)
  }

  lemma LengthsCons<R>(item: seq<R>, rest: seq<seq<R>>)
    ensures Lengths([item] + rest) == [|item|] + Lengths(rest)
  {
  }

  /** The backend's `flatten`: concatenation of the items along the row axis. */
  function Flatten<R>(items: seq<seq<R>>): (flat: seq<R>)
    ensures |flat| == Sum(Lengths(items))
  {
    if items == [] then []
    else
      assert Lengths(items) == [|items[0]|] + Lengths(items[1..]) by {
        LengthsCons(items[0], items[1..]);
        assert items == [items[0]] + items[1..];
      }
      items[0] + Flatten(items[1..])
  }

  /** The backend's `unflatten`: cut `data` into consecutive pieces of the
      given lengths. The backend demands that the lengths cover the buffer
      exactly. */
  function Unflatten<R>(data: seq<R>, lengths: seq<nat>): (items: seq<seq<R>>)
    requires Sum(lengths) == |data|
    ensures Lengths(items) == lengths
    ensures Flatten(items) == data
    decreases lengths
  {
    if lengths == [] then []
    else
      var head := data[..lengths[0]];
      var rest := Unflatten(data[lengths[0]..], lengths[1..]);
      LengthsCons(head, rest);
      assert ([head] + rest)[1..] == rest;
      assert lengths == [lengths[0]] + lengths[1..];
      [head] + rest
  }

  /** Item `i` of `Unflatten(data, lengths)` is the slice of `data` that
      starts after the first `i` items and is `lengths[i]` rows long. */
  lemma {:induction false} UnflattenItem<R>(data: seq<R>, lengths: seq<nat>, i: nat)
    requires Sum(lengths) == |data| && i < |lengths|
    ensures Sum(lengths[..i]) + lengths[i] <= |data|
    ensures Unflatten(data, lengths)[i] == data[Sum(lengths[..i])..Sum(lengths[..i]) + lengths[i]]
  {
    if i == 0 {
      assert lengths[..0] == [];
      assert Sum(lengths) == lengths[0] + Sum(lengths[1..]);
    } else {
      UnflattenItem(data[lengths[0]..], lengths[1..], i - 1);
      assert lengths[..i][1..] == lengths[1..][..i - 1];
      assert Sum(lengths[..i]) == lengths[0] + Sum(lengths[1..][..i - 1]);
    }
  }

  /** Two lists with the same item lengths and the same concatenation are
      the same list: the lengths alone recover the item boundaries. */
  lemma {:induction false} FlattenInjective<R>(a: seq<seq<R>>, b: seq<seq<R>>)
    requires Lengths(a) == Lengths(b)
    requires Flatten(a) == Flatten(b)
    ensures a == b
  {
    if a != [] {
      var n := |a[0]|;
      assert |b[0]| == n by { assert Lengths(a)[0] == Lengths(b)[0]; }
      assert a[0] == Flatten(a)[..n];
      assert b[0] == Flatten(b)[..n];
      assert Flatten(a[1..]) == Flatten(a)[n..];
      assert Flatten(b[1..]) == Flatten(b)[n..];
      assert Lengths(a[1..]) == Lengths(b[1..]) by {
        assert Lengths(a[1..]) == Lengths(a)[1..];
        assert Lengths(b[1..]) == Lengths(b)[1..];
      }
      FlattenInjective(a[1..], b[1..]);
      assert a == [a[0]] + a[1..];
      assert b == [b[0]] + b[1..];
    }
  }

  /** Round trip of the backend: splitting a list's concatenation by its
      own item lengths gives the list back. */
  lemma UnflattenFlatten<R>(items: seq<seq<R>>)
    ensures Sum(Lengths(items)) == |Flatten(items)|
    ensures Unflatten(Flatten(items), Lengths(items)) == items
  {
    FlattenInjective(Unflatten(Flatten(items), Lengths(items)), items);
  }
}
