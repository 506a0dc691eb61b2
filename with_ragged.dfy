/**
 * The `with_ragged` layout adapter: it lets a layer that only consumes and
 * produces ragged batches accept and return any of four batch layouts —
 * a ragged object, a padded object, a list of per-item arrays, or a bare
 * `(data, lengths)` pair — converting on the way in, converting back on
 * the way out, and converting gradients the same way in the backward pass.
 *
 * The backward callbacks the source returns as closures are modelled as an
 * explicit `Backprop` record holding what the closure captured: the wrapped
 * layer's own callback and, for the list and padded layouts, the item
 * lengths computed during the forward pass.
 */
module WithRagged {
  import opened RaggedArrays

  datatype Option<T> = None | Some(value: T)

  /** The wrapped layer's forward pass: a ragged batch and the training
      flag in, the ragged output and its backward callback out. Its numeric
      behaviour is arbitrary. */
  type Layer<!R> = (Ragged<R>, bool) -> (Ragged<R>, Ragged<R> -> Ragged<R>)

  /** The array backend's conversions between a padded batch (of type `P`)
      and its list of per-item arrays. Their internals (the length-sorted
      item order and the per-step batch sizes of a padded batch) are not
      modelled. */
  datatype PaddingOps<!R, !P> = PaddingOps(paddedToList: P -> seq<seq<R>>, listToPadded: seq<seq<R>> -> P)

  /** What the backend promises of the two conversions: reading a padded
      batch back as a list gives the list it was built from, in the
      original item order. */
  ghost predicate InverseLaw<R(!new), P>(ops: PaddingOps<R, P>)
  {
    forall items :: ops.paddedToList(ops.listToPadded(items)) == items
  }

  /** The four batch layouts the adapted layer accepts. */
  datatype SeqAny<R, P> =
    | RaggedSeq(ragged: Ragged<R>)
    | PaddedSeq(padded: P)
    | TupleSeq(data: seq<R>, lengths: seq<nat>)
    | ListSeq(items: seq<seq<R>>)

  datatype Kind = RaggedKind | PaddedKind | TupleKind | ListKind

  function KindOf<R, P>(x: SeqAny<R, P>): Kind
  {
    match x
    case RaggedSeq(_) => RaggedKind
    case PaddedSeq(_) => PaddedKind
    case TupleSeq(_, _) => TupleKind
    case ListSeq(_) => ListKind
  }

  // ---------------------------------------------------------------------
  // Dispatch on the runtime type of the input
  // ---------------------------------------------------------------------

  /** What the dispatch can observe of a runtime value: whether it is a
      ragged or a padded object, or else a built-in tuple or list and how
      many elements it has. */
  datatype Runtime = RaggedObject | PaddedObject | TupleObject(size: nat) | ListObject(size: nat)

  /** `_is_ragged_data`: only a tuple of exactly two elements is the bare
      `(data, lengths)` form. */
  predicate IsRaggedData(v: Runtime): (b: bool)
    ensures b <==> v == TupleObject(2)
  {
    v.TupleObject? && v.size == 2
  }

  /** The order of the checks in `forward`: ragged, then padded, then the
      bare pair, and everything else is treated as a list of arrays. */
  function Dispatch(v: Runtime): (k: Kind)
    ensures k == RaggedKind <==> v == RaggedObject
    ensures k == PaddedKind <==> v == PaddedObject
    ensures k == TupleKind <==> v == TupleObject(2)
    ensures v.ListObject? ==> k == ListKind
    ensures v.TupleObject? && v.size != 2 ==> k == ListKind
  {
    if v == RaggedObject then RaggedKind
    else if v == PaddedObject then PaddedKind
    else if IsRaggedData(v) then TupleKind
    else ListKind
  }

  /** The runtime value each layout is carried in. */
  function RuntimeOf<R, P>(x: SeqAny<R, P>): Runtime
  {
    match x
    case RaggedSeq(_) => RaggedObject
    case PaddedSeq(_) => PaddedObject
    case TupleSeq(_, _) => TupleObject(2)
    case ListSeq(items) => ListObject(|items|)
  }

  /** Every layout, however many items a list holds, is recognised as
      itself: a two-item list is never taken for the bare pair. */
  lemma DispatchRecognisesLayout<R, P>(x: SeqAny<R, P>)
    ensures Dispatch(RuntimeOf(x)) == KindOf(x)
  {
  }

  // ---------------------------------------------------------------------
  // Conversion to ragged (`_get_ragged`)
  // ---------------------------------------------------------------------

  /** `_get_ragged`: the ragged view of a batch in any layout. A ragged
      object is returned as is, the bare pair is repackaged, and a list or
      padded batch is flattened with lengths taken from its list view. */
  function GetRagged<R, P>(ops: PaddingOps<R, P>, x: SeqAny<R, P>): (r: Ragged<R>)
    ensures x.RaggedSeq? ==> r == x.ragged
    ensures x.TupleSeq? ==> r.data == x.data && r.lengths == x.lengths
    ensures x.ListSeq? ==> Consistent(r) && r.lengths == Lengths(x.items) && Unflatten(r.data, r.lengths) == x.items
    ensures x.PaddedSeq? ==>
              var items := ops.paddedToList(x.padded);
              Consistent(r) && r.lengths == Lengths(items) && Unflatten(r.data, r.lengths) == items
  {
    match x
    case RaggedSeq(r) => r
    case PaddedSeq(p) =>
      var items := ops.paddedToList(p);
      UnflattenFlatten(items);
      Ragged(Flatten(items), Lengths(items))
    case TupleSeq(data, lengths) => Ragged(data, lengths)
    case ListSeq(items) =>
      UnflattenFlatten(items);
      Ragged(Flatten(items), Lengths(items))
  }

  /** The ragged view loses nothing: two batches of the same layout with
      the same ragged view are equal, and for padded batches their list
      views are equal. */
  lemma GetRaggedInjective<R, P>(ops: PaddingOps<R, P>, a: SeqAny<R, P>, b: SeqAny<R, P>)
    requires KindOf(a) == KindOf(b)
    requires GetRagged(ops, a) == GetRagged(ops, b)
    ensures a.PaddedSeq? ==> ops.paddedToList(a.padded) == ops.paddedToList(b.padded)
    ensures !a.PaddedSeq? ==> a == b
  {
    var r := GetRagged(ops, a);
    if a.PaddedSeq? {
      assert ops.paddedToList(a.padded) == Unflatten(r.data, r.lengths) == ops.paddedToList(b.padded);
    } else if a.ListSeq? {
      assert a.items == Unflatten(r.data, r.lengths) == b.items;
    }
  }

  // ---------------------------------------------------------------------
  // Backward callbacks
  // ---------------------------------------------------------------------

  /** What each backward closure captures: the wrapped layer's backward
      callback, and for the list and padded layouts the item lengths that
      the forward pass computed from its input. */
  datatype Backprop<!R> =
    | RaggedBackprop(getDX: Ragged<R> -> Ragged<R>)
    | PaddedBackprop(getDX: Ragged<R> -> Ragged<R>, lengths: seq<nat>)
    | TupleBackprop(getDX: Ragged<R> -> Ragged<R>)
    | ListBackprop(getDX: Ragged<R> -> Ragged<R>, lengths: seq<nat>)

  function BackpropKind<R>(b: Backprop<R>): Kind
  {
    match b
    case RaggedBackprop(_) => RaggedKind
    case PaddedBackprop(_, _) => PaddedKind
    case TupleBackprop(_) => TupleKind
    case ListBackprop(_, _) => ListKind
  }

  /** The ragged gradient handed to the wrapped layer's callback: for the
      list and padded layouts, the flattened output gradient cut by the
      lengths captured in the forward pass; otherwise the gradient's own
      ragged view. */
  function GradientInput<R, P>(ops: PaddingOps<R, P>, b: Backprop<R>, dY: SeqAny<R, P>): Ragged<R>
  {
    if b.ListBackprop? || b.PaddedBackprop? then Ragged(GetRagged(ops, dY).data, b.lengths)
    else GetRagged(ops, dY)
  }

  /** What a backward callback needs of its gradient: the layout its
      forward pass returned, and, where the callback splits the wrapped
      layer's input gradient by the captured lengths, an input gradient
      whose rows those lengths cover exactly. */
  predicate BackwardDefined<R, P>(ops: PaddingOps<R, P>, b: Backprop<R>, dY: SeqAny<R, P>)
  {
    && KindOf(dY) == BackpropKind(b)
    && ((b.ListBackprop? || b.PaddedBackprop?) ==>
          Sum(b.lengths) == |b.getDX(GradientInput(ops, b, dY)).data|)
  }

  // ---------------------------------------------------------------------
  // Forward pass, one function per layout
  // ---------------------------------------------------------------------

  /** `_tuple_forward`: the pair is wrapped as a ragged batch, and the
      output and the input gradient are unwrapped into pairs again. */
  function TupleForward<R>(layer: Layer<R>, data: seq<R>, lengths: seq<nat>, isTrain: bool)
    : (r: (seq<R>, seq<nat>, Backprop<R>))
    ensures var (yr, getDX) := layer(Ragged(data, lengths), isTrain);
            Ragged(r.0, r.1) == yr && r.2 == TupleBackprop(getDX)
  {
    var (yr, getDX) := layer(Ragged(data, lengths), isTrain);
    (yr.data, yr.lengths, TupleBackprop(getDX))
  }

  /** `_list_forward`: the layer sees the concatenated items with their
      lengths in list order; its output is cut back into a list by the
      output's own lengths, and the input lengths are kept for backward. */
  function ListForward<R>(layer: Layer<R>, xs: seq<seq<R>>, isTrain: bool)
    : (r: (seq<seq<R>>, Backprop<R>))
    requires Consistent(layer(Ragged(Flatten(xs), Lengths(xs)), isTrain).0)
    ensures var (yr, getDX) := layer(Ragged(Flatten(xs), Lengths(xs)), isTrain);
            && Flatten(r.0) == yr.data
            && Lengths(r.0) == yr.lengths
            && r.1 == ListBackprop(getDX, Lengths(xs))
  {
    var lengths := Lengths(xs);
    var (yr, getDX) := layer(Ragged(Flatten(xs), lengths), isTrain);
    (Unflatten(yr.data, yr.lengths), ListBackprop(getDX, lengths))
  }

  /** `_padded_forward`: the padded batch is read as a list, whose item
      lengths are computed afresh (the padded object's own item order may
      differ); the layer's output is cut into a list and padded again. */
  function PaddedForward<R(!new), P>(ops: PaddingOps<R, P>, layer: Layer<R>, xp: P, isTrain: bool)
    : (r: (P, Backprop<R>))
    requires var xs := ops.paddedToList(xp);
             Consistent(layer(Ragged(Flatten(xs), Lengths(xs)), isTrain).0)
    ensures var xs := ops.paddedToList(xp);
            var (yr, getDX) := layer(Ragged(Flatten(xs), Lengths(xs)), isTrain);
            && r.1 == PaddedBackprop(getDX, Lengths(xs))
            && (InverseLaw(ops) ==>
                  && Flatten(ops.paddedToList(r.0)) == yr.data
                  && Lengths(ops.paddedToList(r.0)) == yr.lengths)
  {
    var xs := ops.paddedToList(xp);
    var lengths := Lengths(xs);
    var (yr, getDX) := layer(Ragged(Flatten(xs), lengths), isTrain);
    (ops.listToPadded(Unflatten(yr.data, yr.lengths)), PaddedBackprop(getDX, lengths))
  }

  /** What `forward` needs of the wrapped layer: where the output is cut
      back into items (list and padded layouts), the layer's output must
      satisfy the length invariant. */
  predicate ForwardDefined<R, P>(ops: PaddingOps<R, P>, layer: Layer<R>, x: SeqAny<R, P>, isTrain: bool)
  {
    (x.ListSeq? || x.PaddedSeq?) ==> Consistent(layer(GetRagged(ops, x), isTrain).0)
  }

  /** `forward`: dispatch on the layout, run the wrapped layer on the
      ragged view and return the output in the layout the input came in.
      Read back by the same rule, the output is exactly the wrapped
      layer's output; the backward record holds the layer's callback and
      the lengths of the input's ragged view. */
  function Forward<R(!new), P>(ops: PaddingOps<R, P>, layer: Layer<R>, x: SeqAny<R, P>, isTrain: bool)
    : (r: (SeqAny<R, P>, Backprop<R>))
    requires ForwardDefined(ops, layer, x, isTrain)
    ensures KindOf(r.0) == KindOf(x) && BackpropKind(r.1) == KindOf(x)
    ensures var (yr, getDX) := layer(GetRagged(ops, x), isTrain);
            && r.1.getDX == getDX
            && (r.1.ListBackprop? || r.1.PaddedBackprop? ==> r.1.lengths == GetRagged(ops, x).lengths)
            && (InverseLaw(ops) || !x.PaddedSeq? ==> GetRagged(ops, r.0) == yr)
    ensures x.RaggedSeq? ==> r.0 == RaggedSeq(layer(x.ragged, isTrain).0)
  {
    match x
    case RaggedSeq(xr) =>
      var (yr, getDX) := layer(xr, isTrain);
      (RaggedSeq(yr), RaggedBackprop(getDX))
    case PaddedSeq(xp) =>
      var (yp, b) := PaddedForward(ops, layer, xp, isTrain);
      (PaddedSeq(yp), b)
    case TupleSeq(data, lengths) =>
      var (yd, yl, b) := TupleForward(layer, data, lengths, isTrain);
      (TupleSeq(yd, yl), b)
    case ListSeq(xs) =>
      var (ys, b) := ListForward(layer, xs, isTrain);
      (ListSeq(ys), b)
  }

  // ---------------------------------------------------------------------
  // Backward pass
  // ---------------------------------------------------------------------

  /** The backward closures of the four layouts. A ragged gradient goes
      straight to the layer's callback; a pair is wrapped and unwrapped; a
      list or padded gradient is flattened, labelled with the lengths
      captured in forward (never the gradient's own item sizes), and the
      layer's input gradient is cut by those same lengths. */
  function Backward<R(!new), P>(ops: PaddingOps<R, P>, b: Backprop<R>, dY: SeqAny<R, P>): (dX: SeqAny<R, P>)
    requires BackwardDefined(ops, b, dY)
    ensures KindOf(dX) == BackpropKind(b)
    ensures var dXr := b.getDX(GradientInput(ops, b, dY));
            (InverseLaw(ops) || !b.PaddedBackprop?) ==>
              && GetRagged(ops, dX).data == dXr.data
              && GetRagged(ops, dX).lengths ==
                   (if b.ListBackprop? || b.PaddedBackprop? then b.lengths else dXr.lengths)
  {
    match b
    case RaggedBackprop(getDX) =>
      RaggedSeq(getDX(dY.ragged))
    case TupleBackprop(getDX) =>
      var dXr := getDX(Ragged(dY.data, dY.lengths));
      TupleSeq(dXr.data, dXr.lengths)
    case ListBackprop(getDX, lengths) =>
      ListSeq(Unflatten(getDX(Ragged(Flatten(dY.items), lengths)).data, lengths))
    case PaddedBackprop(getDX, lengths) =>
      PaddedSeq(ops.listToPadded(
        Unflatten(getDX(Ragged(Flatten(ops.paddedToList(dY.padded)), lengths)).data, lengths)))
  }

  /** The gradient's own item boundaries play no part: two list or padded
      gradients with the same flattened rows give the same input gradient. */
  lemma BackwardIgnoresGradientLengths<R(!new), P>(ops: PaddingOps<R, P>, b: Backprop<R>, dY1: SeqAny<R, P>, dY2: SeqAny<R, P>)
    requires b.ListBackprop? || b.PaddedBackprop?
    requires BackwardDefined(ops, b, dY1) && KindOf(dY2) == KindOf(dY1)
    requires GetRagged(ops, dY1).data == GetRagged(ops, dY2).data
    ensures BackwardDefined(ops, b, dY2)
    ensures Backward(ops, b, dY1) == Backward(ops, b, dY2)
  {
  }

  // ---------------------------------------------------------------------
  // Initialisation
  // ---------------------------------------------------------------------

  /** `init`: the sample input and output, where given, are converted by
      `_get_ragged` and handed to the wrapped layer's initialisation; an
      absent one stays absent. The adapter itself is returned. */
  function Init<R, P, M>(ops: PaddingOps<R, P>, model: M, x: Option<SeqAny<R, P>>, y: Option<SeqAny<R, P>>)
    : (r: (M, Option<Ragged<R>>, Option<Ragged<R>>))
    ensures r.0 == model
    ensures r.1.None? <==> x.None?
    ensures r.2.None? <==> y.None?
    ensures x.Some? ==> r.1.value == GetRagged(ops, x.value)
    ensures y.Some? ==> r.2.value == GetRagged(ops, y.value)
  {
    (model,
     if x.Some? then Some(GetRagged(ops, x.value)) else None,
     if y.Some? then Some(GetRagged(ops, y.value)) else None)
  }
}
