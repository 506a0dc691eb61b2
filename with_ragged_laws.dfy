/**
 * Round-trip laws of the `with_ragged` adapter, stated for a wrapped layer
 * that is the identity on ragged batches. A ragged, pair or list batch comes
 * back unchanged; a padded batch comes back with the same list view, since
 * the backend rebuilds the padded object. The same holds of a gradient
 * whose items have the lengths the forward pass captured; a gradient with
 * other item sizes has its rows relabelled with the captured lengths.
 */
module WithRaggedLaws {
  import opened RaggedArrays
  import opened WithRagged

  /** A wrapped layer that returns its input and passes gradients through. */
  function Identity<R>(): Layer<R>
  {
    (x: Ragged<R>, isTrain: bool) => (x, (d: Ragged<R>) => d)
  }

  /** Forward through the identity layer returns the input in its own
      layout; a padded batch comes back with the same list view (the
      padded object itself is rebuilt by the backend). */
  lemma IdentityForward<R(!new), P>(ops: PaddingOps<R, P>, x: SeqAny<R, P>, isTrain: bool)
    requires x.PaddedSeq? ==> InverseLaw(ops)
    ensures ForwardDefined(ops, Identity(), x, isTrain)
    ensures var y := Forward(ops, Identity(), x, isTrain).0;
            && KindOf(y) == KindOf(x)
            && (x.PaddedSeq? ==> ops.paddedToList(y.padded) == ops.paddedToList(x.padded))
            && (!x.PaddedSeq? ==> y == x)
  {
    var y := Forward(ops, Identity(), x, isTrain).0;
    assert GetRagged(ops, y) == GetRagged(ops, x);
    GetRaggedInjective(ops, y, x);
  }

  /** The gradient round trip: through the identity layer, the backward
      pass returns the output gradient re-expressed in the input's layout,
      provided the gradient's items have the lengths the forward pass
      captured. */
  lemma IdentityBackward<R(!new), P>(ops: PaddingOps<R, P>, x: SeqAny<R, P>, isTrain: bool, dY: SeqAny<R, P>)
    requires x.PaddedSeq? ==> InverseLaw(ops)
    requires KindOf(dY) == KindOf(x)
    requires (x.ListSeq? || x.PaddedSeq?) ==> GetRagged(ops, dY).lengths == GetRagged(ops, x).lengths
    ensures ForwardDefined(ops, Identity(), x, isTrain)
    ensures var b := Forward(ops, Identity(), x, isTrain).1;
            && BackwardDefined(ops, b, dY)
            && (x.PaddedSeq? ==> ops.paddedToList(Backward(ops, b, dY).padded) == ops.paddedToList(dY.padded))
            && (!x.PaddedSeq? ==> Backward(ops, b, dY) == dY)
  {
    var b := Forward(ops, Identity(), x, isTrain).1;
    assert GradientInput(ops, b, dY) == GetRagged(ops, dY);
    assert b.getDX(GetRagged(ops, dY)) == GetRagged(ops, dY);
    var dX := Backward(ops, b, dY);
    assert GetRagged(ops, dX) == GetRagged(ops, dY);
    GetRaggedInjective(ops, dX, dY);
  }
}
