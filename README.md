# with_ragged: a verified model of thinc's ragged-layout adapter

thinc's `with_ragged` layer wraps a layer that only understands *ragged*
batches (one flat buffer of rows plus a vector of per-item lengths). The
wrapped layer then accepts and returns any of four batch layouts: a
`Ragged` object, a `Padded` object, a list of 2-D arrays, or a bare
`(data, lengths)` pair. The forward pass works in four steps:

1. It picks the layout by a fixed dispatch order.
2. It converts the input to ragged.
3. It runs the wrapped layer.
4. It converts the output back to the layout the input came in.

The backward pass converts gradients in the same way. It uses the item
lengths captured during the forward pass.

The model has three modules:

- `RaggedArrays` (`ragged.dfy`) holds the `Ragged` datatype and the
  backend's `flatten` and `unflatten`. `flatten` is concatenation;
  `unflatten` cuts a buffer by a lengths vector. Proved: their round trip,
  and that the item lengths fix the item boundaries.
- `WithRagged` (`with_ragged.dfy`) holds the adapter. It has:
  - the dispatch on the runtime type (`Dispatch`, `IsRaggedData`);
  - the conversion to ragged (`GetRagged`);
  - one forward function per layout, and `Forward` over all four;
  - `Backward`, which runs the backward closures;
  - `Init`.

  The closures the source returns become a `Backprop` record. It holds the
  wrapped layer's callback and, for the list and padded layouts, the
  lengths captured in forward.
- `WithRaggedLaws` (`with_ragged_laws.dfy`) proves the round-trip laws for
  an identity wrapped layer. The output equals the input in the ragged,
  pair and list layouts. A padded output is rebuilt by the backend, so only
  its list view equals the input's. The input gradient equals the output
  gradient in the same sense, provided the gradient's items have the
  lengths captured in forward. Otherwise the list and padded backward paths
  relabel the gradient's rows with those lengths: with forward lengths
  [2, 1], the list gradient [[a], [b, c]] comes back as [[a, b], [c]].

Rows are values of an abstract type parameter `R`. The wrapped layer is
an arbitrary function value of type
`(Ragged, bool) -> (Ragged, Ragged -> Ragged)`. The backend's
`padded2list` and `list2padded` are parameters (`PaddingOps`). Where a
property needs them, it assumes `InverseLaw`: reading a padded batch back
as a list gives the list it was built from.

The source never checks that `sum(lengths)` equals the number of rows.
The model therefore states that invariant (`Consistent`) as a
precondition, and only where the backend's `unflatten` relies on it:

- on the wrapped layer's output in the list and padded forward paths;
- on the layer's input gradient in the list and padded backward paths.

Nothing in the adapter rejects an inconsistent batch: a ragged object or
a bare pair goes straight to the wrapped layer, and the model follows the
code.

## Model

| member | source | states |
|---|---|---|
| RaggedArrays.Lengths | thinc/layers/with_ragged.py:105 | the lengths vector has one entry per item, the item's row count, in list order |
| RaggedArrays.Flatten | thinc/layers/with_ragged.py:106 | the flattened buffer has exactly as many rows as the item lengths add up to |
| RaggedArrays.Unflatten | thinc/layers/with_ragged.py:111 | cutting a consistent buffer gives items of exactly the given lengths whose concatenation is the buffer |
| RaggedArrays.UnflattenItem | thinc/layers/with_ragged.py:111 | item i of the cut buffer is the slice starting after the first i lengths and lengths[i] rows long |
| RaggedArrays.FlattenInjective | thinc/layers/with_ragged.py:105-111 | two lists with the same item lengths and the same concatenation are equal |
| RaggedArrays.UnflattenFlatten | thinc/layers/with_ragged.py:105-111 | splitting a list's concatenation by its own item lengths returns the list |
| WithRagged.IsRaggedData | thinc/layers/with_ragged.py:44-45 | only a tuple of exactly two elements is the bare pair |
| WithRagged.Dispatch | thinc/layers/with_ragged.py:23-30 | ragged first, padded second, the bare pair only for a tuple of exactly two elements, and every list of any size goes to the list path |
| WithRagged.DispatchRecognisesLayout | thinc/layers/with_ragged.py:44-45 | each of the four layouts is dispatched to its own path, so a two-item list is never taken for a pair |
| WithRagged.GetRagged | thinc/layers/with_ragged.py:48-59 | ragged is returned unchanged; a pair is repackaged field for field; list and padded batches give a consistent ragged whose lengths are the item sizes of the list view and which cuts back into that list |
| WithRagged.GetRaggedInjective | thinc/layers/with_ragged.py:48-59 | the ragged view loses nothing: same layout and same view means the same batch (same list view for padded) |
| WithRagged.TupleForward | thinc/layers/with_ragged.py:62-69 | the layer sees the pair as a ragged batch; the output is the pair (Yr.data, Yr.lengths) and the backward record keeps the layer's callback |
| WithRagged.ListForward | thinc/layers/with_ragged.py:98-111 | the layer sees the concatenated items with their lengths in list order; the output list concatenates to Yr.data with item sizes Yr.lengths; backward keeps the input lengths |
| WithRagged.PaddedForward | thinc/layers/with_ragged.py:72-95 | lengths are recomputed from the padded batch's list view; backward keeps them; under the inverse law the output's list view is Yr cut by Yr.lengths |
| WithRagged.Forward | thinc/layers/with_ragged.py:18-31 | the output and backward record have the input's layout; the layer runs on the input's ragged view; read back as ragged the output is exactly the layer's output; a ragged input goes to the layer unchanged |
| WithRagged.Backward | thinc/layers/with_ragged.py:65-109 | the input gradient has the forward input's layout; its rows are the layer's input gradient; for list and padded its item sizes are the captured forward lengths, for pair and ragged the layer's own |
| WithRagged.BackwardIgnoresGradientLengths | thinc/layers/with_ragged.py:90-109 | for list and padded, gradients with the same flattened rows give the same result, whatever their own item sizes |
| WithRagged.Init | thinc/layers/with_ragged.py:34-41 | an absent sample stays absent, a present one is converted by the same rule as the forward input, and the model itself is returned |
| WithRaggedLaws.IdentityForward | thinc/layers/with_ragged.py:18-31 | with an identity layer the output equals the input in every layout (padded: the same list view) |
| WithRaggedLaws.IdentityBackward | thinc/layers/with_ragged.py:62-111 | with an identity layer the input gradient equals the output gradient in every layout, when the gradient has the captured item lengths |

## Left out

- The `Model` class, the `registry.layers` registration and the model name `with_ragged-<name>` (lines 13-15) are framework plumbing.
- Init: the wrapped layer's `initialize` is a foreign call with side effects on that layer. The model returns the arguments it would receive instead of making the call.
- The array backend's `padded2list` and `list2padded` are parameters with an assumed inverse law. Their internals are not modelled: the length-sorted item order, the per-step batch sizes (`size_at_t`) and the zero padding.
- The `dtype="i"` conversion of the lengths vector (32-bit integers) is not modelled. Lengths are unbounded naturals.
- Array shapes beyond the row axis (feature width, extra channels) are left out. Rows are opaque values.
- A tuple whose size is not two goes to the list path in the source, and its output comes back as a list. The layout datatype cannot hold such a tuple. `Dispatch` states the routing.
- The adapter assumes the wrapped layer preserves lengths. The list and padded backward paths label the gradient's rows with the input lengths. A gradient whose item sizes differ from them is still accepted, as in the source.
- The wrapped layer's numeric behaviour and GPU memory handling (lines 80-83) are left out.
- `_get_ragged` and `init` use the adapter's backend (`model.ops`), while the per-layout forward functions use the wrapped layer's (`layer.ops`). The model has a single `ops` parameter and treats the two as one backend. The claims that forward runs the layer on `GetRagged` of the input, and that `Init` converts like forward, depend on this.
- `thinc/layers/__init__.py` holds only re-exports, and is not part of this model.
- The benchmarking script (`bin/benchmark_multihead_attention.py`) is not part of this model: it does random generation, timing and floating-point attention.
