# llama2-high-level-cpp, modelled in Dafny

This project models the core of a small Llama-2 inference engine written in C++ (the
repository frost-beta/llama2-high-level-cpp), and proves properties of that model. The model
covers:

- the fixed-shape tensors of `src/tensor.h`;
- token embedding and weight-tied unembedding;
- one self-attention layer with its key/value cache, grouped-query heads and rotary position
  embedding;
- the SwiGLU feed-forward layer;
- the decoder block with its two residual connections;
- the transformer, which folds over its decoder layers;
- the top-p sampler.

Numbers are Dafny `real`s. The floating-point kernels (`sqrt`, `exp`, `pow`, `cos`, `sin`, and
complex multiplication) are not computed. They are fields of a `Kernels` value passed to every
layer, together with the few facts the layers rely on (`Kernels.Valid`): `sqrt` is positive on
positives, `exp` is positive, `cos 0 = 1`, `sin 0 = 0` and `cos² + sin² = 1`. The seven sizes of
the generated `model_config.h` form a `Config`. The weight tables form a `Weights` value whose
lengths are those of the source's arrays.

A tensor is a `View(offset, dims)` over flat row-major storage. The storage is a `seq<real>` when
it is only read, and an `array<real>` when it is written in place: the KV caches, the queries,
the head slices of `x`, and the gate and hidden buffers. A bounds `CHECK` of the source becomes
a `Checked` result, either `Ok(value)` or `Abort(failed)`.

The classes mirror the source's classes: `SelfAttention`, `FeedForward`, `Decoder` and
`Transformer`. The caches are `array` fields, and each `Forward` is a method that states the
new cache contents through a specification function. The model's layers are:

- `Tensors`: `src/tensor.h`.
- `ModelCommon`: sizes, weights, kernels, RMS normalisation and softmax.
- `Embedding`.
- `Rope`: `ApplyRotaryEmbeddings`.
- `Attention`.
- `FeedForwardLayer`.
- `DecoderLayer`.
- `TransformerModel`.
- `Sampling`: `SampleTopP`.

The candidate list of `SampleTopP` can be empty even for p ≥ 0: for three tokens of
probability 1/3 each and p = 0, the cutoff is 1/2 and no token reaches it
(`Sampling.EqualThirdsWithZeroPAbort`). The model
follows the code, which aborts through `CHECK_GT` in that case. `Sampling.DistributionHasCandidates`
shows that the list is nonempty when the probabilities sum to 1 and p·N ≥ 1. The engine's own
call (p = 0.9 over a softmax) meets those conditions.

## Model

| member | source | states |
|---|---|---|
| Tensors.StorageSize | src/tensor.h:64-70 | `Multiplydimensions`: the first dimension multiplied by each further dimension in turn, the element count of a shape |
| Tensors.StorageSizeConcat | src/tensor.h:64-70 | the product of the dimensions of a + b is the product for a times the product for b |
| Tensors.StorageSizePositive | src/tensor.h:96-98 | a shape with no zero dimension has a positive storage_size |
| Tensors.StorageSizeFront | src/tensor.h:64-70 | storage_size is the first dimension times the storage_size of the remaining dimensions |
| Tensors.StorageSizeTwo | src/tensor.h:64-70 | the storage_size of [N, M] is N * M |
| Tensors.StorageSizeThree | src/tensor.h:64-70 | the storage_size of [N, M, D] is N * M * D |
| Tensors.Stride | src/tensor.h:185 | storage_size / N1 is exactly the storage_size of the inner dimensions, the stride of `operator[]` |
| Tensors.ViewOf | src/tensor.h:106-110 | a view of `dims` at `offset` in a source of a given size is built exactly when offset + storage_size <= the source size, and otherwise aborts; a built view keeps the offset and shape and ends inside the source |
| Tensors.SubView | src/tensor.h:129-133 | a view taken from a tensor at `offset` passes the check exactly when offset + storage_size <= the source's storage_size; it then starts at source offset + offset and lies inside the source |
| Tensors.SubViewAliases | src/tensor.h:129-133 | element k of a sub-view is element offset + k of the tensor it was taken from |
| Tensors.Elements | src/tensor.h:108 | the elements a view covers: storage_size of them, element k being storage element offset + k |
| Tensors.ViewAs | src/tensor.h:156-161 | a reshape is only allowed when the new shape has the same storage_size; it keeps the offset |
| Tensors.ViewAsAliases | src/tensor.h:156-169 | element k of the reshaped view is element k of the original (same storage) |
| Tensors.Row | src/tensor.h:181-187 | indexing a rank >= 2 tensor with i gives the sub-view of the inner dimensions at offset + i * (storage_size / N1), and the sub-view check passes exactly when i < N1 |
| Tensors.MatrixRowView | src/tensor.h:185 | row i of an [N, M] view is the length-M view at offset + i * M |
| Tensors.Element | src/tensor.h:182-183 | indexing a rank-1 tensor returns its element i |
| Tensors.ElementOfRow | src/tensor.h:181-196 | element [i][j] of an [N, M] tensor is flat element i * M + j |
| Tensors.RowOfRow | src/tensor.h:181-187 | [t][k] of an [A, B, C] tensor is the length-C view at offset + t * (B * C) + k * C |
| Tensors.MatrixRow | src/tensor.h:240 | row i of the matrix as read by left[i][j]: element j is storage element offset + i * M + j |
| Tensors.MatVec | src/tensor.h:234-243 | the product of an [N, M] matrix with a length-M vector has N entries, entry i being row i dotted with the vector |
| Tensors.Dot | src/tensor.h:249-256 | the sum of left[i] * right[i] over i that both the inner loop of MatrixProductTo and DotProduct accumulate, summed from the first index to the last |
| Tensors.MatVecReadsRows | src/tensor.h:237-242 | element i of the product is the dot product of row i (indexed as left[i][j]) with the vector |
| Tensors.DotProduct | src/tensor.h:249-256 | the accumulator loop started from zero returns the sum of left[i] * right[i] (`Dot`) |
| Tensors.AccumulateRow | src/tensor.h:238-241 | one pass of the outer loop: the element of out it targets becomes row i of left dotted with right (zeroed, then accumulated), and no other element of out changes |
| Tensors.MatrixProductTo | src/tensor.h:234-243 | out's window holds the product left · right whatever it held before, and every element of out outside the window is unchanged |
| Tensors.Overwrite | src/tensor.h:234-243 | the shape of an in-place write: the window from `at` holds the new contents, and everything before and after it is the old contents |
| Tensors.OverwriteTwice | src/tensor.h:237-238 | writing a window twice leaves only the second write: the product does not depend on out's prior contents |
| Tensors.MatrixProduct | src/tensor.h:222-227 | the result is the N-element product MatVec, which is what MatrixProductTo writes into the fresh tensor it fills |
| Tensors.MatrixProductBuffer | src/tensor.h:222-227 | the same product, in a freshly allocated array that the caller then updates in place |
| Tensors.Buffer | src/decoder.cc:25-30 | a by-value tensor that a residual loop then updates: a freshly allocated array holding the given contents |
| ModelCommon.ValidIsSourceConditions | src/model_common.h:15-16 | the products the model uses (heads * D == E, kvHeads * group == heads, 0 < kvHeads * D <= E) follow from, and are equivalent to, the source's conditions: positive sizes, E % heads == 0, heads % kvHeads == 0, D even |
| ModelCommon.LayerView | src/self_attention.cc:53-61 | the view of one layer's block in a table of `layers` blocks, built at offset layer * storage_size, passes the bounds check exactly when layer < layers |
| ModelCommon.Rms | src/model_common.h:22-26 | sqrt(sum of squares / N + 1e-5) is positive, so the division never divides by zero |
| ModelCommon.SquaresNonnegative | src/model_common.h:22-24 | the sum of squares is nonnegative |
| ModelCommon.RMSNormalize | src/model_common.h:20-31 | the normalised vector has the input's length |
| ModelCommon.Max | src/model_common.h:37 | std::max_element: the maximum is an element and no element exceeds it |
| ModelCommon.Exponentials | src/model_common.h:39-42 | every exp(x - max) is positive |
| ModelCommon.Softmax | src/model_common.h:33-46 | softmax keeps the number of scores |
| ModelCommon.SoftmaxIsDistribution | src/model_common.h:33-46 | every softmax output is positive and the outputs sum to 1 |
| ModelCommon.SoftmaxSingleton | src/model_common.h:33-46 | the softmax of one score is [1] |
| ModelCommon.SumPositive | src/model_common.h:38-42 | the sum of positive exponentials is positive, so the division by sum is defined |
| ModelCommon.SumScaled | src/model_common.h:43-45 | dividing every element by the sum divides the sum by it |
| ModelCommon.Add | src/decoder.cc:29-30 | the residual addition keeps the length |
| Embedding.TokenRow | src/embedding.cc:16-18 | the embedding of a token is a row of kEmbeddingSize elements of the table |
| Embedding.Copy | src/embedding.cc:16-18 | std::copy of [first, last) yields exactly that slice of the table |
| Embedding.Encode | src/embedding.cc:13-20 | aborts exactly when the token is outside [0, kTokensSize); otherwise returns elements [token * E, (token + 1) * E) of the table |
| Embedding.TableViewFits | src/embedding.cc:24 | viewing the whole table as [kTokensSize, kEmbeddingSize] at offset 0 always passes the bounds check |
| Embedding.TokenLogits | src/embedding.cc:22-26 | there is one logit per token |
| Embedding.EmbeddingToTokenLogits | src/embedding.cc:22-26 | the product of the table view with x is, element by element, the dot product of x with the token's own embedding, the row Encode returns (weight tying) |
| Rope.Angle | src/self_attention.cc:43-44 | the angle of the pair at element i: position * 10000^(-i / kHeadDimension) |
| Rope.Polar | src/self_attention.cc:44 | std::polar(1, angle): the unit complex number (cos angle, sin angle) |
| Rope.Turn | src/self_attention.cc:42-45 | the pair (a, b) read as a complex number and multiplied by polar(1, angle) |
| Rope.Rotated | src/self_attention.cc:38-49 | the rotation keeps the window's length |
| Rope.RotatedPair | src/self_attention.cc:41-48 | pair (2p, 2p+1) of the result is pair p of the input times the unit complex number of its angle, and depends on no other element |
| Rope.RotatedAtPositionZero | src/self_attention.cc:43-45 | at position 0 every angle is 0 and the window comes back unchanged |
| Rope.RotationKeepsPairLength | src/self_attention.cc:44-45 | the rotation keeps the squared length of every pair (the frequency has magnitude 1) |
| Rope.UnitLength | src/self_attention.cc:44-45 | multiplying by polar(1, angle) keeps the squared length of a complex number |
| Rope.RotateHeads | src/self_attention.cc:88-91 | rotating heads one after another keeps the length |
| Rope.RotateHeadsStep | src/self_attention.cc:88-91 | rotating one more head appends that head's rotation to the rotation of the earlier heads |
| Rope.RotateHeadsAtPositionZero | src/self_attention.cc:88-95 | at position 0 rotating every head is the identity |
| Rope.ApplyRotaryEmbeddings | src/self_attention.cc:38-49 | the pairwise loop rewrites exactly the window with its rotation; every element outside the window is unchanged |
| Rope.TurnPair | src/self_attention.cc:42-47 | one pass of the loop: pair i is rotated, the rest as before |
| Rope.RotatedStep | src/self_attention.cc:41-48 | the rotation of the first i + 2 elements extends that of the first i by the rotated pair i |
| Rope.RotateEachHead | src/self_attention.cc:88-95 | the loop over heads replaces the [heads, D] window with the rotation of each of its heads and changes nothing else |
| Rope.RotateAllHeads | src/self_attention.cc:88-91 | the loop over heads, run from the first head to the last, leaves every head rotated in place and the rest of the buffer as it was |
| Rope.RotateNextHead | src/self_attention.cc:89-90 | one pass of the loop over heads rotates head i in place |
| Rope.RotateHead | src/self_attention.cc:89-90 | `ApplyRotaryEmbeddings` on the view of one head rotates that head and nothing else |
| Rope.HeadsRotatedAtStart | src/self_attention.cc:88 | before the first head nothing is rotated |
| Rope.HeadsRotatedAtEnd | src/self_attention.cc:88-91 | after the last head the buffer is the original with the window replaced by all heads rotated |
| Attention.KeyShape | src/self_attention.h:12-13 | the key and value projections used by the model have shape [kKVHeadsSize * D, kEmbeddingSize] |
| Attention.DeclaredKeyShape | src/self_attention.h:12-13 | the shape wk_ and wv_ are declared with, [kEmbeddingSize, kKVHeadsSize * kHeadDimension] |
| Attention.DeclaredKeyShapeNeedsAllHeads | src/self_attention.h:12-13 | the declared shape [kEmbeddingSize, kKVHeadsSize * D] fits MatrixProductTo's template for x and the cache row exactly when kKVHeadsSize == kHeadsSize |
| Attention.DeclaredKeyShapeRejectsGroupedModel | src/self_attention.h:12-13 | a valid grouped configuration (E=4, heads=2, kvHeads=1) for which the declared shape does not fit |
| Attention.KeyShapeCompatible | src/self_attention.cc:77 | the shape [kKVHeadsSize * D, kEmbeddingSize] always fits the product of x into a cache row |
| Attention.AttentionViews | src/self_attention.cc:53-61 | the four weight views of a layer pass their bounds checks exactly when layer < kLayersSize; they start at layer * E * heads * D, layer * E * kv * D (twice) and layer * E * E, and fit their tables with the shapes the products need |
| Attention.CacheView | src/self_attention.h:17-18 | a cache is a [kSequenceSize, kKVHeadsSize * D] tensor at offset 0 |
| Attention.CacheRow | src/self_attention.cc:76 | `keys_cache_[position]` passes the check exactly when position < kSequenceSize, and is then row position of the cache |
| Attention.CacheRowHeads | src/self_attention.cc:84 | row position of the [seq, kv, D] reshape of a cache is the cache row viewed as [kv, D] |
| Attention.CacheHeadView | src/self_attention.cc:106 | `xk[past][kv]` starts at past * kKVHeadsSize * D + kv * D, has D elements and lies within row past |
| Attention.CacheHeadViewIsIndexed | src/self_attention.cc:106 | indexing the row reshape with kv gives that view |
| Attention.CachedHead | src/self_attention.cc:106 | head kv of cache row past has D elements |
| Attention.StoreRow | src/self_attention.cc:75-80 | writing a cache row keeps the cache's size |
| Attention.StoreRowSetsOneRow | src/self_attention.cc:75-80 | after storing at `position`, row position is the new row and every other row is as before |
| Attention.CachedHeadOfStoredRow | src/self_attention.cc:75-80 | a head of the stored row is the slice of the new row for that head; heads of other rows are unchanged |
| Attention.CachedHeadIsRowSlice | src/self_attention.cc:106 | head kv of row t is the slice [kv * D, kv * D + D) of row t |
| Attention.Queries | src/self_attention.cc:69 | the rotated queries have heads * D elements |
| Attention.NewKeys | src/self_attention.cc:77 | the rotated new keys have one cache row's width |
| Attention.NewValues | src/self_attention.cc:80 | the new values have one cache row's width |
| Attention.KvHead | src/self_attention.cc:105 | head / (heads / kvHeads) is a valid KV head, and its group of heads / kvHeads consecutive query heads contains the query head |
| Attention.QueryHead | src/self_attention.cc:99 | `xq[head]` has D elements |
| Attention.CachedHeads | src/self_attention.cc:103-106 | the heads read for positions 0..position are position + 1 vectors of D elements |
| Attention.Scores | src/self_attention.cc:102-108 | one score per past position, so the score vector has position + 1 entries |
| Attention.Accumulate | src/self_attention.cc:119-121 | one pass over the head slice, `output[i] += value[i] * score`, keeps the slice's length |
| Attention.Zeros | src/self_attention.cc:114 | the zero fill: D zeros |
| Attention.WeightedSum | src/self_attention.cc:113-122 | the accumulated head slice has D elements |
| Attention.HeadOutput | src/self_attention.cc:98-123 | what one query head writes has D elements |
| Attention.HeadOutputs | src/self_attention.cc:98-123 | one output of D elements per query head |
| Attention.Concat | src/self_attention.cc:113 | the head outputs side by side: head h's output fills the slice of x starting at h * kHeadDimension |
| Attention.ConcatLength | src/self_attention.cc:113 | the head slices side by side fill heads * D = E elements of x |
| Attention.AttentionOutput | src/self_attention.cc:125 | the layer's result has kEmbeddingSize elements |
| Attention.PastRows | src/self_attention.cc:103 | rows 0..position of a cache: (position + 1) rows of elements |
| Attention.CachedHeadInPast | src/self_attention.cc:106 | two caches that agree on rows 0..position give the same head for every past position <= position |
| Attention.CachedHeadsInPast | src/self_attention.cc:103-117 | such caches give the same key and value heads to the score and accumulation loops |
| Attention.AttentionReadsOnlyPast | src/self_attention.cc:98-125 | the attention output depends on the caches only through rows 0..position: rows beyond position are never read |
| Attention.WeightedSumOfOne | src/self_attention.cc:113-122 | one value weighted by 1 is that value |
| Attention.FirstPositionAttendsToItself | src/self_attention.cc:98-123 | at position 0 every head outputs value head 0 of its KV head, weighted by 1 |
| Attention.WeightedSumOfEqualValues | src/self_attention.cc:115-122 | when all values are u, the accumulated slice is u times the sum of the weights |
| Attention.WeightedSumOfEqualValuesIsValue | src/self_attention.cc:115-122 | with weights summing to 1, equal values pass through unchanged |
| Attention.EqualValuesPassThrough | src/self_attention.cc:98-123 | when every past value of a head's KV head is u, that head outputs u, whatever the keys and queries |
| Attention.HeadScores | src/self_attention.cc:102-108 | the score loop fills, for each past position, the query dotted with key head `head / group` of that row, divided by sqrt(D) |
| Attention.ScoreOfPast | src/self_attention.cc:105-107 | score `past` is Dot(query, xk[past][kv]) / sqrt(D) |
| Attention.FillZero | src/self_attention.cc:114 | std::fill sets the head slice to zeros and nothing else |
| Attention.ZeroOne | src/self_attention.cc:114 | one step of the fill |
| Attention.WeightedSumStep | src/self_attention.cc:115-122 | the loop over past positions adds each weighted value in order |
| Attention.AccumulateInto | src/self_attention.cc:119-121 | the innermost loop adds value * score to each element of the head slice and changes nothing else |
| Attention.WriteHead | src/self_attention.cc:111-122 | the slice [start, start + D) of x becomes the weighted sum of the values, starting from zero, and nothing else of x changes |
| Attention.MixHead | src/self_attention.cc:99-122 | one pass of the loop over heads writes that head's output into its own slice, the heads before it keeping theirs |
| Attention.MixedStep | src/self_attention.cc:113 | each head writes only its own slice: the earlier heads' slices and the later part of x are untouched |
| Attention.MixHeads | src/self_attention.cc:98-123 | after the loop over heads, x holds the outputs of all query heads side by side |
| Attention.MixedAll | src/self_attention.cc:98-123 | after the last head nothing of the old x remains |
| Attention.SelfAttention.constructor | src/self_attention.cc:53-61 | a layer's views are those AttentionViews builds for that layer; its caches are fresh and distinct |
| Attention.SelfAttention.Forward | src/self_attention.cc:63-126 | aborts exactly when position >= kSequenceSize, with both caches unchanged; otherwise key-cache row position becomes the rotated wk·x, value-cache row position becomes wv·x, every other row stays, and the result is AttentionOutput over the updated caches |
| Attention.StoreProjection | src/self_attention.cc:75-80 | `MatrixProductTo(wk_, x, &keys)` into row position of a cache: that row becomes the product and the rest of the cache is unchanged |
| Attention.RotateQueries | src/self_attention.cc:88-91 | the loop over query heads rotates every head of the queries for `position` |
| Attention.RotateStoredKeys | src/self_attention.cc:92-95 | the loop over KV heads of row position rotates the stored keys, so the row holds the rotated projection and the other rows are untouched |
| FeedForwardLayer.FfnViewsOf | src/feed_forward.cc:33-36 | the three weight views pass their checks exactly when layer < kLayersSize, start at layer * hidden * E, and fit their tables with the shapes the products need |
| FeedForwardLayer.Swished | src/feed_forward.cc:28 | swish of one value, v / (1 + exp(-v)); the divisor exceeds 1, so the division is defined |
| FeedForwardLayer.SwishShrinks | src/feed_forward.cc:20-29 | swish maps a positive value into (0, v), a negative one into (v, 0), and 0 to 0 |
| FeedForwardLayer.Swish | src/feed_forward.cc:25-29 | swish keeps the length |
| FeedForwardLayer.SwishIsElementwise | src/feed_forward.cc:27-28 | each swish output depends only on the input element at the same index |
| FeedForwardLayer.SwishInPlace | src/feed_forward.cc:26-29 | the range loop replaces every element by its swish |
| FeedForwardLayer.Product | src/feed_forward.cc:46-47 | the elementwise product keeps the length |
| FeedForwardLayer.MultiplyInPlace | src/feed_forward.cc:46-47 | the loop makes h[i] = h[i] * gate[i] for every i |
| FeedForwardLayer.Hidden | src/feed_forward.cc:40-47 | the gated hidden state has kHiddenDim elements |
| FeedForwardLayer.FfnOutput | src/feed_forward.cc:49 | the down projection has kEmbeddingSize elements |
| FeedForwardLayer.ClosedGateSilencesUnit | src/feed_forward.cc:40-47 | a hidden unit whose gate projection is 0 contributes 0 |
| FeedForwardLayer.DotZero | src/feed_forward.cc:49 | a dot product with a zero vector is 0 |
| FeedForwardLayer.ZeroInputZeroOutput | src/feed_forward.cc:38-50 | the zero embedding is mapped to the zero embedding |
| FeedForwardLayer.FeedForward.constructor | src/feed_forward.cc:33-36 | the layer's views are those FfnViewsOf builds for that layer |
| FeedForwardLayer.FeedForward.Forward | src/feed_forward.cc:38-50 | returns w2 · (w3·x times swish(w1·x), element by element); the method is const and changes no state |
| DecoderLayer.NormView | src/decoder.cc:20-21 | a norm slice passes the check exactly when layer < kLayersSize and is then [layer * E, (layer + 1) * E) of its table |
| DecoderLayer.AttentionNormWeights | src/decoder.cc:20 | attention_norm_ has kEmbeddingSize elements |
| DecoderLayer.FfnNormWeights | src/decoder.cc:21 | feed_forward_norm_ has kEmbeddingSize elements |
| DecoderLayer.StoredCaches | src/decoder.cc:25-26 | the caches after the attention call keep their size |
| DecoderLayer.AttentionResidual | src/decoder.cc:25-30 | h = attention(RMSNorm(x)) + x has kEmbeddingSize elements |
| DecoderLayer.DecoderStep | src/decoder.cc:23-39 | a decoder call yields an embedding and two caches of the right sizes |
| DecoderLayer.DecoderKeepsOtherRows | src/decoder.cc:25-26 | a decoder call leaves every cache row other than position unchanged |
| DecoderLayer.StoreRowKeepsPastAgreement | src/self_attention.cc:75-80 | storing the same row into two caches that agree on rows 0..position keeps them agreeing |
| DecoderLayer.SameOutputFromStoredAgreement | src/decoder.cc:23-39 | caches that agree on rows 0..position after the store give the same decoder output |
| DecoderLayer.DecoderReadsOnlyPast | src/decoder.cc:23-39 | the decoder output, and rows 0..position of the caches it leaves, depend only on rows 0..position of the caches it was given |
| DecoderLayer.StoreFirstRow | src/self_attention.cc:75-80 | at position 0 the past of the stored cache is the new row alone |
| DecoderLayer.DecoderIgnoresCachesAtFirstPosition | src/decoder.cc:23-39 | at position 0 the output, and row 0 of the caches it leaves, do not depend on the caches' earlier contents |
| DecoderLayer.AddInPlace | src/decoder.cc:29-30 | the residual loop makes a[j] = a[j] + b[j] for every j |
| DecoderLayer.Decoder.constructor | src/decoder.cc:17-21 | attention, feed-forward and both norm slices are built for the same layer; the caches are fresh |
| DecoderLayer.Decoder.Forward | src/decoder.cc:23-40 | aborts exactly when position >= kSequenceSize, with the caches unchanged; otherwise the result and the new caches are DecoderStep of x and the old caches; the feed-forward layer and the norms are not changed |
| TransformerModel.Fold | src/transformer.cc:29-30 | a step applied for layers 0, 1, ..., n - 1 in order, each to the previous layer's result |
| TransformerModel.FoldCongruence | src/transformer.cc:29-30 | two decoder loops whose layers agree compute the same embedding |
| TransformerModel.LayerOutput | src/transformer.cc:30 | the embedding layer `layer` returns, from the caches as they were before the call; it has the length of its input |
| TransformerModel.StackKeepsLength | src/transformer.cc:29-30 | the decoder loop keeps the embedding's length |
| TransformerModel.LayerInput | src/transformer.cc:29-30 | the embedding layer n receives has kEmbeddingSize elements |
| TransformerModel.StackIsDecoder | src/transformer.cc:30 | a turn of the loop is `decoders_[i].Forward(x, position)` on layer i's caches |
| TransformerModel.LayerStep | src/transformer.cc:29-30 | what layer i does in a call: its decoder step on its own input and caches |
| TransformerModel.Logits | src/transformer.cc:26-35 | one logit per token |
| TransformerModel.StepOutputReadsOnlyPast | src/decoder.cc:23-39 | a layer's output depends only on rows 0..position of its caches |
| TransformerModel.StepOutputAtFirstPosition | src/decoder.cc:23-39 | at position 0 a layer's output does not depend on its caches |
| TransformerModel.LayerInputReadsOnlyPast | src/transformer.cc:29-30 | caches that agree on rows 0..position in every layer feed every layer the same input |
| TransformerModel.ForwardReadsOnlyPast | src/transformer.cc:26-35 | the logits, and rows 0..position of every cache left behind, depend only on rows 0..position of the caches |
| TransformerModel.LayerInputIgnoresCachesAtFirstPosition | src/transformer.cc:29-30 | at position 0 no layer's input depends on the caches |
| TransformerModel.FirstPositionIgnoresCaches | src/transformer.cc:26-35 | at position 0 the logits do not depend on what the caches held |
| TransformerModel.ForwardKeepsOtherRows | src/transformer.cc:29-30 | a call leaves every cache row other than position unchanged, in every layer |
| TransformerModel.ProgressStep | src/transformer.cc:30 | one turn of the loop turns layer i's input into layer i + 1's input and leaves layer i's caches as LayerStep says |
| TransformerModel.AdvancedStep | src/transformer.cc:29-30 | the loop state after i layers carries over to i + 1 layers when layer i runs on its current caches |
| TransformerModel.LaterKeptStep | src/transformer.cc:29-30 | layers after i are still untouched after layer i runs |
| TransformerModel.EarlierSteppedStep | src/transformer.cc:29-30 | layers up to i hold what their step leaves, once layer i has run |
| TransformerModel.BuiltForStep | src/transformer.cc:15-18 | appending the decoder built for the next layer, which shares no cache with the earlier ones, keeps decoder j built for layer j with no cache shared |
| TransformerModel.Transformer.constructor | src/transformer.cc:13-24 | decoder i is built for layer i, for every layer, and no two decoders share a cache |
| TransformerModel.Transformer.Keys | src/self_attention.h:17 | layer by layer, the contents of the key caches |
| TransformerModel.Transformer.Values | src/self_attention.h:18 | layer by layer, the contents of the value caches |
| TransformerModel.Transformer.OthersApart | src/transformer.h:11 | no other decoder shares a cache with decoder i |
| TransformerModel.Transformer.ForwardLayer | src/transformer.cc:30 | `decoders_[i].Forward`: aborts exactly when position >= kSequenceSize, with every cache unchanged; otherwise it returns layer i's decoder step, writes it into layer i's caches, and leaves every other layer's caches as they were |
| TransformerModel.Transformer.RunDecoders | src/transformer.cc:29-30 | the loop in increasing layer order, all at the same position: aborts exactly when position >= kSequenceSize, with every cache unchanged; otherwise it returns the output of the last layer and every layer's caches hold what its step leaves |
| TransformerModel.Transformer.Forward | src/transformer.cc:26-35 | aborts exactly when position >= kSequenceSize, with every cache's contents unchanged; otherwise the result is the logits of the final RMS-normalised embedding, and every layer's caches hold what its step at that position leaves |
| Sampling.Cutoff | src/inference.cc:16 | the cutoff (1 - p) / (N - 1) below which a probability is dropped |
| Sampling.Candidates | src/inference.cc:18-22 | the list the filter loop builds: (probabilities[i], i) for every i in increasing order whose probability reaches the cutoff |
| Sampling.CandidatesExact | src/inference.cc:18-22 | a pair is a candidate exactly when it is (probabilities[i], i) with probabilities[i] >= cutoff |
| Sampling.CandidatesIncreasing | src/inference.cc:19-22 | candidates appear in increasing index order, so each index at most once |
| Sampling.FilterCandidates | src/inference.cc:18-22 | the push_back loop builds exactly the candidate list |
| Sampling.Insert | src/inference.cc:23-25 | inserting into a non-increasing list keeps it non-increasing and adds exactly that candidate |
| Sampling.InsertBehind | src/inference.cc:23-25 | inserting behind a larger head keeps the order and the multiset |
| Sampling.SortDescending | src/inference.cc:23-25 | the sorted list is in non-increasing probability order and is a permutation of the candidates |
| Sampling.MassStep | src/inference.cc:32 | the running total through i is the mass before i plus probability i |
| Sampling.MassMonotone | src/inference.cc:29-37 | with nonnegative probabilities the running total never decreases |
| Sampling.NucleusFrom | src/inference.cc:31-36 | the loop from position i stops at a position within the list |
| Sampling.NucleusEnd | src/inference.cc:30-37 | the nucleus boundary is a position of the list |
| Sampling.NucleusFromIsFirst | src/inference.cc:31-36 | no position before the stop reaches p; the stop reaches p or is the last position |
| Sampling.NucleusIsShortest | src/inference.cc:29-37 | index is the first position whose running total reaches p, else the last position |
| Sampling.Nucleus | src/inference.cc:29-37 | the loop with its break returns that boundary and the running total through it |
| Sampling.PickFrom | src/inference.cc:48-52 | the walk from i stops between i and index |
| Sampling.Pick | src/inference.cc:48-53 | the walk stops at a position of the nucleus |
| Sampling.PickFromIsFirst | src/inference.cc:48-52 | the walk stops at the first position whose cdf exceeds r, or at index |
| Sampling.Draw | src/inference.cc:46-53 | the cdf loop with its early return and its fallback returns the token of the position Pick gives |
| Sampling.InverseCdf | src/inference.cc:46-53 | for 0 <= r < total, position i is drawn exactly when the mass before i is at most r and the mass through i exceeds r |
| Sampling.DrawnCandidateIsPositive | src/inference.cc:46-53 | a candidate of probability 0 is never drawn |
| Sampling.Drawn | src/inference.cc:46-53 | the draw falls inside the nucleus |
| Sampling.Chosen | src/inference.cc:51-53 | the drawn candidate is one of the sorted candidates |
| Sampling.TopP | src/inference.cc:11-54 | the token the sampler returns for a draw once candidates exist: the index of the candidate Chosen from the sorted candidate list |
| Sampling.SampleTopP | src/inference.cc:11-54 | aborts exactly when no probability reaches the cutoff (1 - p) / (N - 1); otherwise returns the token TopP defines |
| Sampling.DrawIsChosen | src/inference.cc:46-53 | the loops' result is the chosen candidate's token |
| Sampling.SampledTokenPassesCutoff | src/inference.cc:19-22 | the returned token is in [0, N) and its probability reaches the cutoff |
| Sampling.CandidatesPositive | src/inference.cc:16-20 | for p < 1 every candidate has positive probability |
| Sampling.CandidatesNonnegative | src/inference.cc:16-20 | for p <= 1 no candidate is negative |
| Sampling.NucleusCdf | src/inference.cc:46-53 | with a positive first probability and 0 <= random < 1, position i of the nucleus is drawn exactly when random * total falls in [mass before i, mass through i) |
| Sampling.NucleusMassPositive | src/inference.cc:29-37 | the nucleus total is positive |
| Sampling.DrawFollowsCdf | src/inference.cc:11-54 | for p < 1 and a draw in [0, 1), the sampler picks sorted candidate i exactly when random * total falls in i's cdf interval |
| Sampling.DistributionHasCandidates | src/inference.cc:16-26 | when the probabilities sum to 1 and p·N >= 1, some probability reaches the cutoff, so CHECK_GT passes |
| Sampling.EqualThirdsWithZeroPAbort | src/inference.cc:16-26 | three probabilities of 1/3 and p = 0 leave no candidate: the sampler aborts |
| Sampling.NucleusOfFourTokens | src/inference.cc:11-54 | for probabilities [0.7, 0.2, 0.05, 0.05] and p = 0.8, token 0 is returned when random < 7/9 and token 1 otherwise |
| Sampling.FourTokenCandidates | src/inference.cc:16-22 | the candidates of that example are (0.7, 0) and (0.2, 1) |
| Sampling.TwoCandidatesSorted | src/inference.cc:23-25 | those two are already in order |
| Sampling.TwoCandidatesNucleus | src/inference.cc:29-37 | their nucleus ends at position 1 with total 0.9 |
| Sampling.TwoCandidatesPick | src/inference.cc:46-53 | the cdf walk over them picks position 0 when random < 7/9 |

## Left out

- Floating point: the model computes over exact reals, so rounding, the order of float sums, overflow and NaN are not modelled.
- The kernels `sqrt`, `exp`, `pow`, `std::polar` and complex multiplication are parameters, constrained only by the facts in `Kernels.Valid` and `Kernels.MultipliesComplex`. No numerical accuracy is claimed.
- The 1e-5 RMS epsilon is represented by its exact rational value.
- ModelCommon.RMSNormalize: its contract states only the length; the value is its defining formula weights[i] * x[i] / rms, and invariance under scaling of x is not stated.
- ModelCommon.Softmax: its contract states only the length, with positivity and the sum of 1 in SoftmaxIsDistribution; that softmax keeps the position of the largest score is not stated.
- FeedForwardLayer.SwishShrinks: a negative v is shown to map into (v, 0), not into the (-1, 0) of the source's comment; that tighter bound needs facts about exp (such as exp(-v) > -v for v < 0) that `Kernels.Valid` does not state.
- `main` (src/inference.cc:58-121) is not part of this model: the tokenizer, console output, timing and the random engine are I/O. The uniform draw is a parameter of `Sampling.SampleTopP`.
- The generated weight tables and `model_config.h` are not part of this model. Weights are arbitrary sequences of the source's lengths; sizes are a `Config` whose `Valid` replaces the templates' `static_assert`s.
- C++ templates, `GetResultOfIndex` and const-correctness become runtime shapes and preconditions. An ill-typed instantiation becomes a requires clause, not an abort.
- Uninitialised memory: `TensorF` is not zero-initialised. The model leaves the caches' initial contents unspecified; the lemmas show that rows beyond `position` are never read.
- The constructors require `layer < kLayersSize`. The views' bounds checks are modelled (`AttentionViews`, `FfnViewsOf`, `NormView` return `Abort` otherwise), but the constructors themselves are only called with valid layers, as `MakeDecoders` does.
- Sampling.SortDescending: `std::sort`, which is unstable and in place, is modelled as a pure insertion sort; only the order and the permutation are stated, not the placement of equal probabilities.
- TransformerModel.LayerOutput: the fallback branch, taken when its inputs are out of shape, is never taken by any call of the model; it only makes the fold total.
- The transformer's specification functions (`LayerInput`, `LayerStep`, `Logits`) are ghost, because the fold over layers uses a function-valued step.
- TransformerModel.Transformer.Forward: the abort case states that every cache's contents are unchanged, not that the arrays were left untouched.
- Aliasing between views of the same buffer beyond what the source does is not modelled: each method receives the arrays it changes and reads everything else as values.

## Findings

| source | as written | input that shows it | evidently intended | confidence | as-written member | corrected member |
|---|---|---|---|---|---|---|
| src/self_attention.h:12-13 | `wk_` and `wv_` are declared `[kEmbeddingSize, kKVHeadsSize * kHeadDimension]`; MatrixProductTo needs M == the length of x (kEmbeddingSize) and N == the length of a cache row (kKVHeadsSize * kHeadDimension), which that shape meets only when kKVHeadsSize == kHeadsSize | kEmbeddingSize = 4, kHeadsSize = 2, kKVHeadsSize = 1 (a grouped-query configuration the static_asserts allow) | shape `[kKVHeadsSize * kHeadDimension, kEmbeddingSize]`, one row per element of a cache row | not executed | Attention.DeclaredKeyShapeNeedsAllHeads | Attention.KeyShapeCompatible |
