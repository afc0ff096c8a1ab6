/** One self-attention layer with its key/value cache (src/self_attention.cc, src/self_attention.h).
    Each `Forward` projects x to queries, keys and values, stores the keys and values of
    `position` as row `position` of the caches, rotates queries and the new keys (RoPE), and for
    every query head mixes the cached values of positions 0..position by the softmax of the
    scaled query-key scores; the mixed heads are projected by the output matrix. */
module Attention {
  import opened Tensors
  import opened ModelCommon
  import opened Rope

  // ----- shapes of the projection weights -----

  /** The shape test of MatrixProductTo's template (src/tensor.h:229-236): a [N, M] matrix can be
      multiplied with a length-`right` vector into a length-`out` tensor exactly when
      M == right and N == out. */
  predicate ProductCompatible(left: seq<nat>, right: nat, out: nat)
  {
    |left| == 2 && left[1] == right && left[0] == out
  }

  /** The shape wk_ and wv_ are declared with (src/self_attention.h:12-13):
      [kEmbeddingSize, kKVHeadsSize * kHeadDimension]. */
  function DeclaredKeyShape(cfg: Config): seq<nat>
    requires cfg.Valid()
  {
    [cfg.embedding, cfg.KVDimension()]
  }

  /** The shape the key and value projections need: one row of kEmbeddingSize weights per
      element of a cache row, [kKVHeadsSize * kHeadDimension, kEmbeddingSize]. */
  function KeyShape(cfg: Config): (r: Shape)
    requires cfg.Valid()
    ensures |r| == 2 && r[0] == cfg.KVDimension() && r[1] == cfg.embedding
  {
    [cfg.KVDimension(), cfg.embedding]
  }

  /** As declared, wk_ * x into a cache row (src/self_attention.cc:75-80) has the shapes the
      template needs only when there are as many key/value heads as query heads: grouped
      attention does not fit the declared shape. */
  lemma DeclaredKeyShapeNeedsAllHeads(cfg: Config)
    requires cfg.Valid()
    ensures ProductCompatible(DeclaredKeyShape(cfg), cfg.embedding, cfg.KVDimension())
            <==> cfg.kvHeads == cfg.heads
  {
    var d := cfg.HeadDimension();
    if cfg.kvHeads != cfg.heads {
      MulStep(cfg.kvHeads, cfg.Group());
      assert cfg.heads * d - cfg.KVDimension() == (cfg.heads - cfg.kvHeads) * d;
      MulStep(d, cfg.heads - cfg.kvHeads);
    }
  }

  /** The two-layer model with two query heads sharing one key/value head (embedding 4,
      hidden 8, 16 tokens, 8 positions) is a valid configuration that the declared shape
      cannot serve. */
  lemma DeclaredKeyShapeRejectsGroupedModel()
    ensures Config(4, 8, 2, 2, 1, 16, 8).Valid()
    ensures !ProductCompatible(DeclaredKeyShape(Config(4, 8, 2, 2, 1, 16, 8)), 4, 2)
  {
    var cfg := Config(4, 8, 2, 2, 1, 16, 8);
    assert cfg.HeadDimension() == 2;
    assert cfg.KVDimension() == 2;
  }

  /** The corrected shape serves every valid configuration. */
  lemma KeyShapeCompatible(cfg: Config)
    requires cfg.Valid()
    ensures ProductCompatible(KeyShape(cfg), cfg.embedding, cfg.KVDimension())
  {
  }

  // ----- the per-layer weight views -----

  /** wq_, wk_, wv_ and wo_ of one layer. */
  datatype LayerViews = LayerViews(query: View, key: View, value: View, output: View)

  /** The views fit their tables and have the shapes the products need. */
  ghost predicate ViewsFit(m: Model, v: LayerViews)
    requires m.Valid()
  {
    var (cfg, w) := (m.cfg, m.weights);
    && v.query.dims == [cfg.embedding, cfg.heads * cfg.HeadDimension()] && v.query.End() <= |w.query|
    && v.key.dims == KeyShape(cfg) && v.key.End() <= |w.key|
    && v.value.dims == KeyShape(cfg) && v.value.End() <= |w.value|
    && v.output.dims == [cfg.embedding, cfg.embedding] && v.output.End() <= |w.output|
  }

  /** The `SelfAttention` constructor (src/self_attention.cc:53-61): layer L's views start L
      per-layer element counts into each table; the bounds check aborts unless L < kLayersSize. */
  function AttentionViews(m: Model, layer: nat): (r: Checked<LayerViews>)
    requires m.Valid()
    ensures r.Ok? <==> layer < m.cfg.layers
    ensures r.Ok? ==> ViewsFit(m, r.value)
    ensures r.Ok? ==> var (e, h, kv, d) := (m.cfg.embedding, m.cfg.heads, m.cfg.kvHeads, m.cfg.HeadDimension());
      && r.value.query.offset == layer * e * h * d && r.value.key.offset == layer * e * kv * d
      && r.value.value.offset == layer * e * kv * d && r.value.output.offset == layer * e * e
  {
    var (cfg, w) := (m.cfg, m.weights);
    var (e, l, h, kv, d) := (cfg.embedding, cfg.layers, cfg.heads, cfg.kvHeads, cfg.HeadDimension());
    PerLayerRows(l, layer, e, h, d);
    PerLayerColumns(l, layer, e, kv, d);
    PerLayerSquare(l, layer, e);
    var q := LayerView(|w.query|, l, layer, [e, h * d]);
    var k := LayerView(|w.key|, l, layer, KeyShape(cfg));
    var v := LayerView(|w.value|, l, layer, KeyShape(cfg));
    var o := LayerView(|w.output|, l, layer, [e, e]);
    // The four views share one bounds condition: the first abort is wq_'s.
    if q.Abort? then Abort(q.failed)
    else Ok(LayerViews(q.value, k.value, v.value, o.value))
  }

  /** A table of l layers of [a, b * c] elements holds l * a * b * c of them, and layer L's
      starts L * a * b * c elements in. */
  lemma PerLayerRows(l: nat, layer: nat, a: nat, b: nat, c: nat)
    ensures l * a * b * c == l * StorageSize([a, b * c])
    ensures layer * a * b * c == layer * StorageSize([a, b * c])
  {
    StorageSizeTwo(a, b * c);
    Regroup4(l, a, b, c);
    Regroup4(layer, a, b, c);
  }

  /** The same for layers of [b * c, a] elements. */
  lemma PerLayerColumns(l: nat, layer: nat, a: nat, b: nat, c: nat)
    ensures l * a * b * c == l * StorageSize([b * c, a])
    ensures layer * a * b * c == layer * StorageSize([b * c, a])
  {
    StorageSizeTwo(b * c, a);
    Regroup4(l, a, b, c);
    Regroup4(layer, a, b, c);
    assert a * (b * c) == b * c * a;
  }

  /** The same for layers of [a, a] elements. */
  lemma PerLayerSquare(l: nat, layer: nat, a: nat)
    ensures l * a * a == l * StorageSize([a, a]) && layer * a * a == layer * StorageSize([a, a])
  {
    StorageSizeTwo(a, a);
  }

  // ----- the key/value caches -----

  /** Elements in one cache: kSequenceSize rows of kKVHeadsSize * kHeadDimension. */
  function CacheSize(cfg: Config): nat
    requires cfg.Valid()
  {
    cfg.sequence * cfg.KVDimension()
  }

  /** keys_cache_ and values_cache_ as tensors: [kSequenceSize, kKVHeadsSize * kHeadDimension]
      over their own storage (src/self_attention.h:17-18). */
  function CacheView(cfg: Config): (r: View)
    requires cfg.Valid()
    ensures r.offset == 0 && r.dims == [cfg.sequence, cfg.KVDimension()] && r.Size() == CacheSize(cfg)
  {
    StorageSizeTwo(cfg.sequence, cfg.KVDimension());
    View(0, [cfg.sequence, cfg.KVDimension()])
  }

  /** `keys_cache_[position]`: the bounds-checked row view, which aborts unless
      position < kSequenceSize (src/self_attention.cc:76, 79). */
  function CacheRow(cfg: Config, position: nat): (r: Checked<View>)
    requires cfg.Valid()
    ensures r.Ok? <==> position < cfg.sequence
    ensures r.Ok? ==> r.value == View(position * cfg.KVDimension(), [cfg.KVDimension()])
  {
    if position < cfg.sequence then MatrixRowView(CacheView(cfg), position); Row(CacheView(cfg), position)
    else Row(CacheView(cfg), position)
  }

  /** `xk[position]` with xk = keys_cache_.ViewAs<kSequenceSize, kKVHeadsSize, kHeadDimension>():
      the heads of cache row `position` as a [kKVHeadsSize, kHeadDimension] view. */
  function CacheRowHeads(cfg: Config, position: nat): (r: View)
    requires cfg.Valid() && position < cfg.sequence
    ensures r == View(position * cfg.KVDimension(), [cfg.kvHeads, cfg.HeadDimension()])
  {
    StorageSizeThree(cfg.sequence, cfg.kvHeads, cfg.HeadDimension());
    var heads := ViewAs(CacheView(cfg), [cfg.sequence, cfg.kvHeads, cfg.HeadDimension()]);
    RowOfRow(heads, position, 0);
    Row(heads, position).value
  }

  /** Head kv of cache row `past`: the D elements that start kv heads into the row. */
  function CacheHeadView(cfg: Config, past: nat, kv: nat): (r: View)
    requires cfg.Valid() && past < cfg.sequence && kv < cfg.kvHeads
    ensures r.offset == past * cfg.KVDimension() + kv * cfg.HeadDimension() && r.dims == [cfg.HeadDimension()]
    ensures r.End() <= past * cfg.KVDimension() + cfg.KVDimension() <= CacheSize(cfg)
  {
    var (kvd, d) := (cfg.KVDimension(), cfg.HeadDimension());
    RowInBounds(kv, cfg.kvHeads, d);
    RowInBounds(past, cfg.sequence, kvd);
    View(past * kvd + kv * d, [d])
  }

  /** It is the source's `xk[past][kv]` (and `xv[past][kv]`): row kv of row `past` of the cache
      viewed as [kSequenceSize, kKVHeadsSize, kHeadDimension]. */
  lemma CacheHeadViewIsIndexed(cfg: Config, past: nat, kv: nat)
    requires cfg.Valid() && past < cfg.sequence && kv < cfg.kvHeads
    ensures Row(CacheRowHeads(cfg, past), kv).Ok?
    ensures Row(CacheRowHeads(cfg, past), kv).value == CacheHeadView(cfg, past, kv)
  {
    MatrixRowView(CacheRowHeads(cfg, past), kv);
  }

  /** The key (or value) of head kv that position `past` left in a cache. */
  function CachedHead(cfg: Config, cache: seq<real>, past: nat, kv: nat): (r: seq<real>)
    requires cfg.Valid() && |cache| == CacheSize(cfg) && past < cfg.sequence && kv < cfg.kvHeads
    ensures |r| == cfg.HeadDimension()
  {
    Elements(cache, CacheHeadView(cfg, past, kv))
  }

  /** A cache with row `position` replaced by `row`: what the two MatrixProductTo calls into
      `keys_cache_[position]` and `values_cache_[position]` leave behind. */
  function StoreRow(cfg: Config, cache: seq<real>, position: nat, row: seq<real>): (r: seq<real>)
    requires cfg.Valid() && |cache| == CacheSize(cfg) && position < cfg.sequence && |row| == cfg.KVDimension()
    ensures |r| == |cache|
  {
    RowInBounds(position, cfg.sequence, cfg.KVDimension());
    Overwrite(cache, position * cfg.KVDimension(), row)
  }

  /** Storing row `position` sets that row and leaves every other row as it was. */
  lemma StoreRowSetsOneRow(cfg: Config, cache: seq<real>, position: nat, row: seq<real>, t: nat)
    requires cfg.Valid() && |cache| == CacheSize(cfg) && position < cfg.sequence && |row| == cfg.KVDimension()
    requires t < cfg.sequence
    ensures CacheRow(cfg, t).value.End() <= |cache|
    ensures Elements(StoreRow(cfg, cache, position, row), CacheRow(cfg, t).value)
         == if t == position then row else Elements(cache, CacheRow(cfg, t).value)
  {
    var kvd := cfg.KVDimension();
    StorageSizeTwo(cfg.sequence, kvd);
    RowInBounds(t, cfg.sequence, kvd);
    RowInBounds(position, cfg.sequence, kvd);
    if t == position {
      OverwriteRead(cache, position * kvd, row, 0, kvd);
      assert row[0..kvd] == row;
    } else if t < position {
      RowInBounds(t, position, kvd);
      OverwriteOutside(cache, position * kvd, row, t * kvd, t * kvd + kvd);
    } else {
      MulMonotone(position + 1, t, kvd);
      MulPred(position + 1, kvd);
      OverwriteOutside(cache, position * kvd, row, t * kvd, t * kvd + kvd);
    }
  }

  /** Head kv of a stored row: the new row's own head at `position`, the old cache's elsewhere. */
  lemma CachedHeadOfStoredRow(cfg: Config, cache: seq<real>, position: nat, row: seq<real>, t: nat, kv: nat)
    requires cfg.Valid() && |cache| == CacheSize(cfg) && position < cfg.sequence && |row| == cfg.KVDimension()
    requires t < cfg.sequence && kv < cfg.kvHeads
    ensures kv * cfg.HeadDimension() + cfg.HeadDimension() <= |row|
    ensures CachedHead(cfg, StoreRow(cfg, cache, position, row), t, kv)
         == if t == position then row[kv * cfg.HeadDimension() .. kv * cfg.HeadDimension() + cfg.HeadDimension()]
            else CachedHead(cfg, cache, t, kv)
  {
    StoreRowSetsOneRow(cfg, cache, position, row, t);
    CachedHeadIsRowSlice(cfg, StoreRow(cfg, cache, position, row), t, kv);
    CachedHeadIsRowSlice(cfg, cache, t, kv);
  }

  /** Head kv of cache row t is the slice kv * D .. kv * D + D of that row. */
  lemma CachedHeadIsRowSlice(cfg: Config, cache: seq<real>, t: nat, kv: nat)
    requires cfg.Valid() && |cache| == CacheSize(cfg) && t < cfg.sequence && kv < cfg.kvHeads
    ensures CacheRow(cfg, t).value.End() <= |cache|
    ensures kv * cfg.HeadDimension() + cfg.HeadDimension() <= cfg.KVDimension()
    ensures CachedHead(cfg, cache, t, kv)
         == Elements(cache, CacheRow(cfg, t).value)[kv * cfg.HeadDimension() .. kv * cfg.HeadDimension() + cfg.HeadDimension()]
  {
    var (kvd, d) := (cfg.KVDimension(), cfg.HeadDimension());
    RowInBounds(kv, cfg.kvHeads, d);
    RowInBounds(t, cfg.sequence, kvd);
    var (start, off) := (t * kvd, kv * d);
    assert CacheHeadView(cfg, t, kv) == View(start + off, [d]);
    assert CacheRow(cfg, t).value == View(start, [kvd]);
    HeadOfRow(cache, start, kvd, off, d);
  }

  /** The D elements `off` into a row are the slice `off` into that row's elements. */
  lemma HeadOfRow(s: seq<real>, start: nat, kvd: nat, off: nat, d: nat)
    requires off + d <= kvd && start + kvd <= |s|
    ensures s[start + off .. start + off + d] == s[start .. start + kvd][off .. off + d]
  {
    var (a, b) := (s[start + off .. start + off + d], s[start .. start + kvd][off .. off + d]);
    assert forall i :: 0 <= i < d ==> a[i] == s[start + off + i] == b[i];
  }

  // ----- what Forward computes -----

  /** wq_ · x with every head rotated for `position`: the queries the scores use. */
  function Queries(m: Model, v: LayerViews, position: nat, x: seq<real>): (r: seq<real>)
    requires m.Valid() && ViewsFit(m, v) && |x| == m.cfg.embedding
    ensures |r| == m.cfg.heads * m.cfg.HeadDimension()
  {
    RotateHeads(m.kernels, m.cfg.HeadDimension(), position, MatVec(m.weights.query, v.query, x), m.cfg.heads)
  }

  /** wk_ · x with every key/value head rotated for `position`: the keys `Forward` stores in
      row `position` of keys_cache_. */
  function NewKeys(m: Model, v: LayerViews, position: nat, x: seq<real>): (r: seq<real>)
    requires m.Valid() && ViewsFit(m, v) && |x| == m.cfg.embedding
    ensures |r| == m.cfg.KVDimension()
  {
    RotateHeads(m.kernels, m.cfg.HeadDimension(), position, MatVec(m.weights.key, v.key, x), m.cfg.kvHeads)
  }

  /** wv_ · x: the values `Forward` stores in row `position` of values_cache_. */
  function NewValues(m: Model, v: LayerViews, x: seq<real>): (r: seq<real>)
    requires m.Valid() && ViewsFit(m, v) && |x| == m.cfg.embedding
    ensures |r| == m.cfg.KVDimension()
  {
    MatVec(m.weights.value, v.value, x)
  }

  /** head / (kHeadsSize / kKVHeadsSize): the key/value head that query head `head` shares with
      the other heads of its group.  It is a valid key/value head, and its group of
      kHeadsSize / kKVHeadsSize consecutive query heads contains `head`. */
  function KvHead(cfg: Config, head: nat): (r: nat)
    requires cfg.Valid() && head < cfg.heads
    ensures r < cfg.kvHeads && r * cfg.Group() <= head < r * cfg.Group() + cfg.Group()
  {
    var g := cfg.Group();
    var r: nat := head / g;
    assert head == r * g + head % g;
    if r >= cfg.kvHeads then MulMonotone(cfg.kvHeads, r, g); r else r
  }

  /** Query head `head` of the queries: elements [head * D, head * D + D). */
  function QueryHead(cfg: Config, queries: seq<real>, head: nat): (r: seq<real>)
    requires cfg.Valid() && |queries| == cfg.heads * cfg.HeadDimension() && head < cfg.heads
    ensures |r| == cfg.HeadDimension()
  {
    RowInBounds(head, cfg.heads, cfg.HeadDimension());
    queries[head * cfg.HeadDimension() .. head * cfg.HeadDimension() + cfg.HeadDimension()]
  }

  /** Every vector of `vs` has length d. */
  predicate AllOfLength(vs: seq<seq<real>>, d: nat)
  {
    forall t :: 0 <= t < |vs| ==> |vs[t]| == d
  }

  /** xk[0][kv], ..., xk[n-1][kv] (or the same of xv): head kv of the first n cache rows. */
  function CachedHeads(cfg: Config, cache: seq<real>, kv: nat, n: nat): (r: seq<seq<real>>)
    requires cfg.Valid() && |cache| == CacheSize(cfg) && kv < cfg.kvHeads && n <= cfg.sequence
    ensures |r| == n && AllOfLength(r, cfg.HeadDimension())
  {
    seq(n, t requires 0 <= t < n => CachedHead(cfg, cache, t, kv))
  }

  /** The scores of one query head against the keys of past positions 0..|keys|-1: the dot
      product of the query with each key, divided by sqrt(kHeadDimension). */
  function Scores(k: Kernels, headDimension: nat, query: seq<real>, keys: seq<seq<real>>): (r: seq<real>)
    requires k.Valid() && headDimension > 0 && AllOfLength(keys, |query|)
    ensures |r| == |keys|
  {
    assert k.sqrt(headDimension as real) > 0.0;
    seq(|keys|, t requires 0 <= t < |keys| => Dot(query, keys[t]) / k.sqrt(headDimension as real))
  }

  /** acc[i] + v[i] * w for every i: one pass of the `output[i] += value[i] * score` loop. */
  function Accumulate(acc: seq<real>, v: seq<real>, w: real): (r: seq<real>)
    requires |acc| == |v|
    ensures |r| == |acc|
  {
    seq(|acc|, i requires 0 <= i < |acc| => acc[i] + v[i] * w)
  }

  /** n zeros. */
  function Zeros(n: nat): (r: seq<real>)
    ensures |r| == n && forall i :: 0 <= i < n ==> r[i] == 0.0
  {
    if n == 0 then [] else Zeros(n - 1) + [0.0]
  }

  /** A head slice after the zero fill and one pass of the loop over past positions per value:
      the values weighted and added in order, starting from zero. */
  function WeightedSum(values: seq<seq<real>>, weights: seq<real>, d: nat): (r: seq<real>)
    requires |values| == |weights| && AllOfLength(values, d)
    ensures |r| == d
    decreases |values|
  {
    if |values| == 0 then Zeros(d)
    else
      var n := |values| - 1;
      Accumulate(WeightedSum(values[..n], weights[..n], d), values[n], weights[n])
  }

  /** What query head `head` writes into its slice of x: the values of positions 0..position
      of its key/value head, weighted by the softmax of its scores against their keys. */
  function HeadOutput(cfg: Config, k: Kernels, queries: seq<real>, keys: seq<real>, values: seq<real>,
                      position: nat, head: nat): (r: seq<real>)
    requires cfg.Valid() && k.Valid() && |queries| == cfg.heads * cfg.HeadDimension()
    requires |keys| == CacheSize(cfg) && |values| == CacheSize(cfg)
    requires position < cfg.sequence && head < cfg.heads
    ensures |r| == cfg.HeadDimension()
  {
    var (d, kv) := (cfg.HeadDimension(), KvHead(cfg, head));
    var scores := Scores(k, d, QueryHead(cfg, queries, head), CachedHeads(cfg, keys, kv, position + 1));
    WeightedSum(CachedHeads(cfg, values, kv, position + 1), Softmax(k, scores), d)
  }

  /** The outputs of query heads 0..n-1. */
  function HeadOutputs(cfg: Config, k: Kernels, queries: seq<real>, keys: seq<real>, values: seq<real>,
                       position: nat, n: nat): (r: seq<seq<real>>)
    requires cfg.Valid() && k.Valid() && |queries| == cfg.heads * cfg.HeadDimension()
    requires |keys| == CacheSize(cfg) && |values| == CacheSize(cfg)
    requires position < cfg.sequence && n <= cfg.heads
    ensures |r| == n && AllOfLength(r, cfg.HeadDimension())
  {
    seq(n, h requires 0 <= h < n => HeadOutput(cfg, k, queries, keys, values, position, h))
  }

  /** The vectors of `parts` side by side. */
  function Concat(parts: seq<seq<real>>): seq<real>
    decreases |parts|
  {
    if |parts| == 0 then [] else Concat(parts[..|parts| - 1]) + parts[|parts| - 1]
  }

  /** n parts of length d make n * d elements. */
  lemma {:induction false} ConcatLength(parts: seq<seq<real>>, d: nat)
    requires AllOfLength(parts, d)
    ensures |Concat(parts)| == |parts| * d
    decreases |parts|
  {
    if |parts| > 0 {
      var n := |parts| - 1;
      assert AllOfLength(parts[..n], d) by {
        forall t | 0 <= t < n ensures |parts[..n][t]| == d {
          assert parts[..n][t] == parts[t];
        }
      }
      ConcatLength(parts[..n], d);
      MulPred(|parts|, d);
    }
  }

  /** The result of `Forward` once the caches hold `keys` and `values`: wo_ times x, whose head
      slices now hold the outputs of the query heads, side by side. */
  function AttentionOutput(m: Model, v: LayerViews, position: nat, x: seq<real>,
                           keys: seq<real>, values: seq<real>): (r: seq<real>)
    requires m.Valid() && ViewsFit(m, v) && |x| == m.cfg.embedding
    requires |keys| == CacheSize(m.cfg) && |values| == CacheSize(m.cfg) && position < m.cfg.sequence
    ensures |r| == m.cfg.embedding
  {
    var outputs := HeadOutputs(m.cfg, m.kernels, Queries(m, v, position, x), keys, values, position, m.cfg.heads);
    ConcatLength(outputs, m.cfg.HeadDimension());
    MatVec(m.weights.output, v.output, Concat(outputs))
  }

  // ----- properties of the attention output -----

  /** Rows 0..position of a cache: everything `Forward` at `position` may read. */
  function PastRows(cfg: Config, cache: seq<real>, position: nat): (r: seq<real>)
    requires cfg.Valid() && |cache| == CacheSize(cfg) && position < cfg.sequence
    ensures |r| == position * cfg.KVDimension() + cfg.KVDimension()
  {
    RowInBounds(position, cfg.sequence, cfg.KVDimension());
    cache[..position * cfg.KVDimension() + cfg.KVDimension()]
  }

  lemma CachedHeadInPast(cfg: Config, a: seq<real>, b: seq<real>, position: nat, t: nat, kv: nat)
    requires cfg.Valid() && |a| == CacheSize(cfg) && |b| == CacheSize(cfg) && position < cfg.sequence
    requires PastRows(cfg, a, position) == PastRows(cfg, b, position)
    requires t <= position && kv < cfg.kvHeads
    ensures CachedHead(cfg, a, t, kv) == CachedHead(cfg, b, t, kv)
  {
    var kvd := cfg.KVDimension();
    var view := CacheHeadView(cfg, t, kv);
    RowInBounds(t, position + 1, kvd);
    MulPred(position + 1, kvd);
    var past := position * kvd + kvd;
    SliceOfPrefix(a, past, view.offset, view.End());
    SliceOfPrefix(b, past, view.offset, view.End());
  }

  lemma SliceOfPrefix(s: seq<real>, p: nat, lo: nat, hi: nat)
    requires lo <= hi <= p <= |s|
    ensures s[lo..hi] == s[..p][lo..hi]
  {
  }

  lemma CachedHeadsInPast(cfg: Config, a: seq<real>, b: seq<real>, position: nat, kv: nat)
    requires cfg.Valid() && |a| == CacheSize(cfg) && |b| == CacheSize(cfg) && position < cfg.sequence
    requires PastRows(cfg, a, position) == PastRows(cfg, b, position) && kv < cfg.kvHeads
    ensures CachedHeads(cfg, a, kv, position + 1) == CachedHeads(cfg, b, kv, position + 1)
  {
    var (pastA, pastB) := (CachedHeads(cfg, a, kv, position + 1), CachedHeads(cfg, b, kv, position + 1));
    forall t | 0 <= t < |pastA| ensures pastA[t] == pastB[t] {
      CachedHeadInPast(cfg, a, b, position, t, kv);
    }
  }

  /** Cache rows after `position` are never read: two pairs of caches that agree on rows
      0..position give the same attention output. */
  lemma AttentionReadsOnlyPast(m: Model, v: LayerViews, position: nat, x: seq<real>,
                               keys1: seq<real>, values1: seq<real>, keys2: seq<real>, values2: seq<real>)
    requires m.Valid() && ViewsFit(m, v) && |x| == m.cfg.embedding && position < m.cfg.sequence
    requires |keys1| == CacheSize(m.cfg) && |values1| == CacheSize(m.cfg)
    requires |keys2| == CacheSize(m.cfg) && |values2| == CacheSize(m.cfg)
    requires PastRows(m.cfg, keys1, position) == PastRows(m.cfg, keys2, position)
    requires PastRows(m.cfg, values1, position) == PastRows(m.cfg, values2, position)
    ensures AttentionOutput(m, v, position, x, keys1, values1) == AttentionOutput(m, v, position, x, keys2, values2)
  {
    var (cfg, k, queries) := (m.cfg, m.kernels, Queries(m, v, position, x));
    forall h | 0 <= h < cfg.heads
      ensures HeadOutput(cfg, k, queries, keys1, values1, position, h)
           == HeadOutput(cfg, k, queries, keys2, values2, position, h)
    {
      CachedHeadsInPast(cfg, keys1, keys2, position, KvHead(cfg, h));
      CachedHeadsInPast(cfg, values1, values2, position, KvHead(cfg, h));
    }
    assert HeadOutputs(cfg, k, queries, keys1, values1, position, cfg.heads)
        == HeadOutputs(cfg, k, queries, keys2, values2, position, cfg.heads);
  }

  /** A single value with weight 1 is passed through unchanged. */
  lemma WeightedSumOfOne(v: seq<real>)
    ensures WeightedSum([v], [1.0], |v|) == v
  {
    var zero := WeightedSum([], [], |v|);
    assert [v][..0] == [] && [1.0][..0] == [];
    assert WeightedSum([v], [1.0], |v|) == Accumulate(zero, v, 1.0);
    forall i | 0 <= i < |v| ensures Accumulate(zero, v, 1.0)[i] == v[i] {
      assert zero[i] == 0.0;
    }
  }

  /** At position 0 there is one score, its softmax weight is 1, and every query head outputs
      the value its key/value head stored at position 0. */
  lemma FirstPositionAttendsToItself(cfg: Config, k: Kernels, queries: seq<real>, keys: seq<real>,
                                     values: seq<real>, head: nat)
    requires cfg.Valid() && k.Valid() && |queries| == cfg.heads * cfg.HeadDimension()
    requires |keys| == CacheSize(cfg) && |values| == CacheSize(cfg) && head < cfg.heads
    ensures HeadOutput(cfg, k, queries, keys, values, 0, head) == CachedHead(cfg, values, 0, KvHead(cfg, head))
  {
    var (d, kv) := (cfg.HeadDimension(), KvHead(cfg, head));
    var scores := Scores(k, d, QueryHead(cfg, queries, head), CachedHeads(cfg, keys, kv, 1));
    assert scores == [scores[0]];
    SoftmaxSingleton(k, scores[0]);
    var u := CachedHead(cfg, values, 0, kv);
    assert CachedHeads(cfg, values, kv, 1) == [u];
    WeightedSumOfOne(u);
  }

  /** When every value equals u, the weighted sum is u scaled by the sum of the weights. */
  lemma {:induction false} WeightedSumOfEqualValues(values: seq<seq<real>>, weights: seq<real>, u: seq<real>)
    requires |values| == |weights| && AllOfLength(values, |u|)
    requires forall t :: 0 <= t < |values| ==> values[t] == u
    ensures forall i :: 0 <= i < |u| ==> WeightedSum(values, weights, |u|)[i] == u[i] * Sum(weights)
    decreases |values|
  {
    if |values| > 0 {
      var n := |values| - 1;
      var (vs, ws) := (values[..n], weights[..n]);
      assert AllOfLength(vs, |u|) && forall t :: 0 <= t < n ==> vs[t] == u by {
        forall t | 0 <= t < n ensures vs[t] == u {
          assert vs[t] == values[t];
        }
      }
      WeightedSumOfEqualValues(vs, ws, u);
      var front := WeightedSum(vs, ws, |u|);
      assert WeightedSum(values, weights, |u|) == Accumulate(front, u, weights[n]);
      forall i | 0 <= i < |u|
        ensures WeightedSum(values, weights, |u|)[i] == u[i] * Sum(weights)
      {
        Distribute(u[i], Sum(ws), weights[n]);
      }
    }
  }

  lemma Distribute(a: real, b: real, c: real)
    ensures a * b + a * c == a * (b + c)
  {
  }

  /** The weights are a probability distribution, so a head whose past values all equal u
      outputs u. */
  lemma EqualValuesPassThrough(cfg: Config, k: Kernels, queries: seq<real>, keys: seq<real>, values: seq<real>,
                               position: nat, head: nat, u: seq<real>)
    requires cfg.Valid() && k.Valid() && |queries| == cfg.heads * cfg.HeadDimension()
    requires |keys| == CacheSize(cfg) && |values| == CacheSize(cfg)
    requires position < cfg.sequence && head < cfg.heads && |u| == cfg.HeadDimension()
    requires forall t :: 0 <= t <= position ==> CachedHead(cfg, values, t, KvHead(cfg, head)) == u
    ensures HeadOutput(cfg, k, queries, keys, values, position, head) == u
  {
    var (d, kv) := (cfg.HeadDimension(), KvHead(cfg, head));
    var scores := Scores(k, d, QueryHead(cfg, queries, head), CachedHeads(cfg, keys, kv, position + 1));
    var vs := CachedHeads(cfg, values, kv, position + 1);
    assert forall t :: 0 <= t < |vs| ==> vs[t] == u;
    SoftmaxIsDistribution(k, scores);
    WeightedSumOfEqualValuesIsValue(vs, Softmax(k, scores), u);
  }

  /** Weights that sum to 1 over values that all equal u give u. */
  lemma WeightedSumOfEqualValuesIsValue(values: seq<seq<real>>, weights: seq<real>, u: seq<real>)
    requires |values| == |weights| && AllOfLength(values, |u|) && Sum(weights) == 1.0
    requires forall t :: 0 <= t < |values| ==> values[t] == u
    ensures WeightedSum(values, weights, |u|) == u
  {
    WeightedSumOfEqualValues(values, weights, u);
    var r := WeightedSum(values, weights, |u|);
    forall i | 0 <= i < |u| ensures r[i] == u[i] {
      ScaleByOne(u[i], Sum(weights));
    }
  }

  // ----- the loops of Forward -----

  /** The score loop of one head (src/self_attention.cc:102-108): for past = 0..position,
      the dot product of the query with xk[past][kv], divided by sqrt(kHeadDimension). */
  method HeadScores(cfg: Config, k: Kernels, query: seq<real>, keys: seq<real>, kv: nat, position: nat)
      returns (scores: seq<real>)
    requires cfg.Valid() && k.Valid() && |query| == cfg.HeadDimension() && |keys| == CacheSize(cfg)
    requires kv < cfg.kvHeads && position < cfg.sequence
    ensures scores == Scores(k, cfg.HeadDimension(), query, CachedHeads(cfg, keys, kv, position + 1))
  {
    var d := cfg.HeadDimension();
    ghost var expected := Scores(k, d, query, CachedHeads(cfg, keys, kv, position + 1));
    assert k.sqrt(d as real) > 0.0;
    var result := new real[position + 1];
    for past := 0 to position + 1
      invariant forall t :: 0 <= t < past ==> result[t] == expected[t]
    {
      var key := CachedHead(cfg, keys, past, kv);
      var dot := DotProduct(query, key);
      ScoreOfPast(cfg, k, query, keys, kv, position, past);
      result[past] := dot / k.sqrt(d as real);
    }
    scores := result[..];
  }

  /** Score `past` is the query's dot product with the key cached at `past`, scaled. */
  lemma ScoreOfPast(cfg: Config, k: Kernels, query: seq<real>, keys: seq<real>, kv: nat, position: nat, past: nat)
    requires cfg.Valid() && k.Valid() && |query| == cfg.HeadDimension() && |keys| == CacheSize(cfg)
    requires kv < cfg.kvHeads && position < cfg.sequence && past <= position
    ensures Scores(k, cfg.HeadDimension(), query, CachedHeads(cfg, keys, kv, position + 1))[past]
         == Dot(query, CachedHead(cfg, keys, past, kv)) / k.sqrt(cfg.HeadDimension() as real)
  {
  }

  /** `std::fill` of out[start .. start + d] with 0. */
  method FillZero(out: array<real>, start: nat, d: nat)
    requires start + d <= out.Length
    modifies out
    ensures out[..] == Overwrite(old(out[..]), start, Zeros(d))
  {
    ghost var (front, rest) := (out[..start], out[start..]);
    assert rest == rest[..d] + rest[d..];
    for i := 0 to d
      invariant out[..] == front + Zeros(i) + rest[i..]
    {
      ZeroOne(out, start, i, front, rest);
    }
  }

  /** One pass of the fill: element start + i becomes 0. */
  method ZeroOne(out: array<real>, start: nat, i: nat, ghost front: seq<real>, ghost rest: seq<real>)
    requires |front| == start && i < |rest| && out[..] == front + Zeros(i) + rest[i..]
    modifies out
    ensures out[..] == front + Zeros(i + 1) + rest[i + 1..]
  {
    WriteOne(front, Zeros(i), rest[i..], [], 0.0);
    assert rest[i..] + [] == rest[i..] && rest[i..][1..] == rest[i + 1..];
    out[start + i] := 0.0;
  }

  /** Prefixes keep the length of every vector. */
  lemma PrefixOfLength(vs: seq<seq<real>>, d: nat, n: nat)
    requires AllOfLength(vs, d) && n <= |vs|
    ensures AllOfLength(vs[..n], d)
  {
    forall t | 0 <= t < n ensures |vs[..n][t]| == d {
      assert vs[..n][t] == vs[t];
    }
  }

  /** Weighting one more value is one more `Accumulate`. */
  lemma WeightedSumStep(values: seq<seq<real>>, weights: seq<real>, d: nat, past: nat)
    requires |values| == |weights| && AllOfLength(values, d) && past < |values|
    ensures AllOfLength(values[..past], d) && AllOfLength(values[..past + 1], d)
    ensures WeightedSum(values[..past + 1], weights[..past + 1], d)
         == Accumulate(WeightedSum(values[..past], weights[..past], d), values[past], weights[past])
  {
    PrefixOfLength(values, d, past);
    PrefixOfLength(values, d, past + 1);
    assert values[..past + 1][..past] == values[..past];
    assert weights[..past + 1][..past] == weights[..past];
  }

  /** The inner loop for one past position: out[start + i] += value[i] * score for every i. */
  method AccumulateInto(out: array<real>, start: nat, v: seq<real>, w: real,
                        ghost front: seq<real>, ghost acc: seq<real>, ghost back: seq<real>)
    requires |v| == |acc| && |front| == start && out[..] == front + acc + back
    modifies out
    ensures out[..] == front + Accumulate(acc, v, w) + back
  {
    ghost var sum := Accumulate(acc, v, w);
    for i := 0 to |v|
      invariant out[..] == front + sum[..i] + acc[i..] + back
    {
      WriteOne(front, sum[..i], acc[i..], back, out[start + i] + v[i] * w);
      assert sum[i] == acc[i] + v[i] * w;
      assert sum[..i] + [sum[i]] == sum[..i + 1];
      assert acc[i..][1..] == acc[i + 1..];
      out[start + i] := out[start + i] + v[i] * w;
    }
    assert sum[..|v|] == sum && acc[|v|..] == [];
  }

  /** The zero fill and the loop over past positions for one head (src/self_attention.cc:111-122):
      out[start .. start + d] becomes the weighted sum of the values and nothing else changes. */
  method WriteHead(out: array<real>, start: nat, values: seq<seq<real>>, weights: seq<real>, d: nat)
    requires |values| == |weights| && AllOfLength(values, d) && start + d <= out.Length
    modifies out
    ensures out[..] == Overwrite(old(out[..]), start, WeightedSum(values, weights, d))
  {
    ghost var (front, back) := (out[..start], out[start + d..]);
    FillZero(out, start, d);
    assert out[..] == front + WeightedSum(values[..0], weights[..0], d) + back;
    for past := 0 to |values|
      invariant AllOfLength(values[..past], d)
      invariant out[..] == front + WeightedSum(values[..past], weights[..past], d) + back
    {
      WeightedSumStep(values, weights, d, past);
      AccumulateInto(out, start, values[past], weights[past], front, WeightedSum(values[..past], weights[..past], d), back);
    }
    assert values[..|values|] == values && weights[..|weights|] == weights;
  }

  /** The state of the loop over heads after `head` heads: the first `start` = head * D elements
      of x hold the outputs of those heads, and the rest of x is as it was. */
  ghost predicate HeadsMixed(x: seq<real>, outputs: seq<seq<real>>, rest: seq<real>, d: nat, head: nat, start: nat)
  {
    && head <= |outputs| && start == head * d && start <= |rest|
    && x == Concat(outputs[..head]) + rest[start..]
  }

  /** One pass of the loop over heads: head `head` fills its slice of x. */
  method MixHead(cfg: Config, k: Kernels, queries: seq<real>, keys: seq<real>, values: seq<real>,
                 position: nat, out: array<real>, head: nat, start: nat,
                 ghost outputs: seq<seq<real>>, ghost rest: seq<real>)
    requires cfg.Valid() && k.Valid() && |queries| == cfg.heads * cfg.HeadDimension()
    requires |keys| == CacheSize(cfg) && |values| == CacheSize(cfg) && position < cfg.sequence
    requires head < cfg.heads && |rest| == cfg.embedding && out.Length == |rest|
    requires outputs == HeadOutputs(cfg, k, queries, keys, values, position, cfg.heads)
    requires HeadsMixed(out[..], outputs, rest, cfg.HeadDimension(), head, start)
    modifies out
    ensures HeadsMixed(out[..], outputs, rest, cfg.HeadDimension(), head + 1, start + cfg.HeadDimension())
  {
    var (d, kv) := (cfg.HeadDimension(), KvHead(cfg, head));
    var query := QueryHead(cfg, queries, head);
    var scores := HeadScores(cfg, k, query, keys, kv, position);
    var weights := Softmax(k, scores);
    var heads := CachedHeads(cfg, values, kv, position + 1);
    RowInBounds(head, cfg.heads, d);
    ghost var before := out[..];
    WriteHead(out, start, heads, weights, d);
    assert outputs[head] == WeightedSum(heads, weights, d);
    MixedStep(outputs, rest, d, head, start, before, out[..]);
  }

  /** Writing the output of head `head` over its slice takes the state of the loop over heads
      from `head` to `head + 1` heads. */
  lemma MixedStep(outputs: seq<seq<real>>, rest: seq<real>, d: nat, head: nat, start: nat,
                  before: seq<real>, after: seq<real>)
    requires AllOfLength(outputs, d) && head < |outputs| && start + d <= |rest| && |before| == |rest|
    requires HeadsMixed(before, outputs, rest, d, head, start)
    requires after == Overwrite(before, start, outputs[head])
    ensures HeadsMixed(after, outputs, rest, d, head + 1, start + d)
  {
    PrefixOfLength(outputs, d, head);
    ConcatLength(outputs[..head], d);
    assert outputs[..head + 1][..head] == outputs[..head];
    assert rest[start..][d..] == rest[start + d..];
    MulPred(head + 1, d);
  }

  /** The loop over heads (src/self_attention.cc:98-123): every query head writes its output
      into its own slice of x, which ends up holding all the head outputs side by side. */
  method MixHeads(cfg: Config, k: Kernels, queries: seq<real>, keys: seq<real>, values: seq<real>,
                  position: nat, out: array<real>)
    requires cfg.Valid() && k.Valid() && |queries| == cfg.heads * cfg.HeadDimension()
    requires |keys| == CacheSize(cfg) && |values| == CacheSize(cfg) && position < cfg.sequence
    requires out.Length == cfg.embedding
    modifies out
    ensures out[..] == Concat(HeadOutputs(cfg, k, queries, keys, values, position, cfg.heads))
  {
    ghost var outputs := HeadOutputs(cfg, k, queries, keys, values, position, cfg.heads);
    ghost var rest := out[..];
    var start: nat := 0;
    assert rest[0..] == rest;
    for head := 0 to cfg.heads
      invariant HeadsMixed(out[..], outputs, rest, cfg.HeadDimension(), head, start)
    {
      MixHead(cfg, k, queries, keys, values, position, out, head, start, outputs, rest);
      start := start + cfg.HeadDimension();
    }
    MixedAll(out[..], outputs, rest, cfg.HeadDimension(), start);
  }

  /** After the last head, x holds the head outputs side by side and nothing of what was there. */
  lemma MixedAll(x: seq<real>, outputs: seq<seq<real>>, rest: seq<real>, d: nat, start: nat)
    requires start == |rest| && HeadsMixed(x, outputs, rest, d, |outputs|, start)
    ensures x == Concat(outputs)
  {
    assert outputs[..|outputs|] == outputs && rest[start..] == [];
  }

  // ----- the layer -----

  /** `SelfAttention` (src/self_attention.h:3-19): the four weight views of one layer and the
      two caches, `[kSequenceSize, kKVHeadsSize * kHeadDimension]` each, that `Forward` fills
      row by row.  The caches' initial contents are left unspecified. */
  class SelfAttention {
    const model: Model
    const layer: nat
    const views: LayerViews
    const keysCache: array<real>
    const valuesCache: array<real>

    ghost predicate Valid() {
      && model.Valid() && layer < model.cfg.layers
      && AttentionViews(model, layer) == Ok(views)
      && keysCache.Length == CacheSize(model.cfg) && valuesCache.Length == CacheSize(model.cfg)
      && keysCache != valuesCache
    }

    /** The constructor (src/self_attention.cc:53-61): the views of layer `layer`, which
        `AttentionViews` shows pass the bounds checks exactly when layer < kLayersSize. */
    constructor(model: Model, layer: nat)
      requires model.Valid() && layer < model.cfg.layers
      ensures Valid() && this.model == model && this.layer == layer
      ensures fresh(keysCache) && fresh(valuesCache)
    {
      this.model := model;
      this.layer := layer;
      views := AttentionViews(model, layer).value;
      keysCache := new real[CacheSize(model.cfg)];
      valuesCache := new real[CacheSize(model.cfg)];
    }

    /** `Forward` (src/self_attention.cc:63-126).  With position >= kSequenceSize the row view
        of keys_cache_ fails its bounds check and nothing changes.  Otherwise row `position` of
        keys_cache_ becomes the rotated wk_ · x and that of values_cache_ wv_ · x, every other
        row of both is kept, and the result is the attention output over the updated caches. */
    method Forward(x: seq<real>, position: nat) returns (r: Checked<seq<real>>)
      requires Valid() && |x| == model.cfg.embedding
      modifies keysCache, valuesCache
      ensures r.Abort? <==> position >= model.cfg.sequence
      ensures r.Abort? ==> unchanged(keysCache, valuesCache)
      ensures r.Ok? ==> keysCache[..] == StoreRow(model.cfg, old(keysCache[..]), position, NewKeys(model, views, position, x))
      ensures r.Ok? ==> valuesCache[..] == StoreRow(model.cfg, old(valuesCache[..]), position, NewValues(model, views, x))
      ensures r.Ok? ==> r.value == AttentionOutput(model, views, position, x, keysCache[..], valuesCache[..])
    {
      var (cfg, k, w) := (model.cfg, model.kernels, model.weights);
      var d := cfg.HeadDimension();
      var queries := MatrixProductBuffer(w.query, views.query, x);
      var keysRow := CacheRow(cfg, position);
      if keysRow.Abort? {
        return Abort(keysRow.failed);
      }
      StoreProjection(cfg, w.key, views.key, x, keysCache, position);
      StoreProjection(cfg, w.value, views.value, x, valuesCache, position);
      RotateQueries(cfg, k, queries, position);
      RotateStoredKeys(cfg, k, keysCache, position, old(keysCache[..]), MatVec(w.key, views.key, x));
      var mixed := new real[cfg.embedding](i requires 0 <= i < cfg.embedding => x[i]);
      MixHeads(cfg, k, queries[..], keysCache[..], valuesCache[..], position, mixed);
      ConcatLength(HeadOutputs(cfg, k, queries[..], keysCache[..], valuesCache[..], position, cfg.heads), d);
      var output := MatrixProduct(w.output, views.output, mixed[..]);
      r := Ok(output);
    }
  }

  /** `MatrixProductTo(wk_, x, &keys)` with keys = keys_cache_[position]: the product is
      stored as row `position` of the cache. */
  method StoreProjection(cfg: Config, s: seq<real>, left: View, x: seq<real>, cache: array<real>, position: nat)
    requires cfg.Valid() && left.dims == KeyShape(cfg) && left.End() <= |s| && |x| == cfg.embedding
    requires cache.Length == CacheSize(cfg) && position < cfg.sequence
    modifies cache
    ensures cache[..] == StoreRow(cfg, old(cache[..]), position, MatVec(s, left, x))
  {
    var row := CacheRow(cfg, position).value;
    RowInBounds(position, cfg.sequence, cfg.KVDimension());
    MatrixProductTo(s, left, x, cache, row);
  }

  /** The RoPE loop over xq[i]: every query head of the buffer is rotated in place. */
  method RotateQueries(cfg: Config, k: Kernels, queries: array<real>, position: nat)
    requires cfg.Valid() && queries.Length == cfg.heads * cfg.HeadDimension()
    modifies queries
    ensures queries[..] == RotateHeads(k, cfg.HeadDimension(), position, old(queries[..]), cfg.heads)
  {
    var d := cfg.HeadDimension();
    StorageSizeTwo(cfg.heads, d);
    ghost var projected := queries[..];
    RotateEachHead(k, d, position, queries, View(0, [cfg.heads, d]));
    assert projected[0..cfg.heads * d] == projected;
    OverwriteAll(projected, RotateHeads(k, d, position, projected, cfg.heads));
  }

  /** The RoPE loop over xk[position][i] for every key/value head: the stored row becomes the
      rotated row, as if the rotated keys had been stored. */
  method RotateStoredKeys(cfg: Config, k: Kernels, cache: array<real>, position: nat,
                          ghost before: seq<real>, ghost row: seq<real>)
    requires cfg.Valid() && cache.Length == CacheSize(cfg) && position < cfg.sequence
    requires |before| == CacheSize(cfg) && |row| == cfg.KVDimension()
    requires cache[..] == StoreRow(cfg, before, position, row)
    modifies cache
    ensures cache[..] == StoreRow(cfg, before, position, RotateHeads(k, cfg.HeadDimension(), position, row, cfg.kvHeads))
  {
    var heads := CacheRowHeads(cfg, position);
    StorageSizeTwo(cfg.kvHeads, cfg.HeadDimension());
    RowInBounds(position, cfg.sequence, cfg.KVDimension());
    RotateEachHead(k, cfg.HeadDimension(), position, cache, heads);
    OverwriteTwice(before, position * cfg.KVDimension(), row,
                   RotateHeads(k, cfg.HeadDimension(), position, row, cfg.kvHeads));
  }
}
