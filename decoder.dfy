/** One decoder block (src/decoder.cc, src/decoder.h): attention over the RMS-normalised input
    with a residual connection around it, then the feed-forward layer over the RMS-normalised
    result with a second residual connection. */
module DecoderLayer {
  import opened Tensors
  import opened ModelCommon
  import opened Attention
  import opened FeedForwardLayer

  /** attention_norm_ and feed_forward_norm_ (src/decoder.cc:17-21): element layer * E of the
      two norm tables, kEmbeddingSize long; the bounds checks pass exactly when
      layer < kLayersSize. */
  function NormView(m: Model, tableSize: nat, layer: nat): (r: Checked<View>)
    requires m.Valid() && tableSize == m.cfg.layers * m.cfg.embedding
    ensures r.Ok? <==> layer < m.cfg.layers
    ensures r.Ok? ==> r.value == View(layer * m.cfg.embedding, [m.cfg.embedding]) && r.value.End() <= tableSize
  {
    assert StorageSize([m.cfg.embedding]) == m.cfg.embedding;
    LayerView(tableSize, m.cfg.layers, layer, [m.cfg.embedding])
  }

  /** The RMS-norm weights of layer `layer`, for attention and for the feed-forward layer. */
  function AttentionNormWeights(m: Model, layer: nat): (r: seq<real>)
    requires m.Valid() && layer < m.cfg.layers
    ensures |r| == m.cfg.embedding
  {
    Elements(m.weights.attentionNorm, NormView(m, |m.weights.attentionNorm|, layer).value)
  }

  function FfnNormWeights(m: Model, layer: nat): (r: seq<real>)
    requires m.Valid() && layer < m.cfg.layers
    ensures |r| == m.cfg.embedding
  {
    Elements(m.weights.ffnNorm, NormView(m, |m.weights.ffnNorm|, layer).value)
  }

  /** What a decoder call yields: its output and the two caches it leaves behind. */
  datatype Step = Step(output: seq<real>, keys: seq<real>, values: seq<real>)

  /** The caches after layer `layer` has seen x at `position`: row `position` holds the
      layer's new keys and values for the normalised x. */
  function StoredCaches(m: Model, layer: nat, position: nat, x: seq<real>, keys: seq<real>, values: seq<real>): (r: (seq<real>, seq<real>))
    requires m.Valid() && layer < m.cfg.layers && position < m.cfg.sequence && |x| == m.cfg.embedding
    requires |keys| == CacheSize(m.cfg) && |values| == CacheSize(m.cfg)
    ensures |r.0| == CacheSize(m.cfg) && |r.1| == CacheSize(m.cfg)
  {
    var views := AttentionViews(m, layer).value;
    var normed := RMSNormalize(m.kernels, x, AttentionNormWeights(m, layer));
    (StoreRow(m.cfg, keys, position, NewKeys(m, views, position, normed)),
     StoreRow(m.cfg, values, position, NewValues(m, views, normed)))
  }

  /** h = attention(RMSNorm(x)) + x over the stored caches. */
  function AttentionResidual(m: Model, layer: nat, position: nat, x: seq<real>, keys: seq<real>, values: seq<real>): (r: seq<real>)
    requires m.Valid() && layer < m.cfg.layers && position < m.cfg.sequence && |x| == m.cfg.embedding
    requires |keys| == CacheSize(m.cfg) && |values| == CacheSize(m.cfg)
    ensures |r| == m.cfg.embedding
  {
    var normed := RMSNormalize(m.kernels, x, AttentionNormWeights(m, layer));
    Add(AttentionOutput(m, AttentionViews(m, layer).value, position, normed, keys, values), x)
  }

  /** The block as a whole (src/decoder.cc:23-39), given the caches as they were before. */
  function DecoderStep(m: Model, layer: nat, position: nat, x: seq<real>, keys: seq<real>, values: seq<real>): (r: Step)
    requires m.Valid() && layer < m.cfg.layers && position < m.cfg.sequence && |x| == m.cfg.embedding
    requires |keys| == CacheSize(m.cfg) && |values| == CacheSize(m.cfg)
    ensures |r.output| == m.cfg.embedding && |r.keys| == CacheSize(m.cfg) && |r.values| == CacheSize(m.cfg)
  {
    var caches := StoredCaches(m, layer, position, x, keys, values);
    var h := AttentionResidual(m, layer, position, x, caches.0, caches.1);
    var ffn := FfnOutput(m, FfnViewsOf(m, layer).value, RMSNormalize(m.kernels, h, FfnNormWeights(m, layer)));
    Step(Add(ffn, h), caches.0, caches.1)
  }

  /** A decoder call writes row `position` of each cache and no other row. */
  lemma DecoderKeepsOtherRows(m: Model, layer: nat, position: nat, x: seq<real>, keys: seq<real>, values: seq<real>, t: nat)
    requires m.Valid() && layer < m.cfg.layers && position < m.cfg.sequence && |x| == m.cfg.embedding
    requires |keys| == CacheSize(m.cfg) && |values| == CacheSize(m.cfg) && t < m.cfg.sequence && t != position
    ensures CacheRow(m.cfg, t).value.End() <= CacheSize(m.cfg)
    ensures Elements(DecoderStep(m, layer, position, x, keys, values).keys, CacheRow(m.cfg, t).value)
         == Elements(keys, CacheRow(m.cfg, t).value)
    ensures Elements(DecoderStep(m, layer, position, x, keys, values).values, CacheRow(m.cfg, t).value)
         == Elements(values, CacheRow(m.cfg, t).value)
  {
    var views := AttentionViews(m, layer).value;
    var normed := RMSNormalize(m.kernels, x, AttentionNormWeights(m, layer));
    StoreRowSetsOneRow(m.cfg, keys, position, NewKeys(m, views, position, normed), t);
    StoreRowSetsOneRow(m.cfg, values, position, NewValues(m, views, normed), t);
  }

  /** Rows 0..position agree after a store into row `position` when they agreed before. */
  lemma StoreRowKeepsPastAgreement(cfg: Config, a: seq<real>, b: seq<real>, position: nat, row: seq<real>)
    requires cfg.Valid() && |a| == CacheSize(cfg) && |b| == CacheSize(cfg) && position < cfg.sequence
    requires |row| == cfg.KVDimension() && PastRows(cfg, a, position) == PastRows(cfg, b, position)
    ensures PastRows(cfg, StoreRow(cfg, a, position, row), position) == PastRows(cfg, StoreRow(cfg, b, position, row), position)
  {
    var kvd := cfg.KVDimension();
    var at := position * kvd;
    RowInBounds(position, cfg.sequence, kvd);
    assert a[..at] == PastRows(cfg, a, position)[..at];
    assert b[..at] == PastRows(cfg, b, position)[..at];
    OverwritePrefix(a, at, row);
    OverwritePrefix(b, at, row);
  }

  /** Caches that agree on rows 0..position once this call's row is stored give the same
      output. */
  lemma SameOutputFromStoredAgreement(m: Model, layer: nat, position: nat, x: seq<real>,
                                      keys1: seq<real>, values1: seq<real>, keys2: seq<real>, values2: seq<real>)
    requires m.Valid() && layer < m.cfg.layers && position < m.cfg.sequence && |x| == m.cfg.embedding
    requires |keys1| == CacheSize(m.cfg) && |values1| == CacheSize(m.cfg)
    requires |keys2| == CacheSize(m.cfg) && |values2| == CacheSize(m.cfg)
    requires var (c1, c2) := (StoredCaches(m, layer, position, x, keys1, values1), StoredCaches(m, layer, position, x, keys2, values2));
      PastRows(m.cfg, c1.0, position) == PastRows(m.cfg, c2.0, position)
      && PastRows(m.cfg, c1.1, position) == PastRows(m.cfg, c2.1, position)
    ensures DecoderStep(m, layer, position, x, keys1, values1).output == DecoderStep(m, layer, position, x, keys2, values2).output
  {
    var views := AttentionViews(m, layer).value;
    var normed := RMSNormalize(m.kernels, x, AttentionNormWeights(m, layer));
    var c1 := StoredCaches(m, layer, position, x, keys1, values1);
    var c2 := StoredCaches(m, layer, position, x, keys2, values2);
    AttentionReadsOnlyPast(m, views, position, normed, c1.0, c1.1, c2.0, c2.1);
    assert AttentionResidual(m, layer, position, x, c1.0, c1.1) == AttentionResidual(m, layer, position, x, c2.0, c2.1);
  }

  /** A decoder call reads only cache rows 0..position: caches that agree there give the same
      output and caches that still agree there. */
  lemma DecoderReadsOnlyPast(m: Model, layer: nat, position: nat, x: seq<real>,
                             keys1: seq<real>, values1: seq<real>, keys2: seq<real>, values2: seq<real>)
    requires m.Valid() && layer < m.cfg.layers && position < m.cfg.sequence && |x| == m.cfg.embedding
    requires |keys1| == CacheSize(m.cfg) && |values1| == CacheSize(m.cfg)
    requires |keys2| == CacheSize(m.cfg) && |values2| == CacheSize(m.cfg)
    requires PastRows(m.cfg, keys1, position) == PastRows(m.cfg, keys2, position)
    requires PastRows(m.cfg, values1, position) == PastRows(m.cfg, values2, position)
    ensures var (s1, s2) := (DecoderStep(m, layer, position, x, keys1, values1), DecoderStep(m, layer, position, x, keys2, values2));
      && s1.output == s2.output
      && PastRows(m.cfg, s1.keys, position) == PastRows(m.cfg, s2.keys, position)
      && PastRows(m.cfg, s1.values, position) == PastRows(m.cfg, s2.values, position)
  {
    var views := AttentionViews(m, layer).value;
    var normed := RMSNormalize(m.kernels, x, AttentionNormWeights(m, layer));
    StoreRowKeepsPastAgreement(m.cfg, keys1, keys2, position, NewKeys(m, views, position, normed));
    StoreRowKeepsPastAgreement(m.cfg, values1, values2, position, NewValues(m, views, normed));
    SameOutputFromStoredAgreement(m, layer, position, x, keys1, values1, keys2, values2);
  }

  /** Storing row 0 fixes everything position 0 reads. */
  lemma StoreFirstRow(cfg: Config, a: seq<real>, row: seq<real>)
    requires cfg.Valid() && |a| == CacheSize(cfg) && |row| == cfg.KVDimension()
    ensures PastRows(cfg, StoreRow(cfg, a, 0, row), 0) == row
  {
    assert StoreRow(cfg, a, 0, row)[..|row|] == row;
  }

  /** At position 0 the caches' earlier contents (uninitialised memory in the source) do not
      matter: any two caches give the same output and agree on row 0 afterwards. */
  lemma DecoderIgnoresCachesAtFirstPosition(m: Model, layer: nat, x: seq<real>,
                                            keys1: seq<real>, values1: seq<real>, keys2: seq<real>, values2: seq<real>)
    requires m.Valid() && layer < m.cfg.layers && |x| == m.cfg.embedding
    requires |keys1| == CacheSize(m.cfg) && |values1| == CacheSize(m.cfg)
    requires |keys2| == CacheSize(m.cfg) && |values2| == CacheSize(m.cfg)
    ensures var (s1, s2) := (DecoderStep(m, layer, 0, x, keys1, values1), DecoderStep(m, layer, 0, x, keys2, values2));
      && s1.output == s2.output
      && PastRows(m.cfg, s1.keys, 0) == PastRows(m.cfg, s2.keys, 0)
      && PastRows(m.cfg, s1.values, 0) == PastRows(m.cfg, s2.values, 0)
  {
    var views := AttentionViews(m, layer).value;
    var normed := RMSNormalize(m.kernels, x, AttentionNormWeights(m, layer));
    var (newKeys, newValues) := (NewKeys(m, views, 0, normed), NewValues(m, views, normed));
    StoreFirstRow(m.cfg, keys1, newKeys);
    StoreFirstRow(m.cfg, keys2, newKeys);
    StoreFirstRow(m.cfg, values1, newValues);
    StoreFirstRow(m.cfg, values2, newValues);
    SameOutputFromStoredAgreement(m, layer, 0, x, keys1, values1, keys2, values2);
  }

  /** A residual loop: a[j] += b[j] for every j. */
  method AddInPlace(a: array<real>, b: seq<real>)
    requires a.Length == |b|
    modifies a
    ensures a[..] == Add(old(a[..]), b)
  {
    ghost var before := a[..];
    for j := 0 to a.Length
      invariant forall i :: 0 <= i < j ==> a[i] == before[i] + b[i]
      invariant forall i :: j <= i < a.Length ==> a[i] == before[i]
    {
      a[j] := a[j] + b[j];
    }
    assert forall i :: 0 <= i < a.Length ==> a[..][i] == Add(before, b)[i];
  }

  /** `Decoder` (src/decoder.h:4-21): the attention layer with its caches, the feed-forward
      layer and the two norm views of one layer. */
  class Decoder {
    const model: Model
    const layer: nat
    const attention: SelfAttention
    const feedForward: FeedForward
    const attentionNorm: View
    const ffnNorm: View

    ghost predicate Valid() {
      && model.Valid() && layer < model.cfg.layers
      && attention.Valid() && attention.model == model && attention.layer == layer
      && feedForward.Valid() && feedForward.model == model && feedForward.layer == layer
      && NormView(model, |model.weights.attentionNorm|, layer) == Ok(attentionNorm)
      && NormView(model, |model.weights.ffnNorm|, layer) == Ok(ffnNorm)
    }

    /** The constructor (src/decoder.cc:17-21): every member built for the same layer. */
    constructor(model: Model, layer: nat)
      requires model.Valid() && layer < model.cfg.layers
      ensures Valid() && this.model == model && this.layer == layer
      ensures fresh(attention) && fresh(attention.keysCache) && fresh(attention.valuesCache)
    {
      this.model := model;
      this.layer := layer;
      attention := new SelfAttention(model, layer);
      feedForward := new FeedForward(model, layer);
      attentionNorm := NormView(model, |model.weights.attentionNorm|, layer).value;
      ffnNorm := NormView(model, |model.weights.ffnNorm|, layer).value;
    }

    /** `Forward` (src/decoder.cc:23-39).  It aborts, changing nothing, when attention does
        (position >= kSequenceSize); otherwise it is `DecoderStep`, and the attention caches are
        the only state it changes. */
    method Forward(x: seq<real>, position: nat) returns (r: Checked<seq<real>>)
      requires Valid() && |x| == model.cfg.embedding
      modifies attention.keysCache, attention.valuesCache
      ensures r.Abort? <==> position >= model.cfg.sequence
      ensures r.Abort? ==> unchanged(attention.keysCache, attention.valuesCache)
      ensures r.Ok? ==>
        var step := DecoderStep(model, layer, position, x, old(attention.keysCache[..]), old(attention.valuesCache[..]));
        && r.value == step.output
        && attention.keysCache[..] == step.keys && attention.valuesCache[..] == step.values
    {
      var k := model.kernels;
      var attended := attention.Forward(RMSNormalize(k, x, Elements(model.weights.attentionNorm, attentionNorm)), position);
      if attended.Abort? {
        return Abort(attended.failed);
      }
      var h := Buffer(attended.value);
      AddInPlace(h, x);
      var result := feedForward.Forward(RMSNormalize(k, h[..], Elements(model.weights.ffnNorm, ffnNorm)));
      var out := Buffer(result);
      AddInPlace(out, h[..]);
      r := Ok(out[..]);
    }
  }
}
