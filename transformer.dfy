/** The whole network (src/transformer.cc, src/transformer.h): kLayersSize decoder blocks in a
    row, a final RMS normalisation, and the projection onto the token table that yields one
    logit per token. */
module TransformerModel {
  import opened Tensors
  import opened ModelCommon
  import opened Attention
  import opened Embedding
  import opened DecoderLayer

  /** Every cache of a run, one per layer, has the cache's size. */
  ghost predicate CachesSized(cfg: Config, caches: seq<seq<real>>)
    requires cfg.Valid()
  {
    forall i :: 0 <= i < |caches| ==> |caches[i]| == CacheSize(cfg)
  }

  /** f applied n times, layer by layer: f(n - 1, ... f(1, f(0, x))). */
  function Fold<T>(f: (nat, T) -> T, x: T, n: nat): T
  {
    if n == 0 then x else f(n - 1, Fold(f, x, n - 1))
  }

  /** Folds of two step functions that agree on the first n layers agree. */
  lemma {:induction false} FoldCongruence<T>(f: (nat, T) -> T, g: (nat, T) -> T, x: T, n: nat)
    requires forall layer: nat, h: T :: layer < n ==> f(layer, h) == g(layer, h)
    ensures Fold(f, x, n) == Fold(g, x, n)
  {
    if n > 0 {
      FoldCongruence(f, g, x, n - 1);
    }
  }

  /** Layer `layer` applied to h, with its caches as they were before this call.  Every call
      the model makes meets the condition; the fallback only makes the step total. */
  ghost function LayerOutput(m: Model, position: nat, keys: seq<seq<real>>, values: seq<seq<real>>, layer: nat, h: seq<real>): (r: seq<real>)
    ensures |r| == |h|
  {
    if && m.Valid() && position < m.cfg.sequence && layer < m.cfg.layers && |h| == m.cfg.embedding
       && layer < |keys| && layer < |values| && |keys[layer]| == CacheSize(m.cfg) && |values[layer]| == CacheSize(m.cfg)
    then DecoderStep(m, layer, position, h, keys[layer], values[layer]).output
    else h
  }

  /** The decoder stack of one call, as the step of a fold. */
  ghost function Stack(m: Model, position: nat, keys: seq<seq<real>>, values: seq<seq<real>>): (nat, seq<real>) -> seq<real>
  {
    (layer: nat, h: seq<real>) => LayerOutput(m, position, keys, values, layer, h)
  }

  lemma {:induction false} StackKeepsLength(m: Model, position: nat, x: seq<real>, keys: seq<seq<real>>, values: seq<seq<real>>, n: nat)
    ensures |Fold(Stack(m, position, keys, values), x, n)| == |x|
  {
    if n > 0 {
      StackKeepsLength(m, position, x, keys, values, n - 1);
    }
  }

  /** The decoder loop (src/transformer.cc:29-30) up to layer n: the embedding layer n
      receives, which layer n - 1 computed from its own input and its own caches as they were
      before this call. */
  ghost function LayerInput(m: Model, position: nat, x: seq<real>, keys: seq<seq<real>>, values: seq<seq<real>>, n: nat): (r: seq<real>)
    ensures |r| == |x|
  {
    StackKeepsLength(m, position, x, keys, values, n);
    Fold(Stack(m, position, keys, values), x, n)
  }

  /** One more turn of a fold. */
  lemma FoldStep<T>(f: (nat, T) -> T, x: T, n: nat)
    requires n > 0
    ensures Fold(f, x, n) == f(n - 1, Fold(f, x, n - 1))
  {
  }

  /** On the inputs the model passes, a layer of the stack is its decoder block. */
  lemma StackIsDecoder(m: Model, position: nat, keys: seq<seq<real>>, values: seq<seq<real>>, layer: nat, h: seq<real>)
    requires m.Valid() && position < m.cfg.sequence && layer < m.cfg.layers && |h| == m.cfg.embedding
    requires |keys| == m.cfg.layers && |values| == m.cfg.layers
    requires CachesSized(m.cfg, keys) && CachesSized(m.cfg, values)
    ensures Stack(m, position, keys, values)(layer, h) == DecoderStep(m, layer, position, h, keys[layer], values[layer]).output
  {
  }

  /** What layer `layer` does in this call: its output and the caches it leaves behind. */
  ghost function LayerStep(m: Model, position: nat, x: seq<real>, keys: seq<seq<real>>, values: seq<seq<real>>, layer: nat): (r: Step)
    requires m.Valid() && position < m.cfg.sequence && |x| == m.cfg.embedding && layer < m.cfg.layers
    requires |keys| == m.cfg.layers && |values| == m.cfg.layers
    requires CachesSized(m.cfg, keys) && CachesSized(m.cfg, values)
    ensures |r.output| == m.cfg.embedding && |r.keys| == CacheSize(m.cfg) && |r.values| == CacheSize(m.cfg)
  {
    DecoderStep(m, layer, position, LayerInput(m, position, x, keys, values, layer), keys[layer], values[layer])
  }

  /** What `Forward` returns (src/transformer.cc:26-35): the logits of the normalised output
      of the last layer. */
  ghost function Logits(m: Model, position: nat, x: seq<real>, keys: seq<seq<real>>, values: seq<seq<real>>): (r: seq<real>)
    requires m.Valid() && position < m.cfg.sequence && |x| == m.cfg.embedding
    requires |keys| == m.cfg.layers && |values| == m.cfg.layers
    requires CachesSized(m.cfg, keys) && CachesSized(m.cfg, values)
    ensures |r| == m.cfg.tokens
  {
    var last := LayerInput(m, position, x, keys, values, m.cfg.layers);
    TokenLogits(m.cfg, m.weights.tokenEmbedding, RMSNormalize(m.kernels, last, m.weights.outputNorm))
  }

  /** Two lists of caches agree on rows 0..position layer by layer. */
  ghost predicate PastAgrees(cfg: Config, a: seq<seq<real>>, b: seq<seq<real>>, position: nat)
    requires cfg.Valid() && position < cfg.sequence && CachesSized(cfg, a) && CachesSized(cfg, b)
  {
    |a| == |b| && forall i :: 0 <= i < |a| ==> PastRows(cfg, a[i], position) == PastRows(cfg, b[i], position)
  }

  /** The output half of `DecoderReadsOnlyPast`, on its own. */
  lemma StepOutputReadsOnlyPast(m: Model, layer: nat, position: nat, h: seq<real>,
                                keys1: seq<real>, values1: seq<real>, keys2: seq<real>, values2: seq<real>)
    requires m.Valid() && layer < m.cfg.layers && position < m.cfg.sequence && |h| == m.cfg.embedding
    requires |keys1| == CacheSize(m.cfg) && |values1| == CacheSize(m.cfg)
    requires |keys2| == CacheSize(m.cfg) && |values2| == CacheSize(m.cfg)
    requires PastRows(m.cfg, keys1, position) == PastRows(m.cfg, keys2, position)
    requires PastRows(m.cfg, values1, position) == PastRows(m.cfg, values2, position)
    ensures DecoderStep(m, layer, position, h, keys1, values1).output == DecoderStep(m, layer, position, h, keys2, values2).output
  {
    DecoderReadsOnlyPast(m, layer, position, h, keys1, values1, keys2, values2);
  }

  /** The output half of `DecoderIgnoresCachesAtFirstPosition`, on its own. */
  lemma StepOutputAtFirstPosition(m: Model, layer: nat, h: seq<real>,
                                  keys1: seq<real>, values1: seq<real>, keys2: seq<real>, values2: seq<real>)
    requires m.Valid() && layer < m.cfg.layers && |h| == m.cfg.embedding
    requires |keys1| == CacheSize(m.cfg) && |values1| == CacheSize(m.cfg)
    requires |keys2| == CacheSize(m.cfg) && |values2| == CacheSize(m.cfg)
    ensures DecoderStep(m, layer, 0, h, keys1, values1).output == DecoderStep(m, layer, 0, h, keys2, values2).output
  {
    DecoderIgnoresCachesAtFirstPosition(m, layer, h, keys1, values1, keys2, values2);
  }

  /** The layers read only cache rows 0..position: caches that agree there give every layer
      the same input. */
  lemma LayerInputReadsOnlyPast(m: Model, position: nat, x: seq<real>,
                                keys1: seq<seq<real>>, values1: seq<seq<real>>,
                                keys2: seq<seq<real>>, values2: seq<seq<real>>, n: nat)
    requires m.Valid() && position < m.cfg.sequence && |x| == m.cfg.embedding
    requires |keys1| == m.cfg.layers && |values1| == m.cfg.layers && |keys2| == m.cfg.layers && |values2| == m.cfg.layers
    requires CachesSized(m.cfg, keys1) && CachesSized(m.cfg, values1)
    requires CachesSized(m.cfg, keys2) && CachesSized(m.cfg, values2)
    requires PastAgrees(m.cfg, keys1, keys2, position) && PastAgrees(m.cfg, values1, values2, position)
    ensures LayerInput(m, position, x, keys1, values1, n) == LayerInput(m, position, x, keys2, values2, n)
  {
    var (f, g) := (Stack(m, position, keys1, values1), Stack(m, position, keys2, values2));
    forall layer: nat, h: seq<real> | layer < n ensures f(layer, h) == g(layer, h) {
      if layer < m.cfg.layers && |h| == m.cfg.embedding {
        StepOutputReadsOnlyPast(m, layer, position, h, keys1[layer], values1[layer], keys2[layer], values2[layer]);
      }
    }
    FoldCongruence(f, g, x, n);
  }

  /** Caches that agree on rows 0..position give the same logits, and every layer leaves
      caches that still agree there. */
  lemma ForwardReadsOnlyPast(m: Model, position: nat, x: seq<real>,
                             keys1: seq<seq<real>>, values1: seq<seq<real>>,
                             keys2: seq<seq<real>>, values2: seq<seq<real>>)
    requires m.Valid() && position < m.cfg.sequence && |x| == m.cfg.embedding
    requires |keys1| == m.cfg.layers && |values1| == m.cfg.layers && |keys2| == m.cfg.layers && |values2| == m.cfg.layers
    requires CachesSized(m.cfg, keys1) && CachesSized(m.cfg, values1)
    requires CachesSized(m.cfg, keys2) && CachesSized(m.cfg, values2)
    requires PastAgrees(m.cfg, keys1, keys2, position) && PastAgrees(m.cfg, values1, values2, position)
    ensures Logits(m, position, x, keys1, values1) == Logits(m, position, x, keys2, values2)
    ensures forall layer :: 0 <= layer < m.cfg.layers ==>
      var (s1, s2) := (LayerStep(m, position, x, keys1, values1, layer), LayerStep(m, position, x, keys2, values2, layer));
      PastRows(m.cfg, s1.keys, position) == PastRows(m.cfg, s2.keys, position)
      && PastRows(m.cfg, s1.values, position) == PastRows(m.cfg, s2.values, position)
  {
    LayerInputReadsOnlyPast(m, position, x, keys1, values1, keys2, values2, m.cfg.layers);
    forall layer | 0 <= layer < m.cfg.layers
      ensures var (s1, s2) := (LayerStep(m, position, x, keys1, values1, layer), LayerStep(m, position, x, keys2, values2, layer));
        PastRows(m.cfg, s1.keys, position) == PastRows(m.cfg, s2.keys, position)
        && PastRows(m.cfg, s1.values, position) == PastRows(m.cfg, s2.values, position)
    {
      LayerInputReadsOnlyPast(m, position, x, keys1, values1, keys2, values2, layer);
      var h := LayerInput(m, position, x, keys1, values1, layer);
      DecoderReadsOnlyPast(m, layer, position, h, keys1[layer], values1[layer], keys2[layer], values2[layer]);
    }
  }

  /** At position 0 nothing the caches held before matters (in the source they start
      uninitialised): any caches give every layer the same input. */
  lemma LayerInputIgnoresCachesAtFirstPosition(m: Model, x: seq<real>,
                                               keys1: seq<seq<real>>, values1: seq<seq<real>>,
                                               keys2: seq<seq<real>>, values2: seq<seq<real>>, n: nat)
    requires m.Valid() && |x| == m.cfg.embedding
    requires |keys1| == m.cfg.layers && |values1| == m.cfg.layers && |keys2| == m.cfg.layers && |values2| == m.cfg.layers
    requires CachesSized(m.cfg, keys1) && CachesSized(m.cfg, values1)
    requires CachesSized(m.cfg, keys2) && CachesSized(m.cfg, values2)
    ensures LayerInput(m, 0, x, keys1, values1, n) == LayerInput(m, 0, x, keys2, values2, n)
  {
    var (f, g) := (Stack(m, 0, keys1, values1), Stack(m, 0, keys2, values2));
    forall layer: nat, h: seq<real> | layer < n ensures f(layer, h) == g(layer, h) {
      if layer < m.cfg.layers && |h| == m.cfg.embedding {
        StepOutputAtFirstPosition(m, layer, h, keys1[layer], values1[layer], keys2[layer], values2[layer]);
      }
    }
    FoldCongruence(f, g, x, n);
  }

  /** The first token's logits are the same whatever the caches held. */
  lemma FirstPositionIgnoresCaches(m: Model, x: seq<real>,
                                   keys1: seq<seq<real>>, values1: seq<seq<real>>,
                                   keys2: seq<seq<real>>, values2: seq<seq<real>>)
    requires m.Valid() && |x| == m.cfg.embedding
    requires |keys1| == m.cfg.layers && |values1| == m.cfg.layers && |keys2| == m.cfg.layers && |values2| == m.cfg.layers
    requires CachesSized(m.cfg, keys1) && CachesSized(m.cfg, values1)
    requires CachesSized(m.cfg, keys2) && CachesSized(m.cfg, values2)
    ensures Logits(m, 0, x, keys1, values1) == Logits(m, 0, x, keys2, values2)
  {
    LayerInputIgnoresCachesAtFirstPosition(m, x, keys1, values1, keys2, values2, m.cfg.layers);
  }

  /** A call at `position` rewrites row `position` of every layer's caches and no other row. */
  lemma ForwardKeepsOtherRows(m: Model, position: nat, x: seq<real>,
                              keys: seq<seq<real>>, values: seq<seq<real>>, layer: nat, t: nat)
    requires m.Valid() && position < m.cfg.sequence && |x| == m.cfg.embedding
    requires |keys| == m.cfg.layers && |values| == m.cfg.layers
    requires CachesSized(m.cfg, keys) && CachesSized(m.cfg, values)
    requires layer < m.cfg.layers && t < m.cfg.sequence && t != position
    ensures CacheRow(m.cfg, t).value.End() <= CacheSize(m.cfg)
    ensures Elements(LayerStep(m, position, x, keys, values, layer).keys, CacheRow(m.cfg, t).value)
         == Elements(keys[layer], CacheRow(m.cfg, t).value)
    ensures Elements(LayerStep(m, position, x, keys, values, layer).values, CacheRow(m.cfg, t).value)
         == Elements(values[layer], CacheRow(m.cfg, t).value)
  {
    DecoderKeepsOtherRows(m, layer, position, LayerInput(m, position, x, keys, values, layer), keys[layer], values[layer], t);
  }

  /** What one turn of the decoder loop establishes: layer i, run on its input with its old
      caches, yields layer i + 1's input and the caches `LayerStep` gives. */
  lemma ProgressStep(m: Model, position: nat, x: seq<real>, keys: seq<seq<real>>, values: seq<seq<real>>, i: nat,
                     h: seq<real>, out: seq<real>, newKeys: seq<real>, newValues: seq<real>)
    requires m.Valid() && position < m.cfg.sequence && |x| == m.cfg.embedding && i < m.cfg.layers
    requires |keys| == m.cfg.layers && |values| == m.cfg.layers
    requires CachesSized(m.cfg, keys) && CachesSized(m.cfg, values)
    requires h == LayerInput(m, position, x, keys, values, i)
    requires var step := DecoderStep(m, i, position, h, keys[i], values[i]);
      out == step.output && newKeys == step.keys && newValues == step.values
    ensures out == LayerInput(m, position, x, keys, values, i + 1)
    ensures newKeys == LayerStep(m, position, x, keys, values, i).keys
    ensures newValues == LayerStep(m, position, x, keys, values, i).values
  {
    FoldStep(Stack(m, position, keys, values), x, i + 1);
    StackIsDecoder(m, position, keys, values, i, h);
  }

  /** Layers i.. still hold the caches they had before the call. */
  ghost predicate LaterKept(m: Model, keys: seq<seq<real>>, values: seq<seq<real>>, i: nat,
                            currentKeys: seq<seq<real>>, currentValues: seq<seq<real>>)
    requires m.Valid() && |keys| == m.cfg.layers && |values| == m.cfg.layers
    requires |currentKeys| == m.cfg.layers && |currentValues| == m.cfg.layers
  {
    forall j :: i <= j < m.cfg.layers ==> currentKeys[j] == keys[j] && currentValues[j] == values[j]
  }

  /** Layers ..i - 1 hold the caches `LayerStep` gives. */
  ghost predicate EarlierStepped(m: Model, position: nat, x: seq<real>, keys: seq<seq<real>>, values: seq<seq<real>>,
                                 i: nat, currentKeys: seq<seq<real>>, currentValues: seq<seq<real>>)
    requires m.Valid() && position < m.cfg.sequence && |x| == m.cfg.embedding && i <= m.cfg.layers
    requires |keys| == m.cfg.layers && |values| == m.cfg.layers
    requires CachesSized(m.cfg, keys) && CachesSized(m.cfg, values)
    requires |currentKeys| == m.cfg.layers && |currentValues| == m.cfg.layers
  {
    forall j :: 0 <= j < i ==>
      currentKeys[j] == LayerStep(m, position, x, keys, values, j).keys
      && currentValues[j] == LayerStep(m, position, x, keys, values, j).values
  }

  /** The decoder loop after i layers, over the caches' contents `current`: layers i.. still
      hold their old caches, and once a layer has run (so position < kSequenceSize) h is layer
      i's input and layers ..i - 1 hold the caches `LayerStep` gives. */
  ghost predicate Advanced(m: Model, position: nat, x: seq<real>, keys: seq<seq<real>>, values: seq<seq<real>>,
                           i: nat, h: seq<real>, currentKeys: seq<seq<real>>, currentValues: seq<seq<real>>)
  {
    && m.Valid() && |x| == m.cfg.embedding && i <= m.cfg.layers
    && |keys| == m.cfg.layers && |values| == m.cfg.layers
    && CachesSized(m.cfg, keys) && CachesSized(m.cfg, values)
    && |currentKeys| == m.cfg.layers && |currentValues| == m.cfg.layers
    && LaterKept(m, keys, values, i, currentKeys, currentValues)
    && (i == 0 ==> h == x)
    && (i > 0 ==>
          && position < m.cfg.sequence
          && h == LayerInput(m, position, x, keys, values, i)
          && EarlierStepped(m, position, x, keys, values, i, currentKeys, currentValues))
  }

  /** Running layer i on h with its current caches, and storing the caches it leaves, takes
      the loop from i layers to i + 1. */
  lemma AdvancedStep(m: Model, position: nat, x: seq<real>, keys: seq<seq<real>>, values: seq<seq<real>>,
                     i: nat, h: seq<real>, currentKeys: seq<seq<real>>, currentValues: seq<seq<real>>,
                     out: seq<real>, newKeys: seq<real>, newValues: seq<real>)
    requires Advanced(m, position, x, keys, values, i, h, currentKeys, currentValues)
    requires i < m.cfg.layers && position < m.cfg.sequence
    requires var step := DecoderStep(m, i, position, h, currentKeys[i], currentValues[i]);
      out == step.output && newKeys == step.keys && newValues == step.values
    ensures |out| == m.cfg.embedding
    ensures Advanced(m, position, x, keys, values, i + 1, out, currentKeys[i := newKeys], currentValues[i := newValues])
  {
    if i == 0 {
      assert h == LayerInput(m, position, x, keys, values, 0);
    }
    ProgressStep(m, position, x, keys, values, i, h, out, newKeys, newValues);
    LaterKeptStep(m, keys, values, i, currentKeys, currentValues, newKeys, newValues);
    EarlierSteppedStep(m, position, x, keys, values, i, currentKeys, currentValues, newKeys, newValues);
  }

  lemma LaterKeptStep(m: Model, keys: seq<seq<real>>, values: seq<seq<real>>, i: nat,
                      currentKeys: seq<seq<real>>, currentValues: seq<seq<real>>, newKeys: seq<real>, newValues: seq<real>)
    requires m.Valid() && |keys| == m.cfg.layers && |values| == m.cfg.layers && i < m.cfg.layers
    requires |currentKeys| == m.cfg.layers && |currentValues| == m.cfg.layers
    requires LaterKept(m, keys, values, i, currentKeys, currentValues)
    ensures LaterKept(m, keys, values, i + 1, currentKeys[i := newKeys], currentValues[i := newValues])
  {
  }

  lemma EarlierSteppedStep(m: Model, position: nat, x: seq<real>, keys: seq<seq<real>>, values: seq<seq<real>>,
                           i: nat, currentKeys: seq<seq<real>>, currentValues: seq<seq<real>>, newKeys: seq<real>, newValues: seq<real>)
    requires m.Valid() && position < m.cfg.sequence && |x| == m.cfg.embedding && i < m.cfg.layers
    requires |keys| == m.cfg.layers && |values| == m.cfg.layers
    requires CachesSized(m.cfg, keys) && CachesSized(m.cfg, values)
    requires |currentKeys| == m.cfg.layers && |currentValues| == m.cfg.layers
    requires i > 0 ==> EarlierStepped(m, position, x, keys, values, i, currentKeys, currentValues)
    requires newKeys == LayerStep(m, position, x, keys, values, i).keys
    requires newValues == LayerStep(m, position, x, keys, values, i).values
    ensures EarlierStepped(m, position, x, keys, values, i + 1, currentKeys[i := newKeys], currentValues[i := newValues])
  {
    var (ks, vs) := (currentKeys[i := newKeys], currentValues[i := newValues]);
    forall j | 0 <= j < i + 1
      ensures ks[j] == LayerStep(m, position, x, keys, values, j).keys
      ensures vs[j] == LayerStep(m, position, x, keys, values, j).values
    {
      if j < i {
        assert ks[j] == currentKeys[j] && vs[j] == currentValues[j];
      }
    }
  }

  /** `Transformer` (src/transformer.h:38-50): one decoder per layer, built for that layer, each
      with caches of its own. */
  class Transformer {
    const model: Model
    const decoders: seq<Decoder>

    /** The 2 * kLayersSize cache buffers. */
    ghost function Caches(): set<array<real>> {
      (set i | 0 <= i < |decoders| :: decoders[i].attention.keysCache)
      + (set i | 0 <= i < |decoders| :: decoders[i].attention.valuesCache)
    }

    ghost predicate Valid() {
      && model.Valid() && |decoders| == model.cfg.layers
      && (forall i :: 0 <= i < |decoders| ==>
            decoders[i].Valid() && decoders[i].model == model && decoders[i].layer == i)
      && (forall i, j :: 0 <= i < j < |decoders| ==> Apart(decoders[i], decoders[j]))
    }

    /** The contents of every layer's key cache, and of every value cache. */
    ghost function Keys(): (r: seq<seq<real>>)
      requires Valid()
      reads Caches()
      ensures |r| == |decoders| && CachesSized(model.cfg, r) && forall i :: 0 <= i < |decoders| ==> r[i] == decoders[i].attention.keysCache[..]
    {
      seq(|decoders|, i reads Caches() requires 0 <= i < |decoders| => decoders[i].attention.keysCache[..])
    }

    ghost function Values(): (r: seq<seq<real>>)
      requires Valid()
      reads Caches()
      ensures |r| == |decoders| && CachesSized(model.cfg, r) && forall i :: 0 <= i < |decoders| ==> r[i] == decoders[i].attention.valuesCache[..]
    {
      seq(|decoders|, i reads Caches() requires 0 <= i < |decoders| => decoders[i].attention.valuesCache[..])
    }

    /** ks and vs are the contents of the key and value caches, layer by layer. */
    ghost predicate Holds(ks: seq<seq<real>>, vs: seq<seq<real>>)
      reads Caches()
    {
      && |ks| == |decoders| && |vs| == |decoders|
      && forall j :: 0 <= j < |decoders| ==> LayerHolds(j, ks[j], vs[j])
    }

    /** Layer j's key cache holds k and its value cache v. */
    ghost predicate LayerHolds(j: nat, k: seq<real>, v: seq<real>)
      requires j < |decoders|
      reads decoders[j].attention.keysCache, decoders[j].attention.valuesCache
    {
      decoders[j].attention.keysCache[..] == k && decoders[j].attention.valuesCache[..] == v
    }

    /** The constructor (src/transformer.cc:13-24): decoder i is built for layer i. */
    constructor(model: Model)
      requires model.Valid()
      ensures Valid() && this.model == model && fresh(Caches())
    {
      var built: seq<Decoder> := [];
      for i := 0 to model.cfg.layers
        invariant |built| == i && BuiltFor(model, built)
        invariant forall j :: 0 <= j < i ==>
          fresh(built[j].attention.keysCache) && fresh(built[j].attention.valuesCache)
      {
        var d := new Decoder(model, i);
        forall j | 0 <= j < i
          ensures Apart(built[j], d)
        {
        }
        BuiltForStep(model, built, d);
        built := built + [d];
      }
      this.model := model;
      decoders := built;
    }

    /** One turn of the decoder loop, `x = decoders_[i].Forward(x, position)`: on success
        decoder i's caches hold what `DecoderStep` leaves and every other layer's caches are as
        they were. */
    method ForwardLayer(i: nat, h: seq<real>, position: nat, ghost keys: seq<seq<real>>, ghost values: seq<seq<real>>)
      returns (out: Checked<seq<real>>, ghost newKeys: seq<real>, ghost newValues: seq<real>)
      requires Valid() && i < |decoders| && |h| == model.cfg.embedding && Holds(keys, values)
      modifies decoders[i].attention.keysCache, decoders[i].attention.valuesCache
      ensures out.Abort? <==> position >= model.cfg.sequence
      ensures out.Abort? ==> Holds(keys, values)
      ensures out.Ok? ==>
        var step := DecoderStep(model, i, position, h, keys[i], values[i]);
        && out.value == step.output && newKeys == step.keys && newValues == step.values
        && Holds(keys[i := newKeys], values[i := newValues])
    {
      var d := decoders[i];
      assert d.model == model && d.layer == i;
      OthersApart(i);
      assert d.attention.keysCache[..] == keys[i] && d.attention.valuesCache[..] == values[i];
      out := d.Forward(h, position);
      newKeys, newValues := d.attention.keysCache[..], d.attention.valuesCache[..];
    }

    /** No other layer shares a cache with layer i. */
    lemma OthersApart(i: nat)
      requires Valid() && i < |decoders|
      ensures forall j :: 0 <= j < |decoders| && j != i ==>
        var (p, q) := (decoders[j].attention, decoders[i].attention);
        && p.keysCache != q.keysCache && p.keysCache != q.valuesCache
        && p.valuesCache != q.keysCache && p.valuesCache != q.valuesCache
    {
      forall j | 0 <= j < |decoders| && j != i
        ensures var (p, q) := (decoders[j].attention, decoders[i].attention);
          && p.keysCache != q.keysCache && p.keysCache != q.valuesCache
          && p.valuesCache != q.keysCache && p.valuesCache != q.valuesCache
      {
        if j < i { assert Apart(decoders[j], decoders[i]); } else { assert Apart(decoders[i], decoders[j]); }
      }
    }

    /** `Forward` (src/transformer.cc:26-35).  It aborts with every cache unchanged when
        position >= kSequenceSize (the first decoder's attention fails its bounds check);
        otherwise each layer's caches are those `LayerStep` gives and the result is `Logits`. */
    method Forward(x: seq<real>, position: nat) returns (r: Checked<seq<real>>)
      requires Valid() && |x| == model.cfg.embedding
      modifies Caches()
      ensures r.Abort? <==> position >= model.cfg.sequence
      ensures r.Abort? ==> Keys() == old(Keys()) && Values() == old(Values())
      ensures r.Ok? ==> (
        var (keys, values) := (old(Keys()), old(Values()));
        && position < model.cfg.sequence && CachesSized(model.cfg, keys) && CachesSized(model.cfg, values)
        && r.value == Logits(model, position, x, keys, values)
        && forall layer :: 0 <= layer < model.cfg.layers ==>
             decoders[layer].attention.keysCache[..] == LayerStep(model, position, x, keys, values, layer).keys
             && decoders[layer].attention.valuesCache[..] == LayerStep(model, position, x, keys, values, layer).values)
    {
      ghost var (keys, values) := (Keys(), Values());
      ghost var finalKeys, finalValues;
      var h;
      h, finalKeys, finalValues := RunDecoders(x, position, keys, values);
      if h.Abort? {
        return Abort(h.failed);
      }
      var normed := RMSNormalize(model.kernels, h.value, model.weights.outputNorm);
      var logits := EmbeddingToTokenLogits(model.cfg, model.weights.tokenEmbedding, normed);
      r := Ok(logits);
      assert EarlierStepped(model, position, x, keys, values, model.cfg.layers, finalKeys, finalValues);
    }

    /** The decoder loop (src/transformer.cc:29-30): every layer in turn, each on the output
        of the one before. */
    method RunDecoders(x: seq<real>, position: nat, ghost keys: seq<seq<real>>, ghost values: seq<seq<real>>)
      returns (r: Checked<seq<real>>, ghost finalKeys: seq<seq<real>>, ghost finalValues: seq<seq<real>>)
      requires Valid() && |x| == model.cfg.embedding && Holds(keys, values)
      modifies Caches()
      ensures r.Abort? <==> position >= model.cfg.sequence
      ensures r.Abort? ==> finalKeys == keys && finalValues == values
      ensures Holds(finalKeys, finalValues)
      ensures r.Ok? ==> |r.value| == model.cfg.embedding && CachesSized(model.cfg, keys) && CachesSized(model.cfg, values)
      ensures r.Ok? ==> Advanced(model, position, x, keys, values, |decoders|, r.value, finalKeys, finalValues)
    {
      finalKeys, finalValues := keys, values;
      var h := x;
      for i := 0 to |decoders|
        invariant |h| == model.cfg.embedding
        invariant i == 0 ==> finalKeys == keys && finalValues == values
        invariant Holds(finalKeys, finalValues)
        invariant Advanced(model, position, x, keys, values, i, h, finalKeys, finalValues)
      {
        ghost var newKeys, newValues;
        var out;
        out, newKeys, newValues := ForwardLayer(i, h, position, finalKeys, finalValues);
        if out.Abort? {
          return Abort(out.failed), finalKeys, finalValues;
        }
        AdvancedStep(model, position, x, keys, values, i, h, finalKeys, finalValues, out.value, newKeys, newValues);
        finalKeys, finalValues := finalKeys[i := newKeys], finalValues[i := newValues];
        h := out.value;
      }
      r := Ok(h);
    }
  }

  /** Decoder j of `built` is built for layer j of m, and no two of them share a cache. */
  ghost predicate BuiltFor(m: Model, built: seq<Decoder>) {
    && (forall j :: 0 <= j < |built| ==> built[j].Valid() && built[j].model == m && built[j].layer == j)
    && (forall j, l :: 0 <= j < l < |built| ==> Apart(built[j], built[l]))
  }

  /** Appending the decoder for the next layer, which shares no cache with those before it. */
  lemma BuiltForStep(m: Model, built: seq<Decoder>, d: Decoder)
    requires BuiltFor(m, built) && d.Valid() && d.model == m && d.layer == |built|
    requires forall j :: 0 <= j < |built| ==> Apart(built[j], d)
    ensures BuiltFor(m, built + [d])
  {
    var next := built + [d];
    assert forall j :: 0 <= j < |built| ==> next[j] == built[j];
  }

  /** Two decoders with no cache in common. */
  ghost predicate Apart(a: Decoder, b: Decoder) {
    var (p, q) := (a.attention, b.attention);
    && p.keysCache != q.keysCache && p.valuesCache != q.valuesCache
    && p.keysCache != q.valuesCache && p.valuesCache != q.keysCache
  }
}
