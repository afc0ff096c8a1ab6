/** The definitions every layer shares (src/model_common.h and the generated model_config.h):
    the seven model sizes, the weight tables, the floating-point kernels the layers call, RMS
    normalisation and softmax.  Numbers are exact reals; sqrt, exp, pow, cos and sin are not
    computed here but supplied as a `Kernels` value, of which only the facts the layers rely
    on are assumed. */
module ModelCommon {
  import opened Tensors

  /** The seven sizes of model_config.h. */
  datatype Config = Config(embedding: nat, hidden: nat, layers: nat, heads: nat, kvHeads: nat,
                           tokens: nat, sequence: nat)
  {
    /** kHeadDimension = kEmbeddingSize / kHeadsSize (src/model_common.h:15-16). */
    function HeadDimension(): nat
      requires heads > 0
    {
      embedding / heads
    }

    /** Query heads per key/value head: kHeadsSize / kKVHeadsSize. */
    function Group(): nat
      requires kvHeads > 0
    {
      heads / kvHeads
    }

    /** Width of one cache row: kKVHeadsSize * kHeadDimension. */
    function KVDimension(): nat
      requires heads > 0
    {
      kvHeads * HeadDimension()
    }

    /** The shape facts the source's templates and static_asserts impose (src/model_common.h:15-16,
        src/self_attention.cc:40, 67, 72): every size is positive, the heads split the embedding
        exactly, the key/value heads divide the query heads, and the head dimension is even (RoPE
        works on pairs). */
    predicate SourceConditions() {
      && embedding > 0 && hidden > 0 && layers > 0 && heads > 0 && kvHeads > 0
      && tokens > 0 && sequence > 0
      && embedding % heads == 0
      && heads % kvHeads == 0
      && HeadDimension() % 2 == 0
    }

    /** The source's conditions together with the products they imply, spelled out once
        (`ValidIsSourceConditions` shows the two agree). */
    predicate Valid() {
      && SourceConditions()
      && HeadDimension() > 0 && Group() > 0
      && heads * HeadDimension() == embedding
      && kvHeads * Group() == heads
      && 0 < KVDimension() <= embedding
    }
  }

  /** The products in `Valid` follow from the source's divisibility conditions. */
  lemma ValidIsSourceConditions(cfg: Config)
    ensures cfg.Valid() <==> cfg.SourceConditions()
  {
    if cfg.SourceConditions() {
      var d := cfg.HeadDimension();
      assert cfg.embedding == cfg.heads * d + cfg.embedding % cfg.heads;
      assert cfg.heads == cfg.kvHeads * cfg.Group() + cfg.heads % cfg.kvHeads;
      MulStep(cfg.kvHeads, cfg.Group());
      assert cfg.heads * d - cfg.kvHeads * d == d * (cfg.heads - cfg.kvHeads);
      MulStep(d, cfg.heads - cfg.kvHeads);
    }
  }

  /** The weight tables, flat, with the element counts of their declarations. */
  datatype Weights = Weights(tokenEmbedding: seq<real>, attentionNorm: seq<real>,
                             query: seq<real>, key: seq<real>, value: seq<real>,
                             output: seq<real>, ffnNorm: seq<real>,
                             ffn1: seq<real>, ffn2: seq<real>, ffn3: seq<real>,
                             outputNorm: seq<real>)
  {
    predicate Valid(cfg: Config)
      requires cfg.Valid()
    {
      var (e, l, d) := (cfg.embedding, cfg.layers, cfg.HeadDimension());
      && |tokenEmbedding| == cfg.tokens * e
      && |attentionNorm| == l * e
      && |query| == l * e * cfg.heads * d
      && |key| == l * e * cfg.kvHeads * d
      && |value| == l * e * cfg.kvHeads * d
      && |output| == l * e * e
      && |ffnNorm| == l * e
      && |ffn1| == l * cfg.hidden * e
      && |ffn2| == l * e * cfg.hidden
      && |ffn3| == l * cfg.hidden * e
      && |outputNorm| == e
    }
  }

  /** The floating-point library functions the layers call: std::sqrt, std::exp, std::pow,
      std::cos and std::sin (through std::polar), and the multiplication of std::complex values.
      `Valid` is everything the layers rely on: sqrt is positive on positive arguments, exp is
      positive, and (cos t, sin t) is a point of the unit circle with angle 0 at (1, 0). */
  datatype Kernels = Kernels(sqrt: real -> real, exp: real -> real, pow: (real, real) -> real,
                             cos: real -> real, sin: real -> real,
                             complexMultiply: (real, real, real, real) -> (real, real))
  {
    ghost predicate Valid() {
      && (forall v :: v > 0.0 ==> sqrt(v) > 0.0)
      && (forall v :: exp(v) > 0.0)
      && cos(0.0) == 1.0 && sin(0.0) == 0.0
      && (forall t :: cos(t) * cos(t) + sin(t) * sin(t) == 1.0)
    }

    /** complexMultiply(a, b, c, d) is the product (a + bi)(c + di), as its (re, im) pair. */
    ghost predicate MultipliesComplex() {
      forall a: real, b: real, c: real, d: real ::
        complexMultiply(a, b, c, d).0 == a * c - b * d && complexMultiply(a, b, c, d).1 == a * d + b * c
    }
  }

  /** Everything a layer is built from: the sizes, the floating-point library and the weights. */
  datatype Model = Model(cfg: Config, kernels: Kernels, weights: Weights)
  {
    ghost predicate Valid() {
      cfg.Valid() && kernels.Valid() && weights.Valid(cfg)
    }
  }

  // ----- per-layer slices of the weight tables -----

  /** The view of layer `layer` in a table that holds `layers` consecutive blocks of shape
      `dims`, built by the bounds-checked constructor at offset layer * storage_size. */
  function LayerView(tableSize: nat, layers: nat, layer: nat, dims: Shape): (r: Checked<View>)
    requires tableSize == layers * StorageSize(dims)
    ensures r.Ok? <==> layer < layers
    ensures r.Ok? ==> r.value == View(layer * StorageSize(dims), dims) && r.value.End() <= tableSize
  {
    StorageSizePositive(dims);
    RowFits(layer, layers, StorageSize(dims));
    ViewOf(tableSize, layer * StorageSize(dims), dims)
  }

  lemma Regroup4(a: nat, b: nat, c: nat, d: nat)
    ensures a * b * c * d == a * (b * (c * d))
  {
  }

  /** Σ s[i], accumulated from index 0 upwards. */
  function Sum(s: seq<real>): real
    decreases |s|
  {
    if |s| == 0 then 0.0 else Sum(s[..|s| - 1]) + s[|s| - 1]
  }

  lemma {:induction false} SumPositive(s: seq<real>)
    requires |s| > 0 && forall i :: 0 <= i < |s| ==> s[i] > 0.0
    ensures Sum(s) > 0.0
    decreases |s|
  {
    if |s| > 1 {
      SumPositive(s[..|s| - 1]);
    } else {
      assert s[..0] == [];
    }
  }

  lemma {:induction false} SumScaled(s: seq<real>, t: seq<real>, c: real)
    requires |s| == |t| && c != 0.0 && forall i :: 0 <= i < |s| ==> t[i] == s[i] / c
    ensures Sum(t) == Sum(s) / c
    decreases |s|
  {
    if |s| > 0 {
      SumScaled(s[..|s| - 1], t[..|t| - 1], c);
    }
  }

  /** Σ x[i]^2 is never negative. */
  lemma {:induction false} SquaresNonnegative(x: seq<real>)
    ensures Dot(x, x) >= 0.0
    decreases |x|
  {
    if |x| > 0 {
      SquaresNonnegative(x[..|x| - 1]);
    }
  }

  /** The root mean square that RMSNormalize divides by: sqrt(Σ x[i]^2 / N + 1e-5). */
  function Rms(k: Kernels, x: seq<real>): (r: real)
    requires k.Valid() && |x| > 0
    ensures r > 0.0
  {
    SquaresNonnegative(x);
    k.sqrt(Dot(x, x) / (|x| as real) + 0.00001)
  }

  /** `RMSNormalize` (src/model_common.h:20-31): every element scaled by its weight and divided
      by the root mean square of x, which the 1e-5 term keeps away from zero. */
  function RMSNormalize(k: Kernels, x: seq<real>, weights: seq<real>): (r: seq<real>)
    requires k.Valid() && |x| == |weights| && |x| > 0
    ensures |r| == |x|
  {
    seq(|x|, i requires 0 <= i < |x| => weights[i] * x[i] / Rms(k, x))
  }

  /** The value `std::max_element` finds: the largest element. */
  function Max(s: seq<real>): (m: real)
    requires |s| > 0
    ensures m in s && forall i :: 0 <= i < |s| ==> s[i] <= m
    decreases |s|
  {
    if |s| == 1 then s[0]
    else
      var m := Max(s[..|s| - 1]);
      assert forall i :: 0 <= i < |s| - 1 ==> s[..|s| - 1][i] == s[i];
      if m < s[|s| - 1] then s[|s| - 1] else m
  }

  /** exp(s[i] - max) for every element. */
  function Exponentials(k: Kernels, s: seq<real>): (r: seq<real>)
    requires k.Valid() && |s| > 0
    ensures |r| == |s| && forall i :: 0 <= i < |s| ==> r[i] > 0.0
  {
    seq(|s|, i requires 0 <= i < |s| => k.exp(s[i] - Max(s)))
  }

  /** `Softmax` (src/model_common.h:33-46): subtract the maximum, exponentiate, divide by the
      sum of the exponentials. */
  function Softmax(k: Kernels, s: seq<real>): (r: seq<real>)
    requires k.Valid() && |s| > 0
    ensures |r| == |s|
  {
    var e := Exponentials(k, s);
    SumPositive(e);
    seq(|s|, i requires 0 <= i < |s| => e[i] / Sum(e))
  }

  /** Softmax yields a probability distribution: every weight is positive and they sum to 1. */
  lemma SoftmaxIsDistribution(k: Kernels, s: seq<real>)
    requires k.Valid() && |s| > 0
    ensures forall i :: 0 <= i < |s| ==> Softmax(k, s)[i] > 0.0
    ensures Sum(Softmax(k, s)) == 1.0
  {
    var e := Exponentials(k, s);
    SumPositive(e);
    SumScaled(e, Softmax(k, s), Sum(e));
  }

  /** A single score gets the whole weight. */
  lemma SoftmaxSingleton(k: Kernels, v: real)
    requires k.Valid()
    ensures Softmax(k, [v]) == [1.0]
  {
    var e := Exponentials(k, [v]);
    assert e[..0] == [];
    assert Sum(e) == e[0];
    var r := Softmax(k, [v]);
    assert r[0] == e[0] / Sum(e) == 1.0;
    assert r == [1.0];
  }

  /** Elementwise sum of two vectors of the same length (a residual connection). */
  function Add(a: seq<real>, b: seq<real>): (r: seq<real>)
    requires |a| == |b|
    ensures |r| == |a|
  {
    seq(|a|, i requires 0 <= i < |a| => a[i] + b[i])
  }
}
