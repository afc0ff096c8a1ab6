/** The SwiGLU feed-forward layer (src/feed_forward.cc, src/feed_forward.h): a gate and an up
    projection of x into kHiddenDim elements, the gate passed through swish, the two multiplied
    element by element and projected back down to kEmbeddingSize. */
module FeedForwardLayer {
  import opened Tensors
  import opened ModelCommon

  /** w1_ (the gate) and w3_ (the up projection), both [kHiddenDim, kEmbeddingSize], and w2_
      (the down projection), [kEmbeddingSize, kHiddenDim]. */
  datatype FfnViews = FfnViews(gate: View, down: View, up: View)

  ghost predicate FfnViewsFit(m: Model, v: FfnViews)
    requires m.Valid()
  {
    var (cfg, w) := (m.cfg, m.weights);
    && v.gate.dims == [cfg.hidden, cfg.embedding] && v.gate.End() <= |w.ffn1|
    && v.down.dims == [cfg.embedding, cfg.hidden] && v.down.End() <= |w.ffn2|
    && v.up.dims == [cfg.hidden, cfg.embedding] && v.up.End() <= |w.ffn3|
  }

  lemma Regroup3(a: nat, b: nat, c: nat)
    ensures a * b * c == a * (b * c)
  {
  }

  /** The `FeedForward` constructor (src/feed_forward.cc:33-36): each view starts
      layer * kHiddenDim * kEmbeddingSize elements into its table, and the bounds checks pass
      exactly when layer < kLayersSize. */
  function FfnViewsOf(m: Model, layer: nat): (r: Checked<FfnViews>)
    requires m.Valid()
    ensures r.Ok? <==> layer < m.cfg.layers
    ensures r.Ok? ==> FfnViewsFit(m, r.value)
    ensures r.Ok? ==> var (e, h) := (m.cfg.embedding, m.cfg.hidden);
      && r.value.gate.offset == layer * h * e && r.value.down.offset == layer * e * h
      && r.value.up.offset == layer * h * e
  {
    var (cfg, w) := (m.cfg, m.weights);
    var (e, h, l) := (cfg.embedding, cfg.hidden, cfg.layers);
    StorageSizeTwo(h, e);
    StorageSizeTwo(e, h);
    Regroup3(l, h, e);
    Regroup3(l, e, h);
    Regroup3(layer, h, e);
    Regroup3(layer, e, h);
    var gate := LayerView(|w.ffn1|, l, layer, [h, e]);
    var down := LayerView(|w.ffn2|, l, layer, [e, h]);
    var up := LayerView(|w.ffn3|, l, layer, [h, e]);
    // The three views share one bounds condition: the first abort is w1_'s.
    if gate.Abort? then Abort(gate.failed)
    else Ok(FfnViews(gate.value, down.value, up.value))
  }

  /** swish(v) = v / (1 + exp(-v)), the body of the `Swish` loop (src/feed_forward.cc:25-29). */
  function Swished(k: Kernels, v: real): real
    requires k.Valid()
  {
    assert 1.0 + k.exp(-v) > 1.0;
    v / (1.0 + k.exp(-v))
  }

  /** Swish keeps the sign of its argument and pulls it towards 0: a positive v maps into
      (0, v), a negative v into (v, 0), and 0 to itself. */
  lemma SwishShrinks(k: Kernels, v: real)
    requires k.Valid()
    ensures v > 0.0 ==> 0.0 < Swished(k, v) < v
    ensures v < 0.0 ==> v < Swished(k, v) < 0.0
    ensures v == 0.0 ==> Swished(k, v) == 0.0
  {
    var q := 1.0 + k.exp(-v);
    assert q > 1.0;
    QuotientShrinks(v, q);
  }

  lemma QuotientShrinks(v: real, q: real)
    requires q > 1.0
    ensures v > 0.0 ==> 0.0 < v / q < v
    ensures v < 0.0 ==> v < v / q < 0.0
  {
    var t := v / q;
    assert t * q == v;
    assert v - t == t * (q - 1.0);
    if v > 0.0 {
      assert t > 0.0;
      ProductSign(t, q - 1.0);
    } else if v < 0.0 {
      assert t < 0.0;
      ProductSign(-t, q - 1.0);
      assert (-(-t)) * (q - 1.0) == t * (q - 1.0);
      assert v - t < 0.0;
    }
  }

  lemma ProductSign(a: real, b: real)
    requires a > 0.0 && b > 0.0
    ensures a * b > 0.0 && (-a) * b < 0.0
  {
  }

  /** Swish of every element. */
  function Swish(k: Kernels, s: seq<real>): (r: seq<real>)
    requires k.Valid()
    ensures |r| == |s|
  {
    seq(|s|, i requires 0 <= i < |s| => Swished(k, s[i]))
  }

  /** Swish is elementwise: inputs that agree at i give outputs that agree at i. */
  lemma SwishIsElementwise(k: Kernels, s: seq<real>, t: seq<real>, i: nat)
    requires k.Valid() && i < |s| && i < |t| && s[i] == t[i]
    ensures Swish(k, s)[i] == Swish(k, t)[i]
  {
  }

  /** `Swish(&gate)`: the range loop rewrites every element of the buffer in place. */
  method SwishInPlace(k: Kernels, x: array<real>)
    requires k.Valid()
    modifies x
    ensures x[..] == Swish(k, old(x[..]))
  {
    ghost var before := x[..];
    for i := 0 to x.Length
      invariant forall j :: 0 <= j < i ==> x[j] == Swished(k, before[j])
      invariant forall j :: i <= j < x.Length ==> x[j] == before[j]
    {
      x[i] := x[i] / (1.0 + k.exp(-x[i]));
    }
  }

  /** Elementwise product. */
  function Product(a: seq<real>, b: seq<real>): (r: seq<real>)
    requires |a| == |b|
    ensures |r| == |a|
  {
    seq(|a|, i requires 0 <= i < |a| => a[i] * b[i])
  }

  /** The loop `h[i] *= gate[i]` (src/feed_forward.cc:46-47). */
  method MultiplyInPlace(h: array<real>, gate: seq<real>)
    requires h.Length == |gate|
    modifies h
    ensures h[..] == Product(old(h[..]), gate)
  {
    ghost var before := h[..];
    for i := 0 to h.Length
      invariant forall j :: 0 <= j < i ==> h[j] == before[j] * gate[j]
      invariant forall j :: i <= j < h.Length ==> h[j] == before[j]
    {
      h[i] := h[i] * gate[i];
    }
    assert forall j :: 0 <= j < h.Length ==> h[..][j] == Product(before, gate)[j];
  }

  /** The hidden state: (w3_ · x)[i] * swish((w1_ · x)[i]) for every i < kHiddenDim. */
  function Hidden(m: Model, v: FfnViews, x: seq<real>): (r: seq<real>)
    requires m.Valid() && FfnViewsFit(m, v) && |x| == m.cfg.embedding
    ensures |r| == m.cfg.hidden
  {
    Product(MatVec(m.weights.ffn3, v.up, x), Swish(m.kernels, MatVec(m.weights.ffn1, v.gate, x)))
  }

  /** What `Forward` returns: w2_ times the hidden state. */
  function FfnOutput(m: Model, v: FfnViews, x: seq<real>): (r: seq<real>)
    requires m.Valid() && FfnViewsFit(m, v) && |x| == m.cfg.embedding
    ensures |r| == m.cfg.embedding
  {
    MatVec(m.weights.ffn2, v.down, Hidden(m, v, x))
  }

  /** A hidden unit whose gate projection is 0 is switched off, whatever the up projection. */
  lemma ClosedGateSilencesUnit(m: Model, v: FfnViews, x: seq<real>, i: nat)
    requires m.Valid() && FfnViewsFit(m, v) && |x| == m.cfg.embedding && i < m.cfg.hidden
    requires MatVec(m.weights.ffn1, v.gate, x)[i] == 0.0
    ensures Hidden(m, v, x)[i] == 0.0
  {
    SwishShrinks(m.kernels, 0.0);
  }

  /** The dot product with a zero vector is 0. */
  lemma {:induction false} DotZero(a: seq<real>, z: seq<real>)
    requires |a| == |z| && forall i :: 0 <= i < |z| ==> z[i] == 0.0
    ensures Dot(a, z) == 0.0
    decreases |a|
  {
    if |a| > 0 {
      DotZero(a[..|a| - 1], z[..|a| - 1]);
    }
  }

  /** A zero input has a zero output: both projections are 0, swish(0) = 0, and so is the
      down projection of the zero hidden state. */
  lemma ZeroInputZeroOutput(m: Model, v: FfnViews, x: seq<real>)
    requires m.Valid() && FfnViewsFit(m, v) && |x| == m.cfg.embedding
    requires forall i :: 0 <= i < |x| ==> x[i] == 0.0
    ensures forall i :: 0 <= i < m.cfg.embedding ==> FfnOutput(m, v, x)[i] == 0.0
  {
    var h := Hidden(m, v, x);
    forall i | 0 <= i < m.cfg.hidden ensures h[i] == 0.0 {
      DotZero(MatrixRow(m.weights.ffn1, v.gate, i), x);
      ClosedGateSilencesUnit(m, v, x, i);
    }
    forall i | 0 <= i < m.cfg.embedding ensures FfnOutput(m, v, x)[i] == 0.0 {
      DotZero(MatrixRow(m.weights.ffn2, v.down, i), h);
    }
  }

  /** `FeedForward` (src/feed_forward.h:4-17): the three weight views of one layer. */
  class FeedForward {
    const model: Model
    const layer: nat
    const views: FfnViews

    ghost predicate Valid() {
      model.Valid() && layer < model.cfg.layers && FfnViewsOf(model, layer) == Ok(views)
    }

    constructor(model: Model, layer: nat)
      requires model.Valid() && layer < model.cfg.layers
      ensures Valid() && this.model == model && this.layer == layer
    {
      this.model := model;
      this.layer := layer;
      views := FfnViewsOf(model, layer).value;
    }

    /** `Forward` (src/feed_forward.cc:38-50), a const method: nothing of the layer changes. */
    method Forward(x: seq<real>) returns (r: seq<real>)
      requires Valid() && |x| == model.cfg.embedding
      ensures r == FfnOutput(model, views, x)
    {
      var w := model.weights;
      var gate := MatrixProductBuffer(w.ffn1, views.gate, x);
      SwishInPlace(model.kernels, gate);
      var h := MatrixProductBuffer(w.ffn3, views.up, x);
      MultiplyInPlace(h, gate[..]);
      r := MatrixProduct(w.ffn2, views.down, h[..]);
    }
  }
}
