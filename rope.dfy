/** Rotary position embedding (`ApplyRotaryEmbeddings`, src/self_attention.cc:38-49): an even-length
    window is read as consecutive complex numbers (x[i], x[i+1]), and each is multiplied in place
    by the unit complex number of angle position * 10000^(-i / kHeadDimension). */
module Rope {
  import opened Tensors
  import opened ModelCommon

  /** The angle pair i is turned by at `position`. */
  function Angle(k: Kernels, headDimension: nat, position: nat, i: nat): real
    requires headDimension > 0
  {
    (position as real) * k.pow(10000.0, -1.0 * (i as real) / (headDimension as real))
  }

  /** std::polar(1, angle): the unit complex number of that angle. */
  function Polar(k: Kernels, angle: real): (real, real)
  {
    (k.cos(angle), k.sin(angle))
  }

  /** The complex number (a, b) multiplied by polar(1, angle). */
  function Turn(k: Kernels, angle: real, a: real, b: real): (real, real)
  {
    var w := Polar(k, angle);
    k.complexMultiply(a, b, w.0, w.1)
  }

  /** The window RoPE leaves behind when it held s: pair by pair, the pair (i, i+1) is turned
      by the angle of i.  Windows have even length (a static_assert in the source); a single
      trailing element, which no caller can produce, would be kept. */
  function Rotated(k: Kernels, headDimension: nat, position: nat, s: seq<real>): (r: seq<real>)
    requires headDimension > 0
    ensures |r| == |s|
    decreases |s|
  {
    if |s| < 2 then s
    else
      var i := |s| - 2;
      var turned := Turn(k, Angle(k, headDimension, position, i), s[i], s[i + 1]);
      Rotated(k, headDimension, position, s[..i]) + [turned.0, turned.1]
  }

  /** RoPE works pair by pair: elements 2p and 2p+1 of the result are the pair (s[2p], s[2p+1])
      turned by the angle of 2p, and depend on nothing else. */
  lemma {:induction false} RotatedPair(k: Kernels, headDimension: nat, position: nat, s: seq<real>, p: nat)
    requires headDimension > 0 && |s| % 2 == 0 && 2 * p + 1 < |s|
    ensures var turned := Turn(k, Angle(k, headDimension, position, 2 * p), s[2 * p], s[2 * p + 1]);
            Rotated(k, headDimension, position, s)[2 * p] == turned.0
            && Rotated(k, headDimension, position, s)[2 * p + 1] == turned.1
    decreases |s|
  {
    var i := |s| - 2;
    if 2 * p < i {
      RotatedPair(k, headDimension, position, s[..i], p);
    }
  }

  /** At position 0 every angle is 0, and RoPE leaves its input unchanged. */
  lemma {:induction false} RotatedAtPositionZero(k: Kernels, headDimension: nat, s: seq<real>)
    requires k.Valid() && k.MultipliesComplex() && headDimension > 0
    ensures Rotated(k, headDimension, 0, s) == s
    decreases |s|
  {
    if |s| >= 2 {
      var i := |s| - 2;
      assert Angle(k, headDimension, 0, i) == 0.0;
      RotatedAtPositionZero(k, headDimension, s[..i]);
      assert s == s[..i] + [s[i], s[i + 1]];
    }
  }

  /** The squared length a^2 + b^2 of the complex number (a, b). */
  function SquaredLength(a: real, b: real): real
  {
    a * a + b * b
  }

  /** RoPE is a rotation: each pair keeps its squared length. */
  lemma RotationKeepsPairLength(k: Kernels, headDimension: nat, position: nat, s: seq<real>, p: nat)
    requires k.Valid() && k.MultipliesComplex() && headDimension > 0 && |s| % 2 == 0 && 2 * p + 1 < |s|
    ensures var r := Rotated(k, headDimension, position, s);
      SquaredLength(r[2 * p], r[2 * p + 1]) == SquaredLength(s[2 * p], s[2 * p + 1])
  {
    RotatedPair(k, headDimension, position, s, p);
    UnitLength(k, Angle(k, headDimension, position, 2 * p), s[2 * p], s[2 * p + 1]);
  }

  /** Turning (a, b) by a unit complex number keeps its squared length. */
  lemma UnitLength(k: Kernels, phi: real, a: real, b: real)
    requires k.Valid() && k.MultipliesComplex()
    ensures var t := Turn(k, phi, a, b); SquaredLength(t.0, t.1) == SquaredLength(a, b)
  {
    var c, d := k.cos(phi), k.sin(phi);
    var t := Turn(k, phi, a, b);
    assert t.0 == a * c - b * d && t.1 == a * d + b * c;
    assert c * c + d * d == 1.0;
    UnitTurn(a, b, c, d, t);
  }

  /** Multiplying by a complex number of length one keeps the squared length. */
  lemma UnitTurn(a: real, b: real, c: real, d: real, t: (real, real))
    requires c * c + d * d == 1.0 && t.0 == a * c - b * d && t.1 == a * d + b * c
    ensures t.0 * t.0 + t.1 * t.1 == a * a + b * b
  {
    PairLength(a, b, c, d);
    ScaleByOne(a * a + b * b, c * c + d * d);
  }

  /** |(a + bi)(c + di)|^2 = (a^2 + b^2)(c^2 + d^2). */
  lemma PairLength(a: real, b: real, c: real, d: real)
    ensures (a * c - b * d) * (a * c - b * d) + (a * d + b * c) * (a * d + b * c)
         == (a * a + b * b) * (c * c + d * d)
  {
  }

  lemma ScaleByOne(x: real, u: real)
    requires u == 1.0
    ensures x * u == x
  {
  }

  /** The length-D windows of n consecutive heads, each rotated on its own. */
  function RotateHeads(k: Kernels, headDimension: nat, position: nat, s: seq<real>, n: nat): (r: seq<real>)
    requires headDimension > 0 && |s| == n * headDimension
    ensures |r| == |s|
    decreases n
  {
    if n == 0 then []
    else
      var front := (n - 1) * headDimension;
      MulPred(n, headDimension);
      assert |s[front..]| == headDimension;
      RotateHeads(k, headDimension, position, s[..front], n - 1)
        + Rotated(k, headDimension, position, s[front..])
  }

  /** Rotating the first i+1 heads is rotating the first i and then head i, which starts at
      start = i * D. */
  lemma RotateHeadsStep(k: Kernels, headDimension: nat, position: nat, s: seq<real>, i: nat, start: nat)
    requires headDimension > 0 && start == i * headDimension && start + headDimension <= |s|
    ensures (i + 1) * headDimension == start + headDimension
    ensures RotateHeads(k, headDimension, position, s[..start + headDimension], i + 1)
         == RotateHeads(k, headDimension, position, s[..start], i)
            + Rotated(k, headDimension, position, s[start .. start + headDimension])
  {
    var d := headDimension;
    MulPred(i + 1, d);
    var t := s[..start + d];
    assert t[..start] == s[..start];
    assert t[start..] == s[start .. start + d];
  }

  /** At position 0 rotating every head leaves the heads unchanged. */
  lemma {:induction false} RotateHeadsAtPositionZero(k: Kernels, headDimension: nat, s: seq<real>, n: nat)
    requires k.Valid() && k.MultipliesComplex() && headDimension > 0 && |s| == n * headDimension
    ensures RotateHeads(k, headDimension, 0, s, n) == s
    decreases n
  {
    if n > 0 {
      var front := (n - 1) * headDimension;
      MulPred(n, headDimension);
      RotateHeadsAtPositionZero(k, headDimension, s[..front], n - 1);
      RotatedAtPositionZero(k, headDimension, s[front..]);
      assert s[..front] + s[front..] == s;
    }
  }

  /** `ApplyRotaryEmbeddings`: the loop turns the pairs (i, i+1), i = 0, 2, 4, ..., of the
      rank-one `window` of x in place; the window ends up rotated and nothing outside it changes. */
  method ApplyRotaryEmbeddings(k: Kernels, headDimension: nat, position: nat, x: array<real>, window: View)
    requires headDimension > 0
    requires window.Rank() == 1 && window.dims[0] % 2 == 0 && window.End() <= x.Length
    modifies x
    ensures x[..] == Overwrite(old(x[..]), window.offset,
                               Rotated(k, headDimension, position, old(x[..])[window.offset..window.End()]))
  {
    var n := window.dims[0];
    var o := window.offset;
    assert window.End() == o + n;
    ghost var front, s, back := x[..o], x[o..o + n], x[o + n..];
    assert x[..] == front + [] + s + back;
    ghost var pairs := n / 2;
    assert n == 2 * pairs;
    var i := 0;
    ghost var p := 0;
    while i < n
      invariant 0 <= p <= pairs && i == 2 * p
      invariant PairsRotated(k, headDimension, position, x[..], front, s, back, i)
    {
      assert p < pairs;
      TurnPair(k, headDimension, position, x, o, i, front, s, back);
      i := i + 2;
      p := p + 1;
    }
    assert i == n && s[..n] == s && s[n..] == [];
    assert old(x[..])[o..o + n] == s && old(x[..])[..o] == front && old(x[..])[o + n..] == back;
    assert x[..] == front + Rotated(k, headDimension, position, s) + back;
  }

  /** The state of the RoPE loop at i: the first i elements of the window s, between `front` and
      `back`, are turned pair by pair and the rest are untouched. */
  ghost predicate PairsRotated(k: Kernels, headDimension: nat, position: nat, x: seq<real>,
                               front: seq<real>, s: seq<real>, back: seq<real>, i: nat)
    requires headDimension > 0
  {
    i <= |s| && x == front + Rotated(k, headDimension, position, s[..i]) + s[i..] + back
  }

  /** One pass of the RoPE loop: the pair at o + i is turned by the angle of i. */
  method TurnPair(k: Kernels, headDimension: nat, position: nat, x: array<real>, o: nat, i: nat,
                  ghost front: seq<real>, ghost s: seq<real>, ghost back: seq<real>)
    requires headDimension > 0 && |front| == o && i + 2 <= |s|
    requires PairsRotated(k, headDimension, position, x[..], front, s, back, i)
    modifies x
    ensures PairsRotated(k, headDimension, position, x[..], front, s, back, i + 2)
  {
    ghost var done, rest := Rotated(k, headDimension, position, s[..i]), s[i..];
    WritePair(front, done, rest, back, 0.0, 0.0);
    var a, b := x[o + i], x[o + i + 1];
    var rotated := Turn(k, Angle(k, headDimension, position, i), a, b);
    ghost var before := x[..];
    x[o + i] := rotated.0;
    x[o + i + 1] := rotated.1;
    assert x[..] == before[o + i := rotated.0][o + i + 1 := rotated.1];
    WritePair(front, done, rest, back, rotated.0, rotated.1);
    RotatedStep(k, headDimension, position, s, i);
    assert rest[2..] == s[i + 2..];
  }

  /** Turning the first i+2 elements is turning the first i and then the pair (i, i+1). */
  lemma RotatedStep(k: Kernels, headDimension: nat, position: nat, s: seq<real>, i: nat)
    requires headDimension > 0 && i + 2 <= |s|
    ensures var t := Turn(k, Angle(k, headDimension, position, i), s[i], s[i + 1]);
      Rotated(k, headDimension, position, s[..i + 2]) == Rotated(k, headDimension, position, s[..i]) + [t.0, t.1]
  {
    assert s[..i + 2][..i] == s[..i];
  }

  /** The state of the loop over heads after i heads: the first `start` = i*D elements of the
      heads s, between `front` and `back`, are rotated head by head and the rest are untouched. */
  ghost predicate HeadsRotated(k: Kernels, headDimension: nat, position: nat, x: seq<real>,
                               front: seq<real>, s: seq<real>, back: seq<real>, i: nat, start: nat)
    requires headDimension > 0
  {
    && start == i * headDimension && start <= |s|
    && x == front + RotateHeads(k, headDimension, position, s[..start], i) + s[start..] + back
  }

  /** RoPE applied to each head of the rank-two view `heads` ([n, D]) in turn, as the loops over
      xq[i] and xk[position][i] do (src/self_attention.cc:88-95). */
  method RotateEachHead(k: Kernels, headDimension: nat, position: nat, x: array<real>, heads: View)
    requires headDimension > 0 && headDimension % 2 == 0
    requires heads.Rank() == 2 && heads.dims[1] == headDimension && heads.End() <= x.Length
    modifies x
    ensures heads.Size() == heads.dims[0] * headDimension
    ensures x[..] == Overwrite(old(x[..]), heads.offset,
                               RotateHeads(k, headDimension, position, old(x[..])[heads.offset..heads.End()], heads.dims[0]))
  {
    var n, d, o := heads.dims[0], headDimension, heads.offset;
    ghost var size := HeadsSize(heads, d);
    ghost var xs := x[..];
    HeadsRotatedAtStart(k, d, position, xs, o, size);
    RotateAllHeads(k, d, position, x, heads, xs[..o], xs[o..o + size], xs[o + size..]);
    HeadsRotatedAtEnd(k, d, position, x[..], xs, o, n);
  }

  /** The loop over the heads of `heads`, from none rotated to all rotated. */
  method RotateAllHeads(k: Kernels, headDimension: nat, position: nat, x: array<real>, heads: View,
                        ghost front: seq<real>, ghost s: seq<real>, ghost back: seq<real>)
    requires headDimension > 0 && headDimension % 2 == 0
    requires heads.Rank() == 2 && heads.dims[1] == headDimension
    requires |s| == heads.dims[0] * headDimension && heads.offset == |front|
    requires HeadsRotated(k, headDimension, position, x[..], front, s, back, 0, 0)
    modifies x
    ensures HeadsRotated(k, headDimension, position, x[..], front, s, back, heads.dims[0], |s|)
  {
    var i, start := 0, 0;
    while i < heads.dims[0]
      invariant i <= heads.dims[0] && HeadsRotated(k, headDimension, position, x[..], front, s, back, i, start)
    {
      RotateNextHead(k, headDimension, position, x, heads, i, start, front, s, back);
      i, start := i + 1, start + headDimension;
    }
  }

  /** The number of elements of an [n, D] view of heads. */
  lemma HeadsSize(heads: View, d: nat) returns (size: nat)
    requires heads.Rank() == 2 && heads.dims[1] == d
    ensures size == heads.dims[0] * d == heads.Size() && heads.End() == heads.offset + size
  {
    assert heads.dims == [heads.dims[0], d];
    StorageSizeTwo(heads.dims[0], d);
    size := heads.dims[0] * d;
  }

  /** Before the loop over heads no head is rotated. */
  lemma HeadsRotatedAtStart(k: Kernels, headDimension: nat, position: nat, xs: seq<real>, o: nat, size: nat)
    requires headDimension > 0 && o + size <= |xs|
    ensures HeadsRotated(k, headDimension, position, xs, xs[..o], xs[o..o + size], xs[o + size..], 0, 0)
  {
    var s := xs[o..o + size];
    assert s[..0] == [] && s[0..] == s;
    assert xs == xs[..o] + s + xs[o + size..];
  }

  /** After the loop over all n heads the window holds the rotated heads. */
  lemma HeadsRotatedAtEnd(k: Kernels, headDimension: nat, position: nat, x: seq<real>, xs: seq<real>, o: nat, n: nat)
    requires headDimension > 0 && o + n * headDimension <= |xs|
    requires HeadsRotated(k, headDimension, position, x, xs[..o], xs[o..o + n * headDimension],
                          xs[o + n * headDimension..], n, n * headDimension)
    ensures x == Overwrite(xs, o, RotateHeads(k, headDimension, position, xs[o..o + n * headDimension], n))
  {
    var s := xs[o..o + n * headDimension];
    assert s[..n * headDimension] == s && s[n * headDimension..] == [];
  }

  /** One pass of the loop over heads: head i, which starts `start` = i*D elements into the
      heads, is rotated in place. */
  method RotateNextHead(k: Kernels, headDimension: nat, position: nat, x: array<real>, heads: View,
                        i: nat, ghost start: nat, ghost front: seq<real>, ghost s: seq<real>, ghost back: seq<real>)
    requires headDimension > 0 && headDimension % 2 == 0
    requires heads.Rank() == 2 && heads.dims[1] == headDimension && i < heads.dims[0]
    requires |s| == heads.dims[0] * headDimension && heads.offset == |front|
    requires HeadsRotated(k, headDimension, position, x[..], front, s, back, i, start)
    modifies x
    ensures HeadsRotated(k, headDimension, position, x[..], front, s, back, i + 1, start + headDimension)
  {
    var d := headDimension;
    RowInBounds(i, heads.dims[0], d);
    RotateHeadsStep(k, d, position, s, i, start);
    MatrixRowView(heads, i);
    var each := Row(heads, i).value;
    RotateHead(k, d, position, x, each, front, RotateHeads(k, d, position, s[..start], i), s[start..], back);
    assert s[start..][..d] == s[start .. start + d] && s[start..][d..] == s[start + d..];
  }

  /** One head: the D elements at the front of `rest`, the window `each`, are rotated and join
      the heads already rotated. */
  method RotateHead(k: Kernels, headDimension: nat, position: nat, x: array<real>, each: View,
                    ghost front: seq<real>, ghost done: seq<real>, ghost rest: seq<real>, ghost back: seq<real>)
    requires headDimension > 0 && headDimension % 2 == 0
    requires each.Rank() == 1 && each.dims[0] == headDimension
    requires x[..] == front + done + rest + back && each.offset == |front| + |done| && |rest| >= headDimension
    modifies x
    ensures x[..] == front + (done + Rotated(k, headDimension, position, rest[..headDimension]))
                     + rest[headDimension..] + back
  {
    assert each.End() == each.offset + headDimension;
    assert x[each.offset..each.End()] == rest[..headDimension];
    ghost var before := x[..];
    ApplyRotaryEmbeddings(k, headDimension, position, x, each);
    ghost var r := Rotated(k, headDimension, position, rest[..headDimension]);
    assert x[..] == before[..each.offset] + r + before[each.End()..];
    assert before[..each.offset] == front + done;
    assert before[each.End()..] == rest[headDimension..] + back;
    Regroup(front, done, r, rest[headDimension..], back);
  }

  lemma Regroup(a: seq<real>, b: seq<real>, c: seq<real>, d: seq<real>, e: seq<real>)
    ensures (a + b) + c + (d + e) == a + (b + c) + d + e
  {
  }
}
