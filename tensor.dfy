/** The tensor substrate of src/tensor.h.
    A tensor is a window over flat row-major storage: an element offset into that storage and a
    shape.  Element k of the window is storage element offset + k.  The bounds-checked
    constructors, the reshape `ViewAs`, indexing, and the two products are modelled here; the
    storage itself is a `seq<real>` when it is read and an `array<real>` when it is written. */
module Tensors {

  /** The result of an operation guarded by a runtime CHECK: a value, or the process abort
      (with the predicate that failed). */
  datatype Checked<T> = Ok(value: T) | Abort(failed: string)

  /** The template dimensions `N1, N...` of a tensor: at least one, none of them zero. */
  type Shape = dims: seq<nat> | |dims| >= 1 && forall k :: 0 <= k < |dims| ==> dims[k] > 0
    witness [1]

  /** `Multiplydimensions`: start from the first dimension and multiply in the others, left to
      right. */
  function StorageSize(dims: seq<nat>): nat
    requires |dims| >= 1
    decreases |dims|
  {
    if |dims| == 1 then dims[0] else StorageSize(dims[..|dims| - 1]) * dims[|dims| - 1]
  }

  /** A tensor: `storage_size` elements of some storage, starting at `offset`. */
  datatype View = View(offset: nat, dims: Shape) {
    function Rank(): nat { |dims| }
    function Size(): nat { StorageSize(dims) }
    function End(): nat { offset + Size() }
  }

  // ----- storage_size -----

  lemma {:induction false} StorageSizeConcat(a: seq<nat>, b: seq<nat>)
    requires |a| >= 1 && |b| >= 1
    ensures StorageSize(a + b) == StorageSize(a) * StorageSize(b)
    decreases |b|
  {
    if |b| == 1 {
      assert (a + b)[..|a + b| - 1] == a;
    } else {
      var b' := b[..|b| - 1];
      assert (a + b)[..|a + b| - 1] == a + b';
      StorageSizeConcat(a, b');
      calc {
        StorageSize(a + b);
        StorageSize(a + b') * b[|b| - 1];
        StorageSize(a) * StorageSize(b') * b[|b| - 1];
        StorageSize(a) * (StorageSize(b') * b[|b| - 1]);
      }
    }
  }

  /** The size is the first dimension times the size of the others, which is what makes
      `storage_size / N1` the stride of the first index. */
  lemma StorageSizeFront(dims: seq<nat>)
    requires |dims| >= 2
    ensures StorageSize(dims) == dims[0] * StorageSize(dims[1..])
  {
    assert dims == [dims[0]] + dims[1..];
    StorageSizeConcat([dims[0]], dims[1..]);
  }

  lemma {:induction false} StorageSizePositive(dims: Shape)
    ensures StorageSize(dims) > 0
    decreases |dims|
  {
    if |dims| > 1 {
      var front := dims[..|dims| - 1];
      assert forall k :: 0 <= k < |front| ==> front[k] == dims[k];
      StorageSizePositive(front);
    }
  }

  lemma StorageSizeTwo(n: nat, m: nat)
    ensures StorageSize([n, m]) == n * m
  {
    assert [n, m][..1] == [n];
  }

  lemma StorageSizeThree(n: nat, m: nat, d: nat)
    ensures StorageSize([n, m, d]) == n * m * d
  {
    assert [n, m, d][..2] == [n, m];
    StorageSizeTwo(n, m);
  }

  /** The stride of the first index, `storage_size / N1`, is the size of the other dimensions. */
  lemma Stride(dims: Shape)
    requires |dims| >= 2
    ensures |dims[1..]| >= 1 && forall k :: 0 <= k < |dims[1..]| ==> dims[1..][k] > 0
    ensures StorageSize(dims[1..]) > 0
    ensures StorageSize(dims) / dims[0] == StorageSize(dims[1..])
  {
    TailIsShape(dims);
    StorageSizeFront(dims);
    StorageSizePositive(dims[1..]);
    ExactQuotient(StorageSize(dims[1..]), dims[0]);
  }

  lemma MulStep(b: int, d: int)
    requires b >= 0
    ensures d >= 1 ==> b * d >= b
    ensures d <= -1 ==> b * d <= 0 - b
  {
    if d >= 1 {
      assert b * d == b * (d - 1) + b;
      assert b * (d - 1) >= 0;
    } else if d <= -1 {
      assert b * d == -(b * (-d - 1)) - b;
      assert b * (-d - 1) >= 0;
    }
  }

  lemma ExactQuotient(a: nat, b: nat)
    requires b > 0
    ensures b * a / b == a
  {
    var q := b * a / b;
    var r := b * a % b;
    assert b * a == b * q + r;
    assert b * (a - q) == r;
    MulStep(b, a - q);
  }

  /** A shape without its first dimension is still a shape. */
  lemma TailIsShape(dims: Shape)
    requires |dims| >= 2
    ensures |dims[1..]| >= 1 && forall k :: 0 <= k < |dims[1..]| ==> dims[1..][k] > 0
  {
    forall k | 0 <= k < |dims[1..]| ensures dims[1..][k] > 0 {
      assert dims[1..][k] == dims[k + 1];
    }
  }

  // ----- index arithmetic -----

  /** Row i of an n-row, m-column layout lies inside the layout. */
  lemma RowInBounds(i: nat, n: nat, m: nat)
    requires i < n
    ensures 0 <= i * m && i * m + m <= n * m
  {
    assert i * m + m == (i + 1) * m;
    assert (i + 1) * m <= n * m by {
      assert n * m - (i + 1) * m == (n - (i + 1)) * m;
    }
  }

  /** Element (i, j) of an n-row, m-column layout lies inside the layout. */
  lemma CellInBounds(i: nat, j: nat, n: nat, m: nat)
    requires i < n && j < m
    ensures i * m + j < n * m
  {
    RowInBounds(i, n, m);
  }

  /** n copies of d are n - 1 copies and one more. */
  lemma MulPred(n: nat, d: nat)
    requires n > 0
    ensures 0 <= (n - 1) * d && (n - 1) * d + d == n * d
  {
    MulStep(d, n - 1);
  }

  /** Multiplication by a natural number is monotone. */
  lemma MulMonotone(a: nat, b: nat, c: nat)
    requires a <= b
    ensures a * c <= b * c
  {
    MulStep(c, b - a + 1);
    assert c * (b - a + 1) == b * c - a * c + c;
  }

  /** Row i of an n-row layout of positive width m fits in the layout exactly when i < n. */
  lemma RowFits(i: nat, n: nat, m: nat)
    requires m > 0
    ensures i * m + m <= n * m <==> i < n
  {
    if i < n {
      RowInBounds(i, n, m);
    } else {
      assert i * m - n * m == (i - n) * m;
    }
  }

  // ----- views -----

  /** The constructors from a source storage of `sourceSize` elements (src/tensor.h:104-121): the
      view starts `offset` elements in and covers `storage_size` elements; they abort unless that
      window lies inside the source. */
  function ViewOf(sourceSize: nat, offset: nat, dims: Shape): (r: Checked<View>)
    ensures r.Ok? <==> offset + StorageSize(dims) <= sourceSize
    ensures r.Ok? ==> r.value.offset == offset && r.value.dims == dims && r.value.End() <= sourceSize
  {
    if offset + StorageSize(dims) <= sourceSize then Ok(View(offset, dims))
    else Abort("offset + storage_size <= SourceSize")
  }

  /** The constructors from another tensor (src/tensor.h:124-143): the new view starts `offset`
      elements into the source tensor's window; they abort unless it ends inside that window. */
  function SubView(source: View, offset: nat, dims: Shape): (r: Checked<View>)
    ensures r.Ok? <==> offset + StorageSize(dims) <= source.Size()
    ensures r.Ok? ==> r.value.dims == dims && r.value.offset == source.offset + offset
    ensures r.Ok? ==> source.offset <= r.value.offset && r.value.End() <= source.End()
  {
    if offset + StorageSize(dims) <= source.Size() then Ok(View(source.offset + offset, dims))
    else Abort("offset + storage_size <= source.storage_size")
  }

  /** Element k of a view is element k of its window of the storage. */
  function At(s: seq<real>, v: View, k: nat): real
    requires v.End() <= |s| && k < v.Size()
  {
    s[v.offset + k]
  }

  /** A sub-view aliases its source: its element k is the source's element offset + k. */
  lemma SubViewAliases(s: seq<real>, source: View, offset: nat, dims: Shape, k: nat)
    requires source.End() <= |s| && SubView(source, offset, dims).Ok?
    requires k < StorageSize(dims)
    ensures SubView(source, offset, dims).value.End() <= |s|
    ensures offset + k < source.Size()
    ensures At(s, SubView(source, offset, dims).value, k) == At(s, source, offset + k)
  {
  }

  /** The elements of a view, in order: what a function taking the view by value reads. */
  function Elements(s: seq<real>, v: View): (r: seq<real>)
    requires v.End() <= |s|
    ensures |r| == v.Size() && forall k :: 0 <= k < |r| ==> r[k] == At(s, v, k)
  {
    s[v.offset .. v.End()]
  }

  /** `ViewAs<D...>()`: a view of the same storage with a new shape of the same element count
      (the static_assert), built by the span constructor at offset 0. */
  function ViewAs(v: View, dims: Shape): (r: View)
    requires StorageSize(dims) == v.Size()
    ensures r.offset == v.offset && r.dims == dims && r.Size() == v.Size()
  {
    SubView(v, 0, dims).value
  }

  /** Reshaping keeps every element in place. */
  lemma ViewAsAliases(s: seq<real>, v: View, dims: Shape, k: nat)
    requires StorageSize(dims) == v.Size() && v.End() <= |s| && k < v.Size()
    ensures ViewAs(v, dims).End() <= |s|
    ensures At(s, ViewAs(v, dims), k) == At(s, v, k)
  {
  }

  /** `tensor[i]` on a tensor of rank two or more (src/tensor.h:181-196): the sub-tensor of the
      remaining dimensions built at offset `storage_size / N1 * i` by the bounds-checked
      constructor, which aborts unless i < N1. */
  function Row(v: View, i: nat): (r: Checked<View>)
    requires v.Rank() >= 2
    ensures r.Ok? <==> i < v.dims[0]
    ensures r.Ok? ==> r.value.dims == v.dims[1..]
    ensures r.Ok? ==> r.value.offset == v.offset + i * StorageSize(v.dims[1..])
  {
    var stride := StorageSize(v.dims[1..]);
    Stride(v.dims);
    StorageSizeFront(v.dims);
    RowFits(i, v.dims[0], stride);
    assert v.Size() / v.dims[0] * i == i * stride;
    SubView(v, v.Size() / v.dims[0] * i, v.dims[1..])
  }

  /** Row i of an [n, m] view is the rank-one view of the m elements starting i*m further on. */
  lemma MatrixRowView(v: View, i: nat)
    requires v.Rank() == 2 && i < v.dims[0]
    ensures Row(v, i).Ok? && Row(v, i).value == View(v.offset + i * v.dims[1], [v.dims[1]])
  {
    assert v.dims[1..] == [v.dims[1]];
  }

  /** `tensor[i]` on a rank-one tensor: element i (unchecked in the source, so required). */
  function Element(s: seq<real>, v: View, i: nat): (r: real)
    requires v.Rank() == 1 && v.End() <= |s| && i < v.dims[0]
    ensures v.Size() == v.dims[0] && r == At(s, v, i)
  {
    s[v.offset + i]
  }

  /** Indexing an [N, M] tensor twice: element [i][j] is flat element i*M + j of the tensor. */
  lemma ElementOfRow(s: seq<real>, v: View, i: nat, j: nat)
    requires v.Rank() == 2 && v.End() <= |s| && i < v.dims[0] && j < v.dims[1]
    ensures Row(v, i).Ok? && Row(v, i).value.End() <= |s|
    ensures i * v.dims[1] + j < v.Size()
    ensures Element(s, Row(v, i).value, j) == At(s, v, i * v.dims[1] + j)
  {
    assert v.dims == [v.dims[0], v.dims[1]];
    assert v.dims[1..] == [v.dims[1]];
    StorageSizeTwo(v.dims[0], v.dims[1]);
    CellInBounds(i, j, v.dims[0], v.dims[1]);
  }

  /** Indexing an [S, K, D] tensor twice: the rank-one view [t][k] starts at t*K*D + k*D. */
  lemma RowOfRow(v: View, t: nat, k: nat)
    requires v.Rank() == 3 && t < v.dims[0] && k < v.dims[1]
    ensures Row(v, t).Ok? && Row(v, t).value.Rank() == 2
    ensures Row(Row(v, t).value, k).Ok?
    ensures Row(Row(v, t).value, k).value.dims == [v.dims[2]]
    ensures Row(Row(v, t).value, k).value.offset
         == v.offset + t * (v.dims[1] * v.dims[2]) + k * v.dims[2]
  {
    var d := v.dims;
    assert d == [d[0], d[1], d[2]];
    assert d[1..] == [d[1], d[2]];
    assert d[1..][1..] == [d[2]];
    StorageSizeTwo(d[1], d[2]);
  }

  // ----- products -----

  /** Σ_{i<|a|} a[i] * b[i], accumulated from index 0 upwards, starting from zero. */
  function Dot(a: seq<real>, b: seq<real>): real
    requires |a| == |b|
    decreases |a|
  {
    if |a| == 0 then 0.0 else Dot(a[..|a| - 1], b[..|a| - 1]) + a[|a| - 1] * b[|a| - 1]
  }

  /** Row i of the N×M matrix that `left` lays over `s`: the elements left[i][0..M). */
  function MatrixRow(s: seq<real>, left: View, i: nat): (r: seq<real>)
    requires left.Rank() == 2 && left.End() <= |s| && i < left.dims[0]
    ensures |r| == left.dims[1] && left.offset + i * left.dims[1] + left.dims[1] <= |s|
    ensures forall j :: 0 <= j < |r| ==> r[j] == s[left.offset + i * left.dims[1] + j]
  {
    assert left.dims == [left.dims[0], left.dims[1]];
    StorageSizeTwo(left.dims[0], left.dims[1]);
    RowInBounds(i, left.dims[0], left.dims[1]);
    s[left.offset + i * left.dims[1] .. left.offset + i * left.dims[1] + left.dims[1]]
  }

  /** The product of the N×M matrix `left` over `s` with the length-M vector `right`. */
  function MatVec(s: seq<real>, left: View, right: seq<real>): (r: seq<real>)
    requires left.Rank() == 2 && left.End() <= |s| && |right| == left.dims[1]
    ensures |r| == left.dims[0]
  {
    seq(left.dims[0], i requires 0 <= i < left.dims[0] => Dot(MatrixRow(s, left, i), right))
  }

  /** Entry i of the product is Σ_j left[i][j] * right[j], with left[i][j] read through the
      tensor's own indexing. */
  lemma MatVecReadsRows(s: seq<real>, left: View, right: seq<real>, i: nat)
    requires left.Rank() == 2 && left.End() <= |s| && |right| == left.dims[1]
    requires i < left.dims[0]
    ensures Row(left, i).Ok? && Row(left, i).value.End() <= |s|
    ensures MatVec(s, left, right)[i]
         == Dot(seq(left.dims[1], j requires 0 <= j < left.dims[1] =>
                      Element(s, Row(left, i).value, j)), right)
  {
    ElementOfRow(s, left, i, 0);
    var viaIndex := seq(left.dims[1], j requires 0 <= j < left.dims[1] =>
                          Element(s, Row(left, i).value, j));
    forall j | 0 <= j < left.dims[1] ensures viaIndex[j] == MatrixRow(s, left, i)[j] {
      ElementOfRow(s, left, i, j);
    }
    assert viaIndex == MatrixRow(s, left, i);
  }

  /** `s` with the elements from `at` on replaced by `v`. */
  function Overwrite(s: seq<real>, at: nat, v: seq<real>): (r: seq<real>)
    requires at + |v| <= |s|
    ensures |r| == |s|
    ensures r[..at] == s[..at] && r[at..at + |v|] == v && r[at + |v|..] == s[at + |v|..]
  {
    s[..at] + v + s[at + |v|..]
  }

  /** A sequence that holds v in the window from `at` and agrees with s elsewhere is the
      overwrite of s by v. */
  lemma OverwriteByElements(s: seq<real>, at: nat, v: seq<real>, t: seq<real>)
    requires at + |v| <= |s| && |t| == |s|
    requires forall k :: at <= k < at + |v| ==> t[k] == v[k - at]
    requires forall k :: 0 <= k < |t| && !(at <= k < at + |v|) ==> t[k] == s[k]
    ensures t == Overwrite(s, at, v)
  {
    var r := Overwrite(s, at, v);
    forall k | 0 <= k < |t| ensures t[k] == r[k] {
      if k < at {
        assert r[k] == r[..at][k];
      } else if k < at + |v| {
        assert r[k] == r[at..at + |v|][k - at];
      } else {
        assert r[k] == r[at + |v|..][k - at - |v|];
      }
    }
  }

  /** Reading back, inside the overwritten window, what was written there. */
  lemma OverwriteRead(s: seq<real>, at: nat, v: seq<real>, b: nat, n: nat)
    requires at + |v| <= |s| && b + n <= |v|
    ensures Overwrite(s, at, v)[at + b .. at + b + n] == v[b .. b + n]
  {
    var r := Overwrite(s, at, v);
    assert r[at + b .. at + b + n] == r[at .. at + |v|][b .. b + n];
  }

  /** Outside the overwritten window the old contents are read back. */
  lemma OverwriteOutside(s: seq<real>, at: nat, v: seq<real>, lo: nat, hi: nat)
    requires at + |v| <= |s| && lo <= hi <= |s| && (hi <= at || at + |v| <= lo)
    ensures Overwrite(s, at, v)[lo..hi] == s[lo..hi]
  {
    var r := Overwrite(s, at, v);
    if hi <= at {
      assert r[lo..hi] == r[..at][lo..hi];
      assert s[lo..hi] == s[..at][lo..hi];
    } else {
      var end := at + |v|;
      assert r[lo..hi] == r[end..][lo - end .. hi - end];
      assert s[lo..hi] == s[end..][lo - end .. hi - end];
    }
  }

  /** Up to the end of the window, an overwrite is the old prefix followed by the new contents. */
  lemma OverwritePrefix(s: seq<real>, at: nat, v: seq<real>)
    requires at + |v| <= |s|
    ensures Overwrite(s, at, v)[..at + |v|] == s[..at] + v
  {
  }

  /** A second overwrite inside the window of a first is one overwrite of the first's window. */
  lemma OverwriteWithin(s: seq<real>, at: nat, u: seq<real>, b: nat, w: seq<real>)
    requires at + |u| <= |s| && b + |w| <= |u|
    ensures Overwrite(Overwrite(s, at, u), at + b, w) == Overwrite(s, at, u[..b] + w + u[b + |w|..])
  {
    var left := Overwrite(Overwrite(s, at, u), at + b, w);
    var right := Overwrite(s, at, u[..b] + w + u[b + |w|..]);
    forall k | 0 <= k < |s| ensures left[k] == right[k] {
      if k < at {
      } else if k < at + b {
        assert left[k] == u[k - at];
      } else if k < at + b + |w| {
      } else if k < at + |u| {
        assert right[k] == (u[..b] + w + u[b + |w|..])[k - at];
      }
    }
  }

  /** Overwriting right after an overwritten window extends that window. */
  lemma OverwriteExtend(s: seq<real>, at: nat, u: seq<real>, w: seq<real>)
    requires at + |u| + |w| <= |s|
    ensures Overwrite(Overwrite(s, at, u), at + |u|, w) == Overwrite(s, at, u + w)
  {
    assert Overwrite(Overwrite(s, at, u), at + |u|, w) == s[..at] + u + w + s[at + |u| + |w|..];
  }

  /** In a + r + c + b, the pair at the front of c is read, then replaced by (t0, t1): the
      replaced pair joins r. */
  lemma WritePair(a: seq<real>, r: seq<real>, c: seq<real>, b: seq<real>, t0: real, t1: real)
    requires |c| >= 2
    ensures (a + r + c + b)[|a| + |r|] == c[0] && (a + r + c + b)[|a| + |r| + 1] == c[1]
    ensures (a + r + c + b)[|a| + |r| := t0][|a| + |r| + 1 := t1] == a + (r + [t0, t1]) + c[2..] + b
  {
    var before := a + r + c + b;
    var after := before[|a| + |r| := t0][|a| + |r| + 1 := t1];
    var expected := a + (r + [t0, t1]) + c[2..] + b;
    forall j | 0 <= j < |after| ensures after[j] == expected[j] {
      if j < |a| + |r| {
      } else if j < |a| + |r| + 2 {
      } else if j < |a| + |r| + |c| {
        assert expected[j] == c[2..][j - |a| - |r| - 2];
      }
    }
  }

  /** Writing t at the first element of c, between a + r and b, moves that element into r. */
  lemma WriteOne(a: seq<real>, r: seq<real>, c: seq<real>, b: seq<real>, t: real)
    requires |c| >= 1
    ensures (a + r + c + b)[|a| + |r|] == c[0]
    ensures (a + r + c + b)[|a| + |r| := t] == a + (r + [t]) + c[1..] + b
  {
    var after := (a + r + c + b)[|a| + |r| := t];
    var expected := a + (r + [t]) + c[1..] + b;
    forall j | 0 <= j < |after| ensures after[j] == expected[j] {
      if |a| + |r| < j < |a| + |r| + |c| {
        assert expected[j] == c[1..][j - |a| - |r| - 1];
      }
    }
  }

  /** A second overwrite of the same range replaces the first. */
  lemma OverwriteTwice(s: seq<real>, at: nat, u: seq<real>, w: seq<real>)
    requires at + |u| <= |s| && |w| == |u|
    ensures Overwrite(Overwrite(s, at, u), at, w) == Overwrite(s, at, w)
  {
    OverwriteWithin(s, at, u, 0, w);
    assert u[..0] + w + u[|w|..] == w;
  }

  /** Overwriting a whole sequence from its start replaces it. */
  lemma OverwriteAll(s: seq<real>, v: seq<real>)
    requires |v| == |s|
    ensures Overwrite(s, 0, v) == v
  {
    assert s[..0] == [] && s[|v|..] == [];
  }

  /** `DotProduct`: the accumulator loop computes Dot. */
  method DotProduct(left: seq<real>, right: seq<real>) returns (r: real)
    requires |left| == |right|
    ensures r == Dot(left, right)
  {
    r := 0.0;
    for i := 0 to |left|
      invariant r == Dot(left[..i], right[..i])
    {
      assert left[..i + 1][..i] == left[..i] && right[..i + 1][..i] == right[..i];
      r := r + left[i] * right[i];
    }
    assert left[..|left|] == left && right[..|right|] == right;
  }

  /** `MatrixProductTo`: each out[i] is zeroed and then accumulates left[i][j] * right[j]; the
      target window of `out` ends up holding the product whatever it held before, and nothing
      else in `out` changes. */
  method MatrixProductTo(s: seq<real>, left: View, right: seq<real>, out: array<real>, target: View)
    requires left.Rank() == 2 && left.End() <= |s| && |right| == left.dims[1]
    requires target.Rank() == 1 && target.dims[0] == left.dims[0] && target.End() <= out.Length
    modifies out
    ensures out[..] == Overwrite(old(out[..]), target.offset, MatVec(s, left, right))
  {
    ghost var product := MatVec(s, left, right);
    for i := 0 to left.dims[0]
      invariant forall k :: 0 <= k < target.offset + i && target.offset <= k ==> out[k] == product[k - target.offset]
      invariant forall k :: 0 <= k < out.Length && !(target.offset <= k < target.offset + i) ==> out[k] == old(out[k])
    {
      AccumulateRow(s, left, right, out, target.offset + i, i);
    }
    OverwriteByElements(old(out[..]), target.offset, product, out[..]);
  }

  /** The inner loop of `MatrixProductTo` for row i: out[at] is zeroed and then accumulates
      left[i][j] * right[j]; no other element of `out` changes. */
  method AccumulateRow(s: seq<real>, left: View, right: seq<real>, out: array<real>, at: nat, i: nat)
    requires left.Rank() == 2 && left.End() <= |s| && |right| == left.dims[1]
    requires i < left.dims[0] && at < out.Length
    modifies out
    ensures out[at] == Dot(MatrixRow(s, left, i), right)
    ensures forall k :: 0 <= k < out.Length && k != at ==> out[k] == old(out[k])
  {
    var m := left.dims[1];
    var row := MatrixRow(s, left, i);  // left[i]
    out[at] := 0.0;
    for j := 0 to m
      invariant out[at] == Dot(row[..j], right[..j])
      invariant forall k :: 0 <= k < out.Length && k != at ==> out[k] == old(out[k])
    {
      assert row[..j + 1][..j] == row[..j] && right[..j + 1][..j] == right[..j];
      out[at] := out[at] + row[j] * right[j];
    }
    assert row[..m] == row && right[..m] == right;
  }

  /** `MatrixProduct`: a fresh length-N tensor holding exactly what MatrixProductTo writes. */
  method MatrixProduct(s: seq<real>, left: View, right: seq<real>) returns (product: seq<real>)
    requires left.Rank() == 2 && left.End() <= |s| && |right| == left.dims[1]
    ensures product == MatVec(s, left, right)
  {
    var out := new real[left.dims[0]];
    MatrixProductTo(s, left, right, out, View(0, [left.dims[0]]));
    product := out[..];
  }

  /** A `MatrixProduct` result held in a local tensor that the caller goes on to change in
      place: a fresh buffer holding the product. */
  method MatrixProductBuffer(s: seq<real>, left: View, right: seq<real>) returns (out: array<real>)
    requires left.Rank() == 2 && left.End() <= |s| && |right| == left.dims[1]
    ensures fresh(out) && out[..] == MatVec(s, left, right)
  {
    out := new real[left.dims[0]];
    ghost var before := out[..];
    MatrixProductTo(s, left, right, out, View(0, [left.dims[0]]));
    OverwriteAll(before, MatVec(s, left, right));
  }

  /** A tensor taken by value: a fresh buffer holding a copy of s. */
  method Buffer(s: seq<real>) returns (out: array<real>)
    ensures fresh(out) && out[..] == s
  {
    out := new real[|s|](i requires 0 <= i < |s| => s[i]);
    assert forall i :: 0 <= i < |s| ==> out[..][i] == s[i];
  }
}
