/** `AdvancedTensor<T, Dim>` (src/tensor/tensor_advanced.hpp) with `T = int`:
    broadcasting addition between tensors of any two ranks, and the in-place
    element-wise operations.  An `AdvancedTensor` is a `Tensor` with more
    operations, so these take `Tensor` objects. */
module AdvancedTensors {
  import opened Wrappers
  import opened Tensors

  function Max(a: nat, b: nat): nat
  {
    if a < b then b else a
  }

  /** `shape` padded on the left with extents of 1 up to rank `n`. */
  function Pad(shape: seq<nat>, n: nat): seq<nat>
    requires |shape| <= n
  {
    seq(n - |shape|, _ => 1) + shape
  }

  /** The NumPy-style broadcast shape: the two shapes are aligned on the
      right, the shorter one is padded on the left with extents of 1, and
      each extent of the result is the larger of the two extents there.
      Nothing checks that the extents are compatible. */
  function BroadcastShape(s1: seq<nat>, s2: seq<nat>): seq<nat>
  {
    var n := Max(|s1|, |s2|);
    seq(n, k requires 0 <= k < n => Max(Pad(s1, n)[k], Pad(s2, n)[k]))
  }

  /** `compute_broadcast_shape`: walks the dimensions from the last one,
      taking from each shape its `i`-th extent from the right, or 1. */
  method ComputeBroadcastShape(s1: seq<nat>, s2: seq<nat>) returns (result: seq<nat>)
    ensures result == BroadcastShape(s1, s2)
  {
    var maxDim := Max(|s1|, |s2|);
    result := seq(maxDim, _ => 0);
    for i := 0 to maxDim
      invariant |result| == maxDim
      invariant forall k :: maxDim - i <= k < maxDim ==> result[k] == BroadcastShape(s1, s2)[k]
    {
      var dim1 := if i < |s1| then s1[|s1| - 1 - i] else 1;
      var dim2 := if i < |s2| then s2[|s2| - 1 - i] else 1;
      assert Pad(s1, maxDim)[maxDim - 1 - i] == dim1;
      assert Pad(s2, maxDim)[maxDim - 1 - i] == dim2;
      result := result[maxDim - 1 - i := Max(dim1, dim2)];
    }
  }

  /** The rank is the larger rank, and, counting from the right, each extent
      is the larger of the two shapes' extents there, 1 standing in for a
      dimension a shape does not have. */
  lemma BroadcastShapeFromRight(s1: seq<nat>, s2: seq<nat>, i: nat)
    requires i < Max(|s1|, |s2|)
    ensures |BroadcastShape(s1, s2)| == Max(|s1|, |s2|)
    ensures BroadcastShape(s1, s2)[|BroadcastShape(s1, s2)| - 1 - i] ==
      Max(if i < |s1| then s1[|s1| - 1 - i] else 1, if i < |s2| then s2[|s2| - 1 - i] else 1)
  {
    var n := Max(|s1|, |s2|);
    assert Pad(s1, n)[n - 1 - i] == if i < |s1| then s1[|s1| - 1 - i] else 1;
    assert Pad(s2, n)[n - 1 - i] == if i < |s2| then s2[|s2| - 1 - i] else 1;
  }

  /** The order of the operands does not matter, and a shape broadcast with
      itself is unchanged. */
  lemma BroadcastShapeSymmetric(s1: seq<nat>, s2: seq<nat>)
    ensures BroadcastShape(s1, s2) == BroadcastShape(s2, s1)
    ensures BroadcastShape(s1, s1) == s1
  {
    var n := |s1|;
    assert Pad(s1, n) == s1;
  }

  /** A `{2, 3}` tensor broadcast with a `{3}` one yields shape `{2, 3}`. */
  lemma BroadcastShapeExample()
    ensures BroadcastShape([2, 3], [3]) == [2, 3]
  {
    assert Pad([3], 2) == [1, 3];
  }

  predicate Positive(shape: seq<nat>)
  {
    forall i :: 0 <= i < |shape| ==> shape[i] > 0
  }

  /** The index `get_value` reads in a tensor of shape `shape`: component `i`
      below `dim` is the matching trailing component of `index`, wrapped by
      the extent; the rest are 0. */
  function AdjustedIndex(shape: seq<nat>, index: seq<nat>, dim: nat): (a: seq<nat>)
    requires dim <= |index| && Positive(shape)
    ensures InBounds(a, shape)
  {
    seq(|shape|, i requires 0 <= i < |shape| => if i < dim then index[|index| - dim + i] % shape[i] else 0)
  }

  /** `get_value(t, index, dim)`. */
  function GetValue(t: Tensor, index: seq<nat>, dim: nat): int
    requires t.Valid() && Positive(t.shape) && dim <= |index|
    reads t, t.data
  {
    t.At(AdjustedIndex(t.shape, index, dim))
  }

  /** The adjusted index of an index whose trailing components already lie
      in the shape is those components. */
  lemma AdjustedTrailing(shape: seq<nat>, index: seq<nat>)
    requires Positive(shape) && |shape| <= |index|
    requires InBounds(index[|index| - |shape|..], shape)
    ensures AdjustedIndex(shape, index, |shape|) == index[|index| - |shape|..]
  {
    var tail := index[|index| - |shape|..];
    var a := AdjustedIndex(shape, index, |shape|);
    forall i | 0 <= i < |tail|
      ensures a[i] == tail[i]
    {
      var x := index[|index| - |shape| + i];
      assert x == tail[i] < shape[i];
      ModBelow(x, shape[i]);
    }
  }

  /** A broadcast read: an index of higher rank whose trailing components
      lie in the tensor's shape reads the tensor at those components. */
  lemma GetValueTrailing(t: Tensor, index: seq<nat>)
    requires t.Valid() && Positive(t.shape) && |t.shape| <= |index|
    requires InBounds(index[|index| - |t.shape|..], t.shape)
    ensures GetValue(t, index, |t.shape|) == t.At(index[|index| - |t.shape|..])
  {
    AdjustedTrailing(t.shape, index);
  }

  /** Inside its own shape a tensor is read where the index points. */
  lemma GetValueInShape(t: Tensor, index: seq<nat>)
    requires t.Valid() && Positive(t.shape) && InBounds(index, t.shape)
    ensures GetValue(t, index, |t.shape|) == t.At(index)
  {
    assert index[|index| - |t.shape|..] == index;
    GetValueTrailing(t, index);
  }

  /** Both operands can be read at `idx`: valid, no zero extent, and of
      rank at most the index's. */
  ghost predicate Readable(t1: Tensor, t2: Tensor, idx: seq<nat>)
    reads t1, t2
  {
    && t1.Valid() && t2.Valid() && Positive(t1.shape) && Positive(t2.shape)
    && |t1.shape| <= |idx| && |t2.shape| <= |idx|
  }

  /** What `broadcast_add_impl` stores at `idx`.  Every index it stores at is
      readable; the 0 of the other case is never stored. */
  ghost function BroadcastSum(t1: Tensor, t2: Tensor, idx: seq<nat>): int
    reads t1, t1.data, t2, t2.data
  {
    if Readable(t1, t2, idx) then GetValue(t1, idx, |t1.shape|) + GetValue(t2, idx, |t2.shape|) else 0
  }

  /** Entry `idx` of `result` is the broadcast sum of `t1` and `t2` there. */
  ghost predicate SumAt(t1: Tensor, t2: Tensor, result: Tensor, idx: seq<nat>)
    reads t1, t1.data, t2, t2.data, result, result.data
  {
    && Readable(t1, t2, idx) && result.Valid() && InBounds(idx, result.shape)
    && result.At(idx) == GetValue(t1, idx, |t1.shape|) + GetValue(t2, idx, |t2.shape|)
  }

  /** No index is in bounds for a shape without elements; so reading the
      operands is only demanded when the result has elements. */
  lemma NonEmpty(idx: seq<nat>, shape: seq<nat>)
    requires InBounds(idx, shape)
    ensures Product(shape) > 0
  {
    FlatBound(idx, shape);
  }

  /** `broadcast_add_impl(t1, t2, result, cur, dim)`: the components of
      `cur` before `dim` are fixed; every index of `result` that starts with
      them gets its broadcast sum, and no other element changes. */
  method BroadcastFill(t1: Tensor, t2: Tensor, result: Tensor, cur: seq<nat>, dim: nat)
    requires t1.Valid() && t2.Valid() && result.Valid()
    requires |t1.shape| <= |result.shape| && |t2.shape| <= |result.shape|
    requires Product(result.shape) > 0 ==> Positive(t1.shape) && Positive(t2.shape)
    requires result.data != t1.data && result.data != t2.data
    requires |cur| == |result.shape| && dim <= |cur| && forall k :: 0 <= k < dim ==> cur[k] < result.shape[k]
    modifies result.data
    decreases |cur| - dim, 1
    ensures forall idx :: InBounds(idx, result.shape) && idx[..dim] == cur[..dim] ==>
      result.At(idx) == BroadcastSum(t1, t2, idx)
    ensures forall idx :: InBounds(idx, result.shape) && idx[..dim] != cur[..dim] ==>
      result.At(idx) == old(result.At(idx))
  {
    if dim == |result.shape| {
      NonEmpty(cur, result.shape);
      var v := GetValue(t1, cur, |t1.shape|) + GetValue(t2, cur, |t2.shape|);
      SetOne(result, cur, v);
      forall idx | InBounds(idx, result.shape) && idx[..dim] == cur[..dim]
        ensures idx == cur
      {
        assert idx[..dim] == idx && cur[..dim] == cur;
      }
      return;
    }
    var c: seq<nat> := cur;
    for i: nat := 0 to result.shape[dim]
      invariant |c| == |cur| && c[..dim] == cur[..dim] && forall k :: 0 <= k < dim ==> c[k] < result.shape[k]
      invariant forall idx :: InBounds(idx, result.shape) && idx[..dim] == cur[..dim] && idx[dim] < i ==>
        result.At(idx) == BroadcastSum(t1, t2, idx)
      invariant forall idx :: InBounds(idx, result.shape) && (idx[..dim] != cur[..dim] || idx[dim] >= i) ==>
        result.At(idx) == old(result.At(idx))
    {
      c := c[dim := i];
      FillSlice(t1, t2, result, c, dim);
    }
  }

  /** One pass of the loop in `broadcast_add_impl`: with component `dim`
      of `cur` set, the recursive call fills exactly the indices that share
      `cur` up to and including `dim`. */
  method FillSlice(t1: Tensor, t2: Tensor, result: Tensor, cur: seq<nat>, dim: nat)
    requires t1.Valid() && t2.Valid() && result.Valid()
    requires |t1.shape| <= |result.shape| && |t2.shape| <= |result.shape|
    requires Product(result.shape) > 0 ==> Positive(t1.shape) && Positive(t2.shape)
    requires result.data != t1.data && result.data != t2.data
    requires |cur| == |result.shape| && dim < |cur| && forall k :: 0 <= k <= dim ==> cur[k] < result.shape[k]
    modifies result.data
    decreases |cur| - dim, 0
    ensures forall idx :: InBounds(idx, result.shape) && idx[..dim] == cur[..dim] && idx[dim] == cur[dim] ==>
      result.At(idx) == BroadcastSum(t1, t2, idx)
    ensures forall idx :: InBounds(idx, result.shape) && (idx[..dim] != cur[..dim] || idx[dim] != cur[dim]) ==>
      result.At(idx) == old(result.At(idx))
  {
    BroadcastFill(t1, t2, result, cur, dim + 1);
    forall idx | InBounds(idx, result.shape)
      ensures idx[..dim + 1] == cur[..dim + 1] <==> idx[..dim] == cur[..dim] && idx[dim] == cur[dim]
    {
      PrefixStep(idx, cur, dim);
    }
  }

  /** Two sequences agree up to `dim + 1` exactly when they agree up to
      `dim` and at `dim`. */
  lemma PrefixStep(a: seq<nat>, b: seq<nat>, dim: nat)
    requires dim < |a| && dim < |b|
    ensures a[..dim + 1] == b[..dim + 1] <==> a[..dim] == b[..dim] && a[dim] == b[dim]
  {
    assert a[..dim + 1] == a[..dim] + [a[dim]] && b[..dim + 1] == b[..dim] + [b[dim]];
    if a[..dim + 1] == b[..dim + 1] {
      assert a[..dim + 1][dim] == a[dim];
      assert a[..dim] == a[..dim + 1][..dim];
      assert b[..dim] == b[..dim + 1][..dim];
    }
  }

  /** `broadcast_add`: a fresh tensor of the broadcast shape whose every
      element is the broadcast sum.  Reading an operand wraps each index
      component by that operand's extent, so the operands must have no zero
      extent whenever the result has elements. */
  method BroadcastAdd(t1: Tensor, t2: Tensor) returns (result: Tensor)
    requires t1.Valid() && t2.Valid()
    requires Product(BroadcastShape(t1.shape, t2.shape)) > 0 ==> Positive(t1.shape) && Positive(t2.shape)
    ensures fresh(result) && fresh(result.data) && result.Valid()
    ensures result.shape == BroadcastShape(t1.shape, t2.shape)
    ensures forall idx :: InBounds(idx, result.shape) ==> SumAt(t1, t2, result, idx)
  {
    var newShape := ComputeBroadcastShape(t1.shape, t2.shape);
    result := new Tensor(newShape);
    BroadcastFill(t1, t2, result, seq(|newShape|, _ => 0), 0);
    forall idx | InBounds(idx, result.shape)
      ensures SumAt(t1, t2, result, idx)
    {
      NonEmpty(idx, result.shape);
    }
  }

  /** A matrix plus a vector as long as its rows: entry `(i, j)` is the
      matrix entry plus the vector's `j`-th element. */
  lemma BroadcastMatrixRow(t1: Tensor, t2: Tensor, result: Tensor, i: nat, j: nat)
    requires t1.Valid() && t2.Valid() && |t1.shape| == 2 && t2.shape == [t1.shape[1]]
    requires result.shape == BroadcastShape(t1.shape, t2.shape)
    requires i < t1.shape[0] && j < t1.shape[1] && SumAt(t1, t2, result, [i, j])
    ensures result.shape == t1.shape
    ensures result.At([i, j]) == t1.At([i, j]) + t2.At([j])
  {
    var n, m := t1.shape[0], t1.shape[1];
    assert t1.shape == [n, m];
    RowShape(n, m);
    GetValueInShape(t1, [i, j]);
    var a := AdjustedIndex(t2.shape, [i, j], 1);
    assert a[0] == j % m;
    ModBelow(j, m);
    assert a == [j];
  }

  lemma ModBelow(x: nat, m: nat)
    requires x < m
    ensures x % m == x
  {
  }

  /** An `{n, m}` shape broadcast with `{m}` is `{n, m}` when `n > 0`. */
  lemma RowShape(n: nat, m: nat)
    requires n > 0
    ensures BroadcastShape([n, m], [m]) == [n, m]
  {
    assert Pad([m], 2) == [1, m];
    assert Pad([n, m], 2) == [n, m];
  }

  /** With equal shapes there is nothing to broadcast: the result is the
      element-wise sum. */
  lemma BroadcastSameShape(t1: Tensor, t2: Tensor, result: Tensor, idx: seq<nat>)
    requires t1.shape == t2.shape && result.shape == BroadcastShape(t1.shape, t2.shape)
    requires SumAt(t1, t2, result, idx)
    ensures result.shape == t1.shape
    ensures result.At(idx) == t1.At(idx) + t2.At(idx)
  {
    BroadcastShapeSymmetric(t1.shape, t2.shape);
    GetValueInShape(t1, idx);
    GetValueInShape(t2, idx);
  }

  /** The message `optimize_add`, `optimize_sub`, `optimize_mul` or
      `optimize_div` throws on a shape mismatch. */
  function MismatchMessage(op: Op): string
  {
    match op
    case Plus => "Tensors must have the same shape for optimize_add"
    case Minus => "Tensors must have the same shape for optimize_sub"
    case Times => "Tensors must have the same shape for optimize_mul"
    case Divides => "Tensors must have the same shape for optimize_div"
  }

  /** `optimize_add`, `optimize_sub` and `optimize_mul` (the scalar loop):
      on a shape mismatch they throw before touching anything; otherwise
      every element becomes the old element combined with `other`'s.  The
      operands may share their buffer. */
  method OptimizeInPlace(op: Op, self: Tensor, other: Tensor) returns (r: Outcome)
    requires op != Divides && self.Valid() && other.Valid()
    modifies self.data
    ensures r.Fail? <==> self.shape != other.shape
    ensures r.Fail? ==> r.error == InvalidArgument(MismatchMessage(op)) && self.data[..] == old(self.data[..])
    ensures r.Pass? ==> self.data[..] == Zip(op, old(self.data[..]), old(other.data[..]))
    ensures other.data != self.data ==> other.data[..] == old(other.data[..])
  {
    if self.shape != other.shape {
      return Fail(InvalidArgument(MismatchMessage(op)));
    }
    var size := self.data.Length;
    for i := 0 to size
      invariant forall k :: 0 <= k < i ==> self.data[k] == Apply(op, old(self.data[k]), old(other.data[k]))
      invariant forall k :: i <= k < size ==> self.data[k] == old(self.data[k]) && other.data[k] == old(other.data[k])
    {
      self.data[i] := Apply(op, self.data[i], other.data[i]);
    }
    return Pass;
  }

  /** The position of the first zero in `b`, or `|b|` when there is none. */
  function FirstZero(b: seq<int>): (z: nat)
    ensures z <= |b| && NoZero(b[..z]) && (z < |b| ==> b[z] == 0)
  {
    if b == [] then 0
    else if b[0] == 0 then 0
    else
      var z' := FirstZero(b[1..]);
      assert b[..z' + 1] == [b[0]] + b[1..][..z'];
      z' + 1
  }

  /** The elements before `z` divided, the rest as they were. */
  function DividedUpTo(a: seq<int>, b: seq<int>, z: nat): seq<int>
    requires |a| == |b| && z <= |a| && NoZero(b[..z])
  {
    Zip(Divides, a[..z], b[..z]) + a[z..]
  }

  /** `optimize_div` (the `int` path): a shape mismatch throws before any
      change; otherwise elements are divided in order until the first zero
      divisor, where it throws with everything from there on untouched. */
  method OptimizeDiv(self: Tensor, other: Tensor) returns (r: Outcome)
    requires self.Valid() && other.Valid()
    modifies self.data
    ensures self.shape != other.shape ==>
      r == Fail(InvalidArgument(MismatchMessage(Divides))) && self.data[..] == old(self.data[..])
    ensures self.shape == other.shape ==>
      var z := FirstZero(old(other.data[..]));
      && (r.Pass? <==> z == self.data.Length)
      && (r.Fail? ==> r.error == RuntimeError("Division by zero encountered"))
      && self.data[..] == DividedUpTo(old(self.data[..]), old(other.data[..]), z)
    ensures other.data != self.data ==> other.data[..] == old(other.data[..])
  {
    if self.shape != other.shape {
      return Fail(InvalidArgument(MismatchMessage(Divides)));
    }
    ghost var a, b := self.data[..], other.data[..];
    ghost var z := FirstZero(b);
    var size := self.data.Length;
    for i := 0 to size
      invariant i <= z
      invariant forall k :: 0 <= k < i ==> b[k] != 0 && self.data[k] == TruncDiv(a[k], b[k])
      invariant forall k :: i <= k < size ==> self.data[k] == a[k] && other.data[k] == b[k]
    {
      if other.data[i] != 0 {
        self.data[i] := TruncDiv(self.data[i], other.data[i]);
      } else {
        assert z == i;
        assert self.data[..] == DividedUpTo(a, b, z);
        return Fail(RuntimeError("Division by zero encountered"));
      }
    }
    assert z == size;
    assert self.data[..] == DividedUpTo(a, b, z);
    return Pass;
  }

  /** Multiplying in place and then dividing in place by the same tensor of
      non-zero elements restores the original elements. */
  lemma MulThenDivRestores(a: seq<int>, b: seq<int>)
    requires |a| == |b| && NoZero(b)
    ensures FirstZero(b) == |b|
    ensures DividedUpTo(Zip(Times, a, b), b, FirstZero(b)) == a
  {
    assert b[..|b|] == b;
    assert Zip(Times, a, b)[..|b|] == Zip(Times, a, b);
    ZipUndo(a, b);
  }
}
