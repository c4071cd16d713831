/** `Tensor<T, Dim>` (src/tensor/tensor.hpp) with `T = int`: a shape and a
    row-major buffer of `prod(shape)` elements, element access through the
    flat index, matrix product, transpose and the element-wise operators. */
module Tensors {
  import opened Wrappers

  /** `std::accumulate(shape, 1, std::multiplies)`: the number of elements. */
  function Product(shape: seq<nat>): nat
  {
    if shape == [] then 1 else shape[0] * Product(shape[1..])
  }

  /** Every component of `idx` is below the extent of its dimension. */
  predicate InBounds(idx: seq<nat>, shape: seq<nat>)
  {
    |idx| == |shape| && forall i :: 0 <= i < |idx| ==> idx[i] < shape[i]
  }

  /** The index `std::array<size_t, Dim>{i, j}`: components `i` and `j`,
      then zeros up to `dim`. */
  function Plane(i: nat, j: nat, dim: nat): (idx: seq<nat>)
    requires dim >= 2
    ensures |idx| == dim && idx[0] == i && idx[1] == j
    ensures forall k :: 2 <= k < dim ==> idx[k] == 0
  {
    [i, j] + seq(dim - 2, _ => 0)
  }

  /** A shape on which the two-component reads `(i, j)` of `matmul` and
      `transpose` stay in the buffer: at least two extents, and, as soon as
      one such read is made, every extent after the first two positive. */
  predicate PlaneShape(shape: seq<nat>)
  {
    |shape| >= 2 && (shape[0] == 0 || shape[1] == 0 || forall k :: 2 <= k < |shape| ==> shape[k] > 0)
  }

  /** On a matrix the padded index is the pair itself. */
  lemma PlaneOfMatrix(i: nat, j: nat)
    ensures Plane(i, j, 2) == [i, j]
  {
    assert seq(0, _ => 0) == [];
  }

  /** The row-major position of `idx`: component `i` weighs the product of the
      extents after it. */
  function Flat(idx: seq<nat>, shape: seq<nat>): nat
    requires |idx| == |shape|
  {
    if idx == [] then 0 else idx[0] * Product(shape[1..]) + Flat(idx[1..], shape[1..])
  }

  /** The index at row-major position `f`: the inverse of `Flat`. */
  function Unflat(f: nat, shape: seq<nat>): seq<nat>
    requires f < Product(shape)
    decreases |shape|
  {
    if shape == [] then []
    else
      var p := Product(shape[1..]);
      assert p > 0;
      [f / p] + Unflat(f % p, shape[1..])
  }

  lemma MulLeft(a: nat, b: nat, c: nat)
    requires a <= b
    ensures a * c <= b * c
  {
  }

  /** One more row of `c` still fits below a larger multiple. */
  lemma MulStep(a: nat, b: nat, c: nat)
    requires a < b
    ensures a * c + c <= b * c
  {
    MulLeft(a + 1, b, c);
    assert (a + 1) * c == a * c + c;
  }

  /** A leading digit and a remainder below `p` determine each other. */
  lemma Digits(x: nat, y: nat, fx: nat, fy: nat, p: nat)
    requires fx < p && fy < p && x * p + fx == y * p + fy
    ensures x == y && fx == fy
  {
    if x < y {
      MulStep(x, y, p);
    } else if y < x {
      MulStep(y, x, p);
    }
  }

  /** An index inside the shape has a flat position inside the buffer. */
  lemma {:induction false} FlatBound(idx: seq<nat>, shape: seq<nat>)
    requires InBounds(idx, shape)
    ensures Flat(idx, shape) < Product(shape)
  {
    if idx != [] {
      var p := Product(shape[1..]);
      FlatBound(idx[1..], shape[1..]);
      MulStep(idx[0], shape[0], p);
    }
  }

  /** Distinct indices inside the shape have distinct flat positions. */
  lemma {:induction false} FlatInjective(a: seq<nat>, b: seq<nat>, shape: seq<nat>)
    requires InBounds(a, shape) && InBounds(b, shape) && Flat(a, shape) == Flat(b, shape)
    ensures a == b
  {
    if a != [] {
      var p := Product(shape[1..]);
      var fa, fb := Flat(a[1..], shape[1..]), Flat(b[1..], shape[1..]);
      assert InBounds(a[1..], shape[1..]) && InBounds(b[1..], shape[1..]);
      FlatBound(a[1..], shape[1..]);
      FlatBound(b[1..], shape[1..]);
      Digits(a[0], b[0], fa, fb, p);
      FlatInjective(a[1..], b[1..], shape[1..]);
      assert a == [a[0]] + a[1..] && b == [b[0]] + b[1..];
    }
  }

  /** Every buffer position is the flat position of exactly one index inside
      the shape: `Unflat` finds it. */
  lemma {:induction false} UnflatRoundTrip(f: nat, shape: seq<nat>)
    requires f < Product(shape)
    ensures InBounds(Unflat(f, shape), shape) && Flat(Unflat(f, shape), shape) == f
    decreases |shape|
  {
    if shape != [] {
      var p := Product(shape[1..]);
      var q, r := f / p, f % p;
      EuclidNat(f, p);
      if q >= shape[0] {
        MulLeft(shape[0], q, p);
        assert false;
      }
      UnflatRoundTrip(r, shape[1..]);
      var u := Unflat(f, shape);
      assert u[0] == q && u[1..] == Unflat(r, shape[1..]);
    }
  }

  lemma FlatUnflat(idx: seq<nat>, shape: seq<nat>)
    requires InBounds(idx, shape)
    ensures Flat(idx, shape) < Product(shape) && Unflat(Flat(idx, shape), shape) == idx
  {
    FlatBound(idx, shape);
    UnflatRoundTrip(Flat(idx, shape), shape);
    FlatInjective(Unflat(Flat(idx, shape), shape), idx, shape);
  }

  /** The flat position in a two-dimensional shape. */
  lemma Flat2(i: nat, j: nat, n: nat, m: nat)
    ensures Flat([i, j], [n, m]) == i * m + j
  {
    assert [i, j][1..] == [j] && [n, m][1..] == [m];
    assert [j][1..] == [] && [m][1..] == [];
    assert Product([m]) == m;
    assert Flat([j], [m]) == j;
  }

  /** The operation of `std::plus`, `std::minus`, `std::multiplies` or `std::divides`. */
  datatype Op = Plus | Minus | Times | Divides

  /** `x / y` on C++ integers: the quotient truncated toward zero. */
  function TruncDiv(x: int, y: int): int
    requires y != 0
  {
    var q: int := Abs(x) / Abs(y);
    if (x < 0) != (y < 0) then -q else q
  }

  function Abs(x: int): nat
  {
    if x < 0 then -x else x
  }

  /** C++'s quotient: what is left over is smaller than the divisor and has
      the dividend's sign, so the quotient never rounds away from zero. */
  lemma TruncDivRounds(x: int, y: int) returns (r: int)
    requires y != 0
    ensures x == TruncDiv(x, y) * y + r
    ensures Abs(r) < Abs(y) && (r == 0 || (r < 0 <==> x < 0))
  {
    var rr: int := Abs(x) % Abs(y);
    EuclidNat(Abs(x), Abs(y));
    QuotientTimesDivisor(x, y);
    r := if x < 0 then -rr else rr;
  }

  /** Division of naturals leaves a remainder below the divisor. */
  lemma EuclidNat(a: nat, b: nat)
    requires b > 0
    ensures a == (a / b) * b + a % b && 0 <= a % b < b
  {
  }

  /** The truncated quotient times the divisor is the multiple of the
      divisor's magnitude below the dividend's, with the dividend's sign. */
  lemma QuotientTimesDivisor(x: int, y: int)
    requires y != 0
    ensures var q := Abs(x) / Abs(y);
      TruncDiv(x, y) * y == if x < 0 then -(q * Abs(y)) else q * Abs(y)
  {
    var q: int := Abs(x) / Abs(y);
    var neg := (x < 0) != (y < 0);
    assert TruncDiv(x, y) == if neg then -q else q;
    MulSigns(q, y, neg);
  }

  lemma MulSigns(q: int, y: int, neg: bool)
    ensures (if neg then -q else q) * y == if neg != (y < 0) then -(q * Abs(y)) else q * Abs(y)
  {
    if y < 0 {
      assert q * y == -(q * Abs(y));
    }
  }

  /** Dividing a product by one of its factors gives back the other. */
  lemma TruncDivOfProduct(x: int, y: int)
    requires y != 0
    ensures TruncDiv(x * y, y) == x
  {
    var a, b := Abs(x), Abs(y);
    AbsProduct(x, y);
    var ab := a * b;
    EuclidNat(ab, b);
    Digits(ab / b, a, ab % b, 0, b);
    assert Abs(x * y) / Abs(y) == a;
    if x != 0 {
      ProductSign(x, y);
    }
  }

  lemma AbsProduct(x: int, y: int)
    ensures Abs(x * y) == Abs(x) * Abs(y)
  {
    if x < 0 && y < 0 {
      assert x * y == (-x) * (-y);
    } else if x < 0 {
      assert x * y == -((-x) * y);
    } else if y < 0 {
      assert x * y == -(x * (-y));
    }
  }

  lemma ProductSign(x: int, y: int)
    requires x != 0 && y != 0
    ensures (x * y < 0) <==> ((x < 0) != (y < 0))
  {
    AbsProduct(x, y);
    if x < 0 && y < 0 {
      assert x * y == (-x) * (-y);
    } else if x < 0 {
      assert x * y == -((-x) * y);
    } else if y < 0 {
      assert x * y == -(x * (-y));
    }
  }

  function Apply(op: Op, x: int, y: int): int
    requires op == Divides ==> y != 0
  {
    match op
    case Plus => x + y
    case Minus => x - y
    case Times => x * y
    case Divides => TruncDiv(x, y)
  }

  predicate NoZero(b: seq<int>)
  {
    forall i :: 0 <= i < |b| ==> b[i] != 0
  }

  /** What `std::transform(a, b, result, op)` leaves in `result`. */
  function Zip(op: Op, a: seq<int>, b: seq<int>): seq<int>
    requires |a| == |b| && (op == Divides ==> NoZero(b))
  {
    seq(|a|, i requires 0 <= i < |a| => Apply(op, a[i], b[i]))
  }

  /** Subtracting what was added, or dividing by what was multiplied in,
      restores the left operand. */
  lemma ZipUndo(a: seq<int>, b: seq<int>)
    requires |a| == |b|
    ensures Zip(Minus, Zip(Plus, a, b), b) == a
    ensures NoZero(b) ==> Zip(Divides, Zip(Times, a, b), b) == a
  {
    if NoZero(b) {
      forall i | 0 <= i < |a|
        ensures Zip(Divides, Zip(Times, a, b), b)[i] == a[i]
      {
        TruncDivOfProduct(a[i], b[i]);
      }
    }
  }

  class Tensor {
    /** `shape_`; its length is the template's `Dim`. */
    const shape: seq<nat>
    /** `*data_ptr_`.  Copies of a tensor share it, so it is an array that
        several tensors may hold. */
    const data: array<int>

    ghost predicate Valid()
      reads this
    {
      data.Length == Product(shape)
    }

    /** `Tensor()`: a zero shape and no elements.  For `Dim == 0` the
        product of the empty shape is 1, so only then the buffer is short. */
    constructor Empty(dim: nat)
      ensures shape == seq(dim, _ => 0) && data.Length == 0 && fresh(data)
      ensures dim > 0 <==> Valid()
    {
      shape := seq(dim, _ => 0);
      data := new int[0];
      new;
      assert shape[0..] == shape;
      if dim > 0 {
        assert shape[0] == 0;
      } else {
        assert shape == [];
      }
    }

    /** `Tensor(shape)`: `prod(shape)` value-initialised elements. */
    constructor (shape: seq<nat>)
      ensures Valid() && this.shape == shape && fresh(data)
      ensures forall f :: 0 <= f < data.Length ==> data[f] == 0
    {
      this.shape := shape;
      data := new int[Product(shape)](_ => 0);
    }

    /** The storage part of `Tensor(shape, data)`, once the size is right. */
    constructor WithData(shape: seq<nat>, values: seq<int>)
      requires |values| == Product(shape)
      ensures Valid() && this.shape == shape && fresh(data) && data[..] == values
    {
      this.shape := shape;
      data := new int[|values|](i requires 0 <= i < |values| => values[i]);
    }

    /** `get_flat_index`: accumulates the components from the last one
        inward, the multiplier growing by each extent passed. */
    method FlatIndex(idx: seq<nat>) returns (f: nat)
      requires |idx| == |shape|
      ensures f == Flat(idx, shape)
    {
      f := 0;
      var multiplier := 1;
      var i := |shape|;
      while i > 0
        invariant 0 <= i <= |shape|
        invariant f == Flat(idx[i..], shape[i..]) && multiplier == Product(shape[i..])
      {
        i := i - 1;
        assert idx[i..][1..] == idx[i + 1..] && shape[i..][1..] == shape[i + 1..];
        f := f + idx[i] * multiplier;
        multiplier := multiplier * shape[i];
      }
      assert idx[0..] == idx && shape[0..] == shape;
    }

    /** The element at `idx`, read through the flat index. */
    function At(idx: seq<nat>): int
      requires Valid() && InBounds(idx, shape)
      reads this, data
    {
      FlatBound(idx, shape);
      data[Flat(idx, shape)]
    }

    /** `operator()` read: the element at the flat position of `idx`, which
        must lie inside the buffer. */
    method Get(idx: seq<nat>) returns (x: int)
      requires |idx| == |shape| && Flat(idx, shape) < data.Length
      ensures x == data[Flat(idx, shape)]
    {
      var f := FlatIndex(idx);
      x := data[f];
    }

    /** `operator()` write: only the element at the flat position changes. */
    method Set(idx: seq<nat>, x: int)
      requires |idx| == |shape| && Flat(idx, shape) < data.Length
      modifies data
      ensures data[..] == old(data[..])[Flat(idx, shape) := x]
    {
      var f := FlatIndex(idx);
      data[f] := x;
    }
  
    /** `matmul`: throws unless the inner extents agree; otherwise entry
        `(i, j)` of the fresh result is the dot product of row `i` with
        column `j` of `other`.  The C++ member compiles only for a matrix:
        it reads the private `shape_` of `other`, a `Tensor<T, 2>`, which a
        `Tensor<T, Dim>` of another `Dim` may not.  The contract is stated
        through `Plane(i, k, |shape|)`, which on a matrix is `[i, k]`. */
    method MatMul(other: Tensor) returns (r: Result<Tensor>)
      requires Valid() && other.Valid() && PlaneShape(shape) && |other.shape| == 2
      ensures r.Err? <==> shape[1] != other.shape[0]
      ensures r.Err? ==> r.error == InvalidArgument("Invalid dimensions for matrix multiplication")
      ensures r.Ok? ==> IsProductOf(r.value, this, other) && fresh(r.value) && fresh(r.value.data)
    {
      if shape[1] != other.shape[0] {
        return Err(InvalidArgument("Invalid dimensions for matrix multiplication"));
      }
      var n, m, p := shape[0], shape[1], other.shape[1];
      var result := new Tensor([n, p]);
      for i := 0 to n
        invariant result.Valid() && result.shape == [n, p] && fresh(result.data)
        invariant forall i', j' :: 0 <= i' < i && 0 <= j' < p ==> result.At([i', j']) == Dot(this, other, i', j', m)
      {
        FillRow(other, result, i);
      }
      return Ok(result);
    }

    /** The middle loop of `matmul`: row `i` of `result` receives its dot
        products and no other row changes. */
    method FillRow(other: Tensor, result: Tensor, i: nat)
      requires Valid() && other.Valid() && PlaneShape(shape) && |other.shape| == 2 && shape[1] == other.shape[0]
      requires result.Valid() && result.shape == [shape[0], other.shape[1]] && i < shape[0]
      requires result.data != data && result.data != other.data
      modifies result.data
      ensures forall j' :: 0 <= j' < other.shape[1] ==> result.At([i, j']) == Dot(this, other, i, j', shape[1])
      ensures forall i', j' :: 0 <= i' < shape[0] && 0 <= j' < other.shape[1] && i' != i ==>
        result.At([i', j']) == old(result.At([i', j']))
    {
      for j := 0 to other.shape[1]
        invariant forall j' :: 0 <= j' < j ==> result.At([i, j']) == Dot(this, other, i, j', shape[1])
        invariant forall i', j' :: 0 <= i' < shape[0] && 0 <= j' < other.shape[1] && i' != i ==>
          result.At([i', j']) == old(result.At([i', j']))
      {
        var sum := RowTimesColumn(other, i, j);
        SetEntry(result, i, j, sum);
      }
    }

    /** The innermost loop of `matmul`: the sum over `k` of `(i, k)` times
        `other`'s `(k, j)`. */
    method RowTimesColumn(other: Tensor, i: nat, j: nat) returns (sum: int)
      requires Valid() && other.Valid() && PlaneShape(shape) && |other.shape| == 2 && shape[1] == other.shape[0]
      requires i < shape[0] && j < other.shape[1]
      ensures sum == Dot(this, other, i, j, shape[1])
    {
      sum := 0;
      for k := 0 to shape[1]
        invariant sum == Dot(this, other, i, j, k)
      {
        FlatBound(Plane(i, k, |shape|), shape);
        FlatBound([k, j], other.shape);
        var x := Get(Plane(i, k, |shape|));
        var y := other.Get([k, j]);
        sum := sum + x * y;
      }
    }

    /** `transpose`: entry `(j, i)` of the fresh result is entry `(i, j)`;
        on more than two dimensions that entry is `Plane(i, j, Dim)`, so the
        result is the transpose of the slice whose further components are
        0. */
    method Transpose() returns (t: Tensor)
      requires Valid() && PlaneShape(shape)
      ensures IsTransposeOf(t, this) && fresh(t) && fresh(t.data)
    {
      var n, m := shape[0], shape[1];
      t := new Tensor([m, n]);
      for i := 0 to n
        invariant t.Valid() && t.shape == [m, n] && fresh(t.data)
        invariant forall i', j' :: 0 <= i' < i && 0 <= j' < m ==> t.At([j', i']) == At(Plane(i', j', |shape|))
      {
        for j := 0 to m
          invariant forall i', j' :: 0 <= i' < i && 0 <= j' < m ==> t.At([j', i']) == At(Plane(i', j', |shape|))
          invariant forall j' :: 0 <= j' < j ==> t.At([j', i]) == At(Plane(i, j', |shape|))
        {
          FlatBound(Plane(i, j, |shape|), shape);
          var x := Get(Plane(i, j, |shape|));
          SetEntry(t, j, i, x);
        }
      }
    }

    /** `operator+`, `-`, `*` and `/`: throw on a shape mismatch;
        otherwise a fresh tensor of the same shape holds the element-wise
        results, and neither operand changes. */
    method Elementwise(op: Op, other: Tensor) returns (r: Result<Tensor>)
      requires Valid() && other.Valid()
      requires op == Divides && shape == other.shape ==> NoZero(other.data[..])
      ensures r.Err? <==> shape != other.shape
      ensures r.Err? ==> r.error == InvalidArgument("Tensor shapes do not match")
      ensures r.Ok? ==> fresh(r.value) && fresh(r.value.data) && r.value.Valid() && r.value.shape == shape
      ensures r.Ok? ==> r.value.data[..] == Zip(op, data[..], other.data[..])
    {
      if shape != other.shape {
        return Err(InvalidArgument("Tensor shapes do not match"));
      }
      var result := new Tensor(shape);
      for i := 0 to data.Length
        invariant forall i' :: 0 <= i' < i ==> result.data[i'] == Apply(op, data[i'], other.data[i'])
      {
        result.data[i] := Apply(op, data[i], other.data[i]);
      }
      return Ok(result);
    }
  }

  /** The sum of the first `k` products of row `i` of `a` with column `j` of `b`. */
  function Dot(a: Tensor, b: Tensor, i: nat, j: nat, k: nat): int
    requires a.Valid() && b.Valid() && PlaneShape(a.shape) && |b.shape| == 2 && a.shape[1] == b.shape[0]
    requires i < a.shape[0] && j < b.shape[1] && k <= a.shape[1]
    reads a, a.data, b, b.data
  {
    if k == 0 then 0 else Dot(a, b, i, j, k - 1) + a.At(Plane(i, k - 1, |a.shape|)) * b.At([k - 1, j])
  }

  /** `t` is the matrix product of `a` and `b`. */
  ghost predicate IsProductOf(t: Tensor, a: Tensor, b: Tensor)
    reads t, t.data, a, a.data, b, b.data
  {
    && a.Valid() && b.Valid() && PlaneShape(a.shape) && |b.shape| == 2 && a.shape[1] == b.shape[0]
    && t.Valid() && t.shape == [a.shape[0], b.shape[1]]
    && forall i, j :: 0 <= i < a.shape[0] && 0 <= j < b.shape[1] ==> t.At([i, j]) == Dot(a, b, i, j, a.shape[1])
  }

  /** `t` is the transpose of the matrix `a`, or of its slice at further
      components 0. */
  ghost predicate IsTransposeOf(t: Tensor, a: Tensor)
    reads t, t.data, a, a.data
  {
    && a.Valid() && PlaneShape(a.shape) && t.Valid() && t.shape == [a.shape[1], a.shape[0]]
    && forall i, j :: 0 <= i < a.shape[0] && 0 <= j < a.shape[1] ==> t.At([j, i]) == a.At(Plane(i, j, |a.shape|))
  }

  /** Transposing twice gives back the plane `(i, j)` that was read, and so,
      on a matrix, the original matrix element for element. */
  lemma TransposeTwice(a: Tensor, b: Tensor, c: Tensor)
    requires IsTransposeOf(b, a) && IsTransposeOf(c, b)
    ensures c.shape == a.shape[..2]
    ensures forall i, j :: 0 <= i < a.shape[0] && 0 <= j < a.shape[1] ==> c.At([i, j]) == a.At(Plane(i, j, |a.shape|))
    ensures |a.shape| == 2 ==> c.data[..] == a.data[..]
  {
    forall i, j | 0 <= i < a.shape[0] && 0 <= j < a.shape[1]
      ensures c.At([i, j]) == a.At(Plane(i, j, |a.shape|))
    {
      PlaneOfMatrix(j, i);
      PlaneOfMatrix(i, j);
      assert c.At(Plane(i, j, 2)) == b.At([j, i]);
    }
    if |a.shape| == 2 {
      assert c.shape == [a.shape[0], a.shape[1]] == a.shape;
      forall f | 0 <= f < a.data.Length
        ensures c.data[f] == a.data[f]
      {
        UnflatRoundTrip(f, a.shape);
        var idx := Unflat(f, a.shape);
        assert idx == [idx[0], idx[1]];
        PlaneOfMatrix(idx[0], idx[1]);
        assert c.At(idx) == a.At(idx);
      }
    }
  }

  /** Writing one element through `operator()` leaves every other index's
      element as it was. */
  method SetOne(t: Tensor, idx: seq<nat>, x: int)
    requires t.Valid() && InBounds(idx, t.shape)
    modifies t.data
    ensures t.At(idx) == x
    ensures forall other :: InBounds(other, t.shape) && other != idx ==> t.At(other) == old(t.At(other))
  {
    FlatBound(idx, t.shape);
    t.Set(idx, x);
    forall other | InBounds(other, t.shape) && other != idx
      ensures t.At(other) == old(t.At(other))
    {
      FlatBound(other, t.shape);
      if Flat(other, t.shape) == Flat(idx, t.shape) {
        FlatInjective(other, idx, t.shape);
      }
      assert t.data[Flat(other, t.shape)] == t.data[..][Flat(other, t.shape)];
    }
    assert t.data[Flat(idx, t.shape)] == t.data[..][Flat(idx, t.shape)];
  }

  /** `t({i, j}) = x` on a matrix, stated entry by entry. */
  method SetEntry(t: Tensor, i: nat, j: nat, x: int)
    requires t.Valid() && |t.shape| == 2 && i < t.shape[0] && j < t.shape[1]
    modifies t.data
    ensures t.At([i, j]) == x
    ensures forall i', j' :: 0 <= i' < t.shape[0] && 0 <= j' < t.shape[1] && (i' != i || j' != j) ==>
      t.At([i', j']) == old(t.At([i', j']))
  {
    SetOne(t, [i, j], x);
    forall i', j' | 0 <= i' < t.shape[0] && 0 <= j' < t.shape[1] && (i' != i || j' != j)
      ensures t.At([i', j']) == old(t.At([i', j']))
    {
      assert [i', j'] != [i, j] by {
        if i' != i {
          assert [i', j'][0] != [i, j][0];
        } else {
          assert [i', j'][1] != [i, j][1];
        }
      }
    }
  }

  /** `Tensor(shape, data)`: throws unless the data has `prod(shape)` elements. */
  method FromData(shape: seq<nat>, values: seq<int>) returns (r: Result<Tensor>)
    ensures r.Err? <==> |values| != Product(shape)
    ensures r.Err? ==> r.error == InvalidArgument("Data size does not match shape")
    ensures r.Ok? ==> fresh(r.value) && fresh(r.value.data) && r.value.Valid()
    ensures r.Ok? ==> r.value.shape == shape && r.value.data[..] == values
  {
    if |values| != Product(shape) {
      return Err(InvalidArgument("Data size does not match shape"));
    }
    var t := new Tensor.WithData(shape, values);
    return Ok(t);
  }
}
