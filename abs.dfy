/** The element-wise absolute value operator (src/operators/abs.h): the two
    CPU evaluation units (one matrix, a batch of matrices). */
module Abs {
  import opened Wrappers
  import opened EvalHandles

  /** A matrix as the kernel sees it through `LowerAccess`: `rowNum` rows of
      `colNum` elements, row `i` starting at offset `i * rowLen`. */
  datatype MatrixData = MatrixData(rowNum: nat, colNum: nat, rowLen: nat, mem: seq<int>)

  type Matrix = m: MatrixData | m.colNum <= m.rowLen && Offset(m.rowNum, 0, m.rowLen) <= |m.mem|
    witness MatrixData(0, 0, 0, [])

  /** A batch of matrices of one shape; `p_v[b]` is `items[b]`. */
  datatype BatchData = BatchData(rowNum: nat, colNum: nat, items: seq<Matrix>)

  type BatchMatrix = b: BatchData |
    forall t :: 0 <= t < |b.items| ==> b.items[t].rowNum == b.rowNum && b.items[t].colNum == b.colNum
    witness BatchData(0, 0, [])

  function BatchNum(b: BatchMatrix): nat
  {
    |b.items|
  }

  /** `i * stride + j`, the offset of element `(i, j)` in a buffer whose
      rows are `stride` apart, unfolded one row at a time. */
  function Offset(i: nat, j: nat, stride: nat): nat
  {
    if i == 0 then j else Offset(i - 1, j, stride) + stride
  }

  lemma {:induction false} OffsetSplit(i: nat, j: nat, stride: nat)
    ensures Offset(i, j, stride) == Offset(i, 0, stride) + j
  {
    if i > 0 {
      OffsetSplit(i - 1, j, stride);
    }
  }

  /** Every offset of rows `0 .. rows-1` lies before row `rows`. */
  lemma {:induction false} OffsetInRange(i: nat, j: nat, rows: nat, stride: nat)
    requires i < rows && j < stride
    ensures Offset(i, j, stride) < Offset(rows, 0, stride)
  {
    if i + 1 == rows {
      OffsetSplit(i, j, stride);
    } else {
      OffsetInRange(i, j, rows - 1, stride);
    }
  }

  lemma {:induction false} OffsetMono(i: nat, rows: nat, stride: nat)
    requires i <= rows
    ensures Offset(i, 0, stride) <= Offset(rows, 0, stride)
  {
    if i < rows {
      OffsetMono(i, rows - 1, stride);
    }
  }

  lemma OffsetsBelow(i: nat, stride: nat)
    ensures forall i', j' :: 0 <= i' < i && 0 <= j' < stride ==> Offset(i', j', stride) < Offset(i, 0, stride)
  {
    forall i', j' | 0 <= i' < i && 0 <= j' < stride
      ensures Offset(i', j', stride) < Offset(i, 0, stride)
    {
      OffsetInRange(i', j', i, stride);
    }
  }

  function Elem(m: Matrix, i: nat, j: nat): int
    requires i < m.rowNum && j < m.colNum
  {
    OffsetInRange(i, j, m.rowNum, m.rowLen);
    m.mem[Offset(i, j, m.rowLen)]
  }

  /** `x > 0 ? x : -x` on the element type. */
  function AbsInt(x: int): int
  {
    if x > 0 then x else -x
  }

  /** `Matrix(rowNum, colNum)`: the allocated output, stored contiguously
      and value-initialised. */
  function NewMatrix(rows: nat, cols: nat): (m: Matrix)
    ensures m.rowNum == rows && m.colNum == cols && m.rowLen == cols
  {
    MatrixData(rows, cols, cols, seq(Offset(rows, 0, cols), _ => 0))
  }

  /** `Batch(batchNum, rowNum, colNum)`. */
  function NewBatch(count: nat, rows: nat, cols: nat): (b: BatchMatrix)
    ensures BatchNum(b) == count && b.rowNum == rows && b.colNum == cols
  {
    BatchData(rows, cols, seq(count, _ => NewMatrix(rows, cols)))
  }

  /** `r` is what an absolute-value unit publishes for operand `m`: a
      contiguous matrix of `m`'s shape holding `|x|` for every element `x`. */
  predicate IsAbsOf(r: Matrix, m: Matrix)
  {
    && r.rowNum == m.rowNum && r.colNum == m.colNum && r.rowLen == m.colNum
    && |r.mem| == Offset(m.rowNum, 0, m.colNum)
    && forall i, j :: 0 <= i < m.rowNum && 0 <= j < m.colNum ==> Elem(r, i, j) == AbsInt(Elem(m, i, j))
  }

  /** Every element of an absolute value is non-negative. */
  lemma {:induction false} AbsNonNegative(r: Matrix, m: Matrix)
    requires IsAbsOf(r, m)
    ensures forall i, j :: 0 <= i < r.rowNum && 0 <= j < r.colNum ==> Elem(r, i, j) >= 0
  {
    forall i, j | 0 <= i < r.rowNum && 0 <= j < r.colNum
      ensures Elem(r, i, j) >= 0
    {
      assert Elem(r, i, j) == AbsInt(Elem(m, i, j));
    }
  }

  /** Idempotence: the absolute value of an absolute value is itself. */
  lemma {:induction false} AbsIdempotent(r: Matrix, m: Matrix)
    requires IsAbsOf(r, m)
    ensures IsAbsOf(r, r)
  {
    AbsNonNegative(r, m);
  }

  /** The batch counterpart: the same shape, every matrix transformed. */
  predicate IsAbsOfBatch(r: BatchMatrix, b: BatchMatrix)
  {
    && BatchNum(r) == BatchNum(b) && r.rowNum == b.rowNum && r.colNum == b.colNum
    && forall t :: 0 <= t < BatchNum(b) ==> IsAbsOf(r.items[t], b.items[t])
  }

  lemma {:induction false} AbsBatchIdempotent(r: BatchMatrix, b: BatchMatrix)
    requires IsAbsOfBatch(r, b)
    ensures IsAbsOfBatch(r, r)
  {
    forall t | 0 <= t < BatchNum(r)
      ensures IsAbsOf(r.items[t], r.items[t])
    {
      AbsIdempotent(r.items[t], b.items[t]);
    }
  }

  /** The inner loop of both `Eval` bodies, writing one row: `|src(i, j)|`
      goes to `r[rr + j]` for every `j < colNum`, `r1` and `rr` being the two
      row cursors. */
  method AbsRow(src: Matrix, i: nat, r: array<int>, r1: nat, rr: nat)
    requires i < src.rowNum && r1 == Offset(i, 0, src.rowLen)
    requires rr + src.colNum <= r.Length
    modifies r
    ensures forall j :: 0 <= j < src.colNum ==> r[rr + j] == AbsInt(Elem(src, i, j))
    ensures forall k :: 0 <= k < r.Length && !(rr <= k < rr + src.colNum) ==> r[k] == old(r[k])
  {
    for j := 0 to src.colNum
      invariant forall j' :: 0 <= j' < j ==> r[rr + j'] == AbsInt(Elem(src, i, j'))
      invariant forall k :: 0 <= k < r.Length && !(rr <= k < rr + src.colNum) ==> r[k] == old(r[k])
    {
      OffsetInRange(i, j, src.rowNum, src.rowLen);
      OffsetSplit(i, j, src.rowLen);
      r[rr + j] := if src.mem[r1 + j] > 0 then src.mem[r1 + j] else -src.mem[r1 + j];
    }
  }

  /** The strided double loop of both `Eval` bodies: for `i < rowNum` and
      `j < colNum` it stores `|src(i, j)|` into `dst(i, j)`, both cursors
      advancing by their own `RowLen` after each row. */
  method AbsRows(src: Matrix, dst: Matrix) returns (res: Matrix)
    requires dst.rowNum == src.rowNum && dst.colNum == src.colNum
    ensures res.rowNum == dst.rowNum && res.colNum == dst.colNum && res.rowLen == dst.rowLen
    ensures |res.mem| == |dst.mem|
    ensures forall i, j :: 0 <= i < src.rowNum && 0 <= j < src.colNum ==>
      Elem(res, i, j) == AbsInt(Elem(src, i, j))
  {
    var rowNum, colNum := src.rowNum, src.colNum;
    var src1PackNum, tgtPackNum := src.rowLen, dst.rowLen;
    var r := new int[|dst.mem|](k requires 0 <= k < |dst.mem| => dst.mem[k]);
    var r1 := 0;
    var rr := 0;
    for i := 0 to rowNum
      invariant r1 == Offset(i, 0, src1PackNum) && rr == Offset(i, 0, tgtPackNum)
      invariant forall i', j' {:trigger Elem(src, i', j')} :: 0 <= i' < i && 0 <= j' < colNum ==>
        Offset(i', j', tgtPackNum) < r.Length && r[Offset(i', j', tgtPackNum)] == AbsInt(Elem(src, i', j'))
    {
      OffsetsBelow(i, tgtPackNum);
      if colNum > 0 {
        OffsetInRange(i, colNum - 1, rowNum, tgtPackNum);
        OffsetSplit(i, colNum - 1, tgtPackNum);
      } else {
        OffsetMono(i, rowNum, tgtPackNum);
      }
      AbsRow(src, i, r, r1, rr);
      forall j' | 0 <= j' < colNum
        ensures Offset(i, j', tgtPackNum) == rr + j'
      {
        OffsetSplit(i, j', tgtPackNum);
      }
      r1 := r1 + src1PackNum;
      rr := rr + tgtPackNum;
    }
    res := MatrixData(rowNum, colNum, tgtPackNum, r[..]);
  }

  /** `EvalUnit<..., CategoryTags::Matrix>::Eval`: reads the operand (which
      must be evaluated), allocates an output of the operand's shape, writes
      `|x|` into it and publishes it.  An evaluated output makes `Allocate`
      throw, so running a unit twice fails the second time. */
  method EvalMatrix(oper: ConstEvalHandle<Matrix>, out: EvalHandle<Matrix>) returns (r: Outcome)
    modifies out.cell
    ensures r.Pass? <==> old(oper.Data()).Ok? && !old(out.cell.eval)
    ensures r.Pass? ==> out.cell.eval && IsAbsOf(out.cell.data, old(oper.Data()).value)
    ensures r.Fail? ==> unchanged(out.cell)
    ensures r.Fail? ==> r.error == if old(oper.Data()).Err? then NotEvaluated else AlreadyEvaluated
  {
    var pv := oper.Data();
    if pv.Err? {
      return Fail(NotEvaluated);
    }
    var p := pv.value;
    var rowNum, colNum := p.rowNum, p.colNum;
    r := out.Allocate(NewMatrix(rowNum, colNum));
    if r.Fail? {
      return;
    }
    var res := out.MutableData();
    if res.Err? {
      return Fail(AlreadyEvaluated);
    }
    var written := AbsRows(p, res.value);
    out.Assign(written);
    r := out.SetEval();
  }

  /** `EvalUnit<..., CategoryTags::BatchMatrix>::Eval`: the same transform
      applied to every matrix of the batch, published once at the end. */
  method EvalBatch(oper: ConstEvalHandle<BatchMatrix>, out: EvalHandle<BatchMatrix>) returns (r: Outcome)
    modifies out.cell
    ensures r.Pass? <==> old(oper.Data()).Ok? && !old(out.cell.eval)
    ensures r.Pass? ==> out.cell.eval && IsAbsOfBatch(out.cell.data, old(oper.Data()).value)
    ensures r.Fail? ==> unchanged(out.cell)
    ensures r.Fail? ==> r.error == if old(oper.Data()).Err? then NotEvaluated else AlreadyEvaluated
  {
    var pv := oper.Data();
    if pv.Err? {
      return Fail(NotEvaluated);
    }
    var p := pv.value;
    var rowNum, colNum, batchNum := p.rowNum, p.colNum, BatchNum(p);
    r := out.Allocate(NewBatch(batchNum, rowNum, colNum));
    if r.Fail? {
      return;
    }
    var res := out.MutableData();
    if res.Err? {
      return Fail(AlreadyEvaluated);
    }
    var items := res.value.items;
    for curBatch := 0 to batchNum
      invariant |items| == batchNum
      invariant forall t :: 0 <= t < |items| ==> items[t].rowNum == rowNum && items[t].colNum == colNum
      invariant forall t :: 0 <= t < curBatch ==> IsAbsOf(items[t], p.items[t])
      invariant forall t :: curBatch <= t < batchNum ==> items[t] == NewMatrix(rowNum, colNum)
      invariant !out.cell.eval
    {
      var written := AbsRows(p.items[curBatch], items[curBatch]);
      items := items[curBatch := written];
    }
    var result: BatchMatrix := BatchData(rowNum, colNum, items);
    out.Assign(result);
    r := out.SetEval();
  }
}
