/** The write-once deferred value (src/evaluate/facilities/eval_handle.h).

    `DataWithEvalInfo` is the shared cell `{m_data, m_eval}` an `EvalHandle`
    points to.  An `EvalHandle` is a value holding a reference to that cell,
    so copying a handle copies the reference and every copy sees the same
    cell; `DataPtr()` is the cell's identity. */
module EvalHandles {
  import opened Wrappers

  const AlreadyEvaluated := RuntimeError("Data is already evaluated.")
  const NotEvaluated := RuntimeError("Data is not evaluated.")

  /** The cell shared by all copies of one handle. */
  class DataWithEvalInfo<T> {
    var data: T
    var eval: bool

    /** `make_shared<DataWithEvalInfo>()`: `init` is the default-constructed `TData`. */
    constructor (init: T)
      ensures data == init && !eval
    {
      data := init;
      eval := false;
    }
  }

  /** `EvalHandle()`: a handle on a fresh, unevaluated cell. */
  method NewEvalHandle<T>(init: T) returns (h: EvalHandle<T>)
    ensures fresh(h.cell)
    ensures !h.cell.eval && h.cell.data == init
  {
    var c := new DataWithEvalInfo(init);
    h := EvalHandle(c);
  }

  datatype EvalHandle<T> = EvalHandle(cell: DataWithEvalInfo<T>) {

    /** Evaluated exactly when `Data()` hands out the value, and unevaluated
        exactly when it refuses with `NotEvaluated`. */
    function IsEvaluated(): (b: bool)
      reads cell
      ensures b <==> Data().Ok?
      ensures !b <==> Data() == Err(NotEvaluated)
    {
      cell.eval
    }

    /** Mutable access, refused once the cell is evaluated. */
    method MutableData() returns (r: Result<T>)
      ensures r.Err? <==> cell.eval
      ensures r.Err? ==> r.error == AlreadyEvaluated
      ensures r.Ok? ==> r.value == cell.data
    {
      if cell.eval {
        return Err(AlreadyEvaluated);
      }
      r := Ok(cell.data);
    }

    /** A store through the reference `MutableData()` handed out.  C++
        performs no check on such a store. */
    method Assign(v: T)
      modifies cell
      ensures cell.data == v && cell.eval == old(cell.eval)
    {
      cell.data := v;
    }

    /** The one-way transition from unevaluated to evaluated. */
    method SetEval() returns (r: Outcome)
      modifies cell
      ensures old(cell.eval) ==> r == Fail(AlreadyEvaluated) && unchanged(cell)
      ensures !old(cell.eval) ==> r == Pass && cell.eval && cell.data == old(cell.data)
    {
      if cell.eval {
        return Fail(AlreadyEvaluated);
      }
      cell.eval := true;
      r := Pass;
    }

    /** Read access, refused while the cell is unevaluated. */
    function Data(): (r: Result<T>)
      reads cell
      ensures r.Ok? <==> cell.eval
      ensures r.Err? ==> r.error == NotEvaluated
      ensures r.Ok? ==> r.value == cell.data
    {
      if !cell.eval then Err(NotEvaluated) else Ok(cell.data)
    }

    /** The identity used for dependency tracking: the cell itself. */
    function DataPtr(): (p: object?)
      ensures p != null
    {
      cell
    }

    /** Constructs a new value into the cell, refused once evaluated.  Nothing
        prevents several calls before `SetEval`: the last one wins. */
    method Allocate(v: T) returns (r: Outcome)
      modifies cell
      ensures old(cell.eval) ==> r == Fail(AlreadyEvaluated) && unchanged(cell)
      ensures !old(cell.eval) ==> r == Pass && cell.data == v && !cell.eval
    {
      if cell.eval {
        return Fail(AlreadyEvaluated);
      }
      cell.data := v;
      r := Pass;
    }
  }

  /** The storage of a plain `ConstEvalHandle<TData>`: the copied value, whose
      address is the handle's `DataPtr()`. */
  class ConstStorage<T> {
    const value: T

    constructor (v: T)
      ensures value == v
    {
      value := v;
    }
  }

  /** `ConstEvalHandle<TData>` (a plain value) and its specialisation
      `ConstEvalHandle<EvalHandle<TData>>` (a read-only view of a cell). */
  datatype ConstEvalHandle<T> =
    | PlainConst(storage: ConstStorage<T>)
    | DeferredConst(handle: EvalHandle<T>)
  {
    /** The cells `Data` reads: the wrapped cell of the deferred form. */
    ghost function Reads(): set<DataWithEvalInfo<T>>
    {
      if DeferredConst? then {handle.cell} else {}
    }

    /** The plain form always succeeds with its value; the deferred form
        delegates to the wrapped handle, failing while it is unevaluated. */
    function Data(): (r: Result<T>)
      reads Reads()
      ensures PlainConst? ==> r == Ok(storage.value)
      ensures DeferredConst? ==> r == handle.Data()
    {
      match this
      case PlainConst(s) => Ok(s.value)
      case DeferredConst(h) => h.Data()
    }

    function DataPtr(): (p: object?)
      ensures p != null
      ensures DeferredConst? ==> p == handle.DataPtr()
      ensures PlainConst? ==> p == storage
    {
      match this
      case PlainConst(s) => s
      case DeferredConst(h) => h.DataPtr()
    }
  }

  /** `MakeConstEvalHandle(data)`: copies `data` into fresh storage. */
  method MakeConstEvalHandle<T>(data: T) returns (h: ConstEvalHandle<T>)
    ensures h.PlainConst? && fresh(h.storage)
    ensures h.Data() == Ok(data)
  {
    var s := new ConstStorage(data);
    h := PlainConst(s);
  }

  /** `DynamicConstEvalHandle<TData>`: a type-erased wrapper around either
      form of `ConstEvalHandle`, delegating both accessors to it. */
  datatype DynamicConstEvalHandle<T> = DynamicConstEvalHandle(inner: ConstEvalHandle<T>) {

    function Data(): (r: Result<T>)
      reads inner.Reads()
      ensures r == inner.Data()
    {
      inner.Data()
    }

    /** The identity of the wrapped handle, never null: the shared cell of
        a deferred handle, the storage of a plain one. */
    function DataPtr(): (p: object?)
      ensures p == inner.DataPtr() && p != null
      ensures inner.DeferredConst? ==> p == inner.handle.cell
      ensures inner.PlainConst? ==> p == inner.storage
    {
      inner.DataPtr()
    }
  }

  /** Copies of a handle alias one cell: a value allocated and published
      through one copy is what every other copy and every read-only view of
      it reads, and a second `SetEval` through any copy fails. */
  method CopiesShareOneCell<T>(init: T, v: T)
    returns (before: Result<T>, second: Outcome, viaCopy: Result<T>, viaConst: Result<T>, viaDynamic: Result<T>, samePtr: bool)
    ensures before == Err(NotEvaluated)
    ensures second == Fail(AlreadyEvaluated)
    ensures viaCopy == Ok(v) && viaConst == Ok(v) && viaDynamic == Ok(v)
    ensures samePtr
  {
    var h := NewEvalHandle(init);
    var copy := h;
    var view := DeferredConst(h);
    before := view.Data();
    var a := copy.Allocate(v);
    var s := h.SetEval();
    second := copy.SetEval();
    viaCopy := copy.Data();
    viaConst := view.Data();
    viaDynamic := DynamicConstEvalHandle(view).Data();
    samePtr := h.DataPtr() == copy.DataPtr() && view.DataPtr() == h.DataPtr()
      && DynamicConstEvalHandle(view).DataPtr() == h.DataPtr();
  }

  /** Before `SetEval` the cell may be reallocated and the last value wins;
      afterwards `Allocate` and `MutableData` are refused and the published
      value stays. */
  method LastAllocationWins<T>(init: T, v1: T, v2: T, v3: T)
    returns (late: Outcome, mutable: Result<T>, published: Result<T>)
    ensures late == Fail(AlreadyEvaluated)
    ensures mutable == Err(AlreadyEvaluated)
    ensures published == Ok(v2)
  {
    var h := NewEvalHandle(init);
    var a1 := h.Allocate(v1);
    var a2 := h.Allocate(v2);
    var s := h.SetEval();
    late := h.Allocate(v3);
    mutable := h.MutableData();
    published := h.Data();
  }
}
