/** `EvalBuffer<TData>` (src/evaluate/facilities/eval_buffer.h): the owner of
    one `EvalHandle`.  It has no state of its own; every accessor hands out
    a copy of (or a read-only view on) the same shared cell. */
module EvalBuffers {
  import opened Wrappers
  import opened EvalHandles

  datatype EvalBuffer<T> = EvalBuffer(handle: EvalHandle<T>) {

    /** A copy of the buffer's handle: it aliases the buffer's cell. */
    function Handle(): (h: EvalHandle<T>)
      ensures h.DataPtr() == handle.DataPtr()
    {
      handle
    }

    /** `ConstEvalHandle<EvalHandle<TData>>(m_handle)`. */
    function ConstHandle(): (h: ConstEvalHandle<T>)
      ensures h.DeferredConst? && h.DataPtr() == handle.DataPtr()
    {
      DeferredConst(handle)
    }

    /** The buffer is evaluated exactly when its read-only view can be read. */
    function IsEvaluated(): (b: bool)
      reads handle.cell
      ensures b <==> ConstHandle().Data().Ok?
    {
      handle.IsEvaluated()
    }
  }

  /** A default-constructed buffer: its handle's cell is fresh and unevaluated. */
  method NewEvalBuffer<T>(init: T) returns (b: EvalBuffer<T>)
    ensures fresh(b.handle.cell)
    ensures !b.IsEvaluated()
  {
    var h := NewEvalHandle(init);
    b := EvalBuffer(h);
  }

  /** Publishing through a handle obtained from `Handle()` is what the buffer
      and its `ConstHandle()` observe: before it the read-only view refuses,
      afterwards it returns the allocated value. */
  method PublishThroughHandle<T>(init: T, v: T)
    returns (freshEvaluated: bool, before: Result<T>, after: Result<T>, evaluated: bool, samePtr: bool)
    ensures !freshEvaluated
    ensures before == Err(NotEvaluated)
    ensures after == Ok(v) && evaluated
    ensures samePtr
  {
    var b := NewEvalBuffer(init);
    freshEvaluated := b.IsEvaluated();
    before := b.ConstHandle().Data();
    var h := b.Handle();
    var a := h.Allocate(v);
    var s := b.Handle().SetEval();
    after := b.ConstHandle().Data();
    evaluated := b.IsEvaluated();
    samePtr := b.Handle().DataPtr() == h.DataPtr();
  }
}
