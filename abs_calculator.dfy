/** `Calculator::EvalRegister` of src/operators/abs.h: how an absolute-value
    expression is turned into deferred work.  The operand has already been
    registered (its own `EvalRegister` returned `oper`); the calculator wraps
    operand and result into one unit and files it with the thread's plan,
    naming the result's cell as the output and the operand's storage as the
    only dependency. */
module AbsCalculators {
  import opened Wrappers
  import opened EvalHandles
  import opened EvalBuffers
  import opened EvalUnits
  import opened EvalPlans
  import opened Abs

  /** `TrivalEvalGroup<EvalUnit<decltype(handle), …, CategoryTags::Matrix>>`:
      the group type depends on the category and on the kind of operand
      handle, so a plain operand and a deferred one get different groups. */
  function MatrixGroup(oper: ConstEvalHandle<Matrix>): GroupKey
  {
    if oper.PlainConst? then GroupKey("TrivalEvalGroup<EvalUnit<ConstEvalHandle<Matrix>, Matrix>>")
    else GroupKey("TrivalEvalGroup<EvalUnit<ConstEvalHandle<EvalHandle<Matrix>>, Matrix>>")
  }

  /** The same for `CategoryTags::BatchMatrix`. */
  function BatchGroup(oper: ConstEvalHandle<BatchMatrix>): GroupKey
  {
    if oper.PlainConst? then GroupKey("TrivalEvalGroup<EvalUnit<ConstEvalHandle<BatchMatrix>, BatchMatrix>>")
    else GroupKey("TrivalEvalGroup<EvalUnit<ConstEvalHandle<EvalHandle<BatchMatrix>>, BatchMatrix>>")
  }

  /** The arguments of the `Register` call for a matrix operand: the unit
      reads `oper` and writes the result buffer's cell, the output id is that
      cell and the single dependency is the operand's `DataPtr()`. */
  function MatrixRegistration(res: EvalBuffer<Matrix>, oper: ConstEvalHandle<Matrix>): (reg: Registration)
    ensures reg.output == res.Handle().DataPtr() && reg.output != null
    ensures reg.operands == [oper.DataPtr()]
    ensures reg.unit.AbsMatrixUnit? && reg.unit.oper == oper && reg.unit.out.DataPtr() == res.Handle().DataPtr()
  {
    var outHandle := res.Handle();
    Registration(MatrixGroup(oper), AbsMatrixUnit(oper, outHandle), outHandle.DataPtr(), [oper.DataPtr()])
  }

  function BatchRegistration(res: EvalBuffer<BatchMatrix>, oper: ConstEvalHandle<BatchMatrix>): (reg: Registration)
    ensures reg.output == res.Handle().DataPtr() && reg.output != null
    ensures reg.operands == [oper.DataPtr()]
    ensures reg.unit.AbsBatchUnit? && reg.unit.boper == oper && reg.unit.bout.DataPtr() == res.Handle().DataPtr()
  {
    var outHandle := res.Handle();
    Registration(BatchGroup(oper), AbsBatchUnit(oper, outHandle), outHandle.DataPtr(), [oper.DataPtr()])
  }


  /** Where the registration lands in a layer whose view is `v`.  A result
      already registered is left alone.  Otherwise the unit is filed one
      level deeper than its operand when the operand is output by work
      already in the layer, and at depth 0 when it is not; it joins the back
      of its group there, runs nothing itself, and registers nothing. */
  lemma {:induction false} RegisteredAfterOperand(v: LayerView, reg: Registration)
    requires reg.output != null && |reg.operands| == 1
    ensures reg.output in v.outputs ==> RegisterSpec(v, reg) == v
    ensures reg.output !in v.outputs ==>
      var r := RegisterSpec(v, reg);
      ghost var d := if reg.operands[0] in v.outputs then v.outputs[reg.operands[0]] + 1 else 0;
      && reg.output in r.outputs && r.outputs[reg.output] == d
      && d < |r.seqv| && reg.group in r.seqv[d]
      && |r.seqv[d][reg.group]| >= 1 && r.seqv[d][reg.group][|r.seqv[d][reg.group]| - 1] == reg.unit
  {
    if reg.output !in v.outputs {
      RegisterEffect(v, reg);
      OneOperandDepth(v.outputs, reg.operands);
    }
  }

  /** With one operand, the depth is one below that operand's, or 0. */
  lemma OneOperandDepth(depMap: map<object?, nat>, ps: seq<object?>)
    requires |ps| == 1
    ensures MaxTracked(depMap, ps) + 1 == if ps[0] in depMap then depMap[ps[0]] + 1 else 0
  {
    assert ps[..0] == [];
  }

  /** An evaluated matrix unit has published the absolute value of its operand. */
  lemma MatrixHolds(oper: ConstEvalHandle<Matrix>, out: EvalHandle<Matrix>)
    requires Evaluated(AbsMatrixUnit(oper, out))
    ensures out.cell.eval && oper.Data().Ok? && IsAbsOf(out.cell.data, oper.Data().value)
  {
    EvaluatedHolds(AbsMatrixUnit(oper, out));
  }

  lemma BatchHolds(oper: ConstEvalHandle<BatchMatrix>, out: EvalHandle<BatchMatrix>)
    requires Evaluated(AbsBatchUnit(oper, out))
    ensures out.cell.eval && oper.Data().Ok? && IsAbsOfBatch(out.cell.data, oper.Data().value)
  {
    EvaluatedHolds(AbsBatchUnit(oper, out));
  }

  /** `Calculator::EvalRegister` for a matrix operand: one registration with
      the thread's plan, in its top layer. */
  method EvalRegisterMatrix(plan: EvalPlan, res: EvalBuffer<Matrix>, oper: ConstEvalHandle<Matrix>)
    requires plan.Valid() && plan.Within()
    modifies plan`layers, plan`views, plan`Repr, plan`slotOf, plan`heightBound, plan`mcells, plan`bcells, plan.Repr
    ensures plan.Valid() && plan.Within()
    ensures |plan.views| == old(|plan.views|)
    ensures plan.views == old(plan.views)[|plan.views| - 1 := RegisterSpec(old(plan.TopView()), MatrixRegistration(res, oper))]
    ensures res.handle.cell in plan.mcells
    ensures forall g :: g in plan.Repr ==> g in old(plan.Repr) || fresh(g)
  {
    var reg := MatrixRegistration(res, oper);
    plan.Register(reg);
  }

  /** `Calculator::EvalRegister` for a batch operand. */
  method EvalRegisterBatch(plan: EvalPlan, res: EvalBuffer<BatchMatrix>, oper: ConstEvalHandle<BatchMatrix>)
    requires plan.Valid() && plan.Within()
    modifies plan`layers, plan`views, plan`Repr, plan`slotOf, plan`heightBound, plan`mcells, plan`bcells, plan.Repr
    ensures plan.Valid() && plan.Within()
    ensures |plan.views| == old(|plan.views|)
    ensures plan.views == old(plan.views)[|plan.views| - 1 := RegisterSpec(old(plan.TopView()), BatchRegistration(res, oper))]
    ensures res.handle.cell in plan.bcells
    ensures forall g :: g in plan.Repr ==> g in old(plan.Repr) || fresh(g)
  {
    var reg := BatchRegistration(res, oper);
    plan.Register(reg);
  }

  /** `Evaluate(expr)` (src/evaluate/facilities/eval_plan.h:334-345) for the
      absolute value of a matrix whose operand is already registered:
      `EvalRegister` files the unit, `EvalPlan::Eval` drains the plan and the
      result handle's `Data()` is returned, each exception propagating.  A
      result read is the published cell; when this call is what registered
      the result, a result read is the absolute value of the operand. */
  method EvaluateMatrix(plan: EvalPlan, res: EvalBuffer<Matrix>, oper: ConstEvalHandle<Matrix>) returns (r: Result<Matrix>)
    requires plan.Valid() && plan.Within()
    modifies plan, plan.Repr, plan.mcells, plan.bcells, res.handle.cell
    ensures plan.Valid() && plan.Within()
    ensures r.Ok? ==> res.handle.cell.eval && r.value == res.handle.cell.data
    ensures (res.handle.cell as object?) !in old(plan.TopView().outputs) ==>
      r.Ok? ==> oper.Data().Ok? && IsAbsOf(r.value, oper.Data().value)
    ensures r.Err? ==> UnitError(r.error)
  {
    var reg := MatrixRegistration(res, oper);
    var e := plan.RegisterAndEval(reg);
    if e.Fail? {
      return Err(e.error);
    }
    if reg.output !in old(plan.TopView().outputs) {
      MatrixHolds(oper, res.handle);
    }
    r := res.ConstHandle().Data();
  }

  /** `Evaluate(expr)` for the absolute value of a batch of matrices. */
  method EvaluateBatch(plan: EvalPlan, res: EvalBuffer<BatchMatrix>, oper: ConstEvalHandle<BatchMatrix>) returns (r: Result<BatchMatrix>)
    requires plan.Valid() && plan.Within()
    modifies plan, plan.Repr, plan.mcells, plan.bcells, res.handle.cell
    ensures plan.Valid() && plan.Within()
    ensures r.Ok? ==> res.handle.cell.eval && r.value == res.handle.cell.data
    ensures (res.handle.cell as object?) !in old(plan.TopView().outputs) ==>
      r.Ok? ==> oper.Data().Ok? && IsAbsOfBatch(r.value, oper.Data().value)
    ensures r.Err? ==> UnitError(r.error)
  {
    var reg := BatchRegistration(res, oper);
    var e := plan.RegisterAndEval(reg);
    if e.Fail? {
      return Err(e.error);
    }
    if reg.output !in old(plan.TopView().outputs) {
      BatchHolds(oper, res.handle);
    }
    r := res.ConstHandle().Data();
  }
}
