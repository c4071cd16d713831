/** `BaseEvalUnit<TDevice>` (src/evaluate/facilities/eval_unit.h): a piece of
    deferred work whose `Eval` the pool calls.

    The units of this model form a closed family: the two absolute-value
    units of src/operators/abs.h, and `Scheduling`, which stands for a unit
    whose `Eval` runs a body and then registers further work with the
    thread's plan.  A `Scheduling` unit registers only once its body has
    succeeded, and a failing one registers nothing; a C++ unit could also
    register some work and then throw, which this family does not cover.
    A unit's `Run` returns the registrations its `Eval` makes; the plan
    files them into its top layer. */
module EvalUnits {
  import opened Wrappers
  import opened EvalHandles
  import opened Abs

  /** `std::type_index(typeid(TEvalGroup))`: the kind of group a unit joins. */
  datatype GroupKey = GroupKey(typeName: string)

  datatype Unit =
    | AbsMatrixUnit(oper: ConstEvalHandle<Matrix>, out: EvalHandle<Matrix>)
    | AbsBatchUnit(boper: ConstEvalHandle<BatchMatrix>, bout: EvalHandle<BatchMatrix>)
    | Scheduling(body: Unit, follow: seq<Registration>)

  /** The arguments of one `EvalPlan::Register<TEvalGroup>(unit, output, operands)` call. */
  datatype Registration = Registration(group: GroupKey, unit: Unit, output: object?, operands: seq<object?>)

  /** How many levels of registrations a unit can trigger: the units it
      registers are strictly lower. */
  function Height(u: Unit): nat
  {
    match u
    case AbsMatrixUnit(_, _) => 0
    case AbsBatchUnit(_, _) => 0
    case Scheduling(body, follow) => 1 + Max(Height(body), FollowHeight(follow))
  }

  function FollowHeight(follow: seq<Registration>): nat
  {
    if follow == [] then 0 else Max(Height(follow[0].unit), FollowHeight(follow[1..]))
  }

  function Max(a: nat, b: nat): nat
  {
    if a < b then b else a
  }

  /** The matrix cells the unit itself writes when run. */
  function OutM(u: Unit): set<DataWithEvalInfo<Matrix>>
  {
    match u
    case AbsMatrixUnit(_, out) => {out.cell}
    case AbsBatchUnit(_, _) => {}
    case Scheduling(body, _) => OutM(body)
  }

  function OutB(u: Unit): set<DataWithEvalInfo<BatchMatrix>>
  {
    match u
    case AbsMatrixUnit(_, _) => {}
    case AbsBatchUnit(_, out) => {out.cell}
    case Scheduling(body, _) => OutB(body)
  }

  /** Every matrix cell the unit, or any work it registers, may write. */
  function AllM(u: Unit): set<DataWithEvalInfo<Matrix>>
  {
    match u
    case AbsMatrixUnit(_, out) => {out.cell}
    case AbsBatchUnit(_, _) => {}
    case Scheduling(body, follow) => AllM(body) + FollowM(follow)
  }

  function FollowM(follow: seq<Registration>): set<DataWithEvalInfo<Matrix>>
  {
    if follow == [] then {} else AllM(follow[0].unit) + FollowM(follow[1..])
  }

  function AllB(u: Unit): set<DataWithEvalInfo<BatchMatrix>>
  {
    match u
    case AbsMatrixUnit(_, _) => {}
    case AbsBatchUnit(_, out) => {out.cell}
    case Scheduling(body, follow) => AllB(body) + FollowB(follow)
  }

  function FollowB(follow: seq<Registration>): set<DataWithEvalInfo<BatchMatrix>>
  {
    if follow == [] then {} else AllB(follow[0].unit) + FollowB(follow[1..])
  }

  /** The kernel a unit runs: a `Scheduling` unit runs its body, and
      registers its follow-up work only once the body has succeeded. */
  function Core(u: Unit): (c: Unit)
    ensures !c.Scheduling?
  {
    match u
    case Scheduling(body, _) => Core(body)
    case _ => u
  }

  /** The matrix cells `Ready`, `Failure` and `Evaluated` read. */
  ghost function ReadM(u: Unit): set<DataWithEvalInfo<Matrix>>
  {
    var c := Core(u);
    if c.AbsMatrixUnit? then c.oper.Reads() + {c.out.cell} else {}
  }

  ghost function ReadB(u: Unit): set<DataWithEvalInfo<BatchMatrix>>
  {
    var c := Core(u);
    if c.AbsBatchUnit? then c.boper.Reads() + {c.bout.cell} else {}
  }

  /** `Eval` can complete: the operand is evaluated and the output is not. */
  predicate Ready(u: Unit)
    reads ReadM(u), ReadB(u)
  {
    var c := Core(u);
    if c.AbsMatrixUnit? then c.oper.Data().Ok? && !c.out.cell.eval
    else c.boper.Data().Ok? && !c.bout.cell.eval
  }

  /** The two exceptions a unit's `Eval` can throw. */
  predicate UnitError(e: Error)
  {
    e == NotEvaluated || e == AlreadyEvaluated
  }

  /** The exception `Eval` throws when the unit is not ready. */
  function Failure(u: Unit): (e: Error)
    reads ReadM(u), ReadB(u)
    ensures UnitError(e)
  {
    var c := Core(u);
    var operOk := if c.AbsMatrixUnit? then c.oper.Data().Ok? else c.boper.Data().Ok?;
    if !operOk then NotEvaluated else AlreadyEvaluated
  }

  /** The unit's output is evaluated and holds the absolute value of its operand. */
  predicate Holds(u: Unit)
    reads ReadM(u), ReadB(u)
  {
    var c := Core(u);
    if c.AbsMatrixUnit? then c.out.cell.eval && c.oper.Data().Ok? && IsAbsOf(c.out.cell.data, c.oper.Data().value)
    else c.bout.cell.eval && c.boper.Data().Ok? && IsAbsOfBatch(c.bout.cell.data, c.boper.Data().value)
  }

  /** Always true.  `Evaluated` states `Holds` under this guard, so the
      verifier looks inside it only where a proof mentions the guard
      (`EvaluatedCells`, `EvaluatedHolds`); everywhere else, and in the whole
      plan, the fact travels from state to state by its read frame alone. */
  ghost predicate Sealed(n: nat)
  {
    true
  }

  /** `Holds`, sealed: the fact the plan records for every unit it ran. */
  ghost predicate Evaluated(u: Unit)
    reads ReadM(u), ReadB(u)
  {
    forall n: nat :: Sealed(n) ==> Holds(u)
  }

  lemma EvaluatedHolds(u: Unit)
    requires Evaluated(u)
    ensures Holds(u)
  {
    assert Sealed(0);
  }

  /** The registrations a successful `Eval` makes, in order. */
  function Spawns(u: Unit): seq<Registration>
  {
    match u
    case AbsMatrixUnit(_, _) => []
    case AbsBatchUnit(_, _) => []
    case Scheduling(body, follow) => Spawns(body) + follow
  }

  lemma {:induction false} FollowBounds(follow: seq<Registration>, i: nat)
    requires i < |follow|
    ensures Height(follow[i].unit) <= FollowHeight(follow)
    ensures AllM(follow[i].unit) <= FollowM(follow) && AllB(follow[i].unit) <= FollowB(follow)
  {
    if i > 0 {
      FollowBounds(follow[1..], i - 1);
      assert follow[1..][i - 1] == follow[i];
    }
  }

  /** Work registered by a unit is strictly lower than the unit and writes
      only cells the unit's own footprint already names; this is what makes
      the plan's nested draining terminate. */
  lemma {:induction false} SpawnsBelow(u: Unit)
    ensures forall reg :: reg in Spawns(u) ==> Height(reg.unit) < Height(u)
    ensures forall reg :: reg in Spawns(u) ==> AllM(reg.unit) <= AllM(u) && AllB(reg.unit) <= AllB(u)
    ensures OutM(u) <= AllM(u) && OutB(u) <= AllB(u)
  {
    match u
    case AbsMatrixUnit(_, _) =>
    case AbsBatchUnit(_, _) =>
    case Scheduling(body, follow) =>
      SpawnsBelow(body);
      forall reg | reg in follow
        ensures Height(reg.unit) < Height(u)
        ensures AllM(reg.unit) <= AllM(u) && AllB(reg.unit) <= AllB(u)
      {
        var i :| 0 <= i < |follow| && follow[i] == reg;
        FollowBounds(follow, i);
      }
  }

  /** An evaluated unit reads only evaluated cells. */
  lemma EvaluatedCells(u: Unit)
    requires Evaluated(u)
    ensures forall c :: c in ReadM(u) ==> c.eval
    ensures forall c :: c in ReadB(u) ==> c.eval
  {
    assert Sealed(0);
  }

  /** The cells a unit reads exist whenever the unit does. */
  lemma ReadsAllocated(u: Unit)
    requires allocated(u)
    ensures forall c :: c in ReadM(u) ==> allocated(c)
    ensures forall c :: c in ReadB(u) ==> allocated(c)
  {
  }

  /** `unit->Eval()`.  It succeeds exactly when the unit is ready, and then
      its output is evaluated and its registrations are returned; when it
      throws it has registered nothing and reports why.  Either way every unit
      that was evaluated before still is: the only cell written is the unit's
      own output, and only while it is still unevaluated. */
  method Run(u: Unit) returns (r: Outcome, spawned: seq<Registration>)
    modifies OutM(u), OutB(u)
    ensures r.Pass? <==> old(Ready(u))
    ensures r.Pass? ==> spawned == Spawns(u) && Evaluated(u)
    ensures r.Fail? ==> spawned == [] && r.error == old(Failure(u))
    ensures forall w :: old(allocated(w)) && old(Evaluated(w)) ==> Evaluated(w)
  {
    forall w | allocated(w)
      ensures forall c :: c in ReadM(w) ==> allocated(c) && (Evaluated(w) ==> c.eval)
      ensures forall c :: c in ReadB(w) ==> allocated(c) && (Evaluated(w) ==> c.eval)
    {
      ReadsAllocated(w);
      if Evaluated(w) {
        EvaluatedCells(w);
      }
    }
    match u
    case AbsMatrixUnit(oper, out) =>
      r := EvalMatrix(oper, out);
      spawned := [];
      forall w | old(allocated(w)) && old(Evaluated(w))
        ensures Evaluated(w)
      {
        assert r.Pass? ==> out.cell !in ReadM(w);
        assert r.Pass? ==> forall c :: c in ReadB(w) ==> c as object != out.cell;
        assert forall c :: c in ReadM(w) ==> unchanged(c);
        assert forall c :: c in ReadB(w) ==> unchanged(c);
      }
    case AbsBatchUnit(oper, out) =>
      r := EvalBatch(oper, out);
      spawned := [];
      forall w | old(allocated(w)) && old(Evaluated(w))
        ensures Evaluated(w)
      {
        assert r.Pass? ==> out.cell !in ReadB(w);
        assert r.Pass? ==> forall c :: c in ReadM(w) ==> c as object != out.cell;
        assert forall c :: c in ReadM(w) ==> unchanged(c);
        assert forall c :: c in ReadB(w) ==> unchanged(c);
      }
    case Scheduling(body, follow) =>
      r, spawned := Run(body);
      if r.Pass? {
        spawned := spawned + follow;
      }
  }
}
