/** `TrivalEvalGroup<TEvalUnit>` (src/evaluate/facilities/eval_group.h): a
    FIFO queue of evaluation units of one kind. */
module EvalGroups {
  import opened Wrappers

  class TrivalEvalGroup<U> {
    /** `m_unitList`, front first. */
    var unitList: seq<U>

    constructor ()
      ensures unitList == []
    {
      unitList := [];
    }

    /** Pops the front unit, or returns `None` (a null pointer) when empty. */
    method GetEvalUnit() returns (res: Option<U>)
      modifies this
      ensures old(unitList) == [] ==> res == None && unitList == []
      ensures old(unitList) != [] ==> res == Some(old(unitList)[0]) && unitList == old(unitList)[1..]
    {
      res := None;
      if unitList != [] {
        res := Some(unitList[0]);
        unitList := unitList[1..];
      }
    }

    /** `Merge(BaseEvalUnit&)`: appends a copy of the unit at the back. */
    method Merge(unit: U)
      modifies this
      ensures unitList == old(unitList) + [unit]
    {
      unitList := unitList + [unit];
    }

    /** `Merge(BaseEvalUnit&&)`: appends the moved unit at the back. */
    method MergeMoved(unit: U)
      modifies this
      ensures unitList == old(unitList) + [unit]
    {
      unitList := unitList + [unit];
    }
  }

  /** Units come out in the order they were merged, each exactly once, and
      then the drained group keeps answering null: the units `units` are
      merged into a new group, alternating the copying and the moving
      `Merge`, and `|units| + extra` units are asked for. */
  method FifoOrder<U>(units: seq<U>, extra: nat) returns (out: seq<U>, after: seq<Option<U>>)
    ensures out == units
    ensures |after| == extra && forall p :: 0 <= p < extra ==> after[p] == None
  {
    var g := new TrivalEvalGroup<U>();
    for n := 0 to |units|
      invariant g.unitList == units[..n]
    {
      if n % 2 == 0 {
        g.Merge(units[n]);
      } else {
        g.MergeMoved(units[n]);
      }
      assert units[..n + 1] == units[..n] + [units[n]];
    }
    assert units[..|units|] == units;
    out := [];
    for n := 0 to |units|
      invariant out == units[..n] && g.unitList == units[n..]
    {
      var res := g.GetEvalUnit();
      out := out + [res.value];
      assert units[..n + 1] == units[..n] + [units[n]];
    }
    after := [];
    for n := 0 to extra
      invariant |after| == n && g.unitList == []
      invariant forall p :: 0 <= p < n ==> after[p] == None
    {
      var res := g.GetEvalUnit();
      after := after + [res];
    }
  }
}
