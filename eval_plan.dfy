/** `EvalLayer` and `EvalPlan` (src/evaluate/facilities/eval_plan.h): the
    per-thread stack of dependency-levelled layers that collects registered
    units and later drains them through the evaluation pool. */
module EvalPlans {
  import opened Wrappers
  import opened EvalHandles
  import opened EvalGroups
  import opened Abs
  import opened EvalUnits
  import opened EvalPools

  type Group = TrivalEvalGroup<Unit>

  /** `EvalCluster`: at one depth, at most one group per group kind. */
  type Cluster = map<GroupKey, Group>

  /** One `EvalLayer`: `evalSeq[d]` holds the groups of depth `d`, and
      `outputs` maps each registered output to its depth.  `operands` is
      declared and cleared but never filled. */
  datatype EvalLayer = EvalLayer(evalSeq: seq<Cluster>, operands: set<object?>, outputs: map<object?, nat>) {
    /** The number of depths; a layer is empty exactly when it has none. */
    function Size(): (n: nat)
      ensures n == 0 <==> Empty()
    {
      |evalSeq|
    }

    predicate Empty()
    {
      |evalSeq| == 0
    }

    function Clear(): (l: EvalLayer)
      ensures l.Empty() && l.outputs == map[] && l.operands == {}
    {
      EvalLayer([], {}, map[])
    }
  }

  const EmptyLayer := EvalLayer([], {}, map[])

  // ---------------------------------------------------------------------
  // Levelling, stated on what the groups hold

  /** A layer as its groups' contents: `seqv[d][key]` is the queue of the
      group of kind `key` at depth `d`. */
  datatype LayerView = LayerView(seqv: seq<map<GroupKey, seq<Unit>>>, outputs: map<object?, nat>)

  /** The largest depth recorded in `depMap` for any of `ps`, or -1 when
      none of them is recorded. */
  function MaxTracked(depMap: map<object?, nat>, ps: seq<object?>): (r: int)
    ensures r >= -1
  {
    if ps == [] then -1
    else
      var rest := MaxTracked(depMap, ps[..|ps| - 1]);
      var last := ps[|ps| - 1];
      if last in depMap && depMap[last] > rest then depMap[last] else rest
  }

  lemma {:induction false} MaxTrackedIsMax(depMap: map<object?, nat>, ps: seq<object?>)
    ensures forall i :: 0 <= i < |ps| && ps[i] in depMap ==> depMap[ps[i]] <= MaxTracked(depMap, ps)
    ensures MaxTracked(depMap, ps) == -1 <==> forall i :: 0 <= i < |ps| ==> ps[i] !in depMap
    ensures MaxTracked(depMap, ps) >= 0 ==>
      exists i :: 0 <= i < |ps| && ps[i] in depMap && depMap[ps[i]] == MaxTracked(depMap, ps)
  {
    if ps != [] {
      var init := ps[..|ps| - 1];
      MaxTrackedIsMax(depMap, init);
      assert forall i :: 0 <= i < |init| ==> init[i] == ps[i];
      var rest := MaxTracked(depMap, init);
      if rest >= 0 {
        var i :| 0 <= i < |init| && init[i] in depMap && depMap[init[i]] == rest;
        assert ps[i] in depMap && depMap[ps[i]] == rest;
      }
    }
  }

  /** `NSEvalPlan::OperandDepth`: the maximum recorded depth among the
      operands, -1 when no operand is recorded. */
  method OperandDepth(depMap: map<object?, nat>, paramPtr: seq<object?>) returns (res: int)
    ensures res == MaxTracked(depMap, paramPtr)
    ensures forall i :: 0 <= i < |paramPtr| && paramPtr[i] in depMap ==> depMap[paramPtr[i]] <= res
    ensures res == -1 <==> forall i :: 0 <= i < |paramPtr| ==> paramPtr[i] !in depMap
    ensures res >= 0 ==> exists i :: 0 <= i < |paramPtr| && paramPtr[i] in depMap && depMap[paramPtr[i]] == res
  {
    res := -1;
    for i := 0 to |paramPtr|
      invariant res == MaxTracked(depMap, paramPtr[..i])
    {
      assert paramPtr[..i + 1][..i] == paramPtr[..i];
      var p := paramPtr[i];
      if p in depMap {
        res := if res < depMap[p] then depMap[p] else res;
      }
    }
    assert paramPtr[..|paramPtr|] == paramPtr;
    MaxTrackedIsMax(depMap, paramPtr);
  }

  /** The depth a new registration lands at: one more than its deepest
      recorded operand, 0 when none is recorded. */
  function NewDepth(outputs: map<object?, nat>, reg: Registration): nat
  {
    MaxTracked(outputs, reg.operands) + 1
  }

  /** `EvalLayer::EvalRegister` on the groups' contents: a null or already
      recorded output is ignored; otherwise the sequence grows to cover the
      new depth, the unit is appended to the group of its kind there, and
      the output is recorded at that depth. */
  function RegisterSpec(v: LayerView, reg: Registration): LayerView
  {
    if reg.output == null || reg.output in v.outputs then v
    else
      var depth := NewDepth(v.outputs, reg);
      var seqv := if |v.seqv| <= depth then v.seqv + seq(depth + 1 - |v.seqv|, _ => map[]) else v.seqv;
      var units := if reg.group in seqv[depth] then seqv[depth][reg.group] else [];
      LayerView(seqv[depth := seqv[depth][reg.group := units + [reg.unit]]], v.outputs[reg.output := depth])
  }

  /** Registering the same output twice is the same as registering it once:
      the first unit is kept. */
  lemma RegisterIdempotent(v: LayerView, reg: Registration, again: Unit)
    ensures RegisterSpec(RegisterSpec(v, reg), reg.(unit := again)) == RegisterSpec(v, reg)
  {
  }

  /** What one registration does to a layer (src/evaluate/facilities/eval_plan.h:111-140). */
  lemma {:induction false} RegisterEffect(v: LayerView, reg: Registration)
    requires reg.output != null && reg.output !in v.outputs
    ensures var r := RegisterSpec(v, reg);
      var d := NewDepth(v.outputs, reg);
      && reg.output in r.outputs && r.outputs[reg.output] == d
      // strictly deeper than every recorded operand; depth 0 iff none is recorded
      && (forall i :: 0 <= i < |reg.operands| && reg.operands[i] in v.outputs ==>
            v.outputs[reg.operands[i]] < d)
      && (d == 0 <==> forall i :: 0 <= i < |reg.operands| ==> reg.operands[i] !in v.outputs)
      // the sequence covers the depth and never shrinks
      && |r.seqv| > d && |r.seqv| >= |v.seqv|
      // the unit is appended to the one group of its kind at that depth
      && reg.group in r.seqv[d]
      && r.seqv[d][reg.group] == (if d < |v.seqv| && reg.group in v.seqv[d] then v.seqv[d][reg.group] else []) + [reg.unit]
      // every other group and every earlier output is untouched
      && (forall e, k :: 0 <= e < |v.seqv| && k in v.seqv[e] && (e, k) != (d, reg.group) ==>
            k in r.seqv[e] && r.seqv[e][k] == v.seqv[e][k])
      && (forall e, k :: 0 <= e < |r.seqv| && k in r.seqv[e] && (e, k) != (d, reg.group) ==>
            e < |v.seqv| && k in v.seqv[e])
      && (forall o :: o in v.outputs ==> o in r.outputs && r.outputs[o] == v.outputs[o])
      && r.outputs.Keys == v.outputs.Keys + {reg.output}
  {
    MaxTrackedIsMax(v.outputs, reg.operands);
  }

  /** Every recorded depth indexes the layer's depth sequence. */
  ghost predicate DepthsInRange(v: LayerView)
  {
    forall o :: o in v.outputs ==> v.outputs[o] < |v.seqv|
  }

  lemma {:induction false} RegisterKeepsDepthsInRange(v: LayerView, reg: Registration)
    requires DepthsInRange(v)
    ensures DepthsInRange(RegisterSpec(v, reg))
    ensures NewDepth(v.outputs, reg) <= |v.seqv|
  {
    MaxTrackedIsMax(v.outputs, reg.operands);
    if MaxTracked(v.outputs, reg.operands) >= 0 {
      var i :| 0 <= i < |reg.operands| && reg.operands[i] in v.outputs
        && v.outputs[reg.operands[i]] == MaxTracked(v.outputs, reg.operands);
    }
    if reg.output != null && reg.output !in v.outputs {
      RegisterEffect(v, reg);
    }
  }

  /** A bound on every queued unit: its height is below `bound` and its
      cells are among `mc` and `bc`. */
  ghost predicate UnitOK(u: Unit, bound: int, mc: set<DataWithEvalInfo<Matrix>>, bc: set<DataWithEvalInfo<BatchMatrix>>)
  {
    Height(u) < bound && AllM(u) <= mc && AllB(u) <= bc
  }

  ghost predicate UnitsWithin(v: LayerView, bound: int, mc: set<DataWithEvalInfo<Matrix>>, bc: set<DataWithEvalInfo<BatchMatrix>>)
  {
    forall d, k, i :: 0 <= d < |v.seqv| && k in v.seqv[d] && 0 <= i < |v.seqv[d][k]| ==>
      UnitOK(v.seqv[d][k][i], bound, mc, bc)
  }

  lemma {:induction false} RegisterKeepsWithin(v: LayerView, reg: Registration, bound: int,
                                              mc: set<DataWithEvalInfo<Matrix>>, bc: set<DataWithEvalInfo<BatchMatrix>>)
    requires UnitsWithin(v, bound, mc, bc) && UnitOK(reg.unit, bound, mc, bc)
    ensures UnitsWithin(RegisterSpec(v, reg), bound, mc, bc)
  {
    if reg.output != null && reg.output !in v.outputs {
      RegisterEffect(v, reg);
      var r := RegisterSpec(v, reg);
      var dd := NewDepth(v.outputs, reg);
      forall d, k, i | 0 <= d < |r.seqv| && k in r.seqv[d] && 0 <= i < |r.seqv[d][k]|
        ensures UnitOK(r.seqv[d][k][i], bound, mc, bc)
      {
        if (d, k) == (dd, reg.group) {
          if i < |r.seqv[d][k]| - 1 {
            assert r.seqv[d][k][i] == v.seqv[d][k][i];
          }
        } else {
          assert r.seqv[d][k] == v.seqv[d][k];
        }
      }
    }
  }

  // ---------------------------------------------------------------------
  // The order of work while a layer drains

  /** What the pool is asked to do: run a unit taken from the group at
      `depth` of layer `layer`, or synchronise after that depth. */
  datatype Event = Processed(layer: nat, depth: nat, unit: Unit) | Synced(layer: nat, depth: nat)

  /** One group drained front to back. */
  function GroupEvents(j: nat, d: nat, units: seq<Unit>): (es: seq<Event>)
    ensures |es| == |units|
    ensures forall i :: 0 <= i < |es| ==> es[i] == Processed(j, d, units[i])
  {
    if units == [] then [] else GroupEvents(j, d, units[..|units| - 1]) + [Processed(j, d, units[|units| - 1])]
  }

  /** One cluster drained, its groups visited in `order`. */
  function ClusterEvents(j: nat, d: nat, cv: map<GroupKey, seq<Unit>>, order: seq<GroupKey>): seq<Event>
  {
    if order == [] then []
    else
      var k := order[|order| - 1];
      ClusterEvents(j, d, cv, order[..|order| - 1]) + (if k in cv then GroupEvents(j, d, cv[k]) else [])
  }

  /** Visiting one more key extends an order of the keys visited so far. */
  lemma OrderOneMore(order: seq<GroupKey>, done: set<GroupKey>, k: GroupKey)
    requires IsOrderOf(order, done) && k !in done
    ensures IsOrderOf(order + [k], done + {k})
  {
    assert (order + [k])[..|order|] == order;
    assert (done + {k}) - {k} == done;
  }

  /** The groups `done` of the cluster `cv` at depth `d` of layer `j`
      drained in the order `order`, making the events `events`. Stated under
      the `FrameGuard`, so the verifier unfolds it only where asked. */
  ghost predicate ClusterDrained(j: nat, d: nat, cv: map<GroupKey, seq<Unit>>, done: set<GroupKey>,
                                 order: seq<GroupKey>, events: seq<Event>)
  {
    forall m: nat :: FrameGuard(m) ==> IsOrderOf(order, done) && events == ClusterEvents(j, d, cv, order)
  }

  lemma ClusterDrainedNone(j: nat, d: nat, cv: map<GroupKey, seq<Unit>>)
    ensures ClusterDrained(j, d, cv, {}, [], [])
  {
    assert FrameGuard(0);
  }

  /** Draining one more group `k` extends the order by `k` and the events by
      that group's. */
  lemma ClusterDrainedStep(j: nat, d: nat, cv: map<GroupKey, seq<Unit>>, done: set<GroupKey>,
                           order: seq<GroupKey>, events: seq<Event>, k: GroupKey)
    requires ClusterDrained(j, d, cv, done, order, events) && k in cv && k !in done
    ensures ClusterDrained(j, d, cv, done + {k}, order + [k], events + GroupEvents(j, d, cv[k]))
  {
    assert FrameGuard(0);
    OrderOneMore(order, done, k);
    ClusterEventsStep(j, d, cv, order, k);
  }

  lemma ClusterDrainedAll(j: nat, d: nat, cv: map<GroupKey, seq<Unit>>, done: set<GroupKey>,
                          order: seq<GroupKey>, events: seq<Event>)
    requires ClusterDrained(j, d, cv, done, order, events)
    ensures IsOrderOf(order, done) && events == ClusterEvents(j, d, cv, order)
  {
    assert FrameGuard(0);
  }

  /** Draining one more group appends that group's events. */
  lemma ClusterEventsStep(j: nat, d: nat, cv: map<GroupKey, seq<Unit>>, order: seq<GroupKey>, k: GroupKey)
    requires k in cv
    ensures ClusterEvents(j, d, cv, order + [k]) == ClusterEvents(j, d, cv, order) + GroupEvents(j, d, cv[k])
  {
    assert (order + [k])[..|order|] == order;
  }

  /** The first `n` depths of layer `j` drained: each depth's cluster, then
      the barrier, then whatever the nested layer ran. */
  function LayerTrace(j: nat, seqv: seq<map<GroupKey, seq<Unit>>>, orders: seq<seq<GroupKey>>,
                      nested: seq<seq<Event>>, n: nat): seq<Event>
    requires n <= |seqv| && n <= |orders| && n <= |nested|
  {
    if n == 0 then []
    else LayerTrace(j, seqv, orders, nested, n - 1)
         + ClusterEvents(j, n - 1, seqv[n - 1], orders[n - 1]) + [Synced(j, n - 1)] + nested[n - 1]
  }

  /** `order` lists every key of the cluster exactly once: its last key is
      one of `keys` and the keys before it order the rest. */
  ghost predicate IsOrderOf(order: seq<GroupKey>, keys: set<GroupKey>)
    decreases |order|
  {
    if order == [] then keys == {}
    else order[|order| - 1] in keys && IsOrderOf(order[..|order| - 1], keys - {order[|order| - 1]})
  }

  /** An order holds exactly the keys, as many entries as keys. */
  lemma {:induction false} OrderCovers(order: seq<GroupKey>, keys: set<GroupKey>)
    requires IsOrderOf(order, keys)
    ensures |order| == |keys|
    ensures forall k :: k in keys <==> k in order
    decreases |order|
  {
    if order != [] {
      var last := order[|order| - 1];
      var rest := order[..|order| - 1];
      OrderCovers(rest, keys - {last});
      assert order == rest + [last];
      assert keys == (keys - {last}) + {last};
    }
  }

  /** No key appears twice in an order. */
  lemma {:induction false} OrderDistinct(order: seq<GroupKey>, keys: set<GroupKey>)
    requires IsOrderOf(order, keys)
    ensures forall a, b :: 0 <= a < b < |order| ==> order[a] != order[b]
    decreases |order|
  {
    if order != [] {
      var last := order[|order| - 1];
      var rest := order[..|order| - 1];
      OrderDistinct(rest, keys - {last});
      OrderCovers(rest, keys - {last});
      forall a, b | 0 <= a < b < |order|
        ensures order[a] != order[b]
      {
        if b == |order| - 1 {
          assert order[a] == rest[a];
          assert order[a] in rest;
        } else {
          assert order[a] == rest[a] && order[b] == rest[b];
        }
      }
    }
  }

  /** The witnesses a drain reports: one visiting order per depth and one
      nested trace per depth, all of it on deeper layers. */
  ghost predicate Schedule(j: nat, seqv: seq<map<GroupKey, seq<Unit>>>, orders: seq<seq<GroupKey>>, nested: seq<seq<Event>>)
  {
    && |orders| == |seqv| && |nested| == |seqv|
    && (forall d {:trigger IsOrderOf(orders[d], seqv[d].Keys)} :: 0 <= d < |seqv| ==> IsOrderOf(orders[d], seqv[d].Keys))
    && (forall d, i :: 0 <= d < |nested| && 0 <= i < |nested[d]| ==> nested[d][i].layer > j)
  }

  /** Every event of `es` runs a unit of depth `d` of layer `j`. */
  ghost predicate RunsAt(es: seq<Event>, j: nat, d: nat)
  {
    forall p :: 0 <= p < |es| ==> es[p].Processed? && es[p].layer == j && es[p].depth == d
  }

  /** A cluster's events all run units of that layer and depth. */
  lemma {:induction false} ClusterEventsAt(j: nat, d: nat, cv: map<GroupKey, seq<Unit>>, order: seq<GroupKey>)
    ensures RunsAt(ClusterEvents(j, d, cv, order), j, d)
  {
    if order != [] {
      var init := order[..|order| - 1];
      var last := order[|order| - 1];
      ClusterEventsAt(j, d, cv, init);
      var tail := if last in cv then GroupEvents(j, d, cv[last]) else [];
      var ce := ClusterEvents(j, d, cv, order);
      var ci := ClusterEvents(j, d, cv, init);
      assert ce == ci + tail;
      forall p | 0 <= p < |ce|
        ensures ce[p].Processed? && ce[p].layer == j && ce[p].depth == d
      {
        if p < |ci| {
          assert ce[p] == ci[p];
        } else {
          assert ce[p] == tail[p - |ci|];
        }
      }
    }
  }

  /** Every event of `es` runs, at depth `d` of layer `j`, a unit queued in
      a group of `cv` that `order` visits. */
  ghost predicate RunsFrom(es: seq<Event>, j: nat, d: nat, cv: map<GroupKey, seq<Unit>>, order: seq<GroupKey>)
  {
    forall p :: 0 <= p < |es| ==>
      es[p].Processed? && exists k, i :: k in order && k in cv && 0 <= i < |cv[k]| && es[p] == Processed(j, d, cv[k][i])
  }

  /** Every unit of every visited group appears. */
  lemma {:induction false} ClusterEventsHas(j: nat, d: nat, cv: map<GroupKey, seq<Unit>>, order: seq<GroupKey>)
    ensures forall k, i :: k in order && k in cv && 0 <= i < |cv[k]| ==> Processed(j, d, cv[k][i]) in ClusterEvents(j, d, cv, order)
  {
    if order != [] {
      var init := order[..|order| - 1];
      var last := order[|order| - 1];
      ClusterEventsHas(j, d, cv, init);
      var tail := if last in cv then GroupEvents(j, d, cv[last]) else [];
      var ce := ClusterEvents(j, d, cv, order);
      var ci := ClusterEvents(j, d, cv, init);
      assert ce == ci + tail;
      forall k, i | k in order && k in cv && 0 <= i < |cv[k]|
        ensures Processed(j, d, cv[k][i]) in ce
      {
        if k == last {
          assert ce[|ci| + i] == tail[i] == Processed(j, d, cv[k][i]);
        } else {
          var a :| 0 <= a < |order| && order[a] == k;
          assert init[a] == k;
          assert Processed(j, d, cv[k][i]) in ci;
        }
      }
    }
  }

  /** Only units of visited groups appear. */
  lemma {:induction false} ClusterEventsFrom(j: nat, d: nat, cv: map<GroupKey, seq<Unit>>, order: seq<GroupKey>)
    ensures RunsFrom(ClusterEvents(j, d, cv, order), j, d, cv, order)
  {
    if order != [] {
      var init := order[..|order| - 1];
      var last := order[|order| - 1];
      ClusterEventsFrom(j, d, cv, init);
      var tail := if last in cv then GroupEvents(j, d, cv[last]) else [];
      var ce := ClusterEvents(j, d, cv, order);
      var ci := ClusterEvents(j, d, cv, init);
      assert ce == ci + tail;
      forall p | 0 <= p < |ce|
        ensures ce[p].Processed? && exists k, i :: k in order && k in cv && 0 <= i < |cv[k]| && ce[p] == Processed(j, d, cv[k][i])
      {
        if p < |ci| {
          assert ce[p] == ci[p];
          var k, i :| k in init && k in cv && 0 <= i < |cv[k]| && ci[p] == Processed(j, d, cv[k][i]);
          var a :| 0 <= a < |init| && init[a] == k;
          assert order[a] == k;
        } else {
          assert ce[p] == tail[p - |ci|] == Processed(j, d, cv[last][p - |ci|]);
        }
      }
      assert RunsFrom(ce, j, d, cv, order);
    }
  }


  /** Every event of `es` is on layer `j` or deeper, and on layer `j`
      itself only on depths below `n`. */
  ghost predicate StaysBelow(es: seq<Event>, j: nat, n: nat)
  {
    forall p :: 0 <= p < |es| ==> es[p].layer >= j && (es[p].layer == j ==> es[p].depth < n)
  }

  /** The trace of the first `n` depths stays on layer `j` and deeper, and
      on layer `j` itself only on those depths. */
  lemma {:induction false} LayerTraceAt(j: nat, seqv: seq<map<GroupKey, seq<Unit>>>, orders: seq<seq<GroupKey>>,
                                        nested: seq<seq<Event>>, n: nat)
    requires Schedule(j, seqv, orders, nested) && n <= |seqv|
    ensures StaysBelow(LayerTrace(j, seqv, orders, nested, n), j, n)
  {
    if n > 0 {
      LayerTraceAt(j, seqv, orders, nested, n - 1);
      ClusterEventsAt(j, n - 1, seqv[n - 1], orders[n - 1]);
      var pre := LayerTrace(j, seqv, orders, nested, n - 1);
      var ce := ClusterEvents(j, n - 1, seqv[n - 1], orders[n - 1]);
      var tr := LayerTrace(j, seqv, orders, nested, n);
      assert tr == pre + ce + [Synced(j, n - 1)] + nested[n - 1];
      forall p | 0 <= p < |tr|
        ensures tr[p].layer >= j && (tr[p].layer == j ==> tr[p].depth < n)
      {
        if p < |pre| {
          assert tr[p] == pre[p];
        } else if p < |pre| + |ce| {
          assert tr[p] == ce[p - |pre|];
        } else if p > |pre| + |ce| {
          assert tr[p] == nested[n - 1][p - |pre| - |ce| - 1];
        }
      }
    }
  }

  /** Where an event of the last depth's slice sits in the trace. */
  lemma {:induction false} TraceSlices(j: nat, seqv: seq<map<GroupKey, seq<Unit>>>, orders: seq<seq<GroupKey>>,
                                       nested: seq<seq<Event>>, n: nat, p: nat)
    requires Schedule(j, seqv, orders, nested) && 0 < n <= |seqv|
    requires p < |LayerTrace(j, seqv, orders, nested, n)|
    ensures var pre := LayerTrace(j, seqv, orders, nested, n - 1);
      var ce := ClusterEvents(j, n - 1, seqv[n - 1], orders[n - 1]);
      var tr := LayerTrace(j, seqv, orders, nested, n);
      && (p < |pre| ==> tr[p] == pre[p] && tr[p].layer >= j && (tr[p].layer == j ==> tr[p].depth < n - 1))
      && (|pre| <= p < |pre| + |ce| ==> tr[p] == ce[p - |pre|] && tr[p].Processed? && tr[p].layer == j && tr[p].depth == n - 1)
      && (p == |pre| + |ce| ==> tr[p] == Synced(j, n - 1))
      && (p > |pre| + |ce| ==> tr[p].layer > j)
  {
    var pre := LayerTrace(j, seqv, orders, nested, n - 1);
    var ce := ClusterEvents(j, n - 1, seqv[n - 1], orders[n - 1]);
    var tr := LayerTrace(j, seqv, orders, nested, n);
    assert tr == pre + ce + [Synced(j, n - 1)] + nested[n - 1];
    if p < |pre| {
      LayerTraceAt(j, seqv, orders, nested, n - 1);
    } else if p < |pre| + |ce| {
      ClusterEventsAt(j, n - 1, seqv[n - 1], orders[n - 1]);
    } else if p > |pre| + |ce| {
      assert tr[p] == nested[n - 1][p - |pre| - |ce| - 1];
    }
  }
  /** The position of the barrier of depth `d` in the trace. */
  function SyncIndex(j: nat, seqv: seq<map<GroupKey, seq<Unit>>>, orders: seq<seq<GroupKey>>,
                     nested: seq<seq<Event>>, d: nat): nat
    requires d < |seqv| && d < |orders| && d < |nested|
  {
    |LayerTrace(j, seqv, orders, nested, d)| + |ClusterEvents(j, d, seqv[d], orders[d])|
  }

  /** The trace of more depths extends the trace of fewer. */
  lemma {:induction false} TraceExtends(j: nat, seqv: seq<map<GroupKey, seq<Unit>>>, orders: seq<seq<GroupKey>>,
                                        nested: seq<seq<Event>>, a: nat, b: nat, i: nat)
    requires a <= b <= |seqv| && b <= |orders| && b <= |nested|
    requires i < |LayerTrace(j, seqv, orders, nested, a)|
    ensures i < |LayerTrace(j, seqv, orders, nested, b)|
    ensures LayerTrace(j, seqv, orders, nested, b)[i] == LayerTrace(j, seqv, orders, nested, a)[i]
  {
    if a < b {
      TraceExtends(j, seqv, orders, nested, a, b - 1, i);
      var pre := LayerTrace(j, seqv, orders, nested, b - 1);
      var ce := ClusterEvents(j, b - 1, seqv[b - 1], orders[b - 1]);
      assert LayerTrace(j, seqv, orders, nested, b) == pre + ce + [Synced(j, b - 1)] + nested[b - 1];
    }
  }

  /** The barrier of depth `d` comes before every event of a deeper depth. */
  lemma {:induction false} TraceGrows(j: nat, seqv: seq<map<GroupKey, seq<Unit>>>, orders: seq<seq<GroupKey>>,
                                      nested: seq<seq<Event>>, d: nat, b: nat)
    requires Schedule(j, seqv, orders, nested) && d < |seqv| && b <= |seqv|
    ensures d < b ==> SyncIndex(j, seqv, orders, nested, d) < |LayerTrace(j, seqv, orders, nested, b)|
  {
    if d < b {
      var pre := LayerTrace(j, seqv, orders, nested, b - 1);
      var ce := ClusterEvents(j, b - 1, seqv[b - 1], orders[b - 1]);
      assert |LayerTrace(j, seqv, orders, nested, b)| == |pre| + |ce| + 1 + |nested[b - 1]|;
      if d + 1 < b {
        TraceGrows(j, seqv, orders, nested, d, b - 1);
      }
    }
  }

  /** Every unit of layer `j` in the trace runs between the start of its
      depth's slice and that depth's barrier. */
  lemma {:induction false} PosOfDepth(j: nat, seqv: seq<map<GroupKey, seq<Unit>>>, orders: seq<seq<GroupKey>>,
                                      nested: seq<seq<Event>>, n: nat, p: nat)
    requires Schedule(j, seqv, orders, nested) && n <= |seqv|
    requires p < |LayerTrace(j, seqv, orders, nested, n)|
    requires LayerTrace(j, seqv, orders, nested, n)[p].Processed? && LayerTrace(j, seqv, orders, nested, n)[p].layer == j
    ensures LayerTrace(j, seqv, orders, nested, n)[p].depth < n
    ensures |LayerTrace(j, seqv, orders, nested, LayerTrace(j, seqv, orders, nested, n)[p].depth)| <= p
            < SyncIndex(j, seqv, orders, nested, LayerTrace(j, seqv, orders, nested, n)[p].depth)
  {
    var pre := LayerTrace(j, seqv, orders, nested, n - 1);
    var ce := ClusterEvents(j, n - 1, seqv[n - 1], orders[n - 1]);
    var tr := LayerTrace(j, seqv, orders, nested, n);
    assert tr == pre + ce + [Synced(j, n - 1)] + nested[n - 1];
    if p < |pre| {
      assert tr[p] == pre[p];
      PosOfDepth(j, seqv, orders, nested, n - 1, p);
    } else if p < |pre| + |ce| {
      ClusterEventsAt(j, n - 1, seqv[n - 1], orders[n - 1]);
      assert tr[p] == ce[p - |pre|];
    } else if p > |pre| + |ce| {
      assert false;
    }
  }

  /** Units of layer `j` are run in increasing depth order. */
  lemma DepthsIncrease(j: nat, seqv: seq<map<GroupKey, seq<Unit>>>, orders: seq<seq<GroupKey>>,
                       nested: seq<seq<Event>>, n: nat)
    requires Schedule(j, seqv, orders, nested) && n <= |seqv|
    ensures var tr := LayerTrace(j, seqv, orders, nested, n);
      forall p, q :: 0 <= p < q < |tr| && tr[p].Processed? && tr[q].Processed? && tr[p].layer == j && tr[q].layer == j ==>
        tr[p].depth <= tr[q].depth
  {
    var tr := LayerTrace(j, seqv, orders, nested, n);
    forall p, q | 0 <= p < q < |tr| && tr[p].Processed? && tr[q].Processed? && tr[p].layer == j && tr[q].layer == j
      ensures tr[p].depth <= tr[q].depth
    {
      PosOfDepth(j, seqv, orders, nested, n, p);
      PosOfDepth(j, seqv, orders, nested, n, q);
      TraceGrows(j, seqv, orders, nested, tr[q].depth, tr[p].depth);
    }
  }

  /** Every unit run on layer `j` is followed by the barrier of its depth. */
  lemma BarrierFollows(j: nat, seqv: seq<map<GroupKey, seq<Unit>>>, orders: seq<seq<GroupKey>>,
                       nested: seq<seq<Event>>, n: nat, p: nat)
    requires Schedule(j, seqv, orders, nested) && n <= |seqv|
    requires p < |LayerTrace(j, seqv, orders, nested, n)|
    requires LayerTrace(j, seqv, orders, nested, n)[p].Processed? && LayerTrace(j, seqv, orders, nested, n)[p].layer == j
    ensures var tr := LayerTrace(j, seqv, orders, nested, n);
      exists s :: p < s < |tr| && tr[s] == Synced(j, tr[p].depth)
  {
    var tr := LayerTrace(j, seqv, orders, nested, n);
    PosOfDepth(j, seqv, orders, nested, n, p);
    var s := BarrierAt(j, seqv, orders, nested, n, tr[p].depth);
    assert p < s < |tr| && tr[s] == Synced(j, tr[p].depth);
  }

  /** The barrier of each drained depth `d` is in the trace, at `SyncIndex`. */
  lemma BarrierAt(j: nat, seqv: seq<map<GroupKey, seq<Unit>>>, orders: seq<seq<GroupKey>>,
                  nested: seq<seq<Event>>, n: nat, d: nat) returns (s: nat)
    requires Schedule(j, seqv, orders, nested) && d < n <= |seqv|
    ensures s == SyncIndex(j, seqv, orders, nested, d) && s < |LayerTrace(j, seqv, orders, nested, n)|
    ensures LayerTrace(j, seqv, orders, nested, n)[s] == Synced(j, d)
  {
    s := SyncIndex(j, seqv, orders, nested, d);
    var next := LayerTrace(j, seqv, orders, nested, d + 1);
    assert next == LayerTrace(j, seqv, orders, nested, d) + ClusterEvents(j, d, seqv[d], orders[d]) + [Synced(j, d)] + nested[d];
    assert next[s] == Synced(j, d);
    TraceExtends(j, seqv, orders, nested, d + 1, n, s);
  }

  /** In `tr`, between a unit of one depth and a unit of a deeper depth of
      layer `j` lies the barrier of the first depth. */
  ghost predicate Barriered(tr: seq<Event>, j: nat)
  {
    forall p, q ::
      (0 <= p < q < |tr| && tr[p].Processed? && tr[q].Processed? && tr[p].layer == j && tr[q].layer == j
       && tr[p].depth < tr[q].depth) ==>
      exists s :: p < s < q && tr[s] == Synced(j, tr[p].depth)
  }

  /** Between a unit of one depth and a unit of a deeper depth of the same
      layer lies the barrier of the first depth. */
  lemma BarrierBetweenDepths(j: nat, seqv: seq<map<GroupKey, seq<Unit>>>, orders: seq<seq<GroupKey>>,
                             nested: seq<seq<Event>>, n: nat)
    requires Schedule(j, seqv, orders, nested) && n <= |seqv|
    ensures Barriered(LayerTrace(j, seqv, orders, nested, n), j)
  {
    var tr := LayerTrace(j, seqv, orders, nested, n);
    forall p, q | 0 <= p < q < |tr| && tr[p].Processed? && tr[q].Processed? && tr[p].layer == j && tr[q].layer == j
      && tr[p].depth < tr[q].depth
      ensures exists s :: p < s < q && tr[s] == Synced(j, tr[p].depth)
    {
      PosOfDepth(j, seqv, orders, nested, n, p);
      PosOfDepth(j, seqv, orders, nested, n, q);
      TraceGrows(j, seqv, orders, nested, tr[p].depth, tr[q].depth);
      var s := BarrierAt(j, seqv, orders, nested, n, tr[p].depth);
      assert p < s < q && tr[s] == Synced(j, tr[p].depth);
    }
  }

  /** Draining runs every queued unit of the layer. */
  lemma {:induction false} DrainRunsAll(j: nat, seqv: seq<map<GroupKey, seq<Unit>>>, orders: seq<seq<GroupKey>>,
                                        nested: seq<seq<Event>>, n: nat)
    requires Schedule(j, seqv, orders, nested) && n <= |seqv|
    ensures var tr := LayerTrace(j, seqv, orders, nested, n);
      forall d, k, i :: 0 <= d < n && k in seqv[d] && 0 <= i < |seqv[d][k]| ==> Processed(j, d, seqv[d][k][i]) in tr
  {
    if n > 0 {
      var pre := LayerTrace(j, seqv, orders, nested, n - 1);
      var ce := ClusterEvents(j, n - 1, seqv[n - 1], orders[n - 1]);
      var tr := LayerTrace(j, seqv, orders, nested, n);
      assert tr == pre + ce + [Synced(j, n - 1)] + nested[n - 1];
      DrainRunsAll(j, seqv, orders, nested, n - 1);
      ClusterEventsHas(j, n - 1, seqv[n - 1], orders[n - 1]);
      forall d, k, i | 0 <= d < n && k in seqv[d] && 0 <= i < |seqv[d][k]|
        ensures Processed(j, d, seqv[d][k][i]) in tr
      {
        if d < n - 1 {
          assert Processed(j, d, seqv[d][k][i]) in pre;
        } else {
          OrderCovers(orders[d], seqv[d].Keys);
          assert k in orders[d];
          assert Processed(j, d, seqv[d][k][i]) in ce;
        }
      }
    }
  }

  /** `u` is queued in some group at depth `d`. */
  ghost predicate Queued(seqv: seq<map<GroupKey, seq<Unit>>>, d: nat, u: Unit)
    requires d < |seqv|
  {
    exists k, i :: k in seqv[d] && 0 <= i < |seqv[d][k]| && u == seqv[d][k][i]
  }

  /** ... and runs nothing on that layer that was not queued there. */
  lemma {:induction false} DrainRunsOnlyQueued(j: nat, seqv: seq<map<GroupKey, seq<Unit>>>, orders: seq<seq<GroupKey>>,
                                               nested: seq<seq<Event>>, n: nat)
    requires Schedule(j, seqv, orders, nested) && n <= |seqv|
    ensures var tr := LayerTrace(j, seqv, orders, nested, n);
      forall p :: 0 <= p < |tr| && tr[p].Processed? && tr[p].layer == j ==> tr[p].depth < n && Queued(seqv, tr[p].depth, tr[p].unit)
  {
    if n > 0 {
      var pre := LayerTrace(j, seqv, orders, nested, n - 1);
      var ce := ClusterEvents(j, n - 1, seqv[n - 1], orders[n - 1]);
      var tr := LayerTrace(j, seqv, orders, nested, n);
      DrainRunsOnlyQueued(j, seqv, orders, nested, n - 1);
      ClusterEventsFrom(j, n - 1, seqv[n - 1], orders[n - 1]);
      forall p | 0 <= p < |tr| && tr[p].Processed? && tr[p].layer == j
        ensures tr[p].depth < n && Queued(seqv, tr[p].depth, tr[p].unit)
      {
        TraceSlices(j, seqv, orders, nested, n, p);
        if |pre| <= p {
          var k, i :| k in orders[n - 1] && k in seqv[n - 1] && 0 <= i < |seqv[n - 1][k]| && ce[p - |pre|] == Processed(j, n - 1, seqv[n - 1][k][i]);
          assert tr[p].depth == n - 1 && tr[p].unit == seqv[n - 1][k][i];
          assert Queued(seqv, n - 1, tr[p].unit);
        }
      }
    }
  }


  /** Only the first `n` orders and nested traces matter. */
  lemma {:induction false} LayerTracePrefix(j: nat, seqv: seq<map<GroupKey, seq<Unit>>>, orders: seq<seq<GroupKey>>,
                                            nested: seq<seq<Event>>, orders': seq<seq<GroupKey>>, nested': seq<seq<Event>>, n: nat)
    requires n <= |seqv| && n <= |orders| && n <= |nested| && n <= |orders'| && n <= |nested'|
    requires orders[..n] == orders'[..n] && nested[..n] == nested'[..n]
    ensures LayerTrace(j, seqv, orders, nested, n) == LayerTrace(j, seqv, orders', nested', n)
  {
    if n > 0 {
      assert orders[..n - 1] == orders'[..n - 1] && nested[..n - 1] == nested'[..n - 1] by {
        assert orders[..n - 1] == orders[..n][..n - 1];
        assert orders'[..n - 1] == orders'[..n][..n - 1];
        assert nested[..n - 1] == nested[..n][..n - 1];
        assert nested'[..n - 1] == nested'[..n][..n - 1];
      }
      assert orders[n - 1] == orders[..n][n - 1] && orders'[n - 1] == orders'[..n][n - 1];
      assert nested[n - 1] == nested[..n][n - 1] && nested'[n - 1] == nested'[..n][n - 1];
      LayerTracePrefix(j, seqv, orders, nested, orders', nested', n - 1);
    }
  }

  /** The nested trace of each drained depth is part of the layer's trace. */
  lemma {:induction false} NestedInTrace(j: nat, seqv: seq<map<GroupKey, seq<Unit>>>, orders: seq<seq<GroupKey>>,
                      nested: seq<seq<Event>>, n: nat, d: nat)
    requires d < n <= |seqv| && n <= |orders| && n <= |nested|
    ensures forall e :: 0 <= e < |nested[d]| ==> nested[d][e] in LayerTrace(j, seqv, orders, nested, n)
  {
    var next := LayerTrace(j, seqv, orders, nested, d + 1);
    var pre := LayerTrace(j, seqv, orders, nested, d) + ClusterEvents(j, d, seqv[d], orders[d]) + [Synced(j, d)];
    assert next == pre + nested[d];
    forall e | 0 <= e < |nested[d]|
      ensures nested[d][e] in LayerTrace(j, seqv, orders, nested, n)
    {
      assert next[|pre| + e] == nested[d][e];
      TraceExtends(j, seqv, orders, nested, d + 1, n, |pre| + e);
    }
  }

  // ---------------------------------------------------------------------
  // What a drained depth leaves for the nested drain

  /** The registrations the units run in `es` make, in the order they run. */
  function SpawnSeq(es: seq<Event>): seq<Registration>
  {
    if es == [] then []
    else SpawnSeq(es[..|es| - 1]) + (if es[|es| - 1].Processed? then Spawns(es[|es| - 1].unit) else [])
  }

  /** The registrations the units `us` make when run in order. */
  function SpawnsOf(us: seq<Unit>): seq<Registration>
  {
    if us == [] then [] else SpawnsOf(us[..|us| - 1]) + Spawns(us[|us| - 1])
  }

  /** Draining a group registers what its units register, in queue order. */
  lemma {:induction false} GroupSpawns(j: nat, d: nat, us: seq<Unit>)
    ensures SpawnSeq(GroupEvents(j, d, us)) == SpawnsOf(us)
    decreases |us|
  {
    if us != [] {
      var es := GroupEvents(j, d, us);
      assert es[..|es| - 1] == GroupEvents(j, d, us[..|us| - 1]);
      GroupSpawns(j, d, us[..|us| - 1]);
    }
  }

  lemma {:induction false} SpawnSeqAppend(a: seq<Event>, b: seq<Event>)
    ensures SpawnSeq(a + b) == SpawnSeq(a) + SpawnSeq(b)
    decreases |b|
  {
    if b != [] {
      var b' := b[..|b| - 1];
      assert (a + b)[..|a + b| - 1] == a + b';
      SpawnSeqAppend(a, b');
    } else {
      assert a + b == a;
    }
  }

  /** Registering `a` and then `b` is registering `a + b`. */
  lemma {:induction false} RegisterSeqAppend(v: LayerView, a: seq<Registration>, b: seq<Registration>)
    ensures RegisterSeq(v, a + b) == RegisterSeq(RegisterSeq(v, a), b)
    decreases |b|
  {
    if b != [] {
      var b' := b[..|b| - 1];
      assert (a + b)[..|a + b| - 1] == a + b';
      RegisterSeqAppend(v, a, b');
    } else {
      assert a + b == a;
    }
  }

  /** The layer a drained depth leaves above it: the registrations of its
      units, in the order they ran, filed into the layer pushed empty. */
  function SpawnView(j: nat, d: nat, cv: map<GroupKey, seq<Unit>>, order: seq<GroupKey>): LayerView
  {
    RegisterSeq(EmptyView, SpawnSeq(ClusterEvents(j, d, cv, order)))
  }

  /** The witnesses of a complete drain of one layer: a visiting order per
      depth and, per depth, the drain of what that depth left above. */
  datatype Drain = Drain(orders: seq<seq<GroupKey>>, subs: seq<Drain>)

  const NoDrain := Drain([], [])

  /** `dr` drains the layer `j` whose queues are `seqv`: each depth's groups
      are visited in an order of its keys, and each depth's nested drain
      drains exactly the layer that depth's units registered into. */
  ghost predicate Drains(j: nat, seqv: seq<map<GroupKey, seq<Unit>>>, dr: Drain)
    decreases dr
  {
    && |dr.orders| == |seqv| && |dr.subs| == |seqv|
    && (forall d {:trigger IsOrderOf(dr.orders[d], seqv[d].Keys)} :: 0 <= d < |seqv| ==> IsOrderOf(dr.orders[d], seqv[d].Keys))
    && (forall d :: 0 <= d < |seqv| ==> Drains(j + 1, SpawnView(j, d, seqv[d], dr.orders[d]).seqv, dr.subs[d]))
  }

  /** What the drain `dr` of layer `j` asks of the pool, nested drains included. */
  function DrainTrace(j: nat, seqv: seq<map<GroupKey, seq<Unit>>>, dr: Drain): seq<Event>
    decreases dr, |seqv| + 1
  {
    if |dr.orders| < |seqv| || |dr.subs| < |seqv| then []
    else LayerTrace(j, seqv, dr.orders, SubTraces(j, seqv, dr, |seqv|), |seqv|)
  }

  /** The traces of the first `n` nested drains of `dr`. */
  function SubTraces(j: nat, seqv: seq<map<GroupKey, seq<Unit>>>, dr: Drain, n: nat): (ts: seq<seq<Event>>)
    requires n <= |seqv| && n <= |dr.orders| && n <= |dr.subs|
    ensures |ts| == n
    decreases dr, n
  {
    if n == 0 then []
    else SubTraces(j, seqv, dr, n - 1)
         + [DrainTrace(j + 1, SpawnView(j, n - 1, seqv[n - 1], dr.orders[n - 1]).seqv, dr.subs[n - 1])]
  }

  lemma {:induction false} SubTracesAt(j: nat, seqv: seq<map<GroupKey, seq<Unit>>>, dr: Drain, n: nat, d: nat)
    requires d < n <= |seqv| && n <= |dr.orders| && n <= |dr.subs|
    ensures SubTraces(j, seqv, dr, n)[d] == DrainTrace(j + 1, SpawnView(j, d, seqv[d], dr.orders[d]).seqv, dr.subs[d])
  {
    if d < n - 1 {
      SubTracesAt(j, seqv, dr, n - 1, d);
    }
  }

  /** The nested traces of the first `n` depths depend only on those depths' witnesses. */
  lemma {:induction false} SubTracesPrefix(j: nat, seqv: seq<map<GroupKey, seq<Unit>>>, orders: seq<seq<GroupKey>>, subs: seq<Drain>,
                                           order: seq<GroupKey>, sub: Drain, n: nat)
    requires n <= |seqv| && n <= |orders| && n <= |subs|
    ensures SubTraces(j, seqv, Drain(orders + [order], subs + [sub]), n) == SubTraces(j, seqv, Drain(orders, subs), n)
  {
    if n > 0 {
      SubTracesPrefix(j, seqv, orders, subs, order, sub, n - 1);
      assert (orders + [order])[n - 1] == orders[n - 1] && (subs + [sub])[n - 1] == subs[n - 1];
    }
  }

  /** A drain is a schedule of its layer whose nested traces are the nested
      drains' traces, and it stays on its layer and deeper ones. */
  lemma {:induction false} DrainSchedule(j: nat, seqv: seq<map<GroupKey, seq<Unit>>>, dr: Drain)
    requires Drains(j, seqv, dr)
    ensures Schedule(j, seqv, dr.orders, SubTraces(j, seqv, dr, |seqv|))
    ensures DrainTrace(j, seqv, dr) == LayerTrace(j, seqv, dr.orders, SubTraces(j, seqv, dr, |seqv|), |seqv|)
    ensures forall p :: 0 <= p < |DrainTrace(j, seqv, dr)| ==> DrainTrace(j, seqv, dr)[p].layer >= j
    decreases dr
  {
    var ts: seq<seq<Event>> := SubTraces(j, seqv, dr, |seqv|);
    forall d, e | 0 <= d < |ts| && 0 <= e < |ts[d]|
      ensures ts[d][e].layer > j
    {
      SubTracesAt(j, seqv, dr, |seqv|, d);
      DrainSchedule(j + 1, SpawnView(j, d, seqv[d], dr.orders[d]).seqv, dr.subs[d]);
    }
    LayerTraceAt(j, seqv, dr.orders, ts, |seqv|);
  }

  /** Everything queued in the layer is run by the drain. */
  lemma {:induction false} DrainRunsQueued(j: nat, seqv: seq<map<GroupKey, seq<Unit>>>, dr: Drain)
    requires Drains(j, seqv, dr)
    ensures forall d, k, i :: 0 <= d < |seqv| && k in seqv[d] && 0 <= i < |seqv[d][k]| ==>
      Processed(j, d, seqv[d][k][i]) in DrainTrace(j, seqv, dr)
  {
    DrainSchedule(j, seqv, dr);
    DrainRunsAll(j, seqv, dr.orders, SubTraces(j, seqv, dr, |seqv|), |seqv|);
  }

  /** Everything depth `d` registers while it drains is run by the nested
      drain, on the layer above, as part of the same trace. */
  lemma {:induction false} DrainRunsSpawned(j: nat, seqv: seq<map<GroupKey, seq<Unit>>>, dr: Drain, d: nat)
    requires Drains(j, seqv, dr) && d < |seqv|
    ensures var w := SpawnView(j, d, seqv[d], dr.orders[d]);
      forall e, k, i :: 0 <= e < |w.seqv| && k in w.seqv[e] && 0 <= i < |w.seqv[e][k]| ==>
        Processed(j + 1, e, w.seqv[e][k][i]) in DrainTrace(j, seqv, dr)
  {
    var w := SpawnView(j, d, seqv[d], dr.orders[d]);
    var ts := SubTraces(j, seqv, dr, |seqv|);
    DrainRunsQueued(j + 1, w.seqv, dr.subs[d]);
    SubTracesAt(j, seqv, dr, |seqv|, d);
    DrainSchedule(j, seqv, dr);
    NestedInTrace(j, seqv, dr.orders, ts, |seqv|, d);
  }

  /** Every unit `es` runs has its output evaluated. */
  ghost predicate EventsEvaluated(es: seq<Event>)
    reads *
  {
    forall p :: 0 <= p < |es| && es[p].Processed? ==> Evaluated(es[p].unit)
  }

  lemma {:induction false} EventsEvaluatedAppend(a: seq<Event>, b: seq<Event>)
    requires EventsEvaluated(a) && EventsEvaluated(b)
    ensures EventsEvaluated(a + b)
  {
    forall p | 0 <= p < |a + b| && (a + b)[p].Processed?
      ensures Evaluated((a + b)[p].unit)
    {
      if p < |a| {
        assert (a + b)[p] == a[p];
      } else {
        assert (a + b)[p] == b[p - |a|];
      }
    }
  }

  /** Every unit of `us` is evaluated. */
  ghost predicate UnitsEvaluated(us: seq<Unit>)
    reads *
  {
    forall p :: 0 <= p < |us| ==> Evaluated(us[p])
  }

  lemma UnitsEvaluatedStep(us: seq<Unit>, u: Unit)
    requires UnitsEvaluated(us) && Evaluated(u)
    ensures UnitsEvaluated(us + [u])
  {
    forall p | 0 <= p < |us + [u]|
      ensures Evaluated((us + [u])[p])
    {
      if p < |us| {
        assert (us + [u])[p] == us[p];
      }
    }
  }

  /** One more unit of `queue` run: its registrations follow those of the
      units before it, and it joins the evaluated prefix. */
  lemma PrefixStep(above: LayerView, queue: seq<Unit>, n: nat)
    requires n < |queue| && UnitsEvaluated(queue[..n]) && Evaluated(queue[n])
    ensures UnitsEvaluated(queue[..n + 1])
    ensures RegisterSeq(RegisterSeq(above, SpawnsOf(queue[..n])), Spawns(queue[n])) == RegisterSeq(above, SpawnsOf(queue[..n + 1]))
  {
    assert queue[..n + 1][..n] == queue[..n];
    RegisterSeqAppend(above, SpawnsOf(queue[..n]), Spawns(queue[n]));
    assert queue[..n + 1] == queue[..n] + [queue[n]];
    UnitsEvaluatedStep(queue[..n], queue[n]);
  }

  lemma GroupEvaluated(j: nat, d: nat, us: seq<Unit>)
    requires UnitsEvaluated(us)
    ensures EventsEvaluated(GroupEvents(j, d, us))
  {
  }

  /** Every unit queued in the layer queues `seqv` has its output evaluated. */
  ghost predicate AllEvaluated(seqv: seq<map<GroupKey, seq<Unit>>>)
    reads *
  {
    forall d, k, i :: 0 <= d < |seqv| && k in seqv[d] && 0 <= i < |seqv[d][k]| ==> Evaluated(seqv[d][k][i])
  }

  /** A registration that was new is queued in the layer it was filed in, so
      a drain that evaluates every queued unit evaluates it. */
  lemma RegisteredQueued(v: LayerView, reg: Registration)
    requires reg.output != null && reg.output !in v.outputs
    requires AllEvaluated(RegisterSpec(v, reg).seqv)
    ensures Evaluated(reg.unit)
  {
    RegisterEffect(v, reg);
    var d := NewDepth(v.outputs, reg);
    var units := RegisterSpec(v, reg).seqv[d][reg.group];
    assert units[|units| - 1] == reg.unit;
  }

  /** A drain whose every unit run was evaluated leaves every queued unit
      evaluated, and every unit its depths registered too. */
  lemma {:induction false} QueuedEvaluated(j: nat, seqv: seq<map<GroupKey, seq<Unit>>>, dr: Drain, trace: seq<Event>)
    requires Drains(j, seqv, dr) && trace == DrainTrace(j, seqv, dr) && EventsEvaluated(trace)
    ensures AllEvaluated(seqv)
    ensures forall d :: 0 <= d < |seqv| ==> AllEvaluated(SpawnView(j, d, seqv[d], dr.orders[d]).seqv)
  {
    DrainRunsQueued(j, seqv, dr);
    forall d, k, i | 0 <= d < |seqv| && k in seqv[d] && 0 <= i < |seqv[d][k]|
      ensures Evaluated(seqv[d][k][i])
    {
      var p :| 0 <= p < |trace| && trace[p] == Processed(j, d, seqv[d][k][i]);
    }
    forall d | 0 <= d < |seqv|
      ensures AllEvaluated(SpawnView(j, d, seqv[d], dr.orders[d]).seqv)
    {
      var w := SpawnView(j, d, seqv[d], dr.orders[d]);
      DrainRunsSpawned(j, seqv, dr, d);
      forall e, k, i | 0 <= e < |w.seqv| && k in w.seqv[e] && 0 <= i < |w.seqv[e][k]|
        ensures Evaluated(w.seqv[e][k][i])
      {
        var p :| 0 <= p < |trace| && trace[p] == Processed(j + 1, e, w.seqv[e][k][i]);
      }
    }
  }

  /** Running more units registers their spawns after the earlier ones. */
  lemma {:induction false} SpawnMore(v: LayerView, a: seq<Event>, b: seq<Event>)
    ensures RegisterSeq(RegisterSeq(v, SpawnSeq(a)), SpawnSeq(b)) == RegisterSeq(v, SpawnSeq(a + b))
  {
    SpawnSeqAppend(a, b);
    RegisterSeqAppend(v, SpawnSeq(a), SpawnSeq(b));
  }

  /** The first `n` depths of layer `j` drained with visiting orders
      `orders` and nested drains `subs`, making the trace `trace`. Stated
      under the `FrameGuard`, so the verifier unfolds it only where asked. */
  ghost predicate DrainedWith(j: nat, seqv: seq<map<GroupKey, seq<Unit>>>, orders: seq<seq<GroupKey>>,
                              subs: seq<Drain>, trace: seq<Event>, n: nat)
    requires n <= |seqv|
  {
    forall m: nat :: FrameGuard(m) ==>
      && |orders| == n && |subs| == n
      && (forall d :: 0 <= d < n ==> IsOrderOf(orders[d], seqv[d].Keys))
      && (forall d :: 0 <= d < n ==> Drains(j + 1, SpawnView(j, d, seqv[d], orders[d]).seqv, subs[d]))
      && trace == LayerTrace(j, seqv, orders, SubTraces(j, seqv, Drain(orders, subs), n), n)
  }

  lemma {:induction false} DrainedOpen(j: nat, seqv: seq<map<GroupKey, seq<Unit>>>, orders: seq<seq<GroupKey>>,
                    subs: seq<Drain>, trace: seq<Event>, n: nat)
    requires n <= |seqv| && DrainedWith(j, seqv, orders, subs, trace, n)
    ensures |orders| == n && |subs| == n
    ensures forall d :: 0 <= d < n ==> IsOrderOf(orders[d], seqv[d].Keys)
    ensures forall d :: 0 <= d < n ==> Drains(j + 1, SpawnView(j, d, seqv[d], orders[d]).seqv, subs[d])
    ensures trace == LayerTrace(j, seqv, orders, SubTraces(j, seqv, Drain(orders, subs), n), n)
  {
    assert FrameGuard(0);
  }

  lemma DrainedNone(j: nat, seqv: seq<map<GroupKey, seq<Unit>>>)
    ensures DrainedWith(j, seqv, [], [], [], 0)
  {
    assert FrameGuard(0);
  }

  /** Draining depth `n` in the order `order`, then the nested drain `sub`
      of what it registered, extends the trace by that depth's events, its
      barrier and the nested drain's events. */
  lemma {:induction false} DrainedStep(j: nat, seqv: seq<map<GroupKey, seq<Unit>>>, orders: seq<seq<GroupKey>>, subs: seq<Drain>,
                    trace: seq<Event>, n: nat, order: seq<GroupKey>, events: seq<Event>, sub: Drain, subTrace: seq<Event>)
    requires n < |seqv| && DrainedWith(j, seqv, orders, subs, trace, n)
    requires IsOrderOf(order, seqv[n].Keys) && events == ClusterEvents(j, n, seqv[n], order)
    requires Drains(j + 1, SpawnView(j, n, seqv[n], order).seqv, sub)
    requires subTrace == DrainTrace(j + 1, SpawnView(j, n, seqv[n], order).seqv, sub)
    ensures DrainedWith(j, seqv, orders + [order], subs + [sub], trace + events + [Synced(j, n)] + subTrace, n + 1)
  {
    DrainedOpen(j, seqv, orders, subs, trace, n);
    var orders', subs' := orders + [order], subs + [sub];
    var nested := SubTraces(j, seqv, Drain(orders, subs), n);
    var nested' := SubTraces(j, seqv, Drain(orders', subs'), n + 1);
    SubTracesPrefix(j, seqv, orders, subs, order, sub, n);
    assert orders'[n] == order && subs'[n] == sub;
    assert nested' == nested + [subTrace];
    assert orders'[..n] == orders[..n] && nested'[..n] == nested[..n];
    LayerTracePrefix(j, seqv, orders, nested, orders', nested', n);
    assert LayerTrace(j, seqv, orders', nested', n + 1) == trace + events + [Synced(j, n)] + subTrace;
    forall d | 0 <= d < n + 1
      ensures IsOrderOf(orders'[d], seqv[d].Keys)
      ensures Drains(j + 1, SpawnView(j, d, seqv[d], orders'[d]).seqv, subs'[d])
    {
      if d < n {
        assert orders'[d] == orders[d] && subs'[d] == subs[d];
      }
    }
    assert FrameGuard(0);
  }

  /** Every depth drained: the witnesses drain the layer and the trace is theirs. */
  lemma {:induction false} DrainedAll(j: nat, seqv: seq<map<GroupKey, seq<Unit>>>, orders: seq<seq<GroupKey>>, subs: seq<Drain>,
                   trace: seq<Event>)
    requires DrainedWith(j, seqv, orders, subs, trace, |seqv|)
    ensures Drains(j, seqv, Drain(orders, subs)) && trace == DrainTrace(j, seqv, Drain(orders, subs))
  {
    assert FrameGuard(0);
  }

  /** The drain of a layer with no depths does nothing. */
  lemma DrainNothing(j: nat)
    ensures Drains(j, [], NoDrain) && DrainTrace(j, [], NoDrain) == []
  {
  }


  lemma {:induction false} WithinMono(v: LayerView, b1: int, b2: int, mc1: set<DataWithEvalInfo<Matrix>>, mc2: set<DataWithEvalInfo<Matrix>>,
                                      bc1: set<DataWithEvalInfo<BatchMatrix>>, bc2: set<DataWithEvalInfo<BatchMatrix>>)
    requires UnitsWithin(v, b1, mc1, bc1) && b1 <= b2 && mc1 <= mc2 && bc1 <= bc2
    ensures UnitsWithin(v, b2, mc2, bc2)
  {
    forall d, k, i | 0 <= d < |v.seqv| && k in v.seqv[d] && 0 <= i < |v.seqv[d][k]|
      ensures UnitOK(v.seqv[d][k][i], b2, mc2, bc2)
    {
      assert UnitOK(v.seqv[d][k][i], b1, mc1, bc1);
    }
  }

  // ---------------------------------------------------------------------
  // The plan

  /** `GlobalEvalPool()`: the process-wide choice of pool kind. */
  class EvalPoolSetting {
    var selected: EvalPoolEnum

    constructor ()
      ensures selected == Trival
    {
      selected := Trival;
    }

    /** `EvalPlan::SetEvalPool`. */
    method SetEvalPool(epType: EvalPoolEnum)
      modifies this
      ensures selected == epType
    {
      selected := epType;
    }
  }

  /** Where a group sits: its layer, depth and kind. */
  datatype Slot = Slot(layer: nat, depth: nat, key: GroupKey)

  const EmptyView := LayerView([], map[])

  /** The recorded queues agree with the layer: same depths, same group
      kinds at each depth, same recorded outputs. */
  ghost predicate Shaped(l: EvalLayer, v: LayerView)
  {
    && |v.seqv| == |l.evalSeq| && v.outputs == l.outputs
    && forall d :: 0 <= d < |l.evalSeq| ==> v.seqv[d].Keys == l.evalSeq[d].Keys
  }

  /** The layer after filing group `g` under `key` at `depth` and recording
      `out` at that depth. */
  function PushLayer(l: EvalLayer, depth: nat, key: GroupKey, g: Group, out: object?): EvalLayer
  {
    var empty: Cluster := map[];
    var padded := if |l.evalSeq| <= depth then l.evalSeq + seq(depth + 1 - |l.evalSeq|, _ => empty) else l.evalSeq;
    EvalLayer(padded[depth := padded[depth][key := g]], l.operands, l.outputs[out := depth])
  }

  lemma {:induction false} PushKeepsShape(l: EvalLayer, v: LayerView, reg: Registration, g: Group)
    requires Shaped(l, v) && reg.output != null && reg.output !in l.outputs
    ensures Shaped(PushLayer(l, NewDepth(l.outputs, reg), reg.group, g, reg.output), RegisterSpec(v, reg))
  {
    var depth := NewDepth(l.outputs, reg);
    var r := PushLayer(l, depth, reg.group, g, reg.output);
    var w := RegisterSpec(v, reg);
    forall d | 0 <= d < |r.evalSeq|
      ensures w.seqv[d].Keys == r.evalSeq[d].Keys
    {
      if d < |l.evalSeq| {
        assert v.seqv[d].Keys == l.evalSeq[d].Keys;
      }
    }
  }

  /** The slot of every group, and the depth of every recorded output. */
  ghost predicate SlotsOK(layers: seq<EvalLayer>, slotOf: map<Group, Slot>)
  {
    forall j, d, k :: 0 <= j < |layers| && 0 <= d < |layers[j].evalSeq| && k in layers[j].evalSeq[d] ==>
      layers[j].evalSeq[d][k] in slotOf && slotOf[layers[j].evalSeq[d][k]] == Slot(j, d, k)
  }

  ghost predicate DepthsOK(layers: seq<EvalLayer>)
  {
    forall j, o :: 0 <= j < |layers| && o in layers[j].outputs ==> layers[j].outputs[o] < |layers[j].evalSeq|
  }

  /** Groups in different slots are different objects. */
  lemma {:induction false} SlotsApart(layers: seq<EvalLayer>, slotOf: map<Group, Slot>, s: Slot, g: Group)
    requires SlotsOK(layers, slotOf)
    requires g !in slotOf || slotOf[g] == s
    ensures forall j, d, k :: 0 <= j < |layers| && 0 <= d < |layers[j].evalSeq| && k in layers[j].evalSeq[d] && Slot(j, d, k) != s ==>
      layers[j].evalSeq[d][k] != g
  {
    forall j, d, k | 0 <= j < |layers| && 0 <= d < |layers[j].evalSeq| && k in layers[j].evalSeq[d] && Slot(j, d, k) != s
      ensures layers[j].evalSeq[d][k] != g
    {
      assert slotOf[layers[j].evalSeq[d][k]] == Slot(j, d, k);
    }
  }

  lemma {:induction false} PushKeepsSlots(layers: seq<EvalLayer>, slotOf: map<Group, Slot>, j: nat, depth: nat, key: GroupKey, g: Group, out: object?)
    requires SlotsOK(layers, slotOf) && DepthsOK(layers) && j < |layers|
    requires if depth < |layers[j].evalSeq| && key in layers[j].evalSeq[depth]
             then layers[j].evalSeq[depth][key] == g else g !in slotOf
    ensures var ls := layers[j := PushLayer(layers[j], depth, key, g, out)];
      SlotsOK(ls, slotOf[g := Slot(j, depth, key)]) && DepthsOK(ls)
  {
    var ls := layers[j := PushLayer(layers[j], depth, key, g, out)];
    var so := slotOf[g := Slot(j, depth, key)];
    forall j', d, k | 0 <= j' < |ls| && 0 <= d < |ls[j'].evalSeq| && k in ls[j'].evalSeq[d]
      ensures ls[j'].evalSeq[d][k] in so && so[ls[j'].evalSeq[d][k]] == Slot(j', d, k)
    {
      if j' != j || d != depth || k != key {
        assert d < |layers[j'].evalSeq| && k in layers[j'].evalSeq[d] && ls[j'].evalSeq[d][k] == layers[j'].evalSeq[d][k];
        assert slotOf[layers[j'].evalSeq[d][k]] == Slot(j', d, k);
      }
    }
    forall j', o | 0 <= j' < |ls| && o in ls[j'].outputs
      ensures ls[j'].outputs[o] < |ls[j'].evalSeq|
    {
      if j' != j || o != out {
        assert o in layers[j'].outputs;
      }
    }
  }

  /** Every group of `layers` is in `repr` and holds the queue `views`
      records for its slot. */
  ghost predicate Stored(layers: seq<EvalLayer>, views: seq<LayerView>, repr: set<Group>)
    reads repr
  {
    forall j, d, k :: 0 <= j < |layers| && 0 <= d < |layers[j].evalSeq| && k in layers[j].evalSeq[d] ==>
      && layers[j].evalSeq[d][k] in repr
      && j < |views| && d < |views[j].seqv| && k in views[j].seqv[d]
      && layers[j].evalSeq[d][k].unitList == views[j].seqv[d][k]
  }

  /** The queues of `Stored`, read from a snapshot `q` of the groups. */
  ghost predicate StoredIn(layers: seq<EvalLayer>, views: seq<LayerView>, q: map<Group, seq<Unit>>)
  {
    forall j, d, k :: 0 <= j < |layers| && 0 <= d < |layers[j].evalSeq| && k in layers[j].evalSeq[d] ==>
      && layers[j].evalSeq[d][k] in q
      && j < |views| && d < |views[j].seqv| && k in views[j].seqv[d]
      && q[layers[j].evalSeq[d][k]] == views[j].seqv[d][k]
  }

  /** The group a registration would join is one of the stored groups. */
  lemma ExistingStored(layers: seq<EvalLayer>, views: seq<LayerView>, q: map<Group, seq<Unit>>, j: nat, reg: Registration)
    requires StoredIn(layers, views, q) && j < |layers|
    ensures Existing(layers[j], reg) <= q.Keys
  {
  }

  ghost function Snapshot(repr: set<Group>): map<Group, seq<Unit>>
    reads repr
  {
    map h | h in repr :: h.unitList
  }

  lemma {:induction false} StoredSnapshot(layers: seq<EvalLayer>, views: seq<LayerView>, repr: set<Group>)
    requires Stored(layers, views, repr)
    ensures StoredIn(layers, views, Snapshot(repr))
  {
  }

  /** Appending the unit to `g`, and to `g` only, keeps the queues stored:
      `u` is the new queue of `g`, every other group keeps its queue in `q`. */
  lemma {:induction false} StoredInAfterPush(layers: seq<EvalLayer>, views: seq<LayerView>, q: map<Group, seq<Unit>>,
                                             slotOf: map<Group, Slot>, j: nat, reg: Registration, depth: nat, g: Group, u: seq<Unit>)
    requires StoredIn(layers, views, q)
    requires SlotsOK(layers, slotOf) && j < |layers| && |views| == |layers| && Shaped(layers[j], views[j])
    requires reg.output != null && reg.output !in layers[j].outputs && depth == NewDepth(layers[j].outputs, reg)
    requires if depth < |layers[j].evalSeq| && reg.group in layers[j].evalSeq[depth]
      then layers[j].evalSeq[depth][reg.group] == g && g in q && u == q[g] + [reg.unit]
      else g !in slotOf && u == [reg.unit]
    ensures StoredIn(layers[j := PushLayer(layers[j], depth, reg.group, g, reg.output)], views[j := RegisterSpec(views[j], reg)], q[g := u])
  {
    var ls := layers[j := PushLayer(layers[j], depth, reg.group, g, reg.output)];
    var vs := views[j := RegisterSpec(views[j], reg)];
    RegisterEffect(views[j], reg);
    SlotsApart(layers, slotOf, Slot(j, depth, reg.group), g);
    forall j', d, k | 0 <= j' < |ls| && 0 <= d < |ls[j'].evalSeq| && k in ls[j'].evalSeq[d]
      ensures ls[j'].evalSeq[d][k] in q[g := u] && j' < |vs| && d < |vs[j'].seqv| && k in vs[j'].seqv[d]
        && q[g := u][ls[j'].evalSeq[d][k]] == vs[j'].seqv[d][k]
    {
      if Slot(j', d, k) != Slot(j, depth, reg.group) {
        assert d < |layers[j'].evalSeq| && k in layers[j'].evalSeq[d] && ls[j'].evalSeq[d][k] == layers[j'].evalSeq[d][k];
      }
    }
  }

  /** Everything `EvalPlan::Valid` says about the layers and their groups. */
  ghost predicate Coherent(layers: seq<EvalLayer>, views: seq<LayerView>, repr: set<Group>, slotOf: map<Group, Slot>)
    reads repr
  {
    && |views| == |layers|
    && SlotsOK(layers, slotOf)
    && DepthsOK(layers)
    && (forall j :: 0 <= j < |layers| ==> Shaped(layers[j], views[j]))
    && Stored(layers, views, repr)
  }

  /** `Coherent` with the queues read from the snapshot `q`. */
  ghost predicate CoherentIn(layers: seq<EvalLayer>, views: seq<LayerView>, q: map<Group, seq<Unit>>, slotOf: map<Group, Slot>)
  {
    && |views| == |layers|
    && SlotsOK(layers, slotOf)
    && DepthsOK(layers)
    && (forall j :: 0 <= j < |layers| ==> Shaped(layers[j], views[j]))
    && StoredIn(layers, views, q)
  }

  lemma {:induction false} SnapshotCoherent(layers: seq<EvalLayer>, views: seq<LayerView>, repr: set<Group>, slotOf: map<Group, Slot>)
    requires Coherent(layers, views, repr, slotOf)
    ensures CoherentIn(layers, views, Snapshot(repr), slotOf) && Snapshot(repr).Keys == repr
  {
    StoredSnapshot(layers, views, repr);
  }

  /** A snapshot that agrees with every group gives back `Coherent`. */
  lemma {:induction false} CoherentFromSnapshot(layers: seq<EvalLayer>, views: seq<LayerView>, repr: set<Group>,
                                                q: map<Group, seq<Unit>>, slotOf: map<Group, Slot>)
    requires CoherentIn(layers, views, q, slotOf) && q.Keys == repr
    requires forall h :: h in repr ==> h.unitList == q[h]
    ensures Coherent(layers, views, repr, slotOf)
  {
  }

  /** Filing a unit under a new output keeps the layers coherent; `u` is the
      new queue of the group `g` the unit joins. */
  lemma {:induction false} PushKeepsCoherent(layers: seq<EvalLayer>, views: seq<LayerView>, q: map<Group, seq<Unit>>,
                                             slotOf: map<Group, Slot>, j: nat, reg: Registration, g: Group, u: seq<Unit>)
    requires CoherentIn(layers, views, q, slotOf) && j < |layers|
    requires reg.output != null && reg.output !in layers[j].outputs
    requires var depth := NewDepth(layers[j].outputs, reg);
      if depth < |layers[j].evalSeq| && reg.group in layers[j].evalSeq[depth]
      then layers[j].evalSeq[depth][reg.group] == g && g in q && u == q[g] + [reg.unit]
      else g !in slotOf && u == [reg.unit]
    ensures var depth := NewDepth(layers[j].outputs, reg);
      CoherentIn(layers[j := PushLayer(layers[j], depth, reg.group, g, reg.output)], views[j := RegisterSpec(views[j], reg)],
                 q[g := u], slotOf[g := Slot(j, depth, reg.group)])
  {
    var depth := NewDepth(layers[j].outputs, reg);
    PushKeepsSlots(layers, slotOf, j, depth, reg.group, g, reg.output);
    PushKeepsShape(layers[j], views[j], reg, g);
    StoredInAfterPush(layers, views, q, slotOf, j, reg, depth, g, u);
    var ls := layers[j := PushLayer(layers[j], depth, reg.group, g, reg.output)];
    var vs := views[j := RegisterSpec(views[j], reg)];
    forall j' | 0 <= j' < |ls|
      ensures Shaped(ls[j'], vs[j'])
    {
    }
  }

  /** `v` with the queue at depth `d`, kind `k` replaced by `q`. */
  function SetQueue(v: LayerView, d: nat, k: GroupKey, q: seq<Unit>): LayerView
    requires d < |v.seqv|
  {
    v.(seqv := v.seqv[d := v.seqv[d][k := q]])
  }

  /** `m` with the queues of `ks` emptied. */
  function ClearKeys(m: map<GroupKey, seq<Unit>>, ks: set<GroupKey>): (r: map<GroupKey, seq<Unit>>)
    ensures r.Keys == m.Keys
    ensures forall k :: k in m ==> r[k] == if k in ks then [] else m[k]
  {
    map k | k in m :: if k in ks then [] else m[k]
  }

  /** `v` with its first `n` depths emptied. */
  function DrainedUpTo(v: LayerView, n: nat): (r: LayerView)
    ensures |r.seqv| == |v.seqv| && r.outputs == v.outputs
    ensures forall d :: 0 <= d < |v.seqv| ==> r.seqv[d] == if d < n then ClearKeys(v.seqv[d], v.seqv[d].Keys) else v.seqv[d]
  {
    LayerView(seq(|v.seqv|, d requires 0 <= d < |v.seqv| => if d < n then ClearKeys(v.seqv[d], v.seqv[d].Keys) else v.seqv[d]), v.outputs)
  }

  /** The queues stay stored when the group at slot `(t, i, k)`, and only
      its entries, get the queue `u`. */
  lemma {:induction false} StoredInSetQueue(layers: seq<EvalLayer>, views: seq<LayerView>, q: map<Group, seq<Unit>>,
                                            slotOf: map<Group, Slot>, t: nat, i: nat, k: GroupKey, u: seq<Unit>)
    requires StoredIn(layers, views, q) && SlotsOK(layers, slotOf)
    requires t < |layers| && i < |layers[t].evalSeq| && k in layers[t].evalSeq[i] && t < |views| && i < |views[t].seqv|
    ensures StoredIn(layers, views[t := SetQueue(views[t], i, k, u)], q[layers[t].evalSeq[i][k] := u])
  {
    var g := layers[t].evalSeq[i][k];
    var vs := views[t := SetQueue(views[t], i, k, u)];
    SlotsApart(layers, slotOf, Slot(t, i, k), g);
    forall j, d, k' | 0 <= j < |layers| && 0 <= d < |layers[j].evalSeq| && k' in layers[j].evalSeq[d]
      ensures layers[j].evalSeq[d][k'] in q[g := u] && j < |vs| && d < |vs[j].seqv| && k' in vs[j].seqv[d]
        && q[g := u][layers[j].evalSeq[d][k']] == vs[j].seqv[d][k']
    {
      if Slot(j, d, k') != Slot(t, i, k) {
        assert layers[j].evalSeq[d][k'] != g;
        assert vs[j].seqv[d][k'] == views[j].seqv[d][k'];
      }
    }
  }

  /** Giving the group at slot `(t, i, k)` the queue `u` keeps the layers
      coherent when the snapshot and the views both record `u` there. */
  lemma {:induction false} SetQueueCoherent(layers: seq<EvalLayer>, views: seq<LayerView>, q: map<Group, seq<Unit>>,
                                            slotOf: map<Group, Slot>, t: nat, i: nat, k: GroupKey, u: seq<Unit>)
    requires CoherentIn(layers, views, q, slotOf)
    requires t < |layers| && i < |layers[t].evalSeq| && k in layers[t].evalSeq[i]
    ensures i < |views[t].seqv|
    ensures CoherentIn(layers, views[t := SetQueue(views[t], i, k, u)], q[layers[t].evalSeq[i][k] := u], slotOf)
  {
    assert Shaped(layers[t], views[t]);
    var vs := views[t := SetQueue(views[t], i, k, u)];
    StoredInSetQueue(layers, views, q, slotOf, t, i, k, u);
    forall j | 0 <= j < |layers|
      ensures Shaped(layers[j], vs[j])
    {
      assert Shaped(layers[j], views[j]);
    }
  }

  /** A new empty layer on top keeps the layers coherent. */
  lemma {:induction false} OpenCoherent(layers: seq<EvalLayer>, views: seq<LayerView>, q: map<Group, seq<Unit>>, slotOf: map<Group, Slot>)
    requires CoherentIn(layers, views, q, slotOf)
    ensures CoherentIn(layers + [EmptyLayer], views + [EmptyView], q, slotOf)
  {
    var ls, vs := layers + [EmptyLayer], views + [EmptyView];
    forall j | 0 <= j < |ls|
      ensures Shaped(ls[j], vs[j])
    {
      if j < |layers| {
        assert ls[j] == layers[j] && vs[j] == views[j];
      }
    }
    forall j, d, k | 0 <= j < |ls| && 0 <= d < |ls[j].evalSeq| && k in ls[j].evalSeq[d]
      ensures ls[j].evalSeq[d][k] in q && j < |vs| && d < |vs[j].seqv| && k in vs[j].seqv[d]
        && q[ls[j].evalSeq[d][k]] == vs[j].seqv[d][k]
    {
      assert ls[j] == layers[j] && vs[j] == views[j];
    }
    forall j, d, k | 0 <= j < |ls| && 0 <= d < |ls[j].evalSeq| && k in ls[j].evalSeq[d]
      ensures ls[j].evalSeq[d][k] in slotOf && slotOf[ls[j].evalSeq[d][k]] == Slot(j, d, k)
    {
      assert ls[j] == layers[j];
    }
    forall j, o | 0 <= j < |ls| && o in ls[j].outputs
      ensures ls[j].outputs[o] < |ls[j].evalSeq|
    {
      assert ls[j] == layers[j];
    }
  }

  /** Dropping the top layer and clearing the one below keeps the layers
      coherent. */
  lemma {:induction false} CloseCoherent(layers: seq<EvalLayer>, views: seq<LayerView>, q: map<Group, seq<Unit>>,
                                         slotOf: map<Group, Slot>, t: nat)
    requires CoherentIn(layers, views, q, slotOf) && |layers| == t + 2
    ensures CoherentIn(layers[..t + 1][t := EmptyLayer], views[..t + 1][t := EmptyView], q, slotOf)
  {
    var ls, vs := layers[..t + 1][t := EmptyLayer], views[..t + 1][t := EmptyView];
    forall j | 0 <= j < |ls|
      ensures Shaped(ls[j], vs[j])
    {
      if j < t {
        assert ls[j] == layers[j] && vs[j] == views[j];
      }
    }
    forall j, d, k | 0 <= j < |ls| && 0 <= d < |ls[j].evalSeq| && k in ls[j].evalSeq[d]
      ensures ls[j].evalSeq[d][k] in q && j < |vs| && d < |vs[j].seqv| && k in vs[j].seqv[d]
        && q[ls[j].evalSeq[d][k]] == vs[j].seqv[d][k]
    {
      assert ls[j] == layers[j] && vs[j] == views[j];
    }
    forall j, d, k | 0 <= j < |ls| && 0 <= d < |ls[j].evalSeq| && k in ls[j].evalSeq[d]
      ensures ls[j].evalSeq[d][k] in slotOf && slotOf[ls[j].evalSeq[d][k]] == Slot(j, d, k)
    {
      assert ls[j] == layers[j];
    }
    forall j, o | 0 <= j < |ls| && o in ls[j].outputs
      ensures ls[j].outputs[o] < |ls[j].evalSeq|
    {
      assert ls[j] == layers[j];
    }
  }

  /** A layer with no depths records no outputs, so its view is empty. */
  lemma EmptyLayerView(layers: seq<EvalLayer>, views: seq<LayerView>, q: map<Group, seq<Unit>>, slotOf: map<Group, Slot>, t: nat)
    requires CoherentIn(layers, views, q, slotOf) && t < |layers| && layers[t].Empty()
    ensures views[t] == EmptyView
  {
    assert Shaped(layers[t], views[t]);
    assert layers[t].outputs.Keys == {};
  }

  /** Registering `regs` one after another. */
  function RegisterSeq(v: LayerView, regs: seq<Registration>): LayerView
  {
    if regs == [] then v else RegisterSpec(RegisterSeq(v, regs[..|regs| - 1]), regs[|regs| - 1])
  }

  /** Draining one more group of a cluster empties exactly its queue. */
  lemma ClearOneMore(m: map<GroupKey, seq<Unit>>, done: set<GroupKey>, k: GroupKey)
    requires k in m
    ensures ClearKeys(m, done)[k := []] == ClearKeys(m, done + {k})
  {
  }

  /** Clearing every group of depth `n` extends the drained prefix by one. */
  lemma DrainedOneMore(v: LayerView, n: nat)
    requires n < |v.seqv|
    ensures DrainedUpTo(v, n).(seqv := DrainedUpTo(v, n).seqv[n := ClearKeys(v.seqv[n], v.seqv[n].Keys)]) == DrainedUpTo(v, n + 1)
  {
    var a := DrainedUpTo(v, n).(seqv := DrainedUpTo(v, n).seqv[n := ClearKeys(v.seqv[n], v.seqv[n].Keys)]);
    assert a.seqv == DrainedUpTo(v, n + 1).seqv;
  }

  /** The queue set last is the one that stays. */
  lemma SetQueueTwice(v: LayerView, d: nat, k: GroupKey, a: seq<Unit>, b: seq<Unit>)
    requires d < |v.seqv|
    ensures SetQueue(SetQueue(v, d, k, a), d, k, b) == SetQueue(v, d, k, b)
  {
    assert v.seqv[d][k := a][k := b] == v.seqv[d][k := b];
    assert SetQueue(SetQueue(v, d, k, a), d, k, b).seqv == SetQueue(v, d, k, b).seqv;
  }

  /** Writing a sequence element that is already there changes nothing. */
  lemma UpdateSame<T>(s: seq<T>, i: nat, x: T)
    requires i < |s| && s[i] == x
    ensures s[i := x] == s
  {
  }

  /** Of two writes to one element, the later one stays. */
  lemma UpdateOver<T>(s: seq<T>, i: nat, a: T, b: T)
    requires i < |s|
    ensures s[i := a][i := b] == s[i := b]
  {
  }

  /** Of two writes to the two elements `t` and `t + 1`, the later ones stay. */
  lemma UpdateTwice<T>(s: seq<T>, t: nat, a: T, b: T, c: T, d: T)
    requires t + 1 < |s|
    ensures s[t := a][t + 1 := b][t := c][t + 1 := d] == s[t := c][t + 1 := d]
  {
  }

  /** Dropping an element appended and then written leaves the original sequence. */
  lemma DropPushed<T>(s: seq<T>, e: T, x: T)
    ensures (s + [e])[|s| := x][..|s|] == s
  {
  }

  /** Dropping an appended element keeps writes below it. */
  lemma DropBelowWrite<T>(s: seq<T>, e: T, i: nat, x: T)
    requires i < |s|
    ensures (s + [e])[i := x][..|s|] == s[i := x]
  {
  }

  /** Emptying one more queue of a partly drained cluster. */
  lemma ClearStep(v: LayerView, i: nat, cv: map<GroupKey, seq<Unit>>, done: set<GroupKey>, k: GroupKey)
    requires i < |v.seqv| && k in cv
    ensures SetQueue(v.(seqv := v.seqv[i := ClearKeys(cv, done)]), i, k, []) == v.(seqv := v.seqv[i := ClearKeys(cv, done + {k})])
  {
    ClearOneMore(cv, done, k);
    assert v.seqv[i := ClearKeys(cv, done)][i := ClearKeys(cv, done)[k := []]] == v.seqv[i := ClearKeys(cv, done + {k})];
  }

  /** Draining the group `k` of a partly drained cluster `i` of layer `t`
      extends the set of drained groups by `k`. */
  lemma ClusterStep(vs: seq<LayerView>, t: nat, v: LayerView, i: nat, cv: map<GroupKey, seq<Unit>>, done: set<GroupKey>,
                    k: GroupKey, before: seq<LayerView>, after: seq<LayerView>)
    requires |vs| == t + 2 && |before| == t + 2 && |after| == t + 2 && i < |v.seqv| && k in cv
    requires before == vs[t := v.(seqv := v.seqv[i := ClearKeys(cv, done)])][t + 1 := before[t + 1]]
    requires after == before[t := SetQueue(before[t], i, k, [])][t + 1 := after[t + 1]]
    ensures after == vs[t := v.(seqv := v.seqv[i := ClearKeys(cv, done + {k})])][t + 1 := after[t + 1]]
  {
    ClearStep(v, i, cv, done, k);
    UpdateTwice(vs, t, before[t], before[t + 1], v.(seqv := v.seqv[i := ClearKeys(cv, done + {k})]), after[t + 1]);
  }

  /** Every unit of a queue is within the bounds. */
  ghost predicate QueueOK(units: seq<Unit>, bound: int, mc: set<DataWithEvalInfo<Matrix>>, bc: set<DataWithEvalInfo<BatchMatrix>>)
  {
    forall n {:trigger UnitOK(units[n], bound, mc, bc)} :: 0 <= n < |units| ==> UnitOK(units[n], bound, mc, bc)
  }

  lemma QueueOKFrom(units: seq<Unit>, n: nat, bound: int, mc: set<DataWithEvalInfo<Matrix>>, bc: set<DataWithEvalInfo<BatchMatrix>>)
    requires n <= |units| && QueueOK(units, bound, mc, bc)
    ensures QueueOK(units[n..], bound, mc, bc)
  {
    forall m | 0 <= m < |units[n..]|
      ensures UnitOK(units[n..][m], bound, mc, bc)
    {
      assert units[n..][m] == units[n + m];
    }
  }

  /** Every unit queued in cluster `cv` is within the bounds. */
  ghost predicate ClusterOK(cv: map<GroupKey, seq<Unit>>, bound: int, mc: set<DataWithEvalInfo<Matrix>>, bc: set<DataWithEvalInfo<BatchMatrix>>)
  {
    forall k {:trigger QueueOK(cv[k], bound, mc, bc)} :: k in cv ==> QueueOK(cv[k], bound, mc, bc)
  }

  /** A unit's registrations are within the bounds one level lower. */
  lemma SpawnsOK(u: Unit, bound: int, mc: set<DataWithEvalInfo<Matrix>>, bc: set<DataWithEvalInfo<BatchMatrix>>)
    requires UnitOK(u, bound, mc, bc)
    ensures bound >= 1 && OutM(u) <= mc && OutB(u) <= bc
    ensures forall reg :: reg in Spawns(u) ==> UnitOK(reg.unit, bound - 1, mc, bc)
  {
    SpawnsBelow(u);
  }

  /** The group a new output's unit joins, if its slot already has one. */
  function Existing(l: EvalLayer, reg: Registration): set<Group>
  {
    var depth := NewDepth(l.outputs, reg);
    if depth < |l.evalSeq| && reg.group in l.evalSeq[depth] then {l.evalSeq[depth][reg.group]} else {}
  }

  /** The body of `EvalLayer::EvalRegister` for a new output: the depth from
      the operands, the sequence resized to reach it, the group of the unit's
      kind found or created, the unit appended, the output recorded. */
  method PlaceUnit(cur: EvalLayer, reg: Registration, ghost q: map<Group, seq<Unit>>) returns (next: EvalLayer, g: Group)
    requires reg.output != null && reg.output !in cur.outputs
    requires forall h :: h in q ==> h.unitList == q[h]
    modifies Existing(cur, reg)
    ensures forall h :: h in q && h != g ==> h.unitList == q[h]
    ensures var depth := NewDepth(cur.outputs, reg);
      && next == PushLayer(cur, depth, reg.group, g, reg.output)
      && if depth < |cur.evalSeq| && reg.group in cur.evalSeq[depth]
         then g == cur.evalSeq[depth][reg.group] && g.unitList == old(g.unitList) + [reg.unit]
         else fresh(g) && g.unitList == [reg.unit]
  {
    var res := OperandDepth(cur.outputs, reg.operands);
    var depth: nat := res + 1;
    var evalSeq: seq<Cluster> := cur.evalSeq;
    if |evalSeq| <= depth {
      var empty: Cluster := map[];
      evalSeq := evalSeq + seq(depth + 1 - |evalSeq|, _ => empty);
    }
    var ec: Cluster := evalSeq[depth];
    if reg.group in ec {
      g := ec[reg.group];
      assert depth < |cur.evalSeq| && cur.evalSeq[depth][reg.group] == g;
      assert ec[reg.group := g] == ec;
    } else {
      g := new TrivalEvalGroup<Unit>();
      ec := ec[reg.group := g];
    }
    g.MergeMoved(reg.unit);
    next := EvalLayer(evalSeq[depth := ec], cur.operands, cur.outputs[reg.output := depth]);
  }

  /** A guard that is always true.  `Valid` states the plan's coherence as
      `forall n :: Checkpoint(n) ==> …`; the verifier instantiates such a
      quantifier only on a term `Checkpoint(_)`, and the only such term is
      the `assert Checkpoint(0)` inside `Unfold`.  So coherence is unfolded
      where `Unfold` is called, and everywhere else `Valid()` is one opaque
      fact carried by its read frame.  This keeps the drain proofs small. */
  ghost predicate Checkpoint(n: nat)
  {
    true
  }

  /** A second guard of the same kind.  The predicates that record where a
      drain stands (`QueueAt`, `ClusterAt`, `ClusterRan`, `DepthAt`,
      `PushedAt`, `ClusterDrained`, `DrainedWith`) state their facts under
      it.  Only lemmas mention `FrameGuard(0)`: the `…Open` lemmas and
      those that step one of these predicates.  So a method sees the facts
      only by calling such a lemma, and otherwise carries each predicate as
      one fact. */
  ghost predicate FrameGuard(n: nat)
  {
    true
  }

  /** One thread's `EvalPlan` (`ThreadInst()`), with the statics it reads:
      the global pool choice (`setting`) and the pool singletons (`pools`).
      `threadEvalPool` is the thread-local `ThreadEvalPool()`. */
  class EvalPlan {
    const device: Device
    const setting: EvalPoolSetting
    const pools: TrivalEvalPools
    /** `m_evalLayers`, bottom first; `back()` is the last element. */
    var layers: seq<EvalLayer>
    var evalPool: TrivalEvalPool?
    var threadEvalPool: EvalPoolEnum
    /** What every layer's groups hold, layer by layer. */
    ghost var views: seq<LayerView>
    /** Every group the layers hold, and the slot of each. */
    ghost var Repr: set<Group>
    ghost var slotOf: map<Group, Slot>
    /** Bounds on the queued work, which make draining terminate. */
    ghost var heightBound: nat
    ghost var mcells: set<DataWithEvalInfo<Matrix>>
    ghost var bcells: set<DataWithEvalInfo<BatchMatrix>>

    ghost predicate Valid()
      reads this, Repr
    {
      && |layers| >= 1 && |views| == |layers|
      && pools.Valid()
      && (forall n: nat :: Checkpoint(n) ==> Coherent(layers, views, Repr, slotOf))
    }

    /** The layers are coherent wherever the plan is valid. */
    lemma Unfold()
      requires Valid()
      ensures Coherent(layers, views, Repr, slotOf)
    {
      assert Checkpoint(0);
    }

    /** The view of each layer has that layer's shape. */
    lemma ShapedAt(t: nat)
      requires Valid() && t < |layers|
      ensures Shaped(layers[t], views[t])
    {
      Unfold();
    }

    /** Every group filed in a layer belongs to the plan. */
    lemma GroupOwned(t: nat, i: nat, k: GroupKey)
      requires Valid() && t < |layers| && i < |layers[t].evalSeq| && k in layers[t].evalSeq[i]
      ensures layers[t].evalSeq[i][k] in Repr
    {
      Unfold();
    }

    ghost function TopView(): LayerView
      requires |views| >= 1
      reads this
    {
      views[|views| - 1]
    }

    ghost predicate Within()
      requires |views| >= 1
      reads this
    {
      UnitsWithin(TopView(), heightBound, mcells, bcells)
    }

    /** `EvalPlan()`: no pool yet and one empty layer. */
    constructor (d: Device, setting: EvalPoolSetting, pools: TrivalEvalPools)
      requires pools.Valid()
      ensures Valid() && Within()
      ensures this.device == d && this.setting == setting && this.pools == pools
      ensures layers == [EmptyLayer] && views == [EmptyView] && evalPool == null && threadEvalPool == Trival
    {
      device := d;
      this.setting := setting;
      this.pools := pools;
      layers := [EmptyLayer];
      evalPool := null;
      threadEvalPool := Trival;
      views := [EmptyView];
      Repr := {};
      slotOf := map[];
      heightBound := 0;
      mcells := {};
      bcells := {};
    }

    /** `EvalLayer::EvalRegister` on the layer at index `j`: an output that
        is null or already recorded is ignored. */
    method EvalLayerRegister(j: nat, reg: Registration)
      requires Valid() && j < |layers|
      modifies this`layers, this`views, this`Repr, this`slotOf, Repr
      ensures Valid()
      ensures |layers| == old(|layers|) && layers == old(layers)[j := layers[j]]
      ensures views == old(views)[j := RegisterSpec(old(views[j]), reg)]
      ensures forall g :: g in Repr ==> g in old(Repr) || fresh(g)
    {
      if reg.output != null && reg.output !in layers[j].outputs {
        FileUnit(j, reg);
      } else {
        ShapedAt(j);
      }
    }

    /** Files a unit under a new output in layer `j`. */
    method FileUnit(j: nat, reg: Registration)
      requires Valid() && j < |layers|
      requires reg.output != null && reg.output !in layers[j].outputs
      modifies this`layers, this`views, this`Repr, this`slotOf, Repr
      ensures Valid()
      ensures |layers| == old(|layers|) && layers == old(layers)[j := layers[j]]
      ensures views == old(views)[j := RegisterSpec(old(views[j]), reg)]
      ensures forall g :: g in Repr ==> g in old(Repr) || fresh(g)
    {
      var ls := layers;
      ghost var vs, repr, so := views, Repr, slotOf;
      Unfold();
      SnapshotCoherent(ls, vs, repr, so);
      ghost var q := Snapshot(repr);
      ghost var depth := NewDepth(ls[j].outputs, reg);
      var next, g := PlaceUnit(ls[j], reg, q);
      PushKeepsCoherent(ls, vs, q, so, j, reg, g, g.unitList);
      ghost var q' := q[g := g.unitList];
      Commit(ls[j := next], vs[j := RegisterSpec(vs[j], reg)], repr + {g}, so[g := Slot(j, depth, reg.group)], q');
    }

    /** Installs new layers and, with them, their ghost bookkeeping. */
    method Commit(ls: seq<EvalLayer>, ghost vs: seq<LayerView>, ghost repr: set<Group>, ghost so: map<Group, Slot>,
                  ghost q: map<Group, seq<Unit>>)
      requires CoherentIn(ls, vs, q, so) && q.Keys == repr
      requires forall h :: h in repr ==> h.unitList == q[h]
      modifies this`layers, this`views, this`Repr, this`slotOf
      ensures layers == ls && views == vs && Repr == repr && slotOf == so
      ensures Coherent(layers, views, Repr, slotOf)
    {
      layers, views, Repr, slotOf := ls, vs, repr, so;
      CoherentFromSnapshot(ls, vs, repr, q, so);
    }

    /** Sets the ghost bounds on the units. */
    method Widen(ghost b: nat, ghost mc: set<DataWithEvalInfo<Matrix>>, ghost bc: set<DataWithEvalInfo<BatchMatrix>>)
      modifies this`heightBound, this`mcells, this`bcells
      ensures heightBound == b && mcells == mc && bcells == bc
    {
      heightBound, mcells, bcells := b, mc, bc;
    }

    /** `eg.second->GetEvalUnit()` on the group at depth `i`, kind `k` of
        layer `t`: the queue loses its front unit, which is returned. */
    method TakeUnit(t: nat, i: nat, k: GroupKey) returns (res: Option<Unit>)
      requires Valid() && t < |layers| && i < |layers[t].evalSeq| && k in layers[t].evalSeq[i]
      modifies this`layers, this`views, this`Repr, this`slotOf, layers[t].evalSeq[i][k]
      ensures Valid()
      ensures layers == old(layers) && Repr == old(Repr) && slotOf == old(slotOf)
      ensures i < |old(views[t]).seqv| && k in old(views[t]).seqv[i]
      ensures var queue := old(views[t]).seqv[i][k];
        && (queue == [] ==> res == None && views == old(views)[t := SetQueue(old(views[t]), i, k, [])])
        && (queue != [] ==> res == Some(queue[0]) && views == old(views)[t := SetQueue(old(views[t]), i, k, queue[1..])])
      ensures forall w :: old(allocated(w)) && old(Evaluated(w)) ==> Evaluated(w)
    {
      res := PopFront(t, i, k);
      // Only the plan and one group changed, and no unit reads either.
      forall w | old(allocated(w)) && old(Evaluated(w))
        ensures Evaluated(w)
      {
        assert forall c :: c in ReadM(w) ==> unchanged(c);
        assert forall c :: c in ReadB(w) ==> unchanged(c);
      }
    }

    /** The body of `TakeUnit`. */
    method PopFront(t: nat, i: nat, k: GroupKey) returns (res: Option<Unit>)
      requires Valid() && t < |layers| && i < |layers[t].evalSeq| && k in layers[t].evalSeq[i]
      modifies this`layers, this`views, this`Repr, this`slotOf, layers[t].evalSeq[i][k]
      ensures Valid()
      ensures layers == old(layers) && Repr == old(Repr) && slotOf == old(slotOf)
      ensures i < |old(views[t]).seqv| && k in old(views[t]).seqv[i]
      ensures var queue := old(views[t]).seqv[i][k];
        && (queue == [] ==> res == None && views == old(views)[t := SetQueue(old(views[t]), i, k, [])])
        && (queue != [] ==> res == Some(queue[0]) && views == old(views)[t := SetQueue(old(views[t]), i, k, queue[1..])])
    {
      var g := layers[t].evalSeq[i][k];
      var ls := layers;
      ghost var vs, repr, so := views, Repr, slotOf;
      Unfold();
      SnapshotCoherent(ls, vs, repr, so);
      ghost var q := Snapshot(repr);
      res := g.GetEvalUnit();
      SetQueueCoherent(ls, vs, q, so, t, i, k, g.unitList);
      Commit(ls, vs[t := SetQueue(vs[t], i, k, g.unitList)], repr, so, q[g := g.unitList]);
    }

    /** The registrations a unit's `Eval` makes, filed one after another in
        the top layer (`EvalPlan::Register` from inside `Eval`); no cell is
        touched, so work evaluated before stays evaluated. */
    method RegisterAll(regs: seq<Registration>, ghost b: int)
      requires Valid() && UnitsWithin(TopView(), b, mcells, bcells)
      requires forall reg :: reg in regs ==> UnitOK(reg.unit, b, mcells, bcells)
      modifies this`layers, this`views, this`Repr, this`slotOf, Repr
      ensures Valid() && UnitsWithin(TopView(), b, mcells, bcells)
      ensures |layers| == old(|layers|) && layers == old(layers)[|layers| - 1 := layers[|layers| - 1]]
      ensures |views| == old(|views|) && views == old(views)[|views| - 1 := RegisterSeq(old(TopView()), regs)]
      ensures forall g :: g in Repr ==> g in old(Repr) || fresh(g)
      ensures forall w :: old(allocated(w)) && old(Evaluated(w)) ==> Evaluated(w)
    {
      forall w | allocated(w)
        ensures (forall c :: c in ReadM(w) ==> allocated(c)) && (forall c :: c in ReadB(w) ==> allocated(c))
      {
        ReadsAllocated(w);
      }
      FileEach(regs, b);
      // Only the plan and its groups changed, and no unit reads either.
      forall w | old(allocated(w)) && old(Evaluated(w))
        ensures Evaluated(w)
      {
        assert forall c :: c in ReadM(w) ==> unchanged(c);
        assert forall c :: c in ReadB(w) ==> unchanged(c);
      }
    }

    /** The loop of `RegisterAll`. */
    method FileEach(regs: seq<Registration>, ghost b: int)
      requires Valid() && UnitsWithin(TopView(), b, mcells, bcells)
      requires forall reg :: reg in regs ==> UnitOK(reg.unit, b, mcells, bcells)
      modifies this`layers, this`views, this`Repr, this`slotOf, Repr
      ensures Valid() && UnitsWithin(TopView(), b, mcells, bcells)
      ensures |layers| == old(|layers|) && layers == old(layers)[|layers| - 1 := layers[|layers| - 1]]
      ensures |views| == old(|views|) && views == old(views)[|views| - 1 := RegisterSeq(old(TopView()), regs)]
      ensures forall g :: g in Repr ==> g in old(Repr) || fresh(g)
    {
      ghost var ls, vs := layers, views;
      ghost var top := |layers| - 1;
      UpdateSame(ls, top, ls[top]);
      UpdateSame(vs, top, vs[top]);
      for n := 0 to |regs|
        invariant Valid() && UnitsWithin(TopView(), b, mcells, bcells)
        invariant |layers| == |ls| && layers == ls[top := layers[top]]
        invariant |views| == |vs| && views == vs[top := RegisterSeq(vs[top], regs[..n])]
        invariant forall g :: g in Repr ==> g in old(Repr) || fresh(g)
      {
        assert regs[..n + 1][..n] == regs[..n];
        ghost var v, l := TopView(), layers[top];
        RegisterKeepsWithin(v, regs[n], b, mcells, bcells);
        EvalRegister(regs[n]);
        UpdateOver(ls, top, l, layers[top]);
        UpdateOver(vs, top, v, TopView());
      }
      assert regs[..|regs|] == regs;
    }

    /** One turn of the inner `while` of `DoLayerEval` on the group at
        depth `i`, kind `k` of layer `t`: its front unit, if any, goes to the
        pool, which evaluates its output, and what the unit registers lands
        in the top layer `t + 1`. */
    method RunNext(t: nat, i: nat, k: GroupKey, ghost bound: int, ghost ls: seq<EvalLayer>, ghost vs: seq<LayerView>,
                   ghost v: LayerView, ghost rest: seq<Unit>) returns (res: Option<Unit>, r: Outcome)
      requires Valid() && evalPool != null && |layers| == t + 2 && |views| == t + 2
      requires |ls| == t + 2 && |vs| == t + 2 && i < |v.seqv| && i < |ls[t].evalSeq| && k in ls[t].evalSeq[i] && k in v.seqv[i]
      requires QueueAt(t, i, k, ls, vs, v, rest) && QueueOK(rest, bound, mcells, bcells)
      requires UnitsWithin(views[t + 1], bound - 1, mcells, bcells) && (bound >= 1 || layers[t + 1].Empty())
      modifies this`layers, this`views, this`Repr, this`slotOf, Repr, mcells, bcells
      ensures Valid() && |layers| == t + 2 && |views| == t + 2
      ensures UnitsWithin(views[t + 1], bound - 1, mcells, bcells) && (bound >= 1 || layers[t + 1].Empty())
      ensures forall g :: g in Repr ==> g in old(Repr) || fresh(g)
      ensures rest == [] ==> res == None && r == Pass && QueueAt(t, i, k, ls, vs, v, []) && views[t + 1] == old(views[t + 1])
      ensures rest != [] ==> res == Some(rest[0]) && (r.Pass? ==> QueueAt(t, i, k, ls, vs, v, rest[1..]))
      ensures rest != [] && r.Pass? ==> Evaluated(rest[0]) && views[t + 1] == RegisterSeq(old(views[t + 1]), Spawns(rest[0]))
      ensures forall w :: old(allocated(w)) && old(Evaluated(w)) ==> Evaluated(w)
      ensures r.Fail? ==> UnitError(r.error)
    {
      QueueOpen(t, i, k, ls, vs, v, rest);
      assert views[t].seqv[i][k] == rest;
      ghost var lb, vb := layers, views;
      r := Pass;
      GroupOwned(t, i, k);
      res := TakeUnit(t, i, k);
      if res.Some? {
        r := ProcessFront(t, i, k, res.value, bound, ls, vs, v, rest, lb, vb);
      } else {
        UpdateSame(layers, t + 1, layers[t + 1]);
        UpdateSame(views, t + 1, views[t + 1]);
        QueueStep(t, i, k, ls, vs, v, rest, [], lb, vb);
      }
    }

    /** The rest of `RunNext` once the front unit `u` of the queue `rest` is
        taken, from layers `lb` and views `vb`: the unit goes to the pool. */
    method ProcessFront(t: nat, i: nat, k: GroupKey, u: Unit, ghost bound: int, ghost ls: seq<EvalLayer>, ghost vs: seq<LayerView>,
                        ghost v: LayerView, ghost rest: seq<Unit>, ghost lb: seq<EvalLayer>, ghost vb: seq<LayerView>) returns (r: Outcome)
      requires Valid() && evalPool != null && |ls| == t + 2 && |vs| == t + 2 && i < |v.seqv|
      requires rest != [] && u == rest[0] && QueueOK(rest, bound, mcells, bcells)
      requires |lb| == t + 2 && lb == ls[t + 1 := lb[t + 1]]
      requires |vb| == t + 2 && vb == vs[t := SetQueue(v, i, k, rest)][t + 1 := vb[t + 1]]
      requires layers == lb && views == vb[t := SetQueue(vb[t], i, k, rest[1..])]
      requires UnitsWithin(views[t + 1], bound - 1, mcells, bcells)
      modifies this`layers, this`views, this`Repr, this`slotOf, Repr, mcells, bcells
      ensures Valid() && |layers| == t + 2 && |views| == t + 2
      ensures UnitsWithin(views[t + 1], bound - 1, mcells, bcells) && bound >= 1
      ensures forall g :: g in Repr ==> g in old(Repr) || fresh(g)
      ensures r.Pass? ==> && QueueAt(t, i, k, ls, vs, v, rest[1..])
                          && Evaluated(rest[0]) && views[t + 1] == RegisterSeq(old(views[t + 1]), Spawns(rest[0]))
      ensures forall w :: old(allocated(w)) && old(Evaluated(w)) ==> Evaluated(w)
      ensures r.Fail? ==> UnitError(r.error)
    {
      assert UnitOK(rest[0], bound, mcells, bcells);
      r := ProcessUnit(u, bound, t + 1);
      if r.Pass? {
        QueueStep(t, i, k, ls, vs, v, rest, rest[1..], lb, vb);
      }
    }

    /** `m_evalPool->Process(eu)` on a unit taken from layer `t`: on success
        the unit's output is evaluated and what the unit registers is filed,
        in order, in the top layer. */
    method ProcessUnit(u: Unit, ghost bound: int, ghost top: nat) returns (r: Outcome)
      requires Valid() && evalPool != null && |layers| == top + 1 && |views| == top + 1 && top >= 1
      requires UnitOK(u, bound, mcells, bcells)
      requires UnitsWithin(views[top], bound - 1, mcells, bcells)
      modifies this`layers, this`views, this`Repr, this`slotOf, Repr, mcells, bcells
      ensures Valid() && |layers| == top + 1 && |views| == top + 1
      ensures UnitsWithin(views[top], bound - 1, mcells, bcells) && bound >= 1
      ensures layers == old(layers)[top := layers[top]] && views == old(views)[top := views[top]]
      ensures forall g :: g in Repr ==> g in old(Repr) || fresh(g)
      ensures r.Pass? <==> old(Ready(u))
      ensures r.Pass? ==> Evaluated(u) && views[top] == RegisterSeq(old(views[top]), Spawns(u))
      ensures r.Fail? ==> r.error == old(Failure(u))
      ensures forall w :: old(allocated(w)) && old(Evaluated(w)) ==> Evaluated(w)
    {
      SpawnsOK(u, bound, mcells, bcells);
      var spawned;
      r, spawned := evalPool.Process(u);
      if r.Pass? {
        RegisterAll(spawned, bound - 1);
      } else {
        UpdateSame(layers, top, layers[top]);
        UpdateSame(views, top, views[top]);
      }
    }

    /** The inner `while` of `DoLayerEval`: every unit of the group at depth
        `i`, kind `k` of layer `t` goes to the pool, front first; each is
        evaluated, and what they register is filed, in order, above. */
    method DrainGroup(t: nat, i: nat, k: GroupKey, ghost bound: int) returns (r: Outcome, ghost events: seq<Event>)
      requires Valid() && evalPool != null && |layers| == t + 2
      requires i < |layers[t].evalSeq| && k in layers[t].evalSeq[i]
      requires i < |views[t].seqv| && k in views[t].seqv[i] && QueueOK(views[t].seqv[i][k], bound, mcells, bcells)
      requires UnitsWithin(views[t + 1], bound - 1, mcells, bcells) && (bound >= 1 || layers[t + 1].Empty())
      modifies this`layers, this`views, this`Repr, this`slotOf, Repr, mcells, bcells
      ensures Valid() && |layers| == t + 2 && |views| == t + 2
      ensures UnitsWithin(views[t + 1], bound - 1, mcells, bcells) && (bound >= 1 || layers[t + 1].Empty())
      ensures forall g :: g in Repr ==> g in old(Repr) || fresh(g)
      ensures r.Pass? ==> && layers == old(layers)[t + 1 := layers[t + 1]]
                          && views == old(views)[t := SetQueue(old(views[t]), i, k, [])][t + 1 := views[t + 1]]
                          && events == GroupEvents(t, i, old(views[t].seqv[i][k]))
                          && views[t + 1] == RegisterSeq(old(views[t + 1]), SpawnSeq(events)) && EventsEvaluated(events)
      ensures forall w :: old(allocated(w)) && old(Evaluated(w)) ==> Evaluated(w)
      ensures r.Fail? ==> UnitError(r.error)
    {
      ghost var ls, vs := layers, views;
      ghost var queue := views[t].seqv[i][k];
      ghost var v := views[t];
      events := [];
      QueueFresh(t, i, k);
      r := DrainQueue(t, i, k, bound, ls, vs, v, queue, views[t + 1]);
      if r.Pass? {
        QueueOpen(t, i, k, ls, vs, v, []);
        events := GroupEvents(t, i, queue);
        GroupSpawns(t, i, queue);
        GroupEvaluated(t, i, queue);
      }
    }

    /** The loop of `DrainGroup`: `queue`, the group as `QueueAt` records it
        from layers `ls` and views `vs`, goes to the pool front first. */
    method DrainQueue(t: nat, i: nat, k: GroupKey, ghost bound: int, ghost ls: seq<EvalLayer>, ghost vs: seq<LayerView>,
                      ghost v: LayerView, ghost queue: seq<Unit>, ghost above: LayerView) returns (r: Outcome)
      requires Valid() && evalPool != null && |layers| == t + 2 && |views| == t + 2
      requires |ls| == t + 2 && |vs| == t + 2 && i < |v.seqv| && i < |ls[t].evalSeq| && k in ls[t].evalSeq[i] && k in v.seqv[i]
      requires QueueAt(t, i, k, ls, vs, v, queue) && QueueOK(queue, bound, mcells, bcells) && views[t + 1] == above
      requires UnitsWithin(views[t + 1], bound - 1, mcells, bcells) && (bound >= 1 || layers[t + 1].Empty())
      modifies this`layers, this`views, this`Repr, this`slotOf, Repr, mcells, bcells
      ensures Valid() && |layers| == t + 2 && |views| == t + 2
      ensures UnitsWithin(views[t + 1], bound - 1, mcells, bcells) && (bound >= 1 || layers[t + 1].Empty())
      ensures forall g :: g in Repr ==> g in old(Repr) || fresh(g)
      ensures forall w :: old(allocated(w)) && old(Evaluated(w)) ==> Evaluated(w)
      ensures r.Pass? ==> && QueueAt(t, i, k, ls, vs, v, [])
                          && views[t + 1] == RegisterSeq(above, SpawnsOf(queue)) && UnitsEvaluated(queue)
      ensures r.Fail? ==> UnitError(r.error)
    {
      ghost var n := 0;
      r := Pass;
      assert queue[..0] == [] && queue[0..] == queue;
      while true
        invariant Valid() && |layers| == t + 2 && |views| == t + 2
        invariant n <= |queue| && QueueAt(t, i, k, ls, vs, v, queue[n..])
        invariant views[t + 1] == RegisterSeq(above, SpawnsOf(queue[..n])) && UnitsEvaluated(queue[..n])
        invariant UnitsWithin(views[t + 1], bound - 1, mcells, bcells) && (bound >= 1 || layers[t + 1].Empty())
        invariant forall g :: g in Repr ==> g in old(Repr) || fresh(g)
        invariant forall w :: old(allocated(w)) && old(Evaluated(w)) ==> Evaluated(w)
        decreases |queue| - n
      {
        var res;
        res, r := DrainNextUnit(t, i, k, bound, ls, vs, v, queue, n, above);
        if r.Fail? || res.None? {
          return;
        }
        n := n + 1;
      }
    }

    /** One turn of the inner `while`, the first `n` units of `queue` having
        gone to the pool, from layers `ls` and views `vs` with `v` the view
        of layer `t` and `above` the layer above. */
    method DrainNextUnit(t: nat, i: nat, k: GroupKey, ghost bound: int, ghost ls: seq<EvalLayer>, ghost vs: seq<LayerView>,
                         ghost v: LayerView, ghost queue: seq<Unit>, ghost n: nat, ghost above: LayerView)
      returns (res: Option<Unit>, r: Outcome)
      requires Valid() && evalPool != null && |layers| == t + 2 && |views| == t + 2
      requires |ls| == t + 2 && |vs| == t + 2 && i < |v.seqv| && i < |ls[t].evalSeq| && k in ls[t].evalSeq[i] && k in v.seqv[i]
      requires n <= |queue| && QueueAt(t, i, k, ls, vs, v, queue[n..]) && QueueOK(queue, bound, mcells, bcells)
      requires views[t + 1] == RegisterSeq(above, SpawnsOf(queue[..n])) && UnitsEvaluated(queue[..n])
      requires UnitsWithin(views[t + 1], bound - 1, mcells, bcells) && (bound >= 1 || layers[t + 1].Empty())
      modifies this`layers, this`views, this`Repr, this`slotOf, Repr, mcells, bcells
      ensures Valid() && |layers| == t + 2 && |views| == t + 2
      ensures UnitsWithin(views[t + 1], bound - 1, mcells, bcells) && (bound >= 1 || layers[t + 1].Empty())
      ensures forall g :: g in Repr ==> g in old(Repr) || fresh(g)
      ensures forall w :: old(allocated(w)) && old(Evaluated(w)) ==> Evaluated(w)
      ensures r.Pass? && res.None? ==> && queue[..n] == queue && QueueAt(t, i, k, ls, vs, v, [])
                                       && views[t + 1] == RegisterSeq(above, SpawnsOf(queue)) && UnitsEvaluated(queue)
      ensures r.Pass? && res.Some? ==> && n < |queue| && QueueAt(t, i, k, ls, vs, v, queue[n + 1..])
                                       && views[t + 1] == RegisterSeq(above, SpawnsOf(queue[..n + 1])) && UnitsEvaluated(queue[..n + 1])
      ensures r.Fail? ==> UnitError(r.error)
    {
      QueueOKFrom(queue, n, bound, mcells, bcells);
      res, r := RunNext(t, i, k, bound, ls, vs, v, queue[n..]);
      if res.None? {
        assert queue[..n] == queue;
      } else if r.Pass? {
        assert queue[n..][1..] == queue[n + 1..];
        PrefixStep(above, queue, n);
      }
    }

    /** The state a drain of the group at depth `i`, kind `k` of layer `t`
        reaches with `rest` left in its queue, from layers `ls` and views
        `vs` with `v` the view of layer `t`: only the layer above `t` and
        that queue have changed. Stated under the `FrameGuard`. */
    ghost predicate QueueAt(t: nat, i: nat, k: GroupKey, ls: seq<EvalLayer>, vs: seq<LayerView>, v: LayerView, rest: seq<Unit>)
      reads this
      requires |ls| == t + 2 && |vs| == t + 2 && i < |v.seqv|
    {
      forall m: nat :: FrameGuard(m) ==>
        && |layers| == t + 2 && layers == ls[t + 1 := layers[t + 1]]
        && |views| == t + 2 && views == vs[t := SetQueue(v, i, k, rest)][t + 1 := views[t + 1]]
    }

    lemma QueueClose(t: nat, i: nat, k: GroupKey, ls: seq<EvalLayer>, vs: seq<LayerView>, v: LayerView, rest: seq<Unit>)
      requires |ls| == t + 2 && |vs| == t + 2 && i < |v.seqv|
      requires |layers| == t + 2 && layers == ls[t + 1 := layers[t + 1]]
      requires |views| == t + 2 && views == vs[t := SetQueue(v, i, k, rest)][t + 1 := views[t + 1]]
      ensures QueueAt(t, i, k, ls, vs, v, rest)
    {
    }

    lemma QueueOpen(t: nat, i: nat, k: GroupKey, ls: seq<EvalLayer>, vs: seq<LayerView>, v: LayerView, rest: seq<Unit>)
      requires |ls| == t + 2 && |vs| == t + 2 && i < |v.seqv| && QueueAt(t, i, k, ls, vs, v, rest)
      ensures |layers| == t + 2 && layers == ls[t + 1 := layers[t + 1]]
      ensures |views| == t + 2 && views == vs[t := SetQueue(v, i, k, rest)][t + 1 := views[t + 1]]
    {
      assert FrameGuard(0);
    }

    /** Before the drain of a group nothing has changed. */
    lemma QueueFresh(t: nat, i: nat, k: GroupKey)
      requires |layers| == t + 2 && |views| == t + 2 && i < |views[t].seqv| && k in views[t].seqv[i]
      ensures QueueAt(t, i, k, layers, views, views[t], views[t].seqv[i][k][0..])
    {
      var v, queue := views[t], views[t].seqv[i][k];
      assert queue[0..] == queue && v.seqv[i][k := queue] == v.seqv[i];
      assert SetQueue(v, i, k, queue[0..]) == v by {
        assert SetQueue(v, i, k, queue[0..]).seqv == v.seqv;
      }
      UpdateSame(layers, t + 1, layers[t + 1]);
      UpdateSame(views, t, v);
      UpdateSame(views, t + 1, views[t + 1]);
      QueueClose(t, i, k, layers, views, v, queue[0..]);
    }

    /** One turn of `RunNext` from layers `lb` and views `vb` leaves the
        queue at `rest'`. */
    lemma QueueStep(t: nat, i: nat, k: GroupKey, ls: seq<EvalLayer>, vs: seq<LayerView>, v: LayerView,
                    rest: seq<Unit>, rest': seq<Unit>, lb: seq<EvalLayer>, vb: seq<LayerView>)
      requires |ls| == t + 2 && |vs| == t + 2 && i < |v.seqv|
      requires |lb| == t + 2 && lb == ls[t + 1 := lb[t + 1]]
      requires |vb| == t + 2 && vb == vs[t := SetQueue(v, i, k, rest)][t + 1 := vb[t + 1]]
      requires |layers| == t + 2 && layers == lb[t + 1 := layers[t + 1]]
      requires |views| == t + 2 && views == vb[t := SetQueue(vb[t], i, k, rest')][t + 1 := views[t + 1]]
      ensures QueueAt(t, i, k, ls, vs, v, rest')
    {
      SetQueueTwice(v, i, k, rest, rest');
      UpdateOver(ls, t + 1, lb[t + 1], layers[t + 1]);
      UpdateTwice(vs, t, SetQueue(v, i, k, rest), vb[t + 1], SetQueue(v, i, k, rest'), views[t + 1]);
      QueueClose(t, i, k, ls, vs, v, rest');
    }

    /** The state a drain of cluster `i` of layer `t` reaches once the
        groups `done` are drained, from layers `ls` and views `vs`: only the
        layer above `t` and those groups' queues have changed. Stated under
        the `FrameGuard`, so the verifier unfolds it only where asked. */
    ghost predicate ClusterAt(t: nat, i: nat, ls: seq<EvalLayer>, vs: seq<LayerView>, cv: map<GroupKey, seq<Unit>>, done: set<GroupKey>)
      reads this
      requires |ls| == t + 2 && |vs| == t + 2 && i < |vs[t].seqv|
    {
      forall n: nat :: FrameGuard(n) ==>
        && |layers| == t + 2 && |views| == t + 2
        && layers == ls[t + 1 := layers[t + 1]]
        && views == vs[t := vs[t].(seqv := vs[t].seqv[i := ClearKeys(cv, done)])][t + 1 := views[t + 1]]
    }

    lemma ClusterClose(t: nat, i: nat, ls: seq<EvalLayer>, vs: seq<LayerView>, cv: map<GroupKey, seq<Unit>>, done: set<GroupKey>)
      requires |ls| == t + 2 && |vs| == t + 2 && i < |vs[t].seqv| && |layers| == t + 2 && |views| == t + 2
      requires layers == ls[t + 1 := layers[t + 1]]
      requires views == vs[t := vs[t].(seqv := vs[t].seqv[i := ClearKeys(cv, done)])][t + 1 := views[t + 1]]
      ensures ClusterAt(t, i, ls, vs, cv, done)
    {
    }

    /** Nothing is drained yet. */
    lemma ClusterFresh(t: nat, i: nat)
      requires |layers| == t + 2 && |views| == t + 2 && i < |views[t].seqv|
      ensures ClusterAt(t, i, layers, views, views[t].seqv[i], {})
    {
      var v, cv := views[t], views[t].seqv[i];
      assert ClearKeys(cv, {}) == cv;
      assert v.(seqv := v.seqv[i := ClearKeys(cv, {})]) == v;
      UpdateSame(layers, t + 1, layers[t + 1]);
      UpdateSame(views, t, v);
      UpdateSame(views, t + 1, views[t + 1]);
      ClusterClose(t, i, layers, views, cv, {});
    }

    lemma ClusterOpen(t: nat, i: nat, ls: seq<EvalLayer>, vs: seq<LayerView>, cv: map<GroupKey, seq<Unit>>, done: set<GroupKey>)
      requires |ls| == t + 2 && |vs| == t + 2 && i < |vs[t].seqv| && ClusterAt(t, i, ls, vs, cv, done)
      ensures |layers| == t + 2 && |views| == t + 2
      ensures layers == ls[t + 1 := layers[t + 1]]
      ensures views == vs[t := vs[t].(seqv := vs[t].seqv[i := ClearKeys(cv, done)])][t + 1 := views[t + 1]]
    {
      assert FrameGuard(0);
    }

    /** The state a drain of cluster `i` of layer `t` reaches once the
        groups `done` are drained, in `order`, with the events `events`:
        the cluster as `ClusterAt` says, layer `t` itself untouched, and
        what those units registered filed above, from the view `above`.
        Stated under the `FrameGuard`. */
    ghost predicate ClusterRan(t: nat, i: nat, ls: seq<EvalLayer>, vs: seq<LayerView>, cv: map<GroupKey, seq<Unit>>,
                               done: set<GroupKey>, order: seq<GroupKey>, events: seq<Event>, above: LayerView)
      reads this
      requires |ls| == t + 2 && |vs| == t + 2 && i < |vs[t].seqv|
    {
      forall n: nat :: FrameGuard(n) ==>
        && ClusterAt(t, i, ls, vs, cv, done) && ClusterDrained(t, i, cv, done, order, events)
        && |views| == t + 2 && views[t + 1] == RegisterSeq(above, SpawnSeq(events))
    }

    lemma ClusterRanClose(t: nat, i: nat, ls: seq<EvalLayer>, vs: seq<LayerView>, cv: map<GroupKey, seq<Unit>>,
                          done: set<GroupKey>, order: seq<GroupKey>, events: seq<Event>, above: LayerView)
      requires |ls| == t + 2 && |vs| == t + 2 && i < |vs[t].seqv|
      requires ClusterAt(t, i, ls, vs, cv, done) && ClusterDrained(t, i, cv, done, order, events)
      requires |views| == t + 2 && views[t + 1] == RegisterSeq(above, SpawnSeq(events))
      ensures ClusterRan(t, i, ls, vs, cv, done, order, events, above)
    {
    }

    lemma ClusterRanOpen(t: nat, i: nat, ls: seq<EvalLayer>, vs: seq<LayerView>, cv: map<GroupKey, seq<Unit>>,
                         done: set<GroupKey>, order: seq<GroupKey>, events: seq<Event>, above: LayerView)
      requires |ls| == t + 2 && |vs| == t + 2 && i < |vs[t].seqv|
      requires ClusterRan(t, i, ls, vs, cv, done, order, events, above)
      ensures ClusterAt(t, i, ls, vs, cv, done) && ClusterDrained(t, i, cv, done, order, events)
      ensures |views| == t + 2 && views[t + 1] == RegisterSeq(above, SpawnSeq(events))
    {
      assert FrameGuard(0);
    }

    /** The `for (auto& eg : ec)` of `DoLayerEval` over the cluster at depth
        `i` of layer `t`: its groups are drained one after another, in an
        order the model leaves open (that of an `unordered_map`). */
    method DrainCluster(t: nat, i: nat, ghost bound: int) returns (r: Outcome, ghost order: seq<GroupKey>, ghost events: seq<Event>)
      requires Valid() && evalPool != null && |layers| == t + 2 && i < |layers[t].evalSeq|
      requires i < |views[t].seqv| && ClusterOK(views[t].seqv[i], bound, mcells, bcells)
      requires UnitsWithin(views[t + 1], bound - 1, mcells, bcells) && (bound >= 1 || layers[t + 1].Empty())
      modifies this`layers, this`views, this`Repr, this`slotOf, Repr, mcells, bcells
      ensures Valid() && |layers| == t + 2 && |views| == t + 2
      ensures UnitsWithin(views[t + 1], bound - 1, mcells, bcells) && (bound >= 1 || layers[t + 1].Empty())
      ensures forall g :: g in Repr ==> g in old(Repr) || fresh(g)
      ensures r.Pass? ==> var cv := old(views[t].seqv[i]);
        && layers == old(layers)[t + 1 := layers[t + 1]]
        && views == old(views)[t := old(views[t]).(seqv := old(views[t]).seqv[i := ClearKeys(cv, cv.Keys)])][t + 1 := views[t + 1]]
        && IsOrderOf(order, cv.Keys)
        && events == ClusterEvents(t, i, cv, order)
        && views[t + 1] == RegisterSeq(old(views[t + 1]), SpawnSeq(events)) && EventsEvaluated(events)
      ensures forall w :: old(allocated(w)) && old(Evaluated(w)) ==> Evaluated(w)
      ensures r.Fail? ==> UnitError(r.error)
    {
      ghost var ls, vs := layers, views;
      ghost var cv := views[t].seqv[i];
      ghost var above := views[t + 1];
      r, order, events := DrainEachGroup(t, i, bound);
      if r.Pass? {
        ClusterRanOpen(t, i, ls, vs, cv, cv.Keys, order, events, above);
        ClusterOpen(t, i, ls, vs, cv, cv.Keys);
        ClusterDrainedAll(t, i, cv, cv.Keys, order, events);
      }
    }

    /** The loop of `DrainCluster`. */
    method DrainEachGroup(t: nat, i: nat, ghost bound: int) returns (r: Outcome, ghost order: seq<GroupKey>, ghost events: seq<Event>)
      requires Valid() && evalPool != null && |layers| == t + 2 && i < |layers[t].evalSeq|
      requires i < |views[t].seqv| && ClusterOK(views[t].seqv[i], bound, mcells, bcells)
      requires UnitsWithin(views[t + 1], bound - 1, mcells, bcells) && (bound >= 1 || layers[t + 1].Empty())
      modifies this`layers, this`views, this`Repr, this`slotOf, Repr, mcells, bcells
      ensures Valid() && |layers| == t + 2 && |views| == t + 2
      ensures UnitsWithin(views[t + 1], bound - 1, mcells, bcells) && (bound >= 1 || layers[t + 1].Empty())
      ensures forall g :: g in Repr ==> g in old(Repr) || fresh(g)
      ensures r.Pass? ==> ClusterRan(t, i, old(layers), old(views), old(views[t].seqv[i]), old(views[t].seqv[i]).Keys, order, events, old(views[t + 1]))
      ensures r.Pass? ==> EventsEvaluated(events)
      ensures forall w :: old(allocated(w)) && old(Evaluated(w)) ==> Evaluated(w)
      ensures r.Fail? ==> UnitError(r.error)
    {
      ghost var ls, vs := layers, views;
      ghost var cv := views[t].seqv[i];
      ShapedAt(t);
      var keys := layers[t].evalSeq[i].Keys;
      ghost var above := views[t + 1];
      ghost var done: set<GroupKey> := {};
      order, events := [], [];
      r := Pass;
      ClusterFresh(t, i);
      ClusterDrainedNone(t, i, cv);
      ClusterRanClose(t, i, ls, vs, cv, done, order, events, above);
      while keys != {}
        invariant Valid() && |layers| == t + 2 && layers[t] == ls[t] && ClusterRan(t, i, ls, vs, cv, done, order, events, above)
        invariant keys !! done && keys + done == cv.Keys
        invariant r.Pass?
        invariant UnitsWithin(views[t + 1], bound - 1, mcells, bcells) && (bound >= 1 || layers[t + 1].Empty())
        invariant forall g :: g in Repr ==> g in old(Repr) || fresh(g)
        invariant EventsEvaluated(events)
        invariant forall w :: old(allocated(w)) && old(Evaluated(w)) ==> Evaluated(w)
        decreases keys
      {
        var k :| k in keys;
        r, events := DrainNextGroup(t, i, k, bound, ls, vs, cv, done, order, events, above);
        if r.Fail? {
          return;
        }
        order := order + [k];
        keys := keys - {k};
        done := done + {k};
      }
      assert done == cv.Keys;
    }

    /** One turn of the `for (auto& eg : ec)` of `DoLayerEval`: the group
        `k` of cluster `i` of layer `t` is drained, the groups `done` having
        been drained before it in `order`, with the events `events0`, and
        `above` the layer above before the first of them. */
    method DrainNextGroup(t: nat, i: nat, k: GroupKey, ghost bound: int, ghost ls: seq<EvalLayer>, ghost vs: seq<LayerView>,
                          ghost cv: map<GroupKey, seq<Unit>>, ghost done: set<GroupKey>,
                          ghost order: seq<GroupKey>, ghost events0: seq<Event>, ghost above: LayerView)
      returns (r: Outcome, ghost events: seq<Event>)
      requires Valid() && evalPool != null && |layers| == t + 2 && |ls| == t + 2 && |vs| == t + 2
      requires i < |layers[t].evalSeq| && k in layers[t].evalSeq[i]
      requires i < |vs[t].seqv| && cv == vs[t].seqv[i] && k in cv && k !in done && QueueOK(cv[k], bound, mcells, bcells)
      requires ClusterRan(t, i, ls, vs, cv, done, order, events0, above) && EventsEvaluated(events0)
      requires UnitsWithin(views[t + 1], bound - 1, mcells, bcells) && (bound >= 1 || layers[t + 1].Empty())
      modifies this`layers, this`views, this`Repr, this`slotOf, Repr, mcells, bcells
      ensures Valid() && |layers| == t + 2 && |views| == t + 2
      ensures UnitsWithin(views[t + 1], bound - 1, mcells, bcells) && (bound >= 1 || layers[t + 1].Empty())
      ensures forall g :: g in Repr ==> g in old(Repr) || fresh(g)
      ensures r.Pass? ==> layers[t] == ls[t] && ClusterRan(t, i, ls, vs, cv, done + {k}, order + [k], events, above)
      ensures r.Pass? ==> EventsEvaluated(events)
      ensures forall w :: old(allocated(w)) && old(Evaluated(w)) ==> Evaluated(w)
      ensures r.Fail? ==> UnitError(r.error)
    {
      ClusterRanOpen(t, i, ls, vs, cv, done, order, events0, above);
      ghost var ev;
      r, ev := DrainGroupIn(t, i, k, bound, ls, vs, cv, done);
      events := events0;
      if r.Pass? {
        GroupRan(t, i, ls, vs, cv, done, order, events0, above, k, ev);
        events := events0 + ev;
      }
    }

    /** The groups drained so far, extended by group `k` whose events `ev`
        just ran. */
    lemma GroupRan(t: nat, i: nat, ls: seq<EvalLayer>, vs: seq<LayerView>, cv: map<GroupKey, seq<Unit>>,
                   done: set<GroupKey>, order: seq<GroupKey>, events0: seq<Event>, above: LayerView,
                   k: GroupKey, ev: seq<Event>)
      requires |ls| == t + 2 && |vs| == t + 2 && i < |vs[t].seqv| && k in cv && k !in done
      requires ClusterDrained(t, i, cv, done, order, events0) && EventsEvaluated(events0)
      requires ClusterAt(t, i, ls, vs, cv, done + {k}) && ev == GroupEvents(t, i, cv[k]) && EventsEvaluated(ev)
      requires |views| == t + 2 && views[t + 1] == RegisterSeq(RegisterSeq(above, SpawnSeq(events0)), SpawnSeq(ev))
      ensures ClusterRan(t, i, ls, vs, cv, done + {k}, order + [k], events0 + ev, above)
      ensures EventsEvaluated(events0 + ev)
    {
      ClusterDrainedStep(t, i, cv, done, order, events0, k);
      SpawnMore(above, events0, ev);
      EventsEvaluatedAppend(events0, ev);
      ClusterRanClose(t, i, ls, vs, cv, done + {k}, order + [k], events0 + ev, above);
    }

    /** The drain of `DrainNextGroup`: group `k` of the cluster `cv` that
        `ClusterAt` records. */
    method DrainGroupIn(t: nat, i: nat, k: GroupKey, ghost bound: int, ghost ls: seq<EvalLayer>, ghost vs: seq<LayerView>,
                        ghost cv: map<GroupKey, seq<Unit>>, ghost done: set<GroupKey>) returns (r: Outcome, ghost events: seq<Event>)
      requires Valid() && evalPool != null && |layers| == t + 2 && |ls| == t + 2 && |vs| == t + 2
      requires i < |layers[t].evalSeq| && k in layers[t].evalSeq[i]
      requires i < |vs[t].seqv| && cv == vs[t].seqv[i] && k in cv && k !in done && QueueOK(cv[k], bound, mcells, bcells)
      requires ClusterAt(t, i, ls, vs, cv, done)
      requires UnitsWithin(views[t + 1], bound - 1, mcells, bcells) && (bound >= 1 || layers[t + 1].Empty())
      modifies this`layers, this`views, this`Repr, this`slotOf, Repr, mcells, bcells
      ensures Valid() && |layers| == t + 2 && |views| == t + 2
      ensures UnitsWithin(views[t + 1], bound - 1, mcells, bcells) && (bound >= 1 || layers[t + 1].Empty())
      ensures forall g :: g in Repr ==> g in old(Repr) || fresh(g)
      ensures r.Pass? ==> layers[t] == ls[t] && ClusterAt(t, i, ls, vs, cv, done + {k}) && events == GroupEvents(t, i, cv[k])
      ensures r.Pass? ==> views[t + 1] == RegisterSeq(old(views[t + 1]), SpawnSeq(events)) && EventsEvaluated(events)
      ensures forall w :: old(allocated(w)) && old(Evaluated(w)) ==> Evaluated(w)
      ensures r.Fail? ==> UnitError(r.error)
    {
      ClusterOpen(t, i, ls, vs, cv, done);
      assert ClearKeys(cv, done)[k] == cv[k];
      ghost var lb, vb := layers, views;
      r, events := DrainGroup(t, i, k, bound);
      if r.Pass? {
        ClusterAdvance(t, i, ls, vs, cv, done, k, lb, vb);
      }
    }

    /** Draining group `k` from the layers `lb` and views `vb` of
        `ClusterAt(t, i, ls, vs, cv, done)` reaches `ClusterAt` with `k`
        drained too. */
    lemma ClusterAdvance(t: nat, i: nat, ls: seq<EvalLayer>, vs: seq<LayerView>, cv: map<GroupKey, seq<Unit>>,
                         done: set<GroupKey>, k: GroupKey, lb: seq<EvalLayer>, vb: seq<LayerView>)
      requires |ls| == t + 2 && |vs| == t + 2 && i < |vs[t].seqv| && cv == vs[t].seqv[i] && k in cv
      requires |lb| == t + 2 && lb == ls[t + 1 := lb[t + 1]]
      requires |vb| == t + 2 && vb == vs[t := vs[t].(seqv := vs[t].seqv[i := ClearKeys(cv, done)])][t + 1 := vb[t + 1]]
      requires |layers| == t + 2 && layers == lb[t + 1 := layers[t + 1]]
      requires |views| == t + 2 && views == vb[t := SetQueue(vb[t], i, k, [])][t + 1 := views[t + 1]]
      ensures layers[t] == ls[t] && ClusterAt(t, i, ls, vs, cv, done + {k})
    {
      UpdateOver(ls, t + 1, lb[t + 1], layers[t + 1]);
      ClusterStep(vs, t, vs[t], i, cv, done, k, vb, views);
      ClusterClose(t, i, ls, vs, cv, done + {k});
    }

    /** `EvalPlan::DoLayerEval` on the top layer `t`: when it is not empty, a
        new layer is pushed to receive what the units register; each depth
        is drained in turn, then the pool synchronises, then whatever the
        depth registered is drained by a nested call; finally the pushed
        layer is popped and layer `t` cleared.  A unit that throws ends the
        whole evaluation at once. */
    method DoLayerEval(ghost bound: nat) returns (r: Outcome, ghost trace: seq<Event>, ghost dr: Drain)
      requires Valid() && evalPool != null && UnitsWithin(TopView(), bound, mcells, bcells)
      modifies this`layers, this`views, this`Repr, this`slotOf, Repr, mcells, bcells
      decreases bound, 5
      ensures Valid() && UnitsWithin(TopView(), bound, mcells, bcells)
      ensures forall g :: g in Repr ==> g in old(Repr) || fresh(g)
      ensures old(layers[|layers| - 1].Empty()) ==> r == Pass && trace == [] && layers == old(layers) && views == old(views)
      ensures r.Pass? ==> var t := old(|layers|) - 1;
        && |layers| == t + 1 && layers == old(layers)[t := layers[t]] && layers[t].Empty()
        && views == old(views)[t := EmptyView]
        && Drains(t, old(views[t]).seqv, dr) && trace == DrainTrace(t, old(views[t]).seqv, dr)
        && EventsEvaluated(trace) && AllEvaluated(old(views[t]).seqv)
      ensures forall w :: old(allocated(w)) && old(Evaluated(w)) ==> Evaluated(w)
      ensures r.Fail? ==> UnitError(r.error)
    {
      var t := |layers| - 1;
      if layers[t].Empty() {
        EmptyTop(t);
        r, trace, dr := Pass, [], NoDrain;
        DrainNothing(t);
        return;
      }
      r, trace, dr := DrainLayer(t, bound);
      if r.Pass? {
        QueuedEvaluated(t, old(views[t]).seqv, dr, trace);
      }
    }

    /** An empty top layer has an empty view, and nothing is left to do. */
    lemma EmptyTop(t: nat)
      requires Valid() && t + 1 == |layers| && layers[t].Empty()
      ensures views[t] == EmptyView && layers == layers[t := layers[t]] && views == views[t := EmptyView]
    {
      Unfold();
      SnapshotCoherent(layers, views, Repr, slotOf);
      EmptyLayerView(layers, views, Snapshot(Repr), slotOf, t);
      UpdateSame(layers, t, layers[t]);
      UpdateSame(views, t, EmptyView);
    }

    /** `DoLayerEval` on a top layer `t` that is not empty. */
    method DrainLayer(t: nat, ghost bound: nat) returns (r: Outcome, ghost trace: seq<Event>, ghost dr: Drain)
      requires Valid() && evalPool != null && t + 1 == |layers| && !layers[t].Empty()
      requires UnitsWithin(views[t], bound, mcells, bcells)
      modifies this`layers, this`views, this`Repr, this`slotOf, Repr, mcells, bcells
      decreases bound, 4
      ensures Valid() && UnitsWithin(TopView(), bound, mcells, bcells)
      ensures forall g :: g in Repr ==> g in old(Repr) || fresh(g)
      ensures r.Pass? ==>
        && |layers| == t + 1 && layers == old(layers)[t := layers[t]] && layers[t].Empty()
        && views == old(views)[t := EmptyView]
        && Drains(t, old(views[t]).seqv, dr) && trace == DrainTrace(t, old(views[t]).seqv, dr) && EventsEvaluated(trace)
      ensures forall w :: old(allocated(w)) && old(Evaluated(w)) ==> Evaluated(w)
      ensures r.Fail? ==> UnitError(r.error)
    {
      ghost var ls0, vs0 := layers, views;
      ghost var v := views[t];
      OpenLayer();
      ghost var ls, vs := layers, views;
      var seqLen := layers[t].Size();
      ShapedAt(t);
      DepthFresh(t, v);
      ghost var orders, subs;
      r, trace, orders, subs := DrainDepths(t, seqLen, bound, ls, vs, v);
      dr := Drain(orders, subs);
      if r.Fail? {
        return;
      }
      DrainedAll(t, v.seqv, orders, subs, trace);
      DepthDone(t, ls0, vs0, v, seqLen);
      CloseLayer(t);
    }

    /** The `for` loop of `DoLayerEval` over the `n` depths of layer `t`,
        with the layer above already pushed. */
    method DrainDepths(t: nat, n: nat, ghost bound: nat, ghost ls: seq<EvalLayer>, ghost vs: seq<LayerView>, ghost v: LayerView)
      returns (r: Outcome, ghost trace: seq<Event>, ghost orders: seq<seq<GroupKey>>, ghost subs: seq<Drain>)
      requires Valid() && evalPool != null && |ls| == t + 2 && |vs| == t + 2
      requires vs[t + 1] == EmptyView && n == |v.seqv| == |ls[t].evalSeq|
      requires UnitsWithin(v, bound, mcells, bcells) && DepthAt(t, ls, vs, v, 0)
      modifies this`layers, this`views, this`Repr, this`slotOf, Repr, mcells, bcells
      decreases bound, 3
      ensures Valid() && (r.Fail? ==> UnitsWithin(TopView(), bound, mcells, bcells))
      ensures forall g :: g in Repr ==> g in old(Repr) || fresh(g)
      ensures r.Pass? ==> DepthAt(t, ls, vs, v, n) && DrainedWith(t, v.seqv, orders, subs, trace, n) && EventsEvaluated(trace)
      ensures forall w :: old(allocated(w)) && old(Evaluated(w)) ==> Evaluated(w)
      ensures r.Fail? ==> UnitError(r.error)
    {
      trace, orders, subs := [], [], [];
      r := Pass;
      DrainedNone(t, v.seqv);
      for i := 0 to n
        invariant r.Pass? && Valid() && DepthAt(t, ls, vs, v, i)
        invariant DrainedWith(t, v.seqv, orders, subs, trace, i) && EventsEvaluated(trace)
        invariant forall g :: g in Repr ==> g in old(Repr) || fresh(g)
        invariant forall w :: old(allocated(w)) && old(Evaluated(w)) ==> Evaluated(w)
      {
        r, orders, subs, trace := DrainNextDepth(t, i, bound, ls, vs, v, orders, subs, trace);
        if r.Fail? {
          return;
        }
      }
    }

    /** One turn of the depth loop, with the witnesses of the depths
        drained so far extended by this one. */
    method DrainNextDepth(t: nat, i: nat, ghost bound: nat, ghost ls: seq<EvalLayer>, ghost vs: seq<LayerView>, ghost v: LayerView,
                          ghost orders0: seq<seq<GroupKey>>, ghost subs0: seq<Drain>, ghost trace0: seq<Event>)
      returns (r: Outcome, ghost orders: seq<seq<GroupKey>>, ghost subs: seq<Drain>, ghost trace: seq<Event>)
      requires Valid() && evalPool != null && |ls| == t + 2 && |vs| == t + 2
      requires vs[t + 1] == EmptyView && i < |v.seqv| && i < |ls[t].evalSeq|
      requires UnitsWithin(v, bound, mcells, bcells) && DepthAt(t, ls, vs, v, i)
      requires DrainedWith(t, v.seqv, orders0, subs0, trace0, i) && EventsEvaluated(trace0)
      modifies this`layers, this`views, this`Repr, this`slotOf, Repr, mcells, bcells
      decreases bound, 2
      ensures Valid() && (r.Fail? ==> UnitsWithin(TopView(), bound, mcells, bcells))
      ensures forall g :: g in Repr ==> g in old(Repr) || fresh(g)
      ensures r.Pass? ==> DepthAt(t, ls, vs, v, i + 1) && DrainedWith(t, v.seqv, orders, subs, trace, i + 1) && EventsEvaluated(trace)
      ensures forall w :: old(allocated(w)) && old(Evaluated(w)) ==> Evaluated(w)
      ensures r.Fail? ==> UnitError(r.error)
    {
      ghost var order, events, subTrace, sub;
      r, order, events, subTrace, sub := DrainDepth(t, i, bound, ls, vs, v);
      orders, subs, trace := orders0, subs0, trace0;
      if r.Pass? {
        DrainedStep(t, v.seqv, orders0, subs0, trace0, i, order, events, sub, subTrace);
        EventsEvaluatedAppend(trace0, events);
        EventsEvaluatedAppend(trace0 + events, [Synced(t, i)]);
        EventsEvaluatedAppend(trace0 + events + [Synced(t, i)], subTrace);
        orders, subs := orders0 + [order], subs0 + [sub];
        trace := trace0 + events + [Synced(t, i)] + subTrace;
      }
    }

    /** The state `DoLayerEval` reaches on layer `t` once its first `n`
        depths are drained, from layers `ls` and views `vs` with `v` the
        view of layer `t`: the pushed layer is empty again and those depths
        are cleared. Stated under the `FrameGuard`. */
    ghost predicate DepthAt(t: nat, ls: seq<EvalLayer>, vs: seq<LayerView>, v: LayerView, n: nat)
      reads this
      requires |ls| == t + 2 && |vs| == t + 2
    {
      forall m: nat :: FrameGuard(m) ==>
        && |layers| == t + 2 && layers == ls[t + 1 := layers[t + 1]] && layers[t + 1].Empty()
        && views == vs[t := DrainedUpTo(v, n)]
    }

    lemma DepthClose(t: nat, ls: seq<EvalLayer>, vs: seq<LayerView>, v: LayerView, n: nat)
      requires |ls| == t + 2 && |vs| == t + 2
      requires |layers| == t + 2 && layers == ls[t + 1 := layers[t + 1]] && layers[t + 1].Empty()
      requires views == vs[t := DrainedUpTo(v, n)]
      ensures DepthAt(t, ls, vs, v, n)
    {
    }

    lemma DepthOpen(t: nat, ls: seq<EvalLayer>, vs: seq<LayerView>, v: LayerView, n: nat)
      requires |ls| == t + 2 && |vs| == t + 2 && DepthAt(t, ls, vs, v, n)
      ensures |layers| == t + 2 && layers == ls[t + 1 := layers[t + 1]] && layers[t + 1].Empty()
      ensures views == vs[t := DrainedUpTo(v, n)]
    {
      assert FrameGuard(0);
    }

    /** Right after the layer above `t` is pushed, no depth is drained. */
    lemma DepthFresh(t: nat, v: LayerView)
      requires |layers| == t + 2 && |views| == t + 2 && layers[t + 1].Empty() && views[t] == v
      ensures DepthAt(t, layers, views, v, 0)
    {
      assert DrainedUpTo(v, 0) == v by {
        assert DrainedUpTo(v, 0).seqv == v.seqv;
      }
      UpdateSame(layers, t + 1, layers[t + 1]);
      UpdateSame(views, t, v);
      DepthClose(t, layers, views, v, 0);
    }

    /** Once the depths are drained, popping the pushed layer and clearing
        layer `t` leaves the layers and views from before the push with only
        layer `t` emptied. */
    lemma DepthDone(t: nat, ls0: seq<EvalLayer>, vs0: seq<LayerView>, v: LayerView, n: nat)
      requires |ls0| == t + 1 && |vs0| == t + 1 && DepthAt(t, ls0 + [EmptyLayer], vs0 + [EmptyView], v, n)
      ensures |layers| == t + 2 && |views| == t + 2
      ensures layers[..t + 1][t := EmptyLayer] == ls0[t := EmptyLayer]
      ensures views[..t + 1][t := EmptyView] == vs0[t := EmptyView]
    {
      DepthOpen(t, ls0 + [EmptyLayer], vs0 + [EmptyView], v, n);
      DropPushed(ls0, EmptyLayer, layers[t + 1]);
      DropBelowWrite(vs0, EmptyView, t, DrainedUpTo(v, n));
      UpdateOver(vs0, t, DrainedUpTo(v, n), EmptyView);
    }

    /** One turn of the `for` loop over the depths of `DoLayerEval`: depth
        `i` of layer `t` is drained, the pool synchronises, and what it
        registered on the layer above is drained by a nested call. */
    method DrainDepth(t: nat, i: nat, ghost bound: nat, ghost ls: seq<EvalLayer>, ghost vs: seq<LayerView>, ghost v: LayerView)
      returns (r: Outcome, ghost order: seq<GroupKey>, ghost events: seq<Event>, ghost subTrace: seq<Event>, ghost sub: Drain)
      requires Valid() && evalPool != null && |ls| == t + 2 && |vs| == t + 2
      requires vs[t + 1] == EmptyView && i < |v.seqv| && i < |ls[t].evalSeq|
      requires UnitsWithin(v, bound, mcells, bcells) && DepthAt(t, ls, vs, v, i)
      modifies this`layers, this`views, this`Repr, this`slotOf, Repr, mcells, bcells
      decreases bound, 1
      ensures Valid() && UnitsWithin(TopView(), bound, mcells, bcells)
      ensures forall g :: g in Repr ==> g in old(Repr) || fresh(g)
      ensures r.Pass? ==>
        && DepthAt(t, ls, vs, v, i + 1)
        && IsOrderOf(order, v.seqv[i].Keys) && events == ClusterEvents(t, i, v.seqv[i], order)
        && Drains(t + 1, SpawnView(t, i, v.seqv[i], order).seqv, sub)
        && subTrace == DrainTrace(t + 1, SpawnView(t, i, v.seqv[i], order).seqv, sub)
        && EventsEvaluated(events) && EventsEvaluated(subTrace)
      ensures forall w :: old(allocated(w)) && old(Evaluated(w)) ==> Evaluated(w)
      ensures r.Fail? ==> UnitError(r.error)
    {
      DepthOpen(t, ls, vs, v, i);
      ghost var lb, vb := layers, views;
      assert views[t].seqv[i] == v.seqv[i];
      assert ClusterOK(views[t].seqv[i], bound, mcells, bcells);
      r, order, events := DrainCluster(t, i, bound);
      subTrace, sub := [], NoDrain;
      if r.Fail? {
        WithinMono(views[t + 1], bound - 1, bound, mcells, mcells, bcells, bcells);
        return;
      }
      DepthAdvance(t, ls, vs, v, i, lb, vb, order, events);
      r, subTrace, sub := SyncDepth(t, i + 1, bound, ls, vs, v);
    }

    /** Draining cluster `i` from the layers `lb` and views `vb` of
        `DepthAt(t, ls, vs, v, i)` reaches `PushedAt` with `i + 1` depths
        drained, the layer above holding what the cluster registered. */
    lemma DepthAdvance(t: nat, ls: seq<EvalLayer>, vs: seq<LayerView>, v: LayerView, i: nat,
                       lb: seq<EvalLayer>, vb: seq<LayerView>, order: seq<GroupKey>, events: seq<Event>)
      requires |ls| == t + 2 && |vs| == t + 2 && vs[t + 1] == EmptyView && i < |v.seqv|
      requires |lb| == t + 2 && lb == ls[t + 1 := lb[t + 1]] && vb == vs[t := DrainedUpTo(v, i)] && vb[t].seqv[i] == v.seqv[i]
      requires |layers| == t + 2 && layers == lb[t + 1 := layers[t + 1]]
      requires |views| == t + 2
      requires views == vb[t := vb[t].(seqv := vb[t].seqv[i := ClearKeys(v.seqv[i], v.seqv[i].Keys)])][t + 1 := views[t + 1]]
      requires events == ClusterEvents(t, i, v.seqv[i], order) && views[t + 1] == RegisterSeq(vb[t + 1], SpawnSeq(events))
      ensures PushedAt(t, ls, vs, v, i + 1) && views[t + 1] == SpawnView(t, i, v.seqv[i], order)
    {
      DrainedOneMore(v, i);
      UpdateOver(ls, t + 1, lb[t + 1], layers[t + 1]);
      UpdateOver(vs, t, DrainedUpTo(v, i), DrainedUpTo(v, i + 1));
      PushedClose(t, ls, vs, v, i + 1);
    }

    /** The state of layer `t` between draining its first `n` depths and
        the barrier that follows: as `DepthAt`, except that the layer above
        may hold what the drained units registered. */
    ghost predicate PushedAt(t: nat, ls: seq<EvalLayer>, vs: seq<LayerView>, v: LayerView, n: nat)
      reads this
      requires |ls| == t + 2 && |vs| == t + 2
    {
      forall m: nat :: FrameGuard(m) ==>
        && |layers| == t + 2 && layers == ls[t + 1 := layers[t + 1]]
        && |views| == t + 2 && views == vs[t := DrainedUpTo(v, n)][t + 1 := views[t + 1]]
    }

    lemma PushedClose(t: nat, ls: seq<EvalLayer>, vs: seq<LayerView>, v: LayerView, n: nat)
      requires |ls| == t + 2 && |vs| == t + 2
      requires |layers| == t + 2 && layers == ls[t + 1 := layers[t + 1]]
      requires |views| == t + 2 && views == vs[t := DrainedUpTo(v, n)][t + 1 := views[t + 1]]
      ensures PushedAt(t, ls, vs, v, n)
    {
    }

    lemma PushedOpen(t: nat, ls: seq<EvalLayer>, vs: seq<LayerView>, v: LayerView, n: nat)
      requires |ls| == t + 2 && |vs| == t + 2 && PushedAt(t, ls, vs, v, n)
      ensures |layers| == t + 2 && layers == ls[t + 1 := layers[t + 1]]
      ensures |views| == t + 2 && views == vs[t := DrainedUpTo(v, n)][t + 1 := views[t + 1]]
    {
      assert FrameGuard(0);
    }

    /** The end of a turn of the depth loop: `evalPool->Barrier()`, then a
        nested `DoLayerEval` when the layer above is not empty. */
    method SyncDepth(t: nat, n: nat, ghost bound: nat, ghost ls: seq<EvalLayer>, ghost vs: seq<LayerView>, ghost v: LayerView)
      returns (r: Outcome, ghost subTrace: seq<Event>, ghost sub: Drain)
      requires Valid() && evalPool != null && |ls| == t + 2 && |vs| == t + 2 && vs[t + 1] == EmptyView
      requires |layers| == t + 2 && |views| == t + 2 && PushedAt(t, ls, vs, v, n)
      requires UnitsWithin(views[t + 1], bound - 1, mcells, bcells) && (bound >= 1 || layers[t + 1].Empty())
      modifies this`layers, this`views, this`Repr, this`slotOf, Repr, mcells, bcells
      decreases bound, 0
      ensures Valid() && UnitsWithin(TopView(), bound, mcells, bcells)
      ensures forall g :: g in Repr ==> g in old(Repr) || fresh(g)
      ensures r.Pass? ==> && DepthAt(t, ls, vs, v, n)
                          && Drains(t + 1, old(views[t + 1]).seqv, sub) && subTrace == DrainTrace(t + 1, old(views[t + 1]).seqv, sub)
                          && EventsEvaluated(subTrace)
      ensures forall w :: old(allocated(w)) && old(Evaluated(w)) ==> Evaluated(w)
      ensures r.Fail? ==> UnitError(r.error)
    {
      PushedOpen(t, ls, vs, v, n);
      ghost var d := DrainedUpTo(v, n);
      ghost var l', w := layers[t + 1], views[t + 1];
      evalPool.Barrier();
      r, subTrace, sub := Pass, [], NoDrain;
      if !layers[t + 1].Empty() {
        r, subTrace, sub := DoLayerEval(bound - 1);
        if r.Fail? {
          WithinMono(TopView(), bound - 1, bound, mcells, mcells, bcells, bcells);
          return;
        }
        UpdateOver(ls, t + 1, l', layers[t + 1]);
        UpdateOver(vs[t := d], t + 1, w, EmptyView);
      } else {
        Unfold();
        SnapshotCoherent(layers, views, Repr, slotOf);
        EmptyLayerView(layers, views, Snapshot(Repr), slotOf, t + 1);
        WithinMono(views[t + 1], bound - 1, bound, mcells, mcells, bcells, bcells);
        DrainNothing(t + 1);
      }
      UpdateSame(vs[t := d], t + 1, EmptyView);
      DepthClose(t, ls, vs, v, n);
    }

    /** `m_evalLayers.push_back(EvalLayer{})`. */
    method OpenLayer()
      requires Valid()
      modifies this`layers, this`views, this`Repr, this`slotOf
      ensures Valid()
      ensures layers == old(layers) + [EmptyLayer] && views == old(views) + [EmptyView] && Repr == old(Repr)
      ensures forall w :: old(allocated(w)) && old(Evaluated(w)) ==> Evaluated(w)
    {
      forall w | allocated(w)
        ensures (forall c :: c in ReadM(w) ==> allocated(c)) && (forall c :: c in ReadB(w) ==> allocated(c))
      {
        ReadsAllocated(w);
      }
      ghost var q := Snapshot(Repr);
      Unfold();
      SnapshotCoherent(layers, views, Repr, slotOf);
      OpenCoherent(layers, views, q, slotOf);
      Commit(layers + [EmptyLayer], views + [EmptyView], Repr, slotOf, q);
      // Only the plan changed, and no unit reads it.
      forall w | old(allocated(w)) && old(Evaluated(w))
        ensures Evaluated(w)
      {
        assert forall c :: c in ReadM(w) ==> unchanged(c);
        assert forall c :: c in ReadB(w) ==> unchanged(c);
      }
    }

    /** `m_evalLayers.pop_back()` followed by `curLayer.Clear()` on layer `t`. */
    method CloseLayer(t: nat)
      requires Valid() && |layers| == t + 2
      modifies this`layers, this`views, this`Repr, this`slotOf
      ensures Valid()
      ensures layers == old(layers)[..t + 1][t := EmptyLayer] && views == old(views)[..t + 1][t := EmptyView]
      ensures Repr == old(Repr)
      ensures forall w :: old(allocated(w)) && old(Evaluated(w)) ==> Evaluated(w)
    {
      forall w | allocated(w)
        ensures (forall c :: c in ReadM(w) ==> allocated(c)) && (forall c :: c in ReadB(w) ==> allocated(c))
      {
        ReadsAllocated(w);
      }
      ghost var q := Snapshot(Repr);
      Unfold();
      SnapshotCoherent(layers, views, Repr, slotOf);
      CloseCoherent(layers, views, q, slotOf, t);
      Commit(layers[..t + 1][t := EmptyLayer], views[..t + 1][t := EmptyView], Repr, slotOf, q);
      // Only the plan changed, and no unit reads it.
      forall w | old(allocated(w)) && old(Evaluated(w))
        ensures Evaluated(w)
      {
        assert forall c :: c in ReadM(w) ==> unchanged(c);
        assert forall c :: c in ReadB(w) ==> unchanged(c);
      }
    }

    /** `EvalPlan::Eval`: the thread's pool is refreshed when the global
        choice changed or none is held yet, and then the top layer is
        drained.  With no pool it throws. */
    method Eval() returns (r: Outcome, ghost trace: seq<Event>, ghost dr: Drain)
      requires Valid() && Within()
      modifies this`evalPool, this`threadEvalPool, this`layers, this`views, this`Repr, this`slotOf, Repr, mcells, bcells
      ensures Valid() && Within()
      ensures threadEvalPool == setting.selected
      ensures evalPool == if old(threadEvalPool) != setting.selected || old(evalPool) == null then pools.Instance(device) else old(evalPool)
      ensures forall g :: g in Repr ==> g in old(Repr) || fresh(g)
      ensures r.Pass? ==> var t := old(|layers|) - 1;
        && |layers| == t + 1 && layers == old(layers)[t := layers[t]] && layers[t].Empty()
        && views == old(views)[t := EmptyView]
        && Drains(t, old(views[t]).seqv, dr) && trace == DrainTrace(t, old(views[t]).seqv, dr)
        && EventsEvaluated(trace) && AllEvaluated(old(views[t]).seqv)
      ensures forall w :: old(allocated(w)) && old(Evaluated(w)) ==> Evaluated(w)
      ensures r.Fail? ==> UnitError(r.error)
    {
      RefreshPool();
      assert layers == old(layers) && views == old(views);
      r, trace, dr := DoLayerEval(heightBound);
    }

    /** The first half of `Eval`: the pool is looked up again when the
        thread's setting changed since the last call, or none was chosen. */
    method RefreshPool()
      requires Valid() && Within()
      modifies this`evalPool, this`threadEvalPool
      ensures Valid() && Within() && evalPool != null
      ensures threadEvalPool == setting.selected
      ensures evalPool == if old(threadEvalPool) != setting.selected || old(evalPool) == null then pools.Instance(device) else old(evalPool)
      ensures forall w :: old(allocated(w)) && old(Evaluated(w)) ==> Evaluated(w)
    {
      if threadEvalPool != setting.selected || evalPool == null {
        match setting.selected
        case Trival => SelectPool(pools.Instance(device));
      }
      // Every pool kind yields a pool, so the throw for a missing pool never fires.
      assert evalPool != null;
    }

    /** Stores the pool the global choice names, and records that choice
        as the thread's. */
    method SelectPool(p: TrivalEvalPool)
      modifies this`evalPool, this`threadEvalPool
      ensures evalPool == p && threadEvalPool == setting.selected
      ensures forall w :: old(allocated(w)) && old(Evaluated(w)) ==> Evaluated(w)
    {
      forall w | allocated(w)
        ensures (forall c :: c in ReadM(w) ==> allocated(c)) && (forall c :: c in ReadB(w) ==> allocated(c))
      {
        ReadsAllocated(w);
      }
      evalPool, threadEvalPool := p, setting.selected;
      // Only two fields of the plan changed, and no unit reads them.
      forall w | old(allocated(w)) && old(Evaluated(w))
        ensures Evaluated(w)
      {
        assert forall c :: c in ReadM(w) ==> unchanged(c);
        assert forall c :: c in ReadB(w) ==> unchanged(c);
      }
    }

    /** `EvalPlan::EvalRegister`: registration goes to the top layer only. */
    method EvalRegister(reg: Registration)
      requires Valid()
      modifies this`layers, this`views, this`Repr, this`slotOf, Repr
      ensures Valid()
      ensures |layers| == old(|layers|) && layers == old(layers)[|layers| - 1 := layers[|layers| - 1]]
      ensures |views| == old(|views|) && views == old(views)[|views| - 1 := RegisterSpec(old(TopView()), reg)]
      ensures forall g :: g in Repr ==> g in old(Repr) || fresh(g)
    {
      EvalLayerRegister(|layers| - 1, reg);
    }

    /** `EvalPlan::Register`: files the unit in the top layer and widens the
        ghost bounds to cover it. */
    method Register(reg: Registration)
      requires Valid() && Within()
      modifies this`layers, this`views, this`Repr, this`slotOf, this`heightBound, this`mcells, this`bcells, Repr
      ensures Valid() && Within()
      ensures |layers| == old(|layers|) && layers == old(layers)[|layers| - 1 := layers[|layers| - 1]]
      ensures |views| == old(|views|) && views == old(views)[|views| - 1 := RegisterSpec(old(TopView()), reg)]
      ensures forall g :: g in Repr ==> g in old(Repr) || fresh(g)
      ensures mcells == old(mcells) + AllM(reg.unit) && bcells == old(bcells) + AllB(reg.unit)
      ensures heightBound == Max(old(heightBound), Height(reg.unit) + 1)
    {
      ghost var v := TopView();
      ghost var b, mc, bc := Max(heightBound, Height(reg.unit) + 1), mcells + AllM(reg.unit), bcells + AllB(reg.unit);
      WithinMono(v, heightBound, b, mcells, mc, bcells, bc);
      RegisterKeepsWithin(v, reg, b, mc, bc);
      Widen(b, mc, bc);
      EvalRegister(reg);
      assert TopView() == RegisterSpec(v, reg);
    }

    /** The plan's part of `Evaluate` (src/evaluate/facilities/eval_plan.h:334-345):
        the expression's `EvalRegister` files `reg` with the plan, then
        `Eval` drains it.  When `Eval` succeeds, a registration that was new
        has run. */
    method RegisterAndEval(reg: Registration) returns (r: Outcome)
      requires Valid() && Within()
      modifies this, Repr, mcells, bcells, AllM(reg.unit), AllB(reg.unit)
      ensures Valid() && Within()
      ensures r.Pass? && reg.output != null && reg.output !in old(TopView().outputs) ==> Evaluated(reg.unit)
      ensures r.Fail? ==> UnitError(r.error)
    {
      ghost var top := TopView();
      Register(reg);
      ghost var queued := TopView();
      ghost var trace, dr;
      r, trace, dr := Eval();
      if r.Pass? && reg.output != null && reg.output !in top.outputs {
        RegisteredQueued(top, reg);
      }
    }
  }
}
