# Deferred evaluation and tensor indexing, modelled in Dafny

This project models the core of a small C++ deep-learning framework:

- **The deferred-evaluation scheduler** (`src/evaluate`).
  - Operators do not compute at once. Each registers an *evaluation unit* with the thread's `EvalPlan`, naming the output it will write and the operands it reads.
  - The plan files each unit into a *layer* at a *depth* one greater than the deepest operand it already knows. Within a depth, units are kept in one FIFO `TrivalEvalGroup` per unit kind.
  - `Eval` drains the top layer depth by depth. It hands every unit to the pool, calls `Barrier`, and then recursively drains whatever the units registered in a freshly pushed layer.
  - Results live in write-once cells (`EvalHandle`). A cell may be allocated while unevaluated, is published once by `SetEval`, and can be read only after that.
- **The `Abs` operator** (`src/operators/abs.h`): its two CPU evaluation units (matrix and batch of matrices) and the calculator that registers them.
- **Integer tensors** (`src/tensor`):
  - the row-major flat index;
  - the size checks of the constructors;
  - `matmul`, `transpose` and the elementwise operators;
  - NumPy-style broadcast add;
  - the in-place `optimize_add/sub/mul/div` loops.

The files follow the source:

| file | module | source |
|---|---|---|
| `wrappers.dfy` | `Wrappers` | errors as values: `Outcome` for a call that may throw, `Result` for one that returns or throws |
| `eval_handle.dfy` | `EvalHandles` | eval_handle.h |
| `eval_buffer.dfy` | `EvalBuffers` | eval_buffer.h |
| `eval_group.dfy` | `EvalGroups` | eval_group.h |
| `abs.dfy` | `Abs` | the two `EvalUnit::Eval` bodies of abs.h |
| `eval_unit.dfy` | `EvalUnits` | eval_unit.h: the closed family of units |
| `trival_eval_pool.dfy` | `EvalPools` | trival_eval_pool.h, eval_pool.h |
| `eval_plan.dfy` | `EvalPlans` | eval_plan.h |
| `abs_calculator.dfy` | `AbsCalculators` | `Calculator::EvalRegister` of abs.h |
| `tensor.dfy` | `Tensors` | tensor.hpp |
| `tensor_advanced.dfy` | `AdvancedTensors` | tensor_advanced.hpp |

How the model is built:

- **Exceptions.** A C++ exception becomes a failed `Outcome` or `Err` result carrying the same exception class and message. After a failure, the caller stops exactly where the exception would have unwound.
- **Cells and handles.** A cell is a heap object (`DataWithEvalInfo`). A handle is a value holding a reference to it, so copies of a handle alias one cell. `DataPtr()` is the cell itself.
- **Groups and layers.** Groups are heap objects. A layer is a value, and the `std::list` of layers is a sequence whose last element is `back()`.
- **Ghost state of the plan.** The plan keeps a ghost *view* of every layer: what each group queues, per depth and kind. The drain methods return a ghost *trace* of pool events (`Processed` for a unit handed to the pool, `Synced` for a barrier). These make the scheduling order a statement about values.
- **Group order.** The order in which a cluster's groups are visited is that of an `unordered_map`, which the source does not fix. The model proves its properties for every visiting order, and reports the order used as a witness.
- **Termination.** The C++ recursion of `DoLayerEval` (src/evaluate/facilities/eval_plan.h:309-312) has no bound of its own: a unit that registered new work every time it ran would nest without end. The model's units form a closed family in which work registered by a unit is strictly "lower" than it (`EvalUnits.Height`, `EvalUnits.SpawnsBelow`). That, and not anything in the plan, bounds the nesting, and the drain methods decrease that height.
- **Device.** The CPU and GPU pools are the same class with a `device` field, because their code is identical.

## Model

| member | source | states |
|---|---|---|
| EvalHandles.DataWithEvalInfo.constructor | src/evaluate/facilities/eval_handle.h:13-17 | a new cell holds the default value and is not evaluated |
| EvalHandles.NewEvalHandle | src/evaluate/facilities/eval_handle.h:21-23 | a constructed handle refers to a fresh, unevaluated cell |
| EvalHandles.EvalHandle.IsEvaluated | src/evaluate/facilities/eval_handle.h:26-29 | the flag is set exactly when `Data()` succeeds, and clear exactly when `Data()` fails with "Data is not evaluated." |
| EvalHandles.EvalHandle.MutableData | src/evaluate/facilities/eval_handle.h:32-39 | fails with "Data is already evaluated." exactly when the cell is evaluated; otherwise yields the cell's value |
| EvalHandles.EvalHandle.Assign | src/evaluate/facilities/eval_handle.h:32-39 | a store through the reference `MutableData()` returned: the cell holds the stored value and its flag is unchanged |
| EvalHandles.EvalHandle.SetEval | src/evaluate/facilities/eval_handle.h:42-49 | on an unevaluated cell sets the flag and keeps the value; on an evaluated cell fails and changes nothing |
| EvalHandles.EvalHandle.Data | src/evaluate/facilities/eval_handle.h:52-59 | succeeds exactly when the cell is evaluated, returning its value; otherwise fails with "Data is not evaluated." |
| EvalHandles.EvalHandle.DataPtr | src/evaluate/facilities/eval_handle.h:62-65 | the identity is non-null; it is the shared cell |
| EvalHandles.EvalHandle.Allocate | src/evaluate/facilities/eval_handle.h:69-77 | stores the new value and leaves the cell unevaluated, or fails without change once evaluated |
| EvalHandles.ConstEvalHandle.Data | src/evaluate/facilities/eval_handle.h:86-133 | the plain form always returns its stored value; the deferred form returns exactly what the wrapped handle's `Data` returns, failing iff it is unevaluated |
| EvalHandles.ConstEvalHandle.DataPtr | src/evaluate/facilities/eval_handle.h:101-133 | the plain form's identity is its own storage; the deferred form's is the wrapped handle's |
| EvalHandles.MakeConstEvalHandle | src/evaluate/facilities/eval_handle.h:140-145 | yields a plain handle on fresh storage whose `Data` returns the given value |
| EvalHandles.DynamicConstEvalHandle.Data | src/evaluate/facilities/eval_handle.h:243-247 | returns exactly the wrapped handle's `Data` |
| EvalHandles.DynamicConstEvalHandle.DataPtr | src/evaluate/facilities/eval_handle.h:249-253 | returns exactly the wrapped handle's `DataPtr`, which is never null: the shared cell of a deferred handle, the storage of a plain one; a member of its own because the C++ class has a separate `DataPtr` beside `Data` |
| EvalHandles.CopiesShareOneCell | src/evaluate/facilities/eval_handle.h:61-81 | a value allocated and published through one copy is read through every other copy, the const view and the dynamic view; a second `SetEval` through a copy fails; all have one `DataPtr` |
| EvalHandles.LastAllocationWins | src/evaluate/facilities/eval_handle.h:69-77 | before `SetEval` repeated `Allocate` calls succeed and the last one is published; afterwards `Allocate` and `MutableData` fail |
| EvalBuffers.EvalBuffer.Handle | src/evaluate/facilities/eval_buffer.h:18-21 | every handle handed out has the buffer's `DataPtr` |
| EvalBuffers.EvalBuffer.ConstHandle | src/evaluate/facilities/eval_buffer.h:25-28 | a read-only view on the buffer's own cell |
| EvalBuffers.EvalBuffer.IsEvaluated | src/evaluate/facilities/eval_buffer.h:33-36 | the buffer is evaluated exactly when its read-only view `ConstHandle().Data()` succeeds |
| EvalBuffers.NewEvalBuffer | src/evaluate/facilities/eval_buffer.h:33-40 | a fresh buffer is not evaluated |
| EvalBuffers.PublishThroughHandle | src/evaluate/facilities/eval_buffer.h:18-36 | `ConstHandle().Data()` fails before evaluation; after `Allocate` and `SetEval` through `Handle()` the buffer reports evaluated and the view returns the allocated value |
| EvalGroups.TrivalEvalGroup.constructor | src/evaluate/facilities/eval_group.h:32-75 | the class declares no constructor; the implicit one leaves `m_unitList` an empty list, so a new group is empty |
| EvalGroups.TrivalEvalGroup.GetEvalUnit | src/evaluate/facilities/eval_group.h:40-54 | on an empty group returns none and stays empty; otherwise returns the front unit and removes only it |
| EvalGroups.TrivalEvalGroup.Merge | src/evaluate/facilities/eval_group.h:58-62 | appends exactly the unit at the back |
| EvalGroups.TrivalEvalGroup.MergeMoved | src/evaluate/facilities/eval_group.h:66-70 | appends exactly the unit at the back |
| EvalGroups.FifoOrder | src/evaluate/facilities/eval_group.h:40-70 | for every sequence of units merged into a new group through both `Merge` overloads, asking for units returns them in merge order, each once, and any number of further requests then answer none |
| EvalUnits.Run | src/evaluate/facilities/eval_unit.h:43 | `Eval` succeeds iff the unit is ready (operand evaluated, output not); it then leaves the unit `Evaluated` (its output published as the absolute value of its operand) and returns the registrations it made; on failure it registers nothing and reports the error; every unit evaluated before stays evaluated |
| EvalUnits.Failure | src/operators/abs.h:28-33 | what an abs unit's `Eval` throws when it is not ready is one of the two exceptions a handle throws (`UnitError`): reading the unevaluated operand gives "Data is not evaluated.", allocating an output already published gives "Data is already evaluated." |
| EvalUnits.EvaluatedHolds | src/operators/abs.h:26-55 | a unit recorded as evaluated has its output published, its operand evaluated, and the output equal to the absolute value of the operand (element by element, for batches too) |
| EvalUnits.SpawnsBelow | src/evaluate/facilities/eval_plan.h:302-313 | work a unit registers is strictly lower than the unit and writes only cells in the unit's footprint, so nested draining ends |
| EvalPools.TrivalEvalPool.Process | src/evaluate/processor/trival_eval_pool.h:22-24 | runs the unit's `Eval` once, synchronously: the outcome, output state and registrations are exactly those of `Run`, and every unit evaluated before stays evaluated (the GPU pool at lines 46-48 is the same) |
| EvalPools.TrivalEvalPool.Barrier | src/evaluate/processor/trival_eval_pool.h:27 | nothing to wait for: it writes no cell, so every unit evaluated before stays evaluated (the GPU pool at lines 51-54 is the same) |
| EvalPools.TrivalEvalPools.constructor | src/evaluate/processor/trival_eval_pool.h:11-14 | the two singletons are built, one per device |
| EvalPools.TrivalEvalPools.Instance | src/evaluate/processor/trival_eval_pool.h:11-14 | `Instance()` returns the one stored pool of the requested device, the same object on every call |
| EvalPlans.EvalLayer.Clear | src/evaluate/facilities/eval_plan.h:91-96 | the cleared layer is empty and has no outputs or operands |
| EvalPlans.EvalLayer.Size | src/evaluate/facilities/eval_plan.h:63-85 | the number of depths is 0 exactly when the layer is `Empty()` |
| EvalPlans.MaxTracked | src/evaluate/facilities/eval_plan.h:29-46 | the maximum recorded operand depth is never below -1 (the sentinel for "none") |
| EvalPlans.MaxTrackedIsMax | src/evaluate/facilities/eval_plan.h:29-46 | the result bounds every recorded operand depth; it is -1 iff no operand is recorded; otherwise some operand attains it |
| EvalPlans.OperandDepth | src/evaluate/facilities/eval_plan.h:29-46 | the loop computes the maximum recorded operand depth, -1 when none is recorded |
| EvalPlans.RegisterIdempotent | src/evaluate/facilities/eval_plan.h:113 | registering an output a second time, with any unit, changes nothing: the first unit is kept |
| EvalPlans.RegisterEffect | src/evaluate/facilities/eval_plan.h:111-140 | a new output is recorded at a depth strictly greater than every recorded operand's, 0 iff none is recorded; the sequence covers that depth and never shrinks; the unit is appended to the one group of its kind there; every other group and output is unchanged |
| EvalPlans.RegisterKeepsDepthsInRange | src/evaluate/facilities/eval_plan.h:116-122 | every recorded depth stays inside the depth sequence, and a new depth is at most one past its end |
| EvalPlans.OrderCovers | src/evaluate/facilities/eval_plan.h:299 | a visiting order of a cluster lists exactly its group kinds |
| EvalPlans.OrderDistinct | src/evaluate/facilities/eval_plan.h:299 | a visiting order visits no group twice |
| EvalPlans.LayerTraceAt | src/evaluate/facilities/eval_plan.h:294-313 | draining the first n depths of layer j touches only layer j and deeper layers, and on layer j only depths below n |
| EvalPlans.DepthsIncrease | src/evaluate/facilities/eval_plan.h:294-306 | units of a layer reach the pool in non-decreasing depth order |
| EvalPlans.BarrierFollows | src/evaluate/facilities/eval_plan.h:307-308 | every unit handed to the pool is followed by the barrier of its depth |
| EvalPlans.BarrierBetweenDepths | src/evaluate/facilities/eval_plan.h:294-314 | between a unit of one depth and any unit of a deeper depth of the same layer lies the barrier of the first depth |
| EvalPlans.DrainRunsAll | src/evaluate/facilities/eval_plan.h:294-306 | every queued unit of every drained depth is handed to the pool |
| EvalPlans.DrainRunsOnlyQueued | src/evaluate/facilities/eval_plan.h:294-306 | nothing is run on the layer that was not queued there, at that depth |
| EvalPlans.EvalPoolSetting.constructor | src/evaluate/facilities/eval_plan.h:161-166 | the global pool choice starts as `Trival` |
| EvalPlans.EvalPoolSetting.SetEvalPool | src/evaluate/facilities/eval_plan.h:195-198 | sets the global pool choice |
| EvalPlans.EvalPlan.constructor | src/evaluate/facilities/eval_plan.h:254-258 | a fresh plan holds no pool and exactly one empty layer |
| EvalPlans.EvalPlan.EvalLayerRegister | src/evaluate/facilities/eval_plan.h:106-141 | the registered layer's groups change as `RegisterSpec` says, and no other layer changes |
| EvalPlans.EvalPlan.EvalRegister | src/evaluate/facilities/eval_plan.h:268-277 | registration changes the top (back) layer only |
| EvalPlans.EvalPlan.Register | src/evaluate/facilities/eval_plan.h:208-214 | files the unit in the top layer only, as `RegisterSpec` says, keeping the plan valid |
| EvalPlans.EvalPlan.RegisterAll | src/evaluate/facilities/eval_plan.h:208-214 | the registrations a unit makes while it runs are filed in order in the top layer, and nowhere else |
| EvalPlans.EvalPlan.ProcessUnit | src/evaluate/facilities/eval_plan.h:304 | `Process` on a unit drawn from below the top layer: it succeeds exactly when the unit was `Ready` (operand evaluated, output not yet); on success the unit is `Evaluated` and the top layer's view becomes that view with the unit's registrations filed in order (`RegisterSeq`); on failure the error is the unit's own (`Failure`: "Data is not evaluated." for an unevaluated operand, "Data is already evaluated." otherwise); no other layer changes; every unit evaluated before stays evaluated |
| EvalPlans.EvalPlan.TakeUnit | src/evaluate/facilities/eval_plan.h:302 | `GetEvalUnit()` on the group at depth i and kind k: the queue loses exactly its front unit, which is returned, or none when empty; no layer changes otherwise |
| EvalPlans.EvalPlan.RunNext | src/evaluate/facilities/eval_plan.h:302-305 | one turn of the `while`: on an empty queue it yields none, runs nothing and leaves the layer above as it was; otherwise it yields the front unit and removes it, and on success that unit is `Evaluated` and its registrations are filed above; a failure is one of the two exceptions a unit throws (`UnitError`) |
| EvalPlans.EvalPlan.DrainNextUnit | src/evaluate/facilities/eval_plan.h:302-305 | after the first n units of the queue have run, one more turn: either the queue was empty and all of it has run, or unit n has run; the units run so far are `Evaluated` and the layer above holds their registrations in queue order; a failure is one of the two exceptions a unit throws (`UnitError`) |
| EvalPlans.EvalPlan.DrainQueue | src/evaluate/facilities/eval_plan.h:302-305 | the `while` empties the queue: on success every unit of it is `Evaluated` and the layer above holds their registrations in queue order; a failure is one of the two exceptions a unit throws (`UnitError`) |
| EvalPlans.EvalPlan.DrainGroup | src/evaluate/facilities/eval_plan.h:302-305 | on success the group's queue is empty, the trace is its units front to back, each unit is `Evaluated`, the layer above holds their registrations in that order, and no other queue or layer changed; a failure is one of the two exceptions a unit throws (`UnitError`) |
| EvalPlans.EvalPlan.DrainGroupIn | src/evaluate/facilities/eval_plan.h:300-306 | drains group k of a cluster whose groups `done` are already drained: on success k is drained too, its units are `Evaluated` and their registrations are filed above; a failure is one of the two exceptions a unit throws (`UnitError`) |
| EvalPlans.EvalPlan.DrainNextGroup | src/evaluate/facilities/eval_plan.h:300-306 | one turn of the `for (auto& eg : ec)`: the groups drained so far, in `order`, are extended by k, and all units run so far are `Evaluated`; a failure is one of the two exceptions a unit throws (`UnitError`) |
| EvalPlans.EvalPlan.DrainEachGroup | src/evaluate/facilities/eval_plan.h:298-306 | the loop visits every group kind of the cluster once, and on success every unit run is `Evaluated`; a failure is one of the two exceptions a unit throws (`UnitError`) |
| EvalPlans.EvalPlan.DrainCluster | src/evaluate/facilities/eval_plan.h:297-306 | every group of the cluster is drained, each once, in some order of its kinds; the trace is those groups' units in that order, every one `Evaluated`; the layer above holds their registrations in that order; every queue of the depth is empty and no other layer changed; a failure is one of the two exceptions a unit throws (`UnitError`) |
| EvalPlans.EvalPlan.DrainDepth | src/evaluate/facilities/eval_plan.h:296-313 | one turn of the depth loop: the cluster is drained in some order of its kinds, then the barrier, then the nested drain of exactly what the cluster registered (`SpawnView`); every unit run, nested ones included, is `Evaluated`, and depth i joins the depths drained; a failure is one of the two exceptions a unit throws (`UnitError`) |
| EvalPlans.EvalPlan.SyncDepth | src/evaluate/facilities/eval_plan.h:307-313 | after the barrier, a non-empty layer above is drained by a nested `DoLayerEval` (exactly the layer the depth left) and emptied; an empty one is left alone; every unit the nested drain runs is `Evaluated`; a failure is one of the two exceptions a unit throws (`UnitError`) |
| EvalPlans.EvalPlan.DrainNextDepth | src/evaluate/facilities/eval_plan.h:294-313 | the depths drained so far, with their visiting orders and nested drains, are extended by depth i, and the trace by its units, its barrier and its nested trace; a failure is one of the two exceptions a unit throws (`UnitError`) |
| EvalPlans.EvalPlan.DrainDepths | src/evaluate/facilities/eval_plan.h:294-313 | the `for` loop drains all depths in order: on success the trace is `LayerTrace` of the layer, every unit in it `Evaluated`; a failure is one of the two exceptions a unit throws (`UnitError`) |
| EvalPlans.EvalPlan.DrainLayer | src/evaluate/facilities/eval_plan.h:282-319 | on a non-empty top layer, on success: the stack height is as before, the layer is empty, the trace is the `DrainTrace` of a complete `Drain` of the layer, and every unit in it is `Evaluated`; a failure is one of the two exceptions a unit throws (`UnitError`) |
| EvalPlans.EvalPlan.OpenLayer | src/evaluate/facilities/eval_plan.h:290 | pushes exactly one empty layer on the stack and writes no cell |
| EvalPlans.EvalPlan.CloseLayer | src/evaluate/facilities/eval_plan.h:315-318 | pops the pushed layer and clears the drained one, writing no cell |
| EvalPlans.EvalPlan.DoLayerEval | src/evaluate/facilities/eval_plan.h:282-319 | on an empty top layer nothing happens; otherwise, on success, the stack height is as before, the layer is empty, the trace is the depth-by-depth `DrainTrace` with its barriers and nested drains, and every unit it ran is `Evaluated`; a failure is one of the two exceptions a unit throws (`UnitError`) |
| EvalPlans.EvalPlan.SelectPool | src/evaluate/facilities/eval_plan.h:227-237 | stores the chosen pool and records the global choice as the thread's |
| EvalPlans.EvalPlan.RefreshPool | src/evaluate/facilities/eval_plan.h:224-243 | the pool is looked up again exactly when the thread's choice differs from the global one or no pool is held, and is kept otherwise; afterwards a pool is held, so the "No Evaluation Pool is available." throw cannot fire; no unit's evaluation changes |
| EvalPlans.EvalPlan.Eval | src/evaluate/facilities/eval_plan.h:219-247 | the pool is refreshed when the thread's choice differs from the global one or no pool is held; then the top layer is drained as `DoLayerEval` states; on success every unit queued in the top layer (`AllEvaluated`) is `Evaluated`, and so is every unit evaluated before; a failure is one of the two exceptions a unit throws (`UnitError`) |
| EvalPlans.EvalPlan.RegisterAndEval | src/evaluate/facilities/eval_plan.h:334-345 | a registration under a new, non-null output, followed by `Eval`: when `Eval` succeeds the registered unit is `Evaluated`; a failure is one of the two exceptions a unit throws (`UnitError`) |
| EvalPlans.RegisteredQueued | src/evaluate/facilities/eval_plan.h:111-140 | a registration under a new output is queued in the layer, so if every queued unit is evaluated, so is it |
| EvalPlans.QueuedEvaluated | src/evaluate/facilities/eval_plan.h:294-313 | a drain whose trace has every unit evaluated leaves every unit queued in the layer evaluated, and every unit each depth registered |
| EvalPlans.DrainSchedule | src/evaluate/facilities/eval_plan.h:294-313 | a complete drain is a `Schedule` of its layer (orders over each depth's kinds, nested traces being the nested drains'), and every event of it is on its layer or a deeper one |
| EvalPlans.DrainRunsQueued | src/evaluate/facilities/eval_plan.h:294-306 | every unit queued in the layer appears as processed, at its depth, in the drain's trace |
| EvalPlans.DrainRunsSpawned | src/evaluate/facilities/eval_plan.h:307-313 | every unit a depth registered is processed, on the layer above, within the same trace |
| EvalPlans.GroupSpawns | src/evaluate/facilities/eval_plan.h:302-305 | draining a group registers its units' registrations in queue order |
| EvalPlans.SpawnMore | src/evaluate/facilities/eval_plan.h:300-306 | filing the registrations of two runs one after the other equals filing those of the concatenated run |
| EvalPlans.EventsEvaluatedAppend | src/evaluate/facilities/eval_plan.h:294-313 | joining two traces whose units are all evaluated gives one whose units are all evaluated |
| AbsCalculators.MatrixRegistration | src/operators/abs.h:125-133 | the output id is the result handle's `DataPtr`, the single dependency is the operand's `DataPtr`, and the unit wraps both |
| AbsCalculators.BatchRegistration | src/operators/abs.h:125-133 | the same for a batch operand |
| AbsCalculators.RegisteredAfterOperand | src/operators/abs.h:129-133 | a result already registered is ignored; otherwise it lands one depth below its operand, or at depth 0 when the operand is not produced in the layer, as the last unit of its group |
| AbsCalculators.EvalRegisterMatrix | src/operators/abs.h:116-134 | one registration with the plan's top layer, whose effect is `RegisterSpec` of `MatrixRegistration` |
| AbsCalculators.EvalRegisterBatch | src/operators/abs.h:116-134 | the same for a batch operand |
| AbsCalculators.MatrixHolds | src/operators/abs.h:26-55 | once the matrix unit is evaluated, its output is published and is the absolute value of the evaluated operand |
| AbsCalculators.BatchHolds | src/operators/abs.h:74-106 | the same for the batch unit |
| AbsCalculators.EvaluateMatrix | src/evaluate/facilities/eval_plan.h:334-345 | `Evaluate(abs(x))`: a result read is the published cell; when this call registered the result (it was not already an output of the layer), a result read is the absolute value of the operand; a failure is one of the two exceptions a unit or a read of an unevaluated result throws (`UnitError`) |
| AbsCalculators.EvaluateBatch | src/evaluate/facilities/eval_plan.h:334-345 | the same for a batch operand; a failure is one of the two exceptions a unit or a read of an unevaluated result throws (`UnitError`) |
| Abs.NewMatrix | src/operators/abs.h:32 | the output is allocated with the operand's row and column counts, contiguously |
| Abs.NewBatch | src/operators/abs.h:81 | the batch output has the operand's batch, row and column counts |
| Abs.OffsetInRange | src/operators/abs.h:45-53 | the strided cursor of element (i, j) stays inside the rows allocated |
| Abs.AbsRow | src/operators/abs.h:47-50 | the inner loop writes the absolute value of each element of the row and nothing else |
| Abs.AbsRows | src/operators/abs.h:45-53 | for every `i < rowNum` and `j < colNum`, the output element is the absolute value of the operand element, both cursors advancing by their own row stride |
| Abs.EvalMatrix | src/operators/abs.h:26-55 | succeeds iff the operand is evaluated and the output is not; it then publishes the absolute value of the operand; a failure leaves the output cell unchanged and reports "Data is not evaluated." or "Data is already evaluated." |
| Abs.EvalBatch | src/operators/abs.h:74-106 | the same, with every matrix of the batch transformed |
| Abs.AbsNonNegative | src/operators/abs.h:49 | every element of a published absolute value is non-negative |
| Abs.AbsIdempotent | src/operators/abs.h:49 | the absolute value of an absolute value is itself |
| Abs.AbsBatchIdempotent | src/operators/abs.h:84-104 | the same for batches |
| Tensors.FlatBound | src/tensor/tensor.hpp:22-30 | the flat index of an in-bounds index is below the product of the shape |
| Tensors.FlatInjective | src/tensor/tensor.hpp:22-30 | distinct in-bounds indices have distinct flat indices |
| Tensors.UnflatRoundTrip | src/tensor/tensor.hpp:22-30 | every flat position below the product is the flat index of exactly one in-bounds index (the row-major inverse) |
| Tensors.FlatUnflat | src/tensor/tensor.hpp:22-30 | unflattening a flat index gives back the index |
| Tensors.Flat2 | src/tensor/tensor.hpp:22-30 | in two dimensions the flat index is `i * m + j` |
| Tensors.Tensor.FlatIndex | src/tensor/tensor.hpp:22-30 | the loop from the last dimension computes the row-major flat index |
| Tensors.Tensor.Empty | src/tensor/tensor.hpp:14 | the default tensor has an all-zero shape and no elements; its size matches its shape iff it has a dimension |
| Tensors.Tensor.constructor | src/tensor/tensor.hpp:33-36 | allocates exactly the product of the shape, value-initialised |
| Tensors.FromData | src/tensor/tensor.hpp:38-42 | fails with invalid_argument "Data size does not match shape" iff the data size is not the product of the shape; otherwise the tensor holds exactly the data |
| Tensors.Tensor.Get | src/tensor/tensor.hpp:75-77 | returns the element at the flat index |
| Tensors.Tensor.Set | src/tensor/tensor.hpp:71-73 | writes the element at the flat index and nothing else |
| Tensors.SetOne | src/tensor/tensor.hpp:71-73 | after a write through `operator()`, that index reads the new value and every other in-bounds index is unchanged |
| Tensors.Tensor.RowTimesColumn | src/tensor/tensor.hpp:51-54 | the `k` loop sums `a(i,k) * b(k,j)` over k |
| Tensors.Tensor.FillRow | src/tensor/tensor.hpp:50-56 | row i of the result holds the dot products and other rows are unchanged |
| Tensors.Plane | src/tensor/tensor.hpp:53 | the index `{i, j}` of a `Dim`-dimensional tensor: i and j first, then zeros to length `Dim` |
| Tensors.Tensor.MatMul | src/tensor/tensor.hpp:44-59 | fails with "Invalid dimensions for matrix multiplication" iff the inner dimensions differ; otherwise the fresh result has shape `{n, p}` and `r(i,j) = sum_k a(i,k) * b(k,j)`, written `a(Plane(i,k))`, which on a matrix is `a(i,k)` |
| Tensors.Tensor.Transpose | src/tensor/tensor.hpp:61-69 | for any `Dim >= 2`, the fresh result has shape `{shape[1], shape[0]}` and `r(j,i) = a(Plane(i,j))`, the element at `{i, j}` with the further components 0 |
| Tensors.TransposeTwice | src/tensor/tensor.hpp:61-69 | transposing twice gives shape `{shape[0], shape[1]}` and `r(i,j) = a(Plane(i,j))`; on a matrix it restores the shape and every element |
| Tensors.Tensor.Elementwise | src/tensor/tensor.hpp:110-144 | fails with invalid_argument "Tensor shapes do not match" iff the shapes differ; otherwise the fresh same-shape result holds `a[i] op b[i]` at every i and the operands are unchanged |
| Tensors.TruncDivRounds | src/tensor/tensor.hpp:137-143 | integer `/` rounds toward zero: the remainder is smaller than the divisor and has the dividend's sign |
| Tensors.TruncDivOfProduct | src/tensor/tensor.hpp:137-143 | `(x * y) / y == x` for a non-zero y |
| Tensors.ZipUndo | src/tensor/tensor.hpp:110-144 | subtracting undoes adding, and dividing by non-zero elements undoes multiplying |
| AdvancedTensors.ComputeBroadcastShape | src/tensor/tensor_advanced.hpp:58-67 | the loop from the right computes the right-aligned broadcast shape |
| AdvancedTensors.BroadcastShapeFromRight | src/tensor/tensor_advanced.hpp:58-67 | the broadcast shape has length `max(D1, D2)` and entry i from the right is the maximum of the two dims at i from the right, a missing dim counting as 1 |
| AdvancedTensors.BroadcastShapeSymmetric | src/tensor/tensor_advanced.hpp:58-67 | broadcasting is commutative, and a shape broadcast with itself is itself |
| AdvancedTensors.BroadcastShapeExample | test/tensor_test.cpp:17-20 | `{2,3}` broadcast with `{3}` is `{2,3}` |
| AdvancedTensors.AdjustedIndex | src/tensor/tensor_advanced.hpp:88-91 | the adjusted index (trailing components taken modulo the shape) is in bounds |
| AdvancedTensors.GetValueTrailing | src/tensor/tensor_advanced.hpp:87-93 | `get_value(t, index, D)` on an index of higher rank whose last D components lie in t's shape reads t at those components |
| AdvancedTensors.GetValueInShape | src/tensor/tensor_advanced.hpp:87-93 | an index already in bounds reads the element itself |
| AdvancedTensors.BroadcastFill | src/tensor/tensor_advanced.hpp:69-84 | the recursion writes every result index extending the current prefix with the sum of the two operand reads, and leaves the others unchanged |
| AdvancedTensors.FillSlice | src/tensor/tensor_advanced.hpp:80-83 | one turn of the loop fills the slice with component `dim` fixed and leaves the rest unchanged |
| AdvancedTensors.BroadcastAdd | src/tensor/tensor_advanced.hpp:21-31 | the fresh result has the broadcast shape, and every index of it holds `get_value(t1) + get_value(t2)` |
| AdvancedTensors.BroadcastMatrixRow | test/tensor_test.cpp:22-26 | broadcasting a row over a matrix gives `r(i,j) = t1(i,j) + t2(j)` |
| AdvancedTensors.BroadcastSameShape | src/tensor/tensor_advanced.hpp:69-93 | with equal shapes, broadcast add is plain elementwise addition |
| AdvancedTensors.OptimizeInPlace | src/tensor/tensor_advanced.hpp:96-202 | fails with invalid_argument naming the operation iff the shapes differ, before any element changes; otherwise `this[i] = old[i] op other[i]` for every i, and a separate `other` is unchanged |
| AdvancedTensors.FirstZero | src/tensor/tensor_advanced.hpp:227-233 | the position of the first zero divisor: all divisors before it are non-zero |
| AdvancedTensors.OptimizeDiv | src/tensor/tensor_advanced.hpp:204-235 | fails with invalid_argument on a shape mismatch without change; otherwise divides element by element up to the first zero divisor, then fails with runtime_error "Division by zero encountered", leaving the elements from there on untouched |
| AdvancedTensors.MulThenDivRestores | src/tensor/tensor_advanced.hpp:168-235 | in-place multiplication followed by in-place division by the same non-zero tensor restores the original and does not fail |

## Left out

- Thread-local and static state (`ThreadInst`, `ThreadEvalPool`, `GlobalEvalPool`, `TrivalEvalPool::Instance`) is passed explicitly: the plan object, an `EvalPoolSetting` object for the global choice, and a `TrivalEvalPools` object holding the two singletons.
- Concurrency is not modelled: every plan belongs to one thread, and the only pool runs units synchronously.
- The `default: assert(false)` branch of `Eval` and the "No Evaluation Pool is available." throw cannot be reached, because `EvalPoolEnum` has only `Trival`. The model proves that a pool is always held and has no such branch.
- `Evaluate` (src/evaluate/facilities/eval_plan.h:334-345) is modelled only for `abs` of an operand handle that is already at hand (`AbsCalculators.EvaluateMatrix`, `AbsCalculators.EvaluateBatch`). The operand's own `EvalRegister` comes from data types that are not part of this model.
- AbsCalculators.EvaluateMatrix, AbsCalculators.EvaluateBatch: the absolute-value property is stated only when the call itself registered the result. A result already registered keeps the unit registered first, and that unit may be any unit.
- `BaseEvalUnit`, `BaseEvalGroup` and `BaseEvalPool` are interfaces. Units are a closed datatype instead: the two `Abs` units, plus `Scheduling`, which stands for a unit whose `Eval` runs a body and, once the body has succeeded, registers further work. A C++ unit that registers work and then throws is not covered: in the model a failing unit registers nothing. Only `TrivalEvalGroup` and `TrivalEvalPool` exist as groups and pools.
- The `unordered_map` iteration order over a cluster is not fixed. The model proves its properties for every order.
- `EvalPlans.EvalPlan.DoLayerEval` works on the back (top) layer, pushes a layer above it and recurses on that layer, exactly as the code does.
- `EvalLayer::m_operands` is declared and cleared but never written. The model keeps the field, and it stays empty.
- `OperandDepth` returns `(size_t)-1` when no operand is recorded, and the caller adds 1 so that the addition wraps to 0. The model returns the integer -1 and adds 1 without wrap-around. The result is the same.
- `EvalPlans.EvalPlan.DoLayerEval`, `EvalPlans.EvalPlan.Eval`: when a unit throws, the call returns at once without popping or clearing, as the exception would. On that path the contract states that the error is one a unit throws (`UnitError`), that the plan stays valid, that its queued work stays bounded and that every unit evaluated before stays evaluated. It does not state which units ran before the failing one, nor which unit failed.
- `Barrier` does nothing in both pools; the model states that it writes no cell. The `Synced` trace events record where it is called.
- `LowerAccess`, `Matrix` and `Batch` are not part of this model. A matrix is its row count, column count, row stride and element sequence. A batch is a sequence of same-shape matrices.
- `Abs` has only the CPU units; the GPU has none in the source. The model has unit kinds only for `Matrix` and `BatchMatrix`, which are the only categories `OperAbs_::valid` admits. The expression-template `UnaryOp` wrapper is not modelled.
- Element types are modelled as `int` (unbounded). This leaves out:
  - fixed-width overflow, including `INT_MIN / -1` and the wrap-around of the 32-bit SIMD multiply;
  - `size_t` overflow of shape products;
  - `std::accumulate` reducing a `size_t` product through an `int` initial value;
  - floating point.
- The `_mm256_*` blocks of `optimize_*` work on float and double, which are not modelled. The `_mm_*` blocks are the `int` branches of `optimize_add`, `optimize_sub` and `optimize_mul` (src/tensor/tensor_advanced.hpp:118-125, 154-161, 190-197). Four lanes at a time, they compute the same elementwise sum, difference or product as the scalar loop that follows, except for 32-bit wrap-around, which the unbounded `int` leaves out. The model therefore runs the scalar loop over the whole buffer. The `int` path of `optimize_div` has no SIMD block and checks every divisor. The float and double SIMD division does not check for zero.
- `optimized_add/sub/mul/div` (src/tensor/tensor_advanced.hpp:33-54) call a three-argument `optimize_*` that does not exist, so they are not modelled.
- `Tensor::save` and `Tensor::load` perform file I/O and are not modelled.
- A plain `ConstEvalHandle<TData>` copies its value, so in C++ each copy of such a handle has its own `DataPtr()` (src/evaluate/facilities/eval_handle.h:101-105, 175-189, 237-238). In the model every copy of one `PlainConst` refers to one `ConstStorage` and so has one `DataPtr()`. The difference cannot reach the scheduler, because plain storage is never a registered output: `Calculator::EvalRegister` (src/operators/abs.h:125-132) registers the result handle's cell as the output, and an operand pointer that is no output is ignored by `OperandDepth`.
- Tensors.Tensor.MatMul: the C++ member compiles only for `Dim == 2`, because it reads `other.shape_`, which is private to `Tensor<T, 2>` (src/tensor/tensor.hpp:19-20, 45, 48). The model states the same computation for any `PlaneShape` shape; its case `Dim > 2` has no counterpart in the source.
- Tensors.Tensor.MatMul, Tensors.Tensor.Transpose: require `PlaneShape`. When a trailing extent beyond the first two is 0 and the plane is not empty, the C++ reads `{i, j}` at an out-of-range position, which is undefined behaviour. For `Dim < 2` the index `{i, j}` does not fit a `std::array<size_t, Dim>`, so those instantiations do not compile, and the model excludes them too.
- Tensor copies share `data_ptr_`. The model's tensors share their `data` array the same way. Results are fresh arrays, and `OptimizeInPlace` allows the operand to alias `this`.
- Tensors.Tensor.Get, Tensors.Tensor.Set and Tensors.SetOne require an index whose flat position is in range. Out-of-range `operator()` is undefined behaviour in C++.
- Tensors.Tensor.Elementwise requires non-zero divisors for `/`, because integer division by zero is undefined behaviour in C++.
- AdvancedTensors.BroadcastAdd requires positive operand dimensions whenever the result is non-empty, because `get_value` takes `% t.shape()[i]`, which is undefined for 0. When the result is empty nothing is read, and the model asks nothing.
- Broadcasting performs no compatibility check, in the source and in the model: incompatible dimensions are read modulo the operand's size.
- `Tensors.Tensor.Empty`: the default tensor with no dimension has a shape product of 1 but an empty buffer, so reading it is out of range. The model states exactly this mismatch (`Valid()` iff there is a dimension).
- `tensor_multithreading.hpp`, `autograd.hpp`, `scalar.h`, the compile-time tag and policy headers, and the tests and benchmarks are not part of this model. The tests serve only as the source of some stated properties.
