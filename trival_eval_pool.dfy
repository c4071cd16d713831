/** `TrivalEvalPool<TDevice>` (src/evaluate/processor/trival_eval_pool.h)
    and `EvalPoolEnum` (src/evaluate/facilities/eval_pool.h): the backend
    that runs every unit synchronously on the calling thread. */
module EvalPools {
  import opened Wrappers
  import opened EvalUnits

  datatype Device = CPU | GPU

  datatype EvalPoolEnum = Trival

  class TrivalEvalPool {
    const device: Device

    constructor (d: Device)
      ensures device == d
    {
      device := d;
    }

    /** `Process(eu)`: `eu->Eval()`, once, before returning; the same on
        both devices.  Work evaluated before stays evaluated. */
    method Process(u: Unit) returns (r: Outcome, spawned: seq<Registration>)
      modifies OutM(u), OutB(u)
      ensures r.Pass? <==> old(Ready(u))
      ensures r.Pass? ==> spawned == Spawns(u) && Evaluated(u)
      ensures r.Fail? ==> spawned == [] && r.error == old(Failure(u))
      ensures forall w :: old(allocated(w)) && old(Evaluated(w)) ==> Evaluated(w)
    {
      r, spawned := Run(u);
    }

    /** `Barrier()`: every unit already ran inside `Process`, so there is
        nothing to wait for, and it writes no cell. */
    method Barrier()
      ensures forall w :: old(allocated(w)) && old(Evaluated(w)) ==> Evaluated(w)
    {
    }
  }

  /** The two function-local statics behind `TrivalEvalPool<CPU>::Instance()`
      and `TrivalEvalPool<GPU>::Instance()`. */
  class TrivalEvalPools {
    const cpu: TrivalEvalPool
    const gpu: TrivalEvalPool

    /** Each static holds the pool of its own device. */
    predicate Valid()
    {
      cpu.device == CPU && gpu.device == GPU
    }

    constructor ()
      ensures Valid()
      ensures fresh(cpu) && fresh(gpu)
    {
      cpu := new TrivalEvalPool(CPU);
      gpu := new TrivalEvalPool(GPU);
    }

    /** `Instance()`: the device's one pool object. */
    function Instance(d: Device): (p: TrivalEvalPool)
      requires Valid()
      ensures p.device == d
    {
      if d == CPU then cpu else gpu
    }
  }
}
