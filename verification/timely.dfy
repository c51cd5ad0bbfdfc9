/** Completions are recorded before a job moves on. A unit stays busy one
    step past its job's completion time (`c_idle = c + 1`, lines 156 and
    200), and the completion check runs before the idle check (lines 124
    and 134). With durations of at least one step, every job therefore has
    its completion at a unit recorded, and at the last unit is marked done,
    before the unit releases it. */
module Timeliness {
  import opened Wrappers
  import opened Seqs
  import opened Shop
  import opened Transition
  import opened Choice
  import opened ResolveSpec
  import opened FlowSpec
  import opened DispatchSpec
  import opened Invariants

  /** Every operation takes at least one time step. */
  ghost predicate PositiveDurations(inst: Instance)
  {
    forall j, q, i :: inst.delta(j, q, i) >= 1
  }

  /** Unit q holds job j whose completion time has passed before z: it was
      recorded in `c_q`, and at the last unit the job is done. */
  predicate Recorded(inst: Instance, e: Engine, q: nat, u: Unit, z: nat)
    requires WellFormed(inst, e) && q < inst.GV && UnitWellFormed(inst, u)
  {
    u.processing.Some? && u.c.Some? ==>
      var j := u.processing.value;
      u.c.value >= z
      || (u.c.value == z - 1 && e.jobs.sched.cq[j][q] == z - 1 && (q == inst.GV - 1 ==> e.jobs.done[j]))
  }

  /** At the start of step z, every busy unit either has not reached its
      completion time yet or reached it at z - 1 and recorded it. */
  predicate Timely(inst: Instance, e: Engine, z: nat)
    requires WellFormed(inst, e)
  {
    forall i, q :: 0 <= i < inst.LV && 0 <= q < inst.GV ==> Recorded(inst, e, q, e.resources[i].units[q], z)
  }

  /** A reset engine holds no job. */
  lemma ResetTimely(inst: Instance, e: Engine)
    requires Shaped(inst, e)
    ensures Timely(inst, Reset(inst, e), 0)
  {
  }

  /** Release after recording: when a unit reaches its idle time holding a
      job, the job's completion at that unit was recorded one step
      earlier, and a job leaving the last unit is done. */
  lemma ReleasedRecorded(inst: Instance, e: Engine, z: nat, i: nat, q: nat)
    requires Consistent(inst, e, z) && Timely(inst, e, z)
    requires i < inst.LV && q < inst.GV
    requires e.resources[i].units[q].cIdle == Some(z) && e.resources[i].units[q].processing.Some?
    ensures var j := e.resources[i].units[q].processing.value;
      && e.jobs.sched.cq[j][q] == z - 1
      && (q == inst.GV - 1 ==> e.jobs.done[j])
  {
    assert TimersOk(e.resources[i].units[q], z);
    assert Recorded(inst, e, q, e.resources[i].units[q], z);
  }

  /** Resolution at z keeps unit k of resource m timely for step z + 1. */
  lemma ResolveTimelyAt(inst: Instance, e: Engine, z: nat, m: nat, k: nat)
    requires Consistent(inst, e, z) && Timely(inst, e, z)
    requires Resolve(inst, e, z).Ok?
    requires m < inst.LV && k < inst.GV
    ensures var e1 := Resolve(inst, e, z).value;
      Recorded(inst, e1, k, e1.resources[m].units[k], z + 1)
  {
    var e1 := Resolve(inst, e, z).value;
    ResolveFromUnit(inst, z, 0, e, m, k);
    var u := e.resources[m].units[k];
    assert TimersOk(u, z);
    var u1 := e1.resources[m].units[k];
    if u1.processing.Some? && u1.c.Some? && u1.c.value < z + 1 {
      var j := u1.processing.value;
      assert Finishes(e.resources[m], k, z, j);
      ResolveFromCell(inst, z, 0, e, j, k);
      ResolveFromJob(inst, z, 0, e, j);
    }
  }

  lemma ResolveTimely(inst: Instance, e: Engine, z: nat)
    requires Consistent(inst, e, z) && Timely(inst, e, z)
    ensures Resolve(inst, e, z).Ok?
    ensures Timely(inst, Resolve(inst, e, z).value, z + 1)
  {
    ResolveConsistent(inst, e, z);
    forall m, k | 0 <= m < inst.LV && 0 <= k < inst.GV
      ensures Recorded(inst, Resolve(inst, e, z).value, k, Resolve(inst, e, z).value.resources[m].units[k], z + 1)
    {
      ResolveTimelyAt(inst, e, z, m, k);
    }
  }

  /** Flow starts jobs that complete at z + 1 or later and keeps the
      completion records. */
  lemma FlowTimely(inst: Instance, e: Engine, z: nat)
    requires WellFormed(inst, e) && Timely(inst, e, z + 1) && PositiveDurations(inst)
    ensures Timely(inst, Flow(inst, e, z), z + 1)
  {
    var e2 := Flow(inst, e, z);
    FlowFromKeeps(inst, z, 0, e);
    forall m, k | 0 <= m < inst.LV && 0 <= k < inst.GV
      ensures Recorded(inst, e2, k, e2.resources[m].units[k], z + 1)
    {
      FlowFromUnit(inst, z, 0, e, m, k);
      assert Recorded(inst, e, k, e.resources[m].units[k], z + 1);
    }
  }

  /** Dispatch starts jobs that complete at z + 1 or later and keeps the
      completion records. */
  lemma DispatchTimely(inst: Instance, p: Policy, z: nat, order: seq<nat>, e: Engine)
    requires WellFormed(inst, e) && Timely(inst, e, z + 1) && PositiveDurations(inst)
    requires IsOrder(order, inst.LV)
    requires DispatchFrom(inst, p, z, order, 0, e).Ok?
    ensures Timely(inst, DispatchFrom(inst, p, z, order, 0, e).value, z + 1)
  {
    var e3 := DispatchFrom(inst, p, z, order, 0, e).value;
    DispatchFromKeeps(inst, p, z, order, 0, e);
    forall m, k | 0 <= m < inst.LV && 0 <= k < inst.GV
      ensures Recorded(inst, e3, k, e3.resources[m].units[k], z + 1)
    {
      DispatchFromUnits(inst, p, z, order, 0, e, m, k);
      assert Recorded(inst, e, k, e.resources[m].units[k], z + 1);
    }
  }

  /** With positive durations a step keeps a consistent engine timely. */
  lemma StepTimely(inst: Instance, p: Policy, order: seq<nat>, e: Engine, z: nat)
    requires Consistent(inst, e, z) && Timely(inst, e, z) && PositiveDurations(inst)
    requires IsOrder(order, inst.LV)
    ensures Step(inst, p, order, e, z).Ok?
    ensures Timely(inst, Step(inst, p, order, e, z).value.0, z + 1)
  {
    StepConsistent(inst, p, order, e, z);
    ResolveTimely(inst, e, z);
    var e1 := Resolve(inst, e, z).value;
    if !AllTrue(e1.jobs.done) {
      FlowTimely(inst, e1, z);
      ResolveConsistent(inst, e, z);
      FlowConsistent(inst, e1, z);
      DispatchConsistent(inst, p, z, order, Flow(inst, e1, z));
      DispatchTimely(inst, p, z, order, Flow(inst, e1, z));
    }
  }

  /** Why durations must be positive: a later unit that starts a job of
      duration 0 at z completes it at z, after this step's completion
      check, so at z + 1 it is released with the completion unrecorded. */
  lemma ZeroDurationUntimely(inst: Instance, e: Engine, z: nat, i: nat)
    requires WellFormed(inst, e) && i < inst.LV && 2 <= inst.GV
    requires Ready(e.resources[i].units[1])
    requires var j := e.resources[i].units[1].queue[0];
      inst.delta(j, 1, i) == 0 && e.jobs.sched.cq[j][1] != z
    ensures !Timely(inst, Flow(inst, e, z), z + 1)
  {
    var e2 := Flow(inst, e, z);
    FlowFromUnit(inst, z, 0, e, i, 1);
    FlowFromKeeps(inst, z, 0, e);
    assert !Recorded(inst, e2, 1, e2.resources[i].units[1], z + 1);
  }
}
