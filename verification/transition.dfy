/** One time step of the simulation, MDP.step (MDP.py lines 115-205), as a
    pure function of the engine, split into its phases:
      1. penalty and completion resolution (lines 117-139),
      2. the termination check (lines 142-143),
      3. FIFO flow between the later units (lines 146-157),
      4. policy dispatch at idle first units (lines 161-203). */
module Transition {
  import opened Wrappers
  import opened Seqs
  import opened Shop
  import opened Choice

  /** `max(z - D, 0)`: how late a job finished at time z with due date d is. */
  function Tardiness(z: int, d: int): (r: int)
    ensures r >= 0
    ensures r == 0 <==> z <= d
    ensures r > 0 ==> r == z - d
  {
    if z - d > 0 then z - d else 0
  }

  /** Lines 124-132: unit q reaches its completion time z with job j. The
      completion time at the unit is recorded; at the last unit the job is
      also done, with its completion time and tardiness. */
  function RecordCompletion(inst: Instance, b: Jobs, z: nat, q: nat, j: JobId): (b': Jobs)
    requires JobsShaped(inst, b) && q < inst.GV && j < inst.N
    ensures JobsShaped(inst, b')
  {
    var s := b.sched;
    var cq := Set2(s.cq, j, q, z);
    if q == inst.GV - 1 then
      Jobs(b.done[j := true], s.(cq := cq, c := s.c[j := z], T := s.T[j := Tardiness(z, s.due[j])]))
    else
      b.(sched := s.(cq := cq))
  }

  /** Lines 134-139: unit q becomes idle and, unless it is the last unit,
      hands its job to the end of the next unit's queue. */
  function Release(inst: Instance, r: Resource, q: nat): (r': Resource)
    requires ResourceWellFormed(inst, r) && q < inst.GV
    requires r.units[q].processing.Some?
    ensures ResourceWellFormed(inst, r')
  {
    var u := r.units[q];
    var r1 := WithUnit(inst, r, q, u.(processing := None));
    if q + 1 < inst.GV then WithUnit(inst, r1, q + 1, r1.units[q + 1].(queue := r1.units[q + 1].queue + [u.processing.value]))
    else r1
  }

  /** A timer fires on a unit that holds no job: Python reads `None.j` at
      line 126, or hands `None` on at line 139 and fails when it is popped. */
  predicate Stale(inst: Instance, u: Unit, q: nat, z: nat)
  {
    u.processing.None? && (u.c == Some(z) || (u.cIdle == Some(z) && q + 1 < inst.GV))
  }

  /** Lines 124-139 for unit q of resource r: the completion, if due, goes
      to the jobs record, and the release, if due, to the resource. */
  function ResolveUnit(inst: Instance, z: nat, q: nat, r: Resource, b: Jobs): (x: (Resource, Jobs))
    requires ResourceWellFormed(inst, r) && JobsShaped(inst, b) && q < inst.GV
    requires !Stale(inst, r.units[q], q, z)
    ensures ResourceWellFormed(inst, x.0) && JobsShaped(inst, x.1)
  {
    var u := r.units[q];
    (if u.cIdle == Some(z) && u.processing.Some? then Release(inst, r, q) else r,
     if u.c == Some(z) then RecordCompletion(inst, b, z, q, u.processing.value) else b)
  }

  /** Lines 122-139 for units q .. GV-1 of resource i, in order. */
  function ResolveUnits(inst: Instance, z: nat, i: nat, q: nat, r: Resource, b: Jobs)
    : (x: Result<(Resource, Jobs), StepError>)
    requires ResourceWellFormed(inst, r) && JobsShaped(inst, b) && q <= inst.GV
    ensures x.Ok? ==> ResourceWellFormed(inst, x.value.0) && JobsShaped(inst, x.value.1)
    decreases inst.GV - q
  {
    if q == inst.GV then Ok((r, b))
    else if Stale(inst, r.units[q], q, z) then Err(MissingJob(i, q))
    else
      var y := ResolveUnit(inst, z, q, r, b);
      ResolveUnits(inst, z, i, q + 1, y.0, y.1)
  }

  /** Lines 117-139 for resources i .. LV-1: the timestep penalty, then
      completion resolution of the resource's units. */
  function ResolveFrom(inst: Instance, z: nat, i: nat, e: Engine): (x: Result<Engine, StepError>)
    requires WellFormed(inst, e) && i <= inst.LV
    ensures x.Ok? ==> WellFormed(inst, x.value) && x.value.pool == e.pool
    decreases inst.LV - i
  {
    if i == inst.LV then Ok(e)
    else
      var res := e.resources[i];
      match ResolveUnits(inst, z, i, 0, res.(reward := res.reward - 1), e.jobs)
      case Err(err) => Err(err)
      case Ok(y) => ResolveFrom(inst, z, i + 1, WithResourceJobs(inst, e, i, y.0, y.1))
  }

  function Resolve(inst: Instance, e: Engine, z: nat): (x: Result<Engine, StepError>)
    requires WellFormed(inst, e)
    ensures x.Ok? ==> WellFormed(inst, x.value) && x.value.pool == e.pool
  {
    ResolveFrom(inst, z, 0, e)
  }

  /** Lines 148-157 for unit q >= 1 of resource i: an idle unit with a
      non-empty queue starts the queue's head. */
  function StartNext(inst: Instance, z: nat, i: nat, q: nat, r: Resource, b: Jobs): (x: (Resource, Jobs))
    requires ResourceWellFormed(inst, r) && JobsShaped(inst, b) && 1 <= q < inst.GV
    ensures ResourceWellFormed(inst, x.0) && JobsShaped(inst, x.1) && x.1.done == b.done
  {
    var u := r.units[q];
    if |u.queue| > 0 && u.processing.None? then
      var j := u.queue[0];
      var finish := z + inst.delta(j, q, i);
      var r1 := WithUnit(inst, r, q, Unit(Some(j), Some(finish), Some(finish + 1), u.queue[1..]));
      (r1.(log := r.log + [(j, z)]), b.(sched := b.sched.(tq := Set2(b.sched.tq, j, q, z))))
    else
      (r, b)
  }

  /** Lines 147-157 for units q .. GV-1 of resource i, in order. */
  function FlowUnits(inst: Instance, z: nat, i: nat, q: nat, r: Resource, b: Jobs): (x: (Resource, Jobs))
    requires ResourceWellFormed(inst, r) && JobsShaped(inst, b) && 1 <= q <= inst.GV
    ensures ResourceWellFormed(inst, x.0) && JobsShaped(inst, x.1) && x.1.done == b.done
    decreases inst.GV - q
  {
    if q == inst.GV then (r, b)
    else
      var y := StartNext(inst, z, i, q, r, b);
      FlowUnits(inst, z, i, q + 1, y.0, y.1)
  }

  /** Lines 146-157 for resources i .. LV-1. */
  function FlowFrom(inst: Instance, z: nat, i: nat, e: Engine): (e': Engine)
    requires WellFormed(inst, e) && i <= inst.LV
    ensures WellFormed(inst, e') && e'.pool == e.pool && e'.jobs.done == e.jobs.done
    decreases inst.LV - i
  {
    if i == inst.LV then e
    else
      var y := FlowUnits(inst, z, i, 1, e.resources[i], e.jobs);
      FlowFrom(inst, z, i + 1, WithResourceJobs(inst, e, i, y.0, y.1))
  }

  function Flow(inst: Instance, e: Engine, z: nat): (e': Engine)
    requires WellFormed(inst, e)
    ensures WellFormed(inst, e') && e'.pool == e.pool && e'.jobs.done == e.jobs.done
  {
    FlowFrom(inst, z, 0, e)
  }

  /** Lines 163-203 for the first unit of resource i. */
  function DispatchFirst(inst: Instance, p: Policy, z: nat, i: nat, e: Engine): (r: Result<Engine, StepError>)
    requires WellFormed(inst, e) && i < inst.LV
    ensures r.Ok? ==> WellFormed(inst, r.value) && r.value.jobs.done == e.jobs.done
    ensures r.Ok? ==> IsSubseq(r.value.pool, e.pool)
  {
    var res := e.resources[i];
    var u := res.units[0];
    if u.processing.Some? then
      SubseqReflexive(e.pool);
      Ok(WithResource(inst, e, i, res.(lastAction := None)))
    else
      match Choose(inst.N, p, i, e.pool, res.lastJob, z)
      case Err(x) => Err(x)
      case Ok(DoNothing) =>
        SubseqReflexive(e.pool);
        Ok(WithResource(inst, e, i, res.(lastAction := Some(DoNothing))))
      case Ok(Run(j)) =>
        var finish := z + inst.delta(j, 0, i);
        var r1 := WithUnit(inst, res, 0, u.(processing := Some(j), c := Some(finish), cIdle := Some(finish + 1)));
        var e1 := WithResource(inst, e, i, r1.(lastAction := Some(Run(j)), lastJob := Some(j), log := res.log + [(j, z)]));
        var s := e1.jobs.sched;
        var pool' := RemoveFirst(e.pool, j);
        SubseqOfIncreasingBelow(pool', e.pool, inst.N);
        Ok(e1.(pool := pool',
               jobs := e1.jobs.(sched := s.(t := s.t[j := z], tq := Set2(s.tq, j, 0, z),
                                            dispatched := s.dispatched[i := s.dispatched[i] + [j]]))))
  }

  lemma SubseqOfIncreasingBelow(s: seq<nat>, xs: seq<nat>, n: nat)
    requires IsSubseq(s, xs) && Below(xs, n)
    ensures Below(s, n)
  {
    SubseqMembers(s, xs);
  }

  lemma {:induction false} SubseqMembers<T>(s: seq<T>, xs: seq<T>)
    requires IsSubseq(s, xs)
    ensures forall k :: 0 <= k < |s| ==> s[k] in xs
    decreases |xs|
  {
    if s != [] {
      if s[0] == xs[0] && IsSubseq(s[1..], xs[1..]) {
        SubseqMembers(s[1..], xs[1..]);
        assert forall k :: 1 <= k < |s| ==> s[k] == s[1..][k - 1];
      } else {
        SubseqMembers(s, xs[1..]);
      }
    }
  }

  /** Dispatch at the first units of order[k..], in that order. */
  function DispatchFrom(inst: Instance, p: Policy, z: nat, order: seq<nat>, k: nat, e: Engine)
    : (r: Result<Engine, StepError>)
    requires WellFormed(inst, e) && k <= |order|
    requires forall m :: 0 <= m < |order| ==> order[m] < inst.LV
    ensures r.Ok? ==> WellFormed(inst, r.value) && r.value.jobs.done == e.jobs.done
    ensures r.Ok? ==> IsSubseq(r.value.pool, e.pool)
    decreases |order| - k
  {
    if k == |order| then
      SubseqReflexive(e.pool);
      Ok(e)
    else
      match DispatchFirst(inst, p, z, order[k], e)
      case Err(x) => Err(x)
      case Ok(e1) =>
        var r := DispatchFrom(inst, p, z, order, k + 1, e1);
        if r.Ok? then SubseqTransitive(r.value.pool, e1.pool, e.pool); r else r
  }

  /** The first units are visited once each, in an order Python leaves to
      its set iteration. */
  predicate IsOrder(order: seq<nat>, lv: nat)
  {
    && |order| == lv
    && (forall m :: 0 <= m < |order| ==> order[m] < lv)
    && (forall a, b :: 0 <= a < b < |order| ==> order[a] != order[b])
  }

  /** MDP.step at time z: the engine after the step and whether every job
      is done. */
  function Step(inst: Instance, p: Policy, order: seq<nat>, e: Engine, z: nat)
    : (r: Result<(Engine, bool), StepError>)
    requires WellFormed(inst, e) && IsOrder(order, inst.LV)
    ensures r.Ok? ==> WellFormed(inst, r.value.0)
    ensures r.Ok? ==> (r.value.1 <==> AllTrue(r.value.0.jobs.done))
    ensures r.Ok? && r.value.1 ==> r.value.0.pool == e.pool
    ensures r.Ok? ==> IsSubseq(r.value.0.pool, e.pool)
  {
    match Resolve(inst, e, z)
    case Err(x) => Err(x)
    case Ok(e1) =>
      if AllTrue(e1.jobs.done) then
        SubseqReflexive(e.pool);
        Ok((e1, true))
      else
        var e2 := Flow(inst, e1, z);
        match DispatchFrom(inst, p, z, order, 0, e2)
        case Err(x) => Err(x)
        case Ok(e3) => Ok((e3, false))
  }
}
