/** The entities of the flow-shop simulation (MDP.py's Job, Unit, Resource,
    Schedule and MDP classes) and their reset protocol.

    Jobs are ids 0..N-1. A job's `done` flag is kept, with the schedule,
    in the engine's `jobs` record. The first unit of every resource and every resource's `state`
    share ONE Python list object; it is modelled once, as the engine's
    `pool` of unstarted jobs, and the `queue` field of a first unit is never
    read. */
module Shop {
  import opened Wrappers
  import opened Seqs

  type JobId = nat

  /** Static problem data: job, resource and unit counts, due and release
      dates, and the duration table `delta[job][unit][resource]`. */
  datatype Instance = Instance(
    N: nat,
    LV: nat,
    GV: nat,
    due: seq<int>,
    release: seq<int>,
    delta: (JobId, nat, nat) -> nat)

  /** An action at a first unit: start a job, or the "do_nothing" sentinel. */
  datatype Action = Run(job: JobId) | DoNothing

  /** One processing station: the job on it, its completion time `c`, the
      time `cIdle` at which it becomes idle again, and its waiting list. */
  datatype Unit = Unit(
    processing: Option<JobId>,
    c: Option<int>,
    cIdle: Option<int>,
    queue: seq<JobId>)

  /** One stage: its units in processing order, the reward accumulator,
      the last action and last dispatched job, and the (job, start time)
      log kept in `resource.schedule`. */
  datatype Resource = Resource(
    units: seq<Unit>,
    reward: int,
    lastAction: Option<Action>,
    lastJob: Option<JobId>,
    log: seq<(JobId, int)>)

  /** Release and due dates, tardiness, job and job-unit start and
      completion times, and the jobs started per resource. */
  datatype Schedule = Schedule(
    release: seq<int>,
    due: seq<int>,
    T: seq<int>,
    t: seq<int>,
    tq: seq<seq<int>>,
    c: seq<int>,
    cq: seq<seq<int>>,
    dispatched: seq<seq<JobId>>)

  /** What a step records about the jobs: the `done` flag of every Job
      object and the MDP's schedule. */
  datatype Jobs = Jobs(done: seq<bool>, sched: Schedule)

  /** The mutable episode state of the MDP object. */
  datatype Engine = Engine(
    jobs: Jobs,
    pool: seq<JobId>,
    resources: seq<Resource>)

  /** The errors that stop `MDP.step` with a Python exception. */
  datatype StepError =
    | MissingJob(resource: nat, unit: nat)   // a timer fires on a unit holding no job
    | UnknownState(resource: nat)            // `states.index(waiting)` raises

  predicate ValidInstance(inst: Instance)
  {
    |inst.due| == inst.N && |inst.release| == inst.N && inst.GV >= 1
  }

  /** The structure MDP.__init__ builds: N jobs, LV resources of GV units. */
  predicate Shaped(inst: Instance, e: Engine)
  {
    && ValidInstance(inst)
    && |e.jobs.done| == inst.N
    && |e.resources| == inst.LV
    && (forall i :: 0 <= i < |e.resources| ==> |e.resources[i].units| == inst.GV)
  }

  predicate ScheduleShaped(inst: Instance, s: Schedule)
  {
    && |s.release| == inst.N && |s.due| == inst.N
    && |s.T| == inst.N && |s.t| == inst.N && |s.c| == inst.N
    && |s.tq| == inst.N && |s.cq| == inst.N
    && (forall j :: 0 <= j < inst.N ==> |s.tq[j]| == inst.GV && |s.cq[j]| == inst.GV)
    && |s.dispatched| == inst.LV
  }

  predicate JobsShaped(inst: Instance, b: Jobs)
  {
    |b.done| == inst.N && ScheduleShaped(inst, b.sched)
  }

  predicate UnitWellFormed(inst: Instance, u: Unit)
  {
    (u.processing.Some? ==> u.processing.value < inst.N) && Below(u.queue, inst.N)
  }

  predicate ResourceWellFormed(inst: Instance, r: Resource)
  {
    |r.units| == inst.GV && forall q :: 0 <= q < |r.units| ==> UnitWellFormed(inst, r.units[q])
  }

  /** What Python guarantees by construction: the shapes fit the instance
      and every job reference is one of the N jobs. */
  predicate WellFormed(inst: Instance, e: Engine)
  {
    && ValidInstance(inst)
    && JobsShaped(inst, e.jobs)
    && Below(e.pool, inst.N)
    && |e.resources| == inst.LV
    && (forall i :: 0 <= i < |e.resources| ==> ResourceWellFormed(inst, e.resources[i]))
  }

  /** Replaces resource i. */
  function WithResource(inst: Instance, e: Engine, i: nat, r: Resource): (e': Engine)
    requires WellFormed(inst, e) && i < inst.LV && ResourceWellFormed(inst, r)
    ensures WellFormed(inst, e')
    ensures e'.jobs == e.jobs && e'.pool == e.pool
    ensures |e'.resources| == |e.resources| && e'.resources[i] == r
    ensures forall m :: 0 <= m < inst.LV && m != i ==> e'.resources[m] == e.resources[m]
  {
    e.(resources := e.resources[i := r])
  }

  /** Replaces resource i and the jobs record. */
  function WithResourceJobs(inst: Instance, e: Engine, i: nat, r: Resource, b: Jobs): (e': Engine)
    requires WellFormed(inst, e) && i < inst.LV && ResourceWellFormed(inst, r) && JobsShaped(inst, b)
    ensures WellFormed(inst, e')
    ensures e'.jobs == b && e'.pool == e.pool
    ensures |e'.resources| == |e.resources| && e'.resources[i] == r
    ensures forall m :: 0 <= m < inst.LV && m != i ==> e'.resources[m] == e.resources[m]
  {
    Engine(b, e.pool, e.resources[i := r])
  }

  /** Replaces unit q of r. */
  function WithUnit(inst: Instance, r: Resource, q: nat, u: Unit): (r': Resource)
    requires ResourceWellFormed(inst, r) && q < inst.GV && UnitWellFormed(inst, u)
    ensures ResourceWellFormed(inst, r')
    ensures r'.reward == r.reward && r'.lastAction == r.lastAction && r'.lastJob == r.lastJob && r'.log == r.log
    ensures r'.units[q] == u
    ensures forall k :: 0 <= k < inst.GV && k != q ==> r'.units[k] == r.units[k]
  {
    r.(units := r.units[q := u])
  }

  /** Writes v at row j, column q of a matrix. */
  function Set2(m: seq<seq<int>>, j: nat, q: nat, v: int): (m': seq<seq<int>>)
    requires j < |m| && q < |m[j]|
    ensures |m'| == |m| && forall a :: 0 <= a < |m| ==> |m'[a]| == |m[a]|
    ensures forall a, b :: 0 <= a < |m| && 0 <= b < |m[a]| ==>
              m'[a][b] == if a == j && b == q then v else m[a][b]
  {
    m[j := m[j][q := v]]
  }

  function UnitAt(e: Engine, i: nat, q: nat): Unit
    requires i < |e.resources| && q < |e.resources[i].units|
  {
    e.resources[i].units[q]
  }

  /** The waiting list of unit q of resource i; every first unit sees the
      shared pool. */
  function Waiting(e: Engine, i: nat, q: nat): seq<JobId>
    requires i < |e.resources| && q < |e.resources[i].units|
  {
    if q == 0 then e.pool else e.resources[i].units[q].queue
  }

  /** A unit holding no job, with no timers and an empty waiting list. */
  predicate Idle(u: Unit)
  {
    u.processing.None? && u.c.None? && u.cIdle.None? && u.queue == []
  }

  predicate AllTrue(s: seq<bool>)
  {
    forall j :: 0 <= j < |s| ==> s[j]
  }

  function Zeros(n: nat): (r: seq<int>)
    ensures |r| == n && forall k :: 0 <= k < n ==> r[k] == 0
  {
    seq(n, _ => 0)
  }

  /** Unit.reset (lines 69-80). */
  function ResetUnit(u: Unit): (r: Unit)
    ensures Idle(r)
  {
    Unit(None, None, None, [])
  }

  /** Resource.reset (lines 50-62): every unit is reset and the
      bookkeeping is cleared; the number of units is kept. */
  function ResetResource(r: Resource): (r': Resource)
    ensures |r'.units| == |r.units|
    ensures forall q :: 0 <= q < |r.units| ==> Idle(r'.units[q])
    ensures r'.reward == 0 && r'.lastAction.None? && r'.lastJob.None? && r'.log == []
  {
    Resource(seq(|r.units|, q requires 0 <= q < |r.units| => ResetUnit(r.units[q])), 0, None, None, [])
  }

  /** Schedule.__init__ (lines 10-23): zeroed timing arrays and one empty
      assignment list per resource. */
  function NewSchedule(inst: Instance): (s: Schedule)
    requires ValidInstance(inst)
    ensures ScheduleShaped(inst, s)
    ensures forall j :: 0 <= j < inst.N ==>
              s.T[j] == 0 && s.t[j] == 0 && s.c[j] == 0 &&
              (forall q :: 0 <= q < inst.GV ==> s.tq[j][q] == 0 && s.cq[j][q] == 0)
    ensures forall i :: 0 <= i < inst.LV ==> s.dispatched[i] == []
    ensures s.due == inst.due && s.release == inst.release
  {
    Schedule(inst.release, inst.due, Zeros(inst.N), Zeros(inst.N), seq(inst.N, _ => Zeros(inst.GV)),
             Zeros(inst.N), seq(inst.N, _ => Zeros(inst.GV)), seq(inst.LV, _ => []))
  }

  /** MDP.__init__ (lines 95-101): the structure the episodes reuse. Python
      leaves the per-episode attributes unset until `reset`; here they hold
      the reset values. */
  function Init(inst: Instance): (e: Engine)
    requires ValidInstance(inst)
    ensures Shaped(inst, e)
  {
    var r := Resource(seq(inst.GV, _ => Unit(None, None, None, [])), 0, None, None, []);
    Engine(Jobs(seq(inst.N, _ => false), NewSchedule(inst)), Range(inst.N), seq(inst.LV, _ => r))
  }

  /** MDP.reset (lines 104-112) with Job.reset (lines 88-91): every job is
      not done, one list of all jobs in index order becomes the waiting
      list of every first unit, later units and timers are cleared, and a
      fresh schedule is allocated. */
  function Reset(inst: Instance, e: Engine): (r: Engine)
    requires Shaped(inst, e)
    ensures WellFormed(inst, r)
    ensures Shaped(inst, r)
    ensures forall j :: 0 <= j < inst.N ==> !r.jobs.done[j]
    ensures forall i :: 0 <= i < inst.LV ==> Waiting(r, i, 0) == Range(inst.N)
    ensures forall i, q :: 0 <= i < inst.LV && 1 <= q < inst.GV ==> Waiting(r, i, q) == []
    ensures forall i, q :: 0 <= i < inst.LV && 0 <= q < inst.GV ==>
              UnitAt(r, i, q).processing.None? && UnitAt(r, i, q).c.None? && UnitAt(r, i, q).cIdle.None?
    ensures forall i :: 0 <= i < inst.LV ==>
              r.resources[i].reward == 0 && r.resources[i].lastAction.None? &&
              r.resources[i].lastJob.None? && r.resources[i].log == []
    ensures var s := r.jobs.sched;
      && (forall j :: 0 <= j < inst.N ==>
            s.T[j] == 0 && s.t[j] == 0 && s.c[j] == 0 &&
            (forall q :: 0 <= q < inst.GV ==> s.tq[j][q] == 0 && s.cq[j][q] == 0))
      && (forall i :: 0 <= i < inst.LV ==> s.dispatched[i] == [])
      && s.due == inst.due && s.release == inst.release
  {
    var resources := seq(|e.resources|, i requires 0 <= i < |e.resources| => ResetResource(e.resources[i]));
    Engine(Jobs(seq(|e.jobs.done|, _ => false), NewSchedule(inst)), Range(|e.jobs.done|), resources)
  }

  /** Reset keeps nothing of the previous episode: engines with the same
      structure reset to the same state. */
  lemma ResetForgets(inst: Instance, e1: Engine, e2: Engine)
    requires Shaped(inst, e1) && Shaped(inst, e2)
    ensures Reset(inst, e1) == Reset(inst, e2)
  {
    var r1 := Reset(inst, e1);
    var r2 := Reset(inst, e2);
    forall i | 0 <= i < inst.LV
      ensures r1.resources[i] == r2.resources[i]
    {
      assert r1.resources[i].units == r2.resources[i].units;
    }
    assert r1.resources == r2.resources;
  }

  /** Calling reset twice gives the state a single reset gives. */
  lemma ResetIdempotent(inst: Instance, e: Engine)
    requires Shaped(inst, e)
    ensures Reset(inst, Reset(inst, e)) == Reset(inst, e)
  {
    ResetForgets(inst, Reset(inst, e), e);
  }
}
