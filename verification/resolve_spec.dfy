/** Completion resolution (MDP.py lines 117-139) stated unit by unit, with
    no reference to the order in which Python visits the units: every unit
    whose completion time is z records it, every unit whose idle time is z
    drops its job onto the next unit's queue, and nothing else changes. */
module ResolveSpec {
  import opened Wrappers
  import opened Seqs
  import opened Shop
  import opened Transition

  /** Unit q of r reaches its completion time z holding job j. */
  predicate Finishes(r: Resource, q: nat, z: int, j: JobId)
  {
    q < |r.units| && r.units[q].c == Some(z) && r.units[q].processing == Some(j)
  }

  /** Some resource from lo on finishes job j at unit q at time z. */
  predicate FinishedFrom(e: Engine, lo: nat, q: nat, z: int, j: JobId)
  {
    exists m :: lo <= m < |e.resources| && Finishes(e.resources[m], q, z, j)
  }

  /** The job unit q hands on at time z, if any. */
  function Outflow(r: Resource, q: nat, z: int): seq<JobId>
    requires q < |r.units|
  {
    var u := r.units[q];
    if u.cIdle == Some(z) && u.processing.Some? then [u.processing.value] else []
  }

  /** Unit q of r after resolution at z: idle once its idle time is
      reached, and, when `fed`, its queue extended by what unit q-1 hands on. */
  function Resolved(r: Resource, q: nat, z: int, fed: bool): Unit
    requires q < |r.units|
  {
    var u := r.units[q];
    u.(processing := if u.cIdle == Some(z) then None else u.processing,
       queue := if fed && q > 0 then u.queue + Outflow(r, q - 1, z) else u.queue)
  }

  predicate SameBookkeeping(r: Resource, r': Resource)
  {
    r'.reward == r.reward && r'.lastAction == r.lastAction && r'.lastJob == r.lastJob && r'.log == r.log
  }

  /** Start times and assignments are untouched by resolution. */
  predicate StartsKept(s: Schedule, s': Schedule)
  {
    s'.release == s.release && s'.due == s.due && s'.t == s.t && s'.tq == s.tq && s'.dispatched == s.dispatched
  }

  /** The jobs record after resolving every resource from lo on. */
  predicate Completions(inst: Instance, e: Engine, b': Jobs, lo: nat, z: int)
    requires WellFormed(inst, e) && JobsShaped(inst, b')
  {
    var b := e.jobs;
    && StartsKept(b.sched, b'.sched)
    && (forall j, k :: 0 <= j < inst.N && 0 <= k < inst.GV ==>
          b'.sched.cq[j][k] == if FinishedFrom(e, lo, k, z, j) then z else b.sched.cq[j][k])
    && (forall j :: 0 <= j < inst.N ==>
          var fin := FinishedFrom(e, lo, inst.GV - 1, z, j);
          && b'.done[j] == (b.done[j] || fin)
          && b'.sched.c[j] == (if fin then z else b.sched.c[j])
          && b'.sched.T[j] == (if fin then Tardiness(z, b.sched.due[j]) else b.sched.T[j]))
  }

  /** Recording a completion of job j0 at unit q writes one cell of `cq`
      and, at the last unit, finishes the job. */
  lemma RecordCompletionEffect(inst: Instance, b: Jobs, z: nat, q: nat, j0: JobId, j: JobId, k: nat)
    requires JobsShaped(inst, b) && q < inst.GV && j0 < inst.N && j < inst.N && k < inst.GV
    ensures var b' := RecordCompletion(inst, b, z, q, j0);
      var fin := q == inst.GV - 1 && j == j0;
      && StartsKept(b.sched, b'.sched)
      && b'.sched.cq[j][k] == (if j == j0 && k == q then z else b.sched.cq[j][k])
      && b'.done[j] == (b.done[j] || fin)
      && b'.sched.c[j] == (if fin then z else b.sched.c[j])
      && b'.sched.T[j] == (if fin then Tardiness(z, b.sched.due[j]) else b.sched.T[j])
  {
  }

  /** Resolving unit q changes unit q as `Resolved` says, feeds unit
      q+1, and keeps the other units and the bookkeeping. */
  lemma ResolveUnitUnit(inst: Instance, z: nat, q: nat, r: Resource, b: Jobs, k: nat)
    requires ResourceWellFormed(inst, r) && JobsShaped(inst, b) && q < inst.GV
    requires !Stale(inst, r.units[q], q, z)
    requires k < inst.GV
    ensures var r' := ResolveUnit(inst, z, q, r, b).0;
      && SameBookkeeping(r, r')
      && r'.units[k] ==
           if k == q then Resolved(r, q, z, false)
           else if k == q + 1 then r.units[k].(queue := r.units[k].queue + Outflow(r, q, z))
           else r.units[k]
  {
  }

  /** Resolving unit q records its completion, if due, and touches no
      start time or assignment. */
  lemma ResolveUnitRecord(inst: Instance, z: nat, q: nat, r: Resource, b: Jobs, j: JobId, k: nat)
    requires ResourceWellFormed(inst, r) && JobsShaped(inst, b) && q < inst.GV
    requires !Stale(inst, r.units[q], q, z)
    requires j < inst.N && k < inst.GV
    ensures var b' := ResolveUnit(inst, z, q, r, b).1;
      var fin := q == inst.GV - 1 && Finishes(r, q, z, j);
      && StartsKept(b.sched, b'.sched)
      && b'.sched.cq[j][k] == (if k == q && Finishes(r, q, z, j) then z else b.sched.cq[j][k])
      && b'.done[j] == (b.done[j] || fin)
      && b'.sched.c[j] == (if fin then z else b.sched.c[j])
      && b'.sched.T[j] == (if fin then Tardiness(z, b.sched.due[j]) else b.sched.T[j])
  {
    var u := r.units[q];
    if u.c == Some(z) {
      RecordCompletionEffect(inst, b, z, q, u.processing.value, j, k);
    }
  }

  /** Resolving one unit touches no start time or assignment. */
  lemma ResolveUnitKeeps(inst: Instance, z: nat, q: nat, r: Resource, b: Jobs)
    requires ResourceWellFormed(inst, r) && JobsShaped(inst, b) && q < inst.GV
    requires !Stale(inst, r.units[q], q, z)
    ensures StartsKept(b.sched, ResolveUnit(inst, z, q, r, b).1.sched)
  {
  }

  /** Resolution of a resource from unit q on fails exactly when a timer
      fires on one of those units while it holds no job. */
  lemma {:induction false} ResolveUnitsOk(inst: Instance, z: nat, i: nat, q: nat, r: Resource, b: Jobs)
    requires ResourceWellFormed(inst, r) && JobsShaped(inst, b) && q <= inst.GV
    ensures ResolveUnits(inst, z, i, q, r, b).Ok? <==>
              forall k :: q <= k < inst.GV ==> !Stale(inst, r.units[k], k, z)
    decreases inst.GV - q
  {
    if q < inst.GV && !Stale(inst, r.units[q], q, z) {
      var y := ResolveUnit(inst, z, q, r, b);
      forall k | q < k < inst.GV
        ensures Stale(inst, y.0.units[k], k, z) == Stale(inst, r.units[k], k, z)
      {
        ResolveUnitUnit(inst, z, q, r, b, k);
      }
      ResolveUnitsOk(inst, z, i, q + 1, y.0, y.1);
    }
  }

  /** Resolution of a resource keeps its bookkeeping. */
  lemma {:induction false} ResolveUnitsBook(inst: Instance, z: nat, i: nat, q: nat, r: Resource, b: Jobs)
    requires ResourceWellFormed(inst, r) && JobsShaped(inst, b) && q <= inst.GV
    requires ResolveUnits(inst, z, i, q, r, b).Ok?
    ensures SameBookkeeping(r, ResolveUnits(inst, z, i, q, r, b).value.0)
    decreases inst.GV - q
  {
    if q < inst.GV {
      var y := ResolveUnit(inst, z, q, r, b);
      ResolveUnitUnit(inst, z, q, r, b, q);
      ResolveUnitsBook(inst, z, i, q + 1, y.0, y.1);
    }
  }

  /** Resolution of a resource from unit q on changes each of those units
      as `Resolved` describes, whatever the order of the visits. */
  lemma {:induction false} ResolveUnitsUnit(inst: Instance, z: nat, i: nat, q: nat, r: Resource, b: Jobs, k: nat)
    requires ResourceWellFormed(inst, r) && JobsShaped(inst, b) && q <= inst.GV
    requires ResolveUnits(inst, z, i, q, r, b).Ok?
    requires k < inst.GV
    ensures ResolveUnits(inst, z, i, q, r, b).value.0.units[k] ==
              if k < q then r.units[k] else Resolved(r, k, z, k > q)
    decreases inst.GV - q
  {
    if q < inst.GV {
      var y := ResolveUnit(inst, z, q, r, b);
      ResolveUnitUnit(inst, z, q, r, b, k);
      ResolveUnitsUnit(inst, z, i, q + 1, y.0, y.1, k);
      if k > q + 1 {
        ResolveUnitUnit(inst, z, q, r, b, k - 1);
        assert Outflow(y.0, k - 1, z) == Outflow(r, k - 1, z);
      }
    }
  }

  /** Resolution of a resource from unit q on writes the completion time
      of job j at unit k exactly when one of those units finishes j. */
  lemma {:induction false} ResolveUnitsCell(inst: Instance, z: nat, i: nat, q: nat, r: Resource, b: Jobs, j: JobId, k: nat)
    requires ResourceWellFormed(inst, r) && JobsShaped(inst, b) && q <= inst.GV
    requires ResolveUnits(inst, z, i, q, r, b).Ok?
    requires j < inst.N && k < inst.GV
    ensures ResolveUnits(inst, z, i, q, r, b).value.1.sched.cq[j][k] ==
              if q <= k && Finishes(r, k, z, j) then z else b.sched.cq[j][k]
    decreases inst.GV - q
  {
    if q < inst.GV {
      var y := ResolveUnit(inst, z, q, r, b);
      ResolveUnitRecord(inst, z, q, r, b, j, k);
      ResolveUnitsCell(inst, z, i, q + 1, y.0, y.1, j, k);
      if k > q {
        ResolveUnitUnit(inst, z, q, r, b, k);
      }
    }
  }

  /** Resolution of a resource from unit q on marks job j done, with its
      completion time and tardiness, exactly when the last unit finishes it. */
  lemma {:induction false} ResolveUnitsJob(inst: Instance, z: nat, i: nat, q: nat, r: Resource, b: Jobs, j: JobId)
    requires ResourceWellFormed(inst, r) && JobsShaped(inst, b) && q <= inst.GV
    requires ResolveUnits(inst, z, i, q, r, b).Ok?
    requires j < inst.N
    ensures var b' := ResolveUnits(inst, z, i, q, r, b).value.1;
      var fin := q < inst.GV && Finishes(r, inst.GV - 1, z, j);
      && b'.done[j] == (b.done[j] || fin)
      && b'.sched.c[j] == (if fin then z else b.sched.c[j])
      && b'.sched.T[j] == (if fin then Tardiness(z, b.sched.due[j]) else b.sched.T[j])
    decreases inst.GV - q
  {
    if q < inst.GV {
      var y := ResolveUnit(inst, z, q, r, b);
      ResolveUnitRecord(inst, z, q, r, b, j, q);
      ResolveUnitsJob(inst, z, i, q + 1, y.0, y.1, j);
      if q + 1 < inst.GV {
        ResolveUnitUnit(inst, z, q, r, b, inst.GV - 1);
      }
    }
  }

  /** Resolution of a resource leaves the start times alone. */
  lemma {:induction false} ResolveUnitsKeeps(inst: Instance, z: nat, i: nat, q: nat, r: Resource, b: Jobs)
    requires ResourceWellFormed(inst, r) && JobsShaped(inst, b) && q <= inst.GV
    requires ResolveUnits(inst, z, i, q, r, b).Ok?
    ensures StartsKept(b.sched, ResolveUnits(inst, z, i, q, r, b).value.1.sched)
    decreases inst.GV - q
  {
    if q < inst.GV {
      var y := ResolveUnit(inst, z, q, r, b);
      ResolveUnitKeeps(inst, z, q, r, b);
      ResolveUnitsKeeps(inst, z, i, q + 1, y.0, y.1);
    }
  }

  /** A resource from lo on finishes j at unit q: resource lo or one after it. */
  lemma FinishedFromSplit(e: Engine, e2: Engine, lo: nat, q: nat, z: int, j: JobId)
    requires lo < |e.resources| == |e2.resources|
    requires forall m :: lo < m < |e.resources| ==> e2.resources[m] == e.resources[m]
    ensures FinishedFrom(e, lo, q, z, j) <==>
              Finishes(e.resources[lo], q, z, j) || FinishedFrom(e2, lo + 1, q, z, j)
  {
    if FinishedFrom(e, lo, q, z, j) && !Finishes(e.resources[lo], q, z, j) {
      var m :| lo <= m < |e.resources| && Finishes(e.resources[m], q, z, j);
      assert Finishes(e2.resources[m], q, z, j);
    }
    if FinishedFrom(e2, lo + 1, q, z, j) {
      var m :| lo + 1 <= m < |e2.resources| && Finishes(e2.resources[m], q, z, j);
      assert Finishes(e.resources[m], q, z, j);
    }
  }

  /** No timer of resource r fires on an empty unit at time z. */
  predicate Fresh(inst: Instance, r: Resource, z: nat)
    requires |r.units| == inst.GV
  {
    forall k :: 0 <= k < inst.GV ==> !Stale(inst, r.units[k], k, z)
  }

  /** Resource r after the timestep penalty of line 118. */
  function Charged(r: Resource): Resource
  {
    r.(reward := r.reward - 1)
  }

  /** Resolution of resources lo .. LV-1 fails exactly when one of their
      timers fires on a unit holding no job. */
  lemma {:induction false} ResolveFromOk(inst: Instance, z: nat, lo: nat, e: Engine)
    requires WellFormed(inst, e) && lo <= inst.LV
    ensures ResolveFrom(inst, z, lo, e).Ok? <==> forall m :: lo <= m < inst.LV ==> Fresh(inst, e.resources[m], z)
    decreases inst.LV - lo
  {
    if lo < inst.LV {
      var r1 := Charged(e.resources[lo]);
      ResolveUnitsOk(inst, z, lo, 0, r1, e.jobs);
      var y := ResolveUnits(inst, z, lo, 0, r1, e.jobs);
      if y.Ok? {
        var e2 := WithResourceJobs(inst, e, lo, y.value.0, y.value.1);
        assert Fresh(inst, r1, z) == Fresh(inst, e.resources[lo], z);
        ResolveFromOk(inst, z, lo + 1, e2);
      }
    }
  }

  /** Resolution of resources lo .. LV-1 charges each of them the
      timestep penalty and keeps the rest of their bookkeeping. */
  lemma {:induction false} ResolveFromBook(inst: Instance, z: nat, lo: nat, e: Engine, m: nat)
    requires WellFormed(inst, e) && lo <= inst.LV
    requires ResolveFrom(inst, z, lo, e).Ok?
    requires m < inst.LV
    ensures var r := e.resources[m];
      var r' := ResolveFrom(inst, z, lo, e).value.resources[m];
      && r'.reward == (if lo <= m then r.reward - 1 else r.reward)
      && r'.lastAction == r.lastAction && r'.lastJob == r.lastJob && r'.log == r.log
    decreases inst.LV - lo
  {
    if lo < inst.LV {
      var r1 := Charged(e.resources[lo]);
      var y := ResolveUnits(inst, z, lo, 0, r1, e.jobs).value;
      ResolveUnitsBook(inst, z, lo, 0, r1, e.jobs);
      ResolveFromBook(inst, z, lo + 1, WithResourceJobs(inst, e, lo, y.0, y.1), m);
    }
  }

  /** Resolution of resources lo .. LV-1 resolves each of their units as
      `Resolved` describes. */
  lemma {:induction false} ResolveFromUnit(inst: Instance, z: nat, lo: nat, e: Engine, m: nat, k: nat)
    requires WellFormed(inst, e) && lo <= inst.LV
    requires ResolveFrom(inst, z, lo, e).Ok?
    requires m < inst.LV && k < inst.GV
    ensures ResolveFrom(inst, z, lo, e).value.resources[m].units[k] ==
              if lo <= m then Resolved(e.resources[m], k, z, true) else e.resources[m].units[k]
    decreases inst.LV - lo
  {
    if lo < inst.LV {
      var r1 := Charged(e.resources[lo]);
      var y := ResolveUnits(inst, z, lo, 0, r1, e.jobs).value;
      ResolveUnitsUnit(inst, z, lo, 0, r1, e.jobs, k);
      ResolveFromUnit(inst, z, lo + 1, WithResourceJobs(inst, e, lo, y.0, y.1), m, k);
      assert Resolved(r1, k, z, k > 0) == Resolved(e.resources[lo], k, z, true);
    }
  }

  /** Resolution of resources lo .. LV-1 writes the completion time of
      job j at unit k exactly when one of their units finishes j there. */
  lemma {:induction false} ResolveFromCell(inst: Instance, z: nat, lo: nat, e: Engine, j: JobId, k: nat)
    requires WellFormed(inst, e) && lo <= inst.LV
    requires ResolveFrom(inst, z, lo, e).Ok?
    requires j < inst.N && k < inst.GV
    ensures ResolveFrom(inst, z, lo, e).value.jobs.sched.cq[j][k] ==
              if FinishedFrom(e, lo, k, z, j) then z else e.jobs.sched.cq[j][k]
    decreases inst.LV - lo
  {
    if lo < inst.LV {
      var r1 := Charged(e.resources[lo]);
      var y := ResolveUnits(inst, z, lo, 0, r1, e.jobs).value;
      var e2 := WithResourceJobs(inst, e, lo, y.0, y.1);
      ResolveUnitsCell(inst, z, lo, 0, r1, e.jobs, j, k);
      ResolveFromCell(inst, z, lo + 1, e2, j, k);
      assert Finishes(r1, k, z, j) == Finishes(e.resources[lo], k, z, j);
      FinishedFromSplit(e, e2, lo, k, z, j);
    }
  }

  /** Resolution of resources lo .. LV-1 marks job j done exactly when the
      last unit of one of them finishes it. */
  lemma {:induction false} ResolveFromJob(inst: Instance, z: nat, lo: nat, e: Engine, j: JobId)
    requires WellFormed(inst, e) && lo <= inst.LV
    requires ResolveFrom(inst, z, lo, e).Ok?
    requires j < inst.N
    ensures var b := e.jobs;
      var b' := ResolveFrom(inst, z, lo, e).value.jobs;
      var fin := FinishedFrom(e, lo, inst.GV - 1, z, j);
      && b'.done[j] == (b.done[j] || fin)
      && b'.sched.c[j] == (if fin then z else b.sched.c[j])
      && b'.sched.T[j] == (if fin then Tardiness(z, b.sched.due[j]) else b.sched.T[j])
    decreases inst.LV - lo
  {
    if lo < inst.LV {
      var r1 := Charged(e.resources[lo]);
      var y := ResolveUnits(inst, z, lo, 0, r1, e.jobs).value;
      var e2 := WithResourceJobs(inst, e, lo, y.0, y.1);
      ResolveUnitsJob(inst, z, lo, 0, r1, e.jobs, j);
      ResolveUnitsKeeps(inst, z, lo, 0, r1, e.jobs);
      ResolveFromJob(inst, z, lo + 1, e2, j);
      assert Finishes(r1, inst.GV - 1, z, j) == Finishes(e.resources[lo], inst.GV - 1, z, j);
      FinishedFromSplit(e, e2, lo, inst.GV - 1, z, j);
    }
  }

  /** Resolution leaves the start times and assignments alone. */
  lemma {:induction false} ResolveFromKeeps(inst: Instance, z: nat, lo: nat, e: Engine)
    requires WellFormed(inst, e) && lo <= inst.LV
    requires ResolveFrom(inst, z, lo, e).Ok?
    ensures StartsKept(e.jobs.sched, ResolveFrom(inst, z, lo, e).value.jobs.sched)
    decreases inst.LV - lo
  {
    if lo < inst.LV {
      var r1 := Charged(e.resources[lo]);
      var y := ResolveUnits(inst, z, lo, 0, r1, e.jobs).value;
      ResolveUnitsKeeps(inst, z, lo, 0, r1, e.jobs);
      ResolveFromKeeps(inst, z, lo + 1, WithResourceJobs(inst, e, lo, y.0, y.1));
    }
  }

  /** Completion resolution of a whole step (lines 117-139): it fails
      exactly when a timer fires on a unit holding no job; otherwise every
      resource is charged the timestep penalty, every unit is resolved as
      `Resolved` says, exactly the finished completions are recorded, and
      the pool and the start times are untouched. */
  lemma Resolution(inst: Instance, e: Engine, z: nat)
    requires WellFormed(inst, e)
    ensures Resolve(inst, e, z).Ok? <==> forall m :: 0 <= m < inst.LV ==> Fresh(inst, e.resources[m], z)
    ensures Resolve(inst, e, z).Ok? ==>
      var e' := Resolve(inst, e, z).value;
      && e'.pool == e.pool
      && (forall m :: 0 <= m < inst.LV ==>
            && e'.resources[m].reward == e.resources[m].reward - 1
            && e'.resources[m].lastAction == e.resources[m].lastAction
            && e'.resources[m].lastJob == e.resources[m].lastJob
            && e'.resources[m].log == e.resources[m].log
            && (forall k :: 0 <= k < inst.GV ==> e'.resources[m].units[k] == Resolved(e.resources[m], k, z, true)))
      && Completions(inst, e, e'.jobs, 0, z)
  {
    ResolveFromOk(inst, z, 0, e);
    if Resolve(inst, e, z).Ok? {
      forall m | 0 <= m < inst.LV {
        ResolveFromBook(inst, z, 0, e, m);
      }
      forall m, k | 0 <= m < inst.LV && 0 <= k < inst.GV {
        ResolveFromUnit(inst, z, 0, e, m, k);
      }
      ResolveFromKeeps(inst, z, 0, e);
      forall j, k | 0 <= j < inst.N && 0 <= k < inst.GV {
        ResolveFromCell(inst, z, 0, e, j, k);
      }
      forall j | 0 <= j < inst.N {
        ResolveFromJob(inst, z, 0, e, j);
      }
    }
  }
}
