/** What every reachable engine satisfies at the start of time step z, and
    why the error paths of `MDP.step` are therefore never taken: no timer
    fires on an empty unit (line 126 and 139 never see `None`), and the
    shared waiting list always is one of the enumerated states (line 175
    never raises). */
module Invariants {
  import opened Wrappers
  import opened Seqs
  import opened Shop
  import opened Choice
  import opened Transition
  import opened ResolveSpec
  import opened FlowSpec
  import opened DispatchSpec

  /** The timers of a unit at the start of step z: a busy unit becomes idle
      at time z or later, one step after its completion; the timers of an
      idle unit, if any, lie in the past. */
  predicate TimersOk(u: Unit, z: nat)
  {
    if u.processing.Some? then u.c.Some? && u.cIdle == Some(u.c.value + 1) && u.cIdle.value >= z
    else (u.c.None? || u.c.value < z) && (u.cIdle.None? || u.cIdle.value < z)
  }

  /** Job j has not started: it is not done and no unit holds or queues it. */
  predicate Unstarted(inst: Instance, e: Engine, j: JobId)
    requires WellFormed(inst, e)
  {
    && j < inst.N
    && !e.jobs.done[j]
    && forall i, q :: 0 <= i < inst.LV && 0 <= q < inst.GV ==>
         e.resources[i].units[q].processing != Some(j) && j !in e.resources[i].units[q].queue
  }

  /** The invariant of the engine at the start of step z:
      - the shared pool is index-ordered;
      - every job is either in the pool or in exactly one assignment list;
      - the unit timers fit the clock;
      - a job in the pool has not started anywhere. */
  predicate Consistent(inst: Instance, e: Engine, z: nat)
  {
    && WellFormed(inst, e)
    && Increasing(e.pool)
    && multiset(e.pool) + Bag(e.jobs.sched.dispatched) == multiset(Range(inst.N))
    && (forall i, q :: 0 <= i < inst.LV && 0 <= q < inst.GV ==> TimersOk(e.resources[i].units[q], z))
    && (forall j :: j in e.pool ==> Unstarted(inst, e, j))
  }

  lemma {:induction false} BagOfEmpty(d: seq<seq<JobId>>)
    requires forall i :: 0 <= i < |d| ==> d[i] == []
    ensures Bag(d) == multiset{}
    decreases |d|
  {
    if d != [] {
      BagOfEmpty(d[..|d| - 1]);
    }
  }

  /** A freshly reset engine is consistent at time 0 (lines 104-112). */
  lemma ResetConsistent(inst: Instance, e: Engine)
    requires Shaped(inst, e)
    ensures Consistent(inst, Reset(inst, e), 0)
  {
    var r := Reset(inst, e);
    BagOfEmpty(r.jobs.sched.dispatched);
    if inst.LV > 0 {
      assert r.pool == Waiting(r, 0, 0);
    } else {
      assert r.pool == Range(|e.jobs.done|);
    }
  }

  /** A unit whose timers fit the clock is never stale. */
  lemma TimersNotStale(inst: Instance, u: Unit, q: nat, z: nat)
    requires TimersOk(u, z)
    ensures !Stale(inst, u, q, z)
  {
  }

  /** Completion resolution never fails on a consistent engine, and leaves
      an engine consistent for the next time step. */
  lemma ResolveConsistent(inst: Instance, e: Engine, z: nat)
    requires Consistent(inst, e, z)
    ensures Resolve(inst, e, z).Ok?
    ensures Consistent(inst, Resolve(inst, e, z).value, z + 1)
  {
    forall m | 0 <= m < inst.LV
      ensures Fresh(inst, e.resources[m], z)
    {
      forall k | 0 <= k < inst.GV
        ensures !Stale(inst, e.resources[m].units[k], k, z)
      {
        TimersNotStale(inst, e.resources[m].units[k], k, z);
      }
    }
    ResolveFromOk(inst, z, 0, e);
    var e1 := Resolve(inst, e, z).value;
    ResolveFromKeeps(inst, z, 0, e);
    forall m, k | 0 <= m < inst.LV && 0 <= k < inst.GV
      ensures TimersOk(e1.resources[m].units[k], z + 1)
    {
      ResolveFromUnit(inst, z, 0, e, m, k);
    }
    forall j | j in e1.pool
      ensures Unstarted(inst, e1, j)
    {
      ResolveUnstarted(inst, e, z, j);
    }
  }

  /** A job waiting in the pool is still unstarted after resolution. */
  lemma ResolveUnstarted(inst: Instance, e: Engine, z: nat, j: JobId)
    requires Consistent(inst, e, z) && Resolve(inst, e, z).Ok?
    requires j in e.pool
    ensures Unstarted(inst, Resolve(inst, e, z).value, j)
  {
    var e1 := Resolve(inst, e, z).value;
    assert Unstarted(inst, e, j);
    ResolveFromJob(inst, z, 0, e, j);
    forall i, q | 0 <= i < inst.LV && 0 <= q < inst.GV
      ensures e1.resources[i].units[q].processing != Some(j) && j !in e1.resources[i].units[q].queue
    {
      ResolveFromUnit(inst, z, 0, e, i, q);
      if q > 0 {
        assert e.resources[i].units[q - 1].processing != Some(j);
      }
    }
  }

  /** Flow keeps a consistent engine consistent. */
  lemma FlowConsistent(inst: Instance, e: Engine, z: nat)
    requires Consistent(inst, e, z + 1)
    ensures Consistent(inst, Flow(inst, e, z), z + 1)
  {
    var e2 := Flow(inst, e, z);
    FlowFromKeeps(inst, z, 0, e);
    forall m, k | 0 <= m < inst.LV && 0 <= k < inst.GV
      ensures TimersOk(e2.resources[m].units[k], z + 1)
    {
      FlowFromUnit(inst, z, 0, e, m, k);
    }
    forall j | j in e2.pool
      ensures Unstarted(inst, e2, j)
    {
      assert Unstarted(inst, e, j);
      forall i, q | 0 <= i < inst.LV && 0 <= q < inst.GV
        ensures e2.resources[i].units[q].processing != Some(j) && j !in e2.resources[i].units[q].queue
      {
        FlowFromUnit(inst, z, 0, e, i, q);
        var u := e.resources[i].units[q];
        if q >= 1 && Ready(u) {
          assert u.queue[0] in u.queue;
          assert forall x :: x in u.queue[1..] ==> x in u.queue;
        }
      }
    }
  }

  /** Dispatch never fails on a consistent engine, and keeps it consistent. */
  lemma DispatchConsistent(inst: Instance, p: Policy, z: nat, order: seq<nat>, e: Engine)
    requires Consistent(inst, e, z + 1) && IsOrder(order, inst.LV)
    ensures DispatchFrom(inst, p, z, order, 0, e).Ok?
    ensures Consistent(inst, DispatchFrom(inst, p, z, order, 0, e).value, z + 1)
  {
    DispatchFromOk(inst, p, z, order, 0, e);
    var e3 := DispatchFrom(inst, p, z, order, 0, e).value;
    SubseqOfIncreasing(e3.pool, e.pool);
    DispatchFromBag(inst, p, z, order, 0, e);
    forall m, k | 0 <= m < inst.LV && 0 <= k < inst.GV
      ensures TimersOk(e3.resources[m].units[k], z + 1)
    {
      DispatchFromUnits(inst, p, z, order, 0, e, m, k);
    }
    forall j | j in e3.pool
      ensures Unstarted(inst, e3, j)
    {
      assert Unstarted(inst, e, j);
      forall i, q | 0 <= i < inst.LV && 0 <= q < inst.GV
        ensures e3.resources[i].units[q].processing != Some(j) && j !in e3.resources[i].units[q].queue
      {
        DispatchFromUnits(inst, p, z, order, 0, e, i, q);
        DispatchFromPoolOut(inst, p, z, order, 0, e, i, q);
      }
    }
  }

  /** On a consistent engine `MDP.step` never raises, and the engine it
      returns is consistent for the next time step. */
  lemma StepConsistent(inst: Instance, p: Policy, order: seq<nat>, e: Engine, z: nat)
    requires Consistent(inst, e, z) && IsOrder(order, inst.LV)
    ensures Step(inst, p, order, e, z).Ok?
    ensures Consistent(inst, Step(inst, p, order, e, z).value.0, z + 1)
  {
    ResolveConsistent(inst, e, z);
    var e1 := Resolve(inst, e, z).value;
    if !AllTrue(e1.jobs.done) {
      FlowConsistent(inst, e1, z);
      DispatchConsistent(inst, p, z, order, Flow(inst, e1, z));
    }
  }

  /** Lines 142-143: once every job is done the step stops after
      resolution, with no flow and no dispatch. */
  lemma StepStops(inst: Instance, p: Policy, order: seq<nat>, e: Engine, z: nat)
    requires WellFormed(inst, e) && IsOrder(order, inst.LV)
    requires Step(inst, p, order, e, z).Ok? && Step(inst, p, order, e, z).value.1
    ensures Resolve(inst, e, z).Ok? && Step(inst, p, order, e, z).value.0 == Resolve(inst, e, z).value
  {
  }

  /** In a consistent engine no job is both waiting and assigned, and no
      job is assigned twice: each of the N jobs is in exactly one place. */
  lemma PlacedOnce(inst: Instance, e: Engine, z: nat, j: JobId)
    requires Consistent(inst, e, z) && j < inst.N
    ensures multiset(e.pool)[j] + Bag(e.jobs.sched.dispatched)[j] == 1
  {
    RangeOnce(inst.N, j);
  }

  /** A job assigned twice, on the same or on two resources, counts twice
      in the bag. */
  lemma {:induction false} BagCounts(d: seq<seq<JobId>>, a: nat, b: nat, x: nat, y: nat)
    requires a < |d| && b < |d|
    requires x < |d[a]| && y < |d[b]| && d[a][x] == d[b][y]
    requires a != b || x != y
    ensures Bag(d)[d[a][x]] >= 2
    decreases |d|
  {
    var n := |d| - 1;
    var j := d[a][x];
    if a == n && b == n {
      MultisetTwice(d[n], x, y);
    } else if a == n {
      assert j in Bag(d[..n]) by { BagHas(d[..n], b, y); }
      assert j in multiset(d[n]);
    } else if b == n {
      assert j in Bag(d[..n]) by { BagHas(d[..n], a, x); }
      assert d[n][y] in multiset(d[n]);
    } else {
      BagCounts(d[..n], a, b, x, y);
    }
  }

  lemma {:induction false} BagHas(d: seq<seq<JobId>>, a: nat, x: nat)
    requires a < |d| && x < |d[a]|
    ensures d[a][x] in Bag(d)
    decreases |d|
  {
    var n := |d| - 1;
    if a == n {
      assert d[a][x] in multiset(d[n]);
    } else {
      BagHas(d[..n], a, x);
    }
  }

  /** A job leaves the pool at most once over an episode: in a consistent
      engine it appears in at most one assignment list, at most once. */
  lemma StartedOnce(inst: Instance, e: Engine, z: nat, a: nat, b: nat, x: nat, y: nat)
    requires Consistent(inst, e, z)
    requires a < inst.LV && b < inst.LV
    requires x < |e.jobs.sched.dispatched[a]| && y < |e.jobs.sched.dispatched[b]|
    requires e.jobs.sched.dispatched[a][x] == e.jobs.sched.dispatched[b][y]
    ensures a == b && x == y
  {
    var d := e.jobs.sched.dispatched;
    var j := d[a][x];
    BagHas(d, a, x);
    assert j in multiset(Range(inst.N));
    RangeOnce(inst.N, j);
    if a != b || x != y {
      BagCounts(d, a, b, x, y);
      assert false;
    }
  }

  /** When every job is done the pool is empty and every job has been
      assigned to exactly one resource, once. */
  lemma FinishedAllAssigned(inst: Instance, e: Engine, z: nat)
    requires Consistent(inst, e, z) && AllTrue(e.jobs.done)
    ensures e.pool == []
    ensures Bag(e.jobs.sched.dispatched) == multiset(Range(inst.N))
  {
    if e.pool != [] {
      HeadIn(e.pool);
    }
  }
}
