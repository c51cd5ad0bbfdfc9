/** An episode: reset, then `step` at z = 0, 1, 2, ... until it reports
    that every job is done. The loop is bounded by a fuel count because a
    policy that always chooses "do_nothing" never finishes. */
module Episode {
  import opened Wrappers
  import opened Seqs
  import opened Shop
  import opened Transition
  import opened Choice
  import opened DispatchSpec
  import opened Invariants

  /** `orders(z)` is the order in which the first units are visited at
      step z; each is some permutation of the resources. */
  ghost predicate Orders(inst: Instance, orders: nat -> seq<nat>)
  {
    forall z :: IsOrder(orders(z), inst.LV)
  }

  /** trace[z] is the engine at the start of step z: every one of them is
      consistent, and each step before the last one ran without failing,
      did not finish the episode, and produced the next engine. */
  ghost predicate Follows(inst: Instance, p: Policy, orders: nat -> seq<nat>, trace: seq<Engine>)
  {
    Orders(inst, orders) && AllConsistent(inst, trace) && Linked(inst, p, orders, trace)
  }

  ghost predicate AllConsistent(inst: Instance, trace: seq<Engine>)
  {
    forall z :: 0 <= z < |trace| ==> Consistent(inst, trace[z], z)
  }

  ghost predicate Linked(inst: Instance, p: Policy, orders: nat -> seq<nat>, trace: seq<Engine>)
  {
    forall z :: 0 <= z < |trace| - 1 ==> Link(inst, p, orders(z), trace[z], z, trace[z + 1])
  }

  /** Step z, visiting first units in `order`, takes engine a to engine b
      without failing and without finishing the episode. */
  ghost predicate Link(inst: Instance, p: Policy, order: seq<nat>, a: Engine, z: nat, b: Engine)
  {
    WellFormed(inst, a) && IsOrder(order, inst.LV) && Step(inst, p, order, a, z) == Ok((b, false))
  }

  /** The last engine of the trace finishes the episode with `last`. */
  ghost predicate EndsWith(inst: Instance, p: Policy, orders: nat -> seq<nat>, trace: seq<Engine>, last: Engine)
  {
    && Orders(inst, orders)
    && 0 < |trace|
    && WellFormed(inst, trace[|trace| - 1])
    && Step(inst, p, orders(|trace| - 1), trace[|trace| - 1], |trace| - 1) == Ok((last, true))
  }

  lemma ConsistentExtend(inst: Instance, trace: seq<Engine>, next: Engine)
    requires AllConsistent(inst, trace)
    requires Consistent(inst, next, |trace|)
    ensures AllConsistent(inst, trace + [next])
  {
    var t := trace + [next];
    forall z | 0 <= z < |t|
      ensures Consistent(inst, t[z], z)
    {
      if z < |trace| {
        assert t[z] == trace[z];
      }
    }
  }

  lemma LinkedExtend(inst: Instance, p: Policy, orders: nat -> seq<nat>, trace: seq<Engine>, next: Engine)
    requires Linked(inst, p, orders, trace) && 0 < |trace|
    requires Link(inst, p, orders(|trace| - 1), trace[|trace| - 1], |trace| - 1, next)
    ensures Linked(inst, p, orders, trace + [next])
  {
    var t := trace + [next];
    forall z | 0 <= z < |t| - 1
      ensures Link(inst, p, orders(z), t[z], z, t[z + 1])
    {
      assert t[z] == trace[z];
      if z < |trace| - 1 {
        assert t[z + 1] == trace[z + 1];
      }
    }
  }

  /** An episode is determined by its start, the policy and the visiting
      orders: two traces that follow them agree wherever both are defined. */
  lemma {:induction false} TraceDetermined(inst: Instance, p: Policy, orders: nat -> seq<nat>,
                                           t1: seq<Engine>, t2: seq<Engine>, z: nat)
    requires Follows(inst, p, orders, t1) && Follows(inst, p, orders, t2)
    requires 0 < |t1| && 0 < |t2| && t1[0] == t2[0]
    requires z < |t1| && z < |t2|
    ensures t1[z] == t2[z]
  {
    if z > 0 {
      TraceDetermined(inst, p, orders, t1, t2, z - 1);
      assert Linked(inst, p, orders, t1) && Linked(inst, p, orders, t2);
      assert Link(inst, p, orders(z - 1), t1[z - 1], z - 1, t1[z]);
      assert Link(inst, p, orders(z - 1), t2[z - 1], z - 1, t2[z]);
    }
  }

  /** Runs an episode of at most `fuel` steps from a reset engine. The
      result is the final engine and the time step that finished it, or
      None when the fuel runs out first. `trace` holds the engine at the
      start of every step taken: step z runs on trace[z] with the visiting
      order orders(z), no step fails, and only the last one reports that
      every job is done. At the end every job has been assigned to exactly
      one resource, exactly once. */
  method Run(inst: Instance, p: Policy, orders: nat -> seq<nat>, e: Engine, fuel: nat)
    returns (r: Option<(Engine, nat)>, ghost trace: seq<Engine>)
    requires Shaped(inst, e) && Orders(inst, orders)
    ensures 0 < |trace| && trace[0] == Reset(inst, e)
    ensures Follows(inst, p, orders, trace)
    ensures r.None? ==> |trace| == fuel + 1
    ensures r.Some? ==> |trace| == r.value.1 + 1 <= fuel
    ensures r.Some? ==> EndsWith(inst, p, orders, trace, r.value.0)
    ensures r.Some? ==> WellFormed(inst, r.value.0) && AllTrue(r.value.0.jobs.done)
    ensures r.Some? ==> r.value.0.pool == []
    ensures r.Some? ==> Bag(r.value.0.jobs.sched.dispatched) == multiset(Range(inst.N))
  {
    var cur := Reset(inst, e);
    ResetConsistent(inst, e);
    trace := [cur];
    var z: nat := 0;
    while z < fuel
      invariant z <= fuel && |trace| == z + 1 && trace[0] == Reset(inst, e) && trace[z] == cur
      invariant Follows(inst, p, orders, trace)
      decreases fuel - z
    {
      StepConsistent(inst, p, orders(z), cur, z);
      var s := Step(inst, p, orders(z), cur, z).value;
      if s.1 {
        FinishedAllAssigned(inst, s.0, z + 1);
        return Some((s.0, z)), trace;
      }
      ConsistentExtend(inst, trace, s.0);
      LinkedExtend(inst, p, orders, trace, s.0);
      cur, z := s.0, z + 1;
      trace := trace + [cur];
    }
    return None, trace;
  }
}
