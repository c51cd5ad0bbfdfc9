/** Action selection at an idle first unit (MDP.py lines 166-186).

    The learner is abstract: `explores(i, z)` stands for the draw
    `random.uniform(0, 1) < EPSILON`, `sample(i, z)` for the position
    `random.sample` picks, and `predict(i, j, lastJob, z)` for the network's
    value of starting action j on resource i. Each first unit draws at most
    once per time step, so arbitrary functions of (i, z) cover every
    outcome of the random generator. */
module Choice {
  import opened Wrappers
  import opened Seqs
  import opened Powerset
  import opened Shop

  datatype Policy = Policy(
    explores: (nat, nat) -> bool,
    sample: (nat, nat) -> nat,
    predict: (nat, nat, Option<JobId>, nat) -> real)

  /** MDP.__init__'s `states` (line 99): every subset of the N jobs. */
  function States(n: nat): seq<seq<JobId>>
  {
    PowersetOf(Range(n))
  }

  /** The action list `waiting + ["do_nothing"]`. */
  function ActionsOf(waiting: seq<JobId>): (a: seq<Action>)
    ensures |a| == |waiting| + 1
    ensures forall k :: 0 <= k < |waiting| ==> a[k] == Run(waiting[k])
    ensures a[|waiting|] == DoNothing
  {
    seq(|waiting|, k requires 0 <= k < |waiting| => Run(waiting[k])) + [DoNothing]
  }

  /** The action picked at first unit i given the waiting list: a random
      element of the action list when exploring, otherwise the first
      action of highest predicted value, where id N stands for
      "do_nothing". */
  function Choose(n: nat, p: Policy, i: nat, waiting: seq<JobId>, lastJob: Option<JobId>, z: nat)
    : (r: Result<Action, StepError>)
    ensures r.Ok? ==> r.value == DoNothing || r.value.job in waiting
    ensures p.explores(i, z) ==> r.Ok?
    ensures !p.explores(i, z) ==> (r.Err? <==> !(Increasing(waiting) && Below(waiting, n)))
    ensures r.Err? ==> r.error == UnknownState(i)
  {
    if p.explores(i, z) then
      var actions := ActionsOf(waiting);
      Ok(actions[p.sample(i, z) % |actions|])
    else
      StatesMembers(n, waiting);
      match IndexOf(States(n), waiting)
      case None => Err(UnknownState(i))
      case Some(_) =>
        var ids := waiting + [n];
        var values := seq(|ids|, k requires 0 <= k < |ids| => p.predict(i, ids[k], lastJob, z));
        var j := ids[ArgMax(values)];
        Ok(if j == n then DoNothing else Run(j))
  }

  /** The learner's value of an action at resource i, where id n stands
      for "do_nothing" (line 177). */
  function Value(n: nat, p: Policy, i: nat, a: Action, lastJob: Option<JobId>, z: nat): real
  {
    p.predict(i, if a.DoNothing? then n else a.job, lastJob, z)
  }

  /** Lines 174-186: when the learner exploits a known state, the chosen
      action is the first one of the action list with the highest value. */
  lemma ChooseGreedy(n: nat, p: Policy, i: nat, waiting: seq<JobId>, lastJob: Option<JobId>, z: nat)
    requires !p.explores(i, z) && Increasing(waiting) && Below(waiting, n)
    ensures Choose(n, p, i, waiting, lastJob, z).Ok?
    ensures var a := Choose(n, p, i, waiting, lastJob, z).value;
      var acts := ActionsOf(waiting);
      exists k :: 0 <= k < |acts| && acts[k] == a
        && (forall m :: 0 <= m < |acts| ==> Value(n, p, i, acts[m], lastJob, z) <= Value(n, p, i, a, lastJob, z))
        && (forall m :: 0 <= m < k ==> Value(n, p, i, acts[m], lastJob, z) < Value(n, p, i, a, lastJob, z))
  {
    StatesMembers(n, waiting);
    var acts := ActionsOf(waiting);
    var ids := waiting + [n];
    var values := seq(|ids|, k requires 0 <= k < |ids| => p.predict(i, ids[k], lastJob, z));
    var k := ArgMax(values);
    assert forall m :: 0 <= m < |acts| ==> Value(n, p, i, acts[m], lastJob, z) == values[m];
    assert acts[k] == Choose(n, p, i, waiting, lastJob, z).value;
  }

  /** Lines 172-173: when the learner explores, a draw of position k picks
      action k of the list, so every action, "do_nothing" included, can be
      picked. */
  lemma ChooseExplores(n: nat, p: Policy, i: nat, waiting: seq<JobId>, lastJob: Option<JobId>, z: nat)
    requires p.explores(i, z) && p.sample(i, z) <= |waiting|
    ensures p.sample(i, z) < |waiting| ==> Choose(n, p, i, waiting, lastJob, z) == Ok(Run(waiting[p.sample(i, z)]))
    ensures p.sample(i, z) == |waiting| ==> Choose(n, p, i, waiting, lastJob, z) == Ok(DoNothing)
  {
    var actions := ActionsOf(waiting);
    var k := p.sample(i, z);
    assert k % |actions| == k;
    assert Choose(n, p, i, waiting, lastJob, z) == Ok(actions[k]);
  }
}
