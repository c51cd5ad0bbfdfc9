# Flow-shop MDP simulation engine, modelled in Dafny

This project models the discrete-event simulation engine in `MDP.py`. The
engine is a flow shop of `LV` resources. Each resource is a line of `GV`
units, and `N` jobs pass through it. Time advances in integer steps `z`.
At each step, `MDP.step` does four things in order:

1. It charges every resource a penalty of 1.
2. It resolves unit timers. When `c == z` the completion is recorded, and
   at the last unit the job becomes done with its tardiness. When
   `c_idle == z` the unit becomes idle and hands its job to the end of the
   next unit's queue.
3. It stops if every job is done.
4. Otherwise, idle later units start the head of their queue in FIFO
   order, and idle first units take an action chosen by a learner: start a
   waiting job, or "do_nothing".

The model also covers the `reset` protocol of `Job`, `Unit`, `Resource`
and `MDP`, the schedule's objective statistics and weighted reward, and the
`powerset` enumeration of learner states.

Modules, one per file:

- `wrappers.dfy`: `Option` and `Result`.
- `seqs.dfy`: sequence helpers. It has `Range`, index-ordered
  subsequences, `FirstIndex` and `RemoveFirst` (Python's `list.index` and
  `list.remove`), and `Sum`, `Max`, `Min`, `CountPositive`, `ArgMax`.
- `powerset.dfy`: `itertools`' `combinations` and `powerset`, their
  members, and their count.
- `shop.dfy`: the entities (`Instance`, `Unit`, `Resource`, `Schedule`,
  `Jobs`, `Engine`), well-formedness, and reset.
- `choice.dfy`: the learner as an abstract `Policy`, and action choice.
- `transition.dfy`: `MDP.step`, as pure functions for its phases.
- `resolve_spec.dfy`, `flow_spec.dfy`, `dispatch_spec.dfy`: what each phase
  does, stated unit by unit and independently of the visiting order.
- `invariants.dfy`: the invariant every reachable engine satisfies. Under
  it no step fails, and every job is started at most once.
- `timely.dfy`: with durations of at least one step, a job's completion is recorded before its unit releases it.
- `episode.dfy`: a fuel-bounded episode loop and the trace of engines it
  passes through.
- `scoring.dfy`: `Schedule.objectives` and `Schedule.calc_reward`.

Modelling decisions:

- **Jobs.** Jobs are ids `0..N-1`. Timers are `Option<int>`. Durations are
  a total function `delta(job, unit, resource)`.
- **One shared waiting list.** `MDP.reset` hands one list object to every
  resource's first unit (lines 75-76, 106-107). So `unit.state.remove(job)`
  at line 191 takes the job out of every first unit's waiting list. The
  model keeps this list once, as the engine's `pool` of unstarted jobs.
- **Visiting order of first units.** Python iterates the first units
  through a `set` (line 161), so the order is unspecified. It is a
  parameter `order`, which may be any permutation of the resources.
- **The learner.** The learner is a `Policy` of three functions. `explores`
  stands for the coin `random.uniform(0, 1) < EPSILON`. `sample` stands for
  the position `random.sample` picks. `predict` stands for the network's
  value of an action.
- **"do_nothing".** A "do_nothing" choice records the sentinel as the
  resource's last action (line 188); it does not clear it. `last_job` is
  kept.
- **Release dates.** At reset the shared list holds every job (lines
  105-107). Release dates are copied into the schedule but never
  consulted, so a job may start before its release date. The model does
  the same.
- **Started on one resource.** A started job leaves the shared list of
  every resource, not only the list of the resource that started it
  (line 191).
- **Resource log.** `Resource.schedule`, the list of (job, start time)
  pairs that `Resource.reset` empties at line 59 and line 157 appends to,
  is the resource's `log`.
- **Crashes.** Python raises when a timer fires on a unit that holds no
  job, and when the waiting list is not among the enumerated states. Both
  cases are explicit errors (`StepError`). The invariant module proves that
  neither can happen from a reset engine.

## Model

| member | source | states |
|---|---|---|
| Shop.Reset | MDP.py:104-112 | After reset: no job is done. Every first unit waits on all N jobs in index order. Later units have empty queues. No unit holds a job and all timers are None. Rewards are 0, last action and job are None, logs are empty. The schedule is zeroed, with an empty assignment list per resource and the instance's due and release dates. |
| Shop.ResetResource | MDP.py:50-62 | A reset resource keeps its number of units, all idle. Its reward is 0, its last action and last job are None, and its log is empty. |
| Shop.ResetUnit | MDP.py:69-80 | A reset unit holds no job, has no timers and has an empty queue. |
| Shop.ResetForgets | MDP.py:50-112 | Reset keeps nothing of a previous episode: any two engines of the same shape reset to the same state. |
| Shop.ResetIdempotent | MDP.py:104-112 | Resetting twice gives the same state as resetting once. |
| Shop.Init | MDP.py:95-100 | The constructed engine has N jobs and LV resources of GV units. |
| Shop.NewSchedule | MDP.py:10-23 | A new schedule keeps the given release and due dates, has every tardiness, start and completion time (per job and per job and unit) at zero, and one empty assignment list per resource. |
| Transition.Tardiness | MDP.py:132 | Tardiness is never negative. It is 0 exactly when the job finished by its due date, and otherwise it is the lateness z - D. |
| ResolveSpec.RecordCompletionEffect | MDP.py:124-132 | A completion of job j0 at unit q writes the cell `c_q[j0][q]`. At the last unit it also marks j0 done and records its completion time and tardiness. No other entry changes. |
| ResolveSpec.ResolveUnitUnit | MDP.py:134-139 | Resolving unit q leaves the resource's bookkeeping alone. Unit q drops its job when its idle time is reached, and unit q+1's queue gains exactly that job at its end. No other unit changes. |
| ResolveSpec.ResolveUnitsOk | MDP.py:122-139 | Resolution of a resource's units fails exactly when a unit without a job reaches its completion time, or reaches its idle time while not being the last unit. |
| ResolveSpec.ResolveUnitsUnit | MDP.py:122-139 | After resolving a resource, every unit is as `Resolved` describes. A unit whose idle time is z becomes idle. Every later unit's queue gains the job that the unit before it hands on. |
| ResolveSpec.ResolveUnitsCell | MDP.py:124-126 | The cell `c_q[j][k]` becomes z exactly when unit k of the resource finishes job j at z. |
| ResolveSpec.ResolveUnitsJob | MDP.py:129-132 | Job j's done flag, completion time and tardiness are set exactly when the resource's last unit finishes j at z. |
| ResolveSpec.ResolveFromOk | MDP.py:117-139 | Resolution of all resources succeeds exactly when no resource has a timer firing on a unit without a job. |
| ResolveSpec.ResolveFromBook | MDP.py:117-118 | Each resolved resource is charged exactly one timestep penalty. Its last action, last job and log are unchanged. |
| ResolveSpec.Resolution | MDP.py:117-139 | Over one whole step, resolution fails exactly when some timer fires on a unit without a job. Otherwise every resource loses 1 reward, and every unit becomes idle and forwards its job exactly as `Resolved` says. Exactly the completions due at z are recorded. The pool, the start times and the assignments are untouched. |
| FlowSpec.StartNextBook | MDP.py:148-157 | Starting a later unit logs the pair (job, z) and leaves the reward, last action, last job and done flags alone. It also leaves every schedule entry except the unit start times alone. |
| FlowSpec.StartNextCell | MDP.py:152 | Starting a unit records `t_q[j][q] = z` for exactly the job at the head of its queue. |
| FlowSpec.FlowUnitsLog | MDP.py:147-157 | Flow over a resource's units appends one (job, z) log entry per started unit, in unit order. |
| FlowSpec.FlowUnitsUnit | MDP.py:147-157 | A unit that is idle with a non-empty queue takes the queue's head. Its completion is z plus the job's duration and its idle time is one step later. Every other unit is unchanged. |
| FlowSpec.FlowStep | MDP.py:146-157 | Over one whole step, flow leaves the pool, the done flags, the completion records and the first units alone. Every later unit that is idle with a waiting job starts the queue's head (FIFO), with completion at z + delta and idle at completion + 1. Each start is logged and its unit start time recorded, and nothing else changes. |
| Choice.Choose | MDP.py:163-186 | The chosen action is "do_nothing" or a job in the waiting list. Exploring never fails. Exploiting fails, with `UnknownState`, exactly when the waiting list is not an index-ordered list of jobs below N, that is, not one of the enumerated states. |
| Choice.ChooseGreedy | MDP.py:174-186 | When the learner exploits a known state, the chosen action has the highest predicted value among the actions. It is also the first action of that value (numpy's `argmax`), with id N standing for "do_nothing". |
| Choice.ChooseExplores | MDP.py:172-173 | When exploring, a draw at position k picks the k-th action of `waiting + ["do_nothing"]`, so every action can be drawn. |
| Transition.DispatchFirst | MDP.py:163-203 | A visit to one first unit leaves the done flags alone. Its new pool is a subsequence of the old one. |
| DispatchSpec.DispatchFirstOk | MDP.py:165-175 | A visit fails exactly when the unit is idle, the learner exploits, and the pool is not index-ordered. The error is `UnknownState` for that resource. |
| DispatchSpec.DispatchBusy | MDP.py:202-203 | At a busy first unit only `last_action` changes, to None. |
| DispatchSpec.DispatchIdle | MDP.py:188-189 | On "do_nothing", `last_action` becomes the sentinel and nothing else changes. In particular `last_job` is kept. |
| DispatchSpec.DispatchRun | MDP.py:188-201 | Starting job j takes one copy of j out of the shared pool. If the pool was index-ordered it stays so and no longer contains j. The unit then holds j, completes at z + delta and is idle one step later. `last_action` and `last_job` become j, (j, z) is logged, `t[j]` and `t_q[j][0]` become z, and j is appended to the resource's assignment list. Nothing else changes. |
| DispatchSpec.DispatchFromOk | MDP.py:161-203 | A round of visits over an index-ordered pool never fails, so `states.index(waiting)` always succeeds. |
| DispatchSpec.DispatchFromBag | MDP.py:191-196 | A round of visits keeps the pool and the assignment lists together: every job that leaves the pool is appended to exactly one assignment list. |
| DispatchSpec.DispatchFromUnits | MDP.py:161-203 | A round of visits changes a unit only by starting a job at the idle first unit of a visited resource. |
| DispatchSpec.DispatchFromPoolOut | MDP.py:191-192 | A job started in a round over an index-ordered pool is no longer in the pool. |
| Invariants.ResetConsistent | MDP.py:104-112 | A reset engine satisfies the engine invariant at time 0. |
| Invariants.ResolveConsistent | MDP.py:117-139 | On a consistent engine, completion resolution never fails, and it leaves an engine that is consistent at z + 1. |
| Invariants.FlowConsistent | MDP.py:146-157 | Flow keeps a consistent engine consistent. |
| Invariants.DispatchConsistent | MDP.py:161-203 | On a consistent engine, dispatch never fails and keeps the engine consistent. |
| Invariants.StepConsistent | MDP.py:115-205 | From a consistent engine, `step` never raises, and its result is consistent at the next time step. |
| Invariants.StepStops | MDP.py:142-143 | A step that reports "all done" returns the engine right after resolution: no flow and no dispatch take place. |
| Invariants.PlacedOnce | MDP.py:191-196 | In a consistent engine each job is, exactly once, either waiting in the pool or in an assignment list. |
| Invariants.StartedOnce | MDP.py:191-196 | In a consistent engine no job appears twice in the assignment lists, on one resource or across two. |
| Invariants.FinishedAllAssigned | MDP.py:189-196 | When every job is done, the pool is empty and the assignment lists hold every job exactly once. |
| Timeliness.ResetTimely | MDP.py:69-72 | A reset engine has no busy unit, so it is trivially timely. |
| Timeliness.ReleasedRecorded | MDP.py:124-139 | In a consistent, timely engine, a unit whose idle time z has come recorded its job's completion at z - 1. If it is the last unit, that job is done before it leaves. |
| Timeliness.ResolveTimely | MDP.py:121-139 | Resolution keeps every busy unit timely for the next step. A unit still busy after its completion time has recorded that completion. |
| Timeliness.FlowTimely | MDP.py:154-156 | With positive durations, flow starts jobs that complete at z + 1 or later, and keeps the completion records. |
| Timeliness.DispatchTimely | MDP.py:198-200 | With positive durations, dispatch starts jobs that complete at z + 1 or later, and keeps the completion records. |
| Timeliness.StepTimely | MDP.py:115-205 | With positive durations, a step keeps a consistent engine timely. |
| Timeliness.ZeroDurationUntimely | MDP.py:154-156 | A later unit that starts a job of duration 0 at z breaks the invariant. The job completes at z, after this step's completion check, and is released at z + 1 with its completion unrecorded. |
| Transition.Step | MDP.py:115-205 | After a step, "done" is reported exactly when every job is done. The pool only shrinks, and only by keeping the order of what remains. A finishing step leaves the pool unchanged. |
| Episode.Run | MDP.py:104-205 | The episode starts from the reset engine, and step z runs on the engine the previous step produced. No step fails, and the episode stops at the first step that reports done, or after `fuel` steps that did not. When it stops within the fuel bound, every job is done, the pool is empty, and every job has been assigned to exactly one resource, exactly once. |
| Episode.TraceDetermined | MDP.py:104-205 | Given the reset engine, the policy and the visiting orders, every engine of the episode is determined: two traces that follow them agree step by step. |
| Powerset.IndexOf | MDP.py:175 | `list.index`: absent exactly when the value is not in the list, otherwise the first position holding it. |
| Powerset.StatesMembers | MDP.py:207-208 | A list is one of the enumerated states exactly when it is index-ordered with every id below N. |
| Powerset.PowersetMembers | MDP.py:207-208 | `powerset` yields exactly the subsequences of its input. |
| Powerset.CombinationsMembers | MDP.py:208 | `combinations(xs, r)` yields exactly the length-r subsequences of xs. |
| Powerset.PowersetCount | MDP.py:207-208 | `powerset` of n items yields 2^n lists. |
| Seqs.FirstIndex | MDP.py:191 | The position `list.remove` deletes: it holds the value, and no earlier position does. |
| Seqs.RemoveFirst | MDP.py:191 | `list.remove` shortens the list by one, drops one copy of the value, and keeps the order of the rest. |
| Seqs.RemoveFirstAt | MDP.py:191 | The copy `list.remove` drops is the first: entries before it stay in place, and entries after it move down by one. |
| Seqs.RemoveFirstGone | MDP.py:191 | Removing from an index-ordered list leaves it index-ordered and without the value. |
| Seqs.ArgMax | MDP.py:183 | numpy's `argmax` returns the first position holding the maximum. |
| Scoring.Objectives | MDP.py:25-32 | With no jobs there are no statistics, since Python's `max` raises. Otherwise Cmax is the latest completion minus the earliest start, Tsum is the total tardiness, Tmax is one of the tardiness values and bounds them all, Tmean is Tsum / N, and Tn is the number of jobs with positive tardiness. |
| Scoring.MakespanUnique | MDP.py:26 | The latest-completion-minus-earliest-start description fixes a single makespan value. |
| Seqs.SumAppend | MDP.py:27 | The total splits over concatenation, so `Sum` adds up every entry. |
| Seqs.CountPositiveIsCard | MDP.py:30 | Counting `T > 0` over the list gives the number of positions holding a positive entry. |
| Scoring.TardinessStats | MDP.py:25-32 | For non-negative tardiness: 0 <= Tmax <= Tsum, and 0 <= Tmean <= Tmax. Tn is 0 exactly when Tsum is 0. |
| Scoring.MakespanCovers | MDP.py:26 | The makespan is non-negative once some job's completion is no earlier than its start. |
| Scoring.RewardIsDot | MDP.py:34-42 | The reward is the dot product of the weight vector and the statistics vector. |
| Scoring.RewardLinear | MDP.py:34-42 | The reward is linear in the weights: rewards under a sum of weightings add up. |
| Scoring.ZeroWeightDrops | MDP.py:34-42 | A statistic with weight 0 does not affect the reward. |

## Left out

- **Neural network and Q-learning/JEPS internals** (`NeuralNetwork`, `predict`, `generate_NN_input`, the update rules). They live in files that are not part of this model. The learner is the abstract `Policy`.
- **Randomness.** `random.uniform` and `random.sample` are not modelled as probabilities. They become the policy's `explores` and `sample` functions of (resource, time).
- **Learner bookkeeping.** `NN_inputs` and `NN_predictions` (lines 184-185) are learner bookkeeping and are not modelled. Line 185 also reuses the last loop's `inputs` rather than the chosen action's.
- **`prev_state`** (lines 54, 119) is a snapshot that only the external update rules read, and it is not modelled.
- **`DONE`** (line 112) is set but never read.
- **Duration of an episode.** Episode.Run is bounded by a fuel count. A policy that always answers "do_nothing" never finishes, so no bound on the number of steps is claimed.
- **No units.** An instance must have at least one unit per resource (`GV >= 1`). With `GV = 0` and some job not done, Python fails with `IndexError` at `resource.units[0]` (line 161) on every step. The model has no instance of that shape, so it does not represent that failure.
- **Floating point.** The learner's predicted values and the reward weights are Python floats; the model uses exact reals. It therefore leaves out NaN values, which `np.argmax` at line 183 treats as a maximum, and the rounding of the sums in `calc_reward` (lines 35-40).
- **Zero durations.** A zero duration sets `c = z` after this step's completion check (lines 124 and 154-155 or 198-199). The completion is then never recorded, and a job on its last unit never becomes done. Timeliness.ZeroDurationUntimely exhibits this. The properties in Timeliness therefore assume `delta >= 1`, and the rest of the model does not need that assumption.
- **The empty-handoff crash.** When `c_idle == z` on an empty unit that is not the last, Python appends `None` to the next queue and fails only when it is popped (line 152). The model reports `MissingJob` at the hand-off. Invariants.StepConsistent shows that this never happens from a reset engine.
- Shop.Init: only states the shape of the engine. Python leaves the per-episode attributes unset until `reset`, so there are no values to compare with.
- Transition.DispatchFirst: its own contract states only the frame facts. The full effect of a visit is in DispatchSpec.DispatchRun, DispatchSpec.DispatchIdle and DispatchSpec.DispatchBusy.
- Scoring.Objectives: `Tmean` is the exact real `Tsum / N`, not a floating-point `np.mean`. Times are integers rather than numpy floats.
- Scoring.TardinessStats: states the bounds for non-negative tardiness. That holds for every value Transition.Tardiness produces, but it is taken as a premise rather than tied to a run.
- **Start before completion.** No lemma states that a finished job's completion time at its last unit exceeds its start time there. That would need an invariant placing every started job in exactly one unit, which is not part of this model.
- **`main.py`**, the experiment driver, is not part of this model. It covers pickle loading, timing, the MILP baseline, plots and CSV output, and it calls `MDP`, `reset` and `step` with argument lists that differ from `MDP.py`'s. Only its loop over z = 0, 1, 2, ... is reflected, in Episode.Run.
