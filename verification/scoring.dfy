/** The schedule's objective statistics and the weighted reward built from
    them (Schedule.objectives and Schedule.calc_reward, MDP.py lines
    25-42). Times are integers; the mean and the reward are reals. */
module Scoring {
  import opened Wrappers
  import opened Seqs
  import opened Shop

  /** The five statistics `objectives` stores on the schedule. */
  datatype Stats = Stats(Cmax: int, Tsum: int, Tmax: int, Tmean: real, Tn: nat)

  /** The entries of `R_WEIGHTS`, one per statistic. */
  datatype Weights = Weights(Cmax: real, Tsum: real, Tmax: real, Tmean: real, Tn: real)

  /** m is the latest completion minus the earliest start. */
  ghost predicate IsMakespan(c: seq<int>, t: seq<int>, m: int)
  {
    exists a, b :: 0 <= a < |c| && 0 <= b < |t| && m == c[a] - t[b] && LatestMinusEarliest(c, t, a, b)
  }

  /** Job a completes last and job b starts first. */
  predicate LatestMinusEarliest(c: seq<int>, t: seq<int>, a: nat, b: nat)
    requires a < |c| && b < |t|
  {
    (forall j :: 0 <= j < |c| ==> c[j] <= c[a]) && (forall j :: 0 <= j < |t| ==> t[b] <= t[j])
  }

  /** The makespan is determined by the completion and start times. */
  lemma MakespanUnique(c: seq<int>, t: seq<int>, m1: int, m2: int)
    requires IsMakespan(c, t, m1) && IsMakespan(c, t, m2)
    ensures m1 == m2
  {
    var a1, b1 :| 0 <= a1 < |c| && 0 <= b1 < |t| && m1 == c[a1] - t[b1] && LatestMinusEarliest(c, t, a1, b1);
    var a2, b2 :| 0 <= a2 < |c| && 0 <= b2 < |t| && m2 == c[a2] - t[b2] && LatestMinusEarliest(c, t, a2, b2);
    assert c[a1] <= c[a2] <= c[a1];
    assert t[b1] <= t[b2] <= t[b1];
  }

  /** Lines 25-32. Python's `max` and `min` raise on an empty list, so a
      schedule of no jobs has no statistics. The makespan runs from the
      earliest start to the latest completion, the mean is `np.mean`, and
      a job is tardy when its tardiness is positive. */
  function Objectives(s: Schedule): (r: Option<Stats>)
    requires |s.c| == |s.t| == |s.T|
    ensures r.None? <==> |s.T| == 0
    ensures r.Some? ==> IsMakespan(s.c, s.t, r.value.Cmax)
    ensures r.Some? ==> r.value.Tsum == Sum(s.T)
    ensures r.Some? ==> r.value.Tmax in s.T
    ensures r.Some? ==> forall j :: 0 <= j < |s.T| ==> s.T[j] <= r.value.Tmax
    ensures r.Some? ==> r.value.Tmean == r.value.Tsum as real / |s.T| as real
    ensures r.Some? ==> r.value.Tn == |Positives(s.T)| <= |s.T|
  {
    if |s.T| == 0 then None
    else
      var tsum := Sum(s.T);
      var hi, lo := Max(s.c), Min(s.t);
      var a :| 0 <= a < |s.c| && s.c[a] == hi;
      var b :| 0 <= b < |s.t| && s.t[b] == lo;
      assert LatestMinusEarliest(s.c, s.t, a, b);
      CountPositiveIsCard(s.T);
      Some(Stats(hi - lo, tsum, Max(s.T), tsum as real / |s.T| as real, CountPositive(s.T)))
  }

  /** Lines 34-42: the weighted sum of the five statistics. */
  function CalcReward(w: Weights, st: Stats): real
  {
    w.Cmax * st.Cmax as real + w.Tsum * st.Tsum as real + w.Tmax * st.Tmax as real
      + w.Tmean * st.Tmean + w.Tn * st.Tn as real
  }

  /** The statistics as a vector, in the order `calc_reward` adds them. */
  function StatVector(st: Stats): (v: seq<real>)
    ensures |v| == 5
  {
    [st.Cmax as real, st.Tsum as real, st.Tmax as real, st.Tmean, st.Tn as real]
  }

  function WeightVector(w: Weights): (v: seq<real>)
    ensures |v| == 5
  {
    [w.Cmax, w.Tsum, w.Tmax, w.Tmean, w.Tn]
  }

  /** The dot product of two vectors of equal length. */
  function Dot(a: seq<real>, b: seq<real>): real
    requires |a| == |b|
  {
    if a == [] then 0.0 else a[0] * b[0] + Dot(a[1..], b[1..])
  }

  /** The reward is the dot product of the weight and statistic vectors. */
  lemma RewardIsDot(w: Weights, st: Stats)
    ensures CalcReward(w, st) == Dot(WeightVector(w), StatVector(st))
  {
    var a := WeightVector(w);
    var b := StatVector(st);
    assert Dot(a[4..], b[4..]) == a[4] * b[4] by { assert a[4..][1..] == []; }
    assert Dot(a[3..], b[3..]) == a[3] * b[3] + Dot(a[4..], b[4..]) by { assert a[3..][1..] == a[4..]; }
    assert Dot(a[2..], b[2..]) == a[2] * b[2] + Dot(a[3..], b[3..]) by { assert a[2..][1..] == a[3..]; }
    assert Dot(a[1..], b[1..]) == a[1] * b[1] + Dot(a[2..], b[2..]) by { assert a[1..][1..] == a[2..]; }
  }

  /** The dot product is linear in its first argument. */
  lemma {:induction false} DotAdd(a: seq<real>, a': seq<real>, b: seq<real>)
    requires |a| == |a'| == |b|
    ensures Dot(seq(|a|, k requires 0 <= k < |a| => a[k] + a'[k]), b) == Dot(a, b) + Dot(a', b)
  {
    var s := seq(|a|, k requires 0 <= k < |a| => a[k] + a'[k]);
    if a != [] {
      assert s[1..] == seq(|a[1..]|, k requires 0 <= k < |a[1..]| => a[1..][k] + a'[1..][k]);
      DotAdd(a[1..], a'[1..], b[1..]);
    }
  }

  function AddWeights(w: Weights, w': Weights): Weights
  {
    Weights(w.Cmax + w'.Cmax, w.Tsum + w'.Tsum, w.Tmax + w'.Tmax, w.Tmean + w'.Tmean, w.Tn + w'.Tn)
  }

  /** Rewards under a sum of weightings add up. */
  lemma RewardLinear(w: Weights, w': Weights, st: Stats)
    ensures CalcReward(AddWeights(w, w'), st) == CalcReward(w, st) + CalcReward(w', st)
  {
    var a := WeightVector(w);
    var a' := WeightVector(w');
    assert WeightVector(AddWeights(w, w')) == seq(5, k requires 0 <= k < 5 => a[k] + a'[k]);
    RewardIsDot(AddWeights(w, w'), st);
    RewardIsDot(w, st);
    RewardIsDot(w', st);
    DotAdd(a, a', StatVector(st));
  }

  /** A statistic whose weight is zero does not contribute: changing it
      leaves the reward unchanged. */
  lemma ZeroWeightDrops(w: Weights, st: Stats, st': Stats)
    ensures w.Cmax == 0.0 ==> CalcReward(w, st) == CalcReward(w, st.(Cmax := st'.Cmax))
    ensures w.Tsum == 0.0 ==> CalcReward(w, st) == CalcReward(w, st.(Tsum := st'.Tsum))
    ensures w.Tmax == 0.0 ==> CalcReward(w, st) == CalcReward(w, st.(Tmax := st'.Tmax))
    ensures w.Tmean == 0.0 ==> CalcReward(w, st) == CalcReward(w, st.(Tmean := st'.Tmean))
    ensures w.Tn == 0.0 ==> CalcReward(w, st) == CalcReward(w, st.(Tn := st'.Tn))
  {
  }

  lemma {:induction false} SumNonNegative(s: seq<int>)
    requires NonNegative(s)
    ensures Sum(s) >= 0
    ensures forall k :: 0 <= k < |s| ==> s[k] <= Sum(s)
    ensures Sum(s) == 0 <==> CountPositive(s) == 0
  {
    if s != [] {
      SumNonNegative(s[1..]);
      assert forall k :: 1 <= k < |s| ==> s[k] == s[1..][k - 1];
    }
  }

  lemma {:induction false} SumAtMost(s: seq<int>, b: int)
    requires forall k :: 0 <= k < |s| ==> s[k] <= b
    ensures Sum(s) <= |s| * b
  {
    if s != [] {
      assert forall k :: 0 <= k < |s[1..]| ==> s[1..][k] == s[k + 1];
      SumAtMost(s[1..], b);
    }
  }

  /** Tardiness values are non-negative (Transition.Tardiness never yields
      a negative value). For such a list: the maximum is at most the total,
      the mean lies between 0 and the maximum, and there are no tardy jobs
      exactly when the total tardiness is 0. */
  lemma TardinessStats(s: Schedule)
    requires |s.c| == |s.t| == |s.T| > 0
    requires NonNegative(s.T)
    ensures var st := Objectives(s).value;
      && 0 <= st.Tmax <= st.Tsum
      && 0.0 <= st.Tmean <= st.Tmax as real
      && (st.Tn == 0 <==> st.Tsum == 0)
  {
    var st := Objectives(s).value;
    assert st.Tsum == Sum(s.T) && st.Tmax == Max(s.T) && st.Tn == CountPositive(s.T);
    assert st.Tmean == st.Tsum as real / |s.T| as real;
    TardinessBounds(s.T);
    MeanBounds(st.Tsum, |s.T|, st.Tmax);
  }

  lemma TardinessBounds(T: seq<int>)
    requires |T| > 0 && NonNegative(T)
    ensures 0 <= Max(T) <= Sum(T)
    ensures Sum(T) <= |T| * Max(T)
    ensures CountPositive(T) == 0 <==> Sum(T) == 0
  {
    SumNonNegative(T);
    var m := Max(T);
    SumAtMost(T, m);
  }

  /** For a positive count n, the mean x / n lies in [0, m] when x lies
      in [0, n * m]. */
  lemma MeanBounds(x: int, n: int, m: int)
    requires n > 0 && 0 <= x <= n * m
    ensures 0.0 <= x as real / n as real <= m as real
  {
    assert (n * m) as real == n as real * m as real;
  }

  /** Makespan: every job's span from start to completion lies within it,
      so it is non-negative once some job completed no earlier than it
      started. */
  lemma MakespanCovers(s: Schedule, j: nat)
    requires |s.c| == |s.t| == |s.T| && j < |s.T|
    requires s.t[j] <= s.c[j]
    ensures Objectives(s).value.Cmax >= 0
  {
  }
}
