/** The tabular state space of MDP.py: `powerset(iterable)` chains
    `itertools.combinations(iterable, r)` for r = 0 .. len(iterable),
    each in lexicographic position order, and `list.index` searches it. */
module Powerset {
  import opened Wrappers
  import opened Seqs

  /** Puts x in front of every list of ss. */
  function Prepend<T>(x: T, ss: seq<seq<T>>): (r: seq<seq<T>>)
    ensures |r| == |ss|
    ensures forall k :: 0 <= k < |ss| ==> r[k] == [x] + ss[k]
  {
    if ss == [] then [] else [[x] + ss[0]] + Prepend(x, ss[1..])
  }

  /** `itertools.combinations(xs, r)`: the r-element ordered subsequences of
      xs; those using xs[0] come first. */
  function Combinations<T>(xs: seq<T>, r: nat): seq<seq<T>>
    decreases |xs|
  {
    if r == 0 then [[]]
    else if xs == [] then []
    else Prepend(xs[0], Combinations(xs[1..], r - 1)) + Combinations(xs[1..], r)
  }

  /** The combinations of every size below m, smallest size first. */
  function SizesBelow<T>(xs: seq<T>, m: nat): seq<seq<T>>
  {
    if m == 0 then [] else SizesBelow(xs, m - 1) + Combinations(xs, m - 1)
  }

  /** MDP.py's `powerset`, one list per subset. */
  function PowersetOf<T>(xs: seq<T>): seq<seq<T>>
  {
    SizesBelow(xs, |xs| + 1)
  }

  /** Python's `list.index`: the first position holding s, or None where
      Python raises ValueError. */
  function IndexOf<T(==)>(ss: seq<T>, s: T): (r: Option<nat>)
    ensures r.None? <==> s !in ss
    ensures r.Some? ==> r.value < |ss| && ss[r.value] == s && s !in ss[..r.value]
  {
    if s in ss then
      var k := FirstIndex(ss, s);
      assert forall a :: 0 <= a < k ==> ss[..k][a] == ss[a];
      Some(k)
    else None
  }

  lemma PrependMembers<T>(x: T, ss: seq<seq<T>>, s: seq<T>)
    ensures s in Prepend(x, ss) <==> s != [] && s[0] == x && s[1..] in ss
  {
    var p := Prepend(x, ss);
    if s in p {
      var k :| 0 <= k < |p| && p[k] == s;
      assert s[1..] == ss[k];
    }
    if s != [] && s[0] == x && s[1..] in ss {
      var k :| 0 <= k < |ss| && ss[k] == s[1..];
      assert p[k] == s;
    }
  }

  /** A list is among the r-combinations exactly when it is an r-element
      ordered subsequence. */
  lemma {:induction false} CombinationsMembers<T>(xs: seq<T>, r: nat, s: seq<T>)
    ensures s in Combinations(xs, r) <==> |s| == r && IsSubseq(s, xs)
    decreases |xs|
  {
    if r == 0 {
    } else if xs == [] {
    } else {
      PrependMembers(xs[0], Combinations(xs[1..], r - 1), s);
      if s != [] {
        CombinationsMembers(xs[1..], r - 1, s[1..]);
      }
      CombinationsMembers(xs[1..], r, s);
    }
  }

  lemma {:induction false} SizesBelowMembers<T>(xs: seq<T>, m: nat, s: seq<T>)
    ensures s in SizesBelow(xs, m) <==> |s| < m && IsSubseq(s, xs)
  {
    if m > 0 {
      SizesBelowMembers(xs, m - 1, s);
      CombinationsMembers(xs, m - 1, s);
    }
  }

  /** The enumerated state space holds exactly the ordered subsequences. */
  lemma PowersetMembers<T>(xs: seq<T>, s: seq<T>)
    ensures s in PowersetOf(xs) <==> IsSubseq(s, xs)
  {
    SizesBelowMembers(xs, |xs| + 1, s);
    if IsSubseq(s, xs) {
      SubseqLength(s, xs);
    }
  }

  /** Over job ids 0..N-1, the state space holds exactly the increasing
      lists of ids: `states.index(waiting)` succeeds on those and only those. */
  lemma StatesMembers(n: nat, s: seq<nat>)
    ensures s in PowersetOf(Range(n)) <==> Increasing(s) && Below(s, n)
  {
    PowersetMembers(Range(n), s);
    SubseqOfRange(s, n);
  }

  function Binomial(n: nat, r: nat): nat
  {
    if r == 0 then 1 else if n == 0 then 0 else Binomial(n - 1, r - 1) + Binomial(n - 1, r)
  }

  function BinomialsBelow(n: nat, m: nat): nat
  {
    if m == 0 then 0 else BinomialsBelow(n, m - 1) + Binomial(n, m - 1)
  }

  function Pow2(n: nat): nat
  {
    if n == 0 then 1 else 2 * Pow2(n - 1)
  }

  lemma {:induction false} CombinationsCount<T>(xs: seq<T>, r: nat)
    ensures |Combinations(xs, r)| == Binomial(|xs|, r)
    decreases |xs|
  {
    if r > 0 && xs != [] {
      CombinationsCount(xs[1..], r - 1);
      CombinationsCount(xs[1..], r);
    }
  }

  lemma {:induction false} SizesBelowCount<T>(xs: seq<T>, m: nat)
    ensures |SizesBelow(xs, m)| == BinomialsBelow(|xs|, m)
  {
    if m > 0 {
      SizesBelowCount(xs, m - 1);
      CombinationsCount(xs, m - 1);
    }
  }

  lemma {:induction false} BinomialAbove(n: nat, r: nat)
    requires r > n
    ensures Binomial(n, r) == 0
  {
    if n > 0 {
      BinomialAbove(n - 1, r - 1);
      BinomialAbove(n - 1, r);
    }
  }

  lemma {:induction false} BinomialsPascal(n: nat, m: nat)
    ensures BinomialsBelow(n + 1, m + 1) == BinomialsBelow(n, m) + BinomialsBelow(n, m + 1)
  {
    if m > 0 {
      BinomialsPascal(n, m - 1);
    }
  }

  lemma {:induction false} BinomialsRow(n: nat)
    ensures BinomialsBelow(n, n + 1) == Pow2(n)
  {
    if n > 0 {
      BinomialsRow(n - 1);
      BinomialsPascal(n - 1, n);
      BinomialAbove(n - 1, n);
    }
  }

  /** The state space has 2^n entries. */
  lemma PowersetCount<T>(xs: seq<T>)
    ensures |PowersetOf(xs)| == Pow2(|xs|)
  {
    SizesBelowCount(xs, |xs| + 1);
    BinomialsRow(|xs|);
  }
}
