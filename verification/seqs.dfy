/** Sequence helpers: index ranges, ordered subsequences, first-occurrence
    removal, and the folds (sum, max, min, count, argmax) used by the
    objective computation and by the policy. */
module Seqs {

  /** Python's `range(n)` as a list: [0, 1, ..., n-1]. */
  function Range(n: nat): (r: seq<nat>)
    ensures |r| == n
    ensures forall k :: 0 <= k < n ==> r[k] == k
  {
    if n == 0 then [] else Range(n - 1) + [n - 1]
  }

  /** Strictly increasing, hence also free of duplicates. */
  predicate Increasing(s: seq<nat>)
  {
    forall a, b :: 0 <= a < b < |s| ==> s[a] < s[b]
  }

  /** Every element is a valid index below n. */
  predicate Below(s: seq<nat>, n: nat)
  {
    forall k :: 0 <= k < |s| ==> s[k] < n
  }

  /** s is obtained from xs by deleting some elements, keeping the order. */
  predicate IsSubseq<T(==)>(s: seq<T>, xs: seq<T>)
    decreases |xs|
  {
    if s == [] then true
    else if xs == [] then false
    else (s[0] == xs[0] && IsSubseq(s[1..], xs[1..])) || IsSubseq(s, xs[1..])
  }

  lemma {:induction false} SubseqLength<T>(s: seq<T>, xs: seq<T>)
    requires IsSubseq(s, xs)
    ensures |s| <= |xs|
    decreases |xs|
  {
    if s != [] {
      if s[0] == xs[0] && IsSubseq(s[1..], xs[1..]) {
        SubseqLength(s[1..], xs[1..]);
      } else {
        SubseqLength(s, xs[1..]);
      }
    }
  }

  lemma {:induction false} SubseqReflexive<T>(s: seq<T>)
    ensures IsSubseq(s, s)
    decreases |s|
  {
    if s != [] {
      SubseqReflexive(s[1..]);
    }
  }

  lemma {:induction false} SubseqTransitive<T>(a: seq<T>, b: seq<T>, c: seq<T>)
    requires IsSubseq(a, b) && IsSubseq(b, c)
    ensures IsSubseq(a, c)
    decreases |c|
  {
    if a != [] {
      SubseqLength(b, c);
      assert b != [];
      if b[0] == c[0] && IsSubseq(b[1..], c[1..]) {
        if a[0] == b[0] && IsSubseq(a[1..], b[1..]) {
          SubseqTransitive(a[1..], b[1..], c[1..]);
        } else {
          SubseqTransitive(a, b[1..], c[1..]);
        }
      } else {
        SubseqTransitive(a, b, c[1..]);
      }
    }
  }

  /** An ordered subsequence of an increasing list is increasing and draws
      its elements from that list. */
  lemma {:induction false} SubseqOfIncreasing(s: seq<nat>, xs: seq<nat>)
    requires Increasing(xs) && IsSubseq(s, xs)
    ensures Increasing(s)
    ensures forall k :: 0 <= k < |s| ==> s[k] in xs
    decreases |xs|
  {
    if s != [] {
      if s[0] == xs[0] && IsSubseq(s[1..], xs[1..]) {
        SubseqOfIncreasing(s[1..], xs[1..]);
        forall k | 1 <= k < |s|
          ensures s[0] < s[k]
        {
          assert s[1..][k - 1] in xs[1..];
        }
      } else {
        SubseqOfIncreasing(s, xs[1..]);
      }
    }
  }

  /** Conversely, an increasing list drawn from an increasing list is one
      of its ordered subsequences. */
  lemma {:induction false} IncreasingIsSubseq(s: seq<nat>, xs: seq<nat>)
    requires Increasing(xs) && Increasing(s)
    requires forall k :: 0 <= k < |s| ==> s[k] in xs
    ensures IsSubseq(s, xs)
    decreases |xs|
  {
    if s != [] {
      assert s[0] in xs;
      if s[0] == xs[0] {
        forall k | 0 <= k < |s[1..]|
          ensures s[1..][k] in xs[1..]
        {
          assert s[k + 1] in xs && s[k + 1] != xs[0];
        }
        IncreasingIsSubseq(s[1..], xs[1..]);
      } else {
        assert s[0] in xs[1..];
        var m :| 0 <= m < |xs[1..]| && xs[1..][m] == s[0];
        assert xs[0] < s[0];
        forall k | 0 <= k < |s|
          ensures s[k] in xs[1..]
        {
          assert s[k] in xs;
          assert s[0] <= s[k];
        }
        IncreasingIsSubseq(s, xs[1..]);
      }
    }
  }

  /** The ordered subsequences of range(n) are exactly the increasing lists
      of ids below n. */
  lemma SubseqOfRange(s: seq<nat>, n: nat)
    ensures IsSubseq(s, Range(n)) <==> Increasing(s) && Below(s, n)
  {
    var xs := Range(n);
    if IsSubseq(s, xs) {
      SubseqOfIncreasing(s, xs);
    }
    if Increasing(s) && Below(s, n) {
      forall k | 0 <= k < |s|
        ensures s[k] in xs
      {
        assert xs[s[k]] == s[k];
      }
      IncreasingIsSubseq(s, xs);
    }
  }

  /** The position of the first copy of x, as `s.index(x)` finds it. */
  function FirstIndex<T(==)>(s: seq<T>, x: T): (k: nat)
    requires x in s
    ensures k < |s| && s[k] == x
    ensures forall a :: 0 <= a < k ==> s[a] != x
  {
    if s[0] == x then 0 else 1 + FirstIndex(s[1..], x)
  }

  /** Python's `list.remove(x)`: drops the first occurrence of x. */
  function RemoveFirst<T(==)>(s: seq<T>, x: T): (r: seq<T>)
    requires x in s
    ensures |r| == |s| - 1
    ensures multiset(r) == multiset(s) - multiset{x}
    ensures IsSubseq(r, s)
  {
    if s[0] == x then
      SubseqDropHead(s);
      assert s == [s[0]] + s[1..];
      s[1..]
    else
      var r := [s[0]] + RemoveFirst(s[1..], x);
      assert r[1..] == RemoveFirst(s[1..], x);
      assert s == [s[0]] + s[1..];
      r
  }

  /** It is the first copy that goes: the elements before `s.index(x)` stay
      in place and the ones after it move down by one. */
  lemma {:induction false} RemoveFirstAt<T>(s: seq<T>, x: T)
    requires x in s
    ensures var r, k := RemoveFirst(s, x), FirstIndex(s, x);
      && (forall a :: 0 <= a < k ==> r[a] == s[a])
      && (forall a :: k <= a < |r| ==> r[a] == s[a + 1])
  {
    if s[0] != x {
      RemoveFirstAt(s[1..], x);
    }
  }

  lemma SubseqDropHead<T>(s: seq<T>)
    requires s != []
    ensures IsSubseq(s[1..], s)
  {
    SubseqReflexive(s[1..]);
  }

  /** Removing the element of an increasing list leaves no copy behind. */
  lemma {:induction false} RemoveFirstGone(s: seq<nat>, x: nat)
    requires Increasing(s) && x in s
    ensures x !in RemoveFirst(s, x)
    ensures Increasing(RemoveFirst(s, x))
  {
    var r: seq<nat> := RemoveFirst<nat>(s, x);
    SubseqOfIncreasing(r, s);
    if s[0] == x {
      assert forall k :: 0 <= k < |r| ==> r[k] == s[k + 1];
    } else {
      assert x in s[1..];
      RemoveFirstGone(s[1..], x);
      assert r == [s[0]] + RemoveFirst(s[1..], x);
    }
  }

  lemma HeadIn<T>(s: seq<T>)
    requires s != []
    ensures s[0] in s
  {
  }

  /** Every number below n occurs exactly once in Range(n). */
  lemma {:induction false} RangeOnce(n: nat, j: nat)
    ensures multiset(Range(n))[j] == if j < n then 1 else 0
  {
    if n > 0 {
      RangeOnce(n - 1, j);
      var m := multiset(Range(n - 1));
      assert multiset(Range(n)) == m + multiset{n - 1};
      if j == n - 1 {
        assert m[j] == 0;
      } else {
        assert (m + multiset{n - 1})[j] == m[j];
      }
    }
  }

  /** Two positions holding one value count it twice. */
  lemma MultisetTwice<T>(s: seq<T>, x: nat, y: nat)
    requires x < |s| && y < |s| && x != y && s[x] == s[y]
    ensures multiset(s)[s[x]] >= 2
  {
    var lo := if x < y then x else y;
    var hi := if x < y then y else x;
    assert s == s[..lo] + [s[lo]] + s[lo + 1..hi] + [s[hi]] + s[hi + 1..];
  }

  function Sum(s: seq<int>): int
  {
    if s == [] then 0 else s[0] + Sum(s[1..])
  }

  /** The sum splits over concatenation; with `Sum([x]) == x` this pins
      Sum down as the total of the entries. */
  lemma {:induction false} SumAppend(a: seq<int>, b: seq<int>)
    ensures Sum(a + b) == Sum(a) + Sum(b)
  {
    if a == [] {
      assert a + b == b;
    } else {
      assert (a + b)[1..] == a[1..] + b;
      SumAppend(a[1..], b);
    }
  }

  /** The positions holding a positive entry. */
  function Positives(s: seq<int>): set<nat>
  {
    set j: nat | j < |s| && s[j] > 0
  }

  lemma {:induction false} CountPositiveAppend(a: seq<int>, b: seq<int>)
    ensures CountPositive(a + b) == CountPositive(a) + CountPositive(b)
  {
    if a == [] {
      assert a + b == b;
    } else {
      assert (a + b)[1..] == a[1..] + b;
      CountPositiveAppend(a[1..], b);
    }
  }

  /** `sum(x > 0 for x in s)` counts the positions holding a positive entry. */
  lemma {:induction false} CountPositiveIsCard(s: seq<int>)
    ensures CountPositive(s) == |Positives(s)|
  {
    if s == [] {
      assert Positives(s) == {};
    } else {
      var n := |s| - 1;
      var front := s[..n];
      assert s == front + [s[n]];
      CountPositiveAppend(front, [s[n]]);
      CountPositiveIsCard(front);
      assert n !in Positives(front);
      if s[n] > 0 {
        assert Positives(s) == Positives(front) + {n};
      } else {
        assert Positives(s) == Positives(front);
      }
    }
  }

  /** Python's `max` of a non-empty list. */
  function Max(s: seq<int>): (r: int)
    requires |s| > 0
    ensures r in s
    ensures forall k :: 0 <= k < |s| ==> s[k] <= r
  {
    if |s| == 1 then s[0]
    else
      var m := Max(s[1..]);
      assert forall k :: 1 <= k < |s| ==> s[k] == s[1..][k - 1];
      if s[0] >= m then s[0] else m
  }

  /** Python's `min` of a non-empty list. */
  function Min(s: seq<int>): (r: int)
    requires |s| > 0
    ensures r in s
    ensures forall k :: 0 <= k < |s| ==> r <= s[k]
  {
    if |s| == 1 then s[0]
    else
      var m := Min(s[1..]);
      assert forall k :: 1 <= k < |s| ==> s[k] == s[1..][k - 1];
      if s[0] <= m then s[0] else m
  }

  /** Number of strictly positive entries: `sum(x > 0 for x in s)`. */
  function CountPositive(s: seq<int>): (r: nat)
    ensures r <= |s|
  {
    if s == [] then 0 else (if s[0] > 0 then 1 else 0) + CountPositive(s[1..])
  }

  predicate NonNegative(s: seq<int>)
  {
    forall k :: 0 <= k < |s| ==> s[k] >= 0
  }

  /** numpy's `argmax`: the FIRST index holding the maximum. */
  function ArgMax(v: seq<real>): (k: nat)
    requires |v| > 0
    ensures k < |v|
    ensures forall m :: 0 <= m < |v| ==> v[m] <= v[k]
    ensures forall m :: 0 <= m < k ==> v[m] < v[k]
  {
    if |v| == 1 then 0
    else
      var front := v[..|v| - 1];
      var m := ArgMax(front);
      assert forall a :: 0 <= a < |v| - 1 ==> v[a] == front[a];
      if v[|v| - 1] > v[m] then |v| - 1 else m
  }
}
