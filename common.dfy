/** Sequence folds shared by the statistics code: `Array.prototype.filter`,
    `.length` of a filter, and `reduce((acc, x) => acc + f(x), 0)`. */
module Common {

  datatype Option<+T> = None | Some(value: T)

  /** The elements of `s` that satisfy `p`, in their original order. */
  function Filter<T>(s: seq<T>, p: T -> bool): (r: seq<T>)
    ensures |r| <= |s|
    ensures forall i :: 0 <= i < |r| ==> p(r[i])
  {
    if s == [] then []
    else (if p(s[0]) then [s[0]] else []) + Filter(s[1..], p)
  }

  /** `s.reduce((acc, x) => acc + f(x), 0)` over the reals. */
  function SumOf<T>(s: seq<T>, f: T -> real): real
  {
    if s == [] then 0.0 else f(s[0]) + SumOf(s[1..], f)
  }

  /** `s.reduce((acc, x) => acc + f(x), 0)` over natural-number counters. */
  function NatSumOf<T>(s: seq<T>, f: T -> nat): nat
  {
    if s == [] then 0 else f(s[0]) + NatSumOf(s[1..], f)
  }

  lemma {:induction false} FilterAppend<T>(a: seq<T>, b: seq<T>, p: T -> bool)
    ensures Filter(a + b, p) == Filter(a, p) + Filter(b, p)
  {
    if a == [] {
      assert a + b == b;
    } else {
      assert (a + b)[0] == a[0];
      assert (a + b)[1..] == a[1..] + b;
      FilterAppend(a[1..], b, p);
    }
  }

  /** Filtering keeps exactly the occurrences that satisfy `p`. */
  lemma {:induction false} FilterMultiset<T>(s: seq<T>, p: T -> bool)
    ensures forall x :: multiset(Filter(s, p))[x] == if p(x) then multiset(s)[x] else 0
  {
    if s != [] {
      FilterMultiset(s[1..], p);
      assert s == [s[0]] + s[1..];
      assert multiset(s) == multiset{s[0]} + multiset(s[1..]);
    }
  }

  lemma {:induction false} FilterMembership<T>(s: seq<T>, p: T -> bool, x: T)
    ensures x in Filter(s, p) <==> x in s && p(x)
  {
    FilterMultiset(s, p);
    assert x in Filter(s, p) <==> multiset(Filter(s, p))[x] > 0;
    assert x in s <==> multiset(s)[x] > 0;
  }

  lemma {:induction false} FilterAllOrNone<T>(s: seq<T>, p: T -> bool)
    ensures (forall i :: 0 <= i < |s| ==> p(s[i])) <==> Filter(s, p) == s
    ensures (forall i :: 0 <= i < |s| ==> !p(s[i])) <==> Filter(s, p) == []
  {
    if s != [] {
      FilterAllOrNone(s[1..], p);
      if Filter(s, p) == s {
        assert |Filter(s[1..], p)| <= |s[1..]|;
        assert p(s[0]);
        assert Filter(s[1..], p) == s[1..];
      }
      if Filter(s, p) == [] {
        assert !p(s[0]);
      }
      if forall i :: 0 <= i < |s| ==> p(s[i]) {
        assert forall i :: 0 <= i < |s[1..]| ==> p(s[1..][i]) by {
          forall i | 0 <= i < |s[1..]| ensures p(s[1..][i]) { assert s[1..][i] == s[i + 1]; }
        }
      }
      if forall i :: 0 <= i < |s| ==> !p(s[i]) {
        assert forall i :: 0 <= i < |s[1..]| ==> !p(s[1..][i]) by {
          forall i | 0 <= i < |s[1..]| ensures !p(s[1..][i]) { assert s[1..][i] == s[i + 1]; }
        }
      }
    }
  }

  /** A filter keeps every element exactly when it keeps as many as there are. */
  lemma {:induction false} FilterFull<T>(s: seq<T>, p: T -> bool)
    ensures |Filter(s, p)| == |s| <==> forall i :: 0 <= i < |s| ==> p(s[i])
  {
    if s != [] {
      FilterFull(s[1..], p);
      assert |Filter(s[1..], p)| <= |s[1..]|;
      if forall i :: 0 <= i < |s| ==> p(s[i]) {
        forall i | 0 <= i < |s[1..]| ensures p(s[1..][i]) { assert s[1..][i] == s[i + 1]; }
      }
      if |Filter(s, p)| == |s| {
        assert p(s[0]);
        forall i | 0 <= i < |s| ensures p(s[i]) {
          if i > 0 { assert s[i] == s[1..][i - 1]; }
        }
      }
    }
  }

  /** A filter by a weaker predicate keeps at least as many elements. */
  lemma {:induction false} FilterLengthMono<T>(s: seq<T>, p: T -> bool, q: T -> bool)
    requires forall x :: p(x) ==> q(x)
    ensures |Filter(s, p)| <= |Filter(s, q)|
  {
    if s != [] {
      FilterLengthMono(s[1..], p, q);
    }
  }

  /** The number of kept elements depends only on the multiset of the input. */
  lemma FilterLengthPerm<T>(s: seq<T>, t: seq<T>, p: T -> bool)
    requires multiset(s) == multiset(t)
    ensures |Filter(s, p)| == |Filter(t, p)|
  {
    FilterPerm(s, t, p);
    calc {
      |Filter(s, p)|;
      |multiset(Filter(s, p))|;
      |multiset(Filter(t, p))|;
      |Filter(t, p)|;
    }
  }

  lemma {:induction false} SumAppend<T>(a: seq<T>, b: seq<T>, f: T -> real)
    ensures SumOf(a + b, f) == SumOf(a, f) + SumOf(b, f)
  {
    if a == [] {
      assert a + b == b;
    } else {
      assert (a + b)[0] == a[0];
      assert (a + b)[1..] == a[1..] + b;
      SumAppend(a[1..], b, f);
    }
  }

  lemma {:induction false} NatSumAppend<T>(a: seq<T>, b: seq<T>, f: T -> nat)
    ensures NatSumOf(a + b, f) == NatSumOf(a, f) + NatSumOf(b, f)
  {
    if a == [] {
      assert a + b == b;
    } else {
      assert (a + b)[0] == a[0];
      assert (a + b)[1..] == a[1..] + b;
      NatSumAppend(a[1..], b, f);
    }
  }

  /** A sum of terms that each lie in [lo, hi] lies in [n * lo, n * hi]. */
  lemma {:induction false} SumBounds<T>(s: seq<T>, f: T -> real, lo: real, hi: real)
    requires forall i :: 0 <= i < |s| ==> lo <= f(s[i]) <= hi
    ensures |s| as real * lo <= SumOf(s, f) <= |s| as real * hi
  {
    if s != [] {
      var rest := s[1..];
      forall i | 0 <= i < |rest| ensures lo <= f(rest[i]) <= hi {
        assert rest[i] == s[i + 1];
      }
      SumBounds(rest, f, lo, hi);
      assert SumOf(s, f) == f(s[0]) + SumOf(rest, f);
      var n := |rest| as real;
      assert |s| as real == n + 1.0;
      assert (n + 1.0) * lo == n * lo + lo;
      assert (n + 1.0) * hi == n * hi + hi;
    }
  }

  /** The mean of terms that each lie in [lo, hi] lies in [lo, hi]. */
  lemma MeanBounds<T>(s: seq<T>, f: T -> real, lo: real, hi: real)
    requires |s| > 0
    requires forall i :: 0 <= i < |s| ==> lo <= f(s[i]) <= hi
    ensures lo <= SumOf(s, f) / |s| as real <= hi
  {
    SumBounds(s, f, lo, hi);
    DivBounds(SumOf(s, f), |s| as real, lo, hi);
  }

  lemma DivBounds(sum: real, n: real, lo: real, hi: real)
    requires n > 0.0 && n * lo <= sum <= n * hi
    ensures lo <= sum / n <= hi
  {
    var m := sum / n;
    assert m * n == sum;
    assert (m - lo) * n >= 0.0;
    assert (hi - m) * n >= 0.0;
  }

  /** A part of a positive whole, divided by the whole, is a fraction in [0, 1]. */
  lemma UnitFraction(n: real, d: real)
    requires d > 0.0 && 0.0 <= n <= d
    ensures 0.0 <= n / d <= 1.0
  {
    var t := n / d;
    assert t * d == n;
    assert t * d <= 1.0 * d;
  }

  /** Removing the element at position j from a sequence. */
  function RemoveAt<T>(t: seq<T>, j: nat): (r: seq<T>)
    requires j < |t|
    ensures |r| == |t| - 1
  {
    t[..j] + t[j + 1..]
  }

  lemma RemoveAtMultiset<T>(t: seq<T>, j: nat)
    requires j < |t|
    ensures multiset(RemoveAt(t, j)) == multiset(t) - multiset{t[j]}
  {
    assert t == t[..j] + [t[j]] + t[j + 1..];
    assert multiset(t) == multiset(t[..j]) + multiset{t[j]} + multiset(t[j + 1..]);
  }

  lemma {:induction false} SumRemoveAt<T>(t: seq<T>, j: nat, f: T -> real)
    requires j < |t|
    ensures SumOf(t, f) == f(t[j]) + SumOf(RemoveAt(t, j), f)
  {
    if j == 0 {
      assert RemoveAt(t, 0) == t[1..];
    } else {
      SumRemoveAt(t[1..], j - 1, f);
      var r := RemoveAt(t, j);
      assert r[0] == t[0];
      assert r[1..] == RemoveAt(t[1..], j - 1);
    }
  }

  /** A sum does not depend on the order of its terms. */
  lemma {:induction false} SumPerm<T>(s: seq<T>, t: seq<T>, f: T -> real)
    requires multiset(s) == multiset(t)
    ensures SumOf(s, f) == SumOf(t, f)
  {
    if s == [] {
      assert |t| == |multiset(t)| == 0;
    } else {
      assert s[0] in multiset(t);
      var j :| 0 <= j < |t| && t[j] == s[0];
      RemoveAtMultiset(t, j);
      assert s == [s[0]] + s[1..];
      assert multiset(s[1..]) == multiset(s) - multiset{s[0]};
      SumPerm(s[1..], RemoveAt(t, j), f);
      SumRemoveAt(t, j, f);
    }
  }

  lemma {:induction false} FilterRemoveAt<T>(t: seq<T>, j: nat, p: T -> bool)
    requires j < |t|
    ensures Filter(t, p) == (if p(t[j]) then Filter(t[..j], p) + [t[j]] else Filter(t[..j], p))
                            + Filter(t[j + 1..], p)
    ensures Filter(RemoveAt(t, j), p) == Filter(t[..j], p) + Filter(t[j + 1..], p)
  {
    assert t == t[..j] + ([t[j]] + t[j + 1..]);
    FilterAppend(t[..j], [t[j]] + t[j + 1..], p);
    FilterAppend([t[j]], t[j + 1..], p);
    assert Filter([t[j]], p) == (if p(t[j]) then [t[j]] else []) + Filter([t[j]][1..], p);
    FilterAppend(t[..j], t[j + 1..], p);
  }

  /** A filter of a permutation is a permutation of the filter. */
  lemma {:induction false} FilterPerm<T>(s: seq<T>, t: seq<T>, p: T -> bool)
    requires multiset(s) == multiset(t)
    ensures multiset(Filter(s, p)) == multiset(Filter(t, p))
  {
    if s == [] {
      assert |t| == |multiset(t)| == 0;
    } else {
      assert s[0] in multiset(t);
      var j :| 0 <= j < |t| && t[j] == s[0];
      RemoveAtMultiset(t, j);
      assert s == [s[0]] + s[1..];
      assert multiset(s[1..]) == multiset(s) - multiset{s[0]};
      FilterPerm(s[1..], RemoveAt(t, j), p);
      FilterRemoveAt(t, j, p);
      assert Filter(s, p) == (if p(s[0]) then [s[0]] else []) + Filter(s[1..], p);
    }
  }
}
