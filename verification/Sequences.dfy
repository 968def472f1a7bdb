/** Filtering of sequences. */
module Sequences {
  /** The elements among the first `n` that satisfy the predicate. */
  function FilterUpTo<T>(p: T -> bool, s: seq<T>, n: nat): seq<T>
    requires n <= |s|
  {
    if n == 0 then [] else FilterUpTo(p, s, n - 1) + (if p(s[n - 1]) then [s[n - 1]] else [])
  }

  function Filter<T>(p: T -> bool, s: seq<T>): seq<T> {
    FilterUpTo(p, s, |s|)
  }

  /** The positions among the first `n` that satisfy the predicate, in increasing order. */
  function Positions<T>(p: T -> bool, s: seq<T>, n: nat): (at: seq<nat>)
    requires n <= |s|
    ensures forall i :: 0 <= i < |at| ==> at[i] < n && p(s[at[i]])
    ensures forall i, j :: 0 <= i < j < |at| ==> at[i] < at[j]
    ensures forall k :: 0 <= k < n && p(s[k]) ==> k in at
  {
    if n == 0 then [] else Positions(p, s, n - 1) + (if p(s[n - 1]) then [n - 1] else [])
  }

  lemma {:induction false} FilterReadsPositions<T>(p: T -> bool, s: seq<T>, n: nat)
    requires n <= |s|
    ensures var f, at := FilterUpTo(p, s, n), Positions(p, s, n);
            |f| == |at| <= n && forall i :: 0 <= i < |at| ==> f[i] == s[at[i]]
  {
    if n > 0 {
      FilterReadsPositions(p, s, n - 1);
    }
  }

  /** `t` is what `s` has at these positions, in increasing order. */
  ghost predicate Embeds<T>(t: seq<T>, s: seq<T>, at: seq<nat>) {
    && |at| == |t|
    && (forall i :: 0 <= i < |at| ==> at[i] < |s| && s[at[i]] == t[i])
    && (forall i, j :: 0 <= i < j < |at| ==> at[i] < at[j])
  }

  /** A filter keeps the relative order, and exactly the positions that satisfy the predicate. */
  lemma FilterEmbeds<T>(p: T -> bool, s: seq<T>) returns (at: seq<nat>)
    ensures Embeds(Filter(p, s), s, at)
    ensures forall k :: 0 <= k < |s| ==> (k in at <==> p(s[k]))
    ensures |Filter(p, s)| <= |s|
  {
    at := Positions(p, s, |s|);
    FilterReadsPositions(p, s, |s|);
  }

  lemma FilterMembers<T>(p: T -> bool, s: seq<T>, x: T)
    ensures x in Filter(p, s) <==> x in s && p(x)
  {
    var at := FilterEmbeds(p, s);
    if x in s && p(x) {
      var k :| 0 <= k < |s| && s[k] == x;
      assert k in at;
    }
  }

  lemma {:induction false} FilterUpToAppend<T>(p: T -> bool, a: seq<T>, b: seq<T>, n: nat)
    requires n <= |a| + |b|
    ensures FilterUpTo(p, a + b, n) == if n <= |a| then FilterUpTo(p, a, n) else Filter(p, a) + FilterUpTo(p, b, n - |a|)
  {
    if n > 0 {
      FilterUpToAppend(p, a, b, n - 1);
    }
  }

  lemma FilterAppend<T>(p: T -> bool, a: seq<T>, b: seq<T>)
    ensures Filter(p, a + b) == Filter(p, a) + Filter(p, b)
  {
    FilterUpToAppend(p, a, b, |a| + |b|);
  }

  /** Filtering twice is filtering by both. */
  lemma {:induction false} FilterTwice<T>(p: T -> bool, q: T -> bool, both: T -> bool, s: seq<T>, n: nat)
    requires n <= |s| && forall x :: x in s ==> (both(x) <==> p(x) && q(x))
    ensures Filter(p, FilterUpTo(q, s, n)) == FilterUpTo(both, s, n)
  {
    if n > 0 {
      FilterTwice(p, q, both, s, n - 1);
      var last := s[n - 1];
      FilterAppend(p, FilterUpTo(q, s, n - 1), if q(last) then [last] else []);
      assert last in s;
      assert Filter(p, [last]) == FilterUpTo(p, [last], 0) + (if p(last) then [last] else []);
    }
  }

  lemma {:induction false} FilterAgrees<T>(p: T -> bool, q: T -> bool, s: seq<T>, n: nat)
    requires n <= |s| && forall x :: x in s ==> (p(x) <==> q(x))
    ensures FilterUpTo(p, s, n) == FilterUpTo(q, s, n)
  {
    if n > 0 {
      FilterAgrees(p, q, s, n - 1);
      assert s[n - 1] in s;
    }
  }

  lemma {:induction false} FilterAll<T>(p: T -> bool, s: seq<T>, n: nat)
    requires n <= |s| && forall x :: x in s ==> p(x)
    ensures FilterUpTo(p, s, n) == s[..n]
  {
    if n > 0 {
      FilterAll(p, s, n - 1);
      assert s[n - 1] in s && s[..n] == s[..n - 1] + [s[n - 1]];
    }
  }

  lemma {:induction false} FilterNone<T>(p: T -> bool, s: seq<T>, n: nat)
    requires n <= |s| && forall x :: x in s ==> !p(x)
    ensures FilterUpTo(p, s, n) == []
  {
    if n > 0 {
      FilterNone(p, s, n - 1);
      assert s[n - 1] in s;
    }
  }

  predicate NoDuplicates<T(==)>(s: seq<T>) {
    forall i, j :: 0 <= i < j < |s| ==> s[i] != s[j]
  }

  lemma FilterNoDuplicates<T>(p: T -> bool, s: seq<T>)
    requires NoDuplicates(s)
    ensures NoDuplicates(Filter(p, s))
  {
    var at := FilterEmbeds(p, s);
  }

  lemma AppendNoDuplicates<T>(a: seq<T>, b: seq<T>)
    requires NoDuplicates(a) && NoDuplicates(b) && forall x :: x in a ==> x !in b
    ensures NoDuplicates(a + b)
  {
    var s := a + b;
    forall i, j | 0 <= i < j < |s|
      ensures s[i] != s[j]
    {
      if i < |a| <= j {
        assert s[i] in a && s[j] in b;
      }
    }
  }

  lemma {:induction false} OccursOnce<T>(a: seq<T>, x: T)
    requires NoDuplicates(a)
    ensures multiset(a)[x] <= 1
    decreases |a|
  {
    if a != [] {
      var n := |a| - 1;
      assert a == a[..n] + [a[n]];
      OccursOnce(a[..n], x);
      assert a[n] !in a[..n];
    }
  }

  lemma OccursTwice<T>(a: seq<T>, i: nat, j: nat)
    requires i < j < |a| && a[i] == a[j]
    ensures multiset(a)[a[i]] >= 2
  {
    assert a == a[..j] + [a[j]] + a[j + 1..];
    assert a[..j][i] == a[j];
    assert multiset(a[..j])[a[j]] >= 1;
  }

  lemma PermutationNoDuplicates<T>(a: seq<T>, b: seq<T>)
    requires multiset(a) == multiset(b) && NoDuplicates(a)
    ensures NoDuplicates(b)
  {
    forall i, j | 0 <= i < j < |b|
      ensures b[i] != b[j]
    {
      OccursOnce(a, b[i]);
      if b[i] == b[j] {
        OccursTwice(b, i, j);
      }
    }
  }

  lemma SameElements<T>(a: seq<T>, b: seq<T>, x: T)
    requires multiset(a) == multiset(b)
    ensures |a| == |b| && (x in a <==> x in b)
  {
    assert |a| == |multiset(a)| && |b| == |multiset(b)|;
    assert x in a <==> x in multiset(a);
    assert x in b <==> x in multiset(b);
  }

  lemma DropLast<T>(s: seq<T>)
    requires s != []
    ensures multiset(s[..|s| - 1]) == multiset(s) - multiset{s[|s| - 1]}
  {
    assert s == s[..|s| - 1] + [s[|s| - 1]];
  }

  lemma SubsetSize<T>(a: set<T>, b: set<T>)
    requires a <= b
    ensures |a| <= |b|
  {
    assert b == a + (b - a);
  }

  lemma {:induction false} DistinctInSet<T>(list: seq<T>, s: set<T>)
    requires NoDuplicates(list) && forall x :: x in list ==> x in s
    ensures |list| <= |s|
    decreases |list|
  {
    if list != [] {
      var last := list[|list| - 1];
      DistinctInSet(list[..|list| - 1], s - {last});
    }
  }
}
