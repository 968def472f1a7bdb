/** Stable sorting of sequences by a relation. */
module Sorting {
  import opened Sequences

  predicate Ordered<T>(le: (T, T) -> bool, s: seq<T>) {
    forall i, j :: 0 <= i < j < |s| ==> le(s[i], s[j])
  }

  /** Any two of the elements compare, and comparison chains. */
  ghost predicate PreordersAll<T>(le: (T, T) -> bool, s: seq<T>) {
    && (forall x, y :: x in s && y in s ==> le(x, y) || le(y, x))
    && (forall x, y, z :: x in s && y in s && z in s && le(x, y) && le(y, z) ==> le(x, z))
  }

  /** Where `x` goes among the first `k`: behind the last element it does not precede. */
  function Slot<T>(le: (T, T) -> bool, s: seq<T>, x: T, k: nat): (slot: nat)
    requires k <= |s|
    ensures slot <= k
    ensures slot > 0 ==> le(s[slot - 1], x)
    ensures forall j :: slot <= j < k ==> !le(s[j], x)
  {
    if k == 0 || le(s[k - 1], x) then k else Slot(le, s, x, k - 1)
  }

  function Insert<T>(le: (T, T) -> bool, s: seq<T>, x: T): seq<T> {
    var k := Slot(le, s, x, |s|);
    s[..k] + [x] + s[k..]
  }

  /** The first `n` elements, sorted. */
  function SortUpTo<T>(le: (T, T) -> bool, s: seq<T>, n: nat): seq<T>
    requires n <= |s|
  {
    if n == 0 then [] else Insert(le, SortUpTo(le, s, n - 1), s[n - 1])
  }

  function Sort<T>(le: (T, T) -> bool, s: seq<T>): seq<T> {
    SortUpTo(le, s, |s|)
  }

  lemma InsertElements<T>(le: (T, T) -> bool, s: seq<T>, x: T)
    ensures multiset(Insert(le, s, x)) == multiset(s) + multiset{x}
    ensures |Insert(le, s, x)| == |s| + 1
  {
    var k := Slot(le, s, x, |s|);
    assert s == s[..k] + s[k..];
  }

  lemma TakeOneMore<T>(s: seq<T>, n: nat)
    requires 0 < n <= |s|
    ensures s[..n] == s[..n - 1] + [s[n - 1]]
    ensures multiset(s[..n]) == multiset(s[..n - 1]) + multiset{s[n - 1]}
  {
    assert s[..n] == s[..n - 1] + [s[n - 1]];
  }

  /** Sorting permutes, whatever the relation. */
  lemma {:induction false} SortPermutes<T>(le: (T, T) -> bool, s: seq<T>, n: nat)
    requires n <= |s|
    ensures multiset(SortUpTo(le, s, n)) == multiset(s[..n]) && |SortUpTo(le, s, n)| == n
  {
    if n > 0 {
      SortPermutes(le, s, n - 1);
      InsertElements(le, SortUpTo(le, s, n - 1), s[n - 1]);
      TakeOneMore(s, n);
    }
  }

  lemma SortMembers<T>(le: (T, T) -> bool, s: seq<T>, n: nat, x: T)
    requires n <= |s|
    ensures x in SortUpTo(le, s, n) <==> x in s[..n]
  {
    SortPermutes(le, s, n);
    assert x in SortUpTo(le, s, n) <==> x in multiset(SortUpTo(le, s, n));
    assert x in s[..n] <==> x in multiset(s[..n]);
  }

  lemma SlotSplits<T>(le: (T, T) -> bool, s: seq<T>, x: T, i: nat)
    requires Ordered(le, s) && PreordersAll(le, s + [x]) && i < |s|
    ensures if i < Slot(le, s, x, |s|) then le(s[i], x) else le(x, s[i])
  {
    var k, all := Slot(le, s, x, |s|), s + [x];
    assert all[|s|] == x && all[i] == s[i];
    if i < k {
      assert all[k - 1] == s[k - 1];
    }
  }

  lemma InsertOrdered<T>(le: (T, T) -> bool, s: seq<T>, x: T)
    requires Ordered(le, s) && PreordersAll(le, s + [x])
    ensures Ordered(le, Insert(le, s, x))
  {
    var k, r := Slot(le, s, x, |s|), Insert(le, s, x);
    forall i, j | 0 <= i < j < |r|
      ensures le(r[i], r[j])
    {
      var i', j' := if i <= k then i else i - 1, if j <= k then j else j - 1;
      assert (i == k || r[i] == s[i']) && (j == k || r[j] == s[j']);
      if i == k {
        SlotSplits(le, s, x, j');
      } else if j == k {
        SlotSplits(le, s, x, i');
      }
    }
  }

  /** On elements that compare, sorting orders. */
  lemma {:induction false} SortOrders<T>(le: (T, T) -> bool, s: seq<T>, n: nat)
    requires n <= |s| && PreordersAll(le, s)
    ensures Ordered(le, SortUpTo(le, s, n))
  {
    if n > 0 {
      SortOrders(le, s, n - 1);
      forall x | x in SortUpTo(le, s, n - 1) + [s[n - 1]]
        ensures x in s
      {
        SortMembers(le, s, n - 1, x);
      }
      InsertOrdered(le, SortUpTo(le, s, n - 1), s[n - 1]);
    }
  }

  lemma InsertKeepsAClass<T>(le: (T, T) -> bool, p: T -> bool, s: seq<T>, x: T)
    requires forall y :: y in s && p(y) && p(x) ==> le(y, x)
    ensures Filter(p, Insert(le, s, x)) == Filter(p, s + [x])
  {
    var k := Slot(le, s, x, |s|);
    var front, back := s[..k], s[k..];
    assert s == front + back;
    FilterAppend(p, front + [x], back);
    FilterAppend(p, front, [x]);
    FilterAppend(p, front, back);
    FilterAppend(p, s, [x]);
    if p(x) {
      FilterNone(p, back, |back|);
    } else {
      FilterNone(p, [x], 1);
    }
  }

  /** Stability: elements that compare both ways keep their order. */
  lemma {:induction false} SortIsStable<T>(le: (T, T) -> bool, p: T -> bool, s: seq<T>, n: nat)
    requires n <= |s| && forall x, y :: x in s && y in s && p(x) && p(y) ==> le(x, y)
    ensures Filter(p, SortUpTo(le, s, n)) == Filter(p, s[..n])
  {
    if n > 0 {
      SortIsStable(le, p, s, n - 1);
      var sorted := SortUpTo(le, s, n - 1);
      forall y | y in sorted
        ensures y in s
      {
        SortMembers(le, s, n - 1, y);
      }
      InsertKeepsAClass(le, p, sorted, s[n - 1]);
      FilterAppend(p, sorted, [s[n - 1]]);
      FilterAppend(p, s[..n - 1], [s[n - 1]]);
      TakeOneMore(s, n);
    }
  }

  /** Where each element of a sorted sequence comes from: of two that compare both ways the earlier one stays ahead. */
  ghost predicate Tracks<T>(le: (T, T) -> bool, s: seq<T>, n: nat, sorted: seq<T>, at: seq<nat>) {
    && |at| == |sorted| == n <= |s|
    && (forall i :: 0 <= i < n ==> at[i] < n && sorted[i] == s[at[i]])
    && (forall i, j :: 0 <= i < j < n ==> InTrack(le, s, at[i], at[j]))
  }

  predicate InTrack<T>(le: (T, T) -> bool, s: seq<T>, p: nat, q: nat)
    requires p < |s| && q < |s|
  {
    p != q && (p < q || !le(s[q], s[p]))
  }

  /** Where an insertion at `k` leaves position `i`. */
  lemma InsertedAt(n: nat, at: seq<nat>, k: nat, i: nat)
    requires |at| == n && k <= n && i < n + 1
    ensures (at[..k] + [n] + at[k..])[i] == if i < k then at[i] else if i == k then n else at[i - 1]
  {
  }

  lemma InsertedTrack<T>(le: (T, T) -> bool, s: seq<T>, n: nat, sorted: seq<T>, at: seq<nat>, k: nat, i: nat, j: nat)
    requires n < |s| && Tracks(le, s, n, sorted, at) && k == Slot(le, sorted, s[n], n) && i < j < n + 1
    ensures var more := at[..k] + [n] + at[k..];
            more[i] < n + 1 && more[j] < n + 1 && InTrack(le, s, more[i], more[j])
  {
    InsertedAt(n, at, k, i);
    InsertedAt(n, at, k, j);
    if i == k {
      assert sorted[j - 1] == s[at[j - 1]] && !le(sorted[j - 1], s[n]);
    } else if j != k {
      assert InTrack(le, s, at[if i < k then i else i - 1], at[if j < k then j else j - 1]);
    }
  }

  lemma InsertTracks<T>(le: (T, T) -> bool, s: seq<T>, n: nat, sorted: seq<T>, at: seq<nat>) returns (more: seq<nat>)
    requires n < |s| && Tracks(le, s, n, sorted, at)
    ensures Tracks(le, s, n + 1, Insert(le, sorted, s[n]), more)
  {
    var k, r := Slot(le, sorted, s[n], n), Insert(le, sorted, s[n]);
    more := at[..k] + [n] + at[k..];
    forall i | 0 <= i < n + 1
      ensures more[i] < n + 1 && r[i] == s[more[i]]
    {
      var i' := if i <= k then i else i - 1;
      assert i == k || (more[i] == at[i'] && r[i] == sorted[i']);
    }
    forall i, j | 0 <= i < j < n + 1
      ensures InTrack(le, s, more[i], more[j])
    {
      InsertedTrack(le, s, n, sorted, at, k, i, j);
    }
  }

  /** Sorting tracks every element of the original, whatever the relation. */
  lemma {:induction false} SortTracks<T>(le: (T, T) -> bool, s: seq<T>, n: nat) returns (at: seq<nat>)
    requires n <= |s|
    ensures Tracks(le, s, n, SortUpTo(le, s, n), at)
  {
    if n == 0 {
      at := [];
    } else {
      var before := SortTracks(le, s, n - 1);
      at := InsertTracks(le, s, n - 1, SortUpTo(le, s, n - 1), before);
    }
  }
}
