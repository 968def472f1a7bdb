/** What a query answers, in terms of the cells themselves: the tests of a filter, the order of the rows, the page. */
module QueryLaws {
  import opened Wrappers
  import opened Sequences
  import opened Values
  import opened Query
  import Sorting
  import Strings

  // ---- The orders of the cell types ----

  /** `a` ends where `b` goes on, or has the lesser character where they first differ. */
  ghost predicate TextBefore(a: string, b: string) {
    exists p: nat :: DiffersAt(a, b, p)
  }

  predicate DiffersAt(a: string, b: string, p: nat) {
    && p <= |a| && p < |b| && a[..p] == b[..p]
    && (p < |a| ==> a[p] < b[p])
  }

  lemma {:induction false} BeforeIsTextual(a: string, b: string)
    ensures Before(a, b) <==> TextBefore(a, b)
  {
    if b == [] {
    } else if a == [] {
      assert DiffersAt(a, b, 0);
    } else if a[0] == b[0] {
      BeforeIsTextual(a[1..], b[1..]);
      if TextBefore(a, b) {
        var p: nat :| DiffersAt(a, b, p);
        assert a[..p][1..] == a[1..][..p - 1] && b[..p][1..] == b[1..][..p - 1];
        assert DiffersAt(a[1..], b[1..], p - 1);
      }
      if TextBefore(a[1..], b[1..]) {
        var p: nat :| DiffersAt(a[1..], b[1..], p);
        assert a[..p + 1] == [a[0]] + a[1..][..p] && b[..p + 1] == [b[0]] + b[1..][..p];
        assert DiffersAt(a, b, p + 1);
      }
    } else {
      forall p: nat | DiffersAt(a, b, p)
        ensures a[0] < b[0]
      {
        AgreeBefore(a, b, p);
      }
      assert a[0] < b[0] ==> DiffersAt(a, b, 0);
    }
  }

  lemma AgreeBefore(a: string, b: string, p: nat)
    requires DiffersAt(a, b, p) && a != []
    ensures if p > 0 then a[0] == b[0] else a[0] < b[0]
  {
    if p > 0 {
      assert a[0] == a[..p][0] && b[0] == b[..p][0];
    }
  }

  /** Numbers by value, text by its characters, false before true. */
  ghost predicate Smaller(a: Value, b: Value) {
    match (a, b)
    case (Num(x), Num(y)) => x < y
    case (Str(x), Str(y)) => TextBefore(x, y)
    case (Bool(x), Bool(y)) => !x && y
    case _ => false
  }

  lemma LessIsSmaller(js: Js, a: Value, b: Value)
    requires (a.Bool? && b.Bool?) || (a.Num? && b.Num?) || (a.Str? && b.Str?)
    ensures Less(js, a, b) <==> Smaller(a, b)
  {
    if a.Str? {
      BeforeIsTextual(a.s, b.s);
    }
  }

  // ---- The order of the rows ----

  /** The rows have the same cells under the first `k` keys. */
  predicate AgreeOn(order: seq<Key>, k: nat, a: Row, b: Row)
    requires k <= |order|
  {
    forall m :: 0 <= m < k ==> Cell(a, order[m].column) == Cell(b, order[m].column)
  }

  /** Of two cells that differ: the empty one last; else the smaller first, or the larger under a descending key. */
  ghost predicate InKeyOrder(x: Value, y: Value, desc: bool) {
    !Nullish(x) && (!Nullish(y) ==> if desc then Smaller(y, x) else Smaller(x, y))
  }

  /** The first key under which the rows differ puts `a` before `b`. */
  ghost predicate Precedes(order: seq<Key>, a: Row, b: Row) {
    forall k :: 0 <= k < |order| && AgreeOn(order, k, a, b) && Cell(a, order[k].column) != Cell(b, order[k].column) ==>
      InKeyOrder(Cell(a, order[k].column), Cell(b, order[k].column), order[k].desc)
  }

  lemma CellsInKeyOrder(js: Js, x: Value, y: Value, desc: bool)
    requires Comparable(x, y) && x != y
    ensures CompareCells(js, x, y, desc) <= 0 <==> InKeyOrder(x, y, desc)
  {
    if !Nullish(x) && !Nullish(y) {
      LessIsSmaller(js, x, y);
      LessIsSmaller(js, y, x);
      LessIsLinear(js, x, y);
    }
  }

  lemma {:induction false} ComparedFrom(js: Js, order: seq<Key>, k: nat, a: Row, b: Row)
    requires k <= |order| && ColumnsComparable(order, [a, b]) && AgreeOn(order, k, a, b) && Compare(js, order, k, a, b) <= 0
    ensures Precedes(order, a, b)
    decreases |order| - k
  {
    if k < |order| {
      assert a in [a, b] && b in [a, b];
      var x, y := Cell(a, order[k].column), Cell(b, order[k].column);
      if x == y {
        ComparedFrom(js, order, k + 1, a, b);
      } else {
        CellsInKeyOrder(js, x, y, order[k].desc);
        CellsCompareBothWays(js, x, y, order[k].desc);
      }
    }
  }

  lemma {:induction false} AgreeingCompareEqual(js: Js, order: seq<Key>, k: nat, a: Row, b: Row)
    requires k <= |order| && AgreeOn(order, |order|, a, b)
    ensures Compare(js, order, k, a, b) == 0
    decreases |order| - k
  {
    if k < |order| {
      AgreeingCompareEqual(js, order, k + 1, a, b);
    }
  }

  predicate Satisfies(js: Js, filters: seq<Where>, r: Row) {
    forall f :: 0 <= f < |filters| ==> Holds(js, filters[f], r)
  }

  /** The selected rows, each from its own place in the table: in key order, ties as they are stored. */
  ghost predicate InPlace(js: Js, filters: seq<Where>, order: seq<Key>, rows: seq<Row>, sorted: seq<Row>, at: seq<nat>) {
    && |at| == |sorted|
    && (forall i :: 0 <= i < |at| ==> at[i] < |rows| && sorted[i] == rows[at[i]])
    && (forall i, j :: 0 <= i < j < |at| ==> at[i] != at[j])
    && (forall k :: 0 <= k < |rows| ==> (k in at <==> Satisfies(js, filters, rows[k])))
    && (forall i, j :: 0 <= i < j < |at| ==> Precedes(order, sorted[i], sorted[j]))
    && (forall i, j :: 0 <= i < j < |at| && AgreeOn(order, |order|, sorted[i], sorted[j]) ==> at[i] < at[j])
  }

  function Below(n: nat): (places: set<nat>)
    ensures |places| == n && forall m: nat :: m in places <==> m < n
  {
    if n == 0 then {} else Below(n - 1) + {n - 1}
  }

  /** A sequence of `n` distinct numbers below `n` has them all. */
  lemma AllPlaces(at: seq<nat>, n: nat, m: nat)
    requires |at| == n && NoDuplicates(at) && (forall i :: 0 <= i < n ==> at[i] < n) && m < n
    ensures m in at
  {
    if m !in at {
      DistinctInSet(at, Below(n) - {m});
    }
  }

  /** The places of the sorted rows in the table: `to` leads to the matching rows, `from` from there to the table. */
  function Places(to: seq<nat>, from: seq<nat>): seq<nat>
    requires forall i :: 0 <= i < |to| ==> to[i] < |from|
  {
    seq(|to|, i requires 0 <= i < |to| => from[to[i]])
  }

  lemma PlacesCover(to: seq<nat>, from: seq<nat>, k: nat)
    requires |to| == |from| && NoDuplicates(to) && forall i :: 0 <= i < |to| ==> to[i] < |from|
    ensures k in Places(to, from) <==> k in from
  {
    var at := Places(to, from);
    if k in from {
      var m :| 0 <= m < |from| && from[m] == k;
      AllPlaces(to, |from|, m);
      var i :| 0 <= i < |to| && to[i] == m;
      assert at[i] == k;
    }
    if k in at {
      var i :| 0 <= i < |at| && at[i] == k;
      assert from[to[i]] in from;
    }
  }

  lemma TracksApart(le: (Row, Row) -> bool, out: seq<Row>, sorted: seq<Row>, to: seq<nat>)
    requires Sorting.Tracks(le, out, |out|, sorted, to)
    ensures NoDuplicates(to)
    ensures forall i, j :: 0 <= i < j < |to| && le(out[to[j]], out[to[i]]) ==> to[i] < to[j]
  {
    forall i, j | 0 <= i < j < |to|
      ensures to[i] != to[j] && (le(out[to[j]], out[to[i]]) ==> to[i] < to[j])
    {
      assert Sorting.InTrack(le, out, to[i], to[j]);
    }
  }

  lemma SortedPair(js: Js, order: seq<Key>, out: seq<Row>, sorted: seq<Row>, to: seq<nat>, i: nat, j: nat)
    requires ColumnsComparable(order, out) && sorted == Sorting.Sort(InOrder(js, order), out) && i < j < |sorted|
    requires Sorting.Tracks(InOrder(js, order), out, |out|, sorted, to)
    ensures Precedes(order, sorted[i], sorted[j])
    ensures AgreeOn(order, |order|, sorted[i], sorted[j]) ==> to[i] < to[j]
  {
    SortedInOrder(js, order, out, sorted, i, j);
    TracksApart(InOrder(js, order), out, sorted, to);
    if AgreeOn(order, |order|, sorted[i], sorted[j]) {
      AgreeingCompareEqual(js, order, 0, sorted[j], sorted[i]);
    }
  }

  /** Before slicing: exactly the rows that pass, from the places they have in the table, in the order asked for. */
  lemma SortedByItsKeys(js: Js, filters: seq<Where>, order: seq<Key>, rows: seq<Row>) returns (at: seq<nat>)
    requires ColumnsComparable(order, Filter(PassesAll(js, filters, |filters|), rows))
    ensures InPlace(js, filters, order, rows, Sorted(js, filters, order, rows), at)
  {
    var p := PassesAll(js, filters, |filters|);
    var out, sorted := Filter(p, rows), Sorted(js, filters, order, rows);
    var from := FilterEmbeds(p, rows);
    MatchingIsOneFilter(js, filters, |filters|, rows);
    SortedIsSort(js, filters, order, rows);
    var to := Sorting.SortTracks(InOrder(js, order), out, |out|);
    TracksApart(InOrder(js, order), out, sorted, to);
    at := Places(to, from);
    forall i, j | 0 <= i < j < |at|
      ensures at[i] != at[j] && Precedes(order, sorted[i], sorted[j])
      ensures AgreeOn(order, |order|, sorted[i], sorted[j]) ==> at[i] < at[j]
    {
      SortedPair(js, order, out, sorted, to, i, j);
    }
    forall k | 0 <= k < |rows|
      ensures k in at <==> Satisfies(js, filters, rows[k])
    {
      PlacesCover(to, from, k);
    }
  }

  lemma SortedInOrder(js: Js, order: seq<Key>, out: seq<Row>, sorted: seq<Row>, i: nat, j: nat)
    requires ColumnsComparable(order, out) && sorted == Sorting.Sort(InOrder(js, order), out) && i < j < |sorted|
    ensures Precedes(order, sorted[i], sorted[j])
  {
    ComparatorIsTotalPreorder(js, order, out);
    assert out[..|out|] == out;
    Sorting.SortOrders(InOrder(js, order), out, |out|);
    Sorting.SortMembers(InOrder(js, order), out, |out|, sorted[i]);
    Sorting.SortMembers(InOrder(js, order), out, |out|, sorted[j]);
    assert InOrder(js, order)(sorted[i], sorted[j]);
    ComparedFrom(js, order, 0, sorted[i], sorted[j]);
  }

  // ---- The tests of a filter ----

  /** What an ordering test says of two things in order, equal, or in the other order. */
  predicate Asks(op: Op, below: bool, equal: bool) {
    match op
    case Gt => !below && !equal
    case Gte => !below
    case Lt => below
    case Lte => below || equal
    case _ => false
  }

  predicate Ordering(op: Op) { op in {Gt, Gte, Lt, Lte} }

  /** A cell of text is compared as text with the value of the filter. */
  lemma TextIsTested(js: Js, f: Where, r: Row, text: string)
    requires Cell(r, f.column) == Str(text)
    ensures f.op == Eq ==> (Holds(js, f, r) <==> text == f.value)
    ensures f.op == Neq ==> (Holds(js, f, r) <==> text != f.value)
    ensures Ordering(f.op) ==> (Holds(js, f, r) <==> Asks(f.op, TextBefore(text, f.value), text == f.value))
  {
    BeforeIsTextual(text, f.value);
    BeforeIsTextual(f.value, text);
    BeforeIsLinear(text, f.value);
  }

  /** What a cell counts as where numbers are compared: null as 0, truth as 1. */
  function NumberIn(v: Value): Option<real> {
    match v
    case Null => Some(0.0)
    case Bool(b) => Some(if b then 1.0 else 0.0)
    case Num(n) => Some(n)
    case _ => None
  }

  /** Any other cell is compared as a number, and fails every test with a value that is none, and an empty one equality. */
  lemma NumbersAreTested(js: Js, f: Where, r: Row)
    requires !Cell(r, f.column).Str?
    ensures var cell, value := Cell(r, f.column), js.numeric(f.value);
            var comparable := NumberIn(cell).Some? && value.Some?;
            && (f.op == Eq ==> (Holds(js, f, r) <==> comparable && cell != Null && NumberIn(cell).value == value.value))
            && (f.op == Neq ==> (Holds(js, f, r) <==> !comparable || cell == Null || NumberIn(cell).value != value.value))
            && (Ordering(f.op) ==> (Holds(js, f, r) <==>
                  comparable && Asks(f.op, NumberIn(cell).value < value.value, NumberIn(cell).value == value.value)))
  {
  }

  /** `is` tells empty from present, and true from false as the language reads truth. */
  lemma WordsAreTested(js: Js, f: Where, r: Row)
    requires f.op == Is && f.value in {"null", "notnull", "true", "false"}
    ensures var cell := Cell(r, f.column);
            var empty := cell == Missing || cell == Null;
            var falsy := empty || cell == Bool(false) || cell == Num(0.0) || cell == Str("");
            Holds(js, f, r) <==> if f.value == "null" then empty else if f.value == "notnull" then !empty
                                 else if f.value == "true" then !falsy else falsy
  {
  }

  /** Equal as text, or as a number where the cell is not text; what is empty equals nothing. */
  predicate Equals(js: Js, cell: Value, text: string) {
    if cell.Str? then cell.s == text
    else cell != Null && NumberIn(cell).Some? && js.numeric(text).Some? && NumberIn(cell).value == js.numeric(text).value
  }

  lemma EqualsIsLoose(js: Js, cell: Value, text: string)
    ensures LooseEq(js, cell, text) <==> Equals(js, cell, text)
  {
  }

  /** `in` takes the first fifty values between the commas. */
  lemma MembersAreTested(js: Js, f: Where, r: Row, values: seq<string>)
    requires f.op == In && values == Strings.Split(f.value, ',')
    ensures Holds(js, f, r) <==> exists i :: 0 <= i < |values| && i < 50 && Equals(js, Cell(r, f.column), values[i])
  {
    forall text: string
      ensures LooseEq(js, Cell(r, f.column), text) <==> Equals(js, Cell(r, f.column), text)
    {
      EqualsIsLoose(js, Cell(r, f.column), text);
    }
  }

  /** Patterns are matched against the text of a cell, an empty one having none; `ilike` ignores case. */
  lemma PatternsAreTested(js: Js, f: Where, r: Row)
    requires f.op == Like || f.op == ILike
    ensures var cell := Cell(r, f.column);
            && (cell.Str? ==> (Holds(js, f, r) <==> js.like(f.value, cell.s, f.op == ILike)))
            && (cell == Missing || cell == Null ==> (Holds(js, f, r) <==> js.like(f.value, "", f.op == ILike)))
            && (cell.Num? ==> (Holds(js, f, r) <==> js.like(f.value, js.show(cell.n), f.op == ILike)))
  {
  }

  // ---- The page ----

  /** Which rows of the whole a page has, and of each the columns asked for; one it lacks comes back as missing. */
  lemma PageByPlace(js: Js, q: Query, rows: seq<Row>)
    requires q.limit >= 0 && q.offset >= 0
    ensures var page, whole := Select(js, q, rows), Sorted(js, q.filters, q.order, rows);
            && |page| == (if q.offset >= |whole| then 0 else if |whole| - q.offset < q.limit then |whole| - q.offset else q.limit)
            && forall i :: 0 <= i < |page| ==>
                 && (q.columns.None? ==> page[i] == whole[q.offset + i])
                 && (q.columns.Some? ==> forall c :: c in page[i] <==> c in q.columns.value)
                 && (q.columns.Some? ==> forall c :: c in page[i] ==> page[i][c] == Cell(whole[q.offset + i], c))
  {
  }

  /** What a list may ask for; anything else is refused. */
  lemma AcceptedIff(known: seq<string>, q: Query, maxLimit: int)
    ensures Objection(known, q, maxLimit).None? <==>
            && 1 <= q.limit <= maxLimit && 0 <= q.offset <= 1_000_000
            && (q.columns.Some? ==> |q.columns.value| <= 50 && forall i :: 0 <= i < |q.columns.value| ==> q.columns.value[i] in known)
            && |q.filters| <= 10 && (forall i :: 0 <= i < |q.filters| ==> FilterFits(known, q.filters[i]))
            && |q.order| <= 3 && (forall i :: 0 <= i < |q.order| ==> q.order[i].column in known)
  {
    FiltersFit(known, q.filters, |q.filters|);
  }

  predicate FilterFits(known: seq<string>, f: Where) {
    f.column in known && |f.value| <= 500 && (f.op == Is ==> f.value in {"null", "notnull", "true", "false"})
  }

  lemma {:induction false} FiltersFit(known: seq<string>, filters: seq<Where>, n: nat)
    requires n <= |filters|
    ensures FilterObjection(known, filters, n).None? <==>
            forall i :: 0 <= i < n ==> filters[i].column in known && (filters[i].op == Is ==> filters[i].value in {"null", "notnull", "true", "false"})
  {
    if n > 0 {
      FiltersFit(known, filters, n - 1);
    }
  }
}
