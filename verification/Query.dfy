/** The query engine of one table: filters, multi-key sorting, slicing, projection. */
module Query {
  import opened Wrappers
  import opened Sequences
  import opened Values
  import Sorting
  import Strings

  type Row = map<string, Value>

  function Cell(r: Row, column: string): (v: Value) { if column in r then r[column] else Missing }

  datatype Op = Eq | Neq | Gt | Gte | Lt | Lte | Like | ILike | In | Is

  datatype Where = Where(column: string, op: Op, value: string)

  datatype Key = Key(column: string, desc: bool)

  /** `columns` is None for all of them. */
  datatype Query = Query(columns: Option<seq<string>>, filters: seq<Where>, order: seq<Key>, limit: int, offset: int)

  datatype Code =
    | InvalidTable | InvalidPagination | InvalidColumn | InvalidSelect | InvalidFilter | InvalidOrder
    | EmptyBody | BodyTooLarge | BadField | InvalidId | RowNotFound | TableNotFound | NotFound | ValidationError | Forbidden

  const MAX_FILTERS: nat := 10
  const MAX_FILTER_CHARS: nat := 500
  const MAX_IN_LIST: nat := 50
  const MAX_SORT_KEYS: nat := 3
  const MAX_COLUMNS: nat := 50
  const MAX_OFFSET: int := 1_000_000

  // ---- What is accepted ----

  predicate IsWord(value: string) { value in {"null", "notnull", "true", "false"} }

  /** The checks of buildList, in their order; `None` means the query is run. */
  function Objection(known: seq<string>, q: Query, maxLimit: int): Option<Code> {
    if q.limit < 1 || q.limit > maxLimit then Some(InvalidPagination)
    else if q.offset < 0 || q.offset > MAX_OFFSET then Some(InvalidPagination)
    else if q.columns.Some? && exists i :: 0 <= i < |q.columns.value| && q.columns.value[i] !in known then Some(InvalidColumn)
    else if q.columns.Some? && |q.columns.value| > MAX_COLUMNS then Some(InvalidSelect)
    else if |q.filters| > MAX_FILTERS then Some(InvalidFilter)
    else if exists i :: 0 <= i < |q.filters| && |q.filters[i].value| > MAX_FILTER_CHARS then Some(InvalidFilter)
    else if FilterObjection(known, q.filters, |q.filters|).Some? then FilterObjection(known, q.filters, |q.filters|)
    else if |q.order| > MAX_SORT_KEYS then Some(InvalidOrder)
    else if exists i :: 0 <= i < |q.order| && q.order[i].column !in known then Some(InvalidColumn)
    else None
  }

  /** The first of the first `n` filters that cannot be built decides. */
  function FilterObjection(known: seq<string>, filters: seq<Where>, n: nat): Option<Code>
    requires n <= |filters|
  {
    if n == 0 then None
    else if FilterObjection(known, filters, n - 1).Some? then FilterObjection(known, filters, n - 1)
    else if filters[n - 1].column !in known then Some(InvalidColumn)
    else if filters[n - 1].op == Is && !IsWord(filters[n - 1].value) then Some(InvalidFilter)
    else None
  }

  // ---- Filters ----

  function Truthy(v: Value): bool {
    match v
    case Missing => false
    case Null => false
    case Bool(b) => b
    case Num(n) => n != 0.0
    case Str(s) => s != ""
  }

  predicate Holds(js: Js, f: Where, r: Row) {
    var v := Cell(r, f.column);
    match f.op
    case Eq => LooseEq(js, v, f.value)
    case Neq => !LooseEq(js, v, f.value)
    case Gt => Less(js, Str(f.value), v)
    case Gte => AtMost(js, Str(f.value), v)
    case Lt => Less(js, v, Str(f.value))
    case Lte => AtMost(js, v, Str(f.value))
    case Like => js.like(f.value, Text(js, v), false)
    case ILike => js.like(f.value, Text(js, v), true)
    case In =>
      var options := Strings.Split(f.value, ',');
      exists i :: 0 <= i < |options| && i < MAX_IN_LIST && LooseEq(js, v, options[i])
    case Is =>
      if f.value == "null" then Nullish(v)
      else if f.value == "notnull" then !Nullish(v)
      else Truthy(v) == (f.value == "true")
  }

  function Passes(js: Js, f: Where): Row -> bool { (r: Row) => Holds(js, f, r) }

  /** One pass per filter. */
  function Matching(js: Js, filters: seq<Where>, n: nat, rows: seq<Row>): seq<Row>
    requires n <= |filters|
  {
    if n == 0 then rows else Filter(Passes(js, filters[n - 1]), Matching(js, filters, n - 1, rows))
  }

  function PassesAll(js: Js, filters: seq<Where>, n: nat): Row -> bool
    requires n <= |filters|
  {
    (r: Row) => forall i :: 0 <= i < n ==> Holds(js, filters[i], r)
  }

  lemma {:induction false} MatchingIsOneFilter(js: Js, filters: seq<Where>, n: nat, rows: seq<Row>)
    requires n <= |filters|
    ensures Matching(js, filters, n, rows) == Filter(PassesAll(js, filters, n), rows)
  {
    if n == 0 {
      FilterAll(PassesAll(js, filters, 0), rows, |rows|);
    } else {
      MatchingIsOneFilter(js, filters, n - 1, rows);
      FilterTwice(Passes(js, filters[n - 1]), PassesAll(js, filters, n - 1), PassesAll(js, filters, n), rows, |rows|);
    }
  }

  // ---- Order ----

  function CompareCells(js: Js, a: Value, b: Value, desc: bool): int {
    if a == b then 0
    else if Nullish(a) then 1
    else if Nullish(b) then -1
    else if Less(js, a, b) then (if desc then 1 else -1)
    else (if desc then -1 else 1)
  }

  /** The first key from the `k`-th on that tells the rows apart decides. */
  function Compare(js: Js, keys: seq<Key>, k: nat, a: Row, b: Row): int
    requires k <= |keys|
    decreases |keys| - k
  {
    if k == |keys| then 0
    else
      var c := CompareCells(js, Cell(a, keys[k].column), Cell(b, keys[k].column), keys[k].desc);
      if c != 0 then c else Compare(js, keys, k + 1, a, b)
  }

  function InOrder(js: Js, keys: seq<Key>): (Row, Row) -> bool { (a: Row, b: Row) => Compare(js, keys, 0, a, b) <= 0 }

  ghost predicate ColumnsComparable(keys: seq<Key>, rows: seq<Row>) {
    forall k, a, b :: 0 <= k < |keys| && a in rows && b in rows ==> Comparable(Cell(a, keys[k].column), Cell(b, keys[k].column))
  }

  /** Comparing two cells the other way round gives the opposite answer, except between the two kinds of empty. */
  lemma CellsCompareBothWays(js: Js, a: Value, b: Value, desc: bool)
    requires Comparable(a, b) || (Nullish(a) && Nullish(b))
    ensures CompareCells(js, a, b, desc) == -CompareCells(js, b, a, desc) <==> !(Nullish(a) && Nullish(b) && a != b)
    ensures Comparable(a, b) ==> (CompareCells(js, a, b, desc) == 0 <==> a == b)
  {
    if !Nullish(a) && !Nullish(b) {
      LessIsLinear(js, a, b);
    }
  }

  lemma CellsCompareInChains(js: Js, a: Value, b: Value, c: Value, desc: bool)
    requires Comparable(a, b) && Comparable(b, c) && Comparable(a, c)
    requires CompareCells(js, a, b, desc) <= 0 && CompareCells(js, b, c, desc) <= 0
    ensures CompareCells(js, a, c, desc) <= 0
    ensures CompareCells(js, a, c, desc) == 0 ==> a == b == c
  {
    CellsCompareBothWays(js, a, c, desc);
    if Nullish(a) {
    } else if Nullish(b) {
    } else if Nullish(c) {
    } else {
      LessIsLinear(js, a, b);
      LessIsLinear(js, b, c);
      LessIsLinear(js, a, c);
      if Less(js, a, b) && Less(js, b, c) {
        LessChains(js, a, b, c);
      }
      if Less(js, c, b) && Less(js, b, a) {
        LessChains(js, c, b, a);
      }
    }
  }

  lemma {:induction false} RowsCompareBothWays(js: Js, keys: seq<Key>, k: nat, a: Row, b: Row)
    requires k <= |keys| && ColumnsComparable(keys, [a, b])
    ensures Compare(js, keys, k, a, b) == -Compare(js, keys, k, b, a)
    decreases |keys| - k
  {
    if k < |keys| {
      assert a in [a, b] && b in [a, b];
      CellsCompareBothWays(js, Cell(a, keys[k].column), Cell(b, keys[k].column), keys[k].desc);
      RowsCompareBothWays(js, keys, k + 1, a, b);
    }
  }

  lemma {:induction false} RowsCompareInChains(js: Js, keys: seq<Key>, k: nat, a: Row, b: Row, c: Row)
    requires k <= |keys| && ColumnsComparable(keys, [a, b, c])
    requires Compare(js, keys, k, a, b) <= 0 && Compare(js, keys, k, b, c) <= 0
    ensures Compare(js, keys, k, a, c) <= 0
    decreases |keys| - k
  {
    if k < |keys| {
      assert a in [a, b, c] && b in [a, b, c] && c in [a, b, c];
      var x, y, z := Cell(a, keys[k].column), Cell(b, keys[k].column), Cell(c, keys[k].column);
      CellsCompareInChains(js, x, y, z, keys[k].desc);
      CellsCompareBothWays(js, x, y, keys[k].desc);
      CellsCompareBothWays(js, y, z, keys[k].desc);
      if x == y == z {
        RowsCompareInChains(js, keys, k + 1, a, b, c);
      }
    }
  }

  /** Over comparable columns the comparator is a total preorder. */
  lemma ComparatorIsTotalPreorder(js: Js, keys: seq<Key>, rows: seq<Row>)
    requires ColumnsComparable(keys, rows)
    ensures Sorting.PreordersAll(InOrder(js, keys), rows)
  {
    var le := InOrder(js, keys);
    forall a: Row, b: Row | a in rows && b in rows
      ensures le(a, b) || le(b, a)
    {
      RowsCompareBothWays(js, keys, 0, a, b);
    }
    forall a: Row, b: Row, c: Row | a in rows && b in rows && c in rows && le(a, b) && le(b, c)
      ensures le(a, c)
    {
      RowsCompareInChains(js, keys, 0, a, b, c);
    }
  }

  // ---- The result ----

  /** A requested column the row lacks comes back as missing. */
  function Project(columns: Option<seq<string>>, r: Row): Row {
    if columns.None? then r else map c | c in columns.value :: Cell(r, c)
  }

  function ProjectAll(columns: Option<seq<string>>, rows: seq<Row>): (out: seq<Row>) {
    seq(|rows|, i requires 0 <= i < |rows| => Project(columns, rows[i]))
  }

  function Slice(rows: seq<Row>, offset: nat, limit: nat): seq<Row> {
    if offset >= |rows| then [] else if offset + limit >= |rows| then rows[offset..] else rows[offset..offset + limit]
  }

  function Sorted(js: Js, filters: seq<Where>, order: seq<Key>, rows: seq<Row>): seq<Row> {
    var out := Matching(js, filters, |filters|, rows);
    if order == [] then out else Sorting.Sort(InOrder(js, order), out)
  }

  /** Filter, sort, slice, project. */
  function Select(js: Js, q: Query, rows: seq<Row>): seq<Row>
    requires q.limit >= 0 && q.offset >= 0
  {
    ProjectAll(q.columns, Slice(Sorted(js, q.filters, q.order, rows), q.offset, q.limit))
  }

  /** What would be selected without a limit and an offset. */
  function Unpaged(js: Js, q: Query, rows: seq<Row>): seq<Row> {
    ProjectAll(q.columns, Sorted(js, q.filters, q.order, rows))
  }

  lemma SelectIsASliceOfTheUnpaged(js: Js, q: Query, rows: seq<Row>)
    requires q.limit >= 0 && q.offset >= 0
    ensures Select(js, q, rows) == Slice(Unpaged(js, q, rows), q.offset, q.limit)
  {
  }

  lemma SortedIsSort(js: Js, filters: seq<Where>, order: seq<Key>, rows: seq<Row>)
    ensures var out := Matching(js, filters, |filters|, rows);
            Sorted(js, filters, order, rows) == Sorting.Sort(InOrder(js, order), out)
  {
    var out := Matching(js, filters, |filters|, rows);
    if order == [] {
      SortOfEquals(InOrder(js, order), out, |out|);
    }
  }

  lemma {:induction false} SortOfEquals(le: (Row, Row) -> bool, s: seq<Row>, n: nat)
    requires n <= |s| && forall a, b :: le(a, b)
    ensures Sorting.SortUpTo(le, s, n) == s[..n]
  {
    if n > 0 {
      SortOfEquals(le, s, n - 1);
      Sorting.TakeOneMore(s, n);
    }
  }

  /**
   * Before slicing: exactly the matching rows, in the order of the keys, and rows the keys do not tell apart in
   * the order they are stored.
   */
  lemma SortedIsAnOrderedPermutation(js: Js, filters: seq<Where>, order: seq<Key>, rows: seq<Row>, p: Row -> bool)
    requires ColumnsComparable(order, Filter(PassesAll(js, filters, |filters|), rows))
    ensures var out, sorted := Filter(PassesAll(js, filters, |filters|), rows), Sorted(js, filters, order, rows);
            && multiset(sorted) == multiset(out)
            && Sorting.Ordered(InOrder(js, order), sorted)
            && ((forall a, b :: a in out && b in out && p(a) && p(b) ==> InOrder(js, order)(a, b)) ==>
                  Filter(p, sorted) == Filter(p, out))
  {
    var out := Filter(PassesAll(js, filters, |filters|), rows);
    MatchingIsOneFilter(js, filters, |filters|, rows);
    SortedIsSort(js, filters, order, rows);
    ComparatorIsTotalPreorder(js, order, out);
    assert out[..|out|] == out;
    Sorting.SortPermutes(InOrder(js, order), out, |out|);
    Sorting.SortOrders(InOrder(js, order), out, |out|);
    if forall a, b :: a in out && b in out && p(a) && p(b) ==> InOrder(js, order)(a, b) {
      Sorting.SortIsStable(InOrder(js, order), p, out, |out|);
    }
  }

  /** Empty cells of the first key come last in both directions. */
  lemma EmptyComesLast(js: Js, filters: seq<Where>, order: seq<Key>, rows: seq<Row>, i: nat, j: nat)
    requires order != [] && ColumnsComparable(order, Filter(PassesAll(js, filters, |filters|), rows))
    requires i < j < |Sorted(js, filters, order, rows)|
    ensures var s, c := Sorted(js, filters, order, rows), order[0].column;
            Nullish(Cell(s[i], c)) ==> Nullish(Cell(s[j], c))
  {
    SortedIsAnOrderedPermutation(js, filters, order, rows, (r: Row) => true);
    var s := Sorted(js, filters, order, rows);
    assert InOrder(js, order)(s[i], s[j]);
  }
}
