/** The row routes of a project's tables: owner scoping, and the in-memory store behind them. */
module DataPlane {
  import opened Wrappers
  import opened Sequences
  import opened Strings
  import opened Values
  import opened Query

  /** A non-admin customer, or a caller without owner scoping (admin, member session, project key, agent). */
  datatype Caller = Owner(userId: string) | Unscoped

  /** A table as introspection lists it, and its rows under schema and name. */
  datatype Table = Table(schema: string, name: string, columns: seq<string>)

  type Database = map<(string, string), seq<Row>>

  const OWNER_COLUMN: string := "user_id"
  const ID_COLUMN: string := "id"
  const MAX_ID_CHARS: nat := 500
  const MAX_FIELDS: nat := 50
  const MAX_FIELD_CHARS: nat := 100_000
  const MAX_IMPORT_ERRORS: nat := 50
  const EXPORT_CAP: nat := 10_000
  const MAX_IDENT_CHARS: nat := 63

  // ---- The two ways a table is looked up ----

  predicate IsLetter(c: char) { 'a' <= c <= 'z' || 'A' <= c <= 'Z' || c == '_' }

  predicate IsIdent(s: string) {
    && 0 < |s| <= MAX_IDENT_CHARS && IsLetter(s[0])
    && forall i :: 0 <= i < |s| ==> IsLetter(s[i]) || '0' <= s[i] <= '9'
  }

  /** The scoping rules and imports take the first listed table that has the reference, as it stands, for a name. */
  function FindByName(tables: seq<Table>, ref: string): (found: Option<Table>)
    ensures found.None? <==> forall t :: t in tables ==> t.name != ref
    ensures found.Some? ==> found.value in tables && found.value.name == ref
  {
    if tables == [] then None
    else if tables[0].name == ref then Some(tables[0])
    else FindByName(tables[1..], ref)
  }

  lemma {:induction false} FindsTheFirst(tables: seq<Table>, ref: string, i: nat)
    requires i < |tables|
    ensures tables[i].name == ref && (forall j :: 0 <= j < i ==> tables[j].name != ref) ==> FindByName(tables, ref) == Some(tables[i])
    ensures FindByName(tables, ref) == Some(tables[i]) ==> exists k :: 0 <= k <= i && tables[k] == tables[i] && forall j :: 0 <= j < k ==> tables[j].name != ref
  {
    if tables[0].name == ref {
      assert FindByName(tables, ref) == Some(tables[0]);
    } else if i > 0 {
      FindsTheFirst(tables[1..], ref, i - 1);
      if FindByName(tables, ref) == Some(tables[i]) {
        assert tables[1..][i - 1] == tables[i];
        var k :| 0 <= k <= i - 1 && tables[1..][k] == tables[i] && forall j :: 0 <= j < k ==> tables[1..][j].name != ref;
        assert forall j :: 0 < j < k + 1 ==> tables[j].name == tables[1..][j - 1].name;
        assert tables[k + 1] == tables[i];
      }
    }
  }

  function Listed(tables: seq<Table>, schema: string, name: string): (found: Option<Table>)
    ensures found.None? <==> forall t :: t in tables ==> t.schema != schema || t.name != name
    ensures found.Some? ==> found.value in tables && found.value.schema == schema && found.value.name == name
  {
    if tables == [] then None
    else if tables[0].schema == schema && tables[0].name == name then Some(tables[0])
    else Listed(tables[1..], schema, name)
  }

  /** Query building takes `name` for `public.name`, and otherwise `schema.name`. */
  function Resolve(tables: seq<Table>, ref: string): Result<Table, Code> {
    var parts := Split(ref, '.');
    if |parts| > 2 || exists i :: 0 <= i < |parts| && !IsIdent(parts[i]) then Err(InvalidTable)
    else
      var found := if |parts| == 2 then Listed(tables, parts[0], parts[1]) else Listed(tables, "public", parts[0]);
      if found.Some? then Ok(found.value) else Err(TableNotFound)
  }

  /** The columns query building lets through. */
  function Usable(t: Table): (known: seq<string>)
    ensures forall c :: c in known <==> c in t.columns && IsIdent(c)
  {
    UsableColumns(t);
    Filter((c: string) => IsIdent(c), t.columns)
  }

  lemma UsableColumns(t: Table)
    ensures forall c :: c in Filter((c: string) => IsIdent(c), t.columns) <==> c in t.columns && IsIdent(c)
  {
    forall c: string
      ensures c in Filter((c: string) => IsIdent(c), t.columns) <==> c in t.columns && IsIdent(c)
    {
      FilterMembers((c: string) => IsIdent(c), t.columns, c);
    }
  }

  // ---- Owner scoping ----

  /** The rows are scoped by owner under this reference. */
  predicate Scopes(tables: seq<Table>, ref: string) {
    FindByName(tables, ref).Some? && OWNER_COLUMN in FindByName(tables, ref).value.columns
  }

  function OwnerFilterFor(tables: seq<Table>, c: Caller, ref: string): Option<Where> {
    if c.Owner? && Scopes(tables, ref) then Some(Where(OWNER_COLUMN, Eq, c.userId)) else None
  }

  predicate AssertRowOwner(js: Js, r: Row, c: Caller) {
    c.Unscoped? || OWNER_COLUMN !in r || Text(js, r[OWNER_COLUMN]) == c.userId
  }

  predicate Disowns(js: Js, body: Row, c: Caller)
    requires c.Owner?
  {
    OWNER_COLUMN in body && Text(js, body[OWNER_COLUMN]) != c.userId
  }

  function ForceOwnerInsert(js: Js, tables: seq<Table>, c: Caller, ref: string, body: Row): Result<Row, Code> {
    if c.Unscoped? || !Scopes(tables, ref) then Ok(body)
    else if Disowns(js, body, c) then Err(Forbidden)
    else Ok(body[OWNER_COLUMN := Str(c.userId)])
  }

  function ForceOwnerUpdate(js: Js, tables: seq<Table>, c: Caller, ref: string, body: Row): Result<Row, Code> {
    if c.Unscoped? || !Scopes(tables, ref) then Ok(body)
    else if Disowns(js, body, c) then Err(Forbidden)
    else Ok(body - {OWNER_COLUMN})
  }

  // ---- Bodies ----

  predicate FieldFits(columns: seq<string>, name: string, v: Value) {
    name in columns && (v.Str? ==> |v.s| <= MAX_FIELD_CHARS)
  }

  /** writableColumns; which of several bad fields is named follows their order in the body. */
  function BodyObjection(columns: seq<string>, body: Row): Option<Code> {
    if |body| == 0 then Some(EmptyBody)
    else if |body| > MAX_FIELDS then Some(BodyTooLarge)
    else if exists name :: name in body && !FieldFits(columns, name, body[name]) then Some(BadField)
    else None
  }

  function UpdateObjection(columns: seq<string>, id: string, body: Row): Option<Code> {
    if BodyObjection(columns, body).Some? then BodyObjection(columns, body)
    else if body - {ID_COLUMN} == map[] then Some(EmptyBody)
    else if |id| > MAX_ID_CHARS then Some(InvalidId)
    else None
  }

  // ---- The store ----

  /** The first row from the `k`-th on with this identifier. */
  function Find(js: Js, rows: seq<Row>, id: string, k: nat): (i: nat)
    requires k <= |rows|
    ensures k <= i <= |rows|
    ensures forall j :: k <= j < i ==> !LooseEq(js, Cell(rows[j], ID_COLUMN), id)
    ensures i < |rows| ==> LooseEq(js, Cell(rows[i], ID_COLUMN), id)
    decreases |rows| - k
  {
    if k == |rows| || LooseEq(js, Cell(rows[k], ID_COLUMN), id) then k else Find(js, rows, id, k + 1)
  }

  function Removed(rows: seq<Row>, i: nat): seq<Row>
    requires i < |rows|
  {
    rows[..i] + rows[i + 1..]
  }

  function RowsAt(db: Database, at: (string, string)): seq<Row> { if at in db then db[at] else [] }

  function RowsOf(db: Database, t: Table): seq<Row> { RowsAt(db, (t.schema, t.name)) }

  /** The rows a reference stands for. */
  function RowsBy(tables: seq<Table>, ref: string, db: Database): seq<Row> {
    var t := Resolve(tables, ref);
    if t.Ok? then RowsOf(db, t.value) else []
  }

  /** The rows of one table become these; no other table changes. */
  ghost predicate Becomes(db: Database, after: Database, t: Table, rows: seq<Row>) {
    RowsOf(after, t) == rows && forall at :: at != (t.schema, t.name) ==> RowsAt(after, at) == RowsAt(db, at)
  }

  class FakeDataBackend {
    const js: Js
    var db: Database

    constructor (js: Js)
      ensures this.js == js && db == map[]
    {
      this.js := js;
      db := map[];
    }

    method FindIndex(t: Table, id: string) returns (i: nat)
      ensures i == Find(js, RowsOf(db, t), id, 0)
    {
      var rows := RowsOf(db, t);
      i := 0;
      while i < |rows| && !LooseEq(js, Cell(rows[i], ID_COLUMN), id)
        invariant i <= |rows| && Find(js, rows, id, 0) == Find(js, rows, id, i)
      {
        i := i + 1;
      }
    }

    /** A table that has no rows yet gets its first one. */
    method Insert(t: Table, row: Row) returns (stored: Row)
      modifies this
      ensures Becomes(old(db), db, t, RowsOf(old(db), t) + [row]) && stored == row
    {
      db := db[(t.schema, t.name) := RowsOf(db, t) + [row]];
      stored := row;
    }

    method Update(t: Table, id: string, sets: Row) returns (updated: Option<Row>)
      modifies this
      ensures var rows := RowsOf(old(db), t);
              var i := Find(js, rows, id, 0);
              if i == |rows| then db == old(db) && updated.None?
              else Becomes(old(db), db, t, rows[i := rows[i] + sets]) && updated == Some(rows[i] + sets)
    {
      var i := FindIndex(t, id);
      var rows := RowsOf(db, t);
      if i == |rows| {
        return None;
      }
      db := db[(t.schema, t.name) := rows[i := rows[i] + sets]];
      updated := Some(rows[i] + sets);
    }

    method Remove(t: Table, id: string) returns (deleted: bool)
      modifies this
      ensures var rows := RowsOf(old(db), t);
              var i := Find(js, rows, id, 0);
              && deleted == (i < |rows|)
              && if deleted then Becomes(old(db), db, t, Removed(rows, i)) else db == old(db)
    {
      var i := FindIndex(t, id);
      var rows := RowsOf(db, t);
      deleted := i < |rows|;
      if deleted {
        db := db[(t.schema, t.name) := rows[..i] + rows[i + 1..]];
      }
    }
  }

  // ---- What each route answers, from the rows of the table its reference resolves to ----

  /** The list route: the query with the caller's scope as one more filter. */
  function ScopedQuery(tables: seq<Table>, c: Caller, ref: string, q: Query): Query {
    match OwnerFilterFor(tables, c, ref)
    case Some(scope) => q.(filters := q.filters + [scope])
    case None => q
  }

  function ListRows(js: Js, tables: seq<Table>, c: Caller, ref: string, q: Query, maxRows: int, rows: seq<Row>): Result<seq<Row>, Code> {
    match Resolve(tables, ref)
    case Err(code) => Err(code)
    case Ok(t) =>
      var sq := ScopedQuery(tables, c, ref, q);
      match Objection(Usable(t), sq, maxRows)
      case Some(code) => Err(code)
      case None => Ok(Select(js, sq, rows))
  }

  /** The query an export pages through. */
  function ExportQuery(tables: seq<Table>, c: Caller, ref: string, q: Query, maxRows: int): Query {
    ScopedQuery(tables, c, ref, q).(limit := PageSize(maxRows), offset := 0)
  }

  function ExportRows(js: Js, tables: seq<Table>, c: Caller, ref: string, q: Query, maxRows: int, rows: seq<Row>): Result<Exported, Code> {
    PagedRows(js, tables, ref, ExportQuery(tables, c, ref, q, maxRows), maxRows, rows)
  }

  /** What paging through a query gives: the first rows of the unpaged result, up to the cap. */
  function PagedRows(js: Js, tables: seq<Table>, ref: string, query: Query, maxRows: int, rows: seq<Row>): Result<Exported, Code> {
    match Resolve(tables, ref)
    case Err(code) => Err(code)
    case Ok(t) =>
      match Objection(Usable(t), query, maxRows)
      case Some(code) => Err(code)
      case None =>
        var whole := Unpaged(js, query, rows);
        Ok(Exported(Slice(whole, 0, EXPORT_CAP), |whole| >= EXPORT_CAP))
  }

  function GetRow(js: Js, tables: seq<Table>, c: Caller, ref: string, id: string, rows: seq<Row>): Result<Row, Code> {
    if Resolve(tables, ref).Err? then Err(Resolve(tables, ref).error)
    else if |id| > MAX_ID_CHARS then Err(InvalidId)
    else
      var i := Find(js, rows, id, 0);
      if i == |rows| || !AssertRowOwner(js, rows[i], c) then Err(RowNotFound) else Ok(rows[i])
  }

  function Creation(js: Js, tables: seq<Table>, c: Caller, ref: string, body: Row): Result<Row, Code> {
    match ForceOwnerInsert(js, tables, c, ref, body)
    case Err(code) => Err(code)
    case Ok(payload) =>
      match Resolve(tables, ref)
      case Err(code) => Err(code)
      case Ok(t) =>
        match BodyObjection(Usable(t), payload)
        case Some(code) => Err(code)
        case None => Ok(payload)
  }

  /** The fields an update may set on the row it found. */
  function Changes(js: Js, tables: seq<Table>, c: Caller, ref: string, id: string, body: Row, rows: seq<Row>): Result<Row, Code> {
    match GetRow(js, tables, c, ref, id, rows)
    case Err(code) => Err(code)
    case Ok(existing) =>
      match ForceOwnerUpdate(js, tables, c, ref, body)
      case Err(code) => Err(code)
      case Ok(payload) =>
        match UpdateObjection(Usable(Resolve(tables, ref).value), id, payload)
        case Some(code) => Err(code)
        case None => Ok(payload - {ID_COLUMN})
  }

  /** An import looks its table up by name, and knows the columns of that one. */
  function ImportObjection(tables: seq<Table>, ref: string, headers: seq<string>): Option<Code> {
    match FindByName(tables, ref)
    case None => Some(NotFound)
    case Some(t) => if exists i :: 0 <= i < |headers| && headers[i] !in t.columns then Some(ValidationError) else None
  }

  // ---- The handlers ----

  class DataPlane {
    const js: Js
    const tables: seq<Table>
    const maxRows: int
    const store: FakeDataBackend

    ghost predicate Valid() { store.js == js }

    constructor (js: Js, tables: seq<Table>, maxRows: int)
      ensures Valid() && this.js == js && this.tables == tables && this.maxRows == maxRows
      ensures fresh(store) && store.db == map[]
    {
      this.js, this.tables, this.maxRows := js, tables, maxRows;
      store := new FakeDataBackend(js);
    }

    method List(c: Caller, ref: string, q: Query) returns (r: Result<seq<Row>, Code>)
      ensures r == ListRows(js, tables, c, ref, q, maxRows, RowsBy(tables, ref, store.db))
    {
      var filters := q.filters;
      var scope := OwnerFilterFor(tables, c, ref);
      if scope.Some? {
        filters := filters + [scope.value];
      }
      r := Engine(ref, q.(filters := filters));
    }

    /** The engine's list: what the built query selects. */
    method Engine(ref: string, q: Query) returns (r: Result<seq<Row>, Code>)
      ensures match Resolve(tables, ref)
              case Err(code) => r == Err(code)
              case Ok(t) =>
                match Objection(Usable(t), q, maxRows)
                case Some(code) => r == Err(code)
                case None => r == Ok(Select(js, q, RowsOf(store.db, t)))
    {
      var t := Resolve(tables, ref);
      if t.Err? {
        return Err(t.error);
      }
      var objection := Objection(Usable(t.value), q, maxRows);
      if objection.Some? {
        return Err(objection.value);
      }
      r := Ok(Select(js, q, RowsOf(store.db, t.value)));
    }

    method Get(c: Caller, ref: string, id: string) returns (r: Result<Row, Code>)
      requires Valid()
      ensures r == GetRow(js, tables, c, ref, id, RowsBy(tables, ref, store.db))
    {
      var t := Resolve(tables, ref);
      if t.Err? {
        return Err(t.error);
      }
      if |id| > MAX_ID_CHARS {
        return Err(InvalidId);
      }
      var i := store.FindIndex(t.value, id);
      var rows := RowsOf(store.db, t.value);
      if i == |rows| || !AssertRowOwner(js, rows[i], c) {
        return Err(RowNotFound);
      }
      r := Ok(rows[i]);
    }

    method Create(c: Caller, ref: string, body: Row) returns (r: Result<Row, Code>)
      modifies store
      ensures r == Creation(js, tables, c, ref, body)
      ensures r.Err? ==> store.db == old(store.db)
      ensures r.Ok? ==> var t := Resolve(tables, ref);
                        t.Ok? && Becomes(old(store.db), store.db, t.value, RowsOf(old(store.db), t.value) + [r.value])
    {
      r := ForceOwnerInsert(js, tables, c, ref, body);
      if r.Err? {
        return;
      }
      var t := Resolve(tables, ref);
      if t.Err? {
        return Err(t.error);
      }
      var objection := BodyObjection(Usable(t.value), r.value);
      if objection.Some? {
        return Err(objection.value);
      }
      var row := store.Insert(t.value, r.value);
      r := Ok(row);
    }

    method Update(c: Caller, ref: string, id: string, body: Row) returns (r: Result<Row, Code>)
      requires Valid()
      modifies store
      ensures match Changes(js, tables, c, ref, id, body, RowsBy(tables, ref, old(store.db)))
              case Err(code) => r == Err(code) && store.db == old(store.db)
              case Ok(sets) =>
                var t := Resolve(tables, ref).value;
                var rows := RowsOf(old(store.db), t);
                var i := Find(js, rows, id, 0);
                i < |rows| && Becomes(old(store.db), store.db, t, rows[i := rows[i] + sets]) && r == Ok(rows[i] + sets)
    {
      var existing := Get(c, ref, id);
      if existing.Err? {
        return Err(existing.error);
      }
      var payload := ForceOwnerUpdate(js, tables, c, ref, body);
      if payload.Err? {
        return Err(payload.error);
      }
      var t := Resolve(tables, ref).value;
      var objection := UpdateObjection(Usable(t), id, payload.value);
      if objection.Some? {
        return Err(objection.value);
      }
      var row := store.Update(t, id, payload.value - {ID_COLUMN});
      r := Ok(row.value);
    }

    method Delete(c: Caller, ref: string, id: string) returns (r: Result<bool, Code>)
      requires Valid()
      modifies store
      ensures match GetRow(js, tables, c, ref, id, RowsBy(tables, ref, old(store.db)))
              case Err(code) => r == Err(code) && store.db == old(store.db)
              case Ok(_) =>
                var t := Resolve(tables, ref).value;
                var rows := RowsOf(old(store.db), t);
                var i := Find(js, rows, id, 0);
                i < |rows| && r == Ok(true) && Becomes(old(store.db), store.db, t, Removed(rows, i))
    {
      var existing := Get(c, ref, id);
      if existing.Err? {
        return Err(existing.error);
      }
      var deleted := store.Remove(Resolve(tables, ref).value, id);
      r := Ok(deleted);
    }

    /** `batch` is the parsed file; its rows have exactly the fields of the header. */
    method Import(c: Caller, ref: string, headers: seq<string>, batch: seq<Row>) returns (r: Result<Imported, Code>)
      modifies store
      ensures match ImportObjection(tables, ref, headers)
              case Some(code) => r == Err(code) && store.db == old(store.db)
              case None => r == Ok(Imports(js, tables, c, ref, batch)) && Gains(old(store.db), store.db, tables, ref, r.value.stored)
    {
      var objection := ImportObjection(tables, ref, headers);
      if objection.Some? {
        return Err(objection.value);
      }
      var outcome := ImportRows(c, ref, batch);
      r := Ok(outcome);
    }

    method ImportRow(c: Caller, ref: string, batch: seq<Row>, i: nat, before: Imported, ghost start: Database) returns (outcome: Imported)
      requires i < |batch| && SoFar(js, tables, c, ref, batch, i, start, store.db, before) && |before.errors| < MAX_IMPORT_ERRORS
      modifies store
      ensures SoFar(js, tables, c, ref, batch, i + 1, start, store.db, outcome)
    {
      var row := Create(c, ref, batch[i]);
      outcome := Noted(before, i, row);
      assert RowOutcomes(js, tables, c, ref, batch)[i] == row;
    }

    method ImportRows(c: Caller, ref: string, batch: seq<Row>) returns (outcome: Imported)
      modifies store
      ensures SoFar(js, tables, c, ref, batch, |batch|, old(store.db), store.db, outcome)
    {
      outcome := Imported([], []);
      for i := 0 to |batch|
        invariant SoFar(js, tables, c, ref, batch, i, old(store.db), store.db, outcome)
        invariant |outcome.errors| < MAX_IMPORT_ERRORS
      {
        outcome := ImportRow(c, ref, batch, i, outcome, old(store.db));
        if |outcome.errors| >= MAX_IMPORT_ERRORS {
          TallyStops(RowOutcomes(js, tables, c, ref, batch), i + 1, |batch|);
          return;
        }
      }
    }

    /** One page: the query at this offset. */
    method Page(ref: string, query: Query, offset: nat) returns (r: Result<seq<Row>, Code>)
      requires query.offset == 0 && query.limit >= 0 && offset < EXPORT_CAP
      ensures match PagedRows(js, tables, ref, query, maxRows, RowsBy(tables, ref, store.db))
              case Err(code) => r == Err(code)
              case Ok(_) => r == Ok(Slice(Unpaged(js, query, RowsBy(tables, ref, store.db)), offset, query.limit))
    {
      r := Engine(ref, query.(offset := offset));
      var t := Resolve(tables, ref);
      if t.Ok? {
        SameObjection(Usable(t.value), query, offset, maxRows);
        SelectIsASliceOfTheUnpaged(js, query.(offset := offset), RowsOf(store.db, t.value));
        SameUnpaged(js, query, offset, RowsOf(store.db, t.value));
      }
    }

    /** Page by page until the rows run out or the cap is reached. */
    method Pages(ref: string, query: Query) returns (r: Result<Exported, Code>)
      requires query.offset == 0 && query.limit >= 1
      ensures r == PagedRows(js, tables, ref, query, maxRows, RowsBy(tables, ref, store.db))
    {
      var all: seq<Row> := [];
      var offset := 0;
      ghost var whole := Unpaged(js, query, RowsBy(tables, ref, store.db));
      while true
        invariant offset == |all| <= |whole| && offset < EXPORT_CAP && all == whole[..offset]
        invariant offset > 0 ==> PagedRows(js, tables, ref, query, maxRows, RowsBy(tables, ref, store.db)).Ok?
        decreases EXPORT_CAP - offset
      {
        var page := Page(ref, query, offset);
        if page.Err? {
          return Err(page.error);
        }
        NextPage(whole, offset, query.limit);
        all := all + page.value;
        if |all| >= EXPORT_CAP {
          FirstRows(whole, |all|, EXPORT_CAP);
          return Ok(Exported(all[..EXPORT_CAP], true));
        }
        if |page.value| == 0 {
          break;
        }
        offset := offset + |page.value|;
        if |page.value| < query.limit {
          break;
        }
      }
      assert all == Slice(whole, 0, EXPORT_CAP);
      r := Ok(Exported(all, false));
    }

    /** The export route: everything the scoped query selects, up to the cap. */
    method Export(c: Caller, ref: string, q: Query) returns (r: Result<Exported, Code>)
      requires 10 <= maxRows <= 10_000
      ensures r == ExportRows(js, tables, c, ref, q, maxRows, RowsBy(tables, ref, store.db))
    {
      var scope := OwnerFilterFor(tables, c, ref);
      var query := q.(limit := PageSize(maxRows), offset := 0);
      if scope.Some? {
        query := query.(filters := query.filters + [scope.value]);
      }
      r := Pages(ref, query);
    }
  }

  /** After `n` rows of the file: the outcome, and what the store has gained by it. */
  ghost predicate SoFar(js: Js, tables: seq<Table>, c: Caller, ref: string, batch: seq<Row>, n: nat,
                        start: Database, db: Database, outcome: Imported)
    requires n <= |batch|
  {
    outcome == Tally(RowOutcomes(js, tables, c, ref, batch), n) && Gains(start, db, tables, ref, outcome.stored)
  }

  /** The table behind the reference, if there is one, has these rows more. */
  ghost predicate Gains(db: Database, after: Database, tables: seq<Table>, ref: string, more: seq<Row>) {
    match Resolve(tables, ref)
    case Ok(t) => Becomes(db, after, t, RowsOf(db, t) + more)
    case Err(_) => after == db && more == []
  }

  function PageSize(maxRows: int): nat {
    var floored := if maxRows < 1 then 1 else maxRows;
    if floored < 1000 then floored else 1000
  }

  datatype Exported = Exported(rows: seq<Row>, truncated: bool)

  /** The rows an import stored and the failures it recorded, by line of the file. */
  datatype Imported = Imported(stored: seq<Row>, errors: seq<(nat, Code)>)

  /** What the rows of a file give, one by one. */
  function RowOutcomes(js: Js, tables: seq<Table>, c: Caller, ref: string, batch: seq<Row>): seq<Result<Row, Code>> {
    seq(|batch|, i requires 0 <= i < |batch| => Creation(js, tables, c, ref, batch[i]))
  }

  /** The first `n` outcomes sorted out; after 50 failures nothing more is looked at. */
  function Tally(outcomes: seq<Result<Row, Code>>, n: nat): Imported
    requires n <= |outcomes|
  {
    if n == 0 then Imported([], [])
    else
      var before := Tally(outcomes, n - 1);
      if |before.errors| >= MAX_IMPORT_ERRORS then before else Noted(before, n - 1, outcomes[n - 1])
  }

  function Imports(js: Js, tables: seq<Table>, c: Caller, ref: string, batch: seq<Row>): Imported {
    Tally(RowOutcomes(js, tables, c, ref, batch), |batch|)
  }

  /** Row `i` of the file stands on line `i + 2`. */
  function Noted(before: Imported, i: nat, row: Result<Row, Code>): Imported {
    match row
    case Ok(stored) => before.(stored := before.stored + [stored])
    case Err(code) => before.(errors := before.errors + [(i + 2, code)])
  }

  lemma {:induction false} TallyStops(outcomes: seq<Result<Row, Code>>, k: nat, n: nat)
    requires k <= n <= |outcomes| && |Tally(outcomes, k).errors| >= MAX_IMPORT_ERRORS
    ensures Tally(outcomes, n) == Tally(outcomes, k)
  {
    if n > k {
      TallyStops(outcomes, k, n - 1);
    }
  }

  lemma SameObjection(columns: seq<string>, q: Query, offset: nat, maxRows: int)
    requires q.offset == 0 && offset < EXPORT_CAP
    ensures Objection(columns, q.(offset := offset), maxRows) == Objection(columns, q, maxRows)
  {
  }

  lemma SameUnpaged(js: Js, q: Query, offset: nat, rows: seq<Row>)
    ensures Unpaged(js, q.(offset := offset), rows) == Unpaged(js, q, rows)
  {
  }

  lemma NextPage(whole: seq<Row>, offset: nat, pageSize: nat)
    requires offset <= |whole|
    ensures var page := Slice(whole, offset, pageSize);
            && |page| == (if |whole| - offset < pageSize then |whole| - offset else pageSize)
            && whole[..offset] + page == whole[..offset + |page|]
  {
  }

  lemma FirstRows(whole: seq<Row>, n: nat, k: nat)
    requires k <= n <= |whole|
    ensures whole[..n][..k] == Slice(whole, 0, k)
  {
  }
}
