/** Owner scoping over whole runs: when a customer sees and touches its own rows only. */
module DataLaws {
  import opened Wrappers
  import opened Sequences
  import opened Values
  import opened Query
  import opened DataPlane
  import Sorting
  import Strings

  /** Every request names a table by a reference. */
  datatype Request =
    | List(ref: string, q: Query)
    | Export(ref: string, q: Query)
    | Get(ref: string, id: string)
    | Create(ref: string, body: Row)
    | Update(ref: string, id: string, body: Row)
    | Delete(ref: string, id: string)
    | Import(ref: string, headers: seq<string>, batch: seq<Row>)
  {
    /** The rows of a parsed file have no fields but those of its header. */
    predicate Parsed() {
      Import? ==> forall i, c :: 0 <= i < |batch| && c in batch[i] ==> c in headers
    }
  }

  /** The reference is resolved to this table. */
  predicate Names(tables: seq<Table>, ref: string, t: Table) { Resolve(tables, ref) == Ok(t) }

  /** The rows of table `t` after a request. */
  function Next(js: Js, tables: seq<Table>, t: Table, c: Caller, rows: seq<Row>, req: Request): seq<Row> {
    if !Names(tables, req.ref, t) then rows
    else match req
      case List(_, _) => rows
      case Export(_, _) => rows
      case Get(_, _) => rows
      case Create(ref, body) =>
        var r := Creation(js, tables, c, ref, body);
        if r.Ok? then rows + [r.value] else rows
      case Update(ref, id, body) =>
        var r, i := Changes(js, tables, c, ref, id, body, rows), Find(js, rows, id, 0);
        if r.Ok? then rows[i := rows[i] + r.value] else rows
      case Delete(ref, id) =>
        if GetRow(js, tables, c, ref, id, rows).Ok? then Removed(rows, Find(js, rows, id, 0)) else rows
      case Import(ref, headers, batch) =>
        if ImportObjection(tables, ref, headers).Some? then rows else rows + Imports(js, tables, c, ref, batch).stored
  }

  function Run(js: Js, tables: seq<Table>, t: Table, c: Caller, rows: seq<Row>, reqs: seq<Request>): seq<Row>
    decreases |reqs|
  {
    if reqs == [] then rows else Run(js, tables, t, c, Next(js, tables, t, c, rows, reqs[0]), reqs[1..])
  }

  /** Text that only reads as itself: not a number, a truth value or nothing. */
  ghost predicate Identifier(js: Js, u: string) {
    js.numeric(u).None? && u != "" && u != "true" && u != "false" && forall n: real :: js.show(n) != u
  }

  predicate Owned(rows: seq<Row>) {
    forall i :: 0 <= i < |rows| ==> OWNER_COLUMN in rows[i]
  }

  predicate IsMine(u: string, r: Row) { OWNER_COLUMN in r && r[OWNER_COLUMN] == Str(u) }

  function Mine(u: string): Row -> bool { (r: Row) => IsMine(u, r) }

  function Others(u: string): Row -> bool { (r: Row) => !IsMine(u, r) }

  /** The three ways the code asks for the owner agree on identifiers. */
  lemma OwnerReadings(js: Js, v: Value, u: string)
    requires Identifier(js, u)
    ensures LooseEq(js, v, u) <==> v == Str(u)
    ensures Text(js, v) == u <==> v == Str(u)
  {
  }

  // ---- Which table a reference stands for ----

  /** A plain name stands for the table of `public`, `schema.name` for that one, and nothing else is a reference. */
  lemma ResolvedByNames(tables: seq<Table>, ref: string, schema: string, name: string)
    ensures IsIdent(ref) ==>
              Resolve(tables, ref) == (var t := Listed(tables, "public", ref); if t.Some? then Ok(t.value) else Err(TableNotFound))
    ensures IsIdent(schema) && IsIdent(name) && ref == schema + "." + name ==>
              Resolve(tables, ref) == (var t := Listed(tables, schema, name); if t.Some? then Ok(t.value) else Err(TableNotFound))
    ensures !IsIdent(ref) && (forall a, b :: IsIdent(a) && IsIdent(b) ==> ref != a + "." + b) ==> Resolve(tables, ref) == Err(InvalidTable)
  {
    if IsIdent(ref) {
      Strings.SplitWithoutSeparator(ref, '.');
    }
    if IsIdent(schema) && IsIdent(name) {
      TwoParts(schema, name);
    }
    Strings.JoinInvertsSplit(ref, '.');
    var parts := Strings.Split(ref, '.');
    if |parts| == 2 {
      assert parts[1..] == [parts[1]];
      assert Strings.Join(parts, '.') == parts[0] + "." + parts[1];
    }
  }

  lemma TwoParts(schema: string, name: string)
    requires IsIdent(schema) && IsIdent(name)
    ensures Strings.Split(schema + "." + name, '.') == [schema, name]
  {
    Strings.SplitAtSeparator(schema, '.', name);
    Strings.SplitWithoutSeparator(schema, '.');
    Strings.SplitWithoutSeparator(name, '.');
    assert schema + "." + name == schema + ['.'] + name;
  }

  /** What counts as a name: up to 63 letters, digits and underscores, no digit first. */
  lemma NamesAreIdents(s: string)
    ensures IsIdent(s) <==>
            && 1 <= |s| <= 63 && !('0' <= s[0] <= '9')
            && forall i :: 0 <= i < |s| ==> 'a' <= s[i] <= 'z' || 'A' <= s[i] <= 'Z' || '0' <= s[i] <= '9' || s[i] == '_'
  {
  }

  // ---- What is accepted ----

  /** A body sets 1 to 50 columns of the table, no text longer than 100000 characters. */
  lemma BodyAcceptedIff(columns: seq<string>, body: Row)
    ensures BodyObjection(columns, body).None? <==>
            1 <= |body| <= 50 && forall name :: name in body ==> name in columns && (body[name].Str? ==> |body[name].s| <= 100_000)
  {
  }

  /** A creation by a scoped reference is stored with the caller for an owner, and refused if it names another; else as it is. */
  lemma CreatedSo(js: Js, tables: seq<Table>, t: Table, c: Caller, ref: string, body: Row)
    requires Names(tables, ref, t)
    ensures var scoped := c.Owner? && Scopes(tables, ref);
            var payload := if scoped then body["user_id" := Str(c.userId)] else body;
            Creation(js, tables, c, ref, body)
            == if scoped && "user_id" in body && Text(js, body["user_id"]) != c.userId then Err(Forbidden)
               else if BodyObjection(Usable(t), payload).Some? then Err(BodyObjection(Usable(t), payload).value)
               else Ok(payload)
  {
  }

  /** An update of a row that is read sets what it carries but the identifier, and, scoped, but the owner; naming another owner is refused. */
  lemma UpdatedSo(js: Js, tables: seq<Table>, t: Table, c: Caller, ref: string, id: string, body: Row, rows: seq<Row>)
    requires Names(tables, ref, t) && GetRow(js, tables, c, ref, id, rows).Ok?
    ensures var scoped := c.Owner? && Scopes(tables, ref);
            var payload := if scoped then body - {"user_id"} else body;
            Changes(js, tables, c, ref, id, body, rows)
            == if scoped && "user_id" in body && Text(js, body["user_id"]) != c.userId then Err(Forbidden)
               else if UpdateObjection(Usable(t), id, payload).Some? then Err(UpdateObjection(Usable(t), id, payload).value)
               else Ok(payload - {"id"})
  {
  }

  /** It must be acceptable as a body, and set something besides the identifier. */
  lemma UpdateAcceptedIff(columns: seq<string>, id: string, body: Row)
    ensures UpdateObjection(columns, id, body).None? <==>
            BodyObjection(columns, body).None? && body.Keys != {"id"} && |id| <= 500
  {
    if body.Keys == {"id"} {
      assert body - {"id"} == map[];
    } else if |body| > 0 && body - {"id"} == map[] {
      forall name | name in body.Keys
        ensures name == "id"
      {
        assert name != "id" ==> name in body - {"id"};
      }
    }
  }

  /** A row is read by identifier if it is there and says of no other owner; callers without an owner read them all. */
  lemma ReadSo(js: Js, tables: seq<Table>, t: Table, c: Caller, ref: string, id: string, rows: seq<Row>)
    requires Names(tables, ref, t)
    ensures var i := Find(js, rows, id, 0);
            GetRow(js, tables, c, ref, id, rows)
            == if |id| > 500 then Err(InvalidId)
               else if i < |rows| && (c.Unscoped? || "user_id" !in rows[i] || Text(js, rows[i]["user_id"]) == c.userId) then Ok(rows[i])
               else Err(RowNotFound)
  {
  }

  /** An export is the first 10000 rows of what the query selects, flagged as cut from 10000 on. */
  lemma ExportedSo(js: Js, tables: seq<Table>, t: Table, c: Caller, ref: string, q: Query, maxRows: int, rows: seq<Row>)
    requires Names(tables, ref, t)
    ensures var r := ExportRows(js, tables, c, ref, q, maxRows, rows);
            var filters := if c.Owner? && Scopes(tables, ref) then q.filters + [Where("user_id", Eq, c.userId)] else q.filters;
            var whole := ProjectAll(q.columns, Sorted(js, filters, q.order, rows));
            r.Ok? ==> r.value == Exported(if |whole| <= 10_000 then whole else whole[..10_000], |whole| >= 10_000)
  {
  }

  lemma AcceptanceIgnoresPage(known: seq<string>, q: Query, limit: int, maxRows: int)
    requires 1 <= limit <= maxRows
    ensures Objection(known, q.(limit := limit, offset := 0), maxRows) == Objection(known, q.(limit := 1, offset := 0), 1)
  {
  }

  /** Whatever page and maximum are configured, an export is refused exactly where a list of one row would be. */
  lemma ExportAcceptedIff(js: Js, tables: seq<Table>, t: Table, c: Caller, ref: string, q: Query, maxRows: int, rows: seq<Row>)
    requires Names(tables, ref, t) && maxRows >= 1
    ensures ExportRows(js, tables, c, ref, q, maxRows, rows).Ok?
       <==> ListRows(js, tables, c, ref, q.(limit := 1, offset := 0), 1, rows).Ok?
  {
    AcceptanceIgnoresPage(Usable(t), ScopedQuery(tables, c, ref, q), PageSize(maxRows), maxRows);
  }

  /** A list is the page of the query, with the owner as one more filter where the reference is scoped, unless it is refused. */
  lemma ListedSo(js: Js, tables: seq<Table>, t: Table, c: Caller, ref: string, q: Query, maxRows: int, rows: seq<Row>)
    requires Names(tables, ref, t)
    ensures var filters := if c.Owner? && Scopes(tables, ref) then q.filters + [Where("user_id", Eq, c.userId)] else q.filters;
            var asked := q.(filters := filters);
            ListRows(js, tables, c, ref, q, maxRows, rows)
            == if Objection(Usable(t), asked, maxRows).Some? then Err(Objection(Usable(t), asked, maxRows).value)
               else Ok(Select(js, asked, rows))
  {
  }

  // ---- Which references are scoped ----

  /** The only listed table of its name is scoped under that name, if it has an owner column. */
  lemma AloneIsScoped(tables: seq<Table>, t: Table, ref: string)
    requires Names(tables, ref, t) && t.name == ref && OWNER_COLUMN in t.columns
    requires forall x :: x in tables && x.name == t.name ==> x == t
    ensures Scopes(tables, ref)
  {
    assert FindByName(tables, ref).Some? ==> FindByName(tables, ref).value == t;
  }

  /** By `schema.name` every listed table with plain names is resolved, and no such table is scoped. */
  lemma QualifiedIsUnscoped(tables: seq<Table>, t: Table)
    requires IsIdent(t.schema) && IsIdent(t.name) && Listed(tables, t.schema, t.name) == Some(t)
    requires forall x :: x in tables ==> IsIdent(x.name)
    ensures Names(tables, t.schema + "." + t.name, t) && !Scopes(tables, t.schema + "." + t.name)
  {
    var ref := t.schema + "." + t.name;
    TwoParts(t.schema, t.name);
    assert ref[|t.schema|] == '.';
  }

  /** By its plain name a table of `public` is resolved, but another table of that name listed before it hides its owner column. */
  lemma ShadowedIsUnscoped(tables: seq<Table>, first: Table, t: Table)
    requires IsIdent(t.name) && t.schema == "public" && Listed(tables, "public", t.name) == Some(t)
    requires FindByName(tables, t.name) == Some(first) && OWNER_COLUMN !in first.columns
    ensures Names(tables, t.name, t) && !Scopes(tables, t.name)
  {
    Strings.SplitWithoutSeparator(t.name, '.');
  }

  /** Listed in the order of schemas, `archive` comes before `public`, and hides the owner column there. */
  lemma ArchiveHidesPublic(tables: seq<Table>, archived: Table, posts: Table)
    requires archived == Table("archive", "posts", ["id", "title"]) && posts == Table("public", "posts", ["id", "user_id", "title"])
    requires tables == [archived, posts]
    ensures Names(tables, "posts", posts) && !Scopes(tables, "posts") && OWNER_COLUMN in posts.columns
  {
    assert tables[1..] == [posts] && posts.columns[1] == OWNER_COLUMN;
    ShadowedIsUnscoped(tables, archived, posts);
  }

  /** Alone, the same table is scoped by its plain name and not by the other. */
  lemma OneTableTwoNames(tables: seq<Table>, posts: Table)
    requires posts == Table("public", "posts", ["id", "user_id", "title"]) && tables == [posts]
    ensures Names(tables, "posts", posts) && Scopes(tables, "posts")
    ensures Names(tables, "public.posts", posts) && !Scopes(tables, "public.posts")
  {
    assert IsIdent("posts") && IsIdent("public") && posts.columns[1] == OWNER_COLUMN;
    QualifiedIsUnscoped(tables, posts);
    assert "public" + "." + "posts" == "public.posts";
    Strings.SplitWithoutSeparator("posts", '.');
    AloneIsScoped(tables, posts, "posts");
  }

  // ---- What is changed ----

  /** None of the rows an import looks at is accepted. */
  predicate NoneAccepted(columns: seq<string>, batch: seq<Row>) {
    forall i :: 0 <= i < |batch| && i < MAX_IMPORT_ERRORS ==> BodyObjection(columns, batch[i]).Some?
  }

  /**
   * The request can give no row of `t` to another owner: it names another table, or by a scoped reference, or is
   * refused, or says nothing else about the owner. Reads and deletes always qualify.
   */
  predicate LeavesOwnership(tables: seq<Table>, t: Table, u: string, req: Request) {
    || !Names(tables, req.ref, t) || Scopes(tables, req.ref)
    || match req
       case Create(_, body) => BodyObjection(Usable(t), body).Some? || IsMine(u, body)
       case Update(_, id, body) =>
         UpdateObjection(Usable(t), id, body).Some? || OWNER_COLUMN !in body || body[OWNER_COLUMN] == Str(u)
       case Import(ref, headers, batch) => ImportObjection(tables, ref, headers).Some? || NoneAccepted(Usable(t), batch)
       case _ => true
  }

  lemma CreatedIsMine(js: Js, tables: seq<Table>, t: Table, u: string, ref: string, body: Row)
    requires Names(tables, ref, t) && LeavesOwnership(tables, t, u, Create(ref, body))
    ensures var r := Creation(js, tables, Owner(u), ref, body); r.Ok? ==> IsMine(u, r.value)
  {
  }

  lemma ImportedAreMine(js: Js, tables: seq<Table>, t: Table, u: string, ref: string, batch: seq<Row>)
    requires Names(tables, ref, t) && Scopes(tables, ref)
    ensures forall r :: r in Imports(js, tables, Owner(u), ref, batch).stored ==> IsMine(u, r)
  {
    var outcomes := RowOutcomes(js, tables, Owner(u), ref, batch);
    StoredAreOutcomes(outcomes, |batch|);
    forall i: nat | i < |outcomes| && outcomes[i].Ok?
      ensures IsMine(u, outcomes[i].value)
    {
      CreatedIsMine(js, tables, t, u, ref, batch[i]);
    }
  }

  lemma UnscopedCreation(js: Js, tables: seq<Table>, t: Table, c: Caller, ref: string, body: Row)
    requires Names(tables, ref, t) && !Scopes(tables, ref)
    ensures Creation(js, tables, c, ref, body)
         == if BodyObjection(Usable(t), body).Some? then Err(BodyObjection(Usable(t), body).value) else Ok(body)
  {
  }

  lemma NothingStored(js: Js, tables: seq<Table>, t: Table, c: Caller, ref: string, batch: seq<Row>)
    requires Names(tables, ref, t) && !Scopes(tables, ref) && NoneAccepted(Usable(t), batch)
    ensures Imports(js, tables, c, ref, batch).stored == []
  {
    var outcomes := RowOutcomes(js, tables, c, ref, batch);
    forall i: nat | i < |outcomes| && i < MAX_IMPORT_ERRORS
      ensures outcomes[i].Err?
    {
      UnscopedCreation(js, tables, t, c, ref, batch[i]);
    }
    NothingAccepted(outcomes, |batch|);
  }

  lemma FoundIsMine(js: Js, tables: seq<Table>, u: string, ref: string, id: string, rows: seq<Row>)
    requires Identifier(js, u) && Owned(rows)
    ensures var r, i := GetRow(js, tables, Owner(u), ref, id, rows), Find(js, rows, id, 0);
            r.Ok? ==> i < |rows| && r.value == rows[i] && IsMine(u, r.value)
  {
    var i := Find(js, rows, id, 0);
    if i < |rows| {
      OwnerReadings(js, rows[i][OWNER_COLUMN], u);
    }
  }

  lemma ChangesSpareOwner(js: Js, tables: seq<Table>, t: Table, u: string, rows: seq<Row>, ref: string, id: string, body: Row)
    requires Names(tables, ref, t) && LeavesOwnership(tables, t, u, Update(ref, id, body))
    ensures var r := Changes(js, tables, Owner(u), ref, id, body, rows);
            r.Ok? && OWNER_COLUMN in r.value ==> r.value[OWNER_COLUMN] == Str(u)
  {
  }

  lemma NextUpdate(js: Js, tables: seq<Table>, t: Table, c: Caller, rows: seq<Row>, ref: string, id: string, body: Row)
    ensures var r, i := Changes(js, tables, c, ref, id, body, rows), Find(js, rows, id, 0);
            Next(js, tables, t, c, rows, Update(ref, id, body))
            == if Names(tables, ref, t) && r.Ok? then rows[i := rows[i] + r.value] else rows
  {
  }

  predicate SameOwners(rows: seq<Row>, after: seq<Row>) {
    |after| == |rows| && forall i :: 0 <= i < |rows| ==> OWNER_COLUMN in after[i] && OWNER_COLUMN in rows[i] && after[i][OWNER_COLUMN] == rows[i][OWNER_COLUMN]
  }

  lemma SetKeepsOwners(u: string, rows: seq<Row>, i: nat, sets: Row)
    requires Owned(rows) && i < |rows| && IsMine(u, rows[i]) && (OWNER_COLUMN in sets ==> sets[OWNER_COLUMN] == Str(u))
    ensures SameOwners(rows, rows[i := rows[i] + sets])
  {
  }

  /** Such an update leaves every owner as it was, row by row. */
  lemma UpdateKeepsOwners(js: Js, tables: seq<Table>, t: Table, u: string, rows: seq<Row>, ref: string, id: string, body: Row)
    requires Identifier(js, u) && Owned(rows) && LeavesOwnership(tables, t, u, Update(ref, id, body))
    ensures SameOwners(rows, Next(js, tables, t, Owner(u), rows, Update(ref, id, body)))
  {
    NextUpdate(js, tables, t, Owner(u), rows, ref, id, body);
    var r := Changes(js, tables, Owner(u), ref, id, body, rows);
    if Names(tables, ref, t) && r.Ok? {
      FoundIsMine(js, tables, u, ref, id, rows);
      ChangesSpareOwner(js, tables, t, u, rows, ref, id, body);
      SetKeepsOwners(u, rows, Find(js, rows, id, 0), r.value);
    }
  }

  lemma FilterRemoved<T>(p: T -> bool, s: seq<T>, i: nat)
    requires i < |s| && !p(s[i])
    ensures Filter(p, s[..i] + s[i + 1..]) == Filter(p, s)
  {
    assert s == s[..i] + [s[i]] + s[i + 1..];
    FilterAppend(p, s[..i], s[i + 1..]);
    FilterAppend(p, s[..i] + [s[i]], s[i + 1..]);
    FilterAppend(p, s[..i], [s[i]]);
    FilterNone(p, [s[i]], 1);
  }

  lemma FilterReplaced<T>(p: T -> bool, s: seq<T>, i: nat, x: T)
    requires i < |s| && !p(s[i]) && !p(x)
    ensures Filter(p, s[i := x]) == Filter(p, s)
  {
    FilterRemoved(p, s, i);
    FilterRemoved(p, s[i := x], i);
    assert s[i := x][..i] + s[i := x][i + 1..] == s[..i] + s[i + 1..];
  }

  lemma AppendedKeepsOthers(u: string, rows: seq<Row>, more: seq<Row>)
    requires Owned(rows) && forall r :: r in more ==> IsMine(u, r)
    ensures KeepsOthers(u, rows, rows + more)
  {
    FilterAppend(Others(u), rows, more);
    FilterNone(Others(u), more, |more|);
    forall i | |rows| <= i < |rows + more|
      ensures IsMine(u, (rows + more)[i])
    {
      assert (rows + more)[i] in more;
    }
  }

  lemma UpdateKeepsOthers(js: Js, tables: seq<Table>, t: Table, u: string, rows: seq<Row>, ref: string, id: string, body: Row)
    requires Identifier(js, u) && Owned(rows) && LeavesOwnership(tables, t, u, Update(ref, id, body))
    ensures KeepsOthers(u, rows, Next(js, tables, t, Owner(u), rows, Update(ref, id, body)))
  {
    FoundIsMine(js, tables, u, ref, id, rows);
    UpdateKeepsOwners(js, tables, t, u, rows, ref, id, body);
    var r, i := Changes(js, tables, Owner(u), ref, id, body, rows), Find(js, rows, id, 0);
    if r.Ok? && Names(tables, ref, t) {
      FilterReplaced(Others(u), rows, i, rows[i] + r.value);
    }
  }

  lemma DeleteKeepsOthers(js: Js, tables: seq<Table>, t: Table, u: string, rows: seq<Row>, ref: string, id: string)
    requires Identifier(js, u) && Owned(rows)
    ensures KeepsOthers(u, rows, Next(js, tables, t, Owner(u), rows, Delete(ref, id)))
  {
    FoundIsMine(js, tables, u, ref, id, rows);
    if GetRow(js, tables, Owner(u), ref, id, rows).Ok? {
      FilterRemoved(Others(u), rows, Find(js, rows, id, 0));
    }
  }

  lemma CreateKeepsOthers(js: Js, tables: seq<Table>, t: Table, u: string, rows: seq<Row>, ref: string, body: Row)
    requires Owned(rows) && LeavesOwnership(tables, t, u, Create(ref, body))
    ensures KeepsOthers(u, rows, Next(js, tables, t, Owner(u), rows, Create(ref, body)))
  {
    var r := Creation(js, tables, Owner(u), ref, body);
    if r.Ok? && Names(tables, ref, t) {
      CreatedIsMine(js, tables, t, u, ref, body);
      AppendedKeepsOthers(u, rows, [r.value]);
    }
  }

  lemma ImportKeepsOthers(js: Js, tables: seq<Table>, t: Table, u: string, rows: seq<Row>, ref: string, headers: seq<string>, batch: seq<Row>)
    requires Owned(rows) && LeavesOwnership(tables, t, u, Import(ref, headers, batch))
    ensures KeepsOthers(u, rows, Next(js, tables, t, Owner(u), rows, Import(ref, headers, batch)))
  {
    if Names(tables, ref, t) && ImportObjection(tables, ref, headers).None? {
      if Scopes(tables, ref) {
        ImportedAreMine(js, tables, t, u, ref, batch);
      } else {
        NothingStored(js, tables, t, Owner(u), ref, batch);
      }
      AppendedKeepsOthers(u, rows, Imports(js, tables, Owner(u), ref, batch).stored);
    }
  }

  predicate KeepsOthers(u: string, rows: seq<Row>, after: seq<Row>) {
    Owned(after) && Filter(Others(u), after) == Filter(Others(u), rows)
  }

  /** Such a request changes, adds, removes or reorders no row of others. */
  lemma NextKeepsOthers(js: Js, tables: seq<Table>, t: Table, u: string, rows: seq<Row>, req: Request)
    requires Identifier(js, u) && Owned(rows) && LeavesOwnership(tables, t, u, req)
    ensures KeepsOthers(u, rows, Next(js, tables, t, Owner(u), rows, req))
  {
    match req
    case List(_, _) =>
    case Export(_, _) =>
    case Get(_, _) =>
    case Create(ref, body) => CreateKeepsOthers(js, tables, t, u, rows, ref, body);
    case Update(ref, id, body) => UpdateKeepsOthers(js, tables, t, u, rows, ref, id, body);
    case Delete(ref, id) => DeleteKeepsOthers(js, tables, t, u, rows, ref, id);
    case Import(ref, headers, batch) => ImportKeepsOthers(js, tables, t, u, rows, ref, headers, batch);
  }

  lemma {:induction false} RunKeepsOthers(js: Js, tables: seq<Table>, t: Table, u: string, rows: seq<Row>, reqs: seq<Request>)
    requires Identifier(js, u) && Owned(rows)
    requires forall k :: 0 <= k < |reqs| ==> LeavesOwnership(tables, t, u, reqs[k])
    ensures KeepsOthers(u, rows, Run(js, tables, t, Owner(u), rows, reqs))
    ensures EveryStepKeeps(js, tables, t, u, rows, reqs)
    decreases |reqs|
  {
    if reqs != [] {
      NextKeepsOthers(js, tables, t, u, rows, reqs[0]);
      RunKeepsOthers(js, tables, t, u, Next(js, tables, t, Owner(u), rows, reqs[0]), reqs[1..]);
    }
  }

  ghost predicate EveryStepKeeps(js: Js, tables: seq<Table>, t: Table, u: string, rows: seq<Row>, reqs: seq<Request>)
    decreases |reqs|
  {
    reqs == [] ||
    (var after := Next(js, tables, t, Owner(u), rows, reqs[0]);
     KeepsOthers(u, rows, after) && EveryStepKeeps(js, tables, t, u, after, reqs[1..]))
  }

  // ---- The condition is exact ----

  /** The first `m` rows are the caller's and have this identifier. */
  predicate Stocked(rows: seq<Row>, m: nat, u: string, id: string) {
    m <= |rows| && forall i :: 0 <= i < m ==> IsMine(u, rows[i]) && Cell(rows[i], ID_COLUMN) == Str(id)
  }

  lemma StockIsFound(js: Js, rows: seq<Row>, m: nat, u: string, id: string)
    requires Stocked(rows, m, u, id) && m > 0
    ensures Find(js, rows, id, 0) == 0
  {
  }

  lemma UnscopedChanges(js: Js, tables: seq<Table>, t: Table, c: Caller, ref: string, id: string, body: Row, rows: seq<Row>)
    requires Names(tables, ref, t) && !Scopes(tables, ref) && GetRow(js, tables, c, ref, id, rows).Ok?
    requires UpdateObjection(Usable(t), id, body).None?
    ensures Changes(js, tables, c, ref, id, body, rows) == Ok(body - {ID_COLUMN})
  {
  }

  lemma StockIsRead(js: Js, tables: seq<Table>, t: Table, u: string, rows: seq<Row>, ref: string, id: string)
    requires Names(tables, ref, t) && Stocked(rows, 1, u, id) && |id| <= MAX_ID_CHARS && Identifier(js, u)
    ensures Find(js, rows, id, 0) == 0 && GetRow(js, tables, Owner(u), ref, id, rows) == Ok(rows[0])
  {
    StockIsFound(js, rows, 1, u, id);
    OwnerReadings(js, rows[0][OWNER_COLUMN], u);
  }

  lemma GivenAway(js: Js, tables: seq<Table>, t: Table, u: string, rows: seq<Row>, ref: string, id: string, body: Row)
    requires !LeavesOwnership(tables, t, u, Update(ref, id, body)) && Stocked(rows, 1, u, id) && Identifier(js, u)
    ensures var given := rows[0] + (body - {ID_COLUMN});
            && Next(js, tables, t, Owner(u), rows, Update(ref, id, body)) == rows[0 := given]
            && Answered(js, tables, t, Owner(u), rows, Update(ref, id, body)) == [given]
            && !IsMine(u, given)
  {
    StockIsRead(js, tables, t, u, rows, ref, id);
    UnscopedChanges(js, tables, t, Owner(u), ref, id, body, rows);
  }

  lemma ReplacedBreaks(u: string, rows: seq<Row>, given: Row)
    requires rows != [] && IsMine(u, rows[0]) && !IsMine(u, given)
    ensures !KeepsOthers(u, rows, rows[0 := given])
  {
    assert rows[0 := given] == [given] + rows[1..] && rows == [rows[0]] + rows[1..];
    FilterAppend(Others(u), [given], rows[1..]);
    FilterAppend(Others(u), [rows[0]], rows[1..]);
    FilterAll(Others(u), [given], 1);
    FilterNone(Others(u), [rows[0]], 1);
  }

  lemma GivingAwayBreaks(js: Js, tables: seq<Table>, t: Table, u: string, rows: seq<Row>, ref: string, id: string, body: Row)
    requires !LeavesOwnership(tables, t, u, Update(ref, id, body)) && Stocked(rows, 1, u, id) && Identifier(js, u)
    ensures !KeepsOthers(u, rows, Next(js, tables, t, Owner(u), rows, Update(ref, id, body)))
  {
    GivenAway(js, tables, t, u, rows, ref, id, body);
    ReplacedBreaks(u, rows, rows[0] + (body - {ID_COLUMN}));
  }

  /** An import under an unscoped name that accepts a row stores one without an owner. */
  lemma ImportingBreaks(js: Js, tables: seq<Table>, t: Table, u: string, rows: seq<Row>, ref: string, headers: seq<string>, batch: seq<Row>)
    requires var req := Import(ref, headers, batch); req.Parsed() && !LeavesOwnership(tables, t, u, req)
    ensures !KeepsOthers(u, rows, Next(js, tables, t, Owner(u), rows, Import(ref, headers, batch)))
  {
    var k :| 0 <= k < |batch| && k < MAX_IMPORT_ERRORS && BodyObjection(Usable(t), batch[k]).None?;
    var outcomes := RowOutcomes(js, tables, Owner(u), ref, batch);
    forall i: nat | i < |batch|
      ensures outcomes[i].Ok? ==> OWNER_COLUMN !in outcomes[i].value
      ensures i == k ==> outcomes[i].Ok?
    {
      UnscopedCreation(js, tables, t, Owner(u), ref, batch[i]);
      assert OWNER_COLUMN in batch[i] ==> OWNER_COLUMN in headers;
    }
    var stored := Tally(outcomes, |batch|).stored;
    StoredOnce(outcomes, k, |batch|);
    StoredAreOutcomes(outcomes, |batch|);
    assert stored[0] in stored && (rows + stored)[|rows|] == stored[0];
  }

  lemma CreatingBreaks(js: Js, tables: seq<Table>, t: Table, u: string, rows: seq<Row>, ref: string, body: Row)
    requires !LeavesOwnership(tables, t, u, Create(ref, body))
    ensures !KeepsOthers(u, rows, Next(js, tables, t, Owner(u), rows, Create(ref, body)))
  {
    UnscopedCreation(js, tables, t, Owner(u), ref, body);
    FilterAppend(Others(u), rows, [body]);
    FilterAll(Others(u), [body], 1);
  }

  lemma BreaksOthers(js: Js, tables: seq<Table>, t: Table, u: string, rows: seq<Row>, req: Request)
    requires !LeavesOwnership(tables, t, u, req) && Identifier(js, u) && req.Parsed()
    requires req.Update? ==> Stocked(rows, 1, u, req.id)
    ensures !KeepsOthers(u, rows, Next(js, tables, t, Owner(u), rows, req))
  {
    match req
    case Create(ref, body) => CreatingBreaks(js, tables, t, u, rows, ref, body);
    case Update(ref, id, body) => GivingAwayBreaks(js, tables, t, u, rows, ref, id, body);
    case Import(ref, headers, batch) => ImportingBreaks(js, tables, t, u, rows, ref, headers, batch);
  }

  /** A request that leaves ownership takes away at most one row of the stock. */
  lemma StockLasts(js: Js, tables: seq<Table>, t: Table, u: string, rows: seq<Row>, req: Request, m: nat, id: string)
    requires Identifier(js, u) && Owned(rows) && LeavesOwnership(tables, t, u, req)
    requires Stocked(rows, m, u, id) && m > 0
    ensures Stocked(Next(js, tables, t, Owner(u), rows, req), m - 1, u, id)
  {
    if req.Update? {
      UpdateKeepsOwners(js, tables, t, u, rows, req.ref, req.id, req.body);
    }
  }

  /** The identifier of the first request that does not leave ownership. */
  function Target(tables: seq<Table>, t: Table, u: string, reqs: seq<Request>): string
    decreases |reqs|
  {
    if reqs == [] then ""
    else if LeavesOwnership(tables, t, u, reqs[0]) then Target(tables, t, u, reqs[1..])
    else if reqs[0].Update? then reqs[0].id else ""
  }

  predicate AllParsed(reqs: seq<Request>) {
    forall k :: 0 <= k < |reqs| ==> reqs[k].Parsed()
  }

  lemma {:induction false} BreaksSomewhere(js: Js, tables: seq<Table>, t: Table, u: string, rows: seq<Row>, reqs: seq<Request>)
    requires Identifier(js, u) && Owned(rows) && AllParsed(reqs)
    requires Stocked(rows, |reqs|, u, Target(tables, t, u, reqs))
    requires exists k :: 0 <= k < |reqs| && !LeavesOwnership(tables, t, u, reqs[k])
    ensures !EveryStepKeeps(js, tables, t, u, rows, reqs)
    decreases |reqs|
  {
    if LeavesOwnership(tables, t, u, reqs[0]) {
      var k :| 0 <= k < |reqs| && !LeavesOwnership(tables, t, u, reqs[k]);
      assert reqs[1..][k - 1] == reqs[k];
      NextKeepsOthers(js, tables, t, u, rows, reqs[0]);
      StockLasts(js, tables, t, u, rows, reqs[0], |reqs|, Target(tables, t, u, reqs));
      BreaksSomewhere(js, tables, t, u, Next(js, tables, t, Owner(u), rows, reqs[0]), reqs[1..]);
    } else {
      BreaksOthers(js, tables, t, u, rows, reqs[0]);
    }
  }

  /** Whatever the table holds, no step of this run touches the rows of others. */
  ghost predicate AlwaysKeeps(js: Js, tables: seq<Table>, t: Table, u: string, reqs: seq<Request>) {
    forall rows :: Owned(rows) ==> EveryStepKeeps(js, tables, t, u, rows, reqs)
  }

  /** A run never touches the rows of others, whatever the table holds, if and only if each of its requests leaves ownership. */
  lemma RunKeepsOthersIff(js: Js, tables: seq<Table>, t: Table, u: string, reqs: seq<Request>)
    requires Identifier(js, u) && AllParsed(reqs)
    ensures AlwaysKeeps(js, tables, t, u, reqs) <==> forall k :: 0 <= k < |reqs| ==> LeavesOwnership(tables, t, u, reqs[k])
  {
    if forall k :: 0 <= k < |reqs| ==> LeavesOwnership(tables, t, u, reqs[k]) {
      forall rows: seq<Row> | Owned(rows)
        ensures EveryStepKeeps(js, tables, t, u, rows, reqs)
      {
        RunKeepsOthers(js, tables, t, u, rows, reqs);
      }
    } else {
      SomeTableBreaks(js, tables, t, u, reqs);
    }
  }

  lemma SomeTableBreaks(js: Js, tables: seq<Table>, t: Table, u: string, reqs: seq<Request>)
    requires Identifier(js, u) && AllParsed(reqs) && exists k :: 0 <= k < |reqs| && !LeavesOwnership(tables, t, u, reqs[k])
    ensures !AlwaysKeeps(js, tables, t, u, reqs)
  {
    var row: Row := map[ID_COLUMN := Str(Target(tables, t, u, reqs)), OWNER_COLUMN := Str(u)];
    var rows := seq(|reqs|, i => row);
    BreaksSomewhere(js, tables, t, u, rows, reqs);
    assert Owned(rows) && !EveryStepKeeps(js, tables, t, u, rows, reqs);
  }

  /** Verb by verb: creates and updates leave ownership whatever they carry if and only if the reference is scoped. */
  lemma WritesLeaveOwnershipIffScoped(tables: seq<Table>, t: Table, u: string, ref: string)
    requires Names(tables, ref, t) && OWNER_COLUMN in t.columns
    ensures (forall body :: LeavesOwnership(tables, t, u, Create(ref, body))) <==> Scopes(tables, ref)
    ensures (forall id, body :: LeavesOwnership(tables, t, u, Update(ref, id, body))) <==> Scopes(tables, ref)
    ensures forall id :: LeavesOwnership(tables, t, u, Delete(ref, id))
  {
    var body: Row := map[OWNER_COLUMN := Null];
    NoOwnerIsWritten(tables, t, u, ref, body);
    assert LeavesOwnership(tables, t, u, Create(ref, body)) <==> Scopes(tables, ref);
    assert LeavesOwnership(tables, t, u, Update(ref, "", body)) <==> Scopes(tables, ref);
  }

  lemma OwnerAloneIsAccepted(t: Table, v: Value, body: Row, id: string)
    requires OWNER_COLUMN in t.columns && |id| <= MAX_ID_CHARS && body == map[OWNER_COLUMN := v]
    requires v.Str? ==> |v.s| <= MAX_FIELD_CHARS
    ensures BodyObjection(Usable(t), body).None? && UpdateObjection(Usable(t), id, body).None? && body - {ID_COLUMN} == body
  {
    assert |body| == 1 && OWNER_COLUMN in Usable(t);
  }

  lemma NoOwnerIsWritten(tables: seq<Table>, t: Table, u: string, ref: string, body: Row)
    requires Names(tables, ref, t) && OWNER_COLUMN in t.columns && body == map[OWNER_COLUMN := Null]
    ensures LeavesOwnership(tables, t, u, Create(ref, body)) <==> Scopes(tables, ref)
    ensures LeavesOwnership(tables, t, u, Update(ref, "", body)) <==> Scopes(tables, ref)
  {
    OwnerAloneIsAccepted(t, Null, body, "");
  }

  /** The table an import knows the columns of and the table it writes to share no column. */
  predicate NothingInCommon(tables: seq<Table>, t: Table, ref: string) {
    FindByName(tables, ref).None? || forall c :: c in FindByName(tables, ref).value.columns ==> c !in Usable(t)
  }

  /**
   * Imports do if and only if the reference is scoped, or names no listed table, or one that has no column in
   * common with the table it is resolved to.
   */
  lemma ImportsLeaveOwnershipIff(tables: seq<Table>, t: Table, u: string, ref: string)
    requires Names(tables, ref, t)
    ensures (forall headers, batch :: Import(ref, headers, batch).Parsed() ==> LeavesOwnership(tables, t, u, Import(ref, headers, batch)))
       <==> Scopes(tables, ref) || NothingInCommon(tables, t, ref)
  {
    if Scopes(tables, ref) || NothingInCommon(tables, t, ref) {
      forall headers: seq<string>, batch: seq<Row> | Import(ref, headers, batch).Parsed()
        ensures LeavesOwnership(tables, t, u, Import(ref, headers, batch))
      {
        if !Scopes(tables, ref) && ImportObjection(tables, ref, headers).None? {
          UnknownColumnsAreRefused(tables, t, ref, headers, batch);
        }
      }
    } else {
      var c :| c in FindByName(tables, ref).value.columns && c in Usable(t);
      var row: Row := map[c := Null];
      assert |row| == 1 && [row][0] == row && c in row;
      assert BodyObjection(Usable(t), row).None?;
      assert Import(ref, [c], [row]).Parsed() && !LeavesOwnership(tables, t, u, Import(ref, [c], [row]));
    }
  }

  lemma UnknownColumnsAreRefused(tables: seq<Table>, t: Table, ref: string, headers: seq<string>, batch: seq<Row>)
    requires NothingInCommon(tables, t, ref) && Import(ref, headers, batch).Parsed() && ImportObjection(tables, ref, headers).None?
    ensures NoneAccepted(Usable(t), batch)
  {
    forall i | 0 <= i < |batch| && i < MAX_IMPORT_ERRORS
      ensures BodyObjection(Usable(t), batch[i]).Some?
    {
      if |batch[i]| > 0 {
        var c :| c in batch[i];
        assert c in headers;
        assert !FieldFits(Usable(t), c, batch[i][c]);
      }
    }
  }

  /** Under an unscoped reference a row can be made for another owner, and one's own given away. */
  lemma UnscopedWritesReachOthers(js: Js, tables: seq<Table>, t: Table, ref: string, u: string, v: string, id: string, body: Row, mine: Row)
    requires Names(tables, ref, t) && !Scopes(tables, ref) && OWNER_COLUMN in t.columns
    requires Identifier(js, u) && v != u && |v| <= MAX_FIELD_CHARS && |id| <= MAX_ID_CHARS
    requires body == map[OWNER_COLUMN := Str(v)] && mine == map[ID_COLUMN := Str(id), OWNER_COLUMN := Str(u)]
    ensures Next(js, tables, t, Owner(u), [], Create(ref, body)) == [body]
    ensures Next(js, tables, t, Owner(u), [mine], Update(ref, id, body)) == [mine[OWNER_COLUMN := Str(v)]]
  {
    OwnerAloneIsAccepted(t, Str(v), body, id);
    UnscopedCreation(js, tables, t, Owner(u), ref, body);
    GivenAway(js, tables, t, u, [mine], ref, id, body);
    assert mine + body == mine[OWNER_COLUMN := Str(v)];
  }

  // ---- What is seen ----

  /** The scope, as the last filter, makes the other rows irrelevant. */
  lemma ScopeSelectsMine(js: Js, u: string, filters: seq<Where>, rows: seq<Row>)
    requires Identifier(js, u) && filters != [] && filters[|filters| - 1] == Where(OWNER_COLUMN, Eq, u)
    ensures Matching(js, filters, |filters|, rows) == Matching(js, filters, |filters|, Filter(Mine(u), rows))
    ensures forall r :: r in Matching(js, filters, |filters|, rows) ==> r in rows && IsMine(u, r)
  {
    var n := |filters|;
    var all := PassesAll(js, filters, n);
    forall r: Row | all(r)
      ensures IsMine(u, r)
    {
      assert Holds(js, filters[n - 1], r);
      OwnerReadings(js, Cell(r, OWNER_COLUMN), u);
    }
    MatchingIsOneFilter(js, filters, n, rows);
    MatchingIsOneFilter(js, filters, n, Filter(Mine(u), rows));
    FilterTwice(all, Mine(u), all, rows, |rows|);
    forall r | r in Filter(all, rows)
      ensures r in rows && IsMine(u, r)
    {
      FilterMembers(all, rows, r);
    }
  }

  /** Under a scoped reference lists and exports are computed from the caller's own rows alone. */
  lemma ReadsOwnRowsOnly(js: Js, tables: seq<Table>, u: string, ref: string, q: Query, maxRows: int, rows: seq<Row>)
    requires Identifier(js, u) && Scopes(tables, ref)
    ensures ListRows(js, tables, Owner(u), ref, q, maxRows, rows)
         == ListRows(js, tables, Owner(u), ref, q, maxRows, Filter(Mine(u), rows))
    ensures ExportRows(js, tables, Owner(u), ref, q, maxRows, rows)
         == ExportRows(js, tables, Owner(u), ref, q, maxRows, Filter(Mine(u), rows))
    ensures var sq := ScopedQuery(tables, Owner(u), ref, q);
            forall r :: r in Sorted(js, sq.filters, sq.order, rows) ==> r in rows && IsMine(u, r)
  {
    var sq := ScopedQuery(tables, Owner(u), ref, q);
    ScopeSelectsMine(js, u, sq.filters, rows);
    var out := Matching(js, sq.filters, |sq.filters|, rows);
    forall r | r in Sorted(js, sq.filters, sq.order, rows)
      ensures r in rows && IsMine(u, r)
    {
      if sq.order != [] {
        Sorting.SortMembers(InOrder(js, sq.order), out, |out|, r);
      }
    }
  }

  /** The rows of `t` a request hands back, before projection. */
  function Answered(js: Js, tables: seq<Table>, t: Table, c: Caller, rows: seq<Row>, req: Request): seq<Row> {
    if !Names(tables, req.ref, t) then []
    else match req
      case List(ref, q) =>
        var sq := ScopedQuery(tables, c, ref, q);
        if q.limit < 1 || q.offset < 0 then [] else Slice(Sorted(js, sq.filters, sq.order, rows), q.offset, q.limit)
      case Export(ref, q) =>
        var sq := ScopedQuery(tables, c, ref, q);
        Slice(Sorted(js, sq.filters, sq.order, rows), 0, EXPORT_CAP)
      case Get(ref, id) =>
        var r := GetRow(js, tables, c, ref, id, rows);
        if r.Ok? then [r.value] else []
      case Create(ref, body) =>
        var r := Creation(js, tables, c, ref, body);
        if r.Ok? then [r.value] else []
      case Update(ref, id, body) =>
        if Changes(js, tables, c, ref, id, body, rows).Ok? then [Next(js, tables, t, c, rows, req)[Find(js, rows, id, 0)]] else []
      case Delete(_, _) => []
      case Import(_, _, _) => []
  }

  /** What the list and export routes answer is that, projected. */
  lemma AnsweredIsAnswered(js: Js, tables: seq<Table>, t: Table, c: Caller, rows: seq<Row>, ref: string, q: Query, maxRows: int)
    requires Names(tables, ref, t)
    ensures var r := ListRows(js, tables, c, ref, q, maxRows, rows);
            r.Ok? ==> r.value == ProjectAll(q.columns, Answered(js, tables, t, c, rows, List(ref, q)))
    ensures var r := ExportRows(js, tables, c, ref, q, maxRows, rows);
            r.Ok? ==> r.value.rows == ProjectAll(q.columns, Answered(js, tables, t, c, rows, Export(ref, q)))
  {
  }

  /** Reads use a scoped reference, writes leave ownership. */
  predicate StaysHome(tables: seq<Table>, t: Table, u: string, req: Request) {
    if req.List? || req.Export? then !Names(tables, req.ref, t) || Scopes(tables, req.ref) else LeavesOwnership(tables, t, u, req)
  }

  predicate AllMine(u: string, rows: seq<Row>) {
    forall r :: r in rows ==> IsMine(u, r)
  }

  lemma AnswersAreMine(js: Js, tables: seq<Table>, t: Table, u: string, rows: seq<Row>, req: Request)
    requires Identifier(js, u) && Owned(rows) && StaysHome(tables, t, u, req)
    ensures AllMine(u, Answered(js, tables, t, Owner(u), rows, req))
  {
    if Names(tables, req.ref, t) {
      match req
      case List(ref, q) => ReadAnswersAreMine(js, tables, t, u, rows, ref, q);
      case Export(ref, q) => ReadAnswersAreMine(js, tables, t, u, rows, ref, q);
      case Get(ref, id) => FoundIsMine(js, tables, u, ref, id, rows);
      case Create(ref, body) => CreatedIsMine(js, tables, t, u, ref, body);
      case Update(ref, id, body) => UpdatedIsMine(js, tables, t, u, rows, ref, id, body);
      case Delete(_, _) =>
      case Import(_, _, _) =>
    }
  }

  lemma ReadAnswersAreMine(js: Js, tables: seq<Table>, t: Table, u: string, rows: seq<Row>, ref: string, q: Query)
    requires Identifier(js, u) && Scopes(tables, ref)
    ensures AllMine(u, Answered(js, tables, t, Owner(u), rows, List(ref, q)))
    ensures AllMine(u, Answered(js, tables, t, Owner(u), rows, Export(ref, q)))
  {
    var sq := ScopedQuery(tables, Owner(u), ref, q);
    ReadsOwnRowsOnly(js, tables, u, ref, q, 1, rows);
    SliceMembers(Sorted(js, sq.filters, sq.order, rows), 0, EXPORT_CAP);
    if q.limit >= 1 && q.offset >= 0 {
      SliceMembers(Sorted(js, sq.filters, sq.order, rows), q.offset, q.limit);
    }
  }

  lemma SliceMembers(rows: seq<Row>, offset: nat, limit: nat)
    ensures forall r :: r in Slice(rows, offset, limit) ==> r in rows
  {
  }

  lemma UpdatedIsMine(js: Js, tables: seq<Table>, t: Table, u: string, rows: seq<Row>, ref: string, id: string, body: Row)
    requires Identifier(js, u) && Owned(rows) && LeavesOwnership(tables, t, u, Update(ref, id, body))
    ensures AllMine(u, Answered(js, tables, t, Owner(u), rows, Update(ref, id, body)))
  {
    FoundIsMine(js, tables, u, ref, id, rows);
    UpdateKeepsOwners(js, tables, t, u, rows, ref, id, body);
  }

  /** In every run that leaves ownership, whatever is asked for at home, only the caller's rows come back. */
  lemma RunAnswersAreMine(js: Js, tables: seq<Table>, t: Table, u: string, rows: seq<Row>, reqs: seq<Request>, req: Request)
    requires Identifier(js, u) && Owned(rows) && StaysHome(tables, t, u, req)
    requires forall k :: 0 <= k < |reqs| ==> LeavesOwnership(tables, t, u, reqs[k])
    ensures AllMine(u, Answered(js, tables, t, Owner(u), Run(js, tables, t, Owner(u), rows, reqs), req))
  {
    RunKeepsOthers(js, tables, t, u, rows, reqs);
    AnswersAreMine(js, tables, t, u, Run(js, tables, t, Owner(u), rows, reqs), req);
  }

  /** Every row the route answers is the projection of a row of the table that is the caller's. */
  ghost predicate FromMine(u: string, columns: Option<seq<string>>, rows: seq<Row>, answered: seq<Row>) {
    forall i :: 0 <= i < |answered| ==> ProjectsMine(u, columns, rows, answered[i])
  }

  ghost predicate ProjectsMine(u: string, columns: Option<seq<string>>, rows: seq<Row>, x: Row) {
    exists r :: r in rows && IsMine(u, r) && x == Project(columns, r)
  }

  lemma ProjectedFromMine(u: string, columns: Option<seq<string>>, rows: seq<Row>, whole: seq<Row>, offset: nat, limit: nat)
    requires forall r :: r in whole ==> r in rows && IsMine(u, r)
    ensures FromMine(u, columns, rows, ProjectAll(columns, Slice(whole, offset, limit)))
  {
    var out := Slice(whole, offset, limit);
    var answered := ProjectAll(columns, out);
    forall i | 0 <= i < |answered|
      ensures ProjectsMine(u, columns, rows, answered[i])
    {
      assert out[i] in whole;
      assert answered[i] == Project(columns, out[i]);
    }
  }

  lemma ListAnswersFromMine(js: Js, tables: seq<Table>, t: Table, u: string, ref: string, q: Query, maxRows: int, rows: seq<Row>)
    requires Identifier(js, u) && Names(tables, ref, t) && Scopes(tables, ref)
    ensures ListsMine(js, tables, u, ref, q, maxRows, rows)
  {
    var sq := ScopedQuery(tables, Owner(u), ref, q);
    ReadsOwnRowsOnly(js, tables, u, ref, q, maxRows, rows);
    AnsweredIsAnswered(js, tables, t, Owner(u), rows, ref, q, maxRows);
    var r := ListRows(js, tables, Owner(u), ref, q, maxRows, rows);
    if r.Ok? {
      assert q.limit >= 1 && q.offset >= 0;
      ProjectedFromMine(u, q.columns, rows, Sorted(js, sq.filters, sq.order, rows), q.offset, q.limit);
    }
    assert ListsMine(js, tables, u, ref, q, maxRows, rows);
  }

  lemma ExportAnswersFromMine(js: Js, tables: seq<Table>, t: Table, u: string, ref: string, q: Query, maxRows: int, rows: seq<Row>)
    requires Identifier(js, u) && Names(tables, ref, t) && Scopes(tables, ref)
    ensures ExportsMine(js, tables, u, ref, q, maxRows, rows)
  {
    var sq := ScopedQuery(tables, Owner(u), ref, q);
    ReadsOwnRowsOnly(js, tables, u, ref, q, maxRows, rows);
    AnsweredIsAnswered(js, tables, t, Owner(u), rows, ref, q, maxRows);
    ProjectedFromMine(u, q.columns, rows, Sorted(js, sq.filters, sq.order, rows), 0, EXPORT_CAP);
  }

  ghost predicate ListsMine(js: Js, tables: seq<Table>, u: string, ref: string, q: Query, maxRows: int, rows: seq<Row>) {
    var r := ListRows(js, tables, Owner(u), ref, q, maxRows, rows); r.Ok? ==> FromMine(u, q.columns, rows, r.value)
  }

  ghost predicate ExportsMine(js: Js, tables: seq<Table>, u: string, ref: string, q: Query, maxRows: int, rows: seq<Row>) {
    var r := ExportRows(js, tables, Owner(u), ref, q, maxRows, rows); r.Ok? ==> FromMine(u, q.columns, rows, r.value.rows)
  }

  /**
   * The list route answers from the caller's own rows, whatever the query and the table hold, if and only if the
   * reference is scoped; and so does the export route.
   */
  lemma ReadsAreMineIffScoped(js: Js, tables: seq<Table>, t: Table, u: string, ref: string, maxRows: int)
    requires Identifier(js, u) && Names(tables, ref, t) && maxRows >= 1
    ensures (forall q, rows :: ListsMine(js, tables, u, ref, q, maxRows, rows)) <==> Scopes(tables, ref)
    ensures (forall q, rows :: ExportsMine(js, tables, u, ref, q, maxRows, rows)) <==> Scopes(tables, ref)
  {
    if Scopes(tables, ref) {
      forall q, rows
        ensures ListsMine(js, tables, u, ref, q, maxRows, rows) && ExportsMine(js, tables, u, ref, q, maxRows, rows)
      {
        ListAnswersFromMine(js, tables, t, u, ref, q, maxRows, rows);
        ExportAnswersFromMine(js, tables, t, u, ref, q, maxRows, rows);
      }
    } else {
      var q, rows: seq<Row> := Query(None, [], [], 1, 0), [map[OWNER_COLUMN := Null]];
      UnscopedReadsReachOthers(js, tables, t, u, ref, maxRows, rows);
      assert !ProjectsMine(u, None, rows, rows[0]);
      assert !ListsMine(js, tables, u, ref, q, maxRows, rows) && !ExportsMine(js, tables, u, ref, q, maxRows, rows);
    }
  }

  /** So it is after every run that leaves ownership, and the rows of others are still there to be kept back. */
  lemma RunReadsAreMine(js: Js, tables: seq<Table>, t: Table, u: string, rows: seq<Row>, reqs: seq<Request>,
                        ref: string, q: Query, maxRows: int)
    requires Identifier(js, u) && Owned(rows) && Names(tables, ref, t) && Scopes(tables, ref)
    requires forall k :: 0 <= k < |reqs| ==> LeavesOwnership(tables, t, u, reqs[k])
    ensures var after := Run(js, tables, t, Owner(u), rows, reqs);
            && KeepsOthers(u, rows, after)
            && ListsMine(js, tables, u, ref, q, maxRows, after) && ExportsMine(js, tables, u, ref, q, maxRows, after)
  {
    var after := Run(js, tables, t, Owner(u), rows, reqs);
    RunKeepsOthers(js, tables, t, u, rows, reqs);
    ListAnswersFromMine(js, tables, t, u, ref, q, maxRows, after);
    ExportAnswersFromMine(js, tables, t, u, ref, q, maxRows, after);
  }

  /** Under an unscoped reference a plain list or export answers with whatever one row the table holds. */
  lemma UnscopedReadsReachOthers(js: Js, tables: seq<Table>, t: Table, u: string, ref: string, maxRows: int, rows: seq<Row>)
    requires Names(tables, ref, t) && !Scopes(tables, ref) && maxRows >= 1 && |rows| == 1
    ensures var q := Query(None, [], [], 1, 0);
            && ListRows(js, tables, Owner(u), ref, q, maxRows, rows) == Ok(rows)
            && ExportRows(js, tables, Owner(u), ref, q, maxRows, rows) == Ok(Exported(rows, false))
  {
    var q := Query(None, [], [], 1, 0);
    assert Objection(Usable(t), q, maxRows).None? && Objection(Usable(t), q.(limit := PageSize(maxRows)), maxRows).None?;
    assert Sorted(js, [], [], rows) == rows;
    assert Slice(rows, 0, 1) == rows && Slice(rows, 0, EXPORT_CAP) == rows;
    assert ProjectAll(None, rows) == rows;
  }

  /** The answer to this request is the caller's own, whatever the table holds. */
  ghost predicate AnswersMine(js: Js, tables: seq<Table>, t: Table, u: string, req: Request) {
    forall rows :: Owned(rows) ==> AllMine(u, Answered(js, tables, t, Owner(u), rows, req))
  }

  /** For creates and updates it holds if and only if they leave ownership; for reads by identifier and deletes always. */
  lemma WriteAnswersAreMineIff(js: Js, tables: seq<Table>, t: Table, u: string, req: Request)
    requires Identifier(js, u) && !req.List? && !req.Export? && !req.Import?
    ensures AnswersMine(js, tables, t, u, req) <==> LeavesOwnership(tables, t, u, req)
  {
    if LeavesOwnership(tables, t, u, req) {
      forall rows: seq<Row> | Owned(rows)
        ensures AllMine(u, Answered(js, tables, t, Owner(u), rows, req))
      {
        AnswersAreMine(js, tables, t, u, rows, req);
      }
    } else {
      var id := if req.Update? then req.id else "";
      var rows: seq<Row> := [map[ID_COLUMN := Str(id), OWNER_COLUMN := Str(u)]];
      OthersRowComesBack(js, tables, t, u, rows, req);
      assert Owned(rows);
    }
  }

  lemma OthersRowComesBack(js: Js, tables: seq<Table>, t: Table, u: string, rows: seq<Row>, req: Request)
    requires Identifier(js, u) && !LeavesOwnership(tables, t, u, req) && !req.Import?
    requires req.Update? ==> Stocked(rows, 1, u, req.id)
    ensures !AllMine(u, Answered(js, tables, t, Owner(u), rows, req))
  {
    match req
    case Create(ref, body) =>
      UnscopedCreation(js, tables, t, Owner(u), ref, body);
      assert body in Answered(js, tables, t, Owner(u), rows, req);
    case Update(ref, id, body) =>
      GivenAway(js, tables, t, u, rows, ref, id, body);
      assert rows[0] + (body - {ID_COLUMN}) in Answered(js, tables, t, Owner(u), rows, req);
  }

  /**
   * A row read by identifier is the caller's own. It is also computed from the caller's rows alone exactly if
   * no row of another user comes before the caller's first row with that identifier.
   */
  lemma GetReadsOwnRowsIff(js: Js, tables: seq<Table>, t: Table, u: string, ref: string, id: string, rows: seq<Row>)
    requires Identifier(js, u) && Owned(rows) && |id| <= MAX_ID_CHARS && Names(tables, ref, t)
    ensures var i, mine := Find(js, rows, id, 0), Filter(Mine(u), rows);
            GetRow(js, tables, Owner(u), ref, id, rows) == GetRow(js, tables, Owner(u), ref, id, mine) <==>
            (Find(js, mine, id, 0) < |mine| ==> i < |rows| && IsMine(u, rows[i]))
  {
    var i, mine := Find(js, rows, id, 0), Filter(Mine(u), rows);
    var k := Find(js, mine, id, 0);
    var at := FilterEmbeds(Mine(u), rows);
    FoundIsMine(js, tables, u, ref, id, rows);
    forall j | 0 <= j < |mine|
      ensures IsMine(u, mine[j])
    {
      assert at[j] in at;
    }
    if i < |rows| {
      OwnerReadings(js, rows[i][OWNER_COLUMN], u);
      if IsMine(u, rows[i]) {
        var m :| 0 <= m < |at| && at[m] == i;
        assert mine[m] == rows[i];
        assert k <= m && i <= at[k];
        assert at[k] == i;
      }
    }
    if k < |mine| {
      assert rows[at[k]] == mine[k];
      OwnerReadings(js, mine[k][OWNER_COLUMN], u);
    }
  }

  /** A list by this reference depends on the caller's own rows only. */
  ghost predicate Confined(js: Js, tables: seq<Table>, u: string, ref: string, maxRows: int) {
    forall q, rows ::
      ListRows(js, tables, Owner(u), ref, q, maxRows, rows) == ListRows(js, tables, Owner(u), ref, q, maxRows, Filter(Mine(u), rows))
  }

  /** That is, if and only if the first listed table of that very name has an owner column. */
  lemma ConfinedIffScoped(js: Js, tables: seq<Table>, t: Table, u: string, ref: string, maxRows: int)
    requires Identifier(js, u) && Names(tables, ref, t) && maxRows >= 1
    ensures Confined(js, tables, u, ref, maxRows) <==> Scopes(tables, ref)
  {
    if Scopes(tables, ref) {
      forall q, rows: seq<Row>
        ensures ListRows(js, tables, Owner(u), ref, q, maxRows, rows) == ListRows(js, tables, Owner(u), ref, q, maxRows, Filter(Mine(u), rows))
      {
        ReadsOwnRowsOnly(js, tables, u, ref, q, maxRows, rows);
      }
    } else {
      var rows: seq<Row>, q := [map[OWNER_COLUMN := Null]], Query(None, [], [], 1, 0);
      UnscopedReadsReachOthers(js, tables, t, u, ref, maxRows, rows);
      FilterNone(Mine(u), rows, 1);
      assert Select(js, q, []) == [];
      assert ListRows(js, tables, Owner(u), ref, q, maxRows, rows) != ListRows(js, tables, Owner(u), ref, q, maxRows, Filter(Mine(u), rows));
    }
  }

  // ---- Imports ----

  /** Up to 50 failures every row of the file is either stored or reported; after that the rest is skipped. */
  lemma {:induction false} ImportAccounts(outcomes: seq<Result<Row, Code>>, n: nat)
    requires n <= |outcomes|
    ensures var r := Tally(outcomes, n);
            && |r.errors| <= 50
            && |r.stored| + |r.errors| <= n
            && (|r.errors| < 50 ==> |r.stored| + |r.errors| == n)
  {
    if n > 0 {
      ImportAccounts(outcomes, n - 1);
    }
  }

  /** What is reported: the refusal of the row on that line, line by line in the order of the file. */
  lemma {:induction false} ImportReports(outcomes: seq<Result<Row, Code>>, n: nat, k: nat)
    requires n <= |outcomes| && k < |Tally(outcomes, n).errors|
    ensures var errors := Tally(outcomes, n).errors;
            && 2 <= errors[k].0 <= n + 1
            && (k > 0 ==> errors[k - 1].0 < errors[k].0)
            && outcomes[errors[k].0 - 2] == Err(errors[k].1)
  {
    var before := Tally(outcomes, n - 1).errors;
    if k < |before| {
      ImportReports(outcomes, n - 1, k);
    } else if k > 0 {
      ImportReports(outcomes, n - 1, k - 1);
    }
  }

  lemma {:induction false} StoredAreOutcomes(outcomes: seq<Result<Row, Code>>, n: nat)
    requires n <= |outcomes|
    ensures forall r :: r in Tally(outcomes, n).stored ==> Ok(r) in outcomes
  {
    if n > 0 {
      StoredAreOutcomes(outcomes, n - 1);
      assert outcomes[n - 1] in outcomes;
    }
  }

  lemma {:induction false} NothingAccepted(outcomes: seq<Result<Row, Code>>, n: nat)
    requires n <= |outcomes| && forall i :: 0 <= i < |outcomes| && i < 50 ==> outcomes[i].Err?
    ensures var r := Tally(outcomes, n);
            r.stored == [] && |r.errors| == if n < 50 then n else 50
  {
    if n > 0 {
      NothingAccepted(outcomes, n - 1);
    }
  }

  lemma {:induction false} StoredOnce(outcomes: seq<Result<Row, Code>>, k: nat, n: nat)
    requires k < n <= |outcomes| && k < 50 && outcomes[k].Ok?
    ensures Tally(outcomes, n).stored != []
  {
    if n > k + 1 {
      StoredOnce(outcomes, k, n - 1);
    } else {
      ImportAccounts(outcomes, k);
    }
  }
}
