/** The migration workflow of a project: create, apply in order, reset, discard. */
module Migrations {
  import opened Wrappers
  import opened Environments
  import opened Approvals

  datatype Status = Pending | Applied | Failed | Discarded

  datatype Row = Row(
    projectId: string,
    version: nat,
    environment: string,
    statements: seq<string>,
    checksum: string,
    destructive: bool,
    status: Status,
    appliedByTokenId: Option<string>
  )

  type Rows = map<string, Row>

  /** The two text functions the workflow relies on: the statement checksum and the slug normalizer. */
  datatype Setup = Setup(checksum: seq<string> -> string, norm: Normalizer)

  datatype Caller = Human(productionAdmin: bool) | Agent(token: Token)

  /** One execution of a stored migration against the database, and the rows as they stood before it. */
  datatype Attempt = Attempt(
    id: string,
    row: Row,
    caller: Caller,
    production: bool,
    approval: Option<nat>,
    succeeded: bool,
    before: Rows
  )

  datatype World = World(rows: Rows, book: Book, attempts: seq<Attempt>)

  datatype Outcome =
    | Created(version: nat)
    | Done
    | RolledBack
    | ApprovalRequired(approval: nat)
    | Refused(reason: Refusal)

  datatype Refusal =
    | NotPermitted
    | NoSuchMigration
    | AlreadyApplied
    | WasDiscarded
    | StillPending
    | ChecksumMismatch
    | UnknownEnvironment
    | EnvironmentForbidden
    | ScopeForbidden
    | ApprovalInvalid
    | NotFailed

  /** An apply request, with what the platform answers on the way: role checks, listing, and transaction. */
  datatype ApplyRequest = ApplyRequest(
    projectId: string,
    id: string,
    caller: Caller,
    permitted: bool,
    sentChecksum: Option<string>,
    presented: Option<nat>,
    listing: Option<seq<Environment>>,
    now: int,
    commits: bool
  )

  // ── Reading the rows of a project ──

  function VersionsOf(rows: Rows, projectId: string): set<nat> {
    set id | id in rows && rows[id].projectId == projectId :: rows[id].version
  }

  /** Version `v` is the next one: above all of the project, with no gap. */
  ghost predicate IsNextVersion(rows: Rows, projectId: string, v: nat) {
    && (forall w :: w in VersionsOf(rows, projectId) ==> w < v)
    && (v == 1 || v - 1 in VersionsOf(rows, projectId))
    && v >= 1
  }

  predicate EarlierPending(rows: Rows, id: string)
    requires id in rows
  {
    exists other :: other in rows && other != id && rows[other].projectId == rows[id].projectId
                    && rows[other].version < rows[id].version && rows[other].status == Status.Pending
  }

  /** The rows of the project, each once, in version order. */
  ghost predicate IsListing(rows: Rows, projectId: string, ids: seq<string>) {
    && (forall id :: id in ids <==> id in rows && rows[id].projectId == projectId)
    && InOrder(rows, ids)
  }

  ghost predicate InOrder(rows: Rows, ids: seq<string>) {
    && (forall i :: 0 <= i < |ids| ==> ids[i] in rows)
    && (forall i, j :: 0 <= i < j < |ids| ==> ids[i] != ids[j] && rows[ids[i]].version <= rows[ids[j]].version)
  }

  lemma InsertedInOrder(rows: Rows, ids: seq<string>, k: nat, id: string)
    requires k <= |ids| && id in rows && id !in ids && InOrder(rows, ids)
    requires forall i :: 0 <= i < k ==> rows[ids[i]].version <= rows[id].version
    requires k < |ids| ==> rows[id].version < rows[ids[k]].version
    ensures var r := ids[..k] + [id] + ids[k..];
            InOrder(rows, r) && forall other :: other in r <==> other in ids || other == id
  {
    var r := ids[..k] + [id] + ids[k..];
    forall i, j | 0 <= i < j < |r|
      ensures r[i] != r[j] && r[i] in rows && r[j] in rows && rows[r[i]].version <= rows[r[j]].version
    {
      var i', j' := if i <= k then i else i - 1, if j <= k then j else j - 1;
      assert i == k || r[i] == ids[i'];
      assert j == k || r[j] == ids[j'];
      assert k < |ids| && i == k ==> rows[ids[k]].version <= rows[ids[j']].version;
    }
    assert ids == ids[..k] + ids[k..];
  }

  // ── Applying ──

  function ApprovalNeeded(destructive: bool, isAgent: bool, production: bool): bool {
    isAgent && (destructive || production)
  }

  function Authorized(s: Setup, caller: Caller, env: Resolved): bool {
    match caller
    case Agent(t) => EnvironmentAllowed(s.norm, t.environments, env.slug, env.isProduction)
    case Human(admin) => env.isProduction ==> admin
  }

  function ApplyPath(projectId: string, id: string): string {
    "/api/v1/projects/" + projectId + "/database/migrations/" + id + "/apply"
  }

  function ApplyOperation(projectId: string, id: string, checksum: string): Operation {
    Operation("POST", ApplyPath(projectId, id), checksum)
  }

  /** The first objection to an apply, up to the approval gate. */
  function Objection(s: Setup, rows: Rows, r: ApplyRequest): Option<Refusal> {
    if r.id !in rows || rows[r.id].projectId != r.projectId then Some(NoSuchMigration)
    else
      var row := rows[r.id];
      if !r.permitted then Some(NotPermitted)
      else if row.status == Applied then Some(AlreadyApplied)
      else if row.status == Discarded then Some(WasDiscarded)
      else if EarlierPending(rows, r.id) then Some(StillPending)
      else if s.checksum(row.statements) != row.checksum
              || (r.sentChecksum.Some? && r.sentChecksum.value != "" && r.sentChecksum.value != row.checksum) then Some(ChecksumMismatch)
      else
        var env := ResolveEnvironment(s.norm, r.listing, row.environment);
        if env.None? then Some(UnknownEnvironment)
        else if !Authorized(s, r.caller, env.value) then Some(EnvironmentForbidden)
        else None
  }

  function TargetsProduction(s: Setup, rows: Rows, r: ApplyRequest): bool
    requires Objection(s, rows, r).None?
  {
    ResolveEnvironment(s.norm, r.listing, rows[r.id].environment).value.isProduction
  }

  function GateDecision(s: Setup, w: World, r: ApplyRequest): Decision
    requires Objection(s, w.rows, r).None?
  {
    var row, production := w.rows[r.id], TargetsProduction(s, w.rows, r);
    if ApprovalNeeded(row.destructive, r.caller.Agent?, production)
    then Gate(w.book, r.caller.token, production, ApplyOperation(r.projectId, r.id, row.checksum), r.presented, r.now)
    else Proceed(None)
  }

  function GateBook(s: Setup, w: World, r: ApplyRequest): Book
    requires Objection(s, w.rows, r).None?
  {
    var row, production := w.rows[r.id], TargetsProduction(s, w.rows, r);
    if ApprovalNeeded(row.destructive, r.caller.Agent?, production)
    then Gated(w.book, r.caller.token, production, ApplyOperation(r.projectId, r.id, row.checksum), r.presented, r.now)
    else w.book
  }

  function Finished(row: Row, caller: Caller, commits: bool): Row {
    if commits then row.(status := Applied, appliedByTokenId := if caller.Agent? then Some(caller.token.id) else None)
    else row.(status := Failed)
  }

  function ApplyResult(s: Setup, w: World, r: ApplyRequest): (World, Outcome) {
    var objection := Objection(s, w.rows, r);
    if objection.Some? then (w, Refused(objection.value))
    else
      var row, book := w.rows[r.id], GateBook(s, w, r);
      match GateDecision(s, w, r)
      case Held(id) => (w.(book := book), ApprovalRequired(id))
      case ScopeDenied => (w.(book := book), Refused(ScopeForbidden))
      case ApprovalRefused => (w.(book := book), Refused(ApprovalInvalid))
      case Proceed(consumed) =>
        var attempt := Attempt(r.id, row, r.caller, TargetsProduction(s, w.rows, r), consumed, r.commits, w.rows);
        (World(w.rows[r.id := Finished(row, r.caller, r.commits)], book, w.attempts + [attempt]),
         if r.commits then Done else RolledBack)
  }

  class MigrationPlane {
    const setup: Setup
    const agents: AgentService
    var rows: Rows
    ghost var attempts: seq<Attempt>

    constructor (setup: Setup, agents: AgentService)
      ensures this.setup == setup && this.agents == agents
      ensures rows == map[] && attempts == []
    {
      this.setup := setup;
      this.agents := agents;
      rows := map[];
      attempts := [];
    }

    ghost function State(): World
      reads this, agents
    {
      World(rows, agents.Contents(), attempts)
    }

    /** Filter the rows of the project and sort them by version. */
    method List(projectId: string) returns (ids: seq<string>)
      ensures IsListing(rows, projectId, ids)
    {
      ids := [];
      var left := rows.Keys;
      while left != {}
        invariant left <= rows.Keys
        invariant forall id :: id in ids <==> id in rows && id !in left && rows[id].projectId == projectId
        invariant InOrder(rows, ids)
        decreases left
      {
        var id :| id in left;
        left := left - {id};
        if rows[id].projectId == projectId {
          ids := InsertByVersion(ids, id);
        }
      }
    }

    method InsertByVersion(ids: seq<string>, id: string) returns (r: seq<string>)
      requires id in rows && id !in ids && InOrder(rows, ids)
      ensures forall other :: other in r <==> other in ids || other == id
      ensures InOrder(rows, r)
    {
      var k := 0;
      while k < |ids| && rows[ids[k]].version <= rows[id].version
        invariant 0 <= k <= |ids|
        invariant forall i :: 0 <= i < k ==> rows[ids[i]].version <= rows[id].version
      {
        k := k + 1;
      }
      r := ids[..k] + [id] + ids[k..];
      InsertedInOrder(rows, ids, k, id);
    }

    method NextVersion(projectId: string) returns (v: nat)
      ensures IsNextVersion(rows, projectId, v)
    {
      var ids := List(projectId);
      v := 1;
      if ids != [] {
        v := rows[ids[|ids| - 1]].version + 1;
        assert ids[|ids| - 1] in ids;
        forall w | w in VersionsOf(rows, projectId)
          ensures w < v
        {
          var id :| id in rows && rows[id].projectId == projectId && rows[id].version == w;
          assert id in ids;
        }
      } else {
        assert VersionsOf(rows, projectId) == {};
      }
    }

    /** The version reported as the state of the schema: the last applied row of the listing. */
    method AppliedVersion(projectId: string) returns (v: nat)
      ensures forall id :: id in rows && rows[id].projectId == projectId && rows[id].status == Applied ==> rows[id].version <= v
      ensures v == 0 || exists id :: id in rows && rows[id].projectId == projectId && rows[id].status == Applied && rows[id].version == v
    {
      var ids := List(projectId);
      v := 0;
      for i := 0 to |ids|
        invariant forall j :: 0 <= j < i && rows[ids[j]].status == Applied ==> rows[ids[j]].version <= v
        invariant v == 0 || exists j :: 0 <= j < i && rows[ids[j]].status == Applied && rows[ids[j]].version == v
      {
        assert ids[i] in ids;
        if rows[ids[i]].status == Applied {
          assert forall j :: 0 <= j < i ==> ids[j] in ids && rows[ids[j]].version <= rows[ids[i]].version;
          v := rows[ids[i]].version;
        }
      }
    }

    /** Validate and store: nothing is executed. `id` is a fresh random identifier. */
    method Create(projectId: string, id: string, declared: string, statements: seq<string>, destructive: bool,
                  permitted: bool, listing: Option<seq<Environment>>) returns (o: Outcome)
      requires id !in rows
      modifies this
      ensures CreateResult(setup, old(State()), projectId, id, declared, statements, destructive, permitted, listing, State(), o)
    {
      if !permitted {
        return Refused(NotPermitted);
      }
      var env := ResolveEnvironment(setup.norm, listing, declared);
      if env.None? {
        return Refused(UnknownEnvironment);
      }
      var version := NextVersion(projectId);
      rows := rows[id := Row(projectId, version, env.value.slug, statements, setup.checksum(statements), destructive, Status.Pending, None)];
      o := Created(version);
    }

    method Apply(r: ApplyRequest) returns (o: Outcome)
      modifies this, agents
      ensures (State(), o) == ApplyResult(setup, old(State()), r)
    {
      if r.id !in rows || rows[r.id].projectId != r.projectId {
        return Refused(NoSuchMigration);
      }
      var row := rows[r.id];
      if !r.permitted {
        return Refused(NotPermitted);
      }
      if row.status == Applied {
        return Refused(AlreadyApplied);
      }
      if row.status == Discarded {
        return Refused(WasDiscarded);
      }
      var blocked := FindEarlierPending(r.id);
      if blocked {
        return Refused(StillPending);
      }
      var live := setup.checksum(row.statements);
      if live != row.checksum || (r.sentChecksum.Some? && r.sentChecksum.value != "" && r.sentChecksum.value != row.checksum) {
        return Refused(ChecksumMismatch);
      }
      var applyEnv := ResolveEnvironment(setup.norm, r.listing, row.environment);
      if applyEnv.None? {
        return Refused(UnknownEnvironment);
      }
      if !Authorized(setup, r.caller, applyEnv.value) {
        return Refused(EnvironmentForbidden);
      }
      var production := applyEnv.value.isProduction;
      var consumed: Option<nat> := None;
      if r.caller.Agent? && ApprovalNeeded(row.destructive, true, production) {
        var decision := agents.GateDestructive(r.caller.token, production, ApplyOperation(r.projectId, r.id, row.checksum), r.presented, r.now);
        match decision
        case Held(id) => return ApprovalRequired(id);
        case ScopeDenied => return Refused(ScopeForbidden);
        case ApprovalRefused => return Refused(ApprovalInvalid);
        case Proceed(c) => consumed := c;
      }
      attempts := attempts + [Attempt(r.id, row, r.caller, production, consumed, r.commits, rows)];
      if r.commits {
        rows := rows[r.id := row.(status := Applied, appliedByTokenId := if r.caller.Agent? then Some(r.caller.token.id) else None)];
        o := Done;
      } else {
        rows := rows[r.id := row.(status := Failed)];
        o := RolledBack;
      }
    }

    method FindEarlierPending(id: string) returns (found: bool)
      requires id in rows
      ensures found <==> EarlierPending(rows, id)
    {
      var all := List(rows[id].projectId);
      found := false;
      for i := 0 to |all|
        invariant !found
        invariant forall j :: 0 <= j < i ==>
                    !(rows[all[j]].version < rows[id].version && rows[all[j]].status == Status.Pending && all[j] != id)
      {
        assert all[i] in all;
        if rows[all[i]].version < rows[id].version && rows[all[i]].status == Status.Pending && all[i] != id {
          return true;
        }
      }
    }

    method Reset(projectId: string, id: string, permitted: bool) returns (o: Outcome)
      modifies this
      ensures (State(), o) == ResetResult(old(State()), projectId, id, permitted)
    {
      if id !in rows || rows[id].projectId != projectId {
        return Refused(NoSuchMigration);
      }
      if !permitted {
        return Refused(NotPermitted);
      }
      if rows[id].status != Failed {
        return Refused(NotFailed);
      }
      rows := rows[id := rows[id].(status := Status.Pending)];
      o := Done;
    }

    method Discard(projectId: string, id: string, permitted: bool) returns (o: Outcome)
      modifies this
      ensures (State(), o) == DiscardResult(old(State()), projectId, id, permitted)
    {
      if id !in rows || rows[id].projectId != projectId {
        return Refused(NoSuchMigration);
      }
      if !permitted {
        return Refused(NotPermitted);
      }
      if rows[id].status == Applied {
        return Refused(AlreadyApplied);
      }
      rows := rows - {id};
      o := Done;
    }
  }

  /** A creation: refused with nothing changed, or one new pending row at the next version. */
  ghost predicate CreateResult(s: Setup, w: World, projectId: string, id: string, declared: string, statements: seq<string>,
                               destructive: bool, permitted: bool, listing: Option<seq<Environment>>, w': World, o: Outcome) {
    var env := ResolveEnvironment(s.norm, listing, declared);
    if !permitted then w' == w && o == Refused(NotPermitted)
    else if env.None? then w' == w && o == Refused(UnknownEnvironment)
    else
      && o.Created? && IsNextVersion(w.rows, projectId, o.version)
      && w' == w.(rows := w.rows[id := Row(projectId, o.version, env.value.slug, statements, s.checksum(statements), destructive, Status.Pending, None)])
  }

  function ResetResult(w: World, projectId: string, id: string, permitted: bool): (World, Outcome) {
    if id !in w.rows || w.rows[id].projectId != projectId then (w, Refused(NoSuchMigration))
    else if !permitted then (w, Refused(NotPermitted))
    else if w.rows[id].status != Failed then (w, Refused(NotFailed))
    else (w.(rows := w.rows[id := w.rows[id].(status := Status.Pending)]), Done)
  }

  function DiscardResult(w: World, projectId: string, id: string, permitted: bool): (World, Outcome) {
    if id !in w.rows || w.rows[id].projectId != projectId then (w, Refused(NoSuchMigration))
    else if !permitted then (w, Refused(NotPermitted))
    else if w.rows[id].status == Applied then (w, Refused(AlreadyApplied))
    else (w.(rows := w.rows - {id}), Done)
  }
}
