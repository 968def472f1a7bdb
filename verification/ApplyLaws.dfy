/** What an execution of a migration needed: the row, the target, the caller, and the approval behind it. */
module ApplyLaws {
  import opened Wrappers
  import opened Environments
  import opened Approvals
  import opened Migrations
  import opened MigrationLaws

  // ── The conditions, by their fields ──

  /** The first listed environment with this label. */
  predicate FirstLabelled(norm: Normalizer, envs: seq<Environment>, slug: string, i: int) {
    0 <= i < |envs| && norm(envs[i].slug) == slug && forall k :: 0 <= k < i ==> norm(envs[k].slug) != slug
  }

  /** Without a listing the label decides; with one, whether a production environment uses the same branch. */
  ghost predicate IsProduction(norm: Normalizer, listing: Option<seq<Environment>>, declared: string) {
    if listing.None? || listing.value == [] then norm(declared) == "production"
    else exists i, j ::
           && FirstLabelled(norm, listing.value, norm(declared), i) && 0 <= j < |listing.value|
           && (listing.value[j].isProduction || norm(listing.value[j].slug) == "production")
           && listing.value[j].branchId == listing.value[i].branchId
  }

  ghost predicate IsKnown(norm: Normalizer, listing: Option<seq<Environment>>, declared: string) {
    listing.Some? && listing.value != [] ==> exists i :: FirstLabelled(norm, listing.value, norm(declared), i)
  }

  lemma {:induction false} FindsFirstLabelled(norm: Normalizer, envs: seq<Environment>, slug: string)
    ensures var r := FindSlug(norm, envs, slug);
            if r.Some? then exists i :: FirstLabelled(norm, envs, slug, i) && envs[i] == r.value
            else forall i :: !FirstLabelled(norm, envs, slug, i)
  {
    if envs != [] {
      if norm(envs[0].slug) == slug {
        assert FirstLabelled(norm, envs, slug, 0);
      } else {
        FindsFirstLabelled(norm, envs[1..], slug);
        forall i | 0 <= i < |envs[1..]|
          ensures FirstLabelled(norm, envs[1..], slug, i) <==> FirstLabelled(norm, envs, slug, i + 1)
        {
          assert forall k :: 0 < k < i + 1 ==> envs[k] == envs[1..][k - 1];
          assert forall k :: 0 <= k < i ==> envs[1..][k] == envs[k + 1];
        }
        forall i | FirstLabelled(norm, envs, slug, i)
          ensures i > 0 && FirstLabelled(norm, envs[1..], slug, i - 1)
        {
        }
      }
    }
  }

  /** Only one environment is the first with its label. */
  lemma OneFirst(norm: Normalizer, envs: seq<Environment>, slug: string, i: int, j: int)
    requires FirstLabelled(norm, envs, slug, i) && FirstLabelled(norm, envs, slug, j)
    ensures i == j
  {
  }

  /** The environment resolved is the one declared, production or not as its branch says. */
  lemma ResolvedByFields(norm: Normalizer, listing: Option<seq<Environment>>, declared: string)
    ensures var r := ResolveEnvironment(norm, listing, declared);
            && (r.Some? <==> IsKnown(norm, listing, declared))
            && (r.Some? ==> r.value.slug == norm(declared) && (r.value.isProduction <==> IsProduction(norm, listing, declared)))
  {
    if listing.Some? && listing.value != [] {
      var envs := listing.value;
      FindsFirstLabelled(norm, envs, norm(declared));
      if FindSlug(norm, envs, norm(declared)).Some? {
        var i :| FirstLabelled(norm, envs, norm(declared), i) && envs[i] == FindSlug(norm, envs, norm(declared)).value;
        ProductionIffBranchShared(norm, envs, declared);
        forall k | FirstLabelled(norm, envs, norm(declared), k)
          ensures k == i
        {
          OneFirst(norm, envs, norm(declared), k, i);
        }
      }
    }
  }

  /** A human needs to administer production; an agent needs it named, and elsewhere an empty list is enough. */
  ghost predicate MayTouch(norm: Normalizer, caller: Caller, environment: string, production: bool) {
    match caller
    case Human(productionAdmin) => production ==> productionAdmin
    case Agent(t) =>
      || (exists i :: 0 <= i < |t.environments| && norm(t.environments[i]) == norm(environment))
      || (!production && t.environments == [])
  }

  /** The row is stored in the project, open, next in turn, and unchanged since it was written. */
  ghost predicate InTurn(s: Setup, rows: Rows, r: ApplyRequest) {
    && r.id in rows && rows[r.id].projectId == r.projectId
    && (rows[r.id].status == Status.Pending || rows[r.id].status == Failed)
    && (forall other :: other in rows && rows[other].projectId == r.projectId && rows[other].version < rows[r.id].version ==>
          rows[other].status != Status.Pending)
    && s.checksum(rows[r.id].statements) == rows[r.id].checksum
    && (r.sentChecksum == None || r.sentChecksum == Some("") || r.sentChecksum == Some(rows[r.id].checksum))
  }

  /** Everything short of the gate. */
  ghost predicate Eligible(s: Setup, rows: Rows, r: ApplyRequest) {
    && InTurn(s, rows, r) && r.permitted
    && IsKnown(s.norm, r.listing, rows[r.id].environment)
    && MayTouch(s.norm, r.caller, s.norm(rows[r.id].environment), IsProduction(s.norm, r.listing, rows[r.id].environment))
  }

  lemma NoObjectionIff(s: Setup, rows: Rows, r: ApplyRequest)
    ensures Objection(s, rows, r).None? <==> Eligible(s, rows, r)
    ensures Objection(s, rows, r).None? ==> (TargetsProduction(s, rows, r) <==> IsProduction(s.norm, r.listing, rows[r.id].environment))
  {
    if r.id in rows {
      ResolvedByFields(s.norm, r.listing, rows[r.id].environment);
    }
  }

  /** An agent's destructive or production work is gated. */
  ghost predicate IsGated(s: Setup, rows: Rows, r: ApplyRequest)
    requires r.id in rows
  {
    r.caller.Agent? && (rows[r.id].destructive || IsProduction(s.norm, r.listing, rows[r.id].environment))
  }

  /** The scope opens the gate, but not to production. */
  ghost predicate ScopeOpens(s: Setup, rows: Rows, r: ApplyRequest)
    requires r.id in rows && r.caller.Agent?
  {
    !IsProduction(s.norm, r.listing, rows[r.id].environment) && "database.destructive" in r.caller.token.scopes
  }

  ghost predicate ApprovalOpens(s: Setup, w: World, r: ApplyRequest)
    requires r.id in w.rows && r.caller.Agent?
  {
    && (IsProduction(s.norm, r.listing, w.rows[r.id].environment) || r.caller.token.approvalRequired)
    && r.presented.Some? && r.presented.value in w.book.entries
    && var a := w.book.entries[r.presented.value];
       && a.status == Approved && r.now < a.expiresAt && a.tokenId == r.caller.token.id
       && a.operation == Operation("POST", "/api/v1/projects/" + r.projectId + "/database/migrations/" + r.id + "/apply",
                                   w.rows[r.id].checksum)
  }

  ghost predicate MayExecute(s: Setup, w: World, r: ApplyRequest) {
    Eligible(s, w.rows, r) && (IsGated(s, w.rows, r) ==> ScopeOpens(s, w.rows, r) || ApprovalOpens(s, w, r))
  }

  /** The approval an execution uses up. */
  ghost predicate UsesUp(s: Setup, w: World, r: ApplyRequest)
    requires r.id in w.rows
  {
    IsGated(s, w.rows, r) && !ScopeOpens(s, w.rows, r)
  }

  ghost predicate Consumes(b: Book, id: nat, b': Book) {
    id in b.entries && b' == b.(entries := b.entries[id := b.entries[id].(status := Consumed)])
  }

  /** What an execution records and leaves. */
  ghost predicate Executed(s: Setup, w: World, r: ApplyRequest, w': World)
    requires r.id in w.rows
  {
    var row := w.rows[r.id];
    && w'.attempts == w.attempts + [Attempt(r.id, row, r.caller, IsProduction(s.norm, r.listing, row.environment),
                                           if UsesUp(s, w, r) then r.presented else None, r.commits, w.rows)]
    && w'.rows == w.rows[r.id := if !r.commits then row.(status := Failed)
                                 else row.(status := Applied, appliedByTokenId := if r.caller.Agent? then Some(r.caller.token.id) else None)]
    && (!UsesUp(s, w, r) ==> w'.book == w.book)
    && (UsesUp(s, w, r) ==> r.presented.Some? && Consumes(w.book, r.presented.value, w'.book))
  }

  /** A migration is executed exactly when all of that holds; otherwise nothing is executed and no row changes. */
  lemma ExecutesIff(s: Setup, w: World, r: ApplyRequest)
    ensures var (w', o) := ApplyResult(s, w, r);
            && (MayExecute(s, w, r) ==> o == (if r.commits then Done else RolledBack) && Executed(s, w, r, w'))
            && (!MayExecute(s, w, r) ==> w'.attempts == w.attempts && w'.rows == w.rows && !o.Done? && !o.RolledBack?)
  {
    NoObjectionIff(s, w.rows, r);
  }

  /** Held for an approval exactly when the gate is shut, an approval would open it, and none is presented. */
  lemma HeldIff(s: Setup, w: World, r: ApplyRequest)
    ensures var (w', o) := ApplyResult(s, w, r);
            var held := && Eligible(s, w.rows, r) && IsGated(s, w.rows, r) && !ScopeOpens(s, w.rows, r) && r.presented.None?
                        && (IsProduction(s.norm, r.listing, w.rows[r.id].environment) || r.caller.token.approvalRequired);
            && (o.ApprovalRequired? <==> held)
            && (held ==> o.approval == w.book.counter + 1 && w'.book == Book(w.book.entries[o.approval :=
                  Approval(r.caller.token.id,
                           Operation("POST", "/api/v1/projects/" + r.projectId + "/database/migrations/" + r.id + "/apply", w.rows[r.id].checksum),
                           ApprovalStatus.Pending, r.now + 86_400_000)], o.approval))
  {
    NoObjectionIff(s, w.rows, r);
  }

  // ── Over runs ──

  /** Attempt `i` is what the `k`-th move executed, under all its conditions. */
  ghost predicate ExecutedAt(s: Setup, ws: seq<World>, ms: seq<Move>, k: int, i: int, a: Attempt) {
    && 0 <= k < |ms| && k + 1 < |ws| && ms[k].Applies?
    && MayExecute(s, ws[k], ms[k].request) && Executed(s, ws[k], ms[k].request, ws[k + 1])
    && |ws[k].attempts| == i && ws[k + 1].attempts[i] == a
  }

  /** Every execution there ever was met the conditions when it happened. */
  lemma {:induction false} EveryExecutionWasAllowed(s: Setup, ws: seq<World>, ms: seq<Move>, n: nat, i: nat)
    requires IsRun(s, ws, ms) && n < |ws| && i < |ws[n].attempts|
    ensures exists k :: k < n && ExecutedAt(s, ws, ms, k, i, ws[n].attempts[i])
  {
    assert n > 0;
    var w, m, w' := ws[n - 1], ms[n - 1], ws[n];
    assert Next(s, w, m, w');
    if m.Applies? {
      ExecutesIff(s, w, m.request);
    }
    if i < |w.attempts| {
      AttemptsGrow(s, w, m, w');
      assert w'.attempts[i] == w.attempts[i];
      EveryExecutionWasAllowed(s, ws, ms, n - 1, i);
      var k :| k < n - 1 && ExecutedAt(s, ws, ms, k, i, w.attempts[i]);
      assert ExecutedAt(s, ws, ms, k, i, w'.attempts[i]);
    } else {
      assert ExecutedAt(s, ws, ms, n - 1, i, w'.attempts[i]);
    }
  }

  /** The approval is consumed, and was for this token, this migration and this text of it. */
  ghost predicate ConsumedFor(b: Book, a: Attempt) {
    && a.approval.Some? && a.caller.Agent? && a.approval.value in b.entries
    && b.entries[a.approval.value].status == Consumed
    && b.entries[a.approval.value].tokenId == a.caller.token.id
    && b.entries[a.approval.value].operation
       == Operation("POST", "/api/v1/projects/" + a.row.projectId + "/database/migrations/" + a.id + "/apply", a.row.checksum)
  }

  /**
   * Over every run: an agent that executed a destructive migration, in any environment, used up an approval of its
   * own for exactly that, or did so outside production with the scope; its other work outside production used up
   * none, and a human's never does.
   */
  lemma DestructiveNeedsScopeOrApproval(s: Setup, ws: seq<World>, ms: seq<Move>, n: nat, i: nat)
    requires IsRun(s, ws, ms) && n < |ws| && i < |ws[n].attempts|
    ensures var a := ws[n].attempts[i];
            && (a.caller.Agent? && a.row.destructive ==>
                  ConsumedFor(ws[n].book, a) || (!a.production && "database.destructive" in a.caller.token.scopes && a.approval.None?))
            && (a.caller.Agent? && !a.row.destructive && !a.production ==> a.approval.None?)
            && (a.caller.Human? ==> a.approval.None?)
            && (a.caller.Agent? && a.production ==> ConsumedFor(ws[n].book, a))
  {
    var a := ws[n].attempts[i];
    EveryExecutionWasAllowed(s, ws, ms, n, i);
    RunKeepsInv(s, ws, ms, n);
    assert ApprovalSound(ws[n].book, a);
  }

  /** Whom a run let touch what: production only by its administrators, or by agents given it by name. */
  lemma ProductionNeedsStanding(s: Setup, ws: seq<World>, ms: seq<Move>, n: nat, i: nat)
    requires IsRun(s, ws, ms) && n < |ws| && i < |ws[n].attempts| && ws[n].attempts[i].production
    ensures var a := ws[n].attempts[i];
            match a.caller
            case Human(productionAdmin) => productionAdmin
            case Agent(t) => exists j :: 0 <= j < |t.environments| && s.norm(t.environments[j]) == s.norm(s.norm(a.row.environment))
  {
    EveryExecutionWasAllowed(s, ws, ms, n, i);
  }

  // ── Where approvals come from ──

  /** The `k`-th move asked for approval `id`, which then runs for a day. */
  ghost predicate AskedAt(ws: seq<World>, ms: seq<Move>, k: int, id: nat, a: Approval) {
    && 0 <= k < |ms| && k < |ws| && id == ws[k].book.counter + 1
    && match ms[k]
       case Asks(tokenId, op, now) => a.tokenId == tokenId && a.operation == op && a.expiresAt == now + 86_400_000
       case Applies(r) => r.caller.Agent? && a.tokenId == r.caller.token.id && a.expiresAt == r.now + 86_400_000
       case _ => false
  }

  /** The `k`-th move decided on approval `id`, before it expired. */
  predicate DecidedAt(ms: seq<Move>, k: int, id: nat, approve: bool, expiresAt: int) {
    0 <= k < |ms| && ms[k].Decides? && ms[k].approval == id && ms[k].approve == approve && ms[k].now < expiresAt
  }

  /** What one move can do to an approval. */
  lemma ApprovalStep(s: Setup, w: World, m: Move, w': World, id: nat)
    requires ValidBook(w.book) && Next(s, w, m, w') && id in w'.book.entries
    ensures var a := w'.book.entries[id];
            if id !in w.book.entries then
              a.status == ApprovalStatus.Pending && AskedAt([w, w'], [m], 0, id, a)
            else
              && var b := w.book.entries[id];
                 a.tokenId == b.tokenId && a.operation == b.operation && a.expiresAt == b.expiresAt
                 && (a.status != b.status ==>
                       || (b.status == ApprovalStatus.Pending && a.status == Approved && DecidedAt([m], 0, id, true, a.expiresAt))
                       || (b.status == ApprovalStatus.Pending && a.status == Rejected && DecidedAt([m], 0, id, false, a.expiresAt))
                       || (b.status == ApprovalStatus.Pending && a.status == Expired && m.Decides? && a.expiresAt <= m.now)
                       || (b.status == Approved && a.status == Consumed))
  {
    if m.Applies? {
      ExecutesIff(s, w, m.request);
      HeldIff(s, w, m.request);
    }
  }

  /** Every approval was asked for; an approved or used one was approved, and a rejected one rejected, within its day. */
  ghost predicate Explained(ws: seq<World>, ms: seq<Move>, n: nat, id: nat, a: Approval) {
    && (exists k :: k < n && AskedAt(ws, ms, k, id, a))
    && (a.status == Approved || a.status == Consumed ==> exists k :: k < n && DecidedAt(ms, k, id, true, a.expiresAt))
    && (a.status == Rejected ==> exists k :: k < n && DecidedAt(ms, k, id, false, a.expiresAt))
  }

  lemma ExplainedLater(ws: seq<World>, ms: seq<Move>, n: nat, id: nat, b: Approval, a: Approval)
    requires Explained(ws, ms, n, id, b)
    requires a.tokenId == b.tokenId && a.operation == b.operation && a.expiresAt == b.expiresAt
    requires a.status == b.status
             || (a.status == Approved && DecidedAt(ms, n, id, true, a.expiresAt))
             || (a.status == Rejected && DecidedAt(ms, n, id, false, a.expiresAt))
             || a.status == Expired || (b.status == Approved && a.status == Consumed)
    ensures Explained(ws, ms, n + 1, id, a)
  {
    var k :| k < n && AskedAt(ws, ms, k, id, b);
    assert AskedAt(ws, ms, k, id, a);
  }

  lemma {:induction false} ApprovalsAreExplained(s: Setup, ws: seq<World>, ms: seq<Move>, n: nat, id: nat)
    requires IsRun(s, ws, ms) && n < |ws| && id in ws[n].book.entries
    ensures Explained(ws, ms, n, id, ws[n].book.entries[id])
  {
    assert n > 0;
    var w, m, w' := ws[n - 1], ms[n - 1], ws[n];
    RunKeepsInv(s, ws, ms, n - 1);
    assert Next(s, w, m, w');
    ApprovalStep(s, w, m, w', id);
    if id in w.book.entries {
      ApprovalsAreExplained(s, ws, ms, n - 1, id);
      assert [m][0] == ms[n - 1];
      ExplainedLater(ws, ms, n - 1, id, w.book.entries[id], w'.book.entries[id]);
    } else {
      assert AskedAt(ws, ms, n - 1, id, w'.book.entries[id]);
    }
  }

  /** Asked for, approved and used, in that order and within a day of asking. */
  ghost predicate WentItsWay(s: Setup, ws: seq<World>, ms: seq<Move>, ask: int, decision: int, use: int, id: nat, a: Approval) {
    && AskedAt(ws, ms, ask, id, a) && ask < use
    && DecidedAt(ms, decision, id, true, a.expiresAt) && decision < use
    && 0 <= use < |ms| && ms[use].Applies? && ms[use].request.presented == Some(id) && ms[use].request.now < a.expiresAt
  }

  /** Behind every execution that used up an approval: a request for it, a human's yes, and less than a day. */
  lemma UsedApprovalsWentTheirWay(s: Setup, ws: seq<World>, ms: seq<Move>, n: nat, i: nat)
    requires IsRun(s, ws, ms) && n < |ws| && i < |ws[n].attempts| && ws[n].attempts[i].approval.Some?
    ensures var id := ws[n].attempts[i].approval.value;
            exists ask, decision, use, a :: use < n && WentItsWay(s, ws, ms, ask, decision, use, id, a)
  {
    EveryExecutionWasAllowed(s, ws, ms, n, i);
    var use :| use < n && ExecutedAt(s, ws, ms, use, i, ws[n].attempts[i]);
    var id := ws[n].attempts[i].approval.value;
    var a := ws[use].book.entries[id];
    ApprovalsAreExplained(s, ws, ms, use, id);
    var ask :| ask < use && AskedAt(ws, ms, ask, id, a);
    var decision :| decision < use && DecidedAt(ms, decision, id, true, a.expiresAt);
    assert WentItsWay(s, ws, ms, ask, decision, use, id, a);
  }

  // ── Creation, reset and discard ──

  /** A permitted creation for a known environment stores a pending row one above the versions there are; any other nothing. */
  lemma CreatedSo(s: Setup, w: World, m: Move, w': World)
    requires m.Creates? && Next(s, w, m, w')
    ensures var stores := m.permitted && IsKnown(s.norm, m.listing, m.declared);
            && (m.outcome.Created? <==> stores)
            && (!stores ==> w' == w)
            && (stores ==>
                  var v := m.outcome.version;
                  && w'.book == w.book && w'.attempts == w.attempts
                  && w'.rows == w.rows[m.id := Row(m.projectId, v, s.norm(m.declared), m.statements, s.checksum(m.statements),
                                                   m.destructive, Status.Pending, None)]
                  && (forall id :: id in w.rows && w.rows[id].projectId == m.projectId ==> w.rows[id].version < v)
                  && (v == 1 || exists id :: id in w.rows && w.rows[id].projectId == m.projectId && w.rows[id].version == v - 1))
  {
    ResolvedByFields(s.norm, m.listing, m.declared);
    if m.outcome.Created? {
      forall id | id in w.rows && w.rows[id].projectId == m.projectId
        ensures w.rows[id].version < m.outcome.version
      {
        assert w.rows[id].version in VersionsOf(w.rows, m.projectId);
      }
    }
  }

  /** A permitted reset reopens a failed row, and a permitted discard removes one not applied; nothing else changes. */
  lemma ReopenedAndDroppedIff(w: World, projectId: string, id: string, permitted: bool)
    ensures var (w', o) := ResetResult(w, projectId, id, permitted);
            var may := permitted && id in w.rows && w.rows[id].projectId == projectId && w.rows[id].status == Failed;
            && (o.Done? <==> may)
            && w' == if may then w.(rows := w.rows[id := w.rows[id].(status := Status.Pending)]) else w
    ensures var (w', o) := DiscardResult(w, projectId, id, permitted);
            var may := permitted && id in w.rows && w.rows[id].projectId == projectId && w.rows[id].status != Applied;
            && (o.Done? <==> may)
            && w' == if may then w.(rows := w.rows - {id}) else w
  {
  }
}
