/** What every run of the migration workflow keeps, and which disorder it allows. */
module MigrationLaws {
  import opened Wrappers
  import opened Environments
  import opened Approvals
  import opened Migrations

  // ── Runs ──

  /** A request to the workflow, or something that happens to the approvals elsewhere. */
  datatype Move =
    | Creates(projectId: string, id: string, declared: string, statements: seq<string>, destructive: bool,
              permitted: bool, listing: Option<seq<Environment>>, outcome: Outcome)
    | Applies(request: ApplyRequest)
    | Resets(projectId: string, id: string, permitted: bool)
    | Discards(projectId: string, id: string, permitted: bool)
    | Asks(tokenId: string, operation: Operation, now: int)
    | Decides(approval: nat, approve: bool, now: int)
    | Spends(approval: nat, tokenId: string, operation: Operation, now: int)

  ghost predicate Next(s: Setup, w: World, m: Move, w': World) {
    match m
    case Creates(p, id, declared, statements, destructive, permitted, listing, o) =>
      id !in w.rows && CreateResult(s, w, p, id, declared, statements, destructive, permitted, listing, w', o)
    case Applies(r) => w' == ApplyResult(s, w, r).0
    case Resets(p, id, permitted) => w' == ResetResult(w, p, id, permitted).0
    case Discards(p, id, permitted) => w' == DiscardResult(w, p, id, permitted).0
    case Asks(t, op, now) => w' == w.(book := Requested(w.book, t, op, now))
    case Decides(a, approve, now) => w' == w.(book := Decided(w.book, a, approve, now))
    case Spends(a, t, op, now) => w' == w.(book := if Usable(w.book, a, t, op, now) then WithStatus(w.book, a, Consumed) else w.book)
  }

  const INITIAL := World(map[], Book(map[], 0), [])

  ghost predicate IsRun(s: Setup, ws: seq<World>, ms: seq<Move>) {
    && |ws| == |ms| + 1
    && ws[0] == INITIAL
    && forall i :: 0 <= i < |ms| ==> Next(s, ws[i], ms[i], ws[i + 1])
  }

  // ── The invariant, in parts ──

  /** Versions are positive and distinct within a project; statements are those the checksum was taken of. */
  ghost predicate RowsSound(s: Setup, rows: Rows) {
    && (forall id :: id in rows ==> rows[id].version >= 1 && rows[id].status != Discarded
                                    && rows[id].checksum == s.checksum(rows[id].statements))
    && (forall a, b :: a in rows && b in rows && a != b && rows[a].projectId == rows[b].projectId
                       ==> rows[a].version != rows[b].version)
  }

  /** What was executed is the stored row; a committed row stays as the execution left it. */
  ghost predicate AttemptSound(s: Setup, rows: Rows, a: Attempt) {
    && RowsSound(s, a.before)
    && a.id in a.before && a.before[a.id] == a.row && a.row.status in {Status.Pending, Failed}
    && (a.succeeded ==> a.id in rows && rows[a.id] == Finished(a.row, a.caller, true))
  }

  ghost predicate AttemptsSound(s: Setup, w: World) {
    && (forall i :: 0 <= i < |w.attempts| ==> AttemptSound(s, w.rows, w.attempts[i]))
    && (forall i, j :: 0 <= i < j < |w.attempts| && w.attempts[i].succeeded && w.attempts[j].succeeded
                       ==> w.attempts[i].id != w.attempts[j].id)
    && (forall id :: id in w.rows && w.rows[id].status == Applied ==> exists i :: CommittedAt(w, i, id))
  }

  ghost predicate CommittedAt(w: World, i: int, id: string) {
    0 <= i < |w.attempts| && w.attempts[i].succeeded && w.attempts[i].id == id
  }

  /** A row below a committed one was there at the time, and not pending. */
  ghost predicate WasSettled(a: Attempt, id: string, row: Row) {
    && id in a.before
    && a.before[id].projectId == row.projectId
    && a.before[id].version == row.version
    && a.before[id].status != Status.Pending
    && (a.before[id].status == Applied ==> row.status == Applied)
  }

  ghost predicate OrderSound(w: World) {
    forall i, id :: 0 <= i < |w.attempts| && w.attempts[i].succeeded && id in w.rows
                    && w.rows[id].projectId == w.attempts[i].row.projectId
                    && w.rows[id].version < w.attempts[i].row.version
                    ==> WasSettled(w.attempts[i], id, w.rows[id])
  }

  /** The lower of two rows committed out of order had failed when the higher one was executed. */
  ghost predicate HadFailed(higher: Attempt, lower: Attempt) {
    && lower.id in higher.before
    && higher.before[lower.id].projectId == lower.row.projectId
    && higher.before[lower.id].version == lower.row.version
    && higher.before[lower.id].status == Failed
  }

  ghost predicate DisorderSound(w: World) {
    forall i, j :: 0 <= i < j < |w.attempts| && w.attempts[i].succeeded && w.attempts[j].succeeded
                   && w.attempts[i].row.projectId == w.attempts[j].row.projectId
                   ==> && w.attempts[i].row.version != w.attempts[j].row.version
                       && (w.attempts[i].row.version > w.attempts[j].row.version ==> HadFailed(w.attempts[i], w.attempts[j]))
  }

  /** Without a failed transaction no row is failed. */
  ghost predicate FailuresSound(w: World) {
    (forall i :: 0 <= i < |w.attempts| ==> w.attempts[i].succeeded) ==>
      && (forall id :: id in w.rows ==> w.rows[id].status != Failed)
      && (forall i, id :: 0 <= i < |w.attempts| && id in w.attempts[i].before ==> w.attempts[i].before[id].status != Failed)
  }

  ghost predicate ApprovalSound(b: Book, a: Attempt) {
    && (a.approval.Some? ==>
          && a.caller.Agent?
          && a.approval.value in b.entries
          && var entry := b.entries[a.approval.value];
             entry.status == Consumed && entry.tokenId == a.caller.token.id
             && entry.operation == ApplyOperation(a.row.projectId, a.id, a.row.checksum))
    && (a.caller.Agent? && a.production ==> a.approval.Some?)
  }

  ghost predicate ApprovalsSound(w: World) {
    && ValidBook(w.book)
    && (forall i :: 0 <= i < |w.attempts| ==> ApprovalSound(w.book, w.attempts[i]))
    && (forall i, j :: 0 <= i < j < |w.attempts| && w.attempts[i].approval.Some? ==> w.attempts[i].approval != w.attempts[j].approval)
  }

  ghost predicate Inv(s: Setup, w: World) {
    RowsSound(s, w.rows) && AttemptsSound(s, w) && OrderSound(w) && DisorderSound(w) && FailuresSound(w) && ApprovalsSound(w)
  }

  // ── Each move keeps it ──

  /** A new row, pending, above all of its project. */
  ghost predicate Adds(s: Setup, w: World, id: string, row: Row, w': World) {
    && id !in w.rows && w' == w.(rows := w.rows[id := row])
    && row.status == Status.Pending && row.version >= 1 && row.checksum == s.checksum(row.statements)
    && (forall other :: other in w.rows && w.rows[other].projectId == row.projectId ==> w.rows[other].version < row.version)
  }

  lemma AddingKeepsAttempts(s: Setup, w: World, id: string, row: Row, w': World)
    requires RowsSound(s, w.rows) && AttemptsSound(s, w) && Adds(s, w, id, row, w')
    ensures RowsSound(s, w'.rows) && AttemptsSound(s, w')
  {
    forall a | a in w'.rows && w'.rows[a].status == Applied
      ensures exists i :: CommittedAt(w', i, a)
    {
      var i :| CommittedAt(w, i, a);
      assert CommittedAt(w', i, a);
    }
    forall i | 0 <= i < |w'.attempts|
      ensures AttemptSound(s, w'.rows, w'.attempts[i])
    {
      assert AttemptSound(s, w.rows, w.attempts[i]);
    }
  }

  lemma AddingKeepsOrder(s: Setup, w: World, id: string, row: Row, w': World)
    requires AttemptsSound(s, w) && OrderSound(w) && Adds(s, w, id, row, w')
    ensures OrderSound(w')
  {
    forall i, a | 0 <= i < |w'.attempts| && w'.attempts[i].succeeded && a in w'.rows
                  && w'.rows[a].projectId == w'.attempts[i].row.projectId && w'.rows[a].version < w'.attempts[i].row.version
      ensures WasSettled(w'.attempts[i], a, w'.rows[a])
    {
      assert AttemptSound(s, w.rows, w.attempts[i]);
      assert a != id;
      assert WasSettled(w.attempts[i], a, w.rows[a]);
    }
  }

  lemma CreateAdds(s: Setup, w: World, m: Move, w': World) returns (row: Row)
    requires m.Creates? && Next(s, w, m, w') && w' != w
    ensures Adds(s, w, m.id, row, w')
  {
    row := w'.rows[m.id];
    forall other | other in w.rows && w.rows[other].projectId == m.projectId
      ensures w.rows[other].version < row.version
    {
      assert w.rows[other].version in VersionsOf(w.rows, m.projectId);
    }
  }

  lemma CreateKeeps(s: Setup, w: World, m: Move, w': World)
    requires m.Creates? && Inv(s, w) && Next(s, w, m, w')
    ensures Inv(s, w')
  {
    if w' != w {
      var row := CreateAdds(s, w, m, w');
      AddingKeepsAttempts(s, w, m.id, row, w');
      AddingKeepsOrder(s, w, m.id, row, w');
    }
  }

  lemma ResetKeeps(s: Setup, w: World, m: Move, w': World)
    requires m.Resets? && Inv(s, w) && Next(s, w, m, w')
    ensures Inv(s, w')
  {
    if w' != w {
      ReopeningKeepsAttempts(s, w, m.id, w');
      ReopeningKeepsOrder(s, w, m.id, w');
    }
  }

  /** A row that was not applied becomes pending. */
  ghost predicate Reopens(w: World, id: string, w': World) {
    && id in w.rows && w.rows[id].status != Applied
    && w' == w.(rows := w.rows[id := w.rows[id].(status := Status.Pending)])
  }

  lemma ReopeningKeepsAttempts(s: Setup, w: World, id: string, w': World)
    requires RowsSound(s, w.rows) && AttemptsSound(s, w) && Reopens(w, id, w')
    ensures RowsSound(s, w'.rows) && AttemptsSound(s, w')
  {
    forall a | a in w'.rows && w'.rows[a].status == Applied
      ensures exists i :: CommittedAt(w', i, a)
    {
      var i :| CommittedAt(w, i, a);
      assert CommittedAt(w', i, a);
    }
    forall i | 0 <= i < |w'.attempts|
      ensures AttemptSound(s, w'.rows, w'.attempts[i])
    {
      assert AttemptSound(s, w.rows, w.attempts[i]);
    }
  }

  lemma ReopeningKeepsOrder(s: Setup, w: World, id: string, w': World)
    requires OrderSound(w) && Reopens(w, id, w')
    ensures OrderSound(w')
  {
    forall i, a | 0 <= i < |w'.attempts| && w'.attempts[i].succeeded && a in w'.rows
                  && w'.rows[a].projectId == w'.attempts[i].row.projectId && w'.rows[a].version < w'.attempts[i].row.version
      ensures WasSettled(w'.attempts[i], a, w'.rows[a])
    {
      assert WasSettled(w.attempts[i], a, w.rows[a]);
    }
  }

  /** A row that was not applied goes. */
  ghost predicate Drops(w: World, id: string, w': World) {
    id in w.rows && w.rows[id].status != Applied && w' == w.(rows := w.rows - {id})
  }

  lemma DroppingKeepsAttempts(s: Setup, w: World, id: string, w': World)
    requires RowsSound(s, w.rows) && AttemptsSound(s, w) && Drops(w, id, w')
    ensures RowsSound(s, w'.rows) && AttemptsSound(s, w')
  {
    forall a | a in w'.rows && w'.rows[a].status == Applied
      ensures exists i :: CommittedAt(w', i, a)
    {
      var i :| CommittedAt(w, i, a);
      assert CommittedAt(w', i, a);
    }
    forall i | 0 <= i < |w'.attempts|
      ensures AttemptSound(s, w'.rows, w'.attempts[i])
    {
      assert AttemptSound(s, w.rows, w.attempts[i]);
    }
  }

  lemma DroppingKeepsOrder(w: World, id: string, w': World)
    requires OrderSound(w) && Drops(w, id, w')
    ensures OrderSound(w')
  {
    forall i, a | 0 <= i < |w'.attempts| && w'.attempts[i].succeeded && a in w'.rows
                  && w'.rows[a].projectId == w'.attempts[i].row.projectId && w'.rows[a].version < w'.attempts[i].row.version
      ensures WasSettled(w'.attempts[i], a, w'.rows[a])
    {
      assert WasSettled(w.attempts[i], a, w.rows[a]);
    }
  }

  lemma DiscardKeeps(s: Setup, w: World, m: Move, w': World)
    requires m.Discards? && Inv(s, w) && Next(s, w, m, w')
    ensures Inv(s, w')
  {
    if w' != w {
      DroppingKeepsAttempts(s, w, m.id, w');
      DroppingKeepsOrder(w, m.id, w');
    }
  }

  /** Consumed approvals stay as they are: nothing happening elsewhere reopens one. */
  ghost predicate KeepsConsumed(b: Book, b': Book) {
    && (ValidBook(b) ==> ValidBook(b'))
    && (forall id :: id in b.entries && b.entries[id].status == Consumed ==> id in b'.entries && b'.entries[id] == b.entries[id])
  }

  lemma BookChangeKeeps(s: Setup, w: World, b: Book)
    requires Inv(s, w) && KeepsConsumed(w.book, b)
    ensures Inv(s, w.(book := b))
  {
    var w' := w.(book := b);
    forall id | id in w'.rows && w'.rows[id].status == Applied
      ensures exists i :: CommittedAt(w', i, id)
    {
      var i :| CommittedAt(w, i, id);
      assert CommittedAt(w', i, id);
    }
    forall i | 0 <= i < |w'.attempts|
      ensures ApprovalSound(b, w'.attempts[i])
    {
      assert ApprovalSound(w.book, w.attempts[i]);
    }
  }

  lemma AskKeepsConsumed(b: Book, t: string, op: Operation, now: int)
    requires ValidBook(b)
    ensures KeepsConsumed(b, Requested(b, t, op, now))
  {
  }

  lemma GateKeepsConsumed(b: Book, t: Token, always: bool, op: Operation, presented: Option<nat>, now: int)
    requires ValidBook(b)
    ensures KeepsConsumed(b, Gated(b, t, always, op, presented, now))
    ensures var d := Gate(b, t, always, op, presented, now);
            && (d.Proceed? && always ==> d.consumed.Some?)
            && (d.Proceed? && d.consumed.Some? ==>
                  var after := Gated(b, t, always, op, presented, now);
                  && d.consumed.value in b.entries && b.entries[d.consumed.value].status == Approved
                  && after.entries[d.consumed.value] == Approval(t.id, op, Consumed, b.entries[d.consumed.value].expiresAt))
  {
  }

  // ── Executing a migration ──

  ghost predicate NothingLowerPending(rows: Rows, id: string)
    requires id in rows
  {
    forall other | other in rows && rows[other].projectId == rows[id].projectId && rows[other].version < rows[id].version
      :: rows[other].status != Status.Pending
  }

  /** The row is stored, open, and nothing below it is pending. */
  lemma ObjectionMeans(s: Setup, w: World, r: ApplyRequest)
    requires Objection(s, w.rows, r).None?
    ensures r.id in w.rows && w.rows[r.id].projectId == r.projectId && w.rows[r.id].status in {Status.Pending, Failed}
    ensures NothingLowerPending(w.rows, r.id)
  {
  }

  lemma ExecutionKeepsRows(s: Setup, w: World, id: string, caller: Caller, commits: bool)
    requires RowsSound(s, w.rows) && id in w.rows
    ensures RowsSound(s, w.rows[id := Finished(w.rows[id], caller, commits)])
  {
  }

  ghost predicate Executes(w: World, a: Attempt, w': World) {
    && a.id in w.rows && a.row == w.rows[a.id] && a.before == w.rows
    && a.row.status in {Status.Pending, Failed}
    && NothingLowerPending(w.rows, a.id)
    && w'.rows == w.rows[a.id := Finished(a.row, a.caller, a.succeeded)]
    && w'.attempts == w.attempts + [a]
  }

  lemma ExecutionKeepsAttempts(s: Setup, w: World, a: Attempt, w': World)
    requires RowsSound(s, w.rows) && AttemptsSound(s, w) && Executes(w, a, w')
    ensures AttemptsSound(s, w')
  {
    forall i | 0 <= i < |w'.attempts|
      ensures AttemptSound(s, w'.rows, w'.attempts[i])
    {
      if i < |w.attempts| {
        assert AttemptSound(s, w.rows, w.attempts[i]);
      }
    }
    forall id | id in w'.rows && w'.rows[id].status == Applied
      ensures exists i :: CommittedAt(w', i, id)
    {
      if id == a.id {
        assert CommittedAt(w', |w.attempts|, id);
      } else {
        var i :| CommittedAt(w, i, id);
        assert CommittedAt(w', i, id);
      }
    }
    forall i | 0 <= i < |w.attempts| && w.attempts[i].succeeded
      ensures w.attempts[i].id != a.id
    {
      assert AttemptSound(s, w.rows, w.attempts[i]);
    }
  }

  lemma ExecutionKeepsOrder(s: Setup, w: World, a: Attempt, w': World)
    requires AttemptsSound(s, w) && OrderSound(w) && Executes(w, a, w')
    ensures OrderSound(w')
  {
    forall i, id | 0 <= i < |w'.attempts| && w'.attempts[i].succeeded && id in w'.rows
                   && w'.rows[id].projectId == w'.attempts[i].row.projectId
                   && w'.rows[id].version < w'.attempts[i].row.version
      ensures WasSettled(w'.attempts[i], id, w'.rows[id])
    {
      if i < |w.attempts| {
        assert WasSettled(w.attempts[i], id, w.rows[id]);
      }
    }
  }

  lemma ExecutionKeepsDisorder(s: Setup, w: World, a: Attempt, w': World)
    requires RowsSound(s, w.rows) && AttemptsSound(s, w) && OrderSound(w) && DisorderSound(w) && Executes(w, a, w')
    ensures DisorderSound(w')
  {
    forall i | 0 <= i < |w.attempts| && w.attempts[i].succeeded && a.succeeded
               && w.attempts[i].row.projectId == a.row.projectId
      ensures w.attempts[i].row.version != a.row.version
      ensures w.attempts[i].row.version > a.row.version ==> HadFailed(w.attempts[i], a)
    {
      assert AttemptSound(s, w.rows, w.attempts[i]);
      if w.attempts[i].row.version > a.row.version {
        assert WasSettled(w.attempts[i], a.id, w.rows[a.id]);
      }
    }
  }

  lemma ExecutionKeepsFailures(s: Setup, w: World, a: Attempt, w': World)
    requires FailuresSound(w) && Executes(w, a, w')
    ensures FailuresSound(w')
  {
    if forall i :: 0 <= i < |w'.attempts| ==> w'.attempts[i].succeeded {
      forall i | 0 <= i < |w.attempts|
        ensures w.attempts[i].succeeded
      {
        assert w'.attempts[i] == w.attempts[i];
      }
      assert w'.attempts[|w.attempts|].succeeded;
    }
  }

  lemma ExecutionKeepsApprovals(w: World, a: Attempt, w': World)
    requires ApprovalsSound(w) && KeepsConsumed(w.book, w'.book)
    requires w'.attempts == w.attempts + [a] && ApprovalSound(w'.book, a)
    requires a.approval.Some? ==> a.approval.value in w.book.entries && w.book.entries[a.approval.value].status == Approved
    ensures ApprovalsSound(w')
  {
    forall i | 0 <= i < |w.attempts|
      ensures ApprovalSound(w'.book, w.attempts[i]) && (w.attempts[i].approval.Some? ==> w.attempts[i].approval != a.approval)
    {
      assert ApprovalSound(w.book, w.attempts[i]);
    }
  }

  lemma HoldingKeeps(s: Setup, w: World, r: ApplyRequest)
    requires Inv(s, w) && Objection(s, w.rows, r).None? && !GateDecision(s, w, r).Proceed?
    ensures Inv(s, ApplyResult(s, w, r).0)
  {
    GateBookKeepsConsumed(s, w, r);
    BookChangeKeeps(s, w, GateBook(s, w, r));
  }

  lemma GateBookKeepsConsumed(s: Setup, w: World, r: ApplyRequest)
    requires ValidBook(w.book) && Objection(s, w.rows, r).None?
    ensures KeepsConsumed(w.book, GateBook(s, w, r))
  {
    var row, production := w.rows[r.id], TargetsProduction(s, w.rows, r);
    if ApprovalNeeded(row.destructive, r.caller.Agent?, production) {
      GateKeepsConsumed(w.book, r.caller.token, production, ApplyOperation(r.projectId, r.id, row.checksum), r.presented, r.now);
    }
  }

  lemma ExecutingKeeps(s: Setup, w: World, r: ApplyRequest)
    requires Inv(s, w) && Objection(s, w.rows, r).None? && GateDecision(s, w, r).Proceed?
    ensures Inv(s, ApplyResult(s, w, r).0)
  {
    var w', row, production := ApplyResult(s, w, r).0, w.rows[r.id], TargetsProduction(s, w.rows, r);
    if ApprovalNeeded(row.destructive, r.caller.Agent?, production) {
      GateKeepsConsumed(w.book, r.caller.token, production, ApplyOperation(r.projectId, r.id, row.checksum), r.presented, r.now);
    }
    ObjectionMeans(s, w, r);
    var a := Attempt(r.id, row, r.caller, production, GateDecision(s, w, r).consumed, r.commits, w.rows);
    ExecutionKeepsRows(s, w, r.id, r.caller, r.commits);
    ExecutionKeepsAttempts(s, w, a, w');
    ExecutionKeepsOrder(s, w, a, w');
    ExecutionKeepsDisorder(s, w, a, w');
    ExecutionKeepsFailures(s, w, a, w');
    ExecutionKeepsApprovals(w, a, w');
  }

  lemma ApplyKeeps(s: Setup, w: World, r: ApplyRequest)
    requires Inv(s, w)
    ensures Inv(s, ApplyResult(s, w, r).0)
  {
    if Objection(s, w.rows, r).None? {
      if GateDecision(s, w, r).Proceed? {
        ExecutingKeeps(s, w, r);
      } else {
        HoldingKeeps(s, w, r);
      }
    }
  }

  lemma NextKeepsInv(s: Setup, w: World, m: Move, w': World)
    requires Inv(s, w) && Next(s, w, m, w')
    ensures Inv(s, w')
  {
    match m
    case Creates(_, _, _, _, _, _, _, _) => CreateKeeps(s, w, m, w');
    case Applies(r) => ApplyKeeps(s, w, r);
    case Resets(_, _, _) => ResetKeeps(s, w, m, w');
    case Discards(_, _, _) => DiscardKeeps(s, w, m, w');
    case Asks(t, op, now) => AskKeepsConsumed(w.book, t, op, now); BookChangeKeeps(s, w, w'.book);
    case Decides(_, _, _) => BookChangeKeeps(s, w, w'.book);
    case Spends(_, _, _, _) => BookChangeKeeps(s, w, w'.book);
  }

  lemma {:induction false} RunKeepsInv(s: Setup, ws: seq<World>, ms: seq<Move>, n: nat)
    requires IsRun(s, ws, ms) && n < |ws|
    ensures Inv(s, ws[n])
  {
    if n > 0 {
      RunKeepsInv(s, ws, ms, n - 1);
      NextKeepsInv(s, ws[n - 1], ms[n - 1], ws[n]);
    }
  }

  // ── The theorems ──

  /** A lower version commits after a higher one only if it was there, failed, when the higher one executed. */
  lemma DisorderOnlyPastFailures(s: Setup, ws: seq<World>, ms: seq<Move>, n: nat, i: nat, j: nat)
    requires IsRun(s, ws, ms) && n < |ws| && i < j < |ws[n].attempts|
    requires ws[n].attempts[i].succeeded && ws[n].attempts[j].succeeded
    requires ws[n].attempts[i].row.projectId == ws[n].attempts[j].row.projectId
    requires ws[n].attempts[i].row.version >= ws[n].attempts[j].row.version
    ensures var higher, lower := ws[n].attempts[i], ws[n].attempts[j];
            && lower.id in higher.before
            && higher.before[lower.id].status == Failed
            && higher.before[lower.id].version == lower.row.version < higher.row.version
  {
    RunKeepsInv(s, ws, ms, n);
  }

  /** Each execution saw as applied every row committed before it. */
  ghost predicate SeesCommits(w: World) {
    forall i, j :: 0 <= i < j < |w.attempts| && w.attempts[i].succeeded ==>
      w.attempts[i].id in w.attempts[j].before && w.attempts[j].before[w.attempts[i].id].status == Applied
  }

  lemma AttemptsGrow(s: Setup, w: World, m: Move, w': World)
    requires Next(s, w, m, w')
    ensures w'.attempts == w.attempts
            || (|w'.attempts| == |w.attempts| + 1 && w'.attempts[..|w.attempts|] == w.attempts
                && w'.attempts[|w.attempts|].before == w.rows)
  {
  }

  lemma RunKeepsAttempts(s: Setup, ws: seq<World>, ms: seq<Move>, n: nat)
    requires IsRun(s, ws, ms) && n < |ws|
    ensures AttemptsSound(s, ws[n])
  {
    RunKeepsInv(s, ws, ms, n);
  }

  lemma {:induction false} CommitsAreSeen(s: Setup, ws: seq<World>, ms: seq<Move>, n: nat)
    requires IsRun(s, ws, ms) && n < |ws|
    ensures SeesCommits(ws[n])
  {
    if n > 0 {
      CommitsAreSeen(s, ws, ms, n - 1);
      RunKeepsAttempts(s, ws, ms, n - 1);
      AttemptsGrow(s, ws[n - 1], ms[n - 1], ws[n]);
      GrownSeesCommits(s, ws[n - 1], ws[n]);
    }
  }

  lemma GrownSeesCommits(s: Setup, w: World, w': World)
    requires AttemptsSound(s, w) && SeesCommits(w)
    requires w'.attempts == w.attempts
             || (|w'.attempts| == |w.attempts| + 1 && w'.attempts[..|w.attempts|] == w.attempts
                 && w'.attempts[|w.attempts|].before == w.rows)
    ensures SeesCommits(w')
  {
    forall i, j | 0 <= i < j < |w'.attempts| && w'.attempts[i].succeeded
      ensures w'.attempts[i].id in w'.attempts[j].before && w'.attempts[j].before[w'.attempts[i].id].status == Applied
    {
      assert w'.attempts[i] == w.attempts[i];
      assert AttemptSound(s, w.rows, w.attempts[i]);
      if j < |w.attempts| {
        assert w'.attempts[j] == w.attempts[j];
      }
    }
  }

  /**
   * Exactly which disorder is possible: of two committed versions the lower commits after the higher if and only if
   * it was there, failed, when the higher one executed.
   */
  lemma DisorderIffFailedBefore(s: Setup, ws: seq<World>, ms: seq<Move>, n: nat, i: nat, j: nat)
    requires IsRun(s, ws, ms) && n < |ws| && i < |ws[n].attempts| && j < |ws[n].attempts|
    requires ws[n].attempts[i].succeeded && ws[n].attempts[j].succeeded
    requires ws[n].attempts[i].row.projectId == ws[n].attempts[j].row.projectId
    requires ws[n].attempts[i].row.version > ws[n].attempts[j].row.version
    ensures var higher, lower := ws[n].attempts[i], ws[n].attempts[j];
            i < j <==> lower.id in higher.before && higher.before[lower.id].status == Failed
  {
    if i < j {
      DisorderOnlyPastFailures(s, ws, ms, n, i, j);
    } else {
      CommitsAreSeen(s, ws, ms, n);
    }
  }

  ghost predicate PendingAboveApplied(rows: Rows) {
    forall p, a | p in rows && a in rows && rows[p].projectId == rows[a].projectId
                  && rows[p].status == Status.Pending && rows[a].status == Applied
      :: rows[a].version < rows[p].version
  }

  /** Where no transaction fails, versions commit in strictly increasing order and pending is above applied. */
  lemma NoFailureNoDisorder(s: Setup, ws: seq<World>, ms: seq<Move>, n: nat)
    requires IsRun(s, ws, ms) && n < |ws|
    requires forall i :: 0 <= i < |ws[n].attempts| ==> ws[n].attempts[i].succeeded
    ensures forall i, j :: 0 <= i < j < |ws[n].attempts| && ws[n].attempts[i].row.projectId == ws[n].attempts[j].row.projectId
                           ==> ws[n].attempts[i].row.version < ws[n].attempts[j].row.version
    ensures PendingAboveApplied(ws[n].rows)
  {
    var w := ws[n];
    RunKeepsInv(s, ws, ms, n);
    forall p, a | p in w.rows && a in w.rows && w.rows[p].projectId == w.rows[a].projectId
                  && w.rows[p].status == Status.Pending && w.rows[a].status == Applied
      ensures w.rows[a].version < w.rows[p].version
    {
      var i :| CommittedAt(w, i, a);
      assert AttemptSound(s, w.rows, w.attempts[i]);
      assert w.rows[p].version < w.rows[a].version ==> WasSettled(w.attempts[i], p, w.rows[p]);
    }
  }

  /** Versions are positive and distinct, a row commits at most once, and what ran is what is stored. */
  lemma CommitsAreUniqueAndStored(s: Setup, ws: seq<World>, ms: seq<Move>, n: nat)
    requires IsRun(s, ws, ms) && n < |ws|
    ensures RowsSound(s, ws[n].rows)
    ensures forall i, j :: 0 <= i < j < |ws[n].attempts| && ws[n].attempts[i].succeeded && ws[n].attempts[j].succeeded
                           ==> ws[n].attempts[i].id != ws[n].attempts[j].id
    ensures forall id :: id in ws[n].rows ==>
              (ws[n].rows[id].status == Applied <==> exists i :: CommittedAt(ws[n], i, id))
    ensures forall i :: 0 <= i < |ws[n].attempts| && ws[n].attempts[i].succeeded ==>
              var a := ws[n].attempts[i];
              a.id in ws[n].rows && ws[n].rows[a.id].statements == a.row.statements && ws[n].rows[a.id].version == a.row.version
  {
    RunKeepsInv(s, ws, ms, n);
    forall i | 0 <= i < |ws[n].attempts|
      ensures AttemptSound(s, ws[n].rows, ws[n].attempts[i])
    {
    }
  }

  lemma NextKeepsApplied(s: Setup, w: World, m: Move, w': World, id: string)
    requires Next(s, w, m, w') && id in w.rows && w.rows[id].status == Applied
    ensures id in w'.rows && w'.rows[id] == w.rows[id]
  {
  }

  /** An applied row is never changed nor removed. */
  lemma {:induction false} AppliedRowsAreFinal(s: Setup, ws: seq<World>, ms: seq<Move>, n: nat, later: nat, id: string)
    requires IsRun(s, ws, ms) && n <= later < |ws|
    requires id in ws[n].rows && ws[n].rows[id].status == Applied
    ensures id in ws[later].rows && ws[later].rows[id] == ws[n].rows[id]
    decreases later - n
  {
    if n < later {
      NextKeepsApplied(s, ws[n], ms[n], ws[n + 1], id);
      AppliedRowsAreFinal(s, ws, ms, n + 1, later, id);
    }
  }

  /** Everything about a row but its progress is what a permitted creation stored. */
  ghost predicate StoredBy(s: Setup, ws: seq<World>, ms: seq<Move>, k: int, id: string, row: Row) {
    && 0 <= k < |ms| && k + 1 < |ws|
    && ms[k].Creates? && ms[k].id == id && ms[k].outcome == Created(row.version)
    && ms[k].projectId == row.projectId && ms[k].statements == row.statements && s.checksum(ms[k].statements) == row.checksum
    && ms[k].permitted && ms[k].destructive == row.destructive && s.norm(ms[k].declared) == row.environment
  }

  /** Rows that differ in their progress at most. */
  predicate SameRow(a: Row, b: Row) {
    && a.projectId == b.projectId && a.version == b.version && a.environment == b.environment
    && a.statements == b.statements && a.checksum == b.checksum && a.destructive == b.destructive
  }

  lemma RowStep(s: Setup, w: World, m: Move, w': World, id: string)
    requires Next(s, w, m, w') && id in w'.rows
    ensures id in w.rows ==> SameRow(w.rows[id], w'.rows[id])
    ensures id !in w.rows ==> StoredBy(s, [w, w'], [m], 0, id, w'.rows[id])
  {
    if m.Creates? && m.permitted && ResolveEnvironment(s.norm, m.listing, m.declared).Some? {
      assert ResolveEnvironment(s.norm, m.listing, m.declared).value.slug == s.norm(m.declared);
    }
  }

  lemma {:induction false} RowsComeFromCreation(s: Setup, ws: seq<World>, ms: seq<Move>, n: nat, id: string)
    requires IsRun(s, ws, ms) && n < |ws| && id in ws[n].rows
    ensures exists k :: 0 <= k < n && StoredBy(s, ws, ms, k, id, ws[n].rows[id])
  {
    assert n > 0;
    assert Next(s, ws[n - 1], ms[n - 1], ws[n]);
    RowStep(s, ws[n - 1], ms[n - 1], ws[n], id);
    if id in ws[n - 1].rows {
      RowsComeFromCreation(s, ws, ms, n - 1, id);
      var k :| 0 <= k < n - 1 && StoredBy(s, ws, ms, k, id, ws[n - 1].rows[id]);
      assert StoredBy(s, ws, ms, k, id, ws[n].rows[id]);
    } else {
      assert StoredBy(s, ws, ms, n - 1, id, ws[n].rows[id]);
    }
  }

  /**
   * Every execution by an agent against production has consumed an approval of its own, given to that token for
   * that path and checksum; no two executions share one, whatever scopes the tokens hold.
   */
  lemma ProductionNeedsItsOwnApproval(s: Setup, ws: seq<World>, ms: seq<Move>, n: nat)
    requires IsRun(s, ws, ms) && n < |ws|
    ensures forall i :: 0 <= i < |ws[n].attempts| && ws[n].attempts[i].caller.Agent? && ws[n].attempts[i].production ==>
              var a, book := ws[n].attempts[i], ws[n].book;
              && a.approval.Some? && a.approval.value in book.entries
              && var entry := book.entries[a.approval.value];
                 entry.status == Consumed && entry.tokenId == a.caller.token.id
                 && entry.operation == ApplyOperation(a.row.projectId, a.id, a.row.checksum)
    ensures forall i, j :: 0 <= i < j < |ws[n].attempts| && ws[n].attempts[i].approval.Some?
                           ==> ws[n].attempts[i].approval != ws[n].attempts[j].approval
  {
    RunKeepsInv(s, ws, ms, n);
    forall i | 0 <= i < |ws[n].attempts|
      ensures ApprovalSound(ws[n].book, ws[n].attempts[i])
    {
    }
  }

  // ── The disorder that does happen ──

  function PlainRow(version: nat, status: Status): Row {
    Row("p", version, "development", [], "", false, status, None)
  }

  function ByHuman(id: string, commits: bool): ApplyRequest {
    ApplyRequest("p", id, Human(false), true, None, None, None, 0, commits)
  }

  function AttemptBy(id: string, version: nat, status: Status, commits: bool, before: Rows): Attempt {
    Attempt(id, PlainRow(version, status), Human(false), false, None, commits, before)
  }

  lemma HumanApplies(s: Setup, w: World, id: string, version: nat, status: Status, commits: bool)
    requires s.checksum([]) == "" && s.norm("development") == "development"
    requires id in w.rows && w.rows[id] == PlainRow(version, status) && status in {Status.Pending, Failed}
    requires !EarlierPending(w.rows, id)
    ensures Next(s, w, Applies(ByHuman(id, commits)),
                 World(w.rows[id := PlainRow(version, if commits then Applied else Failed)], w.book,
                       w.attempts + [AttemptBy(id, version, status, commits, w.rows)]))
  {
  }

  lemma HumanCreates(s: Setup, w: World, id: string, version: nat)
    requires s.checksum([]) == "" && s.norm("development") == "development"
    requires id !in w.rows && IsNextVersion(w.rows, "p", version)
    ensures Next(s, w, Creates("p", id, "development", [], false, true, None, Created(version)),
                 w.(rows := w.rows[id := PlainRow(version, Status.Pending)]))
  {
  }

  ghost predicate Reaches(s: Setup, w: World) {
    exists ws, ms :: IsRun(s, ws, ms) && ws[|ws| - 1] == w
  }

  lemma ReachesNext(s: Setup, w: World, m: Move, w': World)
    requires Reaches(s, w) && Next(s, w, m, w')
    ensures Reaches(s, w')
  {
    var ws, ms :| IsRun(s, ws, ms) && ws[|ws| - 1] == w;
    var ws', ms' := ws + [w'], ms + [m];
    forall i | 0 <= i < |ms'|
      ensures Next(s, ws'[i], ms'[i], ws'[i + 1])
    {
      assert i < |ms| ==> ms'[i] == ms[i] && ws'[i] == ws[i] && ws'[i + 1] == ws[i + 1];
    }
    assert IsRun(s, ws', ms') && ws'[|ws'| - 1] == w';
  }

  lemma ReachesInitial(s: Setup)
    ensures Reaches(s, INITIAL)
  {
    assert IsRun(s, [INITIAL], []) && [INITIAL][|[INITIAL]| - 1] == INITIAL;
  }

  /** The first migration fails, the second commits past it, and then the first commits. */
  lemma DisorderHappens(s: Setup)
    requires s.checksum([]) == "" && s.norm("development") == "development"
    ensures exists w :: Reaches(s, w) && |w.attempts| == 3 && w.attempts[1].succeeded && w.attempts[2].succeeded
                        && w.attempts[1].row.version == 2 && w.attempts[2].row.version == 1
  {
    ReachesInitial(s);
    var w0 := INITIAL;
    assert VersionsOf(w0.rows, "p") == {};
    HumanCreates(s, w0, "a", 1);
    var w1 := w0.(rows := w0.rows["a" := PlainRow(1, Status.Pending)]);
    ReachesNext(s, w0, Creates("p", "a", "development", [], false, true, None, Created(1)), w1);
    assert VersionsOf(w1.rows, "p") == {1} by { assert w1.rows["a"].version == 1; }
    HumanCreates(s, w1, "b", 2);
    var w2 := w1.(rows := w1.rows["b" := PlainRow(2, Status.Pending)]);
    ReachesNext(s, w1, Creates("p", "b", "development", [], false, true, None, Created(2)), w2);
    DisorderFrom(s, w2);
  }

  lemma DisorderFrom(s: Setup, w2: World)
    requires s.checksum([]) == "" && s.norm("development") == "development"
    requires Reaches(s, w2) && w2.attempts == []
    requires w2.rows == map["a" := PlainRow(1, Status.Pending), "b" := PlainRow(2, Status.Pending)]
    ensures exists w :: Reaches(s, w) && |w.attempts| == 3 && w.attempts[1].succeeded && w.attempts[2].succeeded
                        && w.attempts[1].row.version == 2 && w.attempts[2].row.version == 1
  {
    HumanApplies(s, w2, "a", 1, Status.Pending, false);
    var w3 := World(w2.rows["a" := PlainRow(1, Failed)], w2.book, w2.attempts + [AttemptBy("a", 1, Status.Pending, false, w2.rows)]);
    ReachesNext(s, w2, Applies(ByHuman("a", false)), w3);
    HumanApplies(s, w3, "b", 2, Status.Pending, true);
    var w4 := World(w3.rows["b" := PlainRow(2, Applied)], w3.book, w3.attempts + [AttemptBy("b", 2, Status.Pending, true, w3.rows)]);
    ReachesNext(s, w3, Applies(ByHuman("b", true)), w4);
    HumanApplies(s, w4, "a", 1, Failed, true);
    var w5 := World(w4.rows["a" := PlainRow(1, Applied)], w4.book, w4.attempts + [AttemptBy("a", 1, Failed, true, w4.rows)]);
    ReachesNext(s, w4, Applies(ByHuman("a", true)), w5);
    assert w5.attempts[1] == AttemptBy("b", 2, Status.Pending, true, w3.rows);
    assert w5.attempts[2] == AttemptBy("a", 1, Failed, true, w4.rows);
  }

  // ── And can always happen ──

  lemma ReachableIsSound(s: Setup, w: World)
    requires Reaches(s, w)
    ensures Inv(s, w)
  {
    var ws, ms :| IsRun(s, ws, ms) && ws[|ws| - 1] == w;
    RunKeepsInv(s, ws, ms, |ws| - 1);
  }

  /** Pending rows below a failed one can be discarded; nothing else changes. */
  lemma {:induction false} ClearedBelow(s: Setup, w: World, low: string) returns (w': World)
    requires Reaches(s, w) && low in w.rows && w.rows[low].status == Failed
    ensures Reaches(s, w') && w'.attempts == w.attempts && low in w'.rows && w'.rows[low] == w.rows[low]
    ensures !EarlierPending(w'.rows, low)
    decreases |w.rows|
  {
    if EarlierPending(w.rows, low) {
      var other :| other in w.rows && other != low && w.rows[other].projectId == w.rows[low].projectId
                   && w.rows[other].version < w.rows[low].version && w.rows[other].status == Status.Pending;
      var next := w.(rows := w.rows - {other});
      ReachesNext(s, w, Discards(w.rows[other].projectId, other, true), next);
      assert w.rows.Keys == next.rows.Keys + {other};
      assert |w.rows.Keys| == |w.rows| && |next.rows.Keys| == |next.rows|;
      w' := ClearedBelow(s, next, low);
    } else {
      w' := w;
    }
  }

  function ByAdmin(projectId: string, id: string): ApplyRequest {
    ApplyRequest(projectId, id, Human(true), true, None, None, None, 0, true)
  }

  /** An administrator applies a failed row that nothing pending precedes. */
  lemma AdminApplies(s: Setup, w: World, low: string)
    requires RowsSound(s, w.rows) && low in w.rows && w.rows[low].status == Failed && !EarlierPending(w.rows, low)
    ensures var r, w' := ByAdmin(w.rows[low].projectId, low), ApplyResult(s, w, ByAdmin(w.rows[low].projectId, low)).0;
            && Next(s, w, Applies(r), w')
            && |w'.attempts| == |w.attempts| + 1 && w'.attempts[..|w.attempts|] == w.attempts
            && var a := w'.attempts[|w.attempts|]; a.succeeded && a.id == low && a.row == w.rows[low]
  {
  }

  /** From every reachable state with a failed version below an applied one, the lower can still commit after it. */
  lemma DisorderCanBeCompleted(s: Setup, w: World, low: string, high: string) returns (w': World, i: nat, j: nat)
    requires Reaches(s, w) && low in w.rows && high in w.rows
    requires w.rows[low].status == Failed && w.rows[high].status == Applied
    requires w.rows[low].projectId == w.rows[high].projectId && w.rows[low].version < w.rows[high].version
    ensures Reaches(s, w') && i < j < |w'.attempts|
    ensures w'.attempts[i].succeeded && w'.attempts[i].id == high
    ensures w'.attempts[j].succeeded && w'.attempts[j].id == low
    ensures w'.attempts[i].row.version > w'.attempts[j].row.version
  {
    ReachableIsSound(s, w);
    var k :| CommittedAt(w, k, high);
    assert AttemptSound(s, w.rows, w.attempts[k]);
    var cleared := ClearedBelow(s, w, low);
    ReachableIsSound(s, cleared);
    AdminApplies(s, cleared, low);
    w' := ApplyResult(s, cleared, ByAdmin(cleared.rows[low].projectId, low)).0;
    ReachesNext(s, cleared, Applies(ByAdmin(cleared.rows[low].projectId, low)), w');
    i, j := k, |cleared.attempts|;
    assert w'.attempts[i] == w.attempts[k];
  }
}
