/** Shipping the audit log to external drains, in batches behind a cursor. */
module LogDrains {
  import opened Wrappers
  import opened Sequences
  import opened Registry

  /** `cursor` is the time of the last entry shipped. */
  datatype Drain = Drain(
    organizationId: string,
    projectId: Option<string>,
    lastStatus: string,
    lastError: Option<string>,
    cursor: Option<int>
  )

  const BATCH_LIMIT: nat := 100

  /** Entries of the drain's organization (or of none), narrowed to its project if it has one. */
  predicate Matches(d: Drain, e: AuditEntry) {
    && (e.organizationId == Some(d.organizationId) || e.organizationId.None?)
    && (d.projectId.None? || d.projectId == Some("") || d.projectId == e.projectId)
  }

  function Matching(d: Drain): AuditEntry -> bool { (e: AuditEntry) => Matches(d, e) }

  function Due(d: Drain): AuditEntry -> bool {
    (e: AuditEntry) => Matches(d, e) && (d.cursor.Some? ==> e.at > d.cursor.value)
  }

  function Batch(d: Drain, ordered: seq<AuditEntry>): seq<AuditEntry> {
    var due := Filter(Due(d), ordered);
    if |due| <= BATCH_LIMIT then due else due[..BATCH_LIMIT]
  }

  /** setStatus: a null cursor keeps the one there is. */
  function WithStatus(d: Drain, status: string, error: Option<string>, cursor: Option<int>): Drain {
    d.(lastStatus := status, lastError := error, cursor := if cursor.Some? then cursor else d.cursor)
  }

  /** A drain after its turn; `refusal` is the delivery error, if any. */
  function AfterTurn(d: Drain, batch: seq<AuditEntry>, refusal: Option<string>): Drain {
    if batch == [] then WithStatus(d, "ok", None, None)
    else if refusal.None? then WithStatus(d, "ok", None, Some(batch[|batch| - 1].at))
    else WithStatus(d, "error", refusal, None)
  }

  /** In time order; the order of entries of one instant is left open. */
  ghost predicate IsTimeOrder(log: seq<AuditEntry>, ordered: seq<AuditEntry>) {
    multiset(log) == multiset(ordered) && InTimeOrder(ordered)
  }

  predicate InTimeOrder(s: seq<AuditEntry>) {
    forall i, j :: 0 <= i < j < |s| ==> s[i].at <= s[j].at
  }

  lemma InsertedInTimeOrder(s: seq<AuditEntry>, k: nat, e: AuditEntry)
    requires k <= |s| && InTimeOrder(s)
    requires k > 0 ==> s[k - 1].at <= e.at
    requires forall j :: k <= j < |s| ==> s[j].at > e.at
    ensures InTimeOrder(s[..k] + [e] + s[k..])
  {
    var r := s[..k] + [e] + s[k..];
    forall i, j | 0 <= i < j < |r|
      ensures r[i].at <= r[j].at
    {
      var i', j' := if i <= k then i else i - 1, if j <= k then j else j - 1;
      assert i == k || r[i] == s[i'];
      assert j == k || r[j] == s[j'];
      assert i < k ==> s[i].at <= s[k - 1].at;
    }
  }

  lemma InsertedElements(s: seq<AuditEntry>, k: nat, e: AuditEntry)
    requires k <= |s|
    ensures multiset(s[..k] + [e] + s[k..]) == multiset(s) + multiset{e}
  {
    assert s == s[..k] + s[k..];
  }

  method OrderByTime(entries: seq<AuditEntry>) returns (ordered: seq<AuditEntry>)
    ensures IsTimeOrder(entries, ordered)
  {
    ordered := [];
    for i := 0 to |entries|
      invariant IsTimeOrder(entries[..i], ordered)
    {
      var k := |ordered|;
      while k > 0 && ordered[k - 1].at > entries[i].at
        invariant 0 <= k <= |ordered|
        invariant forall j :: k <= j < |ordered| ==> ordered[j].at > entries[i].at
      {
        k := k - 1;
      }
      assert entries[..i + 1] == entries[..i] + [entries[i]];
      InsertedInTimeOrder(ordered, k, entries[i]);
      InsertedElements(ordered, k, entries[i]);
      ordered := ordered[..k] + [entries[i]] + ordered[k..];
    }
    assert entries[..|entries|] == entries;
  }

  class MemoryDrains {
    /** The rows by identifier, and the order they were created in. */
    var rows: map<string, Drain>
    var order: seq<string>

    ghost predicate Valid()
      reads this
    {
      NoDuplicates(order) && forall id :: id in order <==> id in rows
    }

    constructor ()
      ensures Valid() && order == [] && rows == map[]
    {
      rows, order := map[], [];
    }

    method Create(id: string, organizationId: string, projectId: Option<string>)
      requires Valid() && id !in rows
      modifies this
      ensures Valid() && order == old(order) + [id]
      ensures rows == old(rows)[id := Drain(organizationId, projectId, "never", None, None)]
    {
      rows := rows[id := Drain(organizationId, projectId, "never", None, None)];
      order := order + [id];
    }

    method SetStatus(id: string, status: string, error: Option<string>, cursor: Option<int>)
      modifies this`rows
      ensures rows == if id in old(rows) then old(rows)[id := WithStatus(old(rows)[id], status, error, cursor)] else old(rows)
    {
      if id in rows {
        var row := rows[id];
        rows := rows[id := row.(lastStatus := status, lastError := error,
                                cursor := if cursor.Some? then cursor else row.cursor)];
      }
    }
  }

  function Got(received: map<string, seq<AuditEntry>>, id: string): seq<AuditEntry> {
    if id in received then received[id] else []
  }

  /** The receiving ends: everything each drain accepted, batch after batch. */
  class Endpoints {
    var received: map<string, seq<AuditEntry>>

    method Deliver(id: string, batch: seq<AuditEntry>, refusals: map<string, string>) returns (error: Option<string>)
      modifies this
      ensures error == Refusal(refusals, id)
      ensures received == if error.None? then old(received)[id := Got(old(received), id) + batch] else old(received)
    {
      error := Refusal(refusals, id);
      if error.None? {
        received := received[id := Got(received, id) + batch];
      }
    }
  }

  function Refusal(refusals: map<string, string>, id: string): Option<string> {
    if id in refusals then Some(refusals[id]) else None
  }

  /** A drain with everything its endpoint accepted. */
  datatype Line = Line(drain: Drain, received: seq<AuditEntry>)

  /** A drain's turn over the log in time order. */
  function Turn(l: Line, ordered: seq<AuditEntry>, refusal: Option<string>): Line {
    var batch := Batch(l.drain, ordered);
    Line(AfterTurn(l.drain, batch, refusal), if refusal.None? then l.received + batch else l.received)
  }

  function LineOf(rows: map<string, Drain>, received: map<string, seq<AuditEntry>>, id: string): Line
    requires id in rows
  {
    Line(rows[id], Got(received, id))
  }

  /** All drains, in the order they take their turns. */
  function Lines(rows: map<string, Drain>, received: map<string, seq<AuditEntry>>, order: seq<string>): seq<Line>
    requires forall i :: 0 <= i < |order| ==> order[i] in rows
  {
    seq(|order|, i requires 0 <= i < |order| => LineOf(rows, received, order[i]))
  }

  /** The first `n` drains have taken their turns. */
  function Turns(lines: seq<Line>, order: seq<string>, n: nat, ordered: seq<AuditEntry>, refusals: map<string, string>): seq<Line>
    requires n <= |lines| == |order|
  {
    seq(|lines|, i requires 0 <= i < |lines| =>
      if i < n then Turn(lines[i], ordered, Refusal(refusals, order[i])) else lines[i])
  }

  /** How many of the first `n` drains stand in error. */
  function Failing(lines: seq<Line>, n: nat): nat
    requires n <= |lines|
  {
    if n == 0 then 0 else Failing(lines, n - 1) + (if lines[n - 1].drain.lastStatus == "error" then 1 else 0)
  }

  /** How many entries the first `n` endpoints hold. */
  function Total(lines: seq<Line>, n: nat): nat
    requires n <= |lines|
  {
    if n == 0 then 0 else Total(lines, n - 1) + |lines[n - 1].received|
  }

  lemma {:induction false} TotalAfter(lines: seq<Line>, k: nat, l: Line, n: nat)
    requires n <= |lines| && k < |lines|
    ensures Total(lines[k := l], n) == Total(lines, n) + if k < n then |l.received| - |lines[k].received| else 0
  {
    if n > 0 {
      TotalAfter(lines, k, l, n - 1);
    }
  }

  lemma {:induction false} FailingBefore(lines: seq<Line>, k: nat, l: Line, n: nat)
    requires n <= k < |lines|
    ensures Failing(lines[k := l], n) == Failing(lines, n)
  {
    if n > 0 {
      FailingBefore(lines, k, l, n - 1);
    }
  }

  lemma OneLineMoved(rows: map<string, Drain>, received: map<string, seq<AuditEntry>>,
                     rows': map<string, Drain>, received': map<string, seq<AuditEntry>>, order: seq<string>, k: nat)
    requires k < |order| && NoDuplicates(order)
    requires forall i :: 0 <= i < |order| ==> order[i] in rows && order[i] in rows'
    requires forall id :: id != order[k] && id in rows && id in rows' ==> LineOf(rows', received', id) == LineOf(rows, received, id)
    ensures Lines(rows', received', order) == Lines(rows, received, order)[k := LineOf(rows', received', order[k])]
  {
  }

  /** The body of the cycle, for one drain. */
  method TakeTurn(id: string, entries: seq<AuditEntry>, drains: MemoryDrains, net: Endpoints, refusals: map<string, string>)
    returns (shipped: nat, failed: nat)
    requires id in drains.rows
    modifies drains`rows, net
    ensures drains.rows.Keys == old(drains.rows.Keys)
    ensures var before, after := LineOf(old(drains.rows), old(net.received), id), LineOf(drains.rows, net.received, id);
            && after == Turn(before, entries, Refusal(refusals, id))
            && shipped == |after.received| - |before.received|
    ensures forall other :: other != id && other in drains.rows ==>
              LineOf(drains.rows, net.received, other) == LineOf(old(drains.rows), old(net.received), other)
    ensures failed == if drains.rows[id].lastStatus == "error" then 1 else 0
  {
    shipped, failed := 0, 0;
    var full := drains.rows[id];
    var batch := Batch(full, entries);
    if batch == [] {
      drains.SetStatus(id, "ok", None, None);
      return;
    }
    var error := net.Deliver(id, batch, refusals);
    if error.None? {
      shipped := |batch|;
      drains.SetStatus(id, "ok", None, Some(batch[|batch| - 1].at));
    } else {
      failed := 1;
      drains.SetStatus(id, "error", error, None);
    }
  }

  /** The turn of drain `k`, as a step of the cycle that began with `start`. */
  method TakeTurnInCycle(all: seq<string>, k: nat, ghost start: seq<Line>, entries: seq<AuditEntry>,
                         drains: MemoryDrains, net: Endpoints, refusals: map<string, string>)
    returns (shipped: nat, failed: nat)
    requires k < |all| == |start| && NoDuplicates(all) && forall i :: 0 <= i < |all| ==> all[i] in drains.rows
    requires Lines(drains.rows, net.received, all) == Turns(start, all, k, entries, refusals)
    modifies drains`rows, net
    ensures drains.rows.Keys == old(drains.rows.Keys)
    ensures Lines(drains.rows, net.received, all) == Turns(start, all, k + 1, entries, refusals)
    ensures shipped == Total(Lines(drains.rows, net.received, all), |all|)
                       - Total(Lines(old(drains.rows), old(net.received), all), |all|)
    ensures failed == Failing(Lines(drains.rows, net.received, all), k + 1)
                      - Failing(Lines(old(drains.rows), old(net.received), all), k)
  {
    ghost var rows, received := drains.rows, net.received;
    ghost var lines := Lines(rows, received, all);
    NextTurn(start, all, k, entries, refusals);
    assert lines[k] == start[k];
    shipped, failed := TakeTurn(all[k], entries, drains, net, refusals);
    OneLineMoved(rows, received, drains.rows, net.received, all, k);
    TotalAfter(lines, k, LineOf(drains.rows, net.received, all[k]), |all|);
    FailingBefore(lines, k, LineOf(drains.rows, net.received, all[k]), k);
  }

  /** Every drain in its turn. */
  method TakeAllTurns(all: seq<string>, entries: seq<AuditEntry>, drains: MemoryDrains, net: Endpoints, refusals: map<string, string>)
    returns (count: nat, shipped: nat, failed: nat)
    requires NoDuplicates(all) && forall i :: 0 <= i < |all| ==> all[i] in drains.rows
    modifies drains`rows, net
    ensures drains.rows.Keys == old(drains.rows.Keys) && count == |all|
    ensures Lines(drains.rows, net.received, all) == Turns(Lines(old(drains.rows), old(net.received), all), all, |all|, entries, refusals)
    ensures shipped == Total(Lines(drains.rows, net.received, all), |all|)
                       - Total(Lines(old(drains.rows), old(net.received), all), |all|)
    ensures failed == Failing(Lines(drains.rows, net.received, all), |all|)
  {
    count, shipped, failed := 0, 0, 0;
    ghost var start := Lines(drains.rows, net.received, all);
    assert Turns(start, all, 0, entries, refusals) == start;
    while count < |all|
      invariant count <= |all| && drains.rows.Keys == old(drains.rows.Keys)
      invariant Lines(drains.rows, net.received, all) == Turns(start, all, count, entries, refusals)
      invariant shipped == Total(Lines(drains.rows, net.received, all), |all|) - Total(start, |all|)
      invariant failed == Failing(Lines(drains.rows, net.received, all), count)
    {
      var s, f := TakeTurnInCycle(all, count, start, entries, drains, net, refusals);
      shipped, failed := shipped + s, failed + f;
      count := count + 1;
    }
  }

  /**
   * One cycle. Every drain takes exactly its own turn over the log in time order, whatever becomes of the
   * others; what is counted as shipped is what the endpoints gained, and as failed the drains left in error.
   */
  method DrainLogsOnce(registry: MemoryRegistry, drains: MemoryDrains, net: Endpoints, refusals: map<string, string>)
    returns (count: nat, shipped: nat, failed: nat, ghost ordered: seq<AuditEntry>)
    requires drains.Valid()
    modifies drains`rows, net
    ensures drains.Valid() && IsTimeOrder(registry.audit, ordered)
    ensures count == |drains.order|
    ensures var before, after := Lines(old(drains.rows), old(net.received), drains.order), Lines(drains.rows, net.received, drains.order);
            && after == Turns(before, drains.order, |drains.order|, ordered, refusals)
            && shipped == Total(after, |after|) - Total(before, |before|)
            && failed == Failing(after, |after|)
  {
    var entries := OrderByTime(registry.audit);
    ordered := entries;
    count, shipped, failed := TakeAllTurns(drains.order, entries, drains, net, refusals);
  }

  lemma NextTurn(lines: seq<Line>, order: seq<string>, n: nat, ordered: seq<AuditEntry>, refusals: map<string, string>)
    requires n < |lines| == |order|
    ensures var now := Turns(lines, order, n, ordered, refusals);
            && now[n] == lines[n]
            && Turns(lines, order, n + 1, ordered, refusals) == now[n := Turn(lines[n], ordered, Refusal(refusals, order[n]))]
  {
  }
}
