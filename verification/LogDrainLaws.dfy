/** What a drain delivers over whole runs. */
module LogDrainLaws {
  import opened Wrappers
  import opened Sequences
  import opened Registry
  import opened LogDrains

  /** The log, everything ever appended to it, the counter its identifiers come from, and one drain. */
  datatype World = World(log: seq<AuditEntry>, history: seq<AuditEntry>, counter: nat, line: Line)

  datatype Event =
    | Append(entry: AuditEntry)
    | Prune(cutoff: int, organizationId: Option<string>)
    | Cycle(ordered: seq<AuditEntry>, refusal: Option<string>)

  ghost predicate Possible(w: World, ev: Event) {
    match ev
    case Append(e) => e.id == w.counter + 1
    case Prune(_, _) => true
    case Cycle(ordered, _) => IsTimeOrder(w.log, ordered)
  }

  function Next(w: World, ev: Event): World {
    match ev
    case Append(e) => w.(log := w.log + [e], history := w.history + [e], counter := e.id)
    case Prune(cutoff, org) => w.(log := Filter(KeptBy(cutoff, org), w.log))
    case Cycle(ordered, refusal) => w.(line := Turn(w.line, ordered, refusal))
  }

  ghost predicate Feasible(w: World, evs: seq<Event>)
    decreases |evs|
  {
    evs == [] || (Possible(w, evs[0]) && Feasible(Next(w, evs[0]), evs[1..]))
  }

  function Run(w: World, evs: seq<Event>): World
    decreases |evs|
  {
    if evs == [] then w else Run(Next(w, evs[0]), evs[1..])
  }

  predicate IsNew(w: World) {
    w.log == [] && w.history == [] && w.counter == 0 && w.line.received == [] && w.line.drain.cursor.None?
  }

  // ---- Nothing twice ----

  ghost predicate UpTo(s: seq<AuditEntry>, counter: nat) {
    forall e :: e in s ==> e.id <= counter
  }

  predicate Behind(l: Line) {
    forall e :: e in l.received ==> l.drain.cursor.Some? && e.at <= l.drain.cursor.value
  }

  ghost predicate Inv(w: World) {
    && NoDuplicates(w.log) && UpTo(w.log, w.counter)
    && NoDuplicates(w.line.received) && Behind(w.line)
  }

  lemma DueInOrder(d: Drain, ordered: seq<AuditEntry>)
    requires InTimeOrder(ordered) && NoDuplicates(ordered)
    ensures NoDuplicates(Filter(Due(d), ordered)) && InTimeOrder(Filter(Due(d), ordered))
  {
    var at := FilterEmbeds(Due(d), ordered);
  }

  lemma PrefixInOrder(s: seq<AuditEntry>, n: nat)
    requires n <= |s| && NoDuplicates(s) && InTimeOrder(s)
    ensures NoDuplicates(s[..n]) && InTimeOrder(s[..n])
    ensures forall k :: 0 <= k < n ==> s[k] in s[..n]
  {
    forall k | 0 <= k < n
      ensures s[k] in s[..n]
    {
      assert s[..n][k] == s[k];
    }
  }

  lemma BatchElement(d: Drain, ordered: seq<AuditEntry>, e: AuditEntry)
    requires e in Batch(d, ordered)
    ensures e in ordered && Due(d)(e)
  {
    FilterMembers(Due(d), ordered, e);
  }

  /** A batch: distinct due entries in time order, the earliest ones, at most 100. */
  lemma BatchIsDue(d: Drain, ordered: seq<AuditEntry>)
    requires InTimeOrder(ordered) && NoDuplicates(ordered)
    ensures var b, due := Batch(d, ordered), Filter(Due(d), ordered);
            && |b| == (if |due| < BATCH_LIMIT then |due| else BATCH_LIMIT)
            && b == due[..|b|] && NoDuplicates(b) && InTimeOrder(b) && InTimeOrder(due)
            && forall k :: 0 <= k < |b| ==> due[k] in b
    ensures forall e :: e in Batch(d, ordered) ==> e in ordered && Matches(d, e) && (d.cursor.Some? ==> e.at > d.cursor.value)
  {
    DueInOrder(d, ordered);
    PrefixInOrder(Filter(Due(d), ordered), |Batch(d, ordered)|);
    forall e | e in Batch(d, ordered)
      ensures e in ordered && Matches(d, e) && (d.cursor.Some? ==> e.at > d.cursor.value)
    {
      BatchElement(d, ordered, e);
    }
  }

  lemma CycleKeepsInv(l: Line, log: seq<AuditEntry>, ordered: seq<AuditEntry>, refusal: Option<string>)
    requires NoDuplicates(log) && IsTimeOrder(log, ordered) && NoDuplicates(l.received) && Behind(l)
    ensures var r := Turn(l, ordered, refusal); NoDuplicates(r.received) && Behind(r)
  {
    PermutationNoDuplicates(log, ordered);
    BatchIsDue(l.drain, ordered);
    if refusal.None? && Batch(l.drain, ordered) != [] {
      AppendNoDuplicates(l.received, Batch(l.drain, ordered));
      CursorMovesUp(l, Batch(l.drain, ordered));
    }
  }

  lemma CursorMovesUp(l: Line, b: seq<AuditEntry>)
    requires Behind(l) && b != [] && InTimeOrder(b)
    requires forall e :: e in b ==> l.drain.cursor.Some? ==> e.at > l.drain.cursor.value
    ensures forall e :: e in l.received + b ==> e.at <= b[|b| - 1].at
  {
    assert b[|b| - 1] in b;
  }

  lemma NextKeepsInv(w: World, ev: Event)
    requires Inv(w) && Possible(w, ev)
    ensures Inv(Next(w, ev))
  {
    match ev
    case Append(e) => assert e !in w.log;
    case Prune(cutoff, org) =>
      FilterNoDuplicates(KeptBy(cutoff, org), w.log);
      forall e | e in Filter(KeptBy(cutoff, org), w.log)
        ensures e.id <= w.counter
      {
        FilterMembers(KeptBy(cutoff, org), w.log, e);
      }
    case Cycle(ordered, refusal) => CycleKeepsInv(w.line, w.log, ordered, refusal);
  }

  lemma {:induction false} RunKeepsInv(w: World, evs: seq<Event>)
    requires Inv(w) && Feasible(w, evs)
    ensures Inv(Run(w, evs))
    decreases |evs|
  {
    if evs != [] {
      NextKeepsInv(w, evs[0]);
      RunKeepsInv(Next(w, evs[0]), evs[1..]);
    }
  }

  /** Whatever is appended, pruned or refused, and however ties are ordered: no entry is accepted twice. */
  lemma NothingIsDeliveredTwice(w: World, evs: seq<Event>)
    requires IsNew(w) && Feasible(w, evs)
    ensures NoDuplicates(Run(w, evs).line.received)
  {
    RunKeepsInv(w, evs);
  }

  // ---- Nothing missed, as long as every entry is later than those before it ----

  predicate StrictlyIncreasing(s: seq<AuditEntry>) {
    forall i, j :: 0 <= i < j < |s| ==> s[i].at < s[j].at
  }

  /** In clock order; and retention drops nothing the drain is still to be sent. */
  predicate Orderly(w: World, ev: Event) {
    match ev
    case Append(e) => forall o :: o in w.history ==> o.at < e.at
    case Prune(cutoff, org) => forall e :: e in w.log && Due(w.line.drain)(e) ==> KeptBy(cutoff, org)(e)
    case Cycle(_, _) => true
  }

  ghost predicate OrderlyRun(w: World, evs: seq<Event>)
    decreases |evs|
  {
    evs == [] || (Possible(w, evs[0]) && Orderly(w, evs[0]) && OrderlyRun(Next(w, evs[0]), evs[1..]))
  }

  /** The drain's share of all that was ever appended. */
  function Share(w: World): seq<AuditEntry> { Filter(Matching(w.line.drain), w.history) }

  /** What has been delivered is a prefix of the share, the cursor stands at its end, and the rest is due. */
  ghost predicate InStep(w: World) {
    var share, n := Share(w), |w.line.received|;
    && StrictlyIncreasing(w.history) && StrictlyIncreasing(w.log) && (forall e :: e in w.log ==> e in w.history)
    && n <= |share| && w.line.received == share[..n]
    && w.line.drain.cursor == (if n == 0 then None else Some(share[n - 1].at))
    && Filter(Due(w.line.drain), w.log) == share[n..]
  }

  lemma LastIsTheSame(s: seq<AuditEntry>, t: seq<AuditEntry>)
    requires StrictlyIncreasing(s) && InTimeOrder(t) && multiset(s) == multiset(t) && s != []
    ensures |s| == |t| && s[|s| - 1] == t[|s| - 1]
  {
    var n := |s| - 1;
    SameElements(s, t, s[n]);
    SameElements(s, t, t[n]);
    var i :| 0 <= i < |t| && t[i] == s[n];
    var j :| 0 <= j < |s| && s[j] == t[n];
  }

  lemma PrefixesStayOrdered(s: seq<AuditEntry>, t: seq<AuditEntry>, n: nat)
    requires StrictlyIncreasing(s) && InTimeOrder(t) && n <= |s| && n <= |t|
    ensures StrictlyIncreasing(s[..n]) && InTimeOrder(t[..n])
  {
  }

  lemma OneMore<T>(s: seq<T>, t: seq<T>, n: nat)
    requires |s| == |t| == n + 1 && s[..n] == t[..n] && s[n] == t[n]
    ensures s == t
  {
    assert s == s[..n] + [s[n]] && t == t[..n] + [t[n]];
  }

  lemma {:induction false} TheOnlyOrder(s: seq<AuditEntry>, t: seq<AuditEntry>)
    requires StrictlyIncreasing(s) && InTimeOrder(t) && multiset(s) == multiset(t)
    ensures s == t
    decreases |s|
  {
    assert |multiset(s)| == |s| && |multiset(t)| == |t|;
    if s != [] {
      LastIsTheSame(s, t);
      DropLast(s);
      DropLast(t);
      PrefixesStayOrdered(s, t, |s| - 1);
      TheOnlyOrder(s[..|s| - 1], t[..|s| - 1]);
      OneMore(s, t, |s| - 1);
    }
  }

  lemma ShareIsIncreasing(d: Drain, log: seq<AuditEntry>)
    requires StrictlyIncreasing(log)
    ensures StrictlyIncreasing(Filter(Matching(d), log))
  {
    var at := FilterEmbeds(Matching(d), log);
  }

  function After(cursor: Option<int>): AuditEntry -> bool {
    (e: AuditEntry) => cursor.Some? ==> e.at > cursor.value
  }

  lemma CursorSplits(share: seq<AuditEntry>, n: nat)
    requires StrictlyIncreasing(share) && 0 < n <= |share|
    ensures forall e :: e in share[..n] ==> e.at <= share[n - 1].at
    ensures forall e :: e in share[n..] ==> e.at > share[n - 1].at
  {
  }

  lemma LaterThanTheCursor(share: seq<AuditEntry>, n: nat, cursor: Option<int>)
    requires StrictlyIncreasing(share) && n <= |share|
    requires cursor == if n == 0 then None else Some(share[n - 1].at)
    ensures Filter(After(cursor), share) == share[n..]
  {
    assert share == share[..n] + share[n..];
    FilterAppend(After(cursor), share[..n], share[n..]);
    if n > 0 {
      CursorSplits(share, n);
      FilterNone(After(cursor), share[..n], n);
    }
    FilterAll(After(cursor), share[n..], |share| - n);
  }

  lemma MatchingIsFixed(d: Drain, d': Drain, log: seq<AuditEntry>)
    requires d.organizationId == d'.organizationId && d.projectId == d'.projectId
    ensures Filter(Matching(d), log) == Filter(Matching(d'), log)
  {
    FilterAgrees(Matching(d), Matching(d'), log, |log|);
  }

  /** After a batch the due entries are those behind it. */
  lemma DueAfterBatch(d: Drain, log: seq<AuditEntry>, n: nat, cursor: int)
    requires StrictlyIncreasing(Filter(Due(d), log)) && 0 < n <= |Filter(Due(d), log)|
    requires cursor == Filter(Due(d), log)[n - 1].at && (d.cursor.Some? ==> d.cursor.value < cursor)
    ensures Filter(Due(WithStatus(d, "ok", None, Some(cursor))), log) == Filter(Due(d), log)[n..]
  {
    var d' := WithStatus(d, "ok", None, Some(cursor));
    FilterTwice(After(Some(cursor)), Due(d), Due(d'), log, |log|);
    LaterThanTheCursor(Filter(Due(d), log), n, Some(cursor));
  }

  lemma DueIsLater(d: Drain, log: seq<AuditEntry>, k: nat)
    requires k < |Filter(Due(d), log)| && d.cursor.Some?
    ensures d.cursor.value < Filter(Due(d), log)[k].at
  {
    FilterMembers(Due(d), log, Filter(Due(d), log)[k]);
  }

  lemma DueIsUnchanged(d: Drain, status: string, error: Option<string>, log: seq<AuditEntry>)
    ensures Filter(Due(WithStatus(d, status, error, None)), log) == Filter(Due(d), log)
  {
    FilterAgrees(Due(WithStatus(d, status, error, None)), Due(d), log, |log|);
  }

  lemma TailIsIncreasing(share: seq<AuditEntry>, n: nat)
    requires StrictlyIncreasing(share) && n <= |share|
    ensures StrictlyIncreasing(share[n..])
  {
  }

  lemma AcceptedBatchStaysInStep(w: World)
    requires InStep(w) && Batch(w.line.drain, w.log) != []
    ensures var b := Batch(w.line.drain, w.log);
            InStep(w.(line := Line(WithStatus(w.line.drain, "ok", None, Some(b[|b| - 1].at)), w.line.received + b)))
  {
    var d, b, n := w.line.drain, Batch(w.line.drain, w.log), |w.line.received|;
    var d' := WithStatus(d, "ok", None, Some(b[|b| - 1].at));
    MatchingIsFixed(d, d', w.history);
    DueBehindBatch(w);
    MovedOn(Share(w), n, |b|);
  }

  lemma DueBehindBatch(w: World)
    requires InStep(w) && Batch(w.line.drain, w.log) != []
    ensures var d, b := w.line.drain, Batch(w.line.drain, w.log);
            Filter(Due(WithStatus(d, "ok", None, Some(b[|b| - 1].at))), w.log) == Filter(Due(d), w.log)[|b|..]
  {
    var d, b := w.line.drain, Batch(w.line.drain, w.log);
    ShareIsIncreasing(d, w.history);
    TailIsIncreasing(Share(w), |w.line.received|);
    if d.cursor.Some? {
      DueIsLater(d, w.log, |b| - 1);
    }
    DueAfterBatch(d, w.log, |b|, b[|b| - 1].at);
  }

  lemma MovedOn(share: seq<AuditEntry>, n: nat, k: nat)
    requires n + k <= |share|
    ensures share[..n] + share[n..][..k] == share[..n + k] && share[n..][k..] == share[n + k..]
  {
  }

  /** An accepted cycle advances by 100 entries or by all that remain; a refused or idle one by none. */
  lemma CycleStaysInStep(w: World, ordered: seq<AuditEntry>, refusal: Option<string>)
    requires InStep(w) && IsTimeOrder(w.log, ordered)
    ensures var r := Next(w, Cycle(ordered, refusal));
            var remaining := |Share(w)| - |w.line.received|;
            && InStep(r)
            && |r.line.received| == |w.line.received|
                                    + (if refusal.Some? then 0 else if remaining < BATCH_LIMIT then remaining else BATCH_LIMIT)
  {
    TheOnlyOrder(w.log, ordered);
    var d, b := w.line.drain, Batch(w.line.drain, w.log);
    if b != [] && refusal.None? {
      AcceptedBatchStaysInStep(w);
    } else {
      MatchingIsFixed(d, AfterTurn(d, b, refusal), w.history);
      DueIsUnchanged(d, "ok", None, w.log);
      DueIsUnchanged(d, "error", refusal, w.log);
    }
  }

  lemma AppendStaysInStep(w: World, e: AuditEntry)
    requires InStep(w) && Orderly(w, Append(e))
    ensures InStep(Next(w, Append(e)))
  {
    var d, n := w.line.drain, |w.line.received|;
    FilterAppend(Matching(d), w.history, [e]);
    FilterAppend(Due(d), w.log, [e]);
    if n > 0 {
      FilterMembers(Matching(d), w.history, Share(w)[n - 1]);
    }
    assert Matches(d, e) <==> Due(d)(e);
    OfOne(Matching(d), e);
    OfOne(Due(d), e);
  }

  lemma OfOne(p: AuditEntry -> bool, e: AuditEntry)
    ensures Filter(p, [e]) == if p(e) then [e] else []
  {
    if p(e) {
      FilterAll(p, [e], 1);
    } else {
      FilterNone(p, [e], 1);
    }
  }

  lemma PruneStaysInStep(w: World, cutoff: int, org: Option<string>)
    requires InStep(w) && Orderly(w, Prune(cutoff, org))
    ensures InStep(Next(w, Prune(cutoff, org)))
  {
    var kept := Filter(KeptBy(cutoff, org), w.log);
    FilterTwice(Due(w.line.drain), KeptBy(cutoff, org), Due(w.line.drain), w.log, |w.log|);
    var at := FilterEmbeds(KeptBy(cutoff, org), w.log);
    forall e | e in kept
      ensures e in w.history
    {
      FilterMembers(KeptBy(cutoff, org), w.log, e);
    }
  }

  lemma {:induction false} RunStaysInStep(w: World, evs: seq<Event>)
    requires InStep(w) && OrderlyRun(w, evs)
    ensures InStep(Run(w, evs))
    decreases |evs|
  {
    if evs != [] {
      match evs[0] {
        case Append(e) => AppendStaysInStep(w, e);
        case Prune(cutoff, org) => PruneStaysInStep(w, cutoff, org);
        case Cycle(ordered, refusal) => CycleStaysInStep(w, ordered, refusal);
      }
      RunStaysInStep(Next(w, evs[0]), evs[1..]);
    }
  }

  /**
   * With increasing times, and retention no faster than the drain, what was delivered is at every moment a prefix
   * of the drain's share of all that was ever appended.
   */
  lemma DeliveredIsAPrefix(w: World, evs: seq<Event>)
    requires IsNew(w) && OrderlyRun(w, evs)
    ensures Run(w, evs).line.received <= Share(Run(w, evs))
  {
    RunStaysInStep(w, evs);
  }

  /** An entry pruned before it was delivered. */
  predicate PrunedUnsent(w: World, e: AuditEntry) {
    e.id <= w.counter && e !in w.log && e !in w.line.received
  }

  /** Retention that overtakes the drain loses entries for good: what is pruned unsent is never sent. */
  lemma {:induction false} PrunedUnsentForGood(w: World, evs: seq<Event>, e: AuditEntry)
    requires Feasible(w, evs) && PrunedUnsent(w, e)
    ensures PrunedUnsent(Run(w, evs), e)
    decreases |evs|
  {
    if evs != [] {
      match evs[0] {
        case Append(_) =>
        case Prune(cutoff, org) => FilterMembers(KeptBy(cutoff, org), w.log, e);
        case Cycle(ordered, _) =>
          SameElements(w.log, ordered, e);
          if e in Batch(w.line.drain, ordered) {
            BatchElement(w.line.drain, ordered, e);
          }
      }
      PrunedUnsentForGood(Next(w, evs[0]), evs[1..], e);
    }
  }

  // ---- Exactly what is missed, otherwise ----

  /** In the drain's share of the log, never delivered, and passed by the cursor. */
  predicate Missed(w: World, e: AuditEntry) {
    var l := w.line;
    e in w.log && Matches(l.drain, e) && e !in l.received && l.drain.cursor.Some? && e.at <= l.drain.cursor.value
  }

  /** A missed entry stays missed: no later event delivers it. */
  lemma MissedForGood(w: World, ev: Event, e: AuditEntry)
    requires Inv(w) && Possible(w, ev) && Missed(w, e)
    ensures var r := Next(w, ev);
            && e !in r.line.received
            && (e in r.log ==> Missed(r, e))
  {
    if ev.Cycle? {
      PermutationNoDuplicates(w.log, ev.ordered);
      SameElements(w.log, ev.ordered, e);
      BatchIsDue(w.line.drain, ev.ordered);
      var b := Batch(w.line.drain, ev.ordered);
      if b != [] {
        assert b[|b| - 1] in b;
      }
    }
  }

  /**
   * An event makes an entry missed exactly if it appends one no later than the cursor, or accepts a batch that
   * leaves a due entry of its last instant behind.
   */
  lemma MissedIff(w: World, ev: Event, e: AuditEntry)
    requires Inv(w) && Possible(w, ev) && !Missed(w, e)
    ensures Missed(Next(w, ev), e) <==> Misses(w, ev, e)
  {
    match ev
    case Append(a) =>
    case Prune(cutoff, org) => FilterMembers(KeptBy(cutoff, org), w.log, e);
    case Cycle(ordered, refusal) =>
      PermutationNoDuplicates(w.log, ordered);
      SameElements(w.log, ordered, e);
      CycleMissesIff(w, ordered, refusal, e);
  }

  predicate Misses(w: World, ev: Event, e: AuditEntry) {
    var d := w.line.drain;
    match ev
    case Append(a) => a == e && e !in w.line.received && Matches(d, e) && d.cursor.Some? && e.at <= d.cursor.value
    case Prune(_, _) => false
    case Cycle(ordered, refusal) =>
      var b := Batch(d, ordered);
      refusal.None? && b != [] && e in w.log && Due(d)(e) && e !in b && e.at == b[|b| - 1].at
  }

  lemma LeftBehindIsNoEarlier(d: Drain, ordered: seq<AuditEntry>, e: AuditEntry)
    requires InTimeOrder(ordered) && NoDuplicates(ordered) && Batch(d, ordered) != []
    requires e in ordered && Due(d)(e) && e !in Batch(d, ordered)
    ensures var b := Batch(d, ordered); e.at >= b[|b| - 1].at
  {
    BatchIsDue(d, ordered);
    FilterMembers(Due(d), ordered, e);
    var b, due := Batch(d, ordered), Filter(Due(d), ordered);
    var k :| 0 <= k < |due| && due[k] == e;
    assert due[|b| - 1] == b[|b| - 1];
  }

  lemma CycleMissesIff(w: World, ordered: seq<AuditEntry>, refusal: Option<string>, e: AuditEntry)
    requires Inv(w) && InTimeOrder(ordered) && NoDuplicates(ordered) && !Missed(w, e) && (e in w.log <==> e in ordered)
    ensures Missed(Next(w, Cycle(ordered, refusal)), e) <==> Misses(w, Cycle(ordered, refusal), e)
  {
    var d, b := w.line.drain, Batch(w.line.drain, ordered);
    if refusal.None? && b != [] {
      AcceptedCycleMissesIff(w, ordered, b, e);
    }
  }

  lemma AcceptedCycleMissesIff(w: World, ordered: seq<AuditEntry>, b: seq<AuditEntry>, e: AuditEntry)
    requires Inv(w) && InTimeOrder(ordered) && NoDuplicates(ordered) && !Missed(w, e) && (e in w.log <==> e in ordered)
    requires b == Batch(w.line.drain, ordered) && b != []
    ensures Missed(w.(line := Line(WithStatus(w.line.drain, "ok", None, Some(b[|b| - 1].at)), w.line.received + b)), e) <==>
            e in w.log && Due(w.line.drain)(e) && e !in b && e.at == b[|b| - 1].at
  {
    BatchIsDue(w.line.drain, ordered);
    assert b[|b| - 1] in b;
    if e in ordered && Due(w.line.drain)(e) && e !in b {
      LeftBehindIsNoEarlier(w.line.drain, ordered, e);
    }
  }

  // ---- Missed entries over whole runs ----

  ghost predicate NothingMissed(w: World) {
    forall e :: !Missed(w, e)
  }

  /** At no moment of the run is anything missed. */
  ghost predicate NothingEverMissed(w: World, evs: seq<Event>)
    decreases |evs|
  {
    NothingMissed(w) && (evs == [] || NothingEverMissed(Next(w, evs[0]), evs[1..]))
  }

  /** No event appends an entry at or before the cursor, or leaves one of its last instant behind. */
  ghost predicate NoEventMisses(w: World, evs: seq<Event>)
    decreases |evs|
  {
    evs == [] || ((forall e :: !Misses(w, evs[0], e)) && NoEventMisses(Next(w, evs[0]), evs[1..]))
  }

  lemma NothingMissedNextIff(w: World, ev: Event)
    requires Inv(w) && Possible(w, ev) && NothingMissed(w)
    ensures NothingMissed(Next(w, ev)) <==> forall e :: !Misses(w, ev, e)
  {
    forall e
      ensures Missed(Next(w, ev), e) <==> Misses(w, ev, e)
    {
      MissedIff(w, ev, e);
    }
  }

  /** The guarantee a drain gives, for every run: nothing is ever missed if and only if no event misses. */
  lemma {:induction false} NoGapsIff(w: World, evs: seq<Event>)
    requires Inv(w) && Feasible(w, evs) && NothingMissed(w)
    ensures NothingEverMissed(w, evs) <==> NoEventMisses(w, evs)
    decreases |evs|
  {
    if evs != [] {
      NothingMissedNextIff(w, evs[0]);
      NextKeepsInv(w, evs[0]);
      if NothingMissed(Next(w, evs[0])) {
        NoGapsIff(Next(w, evs[0]), evs[1..]);
      }
    }
  }

  lemma {:induction false} MissedToTheEnd(w: World, evs: seq<Event>, e: AuditEntry)
    requires Inv(w) && Feasible(w, evs) && Missed(w, e) && forall k :: 0 <= k < |evs| ==> !evs[k].Prune?
    ensures Missed(Run(w, evs), e)
    decreases |evs|
  {
    if evs != [] {
      MissedForGood(w, evs[0], e);
      NextKeepsInv(w, evs[0]);
      MissedToTheEnd(Next(w, evs[0]), evs[1..], e);
    }
  }

  /** Without a prune it can be read off the end: every entry of the share is delivered or due iff no event missed. */
  lemma {:induction false} NoGapsAtTheEndIff(w: World, evs: seq<Event>)
    requires Inv(w) && Feasible(w, evs) && NothingMissed(w) && forall k :: 0 <= k < |evs| ==> !evs[k].Prune?
    ensures NothingMissed(Run(w, evs)) <==> NoEventMisses(w, evs)
    decreases |evs|
  {
    if evs != [] {
      var next := Next(w, evs[0]);
      NothingMissedNextIff(w, evs[0]);
      NextKeepsInv(w, evs[0]);
      if NothingMissed(next) {
        NoGapsAtTheEndIff(next, evs[1..]);
      } else {
        var e :| Missed(next, e);
        MissedToTheEnd(next, evs[1..], e);
      }
    }
  }

  lemma RunFirst(w: World, ev: Event, rest: seq<Event>)
    ensures Run(w, [ev] + rest) == Run(Next(w, ev), rest)
    ensures Feasible(w, [ev] + rest) <==> Possible(w, ev) && Feasible(Next(w, ev), rest)
  {
    assert ([ev] + rest)[1..] == rest;
  }

  lemma ThreeEvents(w: World, a: Event, b: Event, c: Event)
    ensures Run(w, [a, b, c]) == Next(Next(Next(w, a), b), c)
    ensures Feasible(w, [a, b, c]) <==> Possible(w, a) && Possible(Next(w, a), b) && Possible(Next(Next(w, a), b), c)
  {
    RunFirst(w, a, [b, c]);
    RunFirst(Next(w, a), b, [c]);
    RunFirst(Next(Next(w, a), b), c, []);
    assert [a] + [b, c] == [a, b, c] && [b] + [c] == [b, c] && [c] + [] == [c];
  }

  lemma FirstEntryIsShipped(w: World, e: AuditEntry)
    requires w.log == [e] && Matches(w.line.drain, e) && w.line.drain.cursor.None? && w.line.received == []
    ensures var r := Next(w, Cycle([e], None));
            && Possible(w, Cycle([e], None))
            && r.log == [e] && r.counter == w.counter
            && r.line == Line(WithStatus(w.line.drain, "ok", None, Some(e.at)), [e])
  {
    OfOne(Due(w.line.drain), e);
    assert Batch(w.line.drain, [e]) == [e];
    assert [] + [e] == [e];
  }

  /** A gap happens: of two entries of one instant, the second appended after the first was shipped, the second is missed. */
  lemma TieAfterShippingIsMissed(w: World, first: AuditEntry, second: AuditEntry)
    requires IsNew(w) && first.id == 1 && second.id == 2 && first.at == second.at
    requires Matches(w.line.drain, first) && Matches(w.line.drain, second)
    ensures var evs := [Append(first), Cycle([first], None), Append(second)];
            Feasible(w, evs) && Missed(Run(w, evs), second)
  {
    ThreeEvents(w, Append(first), Cycle([first], None), Append(second));
    FirstEntryIsShipped(Next(w, Append(first)), first);
    assert [first] + [second] == [first, second] && second in [first, second] && second !in [first];
  }

  // ---- Whose entries they are ----

  /** Of the organization, or of none; and of the project, if one is named. */
  predicate Concerns(organizationId: string, projectId: Option<string>, e: AuditEntry) {
    && (e.organizationId.None? || e.organizationId.value == organizationId)
    && (projectId.Some? && projectId.value != "" ==> e.projectId.Some? && e.projectId.value == projectId.value)
  }

  /** Everything delivered was appended, and concerns what the drain is for. */
  ghost predicate OwnOnly(w: World, organizationId: string, projectId: Option<string>) {
    && w.line.drain.organizationId == organizationId && w.line.drain.projectId == projectId
    && (forall e :: e in w.log ==> e in w.history)
    && (forall e :: e in w.line.received ==> e in w.history && Concerns(organizationId, projectId, e))
  }

  lemma NextStaysOwn(w: World, ev: Event, organizationId: string, projectId: Option<string>)
    requires OwnOnly(w, organizationId, projectId) && Possible(w, ev)
    ensures OwnOnly(Next(w, ev), organizationId, projectId)
  {
    match ev
    case Append(_) =>
    case Prune(cutoff, org) =>
      forall e | e in Filter(KeptBy(cutoff, org), w.log)
        ensures e in w.log
      {
        FilterMembers(KeptBy(cutoff, org), w.log, e);
      }
    case Cycle(ordered, _) =>
      forall e | e in Batch(w.line.drain, ordered)
        ensures e in w.log && Concerns(organizationId, projectId, e)
      {
        BatchElement(w.line.drain, ordered, e);
        SameElements(w.log, ordered, e);
      }
  }

  lemma {:induction false} RunStaysOwn(w: World, evs: seq<Event>, organizationId: string, projectId: Option<string>)
    requires OwnOnly(w, organizationId, projectId) && Feasible(w, evs)
    ensures OwnOnly(Run(w, evs), organizationId, projectId)
    decreases |evs|
  {
    if evs != [] {
      NextStaysOwn(w, evs[0], organizationId, projectId);
      RunStaysOwn(Next(w, evs[0]), evs[1..], organizationId, projectId);
    }
  }

  /** In every run a drain delivers entries of its own organization, or of none, and of its project if it has one. */
  lemma DeliveredIsOwn(w: World, evs: seq<Event>, e: AuditEntry)
    requires IsNew(w) && Feasible(w, evs) && e in Run(w, evs).line.received
    ensures var d := w.line.drain;
            && e in Run(w, evs).history
            && (e.organizationId == None || e.organizationId == Some(d.organizationId))
            && (d.projectId.Some? && d.projectId != Some("") ==> e.projectId == d.projectId)
  {
    RunStaysOwn(w, evs, w.line.drain.organizationId, w.line.drain.projectId);
  }

  function Accepted(evs: seq<Event>): nat
    decreases |evs|
  {
    if evs == [] then 0 else (if evs[0].Cycle? && evs[0].refusal.None? then 1 else 0) + Accepted(evs[1..])
  }

  lemma ShareGrows(w: World, ev: Event)
    requires Possible(w, ev)
    ensures Share(w) <= Share(Next(w, ev))
  {
    match ev
    case Append(e) => FilterAppend(Matching(w.line.drain), w.history, [e]);
    case Prune(_, _) =>
    case Cycle(ordered, refusal) => MatchingIsFixed(w.line.drain, Next(w, ev).line.drain, w.history);
  }

  lemma OneCycleReaches(w: World, ev: Event, n: nat, more: nat)
    requires InStep(w) && Possible(w, ev) && Orderly(w, ev) && InStep(Next(w, ev))
    requires n <= |Share(w)| && n <= |w.line.received| + 100 * (more + if ev.Cycle? && ev.refusal.None? then 1 else 0)
    ensures n <= |Share(Next(w, ev))| && (n <= |Next(w, ev).line.received| || n <= |Next(w, ev).line.received| + 100 * more)
  {
    ShareGrows(w, ev);
    if ev.Cycle? {
      CycleStaysInStep(w, ev.ordered, ev.refusal);
    }
  }

  /** Each accepted cycle takes delivery 100 entries further, as far as there are any. */
  lemma {:induction false} CyclesReach(w: World, evs: seq<Event>, n: nat)
    requires InStep(w) && OrderlyRun(w, evs) && n <= |Share(w)| && n <= |w.line.received| + 100 * Accepted(evs)
    ensures n <= |Run(w, evs).line.received| && Share(w) <= Share(Run(w, evs))
    decreases |evs|
  {
    if evs != [] {
      RunStaysInStep(w, [evs[0]]);
      assert Run(w, [evs[0]]) == Next(w, evs[0]) && [evs[0]][1..] == [] && OrderlyRun(Next(w, evs[0]), []);
      ShareGrows(w, evs[0]);
      OneCycleReaches(w, evs[0], n, Accepted(evs[1..]));
      CyclesReach(Next(w, evs[0]), evs[1..], n);
    }
  }

  /**
   * In an orderly run every appended entry that concerns the drain is in its share, no other is, and each is
   * delivered once the accepted cycles, of 100 entries each, have reached its place.
   */
  lemma OwnIsDelivered(w: World, before: seq<Event>, after: seq<Event>, e: AuditEntry, k: nat)
    requires IsNew(w) && OrderlyRun(w, before) && OrderlyRun(Run(w, before), after)
    ensures var m, d := Run(w, before), w.line.drain;
            && (e in Share(m) <==>
                  && e in m.history
                  && (e.organizationId == None || e.organizationId == Some(d.organizationId))
                  && (d.projectId.None? || d.projectId == Some("") || e.projectId == d.projectId))
            && (k < |Share(m)| && Share(m)[k] == e && k < |m.line.received| + 100 * Accepted(after) ==>
                  e in Run(m, after).line.received)
  {
    var m := Run(w, before);
    OrderlyIsFeasible(w, before);
    RunStaysInStep(w, before);
    RunStaysOwn(w, before, w.line.drain.organizationId, w.line.drain.projectId);
    FilterMembers(Matching(m.line.drain), m.history, e);
    if k < |Share(m)| && Share(m)[k] == e && k < |m.line.received| + 100 * Accepted(after) {
      RunStaysInStep(m, after);
      CyclesReach(m, after, k + 1);
      var r := Run(m, after);
      assert r.line.received[k] == Share(r)[k] == e;
    }
  }

  lemma {:induction false} OrderlyIsFeasible(w: World, evs: seq<Event>)
    requires OrderlyRun(w, evs)
    ensures Feasible(w, evs)
    decreases |evs|
  {
    if evs != [] {
      OrderlyIsFeasible(Next(w, evs[0]), evs[1..]);
    }
  }

  /** What a turn leaves on the drain: an error exactly if there was something to send and it was refused. */
  lemma TurnReports(l: Line, ordered: seq<AuditEntry>, refusal: Option<string>)
    ensures var d, r := l.drain, Turn(l, ordered, refusal);
            var sends := exists e :: e in ordered && Concerns(d.organizationId, d.projectId, e) && (d.cursor.Some? ==> e.at > d.cursor.value);
            && r.drain.lastStatus == (if sends && refusal.Some? then "error" else "ok")
            && r.drain.lastError == (if sends then refusal else None)
            && (!sends || refusal.Some? ==> r.received == l.received && r.drain.cursor == d.cursor)
            && (sends && refusal.None? ==> |r.received| > |l.received| && r.drain.cursor.Some?)
  {
    var d, due := l.drain, Filter(Due(l.drain), ordered);
    forall e: AuditEntry
      ensures e in due <==> e in ordered && Concerns(d.organizationId, d.projectId, e) && (d.cursor.Some? ==> e.at > d.cursor.value)
    {
      FilterMembers(Due(d), ordered, e);
    }
    assert Batch(d, ordered) == [] <==> due == [];
    assert due != [] ==> due[0] in due;
  }
}
