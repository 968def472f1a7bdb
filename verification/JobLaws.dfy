/** What one drain of the job queue achieves, and for which jobs. */
module JobLaws {
  import opened Wrappers
  import opened Sequences
  import opened Registry
  import opened JobReaper

  /** Jobs of the listing, each once, with their own rows. */
  ghost predicate Served(stale: seq<Job>, jobs: map<string, Job>) {
    Listed(stale, jobs) && forall i, j :: 0 <= i < j < |stale| ==> stale[i].id != stale[j].id
  }

  // ---- The listing ----

  ghost predicate AreListings(jobs: map<string, Job>, pending: seq<Job>, retrying: seq<Job>) {
    IsListing(jobs, Pending, pending) && IsListing(jobs, Retrying, retrying)
  }

  lemma ListingNoDuplicates(jobs: map<string, Job>, status: JobStatus, listed: seq<Job>, now: int, staleMs: int)
    requires IsListing(jobs, status, listed)
    ensures NoDuplicates(Filter(Stale(now, staleMs), listed))
    ensures forall j :: j in Filter(Stale(now, staleMs), listed) ==> j.status == status
  {
    FilterNoDuplicates(Stale(now, staleMs), listed);
    forall j: Job | j in Filter(Stale(now, staleMs), listed)
      ensures j.status == status
    {
      FilterMembers(Stale(now, staleMs), listed, j);
    }
  }

  /** No job is served twice. */
  lemma ListingIsServed(jobs: map<string, Job>, pending: seq<Job>, retrying: seq<Job>, now: int, staleMs: int)
    requires AreListings(jobs, pending, retrying)
    ensures Served(StaleOf(pending, retrying, now, staleMs), jobs)
  {
    ListingNoDuplicates(jobs, Pending, pending, now, staleMs);
    ListingNoDuplicates(jobs, Retrying, retrying, now, staleMs);
    AppendNoDuplicates(Filter(Stale(now, staleMs), pending), Filter(Stale(now, staleMs), retrying));
    StaleJobsAreStored(jobs, pending, retrying, now, staleMs);
    DistinctRowsDistinctIds(StaleOf(pending, retrying, now, staleMs), jobs);
  }

  /** Served in this order: the pending ones, then the retrying ones, each the newest first. */
  lemma ServedNewestFirst(jobs: map<string, Job>, pending: seq<Job>, retrying: seq<Job>, now: int, staleMs: int, i: nat, k: nat)
    requires AreListings(jobs, pending, retrying) && i < k < |StaleOf(pending, retrying, now, staleMs)|
    ensures var stale := StaleOf(pending, retrying, now, staleMs);
            || (stale[i].status == Pending && stale[k].status == Retrying)
            || (stale[i].status == stale[k].status && stale[i].createdAt >= stale[k].createdAt)
  {
    var first := Filter(Stale(now, staleMs), pending);
    var atPending := FilterEmbeds(Stale(now, staleMs), pending);
    var atRetrying := FilterEmbeds(Stale(now, staleMs), retrying);
    if k < |first| {
      assert pending[atPending[i]] == first[i] && pending[atPending[k]] == first[k];
    } else if i < |first| {
      assert pending[atPending[i]] in pending && retrying[atRetrying[k - |first|]] in retrying;
    } else {
      assert atRetrying[i - |first|] < atRetrying[k - |first|];
    }
  }

  lemma DistinctRowsDistinctIds(stale: seq<Job>, jobs: map<string, Job>)
    requires Listed(stale, jobs) && NoDuplicates(stale)
    ensures Served(stale, jobs)
  {
    forall i, j | 0 <= i < j < |stale|
      ensures stale[i].id != stale[j].id
    {
      assert jobs[stale[i].id] == stale[i] && jobs[stale[j].id] == stale[j];
    }
  }

  // ---- The sweep ----

  /** A delete of this project, among the first `n` jobs, whose provider call succeeds. */
  predicate DeletedBefore(stale: seq<Job>, n: nat, projectId: string, outages: set<string>)
    requires n <= |stale|
  {
    exists i :: 0 <= i < n && stale[i].kind == Delete && stale[i].projectId == projectId && stale[i].id !in outages
  }

  /** Job `k` can be resumed: its database is there at the start and not deleted by an earlier job. */
  predicate Resumes(databases: map<string, Database>, stale: seq<Job>, k: nat, outages: set<string>)
    requires k < |stale|
  {
    && stale[k].kind != Provision && stale[k].projectId in databases && stale[k].id !in outages
    && !DeletedBefore(stale, k, stale[k].projectId, outages)
  }

  lemma {:induction false} DatabasesLeft(p: Plant, stale: seq<Job>, n: nat, outages: set<string>, now: int, projectId: string)
    requires n <= |stale|
    ensures var r := Sweep(p, stale, n, outages, now);
            projectId in r.databases <==> projectId in p.databases && !DeletedBefore(stale, n, projectId, outages)
  {
    if n > 0 {
      DatabasesLeft(p, stale, n - 1, outages, now, projectId);
      var last := stale[n - 1];
      assert DeletedBefore(stale, n, projectId, outages) <==>
             DeletedBefore(stale, n - 1, projectId, outages)
             || (last.kind == Delete && last.projectId == projectId && last.id !in outages);
    }
  }

  lemma ResumableInTurn(p: Plant, stale: seq<Job>, k: nat, outages: set<string>, now: int)
    requires k < |stale|
    ensures Resumable(Sweep(p, stale, k, outages, now), stale[k], outages) <==> Resumes(p.databases, stale, k, outages)
  {
    DatabasesLeft(p, stale, k, outages, now, stale[k].projectId);
  }

  lemma ServeOther(p: Plant, job: Job, outages: set<string>, now: int, id: string)
    requires id in p.jobs && id != job.id
    ensures var r := Serve(p, job, outages, now); id in r.jobs && r.jobs[id] == p.jobs[id]
  {
  }

  lemma ServeOwn(p: Plant, job: Job, outages: set<string>, now: int)
    requires job.id in p.jobs
    ensures var r := Serve(p, job, outages, now);
            && job.id in r.jobs
            && r.jobs[job.id] == p.jobs[job.id].(status := if Resumable(p, job, outages) then Completed else Failed, updatedAt := now)
  {
  }

  /** The row of a job after the sweep: completed exactly if it resumes, failed if it was served and does not. */
  lemma {:induction false} SweptRow(p: Plant, stale: seq<Job>, n: nat, outages: set<string>, now: int, k: nat)
    requires n <= |stale| && k < |stale| && Served(stale, p.jobs)
    ensures var r := Sweep(p, stale, n, outages, now);
            stale[k].id in r.jobs
            && r.jobs[stale[k].id] == if k >= n then stale[k]
                   else stale[k].(status := if Resumes(p.databases, stale, k, outages) then Completed else Failed, updatedAt := now)
  {
    if n > 0 {
      SweptRow(p, stale, n - 1, outages, now, k);
      var before := Sweep(p, stale, n - 1, outages, now);
      if k == n - 1 {
        ResumableInTurn(p, stale, k, outages, now);
        ServeOwn(before, stale[k], outages, now);
      } else {
        ServeOther(before, stale[n - 1], outages, now, stale[k].id);
      }
    }
  }

  lemma {:induction false} UnlistedRow(p: Plant, stale: seq<Job>, n: nat, outages: set<string>, now: int, id: string)
    requires n <= |stale| && Listed(stale, p.jobs) && id in p.jobs && forall i :: 0 <= i < |stale| ==> stale[i].id != id
    ensures var r := Sweep(p, stale, n, outages, now); id in r.jobs && r.jobs[id] == p.jobs[id]
  {
    if n > 0 {
      UnlistedRow(p, stale, n - 1, outages, now, id);
      ServeOther(Sweep(p, stale, n - 1, outages, now), stale[n - 1], outages, now, id);
    }
  }

  function CountResumed(databases: map<string, Database>, stale: seq<Job>, n: nat, outages: set<string>): nat
    requires n <= |stale|
  {
    if n == 0 then 0 else CountResumed(databases, stale, n - 1, outages) + (if Resumes(databases, stale, n - 1, outages) then 1 else 0)
  }

  function CountProvisions(stale: seq<Job>, n: nat): nat
    requires n <= |stale|
  {
    if n == 0 then 0 else CountProvisions(stale, n - 1) + (if stale[n - 1].kind == Provision then 1 else 0)
  }

  lemma ServeCounts(p: Plant, job: Job, outages: set<string>, now: int)
    ensures var r := Serve(p, job, outages, now);
            && r.resumed == p.resumed + (if Resumable(p, job, outages) then 1 else 0)
            && r.reaped == p.reaped + (if job.kind == Provision then 1 else 0)
            && r.resumed + r.reaped + r.failed == p.resumed + p.reaped + p.failed + 1
  {
  }

  /** Every served job is counted once, and in the right tally. */
  lemma {:induction false} SweepCounts(p: Plant, stale: seq<Job>, n: nat, outages: set<string>, now: int)
    requires n <= |stale|
    ensures var r := Sweep(p, stale, n, outages, now);
            && r.resumed == p.resumed + CountResumed(p.databases, stale, n, outages)
            && r.reaped == p.reaped + CountProvisions(stale, n)
            && r.resumed + r.reaped + r.failed == p.resumed + p.reaped + p.failed + n
  {
    if n > 0 {
      SweepCounts(p, stale, n - 1, outages, now);
      ResumableInTurn(p, stale, n - 1, outages, now);
      ServeCounts(Sweep(p, stale, n - 1, outages, now), stale[n - 1], outages, now);
    }
  }

  predicate SameProject(p: Plant, q: Plant, projectId: string) {
    && (projectId in p.projects <==> projectId in q.projects)
    && (projectId in p.projects ==> p.projects[projectId] == q.projects[projectId])
    && (projectId in p.databases <==> projectId in q.databases)
    && (projectId in p.databases ==> p.databases[projectId] == q.databases[projectId])
    && (projectId in p.credentials <==> projectId in q.credentials)
    && (projectId in p.credentials ==> p.credentials[projectId] == q.credentials[projectId])
  }

  lemma ServeOtherProject(p: Plant, job: Job, outages: set<string>, now: int, projectId: string)
    requires job.projectId != projectId
    ensures SameProject(p, Serve(p, job, outages, now), projectId)
  {
  }

  /** Only projects that own a stale job are touched. */
  lemma {:induction false} OtherProjectsUntouched(p: Plant, stale: seq<Job>, n: nat, outages: set<string>, now: int, projectId: string)
    requires n <= |stale| && forall i :: 0 <= i < |stale| ==> stale[i].projectId != projectId
    ensures SameProject(p, Sweep(p, stale, n, outages, now), projectId)
  {
    if n > 0 {
      OtherProjectsUntouched(p, stale, n - 1, outages, now, projectId);
      ServeOtherProject(Sweep(p, stale, n - 1, outages, now), stale[n - 1], outages, now, projectId);
    }
  }

  // ---- What is left of a project ----

  /** The last of the first `n` jobs that is resumed for this project. */
  function LastResumed(databases: map<string, Database>, stale: seq<Job>, n: nat, outages: set<string>, projectId: string): (k: int)
    requires n <= |stale|
    ensures k < n
  {
    if n == 0 then -1
    else if stale[n - 1].projectId == projectId && Resumes(databases, stale, n - 1, outages) then n - 1
    else LastResumed(databases, stale, n - 1, outages, projectId)
  }

  function StatusBy(kind: JobKind): DatabaseStatus {
    if kind == Stop then DatabaseStatus.Stopped else if kind == Start then DatabaseStatus.Running else DatabaseStatus.Ready
  }

  lemma ServeSetsStatus(p: Plant, job: Job, outages: set<string>, now: int, projectId: string)
    requires projectId in p.databases && !(job.projectId == projectId && job.kind == Delete && job.id !in outages)
    ensures var r := Serve(p, job, outages, now);
            && projectId in r.databases
            && r.databases[projectId] == if job.projectId == projectId && job.kind != Provision && job.id !in outages
                                         then p.databases[projectId].(status := StatusBy(job.kind), updatedAt := now)
                                         else p.databases[projectId]
  {
  }

  /** A database that is left stands as its last resumed job says: stopped by a stop, running by a start, else ready. */
  lemma {:induction false} DatabaseStandsAsResumed(p: Plant, stale: seq<Job>, n: nat, outages: set<string>, now: int, projectId: string)
    requires n <= |stale| && projectId in p.databases && !DeletedBefore(stale, n, projectId, outages)
    ensures var r, k := Sweep(p, stale, n, outages, now), LastResumed(p.databases, stale, n, outages, projectId);
            && projectId in r.databases
            && r.databases[projectId] == if k < 0 then p.databases[projectId]
                                         else p.databases[projectId].(status := StatusBy(stale[k].kind), updatedAt := now)
  {
    if n > 0 {
      assert !DeletedBefore(stale, n - 1, projectId, outages);
      DatabaseStandsAsResumed(p, stale, n - 1, outages, now, projectId);
      ServeSetsStatus(Sweep(p, stale, n - 1, outages, now), stale[n - 1], outages, now, projectId);
    }
  }

  /** A resumed delete takes project and credential with the database; nothing else takes or changes either. */
  lemma {:induction false} ProjectsLeft(p: Plant, stale: seq<Job>, n: nat, outages: set<string>, now: int, projectId: string)
    requires n <= |stale|
    ensures var r := Sweep(p, stale, n, outages, now);
            var gone := projectId in p.databases && DeletedBefore(stale, n, projectId, outages);
            && (projectId in r.projects <==> projectId in p.projects && !gone)
            && (projectId in r.projects ==> r.projects[projectId] == p.projects[projectId])
            && (projectId in r.credentials <==> projectId in p.credentials && !gone)
            && (projectId in r.credentials ==> r.credentials[projectId] == p.credentials[projectId])
  {
    if n > 0 {
      ProjectsLeft(p, stale, n - 1, outages, now, projectId);
      DatabasesLeft(p, stale, n - 1, outages, now, projectId);
      var last := stale[n - 1];
      assert DeletedBefore(stale, n, projectId, outages) <==>
             DeletedBefore(stale, n - 1, projectId, outages)
             || (last.kind == Delete && last.projectId == projectId && last.id !in outages);
    }
  }

  function IsProvision(): Job -> bool { (j: Job) => j.kind == Provision }

  /** The entries that tell of these provisionings given up, numbered on from `counter`. */
  function GivenUp(jobs: seq<Job>, counter: nat, now: int): seq<AuditEntry> {
    seq(|jobs|, i requires 0 <= i < |jobs| =>
      AuditEntry(counter + i + 1, "database.provisioning.failed", Some(jobs[i].projectId), Some(jobs[i].organizationId), None, now))
  }

  /** The audit log gains one entry for each provisioning given up, in their order, and nothing else. */
  lemma {:induction false} SweepIsAudited(p: Plant, stale: seq<Job>, n: nat, outages: set<string>, now: int)
    requires n <= |stale|
    ensures var r, given := Sweep(p, stale, n, outages, now), FilterUpTo(IsProvision(), stale, n);
            r.audit == p.audit + GivenUp(given, p.auditCounter, now) && r.auditCounter == p.auditCounter + |given|
  {
    if n > 0 {
      SweepIsAudited(p, stale, n - 1, outages, now);
      var before := FilterUpTo(IsProvision(), stale, n - 1);
      assert GivenUp(before + [stale[n - 1]], p.auditCounter, now) ==
             GivenUp(before, p.auditCounter, now) + [AuditEntry(p.auditCounter + |before| + 1, "database.provisioning.failed",
                                                               Some(stale[n - 1].projectId), Some(stale[n - 1].organizationId), None, now)];
      assert before + [] == before;
    }
  }

  // ---- The drain ----

  /** The plant after a drain that went by these listings. */
  function Drained(p: Plant, pending: seq<Job>, retrying: seq<Job>, outages: set<string>, now: int, staleMs: int): Plant {
    var stale := StaleOf(pending, retrying, now, staleMs);
    Sweep(p, stale, |stale|, outages, now)
  }

  predicate Abandoned(j: Job, now: int, staleMs: int) {
    now - j.updatedAt >= staleMs && (j.status == Pending || j.status == Retrying)
  }

  lemma ListedIsAbandoned(jobs: map<string, Job>, pending: seq<Job>, retrying: seq<Job>, now: int, staleMs: int, j: Job)
    requires AreListings(jobs, pending, retrying) && j in StaleOf(pending, retrying, now, staleMs)
    ensures j.id in jobs && jobs[j.id] == j && Abandoned(j, now, staleMs)
  {
    StaleMember(jobs, pending, retrying, now, staleMs, j);
  }

  /** Fresh, terminal and running jobs keep their rows, however old they are. */
  lemma OnlyAbandonedJobsChange(p: Plant, pending: seq<Job>, retrying: seq<Job>, outages: set<string>, now: int, staleMs: int, id: string)
    requires AreListings(p.jobs, pending, retrying) && id in p.jobs && !Abandoned(p.jobs[id], now, staleMs)
    ensures var r := Drained(p, pending, retrying, outages, now, staleMs); id in r.jobs && r.jobs[id] == p.jobs[id]
  {
    var stale := StaleOf(pending, retrying, now, staleMs);
    StaleJobsAreStored(p.jobs, pending, retrying, now, staleMs);
    forall i | 0 <= i < |stale|
      ensures stale[i].id != id
    {
      ListedIsAbandoned(p.jobs, pending, retrying, now, staleMs, stale[i]);
    }
    UnlistedRow(p, stale, |stale|, outages, now, id);
  }

  /** The abandoned jobs left over are exactly those the listings did not reach. */
  lemma LeftOverIffUnlisted(p: Plant, pending: seq<Job>, retrying: seq<Job>, outages: set<string>, now: int, staleMs: int, id: string)
    requires AreListings(p.jobs, pending, retrying) && id in p.jobs && p.jobs[id].id == id
    requires Abandoned(p.jobs[id], now, staleMs)
    ensures var r := Drained(p, pending, retrying, outages, now, staleMs);
            && id in r.jobs
            && if p.jobs[id] in StaleOf(pending, retrying, now, staleMs) then r.jobs[id].status in {Completed, Failed}
               else r.jobs[id] == p.jobs[id]
  {
    var stale := StaleOf(pending, retrying, now, staleMs);
    ListingIsServed(p.jobs, pending, retrying, now, staleMs);
    if p.jobs[id] in stale {
      var k :| 0 <= k < |stale| && stale[k] == p.jobs[id];
      SweptRow(p, stale, |stale|, outages, now, k);
    } else {
      UnlistedRow(p, stale, |stale|, outages, now, id);
    }
  }

  /** The jobs of a status, by identifier. */
  function OfStatus(jobs: map<string, Job>, status: JobStatus): set<string> {
    set id | id in jobs && jobs[id].status == status
  }

  /** The other jobs of its status created no earlier than `j`, and those created later. */
  function NoEarlier(jobs: map<string, Job>, j: Job): set<string> {
    set id | id in jobs && id != j.id && jobs[id].status == j.status && jobs[id].createdAt >= j.createdAt
  }

  function Later(jobs: map<string, Job>, j: Job): set<string> {
    set id | id in jobs && jobs[id].status == j.status && jobs[id].createdAt > j.createdAt
  }

  function Ids(s: seq<Job>, n: nat): set<string>
    requires n <= |s|
  {
    set i | 0 <= i < n :: s[i].id
  }

  lemma {:induction false} CountIds(s: seq<Job>, n: nat)
    requires n <= |s| && forall i, j :: 0 <= i < j < |s| ==> s[i].id != s[j].id
    ensures |Ids(s, n)| == n
  {
    if n > 0 {
      CountIds(s, n - 1);
      assert Ids(s, n) == Ids(s, n - 1) + {s[n - 1].id};
    }
  }

  lemma PassedOverByHundred(jobs: map<string, Job>, listed: seq<Job>, j: Job)
    requires j.id in jobs && jobs[j.id] == j && IsListing(jobs, j.status, listed) && j !in listed
    ensures |NoEarlier(jobs, j)| >= 100
  {
    CountIds(listed, |listed|);
    SubsetSize(Ids(listed, |listed|), NoEarlier(jobs, j));
  }

  lemma ListedAheadOfLater(jobs: map<string, Job>, listed: seq<Job>, j: Job)
    requires (forall id :: id in jobs ==> jobs[id].id == id) && IsListing(jobs, j.status, listed) && j in listed
    ensures |Later(jobs, j)| < 100
  {
    forall id | id in Later(jobs, j)
      ensures id in Ids(listed, |listed|) - {j.id}
    {
      assert jobs[id] in listed;
      var i :| 0 <= i < |listed| && listed[i] == jobs[id];
      assert listed[i].id in Ids(listed, |listed|);
    }
    CountIds(listed, |listed|);
    SubsetSize(Later(jobs, j), Ids(listed, |listed|) - {j.id});
  }

  /**
   * The listings are the newest first: an abandoned job is reached if fewer than 100 others of its status were
   * created no earlier, and passed over if 100 or more were created later.
   */
  lemma ReachedUnlessHundredAreNewer(jobs: map<string, Job>, pending: seq<Job>, retrying: seq<Job>, now: int, staleMs: int, j: Job)
    requires AreListings(jobs, pending, retrying) && (forall id :: id in jobs ==> jobs[id].id == id)
    requires j.id in jobs && jobs[j.id] == j && Abandoned(j, now, staleMs)
    ensures |NoEarlier(jobs, j)| < 100 ==> j in StaleOf(pending, retrying, now, staleMs)
    ensures |Later(jobs, j)| >= 100 ==> j !in StaleOf(pending, retrying, now, staleMs)
  {
    StaleMember(jobs, pending, retrying, now, staleMs, j);
    var listed := if j.status == Pending then pending else retrying;
    if j in listed {
      ListedAheadOfLater(jobs, listed, j);
    } else {
      PassedOverByHundred(jobs, listed, j);
    }
  }

  /** Neither listing had to leave a job of its status out. */
  ghost predicate ListingsReachAll(jobs: map<string, Job>) {
    && (forall id :: id in jobs ==> jobs[id].id == id)
    && |OfStatus(jobs, Pending)| <= 100 && |OfStatus(jobs, Retrying)| <= 100
  }

  lemma AbandonedIsListed(jobs: map<string, Job>, pending: seq<Job>, retrying: seq<Job>, now: int, staleMs: int, id: string)
    requires AreListings(jobs, pending, retrying) && ListingsReachAll(jobs) && id in jobs && Abandoned(jobs[id], now, staleMs)
    ensures jobs[id] in StaleOf(pending, retrying, now, staleMs)
  {
    var j := jobs[id];
    assert NoEarlier(jobs, j) <= OfStatus(jobs, j.status) - {id};
    assert id in OfStatus(jobs, j.status);
    SubsetSize(NoEarlier(jobs, j), OfStatus(jobs, j.status) - {id});
    ReachedUnlessHundredAreNewer(jobs, pending, retrying, now, staleMs, j);
  }

  function AbandonedIds(jobs: map<string, Job>, now: int, staleMs: int): set<string> {
    set id | id in jobs && Abandoned(jobs[id], now, staleMs)
  }

  lemma ServedIsAbandoned(jobs: map<string, Job>, pending: seq<Job>, retrying: seq<Job>, now: int, staleMs: int, id: string)
    requires AreListings(jobs, pending, retrying) && ListingsReachAll(jobs)
    ensures var stale := StaleOf(pending, retrying, now, staleMs); id in Ids(stale, |stale|) <==> id in AbandonedIds(jobs, now, staleMs)
  {
    var stale := StaleOf(pending, retrying, now, staleMs);
    if id in AbandonedIds(jobs, now, staleMs) {
      AbandonedIsListed(jobs, pending, retrying, now, staleMs, id);
      var i :| 0 <= i < |stale| && stale[i] == jobs[id];
      assert stale[i].id in Ids(stale, |stale|);
    } else if id in Ids(stale, |stale|) {
      var i :| 0 <= i < |stale| && stale[i].id == id;
      ListedIsAbandoned(jobs, pending, retrying, now, staleMs, stale[i]);
    }
  }

  lemma AbandonedAreCounted(jobs: map<string, Job>, pending: seq<Job>, retrying: seq<Job>, now: int, staleMs: int)
    requires AreListings(jobs, pending, retrying) && ListingsReachAll(jobs)
    ensures |StaleOf(pending, retrying, now, staleMs)| == |AbandonedIds(jobs, now, staleMs)|
  {
    var stale := StaleOf(pending, retrying, now, staleMs);
    ListingIsServed(jobs, pending, retrying, now, staleMs);
    forall id
      ensures id in Ids(stale, |stale|) <==> id in AbandonedIds(jobs, now, staleMs)
    {
      ServedIsAbandoned(jobs, pending, retrying, now, staleMs, id);
    }
    assert Ids(stale, |stale|) == AbandonedIds(jobs, now, staleMs);
    CountIds(stale, |stale|);
  }

  /** With at most 100 jobs in each listed status the sweep serves each abandoned job once, and counts them all. */
  lemma DrainCountsTheAbandoned(p: Plant, pending: seq<Job>, retrying: seq<Job>, outages: set<string>, now: int, staleMs: int)
    requires AreListings(p.jobs, pending, retrying) && ListingsReachAll(p.jobs)
    ensures var r := Drained(p, pending, retrying, outages, now, staleMs);
            r.resumed + r.reaped + r.failed == p.resumed + p.reaped + p.failed + |AbandonedIds(p.jobs, now, staleMs)|
  {
    var stale := StaleOf(pending, retrying, now, staleMs);
    AbandonedAreCounted(p.jobs, pending, retrying, now, staleMs);
    SweepCounts(p, stale, |stale|, outages, now);
  }

  /** With at most 100 jobs in each listed status, one drain leaves nothing abandoned. */
  lemma NothingAbandonedIsLeft(p: Plant, pending: seq<Job>, retrying: seq<Job>, outages: set<string>, now: int, staleMs: int, id: string)
    requires AreListings(p.jobs, pending, retrying) && ListingsReachAll(p.jobs) && id in p.jobs
    ensures var r := Drained(p, pending, retrying, outages, now, staleMs); id in r.jobs && !Abandoned(r.jobs[id], now, staleMs)
  {
    if Abandoned(p.jobs[id], now, staleMs) {
      AbandonedIsListed(p.jobs, pending, retrying, now, staleMs, id);
      LeftOverIffUnlisted(p, pending, retrying, outages, now, staleMs, id);
    } else {
      OnlyAbandonedJobsChange(p, pending, retrying, outages, now, staleMs, id);
    }
  }
}
