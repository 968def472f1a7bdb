/** The background worker that resumes or reaps lifecycle jobs whose driver is gone. */
module JobReaper {
  import opened Wrappers
  import opened Sequences
  import opened Registry
  import Sorting

  datatype JobStatus = Pending | Running | Completed | Failed | Retrying

  datatype JobKind = Provision | Delete | Restart | Stop | Start

  datatype Job = Job(
    id: string,
    projectId: string,
    organizationId: string,
    kind: JobKind,
    status: JobStatus,
    createdAt: int,
    updatedAt: int
  )

  const LIST_LIMIT: nat := 100

  predicate NewerFirst(a: Job, b: Job) { a.createdAt >= b.createdAt }

  function HasStatus(status: JobStatus): Job -> bool { (j: Job) => j.status == status }

  predicate IsStale(j: Job, now: int, staleMs: int) { now - j.updatedAt >= staleMs }

  function Stale(now: int, staleMs: int): Job -> bool { (j: Job) => IsStale(j, now, staleMs) }

  /** The rows in insertion order. */
  function Values(jobs: map<string, Job>, order: seq<string>): seq<Job>
    requires forall i :: 0 <= i < |order| ==> order[i] in jobs
  {
    seq(|order|, i requires 0 <= i < |order| => jobs[order[i]])
  }

  /** The jobs of a status, the newest first. */
  function ByStatus(jobs: map<string, Job>, order: seq<string>, status: JobStatus): seq<Job>
    requires forall i :: 0 <= i < |order| ==> order[i] in jobs
  {
    Sorting.Sort(NewerFirst, Filter(HasStatus(status), Values(jobs, order)))
  }

  function Front(s: seq<Job>): seq<Job> { if |s| <= LIST_LIMIT then s else s[..LIST_LIMIT] }

  /**
   * A listing by status: jobs of that status, each once, the newest first, at most 100; if any is left out the
   * listing is full and has none older. Jobs created at one instant may come in any order.
   */
  ghost predicate IsListing(jobs: map<string, Job>, status: JobStatus, listed: seq<Job>) {
    && |listed| <= LIST_LIMIT
    && (forall j :: j in listed ==> j.id in jobs && jobs[j.id] == j && j.status == status)
    && (forall i, k :: 0 <= i < k < |listed| ==> listed[i].id != listed[k].id && listed[i].createdAt >= listed[k].createdAt)
    && (forall id :: id in jobs && jobs[id].status == status && jobs[id] !in listed ==>
          |listed| == LIST_LIMIT && forall j :: j in listed ==> j.createdAt >= jobs[id].createdAt)
  }

  ghost predicate ValidStore(jobs: map<string, Job>, order: seq<string>) {
    && NoDuplicates(order) && (forall i :: 0 <= i < |order| ==> order[i] in jobs)
    && (forall id :: id in jobs ==> id in order && jobs[id].id == id)
  }

  class JobStore {
    var jobs: map<string, Job>
    var order: seq<string>

    ghost predicate Valid()
      reads this
    {
      ValidStore(jobs, order)
    }

    constructor ()
      ensures Valid() && jobs == map[]
    {
      jobs, order := map[], [];
    }

    method Insert(job: Job)
      requires Valid() && job.id !in jobs
      modifies this
      ensures Valid() && jobs == old(jobs)[job.id := job] && order == old(order) + [job.id]
    {
      jobs := jobs[job.id := job];
      order := order + [job.id];
    }

    method ListByStatus(status: JobStatus) returns (listed: seq<Job>)
      requires Valid()
      ensures IsListing(jobs, status, listed)
    {
      listed := Front(Sorting.Sort(NewerFirst, Filter(HasStatus(status), Values(jobs, order))));
      FrontIsListing(jobs, order, status);
    }

    method Update(id: string, status: JobStatus, now: int) returns (found: bool)
      requires Valid()
      modifies this`jobs
      ensures Valid() && found == (id in old(jobs))
      ensures jobs == Marked(old(jobs), id, status, now)
    {
      found := id in jobs;
      if found {
        jobs := jobs[id := jobs[id].(status := status, updatedAt := now)];
      }
    }
  }

  function Marked(jobs: map<string, Job>, id: string, status: JobStatus, now: int): map<string, Job> {
    if id in jobs then jobs[id := jobs[id].(status := status, updatedAt := now)] else jobs
  }

  /** Everything a drain can change, and its tallies. */
  datatype Plant = Plant(
    jobs: map<string, Job>,
    projects: map<string, Project>,
    databases: map<string, Database>,
    credentials: map<string, Credential>,
    audit: seq<AuditEntry>,
    auditCounter: nat,
    resumed: nat,
    reaped: nat,
    failed: nat
  )

  function StatusAfter(kind: JobKind): DatabaseStatus {
    match kind
    case Stop => Stopped
    case Start => DatabaseStatus.Running
    case _ => Ready
  }

  predicate Resumable(p: Plant, job: Job, outages: set<string>) {
    job.kind != Provision && job.projectId in p.databases && job.id !in outages
  }

  /** What serving one stale job does; `outages` holds the jobs whose provider call fails. */
  function Serve(p: Plant, job: Job, outages: set<string>, now: int): Plant {
    if job.kind == Provision then
      p.(jobs := Marked(p.jobs, job.id, Failed, now),
         auditCounter := p.auditCounter + 1,
         audit := p.audit + [AuditEntry(p.auditCounter + 1, "database.provisioning.failed", Some(job.projectId),
                                        Some(job.organizationId), None, now)],
         reaped := p.reaped + 1)
    else if !Resumable(p, job, outages) then
      p.(jobs := Marked(p.jobs, job.id, Failed, now), failed := p.failed + 1)
    else if job.kind == Delete then
      p.(jobs := Marked(p.jobs, job.id, Completed, now), resumed := p.resumed + 1,
         projects := p.projects - {job.projectId},
         databases := p.databases - {job.projectId},
         credentials := p.credentials - {job.projectId})
    else
      p.(jobs := Marked(p.jobs, job.id, Completed, now), resumed := p.resumed + 1,
         databases := p.databases[job.projectId :=
           p.databases[job.projectId].(status := StatusAfter(job.kind), updatedAt := now)])
  }

  /** The first `n` jobs of the list served. */
  function Sweep(p: Plant, stale: seq<Job>, n: nat, outages: set<string>, now: int): Plant
    requires n <= |stale|
  {
    if n == 0 then p else Serve(Sweep(p, stale, n - 1, outages, now), stale[n - 1], outages, now)
  }

  /** The stale jobs of the two listed statuses; running jobs are not looked at. */
  function StaleOf(pending: seq<Job>, retrying: seq<Job>, now: int, staleMs: int): seq<Job> {
    Filter(Stale(now, staleMs), pending) + Filter(Stale(now, staleMs), retrying)
  }

  ghost function PlantOf(store: JobStore, registry: MemoryRegistry, resumed: nat, reaped: nat, failed: nat): Plant
    reads store, registry
  {
    Plant(store.jobs, registry.projects, registry.databases, registry.credentials, registry.audit, registry.auditCounter,
          resumed, reaped, failed)
  }

  /** The body of the drain, for one stale job. */
  method ServeJob(store: JobStore, registry: MemoryRegistry, job: Job, outages: set<string>, now: int,
                  resumed0: nat, reaped0: nat, failed0: nat)
    returns (resumed: nat, reaped: nat, failed: nat)
    requires store.Valid() && job.id in store.jobs
    modifies store`jobs, registry
    ensures store.Valid() && store.jobs.Keys == old(store.jobs.Keys)
    ensures PlantOf(store, registry, resumed, reaped, failed)
         == Serve(old(PlantOf(store, registry, resumed0, reaped0, failed0)), job, outages, now)
  {
    resumed, reaped, failed := resumed0, reaped0, failed0;
    var found;
    if job.kind == Provision {
      found := store.Update(job.id, Failed, now);
      registry.RecordAudit("database.provisioning.failed", Some(job.projectId), Some(job.organizationId), None, now);
      reaped := reaped + 1;
      return;
    }
    var db := registry.GetDatabaseByProject(job.projectId);
    if db.None? {
      found := store.Update(job.id, Failed, now);
      failed := failed + 1;
      return;
    }
    if job.id in outages {
      found := store.Update(job.id, Failed, now);
      failed := failed + 1;
      return;
    }
    registry.UpdateDatabaseStatus(job.projectId, StatusAfter(job.kind), now);
    if job.kind == Delete {
      registry.DeleteProject(job.projectId);
    }
    found := store.Update(job.id, Completed, now);
    resumed := resumed + 1;
  }

  method CollectStale(store: JobStore, now: int, staleMs: int)
    returns (stale: seq<Job>, ghost pending: seq<Job>, ghost retrying: seq<Job>)
    requires store.Valid()
    ensures IsListing(store.jobs, Pending, pending) && IsListing(store.jobs, Retrying, retrying)
    ensures stale == StaleOf(pending, retrying, now, staleMs) && Listed(stale, store.jobs)
  {
    var listed := store.ListByStatus(Pending);
    pending := listed;
    stale := Filter(Stale(now, staleMs), listed);
    listed := store.ListByStatus(Retrying);
    retrying := listed;
    stale := stale + Filter(Stale(now, staleMs), listed);
    StaleJobsAreStored(store.jobs, pending, retrying, now, staleMs);
  }

  method ServeAll(store: JobStore, registry: MemoryRegistry, stale: seq<Job>, outages: set<string>, now: int)
    returns (resumed: nat, reaped: nat, failed: nat)
    requires store.Valid() && forall i :: 0 <= i < |stale| ==> stale[i].id in store.jobs
    modifies store`jobs, registry
    ensures store.Valid()
    ensures PlantOf(store, registry, resumed, reaped, failed)
         == Sweep(old(PlantOf(store, registry, 0, 0, 0)), stale, |stale|, outages, now)
  {
    resumed, reaped, failed := 0, 0, 0;
    ghost var start := PlantOf(store, registry, 0, 0, 0);
    for i := 0 to |stale|
      invariant store.Valid() && store.jobs.Keys == old(store.jobs.Keys)
      invariant PlantOf(store, registry, resumed, reaped, failed) == Sweep(start, stale, i, outages, now)
    {
      resumed, reaped, failed := ServeJob(store, registry, stale[i], outages, now, resumed, reaped, failed);
    }
  }

  /** One drain of the job queue: the stale jobs of the listings, served one after another. */
  method DrainOnce(store: JobStore, registry: MemoryRegistry, outages: set<string>, now: int, staleMs: int)
    returns (resumed: nat, reaped: nat, failed: nat, ghost pending: seq<Job>, ghost retrying: seq<Job>)
    requires store.Valid()
    modifies store`jobs, registry
    ensures store.Valid()
    ensures IsListing(old(store.jobs), Pending, pending) && IsListing(old(store.jobs), Retrying, retrying)
    ensures var stale := StaleOf(pending, retrying, now, staleMs);
            PlantOf(store, registry, resumed, reaped, failed)
            == Sweep(old(PlantOf(store, registry, 0, 0, 0)), stale, |stale|, outages, now)
  {
    var stale;
    stale, pending, retrying := CollectStale(store, now, staleMs);
    resumed, reaped, failed := ServeAll(store, registry, stale, outages, now);
  }

  ghost predicate Listed(stale: seq<Job>, jobs: map<string, Job>) {
    forall i :: 0 <= i < |stale| ==> stale[i].id in jobs && jobs[stale[i].id] == stale[i]
  }

  lemma ByStatusMembers(jobs: map<string, Job>, order: seq<string>, status: JobStatus, j: Job)
    requires ValidStore(jobs, order)
    ensures j in ByStatus(jobs, order, status) <==> j.id in jobs && jobs[j.id] == j && j.status == status
  {
    var all := Values(jobs, order);
    var chosen := Filter(HasStatus(status), all);
    Sorting.SortMembers(NewerFirst, chosen, |chosen|, j);
    assert chosen[..|chosen|] == chosen;
    FilterMembers(HasStatus(status), all, j);
    if j.id in jobs && jobs[j.id] == j {
      var i :| 0 <= i < |order| && order[i] == j.id;
      assert all[i] == j;
    }
  }

  lemma StaleMember(jobs: map<string, Job>, pending: seq<Job>, retrying: seq<Job>, now: int, staleMs: int, j: Job)
    requires IsListing(jobs, Pending, pending) && IsListing(jobs, Retrying, retrying)
    ensures j in StaleOf(pending, retrying, now, staleMs) <==> IsStale(j, now, staleMs) && (j in pending || j in retrying)
  {
    FilterMembers(Stale(now, staleMs), pending, j);
    FilterMembers(Stale(now, staleMs), retrying, j);
  }

  lemma StaleJobsAreStored(jobs: map<string, Job>, pending: seq<Job>, retrying: seq<Job>, now: int, staleMs: int)
    requires IsListing(jobs, Pending, pending) && IsListing(jobs, Retrying, retrying)
    ensures Listed(StaleOf(pending, retrying, now, staleMs), jobs)
  {
    forall j: Job | j in StaleOf(pending, retrying, now, staleMs)
      ensures j.id in jobs && jobs[j.id] == j
    {
      StaleMember(jobs, pending, retrying, now, staleMs, j);
    }
  }

  lemma ByStatusNoDuplicates(jobs: map<string, Job>, order: seq<string>, status: JobStatus)
    requires ValidStore(jobs, order)
    ensures NoDuplicates(ByStatus(jobs, order, status))
  {
    var all := Values(jobs, order);
    var chosen := Filter(HasStatus(status), all);
    assert NoDuplicates(all) by {
      forall i, j | 0 <= i < j < |all|
        ensures all[i] != all[j]
      {
        assert all[i].id == order[i] && all[j].id == order[j];
      }
    }
    FilterNoDuplicates(HasStatus(status), all);
    Sorting.SortPermutes(NewerFirst, chosen, |chosen|);
    assert chosen[..|chosen|] == chosen;
    PermutationNoDuplicates(chosen, ByStatus(jobs, order, status));
  }

  lemma ListIsNewestFirst(jobs: map<string, Job>, order: seq<string>, status: JobStatus)
    requires ValidStore(jobs, order)
    ensures var list := ByStatus(jobs, order, status);
            && (forall i, j :: 0 <= i < j < |list| ==> list[i].createdAt >= list[j].createdAt)
            && (forall i, j :: 0 <= i < j < |list| ==> list[i].id != list[j].id)
  {
    var list := ByStatus(jobs, order, status);
    var chosen := Filter(HasStatus(status), Values(jobs, order));
    Sorting.SortOrders(NewerFirst, chosen, |chosen|);
    ByStatusNoDuplicates(jobs, order, status);
    assert Sorting.Ordered(NewerFirst, list);
    forall i, j | 0 <= i < j < |list|
      ensures list[i].createdAt >= list[j].createdAt && list[i].id != list[j].id
    {
      assert NewerFirst(list[i], list[j]);
      ByStatusMembers(jobs, order, status, list[i]);
      ByStatusMembers(jobs, order, status, list[j]);
    }
  }

  lemma FrontIsListing(jobs: map<string, Job>, order: seq<string>, status: JobStatus)
    requires ValidStore(jobs, order)
    ensures IsListing(jobs, status, Front(ByStatus(jobs, order, status)))
  {
    var list := ByStatus(jobs, order, status);
    var front := Front(list);
    ListIsNewestFirst(jobs, order, status);
    forall k | 0 <= k < |front|
      ensures list[k] in front
    {
      assert front[k] == list[k];
    }
    forall j | j in front
      ensures j.id in jobs && jobs[j.id] == j && j.status == status
    {
      ByStatusMembers(jobs, order, status, j);
    }
    forall id | id in jobs && jobs[id].status == status && jobs[id] !in front
      ensures |front| == LIST_LIMIT && forall j :: j in front ==> j.createdAt >= jobs[id].createdAt
    {
      ByStatusMembers(jobs, order, status, jobs[id]);
      var k :| 0 <= k < |list| && list[k] == jobs[id];
    }
  }
}
