/** Log retention: every organization's own cutoff, applied one organization at a time. */
module Retention {
  import opened Wrappers
  import opened Sequences
  import opened Registry

  const DEFAULT_LOG_RETENTION_DAYS: int := 90
  const DAY_MS: int := 86_400_000

  /** logRetentionDays by organization; absent or null means the default. */
  type Policies = map<string, Option<int>>

  function RetentionDays(policies: Policies, organizationId: string): int {
    var days := if organizationId in policies && policies[organizationId].Some? then policies[organizationId].value
                else DEFAULT_LOG_RETENTION_DAYS;
    var floored := if days < 7 then 7 else days;
    if floored > 365 then 365 else floored
  }

  function Cutoff(policies: Policies, organizationId: string, now: int): int {
    now - RetentionDays(policies, organizationId) * DAY_MS
  }

  /** Outside the listed organizations, or recent enough for its own. */
  function Survives(policies: Policies, organizations: set<string>, now: int): AuditEntry -> bool {
    (a: AuditEntry) =>
      a.organizationId.None? || a.organizationId.value !in organizations || a.at >= Cutoff(policies, a.organizationId.value, now)
  }

  function Visited(orgIds: seq<string>): set<string> {
    set i | 0 <= i < |orgIds| :: orgIds[i]
  }

  /** One retention cycle over the organizations in any order, with or without repetitions. */
  method DrainRetentionOnce(registry: MemoryRegistry, policies: Policies, orgIds: seq<string>, now: int)
    returns (organizations: nat, pruned: nat)
    modifies registry`audit
    ensures organizations == |orgIds|
    ensures registry.audit == Filter(Survives(policies, Visited(orgIds), now), old(registry.audit))
    ensures pruned + |registry.audit| == |old(registry.audit)|
  {
    organizations, pruned := 0, 0;
    FilterAll(Survives(policies, Visited([]), now), registry.audit, |registry.audit|);
    for i := 0 to |orgIds|
      invariant organizations == i
      invariant registry.audit == Filter(Survives(policies, Visited(orgIds[..i]), now), old(registry.audit))
      invariant pruned + |registry.audit| == |old(registry.audit)|
    {
      var days := RetentionDays(policies, orgIds[i]);
      var cutoff := now - days * DAY_MS;
      var n := registry.PruneAuditLogs(cutoff, Some(orgIds[i]));
      assert Visited(orgIds[..i + 1]) == Visited(orgIds[..i]) + {orgIds[i]};
      FilterTwice(KeptBy(cutoff, Some(orgIds[i])), Survives(policies, Visited(orgIds[..i]), now),
                  Survives(policies, Visited(orgIds[..i + 1]), now), old(registry.audit), |old(registry.audit)|);
      pruned := pruned + n;
      organizations := organizations + 1;
    }
    assert orgIds[..|orgIds|] == orgIds;
  }

  /** What a cycle keeps: exactly the surviving entries, in their order, however the organizations are visited. */
  lemma RetentionIsExact(policies: Policies, orgIds: seq<string>, other: seq<string>, now: int, audit: seq<AuditEntry>)
    returns (kept: seq<nat>)
    requires Visited(orgIds) == Visited(other)
    ensures var result := Filter(Survives(policies, Visited(orgIds), now), audit);
            && result == Filter(Survives(policies, Visited(other), now), audit)
            && Embeds(result, audit, kept)
    ensures forall k :: 0 <= k < |audit| ==>
              var org := audit[k].organizationId;
              (k in kept <==> (org.Some? && org.value in orgIds ==> audit[k].at >= Cutoff(policies, org.value, now)))
  {
    kept := FilterEmbeds(Survives(policies, Visited(orgIds), now), audit);
  }

  /** Whatever the policy says, between 7 and 365 days of an organization's log are kept. */
  lemma CutoffIsClamped(policies: Policies, organizationId: string, now: int)
    ensures now - 365 * DAY_MS <= Cutoff(policies, organizationId, now) <= now - 7 * DAY_MS
  {
  }

  /** The organization's own number of days counts, from 7 to 365, and 90 where it has none. */
  lemma RetentionByPolicy(policies: Policies, organizationId: string, now: int)
    ensures organizationId !in policies || policies[organizationId].None? ==>
              Cutoff(policies, organizationId, now) == now - 90 * 86_400_000
    ensures organizationId in policies && policies[organizationId].Some? ==>
              var days := policies[organizationId].value;
              Cutoff(policies, organizationId, now)
              == now - (if days < 7 then 7 else if days > 365 then 365 else days) * 86_400_000
  {
  }
}
