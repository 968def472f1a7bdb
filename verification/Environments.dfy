/** Which environment a migration really targets, and who may touch it. */
module Environments {
  import opened Wrappers

  datatype Environment = Environment(slug: string, isProduction: bool, branchId: Option<string>)

  datatype Resolved = Resolved(slug: string, isProduction: bool, known: bool)

  /** trim().toLowerCase(), left abstract. */
  type Normalizer = string -> string

  const PRODUCTION := "production"

  /** Flagged production in the stored row, or named so. */
  predicate IsProductionRow(norm: Normalizer, e: Environment) {
    e.isProduction || norm(e.slug) == PRODUCTION
  }

  function FindSlug(norm: Normalizer, envs: seq<Environment>, slug: string): Option<Environment> {
    if envs == [] then None
    else if norm(envs[0].slug) == slug then Some(envs[0])
    else FindSlug(norm, envs[1..], slug)
  }

  predicate SharesProduction(norm: Normalizer, envs: seq<Environment>, branchId: Option<string>) {
    exists i :: 0 <= i < |envs| && IsProductionRow(norm, envs[i]) && envs[i].branchId == branchId
  }

  /** `listing` is None when the environment service could not be read; an unknown slug is refused. */
  function ResolveEnvironment(norm: Normalizer, listing: Option<seq<Environment>>, declared: string): Option<Resolved> {
    var slug := norm(declared);
    var envs := if listing.Some? then listing.value else [];
    if envs == [] then Some(Resolved(slug, slug == PRODUCTION, false))
    else
      var row := FindSlug(norm, envs, slug);
      if row.None? then None
      else
        var flagged := row.value.isProduction || slug == PRODUCTION;
        Some(Resolved(slug, flagged || SharesProduction(norm, envs, row.value.branchId), true))
  }

  lemma {:induction false} FindSlugFinds(norm: Normalizer, envs: seq<Environment>, slug: string)
    ensures var r := FindSlug(norm, envs, slug);
            if r.Some? then exists i :: 0 <= i < |envs| && envs[i] == r.value && norm(envs[i].slug) == slug
            else forall i :: 0 <= i < |envs| ==> norm(envs[i].slug) != slug
  {
    if envs != [] && norm(envs[0].slug) != slug {
      FindSlugFinds(norm, envs[1..], slug);
      if FindSlug(norm, envs[1..], slug).Some? {
        var i :| 0 <= i < |envs[1..]| && envs[1..][i] == FindSlug(norm, envs, slug).value;
        assert envs[i + 1] == FindSlug(norm, envs, slug).value;
      } else {
        forall i | 0 <= i < |envs|
          ensures norm(envs[i].slug) != slug
        {
          assert i > 0 ==> envs[i] == envs[1..][i - 1];
        }
      }
    }
  }

  /**
   * An environment of a configured project is production exactly when some production environment uses
   * its branch, however it is labelled.
   */
  lemma ProductionIffBranchShared(norm: Normalizer, envs: seq<Environment>, declared: string)
    requires envs != [] && ResolveEnvironment(norm, Some(envs), declared).Some?
    ensures var row := FindSlug(norm, envs, norm(declared));
            && row.Some?
            && (ResolveEnvironment(norm, Some(envs), declared).value.isProduction <==> SharesProduction(norm, envs, row.value.branchId))
  {
    FindSlugFinds(norm, envs, norm(declared));
  }

  /** Without a listing (none configured, or the service could not be read) only the label decides. */
  lemma UnlistedIsJudgedByLabel(norm: Normalizer, listing: Option<seq<Environment>>, declared: string)
    requires listing.None? || listing.value == []
    ensures ResolveEnvironment(norm, listing, declared) == Some(Resolved(norm(declared), norm(declared) == PRODUCTION, false))
  {
  }

  /**
   * What a listing decides and its failure loses: with the listing and without it an environment is judged alike
   * if and only if its label says production exactly when its branch is shared with production.
   */
  lemma ListingMattersIff(norm: Normalizer, envs: seq<Environment>, declared: string)
    requires envs != []
    ensures var row := FindSlug(norm, envs, norm(declared));
            var listed, unlisted := ResolveEnvironment(norm, Some(envs), declared), ResolveEnvironment(norm, None, declared);
            && unlisted.Some?
            && (listed.Some? <==> row.Some?)
            && (row.Some? ==>
                  (listed.value.isProduction == unlisted.value.isProduction <==>
                   (norm(declared) == PRODUCTION <==> SharesProduction(norm, envs, row.value.branchId))))
  {
    UnlistedIsJudgedByLabel(norm, None, declared);
    if FindSlug(norm, envs, norm(declared)).Some? {
      ProductionIffBranchShared(norm, envs, declared);
    }
  }

  /** They part one way only: without the listing nothing is taken for production that the listing would not. */
  lemma FailureOnlyLosesProduction(norm: Normalizer, envs: seq<Environment>, declared: string)
    requires envs != [] && ResolveEnvironment(norm, Some(envs), declared).Some?
    ensures ResolveEnvironment(norm, None, declared).value.isProduction ==>
              ResolveEnvironment(norm, Some(envs), declared).value.isProduction
  {
    ListingMattersIff(norm, envs, declared);
  }

  /** A case where they part: a staging label on the production branch. */
  lemma ListingFailureLosesTheBranchRule()
    ensures var norm: Normalizer := (s: string) => s;
            var envs := [Environment("production", true, None), Environment("staging", false, None)];
            && ResolveEnvironment(norm, Some(envs), "staging") == Some(Resolved("staging", true, true))
            && ResolveEnvironment(norm, None, "staging") == Some(Resolved("staging", false, false))
  {
    var norm: Normalizer := (s: string) => s;
    var envs := [Environment("production", true, None), Environment("staging", false, None)];
    assert norm(envs[0].slug) != "staging" && norm(envs[1].slug) == "staging";
    assert envs[1..][0] == envs[1];
    assert FindSlug(norm, envs, "staging") == Some(envs[1]);
    assert IsProductionRow(norm, envs[0]);
    assert SharesProduction(norm, envs, None);
  }

  /** An agent token needs production named in its list; an empty list covers everything else. */
  predicate EnvironmentAllowed(norm: Normalizer, allowlist: seq<string>, slug: string, isProduction: bool) {
    var named := exists i :: 0 <= i < |allowlist| && norm(allowlist[i]) == norm(slug);
    if isProduction then named else allowlist == [] || named
  }
}
