# Verified models of a backend-as-a-service control plane

A Dafny 4.11 project about the stateful cores of the control plane: the IP reputation tracker and the edge
pipeline around it, the migration workflow with its approval gate, the worker that ships audit logs, reaps
orphaned jobs and enforces retention, the row routes of the data plane, the credential envelope, the account
protocol, and the choice of the forwarded client address. `dafny verify dfyconfig.toml` checks everything.

## How it is built

Each core file has one module that follows its form. Objects that the program updates in place are classes
(`Cache`, `Tracker`, `Pipeline`, `AgentService`, `MigrationPlane`, `MemoryRegistry`, `MemoryDrains`, `JobStore`,
`FakeDataBackend`, `DataPlane`, `MemoryPasswordResets`, `SessionCache`, `PlatformAuth`); their methods have the
branches, loops and early exits of the code and are proved equal to specification functions over plain values.
What the program is for is then proved about those functions in the modules whose names end in `Laws`, for every
run or every reachable state. There each decision is pinned by what it is about (the fields of the records, the
counters, the cells), never by the function that takes it. Expressions stay functions (query building and selection, the digest, the
envelope, the address pipeline, environment resolution).

| area | modules |
|---|---|
| reputation and edge | `TtlCache`, `Digest`, `Threat`, `ThreatLaws`, `BanLaws`, `ScoreLaws`, `RateLimit`, `Edge`, `EdgeLaws`, `LimiterLaws`, `AnswerLaws`, `ClientIp` |
| migrations | `Environments`, `Approvals`, `Migrations`, `MigrationLaws`, `ApplyLaws` |
| worker | `Registry`, `LogDrains`, `LogDrainLaws`, `JobReaper`, `JobLaws`, `Retention` |
| data plane | `Values`, `Query`, `QueryLaws`, `DataPlane`, `DataLaws` |
| credentials | `Base64Url`, `Credentials` |
| accounts | `Sessions`, `Accounts`, `AccountLaws`, `SessionLaws`, `GateLaws` |
| shared | `Wrappers`, `Powers`, `Strings`, `Sequences`, `Sorting` |

## What is assumed

- A request, with everything it records, is one step; the cache and the stores answer. Fail-open paths and
  best-effort `catch` blocks are therefore not taken.
- Time is a number of milliseconds passed to every step and never runs backwards within a run. A cached record
  is readable up to and including the instant it expires, as in the memory driver.
- Random identifiers (tokens, tickets, session identifiers) are new when drawn, SHA-256 fingerprints do not
  collide, and a signature is valid only on a token that was issued. Password, one-time-code, policy and
  signature verdicts, the firewall's and handler's verdicts, provider and delivery outcomes are
  parameters. AES-GCM (section 7 of NIST SP 800-38D) and UTF-8 are inverse pairs given by
  `Credentials.Suite`; for UTF-8 that holds of well-formed text only, so plaintexts with lone surrogates are excluded.
- Numbers stored in the cache are kept as numbers, and record families whose keys differ by a fixed prefix are
  kept as separate maps in the account model. For the reputation tracker, where the keys hold caller-supplied
  text, and for the limiter that shares its cache, the separation is proved (`ThreatLaws.KeysInjective`,
  `ThreatLaws.KeysDisjoint`, `ThreatLaws.LimiterKeysApart`).

## Where the code and its description part

- A score and a ban of the same length expire together, and a cached value can still be read at its expiry
  instant. A ban has lapsed at that instant, so a first ban under the default policy hands over to a throttle for
  one instant (`Edge.FirstDefaultBanEndsThrottled`); `Edge.ScoreAtTheInstantOfLapse` gives the exact condition.
- The job store promises "oldest first" (packages/provisioning/src/jobs.ts:36) and lists newest first. With more
  than 100 jobs of a status the oldest ones are passed over (`JobLaws.ReachedUnlessHundredAreNewer`). Jobs left in
  `running` are never looked at (`JobLaws.OnlyAbandonedJobsChange`).
- Log drains are described as shipping for enabled drains and chosen events; the memory store lists disabled
  drains too, and the list of events is not consulted. The sort comparator answers inconsistently on equal times,
  so the order of ties is left open in `LogDrains.IsTimeOrder`; entries at the cursor's instant can be missed
  (`LogDrainLaws.TieAfterShippingIsMissed`), and `LogDrainLaws.MissedIff` and `LogDrainLaws.NoGapsIff` say exactly when.
- An empty credential is encrypted but cannot be decrypted: the envelope check rejects an empty field
  (`Credentials.DecryptInvertsEncrypt`, `Credentials.ReadsBackIff`).
- An export of exactly 10000 rows is flagged truncated although nothing was dropped (`DataPlane.DataPlane.Export`).
- The comparator that sorts rows is a total preorder except between a field that is absent and one that is null
  (`Query.CellsCompareBothWays`).
- Owner scoping takes the first listed table whose name is the reference as it stands, while query building takes
  `public.name`, or `schema.name` (packages/api-engine/src/query-builder.ts:44-55). So a table that has an owner
  column is not scoped when it is named `schema.name` (no listed table has that for a name), nor when it is named
  plainly and a table of the same name without an owner column is listed before it: all schemas are listed, ordered
  by schema (packages/database/src/project-db.ts:228-233), and `archive` comes before `public`
  (`DataLaws.QualifiedIsUnscoped`, `DataLaws.ShadowedIsUnscoped`). Under such a reference lists and exports are not
  confined, a row can be created for another owner and one's own given away, and an import can store rows without
  an owner. `DataLaws.RunKeepsOthersIff`, `DataLaws.ReadsAreMineIffScoped`, `DataLaws.ImportsLeaveOwnershipIff` and
  `DataLaws.WriteAnswersAreMineIff` give the exact conditions; reads by identifier and deletes keep to the caller's
  rows under every reference.
- The limiter's maximum is described as 120 a minute (apps/api/src/v1.ts:482) and is 600 by default
  (packages/config/src/index.ts:63). Each refusal adds to the score, but by themselves they cannot add up to a ban:
  a throttled address is let through to the limiter ten times a minute only (`LimiterLaws.RefusalsAloneNeverBan`).
  Liveness probes share its counter and are exempt from the throttle, and with them they can
  (`LimiterLaws.ProbesLetRefusalsBan`).
- A password reset revokes the sessions the per-user list holds, and the list keeps the last twenty
  (`SessionLaws.LiveAfterResetIffUnlisted`, `Sessions.TheTwentyFirstHidesTheFirst`).
- Starting a new TOTP enrolment switches the second factor off until it is confirmed
  (`AccountLaws.EnrollingSwitchesOff`). A setup ticket stays usable after the factor has been turned on by another
  way, and is then the one way past it (`AccountLaws.FactorIsPassedByIff`).
- Destructive migrations are said to need approval always (apps/api/src/migrations.ts:725). Outside production an agent
  whose token holds the scope `database.destructive` applies them without one
  (`ApplyLaws.DestructiveNeedsScopeOrApproval`).
- When the environment service cannot be read, the branch rule is lost and only the label decides;
  `Environments.ListingMattersIff` says exactly when that makes a difference. An approval that expires after it was approved keeps the
  status `approved`; it is refused all the same.

## Model

| member | source | states |
|---|---|---|
| TtlCache.Cache.Get | packages/cache/src/index.ts:25-37 | reading returns the live value and leaves what is readable unchanged |
| TtlCache.Cache.Set | packages/cache/src/index.ts:39-41 | the key holds the value for its lifetime from now; every other live key is as before |
| TtlCache.Cache.Del | packages/cache/src/index.ts:43-45 | the key is gone, nothing else |
| TtlCache.Cache.Incr | packages/cache/src/index.ts:47-51 | the counter is one more than the live value (0 if none); memory re-arms the expiry, Redis arms it at the start only |
| Digest.Hash | apps/api/src/threat.ts:370-377 | the loop computes the FNV-1a form over UTF-16 code units, written in base 36 |
| Digest.MixBijective | apps/api/src/threat.ts:373-374 | one step is a bijection on 32-bit states, with the inverse given (899433627 inverts the prime) |
| Digest.MixSeparates | apps/api/src/threat.ts:373-374 | from one state, different code units lead to different states |
| Digest.SuffixKeepsStatesApart | apps/api/src/threat.ts:372-375 | absorbing the same text keeps distinct states distinct |
| Digest.Base36RoundTrip | apps/api/src/threat.ts:376 | parsing the printed digest gives the number back |
| Digest.DigestHasNoColon | apps/api/src/threat.ts:120-129 | no digest contains the separator of the cache keys |
| Digest.SuffixKeepsDigestsApart | apps/api/src/threat.ts:370-377 | texts with the same suffix have equal digests if and only if the front parts do |
| Digest.OneDifferenceNeverCollides | apps/api/src/threat.ts:370-377 | texts of equal length that differ in exactly one position never collide |
| Digest.KnownDigests | apps/api/src/threat.ts:370-377 | for the empty text and for `a` the state is the published FNV-1a value |
| Threat.Tracker.Assess | apps/api/src/threat.ts:162-188 | reads the standing of an address and changes nothing readable |
| Threat.Tracker.Sharpen | apps/api/src/threat.ts:273-283 | a failed login or not-found counts as its sharper form exactly on a subject not remembered, which is then remembered |
| Threat.Tracker.AddScore | apps/api/src/threat.ts:293-299 | the loop of single increments raises the score by the whole weight, with one expiry |
| Threat.Tracker.Ban | apps/api/src/threat.ts:301-313 | one more offence, a ban of the length due to that number, and the fleet counter |
| Threat.Tracker.Record | apps/api/src/threat.ts:245-264 | the whole effect of a signal, and the standing returned |
| Threat.Tracker.SpendThrottledBudget | apps/api/src/threat.ts:228-236 | one request is spent; it is within the budget exactly if the counter does not exceed it |
| Threat.Tracker.ClearBan | apps/api/src/threat.ts:205-219 | ban, score, budget and offences go; the standing before is reported |
| Threat.Tracker.Clear | apps/api/src/threat.ts:316-322 | ban, score and budget go; offences stay |
| Threat.Tracker.BanNow | apps/api/src/threat.ts:325-331 | an operator's ban lasts between a minute and the cap and counts as an offence |
| Threat.FamiliesDiffer | apps/api/src/threat.ts:120-129 | keys of different families never coincide, for any addresses |
| RateLimit.CheckRateLimit | packages/api-core/src/index.ts:356-366 | every request of an identity is counted, and allowed exactly if the count does not exceed the maximum |
| ThreatLaws.KeysInjective | apps/api/src/threat.ts:120-129 | within each family the key determines the address and the digest, for arbitrary address text |
| ThreatLaws.KeysDisjoint | apps/api/src/threat.ts:120-129 | a key belongs to at most one address and to no fleet counter |
| ThreatLaws.LimiterKeysApart | packages/api-core/src/index.ts:361-363 | nor to anything the limiter counts, whatever the identity |
| ThreatLaws.StepIsLocal | apps/api/src/threat.ts:245-331 | no action on one address touches a record of another |
| ThreatLaws.RunIsLocal | apps/api/src/threat.ts:245-331 | nor does any run of actions |
| ThreatLaws.OthersNeverChangeAssessment | apps/api/src/threat.ts:162-188 | any run of actions on other addresses leaves the assessment of an address unchanged |
| BanLaws.BanDoubles | apps/api/src/threat.ts:305-308 | each repeat doubles the ban up to the cap, starting from banSeconds |
| BanLaws.BanLengthMonotone | apps/api/src/threat.ts:305-308 | ban lengths are nondecreasing in the offences and never exceed the cap |
| BanLaws.DefaultBanIsCappedFromTheEighth | apps/api/src/threat.ts:101-118 | under the default policy the cap is reached if and only if there are eight offences or more |
| BanLaws.BanFollowsOffences | apps/api/src/threat.ts:254-256 | a record that reaches the threshold leaves exactly the ban of its offence count |
| BanLaws.EscalationSurvivesClearing | apps/api/src/threat.ts:205-219 | both operator actions end the ban; clear keeps the offences, clearBan forgets them |
| BanLaws.StepKeepsSound | apps/api/src/threat.ts:245-331 | no action makes a stored ban end later than the cap allows |
| BanLaws.RunIsSound | apps/api/src/threat.ts:245-331 | so it is in every state reached from the empty cache |
| BanLaws.BansAlwaysExpire | apps/api/src/threat.ts:303-304 | no ban ever has more than maxBanSeconds to run |
| BanLaws.OperatorBanLasts | apps/api/src/threat.ts:325-331 | an operator's ban stands for the seconds asked for, at least 60 and at most the cap, and is one more offence |
| BanLaws.ClearedStartsOver | apps/api/src/threat.ts:205-219 | after either operator action the standing is normal, with no score and no spent budget |
| BanLaws.OffenceIsRememberedAWeek | apps/api/src/threat.ts:132-133 | a first offence counts for seven days and then no more |
| BanLaws.AllowlistedIsSpared | apps/api/src/threat.ts:245-247 | an allowlisted address is neither scored nor banned |
| ScoreLaws.RunHolds | apps/api/src/threat.ts:273-299 | after any run inside one window the cache holds the expected score and exactly the subjects seen |
| ScoreLaws.ScoreIsSumOfWeights | apps/api/src/threat.ts:285-299 | the stored score is the sum of the weights of the sharpened signals |
| ScoreLaws.ScoreBySignals | apps/api/src/threat.ts:57-108 | for any mix of signals the score is 22k + 8(n - k) + 9k' + 2(n' - k') plus the plain weights of the others, for n failed logins on k digests and n' not-founds on k' |
| ScoreLaws.OtherWeightsBySignal | apps/api/src/threat.ts:57-82 | the other weights, signal by signal: 25, 10, 1 and 3 for firewall matches, 403s, refusals and errors |
| ScoreLaws.AuthFailuresScore | apps/api/src/threat.ts:57-108 | n failures, with a subject or without, over k distinct digests score 22k + 8(n - k) |
| ScoreLaws.NotFoundsScore | apps/api/src/threat.ts:57-108 | n not-founds over k distinct digests score 9k + 2(n - k) |
| ScoreLaws.ThreeFreshAccountsThrottle | apps/api/src/threat.ts:101-108 | under the default policy failures against three accounts always throttle or ban |
| ScoreLaws.RefusalsBanAtExactly120 | apps/api/src/threat.ts:101-108 | refusals, and the budget spent on the way, place a ban exactly when there have been 120 refusals in the window |
| Edge.Pipeline.NoteWaf | apps/api/src/v1.ts:453-454 | a matched rule is counted and scored, and leaves the throttle budget and the limiter's count alone |
| Edge.Pipeline.AskLimiter | apps/api/src/v1.ts:482-497 | the request is counted and allowed by the count found; a refusal is scored unless it was a probe |
| Edge.Pipeline.Throttle | apps/api/src/v1.ts:467-497 | the budget is spent before the limiter is asked, and an exhausted budget is not counted by it; a request passes exactly if both let it |
| Edge.Pipeline.Admit | apps/api/src/v1.ts:431-497 | firewall, throttle and limiter in order, on the standing read at the start |
| Edge.Pipeline.ReportFailedLogins | apps/api/src/platform-auth.ts:1459-1465 | every failed login is reported with its account |
| Edge.Pipeline.Finish | apps/api/src/v1.ts:371-388 | the signal given by the response status, if any |
| Edge.Pipeline.Handle | apps/api/src/v1.ts:393-497 | status and every effect of one request on the shared cache |
| Edge.ActionsAreOwn | apps/api/src/v1.ts:371-497 | a request acts on no address but its own, and is counted for no other |
| Edge.BannedIsFrozen | apps/api/src/v1.ts:411-431 | while banned, no sequence of requests (probes and OPTIONS included) changes score, offences or the end of the ban |
| Edge.BannedUntilTheEnd | apps/api/src/v1.ts:411-431 | from the record that bans to the end of the ban, through any requests in between, the address stays banned, with the time to that end remaining |
| Edge.BanRunsItsCourse | apps/api/src/threat.ts:162-188 | at the end of it and after, the address is not banned; its score is gone exactly past the expiry the banning record left, and while it is not gone the standing is throttled |
| Edge.LapsedBanLeavesNoScore | apps/api/src/threat.ts:162-188 | with windowSeconds <= banSeconds <= maxBanSeconds, after the ban the score is gone and the standing is normal, whatever other addresses did since |
| Edge.ScoreAtTheInstantOfLapse | apps/api/src/threat.ts:162-188 | at the instant of lapse itself the score is gone if and only if it expires earlier; in the memory driver, if and only if the window is shorter than the ban |
| Edge.FirstDefaultBanEndsThrottled | apps/api/src/threat.ts:101-118 | the default policy is such a case |
| EdgeLaws.EdgeRunIsRun | apps/api/src/v1.ts:371-497 | every run of requests and operator actions is the run of tracker and limiter actions in its trace |
| EdgeLaws.EdgeRunIsSound | apps/api/src/threat.ts:245-331 | so in every state the pipeline reaches from the empty cache no ban outlasts the cap and no score its window |
| EdgeLaws.EveryLapsedBanLeavesNoScore | apps/api/src/threat.ts:162-188 | from the empty cache, whatever led to the ban, its end leaves score 0 and a normal standing |
| EdgeLaws.EdgeScoreBySignals | apps/api/src/v1.ts:371-388 | the score over a run of whole requests, by the signals in its trace |
| LimiterLaws.LimiterBansAtExactly120 | apps/api/src/v1.ts:467-497 | through the whole pipeline, under the default policy, an address that gives no other signal, whatever the limiter admits of it, is banned exactly when the limiter has refused it 120 times in the window |
| LimiterLaws.MarksAfterCall | apps/api/src/v1.ts:467-497 | what such a request does to score, budget and limiter count, from those alone |
| LimiterLaws.RefusalsAloneNeverBan | apps/api/src/v1.ts:467-497 | without probes, in a run of any length, such an address is never banned: its score exceeds the throttle threshold by at most one budget (memory) or two (Redis), within one window by one in any case; for limits with twice the budget within the maximum and windows of at most a minute |
| LimiterLaws.AtMost60WithoutProbes | packages/config/src/index.ts:52-63 | by default there are at most 60 refusals in a window |
| LimiterLaws.ProbesLetRefusalsBan | apps/api/src/v1.ts:410-412 | with probes filling the limiter's count every minute they get there: throttled after 119 refusals, banned after the 120th, for either driver and any maximum |
| AnswerLaws.AnswersByCounters | apps/api/src/v1.ts:393-497 | the status of every request from the stored ban, score, budget and limiter count: 429 banned, 400 matched in block mode, 429 out of budget or over the limit, else the handler's |
| AnswerLaws.HandlerAnswersIff | apps/api/src/v1.ts:416-497 | a call is answered by its handler, whatever that says, if and only if none of these applies |
| AnswerLaws.BannedCallsAreRefused | apps/api/src/v1.ts:416-431 | from the record that bans to the end of the ban every call of the address is answered 429, through any run |
| AnswerLaws.BudgetBoundsService | apps/api/src/v1.ts:467-480 | within a minute that begins with the budget unspent a throttled address gets at most throttledBudget handler answers |
| AnswerLaws.ReportsAreAnswers | apps/api/src/v1.ts:371-388 | the signals recorded over a run are its answers: 403s, 404s, errors, 401s and failed logins, matched rules, limiter refusals |
| AnswerLaws.SeenAreMet | apps/api/src/v1.ts:371-388 | the digests remembered are those of the accounts that failed to sign in and of the paths answered 404 |
| AnswerLaws.ScoreByAnswers | apps/api/src/threat.ts:57-108 | within one window the score is 25, 10, 3, 1, 8 and 2 for each of these answers, with 14 and 7 more for each new account and path |
| ClientIp.EntriesAppend | apps/api/src/client-ip.ts:24-27 | split, trim and filter distribute over concatenation at a comma |
| ClientIp.ForgedPrefixIgnored | apps/api/src/client-ip.ts:18-35 | with more entries than trusted hops, any text put in front changes nothing |
| ClientIp.BucketIsFixed | apps/api/src/client-ip.ts:38-40 | the rate-limit bucket is the entry left of the trusted ones, whatever is put in front |
| ClientIp.PrefixIndependenceIffEnoughEntries | apps/api/src/client-ip.ts:18-35 | the choice is independent of what is put in front if and only if there are more entries than hops |
| ClientIp.ChosenByHops | apps/api/src/client-ip.ts:18-40 | without trusted hops, header, or more entries than hops the socket address; else the entry before the trusted ones; `unknown` for none |
| ClientIp.TrimmedIsCore | apps/api/src/client-ip.ts:26 | trimming takes the white space off both ends and nothing else |
| ClientIp.OneHopChoosesTheLastButOne | apps/api/src/client-ip.ts:24-35 | behind one trusted proxy the client address is the one before the last, whatever precedes it |
| Environments.ProductionIffBranchShared | apps/api/src/migrations.ts:642-684 | with a listing, an environment resolves to production if and only if some production environment uses the same branch |
| Environments.ListingMattersIff | apps/api/src/migrations.ts:642-684 | with the listing and without it an environment is judged alike if and only if its label says production exactly when its branch is shared with production |
| Environments.FailureOnlyLosesProduction | apps/api/src/migrations.ts:642-684 | a failed listing only ever loses production, never adds it |
| Environments.ListingFailureLosesTheBranchRule | apps/api/src/migrations.ts:642-684 | a case of that loss: a staging label on the production branch |
| Approvals.AgentService.ConsumeApproval | packages/agents/src/service.ts:275-310 | succeeds exactly for an approved, unexpired request of that token and that operation, and then marks it consumed |
| Approvals.AgentService.DecideApproval | packages/agents/src/service.ts:242-262 | only a pending request is decided; an expired one is marked so instead |
| Approvals.AgentService.GateDestructive | apps/api/src/agents.ts:305-397 | proceeds, holds, or refuses, and what it leaves in the store; when an approval is always asked for, the scope does not help |
| Migrations.MigrationPlane.List | apps/api/src/migrations.ts:85-88 | the rows of the project, each once, in version order |
| Migrations.MigrationPlane.NextVersion | apps/api/src/migrations.ts:94-96 | above all versions of the project, with no gap |
| Migrations.MigrationPlane.AppliedVersion | apps/api/src/migrations.ts:285-311 | the reported version is the largest applied one, or 0 |
| Migrations.MigrationPlane.Create | apps/api/src/migrations.ts:313-352 | a pending row with the next version, its statements and their checksum, or the refusal |
| Migrations.MigrationPlane.Apply | apps/api/src/migrations.ts:466-599 | every check in order, the gate, the execution of the stored statements, and the new status |
| Migrations.MigrationPlane.Reset | apps/api/src/migrations.ts:601-616 | only a failed row becomes pending again |
| Migrations.MigrationPlane.Discard | apps/api/src/migrations.ts:399-423 | only a row that was not applied goes |
| MigrationLaws.NextKeepsInv | apps/api/src/migrations.ts:313-616 | every step keeps the invariant on rows, executions, order, failures and approvals |
| MigrationLaws.RunKeepsInv | apps/api/src/migrations.ts:313-616 | it holds in every reachable state |
| MigrationLaws.DisorderOnlyPastFailures | apps/api/src/migrations.ts:466-505 | if a lower version commits after a higher one, it was there and failed when the higher one executed |
| MigrationLaws.CommitsAreSeen | apps/api/src/migrations.ts:466-505 | every execution finds as applied every row committed before it |
| MigrationLaws.DisorderIffFailedBefore | apps/api/src/migrations.ts:466-505 | of two committed versions the lower commits after the higher if and only if it had failed when the higher one executed |
| MigrationLaws.NoFailureNoDisorder | apps/api/src/migrations.ts:466-505 | if no transaction fails, committed versions strictly increase and pending versions exceed applied ones |
| MigrationLaws.DisorderHappens | apps/api/src/migrations.ts:601-616 | with a failure, a reset and a later apply, such a run exists |
| MigrationLaws.DisorderCanBeCompleted | apps/api/src/migrations.ts:399-616 | from every reachable state with a failed version below an applied one, some run commits the lower after the higher |
| MigrationLaws.CommitsAreUniqueAndStored | apps/api/src/migrations.ts:476-505 | a row commits at most once, and what is executed is what its row holds |
| MigrationLaws.AppliedRowsAreFinal | apps/api/src/migrations.ts:399-423 | an applied row is never changed or removed afterwards |
| MigrationLaws.RowsComeFromCreation | apps/api/src/migrations.ts:313-352 | project, version, environment, statements, checksum and destructiveness of a row are those of a permitted creation |
| MigrationLaws.ProductionNeedsItsOwnApproval | apps/api/src/migrations.ts:514-540 | every agent execution against production has its own consumed approval, of that token, path and checksum |
| ApplyLaws.ResolvedByFields | apps/api/src/migrations.ts:642-684 | an environment is known, and production, by label or by the branch of the first listing of its label |
| ApplyLaws.ExecutesIff | apps/api/src/migrations.ts:466-599 | a migration is executed if and only if the row is in turn and unchanged, the caller may touch the target, and the gate is open by scope or by a usable approval; and what that leaves |
| ApplyLaws.HeldIff | apps/api/src/agents.ts:305-397 | it is held, and an approval asked for, if and only if the gate is shut, an approval would open it and none is presented |
| ApplyLaws.EveryExecutionWasAllowed | apps/api/src/migrations.ts:466-599 | over every run each execution met all of that at its moment |
| ApplyLaws.DestructiveNeedsScopeOrApproval | apps/api/src/migrations.ts:729-741 | every agent execution of a destructive migration, in any environment, used up its own approval or was outside production with the scope; other agent work outside production, and a human's, uses none |
| ApplyLaws.ProductionNeedsStanding | apps/api/src/migrations.ts:686-727 | every execution against production was by an administrator of it, or by an agent given that environment by name |
| ApplyLaws.UsedApprovalsWentTheirWay | packages/agents/src/service.ts:242-310 | every approval used up was asked for, approved and used, in that order and within 24 hours of asking |
| ApplyLaws.ApprovalStep | packages/agents/src/service.ts:242-310 | all a move can do to an approval: ask, approve, reject, expire or consume it |
| ApplyLaws.CreatedSo | apps/api/src/migrations.ts:313-352 | what a creation stores, and when it stores nothing |
| ApplyLaws.ReopenedAndDroppedIff | apps/api/src/migrations.ts:399-423 | a permitted reset reopens failed rows only, a permitted discard removes rows not applied only |
| Registry.MemoryRegistry.DeleteProject | apps/api/src/registry.ts:258-262 | project, database and credential of that project go, nothing else |
| Registry.MemoryRegistry.UpdateDatabaseStatus | apps/api/src/registry.ts:295-304 | only the status of that database changes, and only if it is there |
| Registry.MemoryRegistry.RecordAudit | apps/api/src/registry.ts:320-333 | one entry is appended, numbered by the counter |
| Registry.MemoryRegistry.PruneAuditLogs | apps/api/src/registry.ts:339-345 | keeps exactly the recent entries and those of other organizations, in order; pruned + kept = before |
| Registry.MemoryRegistry.SaveCredential | apps/api/src/registry.ts:306-308 | what a later read gives back: the same credential, unless it is empty under a key |
| Registry.MemoryRegistry.GetCredential | apps/api/src/registry.ts:310-314 | nothing if there is no record, else the record decrypted or the reason it cannot be |
| Retention.DrainRetentionOnce | apps/api/src/worker.ts:194-217 | the organizations visited one by one leave exactly the entries that survive every cutoff at once; pruned + remaining = previous |
| Retention.RetentionIsExact | apps/api/src/worker.ts:194-217 | an entry stays if and only if its organization is not visited or it is recent enough; order kept, whatever the visiting order |
| Retention.CutoffIsClamped | apps/api/src/worker.ts:194-210 | between 7 and 365 days are kept |
| Retention.RetentionByPolicy | apps/api/src/worker.ts:194-210 | the organization's own number of days counts, within 7 to 365, and 90 where it has none |
| LogDrains.OrderByTime | apps/api/src/worker.ts:239 | the entries in time order, nothing added or lost |
| LogDrains.MemoryDrains.SetStatus | apps/api/src/platform-ops.ts:532-536 | a null cursor keeps the old one |
| LogDrains.TakeTurn | apps/api/src/worker.ts:242-270 | one drain's turn: batch, delivery, status, cursor, and its tallies; other drains untouched |
| LogDrains.DrainLogsOnce | apps/api/src/worker.ts:230-278 | every drain takes exactly its own turn whatever becomes of the others; shipped is what the endpoints gained, failed the drains left in error |
| LogDrainLaws.BatchIsDue | apps/api/src/worker.ts:246-253 | a batch is the first 100 due entries in time order |
| LogDrainLaws.NextKeepsInv | apps/api/src/worker.ts:242-270 | everything accepted lies at or before the cursor, each entry once |
| LogDrainLaws.NothingIsDeliveredTwice | apps/api/src/worker.ts:230-278 | over any run of appends, prunes, refusals and deliveries no entry is accepted twice |
| LogDrainLaws.CycleStaysInStep | apps/api/src/worker.ts:246-261 | with increasing times an accepted cycle advances by min(100, remaining), a refused one by none |
| LogDrainLaws.DeliveredIsAPrefix | apps/api/src/worker.ts:230-278 | with increasing times, and retention dropping nothing still due, what was delivered is always a prefix of the drain's share of all that was ever appended |
| LogDrainLaws.DeliveredIsOwn | apps/api/src/worker.ts:244-252 | in every run each entry delivered was appended, is of the drain's organization or of none, and of its project if it has one |
| LogDrainLaws.OwnIsDelivered | apps/api/src/worker.ts:244-262 | in an orderly run exactly such entries make up the share, and each is delivered once the accepted cycles, of 100 each, have reached it |
| LogDrainLaws.TurnReports | apps/api/src/worker.ts:253-280 | a drain is left in error if and only if it had something to send and it was refused |
| LogDrainLaws.PrunedUnsentForGood | apps/api/src/worker.ts:194-217 | what retention drops before it was sent is never sent |
| LogDrainLaws.MissedForGood | apps/api/src/worker.ts:246-253 | an entry passed by the cursor is never delivered later |
| LogDrainLaws.MissedIff | apps/api/src/worker.ts:246-261 | an event makes an entry missed if and only if it appends it at or before the cursor, or accepts a batch that leaves a due entry of the batch's last instant behind |
| LogDrainLaws.NoGapsIff | apps/api/src/worker.ts:230-278 | in every run, prunes included, no entry is ever missed if and only if no event misses one |
| LogDrainLaws.NoGapsAtTheEndIff | apps/api/src/worker.ts:230-278 | without prunes that can be read off the end of the run |
| LogDrainLaws.TieAfterShippingIsMissed | apps/api/src/worker.ts:246-261 | a gap that happens: an entry appended at the instant of one already shipped |
| JobReaper.JobStore.ListByStatus | packages/provisioning/src/jobs.ts:104-109 | jobs of the status, each once, newest first, at most 100; one left out means a full listing with none older; ties in any order |
| JobReaper.ServeJob | apps/api/src/worker.ts:68-123 | one stale job reaped, failed or resumed, with what it changes in the registry and the audit log |
| JobReaper.DrainOnce | apps/api/src/worker.ts:40-126 | one drain is the stale jobs of the two listings served one after another |
| JobLaws.ListingIsServed | apps/api/src/worker.ts:52-66 | no job is listed twice |
| JobLaws.SweptRow | apps/api/src/worker.ts:68-123 | a listed job ends completed if and only if it is no provision job, its provider call succeeds, and its database was there and not deleted by an earlier job of the sweep; otherwise failed |
| JobLaws.SweepCounts | apps/api/src/worker.ts:40-126 | resumed + reaped + failed is the number of jobs served; resumed counts those that resume, reaped the provision jobs |
| JobLaws.DrainCountsTheAbandoned | apps/api/src/worker.ts:40-126 | with at most 100 jobs in each listed status that is the number of stale pending and retrying jobs in the store |
| JobLaws.DatabasesLeft | apps/api/src/worker.ts:102-104 | a database is left if and only if no delete among the jobs served succeeded for its project |
| JobLaws.DatabaseStandsAsResumed | apps/api/src/worker.ts:98-115 | a database that is left is stopped, running or ready as the last job resumed for it says, and untouched if none was |
| JobLaws.ProjectsLeft | apps/api/src/worker.ts:102-104 | project and credential go with the database in a resumed delete, and otherwise stay as they are |
| JobLaws.SweepIsAudited | apps/api/src/worker.ts:76-92 | the audit log gains one entry for each provisioning given up, in order, and nothing else |
| JobLaws.ServedNewestFirst | apps/api/src/worker.ts:52-66 | pending jobs are served before retrying ones, each the newest first |
| JobLaws.OtherProjectsUntouched | apps/api/src/registry.ts:258-304 | only projects that own a stale job change |
| JobLaws.OnlyAbandonedJobsChange | apps/api/src/worker.ts:28-66 | fresh, terminal and running jobs keep their rows |
| JobLaws.LeftOverIffUnlisted | apps/api/src/worker.ts:52-66 | of the stale jobs exactly the unlisted ones are left over |
| JobLaws.ReachedUnlessHundredAreNewer | packages/provisioning/src/jobs.ts:104-109 | a stale job is listed if fewer than 100 others of its status are no older, and not if 100 are newer |
| JobLaws.NothingAbandonedIsLeft | apps/api/src/worker.ts:40-126 | with at most 100 jobs in each listed status no stale pending or retrying job is left |
| Query.MatchingIsOneFilter | apps/api/src/data.ts:155-179 | filtering clause by clause keeps exactly the rows that pass every clause, in their order |
| Query.CellsCompareBothWays | apps/api/src/data.ts:190-194 | turning a comparison round turns its answer, if and only if the cells are not one absent and one null |
| Query.ComparatorIsTotalPreorder | apps/api/src/data.ts:186-197 | over comparable columns the multi-key comparator is total and transitive |
| Query.SortedIsAnOrderedPermutation | apps/api/src/data.ts:180-198 | before slicing: an ordered permutation of the matching rows, stable, if the cells of those rows are comparable |
| Query.EmptyComesLast | apps/api/src/data.ts:191-192 | empty cells of the first key come last in both directions |
| Query.SelectIsASliceOfTheUnpaged | apps/api/src/data.ts:199-209 | a page is the slice of the unpaged result, projection included |
| QueryLaws.SortedByItsKeys | apps/api/src/data.ts:180-198 | the sorted rows are the passing rows of the table: at the first key on which two differ the empty cell is later, else the smaller first or, descending, the larger; full ties as stored |
| QueryLaws.TextIsTested | apps/api/src/data.ts:275-297 | text cells are compared as text |
| QueryLaws.NumbersAreTested | apps/api/src/data.ts:275-297 | other cells are compared as numbers, and fail against what is none |
| QueryLaws.WordsAreTested | apps/api/src/data.ts:167-172 | what `is` means for empty, present, true and false |
| QueryLaws.MembersAreTested | packages/api-engine/src/query-builder.ts:129-132 | `in` takes the first fifty values |
| QueryLaws.PatternsAreTested | apps/api/src/data.ts:290-294 | patterns are matched against the text of the cell, `ilike` without regard to case |
| QueryLaws.PageByPlace | apps/api/src/data.ts:199-209 | which rows a page has, and which cells of them |
| QueryLaws.AcceptedIff | packages/api-engine/src/query-builder.ts:169-194 | what a list may ask for |
| DataPlane.FindsTheFirst | apps/api/src/data.ts:479 | the scoping lookup finds the first listed table that has the reference for a name, and no other |
| DataPlane.FakeDataBackend.Insert | apps/api/src/data.ts:212-232 | the row is appended to its table, or is the first of it; no other table changes |
| DataPlane.FakeDataBackend.Update | apps/api/src/data.ts:234-254 | the first row with the identifier gets the fields; no other row and no other table changes |
| DataPlane.FakeDataBackend.Remove | apps/api/src/data.ts:256-269 | the first row with the identifier goes; no other table changes |
| DataPlane.DataPlane.List | apps/api/src/data.ts:869-896 | of the table the reference is resolved to, the query with the owner filter of the table found by name, or the first objection to it |
| DataPlane.DataPlane.Get | apps/api/src/data.ts:917-921 | the first row with the identifier if the caller may see it, else not found |
| DataPlane.DataPlane.Create | apps/api/src/data.ts:897-910 | the body with the owner forced by the table found by name, checked against and stored in the one resolved, or the refusal |
| DataPlane.DataPlane.Update | apps/api/src/data.ts:922-937 | the checks in order, then the allowed fields on the row found |
| DataPlane.DataPlane.Delete | apps/api/src/data.ts:938-945 | the row found goes, if the caller may see it |
| DataPlane.DataPlane.Import | apps/api/src/data.ts:815-866 | the header checked against the table found by name; the rows stored and the failures reported, and what the table resolved gains |
| DataPlane.DataPlane.Pages | apps/api/src/data.ts:752-784 | for every page size the loop ends with exactly the first 10000 rows of the unpaged result, truncated if and only if there are 10000 or more |
| DataPlane.DataPlane.Export | apps/api/src/data.ts:753-784 | the same for the scoped query and the configured page size |
| DataLaws.ResolvedByNames | packages/api-engine/src/query-builder.ts:44-55 | a plain name stands for the table of `public`, `schema.name` for that one, and nothing else is a reference |
| DataLaws.BodyAcceptedIff | packages/api-engine/src/query-builder.ts:206-230 | 1 to 50 known columns, no text over 100000 characters |
| DataLaws.CreatedSo | apps/api/src/data.ts:499-521 | what a creation stores, with the owner forced where the reference is scoped, and refused where it names another |
| DataLaws.UpdatedSo | apps/api/src/data.ts:499-521 | what an update sets, and that naming another owner is refused |
| DataLaws.ReadSo | apps/api/src/data.ts:484-492 | a row is read if it is there and says of no other owner |
| DataLaws.ExportedSo | apps/api/src/data.ts:753-784 | the first 10000 rows, flagged from 10000 on |
| DataLaws.ExportAcceptedIff | apps/api/src/data.ts:759-771 | an export is refused exactly where a list of one row would be, whatever page size is configured |
| DataLaws.OwnerReadings | apps/api/src/data.ts:477-521 | for an identifier the loose filter, the text comparison and the stored value agree on who owns a row |
| DataLaws.AloneIsScoped | apps/api/src/data.ts:477-482 | a table with an owner column that is the only listed one of its name is scoped under that name |
| DataLaws.QualifiedIsUnscoped | packages/api-engine/src/query-builder.ts:44-55 | by `schema.name` every listed table with plain names is resolved and none is scoped |
| DataLaws.ShadowedIsUnscoped | apps/api/src/data.ts:477-482 | nor is a table of `public` by its plain name if one of that name without an owner column is listed first |
| DataLaws.ArchiveHidesPublic | packages/database/src/project-db.ts:228-233 | listed in the order of schemas, archive.posts does so to public.posts |
| DataLaws.UpdateKeepsOwners | apps/api/src/data.ts:499-521 | an update by a scoped reference (the first listed table of that very name has an owner column), or one that says nothing else about the owner, leaves the owner of every row as it was |
| DataLaws.NextKeepsOthers | apps/api/src/data.ts:753-945 | a request that leaves ownership (another table, a scoped reference, a refusal, or no other owner named; an import that accepts no row; reads and deletes always) changes, adds, removes or reorders no row of others |
| DataLaws.RunKeepsOthers | apps/api/src/data.ts:753-945 | nor does any run of such requests, at any step |
| DataLaws.RunKeepsOthersIff | packages/api-engine/src/query-builder.ts:44-55 | a run, by any references, keeps the rows of others in a table whatever it holds if and only if each of its requests leaves ownership |
| DataLaws.WritesLeaveOwnershipIffScoped | apps/api/src/data.ts:499-521 | creates and updates leave ownership, whatever they carry, if and only if the reference is scoped; deletes always do |
| DataLaws.ImportsLeaveOwnershipIff | apps/api/src/data.ts:827-853 | imports do if and only if the reference is scoped, or names no listed table, or one with no column in common with the table written to |
| DataLaws.UnscopedWritesReachOthers | apps/api/src/data.ts:499-521 | under a reference that is not scoped a row can be made for another owner, and one's own given away |
| DataLaws.ReadsOwnRowsOnly | apps/api/src/data.ts:477-482 | under a scoped reference lists and exports are computed from the caller's own rows alone, and select only those |
| DataLaws.AnsweredIsAnswered | packages/api-engine/src/query-builder.ts:169-194 | what the list and export routes answer is the projection of the rows the next two speak of |
| DataLaws.AnswersAreMine | apps/api/src/data.ts:753-945 | every row a request that leaves ownership hands back, before projection, is the caller's own; lists and exports by a scoped reference |
| DataLaws.RunAnswersAreMine | apps/api/src/data.ts:753-945 | so it is after every run that leaves ownership |
| DataLaws.ReadsAreMineIffScoped | apps/api/src/data.ts:477-482 | the list route, and the export route, answer only projections of the caller's own rows, whatever the query and the table hold, if and only if the reference is scoped |
| DataLaws.RunReadsAreMine | apps/api/src/data.ts:753-896 | so they do after every run that leaves ownership, while the rows of others are all still there |
| DataLaws.WriteAnswersAreMineIff | apps/api/src/data.ts:484-521 | reads by identifier, creates, updates and deletes hand back only the caller's rows, whatever the table holds, if and only if they leave ownership |
| DataLaws.FoundIsMine | apps/api/src/data.ts:484-492 | a row read by identifier is the caller's own |
| DataLaws.GetReadsOwnRowsIff | apps/api/src/data.ts:917-921 | it is computed from the caller's rows alone if and only if no row of another precedes the caller's first row with that identifier |
| DataLaws.ConfinedIffScoped | apps/api/src/data.ts:477-482 | a list is a function of the caller's own rows if and only if the reference is scoped |
| DataLaws.ImportAccounts | apps/api/src/data.ts:835-853 | below 50 failures every row of the file is either stored or reported |
| DataLaws.ImportReports | apps/api/src/data.ts:846-850 | each report carries the line and the refusal of that row, in the order of the file |
| Base64Url.RoundTrip | apps/api/src/credential-crypto.ts:22-28 | decoding inverts encoding for all byte strings (section 5 of RFC 4648, without padding) |
| Base64Url.NoDot | apps/api/src/credential-crypto.ts:22-28 | an encoded field contains no dot, and is empty only for no bytes |
| Base64Url.KnownEncodings | apps/api/src/credential-crypto.ts:22-28 | the test values of RFC 4648 (section 10), and the two characters of this alphabet |
| Credentials.DecryptInvertsEncrypt | apps/api/src/credential-crypto.ts:17-42 | decryption gives the plaintext back if and only if it is not empty; the empty one is a malformed envelope |
| Credentials.LegacyPlaintext | apps/api/src/credential-crypto.ts:30-31 | text without the prefix is returned unchanged |
| Credentials.ReadsBackIff | apps/api/src/credential-crypto.ts:17-42 | what is written with or without a key is read back, with that key or none, if and only if the key is there and the text not empty, or no key was used and the text has no envelope prefix |
| Credentials.EnvelopeLooksSo | apps/api/src/credential-crypto.ts:17-28 | the prefix, and the three printed fields between dots |
| Credentials.StoredReadsSo | apps/api/src/credential-crypto.ts:30-42 | what is read of any stored text, and each way it is refused |
| Sessions.SessionCache.IssueSession | apps/api/src/platform-auth.ts:1016-1062 | the session signed, and put last on the list of the last twenty |
| Sessions.SessionCache.RevokeAll | apps/api/src/platform-auth.ts:1564-1567 | the loop denies every listed session |
| Sessions.SessionCache.RevokeOthers | apps/api/src/platform-auth.ts:1238-1258 | every other listed session denied, the list cut to the one kept, and the count returned |
| Sessions.SessionCache.Logout | apps/api/src/platform-auth.ts:1607-1645 | a live session denied until it expires of itself and taken off the list |
| Sessions.RevokedExactlyIfListed | apps/api/src/platform-auth.ts:1186-1232 | after revoking all, a session lives if and only if it did before and was not listed |
| Sessions.OthersRevokedExactlyIfListed | apps/api/src/platform-auth.ts:1238-1258 | the same when one session is kept |
| Sessions.TheListIsTheLast20 | apps/api/src/platform-auth.ts:1049-1055 | the list holds the last twenty sign-ins |
| Sessions.TheTwentyFirstHidesTheFirst | apps/api/src/platform-auth.ts:1049-1055 | after twenty-one the first session outlives a revocation of all |
| Accounts.MemoryPasswordResets.FindUsable | apps/api/src/platform-auth.ts:444-449 | found if and only if stored, not consumed and not expired |
| Accounts.MemoryPasswordResets.DeleteForUser | apps/api/src/platform-auth.ts:456-460 | exactly the rows of that user go |
| Accounts.PlatformAuth.Login | apps/api/src/platform-auth.ts:1437-1508 | refusal, ticket, setup ticket or session, and the whole new state |
| Accounts.PlatformAuth.MfaVerify | apps/api/src/platform-auth.ts:1575-1605 | ticket, one-time code, backup code, and the whole new state |
| Accounts.PlatformAuth.Enroll | apps/api/src/platform-auth.ts:1703-1722 | a new secret, not yet in force |
| Accounts.PlatformAuth.Confirm | apps/api/src/platform-auth.ts:1724-1748 | the second factor in force with new codes; a session only for a setup ticket |
| Accounts.PlatformAuth.Disable | apps/api/src/platform-auth.ts:1750-1770 | secret and codes gone |
| Accounts.PlatformAuth.Forgot | apps/api/src/platform-auth.ts:1515-1539 | the same answer whether or not the address is known |
| Accounts.PlatformAuth.ResetPassword | apps/api/src/platform-auth.ts:1547-1573 | the new password, no token of the user left, every listed session denied, or nothing at all |
| Accounts.PlatformAuth.ChangePassword | apps/api/src/platform-auth.ts:1670-1700 | the new password and every other listed session denied |
| Accounts.PlatformAuth.VerifySession | apps/api/src/sessions.ts:24-38 | signature, expiry, denylist and suspension |
| AccountLaws.ResetSpendsAll | apps/api/src/platform-auth.ts:1547-1573 | a reset needs a token of that user and removes all of them; only that user's password changes |
| AccountLaws.ResetTokensWorkOnce | apps/api/src/platform-auth.ts:437-461 | in every run a reset token sets a password at most once |
| AccountLaws.EarlierTokensAreUseless | apps/api/src/platform-auth.ts:1541-1563 | after a reset no token handed out to that user before is ever of use |
| AccountLaws.RedeemedForItsUser | apps/api/src/platform-auth.ts:1575-1605 | a ticket yields a session of the user it was minted for only, in time, and is spent by it |
| AccountLaws.TicketsWorkOnce | apps/api/src/platform-auth.ts:1724-1748 | in every run an MFA or setup ticket yields at most one session |
| AccountLaws.AcceptedCodeIsRemoved | apps/api/src/platform-auth.ts:1588-1596 | the set of codes shrinks on use, by that code only |
| AccountLaws.RegeneratesNewCodes | apps/api/src/platform-auth.ts:1735-1737 | a confirmation that is not refused replaces the codes by the new ones |
| AccountLaws.RefusedChangesNothing | apps/api/src/platform-auth.ts:1724-1734 | a refused request, a mistyped confirmation among them, changes nothing |
| AccountLaws.CodesOnlyShrink | apps/api/src/platform-auth.ts:1588-1596 | between two successful confirmations no event adds a code |
| AccountLaws.BackupCodesWorkOnce | apps/api/src/platform-auth.ts:1588-1596 | within a generation a backup code is accepted at most once |
| AccountLaws.PasswordAloneIsNotEnough | apps/api/src/platform-auth.ts:1487-1494 | in every reachable state a password login of a user with the second factor on issues no session |
| AccountLaws.FactorIsPassedByIff | apps/api/src/platform-auth.ts:1161-1176 | with the factor on, a run that rests neither on it nor on a session of the user can sign the user in if and only if an unexpired setup ticket of the user is outstanding |
| AccountLaws.EnrollingSwitchesOff | apps/api/src/platform-auth.ts:1703-1722 | after an enrolment that is not confirmed the password alone signs in |
| GateLaws.IdentifiedIffInForce | apps/api/src/sessions.ts:24-38 | a session is taken for its user exactly while it has not run out, no denial of it is in force and the user is not suspended |
| GateLaws.ServedIffInForce | apps/api/src/platform-auth.ts:1161-1176 | every request made on a session is served exactly if the session is in force and the rest is granted, and otherwise refused with nothing changed |
| GateLaws.StoppedIsRefusedForGood | packages/auth/src/index.ts:142-155 | once a session has run out or a denial of it is recorded, every request showing it is refused, in every run |
| GateLaws.DeniedIffStopped | apps/api/src/platform-auth.ts:1186-1258 | a denial is recorded exactly by signing out, revoking it, revoking others, changing the password or resetting it while it is listed |
| GateLaws.StoppedSessionsAreRefused | apps/api/src/platform-auth.ts:1186-1258 | so after any of these every later request showing the session is refused |
| GateLaws.ResetShutsOut | apps/api/src/platform-auth.ts:1547-1573 | with at most 20 sessions issued, after a reset that holds for each of them |
| GateLaws.DenialsLast | apps/api/src/platform-auth.ts:1186-1200 | how long the denials last |
| GateLaws.IssuedIffEarned | apps/api/src/platform-auth.ts:1437-1605 | a session is issued exactly for a sign-up, a right password with nothing more to ask, a second factor or a completed setup, and runs for the lifetime |
| GateLaws.EverySessionWasEarned | apps/api/src/platform-auth.ts:1016-1062 | in every run each session was earned so by its user at the moment it was issued |
| GateLaws.TicketsMintedIff | apps/api/src/platform-auth.ts:1487-1500 | a right password is answered with a ticket exactly if the factor is on, with a setup ticket if one is only required |
| GateLaws.TicketsLastMinutes | apps/api/src/platform-auth.ts:1487-1500 | in every run a ticket serves its user for five minutes, a setup ticket for ten |
| GateLaws.ResetTokensLast | apps/api/src/platform-auth.ts:437-461 | in every run a reset token serves the user it was asked for, and only within its time |
| GateLaws.ForgotAnswersAlike | apps/api/src/platform-auth.ts:1515-1539 | the answer is the same for every address, a token stored for a known one only |
| GateLaws.AccountChangesSo | apps/api/src/platform-auth.ts:1547-1770 | every change of password, second factor, codes and suspension, what it takes, and that nothing else changes them |
| SessionLaws.NextKeepsInv | apps/api/src/platform-auth.ts:1016-1062 | index and denylist records outlast the sessions they cover, and up to twenty sessions of a user are all accounted for |
| SessionLaws.StoppedForGood | packages/auth/src/index.ts:142-178 | a session once stopped is never live again |
| SessionLaws.ResetStopsAll | apps/api/src/platform-auth.ts:1547-1573 | with at most 20 sessions issued to the user a reset stops every one |
| SessionLaws.NoSessionSurvivesAReset | apps/api/src/platform-auth.ts:1541-1573 | from a new system, while the user has been issued at most 20 sessions, none issued before a reset is live at any moment after it |
| SessionLaws.LiveAfterResetIffUnlisted | apps/api/src/platform-auth.ts:1564-1567 | in general a session lives right after the reset if and only if it did before and was not listed |

## Left out

- HTTP parsing, JSON envelopes, schemas, logging, CORS, cookies, metrics and the dashboard: no hard property.
- Drizzle adapters and SQL: the memory stores are modelled. In particular the Drizzle drain store writes a null cursor through, so the shipping theorems are about the memory store.
- Sub-request races between awaits and store failures after a commit: every request is one step.
- WAF rules, CAPTCHA, mail, OIDC sign-in, DNS, signatures of deliveries, cryptographic primitives: verdicts or abstract functions. The single sign-on callback issues the same tickets and sessions as a password login.
- API keys, roles, agents' activity log, search, OpenAPI, billing and backup drains: easy members or plumbing.
- Query text: queries are structured clauses. Characters are Dafny characters, so strings compare by code point where the program compares UTF-16 units; numbers in cells are reals, NaN and infinities excluded. Pattern matching and number reading are parameters.
- DataPlane.FakeDataBackend.Update: every table has the primary key `id`; the in-memory engine answers for the schema `public` only, while the model keeps rows for every schema, as the database does.
- DataPlane.DataPlane.Export: the CSV text and its header line are not modelled.
- DataPlane.BodyObjection: which of several bad fields a refusal names follows the order of the body and is not modelled; nor are object-valued fields and the body size limit.
- DataPlane.DataPlane.Import: starts from the parsed file; the CSV grammar is not modelled.
- JobReaper.ServeJob: error texts, attempts and the clean-up of stored objects after a delete are not modelled.
- LogDrains.MemoryDrains.Create: address, secret and events of a drain are not modelled, since shipping does not consult them.
- Accounts.PlatformAuth.Signup: the address is taken to be new; uniqueness of addresses and renaming are not modelled.
- Sessions.SessionCache.Logout: the second denylist record, by token fingerprint, is not modelled, since every session carries an identifier.
- Base64Url.Decode: characters outside the alphabet are skipped, as the platform's decoder does; round trips are stated for encoded text.
- TtlCache.Cache.Set: a lifetime of zero, which Redis treats as no expiry, is not modelled.
