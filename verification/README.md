# A verified model of the Libris hub

MoE Libris is a hub for federated knowledge. Nodes push bundles of entities and
relations; each bundle is audited and queued; an administrator approves or refuses it;
approved bundles are committed to a global graph; nodes pull what is new. This project
models the hub as one state machine (node records, audit queue, graph, expiring
key-value store) whose steps are the endpoint handlers, and proves what every run of it
keeps.

| file | content |
|---|---|
| `Common.dfy` | options, results, facts about sets and sequences |
| `Timestamps.dfy` | UTC datetimes, `isoformat`, string order is time order |
| `Calendar.dfy` | the calendar and elapsed time against literal data; ISO strings read back |
| `Schemas.dfy` | bundles, schema limits, allow-list, validation rules |
| `PreAudit.dfy` | the two pre-audit stages against a declarative predicate |
| `Graph.dfy` | MERGE statements, `commit_bundle` on a mutable store, partial failure |
| `GraphTheory.dfy` | first-writer refinement, retries, repeats, order, counters, shape |
| `BundleCommits.dfy` | what a committed bundle leaves, over the raw fields of its items and relations |
| `Pull.dfy` | the two pull queries, cursor, completeness flag, response bundle |
| `RoundTrip.dfy` | export of a whole graph and import into an empty one |
| `Sync.dfy` | one client pulling incrementally while commits go on |
| `Abuse.dfy` | strikes and rate limits on keys that expire, budgets per node |
| `Hub.dfy` | the state machine: state, handlers as functions, runs |
| `HubInvariants.dfy` | the invariants of every reachable state |
| `AuditRuns.dfy` | whole runs of the audit workflow: fold, provenance, retries |
| `AbuseRuns.dfy` | bounds on one node over any timed run of the hub |
| `Conservation.dfy` | accepted counts against graph contents |
| `Lifecycle.dfy` | handshakes, keys, standing and statistics over runs |
| `AbuseWitnesses.dfy` | runs that reach the bound on failed pushes; what the fixed window lets through |
| `ClientRuns.dfy` | incremental sync and audit-clean closure end to end |
| `PullFailures.dfy` | which pulls end in an error, for which runs, and what that does to clients |
| `Endpoints.dfy` | what every endpoint answers and changes, in every reachable state |
| `Service.dfy` | the handlers as methods over mutable records |

Code that changes things step by step is modelled by methods on classes (`GraphStore`,
`Valkey`, `Database`, `HubService`), each proved to make exactly the step a pure function
describes; the theorems are about those functions and hold for every run. The regex scan
and `upper()` are parameters (`RuleSet`); the only thing assumed about them is that
allowed predicates are upper-case already and match no pattern (`Sound`). The database
may answer a pull's query with any page that fits the filter, the order and the limit, so
ties come in any order; a driver may fail a commit after any number of statements.

Places where the code does less than its comments or documentation say are stated as
lemmas: the strike window is fixed, not sliding (`Abuse.StrikeWindowIsFixed`), so that six
failed pushes within a day, five of them within a second, need not block
(`AbuseWitnesses.FiveFailuresInOneSecond`); 120 pushes can pass in one hour, not 60
(`Abuse.RateBoundIsTight`); the "syntax" strike category is never used (`AbuseRuns.ReachableStrikes`); commit counters count mentions, not creations
(`GraphTheory.CountersAreCreations`, `GraphTheory.SameTickCountsTwice`); one push adds two to
`total_pushes` once approved (`Lifecycle.StatisticsMeaning`); a commit larger than the page
limit loses its tail for an incremental client (`Sync.BigCommitLosesRest`); a late relation
between entities already delivered never arrives (`Sync.LateRelationsNeverArrive`);
`has_more` is raised although the page was complete when exactly `limit` entities match
(`Pull.HasMoreMeans`); with limit 0 it is always raised (`Pull.ZeroLimitNeverEnds`); a refused
bundle can be in the graph (`AuditRuns.RefusedBundleCanStay`); a failed commit is never
credited (`Conservation.FailedCommitIsNotCredited`); a pull may ask for 10000 entities but
no response may hold more than 5000, so larger pulls fail once more than 5000 match
(`PullFailures.LargePullFails`); and an entity pushed with a null type passes the audit but
breaks every later pull that lists it as a subject (`PullFailures.BadTypeBreaksPulls`).

## Model

| member | source | states |
|---|---|---|
| Timestamps.IsoOrder | app/services/graph.py:62 | for UTC datetimes with 4-digit years, one `isoformat` string is below another exactly when its instant is earlier, and two are equal exactly when the instants are, with or without a fraction |
| Timestamps.IsoLengthsDiffer | app/services/graph.py:166 | the strings can differ in length, so the equal-digits rule of RFC 3339 does not explain the order |
| Timestamps.FractionOrder | app/services/graph.py:165-166 | a missing fraction sorts below every fraction |
| Timestamps.EarlierYear | app/services/graph.py:62 | a datetime of an earlier year is an earlier instant, leap years included |
| Calendar.CalendarDays | app/services/abuse.py:43-45 | which datetimes there are: the twelve month lengths, 29 February by the century rule, the ranges of the time fields |
| Calendar.ElapsedTime | app/services/abuse.py:43-45 | the clock counts microseconds from the start of year 1, by the closed formula of days per year and month |
| Calendar.NextDay | app/services/abuse.py:43-45 | from one calendar day to the next is 24 hours, across months and years |
| Calendar.NextYear | app/services/abuse.py:43-45 | a year has 366 days if 4 and not 100 divides it, or 400 does, and otherwise 365 |
| Calendar.WholeEras | app/services/abuse.py:43-45 | 400 years have 146097 days, and 1970 starts on day 719162 |
| Calendar.IsoReadsBack | app/services/graph.py:62 | a stored stamp is `YYYY-MM-DDTHH:MM:SS`, perhaps six digits of microseconds, and `+00:00`, and its fields read back to those of the datetime |
| PreAudit.Stage1Syntax | app/services/pre_audit.py:41-71 | notes are exactly the offences of the bundle; passes exactly the well-formed bundles; no note exactly when it passes |
| PreAudit.TripleNotes | app/services/pre_audit.py:54-62 | the notes of one relation are exactly its offences, by index |
| PreAudit.EntityNotes | app/services/pre_audit.py:64-69 | the notes of one entity are exactly its offences, by index |
| PreAudit.OffencesDecideWellFormed | app/services/pre_audit.py:41-71 | a bundle is well-formed exactly when it has no offence |
| PreAudit.CollectTexts | app/services/pre_audit.py:78-84 | the scanned texts are exactly subjects, objects, predicates, names and descriptions |
| PreAudit.PassesIsAcceptable | app/services/pre_audit.py:41-104 | passing means, over the raw fields: caps, lengths, confidence and allowed upper-cased predicates are right, and no pattern finds anything in a subject, object, predicate, name or description |
| PreAudit.ScanText | app/services/pre_audit.py:87-94 | one note for every pattern that finds something in a nonempty text |
| PreAudit.Stage2Heuristics | app/services/pre_audit.py:74-104 | notes are exactly the patterns found in the texts and the predicates not allowed; passes exactly when there are none |
| PreAudit.RunPreAudit | app/services/pre_audit.py:107-135 | `passed` decides the predicate over the raw fields and is the same as having no note; notes are those of stage 1, and those of stage 2 if stage 1 had none; a failed bundle always has `heuristic_ok` false |
| Graph.GraphStore.Run | app/services/graph.py:69-89 | one statement sets attributes only on what it creates and reports whether its element carries the commit's stamp |
| Graph.GraphStore.CommitEntities | app/services/graph.py:68-89 | the entity loop applies the statements of the list in order, up to the failure |
| Graph.GraphStore.CommitRelations | app/services/graph.py:92-133 | the relation loop skips disallowed predicates and applies the rest in order, up to the failure |
| Graph.GraphStore.CommitBundle | app/services/graph.py:54-141 | a commit applies all statements of the bundle and returns the counters, or applies a prefix and raises |
| GraphTheory.LookupAfter | app/services/graph.py:66-133 | after any stream of statements every lookup gives the old element or else the first mention |
| GraphTheory.FirstWriterWins | app/services/graph.py:69-111 | from the empty graph an entity exists exactly when mentioned and has the attributes of its first mention; endpoints get no domain, a self-loop takes the subject's type |
| GraphTheory.FirstRelationWins | app/services/graph.py:112-118 | the same for relations, by (subject, type, object) |
| BundleCommits.CommittedEntity | app/services/graph.py:66-111 | after committing a bundle, a new entity has the type and domain of the first item that names it, "Unknown" and "general" for missing keys and nothing for null, or else the type the first allowed relation naming it gives, and no domain; old ones are untouched and no other is made |
| BundleCommits.CommittedRelation | app/services/graph.py:92-118 | a new relation has the confidence and domain of the first relation with its subject, upper-cased allowed predicate and object; no other is made |
| GraphTheory.ApplyGrows | app/services/graph.py:69-118 | nothing disappears and no attribute changes |
| GraphTheory.RecommitDoesNothing | app/services/graph.py:68-138 | committing a bundle again changes nothing, and counts (0, 0) exactly when none of its elements carries the new stamp |
| GraphTheory.SameTickCountsTwice | app/services/graph.py:79 | within one tick a repeat is counted as a creation |
| GraphTheory.OrderDoesNotMatter | app/services/graph.py:68-133 | two commits in either order leave the same entity names and relation keys |
| GraphTheory.RetryConverges | app/services/graph.py:66-141 | any failed attempts followed by a complete one give the graph of one uninterrupted commit, up to `approved_at` |
| GraphTheory.AttemptStaysOnTheWay | app/services/graph.py:139-141 | a failed attempt leaves old elements alone and makes new ones as the full commit would |
| GraphTheory.FreshCounters | app/services/graph.py:87-89 | with an unused stamp the counters are the numbers of statements whose element was new |
| GraphTheory.CountersAreCreations | app/services/graph.py:131-138 | the counters equal the numbers of elements created exactly when the bundle repeats no new element |
| GraphTheory.WriteKeepsShape | app/services/graph.py:106-118 | one statement keeps endpoints present and no later than their relations |
| GraphTheory.ShapeKept | app/services/graph.py:66-133 | so does any part of a commit at a time no earlier than the graph |
| GraphTheory.PerformedStmts | app/services/graph.py:93-99 | a commit performs all statements of the bundle, or, when it fails, the first so many; all have allowed types |
| Pull.PageExists | app/services/graph.py:175-184 | every query has an answer of the required form |
| Pull.HasMoreMeans | app/services/graph.py:226 | `has_more` is raised exactly when at least `limit` entities match; false means the page is complete |
| Pull.CursorSplits | app/services/graph.py:164-182 | the new cursor splits the matches into listed, cut off on a tie, and still to come |
| Pull.DrainShrinks | app/services/graph.py:164-182 | with a positive limit, `has_more` means a nonempty page and at least `limit` fewer matches above the new cursor |
| Pull.DrainEnds | app/services/graph.py:226 | n pulls in a row that all say there is more need n times `limit` matches, so the loop ends on a fixed graph |
| Pull.ZeroLimitNeverEnds | app/services/graph.py:226 | with limit 0 any number of pulls all say there is more |
| Pull.PullSince | app/services/graph.py:144-230 | fails exactly for a negative limit; otherwise returns the rows of the page and of the join, which serve the request by cursor, domain list and limit |
| Pull.AnswerServes | app/services/graph.py:161-227 | over the rows: those listed are wanted by cursor and domain list, as the graph has them, oldest first, each once; a wanted one is missing only at the limit; the relation rows are those of the listed subjects; total and flag are right |
| Pull.RelationsFollowSubjects | app/services/graph.py:195-219 | a relation is omitted precisely when its subject is not on the page |
| Pull.PulledBundlePasses | app/api/federation.py:154-160 | a bundle pulled from an audited graph passes the pre-audit exactly within the caps and with a hub id |
| Pull.PulledBundleFits | app/models/schemas.py:40-61 | it fits the response schema exactly when lists and hub id are short enough and endpoint types are present and short |
| RoundTrip.FullPullIsComplete | app/services/graph.py:144-227 | an unfiltered pull with a limit no smaller than the graph returns every entity and relation once |
| RoundTrip.ExportedStmts | app/services/graph.py:68-133 | an exported bundle turns into one statement per entity and relation, with a missing domain staying missing |
| RoundTrip.ImportRebuilds | app/services/graph.py:68-227 | committing a full pull into an empty graph rebuilds it up to origin and stamp |
| Sync.PullMovesBehind | app/services/graph.py:164-182 | a pull moves exactly the listed and the cut-off entities behind the cursor |
| Sync.CommitLeavesBehind | app/services/graph.py:62 | a later commit adds nothing behind the cursor |
| Sync.RunKeepsConsistent | app/services/graph.py:144-227 | in any interleaving the cursor has passed exactly what was delivered or lost |
| Sync.LastPullDrains | app/services/graph.py:226 | a pull that says there is no more leaves nothing above the cursor and cuts nothing off |
| Sync.SyncConverges | app/services/graph.py:161-192 | nothing is delivered twice; a drained client holds the matching entities except the lost ones, which never come |
| Sync.CompleteIffNoSplit | app/services/graph.py:180-182 | it holds exactly the matching entities if and only if no page boundary split a group of equal stamps |
| Sync.BigCommitLosesRest | app/services/graph.py:180-182 | one commit larger than the limit loses everything beyond the page |
| Sync.LateRelationsNeverArrive | app/services/graph.py:195-207 | a relation added after its subject was passed is never delivered |
| Abuse.KeyNamesDistinct | app/services/abuse.py:26-28 | different counters never share a key, whatever characters node ids hold |
| Abuse.RecordStrike | app/services/abuse.py:31-47 | increments the counter and gives it the window on the first strike only |
| Abuse.ClearStrikes | app/services/abuse.py:80-84 | deletes exactly the node's three counters |
| Abuse.CheckRateLimit | app/services/abuse.py:87-103 | both modes on the one key: one push per key lifetime when limited, 60 otherwise |
| Abuse.StrikesWeigh | app/services/abuse.py:66-77 | strikes of any category limit a node from the third on; security strikes block from the fourth on, the others from the tenth |
| Abuse.RateCheckSpends | app/services/abuse.py:87-103 | every admission uses up a bounded budget, no refusal adds any |
| Abuse.RateBoundIsTight | app/services/abuse.py:95-103 | two full windows meet: 120 pushes within one hour are admitted |
| Abuse.StrikeWindowIsFixed | app/services/abuse.py:43-45 | a strike sets the expiry a full window ahead exactly when no counter was running, or it already ended there; later strikes leave the expiry alone |
| Abuse.FourthStrikeBlocks | app/services/abuse.py:72-77 | a strike on an unblocked node blocks it exactly when it had three |
| Abuse.FailedPushSpends | app/api/federation.py:38-60 | a failed push, from rate check to strike, uses up a bounded budget; the fourth failure of a window never comes in the moment the window opened |
| HubInvariants.NextKeepsInv | app/api/admin.py:131-305 | every handler keeps the hub's invariants |
| HubInvariants.RunKeepsInv | app/api/federation.py:23-203 | so does every run |
| HubInvariants.CommitKeepsGraphOk | app/services/graph.py:66-141 | committing an audited bundle, whole or cut off, keeps the graph well-shaped, clean and without future stamps |
| HubInvariants.AuditedStmtsAreClean | app/services/pre_audit.py:41-135 | every statement of an audited bundle has clean names, an allowed type and a confidence in range |
| AuditRuns.ReviewIsFinal | app/db/crud.py:201-233 | approved and refused are absorbing; origin and bundle of an entry never change |
| AuditRuns.ApprovedStaysInGraph | app/api/admin.py:137-170 | the whole bundle of an approved entry is in the graph in every later state |
| AuditRuns.GraphIsFold | app/api/admin.py:143-154 | the graph of a run is the fold of the statements its approval attempts performed |
| AuditRuns.WritesComeFromAttempts | app/api/admin.py:143-147 | every statement performed belongs to an attempted entry, under its origin and the attempt's time |
| AuditRuns.EntriesComeFromPushes | app/api/federation.py:80-83 | every entry was queued by an admitted, audited push of the node that authenticated as its origin |
| AuditRuns.EveryElementHasProvenance | app/api/admin.py:145-147 | every entity and relation was written by an attempt at an entry, under that entry's origin and the attempt's time; that origin is the node that authenticated when the entry was pushed |
| AuditRuns.GraphIsApprovedFold | app/api/admin.py:137-164 | without failed commits the graph is the fold of the approved bundles in approval order |
| AuditRuns.ApprovalsAreTheApproved | app/api/admin.py:140-157 | the approvals of a run are exactly the entries that became approved, each once |
| AuditRuns.RetriedApprovalConverges | app/api/admin.py:144-157 | an approval retried until it succeeds, with any steps in between that commit nothing else, leaves the graph of a single successful one, up to `approved_at` |
| AuditRuns.RetryAmongOthers | app/api/admin.py:144-157 | with other entries committed in between, it still leaves the entity names and relation keys of approving at once and committing the others after it |
| AuditRuns.RefusedBundleCanStay | app/api/admin.py:148-185 | after a failed approval a refused entry's bundle can stay in the graph for good |
| AuditRuns.PassedBundleSkipsNothing | app/services/graph.py:93-99 | a commit skips no relation of a bundle that passed the audit |
| AbuseRuns.RateBound | app/services/abuse.py:87-103 | over any run, any closed interval of h hours admits at most 60 (h + 1) pushes of a node, 120 in one hour |
| AbuseRuns.WindowBound | app/services/abuse.py:92-103 | each lifetime of the rate key was opened by a push and admits at most 60 from there to its expiry, that push included, in any mix of modes |
| AbuseRuns.AdmittedIff | app/services/abuse.py:87-103 | a push is admitted if and only if no window of the last hour is open, or the node has fewer than three strikes and fewer than 60 pushes were counted since the window opened |
| AbuseRuns.LimitedAdmissionsAreSpaced | app/services/abuse.py:92-97 | any two pushes admitted under the soft limit are at least an hour apart |
| AbuseRuns.FourthFailureBlocks | app/api/federation.py:49-60 | a failed push blocks the node exactly when it had three live strikes |
| AbuseRuns.FailureBound | app/api/federation.py:37-60 | over any run, any closed interval of d days without an unblock has at most 3 d + 3 failed pushes of a node, 6 in one day |
| AbuseWitnesses.FailureBoundIsTight | app/api/federation.py:37-60 | for every d a run reaches 3 d + 3 failed pushes in d days and its node is never blocked |
| AbuseWitnesses.FiveFailuresInOneSecond | app/services/abuse.py:43-45 | six failures within a day, five of them within a second, leave a node unblocked, against the sliding window the code comment names |
| AbuseRuns.ReachableStrikes | app/services/abuse.py:31-77 | in every reachable state an unblocked node has at most 3 strikes, only the security category is used, and rate keys expire within the hour |
| Conservation.TotalAfterUpdate | app/db/crud.py:129-137 | crediting one node moves the sum over all nodes by that amount |
| Conservation.CreditIsCreation | app/api/admin.py:160-164 | an approval credits the elements it creates plus its repeated mentions |
| Conservation.AcceptedIsConserved | app/api/admin.py:160-164 | over a run without failed commits the accepted counts grow by the relations and listed entities created plus repeated mentions |
| Conservation.AcceptedMatchesGraph | app/services/graph.py:87-138 | from an empty hub they equal relations plus listed entities exactly when no bundle repeats a new element |
| Conservation.DuplicateFreeIsNoRepeats | app/services/graph.py:66-133 | bundles without duplicate names and upper-cased relation keys repeat no new element, in any run |
| Conservation.AcceptedOfDuplicateFree | app/services/graph.py:87-138 | so for such bundles the accepted counts equal relations plus listed entities, and relations plus all entities when endpoints are listed too |
| Conservation.AcceptedMatchesWholeGraph | app/services/graph.py:87-138 | with all endpoints listed they equal relations plus all entities, under the same condition |
| Conservation.EverythingIsListed | app/services/graph.py:106-111 | with all endpoints listed, entity-list statements create every entity |
| Conservation.FailedCommitIsNotCredited | app/api/admin.py:148-164 | after a commit cut off anywhere, the approval that goes through is credited exactly for statements whose element the graph did not have; nothing the failed commit wrote is credited |
| Lifecycle.HandshakeNeverGoesBack | app/db/crud.py:71-86 | pending, accepted, rejected never goes back; a key hash is set at most once |
| Lifecycle.OnlyGoodStandingActs | app/core/security.py:42-71 | pushes and pulls act only for accepted, unblocked nodes and touch only that node's data |
| Lifecycle.RejectedStaysOut | app/api/admin.py:269-283 | a rejected node never gets a push through again |
| Lifecycle.StatisticsMeaning | app/db/crud.py:125-139 | `total_pushes` is queued plus approved entries; `total_triples_rejected` stays 0 |
| ClientRuns.RunIsSyncRun | app/api/federation.py:109-166 | a run of the hub is a valid sync run of each of its clients, on the same graph, where only answered pulls hand out a page |
| ClientRuns.ClientConverges | app/api/federation.py:109-166 | incremental sync over any run of the hub, pulls that fail included: no duplicates, and a drained client is complete if and only if no tie was split |
| ClientRuns.ReceivedIsReplied | app/api/federation.py:147-160 | what a client holds is what the bundles of the hub's replies to it listed, in order; failed pulls add nothing and leave its cursor |
| ClientRuns.LastReplyDrains | app/services/graph.py:226 | an answered pull with `has_more` false drains the client |
| ClientRuns.ReachableGraphIsSound | app/services/graph.py:69-130 | shape, cleanliness and stamps of the graph in every reachable state |
| ClientRuns.ReachablePullPasses | app/api/federation.py:137-160 | what a reachable hub hands out passes the next hub's pre-audit exactly within the caps and with a hub id |
| ClientRuns.ReachableExportRebuilds | app/services/graph.py:144-227 | a full pull of a reachable hub rebuilds its graph elsewhere |
| PullFailures.ReachableReply | app/api/federation.py:109-166 | in every reachable state a pull that passes its checks is answered if and only if hub id, page and join are within the response schema and every joined relation has endpoint types it accepts; otherwise the reply is an error |
| PullFailures.LargePullFails | app/api/federation.py:124 | once more than 5000 entities match, every pull with a limit above 5000 fails, though 10000 is allowed |
| PullFailures.BadTypeBreaksPulls | app/models/schemas.py:40-48 | once a relation has an endpoint type that is missing or too long, every pull that lists its subject fails, in that and every later state |
| PullFailures.BadSubjectIsNeverDelivered | app/models/schemas.py:40-48 | no client ever receives that subject any more, and it can drain only if a split tie lost it the subject |
| PullFailures.BadTypeIsReachable | app/services/graph.py:75-76 | a hub reaches such a state in four requests |
| PullFailures.NullTypeBreaksPull | app/models/schemas.py:40-48 | the smallest case: a bundle with one null type passes schema and audit, and the next full pull fails |
| Endpoints.ReachableGuard | app/core/security.py:42-71 | a push or pull is answered 403 exactly for the key of a blocked accepted node and 401 exactly for a missing, empty or unknown key, in every reachable state |
| Endpoints.PushMeans | app/api/federation.py:23-106 | for a holder in good standing: 422 outside the schema, 429 when not admitted, rejection with a strike when the audit fails, and a block at three; otherwise queued and counted; with the reported sizes, and nothing else changed |
| Endpoints.SchemaIs | app/models/schemas.py:40-62 | the limits of the request schema, field by field |
| Endpoints.AnswerMeans | app/api/federation.py:109-166 | every answered pull of a reachable hub hands out entities of the requested domains stamped after the cursor, oldest first, all or up to the limit of at most 10000, with their relations, total and flag, under the hub's id |
| Endpoints.PullMeans | app/api/federation.py:124-142 | 400 exactly for a domain that is none of the eleven, an error for a negative limit; otherwise the time of the pull is written and nothing else |
| Endpoints.HandshakeMeans | app/api/federation.py:169-203 | registers an unknown node as pending, changes nothing for a known one; the three replies |
| Endpoints.AcceptMeans | app/api/admin.py:226-266 | exactly a pending node is accepted; the key handed out is then held by it and nobody else |
| Endpoints.RejectMeans | app/api/admin.py:269-283 | a known node's status becomes rejected and nothing else changes |
| Endpoints.BlockMeans | app/api/admin.py:286-294 | a known node's flag is set and nothing else changes |
| Endpoints.UnblockMeans | app/api/admin.py:297-305 | the flag and all three strike counters are cleared, nothing else changes, and the key still opens the node |
| Endpoints.BlockedStaysOut | app/db/crud.py:89-112 | from a block on, manual or automatic, every push and pull with the node's key is turned away, up to the next unblock |
| Endpoints.RejectionIsFinal | app/api/admin.py:269-283 | from a rejection on, every push and pull with the node's key is turned away for good |
| Endpoints.UnblockedIsBack | app/api/admin.py:297-305 | right after an unblock an accepted node's key is neither 401 nor 403 and no strike is left |
| Endpoints.ApproveMeans | app/api/admin.py:131-169 | 404, 400 and 500 change no record; otherwise the entry is approved as of now, its bundle committed, and the numbers of new elements reported and credited |
| Endpoints.RefuseMeans | app/api/admin.py:172-185 | an entry in review becomes refused and nothing else changes; anything else is 404 |
| Service.Database.GetNodeByApiKey | app/db/crud.py:19-28 | finds the accepted node that holds the key, if there is one |
| Service.Database.IncrementNodePushStats | app/db/crud.py:125-139 | one more push, the accepted and rejected amounts, and the time |
| Service.Database.ApproveAuditEntry | app/db/crud.py:201-216 | approves exactly an entry in review |
| Service.Database.RejectAuditEntry | app/db/crud.py:219-233 | refuses exactly an entry in review |
| Service.HubService.GetCurrentNode | app/core/security.py:42-71 | 401 without a known key, 403 for a blocked node, otherwise the node |
| Service.HubService.ReceiveBundle | app/api/federation.py:37-106 | rate check, pre-audit, then a security strike and perhaps a block, or a queue entry |
| Service.HubService.PushKnowledge | app/api/federation.py:23-106 | the push step of the state machine, keeping the invariants |
| Service.HubService.PullKnowledgeSince | app/api/federation.py:109-166 | the pull step and its exact reply: `last_pull_at` is written once the query succeeded, also when the response then fails |
| Service.HubService.RequestNodeHandshake | app/api/federation.py:169-203 | inserts a pending node; a rejected node's id cannot be used again |
| Service.HubService.AcceptNodeHandshake | app/api/admin.py:226-243 | accepts only a pending node and stores its key |
| Service.HubService.RejectNodeHandshake | app/api/admin.py:269-283 | rejects a node whatever its handshake status |
| Service.HubService.BlockByAdmin | app/api/admin.py:286-294 | sets the block flag |
| Service.HubService.UnblockByAdmin | app/api/admin.py:297-305 | clears the block flag and the strikes |
| Service.HubService.ApproveAudit | app/api/admin.py:131-169 | commit first; approve and credit only when it succeeded |
| Service.HubService.RejectAudit | app/api/admin.py:172-185 | refuses an entry in review, 404 otherwise |

## Left out

- The Neo4j, PostgreSQL and Valkey drivers, connection handling and the ORM: replaced by maps and by sequences of atomic statements.
- Interleavings inside one handler (INCR before EXPIRE, check before set, two administrators on one entry, a pull in the middle of a commit): handlers are atomic, apart from a commit that stops part-way.
- The `source` property of graph elements: every statement sets the same constant and every query filters on it, so the filter is always true on a graph only `commit_bundle` writes.
- The concrete regular expressions: patterns are arbitrary functions, assumed to match no allowed predicate.
- Key generation, SHA-256 and the constant-time comparison: a record holds the key itself, new keys are fresh.
- The administrator's own key check: administrator calls are taken as authorised.
- Python's truncated previews and the wording of notes: notes are tags with the offending index or text.
- Entity values that are not strings, a null entity name, and cursors that are naive or not in UTC: excluded by the types. With another offset the string comparison is not chronological.
- Descriptive node fields, block reasons and times, `last_seen_at`, the remote version fetch and its URL guard.
- The sync log, audit listing and its pagination, hub statistics, the registry and start-up: they only report or configure.
- Separate clock readings within one handler: a handler reads the clock once. A key counts as expired from the moment its time to live has passed.
- Failure of the database after a successful graph commit: the approval and credit that follow are taken to succeed.
