# Verification of the Xing Shu router

Xing Shu is a router in front of language-model providers.  This project models its stateful
cores and proves what they keep over whole runs: which candidates a request is tried on and in
which order, how a failed provider is quarantined, that nothing in the catalog becomes routable
without both gates, and that the step protocols around it (probe batches, shadow batches, review
batches, operator consent) keep their counters and promises however their steps interleave.

How the modules are built:

* A file that changes state step by step is a class whose methods update fields in place.  Each
  method is proved equal to a function on the state, or against a relation on the state before
  and after; the lemmas speak about those functions over every run.
* A critical section is one atomic step, and an operation with several sections is several steps.
  Where a class method runs through all its sections, its contract is for nothing in between, and
  lemmas over runs treat the sections one by one.  A protocol is a `Next` function on a shared
  state, and a run is any sequence of steps; an upstream answer, a clock reading, a map iteration
  order and a scheduling choice are parameters or arbitrary choices.
* What the smaller functions compute is said once more in plain values, without them, by lemmas at
  the end of each module and in `CatalogEntries`; the laws among these have rows below, those that
  only spell out a value have none.
* Where the code does not keep a property in general, the property is stated with the exact
  condition under which it does, as an if-and-only-if, and a run that breaks it is constructed.

Modules, by the part of the program they describe:

* Routing: `Service` (the ranking of a request from its body and the stores), `Ranking`, `Capability`,
  `Scores`, `Failover`, `Quarantine`, `Health`, `SseLookahead`, `Knowledge`.
* Catalog: `CatalogModel`, `Catalog` (state functions), `CatalogManager` (the class),
  `CatalogEntries` (what is written on an entry), `CatalogRuns` (invariants of runs), `CatalogSync`, `GovernanceRules`, `GovernanceRaces` (requests
  that overlap with each other and with everything else that happens to the catalog), `ModelAdmission`.
* Step protocols: `ShadowBatches`, `ProbeBatch`, `Consent`, `Reviews`, `ReviewRuns`.
* Quota: `Quota`, `QuotaAlerts`.
* `Keys`: route keys of the form `provider/model`.

Assumptions, stated as preconditions where they are needed: provider identifiers contain no slash
(`internal/provider/registry.go:33`), no model is called `*`, and a model list of a provider names
no model twice after trimming.  What happens without the last one is proved in
`CatalogRuns.SyncKeepsGatesIff` and `CatalogSync.DuplicateEscapes`.  A ranking reads a knowledge
store whose records are filed under their signature and model, which `Knowledge.RunKeepsLabels`
proves of every run.

Where the code and its documentation disagree the model follows the code.  The program's own
`README.md` lists capability match, quota and cooldown among the parts of the score (its line 42);
the code uses them only to filter, and the score is the base score plus the knowledge and learning
bonuses (`internal/routing/reliable.go:83-87`).  It also gives three as the number of attempts,
which is only the default (`internal/routing/reliable.go:230-232`), and speaks of retryable 5xx
answers (its line 44) where the code retries every status from 500 upwards.

## Model

| member | source | states |
|---|---|---|
| SseLookahead.Relay | internal/routing/reliable.go:163-193 | For every error-free stream and every chunking of reads, at every buffer boundary, the client receives exactly the upstream bytes if and only if the 64 KiB window holds an event line; otherwise nothing |
| SseLookahead.ValidateStream | internal/routing/reliable.go:163-193 | A stream is accepted iff some line of its first 64 KiB, trimmed, starts with `data:` or `event:` (framing of section 9.2.5 of the WHATWG HTML standard), and then prefix, buffered remainder and rest of body are the original bytes |
| SseLookahead.Spliced.ReadAll | internal/routing/reliable.go:190 | Draining the three stacked readers with any read sizes yields the content once, in order |
| SseLookahead.Spliced.Read | internal/routing/reliable.go:190 | One read hands out a prefix of what is left and loses nothing when it moves from one reader to the next |
| SseLookahead.Buffered.ReadString | internal/routing/reliable.go:169 | A line is everything up to the first newline of the window, whatever the buffer boundaries, and the end is reported iff the window has no newline left |
| SseLookahead.LinesPartitionWindow | internal/routing/reliable.go:168-185 | The lines of a window concatenate to it, contain no inner newline, and all but the last end with one |
| SseLookahead.EventLineIff | internal/routing/reliable.go:171-174 | An event line has "data:" or "event:" after its leading white space |
| SseLookahead.SpaceIsUnicode | internal/routing/reliable.go:171 | The bytes trimmed are those of the white space of Unicode (section 3 of RFC 3629) |
| SseLookahead.TrimsInFront | internal/routing/reliable.go:171 | White space in front is taken off, and nothing else |
| SseLookahead.TrimsBehind | internal/routing/reliable.go:171 | And behind |
| Health.Table.Fail | internal/routing/health.go:82-115 | The whole table after a failure |
| Health.Table.FailUntil | internal/routing/health.go:116-130 | The whole table after both critical sections, when nothing comes in between |
| Health.Table.Extend | internal/routing/health.go:118-129 | The second critical section on whatever record is there by then: only a later deadline is filed, and a missing record reads as one without labels |
| Health.Table.ProbeFailed | internal/routing/health.go:131-149 | The whole table after a failed probe |
| Health.Table.Success | internal/routing/health.go:150-167 | The whole table after a success |
| Health.Table.Available | internal/routing/health.go:168-181 | A route is available iff neither its own record nor the provider-wide one blocks it |
| Health.Table.DueForProbe | internal/routing/health.go:191-204 | Exactly the records whose probe is pending and whose cooldown is over, each once |
| Health.Table.ProviderAvailable | internal/routing/reliable.go:48-58 | The scan by labels finds no blocking provider-wide record |
| Health.RunKeepsConsistent | internal/routing/health.go:82-167 | In every run of critical sections in which no second section of `FailUntil` comes late, a record is filed under its own route, waits for a probe iff it has a failure streak, and carries a cooldown only while it waits |
| Health.StepKeepsConsistentIff | internal/routing/health.go:82-167 | A critical section keeps that iff it is not the second section of a `FailUntil` with a deadline ahead whose record is gone or waits for no probe |
| Health.InTimeWhenUndisturbed | internal/routing/health.go:116-130 | A second section is in time when its route has neither succeeded nor been cleared since the first |
| Health.LateAfterSuccess | internal/routing/health.go:116-167 | The failing run: a late second section after a success leaves a record that is neither healthy nor cooling nor due, and time alone restores the route |
| Health.LateAfterClear | internal/routing/health.go:116-130 | The other one: after a reset it files a record without labels, so that keyed lookup and label scan disagree |
| Health.RunKeepsWaitingLabelled | internal/routing/health.go:82-167 | In every run, late second sections included, a record that waits for a probe is filed under its own route, which is what a recovery pass relies on |
| Health.ReachableTable | internal/routing/health.go:168-204 | In every run from the empty table without a late second section each record is exactly one of healthy, cooling or due, availability does not depend on the clock, and the label scan agrees with the keyed lookup |
| Health.FailureCooldown | internal/routing/health.go:82-130 | A failure cools for one to four times its base, exactly four times from the fourth in a row; a later Retry-After extends it, an earlier one never shortens it; no other record changes |
| Health.CooldownOf | internal/routing/health.go:82-115 | The cooldown is the option of the kind, once, twice, three times by the failures in a row, and four times from the fourth on |
| Health.DefaultCooldowns | internal/routing/health.go:35-52 | The five defaults in nanoseconds, seen on a first failure of each kind |
| Health.DueFrom | internal/routing/health.go:168-204 | A failed route is due from the end of its cooldown on, not before, and unavailable throughout |
| Health.SuccessRestores | internal/routing/health.go:150-181 | A success clears exactly its own record: the route is then available iff its provider is not blocked, and a provider probe frees every route without a blocking record of its own |
| Health.ProbeBackoff | internal/routing/health.go:131-149 | Failed probes back off by one to eight minutes, each at least as long as the one before, and leave the route unavailable after the cooldown |
| Health.ProbeMinutes | internal/routing/health.go:131-149 | Exactly as many minutes as the streak it makes, at most eight, and everything else of the record kept |
| Ranking.SortRanked | internal/routing/reliable.go:92-98 | The in-place sort leaves a sorted permutation |
| Ranking.SiftDown | internal/routing/reliable.go:94-96 | One inner loop sorts one more element into the prefix |
| Ranking.BeforeTotal | internal/routing/reliable.go:94 | Score descending, then key ascending, is a strict total order on candidates |
| Ranking.FirstDifference | internal/routing/reliable.go:94 | Strings are ordered by their first difference, a prefix before what it begins |
| Ranking.HigherIsFirst | internal/routing/reliable.go:94 | The higher score is first, and at one score the smaller `provider/model` |
| Ranking.SortedUnique | internal/routing/reliable.go:92-98 | Only one arrangement of given candidates is sorted |
| Ranking.RankedIff | internal/routing/reliable.go:66-87 | A candidate is ranked iff it is an eligible model of the catalog |
| Ranking.RankedModel | internal/routing/reliable.go:62-91 | Ranked at base score plus bonus iff admitted, on the routes, active, of a configured provider that is neither closed, disabled nor exhausted, supporting every need, and held by no record of its own or of its provider |
| Ranking.RankingIgnoresCatalogOrder | internal/routing/reliable.go:62-98 | Any permutation of the catalog gives the identical ranking |
| Ranking.RankedOnce | internal/routing/reliable.go:62-91 | A catalog with distinct routes ranks every route at most once |
| Service.Router.RouteAvailable | internal/routing/reliable.go:48-61 | A route is available iff the scan by labels finds no block of its provider and neither of its two keys is blocked |
| Service.Router.Judge | internal/routing/reliable.go:66-87 | A model becomes a candidate iff it is eligible for the needs of the body, at its base score plus the bonuses that the knowledge store and the learning table give it |
| Service.Router.RankedCandidates | internal/routing/reliable.go:62-98 | The result is the sorted arrangement of exactly the eligible models at their scores, with needs, health and bonuses taken from the body and the three stores |
| Service.LeadStands | internal/routing/reliable.go:83-94 | After any log of results and any run of the knowledge store a lead of more than 140 base points is never overturned by the bonuses |
| Service.ScoreIs | internal/routing/reliable.go:83-87 | The score is the base score, plus what was learned, plus the points of the trusted record unless the request is of high risk |
| Capability.ApplyProbe | internal/capability/matrix.go:18-53 | The new evidence is on top of the old, each declared flag is what its result says where there is one, and nothing else changes, whatever order the results are visited in |
| Capability.FlagsAfterProbe | internal/capability/matrix.go:18-53 | The five flags by the names of their results |
| Capability.ProbeDecides | internal/capability/matrix.go:18-76 | A filed probe decides every capability question it has a result for, and no other |
| Capability.LaterProbeWins | internal/capability/matrix.go:18-76 | Two probes in a row answer like one with the later results on top |
| Capability.RequiredCapabilities | internal/routing/service.go:214-244 | A request needs tools iff it lists some, structured output iff it names a format, vision iff some part of some message is an image; nothing else, nothing twice |
| Capability.NeedsAre | internal/routing/service.go:214-244 | The needs as a list, an image being a part of type image_url or input_image |
| Scores.Learning.Record | internal/runtime/learning.go:49-63 | The whole table after one result |
| Scores.StatsAreTheLog | internal/runtime/learning.go:49-63 | After any log every key holds the number of its results, successes, failures and its total latency, and only keys with results exist |
| Scores.LearningBonusRange | internal/routing/reliable.go:99-121 | The bonus is 0 to 40, 40 iff no failure and at most a second on average, 0 iff slow with fewer than one success in thirty |
| Scores.LearningPoints | internal/routing/reliable.go:99-121 | Thirtieths of the success rate, plus ten, five or nothing by the average latency, of the route's own entry or else of its model's |
| Scores.SuccessShare | internal/routing/reliable.go:111 | The truncated share of thirty points is the integer division, full iff every request succeeded |
| Scores.KnowledgeBonus | internal/routing/service.go:79-107 | The scan over all records in any order equals one keyed lookup, zero for high-risk requests |
| Scores.PointsAre | internal/routing/service.go:91-104 | The points of a record: the truncated hundredfold of confidence times share of successes from ten validations on, ten per success below, both in proportion to the time left in the last quarter of thirty days |
| Scores.MoreSuccessesCount | internal/routing/service.go:91-104 | More successes in as many validations never give fewer points |
| Scores.BonusIs | internal/routing/service.go:79-107 | The bonus of a model is the points of the one record that applies, none for high risk, plus what was learned |
| Scores.PointsRange | internal/routing/service.go:91-104 | One record gives 0 to 100 points, none without validations |
| Scores.KnowledgeBonusRange | internal/routing/service.go:79-107 | In every run of the knowledge store the bonus is 0 to 100 |
| Failover.SendOne | internal/routing/reliable.go:275-330 | One request yields the attempt its answer determines, and updates learning and health as that attempt determines |
| Failover.TryInOrder | internal/routing/reliable.go:262-343 | The loop refines the recursive turns of one request, in result, health and learning |
| Failover.CompleteReliable | internal/routing/reliable.go:223-344 | A request that is not JSON changes nothing; otherwise the result is the failover along the ranking of the request on the present stores, cut down to what the request names |
| Failover.LoopIsFailover | internal/routing/reliable.go:265-343 | Attempts follow the ranking, at most the limit, all but the last retryable, none on a provider after its provider-wide failure, candidates left out only for that reason; an answer iff the last attempt is a validated 2xx |
| Failover.FailoverIsUnique | internal/routing/reliable.go:265-343 | That description leaves no choice: an attempt list satisfies it iff it is the one the loop makes |
| Failover.NeverTwice | internal/routing/reliable.go:265-343 | No route is tried twice, no provider after it failed as a whole |
| Failover.GoodIsFinal | internal/routing/reliable.go:122-142 | A validated 2xx is not a failure; provider-wide failures are retryable; every retryable attempt has a failure kind |
| Failover.KindOfAnswer | internal/routing/reliable.go:122-142 | The kind of every answer and of both transport errors; an HTTP answer is retryable iff it is 401, 403, 408, 425, 429, at least 500, or a 2xx that failed validation |
| Failover.ResultByLast | internal/routing/reliable.go:259-343 | The result of a request follows from its last attempt: its route after a valid 2xx, its status after a failure nobody retries, the failure itself otherwise, an empty catalog without any |
| Failover.FinalAnswerEnds | internal/routing/reliable.go:308-343 | A request that got a 400, or any other status that is neither 2xx nor retried, ends there with that status; one that got a valid 2xx ends there with its route |
| Failover.FailureLandsOn | internal/routing/reliable.go:315-330 | Which record each class of answer cools: the provider, the model, or none |
| Failover.RetryAfterIs | internal/routing/reliable.go:143-155 | A Retry-After counts on a 429 alone, in seconds when positive, as a date when it lies ahead |
| Failover.RateLimitHolds | internal/routing/reliable.go:325-327 | A rate-limited provider cools for the longer of its Retry-After and the rate-limit cooldown |
| Failover.LearningHears | internal/routing/reliable.go:305-307 | Learning hears of a success exactly when the request is answered |
| Failover.FilterRequested | internal/routing/reliable.go:244-258 | Exactly the candidates the request names, in ranking order |
| Failover.ProviderAndModel | internal/routing/reliable.go:244-252 | "p/m" names model m of provider p, with or without "openai/" in front |
| Failover.BareModel | internal/routing/reliable.go:244-252 | A name without a slash names that model of every provider |
| Failover.LeadingSlash | internal/routing/reliable.go:246-248 | A slash in front separates nothing |
| Failover.FilterDistinct | internal/routing/reliable.go:244-258 | Naming a model keeps a ranking free of repetitions |
| Failover.NextRequestAvoidsFailures | internal/routing/reliable.go:319-330 | The failures of a request keep the next ranking, at any later time, off the failed providers and models |
| Quarantine.RankingMayBegin | internal/routing/reliable.go:62-91 | The candidates of a ranking satisfy what a request of the interleaved runs starts with |
| Quarantine.OnlyAProbeOrResetLifts | internal/routing/reliable.go:308-392 | A step ends a provider quarantine iff it is a successful provider probe or an operator reset |
| Quarantine.QuarantineHolds | internal/routing/reliable.go:265-392 | In every interleaving of requests, second sections of their failures, probes and interruptions, no later request ranks or tries a model of a quarantined provider until then |
| Quarantine.FailureQuarantines | internal/routing/reliable.go:319-330 | A provider-wide failure quarantines the provider at once |
| Quarantine.AloneIsWalk | internal/routing/reliable.go:262-343 | A request that nobody disturbs makes of its flight and of the table what the failover loop makes of them |
| Quarantine.ProbeOne | internal/routing/reliable.go:359-390 | One due record: nothing to probe, recovery, or back-off, on whatever record is there by then |
| Quarantine.ProbeRecovery | internal/routing/reliable.go:353-392 | With any sections of requests between its own, exactly the records due at the start are visited, once each, and get the section that their own probe asks for, or none; the report is exactly the records that recover, in order |
| Quarantine.DueIsProbed | internal/routing/reliable.go:359-390 | A due record that nobody else touches meanwhile recovers, backs off or is left alone by its own probe, whatever happens to other routes |
| Quarantine.LeftByPass | internal/routing/reliable.go:353-392 | A record that was not due and that nobody touches meanwhile is as before |
| Quarantine.RecoveredIff | internal/routing/reliable.go:359-391 | A record is reported iff it was due and its own probe, with what was configured at that instant, succeeded |
| Quarantine.ProbedWith | internal/routing/reliable.go:361-375 | A record is probed with its own model, a provider with its first active model on the routes |
| Knowledge.Store.Upsert | internal/runtime/knowledge.go:116-157 | The store after a proposal, merged over an existing record |
| Knowledge.SamplesGrow | internal/runtime/knowledge.go:122-140 | The samples grow by the sources new to the record, each once, and are never none |
| Knowledge.Store.RecordValidation | internal/runtime/knowledge.go:172-216 | The store after a validation; a repeated identifier is refused |
| Knowledge.ValidationWrites | internal/runtime/knowledge.go:172-216 | What a validation writes, field by field, with the promotions at three and ten validations, four fifths and nine tenths, and thirty days to live |
| Knowledge.Store.ChangeStatus | internal/runtime/knowledge.go:217-234 | The store after a human decision |
| Knowledge.Store.RestoreItem | internal/runtime/knowledge.go:235-254 | The store after a restore, only from expired or rejected |
| Knowledge.Store.ExpireAll | internal/runtime/knowledge.go:255-271 | Exactly the lapsed records expire, and their number is reported |
| Knowledge.CountersAreTheLog | internal/runtime/knowledge.go:116-271 | In every run validations = successes + failures = number of distinct validation identifiers, and history entries chain except across a silent expiry |
| Knowledge.PromotionIsEarned | internal/runtime/knowledge.go:172-216 | Without human decisions a record that has not expired is trusted iff some prefix of at least ten validations reached 90 percent, else validated iff some prefix of at least three reached 80 |
| Knowledge.RunKeepsLabels | internal/api/knowledge.go:34-49 | Every record is filed under its signature and model, with confidence in (0, 1] |
| Knowledge.SamplesCountSwitches | internal/runtime/knowledge.go:122-154 | In every run, with any records, confidences, validations, decisions and expiries, the sample counter of a record is one more than the number of changes of its source review |
| Knowledge.SamplesAreReviewsIff | internal/runtime/knowledge.go:122-154 | In every run it is the number of distinct source reviews iff no review returns after another, and larger otherwise |
| CatalogManager.Manager.FromState | internal/catalog/manager.go:24-46 | A saved state without an admission map turns approvals into admissions and leaves no gate open |
| CatalogRuns.StartIsGoodIff | cmd/router/main.go:60-66 | A start from a saved state with its migration has the two gates iff the file starts well: trimmed, distinct, admitted entries, none meta, and stale ones, which the migration passes over, off the routes as they are |
| CatalogRuns.StartedIsGuarded | cmd/router/main.go:60-66 | In every run from such a file nothing is routable without both gates |
| CatalogManager.Manager.SyncRaw | internal/catalog/manager.go:84-130 | The whole state after a sync whose snapshots are the present gates, or no change when the drop guard rejects it |
| CatalogManager.Manager.MergeSync | internal/catalog/manager.go:88-130 | The critical section of a sync on gate snapshots of any age |
| CatalogManager.Manager.UpdateProviderModel | internal/catalog/manager.go:142-154 | The first entry of the route is updated, if there is one |
| CatalogManager.Manager.ApplyDefaultApprovalPolicy | internal/catalog/manager.go:171-221 | The whole state after a migration, and the number of entries whose gates it changed |
| CatalogManager.Manager.SetAdmitted | internal/catalog/manager.go:222-256 | The whole state after an admission or revocation |
| CatalogManager.Manager.SetAllow | internal/catalog/manager.go:273-297 | The whole state after an approval, refused for an entry that is not ready |
| CatalogEntries.ApprovalWrites | internal/catalog/manager.go:273-297 | When an approval is refused, and what it writes on the first entry and its gate |
| CatalogManager.Manager.ReconcileProviders | internal/catalog/manager.go:298-328 | The whole state after a reconciliation |
| CatalogManager.CheckReady | internal/catalog/manager.go:257-272 | Ready iff automatically approved, or admitted, active, not meta and probed for all three capabilities |
| CatalogEntries.ReadyIff | internal/catalog/manager.go:257-272 | The three capabilities by name |
| CatalogManager.ListModels | internal/catalog/sync.go:21-42 | The usable entries of a raw list, in order, each as its gates say |
| CatalogEntries.ListsIff | internal/catalog/sync.go:21-42 | A model is listed iff some entry has its trimmed identifier and that is not empty, at most 300 bytes, without CR, LF and NUL, and none of the ten meta names |
| CatalogEntries.ListedOneMore | internal/catalog/sync.go:21-42 | Entry by entry and in order, what a listed model carries, field by field |
| CatalogEntries.TrimsBothSides | internal/catalog/sync.go:24 | Trimming takes off the white space on both sides and nothing else |
| CatalogEntries.BytesOfParts | internal/catalog/sync.go:25 | Bytes of a name add up |
| CatalogEntries.AsciiBytes | internal/catalog/sync.go:25 | An ASCII name has as many bytes as characters |
| CatalogManager.ApplyStateToCatalog | internal/api/integration.go:269-284 | The loop over a snapshot, entry by entry, with its decision on each FreeLLMAPI model |
| CatalogManager.Perform | internal/catalog/manager.go:84-328 | Each section of the runs is a method of the manager |
| CatalogRuns.NothingRoutableWithoutBothGates | internal/catalog/manager.go:84-327 | In every such run from the empty state a routable model is active and not meta, and outside FreeLLMAPI admitted in field and map, allowed in the map and not orphaned |
| CatalogRuns.RunKeepsGood | internal/catalog/manager.go:84-327 | The inductive two-gate invariant over every run of the eight critical sections whose snapshots are not too old |
| CatalogRuns.StepKeepsGoodIff | internal/catalog/manager.go:84-327 | A critical section keeps it iff it is neither a sync whose snapshots open a gate closed since or that names a model twice, nor a switch that turns on an entry no longer active |
| CatalogRuns.SyncKeepsGatesIff | internal/catalog/manager.go:84-130 | A sync with earlier gate snapshots keeps the invariant iff it is rejected, or names no model twice and none whose gate has closed since |
| CatalogRuns.SyncNowKeepsGoodIff | internal/catalog/manager.go:84-130 | A sync with nothing between its snapshots and its merge keeps the invariant iff it is rejected or names no model twice |
| CatalogRuns.RankedIsPublished | internal/api/native.go:9-17 | Every ranked candidate is also published by the model list |
| CatalogRuns.RevocationCloses | internal/catalog/manager.go:222-256 | A revocation closes both gates and the route at once |
| CatalogRuns.RevocationIsSticky | internal/catalog/manager.go:171-327 | After it, a run makes the model routable only through an admission followed by an approval |
| CatalogRuns.NeedsAllow | internal/catalog/manager.go:273-297 | With the allow gate closed only an approval makes a model routable |
| CatalogRuns.BothGatesOpen | internal/catalog/manager.go:222-297 | Admitting and then approving a fully probed model publishes it and touches no other entry |
| CatalogRuns.OfflineAndBack | internal/catalog/manager.go:298-328 | A provider that goes and returns leaves its models unknown, off the routes and admitted as before; one that stays keeps its models |
| CatalogRuns.SwitchDecides | internal/api/integration.go:269-284 | The whole loop, on a catalog nobody touches meanwhile, makes a FreeLLMAPI model routable iff consent and routing are on and it is active, and changes nothing else of any entry or map |
| CatalogRuns.SwitchKeepsGoodIff | internal/api/integration.go:269-284 | One step of it, with a decision taken on an old snapshot, keeps the invariant iff it does not turn on an entry that is no longer active |
| CatalogSync.SyncIsolation | internal/catalog/manager.go:84-130 | Other providers keep their models and order, a rejected sync changes nothing, an accepted one of ten models or more keeps at least half |
| CatalogSync.SurvivorsKeepEvidence | internal/catalog/manager.go:92-112 | A surviving model answers every evidenced capability question as before, keeps its structured-output flag, and loses no declared tool or vision flag |
| CatalogSync.SurvivorAnswersIff | internal/catalog/manager.go:92-112 | What a survivor answers to every capability question, and that it is the answer from before iff there is evidence, or the listing adds no tool or vision flag, or there was no parallel-tools flag, thinking flag or named capability to lose |
| CatalogSync.SyncIsIdempotent | internal/catalog/manager.go:84-130 | Repeating a sync changes nothing |
| CatalogSync.LateSyncEscapes | internal/catalog/manager.go:86-89 | A sync that took its snapshots before an approval was withdrawn leaves the model routable behind a closed gate |
| CatalogSync.DuplicateEscapes | internal/catalog/sync.go:21-42 | A list that names an open model twice leaves one entry routable after the approval is withdrawn |
| GovernanceRules.Runtime.Validate | internal/api/governance_rules.go:45-72 | Accepts exactly 1 to 100 changes of distinct, existing keys, approvals only of ready models |
| GovernanceRules.PassesIff | internal/api/governance_rules.go:50-70 | A change passes, or is taken at the gate, by the first entry of its two parts and its readiness |
| GovernanceRules.Runtime.ApplyRules | internal/api/governance_rules.go:99-126 | Rules, allow gates, routing flags and audit after a request with nothing in between, or no change |
| GovernanceRules.Runtime.UndoRules | internal/api/governance_rules.go:127-166 | The same for an undo of the latest application under a revision |
| GovernanceRules.Runtime.Load | internal/api/governance_rules.go:186-218 | Rules and gates after a replay of saved rules in any order |
| GovernanceRules.ReplayAgreesIff | internal/api/governance_rules.go:204-217 | After a replay every approved rule has its gate open, and rules and gates disagree exactly on keys whose gate was open and whose saved rule was refused |
| GovernanceRules.GateAfter | internal/api/governance_rules.go:180-185 | A list of changes decides the gate of every key it names and no other, and keeps every entry but for its routing flag |
| GovernanceRules.RoutingAfter | internal/api/governance_rules.go:180-185 | It sets the routing flag of exactly the entries it names |
| GovernanceRules.PreviousValidIff | internal/api/governance_rules.go:137-152 | The recorded values pass validation iff every key approved before is ready now |
| GovernanceRules.UndoStack | internal/api/governance_rules.go:99-166 | Any stack of changes undone in reverse order goes through iff every changed key that was approved at the start is ready, and then rules, gates and flags are back to what the rules said |
| GovernanceRules.UndoRestoresTablesIff | internal/api/governance_rules.go:99-166 | Both tables are restored iff moreover rules and gates agreed on the changed keys at the start |
| GovernanceRaces.CommitKeepsIff | internal/api/governance_rules.go:113-124 | With rules changed in one section, gates later one by one, and anything else between them: filing a validated list keeps every key on its way to agreement iff it contradicts no pending change |
| GovernanceRaces.StepKeepsIff | internal/api/governance_rules.go:45-185 | Among all sections of requests and of the catalog manager, a step keeps every key on its way to agreement iff it is not a filing that contradicts a pending change, not a refused gate that stands otherwise and that no other request will make, and not a revocation or approval from elsewhere against the rule of a key nobody is about to decide |
| GovernanceRaces.CarefulRequestsAgree | internal/api/governance_rules.go:99-185 | In every interleaving of requests with syncs, reconciliations, admissions and probes that has no such step, rules and gates agree on every key whenever no request is under way |
| GovernanceRaces.RevokedUnderRule | internal/catalog/manager.go:222-256 | A failing run: a revocation closes the gate under a rule that stays on |
| GovernanceRaces.DroppedBeforeGate | internal/api/governance_rules.go:180-185 | The other one: a request withdraws an approval, a sync drops the entry, the gate is refused without a word, and the next list makes the model routable under a rule that is off |
| GovernanceRaces.OffStaysOff | internal/api/governance_rules.go:99-185 | A key that is off in its rule, at its gate and in every list under way stays off in both, in any company, until a list or an approval turns it on |
| GovernanceRaces.SettlesIff | internal/api/governance_rules.go:113-185 | From any state with requests under way, rule and gate of a key agree at the end of every run that files no new rule for it and leaves its gate and its readiness alone iff all pending changes of the key that will be taken say what its rule says, and without any its gate does |
| GovernanceRaces.ContradictionBreaks | internal/api/governance_rules.go:113-185 | One pending change that will be taken and says otherwise can be the last: the order is constructed |
| GovernanceRaces.AloneIsApply | internal/api/governance_rules.go:99-126 | With nothing in between, the sections of a request are the application that `GovernanceRules` describes |
| ModelAdmission.Validate | internal/api/model_admission.go:43-66 | Accepts exactly 1 to 100 distinct keys of admissible entries |
| ModelAdmission.ListPassesIff | internal/api/model_admission.go:43-66 | One to a hundred changes, no key twice, each of a key whose last entry may be decided |
| ModelAdmission.Runtime.ApplyAdmissions | internal/api/model_admission.go:89-116 | The catalog and the audit after a request with nothing in between, or no change |
| ModelAdmission.Runtime.UndoAdmissions | internal/api/model_admission.go:117-154 | The same for an undo |
| ModelAdmission.UndoStack | internal/api/model_admission.go:89-154 | Any stack of admissions can be undone in reverse order; the admission map is restored, touched entries carry its values, others are untouched, and no gate is opened |
| ModelAdmission.UndoNeverRoutes | internal/api/model_admission.go:117-154 | After it an entry is routable iff it was before and was not touched |
| CatalogRuns.AdmissionsAreTheLog | internal/catalog/manager.go:222-256 | With the admissions of requests interleaved with any other operations of the catalog, the admission map is what the last admission or revocation of each key says |
| CatalogRuns.AdmissionOpensNothing | internal/catalog/manager.go:222-256 | In whatever state it comes, an admission or revocation opens no allow gate and makes no model routable |
| ShadowBatches.Store.Apply | internal/runtime/shadow_batch.go:123-136 | One batch is replaced, no other changes |
| ShadowBatches.Store.Stop | internal/runtime/shadow_batch.go:137-147 | A pending or running batch ends stopped, and every review that has not run is added to the stopped ones, so that without earlier stops completed + stopped = total; a finished batch and every other one stay as they are |
| ShadowBatches.Store.Retry | internal/runtime/shadow_batch.go:148-156 | A stopped or failed batch is as newly created with its identifier and size; any other batch and one that is neither stay as they are; true also when nothing was reset |
| ShadowBatches.Store.RecoverInterrupted | internal/runtime/shadow_batch.go:68-85 | Exactly the pending and running batches become stopped, and their number is returned |
| ShadowBatches.Worker.Turn | internal/api/shadow_batch.go:140-183 | One critical section of the worker loop, on store and position |
| ShadowBatches.CompletedIsTheSum | internal/api/shadow_batch.go:162-173 | In every interleaving of any number of workers with stop, retry, time-out and restart, completed = succeeded + failed |
| ShadowBatches.RunKeepsPromise | internal/api/shadow_batch.go:140-183 | With one live worker and stops only after it has begun: completed + stopped at most total, completed means all ran without failure, failed means all ran with one at least |
| ShadowBatches.LaunchedKeepsPromise | internal/api/shadow_batch.go:140-183 | So from the launch of a batch of any size |
| ShadowBatches.UndisturbedRun | internal/api/shadow_batch.go:140-183 | Left alone, a worker counts every review by its outcome and ends failed iff some review failed |
| ShadowBatches.StopAccounts | internal/runtime/shadow_batch.go:137-147 | A stop of a running batch leaves completed + stopped = total until the next retry, whatever the worker still does |
| ShadowBatches.StepIsSafeIff | internal/api/shadow_batch.go:140-183 | A step leaves the promise safe from the workers iff it is neither a stop before the start, nor a retry beside a live worker or on a batch no longer retryable |
| ShadowBatches.OverlappingRetryBreaks | internal/api/shadow_batch_retry.go:30-45 | For every batch size, a retry beside a live worker lets the workers break the promise |
| ShadowBatches.EarlyStopBreaks | internal/api/shadow_batch.go:141 | For every batch size, a stop before the start does |
| ProbeBatch.Validate | internal/api/native_probe_batch.go:82-113 | Accepts exactly 1 to 50 distinct targets that are active and configured |
| ProbeBatch.AcceptedIff | internal/api/native_probe_batch.go:82-113 | One to fifty different targets of configured providers, each an active model |
| ProbeBatch.TargetsApart | internal/api/native_probe_batch.go:88 | Two targets are one when provider and model are the same |
| ProbeBatch.Runtime.Record | internal/api/native_probe_batch.go:124-131 | The job after one result, no other job changed |
| ProbeBatch.Runtime.Finish | internal/api/native_probe_batch.go:134-145 | The job is closed and the history is the last hundred |
| ProbeBatch.EverySchedule | internal/api/native_probe_batch.go:115-146 | In every schedule at most four probes of a job in flight, failed <= completed <= total, never two results for a target; a completed job has one for every target and failed counts those not ok |
| ProbeBatch.HistoryIsTheTail | internal/api/native_probe_batch.go:139-142 | The history is the last hundred finished jobs, after those loaded from the file |
| ProbeBatch.NeverStuck | internal/api/native_probe_batch.go:116-133 | While a job runs, one of its goroutines or its closing can go on |
| Consent.Manager.constructor | internal/integration/freellmapi.go:150-186 | The state and the file after a start, for every configuration and saved file |
| Consent.Manager.Authorize | internal/integration/freellmapi.go:326-338 | Consent is given and the route switched as asked, but not enabled before a probe or a route switch; everything but the instance as before, all of it on file |
| Consent.Manager.Revoke | internal/integration/freellmapi.go:339-355 | Both sections together: no consent, not usable, no report |
| Consent.Manager.SetRoute | internal/integration/freellmapi.go:356-367 | The route is enabled afterwards iff it was asked for and the instance is authorized, connected and fresh; everything but the instance as before, all of it on file |
| Consent.Manager.Probe | internal/integration/freellmapi.go:471-562 | Nothing without a configuration; else the state after a probe, by the first answer that is not good |
| Consent.ProbeFinds | internal/integration/freellmapi.go:471-562 | Every flag of the instance after a probe, by its answers |
| Consent.DeadStaysOff | internal/integration/freellmapi.go:326-575 | After it no sequence of consents, route switches, syncs, refreshes and restarts enables the route until a probe finds the server alive |
| Consent.Manager.MarkSynced | internal/integration/freellmapi.go:564-575 | The catalog is fresh with the given number of models, and the route is enabled afterwards iff the instance is authorized, routed and connected; everything but the instance as before, all of it on file |
| Consent.Manager.CommitRefresh | internal/integration/freellmapi.go:232-258 | A finished read is published only under consent; an error keeps the last report |
| Consent.Manager.SetLocalQuotaPath | internal/integration/freellmapi.go:210-221 | A new path drops the report of the old one |
| Consent.UsableMeansConsent | internal/integration/freellmapi.go:283-286 | In every interleaving, restarts included, usable implies authorized, routed, connected and fresh, so the route is enabled iff the usable flag is set |
| Consent.UsableAfterStep | internal/integration/freellmapi.go:326-575 | A route switch, a sync and a successful probe leave an instance usable iff the four flags hold; a failed probe, a new consent and a revocation clear it; no other step touches it |
| Consent.StepKeepsQuotaIff | internal/integration/freellmapi.go:339-355 | A step keeps "report only under consent or during a revocation" iff it is not a restart from a file written between the two sections of a revocation |
| Consent.QuotaNeedsConsent | internal/integration/freellmapi.go:229-258 | So it holds in every interleaving, with reads of any length, as long as no restart does that |
| Consent.QuietRestartsAreSafe | internal/integration/freellmapi.go:150-186 | It holds in every interleaving whose restarts find no revocation under way, whatever the file and the new configuration |
| Consent.TornRestart | internal/integration/freellmapi.go:339-355 | That restart exists: it leaves a report without consent |
| Consent.NothingPublishedWithoutConsent | internal/integration/freellmapi.go:229-258 | Without a new consent no read that finishes publishes anything, and once the revocation is complete nothing is held |
| Consent.PublishedByCommit | internal/integration/freellmapi.go:229-258 | A step publishes iff it commits a read that was allowed when it looked, under consent when it commits |
| Consent.OldConsentIsPublished | internal/integration/freellmapi.go:229-258 | These need not be one consent: the run that publishes a read begun before a complete revocation is constructed |
| Consent.StepKeepsPathIff | internal/integration/freellmapi.go:210-258 | The report is of the present path, except exactly when a read that noted an old path commits |
| Consent.OldPathIsPublished | internal/integration/freellmapi.go:210-258 | The failing input: path noted, consent looked up, path changed, read committed |
| Consent.FixedPathIsKept | internal/integration/freellmapi.go:210-258 | With one path set at start, as the program does (`cmd/router/main.go`), the report is always of that path |
| Quota.Manager.Set | internal/quota/manager.go:19-33 | Index and history stay what the log of accepted facts says: the latest per key, and the last two hundred |
| Quota.Manager.Get | internal/quota/manager.go:70-87 | A fact of the provider that none is newer than, iff there is one |
| Quota.Manager.GetMetric | internal/quota/manager.go:54-68 | The same for one metric |
| Quota.Manager.Save | internal/quota/persistence.go:15-36 | The file lists every item of the first read, each once, in any order, and the history of the second read, an empty one as null, with any facts set in between |
| Quota.Manager.Load | internal/quota/persistence.go:37-73 | Index and history from any file, with the fill-in and the fallback |
| Quota.SetExtends | internal/quota/manager.go:19-33 | The index of the log follows every set |
| Quota.PlacesApart | internal/quota/manager.go:25 | Two facts share a place only when provider, pool and metric are the same |
| Quota.KeepsTwoHundred | internal/quota/manager.go:27-31 | The history is the last two hundred facts accepted |
| Quota.SaveLoad | internal/quota/persistence.go:15-73 | With nothing set in between, save then load is the identity in every item order: nothing is filled in, and the fallback only meets an empty index |
| Quota.SaveLoadIff | internal/quota/persistence.go:15-73 | With facts set in between, the loaded state is that of the first read iff the history did not change, and that of the second iff no key of the first read was set to another fact and each new key has its latest fact first in the kept history |
| Quota.NewerFactIsLost | internal/quota/persistence.go:15-73 | The failing input: a newer fact of a saved key set between the two reads is in the loaded history and not in the loaded index |
| Quota.NewestIsLast | internal/quota/manager.go:70-87 | With facts in order of their check, `Get` finds one as new as the provider's last set |
| QuotaAlerts.Runtime.EvaluateAlerts | internal/api/quota_runtime.go:187-222 | States, alert log and notifications after one round, in any order of facts |
| QuotaAlerts.ReadingWrites | internal/api/quota_runtime.go:193-218 | What one reading writes: state, alert and notice, each exactly when |
| QuotaAlerts.LowIff | internal/api/quota_runtime.go:223-234 | What is low, by rest, size and both limits |
| QuotaAlerts.AlertsAlternate | internal/api/quota_runtime.go:187-222 | Over any run, with any number of facts per provider, each provider's log strictly alternates low and recovered and ends with low iff the alert is active |
| QuotaAlerts.FlipsIff | internal/api/quota_runtime.go:193-218 | A reading flips an alert iff it is low outside one, or available and not low inside; unknown ones never do |
| QuotaAlerts.LowNoticesAreSpaced | internal/api/quota_runtime.go:244-252 | Every low notification comes at least the retry interval after the provider's previous notification |
| Reviews.Store.Claim | internal/runtime/review.go:155-177 | Up to the limit, claimable records become processing under the batch and nothing else changes; fewer only when no more are claimable |
| Reviews.Store.RecoverProcessing | internal/runtime/review.go:126-143 | Exactly the overdue records in processing fail, and their number is returned |
| Reviews.Store.Prune | internal/runtime/retention.go:5-18 | Exactly the records from before the limit go, whatever is being done to them, and their number is returned |
| Reviews.FileDecisions | internal/runtime/reviewer.go:106-131 | The first result loop, as a function of the decisions in order |
| Reviews.SweepUndecided | internal/runtime/reviewer.go:132-143 | The second loop fails exactly the records of the batch without a decision |
| Reviews.MarkFailed | internal/runtime/reviewer.go:220-224 | Without an answer the whole batch fails |
| Reviews.RunReviewer | internal/runtime/reviewer.go:46-147 | The store after a run: claimed records end as decided or failed, records outside the batch are untouched |
| Reviews.FinalSays | internal/runtime/reviewer.go:106-143 | Failed iff no decision, the last valid decision is carried over field by field, only rejected decisions leave the record as it was in processing, and a recommended model the run wrote is empty or available |
| Reviews.LastDecisionWrites | internal/runtime/reviewer.go:106-131 | What the last decision about a record writes, and that an unsound one leaves no trace |
| ReviewRuns.EventKeepsClaimsIff | internal/runtime/review.go:126-186 | An event keeps claims exclusive and held records as believed, where they are still there, iff it is neither a new record that contradicts a held one nor a recovery of a held one; retention keeps them |
| ReviewRuns.NoTwoClaims | internal/runtime/review.go:155-177 | In every undisturbed interleaving from the empty store, retention included, no record is in two hands |
| ReviewRuns.RunIsIsolated | internal/runtime/reviewer.go:106-147 | In every such interleaving, whenever a run lets a record go that is still there, by decision, sweep or failure, it is exactly what the run's own claim, answer and decisions make of it |
| ReviewRuns.AloneIsReviewer | internal/runtime/reviewer.go:46-147 | A run that nobody disturbs from its answer on leaves what the undisturbed run of the reviewer leaves, and is over |
| Keys.RouteKeyInjective | internal/routing/health.go:81 | Two routes with slash-free providers have the same key only if they are the same route |

## Left out

- CatalogManager.Manager.SyncRaw: is stated for nothing between its snapshots and its merge; `CatalogManager.Manager.MergeSync` and `CatalogRuns.StepKeepsGoodIff` treat older snapshots.
- CatalogManager.ApplyStateToCatalog: is stated for nothing between its sections; in runs each section is a step of its own (`CatalogRuns.SwitchKeepsGoodIff`).
- GovernanceRules.Runtime.ApplyRules: is stated for nothing between its sections; `GovernanceRaces` treats every interleaving of them.
- GovernanceRules.Runtime.UndoRules: the same; the list an undo makes in `GovernanceRaces` is any list that passes validation.
- ModelAdmission.Runtime.ApplyAdmissions: is stated for nothing between its sections; in runs each change is a step of its own (`CatalogRuns.AdmissionsAreTheLog`).
- ModelAdmission.Runtime.UndoAdmissions: the same.
- Floating-point rounding: scores, confidences and quota values are real numbers; the integer truncation of the bonuses is modelled.
- SseLookahead.ValidateStream: takes error-free streams; left out are reader errors other than the end of the stream, reads that return no bytes and no error, and the JSON check of a body that is not a stream (its verdict is a parameter of an answer).
- Latency, time to first byte, version strings, audit texts, reasons and score breakdowns, and every timestamp that no decision reads.
- HTTP transport, JSON encoding and decoding, SQLite, encryption and the file system; a file is the state that was written to it, and writing always succeeds.
- Overflow of `time.Duration` for a huge Retry-After, and negative durations.
- `HighRisk` and `Signature`: parameters of a request; its body is given by the number of its tools, its response format and the types of its message parts.
- Revocation across a restart: saved governance rules are replayed at start (`GovernanceRules.Runtime.Load`), so that stickiness is stated for one run of the manager.
- Failover.CompleteReliable: the body of an answer, the per-attempt time-out and the cancellation of the request are part of the answer parameter.
- ShadowBatches.Worker.Turn: running one review against the candidate model is a parameter; batches do not share state, so interleavings are those of one batch.
- ProbeBatch.EverySchedule: four slots per job, as in the code; several jobs together may have more probes in flight.
- Reviews.RunReviewer: the conversation with the reviewing model (`compact`, `messages`, the session) is the answer parameter.
- QuotaAlerts.AlertsAlternate: the alert state file is always readable; if it is lost while the alert log stays, the next low reading is logged again.
- Admin handlers, login, the frontend, provider registry, reservations and remote quota collectors.
