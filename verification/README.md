# OrangeGuard: verified model of the routing core

OrangeGuard routes a request for a model name. The name may be a group (a "virtual model") whose members are
leaf models or further groups. The engine walks that graph, tries leaves under retry, budget, guard and
cooldown rules, and delivers a response only when the right model served it. This project models that core in
Dafny and proves what clients and operators rely on, over every configuration, host, sink, clock and random draw.

Reading order:

- `Glob`, `Identity`, `Errors`: the wildcard matcher, the model-identity rules, the error classification.
- `Config`, `GroupGraph`: group normalisation and the memoised depth-first validator.
- `Cooldown`, `CooldownHistory`: the cooldown store as a class, and its table as a function of history.
- `Readiness`, `Schedule`, `Plan` (module `Planning`): group availability, strategies, the attempt plan.
- `Transport`, `Host` (module `Hosting`): one attempt, plain or streamed, as a function of a script, and the
  read loop that implements it on a host object and a sink object.
- `Routing`: `Run`, the meaning of a whole request as one function. `Engine` (module `Execution`): the two
  execution loops on objects (request state, shared budget objects, store, scheduler), both proved to compute `Run`.
- `ExpectationLaws`: what a configured guard lets through, in terms of the configured lists alone.
- `BudgetLaws`, `TraceLaws`, `PathLaws`, `RunLaws`, `PlanLaws`, `HaltLaws`, `ExhaustionLaws`: what a request may
  call, spend and change, and when it is cut off. `AnswerLaws`, `CancelLaws`, `RecordLaws`: what the host's answers
  come to, and what goes on record. `ProgressLaws`, `StopLaws`, `ReturnLaws`: when a group goes on, and when not.
  `BlameLaws`, `CountLaws`, `FailoverLaws`, `AgreementLaws`: what the client is told, and on which transport.
  All are theorems about `Run`.
- `Service`: theorems stated on the objects, end to end, for a plain and for a streaming request.

The host is a script of replies, streams and clock readings, indexed by call; the sink accepts or refuses each
payload as it likes. A run keeps a log of plans, leaf calls, cooldown records and halts, and most theorems are
about that log. Termination of both execution loops, of availability and of the validator for cyclic and over-deep
graphs is part of what is verified: each recursion carries the measure (8 minus path length, then position).

Five findings, each proved with a concrete input:

- The wildcard matcher misjudges names that contain a `*`, and only those (`MatcherIsExactIff`).
- The backoff is converted to an int64 duration before it is clamped. Where the platform's out-of-range value is
  negative, the default quota cooldown disappears from the 24th consecutive failure on
  (`DefaultQuotaCooldownVanishes`); `UnhintedSpellIff` says exactly when the intended value is met.
- The validator keeps the last group of a name and the engine the first, so duplicate names let a cyclic
  configuration through (`DuplicateNamesEscapeValidation`), and every request for that group then fails
  (`DuplicateNamesFailAtRunTime`). What the validator establishes holds of the running graph if and only if the
  normalised list validates too (`NormalizedValidationIsExact`), which protects every request with any names
  (`RevalidatedConfigsNeverFault`).
- A group whose quoted name holds a quota, not-found or price marker changes the failover decision of the groups
  above it (`MarkedGroupNameFailsOver`, `QuotingCanForgeAMarker`); `PathKeepsDecisionsIff` says it is exactly
  those names, over any nesting.
- A cancellation after output has been released is taken for an upstream failure and strikes the leaf
  (`DisconnectStrikesTheLeaf`); its text reads like a failing server, so with the default settings two clients that
  go away cool a healthy model down for 30 seconds (`TwoDisconnectsCoolDown`). `CancellationStrikesIff` says exactly
  when: the payloads before the cancellation have settled the name and it passes, whether or not the sink took them.

Where code and documentation differ the model follows the code: the repository's README.md (line 251) counts quota
wording only under 429, 403 and 5xx, while the code lets it decide for every 4xx status but 401, 402 and 404
(`Errors.Classify`); the comment on the matcher says `*` matches any run of characters, which fails for a `*` in
the name.

## Model

| member | source | states |
|---|---|---|
| Glob.Match | internal/config/config.go:476-502 | the single-star backtracking loop terminates and decides the recursive matching relation in which a star facing a literal `*` is consumed as a character |
| Glob.LaterStartsEndLater | internal/config/config.go:490-493 | why one remembered star is enough: a segment matched character by character from a position is matched from any later start only with a later end |
| Glob.ScanIsSound | internal/config/config.go:476-502 | whatever the matcher accepts, the pattern means, for all names |
| Glob.MatcherIsExactIff | internal/config/config.go:476-502 | the matcher decides the wildcard meaning of every pattern on a name if and only if the name holds no `*` |
| Glob.StarredNameIsMisjudged | internal/config/config.go:483-489 | for each name with a `*`, a pattern that means it and is refused |
| Glob.ModelMatch | internal/config/config.go:516-518 | an unqualified pattern is also tried on the model ID inside the namespace |
| Glob.ModelNameStripsNamespace | internal/config/config.go:506-512 | any namespace in front of an ID is removed, and nothing else |
| Glob.UnqualifiedPatternsIgnoreNamespaces | internal/config/config.go:514-518 | a pattern without `/` that accepts an ID accepts it under every namespace |
| Glob.QualifiedPatternsAreLiteral | internal/config/config.go:514-518 | for a pattern with `/` no namespace is taken off the name |
| Glob.HasWildcardIff | internal/config/config.go:521-523 | a pattern has a wildcard if and only if it means some name other than itself |
| Identity.IsDigits | internal/detect/model.go:228-238 | true exactly for nonempty all-digit strings |
| Identity.IsVersionSuffix | internal/detect/model.go:200-226 | the loop decides the snapshot-suffix predicate: every field a keyword or digits, and no digits or at least three in total |
| Identity.SnapshotSuffixesJoin | internal/detect/model.go:204-226 | snapshot suffixes are closed under joining with any separator |
| Identity.SnapshotIsTransitive | internal/detect/model.go:168-171 | a snapshot of a snapshot is accepted as a snapshot of the original |
| Identity.ExtensionAcceptedIff | internal/detect/model.go:159-178 | an ID extended by a separator and a suffix is accepted if and only if the separator is a suffix boundary and the suffix a snapshot, under any namespaces |
| Identity.AliasAcceptedIff | internal/detect/model.go:172-188 | an ID that extends another in front, by any prefix and a character, is accepted for it if and only if the character is one of the six boundaries and the served ID belongs to one of the listed families, or is `o1`, `o3` or `o4`, under any namespaces |
| Identity.MatchesIff | internal/detect/model.go:159-178 | a served name is accepted if and only if the IDs are equal, or it is a snapshot, or the expected name an alias of it, with separators and families written out |
| Identity.VersionSuffixIff | internal/detect/model.go:204-226 | a suffix names a snapshot if and only if each field is a word of the list or a run of digits, and it has no digits or at least three in all |
| Identity.TierNeverMatchesBase | internal/detect/model.go:156-178 | a tier or minor-version suffix is never accepted for the base model |
| Identity.SnapshotIsNotAlias | internal/detect/model.go:172-176 | no ID is at once a snapshot of another and its stripped alias |
| Identity.MutualMatchIsEquality | internal/detect/model.go:159-178 | two names that each accept the other have the same model ID |
| Identity.Check | internal/detect/model.go:118-147 | the loops compute the verdict whose meaning `MatchesIff`, `HasWildcardIff` and `ExpectationLaws.MemberListsDecide` give: missing names by setting, denials before acceptances, wildcards literally and plain names tolerantly |
| Identity.DefaultExpectationVerdict | internal/detect/model.go:131-146 | an expectation without lists accepts exactly what its own model does: by the wildcard rule if the name holds `*` or `?`, by the identity rules otherwise |
| Identity.DefaultExpectationRejectsTiers | internal/detect/model.go:131-146 | such an expectation rejects every tier or minor version of its model |
| Errors.ClientErrorIff | internal/detect/errors.go:58-119 | an error is a client error if and only if its status leaves the decision to the message and the message holds no quota, not-found or price marker |
| Errors.KindsIff | internal/detect/errors.go:58-119 | for every status and every message, the exact condition of each kind in terms of the status and of the presence of quota, rate, not-found, auth and price text |
| Errors.DocumentedWordings | internal/detect/errors.go:32-56 | the wordings that the documentation names are among those markers |
| Errors.VisibleStatusIff | internal/engine/engine.go:732-745 | an error without a status is shown as 429, 403, 404 or 502, each exactly for its kinds; any other keeps its own |
| Errors.PluginRefusalIff | internal/detect/errors.go:131 | the refusal pattern holds exactly of the fixed text followed by digits, within white space |
| Errors.NoStraddling | internal/detect/errors.go:195-202 | a marker found in text joined at `": "` lies wholly on one side |
| Errors.DecisionIsStableIff | internal/engine/engine.go:686-716 | the failover decision survives a prefix that ends in `": "`, for all statuses and messages, if and only if the prefix holds none of those markers |
| Config.NormalizeMembers | internal/config/config.go:320-344 | the loop with its seen-map keeps what the recursive specification keeps, with the expect and deny lists of each member cleaned up |
| Config.CleanUp | internal/config/config.go:447-455 | the loop drops blank entries and trims the others |
| Config.FirstMembersAreKept | internal/config/config.go:322-344 | a member is kept if and only if it is the first of its name, named and not the group itself, with its own lists, weight and retries cleaned up |
| Config.Normalize | internal/config/config.go:295-363 | the loop over groups keeps what the recursive specification keeps |
| Config.NormalizedIsClean | internal/config/config.go:295-353 | distinct nonempty group names, at least one member each, distinct members other than the group itself, weights at least 1, no negative limits, clean lists |
| Config.FirstUsableIsKept | internal/config/config.go:303-353 | a look-up after normalisation finds the first group of that name with a usable member, tidied, and finds none if and only if there is no such group |
| Config.NormalizationIsIdempotent | internal/config/config.go:295-363 | normalising twice changes nothing more |
| Config.CleanListJoins | internal/config/config.go:447-455 | cleaning a list keeps order and number: it is cleaning its parts |
| Config.CleanListOfOne | internal/config/config.go:447-455 | of one entry it is the trimmed entry, or nothing exactly for white space |
| Config.SettingsThatAreKept | internal/config/config.go:329-353 | valid weights, retries and limits stay as configured, others become 1, 0 and 0, and nothing else of a group or member changes |
| GroupGraph.Validator.Visit | internal/config/groups.go:19-46 | keeps the memo invariant (a checked group is within depth, its references clean, every child checked at least one level deeper), and rejects only with a genuine fault |
| GroupGraph.ValidateGroups | internal/config/groups.go:10-53 | accepts if and only if the graph has no cycle, no walk of more than 8 groups and no leaf settings on a group reference, for every visiting order |
| GroupGraph.AcceptableMeans | internal/config/groups.go:8-47 | that condition in plain terms: at most eight groups in a chain, none that returns, and no list or retries on a member that names a group |
| GroupGraph.MemoBoundsWalks | internal/config/groups.go:15-28 | with a closed memo, walk length plus checked depth never exceeds 8 |
| GroupGraph.BoundedIsAcyclic | internal/config/groups.go:20-31 | a graph without long walks has no cycle |
| GroupGraph.ValidatedConfigIsBounded | internal/config/config.go:239-246 | with distinct names, acceptance before normalisation bounds the graph the engine runs on after it |
| GroupGraph.DuplicateNamesEscapeValidation | internal/config/groups.go:11-14 | an accepted configuration with a duplicate name whose running graph has a cycle |
| GroupGraph.NormalizedValidationIsExact | internal/config/config.go:239-246 | for every list of groups: the graph the engine runs on is bounded if and only if validation of the normalised list finds no cycle and no long walk, and that list is accepted if and only if the running graph is bounded with clean references |
| Cooldown.Duration | internal/cooldown/store.go:110-131 | one cooldown's length, whose value `HintedSpell`, `OtherSpellsIgnoreHints`, `UnhintedSpellIff` and `ServerSpell` give: none below the threshold, then backoff, replaced or extended by a hint, then cut at the limit |
| Cooldown.Entry.Fail | internal/cooldown/store.go:98-138 | the entry's whole new state, and the duration reported to the caller |
| Cooldown.Store.Until | internal/cooldown/store.go:65-73 | the deadline while it lies in the future, else zero |
| Cooldown.Store.Available | internal/cooldown/store.go:76 | agrees with `Until` |
| Cooldown.Store.RecordSuccess | internal/cooldown/store.go:79-88 | clears deadline, reason and strikes of that model only |
| Cooldown.Store.RecordFailure | internal/cooldown/store.go:93-139 | changes that model's entry only, by the specification; reports the remaining cooldown exactly when this failure starts one |
| Cooldown.Store.Reset | internal/cooldown/store.go:143-156 | removes one entry or all, and counts what it removed |
| CooldownHistory.TableIsExplainedByHistory | internal/cooldown/store.go:65-156 | for every event sequence, a model's deadline is the latest end among its failures since the last success or reset, its reason that of the first failure reaching it, its strikes their per-kind counts |
| CooldownHistory.CoolingIffSomeSpellRuns | internal/cooldown/store.go:65-76 | a model is skipped if and only if the cooldown of some recent failure is still running |
| CooldownHistory.CooldownsAreCapped | internal/cooldown/store.go:126-138 | no cooldown ends later than the latest failure time plus the limit |
| CooldownHistory.HarmlessFailures | internal/cooldown/store.go:98-104 | a client error, or any error with cooldowns disabled, changes nothing but the failure count |
| CooldownHistory.CountsAreTotals | internal/cooldown/store.go:79-156 | an entry's failure and success counts are those of its model since its last reset |
| CooldownHistory.UnhintedSpellIff | internal/cooldown/store.go:117-128 | the k-th unhinted cooldown is min(base times multiplier^(k-1), limit) if and only if the product fits an int64 or the platform's out-of-range value reaches the limit |
| CooldownHistory.HintedSpell | internal/cooldown/store.go:118-131 | with a reset hint a quota or rate-limit cooldown is the hint within the limit; where the host wrote the message itself, the longer of that and the backoff |
| CooldownHistory.OtherSpellsIgnoreHints | internal/cooldown/store.go:118 | every other kind, and every kind where hints are not honoured, has the cooldown it has without a hint |
| CooldownHistory.BackoffIs | internal/cooldown/store.go:111-117 | the first backoff of each kind is its configured seconds, each further one the configured multiple of the one before |
| CooldownHistory.DefaultCooldowns | internal/cooldown/store.go:195-212 | under the default settings the first cooldown of each kind in seconds, and none for a first server error |
| CooldownHistory.DefaultQuotaLadder | internal/cooldown/store.go:111-128 | and the quota cooldowns double up to six hours |
| CooldownHistory.ServerSpell | internal/cooldown/store.go:111-117 | server errors below the threshold cost nothing; from there the same law counts from the threshold |
| CooldownHistory.SpellsGrow | internal/cooldown/store.go:107-128 | within range a further failure of any kind, server errors from the threshold on included, never shortens the cooldown |
| CooldownHistory.DefaultQuotaCooldownVanishes | internal/cooldown/store.go:117-131 | with default settings and a negative out-of-range value no cooldown starts from the 24th quota failure on, where six hours are intended |
| Readiness.CheckAvailability | internal/engine/availability.go:12-41 | the recursive method with its soonest-so-far loop computes the specification on any graph, cyclic ones included |
| Readiness.AvailabilityMeaning | internal/engine/availability.go:10-41 | on every graph, cyclic and over-deep ones included: ready if and only if some leaf is not cooling that eligible members lead to through at most eight groups, none twice; otherwise the reported time is the minimum over those leaves, zero when there is none |
| Readiness.BoundedWalksAreStraight | internal/engine/availability.go:18-25 | on a bounded graph that is every leaf that can be reached at all |
| Readiness.NotCutOff | internal/engine/availability.go:18-25 | on a bounded graph the depth and cycle guards never fire |
| Schedule.Scheduler.Order | internal/engine/engine.go:286-329 | the order by strategy, which `FixedOrders`, `RandomReachesEveryOrder`, `WeightedFirstIff` and `SelectedIsTheMember` describe, and which counters move |
| Schedule.ShuffleInPlace | internal/engine/engine.go:301-303 | the array is permuted in place as the exchange sequence says, which can lead to every order |
| Schedule.SampleWeighted | internal/engine/engine.go:304-325 | repeated weighted picks with deletion compute the specified sample |
| Schedule.OrderKeepsMembers | internal/engine/engine.go:286-329 | every strategy but manual returns a permutation of the members; manual at most one, the selected one |
| Schedule.FixedOrders | internal/engine/engine.go:297-300 | fallback keeps the configured order; round-robin has at place k the member at counter + k, round and round |
| Schedule.RandomReachesEveryOrder | internal/engine/engine.go:301-303 | for every permutation of the members there are draws under which a random group tries them in that order |
| Schedule.RandomLastIsDrawn | internal/engine/engine.go:301-303 | for all draws, the last place goes to the member drawn for it |
| Schedule.WeightedReachesEveryOrder | internal/engine/engine.go:304-325 | with positive weights, every permutation comes out for some draws of the unit interval |
| Schedule.SelectedIsTheMember | internal/engine/engine.go:290-296 | manual selection finds the named member exactly when there is one |
| Schedule.WeightedFirstIff | internal/engine/engine.go:309-321 | member k is picked if and only if the scaled draw lies in k's own interval of the running weight |
| Schedule.WeightedHead | internal/engine/engine.go:304-325 | that pick is the first member tried |
| Schedule.RoundRobinIsFair | internal/engine/engine.go:297-300 | over N consecutive entries each of n members is first floor(N/n) or ceil(N/n) times, from any counter value |
| Schedule.ConcurrentRoundRobinIsFair | internal/engine/engine.go:297-300 | the same for requests that drew the values of a stretch in any order, however they interleave |
| Planning.FindGuard | internal/config/config.go:398-409 | the first rule whose pattern matches |
| Planning.LeafExpectation | internal/engine/engine.go:214-235 | which expectation a leaf member gets: own lists with the rule's denials added, the rule, the group's guard, or none; what each admits is said in `ExpectationLaws` |
| Planning.DenialsAlwaysWin | internal/engine/engine.go:215-228 | a served name denied by the member or by its model's rule is a mismatch whatever else accepts it |
| ExpectationLaws.FirstRuleWins | internal/config/config.go:398-409 | the rule that counts is the earliest whose pattern takes the name, and there is none exactly when no pattern does or the name is empty |
| ExpectationLaws.MemberListsDecide | internal/engine/engine.go:215-225 | a member with lists of its own: a served name is accepted if and only if none of its or its rule's denials takes it and some configured entry does (its own name if none is configured), a wildcard entry as a pattern and any other as a model name; a missing name goes by the configured setting |
| ExpectationLaws.RuleDecides | internal/engine/engine.go:227-228 | a member without lists goes by the rule of its model, likewise |
| ExpectationLaws.OwnNameDecides | internal/engine/engine.go:229-234 | with neither, it is checked if and only if the group is guarded, and then against its own name |
| ExpectationLaws.DirectRequestsGoByTheirRule | internal/engine/engine.go:181-190 | a model called directly is checked exactly where a rule takes it, by that rule, with its retries or else the configured ones |
| Planning.MakePlan | internal/engine/engine.go:177-274 | the planner on store and scheduler objects computes the plan of the specification, about which are the next rows and `StopLaws`, `ProgressLaws` and `PlanLaws`, and advances only its own counter |
| Planning.ReadyMembersArePlanned | internal/engine/engine.go:199-243 | when a member is ready, targets are exactly the ready ones and skipped ones exactly the others, together all ordered members |
| Planning.CoolingMembersAreSorted | internal/engine/engine.go:245-264 | when none is ready, the plan is refused exactly for manual and fail-when-cooling groups, else tries all members in recovery order, ties in place |
| Planning.RefusalsSayWhy | internal/engine/engine.go:196-260 | an entry is refused exactly when a manual selection names no member, or when no member is ready in a manual or fail-when-cooling group; which of the three statuses and codes it then gets |
| Planning.ReadyPlansKeepTheOrder | internal/engine/engine.go:193-273 | with every member ready the plan holds all of them in the order of the strategy |
| Planning.StableSortIsStable | internal/engine/engine.go:249-251 | the sort is sorted, a permutation and stable |
| Planning.PlannedTargetsAreMembers | internal/engine/engine.go:195-266 | every target is a member the group may use, under that member's own expectation and tries |
| Hosting.StreamOnce | internal/engine/engine.go:563-667 | one stream attempt on host and sink objects: outcome, exact output, and one close for an opened stream; the outcome is the one `AnswerLaws.ScriptsDecide` reads off the script |
| Hosting.Relay | internal/engine/engine.go:590-666 | the read loop with buffer, probe and commit flag computes the specification for every script and every sink, which `AnswerLaws.DrainIsJudged` gives in closed form |
| Transport.StreamReleasesOnlyAdmittedOutput | internal/engine/engine.go:563-667 | an attempt's output is a prefix of its stream's payloads, all on success, none on mismatch, error or cancellation; under an expectation nothing is released unless the name known at the first payload that settles the matter (a name is reported, or a probe limit reached) passed, or the stream ended below the limits without a name and that is tolerated |
| Transport.DrainIsFaithful | internal/engine/engine.go:605-666 | the same from any point of the stream on |
| Transport.ClearedByName | internal/engine/engine.go:632-665 | whatever is released goes by one deciding name, which the expectation lets pass |
| Transport.StreamDecidesByName | internal/engine/engine.go:605-666 | a whole stream taken by the sink is served or rejected by its deciding name alone |
| Transport.StreamDecidesAsPlain | internal/engine/engine.go:378-405 | such a stream is judged as the plain response with that body if and only if the deciding name and the name in the whole body are worth the same to the expectation |
| Transport.ReliableProbeNamesTheBody | internal/engine/engine.go:632-650 | that holds under every expectation when the first name reported is the body's and no limit cuts it off |
| Transport.StreamErrorAsPlain | internal/engine/engine.go:573-588 | an error stream read to its end is judged as the plain error with the trimmed body |
| Execution.Engine.PrepareExecution | internal/engine/groups.go:19-39 | path, inherited guard and a fresh budget object on entry, or the cycle or depth failure with nothing changed |
| Execution.Engine.ConsumeAttempt | internal/engine/groups.go:41-55 | one unit from the request and from every distinct budget object on the path, or a refusal and no change at all |
| Execution.Engine.RecordError | internal/engine/engine.go:671-690 | the failure shown to the client, and exactly one failure recorded |
| Execution.Engine.RecordMismatch | internal/engine/engine.go:692-698 | likewise for a blocked substitution |
| Execution.Engine.TryLeaf | internal/engine/engine.go:368-414 | the tries on one leaf compute the specification |
| Execution.Engine.TryTargets | internal/engine/engine.go:350-426 | the loop over targets, nested groups included, computes the specification |
| Execution.Engine.Execute | internal/engine/engine.go:332-427 | the plain loop on shared mutable state computes `Routing.Run` and leaves the state it says; what the host's answers do to it is said in `AnswerLaws`, `StopLaws` and `ReturnLaws` |
| Execution.Engine.TryStreamLeaf | internal/engine/engine.go:494-547 | the same for streaming; the commit flag is set exactly when output was released or the stream completed |
| Execution.Engine.ExecuteStream | internal/engine/engine.go:449-560 | the streaming loop computes the same `Routing.Run` on its transport, with sink, closed streams and commit flag |
| BudgetLaws.RunPays | internal/engine/groups.go:41-55 | over any run at any depth each leaf call costs exactly one unit of the request budget and of every budget on its path, and none is overdrawn |
| BudgetLaws.GroupBudgetHolds | internal/engine/groups.go:34-36 | any single entry into a group with `max_attempts` m makes at most m leaf calls in its whole subtree |
| BudgetLaws.RequestBudgetHolds | internal/engine/groups.go:20-22 | any request, whatever was served before, makes at most 64 leaf calls, and the rest of its budget says how many |
| ExhaustionLaws.CutOffsAreEarned | internal/engine/groups.go:41-55 | a request is cut off for want of attempts only after 64 calls, or after as many calls as the `max_attempts` of a group since it was entered |
| ExhaustionLaws.OwnCallsDoNotCutOff | internal/engine/engine.go:415-426 | a requested group with `max_attempts` that has made all these calls itself is not cut off: its failure is its last member's |
| ExhaustionLaws.FlatGroupsAreNotCutOff | internal/engine/engine.go:267-272 | nor is a requested group of leaves ever, short of 64 calls |
| TraceLaws.RunTrace | internal/engine/engine.go:331-426 | every run's log accounts for all its changes to store, counters, clock readings, request budget, sink and closed streams, is well ordered and announces its result (group budgets: `RunPays`) |
| PathLaws.RunIsProper | internal/engine/engine.go:181-235 | every host call names a leaf, reached through distinct groups by members each may use (only the selected one in manual groups), under exactly the expectation that rule, member lists and guards on the path impose |
| PathLaws.ForbiddenIsMismatch | internal/engine/engine.go:214-235 | that expectation rejects every name the leaf's guard rule denies or the member's own list denies |
| PlanLaws.RunGoes | internal/engine/engine.go:341-378 | along any run at any depth, each plan is the one that table, clock, counters and draws give at that moment, each call is for a target of the plan in force on its path, and calls go forward in it |
| PlanLaws.PlanRespectsCooldowns | internal/engine/engine.go:236-264 | a plan's targets were all ready, or no member the group may use was, the group is one that then tries all the same, and they stand in recovery order |
| PlanLaws.CallsFollowPlans | internal/engine/engine.go:177-378 | in every request, with the table replayed from its own log: no leaf is called that its group's plan did not ask for, none in another order, none that was cooling down when the plan was made while another member was ready, and in that case the soonest to recover first |
| PlanLaws.EntriesTakeTurns | internal/engine/engine.go:297-300 | in any request, each entry into a round-robin group with all members ready plans them from the one that the counter and the entries since have come to |
| AnswerLaws.DrainIsJudged | internal/engine/engine.go:590-666 | the read loop in closed form, outcome and output, for any sink, from any point before release: by the payloads up to the end or cut of the stream, whether they settle the name, and whether it passes |
| AnswerLaws.RepliesDecide | internal/engine/engine.go:378-410 | a plain reply comes to an upstream error, a cancellation, a mismatch or the body, by what the host answered and nothing else |
| AnswerLaws.ScriptsDecide | internal/engine/engine.go:563-667 | likewise a stream: one that is not opened, has no identifier or an error status, or is read |
| AnswerLaws.ErrorBodyIs | internal/engine/engine.go:573-588 | what is kept of an error stream: its payloads to its end, or to the first that reaches 256 KiB |
| AnswerLaws.AnswersDecide | internal/engine/engine.go:378-414 | in every request each leaf call comes to what the host's script answers it with, and an upstream error is answered by exactly one failure record of that leaf and kind |
| AnswerLaws.CancelledIff | internal/engine/engine.go:383-386 | a call is cancelled if and only if the host says so in place of a reply, of a stream, or of the rest of a stream that has settled nothing |
| AnswerLaws.ErredIff | internal/engine/engine.go:379-393 | a call is an upstream error if and only if the host failed with that error, answered with an error status, or cut off a stream that had settled nothing |
| RecordLaws.RecordsFollowTheMessage | internal/engine/engine.go:671-698 | each failure on record is that of the call right before it: its leaf, its kind, the hint and origin of its own message at that clock reading, under the configured cooldowns |
| CancelLaws.CancellationStrikesIff | internal/engine/engine.go:504-534 | in any request such a cancellation strikes its leaf if and only if the output had been released; while nothing was settled it records nothing and ends the request |
| CancelLaws.TakingSinksBreakWithTheCancellation | internal/engine/engine.go:606-612 | with a sink that takes every payload the strike is for the cancellation itself |
| CancelLaws.DisconnectStrikesTheLeaf | internal/engine/engine.go:505-519 | the failing run: one payload, then a disconnect, on a plain leaf |
| CancelLaws.TwoDisconnectsCoolDown | internal/cooldown/store.go:104-137 | with default settings a second such request starts a 30 second cooldown |
| CancelLaws.CanceledClassifiesAsServer | internal/detect/errors.go:106-119 | the text "context canceled" holds no marker and reads as a server error |
| RunLaws.EveryCallIsAccountedFor | internal/engine/engine.go:369-414 | the final cooldown table is the replay of the recorded changes; each call is answered at once by its own record, another try, a budget cut or, when cancelled before any release, the end of the request without a record; every record answers the call before it |
| RunLaws.CountersAdvancePerEntry | internal/engine/engine.go:297-300 | a request advances a round-robin group's counter once per entry into it and at no other time |
| RunLaws.DeliveryEndsWithSuccess | internal/engine/engine.go:406-410 | a served request ends with its serving call and that leaf's one success; no other request records a success |
| RunLaws.HaltsReachTheClient | internal/engine/groups.go:56-58 | a terminal failure raised at any depth is the last event of the request and reaches the client unchanged |
| RunLaws.PlainResponseIsNotSubstituted | internal/engine/engine.go:364-410 | a delivered plain response is the body of the last host call; the expectation imposed on that leaf did not reject it, is present below any guarded group, and the name is none that the member's list or the guard rule denies |
| RunLaws.ClientSeesOneStream | internal/engine/engine.go:445-667 | the sink holds a prefix of one stream, the last opened; all of it on success; nothing on rejection; cleared by the expectation imposed on that leaf at the deciding payload, and going by no name that the member's list or the guard rule denies |
| RunLaws.StreamsAreClosedOnce | internal/engine/engine.go:571 | to what was closed before, a request adds exactly the calls it made for which the host's script opens a stream, in order, each once |
| HaltLaws.RunRaises | internal/engine/groups.go:56-58 | a terminal failure at the end of any run was raised by the engine as the run's last event |
| HaltLaws.TerminalIffHalted | internal/engine/engine.go:358-360 | given host codes other than the four terminal ones, a request fails with a terminal failure if and only if something below raised exactly it |
| HaltLaws.ValidatedConfigsNeverFault | internal/config/config.go:236-246 | a configuration with distinct names that is accepted and normalised never yields a cycle or depth failure |
| HaltLaws.BoundedConfigsNeverFault | internal/engine/groups.go:23-32 | no request on a bounded graph ever yields a cycle or depth failure |
| HaltLaws.RevalidatedConfigsNeverFault | internal/config/config.go:239-246 | whatever the names, acceptance of the normalised list protects every request |
| HaltLaws.DuplicateNamesFailAtRunTime | internal/config/groups.go:11-14 | on the accepted configuration with a duplicate name every request for that group fails with the cycle failure, for every host, clock and earlier traffic |
| HaltLaws.CircleNeedNotFail | internal/engine/engine.go:245-260 | an unbounded graph on which requests for its groups are refused as cooling down before the circle closes |
| AgreementLaws.TransportsAgree | internal/engine/engine.go:332-560 | if the other transport comes to the same on each leaf call the request makes, under the expectation in force there, both loops make the same calls, spend the same budgets, leave the same store and counters and fail alike |
| AgreementLaws.CarriedResponsesAnswerAlike | internal/engine/engine.go:563-667 | streams that carry whole the plain replies of those calls, to a sink that takes them, with names worth the same to the expectation (any names where nothing is expected), meet that premise |
| AgreementLaws.CarriedRequestsAgree | internal/engine/engine.go:332-667 | then the requests agree, and what a delivered streaming request has put into the sink is the plain body |
| FailoverLaws.PreambleExcusesIff | internal/engine/engine.go:708-714 | the text a group puts in front of an error holds a marker if and only if the quoted form of the group's name does |
| FailoverLaws.LevelKeepsDecisionsIff | internal/engine/engine.go:686-716 | a group level keeps every failover decision above it if and only if the quoted form of its name holds no quota, not-found or price marker |
| FailoverLaws.PathKeepsDecisionsIff | internal/engine/engine.go:350-426 | a whole path of nested groups keeps every failover decision if and only if no group on it has such a name |
| FailoverLaws.QuotingCanForgeAMarker | internal/engine/engine.go:713 | a name without a marker whose quoted form holds one |
| FailoverLaws.MarkedGroupNameFailsOver | internal/engine/engine.go:358-361 | a group named `credit-pool` turns a member's client error into one its parent fails over on |
| ProgressLaws.TriesProgress | internal/engine/engine.go:369-418 | the tries on one leaf are consecutive calls, as many as planned unless the last one failed upstream or the attempts ran out; an error that stops the group is one it does not fail over from |
| ProgressLaws.GroupTriesAllItCan | internal/engine/engine.go:350-426 | a group entry that ends in a failure it would itself fail over from has a refused plan, or is the requested group and has spent `max_attempts` to the last call, or has called each leaf it had to try (the ready ones, or all if none is) 1 + its configured `max_retries` times in a row or up to an upstream error, and entered each such group |
| ProgressLaws.DirectRequestsTryAllTheyCan | internal/engine/engine.go:181-190 | a direct request that fails in an ordinary way has made 1 + the retries of its rule, or else the configured ones, or ended in an upstream error |
| StopLaws.RunEnds | internal/engine/engine.go:386-392 | in any run, after an upstream error that no group from that level down is configured to fail over from (any error of a direct request), no leaf is called any more and the run comes to that very failure |
| StopLaws.StoppingErrorsReachTheClient | internal/engine/engine.go:358-392 | so in every request: such an error is the last call's, and the client gets it unchanged |
| ReturnLaws.OnlyFailoverGoesOn | internal/engine/engine.go:354-395 | in every request, what is called or entered right after an upstream error is so by a group that the failed call was below and that is configured to fail over from that error, unless a group in between has a marked name |
| BlameLaws.RunIsFounded | internal/engine/engine.go:671-717 | at any depth, a failure is terminal, or what has become of the last leaf call's failure or the last refused plan as the groups on its path have handed it up (or the log ends with a plan that had nothing to try, as where negative retries are configured) |
| BlameLaws.ClientIsToldTheLastFailure | internal/engine/engine.go:419-426 | a request that was not cut off tells the client the very failure of its last leaf call or, after that, of its last refused plan, wrapped by none but groups on that path, from the inside out |
| BlameLaws.WrappingKeepsTheCause | internal/engine/engine.go:708-715 | so status, code and the end of the message are its own |
| BlameLaws.CausesAre | internal/engine/engine.go:671-698 | which are the upstream error's, with a status for its kind and a general code where it has none, or 503 and `model_mismatch_blocked` naming what was served |
| CountLaws.GroupSaysHowOften | internal/engine/engine.go:700-717 | a group that gives up on a failure it would fail over from puts its own name and the number of calls it made itself in front |
| BlameLaws.HandedErrorsKeepTheDecision | internal/engine/engine.go:358-361 | at every level, a failure handed up is judged as the upstream error itself, unless a group it has come through has a marked name |
| BlameLaws.ToldErrorsKeepTheDecision | internal/engine/engine.go:358-361 | and whoever judges that failure decides as on the upstream error itself, unless a group on the path has a marked name |
| Service.ServePlain | internal/engine/engine.go:332-427 | a whole plain request on an engine as earlier requests left it: at most 64 further calls, the store is the replay of the log, calls follow plans and plans the cooldowns, calls come to what the host answered and only groups that fail over go on, a delivered body is the last reply's and not substituted |
| Service.ServeStream | internal/engine/engine.go:449-560 | a whole streaming request on such an engine: the same discipline, closes match what the host opened for it, own failures release nothing, otherwise one stream's cleared output |

## Left out

- Names and messages are taken trimmed and lower case over ASCII, so key equality stands for case-insensitive equality; Unicode case folding is not modelled, white space is that of ASCII, and quoting takes characters outside ASCII as printable.
- Arithmetic on reals stands for float64: rounding in the backoff and in weighted picks is not modelled. Of int64 wrap-around only the out-of-range conversion of the backoff is; configured seconds times 1e9 and instants are unbounded.
- HaltLaws.ValidatedConfigsNeverFault: acceptance bounds the running graph exactly as `NormalizedValidationIsExact` says, but that a request then fails is not implied: cooldown refusals and attempt budgets can come first (`CircleNeedNotFail`), so the run-time law goes one way.
- Schedule.RoundRobinIsFair: counters below 2^64 only, which a stretch of drawn values stands for.
- Schedule.ShuffleInPlace: the library shuffle is taken as Fisher-Yates over arbitrary draws; the distribution of draws is not modelled.
- ReturnLaws.OnlyFailoverGoesOn: below a group whose quoted name holds a marker nothing is said about who goes on; `PathKeepsDecisionsIff` says that the decision can then differ.
- Concurrent requests on one engine (mutexes, atomic configuration swap, the active counter and `Claims`); each request runs here from an arbitrary shared state to its end.
- Planning.MakePlan: one clock reading serves a whole plan, while the source reads the clock for each member; the waiting time in the all-cooling message is left out.
- Identity.Check: extraction of the served name from JSON and SSE payloads is an arbitrary function of the bytes seen so far, and returns trimmed names.
- Errors.ClientErrorIff: the refusal pattern is modelled; `RetryAfter` and `IsHostCooldown` are arbitrary functions of the message.
- HaltLaws.CircleNeedNotFail: which unbounded configurations fail for some environment is not characterised; it depends on budgets, order and cooldowns together.
- Execution.Engine.Execute: logging, the retry delay, rewriting of the request body and the callback ID are left out, and the inner loops are methods of their own; response headers are not part of a body.
- Hosting.StreamOnce: a script that runs out answers with a read error; cancellation is a fault of its own instead of a wrapped error.
- Config.Normalize: warnings, capabilities, guard-rule and cooldown clean-up, strategy spelling and the manual-group validation are left out; names are trimmed beforehand.
- Snapshot, last-error texts and success and failure times of cooldown entries: they affect no decision.
- Monitor, catalog, management endpoints, user interface, model registration, plugin ABI and host callbacks: plumbing around the core.
