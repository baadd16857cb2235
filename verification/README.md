# AIpinho runtime verification

A Dafny model of the parts of AIpinho that decide what an external client may cause: continuous
collaboration sessions and delegations, the redacting record store, cognitive governance, web
search, the sandbox file writer, public API admission and semantic pattern ranking. Each module
holds the operations as the services perform them, and theorems that hold for every input, every
run or every reachable state.

## Modules

- `JsonValues`, `Sequences`: dynamic values, filtering, de-duplication, Python slices and `sorted`.
- `Substitution`, `Redaction`: leftmost pattern substitution, the secret pattern, nested clean-up.
- `EventLogs`, `Sessions`, `SessionService`: the event log, the session state machine over the
  redacting store, and the service class whose calls perform its steps. `SessionSteps` states what
  each step does, field by field.
- `SessionInvariants`, `SessionTheorems`, `SessionAuthority`, `SessionVerdicts`: what every reachable
  state satisfies, progress through the log, which evaluation a poll judges, the authority rule, and
  how long a verdict lasts.
- `Delegations`: parent and child runs.
- `NestedSearch`, `Governance`, `GovernanceController`, `GovernanceTheorems`, `GovernanceLaws`: the
  seven-stage pipeline, its classes with their histories, its closed form, and what each stage
  decides from the request and the policies.
- `Scanners`, `SearchRanking`, `PageSources`, `SearchFallback`: result page scanners, relevance,
  the way from a page to its sources, and backends.
- `Sandbox`, `PublicApi`, `PatternRanking`: file writer, admission layers, pattern ranking.

## Modelling decisions

- Values drawn from uuid and clock are parameters. Generated identifiers are fresh and consist of
  letters, digits and underscores; receipt times are whole seconds, as `utc_now_iso` produces them
  (`src/aipinho/schemas/events/contracts.py:17-18`), and any clock behaviour is allowed unless a
  theorem asks for an advancing one.
- A session step reads and writes records through the redacting store, so the state machine works
  on redacted sessions and evaluations throughout. A directory listing is an arbitrary order of the
  bucket.
- The run summary, the truth validator's violations, the delegation decision, the kernel's answer
  and the statuses in which the runtimes create runs are inputs of the step that uses them, with no
  assumption on their values.
- Library text functions (URL decoding, whitespace cleaning, case folding, `str().lower()`) are
  function parameters: the theorems hold for all of them. Costs, confidence and scores are reals;
  rounding to two decimals is any function that moves a value by at most 0.005.
- Strings are sequences of Unicode scalar values, so Python's lone surrogates do not occur.
- Text files follow POSIX: bytes are written as given and every line end reads as one newline.

## Findings

Properties one might expect, with the exact condition under which the code has them:

- A poll is sure to judge the evaluation named by `last_evaluation_id` exactly when that one is
  strictly newer than every other evaluation of the session. Two evaluations within one second
  break it, and the poll may then take a completion back (`SessionTheorems.LatestExactly`,
  `SessionVerdicts.SameSecondJudgesOlder`).
- When receipt times advance between a session's evaluations, the next poll with the same summary
  confirms every verdict of a poll and of an accepted evaluation. The verdict of a submission beyond
  the iteration limit, that a human is needed, is confirmed exactly when no approval is pending, the
  last accepted evaluation is not ready with a safe result and asks for no human, and it needs a
  retry or has findings, or the run failed or waits for the user; otherwise the poll replaces it.
  Such a submission also takes a completion back (`SessionVerdicts.NextPollConfirmsIff`,
  `SessionVerdicts.LimitVerdictForgotten`).
- A run names the child of a delegation exactly until it delegates again
  (`Delegations.ParentNamesLatest`).
- A child run names the delegation that created it exactly as long as it has not delegated further;
  a nested delegation overwrites the name (`Delegations.HistoriesSound`,
  `Delegations.NestedDelegationForgets`).
- A ready search result respects the limit exactly when the limit is at least one; a negative limit
  is exceeded by the encyclopedia fallback (`SearchFallback.BrowserSearch`,
  `SearchFallback.NegativeLimitExceeded`).
- A version that the API rejects is blocked unless the gateway policy supports it and requires no
  contract key; even then nothing is executed (`PublicApi.Api.Handle`, `PublicApi.StaleVersionCase`).
- The first write of a file reports the same status as its repetition exactly when the content is
  not empty and has no carriage return; an append keeps the old bytes as a prefix exactly when they
  hold no carriage return, and its repetition changes nothing exactly when the content holds none
  (`Sandbox.FirstWriteRetryIff`, `Sandbox.AppendKeepsBytesIff`, `Sandbox.AppendRetryIff`).
- The fallback reason "cognitive_governance_allowed" is never given, because escalation always
  contributes a reason (`GovernanceTheorems.ReasonsExplainVerdict`).

## Model

| member | source | states |
|---|---|---|
| Redaction.SecretMatchSpelled | src/aipinho/services/external_collaboration_store.py:22 | the matcher of the secret pattern succeeds at a position exactly when a secret word, blanks, a separator, blanks and a value character are spelled there |
| Redaction.SecretLengthExact | src/aipinho/services/external_collaboration_store.py:22 | a match has length n exactly when the first n characters are a whole secret: a word, an assignment and its value up to the first character that cannot belong to it |
| Redaction.StartsWithExactly | src/aipinho/services/external_collaboration_store.py:22 | the words are read in any mixture of cases, with the characters that fold to their letters |
| Redaction.PatternClasses | src/aipinho/services/external_collaboration_store.py:22 | the six words, the separators, the value characters and white space |
| Redaction.TextInPieces | src/aipinho/services/external_collaboration_store.py:149-150 | every text can be read from left to right into kept characters and whole secrets |
| Redaction.RedactExactly | src/aipinho/services/external_collaboration_store.py:149-150 | redaction hides exactly these secrets, keeps every other character in place and cuts at 30000 |
| Redaction.RedactRemovesSecrets | src/aipinho/services/external_collaboration_store.py:149-150 | after redaction no position of any text spells a secret, across replacements and the cut at 30000 |
| Redaction.RedactFixed | src/aipinho/services/external_collaboration_store.py:149-150 | a text is stored unchanged exactly when it is short enough and holds no secret |
| Redaction.RedactIdempotent | src/aipinho/services/external_collaboration_store.py:149-150 | redacting twice is redacting once |
| Redaction.SanitizeCleans | src/aipinho/services/external_collaboration_store.py:142-151 | every nested value comes out clean, with the same list lengths, dictionary keys and non-string scalars, the redacted text of every string, and the marker below sensitive keys |
| Redaction.SensitiveExactly | src/aipinho/services/external_collaboration_store.py:23 | the six sensitive keys, in upper or lower case |
| Redaction.SanitizeOmits | src/aipinho/services/external_collaboration_store.py:142-145 | a value under a sensitive key is replaced by the fixed marker whatever it is |
| Redaction.SanitizeFixed | src/aipinho/services/external_collaboration_store.py:142-151 | the values written unchanged are exactly the clean ones |
| Redaction.SanitizeIdempotent | src/aipinho/services/external_collaboration_store.py:113-117 | saving what was read back changes nothing |
| Substitution.SubstituteLeavesNoMatch | src/aipinho/services/external_collaboration_store.py:150 | leftmost substitution by an inert marker leaves no match at any position, for any matcher that reflects matches |
| EventLogs.Append | src/aipinho/services/runtime/task_run_store.py:414-443 | the store's own sequence numbers keep the log strictly increasing |
| EventLogs.AppendExactly | src/aipinho/services/runtime/task_run_store.py:414-443 | the log keeps what it held and ends with the new event, numbered one more than the last |
| EventLogs.DumpExactly | src/aipinho/services/external_collaboration_service.py:411 | the record of an event holds each field under its own name |
| EventLogs.PageObserves | src/aipinho/services/external_collaboration_service.py:401-411 | moving the cursor over one page observes exactly that page's subscribed events and skips nothing |
| EventLogs.PageShrinksBacklog | src/aipinho/services/runtime/universal_task_session_service.py:158-178 | each page takes the limit off the backlog, or all that is left |
| EventLogs.AppendPreservesObserved | src/aipinho/services/external_collaboration_service.py:401-411 | log growth never touches what lies behind the cursor |
| Sessions.IterationLimit | src/aipinho/services/external_collaboration_service.py:635-637 | the limit lies in 1..25 for every requested number |
| SessionService.CollaborationService.StartSession | src/aipinho/services/external_collaboration_service.py:353-388 | performs the start step on the records, raises for an unknown run and keeps the invariant |
| SessionService.CollaborationService.PollSession | src/aipinho/services/external_collaboration_service.py:396-439 | performs the poll step on the records, answers with the page's relevant events, the verdict and its evidence, and keeps the invariant |
| SessionService.CollaborationService.ReceiveEvaluation | src/aipinho/services/external_collaboration_service.py:441-525 | performs the evaluation step, or the limit branch exactly at the limit, answers with the verdict and its evidence, and keeps the invariant |
| SessionService.StoreIdSafe | src/aipinho/services/external_collaboration_store.py:137-140 | accepted identifiers are not empty and stay inside their bucket; generated ones are accepted |
| SessionSteps.JudgeRuled | src/aipinho/services/external_collaboration_service.py:684-729 | status, strategy, reason and evidence for every opinion and summary, each outcome exactly under its condition |
| SessionSteps.PollStep | src/aipinho/services/external_collaboration_service.py:396-432 | after a poll the verdict on the newest listed evaluation follows the rules, no retry is counted, a note is added exactly when events were observed, and nothing else changes |
| SessionSteps.ReceiveStep | src/aipinho/services/external_collaboration_service.py:461-516 | after an accepted submission the verdict on it follows the rules, one iteration is counted and one retry exactly when a retry is recommended, and the evaluation is stored and remembered |
| SessionSteps.LimitStep | src/aipinho/services/external_collaboration_service.py:445-455 | a submission beyond the limit stores nothing and only asks for a human |
| SessionSteps.StartStep | src/aipinho/services/external_collaboration_service.py:353-388 | a new session has the requested limit where it lies in 1..25, the given or the standard subscriptions, and is otherwise empty |
| SessionSteps.NothingSecretStored | src/aipinho/services/external_collaboration_store.py:113-117 | in every reachable state no text of any stored session or evaluation holds a secret or is too long |
| SessionInvariants.StepKeepsGood | src/aipinho/services/external_collaboration_service.py:353-525 | every step keeps counters, mirrors, remembered evaluations, stored form and observed events in agreement for all sessions |
| SessionInvariants.ReachableGood | src/aipinho/services/external_collaboration_service.py:353-525 | every state of every run satisfies the invariant: limit in 1..25, iterations within it, retries below both, status and retry state mirrored, a recommended retry leaves room |
| SessionInvariants.StoredEvaluationCount | src/aipinho/services/external_collaboration_service.py:445-495 | in every reachable state the evaluations stored for a session number exactly its iteration counter, at most 25 |
| SessionInvariants.StoreSessionIdempotent | src/aipinho/services/external_collaboration_store.py:76-80 | a session read from the store is written back unchanged |
| SessionTheorems.SessionsMoveForward | src/aipinho/services/external_collaboration_service.py:396-417 | over every interleaving the cursor and counters never go back, and observed events and evaluations are only extended |
| SessionTheorems.PollingRefinesFiltering | src/aipinho/services/external_collaboration_service.py:396-417 | in every reachable state the observed events are exactly the subscribed events of the log up to the cursor, in order and once each |
| SessionTheorems.PollsCatchUp | src/aipinho/services/external_collaboration_service.py:401-411 | enough polls of a session observe every subscribed event of its log, whatever other steps lie between them, as long as that log does not grow |
| SessionTheorems.NewestIsLatest | src/aipinho/services/external_collaboration_store.py:62-68 | a strictly newest evaluation is the one the newest-first query returns, for every directory order |
| SessionTheorems.LatestExactly | src/aipinho/services/external_collaboration_service.py:680-682 | the poll judges a given evaluation under every directory order if and only if it is strictly newer than all others of the session |
| SessionVerdicts.SameSecondJudgesOlder | src/aipinho/services/external_collaboration_store.py:125-135 | from every initial state with a known run, a run with two evaluations of the same second after which a poll judges the older one although the session names the newer, and takes back the completion the newer one brought |
| SessionAuthority.PollsJudgeLastEvaluation | src/aipinho/services/external_collaboration_service.py:490-495 | when receipt times advance between the evaluations that the session accepts, every poll of it in every run judges the one named by last_evaluation_id |
| SessionAuthority.PollConfirmsEvaluation | src/aipinho/services/external_collaboration_service.py:490-516 | after an accepted newest evaluation a poll with the same summary reaches the same status and retry state through the redacting store |
| SessionVerdicts.NextPollConfirmsIff | src/aipinho/services/external_collaboration_service.py:396-516 | with such a clock, the next poll with the same summary confirms a verdict in status and retry state if and only if it was not the verdict of a submission beyond the limit, or the last accepted evaluation calls for a retry and for nothing stronger; other sessions, the log and the directory order do not matter |
| SessionVerdicts.LimitVerdictForgotten | src/aipinho/services/external_collaboration_service.py:445-455 | from every initial state with a known run, a run in which a submission beyond the limit asks for a human and the next poll forgets it, and one in which it takes a completion back that the next poll restores |
| SessionAuthority.PollAgainIdle | src/aipinho/services/external_collaboration_service.py:396-432 | a second poll with nothing new changes only the time of the last activity, for any two listings that show the same newest evaluation |
| SessionVerdicts.PollAgainIdleIff | src/aipinho/services/external_collaboration_service.py:396-432 | with such a clock, a later poll with the same summary and no new event changes only the time of the last activity, under exactly the same condition, for any directory listings |
| SessionAuthority.CompletionVerdict | src/aipinho/services/external_collaboration_service.py:684-716 | completion is decided exactly for a ready evaluation, a result that is safe to report and no pending approval, on a session that has not ended; the two laws below rest on it |
| SessionAuthority.PollCompletesIff | src/aipinho/services/external_collaboration_service.py:417-432 | after a poll the session is completed exactly when the newest stored evaluation is ready, the result is safe to report and no approval is pending |
| SessionAuthority.ReceiveCompletesIff | src/aipinho/services/external_collaboration_service.py:441-525 | after a submission the session is completed exactly when an iteration was left, the evaluation is ready, the result is safe to report and no approval is pending |
| SessionAuthority.CompletedStep | src/aipinho/services/external_collaboration_service.py:353-525 | a verdict completes a session exactly when it is such a grant, and every other step leaves completion as it was |
| SessionAuthority.CompletedIffLastGrant | src/aipinho/services/external_collaboration_service.py:684-729 | in every reachable state a session is completed exactly when the last verdict on it was a grant |
| SessionAuthority.CompletionWasGranted | src/aipinho/services/external_collaboration_service.py:684-729 | a completed session was granted completion by an earlier step whose judged evaluation was ready with the runtime's consent, and it has been completed in every state since |
| SessionAuthority.NoCompletionWithoutRuntime | src/aipinho/services/external_collaboration_service.py:684-729 | in a run whose summaries never report success, no evaluations and polls complete a session |
| SessionAuthority.CompletionReachable | src/aipinho/services/external_collaboration_service.py:353-525 | from every initial state with a known run there is a run of two steps that completes a session, so the theorems about completion are not vacuous |
| Delegations.DelegationService.CreateDelegation | src/aipinho/services/external_collaboration_service.py:207-292 | the whole new state and the reply for every decision, including the missing parent |
| Delegations.DelegationService.ParentRun | src/aipinho/services/external_collaboration_service.py:568-600 | the named parent is looked up, and only without a name a parent run is created, which is moved to waiting exactly when the runtime left it just created |
| Delegations.CreationsCounted | src/aipinho/services/external_collaboration_service.py:207-292 | a request adds exactly one contract and a fresh child with its link, name and status, plus a fresh parent when it names none, or changes nothing; no parent link or status of an existing run changes |
| Delegations.HistoriesSound | src/aipinho/services/external_collaboration_service.py:252-276 | over every history parent links form a forest that agrees with the contracts, each child in one delegation, named by it exactly until it delegates further |
| Delegations.WalksEnd | src/aipinho/services/external_collaboration_service.py:241-248 | following parents repeats no run and ends within the number of runs |
| Delegations.ParentNamesLatest | src/aipinho/services/external_collaboration_service.py:269-277 | over every history a run names the child and the delegation of one of its requests exactly as long as it makes no later one, while contract and child run stay |
| Delegations.NestedDelegationForgets | src/aipinho/services/external_collaboration_service.py:270-275 | a history in which a child loses the name of its own delegation |
| NestedSearch.TruthyNested | src/aipinho/services/cognitive_policy_engine_service.py:386-397 | the worklist search ends and answers exactly the recursive question |
| NestedSearch.HoldsIffReachable | src/aipinho/services/cognitive_policy_engine_service.py:386-397 | the answer is yes exactly when a dictionary reachable through values and lists holds a key with a truthy value |
| JsonValues.TruthyExactly | src/aipinho/services/cognitive_policy_engine_service.py:392 | everything counts as true but None, False, zero and what is empty |
| JsonValues.GetExactly | src/aipinho/services/cognitive_policy_engine_service.py:351 | a lookup gives the value of the first entry with the key, and None without one |
| Sequences.DedupOrder | src/aipinho/services/external_collaboration_service.py:466 | first occurrences keep their order |
| Sequences.StringLeExactly | src/aipinho/services/cognitive_policy_engine_service.py:45 | identifiers are compared character by character, a proper prefix first |
| Sequences.ContainsExactly | src/aipinho/services/web_search_provider_service.py:363 | a word is found exactly when it stands somewhere in the text |
| Sequences.PrefixExactly | src/aipinho/services/web_search_provider_service.py:415 | a slice is the head of the list, and a negative bound counts from the end |
| Governance.Select | src/aipinho/services/cognitive_policy_engine_service.py:226-240 | a selected model is always an allowed one, and none is selected only when none is allowed |
| Governance.FirstAllowed | src/aipinho/services/cognitive_policy_engine_service.py:237-239 | the first preferred candidate that is allowed, or none when none is |
| Governance.ComplexityOf | src/aipinho/services/cognitive_policy_engine_service.py:360-373 | complexity lies in 0..1 for every request |
| GovernanceController.AssessPolicy | src/aipinho/services/cognitive_policy_engine_service.py:162-193 | the reason list built check by check gives the decision of the specification |
| GovernanceController.EstimateComplexity | src/aipinho/services/cognitive_policy_engine_service.py:360-373 | the estimate with its three searches is the specified complexity |
| GovernanceController.Controller.RouteRequest | src/aipinho/services/cognitive_policy_engine_service.py:283-324 | the route of the specification is returned and appended once |
| GovernanceController.Controller.EscalateRoute | src/aipinho/services/cognitive_policy_engine_service.py:413-475 | the escalation of the specification is returned and appended once |
| GovernanceController.Controller.EvaluateRequest | src/aipinho/services/cognitive_policy_engine_service.py:494-596 | the confidence is the one the request states, moved into 0..1; the verdict is the closed form with it; each stage leaves exactly one record |
| GovernanceLaws.ConfidenceExactly | src/aipinho/services/cognitive_policy_engine_service.py:345-357 | the confidence is the request's own, else the number in its representation, else the one in its contracts, else one half, moved to the nearest bound of 0..1 |
| GovernanceLaws.OneConfidence | src/aipinho/services/cognitive_policy_engine_service.py:345-354 | no request states two confidences |
| GovernanceLaws.ComplexityExactly | src/aipinho/services/cognitive_policy_engine_service.py:360-384 | the capped share of each list and the fixed share of each flag found anywhere in the contracts, at most one |
| GovernanceLaws.ResolveExactly | src/aipinho/services/cognitive_policy_engine_service.py:206-223 | the capability asked for, else the one of the first keyword in the intent, else language |
| GovernanceLaws.IntentTextExactly | src/aipinho/services/cognitive_policy_engine_service.py:210 | the intent where there is one, else the operation type |
| GovernanceLaws.RoleExactly | src/aipinho/services/cognitive_policy_engine_service.py:253-263 | the table of roles and capabilities; other roles may use everything |
| GovernanceLaws.SelectExactly | src/aipinho/services/cognitive_policy_engine_service.py:226-240 | the first preferred model that is allowed, else the first allowed one |
| GovernanceLaws.RisksOrdered | src/aipinho/services/cognitive_policy_engine_service.py:26 | low, medium, high and critical in this order |
| GovernanceLaws.EscalationLookupExact | src/aipinho/services/cognitive_policy_engine_service.py:330-343 | of the policies for scope and capability, else for the scope, else of all, the one with the smallest id; the default without any |
| GovernanceLaws.RouteExactly | src/aipinho/services/cognitive_policy_engine_service.py:283-324 | status, model, gates and alternative models of the route, from the policy and the demand alone |
| GovernanceLaws.EscalateExactly | src/aipinho/services/cognitive_policy_engine_service.py:413-475 | each action exactly under its condition, with its target and the measured values |
| GovernanceLaws.GovernExactly | src/aipinho/services/cognitive_policy_engine_service.py:533-596 | pending gates, final model and escalation of every decision under a policy |
| GovernanceLaws.GovernNothing | src/aipinho/services/cognitive_policy_engine_service.py:285-290 | without a policy the request is blocked, with two reasons and no model |
| GovernanceLaws.PolicyReasons | src/aipinho/services/cognitive_policy_engine_service.py:162-180 | a policy decision names exactly the checks that fail |
| GovernanceLaws.ReasonsExactly | src/aipinho/services/cognitive_policy_engine_service.py:611-621 | a decision gives exactly the reasons of failed checks, of an unbound role and of the escalation |
| GovernanceTheorems.LookupExact | src/aipinho/services/cognitive_policy_engine_service.py:42-47 | the policy found is in the scope, or generic when the scope has none, with the smallest id; none is found only when there is none |
| GovernanceTheorems.PipelineIsClosedForm | src/aipinho/services/cognitive_policy_engine_service.py:494-596 | for every policy set and request the pipeline blocks, asks for approval or allows exactly as the closed form says |
| GovernanceTheorems.EscalatedModelAssessed | src/aipinho/services/cognitive_policy_engine_service.py:243-250 | escalation models exist only behind a pending gate and meet the same policy decision up to the model name |
| GovernanceTheorems.EscalationNeverChangesVerdict | src/aipinho/services/cognitive_policy_engine_service.py:533-557 | the escalated model has the routed model's policy status; allowed decisions are never escalated and escalated ones always wait |
| GovernanceTheorems.ComplexityIrrelevant | src/aipinho/services/cognitive_policy_engine_service.py:424-449 | requests that differ only in complexity get the same verdict |
| GovernanceTheorems.VerdictMonotone | src/aipinho/services/cognitive_policy_engine_service.py:550-557 | granting gates, lowering risk, cost or latency, or raising confidence never makes the verdict stricter |
| GovernanceTheorems.ReasonsExplainVerdict | src/aipinho/services/cognitive_policy_engine_service.py:611-621 | reasons never repeat; a request is allowed exactly when the only reason is that the route is sufficient |
| GovernanceTheorems.RegistrationOrderIrrelevant | src/aipinho/services/cognitive_policy_engine_service.py:42-47 | with distinct ids the order of registered policies changes neither the lookup nor the decision |
| Scanners.DuckRunInvariant | src/aipinho/services/web_search_provider_service.py:23-58 | every stream keeps results within the limit, the active item only while there is room, flags and snippet index consistent, results valid and fixed in title and URL |
| Scanners.DuckTagsExactly | src/aipinho/services/web_search_provider_service.py:32-51 | the tags and classes that open and close links and snippets |
| Scanners.DuckRecordsLinks | src/aipinho/services/web_search_provider_service.py:32-58 | for every stream the recorded titles and URLs are exactly the first recordable links of the page, up to the limit |
| Scanners.DuckRecordsResults | src/aipinho/services/web_search_provider_service.py:32-58 | for every stream the results are exactly these links with their snippets, the text inside snippets that started after them and outside titles |
| Scanners.DuckScanner.HandleStartTag | src/aipinho/services/web_search_provider_service.py:32-40 | performs on a start tag the step that DuckRunInvariant and DuckRecordsResults are about |
| Scanners.DuckScanner.HandleEndTag | src/aipinho/services/web_search_provider_service.py:42-51 | performs on an end tag the step that DuckRunInvariant and DuckRecordsResults are about |
| Scanners.DuckScanner.HandleData | src/aipinho/services/web_search_provider_service.py:53-58 | performs on data the step that DuckRunInvariant and DuckRecordsResults are about |
| Scanners.DuckScanner.Feed | src/aipinho/services/web_search_provider_service.py:341-342 | reading a page leaves its wanted links with their snippets as results |
| Scanners.BingRunInvariant | src/aipinho/services/web_search_provider_service.py:61-114 | every stream keeps results within the limit, the active item only while there is room, capture flags only with an active item, and recorded results unchanged |
| Scanners.BingTagsExactly | src/aipinho/services/web_search_provider_service.py:74 | result items are list items of class b_algo |
| Scanners.BingRecordsItems | src/aipinho/services/web_search_provider_service.py:71-114 | for every stream the results are exactly the first recordable items of the page, up to the limit, with title, URL and snippet read from headings, links and paragraphs, including those left open by an earlier item |
| Scanners.BingScanner.HandleStartTag | src/aipinho/services/web_search_provider_service.py:71-87 | performs on a start tag the step that BingRunInvariant and BingRecordsItems are about |
| Scanners.BingScanner.HandleEndTag | src/aipinho/services/web_search_provider_service.py:89-106 | performs on an end tag the step that BingRunInvariant and BingRecordsItems are about |
| Scanners.BingScanner.HandleData | src/aipinho/services/web_search_provider_service.py:108-114 | performs on data the step that BingRunInvariant and BingRecordsItems are about |
| Scanners.BingScanner.Feed | src/aipinho/services/web_search_provider_service.py:341-342 | reading a page leaves its wanted items as results |
| SearchRanking.RelevantIsRankedFilter | src/aipinho/services/web_search_provider_service.py:356-376 | ranking then filtering equals filtering then stable ranking by descending score |
| SearchRanking.KeptExactly | src/aipinho/services/web_search_provider_service.py:367-376 | a source is kept exactly when every informative word stands in it, or as many as configured, two by default and at least one |
| SearchRanking.InformativeExactly | src/aipinho/services/web_search_provider_service.py:378-388 | the words of the query that pass the stop word test |
| SearchRanking.UninformativeKeepsAll | src/aipinho/services/web_search_provider_service.py:369-370 | without informative words nothing is filtered or ranked |
| SearchRanking.MoreWordsFirst | src/aipinho/services/web_search_provider_service.py:356-365 | of two kept sources the one that holds more words of the query stands first |
| SearchRanking.TiesKeepOrder | src/aipinho/services/web_search_provider_service.py:365 | kept sources that hold the same number of words keep their page order |
| SearchRanking.FullMatchKept | src/aipinho/services/web_search_provider_service.py:371-376 | a source with every informative term is never filtered out |
| SearchRanking.CutKeepsBest | src/aipinho/services/web_search_provider_service.py:354 | after any cut no source is returned while a kept one with more words is not |
| PageSources.ParseSources | src/aipinho/services/web_search_provider_service.py:326-354 | the scanner chosen for the backend, its limit, relevance and the cut give the specified sources |
| PageSources.CandidatesAreFirstLinks | src/aipinho/services/web_search_provider_service.py:337-353 | the candidates are the first recordable results of the page, four times as many as asked for, with title, URL and snippet as the page gives them and the backend's name |
| PageSources.ParsedComeFromPage | src/aipinho/services/web_search_provider_service.py:326-376 | every source returned stands for one of the first 4 * max recordable links of the page and has enough overlap; at most max are returned, none below one |
| PageSources.ParsedKeepBest | src/aipinho/services/web_search_provider_service.py:354-376 | a candidate with enough words of the query is returned unless max sources are that hold at least as many |
| SearchFallback.WinnerIsFirst | src/aipinho/services/web_search_provider_service.py:237-270 | every backend before the winner yields nothing, and the winner yields sources |
| SearchFallback.TryBackends | src/aipinho/services/web_search_provider_service.py:235-271 | backends are tried in order up to the first that yields sources, each earlier one leaving exactly one record |
| SearchFallback.TimeoutRecord | src/aipinho/services/web_search_provider_service.py:283 | only records of backends that timed out end in ":timeout", whatever the backend ids |
| SearchFallback.ErrorsExactly | src/aipinho/services/web_search_provider_service.py:248-251 | exactly the messages of the backends that failed, in order |
| SearchFallback.EncyclopediaSources | src/aipinho/services/web_search_provider_service.py:401-430 | the sources gathered from the answer lists with a public URL, then filtered |
| SearchFallback.GatherExactly | src/aipinho/services/web_search_provider_service.py:415-429 | the sources gathered are those of the first titles that have a public URL, in order |
| SearchFallback.EncyclopediaExactly | src/aipinho/services/web_search_provider_service.py:401-430 | exactly the sources within the limit that have a public URL and hold enough words of the query |
| SearchFallback.BrowserSearch | src/aipinho/services/web_search_provider_service.py:231-300 | the whole result for every combination of fetched pages: ready with one or more sources, timeout exactly when some backend timed out, none failed and nothing was found, else failed with its errors; every source has a public URL; the limit is respected exactly from one upwards |
| SearchFallback.NegativeLimitExceeded | src/aipinho/services/web_search_provider_service.py:415 | a negative limit that the encyclopedia sources exceed |
| Sandbox.SandboxWriter.WriteTextFile | src/aipinho/services/sandbox_file_writer_service.py:33-100 | the new file tree and outcome of every write |
| Sandbox.SandboxWriter.AppendTextFile | src/aipinho/services/sandbox_file_writer_service.py:102-154 | the new file tree and outcome of every append |
| Sandbox.SandboxWriter.CreateDirectory | src/aipinho/services/sandbox_file_writer_service.py:295-332 | the new file tree and outcome of every directory creation |
| Sandbox.WriteExactly | src/aipinho/services/sandbox_file_writer_service.py:33-100 | outcome and tree of every write: the text at the target, directories on the way, nothing else changed |
| Sandbox.AppendExactly | src/aipinho/services/sandbox_file_writer_service.py:102-143 | outcome and tree of every append: the line behind the old text, with a newline between only where one is missing |
| Sandbox.MakeDirectoryExactly | src/aipinho/services/sandbox_file_writer_service.py:295-321 | after success the directory and all above it exist and nothing else has changed |
| Sandbox.LineEndsRead | src/aipinho/services/sandbox_file_writer_service.py:110 | reading turns a carriage return, with or without a newline behind it, into one newline |
| Sandbox.IsUnderExactly | src/aipinho/services/sandbox_file_writer_service.py:423-424 | a path is under the root exactly when it continues it |
| Sandbox.CallsContained | src/aipinho/services/sandbox_file_writer_service.py:33-143 | over every sequence of calls nothing outside the root changes but missing directories above it, and without overwriting every file's old text is a prefix of its new text |
| Sandbox.AppendedAtLineStart | src/aipinho/services/sandbox_file_writer_service.py:110-127 | appended text starts at a line start and ends a line |
| Sandbox.AppendKeepsBytesIff | src/aipinho/services/sandbox_file_writer_service.py:110-127 | the old bytes stay a prefix exactly when they hold no carriage return |
| Sandbox.WriteRetry | src/aipinho/services/sandbox_file_writer_service.py:38-58 | repeating a successful write succeeds and changes nothing |
| Sandbox.AppendRetry | src/aipinho/services/sandbox_file_writer_service.py:112-126 | repeating a successful append succeeds and changes nothing |
| Sandbox.AppendRetryIff | src/aipinho/services/sandbox_file_writer_service.py:110-143 | repeating an append to a file changes nothing exactly when the content has no carriage return, and exactly then both calls succeed |
| Sandbox.FirstWriteRetryIff | src/aipinho/services/sandbox_file_writer_service.py:59-78 | a first write and its repetition report the same status exactly for non-empty content without carriage returns |
| PublicApi.ReasonsMean | src/aipinho/services/external_gateway_service.py:82-95 | the gateway has no reason to block exactly when client, version, contract keys, target and session are all in order |
| PublicApi.ReasonsListed | src/aipinho/services/external_gateway_service.py:36-46 | the gateway gives exactly one reason for each demand that is not met |
| PublicApi.Gateway.CreateSession | src/aipinho/services/external_gateway_service.py:17-28 | a session is stored as active exactly when client type and version are allowed |
| PublicApi.Gateway.FindSession | src/aipinho/services/external_gateway_service.py:97-102 | the named session, or one new active session |
| PublicApi.Gateway.Handle | src/aipinho/services/external_gateway_service.py:30-63 | one response is stored; it accepts exactly admissible requests for which the kernel is ready, others are not dispatched, and the reasons are exactly the unmet demands or the kernel's |
| PublicApi.Merge | src/aipinho/services/public_runtime_api_service.py:56-62 | the caller's contract keys win and the three public keys are always present |
| PublicApi.MergeExactly | src/aipinho/services/public_runtime_api_service.py:56-62 | only the three public keys are added, each with the value of the public contract |
| PublicApi.PublicContractsListed | src/aipinho/services/public_runtime_api_service.py:38-46 | the public contract of every operation |
| PublicApi.ExecutionDemanded | src/aipinho/services/public_runtime_api_service.py:270-278 | a contract demands execution exactly through one of four flags or a non-empty list of outputs |
| PublicApi.EffectGoverned | src/aipinho/services/public_runtime_api_service.py:76-226 | whatever the bridge does, nothing is saved or created without acceptance; at most one run is created, and an approval is saved exactly for a shell run, pending, for its command and workspace, just before it |
| PublicApi.Api.ExecuteBridge | src/aipinho/services/public_runtime_api_service.py:76-268 | case by case, for every answer of the runtimes: the pending approval and the shell run, the readonly run, a refusal, or nothing, with the status answered |
| PublicApi.Api.Handle | src/aipinho/services/public_runtime_api_service.py:541-597 | in every state of the shared lists each request adds one gateway response and one audit naming it, and what the bridge does in its case; when a request of a known version and of a rejected version is accepted; nothing is created otherwise; every shell run directly follows its pending approval |
| PublicApi.TracedDirect | src/aipinho/services/external_gateway_service.py:30-63 | requests that reach the gateway directly keep the audits naming responses in order, each its own |
| PublicApi.StaleVersionCase | src/aipinho/services/public_runtime_api_service.py:543-554 | a policy, kernel and request for which the gateway accepts a version that the API rejects |
| PatternRanking.ScoreGap | src/aipinho/services/semantic_learning_service.py:251-266 | scores lie in 0.02..0.99, at least 0.67 with intent and scope and at most 0.55 without the intent |
| PatternRanking.ScoreExactly | src/aipinho/services/semantic_learning_service.py:251-266 | intent, scope, the share of met constraints, a common output and the trust add up to the score, cut at 0.99 |
| PatternRanking.RankedExactly | src/aipinho/services/semantic_learning_service.py:317 | every pattern once with its rounded score, best first, equal scores by concept |
| PatternRanking.LimitExactly | src/aipinho/services/semantic_learning_service.py:317 | a number of results from 1 to 100 is taken as it is |
| PatternRanking.Recognize | src/aipinho/services/semantic_learning_service.py:294-317 | no pattern is dropped by the score filter or the validator: the matches are the ranked patterns cut to the limit |
| PatternRanking.FullMatchRanksAbove | src/aipinho/services/semantic_learning_service.py:294-317 | a pattern with intent and scope ranks strictly above every one that misses the intent, whatever the rounding |
| PatternRanking.MissNeverDisplacesMatch | src/aipinho/services/semantic_learning_service.py:317 | a pattern that misses the intent is returned only together with every full match |

## Left out

- Session fields that no decision reads: provider, expiry, goal texts, metadata, human outputs and the success runtime's own status, which repeats the session status.
- Adapter variants of evaluations and reviews: they call the modelled operations and append to fields that no decision reads.
- Cancelling and expiring sessions: no operation of the service sets these states, so they are unreachable here.
- Delegation polling, cancelling and timeouts, and delegation events: single status updates of one contract.
- The repetition rule for terminal events in the run store: log growth appends arbitrary events instead.
- Public API: request classification by text fields and the runtimes' answers are parameters; a runtime that raises is not modelled.
- Query normalisation, URL construction and page fetching in web search: text and network plumbing.
- Text bundle archives, reading files, decoding errors and symbolic links in the sandbox writer.
- Governance evidence and audit records: they copy identifiers and statuses of the modelled decisions.
- The seeded policies and knowledge entries: the theorems hold for every configuration.
- Semantic learning apart from pattern recognition, connectors, launcher, reports and scripts: list updates and user interface.
