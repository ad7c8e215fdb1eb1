# Operator control, protected actions, journal and evaluation: a verified model

These Dafny modules model the parts of the API in which order and interleaving matter, and prove what
they promise over every run. Python names are quoted where a member corresponds to one; classes keep
the fields of the Python objects, and their methods are proved against functions about which the
theorems are then stated.

| part | modules | main results |
|---|---|---|
| the parent workflow, stepped at every await | ParentMachine, ParentLog, ParentWork, ParentControl, ParentJournal, ParentRuns, ParentOutcomes, ParentDecisions, ParentProgress, ParentWorkflow, JournalKeys, ParentEvents | held results are what children reported, retries apply as validated, stops reach every child, control is a fold of the command log, the loop is left only when nothing is to be done, journal keys and child ids are never reused, a run left alone comes to rest |
| outcomes and email execution by any number of workers | Outcomes, EmailStore, EmailProvider, EmailProtocol, EmailRuns, EmailOutcomes | mail goes to the controlled recipient only, one owner at a time, audit trails are paths, stored outcome and provider agree |
| canonical JSON | CanonicalJson, JsonLoads, CanonicalRoundTrip, CanonicalText | parse of print, equal bytes exactly for equal values, idempotence |
| approval broker | Broker, BrokerRuns, BrokerPolicy, EmailRequest, EmailRequestFacts | exactly what is issued and authorized, immutable versions, single-use permits, exact approved bytes |
| concurrent requests over broker, records and email | Repository, Requests, RequestInvariant, RequestRuns, RequestOrigins, RequestMailbox, RequestOutcomes, RequestService | nothing without a received command, one dispatch per proposal version, only of approved bytes |
| event journals and projections | EventJournal, MemoryStore, MemoryEventStore, ProjectionTables, MemoryFields, ColumnReplay, PostgresStore, PostgresFields, PostgresEventStore | fields hold what was said of them last, counts follow the rows, projections are folds, exactly when a rebuild succeeds and what it restores |
| resumable stream | EventStream, StreamTiming, ServerSentEvents | keep-alives in time, every row once and in order across disconnections, read back by an event source |
| dependency invalidation | Invalidation | least fixpoint, independent of order, composition |
| evidence and ranking | Normalization, NormalizationFacts, Evidence, EvidenceVerdicts, EvidenceTheorems, EvidenceResolver, Ranking, RankingFacts, Sorting | what each operator and status means, independence of order and units, verdicts mean agreement, the unique ranking |

## How the concurrent parts are modelled

- The parent workflow is a machine whose program counter is the await it is suspended at. A validator
  and its handler are one atomic step. Journal calls are recorded when they are made; activities may
  run any number of times.
- Email workers and integration requests step from await to await over shared state; any number of them
  interleave, and any of them may stop for ever at any await.
- A stream has a journal that grows, chunks in flight that may be lost, and a client that reconnects
  with the id of the last event it received.

## Where the code does less than one might expect

- The PostgreSQL rebuild replays the journal over the run's final row. `PostgresEventStore.RebuildCanAbort`
  gives a journal of successful appends on which the check of `sentinel.runs` then fails;
  `PostgresStore.RebuildSucceedsIff` gives the exact condition on the recorded times. A run created as
  queued, running or recovering whose start is recorded before any completion meets it
  (`ColumnReplay.StartedFirstIsInOrder`).
- A rebuild also moves `runs.updated_at` back to the time of the last run event
  (`PostgresStore.RebuildIsIdentity`, which says exactly when this is no change;
  `PostgresEventStore.RebuildMovesRowTime` has a journal on which it is one).
- The in-memory store keeps an event in the journal although its projection raised; from then on every
  rebuild of that run fails. `MemoryStore.RaisedAppendStays` says exactly when;
  `MemoryStore.MalformedEventStays` does it to any new run with one work event that names no work item.
- The broker alone does not limit a version to one authorization (`BrokerRuns.SameVersionAuthorizesAgain`);
  the write-once decision record does (`RequestRuns.DispatchedAtMostOnce`).
- Re-expressing a measurement in another unit can change the text of an INVALID evaluation, because
  conversion errors name the units: `EvidenceTheorems.UnitShowsInErrors` has the input, and
  `EvidenceTheorems.UnitsAreIrrelevant` the exact condition. It never does when the measurement
  converts to the unit of the criterion (`EvidenceTheorems.ConvertibleUnitsAreIrrelevant`).

## What is assumed

- SHA-256, `casefold`, `upper`, `isalpha`, mailbox normalization and `deterministic_id` are parameters:
  arbitrary functions. An injective digest is assumed only in `BrokerRuns.KeysDistinct`. The theorems
  about the fake provider's receipts assume that intents have distinct idempotency keys, and that two
  keys presented for one intent have distinct digests.
- Where a field of a projection is said to hold the last value given for it, converting a converted value gives it back
  (`MemoryFields.Idempotent`, `PostgresFields.Idempotent`), as the parsers and casts in use do.
- UUIDs are texts; new ones are new, and a nonce holds no colon. Times are integers given by the caller.
- Decimal is exact arithmetic over the reals.
- Child run ids and subagent ids of different work items differ where a theorem about the parent's
  journal says so; a child result echoes the attempt it was started with.

## Model

| member | source | states |
|---|---|---|
| Invalidation.PlanInvalidation | apps/api/src/sentinel_api/domain/invalidation.py:41-74 | for any products, cycles and duplicate keys included: the retained ids are those of the products not affected by the closure of the changed keys, in input order; the invalidated ones are exactly the affected products; each record names a changed key or an output invalidated before it; at most n passes are made |
| Invalidation.RunPass | apps/api/src/sentinel_api/domain/invalidation.py:50-66 | one pass of the inner loop keeps the worklist invariant and either shrinks the worklist or shows that nothing pending is affected |
| Invalidation.PlanLists | apps/api/src/sentinel_api/domain/invalidation.py:53-74 | the ids and output keys listed in a plan are exactly those of the affected products |
| Invalidation.OrderIndependent | apps/api/src/sentinel_api/domain/invalidation.py:41-74 | permuting the products changes neither the invalid keys nor which products are invalidated or retained |
| Invalidation.SequentialInvalidationsCompose | apps/api/src/sentinel_api/domain/invalidation.py:41-74 | planning A and then B over the retained products invalidates and retains exactly what planning A and B together does |
| ParentRuns.StepInv | apps/api/src/sentinel_api/workflows/parent.py:97-777 | every operator update and every loop step, interleaved at every await, keeps the whole invariant |
| ParentRuns.NeverCrashes | apps/api/src/sentinel_api/workflows/parent.py:97-777 | no run ever fails on a missing dictionary key |
| ParentRuns.NeverStuck | apps/api/src/sentinel_api/workflows/parent.py:114-187 | in every reachable state the loop can go on, or waits for children, for the operator, or has returned |
| ParentRuns.AcksMatchLog | apps/api/src/sentinel_api/workflows/parent.py:338-363 | in every reachable state sequence numbers are 1..n, command ids are distinct and the acks match the log one to one |
| ParentRuns.ControlIsFoldOfLog | apps/api/src/sentinel_api/workflows/parent.py:189-281 | paused flag, accepted revision and message list are the fold of all accepted commands; current revision and message statuses the fold of the applied prefix; the drain ends only with the whole log processed |
| ParentRuns.RetryAppliedAsValidated | apps/api/src/sentinel_api/workflows/parent.py:473-497 | an accepted retry, when finally applied, finds its item FAILED or PENDING, not active, and at the attempt it was validated against |
| ParentRuns.StopReachesEveryChild | apps/api/src/sentinel_api/workflows/parent.py:365-370 | while paused, or with a pause or redirect accepted and not drained, every cancellable active child was asked to cancel, also one whose start was in flight |
| ParentRuns.TableCoherent | apps/api/src/sentinel_api/workflows/parent.py:114-144 | at every await: at most max_concurrency children; a result exactly for COMPLETED and FAILED items; RUNNING exactly for active items and the one item being started |
| ParentRuns.LoopExit | apps/api/src/sentinel_api/workflows/parent.py:114-155 | the loop is left only with every accepted command applied, not paused, no child active, nothing pending and no retryable failure |
| ParentRuns.ReturnsEveryChild | apps/api/src/sentinel_api/workflows/parent.py:156-187 | the returned children are one result per work item in input order, and the status is COMPLETED exactly when all of them completed |
| ParentRuns.ChildWorkflowIdsFresh | apps/api/src/sentinel_api/workflows/parent.py:607-677 | attempt numbers rise across cancel, retry and redirect, so no child workflow id is ever used twice |
| ParentRuns.JournalKeysFresh | apps/api/src/sentinel_api/workflows/parent.py:375-777 | apart from recovery offers, no two journal calls of a run to one journal have the same idempotency key text |
| ParentRuns.JournalComplete | apps/api/src/sentinel_api/workflows/parent.py:375-422 | every applied command was journaled as accepted and as applied |
| ParentRuns.ResultsReported | apps/api/src/sentinel_api/workflows/parent.py:683-777 | every held result had its three closing journal calls made, with its own attempt and outcome |
| ParentRuns.RedirectLeavesNothingStale | apps/api/src/sentinel_api/workflows/parent.py:529-588 | when a redirect is journaled as applied, no held result depends, directly or through held results, on what changed |
| ParentRuns.DuplicateOf | apps/api/src/sentinel_api/workflows/parent.py:320-336 | submitting a logged command id again changes nothing: the first ack for the same command, an error for another one |
| ParentRuns.ResubmissionIsIdempotent | apps/api/src/sentinel_api/workflows/parent.py:320-363 | resubmitting an accepted command at any later point of a run returns its first ack and changes nothing |
| JournalKeys.RenderInjective | apps/api/src/sentinel_api/workflows/parent.py:375-777 | the formatted idempotency keys are equal only for the same call, recoveries apart |
| JournalKeys.ChildWorkflowIdInjective | apps/api/src/sentinel_api/workflows/parent.py:655-660 | the formatted child workflow id determines item and attempt |
| ParentEvents.ParentCallsFresh | apps/api/src/sentinel_api/workflows/parent.py:779-785 | journal calls of a run that share run and key are recoveries |
| ParentEvents.CallHasOneEvent | apps/api/src/sentinel_api/workflows/activities.py:56-69 | however often and in whatever order the append activities run, each under an event id of its own, a call that is not a recovery yields exactly one event, with its own content |
| ParentEvents.ParentCallHasOneEvent | apps/api/src/sentinel_api/workflows/parent.py:779-785 | so does every executed call, recoveries apart, in every reachable state of the parent workflow |
| ParentWorkflow.ProcurementParentWorkflow.Create | apps/api/src/sentinel_api/workflows/parent.py:65-95 | refuses invalid arguments; otherwise the new object is in the initial state of the machine |
| ParentWorkflow.ProcurementParentWorkflow.Check | apps/api/src/sentinel_api/workflows/parent.py:200-298 | the duplicate test and the checks of each validator, in their order |
| ParentWorkflow.ProcurementParentWorkflow.Accept | apps/api/src/sentinel_api/workflows/parent.py:338-363 | appends to the log, numbers the command and stores its ack |
| ParentWorkflow.ProcurementParentWorkflow.CancelActive | apps/api/src/sentinel_api/workflows/parent.py:365-370 | asks every cancellable active child to cancel, and no other |
| ParentWorkflow.ProcurementParentWorkflow.Pause | apps/api/src/sentinel_api/workflows/parent.py:189-206 | validator and handler as one atomic step of the machine; the invariant holds again |
| ParentWorkflow.ProcurementParentWorkflow.Resume | apps/api/src/sentinel_api/workflows/parent.py:208-223 | validator and handler as one atomic step of the machine; the invariant holds again |
| ParentWorkflow.ProcurementParentWorkflow.Redirect | apps/api/src/sentinel_api/workflows/parent.py:225-247 | validator and handler as one atomic step of the machine; the invariant holds again |
| ParentWorkflow.ProcurementParentWorkflow.QueueMessage | apps/api/src/sentinel_api/workflows/parent.py:249-275 | validator and handler as one atomic step of the machine; the invariant holds again |
| ParentWorkflow.ProcurementParentWorkflow.RetryWork | apps/api/src/sentinel_api/workflows/parent.py:277-299 | validator and handler as one atomic step of the machine; the invariant holds again |
| ParentWorkflow.ProcurementParentWorkflow.DrainNext | apps/api/src/sentinel_api/workflows/parent.py:375-392 | the head of the drain loop: journal the next command, or go on when none is left |
| ParentWorkflow.ProcurementParentWorkflow.MarkMessages | apps/api/src/sentinel_api/workflows/parent.py:443-471 | the message list with the named messages marked applied |
| ParentWorkflow.ProcurementParentWorkflow.ApplyAccepted | apps/api/src/sentinel_api/workflows/parent.py:394-422 | the branch for each kind of command, up to its next await |
| ParentWorkflow.ProcurementParentWorkflow.PlanRedirect | apps/api/src/sentinel_api/workflows/parent.py:529-543 | collects the held products, plans, and finds the affected results |
| ParentWorkflow.ProcurementParentWorkflow.InvalidateResult | apps/api/src/sentinel_api/workflows/parent.py:544-569 | drops one affected result and puts its item back to pending |
| ParentWorkflow.ProcurementParentWorkflow.PendingItems | apps/api/src/sentinel_api/workflows/parent.py:126-133 | the pending items in input order |
| ParentWorkflow.ProcurementParentWorkflow.DecideNext | apps/api/src/sentinel_api/workflows/parent.py:114-144 | wait, start, offer recovery or leave, as the table says |
| ParentWorkflow.ProcurementParentWorkflow.FinishChild | apps/api/src/sentinel_api/workflows/parent.py:683-750 | settles a finished child up to its first await; ParentOutcomes.HeldResultWasReported says what it stores |
| ParentWorkflow.ProcurementParentWorkflow.ReportChild | apps/api/src/sentinel_api/workflows/parent.py:750-777 | the other closing journal calls |
| ParentWorkflow.ProcurementParentWorkflow.ChildRunEnsured | apps/api/src/sentinel_api/workflows/parent.py:590-627 | what is decided once the child run exists: an operator command that arrived meanwhile stops the start |
| ParentWorkflow.ProcurementParentWorkflow.BeginChild | apps/api/src/sentinel_api/workflows/parent.py:627-677 | the opening journal calls, then the child workflow |
| ParentWorkflow.ProcurementParentWorkflow.RegisterChild | apps/api/src/sentinel_api/workflows/parent.py:678-681 | registers the child, and asks it to cancel when a stop arrived in between |
| ParentWorkflow.ProcurementParentWorkflow.Leave | apps/api/src/sentinel_api/workflows/parent.py:156-187 | the completion journal call and the result |
| ParentWorkflow.ProcurementParentWorkflow.Continue | apps/api/src/sentinel_api/workflows/parent.py:97-187 | one resumption of the loop is one step of the machine and keeps the invariant |
| ParentWorkflow.ProcurementParentWorkflow.ChildrenDone | apps/api/src/sentinel_api/workflows/parent.py:116-124 | the wait for active children returns |
| ParentWorkflow.ProcurementParentWorkflow.Finish | apps/api/src/sentinel_api/workflows/parent.py:118-124 | the next finished handle |
| ParentWorkflow.ProcurementParentWorkflow.Invalidate | apps/api/src/sentinel_api/workflows/parent.py:544-569 | the next affected result of a redirect |
| Outcomes.RedispatchIsReconciled | apps/api/src/sentinel_api/protected_actions/outcomes.py:12-47 | on any path of the outcome graph a dispatch after an unknown outcome has SAFE_TO_RETRY between them |
| EmailStore.CompareAndSetAudited | apps/api/src/sentinel_api/email/store.py:87-130 | a transition keeps every audit trail a path of the graph from APPROVED to the current state, with attempts equal to its dispatches |
| EmailStore.InMemoryEmailExecutionStore.EnsureAuthorized | apps/api/src/sentinel_api/email/store.py:58-78 | creates the APPROVED record, returns the stored one for the same bytes, refuses other bytes |
| EmailStore.InMemoryEmailExecutionStore.TransitionRecord | apps/api/src/sentinel_api/email/store.py:87-130 | compare-and-set: missing record, state conflict and illegal transition are refused unchanged |
| EmailStore.InMemoryEmailExecutionStore.GetRecord | apps/api/src/sentinel_api/email/store.py:80-85 | the stored record, or the missing-record error |
| EmailProvider.DeterministicFakeEmailProvider.Create | apps/api/src/sentinel_api/email/providers.py:43-53 | an empty script is refused |
| EmailProvider.DeterministicFakeEmailProvider.DispatchEmail | apps/api/src/sentinel_api/email/providers.py:55-99 | follows the script, answers an accepted key with its own receipt, and never changes a receipt |
| EmailProvider.DeterministicFakeEmailProvider.ReconcileEmail | apps/api/src/sentinel_api/email/providers.py:101-126 | reports what the receipts and the scripted ambiguity say |
| EmailRuns.OneOwnerAtATime | apps/api/src/sentinel_api/email/service.py:57-129 | with any number of workers presenting any requests, at most one is between claim and record for an intent, and the record is in the state its claim wrote |
| EmailRuns.OwnerAlwaysCloses | apps/api/src/sentinel_api/email/service.py:83-107 | an owner's closing transition never meets a conflict, despite A-B-A returns to FAILED_BEFORE_EFFECT |
| EmailRuns.AuditIsPath | apps/api/src/sentinel_api/email/store.py:87-130 | in every reachable state the audit states are a path of the outcome graph and attempts counts the DISPATCHING entries |
| EmailRuns.UnknownIsReconciledBeforeRetry | apps/api/src/sentinel_api/email/service.py:57-129 | after an unknown outcome nothing is dispatched before a reconciliation found it safe |
| EmailRuns.ConfirmedIsAccepted | apps/api/src/sentinel_api/email/providers.py:55-126 | for every script and interleaving, CONFIRMED means the fake provider holds exactly the stored receipt, under the key with which the record was created |
| EmailRuns.OtherwiseNothingIsAccepted | apps/api/src/sentinel_api/email/providers.py:55-126 | APPROVED, FAILED_BEFORE_EFFECT, SAFE_TO_RETRY and NEEDS_OPERATOR mean it holds no receipt for the key; nor does it for a request refused because the intent has another key |
| EmailRuns.DispatchIsAlwaysFresh | apps/api/src/sentinel_api/email/providers.py:57-66 | the provider's duplicate-key branch is never reached |
| EmailRuns.AcceptedAtMostOnce | apps/api/src/sentinel_api/email/providers.py:55-99 | a key becomes accepted at most once in a run |
| EmailRuns.NoDispatchAfterAcceptance | apps/api/src/sentinel_api/email/providers.py:55-99 | a key that has been accepted is never dispatched again |
| EmailRuns.EmailExecutionService.Execute | apps/api/src/sentinel_api/email/service.py:57-107 | one task alone takes exactly the steps of the protocol: load, claim, check, dispatch, close; it calls the provider at most once, and only for the normalized recipient |
| EmailRuns.EmailExecutionService.ReconcileOutcome | apps/api/src/sentinel_api/email/service.py:109-129 | one task alone takes exactly the steps of the protocol: load, claim, reconcile, close |
| EmailRuns.EmailExecutionService.DispatchClaimed | apps/api/src/sentinel_api/email/service.py:83-107 | the provider is called with the request exactly when its mailbox is the normalized recipient, otherwise it is unchanged and the result an error; then the closing transition |
| EmailRuns.EmailExecutionService.RecordDispatchResult | apps/api/src/sentinel_api/email/service.py:177-196 | the closing transition that each disposition names |
| EmailRuns.EmailExecutionService.ReconcileClaimedRecord | apps/api/src/sentinel_api/email/service.py:198-217 | the closing transition that each reconciliation names |
| CanonicalJson.NormalizeValue | apps/api/src/sentinel_api/protected_actions/canonical.py:15-33 | the loops over mappings and sequences normalize exactly as the structural definition, with the error of the first offending node and its path |
| CanonicalJson.NormalizeWellFormed | apps/api/src/sentinel_api/protected_actions/canonical.py:15-33 | a normalized tree has distinct keys in every object |
| CanonicalJson.SameIffSorted | apps/api/src/sentinel_api/protected_actions/canonical.py:36-46 | two trees are equal up to key order exactly when their key-sorted forms are identical |
| CanonicalRoundTrip.LoadsCanonical | apps/api/src/sentinel_api/protected_actions/canonical.py:36-46 | parsing the canonical text of any supported value gives back its normalized tree, keys in order, and that tree normalizes to itself |
| CanonicalRoundTrip.SameBytesIffSameValue | apps/api/src/sentinel_api/protected_actions/canonical.py:36-46 | canonical texts are equal exactly when the values are equal up to key order |
| CanonicalRoundTrip.KeyOrderIsIrrelevant | apps/api/src/sentinel_api/protected_actions/canonical.py:36-46 | filling dictionaries in another order, at any depth, gives the same text, or is refused as well |
| CanonicalRoundTrip.CanonicalIsIdempotent | apps/api/src/sentinel_api/protected_actions/canonical.py:36-46 | canonicalizing the parsed canonical text gives the same text |
| CanonicalRoundTrip.SinkAcceptsExactlyCanonical | apps/api/src/sentinel_api/email/service.py:138-141 | the sink's canonicality check accepts a text exactly when canonical_json can produce it |
| CanonicalRoundTrip.PrintEnds | apps/api/src/sentinel_api/domain/common.py:21-26 | canonical text neither starts nor ends with white space, so the contract that strips strings keeps it |
| JsonLoads.ParsePrinted | apps/api/src/sentinel_api/protected_actions/canonical.py:39-46 | the JSON parser reads every printed value back, whatever follows it |
| Broker.EditKeeps | apps/api/src/sentinel_api/protected_actions/broker.py:110-144 | an edit keeps versions contiguous from 1 and bound to their bytes, and changes nothing that existed |
| Broker.IssueKeeps | apps/api/src/sentinel_api/protected_actions/broker.py:146-191 | issuing keeps every permit equal to one existing version in payload digest, attachments and action type |
| Broker.AuthorizeKeeps | apps/api/src/sentinel_api/protected_actions/broker.py:193-258 | an authorization changes no version and no permit but for its consumption |
| BrokerRuns.VersionsContiguous | apps/api/src/sentinel_api/protected_actions/broker.py:110-144 | in every history versions are numbered 1 to the current one and each carries the digest of its own canonical bytes |
| BrokerRuns.VersionsImmutable | apps/api/src/sentinel_api/protected_actions/broker.py:110-144 | a version never changes once it exists |
| BrokerRuns.EditedPermitIsDead | apps/api/src/sentinel_api/protected_actions/broker.py:221-224 | once a proposal is edited, no permit issued before the edit can ever authorize again |
| BrokerRuns.PermitAuthorizesOnce | apps/api/src/sentinel_api/protected_actions/broker.py:203-207 | each permit authorizes at most once in a history |
| BrokerRuns.IssueBetweenAuthorizations | apps/api/src/sentinel_api/protected_actions/broker.py:227-228 | two authorizations of one proposal always have a permit issue for it between them |
| BrokerRuns.AuthorizedBytes | apps/api/src/sentinel_api/protected_actions/broker.py:229-258 | an authorization returns the exact bytes of the version current when its permit was issued, with nothing edited in between |
| BrokerRuns.KeysDistinct | apps/api/src/sentinel_api/protected_actions/broker.py:239-250 | with an injective digest, different authorizations carry different idempotency keys |
| BrokerRuns.SameVersionAuthorizesAgain | apps/api/src/sentinel_api/protected_actions/broker.py:166-191 | the broker alone allows a version to be approved and authorized again, because issuing does not look at the proposal status |
| BrokerRuns.ApprovalBroker.Create | apps/api/src/sentinel_api/protected_actions/broker.py:80-108 | creates version 1 or refuses invalid content unchanged |
| BrokerRuns.ApprovalBroker.Edit | apps/api/src/sentinel_api/protected_actions/broker.py:110-144 | adds the next version and returns the proposal to pending approval, or refuses unchanged |
| BrokerRuns.ApprovalBroker.Issue | apps/api/src/sentinel_api/protected_actions/broker.py:146-191 | the checks in their order, then the permit and the APPROVED status |
| BrokerRuns.ApprovalBroker.CheckPermit | apps/api/src/sentinel_api/protected_actions/broker.py:202-220 | the checks on the permit and the policy, in their order |
| BrokerRuns.ApprovalBroker.CheckCommit | apps/api/src/sentinel_api/protected_actions/broker.py:221-238 | the checks against the proposal, in their order |
| BrokerRuns.ApprovalBroker.Authorize | apps/api/src/sentinel_api/protected_actions/broker.py:193-258 | the checks, then one consumed permit and the AUTHORIZED status; a refusal changes nothing |
| EmailRequest.BoundActionReachesValidation | apps/api/src/sentinel_api/email/service.py:131-159 | for an action bound to canonical bytes the fingerprint and canonicality checks never refuse |
| EmailRequest.BrokerActionIsBound | apps/api/src/sentinel_api/email/service.py:131-147 | every action the broker authorizes passes them |
| EmailRequest.EditedPayloadRequest | apps/api/src/sentinel_api/email/models.py:46-66 | an edited proposal becomes a request with exactly the trimmed fields and the mailbox both contracts normalize, or is refused for those fields |
| Repository.InMemoryIntegrationRepository.PutRecord | apps/api/src/sentinel_api/integration/repository.py:39-50 | the first record under a reference stays; the same content is accepted, other content refused; nothing stored ever changes |
| Repository.InMemoryIntegrationRepository.Get | apps/api/src/sentinel_api/integration/repository.py:52-53 | the record under a run and reference |
| Repository.InMemoryIntegrationRepository.List | apps/api/src/sentinel_api/integration/repository.py:55-71 | the records of one run in the order of creation time and reference |
| Repository.ListingUnique | apps/api/src/sentinel_api/integration/repository.py:55-71 | a run has only one such listing |
| RequestInvariant.StepKeeps | apps/api/src/sentinel_api/integration/service.py:471-690 | every step of every concurrent edit, decide and execute request keeps the invariant of broker, records, requests, intents and dispatches |
| RequestRuns.DispatchedAtMostOnce | apps/api/src/sentinel_api/integration/service.py:526-690 | however edit, approve, reject and execute requests interleave at their awaits, provider.dispatch is called at most once for each version of a proposal |
| RequestRuns.DispatchedWasApproved | apps/api/src/sentinel_api/integration/service.py:580-690 | every dispatched request is built from the bytes of a version whose approval, with that digest and permit, is on record |
| RequestRuns.SupersededNeverDispatched | apps/api/src/sentinel_api/integration/service.py:471-524 | a version edited away before it was authorized is never dispatched, whatever was approved for it |
| RequestService.IntegrationService.FindProposal | apps/api/src/sentinel_api/integration/service.py:712-724 | the last proposal reference, its proposal and its current version, then what the command concludes from them |
| RequestService.IntegrationService.EditProposal | apps/api/src/sentinel_api/integration/service.py:471-524 | one edit alone takes exactly the steps of the request machine |
| RequestService.IntegrationService.DecideProposal | apps/api/src/sentinel_api/integration/service.py:526-617 | one decision alone takes exactly the steps of the request machine; RequestOrigins.DecisionsWereReceived and RequestMailbox.DecidesOnce say what it records |
| RequestService.IntegrationService.Commit | apps/api/src/sentinel_api/integration/protected.py:74-100 | the boundary up to the authorization and the request built from it |
| RequestService.IntegrationService.SendMail | apps/api/src/sentinel_api/integration/protected.py:101-104 | the email service on the new intent |
| RequestService.IntegrationService.ExecuteApprovedEmail | apps/api/src/sentinel_api/integration/service.py:619-690 | one execution alone takes exactly the steps of the request machine and of the email protocol |
| EventJournal.ListingIsSlice | apps/api/src/sentinel_api/integration/event_store.py:231-240 | in a numbered journal a listing is the slice after the cursor, cut at the limit |
| MemoryStore.ReplayIsFold | apps/api/src/sentinel_api/integration/event_store.py:258-267 | replaying a journal gives the incremental projection back, and succeeds exactly for journals of successfully appended events |
| MemoryStore.ApplyToIsLocal | apps/api/src/sentinel_api/integration/event_store.py:96-164 | projecting an event touches the rows of its own run only |
| MemoryStore.AppendKeeps | apps/api/src/sentinel_api/integration/event_store.py:63-94 | an append keeps every journal numbered without a gap, its keys unique, and every projection the fold of its journal |
| MemoryStore.CreateRunKeeps | apps/api/src/sentinel_api/integration/event_store.py:33-61 | creating a run keeps the same |
| MemoryStore.AppendIsIdempotent | apps/api/src/sentinel_api/integration/event_store.py:67-73 | a second append under one key changes nothing and returns the first event |
| MemoryStore.OneEventPerKey | apps/api/src/sentinel_api/integration/event_store.py:63-94 | after any sequence of append executions each key has exactly one event |
| MemoryStore.OneEventWithDraft | apps/api/src/sentinel_api/integration/event_store.py:63-94 | with the content of its call when all executions of the key carry it, each under its own event id |
| MemoryStore.RaisedAppendStays | apps/api/src/sentinel_api/integration/event_store.py:92-94 | an append raises exactly when its event is new and cannot be projected; the event then stays in the journal, nothing is projected, and no replay of the journal, however it goes on, succeeds |
| MemoryStore.MalformedEventStays | apps/api/src/sentinel_api/integration/event_store.py:103-104 | a work event without a work item does this to any new run |
| MemoryEventStore.InMemoryEventStore.CreateRun | apps/api/src/sentinel_api/integration/event_store.py:33-61 | creates the run and journals it first; the same run again returns that event; another run under the id is refused |
| MemoryEventStore.InMemoryEventStore.AppendEvent | apps/api/src/sentinel_api/integration/event_store.py:63-94 | idempotent append; an event that cannot be projected raises and stays in the journal |
| MemoryEventStore.InMemoryEventStore.ApplyProjection | apps/api/src/sentinel_api/integration/event_store.py:96-164 | one projected row, as MemoryFields.ProjectedField describes it |
| MemoryEventStore.InMemoryEventStore.RebuildProjections | apps/api/src/sentinel_api/integration/event_store.py:258-267 | rebuilding succeeds exactly when every event was appended successfully; then it changes nothing; it never touches another run |
| ColumnReplay.ReplayIsIdentity | apps/api/src/sentinel_api/persistence/postgres.py:789-850 | replaying last-write-wins columns over the row they led to gives that row back |
| ColumnReplay.ReplayPassesIff | apps/api/src/sentinel_api/persistence/postgres.py:408-441 | such a replay satisfies the start/completion check of the runs table throughout exactly when the recorded times are in order |
| ColumnReplay.StartedFirstIsInOrder | apps/api/src/sentinel_api/persistence/postgres.py:404-406 | they are when the first event clears completed_at and a start is recorded before any completion |
| PostgresStore.AppendReached | apps/api/src/sentinel_api/persistence/postgres.py:256-347 | a successful append keeps the journal gap-free, keys unique, and all tables the fold of the journal; duplicates and aborts change nothing |
| PostgresStore.RebuildSucceedsIff | apps/api/src/sentinel_api/persistence/postgres.py:789-850 | a rebuild of successfully appended events runs to the end exactly when the recorded starts and completions are in order |
| PostgresStore.RebuildIsIdentity | apps/api/src/sentinel_api/persistence/postgres.py:789-850 | a rebuild that succeeds restores every row and column, including the cleared completed_at; only runs.updated_at becomes the time of the last run event, so nothing at all changes exactly when that is the time of the last event |
| PostgresEventStore.RebuildCanAbort | apps/api/src/sentinel_api/persistence/postgres.py:789-850 | a journal that create_run and two successful appends write, whose rebuild aborts: a run that failed before it started |
| PostgresEventStore.RebuildMovesRowTime | apps/api/src/sentinel_api/persistence/postgres.py:789-850 | a journal of create_run and one work event, after whose rebuild runs.updated_at is earlier than before |
| PostgresEventStore.PostgresEventStore.AppendEvent | apps/api/src/sentinel_api/persistence/postgres.py:252-347 | one transaction: stored, duplicate or aborted, as PostgresFields.AppendsExactly and AppliedField describe it; other runs are untouched |
| PostgresEventStore.PostgresEventStore.RebuildProjections | apps/api/src/sentinel_api/persistence/postgres.py:789-850 | the row-by-row replay over the final row; an abort changes nothing; other runs are untouched |
| EventStream.DeliversJournalInOrder | apps/api/src/sentinel_api/realtime.py:65-96 | for any batch size, interleaving of appends, loss of data in flight and reconnections, the client has received exactly the first rows after its cursor, in order, without gap or duplicate; the non-monotonic error never occurs |
| EventStream.WaitsOnlyWhenCaughtUp | apps/api/src/sentinel_api/realtime.py:79-96 | a poll comes back empty only when every row after the cursor was yielded |
| EventStream.LastEventIdRoundTrip | apps/api/src/sentinel_api/realtime.py:99-110 | the id of a delivered event parses back to its sequence number |
| EventStream.ReconnectKeeps | apps/api/src/sentinel_api/realtime.py:65-110 | a reconnecting client resumes at exactly what it has not received |
| EventStream.ResumableEventStream.Resume | apps/api/src/sentinel_api/realtime.py:65-96 | the generator runs to its next await or yield as the stream machine says, heartbeats included |
| ServerSentEvents.ClientSeesEveryRow | apps/api/src/sentinel_api/realtime.py:28-38 | read as section 9.2.6 of the WHATWG HTML Standard prescribes, the yielded text gives one event per row with the sequence as its id, and nothing for a keep-alive |
| ServerSentEvents.CutStreamShowsCompleteRows | apps/api/src/sentinel_api/realtime.py:79-96 | a text cut off at any character shows exactly the events of its complete chunks, so the last dispatched id is that of the last complete row |
| ServerSentEvents.ParseMessage | apps/api/src/sentinel_api/realtime.py:28-38 | one encoded row is one dispatched event with its id, type and data |
| Normalization.MakeUnits | apps/api/src/sentinel_api/evaluation/normalization.py:142-166 | given definitions and aliases override the defaults; accepted exactly when no given symbol or alias is blank and every alias is of a defined unit |
| Normalization.ConvertUnitThrough | apps/api/src/sentinel_api/evaluation/normalization.py:178-201 | converting through a third convertible unit gives the direct conversion, and one is refused exactly when the other is |
| Normalization.ConvertUnitBack | apps/api/src/sentinel_api/evaluation/normalization.py:178-201 | converting there and back is the identity |
| Normalization.MakeCurrencyTable | apps/api/src/sentinel_api/evaluation/normalization.py:210-224 | the table holds the last positive rate of each code and 1 for the base; anything else is refused |
| Normalization.ConvertCurrencyBack | apps/api/src/sentinel_api/evaluation/normalization.py:226-242 | exchanging there and back is the identity |
| EvidenceResolver.EvaluateRequirement | apps/api/src/sentinel_api/evaluation/engine.py:443-508 | the evaluation is a function of the sets of observations and conflicts; the lemmas of EvidenceVerdicts say which one |
| EvidenceResolver.ResolveEvidence | apps/api/src/sentinel_api/evaluation/engine.py:180-345 | the resolution is a function of those sets |
| EvidenceResolver.ResolveConflicts | apps/api/src/sentinel_api/evaluation/engine.py:158-177 | the loop with its early returns finds whether all related conflicts are resolved by one observation |
| EvidenceResolver.SelectObservation | apps/api/src/sentinel_api/evaluation/engine.py:146-155 | the one best observation under confidence, classification, retrieval time and id |
| EvidenceResolver.NormalizeAll | apps/api/src/sentinel_api/evaluation/engine.py:294-310 | every usable observation is normalized or its error collected |
| EvidenceResolver.OrderIsIrrelevant | apps/api/src/sentinel_api/evaluation/engine.py:443-508 | with distinct ids, no permutation of observations or conflicts changes the evaluation |
| EvidenceTheorems.UnitsAreIrrelevant | apps/api/src/sentinel_api/evaluation/engine.py:72-92 | re-expressing a NUMBER observation in another convertible unit changes nothing exactly when it is not exposed: none of the evidence that counts converts to a given criterion unit, and the others do not name both units anyway; when it is, only the listed errors change |
| EvidenceTheorems.ConvertibleUnitsAreIrrelevant | apps/api/src/sentinel_api/evaluation/engine.py:72-92 | it changes nothing at all when the observation converts to the unit of the criterion |
| EvidenceTheorems.UnitShowsInErrors | apps/api/src/sentinel_api/evaluation/normalization.py:189-197 | 1000 g and 1 kg are refused with different errors by a criterion in metres |
| EvidenceTheorems.VerdictMeansAgreement | apps/api/src/sentinel_api/evaluation/engine.py:272-345 | a verdict means that all fresh, acceptable, normalizable evidence considered agrees with the judged value, which is that of the best observation |
| EvidenceTheorems.OtherEvidenceIrrelevant | apps/api/src/sentinel_api/evaluation/engine.py:190-197 | observations of other candidates, revisions or requirements change nothing |
| Ranking.CoverageSums | apps/api/src/sentinel_api/evaluation/engine.py:511-541 | every evaluation falls in exactly one coverage category, and the percentages lie in [0,100] |
| Ranking.EligibleIffMandatorySatisfied | apps/api/src/sentinel_api/evaluation/engine.py:572-604 | a candidate is eligible exactly when every mandatory requirement is SATISFIED |
| Ranking.ScoreInRange | apps/api/src/sentinel_api/evaluation/engine.py:584-594 | the score lies in [0,100] |
| Ranking.JudgeWeights | apps/api/src/sentinel_api/evaluation/engine.py:463-508 | only a satisfied, preferred requirement earns its weight |
| Ranking.EvaluateCandidate | apps/api/src/sentinel_api/evaluation/engine.py:544-604 | repeated requirement keys are refused; otherwise each requirement has its own evaluation |
| Ranking.RankingIsTheSortedPermutation | apps/api/src/sentinel_api/evaluation/engine.py:607-627 | the ranking is the only ascending permutation of the candidates under the sort key |
| Ranking.RankingIgnoresOrder | apps/api/src/sentinel_api/evaluation/engine.py:607-632 | the input order changes neither the result nor the refusal of repeated ids |
| Ranking.EligibleFirst | apps/api/src/sentinel_api/evaluation/engine.py:613-624 | no ineligible candidate precedes an eligible one, and scores fall within each group |
| Ranking.RecommendationIsBestEligible | apps/api/src/sentinel_api/evaluation/engine.py:628-632 | a recommendation exists exactly when someone is eligible, and no eligible candidate outscores it |
| ParentOutcomes.HeldResultWasReported | apps/api/src/sentinel_api/workflows/parent.py:683-732 | in every reachable state a held result is, with its products or its failure, what the last child of the item that was not cancelled reported, under the attempt that child was started with |
| ParentOutcomes.RedirectDropsReportedProducts | apps/api/src/sentinel_api/workflows/parent.py:529-569 | once a redirect is journaled as applied, no child whose result is held had reported a product that depends on a changed key |
| ParentOutcomes.DroppedOnlyForReason | apps/api/src/sentinel_api/workflows/parent.py:473-588 | a held result is dropped only when a retry of its item is applied, or by a redirect that reaches one of its products |
| ParentOutcomes.RetryTakesEffect | apps/api/src/sentinel_api/workflows/parent.py:473-497 | applying a retry sends exactly its item back to pending, at the validated attempt and without a result |
| ParentOutcomes.CancelledWaitsAgain | apps/api/src/sentinel_api/workflows/parent.py:688-709 | a cancelled child sends exactly its item back to pending |
| ParentOutcomes.RedirectedWaitsAgain | apps/api/src/sentinel_api/workflows/parent.py:544-569 | a redirect sends exactly the dropped item back to pending, under the new revision |
| ParentOutcomes.AcceptsExactly | apps/api/src/sentinel_api/workflows/parent.py:200-298 | a new command is accepted exactly when it meets the demands of its validator, written out, and is then the next of the log |
| ParentOutcomes.OnlyStopsCancel | apps/api/src/sentinel_api/workflows/parent.py:365-370 | a registered child keeps its attempt, and is asked to cancel only by a pause or redirect and only if it is cancellable |
| ParentOutcomes.RegisteredAsStarted | apps/api/src/sentinel_api/workflows/parent.py:678-681 | a child is registered under its attempt, and asked to cancel at once exactly when the run is paused or a command waits |
| ParentOutcomes.ReturnsAppliedControl | apps/api/src/sentinel_api/workflows/parent.py:156-187 | the returned revision and messages are the folds of the applied commands |
| ParentOutcomes.StartsFirstPending | apps/api/src/sentinel_api/workflows/parent.py:126-144 | what is started are the first pending items in input order, as many as may run at once |
| ParentDecisions.DecidesExactly | apps/api/src/sentinel_api/workflows/parent.py:114-155 | with nothing to drain, when exactly the run waits for children, for a resume, starts items, offers a retry, or completes, and with which status |
| ParentDecisions.NothingBeginsWhileHalted | apps/api/src/sentinel_api/workflows/parent.py:141-144 | no child is prepared or begun while the run is paused or a command waits; the next one has the next attempt number |
| ParentDecisions.StartedRuns | apps/api/src/sentinel_api/workflows/parent.py:600-681 | a child is started under the journaled attempt and its item then runs under the current revision |
| ParentDecisions.StartsFresh | apps/api/src/sentinel_api/workflows/parent.py:65-112 | which requests are refused, and the first state of the others |
| ParentDecisions.ReuseIsRefused | apps/api/src/sentinel_api/workflows/parent.py:320-336 | an id that stands for another command is refused as reused for another kind, or with another payload |
| ParentDecisions.NewIsRefused | apps/api/src/sentinel_api/workflows/parent.py:200-298 | the first objection that each validator raises |
| ParentDecisions.StopsSayWhy | apps/api/src/sentinel_api/workflows/parent.py:365-370 | an accepted pause or redirect asks every cancellable child to stop and notes the reason |
| ParentProgress.QuietRunsDescend | apps/api/src/sentinel_api/workflows/parent.py:97-187 | a rank falls on every step of the loop that is neither an operator command nor the end of a cancelled child |
| ParentProgress.ComesToRest | apps/api/src/sentinel_api/workflows/parent.py:97-187 | so, left alone, every run comes to rest: it has returned, or waits for a child, a resume or a retry |
| EmailOutcomes.CallsAreForRecipient | apps/api/src/sentinel_api/email/service.py:83-96 | in every run each call of the fake provider was for a request whose mailbox is the normalized recipient that the executing task was started with |
| EmailOutcomes.CallsIffForRecipient | apps/api/src/sentinel_api/email/service.py:162-175 | a claimed task calls its provider, whichever it is, exactly when that holds; otherwise neither provider nor record changes |
| EmailOutcomes.RefusedEndsUnsent | apps/api/src/sentinel_api/email/service.py:84-96 | it then ends with the recipient error and the record FAILED_BEFORE_EFFECT, with that detail |
| EmailOutcomes.AnswerIsRecorded | apps/api/src/sentinel_api/email/service.py:97-217 | state, receipt, reference, detail and audit event of a closed record are those of the answer, or of the raised error |
| EmailOutcomes.ClaimsExactly | apps/api/src/sentinel_api/email/service.py:63-82 | a loaded record is claimed for dispatch exactly in the three states that allow it and when nobody moved it since; a lost claim is read again |
| EmailOutcomes.ReconcilesExactly | apps/api/src/sentinel_api/email/service.py:111-129 | a loaded record is claimed for reconciliation exactly when its outcome is unknown, and reconciled under its provider reference |
| EmailOutcomes.LoadsExactly | apps/api/src/sentinel_api/email/store.py:58-78 | a new intent gets an APPROVED record of its request; a known one is refused when its payload, message or key differ |
| EmailOutcomes.LostClaimReturnsCurrent | apps/api/src/sentinel_api/email/service.py:72-82 | after a lost claim the record is returned as it now is |
| EmailOutcomes.ReconciliationMayRaise | apps/api/src/sentinel_api/email/service.py:123-129 | a provider that raises while reconciling leaves the record RECONCILING |
| EmailOutcomes.DispatchFollowsScript | apps/api/src/sentinel_api/email/providers.py:55-99 | which scripted behaviours accept a key, fail it or leave it unknown, and the receipt |
| EmailOutcomes.ReconcileFindsOutcome | apps/api/src/sentinel_api/email/providers.py:101-126 | reconciling after an ambiguous dispatch finds what really happened |
| EmailOutcomes.TransitionsAre | apps/api/src/sentinel_api/protected_actions/outcomes.py:12-47 | the twelve transitions of the outcome graph, and no others |
| EmailRequestFacts.BuildsExactly | apps/api/src/sentinel_api/email/models.py:46-110 | an action becomes a request exactly when its fingerprint and canonical text are right and its payload has exactly the three text fields within their limits and an accepted mailbox; the request carries the identifiers and the trimmed contents |
| RequestOrigins.DecisionsWereReceived | apps/api/src/sentinel_api/integration/service.py:526-617 | every recorded decision was received from its approver on its run; a rejection carries no permit, an approval one issued to its approver |
| RequestOrigins.PermitsWereApproved | apps/api/src/sentinel_api/integration/service.py:551-579 | every permit goes back to a received approval by its approver, and lasts fifteen minutes |
| RequestOrigins.VersionsWereSubmitted | apps/api/src/sentinel_api/integration/service.py:471-524 | every version has the content that was prepared for its run or submitted to it as an edit |
| RequestOrigins.DispatchFollowsCommands | apps/api/src/sentinel_api/integration/service.py:619-690 | every dispatch follows a received approval and a received execution command of its run |
| RequestOrigins.NothingWithoutApproval | apps/api/src/sentinel_api/integration/service.py:551-581 | a run that never received an approval has no permit and no dispatch |
| RequestMailbox.DispatchedToControlled | apps/api/src/sentinel_api/email/service.py:84-96 | every request that is ever dispatched is addressed to the normalized controlled recipient |
| RequestMailbox.DispatchIsListed | apps/api/src/sentinel_api/integration/protected.py:101-104 | the dispatches are listed in the order of the provider calls |
| RequestMailbox.SendsIffLastApproved | apps/api/src/sentinel_api/integration/service.py:624-646 | an execution goes on with a permit exactly when the last decision on the version approved it with that permit and no execution is recorded |
| RequestMailbox.DecidesOnce | apps/api/src/sentinel_api/integration/service.py:536-550 | a second decision repeats the recorded one or is refused; a first approval needs a permit, a first rejection is recorded as it is |
| RequestMailbox.ListingIsOldestFirst | apps/api/src/sentinel_api/integration/repository.py:55-71 | records are listed oldest first, those of one time by reference |
| RequestOutcomes.SucceedsOnlyWhenDone | apps/api/src/sentinel_api/integration/service.py:471-690 | a request ends well only when its content stands in the records, the same decision was there, or the execution was |
| RequestOutcomes.RecordedOutcome | apps/api/src/sentinel_api/integration/service.py:664-690 | the recorded outcome of an execution is the state in which the email service left its record |
| RequestOutcomes.RaisedEndsRequest | apps/api/src/sentinel_api/integration/protected.py:101-104 | when the email service raises, the request ends with that error and records nothing |
| RequestOutcomes.RecordedVersionExists | apps/api/src/sentinel_api/integration/service.py:493-508 | a recorded version exists and has the recorded digest |
| RequestOutcomes.ApprovalSucceedsIff | apps/api/src/sentinel_api/integration/service.py:551-579 | an approval gets its permit exactly when the version it read is still current and addressed to the controlled recipient |
| RequestOutcomes.CommitSucceedsIff | apps/api/src/sentinel_api/integration/protected.py:74-100 | a commit succeeds exactly for an unused, unexpired permit of the run policy and the approved, current version, addressed to the controlled recipient |
| BrokerPolicy.CreatesExactly | apps/api/src/sentinel_api/protected_actions/broker.py:80-108 | which contents make a proposal, and the whole proposal they make |
| BrokerPolicy.EditsExactly | apps/api/src/sentinel_api/protected_actions/broker.py:110-144 | which contents make the next version, the proposal after it, and the diff |
| BrokerPolicy.IssuesExactly | apps/api/src/sentinel_api/protected_actions/broker.py:146-191 | a permit is issued exactly for the current version of an e-mail to the controlled recipient, as the operator saw it, on an allowed decision of the policy in force |
| BrokerPolicy.AuthorizesExactly | apps/api/src/sentinel_api/protected_actions/broker.py:202-238 | a permit authorizes exactly when it is unused and unexpired, its version current and APPROVED, and policy, digests and recipient agree |
| BrokerPolicy.AuthorizationLeaves | apps/api/src/sentinel_api/protected_actions/broker.py:239-258 | an authorization consumes the permit at that time, marks the proposal, and leaves everything else |
| BrokerPolicy.AuthorizedUnderPolicy | apps/api/src/sentinel_api/protected_actions/broker.py:193-258 | in every history an authorized action is addressed to the controlled recipient of the policy in force, within the time that an allowed decision under that policy gave it |
| CanonicalText.NormalizesIffPlain | apps/api/src/sentinel_api/protected_actions/canonical.py:15-33 | exactly the values without floats, foreign types and keys that are no strings have a canonical text |
| CanonicalText.EntryError | apps/api/src/sentinel_api/protected_actions/canonical.py:20-27 | the first offending entry of a mapping decides the error and its path |
| CanonicalText.ItemError | apps/api/src/sentinel_api/protected_actions/canonical.py:28-30 | the first offending item of a list decides the error and its path |
| CanonicalText.LastValueWins | apps/api/src/sentinel_api/protected_actions/canonical.py:20-27 | an object holds the last value given for a key |
| CanonicalText.KeysAscend | apps/api/src/sentinel_api/protected_actions/canonical.py:39-46 | the keys of every object ascend by code point |
| CanonicalText.PrintsCompactly | apps/api/src/sentinel_api/protected_actions/canonical.py:39-46 | literals, brackets, commas and colons without white space |
| CanonicalText.EscapesExactly | apps/api/src/sentinel_api/protected_actions/canonical.py:39-46 | which characters are escaped, and how |
| MemoryFields.ProjectedField | apps/api/src/sentinel_api/integration/event_store.py:102-164 | a projected event writes the row of its item only: each field is the conversion of the payload value, else of the previous value, else of the default |
| MemoryFields.Defaults | apps/api/src/sentinel_api/integration/event_store.py:116-157 | the default of every field |
| MemoryFields.FieldIsLastSaid | apps/api/src/sentinel_api/integration/event_store.py:110-112 | with conversions that give converted values back, a field holds what the last projected event that names it said |
| MemoryFields.FieldIsUnsaid | apps/api/src/sentinel_api/integration/event_store.py:110-112 | a field that no event names holds the default of the first event of its item |
| MemoryFields.ProjectedIff | apps/api/src/sentinel_api/integration/event_store.py:96-164 | an event is projected exactly when it describes an item and every field converts |
| MemoryFields.CountsMove | apps/api/src/sentinel_api/integration/event_store.py:204-209 | a projected event moves each count of the summary by what it does to the row of its item |
| MemoryFields.CompletedIsCounted | apps/api/src/sentinel_api/integration/event_store.py:166-217 | a stored work.completed that says so leaves its item completed and counted |
| MemoryFields.ColumnIsLastSaid | apps/api/src/sentinel_api/integration/event_store.py:172-187 | a column of the summary is what the last run event that names it said |
| MemoryFields.ColumnIsInitial | apps/api/src/sentinel_api/integration/event_store.py:192-211 | else it is what the run was created with |
| MemoryFields.AppendsExactly | apps/api/src/sentinel_api/integration/event_store.py:63-94 | an event is journaled as the next of its run with the draft as given; a known key gives its event; an unknown run is refused |
| MemoryFields.CreatesExactly | apps/api/src/sentinel_api/integration/event_store.py:33-61 | the event that creating a run journals, and when creating is refused |
| PostgresFields.AppliedField | apps/api/src/sentinel_api/persistence/postgres.py:508-669 | an applied event writes the row of its item only, each field the cast of what the event says, else of the row, else of the default; a first event introduces its item |
| PostgresFields.FieldIsLastSaid | apps/api/src/sentinel_api/persistence/postgres.py:538-542 | with casts that give cast values back, a field holds what the last event said of it |
| PostgresFields.FieldIsUnsaid | apps/api/src/sentinel_api/persistence/postgres.py:538-542 | a field that nothing was said of holds the default |
| PostgresFields.AppliedIff | apps/api/src/sentinel_api/persistence/postgres.py:508-669 | a work or subagent event is stored exactly when it describes and introduces its item, every field casts, and the row passes its check |
| PostgresFields.RunStoredIff | apps/api/src/sentinel_api/persistence/postgres.py:381-487 | a run event is stored exactly when what it says casts and the run does not complete before its start |
| PostgresFields.ColumnIsLastSaid | apps/api/src/sentinel_api/persistence/postgres.py:381-487 | every column of the run row and of its projection is the cast of what the last event said of it; an active status clears completed_at |
| PostgresFields.ColumnIsInitial | apps/api/src/sentinel_api/persistence/postgres.py:188-250 | else it is what the run was created with |
| PostgresFields.CountsMove | apps/api/src/sentinel_api/persistence/postgres.py:671-707 | an event moves each count of the projection by what it does to the row of its item |
| PostgresFields.AppendsExactly | apps/api/src/sentinel_api/persistence/postgres.py:256-347 | an event is stored as the next of its run with the draft as given; a known key gives its event; an abort leaves everything |
| StreamTiming.KeepAliveIsInTime | apps/api/src/sentinel_api/realtime.py:79-96 | without news a client hears nothing until the round that completes the heartbeat interval, and a keep-alive then |
| StreamTiming.DeliveryResets | apps/api/src/sentinel_api/realtime.py:79-90 | a delivered row moves the cursor, and the last of a batch restarts the idle time |
| StreamTiming.CursorMeans | apps/api/src/sentinel_api/realtime.py:99-110 | which Last-Event-ID headers are accepted, and the cursor they give |
| StreamTiming.LiteralValue | apps/api/src/sentinel_api/realtime.py:99-110 | the number that the digits of a header write |
| StreamTiming.SafeTypeJoins | apps/api/src/sentinel_api/realtime.py:28-38 | an event type is sent character by character, without its line breaks |
| NormalizationFacts.SameQuantity | apps/api/src/sentinel_api/evaluation/normalization.py:178-200 | a converted value is the same quantity in the base unit, where one unit is factor base units |
| NormalizationFacts.GramsAreFewerKilograms | apps/api/src/sentinel_api/evaluation/normalization.py:45-50 | 1000 g are 1 kg |
| NormalizationFacts.ConvertingIsMonotone | apps/api/src/sentinel_api/evaluation/normalization.py:178-200 | converting keeps the order of measurements |
| NormalizationFacts.NotConvertible | apps/api/src/sentinel_api/evaluation/normalization.py:190-197 | unknown units and other dimensions are refused |
| NormalizationFacts.SameWorth | apps/api/src/sentinel_api/evaluation/normalization.py:226-242 | an exchanged amount is worth the same in the base currency, where one unit is rate base units |
| NormalizationFacts.RateIsLastGiven | apps/api/src/sentinel_api/evaluation/normalization.py:210-224 | the last rate given for a code is in the table |
| NormalizationFacts.DefinitionIsLastGiven | apps/api/src/sentinel_api/evaluation/normalization.py:142-166 | the last definition given for a symbol overrides the default |
| EvidenceVerdicts.OrderLaws | apps/api/src/sentinel_api/evaluation/engine.py:354-390 | for numbers, money and dates: the target meets AT_LEAST and AT_MOST, both are monotone and fail beyond the target, EQUALS is both, NOT_EQUALS its opposite |
| EvidenceVerdicts.AmountVerdict | apps/api/src/sentinel_api/evaluation/engine.py:354-367 | what each operator says of an amount and a target |
| EvidenceVerdicts.DateVerdict | apps/api/src/sentinel_api/evaluation/engine.py:370-390 | what each operator says of two instants; dates without an offset are refused |
| EvidenceVerdicts.InVerdict | apps/api/src/sentinel_api/evaluation/engine.py:414-419 | IN is met by exactly the allowed values, up to case and white space |
| EvidenceVerdicts.ContainsVerdict | apps/api/src/sentinel_api/evaluation/engine.py:412-413 | CONTAINS is met by exactly the texts that have the target inside |
| EvidenceVerdicts.EqualityVerdict | apps/api/src/sentinel_api/evaluation/engine.py:393-440 | equality of texts, flags and plain values |
| EvidenceVerdicts.WrongKindIsRefused | apps/api/src/sentinel_api/evaluation/engine.py:405-440 | a value of the wrong kind is an error, never a verdict |
| EvidenceVerdicts.OneObservationDecides | apps/api/src/sentinel_api/evaluation/engine.py:443-508 | when one observation counts, status, value, reason and weights are those of its criterion |
| EvidenceVerdicts.QuantityDecides | apps/api/src/sentinel_api/evaluation/engine.py:443-508 | a number that converts to x satisfies AT_LEAST exactly when x >= target, AT_MOST exactly when x <= target, EQUALS exactly when x = target |
| EvidenceVerdicts.MoneyDecides | apps/api/src/sentinel_api/evaluation/engine.py:443-508 | the same for an amount of money that exchanges to x |
| EvidenceVerdicts.DateDecides | apps/api/src/sentinel_api/evaluation/engine.py:443-508 | the same for a date |
| EvidenceVerdicts.NothingBears | apps/api/src/sentinel_api/evaluation/engine.py:190-224 | no evidence is UNKNOWN, none of an acceptable type INVALID |
| EvidenceVerdicts.NoneCounts | apps/api/src/sentinel_api/evaluation/engine.py:269-298 | evidence of which none counts is STALE if some of it has expired, else UNKNOWN |
| EvidenceVerdicts.DisagreementConflicts | apps/api/src/sentinel_api/evaluation/engine.py:323-332 | counting observations that convert to different amounts are CONFLICTING |
| EvidenceVerdicts.OpenConflictConflicts | apps/api/src/sentinel_api/evaluation/engine.py:158-178 | an unresolved conflict about the evidence makes it CONFLICTING |
| EvidenceVerdicts.DividedResolutionConflicts | apps/api/src/sentinel_api/evaluation/engine.py:158-178 | so do conflicts resolved to different observations |
| EvidenceVerdicts.SettledDecides | apps/api/src/sentinel_api/evaluation/engine.py:242-269 | a settled conflict leaves the observation it was settled by alone |
| EvidenceVerdicts.SelectedIsBest | apps/api/src/sentinel_api/evaluation/engine.py:146-155 | a verdict rests on the most confident counting observation, then the most trusted kind, the latest retrieval, the greatest id |
| RankingFacts.ScoreIsShare | apps/api/src/sentinel_api/evaluation/engine.py:588-594 | the score is the earned share of the possible weight in percent |
| RankingFacts.EarningRaisesScore | apps/api/src/sentinel_api/evaluation/engine.py:580-594 | earning one more weight raises the score by its share |
| RankingFacts.FullScoreIffAllEarned | apps/api/src/sentinel_api/evaluation/engine.py:580-594 | the score is 100 exactly when every weight is earned |
| RankingFacts.CoverageMeans | apps/api/src/sentinel_api/evaluation/engine.py:511-541 | the coverage counts the evaluations by status, and the mandatory ones |
| RankingFacts.ListedKeys | apps/api/src/sentinel_api/evaluation/engine.py:572-579 | which keys are listed as failed and as unresolved |
| RankingFacts.TieBreakers | apps/api/src/sentinel_api/evaluation/engine.py:614-625 | mandatory coverage, coverage, supplier, offering and id break ties in this order and direction |

## Left out

- Commands accepted after the loop is left are not claimed to be applied: handlers still run during the last awaits.
- A completed item is not claimed to have been produced under the revision stamped on it.
- Parent cancellation and child-start failures are not part of the parent machine, nor are labels, summaries and output references of its journal events.
- ParentRuns.JournalKeysFresh: excepts recovery offers, whose keys repeat when the same failures are offered again.
- No progress out of RECONCILING or DISPATCHING is claimed: a worker may stop for ever while it owns an intent.
- The HTTP provider, its transport and the PostgreSQL execution store are external; with any provider but the fake one a dispatch may answer anything or raise.
- The PostgreSQL approval broker repeats the in-memory one and is not modelled.
- BrokerRuns.ApprovalBroker.Edit: `ProposalDiff.changed_fields` is not modelled, only versions and the attachment flag of a diff; it would add an easy member.
- Surrounding white space of action types and attachment digests, which the contracts strip, is taken as already stripped.
- RequestService.IntegrationService.EditProposal: the autonomy check is an abandoned request; the event it appends and the view it returns are not part of the request machine.
- RequestService.IntegrationService.DecideProposal: the same.
- RequestService.IntegrationService.ExecuteApprovedEmail: the same.
- Lone surrogates are not characters here: the JSON parser refuses them, and UTF-8 encoding is not modelled.
- JsonLoads.ParsePrinted: floats are kept as their text, since canonical values hold none; nesting depth is not limited.
- The canonical text is only the text: equality of the dispatched body with the approved body holds up to the stripped white space at its ends.
- MemoryStore.AppendKeeps: field conversions of projections are one arbitrary function by field name, so their exact parsing is not modelled.
- Field conversions of `get_run` are not modelled; the summary holds the values as journaled.
- Single-column casts and checks of PostgreSQL are arbitrary functions of column and value; constraints on the event row itself, deferred foreign keys, locks and the outbox are not modelled, and each transaction is one step.
- PostgreSQL tables are kept per run, so the `WHERE run_id` filters are not themselves under proof there; in the in-memory store they are.
- The two event stores are not claimed to agree on summaries.
- The stream's timers are counted in poll intervals; the finite stream of the route is limited to its default of 500 events and is not modelled.
- EventStream.LastEventIdRoundTrip: `int()` is modelled for ASCII digits only.
- ServerSentEvents.ClientSeesEveryRow: the JSON text of a row is any text without line breaks.
- Naive `as_of` and `fresh_until` values, which raise, are taken as aware instants; the default unit tables are a parameter.
- Decimal rounding and non-finite decimals are not modelled.
- Routes, settings, artifact rendering, research adapters and the web application are not modelled.
