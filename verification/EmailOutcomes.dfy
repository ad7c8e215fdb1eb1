/** Where mail goes and what is recorded of it (email/service.py:57-235, email/providers.py:55-126). */
module EmailOutcomes {
  import opened Wrappers
  import opened Outcomes
  import opened EmailStore
  import opened EmailProvider
  import opened EmailProtocol
  import opened EmailRuns

  // ----- Mail goes to the controlled recipient only -----

  /** Task `w` was started to execute the request for that recipient. */
  ghost predicate StartedFor(r: Run, k: nat, w: nat, request: DispatchRequest, recipient: string) {
    exists j :: 0 <= j < k <= |r.events| && r.events[j] == StartExecute(w, request, recipient)
  }

  ghost predicate WorkerStarted(r: Run, k: nat, w: nat, worker: Worker) {
    worker.ExecuteStarted? || worker.ExecuteLoaded? || worker.ExecuteClaimed? ==>
      StartedFor(r, k, w, worker.request, worker.recipient)
  }

  /** A task that may still dispatch holds what it was started with. */
  lemma {:induction false} HoldsRecipient(cfg: Config, s: System, e: Event, w: nat)
    requires Enabled(cfg, s, e) && w in Step(cfg, s, e).workers
    ensures var worker' := Step(cfg, s, e).workers[w];
            worker'.ExecuteStarted? || worker'.ExecuteLoaded? || worker'.ExecuteClaimed? ==>
              || e == StartExecute(w, worker'.request, worker'.recipient)
              || (w in s.workers
                  && (s.workers[w].ExecuteStarted? || s.workers[w].ExecuteLoaded? || s.workers[w].ExecuteClaimed?)
                  && s.workers[w].request == worker'.request && s.workers[w].recipient == worker'.recipient)
  {
    hide Dispatch, Reconcile, CompareAndSet, Ensure, Get, ClaimReport, ClosingReport, ClosingState;
  }

  lemma {:induction false} WorkersStarted(cfg: Config, r: Run, k: nat, w: nat)
    requires IsRun(cfg, r) && k < |r.states| && w in r.states[k].workers
    ensures WorkerStarted(r, k, w, r.states[k].workers[w])
  {
    hide Enabled, Step;
    if k > 0 {
      assert Enabled(cfg, r.states[k - 1], r.events[k - 1]);
      HoldsRecipient(cfg, r.states[k - 1], r.events[k - 1], w);
      if w in r.states[k - 1].workers { WorkersStarted(cfg, r, k - 1, w); }
      hide IsRun;
    }
  }

  /** The request's mailbox is that of the recipient, normalized. */
  predicate IsFor(cfg: Config, request: DispatchRequest, recipient: string) {
    cfg.normalize(recipient) == Some(request.message.recipient)
  }

  lemma {:induction false} CallsStep(cfg: Config, s: System, e: Event)
    requires Enabled(cfg, s, e)
    ensures var calls, calls' := s.provider.dispatchCalls, Step(cfg, s, e).provider.dispatchCalls;
            || calls' == calls
            || (e.DispatchStep? && e.w in s.workers && s.workers[e.w].ExecuteClaimed?
                && IsFor(cfg, s.workers[e.w].request, s.workers[e.w].recipient)
                && calls' == calls + [s.workers[e.w].request])
  {
    hide Reconcile, CompareAndSet, Ensure, Get, ClaimReport, ClosingReport, ClosingState;
    if e.DispatchStep? { DispatchRecordsCall(s.provider, s.workers[e.w].request); }
    if e.ReconcileStep? { ReconcileCallsNothing(s.provider, s.workers[e.w].request, s.workers[e.w].reference); }
    hide Dispatch;
  }

  lemma ReconcileCallsNothing(p: ProviderState, request: DispatchRequest, reference: Option<string>)
    ensures Reconcile(p, request, reference).1.dispatchCalls == p.dispatchCalls
  {}

  /** Every call the fake provider has received was for a request whose mailbox is the normalized recipient
      that the executing task was started with. */
  lemma {:induction false} CallsAreForRecipient(cfg: Config, r: Run, k: nat, n: nat)
      returns (j: nat, w: nat, recipient: string)
    requires IsRun(cfg, r) && k < |r.states|
    requires |r.states[0].provider.dispatchCalls| <= n < |r.states[k].provider.dispatchCalls|
    ensures j < k <= |r.events| && r.events[j] == StartExecute(w, r.states[k].provider.dispatchCalls[n], recipient)
    ensures cfg.normalize(recipient) == Some(r.states[k].provider.dispatchCalls[n].message.recipient)
  {
    hide IsRun, Enabled, Step, StartedFor;
    RunStarts(cfg, r);
    if k > 0 {
      var s, e := r.states[k - 1], r.events[k - 1];
      RunStep(cfg, r, k - 1);
      CallsStep(cfg, s, e);
      if n < |s.provider.dispatchCalls| {
        j, w, recipient := CallsAreForRecipient(cfg, r, k - 1, n);
      } else {
        w, recipient := e.w, s.workers[e.w].recipient;
        WorkersStarted(cfg, r, k - 1, w);
        j := Started(r, k - 1, w, s.workers[w].request, recipient);
      }
    }
  }

  lemma RunStarts(cfg: Config, r: Run)
    requires IsRun(cfg, r)
    ensures |r.states| == |r.events| + 1
  {}

  lemma RunStep(cfg: Config, r: Run, k: nat)
    requires IsRun(cfg, r) && k < |r.events|
    ensures |r.states| == |r.events| + 1
    ensures Enabled(cfg, r.states[k], r.events[k]) && r.states[k + 1] == Step(cfg, r.states[k], r.events[k])
  {
    hide Enabled, Step;
  }

  lemma Started(r: Run, k: nat, w: nat, request: DispatchRequest, recipient: string) returns (j: nat)
    requires StartedFor(r, k, w, request, recipient)
    ensures j < k <= |r.events| && r.events[j] == StartExecute(w, request, recipient)
  {
    j :| 0 <= j < k <= |r.events| && r.events[j] == StartExecute(w, request, recipient);
  }

  /** A claimed task calls its provider, whichever it is, exactly when the request is for its recipient;
      otherwise neither the provider nor the records change. */
  lemma {:induction false} CallsIffForRecipient(cfg: Config, s: System, e: Event)
    requires Enabled(cfg, s, e) && (e.DispatchStep? || e.DispatchOtherStep?)
    ensures var worker, s' := s.workers[e.w], Step(cfg, s, e);
            && s'.records == s.records && e.w in s'.workers
            && if cfg.normalize(worker.recipient) == Some(worker.request.message.recipient)
               then s'.workers[e.w].ExecuteAnswered? && s'.workers[e.w].request == worker.request
               else s'.workers[e.w] == ExecuteRefused(worker.request) && s'.provider == s.provider
  {
    hide Dispatch;
  }

  // ----- What a closing transition reports -----

  predicate Filled(text: Option<string>) {
    text.Some? && text.value != ""
  }

  /** The record keeps its first receipt and gains what was reported; one audit event says so. */
  predicate KeepsReport(record: ExecutionRecord, record': ExecutionRecord, provider: Option<string>,
                        reference: Option<string>, receipt: Option<Receipt>, detail: string, at: int) {
    && record'.receipt == (if receipt.Some? then receipt else record.receipt)
    && record'.providerReference == (if Filled(reference) then reference
                                     else if receipt.Some? then Some(receipt.value.messageId)
                                     else record.providerReference)
    && record'.detail == detail && record'.attempts == record.attempts && record'.updatedAt == at
    && record'.auditEvents == record.auditEvents
         + [AuditEvent(record'.state, at,
                       if Filled(provider) then provider
                       else if receipt.Some? then Some(receipt.value.provider) else None,
                       record'.providerReference, detail)]
  }

  /** It keeps what it was created for. */
  predicate SameIntent(record: ExecutionRecord, record': ExecutionRecord) {
    record'.intentId == record.intentId && record'.payloadFingerprint == record.payloadFingerprint
    && record'.requestFingerprint == record.requestFingerprint && record'.keySha256 == record.keySha256
  }

  /** A refused task ends with the recipient error, and its record is FAILED_BEFORE_EFFECT. */
  lemma {:induction false} RefusedEndsUnsent(cfg: Config, r: Run, k: nat, w: nat, at: int)
    requires IsRun(cfg, r) && k < |r.events| && r.events[k] == CloseStep(w, at)
    requires w in r.states[k].workers && r.states[k].workers[w].ExecuteRefused?
    ensures var s, s' := r.states[k], r.states[k + 1];
            var request := s.workers[w].request;
            && w in s'.workers && s'.workers[w] == Finished(request, Err(ControlledRecipient))
            && s'.provider == s.provider
            && request.intentId in s'.records && s'.records[request.intentId].state == FailedBeforeEffect
            && KeepsReport(s.records[request.intentId], s'.records[request.intentId], None, None, None,
                           "approved email recipient is outside the controlled recipient policy", at)
  {
    hide IsRun, ClosingReport, CompareAndSet, Moved, KeepsReport, Close, WorkerOk;
    RunStepOf(cfg, r, k, w);
    CloseSucceeds(cfg, r.states[k], w, at);
    CloseRefused(r.states[k], w, at);
  }

  lemma {:induction false} CloseRefused(s: System, w: nat, at: int)
    requires w in s.workers && s.workers[w].ExecuteRefused?
    requires CompareAndSet(s.records, s.workers[w].request.intentId, Dispatching, FailedBeforeEffect,
                           ClosingReport(s.workers[w], at)).0.Ok?
    ensures var s', request := Close(s, w, at), s.workers[w].request;
            && w in s'.workers && s'.workers[w] == Finished(request, Err(ControlledRecipient))
            && s'.provider == s.provider
            && request.intentId in s.records && request.intentId in s'.records
            && s'.records[request.intentId].state == FailedBeforeEffect
            && KeepsReport(s.records[request.intentId], s'.records[request.intentId], None, None, None,
                           "approved email recipient is outside the controlled recipient policy", at)
  {}

  // ----- Which outcome it records -----

  /** The outcome of an answer, or of none. */
  predicate RecordsDispatch(answer: Option<DispatchResult>, state: OutcomeState) {
    match answer
    case None => state == OutcomeUnknown
    case Some(result) =>
      && (state == Confirmed <==> result.disposition == DispatchConfirmed)
      && (state == FailedBeforeEffect <==> result.disposition == DispatchFailed)
      && (state == OutcomeUnknown <==> result.disposition == DispatchUnknown)
  }

  predicate RecordsReconciliation(found: ReconcileResult, state: OutcomeState) {
    && (state == Confirmed <==> found.disposition == ReconcileConfirmed)
    && (state == SafeToRetry <==> found.disposition == ReconcileSafeToRetry)
    && (state == NeedsOperator <==> found.disposition == ReconcileNeedsOperator)
  }

  lemma {:induction false} ClosingFacts(cfg: Config, s: System, w: nat, at: int)
    requires Enabled(cfg, s, CloseStep(w, at)) && WorkerOk(s.records, s.workers[w])
    ensures var worker, s' := s.workers[w], Close(s, w, at);
            var id := worker.request.intentId;
            && id in s.records && id in s'.records && s'.records == s.records[id := s'.records[id]]
            && w in s'.workers
            && (!worker.ExecuteRefused? ==> s'.workers[w] == Finished(worker.request, Ok(s'.records[id])))
            && s'.records[id].state == ClosingState(worker) && s'.records[id].state != Dispatching
            && var report := ClosingReport(worker, at);
               && KeepsReport(s.records[id], s'.records[id], report.provider, report.reference, report.receipt,
                              report.detail, at)
               && SameIntent(s.records[id], s'.records[id])
  {
    hide Close, CompareAndSet, ClosingReport, Allowed, KeepsReport, SameIntent, Moved, WorkerOk;
    CloseSucceeds(cfg, s, w, at);
    MovedReports(s.records[s.workers[w].request.intentId], ClosingState(s.workers[w]), ClosingReport(s.workers[w], at));
    CloseOutcome(s, w, at);
    ReportedAt(s.workers[w], at);
  }

  lemma ReportedAt(worker: Worker, at: int)
    requires Closing(worker)
    ensures ClosingReport(worker, at).at == at
  {}

  lemma CloseOutcome(s: System, w: nat, at: int)
    requires w in s.workers && Closing(s.workers[w])
    ensures var worker := s.workers[w];
            var (closed, records) := CompareAndSet(s.records, worker.request.intentId, HeldState(worker),
                                                   ClosingState(worker), ClosingReport(worker, at));
            && w in Close(s, w, at).workers
            && (closed.Ok? && !worker.ExecuteRefused? ==>
                  Close(s, w, at).workers[w] == Finished(worker.request, Ok(closed.value))
                  && worker.request.intentId in records && closed.value == records[worker.request.intentId])
            && Close(s, w, at).records == records
  {
    hide ClosingReport, ClosingState, Moved;
  }

  lemma MovedReports(record: ExecutionRecord, next: OutcomeState, report: Report)
    ensures Moved(record, next, report).state == next
    ensures SameIntent(record, Moved(record, next, report))
    ensures next != Dispatching ==>
              KeepsReport(record, Moved(record, next, report), report.provider, report.reference, report.receipt,
                          report.detail, report.at)
  {}

  /** The stored outcome, the receipt and the returned record are exactly those of the provider's answer. */
  lemma {:induction false} AnswerIsRecorded(cfg: Config, r: Run, k: nat, w: nat, at: int)
    requires IsRun(cfg, r) && k < |r.events| && r.events[k] == CloseStep(w, at) && w in r.states[k].workers
    requires r.states[k].workers[w].ExecuteAnswered? || r.states[k].workers[w].ReconcileAnswered?
    ensures var s, s' := r.states[k], r.states[k + 1];
            var worker := s.workers[w];
            var id := worker.request.intentId;
            && id in s.records && id in s'.records && s'.records == s.records[id := s'.records[id]]
            && w in s'.workers && s'.workers[w] == Finished(worker.request, Ok(s'.records[id]))
            && SameIntent(s.records[id], s'.records[id])
            && (worker.ExecuteAnswered? ==>
                  && RecordsDispatch(worker.answer, s'.records[id].state)
                  && match worker.answer
                     case None =>
                       KeepsReport(s.records[id], s'.records[id], None, None, None,
                                   "Email provider failed after dispatch began; outcome requires reconciliation", at)
                     case Some(result) =>
                       KeepsReport(s.records[id], s'.records[id], Some(result.provider), result.providerReference,
                                   result.receipt, result.detail, at))
            && (worker.ReconcileAnswered? ==>
                  && RecordsReconciliation(worker.found, s'.records[id].state)
                  && KeepsReport(s.records[id], s'.records[id], Some(worker.found.provider),
                                 worker.found.providerReference, worker.found.receipt, worker.found.detail, at))
  {
    hide IsRun, KeepsReport, Close, WorkerOk;
    RunStepOf(cfg, r, k, w);
    ClosingFacts(cfg, r.states[k], w, at);
  }

  // ----- Which records are claimed -----

  /** The step of a run at which a task takes one, with what that task may rely on. */
  lemma {:induction false} RunStepOf(cfg: Config, r: Run, k: nat, w: nat)
    requires IsRun(cfg, r) && k < |r.events| && w in r.states[k].workers
    ensures |r.states| == |r.events| + 1
    ensures Enabled(cfg, r.states[k], r.events[k]) && r.states[k + 1] == Step(cfg, r.states[k], r.events[k])
    ensures WorkerOk(r.states[k].records, r.states[k].workers[w])
  {
    hide Enabled, Step, OwnInv, AllAudited, WorkerOk;
    RunInv(cfg, r, k);
    WorkerKnown(r.states[k], w);
  }

  /** The states in which an execution claims the record. */
  predicate MayStart(state: OutcomeState) {
    state in {Approved, FailedBeforeEffect, SafeToRetry}
  }

  lemma {:induction false} ClaimForDispatch(s: System, w: nat, at: int)
    requires w in s.workers && s.workers[w].ExecuteLoaded? && WorkerOk(s.records, s.workers[w])
    ensures var s' := Claim(s, w, at);
            var ExecuteLoaded(request, recipient, current) := s.workers[w];
            var id := request.intentId;
            && id in s.records && id in s'.records && w in s'.workers && s'.provider == s.provider
            && if MayStart(current.state) && s.records[id].state == current.state then
                 && s'.workers[w] == ExecuteClaimed(request, recipient)
                 && s'.records == s.records[id := s'.records[id]]
                 && s'.records[id].state == Dispatching && s'.records[id].attempts == s.records[id].attempts + 1
               else
                 && s'.records == s.records
                 && s'.workers[w]
                    == if MayStart(current.state) then Rereading(request) else Finished(request, Ok(current))
  {
    hide ClaimReport;
  }

  lemma ReconcilingReference(record: ExecutionRecord, worker: Worker, at: int)
    requires worker.ReconcileLoaded?
    ensures var moved := Moved(record, Reconciling, ClaimReport(worker, at));
            var reference := worker.current.providerReference;
            && moved.state == Reconciling && moved.attempts == record.attempts
            && moved.providerReference == if Filled(reference) then reference else record.providerReference
  {}

  lemma {:induction false} ClaimForReconciliation(s: System, w: nat, at: int)
    requires w in s.workers && s.workers[w].ReconcileLoaded? && WorkerOk(s.records, s.workers[w])
    ensures var s' := Claim(s, w, at);
            var ReconcileLoaded(request, current) := s.workers[w];
            var id := request.intentId;
            && id in s.records && id in s'.records && w in s'.workers && s'.provider == s.provider
            && if current.state == OutcomeUnknown && s.records[id].state == OutcomeUnknown then
                 && s'.workers[w] == ReconcileClaimed(request, s'.records[id].providerReference)
                 && s'.records[id].providerReference
                    == (if Filled(current.providerReference) then current.providerReference
                        else s.records[id].providerReference)
                 && s'.records == s.records[id := s'.records[id]]
                 && s'.records[id].state == Reconciling && s'.records[id].attempts == s.records[id].attempts
               else
                 && s'.records == s.records
                 && s'.workers[w]
                    == if current.state == OutcomeUnknown then Rereading(request) else Finished(request, Ok(current))
  {
    hide Moved, ClaimReport;
    var worker := s.workers[w];
    ReconcilingReference(s.records[worker.request.intentId], worker, at);
  }

  /** A loaded record is claimed for dispatch exactly when it is APPROVED, FAILED_BEFORE_EFFECT or
      SAFE_TO_RETRY and nobody has moved it since; then it is DISPATCHING with one attempt more. */
  lemma {:induction false} ClaimsExactly(cfg: Config, r: Run, k: nat, w: nat, at: int)
    requires IsRun(cfg, r) && k < |r.events| && r.events[k] == ClaimStep(w, at)
    requires w in r.states[k].workers && r.states[k].workers[w].ExecuteLoaded?
    ensures var s, s' := r.states[k], r.states[k + 1];
            var ExecuteLoaded(request, recipient, current) := s.workers[w];
            var id := request.intentId;
            && id in s.records && id in s'.records && w in s'.workers && s'.provider == s.provider
            && if MayStart(current.state) && s.records[id].state == current.state then
                 && s'.workers[w] == ExecuteClaimed(request, recipient)
                 && s'.records == s.records[id := s'.records[id]]
                 && s'.records[id].state == Dispatching && s'.records[id].attempts == s.records[id].attempts + 1
               else
                 && s'.records == s.records
                 && s'.workers[w]
                    == if MayStart(current.state) then Rereading(request) else Finished(request, Ok(current))
  {
    hide IsRun, Claim, WorkerOk, MayStart;
    RunStepOf(cfg, r, k, w);
    ClaimForDispatch(r.states[k], w, at);
  }

  /** A loaded record is claimed for reconciliation exactly when its outcome is unknown. */
  lemma {:induction false} ReconcilesExactly(cfg: Config, r: Run, k: nat, w: nat, at: int)
    requires IsRun(cfg, r) && k < |r.events| && r.events[k] == ClaimStep(w, at)
    requires w in r.states[k].workers && r.states[k].workers[w].ReconcileLoaded?
    ensures var s, s' := r.states[k], r.states[k + 1];
            var ReconcileLoaded(request, current) := s.workers[w];
            var id := request.intentId;
            && id in s.records && id in s'.records && w in s'.workers && s'.provider == s.provider
            && if current.state == OutcomeUnknown && s.records[id].state == OutcomeUnknown then
                 && s'.workers[w] == ReconcileClaimed(request, s'.records[id].providerReference)
                 && s'.records[id].providerReference
                    == (if Filled(current.providerReference) then current.providerReference
                        else s.records[id].providerReference)
                 && s'.records == s.records[id := s'.records[id]]
                 && s'.records[id].state == Reconciling && s'.records[id].attempts == s.records[id].attempts
               else
                 && s'.records == s.records
                 && s'.workers[w]
                    == if current.state == OutcomeUnknown then Rereading(request) else Finished(request, Ok(current))
  {
    hide IsRun, Claim, WorkerOk;
    RunStepOf(cfg, r, k, w);
    ClaimForReconciliation(r.states[k], w, at);
  }

  // ----- Loading and reading again -----

  lemma {:induction false} LoadFacts(cfg: Config, s: System, w: nat, at: int)
    requires w in s.workers && (s.workers[w].ExecuteStarted? || s.workers[w].ReconcileStarted?)
    ensures LoadedAs(cfg, s, Load(cfg, s, w, at), w)
  {}

  /** A new intent gets an APPROVED record of its request; a known one is loaded as it is, but refused when its
      payload, its message or its key differ from the first. */
  ghost predicate LoadedAs(cfg: Config, s: System, s': System, w: nat)
    requires w in s.workers
  {
    var request := s.workers[w].request;
    var id := request.intentId;
    && w in s'.workers && s'.provider == s.provider && id in s'.records
    && s'.records == s.records[id := s'.records[id]]
    && (id in s.records ==> s'.records[id] == s.records[id])
    && (id !in s.records ==>
          s'.records[id].state == Approved && s'.records[id].attempts == 0 && s'.records[id].receipt.None?)
    && var same := s'.records[id].payloadFingerprint == request.payloadFingerprint
                   && s'.records[id].requestFingerprint == cfg.hashing.message(request.message)
                   && s'.records[id].keySha256 == cfg.hashing.key(request.idempotencyKey);
       && (id !in s.records ==> same)
       && s'.workers[w] == if !same then Finished(request, Err(StoreFailed(ReusedWithDifferentBytes)))
                           else if s.workers[w].ExecuteStarted? then
                             ExecuteLoaded(request, s.workers[w].recipient, s'.records[id])
                           else ReconcileLoaded(request, s'.records[id])
  }

  lemma {:induction false} LoadsExactly(cfg: Config, r: Run, k: nat, w: nat, at: int)
    requires IsRun(cfg, r) && k < |r.events| && r.events[k] == LoadStep(w, at)
    ensures |r.states| == |r.events| + 1 && w in r.states[k].workers
    ensures LoadedAs(cfg, r.states[k], r.states[k + 1], w)
  {
    hide IsRun, Load, LoadedAs;
    RunStep(cfg, r, k);
    LoadFacts(cfg, r.states[k], w, at);
  }

  /** After a lost claim the record is returned as it now is, and nothing is written. */
  lemma {:induction false} LostClaimReturnsCurrent(cfg: Config, r: Run, k: nat, w: nat)
    requires IsRun(cfg, r) && k < |r.events| && r.events[k] == RereadStep(w)
    ensures |r.states| == |r.events| + 1 && w in r.states[k].workers
    ensures var s, s', request := r.states[k], r.states[k + 1], r.states[k].workers[w].request;
            && request.intentId in s.records && w in s'.workers
            && s'.workers[w] == Finished(request, Ok(s.records[request.intentId]))
            && s'.records == s.records && s'.provider == s.provider
  {
    hide IsRun, WorkerOk;
    RunStep(cfg, r, k);
    RunStepOf(cfg, r, k, w);
    KnownToWorker(r.states[k], w);
  }

  lemma KnownToWorker(s: System, w: nat)
    requires w in s.workers && WorkerOk(s.records, s.workers[w]) && s.workers[w].Rereading?
    ensures s.workers[w].request.intentId in s.records
  {}

  /** A provider that raises while reconciling leaves the record RECONCILING; any other answer is recorded next. */
  lemma {:induction false} ReconciliationMayRaise(cfg: Config, r: Run, k: nat, w: nat, answer: Option<ReconcileResult>)
    requires IsRun(cfg, r) && k < |r.events| && r.events[k] == ReconcileOtherStep(w, answer)
    ensures |r.states| == |r.events| + 1 && w in r.states[k].workers
    ensures var s, s', request := r.states[k], r.states[k + 1], r.states[k].workers[w].request;
            && request.intentId in s.records && s.records[request.intentId].state == Reconciling
            && s'.records == s.records && w in s'.workers
            && s'.workers[w] == (match answer
                                 case None => Finished(request, Err(ProviderRaised))
                                 case Some(found) => ReconcileAnswered(request, found))
  {
    hide IsRun, WorkerOk;
    RunStep(cfg, r, k);
    RunStepOf(cfg, r, k, w);
    HeldReconciling(r.states[k], w);
  }

  lemma HeldReconciling(s: System, w: nat)
    requires w in s.workers && WorkerOk(s.records, s.workers[w]) && s.workers[w].ReconcileClaimed?
    ensures s.workers[w].request.intentId in s.records
    ensures s.records[s.workers[w].request.intentId].state == Reconciling
  {}

  // ----- The fake provider's script -----

  /** A new key is accepted exactly under the two accepting behaviours, and the answer says what the script
      says; the script moves on but keeps its last behaviour. */
  lemma {:induction false} DispatchFollowsScript(p: ProviderState, request: DispatchRequest)
    requires p.behaviors != [] && request.idempotencyKey !in p.receipts
    ensures var (result, p') := Dispatch(p, request);
            var key, behavior := request.idempotencyKey, p.behaviors[0];
            && (key in p'.receipts <==> behavior in {Confirm, AmbiguousConfirmed})
            && (result.disposition == DispatchConfirmed <==> behavior == Confirm)
            && (result.disposition == DispatchFailed <==> behavior in {FailBeforeEffect, TimeoutBeforeEffect})
            && (result.receipt == if behavior == Confirm then Some(p'.receipts[key]) else None)
            && (forall other :: other != key ==>
                  (other in p'.receipts <==> other in p.receipts)
                  && (other in p.receipts ==> p'.receipts[other] == p.receipts[other]))
            && (key in p'.receipts ==>
                  p'.receipts[key] == Receipt("fake", "fake-" + (if |key| > 24 then key[..24] else key),
                                              request.authorizedAt, "accepted"))
            && result.provider == "fake"
            && result.providerReference
               == (if behavior == AmbiguousConfirmed then Some(p'.receipts[key].messageId) else None)
            && p'.behaviors == if |p.behaviors| == 1 then p.behaviors else p.behaviors[1..]
  {}

  /** A key that was accepted is answered with the receipt it has, and nothing else happens. */
  lemma {:induction false} DispatchRepeatsReceipt(p: ProviderState, request: DispatchRequest)
    requires p.behaviors != [] && request.idempotencyKey in p.receipts
    ensures var (result, p') := Dispatch(p, request);
            && p' == p.(dispatchCalls := p.dispatchCalls + [request]) && result.disposition == DispatchConfirmed
            && result.receipt == Some(p.receipts[request.idempotencyKey])
  {}

  /** Reconciling right after an ambiguous dispatch finds what really happened. */
  lemma {:induction false} ReconcileFindsOutcome(p: ProviderState, request: DispatchRequest, reference: Option<string>)
    requires p.behaviors != [] && request.idempotencyKey !in p.receipts
    requires p.behaviors[0] in {AmbiguousConfirmed, AmbiguousNotSent, AmbiguousUnresolved}
    ensures var p' := Dispatch(p, request).1;
            var (found, p'') := Reconcile(p', request, reference);
            && p''.receipts == p'.receipts && p''.behaviors == p'.behaviors
            && (found.disposition == ReconcileConfirmed <==> p.behaviors[0] == AmbiguousConfirmed)
            && (found.disposition == ReconcileSafeToRetry <==> p.behaviors[0] == AmbiguousNotSent)
            && (found.disposition == ReconcileNeedsOperator <==> p.behaviors[0] == AmbiguousUnresolved)
            && found.receipt
               == if request.idempotencyKey in p'.receipts then Some(p'.receipts[request.idempotencyKey]) else None
  {
    var p' := Dispatch(p, request).1;
    AmbiguityIsKept(p, request);
    hide Dispatch;
  }

  lemma AmbiguityIsKept(p: ProviderState, request: DispatchRequest)
    requires p.behaviors != [] && request.idempotencyKey !in p.receipts
    requires p.behaviors[0] in {AmbiguousConfirmed, AmbiguousNotSent, AmbiguousUnresolved}
    ensures var key, p' := request.idempotencyKey, Dispatch(p, request).1;
            && (key in p'.receipts <==> p.behaviors[0] == AmbiguousConfirmed)
            && key in p'.unknownBehavior && p'.unknownBehavior[key] == p.behaviors[0]
  {}

  // ----- The outcome graph -----

  /** The twelve transitions an outcome may take, and no others. */
  lemma {:induction false} TransitionsAre(state: OutcomeState, next: OutcomeState)
    ensures Transition(state, next) == Ok(next) || Transition(state, next) == Err(InvalidOutcomeTransition(state, next))
    ensures Transition(state, next).Ok? <==>
              (state, next) in {(Prepared, PendingApproval), (PendingApproval, Approved), (Approved, Dispatching),
                                (Dispatching, Confirmed), (Dispatching, FailedBeforeEffect),
                                (Dispatching, OutcomeUnknown), (OutcomeUnknown, Reconciling), (Reconciling, Confirmed),
                                (Reconciling, SafeToRetry), (Reconciling, NeedsOperator), (SafeToRetry, Dispatching),
                                (FailedBeforeEffect, Dispatching)}
  {}
}
