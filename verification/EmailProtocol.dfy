/** Any number of workers in `EmailExecutionService.execute` and `reconcile` (email/service.py),
    interleaved at every await. */
module EmailProtocol {
  import opened Wrappers
  import opened Outcomes
  import opened EmailStore
  import opened EmailProvider

  datatype Config = Config(hashing: Hashing, normalize: string -> Option<string>)

  datatype ServiceError = StoreFailed(error: StoreError) | ControlledRecipient | ProviderRaised

  /** Where a worker is suspended, with the values it holds. */
  datatype Worker =
    | ExecuteStarted(request: DispatchRequest, recipient: string)
    | ExecuteLoaded(request: DispatchRequest, recipient: string, current: ExecutionRecord)
    | ExecuteClaimed(request: DispatchRequest, recipient: string)
    | ExecuteRefused(request: DispatchRequest)
    | ExecuteAnswered(request: DispatchRequest, answer: Option<DispatchResult>)
    | ReconcileStarted(request: DispatchRequest)
    | ReconcileLoaded(request: DispatchRequest, current: ExecutionRecord)
    | ReconcileClaimed(request: DispatchRequest, reference: Option<string>)
    | ReconcileAnswered(request: DispatchRequest, found: ReconcileResult)
    | Rereading(request: DispatchRequest)
    | Finished(request: DispatchRequest, outcome: Result<ExecutionRecord, ServiceError>)

  datatype System = System(records: Records, provider: ProviderState, workers: map<nat, Worker>)

  predicate Startable(state: OutcomeState) {
    state == Approved || state == FailedBeforeEffect || state == SafeToRetry
  }

  // ----- One worker, one step -----

  /** `ensure_authorized`. */
  function Load(cfg: Config, s: System, w: nat, at: int): System
    requires w in s.workers && (s.workers[w].ExecuteStarted? || s.workers[w].ReconcileStarted?)
  {
    var worker := s.workers[w];
    var (loaded, records) := Ensure(cfg.hashing, s.records, worker.request, at);
    var next :=
      match loaded
      case Err(error) => Finished(worker.request, Err(StoreFailed(error)))
      case Ok(current) =>
        if worker.ExecuteStarted? then ExecuteLoaded(worker.request, worker.recipient, current)
        else ReconcileLoaded(worker.request, current);
    s.(records := records, workers := s.workers[w := next])
  }

  function ClaimReport(worker: Worker, at: int): Report {
    if worker.ExecuteLoaded? then Report(at, "Email execution claimed for provider dispatch", None, None, None)
    else
      Report(at, "Reconciling ambiguous email provider outcome before retry", None,
             if worker.ReconcileLoaded? then worker.current.providerReference else None, None)
  }

  /** The state check and the claiming transition. */
  function Claim(s: System, w: nat, at: int): System
    requires w in s.workers && (s.workers[w].ExecuteLoaded? || s.workers[w].ReconcileLoaded?)
  {
    var worker := s.workers[w];
    var current := worker.current;
    if (if worker.ExecuteLoaded? then !Startable(current.state) else current.state != OutcomeUnknown) then
      s.(workers := s.workers[w := Finished(worker.request, Ok(current))])
    else
      var target := if worker.ExecuteLoaded? then Dispatching else Reconciling;
      var (claimed, records) :=
        CompareAndSet(s.records, worker.request.intentId, current.state, target, ClaimReport(worker, at));
      var next :=
        match claimed
        case Ok(record) =>
          if worker.ExecuteLoaded? then ExecuteClaimed(worker.request, worker.recipient)
          else ReconcileClaimed(worker.request, record.providerReference)
        case Err(StateConflict(_, _)) => Rereading(worker.request)
        case Err(error) => Finished(worker.request, Err(StoreFailed(error)));
      s.(records := records, workers := s.workers[w := next])
  }

  /** The read after a lost claim. */
  function Reread(s: System, w: nat): System
    requires w in s.workers && s.workers[w].Rereading?
  {
    var request := s.workers[w].request;
    var outcome :=
      match Get(s.records, request.intentId)
      case Ok(record) => Ok(record)
      case Err(error) => Err(StoreFailed(error));
    s.(workers := s.workers[w := Finished(request, outcome)])
  }

  /** `_enforce_controlled_recipient`. */
  predicate RecipientAllowed(cfg: Config, request: DispatchRequest, recipient: string) {
    cfg.normalize(recipient) == Some(request.message.recipient)
  }

  /** The recipient check, then the call of the fake provider. */
  function DispatchFake(cfg: Config, s: System, w: nat): System
    requires w in s.workers && s.workers[w].ExecuteClaimed? && s.provider.behaviors != []
  {
    var worker := s.workers[w];
    if !RecipientAllowed(cfg, worker.request, worker.recipient) then
      s.(workers := s.workers[w := ExecuteRefused(worker.request)])
    else
      var (result, provider) := Dispatch(s.provider, worker.request);
      s.(provider := provider, workers := s.workers[w := ExecuteAnswered(worker.request, Some(result))])
  }

  /** The same with any other provider, which may answer anything or raise. */
  function DispatchOther(cfg: Config, s: System, w: nat, answer: Option<DispatchResult>): System
    requires w in s.workers && s.workers[w].ExecuteClaimed?
  {
    var worker := s.workers[w];
    if !RecipientAllowed(cfg, worker.request, worker.recipient) then
      s.(workers := s.workers[w := ExecuteRefused(worker.request)])
    else
      s.(workers := s.workers[w := ExecuteAnswered(worker.request, answer)])
  }

  function ReconcileFake(s: System, w: nat): System
    requires w in s.workers && s.workers[w].ReconcileClaimed?
  {
    var worker := s.workers[w];
    var (found, provider) := Reconcile(s.provider, worker.request, worker.reference);
    s.(provider := provider, workers := s.workers[w := ReconcileAnswered(worker.request, found)])
  }

  function ReconcileOther(s: System, w: nat, answer: Option<ReconcileResult>): System
    requires w in s.workers && s.workers[w].ReconcileClaimed?
  {
    var request := s.workers[w].request;
    s.(workers := s.workers[w :=
      match answer
      case None => Finished(request, Err(ProviderRaised))
      case Some(found) => ReconcileAnswered(request, found)])
  }

  predicate Closing(worker: Worker) {
    worker.ExecuteRefused? || worker.ExecuteAnswered? || worker.ReconcileAnswered?
  }

  /** `state_by_disposition` and the other closing transitions. */
  function ClosingState(worker: Worker): OutcomeState
    requires Closing(worker)
  {
    match worker
    case ExecuteRefused(_) => FailedBeforeEffect
    case ExecuteAnswered(_, None) => OutcomeUnknown
    case ExecuteAnswered(_, Some(result)) =>
      (match result.disposition
       case DispatchConfirmed => Confirmed
       case DispatchFailed => FailedBeforeEffect
       case DispatchUnknown => OutcomeUnknown)
    case ReconcileAnswered(_, found) =>
      match found.disposition
      case ReconcileConfirmed => Confirmed
      case ReconcileSafeToRetry => SafeToRetry
      case ReconcileNeedsOperator => NeedsOperator
  }

  function ClosingReport(worker: Worker, at: int): Report
    requires Closing(worker)
  {
    match worker
    case ExecuteRefused(_) =>
      Report(at, "approved email recipient is outside the controlled recipient policy", None, None, None)
    case ExecuteAnswered(_, None) =>
      Report(at, "Email provider failed after dispatch began; outcome requires reconciliation", None, None, None)
    case ExecuteAnswered(_, Some(result)) =>
      Report(at, result.detail, Some(result.provider), result.providerReference, result.receipt)
    case ReconcileAnswered(_, found) =>
      Report(at, found.detail, Some(found.provider), found.providerReference, found.receipt)
  }

  /** The state a worker's own claim put the record in. */
  function HeldState(worker: Worker): OutcomeState {
    if worker.ReconcileClaimed? || worker.ReconcileAnswered? then Reconciling else Dispatching
  }

  /** The closing transition. */
  function Close(s: System, w: nat, at: int): System
    requires w in s.workers && Closing(s.workers[w])
  {
    var worker := s.workers[w];
    var (closed, records) :=
      CompareAndSet(s.records, worker.request.intentId, HeldState(worker), ClosingState(worker),
                    ClosingReport(worker, at));
    var outcome :=
      match closed
      case Err(error) => Err(StoreFailed(error))
      case Ok(record) => if worker.ExecuteRefused? then Err(ControlledRecipient) else Ok(record);
    s.(records := records, workers := s.workers[w := Finished(worker.request, outcome)])
  }

  // ----- Events -----

  datatype Event =
    | StartExecute(w: nat, request: DispatchRequest, recipient: string)
    | StartReconcile(w: nat, request: DispatchRequest)
    | LoadStep(w: nat, at: int)
    | ClaimStep(w: nat, at: int)
    | RereadStep(w: nat)
    | DispatchStep(w: nat)
    | DispatchOtherStep(w: nat, dispatched: Option<DispatchResult>)
    | ReconcileStep(w: nat)
    | ReconcileOtherStep(w: nat, reconciled: Option<ReconcileResult>)
    | CloseStep(w: nat, at: int)
    | Vanish(w: nat)                     // the task is cancelled at an await

  ghost predicate Enabled(cfg: Config, s: System, e: Event) {
    match e
    case StartExecute(w, _, _) => w !in s.workers
    case StartReconcile(w, _) => w !in s.workers
    case LoadStep(w, _) => w in s.workers && (s.workers[w].ExecuteStarted? || s.workers[w].ReconcileStarted?)
    case ClaimStep(w, _) => w in s.workers && (s.workers[w].ExecuteLoaded? || s.workers[w].ReconcileLoaded?)
    case RereadStep(w) => w in s.workers && s.workers[w].Rereading?
    case DispatchStep(w) => w in s.workers && s.workers[w].ExecuteClaimed? && s.provider.behaviors != []
    case DispatchOtherStep(w, _) => w in s.workers && s.workers[w].ExecuteClaimed?
    case ReconcileStep(w) => w in s.workers && s.workers[w].ReconcileClaimed?
    case ReconcileOtherStep(w, _) => w in s.workers && s.workers[w].ReconcileClaimed?
    case CloseStep(w, _) => w in s.workers && Closing(s.workers[w])
    case Vanish(w) => w in s.workers
  }

  ghost function Step(cfg: Config, s: System, e: Event): System
    requires Enabled(cfg, s, e)
  {
    match e
    case StartExecute(w, request, recipient) => s.(workers := s.workers[w := ExecuteStarted(request, recipient)])
    case StartReconcile(w, request) => s.(workers := s.workers[w := ReconcileStarted(request)])
    case LoadStep(w, at) => Load(cfg, s, w, at)
    case ClaimStep(w, at) => Claim(s, w, at)
    case RereadStep(w) => Reread(s, w)
    case DispatchStep(w) => DispatchFake(cfg, s, w)
    case DispatchOtherStep(w, answer) => DispatchOther(cfg, s, w, answer)
    case ReconcileStep(w) => ReconcileFake(s, w)
    case ReconcileOtherStep(w, answer) => ReconcileOther(s, w, answer)
    case CloseStep(w, at) => Close(s, w, at)
    case Vanish(w) => s.(workers := s.workers - {w})
  }

  // ----- Ownership -----

  /** The worker is between its claim and its closing transition. */
  predicate Owns(worker: Worker) {
    worker.ExecuteClaimed? || worker.ExecuteRefused? || worker.ExecuteAnswered?
    || worker.ReconcileClaimed? || worker.ReconcileAnswered?
  }

  /** The worker has loaded the record and has not returned. */
  predicate PastLoad(worker: Worker) {
    !worker.ExecuteStarted? && !worker.ReconcileStarted? && !worker.Finished?
  }

  /** The record of the intent was created under the request's key. */
  predicate Entered(h: Hashing, records: Records, request: DispatchRequest) {
    request.intentId in records && records[request.intentId].keySha256 == h.key(request.idempotencyKey)
  }

  ghost predicate WorkerOk(records: Records, worker: Worker) {
    && (PastLoad(worker) ==> worker.request.intentId in records)
    && (Owns(worker) ==> records[worker.request.intentId].state == HeldState(worker))
  }

  ghost predicate OneOwner(workers: map<nat, Worker>) {
    forall v, w :: v in workers && w in workers && v != w && Owns(workers[v]) && Owns(workers[w]) ==>
      workers[v].request.intentId != workers[w].request.intentId
  }

  /** No worker but `w` owns the intent. */
  ghost predicate NoOtherOwner(workers: map<nat, Worker>, w: nat, id: string) {
    forall v :: v in workers && v != w && Owns(workers[v]) ==> workers[v].request.intentId != id
  }

  ghost predicate OwnInv(records: Records, workers: map<nat, Worker>) {
    && (forall w :: w in workers ==> WorkerOk(records, workers[w]))
    && OneOwner(workers)
  }

  /** A step replaces one worker, and writes at most the record of that worker's intent. */
  predicate Writes(records: Records, records': Records, id: string) {
    records' == records || (id in records' && records' == records[id := records'[id]])
  }

  lemma {:induction false} OwnUpdate(records: Records, workers: map<nat, Worker>,
                                     records': Records, w: nat, worker: Worker)
    requires OwnInv(records, workers)
    requires Writes(records, records', worker.request.intentId) && WorkerOk(records', worker)
    requires (worker.request.intentId in records && records' != records) || Owns(worker) ==>
               NoOtherOwner(workers, w, worker.request.intentId)
    ensures OwnInv(records', workers[w := worker])
  {
    var workers' := workers[w := worker];
    forall v | v in workers' ensures WorkerOk(records', workers'[v]) {
      if v != w { assert WorkerOk(records, workers[v]); }
    }
  }

  lemma {:induction false} OwnVanish(records: Records, workers: map<nat, Worker>, w: nat)
    requires OwnInv(records, workers)
    ensures OwnInv(records, workers - {w})
  {
    hide WorkerOk;
  }

  /** The record of an intent that nobody owns is in neither of the two owned states. */
  lemma {:induction false} ClaimableIsFree(records: Records, workers: map<nat, Worker>, w: nat, id: string)
    requires OwnInv(records, workers)
    requires id in records && records[id].state != Dispatching && records[id].state != Reconciling
    ensures NoOtherOwner(workers, w, id)
  {
    forall v | v in workers && v != w && Owns(workers[v]) ensures workers[v].request.intentId != id {
      assert WorkerOk(records, workers[v]);
    }
  }

  lemma {:induction false} OwnerIsAlone(workers: map<nat, Worker>, w: nat)
    requires OneOwner(workers) && w in workers && Owns(workers[w])
    ensures NoOtherOwner(workers, w, workers[w].request.intentId)
  {}

  lemma {:induction false} WorkerKnown(s: System, w: nat)
    requires OwnInv(s.records, s.workers) && w in s.workers
    ensures WorkerOk(s.records, s.workers[w]) && OneOwner(s.workers)
  {}

  // ----- Ownership, every step -----

  lemma {:induction false} LoadWorker(cfg: Config, s: System, w: nat, at: int)
    requires Enabled(cfg, s, LoadStep(w, at))
    ensures var s' := Load(cfg, s, w, at);
            && w in s'.workers && s'.workers == s.workers[w := s'.workers[w]] && s'.provider == s.provider
            && s'.workers[w].request == s.workers[w].request && !Owns(s'.workers[w])
            && WorkerOk(s'.records, s'.workers[w])
            && (PastLoad(s'.workers[w]) ==> Entered(cfg.hashing, s'.records, s'.workers[w].request))
            && (s'.records == s.records
                || (s.workers[w].request.intentId !in s.records
                    && s'.records
                     == s.records[s.workers[w].request.intentId :=
                                    ApprovedRecord(cfg.hashing, s.workers[w].request, at)]))
  {}

  lemma {:induction false} ClaimWorker(s: System, w: nat, at: int)
    requires w in s.workers && (s.workers[w].ExecuteLoaded? || s.workers[w].ReconcileLoaded?)
    requires WorkerOk(s.records, s.workers[w])
    ensures var s' := Claim(s, w, at);
            var id := s.workers[w].request.intentId;
            && w in s'.workers && s'.workers == s.workers[w := s'.workers[w]] && s'.provider == s.provider
            && s'.workers[w].request == s.workers[w].request && WorkerOk(s'.records, s'.workers[w])
            && id in s.records
            && if s'.workers[w].ExecuteClaimed? then
                 Startable(s.records[id].state)
                 && s'.records == s.records[id := Moved(s.records[id], Dispatching, ClaimReport(s.workers[w], at))]
               else if s'.workers[w].ReconcileClaimed? then
                 s.records[id].state == OutcomeUnknown
                 && s'.records == s.records[id := Moved(s.records[id], Reconciling, ClaimReport(s.workers[w], at))]
               else s'.records == s.records && !Owns(s'.workers[w])
  {
    hide ClaimReport, Moved;
    MovedIs(s.records[s.workers[w].request.intentId], if s.workers[w].ExecuteLoaded? then Dispatching else Reconciling,
            ClaimReport(s.workers[w], at));
  }

  lemma MovedIs(record: ExecutionRecord, next: OutcomeState, report: Report)
    ensures Moved(record, next, report).state == next && Moved(record, next, report).intentId == record.intentId
    ensures Moved(record, next, report).keySha256 == record.keySha256
  {}

  /** An owner's closing transition always succeeds, although other workers may have taken the
      record away from and back to the same state before its claim. */
  lemma {:induction false} CloseSucceeds(cfg: Config, s: System, w: nat, at: int)
    requires Enabled(cfg, s, CloseStep(w, at)) && WorkerOk(s.records, s.workers[w])
    ensures var worker := s.workers[w];
            var id := worker.request.intentId;
            var s' := Close(s, w, at);
            && id in s.records
            && CompareAndSet(s.records, id, HeldState(worker), ClosingState(worker), ClosingReport(worker, at)).0.Ok?
            && ClosingState(worker) in Allowed(s.records[id].state)
            && s'.records == s.records[id := Moved(s.records[id], ClosingState(worker), ClosingReport(worker, at))]
            && w in s'.workers && s'.workers == s.workers[w := s'.workers[w]] && s'.provider == s.provider
            && s'.workers[w].request == worker.request && s'.workers[w].Finished?
  {}

  lemma {:induction false} OwnLoad(cfg: Config, s: System, w: nat, at: int)
    requires OwnInv(s.records, s.workers) && Enabled(cfg, s, LoadStep(w, at))
    ensures OwnInv(Load(cfg, s, w, at).records, Load(cfg, s, w, at).workers)
  {
    hide OwnInv, Load, WorkerOk;
    var s' := Load(cfg, s, w, at);
    WorkerKnown(s, w);
    LoadWorker(cfg, s, w, at);
    OwnUpdate(s.records, s.workers, s'.records, w, s'.workers[w]);
  }

  lemma {:induction false} OwnClaim(cfg: Config, s: System, w: nat, at: int)
    requires OwnInv(s.records, s.workers) && Enabled(cfg, s, ClaimStep(w, at))
    ensures OwnInv(Claim(s, w, at).records, Claim(s, w, at).workers)
  {
    hide OwnInv, Claim, WorkerOk, NoOtherOwner, Moved, OneOwner;
    var s' := Claim(s, w, at);
    WorkerKnown(s, w);
    ClaimWorker(s, w, at);
    if Owns(s'.workers[w]) { ClaimableIsFree(s.records, s.workers, w, s.workers[w].request.intentId); }
    OwnUpdate(s.records, s.workers, s'.records, w, s'.workers[w]);
  }

  lemma {:induction false} OwnClose(cfg: Config, s: System, w: nat, at: int)
    requires OwnInv(s.records, s.workers) && Enabled(cfg, s, CloseStep(w, at))
    ensures OwnInv(Close(s, w, at).records, Close(s, w, at).workers)
  {
    hide OwnInv, Close, NoOtherOwner, Moved, OneOwner, ClosingReport, ClosingState, CompareAndSet, Allowed;
    var s' := Close(s, w, at);
    WorkerKnown(s, w);
    CloseSucceeds(cfg, s, w, at);
    OwnerIsAlone(s.workers, w);
    OwnUpdate(s.records, s.workers, s'.records, w, s'.workers[w]);
  }

  /** The steps that leave the records alone. */
  lemma {:induction false} OwnOther(cfg: Config, s: System, e: Event)
    requires OwnInv(s.records, s.workers) && Enabled(cfg, s, e)
    requires e.RereadStep? || e.DispatchStep? || e.DispatchOtherStep? || e.ReconcileStep? || e.ReconcileOtherStep?
    ensures OwnInv(Step(cfg, s, e).records, Step(cfg, s, e).workers)
  {
    var s' := Step(cfg, s, e);
    assert s'.records == s.records && s'.workers == s.workers[e.w := s'.workers[e.w]];
    WorkerKnown(s, e.w);
    hide OwnInv, OneOwner, NoOtherOwner;
    assert WorkerOk(s.records, s'.workers[e.w]);
    if Owns(s.workers[e.w]) { OwnerIsAlone(s.workers, e.w); }
    OwnUpdate(s.records, s.workers, s'.records, e.w, s'.workers[e.w]);
  }

  lemma {:induction false} OwnStep(cfg: Config, s: System, e: Event)
    requires OwnInv(s.records, s.workers) && Enabled(cfg, s, e)
    ensures OwnInv(Step(cfg, s, e).records, Step(cfg, s, e).workers)
  {
    hide Load, Claim, Close, WorkerOk, OneOwner;
    match e
    case StartExecute(w, request, recipient) =>
      StartedOk(s.records, ExecuteStarted(request, recipient));
      OwnUpdate(s.records, s.workers, s.records, w, ExecuteStarted(request, recipient));
    case StartReconcile(w, request) =>
      StartedOk(s.records, ReconcileStarted(request));
      OwnUpdate(s.records, s.workers, s.records, w, ReconcileStarted(request));
    case LoadStep(w, at) => OwnLoad(cfg, s, w, at);
    case ClaimStep(w, at) => OwnClaim(cfg, s, w, at);
    case CloseStep(w, at) => OwnClose(cfg, s, w, at);
    case Vanish(w) => OwnVanish(s.records, s.workers, w);
    case _ => OwnOther(cfg, s, e);
  }

  lemma {:induction false} StartedOk(records: Records, worker: Worker)
    requires worker.ExecuteStarted? || worker.ReconcileStarted?
    ensures WorkerOk(records, worker)
  {}

  // ----- The audit trail, every step -----

  lemma {:induction false} AuditStep(cfg: Config, s: System, e: Event)
    requires AllAudited(s.records) && OwnInv(s.records, s.workers) && Enabled(cfg, s, e)
    ensures AllAudited(Step(cfg, s, e).records)
  {
    hide OwnInv, AllAudited;
    match e
    case LoadStep(w, at) => EnsureAudited(cfg.hashing, s.records, s.workers[w].request, at);
    case ClaimStep(w, at) =>
      CompareAndSetAudited(s.records, s.workers[w].request.intentId, s.workers[w].current.state,
                           if s.workers[w].ExecuteLoaded? then Dispatching else Reconciling,
                           ClaimReport(s.workers[w], at));
    case CloseStep(w, at) =>
      CompareAndSetAudited(s.records, s.workers[w].request.intentId, HeldState(s.workers[w]),
                           ClosingState(s.workers[w]), ClosingReport(s.workers[w], at));
    case _ =>
  }

  // ----- The fake provider agrees with the stored outcomes -----

  /** Events of a system whose provider is the fake. */
  predicate FakeEvent(e: Event) {
    !e.DispatchOtherStep? && !e.ReconcileOtherStep?
  }

  /** Among the requests that are presented, intents have distinct idempotency keys, and those presented
      for one intent are told apart by their digests. */
  ghost predicate KeysOk(h: Hashing, presented: set<DispatchRequest>) {
    && (forall a, b :: a in presented && b in presented && a.idempotencyKey == b.idempotencyKey ==>
            a.intentId == b.intentId)
    && (forall a, b :: a in presented && b in presented && a.intentId == b.intentId ==>
          (h.key(a.idempotencyKey) == h.key(b.idempotencyKey) ==> a.idempotencyKey == b.idempotencyKey))
  }

  predicate HoldsNothing(state: OutcomeState) {
    state == Approved || state == FailedBeforeEffect || state == SafeToRetry || state == NeedsOperator
  }

  /** What the provider holds for an intent, given its record. */
  ghost predicate RecordAgrees(receipts: map<string, Receipt>, key: string, record: ExecutionRecord) {
    && (HoldsNothing(record.state) ==> key !in receipts)
    && (record.state == Confirmed ==> key in receipts && record.receipt == Some(receipts[key]))
    && (record.state != Confirmed ==> record.receipt.None?)
  }

  /** What the provider holds for an intent, given the worker that owns it. */
  ghost predicate WorkerAgrees(receipts: map<string, Receipt>, worker: Worker) {
    var key := worker.request.idempotencyKey;
    match worker
    case ExecuteClaimed(_, _) => key !in receipts
    case ExecuteRefused(_) => key !in receipts
    case ExecuteAnswered(_, answer) =>
      && answer.Some?
      && (answer.value.disposition.DispatchConfirmed? ==>
              key in receipts && answer.value.receipt == Some(receipts[key]))
      && (answer.value.disposition.DispatchFailed? ==> key !in receipts)
      && (!answer.value.disposition.DispatchConfirmed? ==> answer.value.receipt.None?)
    case ReconcileAnswered(_, found) =>
      && (found.disposition.ReconcileConfirmed? ==> key in receipts && found.receipt == Some(receipts[key]))
      && (!found.disposition.ReconcileConfirmed? ==> key !in receipts && found.receipt.None?)
    case _ => true
  }

  ghost predicate RequestAgrees(h: Hashing, records: Records, receipts: map<string, Receipt>, a: DispatchRequest) {
    if Entered(h, records, a) then RecordAgrees(receipts, a.idempotencyKey, records[a.intentId])
    else a.idempotencyKey !in receipts
  }

  ghost predicate WorkerFits(h: Hashing, presented: set<DispatchRequest>, records: Records,
                             receipts: map<string, Receipt>, worker: Worker)
  {
    && worker.request in presented
    && (PastLoad(worker) ==> Entered(h, records, worker.request))
    && WorkerAgrees(receipts, worker)
  }

  /** A presented request created the record. */
  ghost predicate HasOrigin(h: Hashing, presented: set<DispatchRequest>, records: Records, id: string) {
    exists a :: a in presented && a.intentId == id && Entered(h, records, a)
  }

  ghost predicate FakeInv(h: Hashing, presented: set<DispatchRequest>, records: Records, receipts: map<string, Receipt>,
                          workers: map<nat, Worker>)
  {
    && (forall a :: a in presented ==> RequestAgrees(h, records, receipts, a))
    && (forall id :: id in records ==> HasOrigin(h, presented, records, id))
    && (forall w :: w in workers ==> WorkerFits(h, presented, records, receipts, workers[w]))
  }

  /** A written record keeps its key, and agrees with the provider. */
  ghost predicate WriteFits(h: Hashing, records: Records, records': Records, receipts: map<string, Receipt>,
                            request: DispatchRequest) {
    var id := request.intentId;
    && Entered(h, records', request)
    && (id in records ==> records'[id].keySha256 == records[id].keySha256)
    && RecordAgrees(receipts, request.idempotencyKey, records'[id])
  }

  lemma {:induction false} RequestsAgree(h: Hashing, presented: set<DispatchRequest>, records: Records,
                                         records': Records, receipts: map<string, Receipt>, request: DispatchRequest,
                                         a: DispatchRequest)
    requires KeysOk(h, presented) && request in presented && a in presented && RequestAgrees(h, records, receipts, a)
    requires Writes(records, records', request.intentId)
    requires records' != records ==> WriteFits(h, records, records', receipts, request)
    ensures RequestAgrees(h, records', receipts, a)
  {
    hide RecordAgrees;
  }

  lemma {:induction false} FakeUpdate(h: Hashing, presented: set<DispatchRequest>, records: Records,
                                      receipts: map<string, Receipt>, workers: map<nat, Worker>, records': Records,
                                      w: nat, worker: Worker)
    requires KeysOk(h, presented) && FakeInv(h, presented, records, receipts, workers)
    requires Writes(records, records', worker.request.intentId) && WorkerFits(h, presented, records', receipts, worker)
    requires records' != records ==> WriteFits(h, records, records', receipts, worker.request)
    ensures FakeInv(h, presented, records', receipts, workers[w := worker])
  {
    hide RecordAgrees, WorkerAgrees, RequestAgrees, KeysOk;
    var workers' := workers[w := worker];
    forall a | a in presented ensures RequestAgrees(h, records', receipts, a) {
      RequestsAgree(h, presented, records, records', receipts, worker.request, a);
    }
    forall a | a in presented && Entered(h, records, a) ensures Entered(h, records', a) {}
    hide WriteFits;
    forall id | id in records' ensures HasOrigin(h, presented, records', id) {
      if id in records {
        assert HasOrigin(h, presented, records, id);
      } else {
        assert records' != records;
        assert Entered(h, records', worker.request) by { WriteEnters(h, records, records', receipts, worker.request); }
      }
    }
    forall v | v in workers' ensures WorkerFits(h, presented, records', receipts, workers'[v]) {
      if v != w { assert WorkerFits(h, presented, records, receipts, workers[v]); }
    }
  }

  lemma WriteEnters(h: Hashing, records: Records, records': Records, receipts: map<string, Receipt>,
                    request: DispatchRequest)
    requires WriteFits(h, records, records', receipts, request)
    ensures Entered(h, records', request)
  {}

  lemma {:induction false} FakeKnown(h: Hashing, presented: set<DispatchRequest>, s: System, w: nat)
    requires FakeInv(h, presented, s.records, s.provider.receipts, s.workers) && w in s.workers
    ensures WorkerFits(h, presented, s.records, s.provider.receipts, s.workers[w])
    ensures RequestAgrees(h, s.records, s.provider.receipts, s.workers[w].request)
  {}

  /** An accepted key belongs to the dispatching worker's intent alone. */
  lemma {:induction false} FakeAccept(h: Hashing, presented: set<DispatchRequest>, s: System, w: nat,
                                      receipts: map<string, Receipt>, worker: Worker)
    requires OwnInv(s.records, s.workers) && KeysOk(h, presented)
    requires FakeInv(h, presented, s.records, s.provider.receipts, s.workers)
    requires w in s.workers && s.workers[w].ExecuteClaimed? && worker.request == s.workers[w].request
    requires receipts == s.provider.receipts[worker.request.idempotencyKey := ReceiptFor(worker.request)]
    requires WorkerAgrees(receipts, worker)
    ensures FakeInv(h, presented, s.records, receipts, s.workers[w := worker])
  {
    var workers' := s.workers[w := worker];
    WorkerKnown(s, w);
    OwnerIsAlone(s.workers, w);
    FakeKnown(h, presented, s, w);
    hide WorkerAgrees, ReceiptFor;
    forall a | a in presented ensures RequestAgrees(h, s.records, receipts, a) {
      assert RequestAgrees(h, s.records, s.provider.receipts, a);
    }
    forall v | v in workers' ensures WorkerFits(h, presented, s.records, receipts, workers'[v]) {
      if v != w {
        assert WorkerFits(h, presented, s.records, s.provider.receipts, s.workers[v]);
        AcceptedElsewhere(s.provider.receipts, worker.request, s.workers[v]);
      }
    }
  }

  /** A worker that owns nothing, or has another key, does not notice. */
  lemma {:induction false} AcceptedElsewhere(receipts: map<string, Receipt>, request: DispatchRequest, worker: Worker)
    requires WorkerAgrees(receipts, worker)
    requires Owns(worker) ==> worker.request.idempotencyKey != request.idempotencyKey
    ensures WorkerAgrees(receipts[request.idempotencyKey := ReceiptFor(request)], worker)
  {}

  /** The fake's answer to a key it has not accepted. */
  lemma {:induction false} DispatchFresh(p: ProviderState, request: DispatchRequest)
    requires p.behaviors != [] && request.idempotencyKey !in p.receipts
    ensures var (result, p') := Dispatch(p, request);
            && p'.behaviors != [] && p'.dispatchCalls == p.dispatchCalls + [request]
            && (p'.receipts == p.receipts || p'.receipts == p.receipts[request.idempotencyKey := ReceiptFor(request)])
            && WorkerAgrees(p'.receipts, ExecuteAnswered(request, Some(result)))
  {}

  lemma {:induction false} DispatchAnswers(cfg: Config, s: System, w: nat)
    requires Enabled(cfg, s, DispatchStep(w)) && s.workers[w].request.idempotencyKey !in s.provider.receipts
    ensures var s' := DispatchFake(cfg, s, w);
            && w in s'.workers && s'.workers == s.workers[w := s'.workers[w]] && s'.records == s.records
            && s'.workers[w].request == s.workers[w].request && s'.provider.behaviors != []
            && WorkerAgrees(s'.provider.receipts, s'.workers[w])
            && (s'.provider.receipts == s.provider.receipts
                || s'.provider.receipts
                   == s.provider.receipts[s.workers[w].request.idempotencyKey := ReceiptFor(s.workers[w].request)])
  {
    DispatchFresh(s.provider, s.workers[w].request);
    hide Dispatch, ReceiptFor;
  }

  lemma {:induction false} FakeDispatch(cfg: Config, presented: set<DispatchRequest>, s: System, w: nat)
    requires OwnInv(s.records, s.workers) && KeysOk(cfg.hashing, presented)
    requires FakeInv(cfg.hashing, presented, s.records, s.provider.receipts, s.workers)
    requires Enabled(cfg, s, DispatchStep(w))
    ensures var s' := DispatchFake(cfg, s, w);
            FakeInv(cfg.hashing, presented, s'.records, s'.provider.receipts, s'.workers) && s'.provider.behaviors != []
  {
    hide OwnInv, FakeInv, KeysOk, DispatchFake;
    WorkerKnown(s, w);
    FakeKnown(cfg.hashing, presented, s, w);
    DispatchAnswers(cfg, s, w);
    hide WorkerAgrees, RecordAgrees, OneOwner;
    var s' := DispatchFake(cfg, s, w);
    if s'.provider.receipts == s.provider.receipts {
      FakeUpdate(cfg.hashing, presented, s.records, s.provider.receipts, s.workers, s'.records, w, s'.workers[w]);
    } else {
      FakeAccept(cfg.hashing, presented, s, w, s'.provider.receipts, s'.workers[w]);
    }
  }

  lemma {:induction false} ReconcileAnswers(s: System, w: nat)
    requires w in s.workers && s.workers[w].ReconcileClaimed?
    ensures var s' := ReconcileFake(s, w);
            && w in s'.workers && s'.workers == s.workers[w := s'.workers[w]] && s'.records == s.records
            && s'.provider.receipts == s.provider.receipts && PastLoad(s'.workers[w])
            && s'.workers[w].request == s.workers[w].request && WorkerAgrees(s'.provider.receipts, s'.workers[w])
  {}

  lemma {:induction false} FakeReconcile(cfg: Config, presented: set<DispatchRequest>, s: System, w: nat)
    requires OwnInv(s.records, s.workers) && KeysOk(cfg.hashing, presented)
    requires FakeInv(cfg.hashing, presented, s.records, s.provider.receipts, s.workers)
    requires Enabled(cfg, s, ReconcileStep(w))
    ensures var s' := ReconcileFake(s, w);
            FakeInv(cfg.hashing, presented, s'.records, s'.provider.receipts, s'.workers)
  {
    hide OwnInv, FakeInv, RecordAgrees, KeysOk, ReconcileFake;
    FakeKnown(cfg.hashing, presented, s, w);
    ReconcileAnswers(s, w);
    hide WorkerAgrees;
    FakeUpdate(cfg.hashing, presented, s.records, s.provider.receipts, s.workers, s.records, w,
               ReconcileFake(s, w).workers[w]);
  }

  lemma {:induction false} FakeClose(cfg: Config, presented: set<DispatchRequest>, s: System, w: nat, at: int)
    requires OwnInv(s.records, s.workers) && KeysOk(cfg.hashing, presented)
    requires FakeInv(cfg.hashing, presented, s.records, s.provider.receipts, s.workers)
    requires Enabled(cfg, s, CloseStep(w, at))
    ensures var s' := Close(s, w, at);
            FakeInv(cfg.hashing, presented, s'.records, s'.provider.receipts, s'.workers)
  {
    hide OwnInv, FakeInv, Close, KeysOk, RecordAgrees, WorkerAgrees, Moved, ClosingReport, ClosingState, CompareAndSet,
         OneOwner, Allowed;
    WorkerKnown(s, w);
    FakeKnown(cfg.hashing, presented, s, w);
    CloseSucceeds(cfg, s, w, at);
    var s', worker := Close(s, w, at), s.workers[w];
    var record := s.records[worker.request.intentId];
    OwnedHasNoReceipt(s.provider.receipts, worker, record);
    ClosedAgrees(s.provider.receipts, worker, record, at);
    MovedIs(record, ClosingState(worker), ClosingReport(worker, at));
    assert WorkerAgrees(s.provider.receipts, s'.workers[w]) by { FinishedAgrees(s.provider.receipts, s'.workers[w]); }
    FakeUpdate(cfg.hashing, presented, s.records, s.provider.receipts, s.workers, s'.records, w, s'.workers[w]);
  }

  lemma FinishedAgrees(receipts: map<string, Receipt>, worker: Worker)
    requires worker.Finished?
    ensures WorkerAgrees(receipts, worker)
  {}

  lemma OwnedHasNoReceipt(receipts: map<string, Receipt>, worker: Worker, record: ExecutionRecord)
    requires record.state == HeldState(worker) && RecordAgrees(receipts, worker.request.idempotencyKey, record)
    ensures record.receipt.None?
  {}

  lemma {:induction false} ClosedAgrees(receipts: map<string, Receipt>, worker: Worker, record: ExecutionRecord,
                                        at: int)
    requires Closing(worker) && WorkerAgrees(receipts, worker) && record.receipt.None?
    ensures RecordAgrees(receipts, worker.request.idempotencyKey,
                         Moved(record, ClosingState(worker), ClosingReport(worker, at)))
  {}

  /** A claim leaves the provider and the record in agreement. */
  lemma {:induction false} ClaimedAgrees(receipts: map<string, Receipt>, key: string, record: ExecutionRecord,
                                         worker: Worker, next: Worker, at: int)
    requires RecordAgrees(receipts, key, record) && next.request.idempotencyKey == key
    requires (worker.ExecuteLoaded? && next.ExecuteClaimed? && Startable(record.state))
          || (worker.ReconcileLoaded? && next.ReconcileClaimed? && record.state == OutcomeUnknown)
    ensures RecordAgrees(receipts, key,
                         Moved(record, if next.ExecuteClaimed? then Dispatching else Reconciling,
                               ClaimReport(worker, at)))
    ensures WorkerAgrees(receipts, next)
  {}

  lemma {:induction false} ClaimKind(s: System, w: nat, at: int)
    requires w in s.workers && (s.workers[w].ExecuteLoaded? || s.workers[w].ReconcileLoaded?)
    ensures var next := Claim(s, w, at).workers[w];
            && (next.ExecuteClaimed? ==> s.workers[w].ExecuteLoaded?)
            && (next.ReconcileClaimed? ==> s.workers[w].ReconcileLoaded?)
            && (Owns(next) ==> next.ExecuteClaimed? || next.ReconcileClaimed?)
  {}

  lemma {:induction false} FakeClaim(cfg: Config, presented: set<DispatchRequest>, s: System, w: nat, at: int)
    requires OwnInv(s.records, s.workers) && KeysOk(cfg.hashing, presented)
    requires FakeInv(cfg.hashing, presented, s.records, s.provider.receipts, s.workers)
    requires Enabled(cfg, s, ClaimStep(w, at))
    ensures var s' := Claim(s, w, at);
            FakeInv(cfg.hashing, presented, s'.records, s'.provider.receipts, s'.workers)
  {
    hide OwnInv, FakeInv, Claim, OneOwner, Moved, ClaimReport, RecordAgrees, KeysOk;
    WorkerKnown(s, w);
    FakeKnown(cfg.hashing, presented, s, w);
    ClaimWorker(s, w, at);
    ClaimKind(s, w, at);
    var s' := Claim(s, w, at);
    var request := s.workers[w].request;
    if Owns(s'.workers[w]) {
      var record := s.records[request.intentId];
      ClaimedAgrees(s.provider.receipts, request.idempotencyKey, record, s.workers[w], s'.workers[w], at);
      MovedIs(record, if s'.workers[w].ExecuteClaimed? then Dispatching else Reconciling,
              ClaimReport(s.workers[w], at));
    }
    FakeUpdate(cfg.hashing, presented, s.records, s.provider.receipts, s.workers, s'.records, w, s'.workers[w]);
  }

  lemma {:induction false} FakeLoad(cfg: Config, presented: set<DispatchRequest>, s: System, w: nat, at: int)
    requires OwnInv(s.records, s.workers) && KeysOk(cfg.hashing, presented)
    requires FakeInv(cfg.hashing, presented, s.records, s.provider.receipts, s.workers)
    requires Enabled(cfg, s, LoadStep(w, at))
    ensures var s' := Load(cfg, s, w, at);
            FakeInv(cfg.hashing, presented, s'.records, s'.provider.receipts, s'.workers)
  {
    hide OwnInv, FakeInv, Load, KeysOk;
    WorkerKnown(s, w);
    FakeKnown(cfg.hashing, presented, s, w);
    LoadWorker(cfg, s, w, at);
    var s' := Load(cfg, s, w, at);
    assert WorkerAgrees(s.provider.receipts, s'.workers[w]);
    hide OneOwner;
    FakeUpdate(cfg.hashing, presented, s.records, s.provider.receipts, s.workers, s'.records, w, s'.workers[w]);
  }

  /** A starting task presents one of these requests. */
  predicate StartsPresented(e: Event, presented: set<DispatchRequest>) {
    e.StartExecute? || e.StartReconcile? ==> e.request in presented
  }

  lemma {:induction false} FakeOther(cfg: Config, presented: set<DispatchRequest>, s: System, e: Event)
    requires KeysOk(cfg.hashing, presented)
    requires FakeInv(cfg.hashing, presented, s.records, s.provider.receipts, s.workers)
    requires s.provider.behaviors != [] && Enabled(cfg, s, e) && FakeEvent(e) && StartsPresented(e, presented)
    requires !e.LoadStep? && !e.ClaimStep? && !e.CloseStep? && !e.DispatchStep? && !e.ReconcileStep?
    ensures var s' := Step(cfg, s, e);
            FakeInv(cfg.hashing, presented, s'.records, s'.provider.receipts, s'.workers) && s'.provider.behaviors != []
  {
    hide RecordAgrees, Load, Claim, Close, DispatchFake, ReconcileFake;
  }

  lemma {:induction false} FakeStep(cfg: Config, presented: set<DispatchRequest>, s: System, e: Event)
    requires OwnInv(s.records, s.workers) && KeysOk(cfg.hashing, presented) && s.provider.behaviors != []
    requires FakeInv(cfg.hashing, presented, s.records, s.provider.receipts, s.workers) && Enabled(cfg, s, e)
    requires FakeEvent(e)
    requires StartsPresented(e, presented)
    ensures var s' := Step(cfg, s, e);
            FakeInv(cfg.hashing, presented, s'.records, s'.provider.receipts, s'.workers) && s'.provider.behaviors != []
  {
    hide OwnInv, FakeInv, KeysOk, Load, Claim, Close, DispatchFake, Reread;
    match e
    case LoadStep(w, at) => FakeLoad(cfg, presented, s, w, at); WorkerKnown(s, w); LoadWorker(cfg, s, w, at);
    case ClaimStep(w, at) => FakeClaim(cfg, presented, s, w, at); WorkerKnown(s, w); ClaimWorker(s, w, at);
    case CloseStep(w, at) => FakeClose(cfg, presented, s, w, at); WorkerKnown(s, w); CloseSucceeds(cfg, s, w, at);
    case DispatchStep(w) => FakeDispatch(cfg, presented, s, w);
    case ReconcileStep(w) => FakeReconcile(cfg, presented, s, w);
    case _ => FakeOther(cfg, presented, s, e);
  }
}
