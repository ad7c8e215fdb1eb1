/** Whole runs of the email protocol, and the service executed by one task alone. */
module EmailRuns {
  import opened Wrappers
  import opened Outcomes
  import opened EmailStore
  import opened EmailProvider
  import opened EmailProtocol

  datatype Run = Run(states: seq<System>, events: seq<Event>)

  ghost predicate IsRun(cfg: Config, r: Run) {
    && |r.states| == |r.events| + 1
    && r.states[0].records == map[] && r.states[0].workers == map[]
    && r.states[0].provider.receipts == map[] && r.states[0].provider.behaviors != []
    && forall k :: 0 <= k < |r.events| ==>
         Enabled(cfg, r.states[k], r.events[k]) && r.states[k + 1] == Step(cfg, r.states[k], r.events[k])
  }

  ghost predicate FakeRun(r: Run) {
    forall e :: e in r.events ==> FakeEvent(e)
  }

  /** The requests that tasks present in the run. */
  ghost function Presented(r: Run): set<DispatchRequest> {
    set e | e in r.events && (e.StartExecute? || e.StartReconcile?) :: e.request
  }

  ghost predicate DistinctKeys(cfg: Config, r: Run) {
    KeysOk(cfg.hashing, Presented(r))
  }

  ghost predicate SystemAgrees(cfg: Config, r: Run, s: System) {
    FakeInv(cfg.hashing, Presented(r), s.records, s.provider.receipts, s.workers)
  }

  lemma {:induction false} RunInv(cfg: Config, r: Run, k: nat)
    requires IsRun(cfg, r) && k < |r.states|
    ensures OwnInv(r.states[k].records, r.states[k].workers) && AllAudited(r.states[k].records)
  {
    hide OwnInv, AllAudited, Enabled, Step;
    if k == 0 {
      EmptyInv();
    } else {
      RunInv(cfg, r, k - 1);
      assert Enabled(cfg, r.states[k - 1], r.events[k - 1]);
      OwnStep(cfg, r.states[k - 1], r.events[k - 1]);
      AuditStep(cfg, r.states[k - 1], r.events[k - 1]);
    }
  }

  lemma {:induction false} EmptyInv()
    ensures OwnInv(map[], map[]) && AllAudited(map[])
  {}

  lemma {:induction false} FakeRunInv(cfg: Config, r: Run, k: nat)
    requires IsRun(cfg, r) && FakeRun(r) && DistinctKeys(cfg, r) && k < |r.states|
    ensures SystemAgrees(cfg, r, r.states[k]) && r.states[k].provider.behaviors != []
  {
    hide OwnInv, Enabled, Step, KeysOk;
    if k > 0 {
      hide FakeInv;
      FakeRunInv(cfg, r, k - 1);
      RunInv(cfg, r, k - 1);
      assert Enabled(cfg, r.states[k - 1], r.events[k - 1]);
      assert r.events[k - 1] in r.events;
      FakeStep(cfg, Presented(r), r.states[k - 1], r.events[k - 1]);
    }
  }

  // ----- Any provider -----

  /** At most one worker is between its claim and its closing transition on an intent, and the
      record is then in the state that claim wrote. */
  lemma {:induction false} OneOwnerAtATime(cfg: Config, r: Run, k: nat, v: nat, w: nat)
    requires IsRun(cfg, r) && k < |r.states|
    requires v in r.states[k].workers && w in r.states[k].workers
    requires Owns(r.states[k].workers[v]) && Owns(r.states[k].workers[w])
    requires r.states[k].workers[v].request.intentId == r.states[k].workers[w].request.intentId
    ensures v == w
    ensures var id := r.states[k].workers[w].request.intentId;
            id in r.states[k].records && r.states[k].records[id].state == HeldState(r.states[k].workers[w])
  {
    RunInv(cfg, r, k);
    assert WorkerOk(r.states[k].records, r.states[k].workers[w]);
    hide IsRun;
  }

  /** An owner's closing transition never meets a conflict. */
  lemma {:induction false} OwnerAlwaysCloses(cfg: Config, r: Run, k: nat, w: nat, at: int)
    requires IsRun(cfg, r) && k < |r.states| && w in r.states[k].workers && Closing(r.states[k].workers[w])
    ensures var s := r.states[k];
            CompareAndSet(s.records, s.workers[w].request.intentId, HeldState(s.workers[w]),
                          ClosingState(s.workers[w]), ClosingReport(s.workers[w], at)).0.Ok?
  {
    RunInv(cfg, r, k);
    WorkerKnown(r.states[k], w);
    hide IsRun, OwnInv, OneOwner;
    CloseSucceeds(cfg, r.states[k], w, at);
  }

  /** Every audit trail is a path of the outcome graph from APPROVED to the current state, and the
      attempts count its dispatches. */
  lemma {:induction false} AuditIsPath(cfg: Config, r: Run, k: nat, id: string)
    requires IsRun(cfg, r) && k < |r.states| && id in r.states[k].records
    ensures Audited(r.states[k].records[id])
  {
    RunInv(cfg, r, k);
  }

  /** After an unknown outcome an intent is dispatched again only once a reconciliation has found
      that nothing was sent. */
  lemma {:induction false} UnknownIsReconciledBeforeRetry(cfg: Config, r: Run, k: nat, id: string, i: nat, j: nat)
    requires IsRun(cfg, r) && k < |r.states| && id in r.states[k].records
    requires i < j < |r.states[k].records[id].auditEvents|
    requires r.states[k].records[id].auditEvents[i].state == OutcomeUnknown
    requires r.states[k].records[id].auditEvents[j].state == Dispatching
    ensures exists m :: i < m < j && r.states[k].records[id].auditEvents[m].state == SafeToRetry
  {
    RunInv(cfg, r, k);
    var states := AuditStates(r.states[k].records[id]);
    RedispatchIsReconciled(states, i, j);
    var m :| i < m < j && states[m] == SafeToRetry;
    assert r.states[k].records[id].auditEvents[m].state == SafeToRetry;
  }

  // ----- The fake provider -----

  /** CONFIRMED means that the provider holds exactly the stored receipt, under the key with which the
      record was created. */
  lemma {:induction false} ConfirmedIsAccepted(cfg: Config, r: Run, k: nat, id: string)
      returns (request: DispatchRequest)
    requires IsRun(cfg, r) && FakeRun(r) && DistinctKeys(cfg, r) && k < |r.states| && id in r.states[k].records
    requires r.states[k].records[id].state == Confirmed
    ensures request in Presented(r) && request.intentId == id && Entered(cfg.hashing, r.states[k].records, request)
    ensures request.idempotencyKey in r.states[k].provider.receipts
    ensures r.states[k].records[id].receipt == Some(r.states[k].provider.receipts[request.idempotencyKey])
  {
    FakeRunInv(cfg, r, k);
    hide IsRun;
    assert HasOrigin(cfg.hashing, Presented(r), r.states[k].records, id);
    request :| request in Presented(r) && request.intentId == id && Entered(cfg.hashing, r.states[k].records, request);
    assert RequestAgrees(cfg.hashing, r.states[k].records, r.states[k].provider.receipts, request);
  }

  /** APPROVED, FAILED_BEFORE_EFFECT, SAFE_TO_RETRY and NEEDS_OPERATOR mean that it holds none; nor does
      it for a request that was refused because the intent was authorized under another key. */
  lemma {:induction false} OtherwiseNothingIsAccepted(cfg: Config, r: Run, k: nat, request: DispatchRequest)
    requires IsRun(cfg, r) && FakeRun(r) && DistinctKeys(cfg, r) && k < |r.states| && request in Presented(r)
    requires Entered(cfg.hashing, r.states[k].records, request) ==>
               HoldsNothing(r.states[k].records[request.intentId].state)
    ensures request.idempotencyKey !in r.states[k].provider.receipts
  {
    FakeRunInv(cfg, r, k);
    hide IsRun;
    assert RequestAgrees(cfg.hashing, r.states[k].records, r.states[k].provider.receipts, request);
  }

  /** The provider's duplicate-key branch is never reached. */
  lemma {:induction false} DispatchIsAlwaysFresh(cfg: Config, r: Run, k: nat, w: nat)
    requires IsRun(cfg, r) && FakeRun(r) && DistinctKeys(cfg, r) && k < |r.events| && r.events[k] == DispatchStep(w)
    ensures w in r.states[k].workers
    ensures r.states[k].workers[w].request.idempotencyKey !in r.states[k].provider.receipts
  {
    RunInv(cfg, r, k);
    FakeRunInv(cfg, r, k);
    assert Enabled(cfg, r.states[k], r.events[k]);
    assert WorkerFits(cfg.hashing, Presented(r), r.states[k].records, r.states[k].provider.receipts,
                      r.states[k].workers[w]);
    hide IsRun;
  }

  ghost predicate Accepts(r: Run, k: nat, key: string)
    requires k + 1 < |r.states|
  {
    key !in r.states[k].provider.receipts && key in r.states[k + 1].provider.receipts
  }

  lemma {:induction false} DispatchKeepsReceipts(p: ProviderState, request: DispatchRequest, key: string)
    requires p.behaviors != [] && key in p.receipts
    ensures key in Dispatch(p, request).1.receipts && Dispatch(p, request).1.receipts[key] == p.receipts[key]
  {}

  lemma {:induction false} ReceiptsStay(cfg: Config, s: System, e: Event, key: string)
    requires Enabled(cfg, s, e) && key in s.provider.receipts
    ensures key in Step(cfg, s, e).provider.receipts
    ensures Step(cfg, s, e).provider.receipts[key] == s.provider.receipts[key]
  {
    if e.DispatchStep? { DispatchKeepsReceipts(s.provider, s.workers[e.w].request, key); }
    hide Dispatch, CompareAndSet, Ensure, Moved, ClosingReport, ClaimReport, ClosingState;
  }

  lemma {:induction false} ReceiptsStayRun(cfg: Config, r: Run, j: nat, k: nat, key: string)
    requires IsRun(cfg, r) && j <= k < |r.states| && key in r.states[j].provider.receipts
    ensures key in r.states[k].provider.receipts
    ensures r.states[k].provider.receipts[key] == r.states[j].provider.receipts[key]
    decreases k
  {
    hide Enabled, Step;
    if j < k {
      ReceiptsStayRun(cfg, r, j, k - 1, key);
      assert Enabled(cfg, r.states[k - 1], r.events[k - 1]);
      ReceiptsStay(cfg, r.states[k - 1], r.events[k - 1], key);
    }
  }

  /** A key is accepted at most once, and its receipt never changes. */
  lemma {:induction false} AcceptedAtMostOnce(cfg: Config, r: Run, j: nat, k: nat, key: string)
    requires IsRun(cfg, r) && j + 1 < |r.states| && k + 1 < |r.states|
    requires Accepts(r, j, key) && Accepts(r, k, key)
    ensures j == k
  {
    if j < k { ReceiptsStayRun(cfg, r, j + 1, k, key); }
    if k < j { ReceiptsStayRun(cfg, r, k + 1, j, key); }
  }

  /** Once a key is accepted, it is never dispatched again. */
  lemma {:induction false} NoDispatchAfterAcceptance(cfg: Config, r: Run, j: nat, k: nat, w: nat, key: string)
    requires IsRun(cfg, r) && FakeRun(r) && DistinctKeys(cfg, r)
    requires j <= k < |r.events| && key in r.states[j].provider.receipts && r.events[k] == DispatchStep(w)
    ensures w in r.states[k].workers && r.states[k].workers[w].request.idempotencyKey != key
  {
    ReceiptsStayRun(cfg, r, j, k, key);
    hide IsRun, DistinctKeys;
    DispatchIsAlwaysFresh(cfg, r, k, w);
  }

  // ----- One task alone -----

  /** The system one task sees. */
  ghost function Alone(store: InMemoryEmailExecutionStore, provider: DeterministicFakeEmailProvider,
                       worker: Worker): System
    reads store, provider
  {
    System(store.records, provider.View(), map[0 := worker])
  }

  /** `execute` with no other task in between: load, claim, dispatch, close. */
  ghost function ExecuteAlone(cfg: Config, s: System, at: int): System
    requires 0 in s.workers && s.workers[0].ExecuteStarted? && s.provider.behaviors != []
  {
    var loaded := Load(cfg, s, 0, at);
    if !loaded.workers[0].ExecuteLoaded? then loaded
    else
      var claimed := Claim(loaded, 0, at);
      if claimed.workers[0].Rereading? then Reread(claimed, 0)
      else if !claimed.workers[0].ExecuteClaimed? then claimed
      else
        Close(DispatchFake(cfg, claimed, 0), 0, at)
  }

  /** `reconcile` with no other task in between. */
  ghost function ReconcileAlone(cfg: Config, s: System, at: int): System
    requires 0 in s.workers && s.workers[0].ReconcileStarted?
  {
    var loaded := Load(cfg, s, 0, at);
    if !loaded.workers[0].ReconcileLoaded? then loaded
    else
      var claimed := Claim(loaded, 0, at);
      if claimed.workers[0].Rereading? then Reread(claimed, 0)
      else if !claimed.workers[0].ReconcileClaimed? then claimed
      else Close(ReconcileFake(claimed, 0), 0, at)
  }

  /** `EmailExecutionService` over the in-memory store and the fake provider. */
  class EmailExecutionService {
    const store: InMemoryEmailExecutionStore
    const provider: DeterministicFakeEmailProvider
    const normalize: string -> Option<string>

    constructor (store: InMemoryEmailExecutionStore, provider: DeterministicFakeEmailProvider,
                 normalize: string -> Option<string>)
      ensures this.store == store && this.provider == provider && this.normalize == normalize
    {
      this.store, this.provider, this.normalize := store, provider, normalize;
    }

    ghost function Cfg(): Config {
      Config(store.hashing, normalize)
    }

    /** `_record_dispatch_result`. */
    method RecordDispatchResult(request: DispatchRequest, answer: DispatchResult, at: int)
        returns (result: Result<ExecutionRecord, ServiceError>)
      requires store.Valid()
      modifies store
      ensures store.Valid() && provider.View() == old(provider.View())
      ensures Alone(store, provider, Finished(request, result))
           == Close(old(Alone(store, provider, ExecuteAnswered(request, Some(answer)))), 0, at)
    {
      hide AllAudited, CompareAndSet;
      var next := match answer.disposition
        case DispatchConfirmed => Confirmed
        case DispatchFailed => FailedBeforeEffect
        case DispatchUnknown => OutcomeUnknown;
      var closed := store.TransitionRecord(request.intentId, Dispatching, next,
        Report(at, answer.detail, Some(answer.provider), answer.providerReference, answer.receipt));
      result := match closed case Ok(record) => Ok(record) case Err(error) => Err(StoreFailed(error));
      assert map[0 := ExecuteAnswered(request, Some(answer))][0 := Finished(request, result)]
           == map[0 := Finished(request, result)];
    }

    /** Lines 83-107: the recipient check, the provider call and the record. */
    method DispatchClaimed(request: DispatchRequest, recipient: string, at: int)
        returns (result: Result<ExecutionRecord, ServiceError>)
      requires store.Valid() && provider.behaviors != []
      modifies store, provider
      ensures store.Valid() && old(provider.behaviors) != []
      ensures Alone(store, provider, Finished(request, result))
           == Close(DispatchFake(Cfg(), old(Alone(store, provider, ExecuteClaimed(request, recipient))), 0), 0, at)
      ensures if normalize(recipient) == Some(request.message.recipient)
              then provider.dispatchCalls == old(provider.dispatchCalls) + [request]
              else provider.View() == old(provider.View()) && result.Err?
    {
      hide AllAudited, CompareAndSet, Dispatch;
      ghost var before := Alone(store, provider, ExecuteClaimed(request, recipient));
      if normalize(recipient) != Some(request.message.recipient) {
        var refused := store.TransitionRecord(request.intentId, Dispatching, FailedBeforeEffect,
          Report(at, "approved email recipient is outside the controlled recipient policy", None, None, None));
        result := match refused case Ok(_) => Err(ControlledRecipient) case Err(error) => Err(StoreFailed(error));
        assert map[0 := ExecuteClaimed(request, recipient)][0 := ExecuteRefused(request)]
             [0 := Finished(request, result)]
            == map[0 := Finished(request, result)];
        return;
      }
      DispatchRecordsCall(provider.View(), request);
      var answer := provider.DispatchEmail(request);
      assert map[0 := ExecuteClaimed(request, recipient)][0 := ExecuteAnswered(request, Some(answer))]
          == map[0 := ExecuteAnswered(request, Some(answer))];
      hide Close;
      assert DispatchFake(Cfg(), before, 0) == Alone(store, provider, ExecuteAnswered(request, Some(answer)));
      result := RecordDispatchResult(request, answer, at);
    }

    /** The state check and the claim, as seen by one task alone. */
    method ClaimRecord(worker: Worker, at: int) returns (next: Worker)
      requires store.Valid() && (worker.ExecuteLoaded? || worker.ReconcileLoaded?)
      modifies store
      ensures store.Valid() && provider.View() == old(provider.View())
      ensures Alone(store, provider, next) == Claim(old(Alone(store, provider, worker)), 0, at)
      ensures next.request == worker.request
      ensures || next.Rereading? || next.Finished?
              || (worker.ExecuteLoaded? && next.ExecuteClaimed? && next.recipient == worker.recipient)
              || (worker.ReconcileLoaded? && next.ReconcileClaimed?)
    {
      hide AllAudited, CompareAndSet;
      var request, current := worker.request, worker.current;
      if (if worker.ExecuteLoaded? then !Startable(current.state) else current.state != OutcomeUnknown) {
        next := Finished(request, Ok(current));
      } else {
        var claimed := store.TransitionRecord(request.intentId, current.state,
          if worker.ExecuteLoaded? then Dispatching else Reconciling, ClaimReport(worker, at));
        next := match claimed
          case Ok(record) =>
            if worker.ExecuteLoaded? then ExecuteClaimed(request, worker.recipient)
            else ReconcileClaimed(request, record.providerReference)
          case Err(StateConflict(_, _)) => Rereading(request)
          case Err(error) => Finished(request, Err(StoreFailed(error)));
      }
      assert map[0 := worker][0 := next] == map[0 := next];
    }

    method Execute(request: DispatchRequest, recipient: string, at: int)
        returns (result: Result<ExecutionRecord, ServiceError>)
      requires store.Valid() && provider.behaviors != []
      modifies store, provider
      ensures store.Valid() && old(provider.behaviors) != []
      ensures var before := old(Alone(store, provider, ExecuteStarted(request, recipient)));
              Alone(store, provider, Finished(request, result)) == ExecuteAlone(Cfg(), before, at)
      ensures || provider.dispatchCalls == old(provider.dispatchCalls)
              || (normalize(recipient) == Some(request.message.recipient)
                  && provider.dispatchCalls == old(provider.dispatchCalls) + [request])
    {
      hide AllAudited, Ensure, Claim, Close, DispatchFake;
      ghost var started := Alone(store, provider, ExecuteStarted(request, recipient));
      var loaded := store.EnsureAuthorized(request, at);
      if loaded.Err? {
        result := Err(StoreFailed(loaded.error));
        assert started.workers[0 := Finished(request, result)] == map[0 := Finished(request, result)];
        return;
      }
      var worker := ExecuteLoaded(request, recipient, loaded.value);
      assert started.workers[0 := worker] == map[0 := worker];
      assert Load(Cfg(), started, 0, at) == Alone(store, provider, worker);
      hide Load;
      var next := ClaimRecord(worker, at);
      if next.Rereading? {
        var reread := store.GetRecord(request.intentId);
        result := match reread case Ok(record) => Ok(record) case Err(error) => Err(StoreFailed(error));
        assert map[0 := next][0 := Finished(request, result)] == map[0 := Finished(request, result)];
      } else if next.Finished? {
        result := next.outcome;
      } else {
        result := DispatchClaimed(request, recipient, at);
      }
    }

    /** `_record_reconciliation_result`, after the provider has answered. */
    method ReconcileClaimedRecord(request: DispatchRequest, reference: Option<string>, at: int)
        returns (result: Result<ExecutionRecord, ServiceError>)
      requires store.Valid()
      modifies store, provider
      ensures store.Valid()
      ensures Alone(store, provider, Finished(request, result))
           == Close(ReconcileFake(old(Alone(store, provider, ReconcileClaimed(request, reference))), 0), 0, at)
    {
      hide AllAudited, CompareAndSet, Reconcile;
      var found := provider.ReconcileEmail(request, reference);
      assert map[0 := ReconcileClaimed(request, reference)][0 := ReconcileAnswered(request, found)]
          == map[0 := ReconcileAnswered(request, found)];
      var next := match found.disposition
        case ReconcileConfirmed => Confirmed
        case ReconcileSafeToRetry => SafeToRetry
        case ReconcileNeedsOperator => NeedsOperator;
      var closed := store.TransitionRecord(request.intentId, Reconciling, next,
        Report(at, found.detail, Some(found.provider), found.providerReference, found.receipt));
      result := match closed case Ok(record) => Ok(record) case Err(error) => Err(StoreFailed(error));
      assert map[0 := ReconcileAnswered(request, found)][0 := Finished(request, result)]
           == map[0 := Finished(request, result)];
    }

    method ReconcileOutcome(request: DispatchRequest, at: int) returns (result: Result<ExecutionRecord, ServiceError>)
      requires store.Valid()
      modifies store, provider
      ensures store.Valid()
      ensures var before := old(Alone(store, provider, ReconcileStarted(request)));
              Alone(store, provider, Finished(request, result)) == ReconcileAlone(Cfg(), before, at)
    {
      hide AllAudited, Ensure, Claim, Close, ReconcileFake;
      ghost var started := Alone(store, provider, ReconcileStarted(request));
      var loaded := store.EnsureAuthorized(request, at);
      if loaded.Err? {
        result := Err(StoreFailed(loaded.error));
        assert started.workers[0 := Finished(request, result)] == map[0 := Finished(request, result)];
        return;
      }
      var worker := ReconcileLoaded(request, loaded.value);
      assert started.workers[0 := worker] == map[0 := worker];
      assert Load(Cfg(), started, 0, at) == Alone(store, provider, worker);
      hide Load;
      var next := ClaimRecord(worker, at);
      if next.Rereading? {
        var reread := store.GetRecord(request.intentId);
        result := match reread case Ok(record) => Ok(record) case Err(error) => Err(StoreFailed(error));
        assert map[0 := next][0 := Finished(request, result)] == map[0 := Finished(request, result)];
      } else if next.Finished? {
        result := next.outcome;
      } else {
        result := ReconcileClaimedRecord(request, next.reference, at);
      }
    }
  }
}
