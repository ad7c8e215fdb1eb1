/** The deterministic fake provider (email/providers.py). */
module EmailProvider {
  import opened Wrappers
  import opened EmailStore

  datatype Behavior =
    | Confirm | FailBeforeEffect | TimeoutBeforeEffect
    | AmbiguousConfirmed | AmbiguousNotSent | AmbiguousUnresolved

  datatype DispatchDisposition = DispatchConfirmed | DispatchFailed | DispatchUnknown

  datatype DispatchResult = DispatchResult(provider: string, disposition: DispatchDisposition, receipt: Option<Receipt>,
                                           providerReference: Option<string>, detail: string)

  datatype ReconcileDisposition = ReconcileConfirmed | ReconcileSafeToRetry | ReconcileNeedsOperator

  datatype ReconcileResult = ReconcileResult(provider: string, disposition: ReconcileDisposition,
                                             receipt: Option<Receipt>, providerReference: Option<string>,
                                             detail: string)

  datatype ProviderState = ProviderState(
    behaviors: seq<Behavior>,
    receipts: map<string, Receipt>,
    unknownBehavior: map<string, Behavior>,
    dispatchCalls: seq<DispatchRequest>,
    reconciliationCalls: seq<(DispatchRequest, Option<string>)>)

  /** `_receipt`. */
  function ReceiptFor(request: DispatchRequest): Receipt {
    var key := request.idempotencyKey;
    Receipt("fake", "fake-" + (if |key| <= 24 then key else key[..24]), request.authorizedAt, "accepted")
  }

  /** The next scripted behaviour; the last one repeats. */
  function Scripted(p: ProviderState): (Behavior, seq<Behavior>)
    requires p.behaviors != []
  {
    (p.behaviors[0], if |p.behaviors| > 1 then p.behaviors[1..] else p.behaviors)
  }

  /** `dispatch`. */
  function Dispatch(p: ProviderState, request: DispatchRequest): (DispatchResult, ProviderState)
    requires p.behaviors != []
  {
    var called := p.(dispatchCalls := p.dispatchCalls + [request]);
    var key := request.idempotencyKey;
    if key in p.receipts then
      (DispatchResult("fake", DispatchConfirmed, Some(p.receipts[key]), None,
                      "Fake provider returned the existing idempotent receipt"), called)
    else
      var (behavior, rest) := Scripted(p);
      var next := called.(behaviors := rest);
      match behavior
      case Confirm =>
        (DispatchResult("fake", DispatchConfirmed, Some(ReceiptFor(request)), None,
                        "Fake provider accepted the message"),
         next.(receipts := p.receipts[key := ReceiptFor(request)]))
      case FailBeforeEffect =>
        (DispatchResult("fake", DispatchFailed, None, None, "Fake provider failed before accepting the message"), next)
      case TimeoutBeforeEffect =>
        (DispatchResult("fake", DispatchFailed, None, None, "Fake provider failed before accepting the message"), next)
      case AmbiguousConfirmed =>
        (DispatchResult("fake", DispatchUnknown, None, Some(ReceiptFor(request).messageId),
                        "Fake provider outcome is ambiguous"),
         next.(unknownBehavior := p.unknownBehavior[key := behavior],
               receipts := p.receipts[key := ReceiptFor(request)]))
      case _ =>
        (DispatchResult("fake", DispatchUnknown, None, None, "Fake provider outcome is ambiguous"),
         next.(unknownBehavior := p.unknownBehavior[key := behavior]))
  }

  /** `reconcile`. */
  function Reconcile(p: ProviderState, request: DispatchRequest, reference: Option<string>)
    : (ReconcileResult, ProviderState)
  {
    var called := p.(reconciliationCalls := p.reconciliationCalls + [(request, reference)]);
    var key := request.idempotencyKey;
    if key in p.receipts then
      (ReconcileResult("fake", ReconcileConfirmed, Some(p.receipts[key]), None,
                       "Fake provider found the accepted message"), called)
    else if key in p.unknownBehavior && p.unknownBehavior[key] == AmbiguousNotSent then
      (ReconcileResult("fake", ReconcileSafeToRetry, None, None,
                       "Fake provider confirmed that no message was accepted"), called)
    else
      (ReconcileResult("fake", ReconcileNeedsOperator, None, None,
                       "Fake provider could not resolve the ambiguous outcome"), called)
  }

  lemma DispatchRecordsCall(p: ProviderState, request: DispatchRequest)
    requires p.behaviors != []
    ensures Dispatch(p, request).1.dispatchCalls == p.dispatchCalls + [request]
  {}

  class DeterministicFakeEmailProvider {
    var behaviors: seq<Behavior>
    var receipts: map<string, Receipt>
    var unknownBehavior: map<string, Behavior>
    var dispatchCalls: seq<DispatchRequest>
    var reconciliationCalls: seq<(DispatchRequest, Option<string>)>

    ghost function View(): ProviderState
      reads this
    {
      ProviderState(behaviors, receipts, unknownBehavior, dispatchCalls, reconciliationCalls)
    }

    /** An empty script is refused. */
    static method Create(behaviors: seq<Behavior>) returns (provider: Option<DeterministicFakeEmailProvider>)
      ensures provider.Some? <==> behaviors != []
      ensures provider.Some? ==>
                fresh(provider.value) && provider.value.View() == ProviderState(behaviors, map[], map[], [], [])
    {
      if behaviors == [] { return None; }
      var p := new DeterministicFakeEmailProvider(behaviors);
      provider := Some(p);
    }

    constructor (behaviors: seq<Behavior>)
      requires behaviors != []
      ensures View() == ProviderState(behaviors, map[], map[], [], [])
    {
      this.behaviors := behaviors;
      receipts, unknownBehavior, dispatchCalls, reconciliationCalls := map[], map[], [], [];
    }

    /** The key is accepted at most once: an accepted key keeps its receipt for ever. */
    method DispatchEmail(request: DispatchRequest) returns (result: DispatchResult)
      requires behaviors != []
      modifies this
      ensures behaviors != [] && old(behaviors) != []
      ensures (result, View()) == Dispatch(old(View()), request)
      ensures forall key :: key in old(receipts) ==> key in receipts && receipts[key] == old(receipts)[key]
    {
      dispatchCalls := dispatchCalls + [request];
      var key := request.idempotencyKey;
      if key in receipts {
        return DispatchResult("fake", DispatchConfirmed, Some(receipts[key]), None,
                              "Fake provider returned the existing idempotent receipt");
      }
      var behavior := behaviors[0];
      if |behaviors| > 1 { behaviors := behaviors[1..]; }
      if behavior == Confirm {
        var receipt := ReceiptFor(request);
        receipts := receipts[key := receipt];
        return DispatchResult("fake", DispatchConfirmed, Some(receipt), None, "Fake provider accepted the message");
      }
      if behavior == FailBeforeEffect || behavior == TimeoutBeforeEffect {
        return DispatchResult("fake", DispatchFailed, None, None, "Fake provider failed before accepting the message");
      }
      unknownBehavior := unknownBehavior[key := behavior];
      var reference: Option<string> := None;
      if behavior == AmbiguousConfirmed {
        var receipt := ReceiptFor(request);
        receipts := receipts[key := receipt];
        reference := Some(receipt.messageId);
      }
      result := DispatchResult("fake", DispatchUnknown, None, reference, "Fake provider outcome is ambiguous");
    }

    method ReconcileEmail(request: DispatchRequest, reference: Option<string>) returns (result: ReconcileResult)
      modifies this`reconciliationCalls
      ensures (result, View()) == Reconcile(old(View()), request, reference)
    {
      reconciliationCalls := reconciliationCalls + [(request, reference)];
      var key := request.idempotencyKey;
      if key in receipts {
        return ReconcileResult("fake", ReconcileConfirmed, Some(receipts[key]), None,
                               "Fake provider found the accepted message");
      }
      if key in unknownBehavior && unknownBehavior[key] == AmbiguousNotSent {
        return ReconcileResult("fake", ReconcileSafeToRetry, None, None,
                               "Fake provider confirmed that no message was accepted");
      }
      result := ReconcileResult("fake", ReconcileNeedsOperator, None, None,
                                "Fake provider could not resolve the ambiguous outcome");
    }
  }
}
