/** The compare-and-set execution store (email/store.py) and its records (email/models.py). */
module EmailStore {
  import opened Wrappers
  import opened Outcomes

  datatype EmailMessage = EmailMessage(sender: string, recipient: string, subject: string, textBody: string)

  datatype DispatchRequest = DispatchRequest(intentId: string, idempotencyKey: string, payloadFingerprint: string,
                                             authorizedAt: int, message: EmailMessage)

  datatype Receipt = Receipt(provider: string, messageId: string, acceptedAt: int, status: string)

  datatype AuditEvent = AuditEvent(state: OutcomeState, occurredAt: int, provider: Option<string>,
                                   providerReference: Option<string>, detail: string)

  datatype ExecutionRecord = ExecutionRecord(
    intentId: string, state: OutcomeState, payloadFingerprint: string, requestFingerprint: string,
    keySha256: string, attempts: nat, providerReference: Option<string>, receipt: Option<Receipt>,
    detail: string, updatedAt: int, auditEvents: seq<AuditEvent>)

  /** SHA-256 over the provider request and over the idempotency key. */
  datatype Hashing = Hashing(message: EmailMessage -> string, key: string -> string)

  datatype StoreError =
    | ReusedWithDifferentBytes
    | MissingRecord
    | StateConflict(expected: OutcomeState, found: OutcomeState)
    | Invalid(error: InvalidOutcomeTransition)

  type Records = map<string, ExecutionRecord>

  /** `EmailExecutionRecord.approved`. */
  function ApprovedRecord(h: Hashing, request: DispatchRequest, at: int): ExecutionRecord {
    ExecutionRecord(request.intentId, Approved, request.payloadFingerprint, h.message(request.message),
                    h.key(request.idempotencyKey), 0, None, None, "Authorized action is ready for email dispatch", at,
                    [AuditEvent(Approved, at, None, None, "Authorized action entered the email execution boundary")])
  }

  predicate SameBytes(a: ExecutionRecord, b: ExecutionRecord) {
    a.payloadFingerprint == b.payloadFingerprint && a.requestFingerprint == b.requestFingerprint
    && a.keySha256 == b.keySha256
  }

  /** `ensure_authorized`: load the record or create it as APPROVED. */
  function Ensure(h: Hashing, records: Records, request: DispatchRequest,
                  at: int)
    : (Result<ExecutionRecord, StoreError>, Records)
  {
    var created := ApprovedRecord(h, request, at);
    if request.intentId in records then
      if SameBytes(records[request.intentId], created) then (Ok(records[request.intentId]), records)
      else (Err(ReusedWithDifferentBytes), records)
    else (Ok(created), records[request.intentId := created])
  }

  /** What a transition reports besides the next state. */
  datatype Report = Report(at: int, detail: string, provider: Option<string>, reference: Option<string>,
                           receipt: Option<Receipt>)

  predicate Given(text: Option<string>) {
    text.Some? && text.value != ""
  }

  /** The record after a valid transition. */
  function Moved(record: ExecutionRecord, next: OutcomeState, report: Report): ExecutionRecord {
    var reference :=
      if Given(report.reference) then report.reference
      else if report.receipt.Some? then Some(report.receipt.value.messageId)
      else record.providerReference;
    var provider :=
      if Given(report.provider) then report.provider
      else if report.receipt.Some? then Some(report.receipt.value.provider)
      else None;
    record.(state := next,
            attempts := record.attempts + if next == Dispatching then 1 else 0,
            providerReference := reference,
            receipt := if report.receipt.Some? then report.receipt else record.receipt,
            detail := report.detail,
            updatedAt := report.at,
            auditEvents := record.auditEvents + [AuditEvent(next, report.at, provider, reference, report.detail)])
  }

  /** `transition`: compare and set. */
  function CompareAndSet(records: Records, intentId: string, expected: OutcomeState, next: OutcomeState, report: Report)
    : (Result<ExecutionRecord, StoreError>, Records)
  {
    if intentId !in records then (Err(MissingRecord), records)
    else
      var current := records[intentId];
      if current.state != expected then (Err(StateConflict(expected, current.state)), records)
      else
        var moved := Transition(current.state, next);
        if moved.Err? then (Err(Invalid(moved.error)), records)
        else (Ok(Moved(current, next, report)), records[intentId := Moved(current, next, report)])
  }

  function Get(records: Records, intentId: string): Result<ExecutionRecord, StoreError> {
    if intentId in records then Ok(records[intentId]) else Err(MissingRecord)
  }

  // ----- What every store operation keeps -----

  function AuditStates(record: ExecutionRecord): (states: seq<OutcomeState>)
    ensures |states| == |record.auditEvents|
    ensures forall k :: 0 <= k < |states| ==> states[k] == record.auditEvents[k].state
  {
    seq(|record.auditEvents|, k requires 0 <= k < |record.auditEvents| => record.auditEvents[k].state)
  }

  /** The audit trail is a path of the outcome graph from APPROVED to the current state, and the
      attempts are its dispatches. */
  ghost predicate Audited(record: ExecutionRecord) {
    && record.auditEvents != []
    && record.auditEvents[0].state == Approved
    && IsPath(AuditStates(record))
    && record.auditEvents[|record.auditEvents| - 1].state == record.state
    && record.attempts == Count(AuditStates(record), Dispatching)
  }

  ghost predicate AllAudited(records: Records) {
    forall id :: id in records ==> Audited(records[id]) && records[id].intentId == id
  }

  lemma {:induction false} MovedAudited(record: ExecutionRecord, next: OutcomeState, report: Report)
    requires Audited(record) && next in Allowed(record.state)
    ensures Audited(Moved(record, next, report))
  {
    var moved := Moved(record, next, report);
    assert AuditStates(moved) == AuditStates(record) + [next];
    assert AuditStates(moved)[..|AuditStates(record)|] == AuditStates(record);
  }

  lemma {:induction false} ApprovedAudited(h: Hashing, request: DispatchRequest, at: int)
    ensures Audited(ApprovedRecord(h, request, at))
  {
    var record := ApprovedRecord(h, request, at);
    assert AuditStates(record) == [Approved];
    assert AuditStates(record)[..0] == [];
  }

  lemma {:induction false} EnsureAudited(h: Hashing, records: Records, request: DispatchRequest, at: int)
    requires AllAudited(records)
    ensures AllAudited(Ensure(h, records, request, at).1)
  {
    ApprovedAudited(h, request, at);
    hide Audited;
  }

  lemma {:induction false} CompareAndSetAudited(records: Records, intentId: string, expected: OutcomeState,
                                                next: OutcomeState, report: Report)
    requires AllAudited(records)
    ensures AllAudited(CompareAndSet(records, intentId, expected, next, report).1)
  {
    if CompareAndSet(records, intentId, expected, next, report).0.Ok? {
      MovedAudited(records[intentId], next, report);
    }
    hide Audited;
  }

  // ----- The in-memory store -----

  class InMemoryEmailExecutionStore {
    const hashing: Hashing
    var records: Records

    ghost predicate Valid()
      reads this
    {
      AllAudited(records)
    }

    constructor (hashing: Hashing)
      ensures Valid() && this.hashing == hashing && records == map[]
    {
      this.hashing := hashing;
      records := map[];
    }

    method EnsureAuthorized(request: DispatchRequest, at: int) returns (result: Result<ExecutionRecord, StoreError>)
      requires Valid()
      modifies this
      ensures Valid() && (result, records) == Ensure(hashing, old(records), request, at)
    {
      EnsureAudited(hashing, records, request, at);
      if request.intentId in records {
        var expected := ApprovedRecord(hashing, request, at);
        var existing := records[request.intentId];
        if existing.payloadFingerprint != expected.payloadFingerprint
           || existing.requestFingerprint != expected.requestFingerprint
           || existing.keySha256 != expected.keySha256
        {
          return Err(ReusedWithDifferentBytes);
        }
        return Ok(existing);
      }
      var record := ApprovedRecord(hashing, request, at);
      records := records[request.intentId := record];
      result := Ok(record);
    }

    method GetRecord(intentId: string) returns (result: Result<ExecutionRecord, StoreError>)
      requires Valid()
      ensures result == Get(records, intentId)
      ensures result.Ok? ==> Audited(result.value)
    {
      if intentId !in records { return Err(MissingRecord); }
      result := Ok(records[intentId]);
    }

    method TransitionRecord(intentId: string, expected: OutcomeState, next: OutcomeState, report: Report)
        returns (result: Result<ExecutionRecord, StoreError>)
      requires Valid()
      modifies this
      ensures Valid() && (result, records) == CompareAndSet(old(records), intentId, expected, next, report)
    {
      CompareAndSetAudited(records, intentId, expected, next, report);
      if intentId !in records { return Err(MissingRecord); }
      var current := records[intentId];
      if current.state != expected { return Err(StateConflict(expected, current.state)); }
      var checked := Transition(current.state, next);
      if checked.Err? { return Err(Invalid(checked.error)); }
      var updated := Moved(current, next, report);
      records := records[intentId := updated];
      result := Ok(updated);
    }
  }
}
