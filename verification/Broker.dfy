/** Proposals, single-use permits and commit-time authorization (protected_actions/broker.py). */
module Broker {
  import opened Wrappers
  import opened Text
  import opened CanonicalJson
  import opened JsonLoads
  import opened CanonicalRoundTrip

  // ----- Contracts: domain/actions.py, domain/policy.py -----

  datatype ProposalStatus = Draft | PendingApproval | Approved | Authorized | Rejected | Superseded | Executed

  datatype Proposal = Proposal(id: Uuid, runId: Uuid, revisionId: Uuid, currentVersion: nat, status: ProposalStatus)

  datatype ProposalVersion = ProposalVersion(
    proposalId: Uuid, version: nat, actionType: string, canonicalPayload: string, sha: string,
    attachmentIds: seq<Uuid>, attachmentSha: seq<string>)

  datatype Permit = Permit(
    id: Uuid, proposalId: Uuid, proposalVersion: nat, actionType: string, sha: string, attachmentSha: seq<string>,
    decisionId: Uuid, organizationPolicyId: Uuid, organizationRevision: nat, approverId: Uuid,
    approvedAt: int, expiresAt: int, nonce: Uuid, consumedAt: Option<int>)

  datatype ActionIntent = ActionIntent(
    id: Uuid, proposalId: Uuid, proposalVersion: nat, permitId: Uuid, idempotencyKey: string, fingerprint: string,
    createdAt: int)

  datatype AuthorizedAction = AuthorizedAction(intent: ActionIntent, canonicalPayload: string, nonce: Uuid)

  datatype ProtectedAction = EmailSend | FileUpload | Spend | Delete

  datatype EffectivePolicy = EffectivePolicy(
    organizationPolicyId: Uuid, organizationRevision: nat, allowedActions: set<ProtectedAction>,
    controlledRecipient: Option<string>)

  datatype PolicyDecision = PolicyDecision(
    id: Uuid, action: ProtectedAction, allowed: bool, organizationPolicyId: Uuid, organizationRevision: nat)

  datatype CommitContext = CommitContext(
    capabilities: set<string>, organizationPolicyId: Uuid, organizationRevision: nat,
    proposalVersion: nat, sha: string, attachmentSha: seq<string>)

  datatype ProposalDiff = ProposalDiff(proposalId: Uuid, fromVersion: nat, toVersion: nat, attachmentsChanged: bool)

  /** Content of a proposal, as `create_proposal` and `edit_proposal` receive it. */
  datatype Content = Content(payload: PyValue, attachmentIds: seq<Uuid>, attachmentSha: seq<string>)

  datatype BrokerError =
    | NotCanonical(error: CanonicalizationError) | InvalidVersion | InvalidPermit
    | NoProposal | NoVersion | NoPermit
    | UnsupportedAction | PolicyDenied | DecisionOfAnotherPolicy | StaleDecision | DecisionForAnotherAction
    | ActionNotEnabled
    | NotCurrentVersion | PreviewPayloadDiffers | PreviewAttachmentsDiffer
    | EmailNotEnabled | PayloadNotObject | NoRecipient | RecipientNotConfigured | RecipientOutsideAllowlist
    | PermitConsumed | PermitExpired | NoCapability
    | ContextOfAnotherPolicy | StaleContext | PermitOfAnotherPolicy | StalePermit
    | EditedAfterApproval | ContextVersionDiffers | NotApproved
    | PayloadDigestDiffers | ContextDigestDiffers | AttachmentsDiffer | ContextAttachmentsDiffer

  /** SHA-256 of UTF-8 text in hexadecimal, and `str.casefold`. */
  datatype Env = Env(sha: string -> string, casefold: string -> string)

  // ----- State -----

  datatype ProposalRecord = ProposalRecord(proposal: Proposal, versions: map<nat, ProposalVersion>)

  datatype BrokerState = BrokerState(proposals: map<Uuid, ProposalRecord>, permits: map<Uuid, Permit>,
                                     consumed: set<Uuid>)

  const EMPTY_BROKER := BrokerState(map[], map[], {})

  // ----- Versions -----

  /** `_make_version`, with the bounds of the ProposalVersion contract. */
  function MakeVersion(env: Env, proposalId: Uuid, version: nat, actionType: string,
                       content: Content)
    : Result<ProposalVersion, BrokerError>
  {
    match Canonical(content.payload)
    case Err(error) => Err(NotCanonical(error))
    case Ok(text) =>
      if 2 <= |actionType| <= 100 && 2 <= |text| <= 100_000 && |content.attachmentIds| == |content.attachmentSha| then
        Ok(ProposalVersion(proposalId, version, actionType, text, env.sha(text), content.attachmentIds,
                           content.attachmentSha))
      else Err(InvalidVersion)
  }

  function CreateProposal(env: Env, b: BrokerState, id: Uuid, runId: Uuid, revisionId: Uuid, actionType: string,
                          content: Content)
    : (Result<ProposalVersion, BrokerError>, BrokerState)
  {
    match MakeVersion(env, id, 1, actionType, content)
    case Err(error) => (Err(error), b)
    case Ok(version) =>
      (Ok(version),
       b.(proposals := b.proposals[id := ProposalRecord(Proposal(id, runId, revisionId, 1, PendingApproval),
                                                        map[1 := version])]))
  }

  function Edited(record: ProposalRecord, version: ProposalVersion): ProposalRecord {
    ProposalRecord(record.proposal.(currentVersion := version.version, status := PendingApproval),
                   record.versions[version.version := version])
  }

  function EditProposal(env: Env, b: BrokerState, id: Uuid, content: Content)
    : (Result<(ProposalVersion, ProposalDiff), BrokerError>, BrokerState)
  {
    if id !in b.proposals then (Err(NoProposal), b)
    else
      var record := b.proposals[id];
      var current := record.proposal.currentVersion;
      if current !in record.versions then (Err(NoVersion), b)
      else
        var previous := record.versions[current];
        match MakeVersion(env, id, current + 1, previous.actionType, content)
        case Err(error) => (Err(error), b)
        case Ok(version) =>
          (Ok((version,
               ProposalDiff(id, previous.version, current + 1, previous.attachmentSha != version.attachmentSha))),
           b.(proposals := b.proposals[id := Edited(record, version)]))
  }

  function GetProposal(b: BrokerState, id: Uuid): Result<Proposal, BrokerError> {
    if id in b.proposals then Ok(b.proposals[id].proposal) else Err(NoProposal)
  }

  function GetVersion(b: BrokerState, id: Uuid, version: nat): Result<ProposalVersion, BrokerError> {
    if id !in b.proposals then Err(NoProposal)
    else if version !in b.proposals[id].versions then Err(NoVersion)
    else Ok(b.proposals[id].versions[version])
  }

  // ----- Policy checks -----

  /** `payload.get(key)` of a loaded object. */
  function Lookup(entries: seq<PyEntry>, key: string): Option<PyValue> {
    if entries == [] then None
    else if entries[0].key == StrKey(key) then Some(entries[0].value)
    else Lookup(entries[1..], key)
  }

  /** `_validate_payload_policy`. */
  function PayloadRefusal(env: Env, version: ProposalVersion, policy: EffectivePolicy): Option<BrokerError> {
    if version.actionType != "email.send" then Some(UnsupportedAction)
    else if EmailSend !in policy.allowedActions then Some(EmailNotEnabled)
    else
      match Loads(version.canonicalPayload)
      case Some(PyDict(entries)) =>
        (match Lookup(entries, "to")
         case Some(PyStr(recipient)) =>
           if policy.controlledRecipient.None? || policy.controlledRecipient == Some("") then
             Some(RecipientNotConfigured)
           else if env.casefold(recipient) != env.casefold(policy.controlledRecipient.value) then
             Some(RecipientOutsideAllowlist)
           else None
         case _ => Some(NoRecipient))
      case _ => Some(PayloadNotObject)
  }

  /** `_policy_action_for`, then `_validate_policy_decision`. */
  function DecisionRefusal(version: ProposalVersion, decision: PolicyDecision,
                           policy: EffectivePolicy)
    : Option<BrokerError>
  {
    if version.actionType != "email.send" then Some(UnsupportedAction)
    else if !decision.allowed then Some(PolicyDenied)
    else if decision.organizationPolicyId != policy.organizationPolicyId then Some(DecisionOfAnotherPolicy)
    else if decision.organizationRevision != policy.organizationRevision then Some(StaleDecision)
    else if decision.action != EmailSend then Some(DecisionForAnotherAction)
    else if decision.action !in policy.allowedActions then Some(ActionNotEnabled)
    else None
  }

  // ----- Permits -----

  /** What an approval refers to. */
  datatype Approval = Approval(
    proposalId: Uuid, version: nat, expectedSha: string, expectedAttachments: seq<string>,
    decision: PolicyDecision, policy: EffectivePolicy, approverId: Uuid, ttl: int, now: int)

  function IssueRefusal(env: Env, b: BrokerState, a: Approval): Option<BrokerError> {
    if a.proposalId !in b.proposals then Some(NoProposal)
    else
      var record := b.proposals[a.proposalId];
      if a.version !in record.versions then Some(NoVersion)
      else
        var version := record.versions[a.version];
        if DecisionRefusal(version, a.decision, a.policy).Some? then DecisionRefusal(version, a.decision, a.policy)
        else if record.proposal.currentVersion != a.version then Some(NotCurrentVersion)
        else if version.sha != a.expectedSha then Some(PreviewPayloadDiffers)
        else if version.attachmentSha != a.expectedAttachments then Some(PreviewAttachmentsDiffer)
        else if PayloadRefusal(env, version, a.policy).Some? then PayloadRefusal(env, version, a.policy)
        else if a.ttl <= 0 then Some(InvalidPermit)
        else None
  }

  function PermitFor(version: ProposalVersion, a: Approval, permitId: Uuid, nonce: Uuid): Permit {
    Permit(permitId, a.proposalId, a.version, version.actionType, version.sha, version.attachmentSha, a.decision.id,
           a.decision.organizationPolicyId, a.decision.organizationRevision, a.approverId,
           a.now, a.now + a.ttl, nonce, None)
  }

  function WithStatus(record: ProposalRecord, status: ProposalStatus): ProposalRecord {
    record.(proposal := record.proposal.(status := status))
  }

  function IssuePermit(env: Env, b: BrokerState, a: Approval, permitId: Uuid,
                       nonce: Uuid)
    : (Result<Permit, BrokerError>, BrokerState)
  {
    match IssueRefusal(env, b, a)
    case Some(error) => (Err(error), b)
    case None =>
      var record := b.proposals[a.proposalId];
      var permit := PermitFor(record.versions[a.version], a, permitId, nonce);
      (Ok(permit),
       b.(permits := b.permits[permitId := permit],
          proposals := b.proposals[a.proposalId := WithStatus(record, Approved)]))
  }

  // ----- Authorization -----

  const EXECUTE_CAPABILITY := "protected_action.execute"

  /** The checks on the permit alone: lines 203-220. */
  function PermitRefusal(b: BrokerState, permitId: Uuid, policy: EffectivePolicy, context: CommitContext,
                         now: int)
    : Option<BrokerError>
  {
    if permitId !in b.permits then Some(NoPermit)
    else
      var permit := b.permits[permitId];
      if permitId in b.consumed then Some(PermitConsumed)
      else if now >= permit.expiresAt then Some(PermitExpired)
      else if EXECUTE_CAPABILITY !in context.capabilities then Some(NoCapability)
      else if context.organizationPolicyId != policy.organizationPolicyId then Some(ContextOfAnotherPolicy)
      else if context.organizationRevision != policy.organizationRevision then Some(StaleContext)
      else if permit.organizationPolicyId != policy.organizationPolicyId then Some(PermitOfAnotherPolicy)
      else if permit.organizationRevision != policy.organizationRevision then Some(StalePermit)
      else None
  }

  /** The checks against the proposal: lines 221-238. */
  function CommitRefusal(env: Env, record: ProposalRecord, permit: Permit, policy: EffectivePolicy,
                         context: CommitContext)
    : Option<BrokerError>
  {
    if record.proposal.currentVersion != permit.proposalVersion then Some(EditedAfterApproval)
    else if context.proposalVersion != permit.proposalVersion then Some(ContextVersionDiffers)
    else if record.proposal.status != Approved then Some(NotApproved)
    else if permit.proposalVersion !in record.versions then Some(NoVersion)
    else
      var version := record.versions[permit.proposalVersion];
      if version.sha != permit.sha then Some(PayloadDigestDiffers)
      else if context.sha != permit.sha then Some(ContextDigestDiffers)
      else if version.attachmentSha != permit.attachmentSha then Some(AttachmentsDiffer)
      else if context.attachmentSha != permit.attachmentSha then Some(ContextAttachmentsDiffer)
      else PayloadRefusal(env, version, policy)
  }

  function AuthorizeRefusal(env: Env, b: BrokerState, permitId: Uuid, policy: EffectivePolicy, context: CommitContext,
                            now: int)
    : Option<BrokerError>
  {
    if PermitRefusal(b, permitId, policy, context, now).Some? then PermitRefusal(b, permitId, policy, context, now)
    else if b.permits[permitId].proposalId !in b.proposals then Some(NoProposal)
    else CommitRefusal(env, b.proposals[b.permits[permitId].proposalId], b.permits[permitId], policy, context)
  }

  /** The text the idempotency key hashes. */
  function KeyMaterial(permit: Permit): string {
    permit.proposalId + ":" + NatText(permit.proposalVersion) + ":" + permit.nonce
  }

  function ActionFor(env: Env, permit: Permit, version: ProposalVersion, intentId: Uuid, now: int): AuthorizedAction {
    AuthorizedAction(
      ActionIntent(intentId, permit.proposalId, permit.proposalVersion, permit.id, env.sha(KeyMaterial(permit)),
                   version.sha, now),
      version.canonicalPayload, permit.nonce)
  }

  function AuthorizeAndConsume(env: Env, b: BrokerState, permitId: Uuid, policy: EffectivePolicy,
                               context: CommitContext, now: int, intentId: Uuid)
    : (Result<AuthorizedAction, BrokerError>, BrokerState)
  {
    match AuthorizeRefusal(env, b, permitId, policy, context, now)
    case Some(error) => (Err(error), b)
    case None =>
      var permit := b.permits[permitId];
      var record := b.proposals[permit.proposalId];
      (Ok(ActionFor(env, permit, record.versions[permit.proposalVersion], intentId, now)),
       BrokerState(b.proposals[permit.proposalId := WithStatus(record, Authorized)],
                   b.permits[permitId := permit.(consumedAt := Some(now))],
                   b.consumed + {permitId}))
  }

  // ----- What every operation keeps -----

  /** Versions are contiguous from 1, each is bound to its own canonical bytes. */
  ghost predicate RecordOk(env: Env, id: Uuid, record: ProposalRecord) {
    && record.proposal.id == id
    && record.proposal.currentVersion >= 1
    && (forall v :: v in record.versions <==> 1 <= v <= record.proposal.currentVersion)
    && (forall v :: v in record.versions ==> VersionOk(env, id, v, record.versions[v]))
  }

  ghost predicate VersionOk(env: Env, id: Uuid, v: nat, version: ProposalVersion) {
    && version.proposalId == id && version.version == v
    && version.sha == env.sha(version.canonicalPayload)
    && IsCanonical(version.canonicalPayload)
  }

  /** A permit describes one existing version exactly. */
  ghost predicate PermitOk(b: BrokerState, id: Uuid, permit: Permit) {
    && permit.id == id
    && permit.proposalId in b.proposals
    && permit.proposalVersion in b.proposals[permit.proposalId].versions
    && var version := b.proposals[permit.proposalId].versions[permit.proposalVersion];
       permit.sha == version.sha && permit.attachmentSha == version.attachmentSha
       && permit.actionType == version.actionType
  }

  ghost predicate BrokerInv(env: Env, b: BrokerState) {
    && (forall id :: id in b.proposals ==> RecordOk(env, id, b.proposals[id]))
    && (forall id :: id in b.permits ==> PermitOk(b, id, b.permits[id]))
    && (forall id :: id in b.consumed ==> id in b.permits)
  }

  /** Later records keep every version, never go back, and belong to the same run. */
  ghost predicate Grows(old_: ProposalRecord, new_: ProposalRecord) {
    && (forall v :: v in old_.versions ==> v in new_.versions && new_.versions[v] == old_.versions[v])
    && old_.proposal.currentVersion <= new_.proposal.currentVersion
    && old_.proposal.runId == new_.proposal.runId
  }

  /** A permit never changes, apart from the time at which it was consumed. */
  predicate SamePermit(p: Permit, q: Permit) {
    p.(consumedAt := None) == q.(consumedAt := None)
  }

  ghost predicate BrokerGrows(b: BrokerState, b': BrokerState) {
    && (forall id :: id in b.proposals ==> id in b'.proposals && Grows(b.proposals[id], b'.proposals[id]))
    && (forall id :: id in b.permits ==> id in b'.permits && SamePermit(b.permits[id], b'.permits[id]))
    && b.consumed <= b'.consumed
  }

  lemma {:induction false} PermitsKept(b: BrokerState, b': BrokerState, id: Uuid, permit: Permit)
    requires PermitOk(b, id, permit) && BrokerGrows(b, b')
    ensures PermitOk(b', id, permit)
  {}

  lemma {:induction false} MakeVersionOk(env: Env, proposalId: Uuid, version: nat, actionType: string, content: Content)
    requires MakeVersion(env, proposalId, version, actionType, content).Ok?
    ensures VersionOk(env, proposalId, version, MakeVersion(env, proposalId, version, actionType, content).value)
  {
    assert Canonical(content.payload)
         == Ok(MakeVersion(env, proposalId, version, actionType, content).value.canonicalPayload);
  }

  lemma {:induction false} ReplaceRecord(env: Env, b: BrokerState, id: Uuid, record: ProposalRecord)
    requires BrokerInv(env, b) && RecordOk(env, id, record)
    requires id in b.proposals ==> Grows(b.proposals[id], record)
    ensures var b' := b.(proposals := b.proposals[id := record]); BrokerInv(env, b') && BrokerGrows(b, b')
  {
    hide RecordOk;
    var b' := b.(proposals := b.proposals[id := record]);
    assert BrokerGrows(b, b');
    forall p | p in b'.permits ensures PermitOk(b', p, b'.permits[p]) { PermitsKept(b, b', p, b.permits[p]); }
  }

  lemma {:induction false} ReplacePermit(env: Env, b: BrokerState, id: Uuid, permit: Permit)
    requires BrokerInv(env, b) && PermitOk(b, id, permit)
    requires id in b.permits ==> SamePermit(b.permits[id], permit)
    ensures var b' := b.(permits := b.permits[id := permit]); BrokerInv(env, b') && BrokerGrows(b, b')
  {
    hide RecordOk;
  }

  lemma {:induction false} EditedOk(env: Env, id: Uuid, record: ProposalRecord, version: ProposalVersion)
    requires RecordOk(env, id, record) && VersionOk(env, id, record.proposal.currentVersion + 1, version)
    ensures RecordOk(env, id, Edited(record, version)) && Grows(record, Edited(record, version))
  {
    assert version.version == record.proposal.currentVersion + 1;
    hide VersionOk;
  }

  lemma {:induction false} WithStatusOk(env: Env, id: Uuid, record: ProposalRecord, status: ProposalStatus)
    requires RecordOk(env, id, record)
    ensures RecordOk(env, id, WithStatus(record, status)) && Grows(record, WithStatus(record, status))
  {
    hide VersionOk;
  }

  lemma {:induction false} CreateKeeps(env: Env, b: BrokerState, id: Uuid, runId: Uuid, revisionId: Uuid,
                                       actionType: string, content: Content)
    requires BrokerInv(env, b) && id !in b.proposals
    ensures var b' := CreateProposal(env, b, id, runId, revisionId, actionType, content).1;
            BrokerInv(env, b') && BrokerGrows(b, b')
  {
    hide MakeVersion, BrokerInv, BrokerGrows, VersionOk;
    BrokerGrowsReflexive(b);
    var made := MakeVersion(env, id, 1, actionType, content);
    if made.Ok? {
      MakeVersionOk(env, id, 1, actionType, content);
      ReplaceRecord(env, b, id,
                    ProposalRecord(Proposal(id, runId, revisionId, 1, PendingApproval), map[1 := made.value]));
    }
  }

  lemma {:induction false} EditKeeps(env: Env, b: BrokerState, id: Uuid, content: Content)
    requires BrokerInv(env, b)
    ensures var b' := EditProposal(env, b, id, content).1; BrokerInv(env, b') && BrokerGrows(b, b')
  {
    BrokerGrowsReflexive(b);
    if EditProposal(env, b, id, content).0.Ok? {
      var record := b.proposals[id];
      assert RecordOk(env, id, record);
      hide BrokerInv, BrokerGrows, RecordOk, VersionOk, Grows, Edited, MakeVersion;
      var actionType := record.versions[record.proposal.currentVersion].actionType;
      var made := MakeVersion(env, id, record.proposal.currentVersion + 1, actionType, content);
      MakeVersionOk(env, id, record.proposal.currentVersion + 1, actionType, content);
      EditedOk(env, id, record, made.value);
      ReplaceRecord(env, b, id, Edited(record, made.value));
    }
  }

  lemma {:induction false} IssueKeeps(env: Env, b: BrokerState, a: Approval, permitId: Uuid, nonce: Uuid)
    requires BrokerInv(env, b) && permitId !in b.permits
    ensures var b' := IssuePermit(env, b, a, permitId, nonce).1; BrokerInv(env, b') && BrokerGrows(b, b')
  {
    hide PayloadRefusal, DecisionRefusal;
    BrokerGrowsReflexive(b);
    if IssuePermit(env, b, a, permitId, nonce).0.Ok? {
      var record := b.proposals[a.proposalId];
      assert RecordOk(env, a.proposalId, record);
      hide BrokerInv, BrokerGrows, RecordOk, Grows, WithStatus;
      var permit := PermitFor(record.versions[a.version], a, permitId, nonce);
      ReplacePermit(env, b, permitId, permit);
      var b1 := b.(permits := b.permits[permitId := permit]);
      WithStatusOk(env, a.proposalId, record, Approved);
      ReplaceRecord(env, b1, a.proposalId, WithStatus(record, Approved));
      BrokerGrowsTransitive(b, b1, b1.(proposals := b.proposals[a.proposalId := WithStatus(record, Approved)]));
    }
  }

  lemma {:induction false} AuthorizeKeeps(env: Env, b: BrokerState, permitId: Uuid, policy: EffectivePolicy,
                                          context: CommitContext, now: int, intentId: Uuid)
    requires BrokerInv(env, b)
    ensures var b' := AuthorizeAndConsume(env, b, permitId, policy, context, now, intentId).1;
            BrokerInv(env, b') && BrokerGrows(b, b')
  {
    hide PayloadRefusal, ActionFor, CommitRefusal;
    BrokerGrowsReflexive(b);
    if AuthorizeAndConsume(env, b, permitId, policy, context, now, intentId).0.Ok? {
      assert permitId in b.permits;
      ConsumeKeeps(env, b, permitId, now);
    }
  }

  lemma {:induction false} ConsumedKeeps(env: Env, b: BrokerState, permitId: Uuid)
    requires BrokerInv(env, b) && permitId in b.permits
    ensures var b' := b.(consumed := b.consumed + {permitId}); BrokerInv(env, b') && BrokerGrows(b, b')
  {
    hide RecordOk;
  }

  lemma {:induction false} ConsumeKeeps(env: Env, b: BrokerState, permitId: Uuid, now: int)
    requires BrokerInv(env, b) && permitId in b.permits && b.permits[permitId].proposalId in b.proposals
    ensures var permit := b.permits[permitId];
            var b' :=
              BrokerState(b.proposals[permit.proposalId := WithStatus(b.proposals[permit.proposalId], Authorized)],
                                  b.permits[permitId := permit.(consumedAt := Some(now))], b.consumed + {permitId});
            BrokerInv(env, b') && BrokerGrows(b, b')
  {
    var permit := b.permits[permitId];
    var record := b.proposals[permit.proposalId];
    assert RecordOk(env, permit.proposalId, record) && PermitOk(b, permitId, permit);
    var consumed := permit.(consumedAt := Some(now));
    assert PermitOk(b, permitId, consumed);
    WithStatusOk(env, permit.proposalId, record, Authorized);
    hide BrokerGrows, BrokerInv, RecordOk, PermitOk, Grows, WithStatus;
    ReplacePermit(env, b, permitId, consumed);
    var b1 := b.(permits := b.permits[permitId := consumed]);
    ReplaceRecord(env, b1, permit.proposalId, WithStatus(record, Authorized));
    var b2 := b1.(proposals := b.proposals[permit.proposalId := WithStatus(record, Authorized)]);
    BrokerGrowsTransitive(b, b1, b2);
    assert permitId in b2.permits;
    hide BrokerGrows, BrokerInv;
    ConsumedKeeps(env, b2, permitId);
    BrokerGrowsTransitive(b, b2, b2.(consumed := b2.consumed + {permitId}));
  }

  lemma {:induction false} BrokerGrowsReflexive(b: BrokerState)
    ensures BrokerGrows(b, b)
  {}

  lemma {:induction false} BrokerGrowsTransitive(a: BrokerState, b: BrokerState, c: BrokerState)
    requires BrokerGrows(a, b) && BrokerGrows(b, c)
    ensures BrokerGrows(a, c)
  {}
}
