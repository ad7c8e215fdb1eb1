/** Concurrent edit, decide and execute requests, interleaved at every await
    (integration/service.py:471-690, integration/protected.py:74-104). */
module Requests {
  import opened Wrappers
  import opened Text
  import CanonicalJson
  import opened Repository
  import opened EmailRequest
  import B = Broker
  import Mail = EmailProtocol
  import EmailStore
  import Outcomes

  // ----- Settings -----

  /** `deterministic_id(run_id, key)` for each kind of key: any functions. */
  datatype Ids = Ids(
    policy: Uuid -> Uuid,
    decision: (Uuid, Uuid, nat, Decision) -> Uuid,
    version: (Uuid, Uuid, nat) -> Uuid,
    execution: (Uuid, Uuid, nat) -> Uuid)

  datatype Setting = Setting(
    env: B.Env, hashing: EmailStore.Hashing, normalize: string -> Option<string>, sender: string,
    controlledRecipient: string, ids: Ids)

  /** `controlled_policy`. */
  function ControlledPolicy(setting: Setting, runId: Uuid): B.EffectivePolicy {
    B.EffectivePolicy(setting.ids.policy(runId), 1, {B.EmailSend}, Some(setting.controlledRecipient))
  }

  function CommitContextOf(setting: Setting, runId: Uuid, current: B.ProposalVersion): B.CommitContext {
    B.CommitContext({B.EXECUTE_CAPABILITY}, setting.ids.policy(runId), 1, current.version, current.sha,
                    current.attachmentSha)
  }

  // ----- Requests -----

  datatype Command =
    | EditCommand(payload: CanonicalJson.PyValue)
    | DecideCommand(decision: Decision, approverId: Uuid)
    | ExecuteCommand

  datatype Refusal =
    | ProposalNotFound | BrokerRefused(broker: B.BrokerError) | RecordRefused(record: RepositoryError)
    | AlreadyDecided | NotApprovedExactly | NoPermitRecorded
    | RequestRefused(request: RequestError) | EmailFailed(email: Mail.ServiceError) | Cancelled

  /** Where a request is suspended, with what it has read. */
  datatype Request =
    | Received(runId: Uuid, command: Command)
    | Listed(runId: Uuid, command: Command, snapshot: seq<IntegrationRecord>)
    | Located(runId: Uuid, command: Command, snapshot: seq<IntegrationRecord>, proposalId: Uuid)
    | Seen(runId: Uuid, command: Command, snapshot: seq<IntegrationRecord>, proposal: B.Proposal)
    | Editing(runId: Uuid, payload: CanonicalJson.PyValue, version: B.ProposalVersion)
    | EditDone(runId: Uuid, version: B.ProposalVersion)
    | Deciding(runId: Uuid, decision: Decision, approverId: Uuid, version: B.ProposalVersion)
    | Approving(runId: Uuid, approverId: Uuid, version: B.ProposalVersion)
    | Decided(runId: Uuid, decision: Decision, approverId: Uuid, version: B.ProposalVersion, issued: Option<Uuid>)
    | Permitted(runId: Uuid, version: B.ProposalVersion, permitId: Uuid)
    | CommitSeen(runId: Uuid, version: B.ProposalVersion, permitId: Uuid, proposal: B.Proposal)
    | Committing(runId: Uuid, version: B.ProposalVersion, permitId: Uuid, current: B.ProposalVersion)
    | Sending(runId: Uuid, version: B.ProposalVersion, permitId: Uuid)
    | Sent(runId: Uuid, version: B.ProposalVersion, permitId: Uuid, outcome: Outcomes.OutcomeState)
    | Preparing(runId: Uuid, content: B.Content)
    | Prepared(runId: Uuid, proposalId: Uuid)
    | Ended(runId: Uuid, result: Result<(), Refusal>)

  /** `intents` and `book` hold every authorized action and the request built from it; `dispatched`
      lists the intents of all calls of `provider.dispatch`, in order. */
  datatype State = State(
    broker: B.BrokerState, records: Records, email: Mail.System, requests: map<nat, Request>,
    intents: map<Uuid, B.AuthorizedAction>, book: map<Uuid, EmailStore.DispatchRequest>, dispatched: seq<Uuid>)

  /** The value of an outcome state. */
  function OutcomeText(state: Outcomes.OutcomeState): string {
    match state
    case Prepared => "prepared"
    case PendingApproval => "pending_approval"
    case Approved => "approved"
    case Dispatching => "dispatching"
    case Confirmed => "confirmed"
    case FailedBeforeEffect => "failed_before_effect"
    case OutcomeUnknown => "outcome_unknown"
    case Reconciling => "reconciling"
    case SafeToRetry => "safe_to_retry"
    case NeedsOperator => "needs_operator"
  }

  // ----- Looking records up -----

  /** `records[-1].payload["proposal_id"]` among the proposal references. */
  function LastProposal(listing: seq<IntegrationRecord>): Option<Uuid> {
    if listing == [] then None
    else
      var last := listing[|listing| - 1].payload;
      if last.ProposalRef? then Some(last.proposalId) else LastProposal(listing[..|listing| - 1])
  }

  predicate Decides(record: IntegrationRecord, proposalId: Uuid, version: nat) {
    record.payload.DecisionEntry? && record.payload.proposalId == proposalId && record.payload.version == version
  }

  /** `decisions[-1]` for one proposal version. */
  function LastDecision(listing: seq<IntegrationRecord>, proposalId: Uuid,
                        version: nat): (found: Option<IntegrationRecord>)
    ensures found.Some? ==> found.value in listing && Decides(found.value, proposalId, version)
  {
    if listing == [] then None
    else
      var last := listing[|listing| - 1];
      if Decides(last, proposalId, version) then Some(last)
      else LastDecision(listing[..|listing| - 1], proposalId, version)
  }

  predicate Executed(listing: seq<IntegrationRecord>, proposalId: Uuid, version: nat) {
    exists k :: 0 <= k < |listing| && listing[k].payload.ExecutionEntry?
                && listing[k].payload.proposalId == proposalId && listing[k].payload.version == version
  }

  // ----- Steps -----

  function With(s: State, w: nat, request: Request): State {
    s.(requests := s.requests[w := request])
  }

  function End(s: State, w: nat, outcome: Result<(), Refusal>): State
    requires w in s.requests
  {
    With(s, w, Ended(s.requests[w].runId, outcome))
  }

  /** `records.list(run_id, record_kind="proposal_ref")`. */
  function Locate(s: State, w: nat, listing: seq<IntegrationRecord>): State
    requires w in s.requests && s.requests[w].Listed?
  {
    var r := s.requests[w];
    match LastProposal(listing)
    case None => End(s, w, Err(ProposalNotFound))
    case Some(id) => With(s, w, Located(r.runId, r.command, r.snapshot, id))
  }

  /** `get_proposal`. */
  function See(s: State, w: nat): State
    requires w in s.requests && s.requests[w].Located?
  {
    var r := s.requests[w];
    match B.GetProposal(s.broker, r.proposalId)
    case Err(error) => End(s, w, Err(BrokerRefused(error)))
    case Ok(proposal) => With(s, w, Seen(r.runId, r.command, r.snapshot, proposal))
  }

  /** Lines 624-646: what `execute_approved_email` concludes from its first listing. */
  function Choose(runId: Uuid, snapshot: seq<IntegrationRecord>, version: B.ProposalVersion): Request {
    match LastDecision(snapshot, version.proposalId, version.version)
    case None => Ended(runId, Err(NotApprovedExactly))
    case Some(record) =>
      if record.payload.decision != Approve then Ended(runId, Err(NotApprovedExactly))
      else if record.payload.permitId.None? then Ended(runId, Err(NoPermitRecorded))
      else if Executed(snapshot, version.proposalId, version.version) then Ended(runId, Ok(()))
      else Permitted(runId, version, record.payload.permitId.value)
  }

  /** `get_version`, and what follows up to the next await. */
  function Read(s: State, w: nat): State
    requires w in s.requests && s.requests[w].Seen?
  {
    var r := s.requests[w];
    match B.GetVersion(s.broker, r.proposal.id, r.proposal.currentVersion)
    case Err(error) => End(s, w, Err(BrokerRefused(error)))
    case Ok(version) =>
      With(s, w,
        match r.command
        case EditCommand(payload) => Editing(r.runId, payload, version)
        case DecideCommand(decision, approverId) => Deciding(r.runId, decision, approverId, version)
        case ExecuteCommand => Choose(r.runId, r.snapshot, version))
  }

  /** `proposal_broker.edit_proposal`. */
  function Edit(setting: Setting, s: State, w: nat): State
    requires w in s.requests && s.requests[w].Editing?
  {
    var r := s.requests[w];
    var content := B.Content(r.payload, r.version.attachmentIds, r.version.attachmentSha);
    var (edited, broker) := B.EditProposal(setting.env, s.broker, r.version.proposalId, content);
    match edited
    case Err(error) => End(s, w, Err(BrokerRefused(error)))
    case Ok((version, _)) => With(s.(broker := broker), w, EditDone(r.runId, version))
  }

  /** The record a request writes last. */
  function FinalRecord(setting: Setting, r: Request, at: int): IntegrationRecord
    requires r.EditDone? || r.Decided? || r.Sent? || r.Prepared?
  {
    match r
    case EditDone(runId, v) =>
      IntegrationRecord(runId, setting.ids.version(runId, v.proposalId, v.version),
                        VersionEntry(v.proposalId, v.version, v.sha), at, at)
    case Decided(runId, decision, approverId, v, issued) =>
      IntegrationRecord(runId, setting.ids.decision(runId, v.proposalId, v.version, decision),
                        DecisionEntry(v.proposalId, v.version, decision, approverId, issued, v.sha), at, at)
    case Sent(runId, v, permitId, outcome) =>
      IntegrationRecord(runId, setting.ids.execution(runId, v.proposalId, v.version),
                        ExecutionEntry(v.proposalId, v.version, permitId, OutcomeText(outcome)), at, at)
    case Prepared(runId, proposalId) => IntegrationRecord(runId, proposalId, ProposalRef(proposalId), at, at)
  }

  /** `records.put`. */
  function Record(setting: Setting, s: State, w: nat, at: int): State
    requires w in s.requests
    requires s.requests[w].EditDone? || s.requests[w].Decided? || s.requests[w].Sent? || s.requests[w].Prepared?
  {
    var (stored, records) := Repository.Put(s.records, FinalRecord(setting, s.requests[w], at));
    match stored
    case Err(error) => End(s, w, Err(RecordRefused(error)))
    case Ok(_) => End(s.(records := records), w, Ok(()))
  }

  /** The decisions already recorded for the version, and what follows up to the next await. */
  function Check(s: State, w: nat, listing: seq<IntegrationRecord>): State
    requires w in s.requests && s.requests[w].Deciding?
  {
    var r := s.requests[w];
    match LastDecision(listing, r.version.proposalId, r.version.version)
    case Some(record) => End(s, w, if record.payload.decision == r.decision then Ok(()) else Err(AlreadyDecided))
    case None =>
      With(s, w,
        if r.decision.Approve? then Approving(r.runId, r.approverId, r.version)
        else Decided(r.runId, r.decision, r.approverId, r.version, None))
  }

  const PERMIT_TTL := 15 * 60

  function ApprovalOf(setting: Setting, r: Request, decisionId: Uuid, now: int): B.Approval
    requires r.Approving?
  {
    B.Approval(r.version.proposalId, r.version.version, r.version.sha, r.version.attachmentSha,
               B.PolicyDecision(decisionId, B.EmailSend, true, setting.ids.policy(r.runId), 1),
               ControlledPolicy(setting, r.runId), r.approverId, PERMIT_TTL, now)
  }

  /** `issue_permit`. */
  function Issue(setting: Setting, s: State, w: nat, decisionId: Uuid, permitId: Uuid, nonce: Uuid, now: int): State
    requires w in s.requests && s.requests[w].Approving?
  {
    var r := s.requests[w];
    var (issued, broker) :=
      B.IssuePermit(setting.env, s.broker, ApprovalOf(setting, r, decisionId, now), permitId, nonce);
    match issued
    case Err(error) => End(s, w, Err(BrokerRefused(error)))
    case Ok(permit) => With(s.(broker := broker), w, Decided(r.runId, Approve, r.approverId, r.version, Some(permitId)))
  }

  /** `ProtectedEmailBoundary.execute`: `get_proposal`. */
  function CommitSee(s: State, w: nat): State
    requires w in s.requests && s.requests[w].Permitted?
  {
    var r := s.requests[w];
    match B.GetProposal(s.broker, r.version.proposalId)
    case Err(error) => End(s, w, Err(BrokerRefused(error)))
    case Ok(proposal) => With(s, w, CommitSeen(r.runId, r.version, r.permitId, proposal))
  }

  /** `get_version` of the version now current. */
  function CommitRead(s: State, w: nat): State
    requires w in s.requests && s.requests[w].CommitSeen?
  {
    var r := s.requests[w];
    match B.GetVersion(s.broker, r.proposal.id, r.proposal.currentVersion)
    case Err(error) => End(s, w, Err(BrokerRefused(error)))
    case Ok(current) => With(s, w, Committing(r.runId, r.version, r.permitId, current))
  }

  /** `authorize_and_consume`, then the start of the email service. */
  function Authorize(setting: Setting, s: State, w: nat, now: int, intentId: Uuid): State
    requires w in s.requests && s.requests[w].Committing?
  {
    var r := s.requests[w];
    var (authorized, broker) :=
      B.AuthorizeAndConsume(setting.env, s.broker, r.permitId, ControlledPolicy(setting, r.runId),
                            CommitContextOf(setting, r.runId, r.current), now, intentId);
    match authorized
    case Err(error) => End(s, w, Err(BrokerRefused(error)))
    case Ok(action) =>
      var s1 := s.(broker := broker, intents := s.intents[intentId := action]);
      match BuildRequest(setting.env, setting.normalize, setting.sender, action)
      case Err(error) => End(s1, w, Err(RequestRefused(error)))
      case Ok(request) =>
        With(s1.(book := s1.book[intentId := request],
                 email := s1.email.(workers := s1.email.workers[
                   w := Mail.ExecuteStarted(request, setting.controlledRecipient)])),
             w, Sending(r.runId, r.version, r.permitId))
  }

  function MailConfig(setting: Setting): Mail.Config {
    Mail.Config(setting.hashing, setting.normalize)
  }

  /** The step calls `provider.dispatch`. */
  predicate Dispatches(cfg: Mail.Config, e: Mail.System, step: Mail.Event) {
    && (step.DispatchStep? || step.DispatchOtherStep?)
    && step.w in e.workers && e.workers[step.w].ExecuteClaimed?
    && Mail.RecipientAllowed(cfg, e.workers[step.w].request, e.workers[step.w].recipient)
  }

  /** One step of the email service on behalf of a sending request. */
  ghost function Mailing(setting: Setting, s: State, step: Mail.Event): State
    requires Mail.Enabled(MailConfig(setting), s.email, step) && step.w in s.email.workers
  {
    s.(email := Mail.Step(MailConfig(setting), s.email, step),
       dispatched := if Dispatches(MailConfig(setting), s.email,
                                   step) then s.dispatched + [s.email.workers[step.w].request.intentId]
                     else s.dispatched)
  }

  /** `EmailExecutionService.execute` returns or raises. */
  function Returned(s: State, w: nat): State
    requires w in s.requests && s.requests[w].Sending? && w in s.email.workers && s.email.workers[w].Finished?
  {
    var r := s.requests[w];
    match s.email.workers[w].outcome
    case Err(error) => End(s, w, Err(EmailFailed(error)))
    case Ok(record) => With(s, w, Sent(r.runId, r.version, r.permitId, record.state))
  }

  /** The executor's `create_proposal`. */
  function Create(setting: Setting, s: State, w: nat, proposalId: Uuid, revisionId: Uuid): State
    requires w in s.requests && s.requests[w].Preparing?
  {
    var r := s.requests[w];
    var (created, broker) :=
      B.CreateProposal(setting.env, s.broker, proposalId, r.runId, revisionId, "email.send", r.content);
    match created
    case Err(error) => End(s, w, Err(BrokerRefused(error)))
    case Ok(_) => With(s.(broker := broker), w, Prepared(r.runId, proposalId))
  }

  // ----- Events -----

  datatype Event =
    | Receive(w: nat, runId: Uuid, command: Command)
    | Prepare(w: nat, runId: Uuid, content: B.Content)
    | CreateStep(w: nat, proposalId: Uuid, revisionId: Uuid)
    | ListStep(w: nat, listing: seq<IntegrationRecord>)
    | LocateStep(w: nat, listing: seq<IntegrationRecord>)
    | SeeStep(w: nat)
    | ReadStep(w: nat)
    | EditStep(w: nat)
    | CheckStep(w: nat, listing: seq<IntegrationRecord>)
    | IssueStep(w: nat, decisionId: Uuid, permitId: Uuid, nonce: Uuid, now: int)
    | CommitSeeStep(w: nat)
    | CommitReadStep(w: nat)
    | AuthorizeStep(w: nat, now: int, intentId: Uuid)
    | MailStep(step: Mail.Event)
    | ReturnStep(w: nat)
    | RecordStep(w: nat, at: int)
    | Abandon(w: nat)                            // an error elsewhere, or a cancelled task

  ghost predicate Enabled(setting: Setting, s: State, e: Event) {
    match e
    case Receive(w, _, _) => w !in s.requests && w !in s.email.workers
    case Prepare(w, _, _) => w !in s.requests && w !in s.email.workers
    case CreateStep(w, proposalId, _) =>
      w in s.requests && s.requests[w].Preparing? && proposalId !in s.broker.proposals
    case ListStep(w, listing) =>
      w in s.requests && s.requests[w].Received? && IsListing(s.records, s.requests[w].runId, listing)
    case LocateStep(w, listing) =>
      w in s.requests && s.requests[w].Listed? && IsListing(s.records, s.requests[w].runId, listing)
    case SeeStep(w) => w in s.requests && s.requests[w].Located?
    case ReadStep(w) => w in s.requests && s.requests[w].Seen?
    case EditStep(w) => w in s.requests && s.requests[w].Editing?
    case CheckStep(w, listing) =>
      w in s.requests && s.requests[w].Deciding? && IsListing(s.records, s.requests[w].runId, listing)
    case IssueStep(w, _, permitId, _, _) => w in s.requests && s.requests[w].Approving? && permitId !in s.broker.permits
    case CommitSeeStep(w) => w in s.requests && s.requests[w].Permitted?
    case CommitReadStep(w) => w in s.requests && s.requests[w].CommitSeen?
    case AuthorizeStep(w, _, intentId) => w in s.requests && s.requests[w].Committing? && intentId !in s.intents
    case MailStep(step) =>
      && step.w in s.requests && s.requests[step.w].Sending? && step.w in s.email.workers
      && !step.StartExecute? && !step.StartReconcile? && !step.Vanish?
      && Mail.Enabled(MailConfig(setting), s.email, step)
    case ReturnStep(w) =>
      w in s.requests && s.requests[w].Sending? && w in s.email.workers && s.email.workers[w].Finished?
    case RecordStep(w, _) =>
      w in s.requests
      && (s.requests[w].EditDone? || s.requests[w].Decided? || s.requests[w].Sent? || s.requests[w].Prepared?)
    case Abandon(w) => w in s.requests
  }

  ghost function Step(setting: Setting, s: State, e: Event): State
    requires Enabled(setting, s, e)
  {
    match e
    case Receive(w, runId, command) => With(s, w, Received(runId, command))
    case Prepare(w, runId, content) => With(s, w, Preparing(runId, content))
    case CreateStep(w, proposalId, revisionId) => Create(setting, s, w, proposalId, revisionId)
    case ListStep(w, listing) => With(s, w, Listed(s.requests[w].runId, s.requests[w].command, listing))
    case LocateStep(w, listing) => Locate(s, w, listing)
    case SeeStep(w) => See(s, w)
    case ReadStep(w) => Read(s, w)
    case EditStep(w) => Edit(setting, s, w)
    case CheckStep(w, listing) => Check(s, w, listing)
    case IssueStep(w, decisionId, permitId, nonce, now) => Issue(setting, s, w, decisionId, permitId, nonce, now)
    case CommitSeeStep(w) => CommitSee(s, w)
    case CommitReadStep(w) => CommitRead(s, w)
    case AuthorizeStep(w, now, intentId) => Authorize(setting, s, w, now, intentId)
    case MailStep(step) => Mailing(setting, s, step)
    case ReturnStep(w) => Returned(s, w)
    case RecordStep(w, at) => Record(setting, s, w, at)
    case Abandon(w) => End(s.(email := s.email.(workers := s.email.workers - {w})), w, Err(Cancelled))
  }
}
