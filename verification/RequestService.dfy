/** The proposal commands of the integration service as they run when nothing else does
    (integration/service.py:471-690, integration/protected.py:74-104). */
module RequestService {
  import opened Wrappers
  import opened Text
  import opened Repository
  import opened EmailRequest
  import opened Requests
  import B = Broker
  import BrokerRuns
  import CanonicalJson
  import EmailRuns
  import EmailStore
  import EmailProvider
  import Mail = EmailProtocol

  // ----- The steps of one request in a row -----

  predicate Over(s: State) {
    0 in s.requests && s.requests[0].Ended?
  }

  /** `_proposal`: locate, see, read. */
  function Find(s: State, listing: seq<IntegrationRecord>): (found: State)
    requires 0 in s.requests && s.requests[0].Listed?
    ensures 0 in found.requests
    ensures found.requests[0].Ended? || found.requests[0].Editing? || found.requests[0].Deciding?
         || found.requests[0].Permitted?
    ensures found.requests[0].runId == s.requests[0].runId && found.email == s.email
    ensures found.requests[0].Editing? ==> s.requests[0].command.EditCommand?
    ensures found.requests[0].Deciding? ==> s.requests[0].command.DecideCommand?
    ensures found.requests[0].Permitted? ==> s.requests[0].command.ExecuteCommand?
  {
    var located := Locate(s, 0, listing);
    if Over(located) then located
    else
      var seen := See(located, 0);
      if Over(seen) then seen else Read(seen, 0)
  }

  function EditAlone(setting: Setting, s: State, listing: seq<IntegrationRecord>, at: int): State
    requires 0 in s.requests && s.requests[0].Listed? && s.requests[0].command.EditCommand?
  {
    var found := Find(s, listing);
    if Over(found) then found
    else
      var edited := Edit(setting, found, 0);
      if Over(edited) then edited else Record(setting, edited, 0, at)
  }

  function DecideAlone(setting: Setting, s: State, listing: seq<IntegrationRecord>, decisionId: Uuid, permitId: Uuid,
                       nonce: Uuid, now: int): State
    requires 0 in s.requests && s.requests[0].Listed? && s.requests[0].command.DecideCommand?
  {
    var found := Find(s, listing);
    if Over(found) then found
    else
      var checked := Check(found, 0, listing);
      if Over(checked) then checked
      else
        var decided :=
          if checked.requests[0].Approving? then Issue(setting, checked, 0, decisionId, permitId, nonce, now)
                       else checked;
        if Over(decided) then decided else Record(setting, decided, 0, now)
  }

  lemma {:induction false} AloneFinishes(cfg: Mail.Config, e: Mail.System, at: int)
    requires 0 in e.workers && e.workers[0].ExecuteStarted? && e.provider.behaviors != []
    ensures 0 in EmailRuns.ExecuteAlone(cfg, e, at).workers && EmailRuns.ExecuteAlone(cfg, e, at).workers[0].Finished?
  {
    hide EmailStore.Ensure, EmailStore.CompareAndSet, EmailStore.Get, EmailProvider.Dispatch, Mail.ClaimReport,
         Mail.ClosingReport, Mail.ClosingState,
         Mail.RecipientAllowed;
  }

  /** The email service on a new intent, with no other task in between. */
  ghost function Mailed(setting: Setting, s: State, at: int): (mailed: State)
    requires 0 in s.requests && 0 in s.email.workers && s.email.workers[0].ExecuteStarted?
    requires s.email.provider.behaviors != []
    ensures mailed.requests == s.requests && 0 in mailed.email.workers && mailed.email.workers[0].Finished?
  {
    AloneFinishes(MailConfig(setting), s.email, at);
    var email := EmailRuns.ExecuteAlone(MailConfig(setting), s.email, at);
    s.(email := email,
       dispatched := if |email.provider.dispatchCalls| > |s.email.provider.dispatchCalls|
                     then s.dispatched + [s.email.workers[0].request.intentId] else s.dispatched)
  }

  /** `ProtectedEmailBoundary.execute` up to the authorization. */
  function CommitAlone(setting: Setting, s: State, now: int, intentId: Uuid): (authorized: State)
    requires 0 in s.requests && s.requests[0].Permitted?
    ensures 0 in authorized.requests && (authorized.requests[0].Ended? || authorized.requests[0].Sending?)
    ensures authorized.requests[0].Sending? ==>
              0 in authorized.email.workers && authorized.email.workers[0].ExecuteStarted?
              && authorized.email.provider == s.email.provider
  {
    var seen := CommitSee(s, 0);
    if Over(seen) then seen
    else
      var read := CommitRead(seen, 0);
      if Over(read) then read else Authorize(setting, read, 0, now, intentId)
  }

  /** The email service, and the record of its outcome. */
  ghost function SendAlone(setting: Setting, s: State, now: int): State
    requires 0 in s.requests && s.requests[0].Sending?
    requires 0 in s.email.workers && s.email.workers[0].ExecuteStarted? && s.email.provider.behaviors != []
  {
    var returned := Returned(Mailed(setting, s, now), 0);
    if Over(returned) then returned else Record(setting, returned, 0, now)
  }

  ghost function ExecuteAlone(setting: Setting, s: State, listing: seq<IntegrationRecord>, now: int,
                              intentId: Uuid): State
    requires 0 in s.requests && s.requests[0].Listed? && s.requests[0].command.ExecuteCommand?
    requires s.email.provider.behaviors != []
  {
    var found := Find(s, listing);
    if Over(found) then found
    else
      var authorized := CommitAlone(setting, found, now, intentId);
      if Over(authorized) then authorized else SendAlone(setting, authorized, now)
  }

  // ----- The service -----

  /** The system one command sees: `rest` holds what the command does not touch. */
  ghost function Alone(rest: State, b: B.BrokerState, records: Records, r: Request): State {
    rest.(broker := b, records := records, requests := map[0 := r])
  }

  lemma ChooseShape(runId: Uuid, snapshot: seq<IntegrationRecord>, version: B.ProposalVersion)
    ensures Choose(runId, snapshot, version).Ended? || Choose(runId, snapshot, version).Permitted?
    ensures Choose(runId, snapshot, version).runId == runId
  {}

  lemma RefusedEdit(env: B.Env, b: B.BrokerState, id: Uuid, content: B.Content)
    ensures B.EditProposal(env, b, id, content).0.Err? ==> B.EditProposal(env, b, id, content).1 == b
  {}

  lemma RefusedIssue(env: B.Env, b: B.BrokerState, a: B.Approval, permitId: Uuid, nonce: Uuid)
    ensures B.IssuePermit(env, b, a, permitId, nonce).0.Err? ==> B.IssuePermit(env, b, a, permitId, nonce).1 == b
  {}

  lemma Turn(rest: State, b: B.BrokerState, records: Records, r: Request, next: Request)
    ensures With(Alone(rest, b, records, r), 0, next) == Alone(rest, b, records, next)
  {
    assert map[0 := r][0 := next] == map[0 := next];
  }

  /** The broker or the repository changed as well. */
  lemma TurnWith(rest: State, b: B.BrokerState, records: Records, b': B.BrokerState, records': Records, r: Request,
                 next: Request)
    ensures With(Alone(rest, b, records, r).(broker := b', records := records'), 0, next)
         == Alone(rest, b', records', next)
  {
    assert map[0 := r][0 := next] == map[0 := next];
  }

  class IntegrationService {
    const setting: Setting
    const broker: BrokerRuns.ApprovalBroker
    const repository: InMemoryIntegrationRepository
    const mail: EmailRuns.EmailExecutionService

    constructor (setting: Setting, broker: BrokerRuns.ApprovalBroker, repository: InMemoryIntegrationRepository,
                 mail: EmailRuns.EmailExecutionService)
      ensures this.setting == setting && this.broker == broker && this.repository == repository && this.mail == mail
    {
      this.setting, this.broker, this.repository, this.mail := setting, broker, repository, mail;
    }

    ghost predicate Valid()
      reads this, broker, repository
    {
      broker.env == setting.env && broker.Valid() && repository.Valid()
    }

    ghost function View(rest: State, r: Request): State
      reads broker, repository
    {
      Alone(rest, broker.View(), repository.records, r)
    }

    /** `_proposal`, and what the command concludes from it. */
    method FindProposal(start: Request, listing: seq<IntegrationRecord>, ghost rest: State) returns (next: Request)
      requires Valid() && start.Listed?
      ensures View(rest, next) == Find(View(rest, start), listing)
      ensures next.Ended? || next.Editing? || next.Deciding? || next.Permitted?
      ensures next.runId == start.runId
    {
      hide With, BrokerRuns.ApprovalBroker.Valid, LastProposal, Choose, B.GetProposal, B.GetVersion;
      ghost var b, records := broker.View(), repository.records;
      var runId, command := start.runId, start.command;
      var id := LastProposal(listing);
      if id.None? {
        next := Ended(runId, Err(ProposalNotFound));
        Turn(rest, b, records, start, next);
        return;
      }
      ghost var located := Located(runId, command, start.snapshot, id.value);
      Turn(rest, b, records, start, located);
      var proposal := broker.ReadProposal(id.value);
      if proposal.Err? {
        next := Ended(runId, Err(BrokerRefused(proposal.error)));
        Turn(rest, b, records, located, next);
        return;
      }
      ghost var seen := Seen(runId, command, start.snapshot, proposal.value);
      Turn(rest, b, records, located, seen);
      next := ReadVersion(start, proposal.value, rest);
    }

    method ReadVersion(start: Request, proposal: B.Proposal, ghost rest: State) returns (next: Request)
      requires Valid() && start.Listed?
      ensures View(rest, next) == Read(View(rest, Seen(start.runId, start.command, start.snapshot, proposal)), 0)
      ensures next.Ended? || next.Editing? || next.Deciding? || next.Permitted?
      ensures next.runId == start.runId
    {
      hide With, BrokerRuns.ApprovalBroker.Valid, Choose, B.GetVersion;
      var runId := start.runId;
      var version := broker.ReadVersion(proposal.id, proposal.currentVersion);
      if version.Err? {
        next := Ended(runId, Err(BrokerRefused(version.error)));
      } else {
        ChooseShape(runId, start.snapshot, version.value);
        next := match start.command
          case EditCommand(payload) => Editing(runId, payload, version.value)
          case DecideCommand(decision, approverId) => Deciding(runId, decision, approverId, version.value)
          case ExecuteCommand => Choose(runId, start.snapshot, version.value);
      }
      Turn(rest, broker.View(), repository.records, Seen(runId, start.command, start.snapshot, proposal), next);
    }

    /** `records.put` of the command's last record. */
    method PutFinal(r: Request, at: int, ghost rest: State) returns (result: Result<(), Refusal>)
      requires Valid() && (r.EditDone? || r.Decided? || r.Sent? || r.Prepared?)
      modifies repository
      ensures Valid() && broker.View() == old(broker.View())
      ensures View(rest, Ended(r.runId, result)) == Record(setting, old(View(rest, r)), 0, at)
    {
      hide With, BrokerRuns.ApprovalBroker.Valid, FinalRecord;
      ghost var b, records := broker.View(), repository.records;
      var stored := repository.PutRecord(FinalRecord(setting, r, at));
      result := match stored case Ok(_) => Ok(()) case Err(error) => Err(RecordRefused(error));
      if stored.Ok? {
        assert Alone(rest, b, records, r).(broker := b, records := repository.records)
             == Alone(rest, b, records, r).(records := repository.records);
        TurnWith(rest, b, records, b, repository.records, r, Ended(r.runId, result));
      } else {
        Turn(rest, b, records, r, Ended(r.runId, result));
      }
    }

    /** `proposal_broker.edit_proposal`, keeping the attachments of the version that was read. */
    method ApplyEdit(r: Request, ghost rest: State) returns (next: Request)
      requires Valid() && r.Editing?
      modifies broker
      ensures Valid() && repository.records == old(repository.records)
      ensures View(rest, next) == Edit(setting, old(View(rest, r)), 0)
      ensures (next.Ended? || next.EditDone?) && next.runId == r.runId
    {
      hide With, BrokerRuns.ApprovalBroker.Valid, B.EditProposal, B.BrokerGrows;
      ghost var b, records := broker.View(), repository.records;
      var edited :=
        broker.Edit(r.version.proposalId, B.Content(r.payload, r.version.attachmentIds, r.version.attachmentSha));
      if edited.Err? {
        next := Ended(r.runId, Err(BrokerRefused(edited.error)));
        RefusedEdit(setting.env, b, r.version.proposalId,
                    B.Content(r.payload, r.version.attachmentIds, r.version.attachmentSha));
        Turn(rest, b, records, r, next);
      } else {
        next := EditDone(r.runId, edited.value.0);
        assert Alone(rest, b, records, r).(broker := broker.View(), records := records)
             == Alone(rest, b, records, r).(broker := broker.View());
        TurnWith(rest, b, records, broker.View(), records, r, next);
      }
    }

    method EditProposal(runId: Uuid, payload: CanonicalJson.PyValue, at: int, ghost rest: State)
        returns (result: Result<(), Refusal>, ghost listing: seq<IntegrationRecord>)
      requires Valid()
      modifies broker, repository
      ensures Valid() && IsListing(old(repository.records), runId, listing)
      ensures View(rest, Ended(runId, result))
           == EditAlone(setting, old(View(rest, Listed(runId, EditCommand(payload), listing))), listing, at)
    {
      hide With, BrokerRuns.ApprovalBroker.Valid, Find, Edit, Record, IsListing;
      var records := repository.List(runId);
      listing := records;
      var start := Listed(runId, EditCommand(payload), records);
      ghost var before := View(rest, start);
      var found := FindProposal(start, records, rest);
      if found.Ended? { return found.result, listing; }
      assert found.Editing?;
      var edited := ApplyEdit(found, rest);
      if edited.Ended? { return edited.result, listing; }
      result := PutFinal(edited, at, rest);
    }

    /** The recorded decisions, and the permit of an approval. */
    method ApplyDecision(r: Request, listing: seq<IntegrationRecord>, ghost rest: State) returns (next: Request)
      requires Valid() && r.Deciding?
      ensures View(rest, next) == Check(View(rest, r), 0, listing)
      ensures (next.Ended? || next.Approving? || next.Decided?) && next.runId == r.runId
    {
      hide With, BrokerRuns.ApprovalBroker.Valid, LastDecision;
      var previous := LastDecision(listing, r.version.proposalId, r.version.version);
      if previous.Some? {
        next := Ended(r.runId, if previous.value.payload.decision == r.decision then Ok(()) else Err(AlreadyDecided));
      } else if r.decision.Approve? {
        next := Approving(r.runId, r.approverId, r.version);
      } else {
        next := Decided(r.runId, r.decision, r.approverId, r.version, None);
      }
      Turn(rest, broker.View(), repository.records, r, next);
    }

    method ApplyApproval(r: Request, decisionId: Uuid, permitId: Uuid, nonce: Uuid, now: int, ghost rest: State)
        returns (next: Request)
      requires Valid() && r.Approving? && permitId !in broker.permits
      modifies broker
      ensures Valid() && repository.records == old(repository.records)
      ensures View(rest, next) == Issue(setting, old(View(rest, r)), 0, decisionId, permitId, nonce, now)
      ensures (next.Ended? || next.Decided?) && next.runId == r.runId
    {
      hide With, BrokerRuns.ApprovalBroker.Valid, B.IssuePermit, B.BrokerGrows, ApprovalOf;
      ghost var b, records := broker.View(), repository.records;
      var issued := broker.Issue(ApprovalOf(setting, r, decisionId, now), permitId, nonce);
      if issued.Err? {
        next := Ended(r.runId, Err(BrokerRefused(issued.error)));
        RefusedIssue(setting.env, b, ApprovalOf(setting, r, decisionId, now), permitId, nonce);
        Turn(rest, b, records, r, next);
      } else {
        next := Decided(r.runId, Approve, r.approverId, r.version, Some(permitId));
        assert Alone(rest, b, records, r).(broker := broker.View(), records := records)
             == Alone(rest, b, records, r).(broker := broker.View());
        TurnWith(rest, b, records, broker.View(), records, r, next);
      }
    }

    method DecideProposal(runId: Uuid, decision: Decision, approverId: Uuid, decisionId: Uuid, permitId: Uuid,
                          nonce: Uuid, now: int, ghost rest: State)
        returns (result: Result<(), Refusal>, ghost listing: seq<IntegrationRecord>)
      requires Valid() && permitId !in broker.permits
      modifies broker, repository
      ensures Valid() && IsListing(old(repository.records), runId, listing)
      ensures View(rest, Ended(runId, result))
           == DecideAlone(setting, old(View(rest, Listed(runId, DecideCommand(decision, approverId), listing))),
                          listing, decisionId, permitId, nonce, now)
    {
      hide With, BrokerRuns.ApprovalBroker.Valid, Find, Check, Issue, Record, IsListing;
      var records := repository.List(runId);
      listing := records;
      var start := Listed(runId, DecideCommand(decision, approverId), records);
      var found := FindProposal(start, records, rest);
      if found.Ended? { return found.result, listing; }
      assert found.Deciding?;
      var next := ApplyDecision(found, records, rest);
      if next.Approving? { next := ApplyApproval(next, decisionId, permitId, nonce, now, rest); }
      if next.Ended? { return next.result, listing; }
      result := PutFinal(next, now, rest);
    }

    // ----- Executing an approved email -----

    ghost predicate MailReady(rest: State)
      reads this, mail.store, mail.provider
    {
      && mail.store.Valid() && mail.store.hashing == setting.hashing && mail.normalize == setting.normalize
      && mail.provider.behaviors != []
      && rest.email.records == mail.store.records && rest.email.provider == mail.provider.View()
    }

    /** `ProtectedEmailBoundary.execute` up to the authorization and the request built from it. `rest'`
        also holds the new intent, its request and its worker. */
    method Commit(r: Request, now: int, intentId: Uuid, ghost rest: State)
        returns (next: Request, request: Option<EmailStore.DispatchRequest>, ghost rest': State)
      requires Valid() && r.Permitted?
      modifies broker
      ensures Valid() && repository.records == old(repository.records)
      ensures View(rest', next) == CommitAlone(setting, old(View(rest, r)), now, intentId)
      ensures (next.Ended? || next.Sending?) && next.runId == r.runId
      ensures next.Sending? ==>
                request.Some?
                && rest'.email
                   == rest.email.(workers := rest.email.workers[
                        0 := Mail.ExecuteStarted(request.value, setting.controlledRecipient)])
      ensures next.Ended? ==> rest'.email == rest.email
    {
      hide With, BrokerRuns.ApprovalBroker.Valid, B.AuthorizeAndConsume, B.BrokerGrows, B.GetVersion, B.GetProposal,
           BuildRequest, ControlledPolicy,
           CommitContextOf;
      ghost var b, records := broker.View(), repository.records;
      rest', request := rest, None;
      var proposal := broker.ReadProposal(r.version.proposalId);
      if proposal.Err? {
        next := Ended(r.runId, Err(BrokerRefused(proposal.error)));
        Turn(rest, b, records, r, next);
        return;
      }
      ghost var seen := CommitSeen(r.runId, r.version, r.permitId, proposal.value);
      Turn(rest, b, records, r, seen);
      var current := broker.ReadVersion(proposal.value.id, proposal.value.currentVersion);
      if current.Err? {
        next := Ended(r.runId, Err(BrokerRefused(current.error)));
        Turn(rest, b, records, seen, next);
        return;
      }
      var committing := Committing(r.runId, r.version, r.permitId, current.value);
      Turn(rest, b, records, seen, committing);
      next, request, rest' := AuthorizeCommit(committing, now, intentId, rest);
    }

    /** `authorize_and_consume`, and the start of the email service. */
    method AuthorizeCommit(r: Request, now: int, intentId: Uuid, ghost rest: State)
        returns (next: Request, request: Option<EmailStore.DispatchRequest>, ghost rest': State)
      requires Valid() && r.Committing?
      modifies broker
      ensures Valid() && repository.records == old(repository.records)
      ensures View(rest', next) == Requests.Authorize(setting, old(View(rest, r)), 0, now, intentId)
      ensures (next.Ended? || next.Sending?) && next.runId == r.runId
      ensures next.Sending? ==>
                request.Some?
                && rest'.email
                   == rest.email.(workers := rest.email.workers[
                        0 := Mail.ExecuteStarted(request.value, setting.controlledRecipient)])
      ensures next.Ended? ==> rest'.email == rest.email
    {
      hide BrokerRuns.ApprovalBroker.Valid, B.AuthorizeAndConsume, B.BrokerGrows, BuildRequest, ControlledPolicy,
           CommitContextOf;
      ghost var b, records := broker.View(), repository.records;
      rest', request := rest, None;
      var policy, context := ControlledPolicy(setting, r.runId), CommitContextOf(setting, r.runId, r.current);
      var authorized := broker.Authorize(r.permitId, policy, context, now, intentId);
      RefusedAuthorize(setting.env, b, r.permitId, policy, context, now, intentId);
      if authorized.Err? {
        next := Ended(r.runId, Err(BrokerRefused(authorized.error)));
      } else {
        var built := BuildRequest(setting.env, setting.normalize, setting.sender, authorized.value);
        rest' := rest.(intents := rest.intents[intentId := authorized.value]);
        if built.Err? {
          next := Ended(r.runId, Err(RequestRefused(built.error)));
        } else {
          request := Some(built.value);
          rest' := rest'.(book := rest.book[intentId := built.value],
                          email := rest.email.(workers := rest.email.workers[
                            0 := Mail.ExecuteStarted(built.value, setting.controlledRecipient)]));
          next := Sending(r.runId, r.version, r.permitId);
        }
      }
      assert map[0 := r][0 := next] == map[0 := next];
    }

    /** The email service. `rest'` holds its new records, provider and log of dispatches. */
    method SendMail(r: Request, request: EmailStore.DispatchRequest, now: int, ghost rest: State)
        returns (next: Request, ghost rest': State)
      requires Valid() && MailReady(rest) && r.Sending?
      requires rest.email.workers == map[0 := Mail.ExecuteStarted(request, setting.controlledRecipient)]
      modifies mail.store, mail.provider
      ensures Valid() && broker.View() == old(broker.View()) && repository.records == old(repository.records)
      ensures old(mail.provider.behaviors) != []
      ensures View(rest', next) == Returned(Mailed(setting, old(View(rest, r)), now), 0)
      ensures (next.Ended? || next.Sent?) && next.runId == r.runId
    {
      hide With, BrokerRuns.ApprovalBroker.Valid, EmailRuns.ExecuteAlone, EmailStore.AllAudited, Mailed;
      ghost var before := View(rest, r);
      ghost var e := rest.email;
      var sent := mail.Execute(request, setting.controlledRecipient, now);
      assert mail.Cfg() == MailConfig(setting);
      ghost var e' := Mail.System(mail.store.records, mail.provider.View(), map[0 := Mail.Finished(request, sent)]);
      MailedIs(setting, before, now, e');
      rest' := rest.(email := e',
                     dispatched := if |e'.provider.dispatchCalls| > |e.provider.dispatchCalls|
                                   then rest.dispatched + [request.intentId]
                                   else rest.dispatched);
      next := match sent
        case Err(error) => Ended(r.runId, Err(EmailFailed(error)))
        case Ok(record) => Sent(r.runId, r.version, r.permitId, record.state);
      Turn(rest', broker.View(), repository.records, r, next);
    }

    /** The email service, and the record of its outcome. */
    method Send(r: Request, request: EmailStore.DispatchRequest, now: int, ghost rest: State)
        returns (result: Result<(), Refusal>, ghost rest': State)
      requires Valid() && MailReady(rest) && r.Sending?
      requires rest.email.workers == map[0 := Mail.ExecuteStarted(request, setting.controlledRecipient)]
      modifies mail.store, mail.provider, repository
      ensures Valid() && broker.View() == old(broker.View()) && old(mail.provider.behaviors) != []
      ensures View(rest', Ended(r.runId, result)) == SendAlone(setting, old(View(rest, r)), now)
    {
      hide With, BrokerRuns.ApprovalBroker.Valid, Mailed, Returned, Record, EmailStore.AllAudited;
      var next;
      next, rest' := SendMail(r, request, now, rest);
      if next.Ended? { result := next.result; return; }
      result := PutFinal(next, now, rest');
    }

    method ExecuteApprovedEmail(runId: Uuid, now: int, intentId: Uuid, ghost rest: State)
        returns (result: Result<(), Refusal>, ghost listing: seq<IntegrationRecord>, ghost rest': State)
      requires Valid() && MailReady(rest) && rest.email.workers == map[]
      modifies broker, repository, mail.store, mail.provider
      ensures Valid() && IsListing(old(repository.records), runId, listing) && old(mail.provider.behaviors) != []
      ensures View(rest', Ended(runId, result))
           == ExecuteAlone(setting, old(View(rest, Listed(runId, ExecuteCommand, listing))), listing, now, intentId)
    {
      hide With, BrokerRuns.ApprovalBroker.Valid, Find, CommitAlone, SendAlone, IsListing, EmailStore.AllAudited;
      rest' := rest;
      var records := repository.List(runId);
      listing := records;
      var found := FindProposal(Listed(runId, ExecuteCommand, records), records, rest);
      if found.Ended? { result := found.result; return; }
      assert found.Permitted?;
      var next, request;
      next, request, rest' := Commit(found, now, intentId, rest);
      if next.Ended? { result := next.result; return; }
      result, rest' := Send(next, request.value, now, rest');
    }
  }

  lemma {:induction false} MailedIs(setting: Setting, s: State, at: int, e: Mail.System)
    requires 0 in s.requests && 0 in s.email.workers && s.email.workers[0].ExecuteStarted?
    requires s.email.provider.behaviors != []
    requires e == EmailRuns.ExecuteAlone(MailConfig(setting), s.email, at)
    ensures Mailed(setting, s, at)
         == s.(email := e,
               dispatched := if |e.provider.dispatchCalls| > |s.email.provider.dispatchCalls|
                             then s.dispatched + [s.email.workers[0].request.intentId] else s.dispatched)
  {
    hide EmailRuns.ExecuteAlone;
  }

  lemma RefusedAuthorize(env: B.Env, b: B.BrokerState, permitId: Uuid, policy: B.EffectivePolicy,
                         context: B.CommitContext, now: int, intentId: Uuid)
    ensures B.AuthorizeAndConsume(env, b, permitId, policy, context, now, intentId).0.Err? ==>
              B.AuthorizeAndConsume(env, b, permitId, policy, context, now, intentId).1 == b
  {}
}
