/** Nothing happens that nobody asked for: recorded decisions, permits, versions and dispatches go back to
    requests that were received (integration/service.py:471-690). */
module RequestOrigins {
  import opened Wrappers
  import opened Text
  import opened CanonicalJson
  import opened Repository
  import opened EmailRequest
  import opened Requests
  import opened RequestInvariant
  import opened RequestRuns
  import B = Broker
  import Mail = EmailProtocol
  import EmailProvider
  import EmailStore

  // ----- What was received -----

  /** The commands and the prepared contents received so far, with their runs. */
  datatype Inbox = Inbox(commands: set<(Uuid, Command)>, contents: set<(Uuid, B.Content)>)

  ghost function InboxAt(events: seq<Event>): Inbox {
    Inbox(set e | e in events && e.Receive? :: (e.runId, e.command),
          set e | e in events && e.Prepare? :: (e.runId, e.content))
  }

  ghost predicate Within(inbox: Inbox, inbox': Inbox) {
    inbox.commands <= inbox'.commands && inbox.contents <= inbox'.contents
  }

  // ----- What goes back to it -----

  /** An approval issued a permit to its approver; a rejection issued none. */
  predicate IssuedFor(b: B.BrokerState, decision: Decision, approverId: Uuid, issued: Option<Uuid>) {
    match decision
    case Approve => issued.Some? && issued.value in b.permits && b.permits[issued.value].approverId == approverId
    case Reject => issued.None?
  }

  ghost predicate RequestFrom(inbox: Inbox, b: B.BrokerState, r: Request) {
    match r
    case Received(runId, command) => (runId, command) in inbox.commands
    case Listed(runId, command, _) => (runId, command) in inbox.commands
    case Located(runId, command, _, _) => (runId, command) in inbox.commands
    case Seen(runId, command, _, _) => (runId, command) in inbox.commands
    case Editing(runId, payload, v) => (runId, EditCommand(payload)) in inbox.commands && VersionKnown(b, v)
    case Deciding(runId, decision, approverId, _) => (runId, DecideCommand(decision, approverId)) in inbox.commands
    case Approving(runId, approverId, _) => (runId, DecideCommand(Approve, approverId)) in inbox.commands
    case Decided(runId, decision, approverId, _, issued) =>
      (runId, DecideCommand(decision, approverId)) in inbox.commands && IssuedFor(b, decision, approverId, issued)
    case Permitted(runId, _, _) => (runId, ExecuteCommand) in inbox.commands
    case CommitSeen(runId, _, _, _) => (runId, ExecuteCommand) in inbox.commands
    case Committing(runId, _, _, _) => (runId, ExecuteCommand) in inbox.commands
    case Sending(runId, _, _) => (runId, ExecuteCommand) in inbox.commands
    case Sent(runId, _, _, _) => (runId, ExecuteCommand) in inbox.commands
    case Preparing(runId, content) => (runId, content) in inbox.contents
    case _ => true
  }

  ghost predicate EntryFrom(inbox: Inbox, b: B.BrokerState, record: IntegrationRecord) {
    match record.payload
    case DecisionEntry(_, _, decision, approverId, permitId, _) =>
      && (record.runId, DecideCommand(decision, approverId)) in inbox.commands
      && IssuedFor(b, decision, approverId, permitId)
    case ExecutionEntry(_, _, _, _) => (record.runId, ExecuteCommand) in inbox.commands
    case _ => true
  }

  /** An approval of the proposal's run by the permit's approver; the permit lasts fifteen minutes. */
  ghost predicate PermitFrom(inbox: Inbox, b: B.BrokerState, permit: B.Permit) {
    && permit.proposalId in b.proposals
    && (b.proposals[permit.proposalId].proposal.runId, DecideCommand(Approve, permit.approverId)) in inbox.commands
    && permit.expiresAt == permit.approvedAt + 900
  }

  /** The first version has the content that was prepared, every later one a payload that was submitted as
      an edit; the attachments stay those of the first. */
  ghost predicate VersionFrom(inbox: Inbox, record: B.ProposalRecord, v: nat)
    requires v in record.versions
  {
    var version, runId := record.versions[v], record.proposal.runId;
    if v == 1 then
      exists content: B.Content :: (runId, content) in inbox.contents
                                   && Canonical(content.payload) == Ok(version.canonicalPayload)
                                   && version.attachmentSha == content.attachmentSha
    else
      && (exists payload :: (runId, EditCommand(payload)) in inbox.commands
                            && Canonical(payload) == Ok(version.canonicalPayload))
      && 1 in record.versions && version.attachmentSha == record.versions[1].attachmentSha
  }

  ghost predicate ProposalFrom(inbox: Inbox, record: B.ProposalRecord) {
    forall v :: v in record.versions ==> VersionFrom(inbox, record, v)
  }

  /** The run of the dispatched proposal was asked to execute. */
  ghost predicate IntentFrom(inbox: Inbox, b: B.BrokerState, action: B.AuthorizedAction) {
    && action.intent.proposalId in b.proposals
    && (b.proposals[action.intent.proposalId].proposal.runId, ExecuteCommand) in inbox.commands
  }

  ghost predicate RequestsFrom(inbox: Inbox, s: State) {
    forall w :: w in s.requests ==> RequestFrom(inbox, s.broker, s.requests[w])
  }

  ghost predicate EntriesFrom(inbox: Inbox, s: State) {
    forall key :: key in s.records ==> EntryFrom(inbox, s.broker, s.records[key])
  }

  ghost predicate PermitsFrom(inbox: Inbox, b: B.BrokerState) {
    forall p :: p in b.permits ==> PermitFrom(inbox, b, b.permits[p])
  }

  ghost predicate ProposalsFrom(inbox: Inbox, b: B.BrokerState) {
    forall id :: id in b.proposals ==> ProposalFrom(inbox, b.proposals[id])
  }

  ghost predicate IntentsFrom(inbox: Inbox, s: State) {
    forall id :: id in s.intents ==> IntentFrom(inbox, s.broker, s.intents[id])
  }

  ghost predicate Origins(inbox: Inbox, s: State) {
    && RequestsFrom(inbox, s) && EntriesFrom(inbox, s) && PermitsFrom(inbox, s.broker) && ProposalsFrom(inbox, s.broker)
    && IntentsFrom(inbox, s)
  }

  // ----- Growing inboxes and brokers -----

  lemma {:induction false} OriginsWiden(inbox: Inbox, inbox': Inbox, s: State)
    requires Origins(inbox, s) && Within(inbox, inbox')
    ensures Origins(inbox', s)
  {
    forall w | w in s.requests ensures RequestFrom(inbox', s.broker, s.requests[w]) {
      assert RequestFrom(inbox, s.broker, s.requests[w]);
    }
    forall key | key in s.records ensures EntryFrom(inbox', s.broker, s.records[key]) {
      assert EntryFrom(inbox, s.broker, s.records[key]);
    }
    forall id | id in s.broker.proposals ensures ProposalFrom(inbox', s.broker.proposals[id]) {
      assert ProposalFrom(inbox, s.broker.proposals[id]);
      forall v | v in s.broker.proposals[id].versions ensures VersionFrom(inbox', s.broker.proposals[id], v) {
        assert VersionFrom(inbox, s.broker.proposals[id], v);
      }
    }
  }

  lemma {:induction false} IssuedKept(b: B.BrokerState, b': B.BrokerState, decision: Decision, approverId: Uuid,
                                      issued: Option<Uuid>)
    requires IssuedFor(b, decision, approverId, issued) && B.BrokerGrows(b, b')
    ensures IssuedFor(b', decision, approverId, issued)
  {
    if decision.Approve? { assert B.SamePermit(b.permits[issued.value], b'.permits[issued.value]); }
  }

  lemma {:induction false} RequestFromKept(inbox: Inbox, b: B.BrokerState, b': B.BrokerState, r: Request)
    requires RequestFrom(inbox, b, r) && B.BrokerGrows(b, b')
    ensures RequestFrom(inbox, b', r)
  {
    hide B.BrokerGrows, IssuedFor, VersionKnown;
    if r.Decided? { IssuedKept(b, b', r.decision, r.approverId, r.issued); }
    else if r.Editing? { VersionKept(b, b', r.version); }
  }

  lemma {:induction false} EntryFromKept(inbox: Inbox, b: B.BrokerState, b': B.BrokerState, record: IntegrationRecord)
    requires EntryFrom(inbox, b, record) && B.BrokerGrows(b, b')
    ensures EntryFrom(inbox, b', record)
  {
    hide B.BrokerGrows, IssuedFor;
    if record.payload.DecisionEntry? {
      IssuedKept(b, b', record.payload.decision, record.payload.approverId, record.payload.permitId);
    }
  }

  lemma {:induction false} PermitFromKept(inbox: Inbox, b: B.BrokerState, b': B.BrokerState, p: Uuid)
    requires p in b.permits && PermitFrom(inbox, b, b.permits[p]) && B.BrokerGrows(b, b')
    ensures p in b'.permits && PermitFrom(inbox, b', b'.permits[p])
  {
    assert B.SamePermit(b.permits[p], b'.permits[p]);
    assert B.Grows(b.proposals[b.permits[p].proposalId], b'.proposals[b.permits[p].proposalId]);
  }

  lemma {:induction false} IntentFromKept(inbox: Inbox, b: B.BrokerState, b': B.BrokerState, action: B.AuthorizedAction)
    requires IntentFrom(inbox, b, action) && B.BrokerGrows(b, b')
    ensures IntentFrom(inbox, b', action)
  {
    assert B.Grows(b.proposals[action.intent.proposalId], b'.proposals[action.intent.proposalId]);
  }

  // ----- Shapes of steps -----

  /** The broker grows by what was asked for. */
  ghost predicate BrokerFrom(inbox: Inbox, b: B.BrokerState, b': B.BrokerState) {
    && B.BrokerGrows(b, b')
    && (forall p :: p in b'.permits && p !in b.permits ==> PermitFrom(inbox, b', b'.permits[p]))
    && (forall id :: id in b'.proposals ==>
          ProposalFrom(inbox, b'.proposals[id])
          || (id in b.proposals && b'.proposals[id].versions == b.proposals[id].versions))
  }

  lemma {:induction false} BrokerOrigins(inbox: Inbox, b: B.BrokerState, b': B.BrokerState)
    requires PermitsFrom(inbox, b) && ProposalsFrom(inbox, b) && BrokerFrom(inbox, b, b')
    ensures PermitsFrom(inbox, b') && ProposalsFrom(inbox, b')
  {
    hide VersionFrom, PermitFrom;
    forall p | p in b'.permits ensures PermitFrom(inbox, b', b'.permits[p]) {
      if p in b.permits { PermitFromKept(inbox, b, b', p); }
    }
    forall id | id in b'.proposals ensures ProposalFrom(inbox, b'.proposals[id]) {
      if !ProposalFrom(inbox, b'.proposals[id]) { SameVersionsFrom(inbox, b.proposals[id], b'.proposals[id]); }
    }
  }

  lemma {:induction false} SameVersionsFrom(inbox: Inbox, record: B.ProposalRecord, record': B.ProposalRecord)
    requires ProposalFrom(inbox, record) && B.Grows(record, record') && record'.versions == record.versions
    ensures ProposalFrom(inbox, record')
  {
    forall v | v in record'.versions ensures VersionFrom(inbox, record', v) {
      assert VersionFrom(inbox, record, v);
    }
  }

  /** A step that replaces one request, lets the broker grow and may add records. */
  lemma {:induction false} OriginsStep(inbox: Inbox, s: State, b: B.BrokerState, records: Records, w: nat, r: Request)
    requires Origins(inbox, s) && BrokerFrom(inbox, s.broker, b) && RequestFrom(inbox, b, r)
    requires forall key :: key in records ==>
               (key in s.records && records[key] == s.records[key]) || EntryFrom(inbox, b, records[key])
    ensures Origins(inbox, With(s.(broker := b, records := records), w, r))
  {
    var s' := With(s.(broker := b, records := records), w, r);
    BrokerOrigins(inbox, s.broker, b);
    hide PermitsFrom, ProposalsFrom, RequestFrom, EntryFrom, IntentFrom, B.BrokerGrows, PermitFrom, ProposalFrom;
    forall v | v in s'.requests ensures RequestFrom(inbox, b, s'.requests[v]) {
      if v != w { RequestFromKept(inbox, s.broker, b, s.requests[v]); }
    }
    forall key | key in records ensures EntryFrom(inbox, b, records[key]) {
      if key in s.records && records[key] == s.records[key] { EntryFromKept(inbox, s.broker, b, records[key]); }
    }
    forall id | id in s.intents ensures IntentFrom(inbox, b, s.intents[id]) {
      IntentFromKept(inbox, s.broker, b, s.intents[id]);
    }
  }

  lemma {:induction false} SameBroker(inbox: Inbox, b: B.BrokerState)
    ensures ProposalsFrom(inbox, b) ==> BrokerFrom(inbox, b, b)
  {
    B.BrokerGrowsReflexive(b);
    hide B.BrokerGrows, PermitFrom, ProposalFrom;
  }

  /** A step that only replaces one request. */
  lemma {:induction false} OriginsWith(inbox: Inbox, s: State, w: nat, r: Request)
    requires Origins(inbox, s) && RequestFrom(inbox, s.broker, r)
    ensures Origins(inbox, With(s, w, r))
  {
    hide RequestFrom, EntryFrom, RequestsFrom, EntriesFrom, PermitsFrom, ProposalsFrom, IntentsFrom;
    SameBroker(inbox, s.broker);
    assert s.(broker := s.broker, records := s.records) == s;
    OriginsStep(inbox, s, s.broker, s.records, w, r);
  }

  // ----- Reading -----

  ghost predicate Asks(inbox: Inbox, s: State, w: nat, s': State) {
    w in s'.requests && s' == With(s, w, s'.requests[w]) && RequestFrom(inbox, s.broker, s'.requests[w])
  }

  /** What a request does by reading stays within what was received. */
  lemma {:induction false} ReadsFrom(inbox: Inbox, s: State, w: nat)
    requires w in s.requests && RequestFrom(inbox, s.broker, s.requests[w])
    ensures s.requests[w].Located? ==> Asks(inbox, s, w, See(s, w))
    ensures s.requests[w].Permitted? ==> Asks(inbox, s, w, CommitSee(s, w))
    ensures s.requests[w].CommitSeen? ==> Asks(inbox, s, w, CommitRead(s, w))
  {
    hide B.GetProposal, B.GetVersion;
  }

  lemma {:induction false} ListingsFrom(inbox: Inbox, s: State, w: nat, listing: seq<IntegrationRecord>)
    requires w in s.requests && RequestFrom(inbox, s.broker, s.requests[w])
    ensures s.requests[w].Listed? ==> Asks(inbox, s, w, Locate(s, w, listing))
    ensures s.requests[w].Deciding? ==> Asks(inbox, s, w, Check(s, w, listing))
  {
    hide LastProposal, LastDecision;
  }

  /** What follows the read of the current version. */
  lemma {:induction false} ReadShape(s: State, w: nat)
    requires w in s.requests && s.requests[w].Seen?
    ensures var r := s.requests[w];
            var found := B.GetVersion(s.broker, r.proposal.id, r.proposal.currentVersion);
            var next := Read(s, w).requests[w];
            && Read(s, w) == With(s, w, next)
            && (next.Ended?
                || (found.Ok? && r.command.EditCommand? && next == Editing(r.runId, r.command.payload, found.value))
                || (found.Ok? && r.command.DecideCommand?
                    && next == Deciding(r.runId, r.command.decision, r.command.approverId, found.value))
                || (r.command.ExecuteCommand? && next.Permitted? && next.runId == r.runId))
  {
    hide B.GetVersion, LastDecision, Executed;
  }

  lemma {:induction false} ReadVersionFrom(inbox: Inbox, setting: Setting, s: State, w: nat)
    requires Inv(setting, s) && w in s.requests && s.requests[w].Seen? && RequestFrom(inbox, s.broker, s.requests[w])
    ensures Asks(inbox, s, w, Read(s, w))
  {
    hide Inv, B.GetVersion, Read, VersionKnown, RequestOk, B.BrokerInv;
    var r := s.requests[w];
    RequestIs(setting, s, w);
    ReadShape(s, w);
    if B.GetVersion(s.broker, r.proposal.id, r.proposal.currentVersion).Ok? {
      VersionRead(setting, s, r.proposal.id, r.proposal.currentVersion);
    }
  }

  // ----- Writing -----

  lemma {:induction false} AttachmentsAreFirst(inbox: Inbox, record: B.ProposalRecord, v: nat)
    requires ProposalFrom(inbox, record) && v in record.versions
    ensures 1 in record.versions && record.versions[v].attachmentSha == record.versions[1].attachmentSha
  {
    assert VersionFrom(inbox, record, v);
  }

  lemma {:induction false} EditedFrom(inbox: Inbox, env: B.Env, record: B.ProposalRecord, payload: PyValue,
                                      v: B.ProposalVersion)
    requires ProposalFrom(inbox, record) && (record.proposal.runId, EditCommand(payload)) in inbox.commands
    requires 1 in record.versions && v.version !in record.versions && v.version > 1
    requires Canonical(payload) == Ok(v.canonicalPayload) && v.attachmentSha == record.versions[1].attachmentSha
    ensures ProposalFrom(inbox, B.Edited(record, v))
  {
    var record' := B.Edited(record, v);
    forall n | n in record'.versions ensures VersionFrom(inbox, record', n) {
      if n != v.version { assert VersionFrom(inbox, record, n); }
    }
  }

  /** What a successful edit does to the broker. */
  lemma {:induction false} EditEffect(env: B.Env, b: B.BrokerState, id: Uuid, content: B.Content)
    requires B.BrokerInv(env, b) && B.EditProposal(env, b, id, content).0.Ok?
    ensures id in b.proposals
    ensures var (edited, b') := B.EditProposal(env, b, id, content);
            var v := edited.value.0;
            && b' == b.(proposals := b.proposals[id := B.Edited(b.proposals[id], v)])
            && v.version > 1 && v.version !in b.proposals[id].versions
            && Canonical(content.payload) == Ok(v.canonicalPayload) && v.attachmentSha == content.attachmentSha
  {
    assert B.RecordOk(env, id, b.proposals[id]) by { hide B.RecordOk, B.PermitOk; assert id in b.proposals; }
    hide B.VersionOk, B.PermitOk;
  }

  lemma {:induction false} EditFrom(inbox: Inbox, setting: Setting, s: State, w: nat)
    requires Inv(setting, s) && Origins(inbox, s) && w in s.requests && s.requests[w].Editing?
    ensures Origins(inbox, Edit(setting, s, w))
  {
    hide Inv, B.BrokerInv, B.BrokerGrows, B.EditProposal, B.Edited, Canonical, OwnedBy, ProposalFrom;
    var r := s.requests[w];
    var content := B.Content(r.payload, r.version.attachmentIds, r.version.attachmentSha);
    var id := r.version.proposalId;
    RequestIs(setting, s, w);
    assert RequestFrom(inbox, s.broker, r) && OwnedBy(s.broker, id, r.runId);
    if B.EditProposal(setting.env, s.broker, id, content).0.Ok? {
      var (edited, b) := B.EditProposal(setting.env, s.broker, id, content);
      B.EditKeeps(setting.env, s.broker, id, content);
      EditEffect(setting.env, s.broker, id, content);
      var record := s.broker.proposals[id];
      AttachmentsAreFirst(inbox, record, r.version.version);
      OwnerIs(s.broker, id, r.runId);
      EditedFrom(inbox, setting.env, record, r.payload, edited.value.0);
      hide Origins, RequestFrom, VersionKnown, RequestOk;
      assert s.(broker := b, records := s.records) == s.(broker := b);
      assert BrokerFrom(inbox, s.broker, b) by { hide VersionFrom; OneProposal(inbox, s, b, id); }
      OriginsStep(inbox, s, b, s.records, w, EditDone(r.runId, edited.value.0)) by {
        assert RequestFrom(inbox, b, EditDone(r.runId, edited.value.0)) by {
          NoClaim(inbox, b, EditDone(r.runId, edited.value.0));
        }
      }
    } else {
      EndsFrom(inbox, s, w, Edit(setting, s, w).requests[w]);
    }
  }

  lemma OwnerIs(b: B.BrokerState, id: Uuid, runId: Uuid)
    requires OwnedBy(b, id, runId)
    ensures id in b.proposals && b.proposals[id].proposal.runId == runId
  {}

  /** Requests that carry nothing of what was received. */
  lemma NoClaim(inbox: Inbox, b: B.BrokerState, r: Request)
    requires r.EditDone? || r.Prepared? || r.Ended?
    ensures RequestFrom(inbox, b, r)
  {}

  lemma {:induction false} EndsFrom(inbox: Inbox, s: State, w: nat, r: Request)
    requires Origins(inbox, s) && (r.EditDone? || r.Prepared? || r.Ended?)
    ensures Origins(inbox, With(s, w, r))
  {
    hide Origins;
    NoClaim(inbox, s.broker, r);
    OriginsWith(inbox, s, w, r);
  }

  /** A broker in which one proposal changed, to one that goes back to what was received. */
  lemma {:induction false} OneProposal(inbox: Inbox, s: State, b: B.BrokerState, id: Uuid)
    requires ProposalsFrom(inbox, s.broker) && B.BrokerGrows(s.broker, b) && b.permits == s.broker.permits
    requires id in b.proposals && ProposalFrom(inbox, b.proposals[id])
    requires b.proposals == s.broker.proposals[id := b.proposals[id]]
    ensures BrokerFrom(inbox, s.broker, b)
  {
    hide ProposalFrom, PermitFrom, B.BrokerGrows;
  }

  lemma {:induction false} CreateEffect(env: B.Env, b: B.BrokerState, id: Uuid, runId: Uuid, revisionId: Uuid,
                                        actionType: string, content: B.Content)
    requires B.CreateProposal(env, b, id, runId, revisionId, actionType, content).0.Ok?
    ensures var (created, b') := B.CreateProposal(env, b, id, runId, revisionId, actionType, content);
            && b' == b.(proposals := b.proposals[id := b'.proposals[id]])
            && b'.proposals[id].proposal.runId == runId && b'.proposals[id].versions == map[1 := created.value]
            && Canonical(content.payload) == Ok(created.value.canonicalPayload)
            && created.value.attachmentSha == content.attachmentSha
  {
    hide Canonical;
  }

  lemma {:induction false} CreateFrom(inbox: Inbox, setting: Setting, s: State, w: nat, proposalId: Uuid,
                                      revisionId: Uuid)
    requires Inv(setting, s) && Origins(inbox, s) && w in s.requests && s.requests[w].Preparing?
    requires proposalId !in s.broker.proposals
    ensures Origins(inbox, Create(setting, s, w, proposalId, revisionId))
  {
    hide Inv, B.BrokerInv, B.BrokerGrows, B.CreateProposal, Canonical, RequestOk;
    var r := s.requests[w];
    RequestIs(setting, s, w);
    assert RequestFrom(inbox, s.broker, r);
    var (created, b) :=
      B.CreateProposal(setting.env, s.broker, proposalId, r.runId, revisionId, "email.send", r.content);
    if created.Ok? {
      B.CreateKeeps(setting.env, s.broker, proposalId, r.runId, revisionId, "email.send", r.content);
      CreateEffect(setting.env, s.broker, proposalId, r.runId, revisionId, "email.send", r.content);
      assert ProposalFrom(inbox, b.proposals[proposalId]) by {
        assert VersionFrom(inbox, b.proposals[proposalId], 1);
      }
      hide Origins, RequestFrom, ProposalFrom;
      assert s.(broker := b, records := s.records) == s.(broker := b);
      assert BrokerFrom(inbox, s.broker, b) by { OriginsParts(inbox, s); OneProposal(inbox, s, b, proposalId); }
      NoClaim(inbox, b, Prepared(r.runId, proposalId));
      OriginsStep(inbox, s, b, s.records, w, Prepared(r.runId, proposalId));
    } else {
      EndsFrom(inbox, s, w, Create(setting, s, w, proposalId, revisionId).requests[w]);
    }
  }

  lemma OriginsParts(inbox: Inbox, s: State)
    requires Origins(inbox, s)
    ensures ProposalsFrom(inbox, s.broker) && PermitsFrom(inbox, s.broker)
  {
    hide RequestsFrom, EntriesFrom, IntentsFrom, PermitsFrom, ProposalsFrom;
  }

  lemma {:induction false} IssueEffect(env: B.Env, b: B.BrokerState, a: B.Approval, permitId: Uuid, nonce: Uuid)
    requires B.IssuePermit(env, b, a, permitId, nonce).0.Ok?
    ensures var b' := B.IssuePermit(env, b, a, permitId, nonce).1;
            && a.proposalId in b.proposals && a.proposalId in b'.proposals && permitId in b'.permits
            && b'.permits == b.permits[permitId := b'.permits[permitId]]
            && b'.permits[permitId].proposalId == a.proposalId && b'.permits[permitId].approverId == a.approverId
            && b'.permits[permitId].approvedAt == a.now && b'.permits[permitId].expiresAt == a.now + a.ttl
            && b'.proposals == b.proposals[a.proposalId := b'.proposals[a.proposalId]]
            && b'.proposals[a.proposalId].versions == b.proposals[a.proposalId].versions
            && b'.proposals[a.proposalId].proposal.runId == b.proposals[a.proposalId].proposal.runId
  {
    IssuableKnown(env, b, a);
    hide B.IssueRefusal;
  }

  lemma IssuableKnown(env: B.Env, b: B.BrokerState, a: B.Approval)
    requires B.IssueRefusal(env, b, a).None?
    ensures a.proposalId in b.proposals && a.version in b.proposals[a.proposalId].versions
  {
    hide B.DecisionRefusal, B.PayloadRefusal;
  }

  lemma {:induction false} IssueFrom(inbox: Inbox, setting: Setting, s: State, w: nat, decisionId: Uuid,
                                     permitId: Uuid, nonce: Uuid, now: int)
    requires Inv(setting, s) && Origins(inbox, s) && w in s.requests && s.requests[w].Approving?
    requires permitId !in s.broker.permits
    ensures Origins(inbox, Issue(setting, s, w, decisionId, permitId, nonce, now))
  {
    hide Inv, B.BrokerInv, B.BrokerGrows, B.IssuePermit, OwnedBy, VersionKnown, ControlledPolicy;
    var r := s.requests[w];
    var a := ApprovalOf(setting, r, decisionId, now);
    RequestIs(setting, s, w);
    assert RequestFrom(inbox, s.broker, r);
    if B.IssuePermit(setting.env, s.broker, a, permitId, nonce).0.Ok? {
      var b := B.IssuePermit(setting.env, s.broker, a, permitId, nonce).1;
      B.IssueKeeps(setting.env, s.broker, a, permitId, nonce);
      IssueEffect(setting.env, s.broker, a, permitId, nonce);
      OwnerIs(s.broker, r.version.proposalId, r.runId);
      var next := Decided(r.runId, Approve, r.approverId, r.version, Some(permitId));
      assert RequestFrom(inbox, b, next) && PermitFrom(inbox, b, b.permits[permitId]);
      hide Origins, RequestFrom, PermitFrom, RequestOk;
      assert s.(broker := b, records := s.records) == s.(broker := b);
      assert BrokerFrom(inbox, s.broker, b) by { OriginsParts(inbox, s); hide ProposalFrom; }
      OriginsStep(inbox, s, b, s.records, w, next);
    } else {
      EndsFrom(inbox, s, w, Issue(setting, s, w, decisionId, permitId, nonce, now).requests[w]);
    }
  }

  /** What a successful authorization does to the broker, apart from consuming the permit. */
  lemma {:induction false} AuthorizeChanges(env: B.Env, b: B.BrokerState, permitId: Uuid, policy: B.EffectivePolicy,
                                            context: B.CommitContext, now: int, intentId: Uuid)
    requires B.AuthorizeAndConsume(env, b, permitId, policy, context, now, intentId).0.Ok?
    ensures var (authorized, b') := B.AuthorizeAndConsume(env, b, permitId, policy, context, now, intentId);
            && permitId in b.permits && b.permits[permitId].proposalId in b.proposals
            && b'.permits.Keys == b.permits.Keys && b'.proposals.Keys == b.proposals.Keys
            && (forall id :: id in b.proposals ==> b'.proposals[id].versions == b.proposals[id].versions)
            && authorized.value.intent.proposalId == b.permits[permitId].proposalId
  {
    hide B.AuthorizeRefusal;
    assert b.permits[permitId].proposalId in b.proposals by { AuthorizedKnown(env, b, permitId, policy, context, now); }
  }

  lemma AuthorizedKnown(env: B.Env, b: B.BrokerState, permitId: Uuid, policy: B.EffectivePolicy,
                        context: B.CommitContext, now: int)
    requires B.AuthorizeRefusal(env, b, permitId, policy, context, now).None?
    ensures permitId in b.permits && b.permits[permitId].proposalId in b.proposals
  {
    hide B.CommitRefusal;
  }

  /** The approval that a committing request holds is of a proposal of its own run. */
  lemma {:induction false} CommittingOwns(setting: Setting, s: State, w: nat)
    requires Inv(setting, s) && w in s.requests && s.requests[w].Committing?
    requires s.requests[w].permitId in s.broker.permits
    ensures OwnedBy(s.broker, s.broker.permits[s.requests[w].permitId].proposalId, s.requests[w].runId)
  {
    hide Inv, B.BrokerInv, OwnedBy, DigestOf;
    var r := s.requests[w];
    RequestIs(setting, s, w);
    var key := ApprovalKey(setting, r.runId, r.version.proposalId, r.version.version);
    EntryIs(setting, s, key);
  }

  /** The broker, the run and the next request of a successful authorization. */
  lemma {:induction false} AuthorizedFrom(inbox: Inbox, setting: Setting, s: State, w: nat, now: int, intentId: Uuid)
    requires Inv(setting, s) && Origins(inbox, s) && w in s.requests && s.requests[w].Committing?
    requires AuthorizedBy(setting, s, w, now, intentId).0.Ok?
    ensures BrokerFrom(inbox, s.broker, AuthorizedBy(setting, s, w, now, intentId).1)
    ensures IntentFrom(inbox, AuthorizedBy(setting, s, w, now, intentId).1,
                       AuthorizedBy(setting, s, w, now, intentId).0.value)
  {
    hide Inv, Origins, B.BrokerInv, B.BrokerGrows, B.AuthorizeAndConsume, ControlledPolicy, CommitContextOf, RequestOk;
    var r := s.requests[w];
    RequestIs(setting, s, w);
    RequestIsFrom(inbox, s, w);
    OriginsParts(inbox, s);
    var policy, context := ControlledPolicy(setting, r.runId), CommitContextOf(setting, r.runId, r.current);
    var (authorized, b) := B.AuthorizeAndConsume(setting.env, s.broker, r.permitId, policy, context, now, intentId);
    B.AuthorizeKeeps(setting.env, s.broker, r.permitId, policy, context, now, intentId);
    AuthorizeChanges(setting.env, s.broker, r.permitId, policy, context, now, intentId);
    CommittingOwns(setting, s, w);
    OwnedKept(s.broker, b, authorized.value.intent.proposalId, r.runId);
    OwnerIs(b, authorized.value.intent.proposalId, r.runId);
    hide ProposalFrom, PermitFrom;
  }

  function AuthorizedBy(setting: Setting, s: State, w: nat, now: int, intentId: Uuid)
    : (Result<B.AuthorizedAction, B.BrokerError>, B.BrokerState)
    requires w in s.requests && s.requests[w].Committing?
  {
    var r := s.requests[w];
    B.AuthorizeAndConsume(setting.env, s.broker, r.permitId, ControlledPolicy(setting, r.runId),
                          CommitContextOf(setting, r.runId, r.current), now, intentId)
  }

  /** What the request machine does with the answer. */
  lemma {:induction false} AuthorizeShape(setting: Setting, s: State, w: nat, now: int, intentId: Uuid)
    requires w in s.requests && s.requests[w].Committing?
    ensures var (authorized, b) := AuthorizedBy(setting, s, w, now, intentId);
            var s' := Authorize(setting, s, w, now, intentId);
            && w in s'.requests && s'.records == s.records && s'.requests == s.requests[w := s'.requests[w]]
            && if authorized.Err? then s' == With(s, w, s'.requests[w]) && s'.requests[w].Ended?
               else
                 && s'.broker == b && s'.intents == s.intents[intentId := authorized.value]
                 && (s'.requests[w].Ended? || (s'.requests[w].Sending? && s'.requests[w].runId == s.requests[w].runId))
  {
    hide B.AuthorizeAndConsume, BuildRequest;
    var r := s.requests[w];
    var (authorized, b) := AuthorizedBy(setting, s, w, now, intentId);
    assert (authorized, b)
        == B.AuthorizeAndConsume(setting.env, s.broker, r.permitId, ControlledPolicy(setting, r.runId),
                                 CommitContextOf(setting, r.runId, r.current), now, intentId);
    hide ControlledPolicy, CommitContextOf, AuthorizedBy;
    if authorized.Ok? {
      var built := BuildRequest(setting.env, setting.normalize, setting.sender, authorized.value);
      assert Authorize(setting, s, w, now, intentId).broker == b;
    }
  }

  lemma {:induction false} AuthorizeFrom(inbox: Inbox, setting: Setting, s: State, w: nat, now: int, intentId: Uuid)
    requires Inv(setting, s) && Origins(inbox, s) && w in s.requests && s.requests[w].Committing?
    requires intentId !in s.intents
    ensures Origins(inbox, Authorize(setting, s, w, now, intentId))
  {
    hide Inv, Origins, BrokerFrom, IntentFrom, Authorize, AuthorizedBy;
    RequestIsFrom(inbox, s, w);
    AuthorizeShape(setting, s, w, now, intentId);
    var s' := Authorize(setting, s, w, now, intentId);
    var (authorized, b) := AuthorizedBy(setting, s, w, now, intentId);
    if authorized.Err? {
      EndsFrom(inbox, s, w, s'.requests[w]);
    } else {
      AuthorizedFrom(inbox, setting, s, w, now, intentId);
      OriginsStep(inbox, s, b, s.records, w, s'.requests[w]);
      OriginsIntent(inbox, With(s.(broker := b, records := s.records), w, s'.requests[w]), s', intentId,
                    authorized.value);
    }
  }

  /** A new intent, and whatever happens in the email service. */
  lemma {:induction false} OriginsIntent(inbox: Inbox, s: State, s': State, intentId: Uuid, action: B.AuthorizedAction)
    requires Origins(inbox, s) && IntentFrom(inbox, s.broker, action)
    requires s'.broker == s.broker && s'.records == s.records && s'.requests == s.requests
    requires s'.intents == s.intents[intentId := action]
    ensures Origins(inbox, s')
  {
    hide RequestFrom, EntryFrom, PermitsFrom, ProposalsFrom, IntentFrom;
  }

  lemma {:induction false} MailFrom(inbox: Inbox, s: State, s': State)
    requires Origins(inbox, s)
    requires s'.broker == s.broker && s'.records == s.records && s'.requests == s.requests && s'.intents == s.intents
    ensures Origins(inbox, s')
  {
    hide RequestFrom, EntryFrom, PermitsFrom, ProposalsFrom, IntentFrom;
  }

  lemma {:induction false} RecordFrom(inbox: Inbox, setting: Setting, s: State, w: nat, at: int)
    requires Origins(inbox, s) && w in s.requests
    requires s.requests[w].EditDone? || s.requests[w].Decided? || s.requests[w].Sent? || s.requests[w].Prepared?
    ensures Origins(inbox, Record(setting, s, w, at))
  {
    hide Repository.Put, B.BrokerGrows;
    var r := s.requests[w];
    var record := FinalRecord(setting, r, at);
    assert RequestFrom(inbox, s.broker, r);
    assert EntryFrom(inbox, s.broker, record);
    PutGrows(s.records, record);
    hide FinalRecord, RequestFrom, EntryFrom, Origins;
    if Repository.Put(s.records, record).0.Err? {
      EndsFrom(inbox, s, w, Record(setting, s, w, at).requests[w]);
    } else {
      OriginsParts(inbox, s);
      SameBroker(inbox, s.broker);
      NoClaim(inbox, s.broker, Ended(r.runId, Ok(())));
      var records := Repository.Put(s.records, record).1;
      assert s.(broker := s.broker, records := records) == s.(records := records);
      OriginsStep(inbox, s, s.broker, records, w, Ended(r.runId, Ok(())));
    }
  }

  // ----- Every step -----

  /** What the step itself receives. */
  ghost predicate Hears(inbox: Inbox, e: Event) {
    && (e.Receive? ==> (e.runId, e.command) in inbox.commands)
    && (e.Prepare? ==> (e.runId, e.content) in inbox.contents)
  }

  lemma {:induction false} StepFrom(inbox: Inbox, setting: Setting, s: State, e: Event)
    requires Inv(setting, s) && Origins(inbox, s) && Enabled(setting, s, e) && Hears(inbox, e)
    ensures Origins(inbox, Step(setting, s, e))
  {
    hide Inv, Origins, IsListing, Mail.Enabled, Locate, See, Read, Check, CommitSee, CommitRead, Create, Edit, Issue,
         Record, Authorize, Mailing, Asks;
    assert !e.Receive? && !e.Prepare? && !e.MailStep? ==> e.w in s.requests;
    if !e.Receive? && !e.Prepare? && !e.MailStep? { RequestIsFrom(inbox, s, e.w); }
    match e
    case Receive(w, runId, command) => OriginsWith(inbox, s, w, Received(runId, command));
    case Prepare(w, runId, content) => OriginsWith(inbox, s, w, Preparing(runId, content));
    case CreateStep(w, proposalId, revisionId) => CreateFrom(inbox, setting, s, w, proposalId, revisionId);
    case ListStep(w, listing) => OriginsWith(inbox, s, w, Listed(s.requests[w].runId, s.requests[w].command, listing));
    case LocateStep(w, listing) => ListingsFrom(inbox, s, w, listing); AskedFrom(inbox, s, w, Locate(s, w, listing));
    case SeeStep(w) => ReadsFrom(inbox, s, w); AskedFrom(inbox, s, w, See(s, w));
    case ReadStep(w) => ReadVersionFrom(inbox, setting, s, w); AskedFrom(inbox, s, w, Read(s, w));
    case EditStep(w) => EditFrom(inbox, setting, s, w);
    case CheckStep(w, listing) => ListingsFrom(inbox, s, w, listing); AskedFrom(inbox, s, w, Check(s, w, listing));
    case IssueStep(w, decisionId, permitId, nonce, now) =>
      IssueFrom(inbox, setting, s, w, decisionId, permitId, nonce, now);
    case CommitSeeStep(w) => ReadsFrom(inbox, s, w); AskedFrom(inbox, s, w, CommitSee(s, w));
    case CommitReadStep(w) => ReadsFrom(inbox, s, w); AskedFrom(inbox, s, w, CommitRead(s, w));
    case AuthorizeStep(w, now, intentId) => AuthorizeFrom(inbox, setting, s, w, now, intentId);
    case MailStep(step) => MailingOnly(setting, s, step); MailFrom(inbox, s, Mailing(setting, s, step));
    case ReturnStep(w) => OriginsWith(inbox, s, w, Returned(s, w).requests[w]);
    case RecordStep(w, at) => RecordFrom(inbox, setting, s, w, at);
    case Abandon(w) =>
      var s1 := s.(email := s.email.(workers := s.email.workers - {w}));
      MailFrom(inbox, s, s1);
      EndsFrom(inbox, s1, w, Ended(s.requests[w].runId, Err(Cancelled)));
  }

  lemma RequestIsFrom(inbox: Inbox, s: State, w: nat)
    requires Origins(inbox, s) && w in s.requests
    ensures RequestFrom(inbox, s.broker, s.requests[w])
  {
    hide RequestFrom, EntriesFrom, PermitsFrom, ProposalsFrom, IntentsFrom;
  }

  lemma {:induction false} AskedFrom(inbox: Inbox, s: State, w: nat, s': State)
    requires Origins(inbox, s) && Asks(inbox, s, w, s')
    ensures Origins(inbox, s')
  {
    hide Origins, RequestFrom;
    OriginsWith(inbox, s, w, s'.requests[w]);
  }

  lemma MailingOnly(setting: Setting, s: State, step: Mail.Event)
    requires Mail.Enabled(MailConfig(setting), s.email, step) && step.w in s.email.workers
    ensures var s' := Mailing(setting, s, step);
            s'.broker == s.broker && s'.records == s.records && s'.requests == s.requests && s'.intents == s.intents
  {
    hide Mail.Enabled, Mail.Step, Dispatches;
  }

  lemma {:induction false} RunFrom(setting: Setting, r: Run, k: nat)
    requires IsRun(setting, r) && k < |r.states|
    ensures Origins(InboxAt(r.events[..k]), r.states[k])
  {
    hide Origins, Inv, WorkersInv, Enabled, Step, InboxAt;
    if k == 0 {
      NothingFrom(InboxAt(r.events[..0]), r.states[0]);
    } else {
      RunFrom(setting, r, k - 1);
      RunInv(setting, r, k - 1);
      assert r.events[..k] == r.events[..k - 1] + [r.events[k - 1]];
      InboxGrows(r.events[..k - 1], r.events[k - 1]);
      OriginsWiden(InboxAt(r.events[..k - 1]), InboxAt(r.events[..k]), r.states[k - 1]);
      StepFrom(InboxAt(r.events[..k]), setting, r.states[k - 1], r.events[k - 1]);
    }
  }

  lemma NothingFrom(inbox: Inbox, s: State)
    requires Starts(s)
    ensures Origins(inbox, s)
  {}

  lemma {:induction false} InboxGrows(events: seq<Event>, e: Event)
    ensures Within(InboxAt(events), InboxAt(events + [e])) && Hears(InboxAt(events + [e]), e)
  {
    assert e in events + [e];
    forall x | x in events ensures x in events + [e] {}
  }

  // ----- The theorems -----

  /** The command was received on the run before state `k`. */
  ghost predicate WasReceived(r: Run, k: nat, runId: Uuid, command: Command) {
    exists j, w :: 0 <= j < k <= |r.events| && r.events[j] == Receive(w, runId, command)
  }

  lemma RunLength(setting: Setting, r: Run)
    requires IsRun(setting, r)
    ensures |r.states| == |r.events| + 1
  {
    hide Enabled, Step;
  }

  lemma {:induction false} ReceivedIs(r: Run, k: nat, runId: Uuid, command: Command)
    requires k <= |r.events| && (runId, command) in InboxAt(r.events[..k]).commands
    ensures WasReceived(r, k, runId, command)
  {
    var e :| e in r.events[..k] && e.Receive? && e.runId == runId && e.command == command;
    var j :| 0 <= j < k && r.events[..k][j] == e;
    assert r.events[j] == Receive(e.w, runId, command);
  }

  /** A recorded decision was received from its approver; a rejection carries no permit, and an approval
      carries one that was issued to the approver. */
  lemma {:induction false} DecisionsWereReceived(setting: Setting, r: Run, k: nat, key: Key)
    requires IsRun(setting, r) && k < |r.states| && key in r.states[k].records
    requires r.states[k].records[key].payload.DecisionEntry?
    ensures var entry := r.states[k].records[key].payload;
            && WasReceived(r, k, key.runId, DecideCommand(entry.decision, entry.approverId))
            && (entry.decision == Reject ==> entry.permitId == None)
            && (entry.decision == Approve ==>
                  && entry.permitId.Some? && entry.permitId.value in r.states[k].broker.permits
                  && r.states[k].broker.permits[entry.permitId.value].approverId == entry.approverId)
  {
    hide IsRun, Inv;
    RunLength(setting, r);
    var s := r.states[k];
    RunFrom(setting, r, k);
    RunInv(setting, r, k);
    EntryIs(setting, s, key);
    assert EntryFrom(InboxAt(r.events[..k]), s.broker, s.records[key]);
    var entry := s.records[key].payload;
    hide InboxAt, WasReceived;
    ReceivedIs(r, k, key.runId, DecideCommand(entry.decision, entry.approverId));
  }

  /** Every permit goes back to an approval by its approver that was received on its proposal's run, and
      expires fifteen minutes after it was issued. */
  lemma {:induction false} PermitsWereApproved(setting: Setting, r: Run, k: nat, permitId: Uuid)
    requires IsRun(setting, r) && k < |r.states| && permitId in r.states[k].broker.permits
    ensures var b := r.states[k].broker;
            var permit := b.permits[permitId];
            && permit.proposalId in b.proposals
            && WasReceived(r, k, b.proposals[permit.proposalId].proposal.runId,
                           DecideCommand(Approve, permit.approverId))
            && permit.expiresAt == permit.approvedAt + 15 * 60
  {
    hide IsRun;
    RunLength(setting, r);
    var b := r.states[k].broker;
    RunFrom(setting, r, k);
    assert PermitFrom(InboxAt(r.events[..k]), b, b.permits[permitId]);
    var permit := b.permits[permitId];
    hide InboxAt, WasReceived, Origins;
    ReceivedIs(r, k, b.proposals[permit.proposalId].proposal.runId, DecideCommand(Approve, permit.approverId));
  }

  /** The content of a version was prepared for its run, or submitted to it as an edit. */
  ghost predicate Submitted(r: Run, k: nat, runId: Uuid, text: string) {
    || (exists j, w, content :: 0 <= j < k <= |r.events| && r.events[j] == Prepare(w, runId, content)
                                && Canonical(content.payload) == Ok(text))
    || (exists payload :: WasReceived(r, k, runId, EditCommand(payload)) && Canonical(payload) == Ok(text))
  }

  lemma {:induction false} VersionsWereSubmitted(setting: Setting, r: Run, k: nat, id: Uuid, v: nat)
    requires IsRun(setting, r) && k < |r.states| && id in r.states[k].broker.proposals
    requires v in r.states[k].broker.proposals[id].versions
    ensures var record := r.states[k].broker.proposals[id];
            Submitted(r, k, record.proposal.runId, record.versions[v].canonicalPayload)
  {
    hide IsRun, Canonical;
    RunLength(setting, r);
    var record := r.states[k].broker.proposals[id];
    RunFrom(setting, r, k);
    assert ProposalFrom(InboxAt(r.events[..k]), record);
    assert VersionFrom(InboxAt(r.events[..k]), record, v);
    hide Origins;
    if v == 1 {
      var content: B.Content :| (record.proposal.runId, content) in InboxAt(r.events[..k]).contents
                                && Canonical(content.payload) == Ok(record.versions[v].canonicalPayload);
      var e :| e in r.events[..k] && e.Prepare? && e.runId == record.proposal.runId && e.content == content;
      var j :| 0 <= j < k && r.events[..k][j] == e;
      assert r.events[j] == Prepare(e.w, record.proposal.runId, content);
    } else {
      var payload :| (record.proposal.runId, EditCommand(payload)) in InboxAt(r.events[..k]).commands
                     && Canonical(payload) == Ok(record.versions[v].canonicalPayload);
      hide InboxAt, WasReceived;
      ReceivedIs(r, k, record.proposal.runId, EditCommand(payload));
    }
  }

  /** A dispatch follows an approval and an execution command received on the proposal's run, and its
      payload was prepared for or submitted to that run. */
  lemma {:induction false} DispatchFollowsCommands(setting: Setting, r: Run, k: nat, i: nat) returns (runId: Uuid)
    requires IsRun(setting, r) && k < |r.states| && i < |r.states[k].dispatched|
    ensures r.states[k].dispatched[i] in r.states[k].intents
    ensures var action := r.states[k].intents[r.states[k].dispatched[i]];
            && OwnedBy(r.states[k].broker, action.intent.proposalId, runId)
            && WasReceived(r, k, runId, ExecuteCommand)
            && (exists approverId :: WasReceived(r, k, runId, DecideCommand(Approve, approverId)))
            && Submitted(r, k, runId, action.canonicalPayload)
  {
    hide IsRun, BuildRequest, WasReceived, Submitted, InboxAt;
    RunLength(setting, r);
    var s := r.states[k];
    DispatchedWasApproved(setting, r, k, i);
    RunFrom(setting, r, k);
    var action := s.intents[s.dispatched[i]];
    assert IntentFrom(InboxAt(r.events[..k]), s.broker, action);
    hide Origins;
    runId := s.broker.proposals[action.intent.proposalId].proposal.runId;
    ReceivedIs(r, k, runId, ExecuteCommand);
    var key := ApprovalKey(setting, runId, action.intent.proposalId, action.intent.proposalVersion);
    DecisionsWereReceived(setting, r, k, key);
    assert WasReceived(r, k, runId, DecideCommand(Approve, s.records[key].payload.approverId));
    VersionsWereSubmitted(setting, r, k, action.intent.proposalId, action.intent.proposalVersion);
  }

  /** As long as no approval was received there is no permit, and nothing is dispatched. */
  lemma {:induction false} NothingWithoutApproval(setting: Setting, r: Run, k: nat)
    requires IsRun(setting, r) && k < |r.states|
    requires forall j :: 0 <= j < k && r.events[j].Receive? && r.events[j].command.DecideCommand? ==>
               r.events[j].command.decision == Reject
    ensures r.states[k].broker.permits == map[] && r.states[k].dispatched == []
  {
    hide IsRun;
    if permitId :| permitId in r.states[k].broker.permits {
      PermitsWereApproved(setting, r, k, permitId);
      assert false;
    }
    if r.states[k].dispatched != [] {
      var runId := DispatchFollowsCommands(setting, r, k, 0);
      assert false;
    }
  }
}
