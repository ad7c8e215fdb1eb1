/** What every step of every request keeps. */
module RequestInvariant {
  import opened Wrappers
  import opened Text
  import opened Repository
  import opened EmailRequest
  import opened Requests
  import opened CanonicalRoundTrip
  import B = Broker
  import Mail = EmailProtocol
  import EmailProvider
  import EmailStore

  // ----- Invariants -----

  ghost predicate OwnedBy(b: B.BrokerState, proposalId: Uuid, runId: Uuid) {
    proposalId in b.proposals && b.proposals[proposalId].proposal.runId == runId
  }

  ghost predicate PermitOf(b: B.BrokerState, permitId: Uuid, proposalId: Uuid, version: nat) {
    permitId in b.permits && b.permits[permitId].proposalId == proposalId
    && b.permits[permitId].proposalVersion == version
  }

  ghost predicate VersionKnown(b: B.BrokerState, v: B.ProposalVersion) {
    v.proposalId in b.proposals && v.version in b.proposals[v.proposalId].versions
    && b.proposals[v.proposalId].versions[v.version] == v
  }

  ghost predicate DigestOf(b: B.BrokerState, proposalId: Uuid, version: nat, digest: string) {
    proposalId in b.proposals && version in b.proposals[proposalId].versions
    && b.proposals[proposalId].versions[version].sha == digest
  }

  /** A record belongs to the run of its proposal; a decision sits at its own reference. */
  ghost predicate EntryOk(setting: Setting, b: B.BrokerState, key: Key, record: IntegrationRecord) {
    && KeyOf(record) == key
    && match record.payload
       case ProposalRef(id) => OwnedBy(b, id, key.runId)
       case DecisionEntry(id, v, decision, _, permitId, digest) =>
         && OwnedBy(b, id, key.runId) && key.recordRef == setting.ids.decision(key.runId, id, v, decision)
         && DigestOf(b, id, v, digest) && (permitId.Some? ==> PermitOf(b, permitId.value, id, v))
       case _ => true
  }

  ghost predicate RepoInv(setting: Setting, b: B.BrokerState, records: Records) {
    forall key :: key in records ==> EntryOk(setting, b, key, records[key])
  }

  function ApprovalKey(setting: Setting, runId: Uuid, proposalId: Uuid, version: nat): Key {
    Key(runId, setting.ids.decision(runId, proposalId, version, Approve))
  }

  /** The run's approval of one version carries this permit. */
  ghost predicate Approved(setting: Setting, records: Records, runId: Uuid, proposalId: Uuid, version: nat,
                           permitId: Uuid) {
    var key := ApprovalKey(setting, runId, proposalId, version);
    && key in records && records[key].payload.DecisionEntry?
    && records[key].payload.proposalId == proposalId && records[key].payload.version == version
    && records[key].payload.decision == Approve && records[key].payload.permitId == Some(permitId)
  }

  ghost predicate SnapshotOk(records: Records, runId: Uuid, snapshot: seq<IntegrationRecord>) {
    forall r :: r in snapshot ==> Key(runId, r.recordRef) in records && records[Key(runId, r.recordRef)] == r
  }

  /** What a suspended request holds is still true. */
  ghost predicate RequestOk(setting: Setting, b: B.BrokerState, records: Records, r: Request) {
    match r
    case Listed(runId, _, snapshot) => SnapshotOk(records, runId, snapshot)
    case Located(runId, _, snapshot, id) => SnapshotOk(records, runId, snapshot) && OwnedBy(b, id, runId)
    case Seen(runId, _, snapshot, proposal) => SnapshotOk(records, runId, snapshot) && OwnedBy(b, proposal.id, runId)
    case Editing(runId, _, v) => OwnedBy(b, v.proposalId, runId)
    case Deciding(runId, _, _, v) => OwnedBy(b, v.proposalId, runId) && VersionKnown(b, v)
    case Approving(runId, _, v) => OwnedBy(b, v.proposalId, runId) && VersionKnown(b, v)
    case Decided(runId, _, _, v, issued) =>
      OwnedBy(b, v.proposalId, runId) && VersionKnown(b, v)
      && (issued.Some? ==> PermitOf(b, issued.value, v.proposalId, v.version))
    case Permitted(runId, v, permitId) => Approved(setting, records, runId, v.proposalId, v.version, permitId)
    case CommitSeen(runId, v, permitId, _) => Approved(setting, records, runId, v.proposalId, v.version, permitId)
    case Committing(runId, v, permitId, _) => Approved(setting, records, runId, v.proposalId, v.version, permitId)
    case Prepared(runId, id) => OwnedBy(b, id, runId)
    case _ => true
  }

  ghost predicate RequestsInv(setting: Setting, b: B.BrokerState, records: Records, requests: map<nat, Request>) {
    forall w :: w in requests ==> RequestOk(setting, b, records, requests[w])
  }

  /** The approval of a consumed permit is on record. */
  ghost predicate PermitApproved(setting: Setting, b: B.BrokerState, records: Records, permitId: Uuid) {
    && permitId in b.permits
    && var permit := b.permits[permitId];
       && permit.proposalId in b.proposals
       && Approved(setting, records, b.proposals[permit.proposalId].proposal.runId, permit.proposalId,
                   permit.proposalVersion, permitId)
  }

  ghost predicate ConsumedInv(setting: Setting, b: B.BrokerState, records: Records) {
    forall permitId :: permitId in b.consumed ==> PermitApproved(setting, b, records, permitId)
  }

  /** An intent stands for one consumed permit and carries the bytes of its version. */
  ghost predicate IntentOk(b: B.BrokerState, id: Uuid, action: B.AuthorizedAction) {
    && action.intent.id == id && action.intent.permitId in b.consumed
    && PermitOf(b, action.intent.permitId, action.intent.proposalId, action.intent.proposalVersion)
    && DigestOf(b, action.intent.proposalId, action.intent.proposalVersion, action.intent.fingerprint)
    && b.proposals[action.intent.proposalId].versions[action.intent.proposalVersion].canonicalPayload
       == action.canonicalPayload
  }

  ghost predicate IntentInv(b: B.BrokerState, intents: map<Uuid, B.AuthorizedAction>) {
    && (forall id :: id in intents ==> IntentOk(b, id, intents[id]))
    && forall i, j :: i in intents && j in intents && intents[i].intent.permitId == intents[j].intent.permitId ==>
          i == j
  }

  ghost predicate BookInv(setting: Setting, intents: map<Uuid, B.AuthorizedAction>,
                          book: map<Uuid, EmailStore.DispatchRequest>) {
    forall id :: id in book ==>
      id in intents && book[id].intentId == id
      && BuildRequest(setting.env, setting.normalize, setting.sender, intents[id]) == Ok(book[id])
  }

  predicate BeforeDispatch(worker: Mail.Worker) {
    worker.ExecuteStarted? || worker.ExecuteLoaded? || worker.ExecuteClaimed?
  }

  /** One worker per intent, and it has not dispatched while it still can. */
  ghost predicate DispatchInv(book: map<Uuid, EmailStore.DispatchRequest>, workers: map<nat, Mail.Worker>,
                              dispatched: seq<Uuid>) {
    && (forall i, j :: 0 <= i < j < |dispatched| ==> dispatched[i] != dispatched[j])
    && (forall i :: 0 <= i < |dispatched| ==> dispatched[i] in book)
    && (forall w :: w in workers ==>
            workers[w].request.intentId in book && workers[w].request == book[workers[w].request.intentId])
    && (forall w :: w in workers && BeforeDispatch(workers[w]) ==> workers[w].request.intentId !in dispatched)
    && (forall v, w :: v in workers && w in workers && workers[v].request.intentId == workers[w].request.intentId ==>
            v == w)
  }

  ghost predicate Inv(setting: Setting, s: State) {
    && B.BrokerInv(setting.env, s.broker)
    && RepoInv(setting, s.broker, s.records)
    && RequestsInv(setting, s.broker, s.records, s.requests)
    && ConsumedInv(setting, s.broker, s.records)
    && IntentInv(s.broker, s.intents)
    && BookInv(setting, s.intents, s.book)
    && DispatchInv(s.book, s.email.workers, s.dispatched)
  }

  // ----- Growing brokers and repositories -----

  ghost predicate RecordsGrow(records: Records, records': Records) {
    forall key :: key in records ==> key in records' && records'[key] == records[key]
  }

  lemma {:induction false} PutGrows(records: Records, record: IntegrationRecord)
    ensures RecordsGrow(records, Put(records, record).1)
    ensures Put(records, record).0.Ok? && KeyOf(record) !in records ==>
              Put(records, record).1 == records[KeyOf(record) := record]
    ensures Put(records, record).0.Err? || KeyOf(record) in records ==> Put(records, record).1 == records
  {}

  lemma {:induction false} OwnedKept(b: B.BrokerState, b': B.BrokerState, id: Uuid, runId: Uuid)
    requires OwnedBy(b, id, runId) && B.BrokerGrows(b, b')
    ensures OwnedBy(b', id, runId)
  {}

  lemma {:induction false} PermitKept(b: B.BrokerState, b': B.BrokerState, permitId: Uuid, id: Uuid, version: nat)
    requires PermitOf(b, permitId, id, version) && B.BrokerGrows(b, b')
    ensures PermitOf(b', permitId, id, version)
  {
    assert B.SamePermit(b.permits[permitId], b'.permits[permitId]);
  }

  lemma {:induction false} VersionKept(b: B.BrokerState, b': B.BrokerState, v: B.ProposalVersion)
    requires VersionKnown(b, v) && B.BrokerGrows(b, b')
    ensures VersionKnown(b', v)
  {}

  lemma {:induction false} DigestKept(b: B.BrokerState, b': B.BrokerState, id: Uuid, version: nat, digest: string)
    requires DigestOf(b, id, version, digest) && B.BrokerGrows(b, b')
    ensures DigestOf(b', id, version, digest)
    ensures b'.proposals[id].versions[version] == b.proposals[id].versions[version]
  {}

  lemma {:induction false} EntryKept(setting: Setting, b: B.BrokerState, b': B.BrokerState, key: Key,
                                     record: IntegrationRecord)
    requires EntryOk(setting, b, key, record) && B.BrokerGrows(b, b')
    ensures EntryOk(setting, b', key, record)
  {
    hide B.BrokerGrows, OwnedBy, DigestOf, PermitOf;
    match record.payload
    case ProposalRef(id) => OwnedKept(b, b', id, key.runId);
    case DecisionEntry(id, v, _, _, permitId, digest) =>
      OwnedKept(b, b', id, key.runId);
      DigestKept(b, b', id, v, digest);
      if permitId.Some? { PermitKept(b, b', permitId.value, id, v); }
    case _ =>
  }

  lemma {:induction false} RequestKept(setting: Setting, b: B.BrokerState, b': B.BrokerState, records: Records,
                                       records': Records, r: Request)
    requires RequestOk(setting, b, records, r) && B.BrokerGrows(b, b') && RecordsGrow(records, records')
    ensures RequestOk(setting, b', records', r)
  {
    hide B.BrokerGrows, OwnedBy, PermitOf, VersionKnown;
    if r.Located? { OwnedKept(b, b', r.proposalId, r.runId); }
    else if r.Seen? { OwnedKept(b, b', r.proposal.id, r.runId); }
    else if r.Prepared? { OwnedKept(b, b', r.proposalId, r.runId); }
    else if r.Editing? { OwnedKept(b, b', r.version.proposalId, r.runId); }
    else if r.Deciding? || r.Approving? || r.Decided? {
      OwnedKept(b, b', r.version.proposalId, r.runId);
      VersionKept(b, b', r.version);
      if r.Decided? && r.issued.Some? { PermitKept(b, b', r.issued.value, r.version.proposalId, r.version.version); }
    }
  }

  lemma {:induction false} PermitApprovedKept(setting: Setting, b: B.BrokerState, b': B.BrokerState, records: Records,
                                              records': Records, permitId: Uuid)
    requires PermitApproved(setting, b, records, permitId) && B.BrokerGrows(b, b') && RecordsGrow(records, records')
    ensures PermitApproved(setting, b', records', permitId)
  {
    assert B.SamePermit(b.permits[permitId], b'.permits[permitId]);
    var id := b.permits[permitId].proposalId;
    assert B.Grows(b.proposals[id], b'.proposals[id]);
  }

  lemma {:induction false} IntentKept(b: B.BrokerState, b': B.BrokerState, id: Uuid, action: B.AuthorizedAction)
    requires IntentOk(b, id, action) && B.BrokerGrows(b, b')
    ensures IntentOk(b', id, action)
  {
    assert action.intent.permitId in b'.consumed;
    hide B.BrokerGrows, PermitOf, DigestOf;
    PermitKept(b, b', action.intent.permitId, action.intent.proposalId, action.intent.proposalVersion);
    DigestKept(b, b', action.intent.proposalId, action.intent.proposalVersion, action.intent.fingerprint);
  }

  // ----- Shapes of steps -----

  /** A step that replaces one request and lets the broker and the repository grow. */
  lemma {:induction false} GrowStep(setting: Setting, s: State, b: B.BrokerState, records: Records, w: nat, r: Request)
    requires Inv(setting, s) && B.BrokerInv(setting.env, b) && B.BrokerGrows(s.broker, b)
    requires b.consumed == s.broker.consumed
    requires RecordsGrow(s.records, records) && RepoInv(setting, b, records)
    requires RequestOk(setting, b, records, r)
    ensures Inv(setting, With(s.(broker := b, records := records), w, r))
  {
    var s' := With(s.(broker := b, records := records), w, r);
    hide B.BrokerInv, B.BrokerGrows, RequestOk, RepoInv, PermitApproved, IntentOk, BookInv, DispatchInv;
    forall v | v in s'.requests ensures RequestOk(setting, b, records, s'.requests[v]) {
      if v != w { RequestKept(setting, s.broker, b, s.records, records, s.requests[v]); }
    }
    forall p | p in b.consumed ensures PermitApproved(setting, b, records, p) {
      PermitApprovedKept(setting, s.broker, b, s.records, records, p);
    }
    forall id | id in s.intents ensures IntentOk(b, id, s.intents[id]) { IntentKept(s.broker, b, id, s.intents[id]); }
  }

  lemma {:induction false} RepoKept(setting: Setting, b: B.BrokerState, b': B.BrokerState, records: Records)
    requires RepoInv(setting, b, records) && B.BrokerGrows(b, b')
    ensures RepoInv(setting, b', records)
  {
    hide EntryOk, B.BrokerGrows;
    forall key | key in records
      ensures EntryOk(setting, b', key, records[key])
    {
      EntryKept(setting, b, b', key, records[key]);
    }
  }

  lemma {:induction false} BrokerStep(setting: Setting, s: State, b: B.BrokerState, w: nat, r: Request)
    requires Inv(setting, s) && B.BrokerInv(setting.env, b) && B.BrokerGrows(s.broker, b)
    requires b.consumed == s.broker.consumed
    requires RequestOk(setting, b, s.records, r)
    ensures Inv(setting, With(s.(broker := b), w, r))
  {
    hide RepoInv, RequestOk, B.BrokerInv, B.BrokerGrows, ConsumedInv, IntentInv, BookInv, DispatchInv, RequestsInv;
    RepoKept(setting, s.broker, b, s.records);
    assert s.(broker := b, records := s.records) == s.(broker := b);
    GrowStep(setting, s, b, s.records, w, r);
  }

  lemma {:induction false} RequestStep(setting: Setting, s: State, w: nat, r: Request)
    requires Inv(setting, s) && RequestOk(setting, s.broker, s.records, r)
    ensures Inv(setting, With(s, w, r))
  {
    hide RepoInv, RequestOk, B.BrokerInv, ConsumedInv, IntentInv, BookInv, DispatchInv;
  }

  lemma {:induction false} RequestIs(setting: Setting, s: State, w: nat)
    requires Inv(setting, s) && w in s.requests
    ensures RequestOk(setting, s.broker, s.records, s.requests[w]) && B.BrokerInv(setting.env, s.broker)
  {
    hide RequestOk, B.BrokerInv, RepoInv, ConsumedInv, IntentInv, BookInv, DispatchInv;
  }

  lemma {:induction false} EntryIs(setting: Setting, s: State, key: Key)
    requires Inv(setting, s) && key in s.records
    ensures EntryOk(setting, s.broker, key, s.records[key])
  {
    hide EntryOk, RequestsInv, B.BrokerInv, ConsumedInv, IntentInv, BookInv, DispatchInv;
  }

  // ----- Reading steps -----

  lemma {:induction false} LastProposalIn(listing: seq<IntegrationRecord>) returns (record: IntegrationRecord)
    requires LastProposal(listing).Some?
    ensures record in listing && record.payload == ProposalRef(LastProposal(listing).value)
  {
    var last := listing[|listing| - 1];
    if last.payload.ProposalRef? { record := last; } else { record := LastProposalIn(listing[..|listing| - 1]); }
  }

  lemma {:induction false} LocateOk(setting: Setting, s: State, w: nat, listing: seq<IntegrationRecord>)
    requires Inv(setting, s) && w in s.requests && s.requests[w].Listed?
    requires IsListing(s.records, s.requests[w].runId, listing)
    ensures Inv(setting, Locate(s, w, listing))
  {
    hide Inv, OwnedBy, LastProposal, B.BrokerInv;
    var r := s.requests[w];
    RequestIs(setting, s, w);
    if LastProposal(listing).Some? {
      var record := LastProposalIn(listing);
      EntryIs(setting, s, Key(r.runId, record.recordRef));
    }
    RequestStep(setting, s, w, Locate(s, w, listing).requests[w]);
  }

  lemma {:induction false} SeeOk(setting: Setting, s: State, w: nat)
    requires Inv(setting, s) && w in s.requests && s.requests[w].Located?
    ensures Inv(setting, See(s, w))
  {
    hide Inv, SnapshotOk, B.VersionOk;
    var r := s.requests[w];
    RequestIs(setting, s, w);
    assert B.RecordOk(setting.env, r.proposalId, s.broker.proposals[r.proposalId]);
    RequestStep(setting, s, w, See(s, w).requests[w]);
  }

  /** An approval found in a snapshot is the approval on record. */
  lemma {:induction false} ChosenOk(setting: Setting, s: State, runId: Uuid, snapshot: seq<IntegrationRecord>,
                                    v: B.ProposalVersion)
    requires Inv(setting, s) && SnapshotOk(s.records, runId, snapshot)
    ensures RequestOk(setting, s.broker, s.records, Choose(runId, snapshot, v))
  {
    hide Inv, OwnedBy, DigestOf, PermitOf, LastDecision, Executed;
    var found := LastDecision(snapshot, v.proposalId, v.version);
    if Choose(runId, snapshot, v).Permitted? { EntryIs(setting, s, Key(runId, found.value.recordRef)); }
  }

  lemma {:induction false} VersionRead(setting: Setting, s: State, id: Uuid, version: nat)
    requires B.BrokerInv(setting.env, s.broker) && B.GetVersion(s.broker, id, version).Ok?
    ensures var v := B.GetVersion(s.broker, id, version).value;
            v.proposalId == id && v.version == version && VersionKnown(s.broker, v)
  {
    assert B.RecordOk(setting.env, id, s.broker.proposals[id]);
    assert B.VersionOk(setting.env, id, version, s.broker.proposals[id].versions[version]);
  }

  lemma {:induction false} ReadOk(setting: Setting, s: State, w: nat)
    requires Inv(setting, s) && w in s.requests && s.requests[w].Seen?
    ensures Inv(setting, Read(s, w))
  {
    hide Inv, Choose, B.BrokerInv, B.GetVersion, OwnedBy, VersionKnown, SnapshotOk, Approved;
    var r := s.requests[w];
    RequestIs(setting, s, w);
    if B.GetVersion(s.broker, r.proposal.id, r.proposal.currentVersion).Ok? {
      VersionRead(setting, s, r.proposal.id, r.proposal.currentVersion);
      ChosenOk(setting, s, r.runId, r.snapshot, B.GetVersion(s.broker, r.proposal.id, r.proposal.currentVersion).value);
    }
    RequestStep(setting, s, w, Read(s, w).requests[w]);
  }

  lemma {:induction false} CheckOk(setting: Setting, s: State, w: nat, listing: seq<IntegrationRecord>)
    requires Inv(setting, s) && w in s.requests && s.requests[w].Deciding?
    ensures Inv(setting, Check(s, w, listing))
  {
    hide Inv, B.BrokerInv, OwnedBy, VersionKnown, LastDecision, PermitOf;
    RequestIs(setting, s, w);
    RequestStep(setting, s, w, Check(s, w, listing).requests[w]);
  }

  lemma {:induction false} CommitReadsOk(setting: Setting, s: State, w: nat)
    requires Inv(setting, s) && w in s.requests && (s.requests[w].Permitted? || s.requests[w].CommitSeen?)
    ensures s.requests[w].Permitted? ==> Inv(setting, CommitSee(s, w))
    ensures s.requests[w].CommitSeen? ==> Inv(setting, CommitRead(s, w))
  {
    hide Inv, B.BrokerInv, B.GetVersion, B.GetProposal, Approved;
    RequestIs(setting, s, w);
    if s.requests[w].Permitted? { RequestStep(setting, s, w, CommitSee(s, w).requests[w]); }
    else { RequestStep(setting, s, w, CommitRead(s, w).requests[w]); }
  }

  // ----- Broker steps -----

  lemma {:induction false} CreateOk(setting: Setting, s: State, w: nat, proposalId: Uuid, revisionId: Uuid)
    requires Inv(setting, s) && w in s.requests && s.requests[w].Preparing? && proposalId !in s.broker.proposals
    ensures Inv(setting, Create(setting, s, w, proposalId, revisionId))
  {
    hide Inv, B.BrokerInv, B.BrokerGrows, B.MakeVersion;
    var r := s.requests[w];
    RequestIs(setting, s, w);
    B.CreateKeeps(setting.env, s.broker, proposalId, r.runId, revisionId, "email.send", r.content);
    if B.CreateProposal(setting.env, s.broker, proposalId, r.runId, revisionId, "email.send", r.content).0.Ok? {
      BrokerStep(setting, s, Create(setting, s, w, proposalId, revisionId).broker, w, Prepared(r.runId, proposalId));
    } else {
      RequestStep(setting, s, w, Create(setting, s, w, proposalId, revisionId).requests[w]);
    }
  }

  lemma {:induction false} EditOk(setting: Setting, s: State, w: nat)
    requires Inv(setting, s) && w in s.requests && s.requests[w].Editing?
    ensures Inv(setting, Edit(setting, s, w))
  {
    hide Inv, B.BrokerInv, B.BrokerGrows, B.MakeVersion, B.Edited;
    var r := s.requests[w];
    var content := B.Content(r.payload, r.version.attachmentIds, r.version.attachmentSha);
    RequestIs(setting, s, w);
    B.EditKeeps(setting.env, s.broker, r.version.proposalId, content);
    if B.EditProposal(setting.env, s.broker, r.version.proposalId, content).0.Ok? {
      BrokerStep(setting, s, Edit(setting, s, w).broker, w, Edit(setting, s, w).requests[w]);
    } else {
      RequestStep(setting, s, w, Edit(setting, s, w).requests[w]);
    }
  }

  lemma {:induction false} IssuedPermit(env: B.Env, b: B.BrokerState, a: B.Approval, permitId: Uuid, nonce: Uuid)
    requires B.IssuePermit(env, b, a, permitId, nonce).0.Ok?
    ensures PermitOf(B.IssuePermit(env, b, a, permitId, nonce).1, permitId, a.proposalId, a.version)
    ensures B.IssuePermit(env, b, a, permitId, nonce).1.consumed == b.consumed
  {
    hide B.IssueRefusal;
  }

  lemma {:induction false} IssueOk(setting: Setting, s: State, w: nat, decisionId: Uuid, permitId: Uuid, nonce: Uuid,
                                   now: int)
    requires Inv(setting, s) && w in s.requests && s.requests[w].Approving? && permitId !in s.broker.permits
    ensures Inv(setting, Issue(setting, s, w, decisionId, permitId, nonce, now))
  {
    hide Inv, B.BrokerInv, B.BrokerGrows, B.IssuePermit, OwnedBy, VersionKnown, PermitOf, ControlledPolicy;
    var r := s.requests[w];
    var a := ApprovalOf(setting, r, decisionId, now);
    RequestIs(setting, s, w);
    B.IssueKeeps(setting.env, s.broker, a, permitId, nonce);
    if B.IssuePermit(setting.env, s.broker, a, permitId, nonce).0.Ok? {
      var b := B.IssuePermit(setting.env, s.broker, a, permitId, nonce).1;
      IssuedPermit(setting.env, s.broker, a, permitId, nonce);
      OwnedKept(s.broker, b, r.version.proposalId, r.runId);
      VersionKept(s.broker, b, r.version);
      BrokerStep(setting, s, b, w, Decided(r.runId, Approve, r.approverId, r.version, Some(permitId)));
    } else {
      RequestStep(setting, s, w, Issue(setting, s, w, decisionId, permitId, nonce, now).requests[w]);
    }
  }

  // ----- Records -----

  lemma {:induction false} FinalEntryOk(setting: Setting, b: B.BrokerState, records: Records, r: Request, at: int)
    requires RequestOk(setting, b, records, r) && (r.EditDone? || r.Decided? || r.Sent? || r.Prepared?)
    ensures EntryOk(setting, b, KeyOf(FinalRecord(setting, r, at)), FinalRecord(setting, r, at))
  {}

  lemma {:induction false} RecordOk(setting: Setting, s: State, w: nat, at: int)
    requires Inv(setting, s) && w in s.requests
    requires s.requests[w].EditDone? || s.requests[w].Decided? || s.requests[w].Sent? || s.requests[w].Prepared?
    ensures Inv(setting, Record(setting, s, w, at))
  {
    hide Inv, RequestOk, EntryOk, FinalRecord, Put, B.BrokerInv, B.BrokerGrows;
    var r := s.requests[w];
    var record := FinalRecord(setting, r, at);
    var (stored, records) := Put(s.records, record);
    RequestIs(setting, s, w);
    FinalEntryOk(setting, s.broker, s.records, r, at);
    if stored.Ok? {
      PutRepo(setting, s, record);
      B.BrokerGrowsReflexive(s.broker);
      assert s.(broker := s.broker, records := records) == s.(records := records);
      hide RepoInv;
      EndedOk(setting, s.broker, records, Ended(r.runId, Ok(())));
      GrowStep(setting, s, s.broker, records, w, Ended(r.runId, Ok(())));
    } else {
      EndedOk(setting, s.broker, s.records, Record(setting, s, w, at).requests[w]);
      RequestStep(setting, s, w, Record(setting, s, w, at).requests[w]);
    }
  }

  lemma EndedOk(setting: Setting, b: B.BrokerState, records: Records, r: Request)
    requires r.Ended?
    ensures RequestOk(setting, b, records, r)
  {}

  lemma {:induction false} PutRepo(setting: Setting, s: State, record: IntegrationRecord)
    requires Inv(setting, s) && EntryOk(setting, s.broker, KeyOf(record), record)
    ensures RepoInv(setting, s.broker, Put(s.records, record).1) && RecordsGrow(s.records, Put(s.records, record).1)
  {
    hide EntryOk, RequestsInv, B.BrokerInv, ConsumedInv, IntentInv, BookInv, DispatchInv;
    PutGrows(s.records, record);
  }

  // ----- Authorization -----

  lemma {:induction false} AuthorizeEffect(env: B.Env, b: B.BrokerState, permitId: Uuid, policy: B.EffectivePolicy,
                                           context: B.CommitContext, now: int, intentId: Uuid)
    requires B.BrokerInv(env, b) && B.AuthorizeAndConsume(env, b, permitId, policy, context, now, intentId).0.Ok?
    ensures var (authorized, b') := B.AuthorizeAndConsume(env, b, permitId, policy, context, now, intentId);
            && permitId in b.permits && permitId !in b.consumed && b'.consumed == b.consumed + {permitId}
            && authorized.value.intent.permitId == permitId
            && authorized.value.intent.proposalId == b.permits[permitId].proposalId
            && authorized.value.intent.proposalVersion == b.permits[permitId].proposalVersion
            && IntentOk(b', intentId, authorized.value)
  {
    hide B.PayloadRefusal, B.RecordOk, B.KeyMaterial;
    assert B.PermitOk(b, permitId, b.permits[permitId]);
  }

  /** Everything but the email service, after a permit was consumed. */
  lemma {:induction false} ConsumeStep(setting: Setting, s: State, b: B.BrokerState, permitId: Uuid,
                                       action: B.AuthorizedAction)
    requires ConsumeReady(setting, s, b)
    requires b.consumed == s.broker.consumed + {permitId} && permitId !in s.broker.consumed
    requires PermitApproved(setting, b, s.records, permitId)
    requires action.intent.id !in s.intents && action.intent.permitId == permitId
    requires IntentOk(b, action.intent.id, action)
    ensures Inv(setting, s.(broker := b, intents := s.intents[action.intent.id := action]))
  {
    hide B.BrokerInv, B.BrokerGrows, RequestOk, RepoInv, PermitApproved, IntentOk, BookInv, DispatchInv, ConsumedInv,
         RequestsInv, IntentInv;
    RepoKept(setting, s.broker, b, s.records);
    RequestsKept(setting, s, b);
    ConsumedKept(setting, s, b, permitId);
    IntentsKept(s.broker, b, s.intents, permitId, action);
    BookKept(setting, s.intents, s.book, action);
  }

  ghost predicate ConsumeReady(setting: Setting, s: State, b: B.BrokerState) {
    Inv(setting, s) && B.BrokerInv(setting.env, b) && B.BrokerGrows(s.broker, b)
  }

  lemma {:induction false} RequestsKept(setting: Setting, s: State, b: B.BrokerState)
    requires RequestsInv(setting, s.broker, s.records, s.requests) && B.BrokerGrows(s.broker, b)
    ensures RequestsInv(setting, b, s.records, s.requests)
  {
    hide B.BrokerGrows, RequestOk;
    forall w | w in s.requests ensures RequestOk(setting, b, s.records, s.requests[w]) {
      RequestKept(setting, s.broker, b, s.records, s.records, s.requests[w]);
    }
  }

  lemma {:induction false} ConsumedKept(setting: Setting, s: State, b: B.BrokerState, permitId: Uuid)
    requires ConsumedInv(setting, s.broker, s.records) && B.BrokerGrows(s.broker, b)
    requires b.consumed == s.broker.consumed + {permitId} && PermitApproved(setting, b, s.records, permitId)
    ensures ConsumedInv(setting, b, s.records)
  {
    hide B.BrokerGrows, PermitApproved;
    forall p | p in b.consumed ensures PermitApproved(setting, b, s.records, p) {
      if p != permitId { PermitApprovedKept(setting, s.broker, b, s.records, s.records, p); }
    }
  }

  lemma {:induction false} IntentsKept(b: B.BrokerState, b': B.BrokerState, intents: map<Uuid, B.AuthorizedAction>,
                                       permitId: Uuid, action: B.AuthorizedAction)
    requires IntentInv(b, intents) && B.BrokerGrows(b, b') && permitId !in b.consumed
    requires action.intent.id !in intents && action.intent.permitId == permitId
    requires IntentOk(b', action.intent.id, action)
    ensures IntentInv(b', intents[action.intent.id := action])
  {
    assert forall id :: id in intents ==> intents[id].intent.permitId in b.consumed;
    hide B.BrokerGrows, IntentOk;
    forall id | id in intents ensures IntentOk(b', id, intents[id]) { IntentKept(b, b', id, intents[id]); }
  }

  lemma {:induction false} BookKept(setting: Setting, intents: map<Uuid, B.AuthorizedAction>,
                                    book: map<Uuid, EmailStore.DispatchRequest>, action: B.AuthorizedAction)
    requires BookInv(setting, intents, book) && action.intent.id !in intents
    ensures BookInv(setting, intents[action.intent.id := action], book)
  {
    hide BuildRequest;
  }

  lemma {:induction false} BuiltFor(env: B.Env, normalize: string -> Option<string>, sender: string,
                                    action: B.AuthorizedAction)
    requires BuildRequest(env, normalize, sender, action).Ok?
    ensures BuildRequest(env, normalize, sender, action).value.intentId == action.intent.id
  {}

  /** The email service starts on a new intent. */
  lemma {:induction false} LaunchStep(setting: Setting, s: State, w: nat, request: EmailStore.DispatchRequest,
                                      r: Request)
    requires Inv(setting, s) && w !in s.email.workers
    requires request.intentId in s.intents && request.intentId !in s.book
    requires BuildRequest(setting.env, setting.normalize, setting.sender, s.intents[request.intentId]) == Ok(request)
    requires RequestOk(setting, s.broker, s.records, r)
    ensures Inv(setting, With(s.(book := s.book[request.intentId := request],
                                 email := s.email.(workers := s.email.workers[
                                   w := Mail.ExecuteStarted(request, setting.controlledRecipient)])), w, r))
  {
    hide RepoInv, RequestOk, B.BrokerInv, ConsumedInv, IntentInv, BuildRequest;
  }

  /** A request has an email worker only once it has started to send. */
  ghost predicate WorkersInv(requests: map<nat, Request>, workers: map<nat, Mail.Worker>) {
    forall w :: w in workers ==> w in requests && (requests[w].Sending? || requests[w].Sent? || requests[w].Ended?)
  }

  lemma {:induction false} RecordedPermit(setting: Setting, s: State, runId: Uuid, proposalId: Uuid, version: nat,
                                          permitId: Uuid)
    requires Inv(setting, s) && Approved(setting, s.records, runId, proposalId, version, permitId)
    ensures PermitOf(s.broker, permitId, proposalId, version) && OwnedBy(s.broker, proposalId, runId)
    ensures PermitApproved(setting, s.broker, s.records, permitId)
  {
    hide Inv, DigestOf;
    EntryIs(setting, s, ApprovalKey(setting, runId, proposalId, version));
  }

  lemma {:induction false} AuthorizeOk(setting: Setting, s: State, w: nat, now: int, intentId: Uuid)
    requires Inv(setting, s) && w in s.requests && s.requests[w].Committing? && w !in s.email.workers
    requires intentId !in s.intents
    ensures Inv(setting, Authorize(setting, s, w, now, intentId))
  {
    hide Inv, B.BrokerInv, B.BrokerGrows, B.AuthorizeAndConsume, BuildRequest, Approved, PermitApproved, IntentOk,
         ControlledPolicy, CommitContextOf, ConsumeReady;
    var r := s.requests[w];
    RequestIs(setting, s, w);
    var policy, context := ControlledPolicy(setting, r.runId), CommitContextOf(setting, r.runId, r.current);
    var (authorized, b) := B.AuthorizeAndConsume(setting.env, s.broker, r.permitId, policy, context, now, intentId);
    if authorized.Err? {
      RequestStep(setting, s, w, Ended(r.runId, Err(BrokerRefused(authorized.error))));
    } else {
      var action := authorized.value;
      B.AuthorizeKeeps(setting.env, s.broker, r.permitId, policy, context, now, intentId);
      AuthorizeEffect(setting.env, s.broker, r.permitId, policy, context, now, intentId);
      RecordedPermit(setting, s, r.runId, r.version.proposalId, r.version.version, r.permitId);
      GrowsNothing(s.records);
      PermitApprovedKept(setting, s.broker, b, s.records, s.records, r.permitId);
      IntentId(b, intentId, action);
      ReadyToConsume(setting, s, b);
      ConsumeStep(setting, s, b, r.permitId, action);
      Launch(setting, s, w, b, intentId, action);
    }
  }

  lemma GrowsNothing(records: Records)
    ensures RecordsGrow(records, records)
  {}

  lemma IntentId(b: B.BrokerState, id: Uuid, action: B.AuthorizedAction)
    requires IntentOk(b, id, action)
    ensures action.intent.id == id
  {}

  lemma ReadyToConsume(setting: Setting, s: State, b: B.BrokerState)
    requires Inv(setting, s) && B.BrokerInv(setting.env, b) && B.BrokerGrows(s.broker, b)
    ensures ConsumeReady(setting, s, b)
  {}

  lemma {:induction false} NewIntent(setting: Setting, s: State, id: Uuid)
    requires Inv(setting, s) && id !in s.intents
    ensures id !in s.book
  {
    hide BuildRequest, RequestsInv, B.BrokerInv, ConsumedInv, IntentInv, DispatchInv, RepoInv;
  }

  lemma {:induction false} Launch(setting: Setting, s: State, w: nat, b: B.BrokerState, intentId: Uuid,
                                  action: B.AuthorizedAction)
    requires Inv(setting, s) && w !in s.email.workers && intentId !in s.intents && action.intent.id == intentId
    requires w in s.requests && s.requests[w].Committing?
    requires Inv(setting, s.(broker := b, intents := s.intents[intentId := action]))
    ensures var s1 := s.(broker := b, intents := s.intents[intentId := action]);
            var r := s.requests[w];
            var built := BuildRequest(setting.env, setting.normalize, setting.sender, action);
            && (built.Err? ==> Inv(setting, End(s1, w, Err(RequestRefused(built.error)))))
            && (built.Ok? ==>
                  Inv(setting, With(s1.(book := s1.book[intentId := built.value],
                       email := s1.email.(workers := s1.email.workers[
                         w := Mail.ExecuteStarted(built.value, setting.controlledRecipient)])),
                       w, Sending(r.runId, r.version, r.permitId))))
  {
    hide Inv, BuildRequest, RequestOk;
    var s1 := s.(broker := b, intents := s.intents[intentId := action]);
    var r := s.requests[w];
    var built := BuildRequest(setting.env, setting.normalize, setting.sender, action);
    NewIntent(setting, s, intentId);
    if built.Err? {
      EndedOk(setting, b, s.records, Ended(r.runId, Err(RequestRefused(built.error))));
      RequestStep(setting, s1, w, Ended(r.runId, Err(RequestRefused(built.error))));
    } else {
      BuiltFor(setting.env, setting.normalize, setting.sender, action);
      SendingOk(setting, b, s.records, Sending(r.runId, r.version, r.permitId));
      LaunchStep(setting, s1, w, built.value, Sending(r.runId, r.version, r.permitId));
    }
  }

  lemma SendingOk(setting: Setting, b: B.BrokerState, records: Records, r: Request)
    requires r.Sending? || r.Sent?
    ensures RequestOk(setting, b, records, r)
  {}

  // ----- The email service -----

  /** A step of the service moves one worker forward; a dispatch ends its time before the dispatch. */
  lemma {:induction false} MailMoves(cfg: Mail.Config, e: Mail.System, step: Mail.Event)
    requires Mail.Enabled(cfg, e, step) && !step.StartExecute? && !step.StartReconcile? && !step.Vanish?
    ensures step.w in e.workers && var e' := Mail.Step(cfg, e, step);
            && step.w in e'.workers && e'.workers == e.workers[step.w := e'.workers[step.w]]
            && e'.workers[step.w].request == e.workers[step.w].request
            && (BeforeDispatch(e'.workers[step.w]) ==> BeforeDispatch(e.workers[step.w]) && !Dispatches(cfg, e, step))
            && (Dispatches(cfg, e, step) ==> BeforeDispatch(e.workers[step.w]))
  {
    hide EmailStore.Ensure, EmailStore.CompareAndSet, EmailStore.Get, EmailProvider.Dispatch, EmailProvider.Reconcile,
         Mail.ClaimReport, Mail.ClosingReport, Mail.ClosingState;
  }

  lemma {:induction false} DispatchMoves(book: map<Uuid, EmailStore.DispatchRequest>, workers: map<nat, Mail.Worker>,
                                         dispatched: seq<Uuid>, w: nat, worker: Mail.Worker, dispatches: bool)
    requires DispatchInv(book, workers, dispatched) && w in workers && worker.request == workers[w].request
    requires BeforeDispatch(worker) ==> BeforeDispatch(workers[w]) && !dispatches
    requires dispatches ==> BeforeDispatch(workers[w])
    ensures DispatchInv(book, workers[w := worker],
                        if dispatches then dispatched + [workers[w].request.intentId] else dispatched)
  {}

  lemma {:induction false} MailOk(setting: Setting, s: State, step: Mail.Event)
    requires Inv(setting, s) && step.w in s.email.workers && Mail.Enabled(MailConfig(setting), s.email, step)
    requires !step.StartExecute? && !step.StartReconcile? && !step.Vanish?
    ensures Inv(setting, Mailing(setting, s, step))
  {
    hide Mail.Step, Mail.Enabled, Dispatches, DispatchInv, RepoInv, RequestsInv, B.BrokerInv, ConsumedInv, IntentInv,
         BookInv;
    MailMoves(MailConfig(setting), s.email, step);
    var e' := Mail.Step(MailConfig(setting), s.email, step);
    DispatchMoves(s.book, s.email.workers, s.dispatched, step.w, e'.workers[step.w],
                  Dispatches(MailConfig(setting), s.email, step));
  }

  lemma {:induction false} ReturnedOk(setting: Setting, s: State, w: nat)
    requires Inv(setting, s) && w in s.requests && s.requests[w].Sending? && w in s.email.workers
    requires s.email.workers[w].Finished?
    ensures Inv(setting, Returned(s, w))
  {
    hide Inv, RequestOk;
    var r := Returned(s, w).requests[w];
    if r.Ended? { EndedOk(setting, s.broker, s.records, r); } else { SendingOk(setting, s.broker, s.records, r); }
    RequestStep(setting, s, w, r);
  }

  lemma {:induction false} DropWorker(setting: Setting, s: State, w: nat)
    requires Inv(setting, s)
    ensures Inv(setting, s.(email := s.email.(workers := s.email.workers - {w})))
  {
    hide RepoInv, RequestsInv, B.BrokerInv, ConsumedInv, IntentInv, BookInv;
  }

  lemma {:induction false} AbandonOk(setting: Setting, s: State, w: nat)
    requires Inv(setting, s) && w in s.requests
    ensures Inv(setting, End(s.(email := s.email.(workers := s.email.workers - {w})), w, Err(Cancelled)))
  {
    hide Inv, RequestOk;
    var s1 := s.(email := s.email.(workers := s.email.workers - {w}));
    DropWorker(setting, s, w);
    EndedOk(setting, s.broker, s.records, Ended(s.requests[w].runId, Err(Cancelled)));
    RequestStep(setting, s1, w, Ended(s.requests[w].runId, Err(Cancelled)));
  }

  // ----- Every step -----

  lemma {:induction false} SnapshotTaken(setting: Setting, s: State, w: nat, listing: seq<IntegrationRecord>)
    requires Inv(setting, s) && w in s.requests && s.requests[w].Received?
    requires IsListing(s.records, s.requests[w].runId, listing)
    ensures Inv(setting, With(s, w, Listed(s.requests[w].runId, s.requests[w].command, listing)))
  {
    hide Inv;
    RequestStep(setting, s, w, Listed(s.requests[w].runId, s.requests[w].command, listing));
  }

  lemma {:induction false} Arrives(setting: Setting, s: State, w: nat, r: Request)
    requires Inv(setting, s) && (r.Received? || r.Preparing?)
    ensures Inv(setting, With(s, w, r))
  {
    hide Inv;
    RequestStep(setting, s, w, r);
  }

  lemma {:induction false} StepKeeps(setting: Setting, s: State, e: Event)
    requires Inv(setting, s) && WorkersInv(s.requests, s.email.workers) && Enabled(setting, s, e)
    ensures Inv(setting, Step(setting, s, e))
  {
    hide Inv, IsListing, Mail.Enabled, Locate, See, Read, Check, CommitSee, CommitRead, Create, Edit, Issue, Record,
         Authorize, Mailing, Returned;
    match e
    case Receive(w, runId, command) => Arrives(setting, s, w, Received(runId, command));
    case Prepare(w, runId, content) => Arrives(setting, s, w, Preparing(runId, content));
    case CreateStep(w, proposalId, revisionId) => CreateOk(setting, s, w, proposalId, revisionId);
    case ListStep(w, listing) => SnapshotTaken(setting, s, w, listing);
    case LocateStep(w, listing) => LocateOk(setting, s, w, listing);
    case SeeStep(w) => SeeOk(setting, s, w);
    case ReadStep(w) => ReadOk(setting, s, w);
    case EditStep(w) => EditOk(setting, s, w);
    case CheckStep(w, listing) => CheckOk(setting, s, w, listing);
    case IssueStep(w, decisionId, permitId, nonce, now) => IssueOk(setting, s, w, decisionId, permitId, nonce, now);
    case CommitSeeStep(w) => CommitReadsOk(setting, s, w);
    case CommitReadStep(w) => CommitReadsOk(setting, s, w);
    case AuthorizeStep(w, now, intentId) => AuthorizeOk(setting, s, w, now, intentId);
    case MailStep(step) => MailOk(setting, s, step);
    case ReturnStep(w) => ReturnedOk(setting, s, w);
    case RecordStep(w, at) => RecordOk(setting, s, w, at);
    case Abandon(w) => AbandonOk(setting, s, w);
  }

  lemma {:induction false} WorkersWith(requests: map<nat, Request>, workers: map<nat, Mail.Worker>, w: nat, r: Request)
    requires WorkersInv(requests, workers)
    requires w in workers ==> r.Sending? || r.Sent? || r.Ended?
    ensures WorkersInv(requests[w := r], workers)
  {}

  /** Steps that leave the email service alone replace one request. */
  predicate Quiet(e: Event) {
    !e.MailStep? && !e.AuthorizeStep? && !e.Abandon?
  }

  ghost predicate Replaces(s: State, s': State, w: nat) {
    s'.email == s.email && w in s'.requests && s'.requests == s.requests[w := s'.requests[w]]
    && (w in s.requests && s.requests[w].Sending? ==> s'.requests[w].Sent? || s'.requests[w].Ended?)
    && (w in s.requests && (s.requests[w].Sent? || s.requests[w].Ended?) ==> s'.requests[w].Ended?)
  }

  lemma {:induction false} ReadReplaces(s: State, w: nat, listing: seq<IntegrationRecord>)
    requires w in s.requests
    ensures s.requests[w].Listed? ==> Replaces(s, Locate(s, w, listing), w)
    ensures s.requests[w].Located? ==> Replaces(s, See(s, w), w)
    ensures s.requests[w].Seen? ==> Replaces(s, Read(s, w), w)
    ensures s.requests[w].Deciding? ==> Replaces(s, Check(s, w, listing), w)
    ensures s.requests[w].Permitted? ==> Replaces(s, CommitSee(s, w), w)
    ensures s.requests[w].CommitSeen? ==> Replaces(s, CommitRead(s, w), w)
  {
    hide LastProposal, LastDecision, Choose, B.GetProposal, B.GetVersion;
  }

  lemma {:induction false} WriteReplaces(setting: Setting, s: State, e: Event)
    requires Enabled(setting, s, e) && (e.CreateStep? || e.EditStep? || e.IssueStep? || e.RecordStep? || e.ReturnStep?)
    ensures Replaces(s, Step(setting, s, e), e.w)
  {
    hide IsListing, Mail.Enabled, Mailing, B.CreateProposal, B.EditProposal, B.IssuePermit, Put, FinalRecord,
         ApprovalOf,
         Locate, See, Read, Check, CommitSee, CommitRead, Authorize;
  }

  lemma {:induction false} QuietReplaces(setting: Setting, s: State, e: Event)
    requires Enabled(setting, s, e) && Quiet(e)
    ensures Replaces(s, Step(setting, s, e), e.w)
  {
    hide IsListing, Mail.Enabled, Mailing, Locate, See, Read, Check, CommitSee, CommitRead, Create, Edit, Issue, Record,
         Authorize, Returned;
    if e.CreateStep? || e.EditStep? || e.IssueStep? || e.RecordStep? || e.ReturnStep? {
      WriteReplaces(setting, s, e);
    } else if e.w in s.requests {
      ReadReplaces(s, e.w, if e.LocateStep? || e.CheckStep? then e.listing else []);
    }
  }

  lemma {:induction false} AuthorizeWorkers(setting: Setting, s: State, w: nat, now: int, intentId: Uuid)
    requires WorkersInv(s.requests, s.email.workers) && w in s.requests && s.requests[w].Committing?
    ensures WorkersInv(Authorize(setting, s, w, now, intentId).requests,
                       Authorize(setting, s, w, now, intentId).email.workers)
  {
    hide B.AuthorizeAndConsume, BuildRequest, ControlledPolicy, CommitContextOf;
  }

  lemma {:induction false} WorkersKept(setting: Setting, s: State, e: Event)
    requires WorkersInv(s.requests, s.email.workers) && Enabled(setting, s, e)
    ensures WorkersInv(Step(setting, s, e).requests, Step(setting, s, e).email.workers)
  {
    hide IsListing, Mail.Enabled, Mail.Step, Locate, See, Read, Check, CommitSee, CommitRead, Create, Edit, Issue,
         Record, Authorize, Returned, Dispatches;
    if e.MailStep? { MailMoves(MailConfig(setting), s.email, e.step); }
    else if e.AuthorizeStep? { AuthorizeWorkers(setting, s, e.w, e.now, e.intentId); }
    else if Quiet(e) {
      QuietReplaces(setting, s, e);
      WorkersWith(s.requests, s.email.workers, e.w, Step(setting, s, e).requests[e.w]);
    }
  }
}
