/** What requests record and how they end (integration/service.py:471-690). */
module RequestOutcomes {
  import opened Wrappers
  import opened Text
  import opened Repository
  import opened EmailRequest
  import opened Requests
  import opened RequestInvariant
  import opened RequestRuns
  import opened RequestMailbox
  import CanonicalJson
  import B = Broker
  import BrokerRuns
  import BrokerPolicy
  import Mail = EmailProtocol
  import Outcomes

  // ----- What is in the records -----

  /** A request that has sent its mail holds the state of the record that the email service returned. */
  ghost predicate SentOk(s: State, w: nat) {
    w in s.requests && s.requests[w].Sent? ==>
      w in s.email.workers && s.email.workers[w].Finished? && s.email.workers[w].outcome.Ok?
      && s.email.workers[w].outcome.value.state == s.requests[w].outcome
  }

  ghost predicate EditOk(s: State, w: nat) {
    w in s.requests && s.requests[w].EditDone? ==> VersionKnown(s.broker, s.requests[w].version)
  }

  /** A recorded version has the digest that was recorded. */
  ghost predicate VersionOk(b: B.BrokerState, record: IntegrationRecord) {
    var entry := record.payload;
    entry.VersionEntry? ==> DigestOf(b, entry.proposalId, entry.version, entry.digest)
  }

  ghost predicate OutcomeInv(s: State) {
    && (forall w :: SentOk(s, w) && EditOk(s, w))
    && (forall key :: key in s.records ==> VersionOk(s.broker, s.records[key]))
  }

  // ----- Shapes of steps -----

  /** The step replaces one request by one that has not just sent or edited, and writes no record. */
  ghost predicate Reads(s: State, s': State, w: nat) {
    && Replaces(s, s', w) && s'.records == s.records && !s'.requests[w].Sent? && !s'.requests[w].EditDone?
  }

  lemma ChoiceIs(runId: Uuid, snapshot: seq<IntegrationRecord>, v: B.ProposalVersion)
    ensures Choose(runId, snapshot, v).Ended? || Choose(runId, snapshot, v).Permitted?
  {
    hide LastDecision, Executed;
  }

  lemma {:induction false} VersionReads(s: State, w: nat)
    requires w in s.requests && s.requests[w].Seen?
    ensures Reads(s, Read(s, w), w)
  {
    hide B.GetVersion, Choose;
    var r := s.requests[w];
    var found := B.GetVersion(s.broker, r.proposal.id, r.proposal.currentVersion);
    if found.Ok? { ChoiceIs(r.runId, r.snapshot, found.value); }
  }

  lemma {:induction false} ListingReads(s: State, w: nat, listing: seq<IntegrationRecord>)
    requires w in s.requests
    ensures s.requests[w].Listed? ==> Reads(s, Locate(s, w, listing), w)
    ensures s.requests[w].Deciding? ==> Reads(s, Check(s, w, listing), w)
  {
    hide LastProposal, LastDecision;
  }

  lemma {:induction false} BrokerReads(s: State, w: nat)
    requires w in s.requests
    ensures s.requests[w].Located? ==> Reads(s, See(s, w), w)
    ensures s.requests[w].Permitted? ==> Reads(s, CommitSee(s, w), w)
    ensures s.requests[w].CommitSeen? ==> Reads(s, CommitRead(s, w), w)
  {
    hide B.GetProposal, B.GetVersion;
  }

  lemma {:induction false} CreatesOnly(setting: Setting, s: State, e: Event)
    requires Enabled(setting, s, e) && (e.CreateStep? || e.IssueStep?)
    ensures Reads(s, Step(setting, s, e), e.w)
  {
    hide IsListing, Mail.Enabled, Mailing, B.CreateProposal, B.EditProposal, B.IssuePermit, Repository.Put, FinalRecord,
         ApprovalOf, Locate, See, Read, Check, CommitSee, CommitRead, Authorize, Record, Edit, Returned;
  }

  predicate Plain(e: Event) {
    !e.MailStep? && !e.AuthorizeStep? && !e.Abandon? && !e.ReturnStep? && !e.RecordStep? && !e.EditStep?
  }

  lemma {:induction false} PlainReads(setting: Setting, s: State, e: Event)
    requires Enabled(setting, s, e) && Plain(e)
    ensures Reads(s, Step(setting, s, e), e.w)
  {
    hide IsListing, Mail.Enabled, Mailing, Locate, See, Read, Check, CommitSee, CommitRead, Create, Edit, Issue, Record,
         Authorize, Returned;
    if e.CreateStep? || e.IssueStep? {
      CreatesOnly(setting, s, e);
    } else if e.w in s.requests {
      BrokerReads(s, e.w);
      if e.ReadStep? { VersionReads(s, e.w); }
      if e.LocateStep? || e.CheckStep? { ListingReads(s, e.w, e.listing); }
    }
  }

  lemma {:induction false} BrokerOnlyGrows(setting: Setting, s: State, e: Event)
    requires Inv(setting, s) && Enabled(setting, s, e)
    ensures B.BrokerGrows(s.broker, Step(setting, s, e).broker)
  {
    hide Inv, Enabled, Step, B.BrokerInv, B.BrokerGrows, Authorize;
    BrokerIs(setting, s);
    if e.AuthorizeStep? {
      AuthorizeStepIs(setting, s, e);
      AuthorizeIsCurrent(setting, s, e.w, e.now, e.intentId);
    } else {
      QuietSteps(setting, s, e);
      B.BrokerGrowsReflexive(s.broker);
      if e.CreateStep? || e.EditStep? || e.IssueStep? { BrokerSteps(setting, s, e); }
    }
  }

  // ----- The invariant, step by step -----

  /** What stays true while the broker grows. */
  lemma {:induction false} OutcomesKept(s: State, s': State, w: nat)
    requires OutcomeInv(s) && B.BrokerGrows(s.broker, s'.broker)
    requires forall v :: v != w ==>
               (v in s'.requests <==> v in s.requests) && (v in s.requests ==> s'.requests[v] == s.requests[v])
    requires forall v :: v != w && v in s.email.workers ==>
               v in s'.email.workers && s'.email.workers[v] == s.email.workers[v]
    requires SentOk(s', w) && EditOk(s', w)
    requires forall key :: key in s'.records ==>
               (key in s.records && s'.records[key] == s.records[key]) || VersionOk(s'.broker, s'.records[key])
    ensures OutcomeInv(s')
  {
    hide B.BrokerGrows, VersionKnown, DigestOf;
    forall v ensures SentOk(s', v) && EditOk(s', v) {
      if v != w {
        assert SentOk(s, v) && EditOk(s, v);
        if v in s.requests && s.requests[v].EditDone? { VersionKept(s.broker, s'.broker, s.requests[v].version); }
      }
    }
    forall key | key in s'.records ensures VersionOk(s'.broker, s'.records[key]) {
      if key in s.records && s'.records[key] == s.records[key] {
        var p := s.records[key].payload;
        assert VersionOk(s.broker, s.records[key]);
        if p.VersionEntry? { DigestKept(s.broker, s'.broker, p.proposalId, p.version, p.digest); }
      }
    }
  }

  lemma {:induction false} PlainOutcomes(setting: Setting, s: State, e: Event)
    requires Inv(setting, s) && OutcomeInv(s) && Enabled(setting, s, e) && Plain(e)
    ensures OutcomeInv(Step(setting, s, e))
  {
    hide Inv, OutcomeInv, Enabled, Step, B.BrokerGrows, VersionOk;
    BrokerOnlyGrows(setting, s, e);
    PlainReads(setting, s, e);
    OutcomesKept(s, Step(setting, s, e), e.w);
  }

  lemma {:induction false} AuthorizeKinds(setting: Setting, s: State, w: nat, now: int, intentId: Uuid)
    requires w in s.requests && s.requests[w].Committing?
    ensures var s' := Authorize(setting, s, w, now, intentId);
            && w in s'.requests && s'.requests == s.requests[w := s'.requests[w]] && s'.records == s.records
            && (s'.requests[w].Ended? || s'.requests[w].Sending?)
            && (forall v :: v != w && v in s.email.workers ==>
                  v in s'.email.workers && s'.email.workers[v] == s.email.workers[v])
  {
    hide B.AuthorizeAndConsume, BuildRequest, ControlledPolicy, CommitContextOf;
  }

  lemma {:induction false} MailOutcomes(setting: Setting, s: State, step: Mail.Event)
    requires OutcomeInv(s) && Mail.Enabled(MailConfig(setting), s.email, step) && step.w in s.email.workers
    requires !step.StartExecute? && !step.StartReconcile? && !step.Vanish?
    requires step.w in s.requests && s.requests[step.w].Sending?
    ensures OutcomeInv(Mailing(setting, s, step))
  {
    hide OutcomeInv, Mail.Enabled, Mail.Step, Dispatches, VersionOk, B.BrokerGrows;
    MailMoves(MailConfig(setting), s.email, step);
    B.BrokerGrowsReflexive(s.broker);
    OutcomesKept(s, Mailing(setting, s, step), step.w);
  }

  /** What an accepted edit leaves of the version it returns. */
  lemma {:induction false} EditedIsKnown(env: B.Env, b: B.BrokerState, id: Uuid, content: B.Content)
    requires B.EditProposal(env, b, id, content).0.Ok?
    ensures VersionKnown(B.EditProposal(env, b, id, content).1, B.EditProposal(env, b, id, content).0.value.0)
  {
    hide CanonicalJson.Canonical;
  }

  lemma {:induction false} EditOutcome(setting: Setting, s: State, w: nat)
    requires w in s.requests && s.requests[w].Editing?
    ensures var s' := Edit(setting, s, w);
            && s'.email == s.email && s'.records == s.records
            && w in s'.requests && s'.requests == s.requests[w := s'.requests[w]] && !s'.requests[w].Sent?
            && EditOk(s', w)
  {
    hide B.EditProposal, VersionKnown;
    var r := s.requests[w];
    var content := B.Content(r.payload, r.version.attachmentIds, r.version.attachmentSha);
    if B.EditProposal(setting.env, s.broker, r.version.proposalId, content).0.Ok? {
      EditedIsKnown(setting.env, s.broker, r.version.proposalId, content);
    }
  }

  // ----- Recording -----

  /** The content that a request records last. */
  predicate Says(r: Request, payload: Payload) {
    match r
    case EditDone(_, v) => payload == VersionEntry(v.proposalId, v.version, v.sha)
    case Decided(_, decision, approverId, v, issued) =>
      payload == DecisionEntry(v.proposalId, v.version, decision, approverId, issued, v.sha)
    case Sent(_, v, permitId, outcome) =>
      payload == ExecutionEntry(v.proposalId, v.version, permitId, OutcomeText(outcome))
    case Prepared(_, id) => payload == ProposalRef(id)
    case _ => false
  }

  /** Where it records it. */
  function PlaceOf(setting: Setting, r: Request): Key
    requires r.EditDone? || r.Decided? || r.Sent? || r.Prepared?
  {
    match r
    case EditDone(runId, v) => Key(runId, setting.ids.version(runId, v.proposalId, v.version))
    case Decided(runId, decision, _, v, _) =>
      Key(runId, setting.ids.decision(runId, v.proposalId, v.version, decision))
    case Sent(runId, v, _, _) => Key(runId, setting.ids.execution(runId, v.proposalId, v.version))
    case Prepared(runId, id) => Key(runId, id)
  }

  lemma {:induction false} FinalSays(setting: Setting, r: Request, at: int)
    requires r.EditDone? || r.Decided? || r.Sent? || r.Prepared?
    ensures var record := FinalRecord(setting, r, at);
            && Says(r, record.payload) && KeyOf(record) == PlaceOf(setting, r)
            && record.createdAt == record.updatedAt == at
  {
    hide OutcomeText;
  }

  /** The request's own content stands at its place. */
  ghost predicate IsRecorded(setting: Setting, records: Records, r: Request) {
    && (r.EditDone? || r.Decided? || r.Sent? || r.Prepared?)
    && PlaceOf(setting, r) in records && Says(r, records[PlaceOf(setting, r)].payload)
  }

  /** What a request records stands in the records once it ends well; otherwise another content stands under
      its key, and nothing changes. */
  lemma {:induction false} RecordsOrRefuses(setting: Setting, s: State, w: nat, at: int)
    requires w in s.requests && Keyed(s.records)
    requires s.requests[w].EditDone? || s.requests[w].Decided? || s.requests[w].Sent? || s.requests[w].Prepared?
    ensures var r, s' := s.requests[w], Record(setting, s, w, at);
            && w in s'.requests && s'.requests == s.requests[w := s'.requests[w]]
            && s'.email == s.email && s'.broker == s.broker
            && (s'.requests[w] == Ended(r.runId, Ok(())) || (s'.requests[w].Ended? && s'.requests[w].result.Err?))
            && (s'.requests[w].result.Ok? ==> IsRecorded(setting, s'.records, r))
            && (s'.requests[w].result.Err? ==>
                  && s'.records == s.records
                  && PlaceOf(setting, r) in s.records && !Says(r, s.records[PlaceOf(setting, r)].payload))
            && (forall key :: key in s'.records ==>
                  (key in s.records && s'.records[key] == s.records[key]) || Says(r, s'.records[key].payload))
  {
    hide FinalRecord, Says, PlaceOf;
    var r, record := s.requests[w], FinalRecord(setting, s.requests[w], at);
    FinalSays(setting, r, at);
    var key := KeyOf(record);
    if key in s.records {
      SaysOne(r, s.records[key].payload, record.payload);
    } else {
      assert s.records[key := record][key] == record;
    }
  }

  /** A request has one content. */
  lemma {:induction false} SaysOne(r: Request, p: Payload, q: Payload)
    requires Says(r, q)
    ensures Says(r, p) <==> p == q
  {}

  lemma {:induction false} RecordsKeyed(setting: Setting, s: State)
    requires Inv(setting, s)
    ensures Keyed(s.records)
  {
    hide Inv;
    forall key | key in s.records ensures KeyOf(s.records[key]) == key { EntryIs(setting, s, key); }
  }

  lemma {:induction false} RecordOutcome(setting: Setting, s: State, w: nat, at: int)
    requires OutcomeInv(s) && w in s.requests && Keyed(s.records)
    requires s.requests[w].EditDone? || s.requests[w].Decided? || s.requests[w].Sent? || s.requests[w].Prepared?
    ensures OutcomeInv(Record(setting, s, w, at))
  {
    hide OutcomeInv, Record, Says, VersionKnown, DigestOf, B.BrokerGrows;
    RecordsOrRefuses(setting, s, w, at);
    var s' := Record(setting, s, w, at);
    assert EditOk(s, w) by { OutcomesAt(s, w); }
    forall key | key in s'.records
      ensures (key in s.records && s'.records[key] == s.records[key]) || VersionOk(s'.broker, s'.records[key])
    {
      if Says(s.requests[w], s'.records[key].payload) { SaidVersion(s, w, s'.records[key]); }
    }
    B.BrokerGrowsReflexive(s.broker);
    OutcomesKept(s, s', w);
  }

  lemma OutcomesAt(s: State, w: nat)
    requires OutcomeInv(s)
    ensures SentOk(s, w) && EditOk(s, w)
  {}

  lemma SaidVersion(s: State, w: nat, record: IntegrationRecord)
    requires EditOk(s, w) && w in s.requests && Says(s.requests[w], record.payload)
    ensures VersionOk(s.broker, record)
  {}

  // ----- The email service returns -----

  lemma {:induction false} ReturnIs(s: State, w: nat)
    requires w in s.requests && s.requests[w].Sending? && w in s.email.workers && s.email.workers[w].Finished?
    ensures var r, s' := s.requests[w], Returned(s, w);
            && w in s'.requests && s' == s.(requests := s.requests[w := s'.requests[w]])
            && s'.requests[w] == match s.email.workers[w].outcome
               case Err(error) => Ended(r.runId, Err(EmailFailed(error)))
               case Ok(record) => Sent(r.runId, r.version, r.permitId, record.state)
  {}

  lemma {:induction false} StepOutcomes(setting: Setting, s: State, e: Event)
    requires Inv(setting, s) && OutcomeInv(s) && Enabled(setting, s, e)
    ensures OutcomeInv(Step(setting, s, e))
  {
    hide Inv, OutcomeInv, IsListing, Mail.Enabled, Locate, See, Read, Check, CommitSee, CommitRead, Create, Edit, Issue,
         Record, Authorize, Mailing, Returned, B.BrokerGrows, VersionOk, VersionKnown;
    if Plain(e) {
      PlainOutcomes(setting, s, e);
    } else if e.MailStep? {
      MailOutcomes(setting, s, e.step);
    } else if e.RecordStep? {
      RecordsKeyed(setting, s);
      RecordOutcome(setting, s, e.w, e.at);
    } else {
      BrokerOnlyGrows(setting, s, e);
      if e.AuthorizeStep? { AuthorizeKinds(setting, s, e.w, e.now, e.intentId); }
      else if e.EditStep? { EditOutcome(setting, s, e.w); }
      else if e.ReturnStep? { ReturnIs(s, e.w); }
      OutcomesKept(s, Step(setting, s, e), e.w);
    }
  }

  lemma {:induction false} RunOutcomes(setting: Setting, r: Run, k: nat)
    requires IsRun(setting, r) && k < |r.states|
    ensures OutcomeInv(r.states[k])
  {
    hide Inv, WorkersInv, Enabled, Step;
    if k > 0 {
      hide OutcomeInv;
      RunOutcomes(setting, r, k - 1);
      RunInv(setting, r, k - 1);
      StepOutcomes(setting, r.states[k - 1], r.events[k - 1]);
    }
  }

  // ----- The theorems -----

  lemma {:induction false} RunStep(setting: Setting, r: Run, k: nat)
    requires IsRun(setting, r) && k < |r.events|
    ensures |r.states| == |r.events| + 1 && Inv(setting, r.states[k]) && OutcomeInv(r.states[k])
    ensures Keyed(r.states[k].records)
    ensures Enabled(setting, r.states[k], r.events[k])
    ensures r.states[k + 1] == Step(setting, r.states[k], r.events[k])
  {
    hide Inv, WorkersInv, Enabled, Step, OutcomeInv;
    RunInv(setting, r, k);
    RunOutcomes(setting, r, k);
    RecordsKeyed(setting, r.states[k]);
  }

  /** The lower-case names of the outcome states. */
  predicate NamesState(text: string, state: Outcomes.OutcomeState) {
    && (state == Outcomes.Approved <==> text == "approved")
    && (state == Outcomes.Dispatching <==> text == "dispatching")
    && (state == Outcomes.Confirmed <==> text == "confirmed")
    && (state == Outcomes.FailedBeforeEffect <==> text == "failed_before_effect")
    && (state == Outcomes.OutcomeUnknown <==> text == "outcome_unknown")
    && (state == Outcomes.Reconciling <==> text == "reconciling")
    && (state == Outcomes.SafeToRetry <==> text == "safe_to_retry")
    && (state == Outcomes.NeedsOperator <==> text == "needs_operator")
  }

  lemma {:induction false} TextNames(state: Outcomes.OutcomeState)
    ensures NamesState(OutcomeText(state), state)
  {
    assert OutcomeText(state)[0] != OutcomeText(state)[1];
  }

  /** The outcome that an execution records is, in lower case, the state in which the email service left the record
      of its intent. */
  lemma {:induction false} RecordedOutcome(setting: Setting, r: Run, k: nat, w: nat, at: int)
    requires IsRun(setting, r) && k < |r.events| && r.events[k] == RecordStep(w, at)
    requires w in r.states[k].requests && r.states[k].requests[w].Sent?
    ensures |r.states| == |r.events| + 1 && w in r.states[k].email.workers
    ensures var s, s', v := r.states[k], r.states[k + 1], r.states[k].requests[w].version;
            && s.email.workers[w].Finished? && s.email.workers[w].outcome.Ok? && w in s'.requests
            && (s'.requests[w] == Ended(s.requests[w].runId, Ok(())) ==>
                  var key := Key(s.requests[w].runId,
                                 setting.ids.execution(s.requests[w].runId, v.proposalId, v.version));
                  && key in s'.records && s'.records[key].payload.ExecutionEntry?
                  && s'.records[key].payload.proposalId == v.proposalId
                  && s'.records[key].payload.version == v.version
                  && s'.records[key].payload.usedPermitId == s.requests[w].permitId
                  && NamesState(s'.records[key].payload.outcome, s.email.workers[w].outcome.value.state))
  {
    hide IsRun, Inv, OutcomeInv, NamesState, OutcomeText, Record;
    RunStep(setting, r, k);
    var s, s' := r.states[k], r.states[k + 1];
    OutcomesAt(s, w);
    RecordsOrRefuses(setting, s, w, at);
    TextNames(s.requests[w].outcome);
  }

  /** When the email service raises, the request ends with its error and records nothing. */
  lemma {:induction false} RaisedEndsRequest(setting: Setting, r: Run, k: nat, w: nat)
    requires IsRun(setting, r) && k < |r.events| && r.events[k] == ReturnStep(w) && w in r.states[k].email.workers
    requires r.states[k].email.workers[w].Finished? && r.states[k].email.workers[w].outcome.Err?
    ensures |r.states| == |r.events| + 1 && w in r.states[k + 1].requests
    ensures var s, s' := r.states[k], r.states[k + 1];
            && s'.requests[w].Ended? && s'.requests[w].result == Err(EmailFailed(s.email.workers[w].outcome.error))
            && s'.records == s.records
  {
    hide IsRun, Inv, OutcomeInv, Returned;
    RunStep(setting, r, k);
    ReturnIs(r.states[k], w);
  }

  /** A recorded version exists and has the digest that was recorded of it. */
  lemma {:induction false} RecordedVersionExists(setting: Setting, r: Run, k: nat, key: Key)
    requires IsRun(setting, r) && k < |r.states| && key in r.states[k].records
    requires r.states[k].records[key].payload.VersionEntry?
    ensures var entry, b := r.states[k].records[key].payload, r.states[k].broker;
            && entry.proposalId in b.proposals && entry.version in b.proposals[entry.proposalId].versions
            && b.proposals[entry.proposalId].versions[entry.version].sha == entry.digest
  {
    RunOutcomes(setting, r, k);
    hide IsRun;
    assert VersionOk(r.states[k].broker, r.states[k].records[key]);
  }

  // ----- How requests end -----

  ghost predicate EndsWell(s: State, s': State, w: nat) {
    && w in s'.requests && s'.requests[w].Ended? && s'.requests[w].result.Ok?
    && (w in s.requests ==> s.requests[w] != s'.requests[w])
  }

  lemma {:induction false} ChoiceEnds(runId: Uuid, snapshot: seq<IntegrationRecord>, v: B.ProposalVersion)
    ensures var next := Choose(runId, snapshot, v);
            next.Ended? && next.result.Ok? ==>
              exists j :: 0 <= j < |snapshot| && snapshot[j].payload.ExecutionEntry?
                          && snapshot[j].payload.proposalId == v.proposalId && snapshot[j].payload.version == v.version
  {
    hide LastDecision;
  }

  lemma {:induction false} ReadEndsWell(s: State, w: nat)
    requires w in s.requests && s.requests[w].Seen? && EndsWell(s, Read(s, w), w)
    ensures s.requests[w].command.ExecuteCommand?
    ensures exists j, v: B.ProposalVersion :: 0 <= j < |s.requests[w].snapshot|
              && s.requests[w].snapshot[j].payload.ExecutionEntry?
              && s.requests[w].snapshot[j].payload.proposalId == v.proposalId
              && s.requests[w].snapshot[j].payload.version == v.version
              && B.GetVersion(s.broker, s.requests[w].proposal.id, s.requests[w].proposal.currentVersion) == Ok(v)
  {
    hide B.GetVersion, Choose;
    var r := s.requests[w];
    var found := B.GetVersion(s.broker, r.proposal.id, r.proposal.currentVersion);
    if found.Ok? { ChoiceEnds(r.runId, r.snapshot, found.value); }
  }

  lemma {:induction false} CheckEndsWell(s: State, w: nat, listing: seq<IntegrationRecord>)
    requires w in s.requests && s.requests[w].Deciding? && EndsWell(s, Check(s, w, listing), w)
    ensures var r := s.requests[w];
            exists j: nat :: LastAt(listing, r.version.proposalId, r.version.version, j)
                             && listing[j].payload.decision == r.decision
  {
    var r := s.requests[w];
    hide LastDecision, LastAt;
    DecidesOnce(s, w, listing);
    var j: nat :| LastAt(listing, r.version.proposalId, r.version.version, j);
  }

  /** A step changes one request at most. */
  lemma {:induction false} OneRequest(setting: Setting, s: State, e: Event, w: nat)
    requires Enabled(setting, s, e) && Keyed(s.records)
    requires e.MailStep? || e.w != w
    ensures w in Step(setting, s, e).requests ==> w in s.requests && Step(setting, s, e).requests[w] == s.requests[w]
  {
    hide IsListing, Mail.Enabled, Mail.Step, Dispatches, Locate, See, Read, Check, CommitSee, CommitRead, Create, Edit,
         Issue, Record, Authorize, Returned, Says;
    if Plain(e) { PlainReads(setting, s, e); }
    else if e.RecordStep? { RecordsOrRefuses(setting, s, e.w, e.at); }
    else if e.EditStep? { EditOutcome(setting, s, e.w); }
    else if e.AuthorizeStep? { AuthorizeKinds(setting, s, e.w, e.now, e.intentId); }
    else if e.ReturnStep? { ReturnIs(s, e.w); }
  }

  /** The request goes on, or ends with an error. */
  ghost predicate NotWell(s': State, w: nat) {
    w in s'.requests && (s'.requests[w].Ended? ==> s'.requests[w].result.Err?)
  }

  lemma {:induction false} ReadsNotWell(s: State, w: nat, listing: seq<IntegrationRecord>)
    requires w in s.requests
    ensures s.requests[w].Listed? ==> NotWell(Locate(s, w, listing), w)
    ensures s.requests[w].Located? ==> NotWell(See(s, w), w)
    ensures s.requests[w].Permitted? ==> NotWell(CommitSee(s, w), w)
    ensures s.requests[w].CommitSeen? ==> NotWell(CommitRead(s, w), w)
  {
    hide LastProposal, B.GetProposal, B.GetVersion;
  }

  lemma {:induction false} WritesNotWell(setting: Setting, s: State, e: Event)
    requires Enabled(setting, s, e)
    requires e.CreateStep? || e.EditStep? || e.IssueStep? || e.AuthorizeStep? || e.ReturnStep?
    ensures NotWell(Step(setting, s, e), e.w)
  {
    hide IsListing, Mail.Enabled, Mailing, B.CreateProposal, B.EditProposal, B.IssuePermit, B.AuthorizeAndConsume,
         BuildRequest, ControlledPolicy, CommitContextOf, ApprovalOf, Locate, See, Read, Check, CommitSee, CommitRead,
         Record;
  }

  /** No other step ends a request well. */
  lemma {:induction false} OthersDoNotEndWell(setting: Setting, s: State, e: Event, w: nat)
    requires Enabled(setting, s, e) && Keyed(s.records) && EndsWell(s, Step(setting, s, e), w)
    ensures (e.ReadStep? || e.CheckStep? || e.RecordStep?) && e.w == w
  {
    hide IsListing, Mail.Enabled, Mail.Step, Dispatches, Locate, See, Read, Check, CommitSee, CommitRead, Create, Edit,
         Issue, Record, Authorize, Returned;
    if e.MailStep? || e.w != w { OneRequest(setting, s, e, w); }
    else if e.CreateStep? || e.EditStep? || e.IssueStep? || e.AuthorizeStep? || e.ReturnStep? {
      WritesNotWell(setting, s, e);
    } else if e.w in s.requests {
      ReadsNotWell(s, e.w, if e.LocateStep? then e.listing else []);
    }
  }

  /** A request ends well only when its content stands in the records, when the version already carries the same
      decision, or when its execution is already on record. */
  lemma {:induction false} SucceedsOnlyWhenDone(setting: Setting, r: Run, k: nat, w: nat)
    requires IsRun(setting, r) && k < |r.events| && |r.states| == |r.events| + 1
    requires EndsWell(r.states[k], r.states[k + 1], w)
    ensures var s, e := r.states[k], r.events[k];
            && w in s.requests
            && (|| (e.RecordStep? && e.w == w && IsRecorded(setting, r.states[k + 1].records, s.requests[w]))
                || (e.CheckStep? && e.w == w && s.requests[w].Deciding?
                    && exists j: nat ::
                         LastAt(e.listing, s.requests[w].version.proposalId, s.requests[w].version.version, j)
                         && e.listing[j].payload.decision == s.requests[w].decision)
                || (e.ReadStep? && e.w == w && s.requests[w].Seen?
                    && s.requests[w].command.ExecuteCommand?
                    && exists j, v: B.ProposalVersion :: 0 <= j < |s.requests[w].snapshot|
                         && s.requests[w].snapshot[j].payload.ExecutionEntry?
                         && s.requests[w].snapshot[j].payload.proposalId == v.proposalId
                         && s.requests[w].snapshot[j].payload.version == v.version
                         && B.GetVersion(s.broker, s.requests[w].proposal.id,
                                         s.requests[w].proposal.currentVersion) == Ok(v)))
  {
    hide IsRun, Inv, OutcomeInv, EndsWell, LastAt, IsRecorded, Read, Check, Record, B.GetVersion;
    RunStep(setting, r, k);
    var s, e := r.states[k], r.events[k];
    hide Enabled, Step;
    OthersDoNotEndWell(setting, s, e, w);
    EndingStep(setting, s, e);
    if e.ReadStep? { ReadEndsWell(s, w); }
    else if e.CheckStep? { CheckEndsWell(s, w, e.listing); }
    else { RecordsOrRefuses(setting, s, w, e.at); WellIsOk(s, Record(setting, s, w, e.at), w); }
  }

  lemma WellIsOk(s: State, s': State, w: nat)
    requires EndsWell(s, s', w)
    ensures w in s'.requests && s'.requests[w].Ended? && s'.requests[w].result.Ok?
  {}

  lemma EndingStep(setting: Setting, s: State, e: Event)
    requires Enabled(setting, s, e) && (e.ReadStep? || e.CheckStep? || e.RecordStep?)
    ensures e.w in s.requests
    ensures e.ReadStep? ==> s.requests[e.w].Seen? && Step(setting, s, e) == Read(s, e.w)
    ensures e.CheckStep? ==> s.requests[e.w].Deciding? && Step(setting, s, e) == Check(s, e.w, e.listing)
    ensures e.RecordStep? ==>
              (s.requests[e.w].EditDone? || s.requests[e.w].Decided? || s.requests[e.w].Sent?
               || s.requests[e.w].Prepared?)
              && Step(setting, s, e) == Record(setting, s, e.w, e.at)
  {
    hide Read, Check, Record, IsListing;
  }

  // ----- When approvals and commits succeed -----

  /** An approval of the version it read is issued a permit exactly when that version is still current and is an
      e-mail to the controlled recipient, up to case. */
  lemma {:induction false} ApprovalSucceedsIff(setting: Setting, s: State, w: nat, decisionId: Uuid, permitId: Uuid,
                                               nonce: Uuid, now: int)
    requires Inv(setting, s) && w in s.requests && s.requests[w].Approving?
    ensures var r, s' := s.requests[w], Issue(setting, s, w, decisionId, permitId, nonce, now);
            && w in s'.requests && r.version.proposalId in s.broker.proposals
            && if && s.broker.proposals[r.version.proposalId].proposal.currentVersion == r.version.version
                  && r.version.actionType == "email.send" && setting.controlledRecipient != ""
                  && exists recipient ::
                       BrokerPolicy.Carries(r.version.canonicalPayload, "to", recipient)
                       && setting.env.casefold(recipient) == setting.env.casefold(setting.controlledRecipient)
               then s'.requests[w] == Decided(r.runId, Approve, r.approverId, r.version, Some(permitId))
                    && permitId in s'.broker.permits
               else s'.requests[w].Ended? && s'.requests[w].result.Err? && s'.broker == s.broker
  {
    hide Inv, B.BrokerInv, B.IssueRefusal, BrokerPolicy.Carries, OwnedBy;
    var r := s.requests[w];
    RequestIs(setting, s, w);
    var a := ApprovalOf(setting, r, decisionId, now);
    BrokerPolicy.IssuesExactly(setting.env, s.broker, BrokerRuns.IssueOp(a, permitId, nonce), permitId);
  }

  /** A commit succeeds exactly when its permit is unused, unexpired and issued under the run's policy, and the
      version it read is the approved and current one, an e-mail to the controlled recipient, up to case. */
  lemma {:induction false} CommitSucceedsIff(setting: Setting, s: State, w: nat, now: int, intentId: Uuid)
    requires Inv(setting, s) && w in s.requests && s.requests[w].Committing? && intentId !in s.intents
    ensures var r, s' := s.requests[w], Authorize(setting, s, w, now, intentId);
            && w in s'.requests && r.permitId in s.broker.permits
            && var permit := s.broker.permits[r.permitId];
               && permit.proposalId in s.broker.proposals
               && var record := s.broker.proposals[permit.proposalId];
                  && permit.proposalVersion in record.versions
                  && var version := record.versions[permit.proposalVersion];
                     && (intentId in s'.intents <==>
                           && r.permitId !in s.broker.consumed && now < permit.expiresAt
                           && permit.organizationPolicyId == setting.ids.policy(r.runId)
                           && permit.organizationRevision == 1
                           && record.proposal.currentVersion == permit.proposalVersion
                           && record.proposal.status == B.Approved
                           && r.current.version == permit.proposalVersion && r.current.sha == version.sha
                           && r.current.attachmentSha == version.attachmentSha && version.actionType == "email.send"
                           && setting.controlledRecipient != ""
                           && exists recipient ::
                                BrokerPolicy.Carries(version.canonicalPayload, "to", recipient)
                                && setting.env.casefold(recipient)
                                   == setting.env.casefold(setting.controlledRecipient))
  {
    hide Inv, B.AuthorizeRefusal, BrokerPolicy.Carries, BuildRequest, Approved, B.BrokerInv;
    var r := s.requests[w];
    RequestIs(setting, s, w);
    RecordedPermit(setting, s, r.runId, r.version.proposalId, r.version.version, r.permitId);
    PermitStands(setting.env, s.broker, r.permitId);
    var policy, context := ControlledPolicy(setting, r.runId), CommitContextOf(setting, r.runId, r.current);
    BrokerPolicy.AuthorizesExactly(setting.env, s.broker,
                                   BrokerRuns.AuthorizeOp(r.permitId, policy, context, now, intentId), r.permitId);
  }

  lemma PermitStands(env: B.Env, b: B.BrokerState, permitId: Uuid)
    requires B.BrokerInv(env, b) && permitId in b.permits
    ensures B.PermitOk(b, permitId, b.permits[permitId])
  {
    hide B.RecordOk, B.PermitOk;
  }
}
