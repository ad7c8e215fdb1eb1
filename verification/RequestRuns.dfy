/** However requests interleave, a proposal version is dispatched at most once, and only with the
    exact bytes that were approved for it. */
module RequestRuns {
  import opened Text
  import opened Repository
  import opened EmailRequest
  import opened Requests
  import opened RequestInvariant
  import opened CanonicalRoundTrip
  import opened Wrappers
  import B = Broker
  import Mail = EmailProtocol

  // ----- Runs -----

  datatype Run = Run(states: seq<State>, events: seq<Event>)

  ghost predicate Starts(s: State) {
    && s.broker == B.EMPTY_BROKER && s.records == map[] && s.requests == map[] && s.intents == map[] && s.book == map[]
    && s.dispatched == [] && s.email.workers == map[]
  }

  ghost predicate IsRun(setting: Setting, r: Run) {
    && |r.states| == |r.events| + 1 && Starts(r.states[0])
    && forall k :: 0 <= k < |r.events| ==>
         Enabled(setting, r.states[k], r.events[k]) && r.states[k + 1] == Step(setting, r.states[k], r.events[k])
  }

  lemma {:induction false} StartsInv(setting: Setting, s: State)
    requires Starts(s)
    ensures Inv(setting, s) && WorkersInv(s.requests, s.email.workers)
  {}

  lemma {:induction false} RunInv(setting: Setting, r: Run, k: nat)
    requires IsRun(setting, r) && k < |r.states|
    ensures Inv(setting, r.states[k]) && WorkersInv(r.states[k].requests, r.states[k].email.workers)
  {
    hide Inv, WorkersInv, Enabled, Step;
    if k == 0 {
      StartsInv(setting, r.states[0]);
    } else {
      RunInv(setting, r, k - 1);
      StepKeeps(setting, r.states[k - 1], r.events[k - 1]);
      WorkersKept(setting, r.states[k - 1], r.events[k - 1]);
    }
  }

  // ----- The theorems -----

  /** The authorized action of the i-th dispatch. */
  ghost predicate DispatchOf(s: State, i: nat, proposalId: Uuid, version: nat) {
    && i < |s.dispatched| && s.dispatched[i] in s.intents
    && s.intents[s.dispatched[i]].intent.proposalId == proposalId
    && s.intents[s.dispatched[i]].intent.proposalVersion == version
  }

  lemma {:induction false} OneApprovalOneIntent(setting: Setting, s: State, a: Uuid, b: Uuid)
    requires ConsumedInv(setting, s.broker, s.records) && IntentInv(s.broker, s.intents) && a in s.intents
    requires b in s.intents
    requires s.intents[a].intent.proposalId == s.intents[b].intent.proposalId
    requires s.intents[a].intent.proposalVersion == s.intents[b].intent.proposalVersion
    ensures a == b
  {
    assert IntentOk(s.broker, a, s.intents[a]) && IntentOk(s.broker, b, s.intents[b]);
    assert PermitApproved(setting, s.broker, s.records, s.intents[a].intent.permitId);
    assert PermitApproved(setting, s.broker, s.records, s.intents[b].intent.permitId);
  }

  /** However edit, approve, reject and execute requests interleave, `provider.dispatch` is called
      at most once for each version of a proposal. */
  lemma {:induction false} DispatchedAtMostOnce(setting: Setting, r: Run, k: nat, i: nat, j: nat, proposalId: Uuid,
                                                version: nat)
    requires IsRun(setting, r) && k < |r.states|
    requires DispatchOf(r.states[k], i, proposalId, version) && DispatchOf(r.states[k], j, proposalId, version)
    ensures i == j
  {
    RunInv(setting, r, k);
    var s := r.states[k];
    hide IsRun, B.BrokerInv, RepoInv, RequestsInv, BookInv, ConsumedInv, IntentInv;
    OneApprovalOneIntent(setting, s, s.dispatched[i], s.dispatched[j]);
  }

  lemma {:induction false} DispatchedIsBooked(setting: Setting, s: State, i: nat)
    requires Inv(setting, s) && i < |s.dispatched|
    ensures s.dispatched[i] in s.book && s.dispatched[i] in s.intents
    ensures BuildRequest(setting.env, setting.normalize, setting.sender, s.intents[s.dispatched[i]])
         == Ok(s.book[s.dispatched[i]])
  {
    hide BuildRequest, RequestsInv, RepoInv, ConsumedInv, IntentInv, B.BrokerInv;
  }

  ghost predicate ApprovedBytes(setting: Setting, b: B.BrokerState, records: Records, action: B.AuthorizedAction) {
    && action.intent.proposalId in b.proposals
    && var record := b.proposals[action.intent.proposalId];
       var key := ApprovalKey(setting, record.proposal.runId, action.intent.proposalId, action.intent.proposalVersion);
       && action.intent.proposalVersion in record.versions
       && action.canonicalPayload == record.versions[action.intent.proposalVersion].canonicalPayload
       && IsCanonical(action.canonicalPayload)
       && key in records
       && records[key].payload.DecisionEntry? && records[key].payload.decision == Approve
       && records[key].payload.permitId == Some(action.intent.permitId)
       && records[key].payload.digest == action.intent.fingerprint == setting.env.sha(action.canonicalPayload)
  }

  lemma {:induction false} IntentIsApproved(setting: Setting, s: State, id: Uuid)
    requires Inv(setting, s) && id in s.intents
    ensures ApprovedBytes(setting, s.broker, s.records, s.intents[id])
  {
    hide Inv, IsCanonical, OwnedBy, B.BrokerInv;
    var action := s.intents[id];
    IntentFacts(setting, s, id);
    EntryIs(setting, s, ApprovalKey(setting, s.broker.proposals[action.intent.proposalId].proposal.runId,
                                    action.intent.proposalId, action.intent.proposalVersion));
  }

  lemma {:induction false} IntentFacts(setting: Setting, s: State, id: Uuid)
    requires Inv(setting, s) && id in s.intents
    ensures var intent := s.intents[id].intent;
            && IntentOk(s.broker, id, s.intents[id]) && PermitApproved(setting, s.broker, s.records, intent.permitId)
            && B.VersionOk(setting.env, intent.proposalId, intent.proposalVersion,
                           s.broker.proposals[intent.proposalId].versions[intent.proposalVersion])
  {
    hide RequestsInv, RepoInv, BookInv, DispatchInv, B.PermitOk, B.VersionOk, PermitApproved;
    var intent := s.intents[id].intent;
    assert IntentOk(s.broker, id, s.intents[id]);
    assert B.RecordOk(setting.env, intent.proposalId, s.broker.proposals[intent.proposalId]);
  }

  /** Every dispatch carries the bytes of a version whose approval, with the digest of those bytes, is
      on record. */
  lemma {:induction false} DispatchedWasApproved(setting: Setting, r: Run, k: nat, i: nat)
    requires IsRun(setting, r) && k < |r.states| && i < |r.states[k].dispatched|
    ensures var s := r.states[k];
            var id := s.dispatched[i];
            && id in s.intents && id in s.book
            && BuildRequest(setting.env, setting.normalize, setting.sender, s.intents[id]) == Ok(s.book[id])
            && ApprovedBytes(setting, s.broker, s.records, s.intents[id])
  {
    hide IsRun, Inv, BuildRequest, IsCanonical;
    RunInv(setting, r, k);
    DispatchedIsBooked(setting, r.states[k], i);
    IntentIsApproved(setting, r.states[k], r.states[k].dispatched[i]);
  }

  // ----- Edits -----

  lemma {:induction false} QuietSteps(setting: Setting, s: State, e: Event)
    requires Enabled(setting, s, e)
    ensures !e.CreateStep? && !e.EditStep? && !e.IssueStep? && !e.AuthorizeStep? ==>
              Step(setting, s, e).broker == s.broker
    ensures !e.AuthorizeStep? ==> Step(setting, s, e).intents == s.intents
  {
    hide IsListing, Mail.Enabled, Mail.Step, LastProposal, LastDecision, Choose, B.GetProposal, B.GetVersion,
         B.CreateProposal,
         B.EditProposal, B.IssuePermit, Put, FinalRecord, ApprovalOf, Authorize, Dispatches;
  }

  lemma {:induction false} BrokerSteps(setting: Setting, s: State, e: Event)
    requires Enabled(setting, s, e) && B.BrokerInv(setting.env, s.broker)
    requires e.CreateStep? || e.EditStep? || e.IssueStep?
    ensures B.BrokerGrows(s.broker, Step(setting, s, e).broker)
  {
    hide B.BrokerInv, B.BrokerGrows, B.CreateProposal, B.EditProposal, B.IssuePermit, ApprovalOf, IsListing,
         Mail.Enabled, Mailing, Locate, See, Read,
         Check, CommitSee, CommitRead, Record, Authorize, Returned;
    B.BrokerGrowsReflexive(s.broker);
    var r := s.requests[e.w];
    if e.CreateStep? { B.CreateKeeps(setting.env, s.broker, e.proposalId, r.runId, e.revisionId, "email.send",
                                     r.content); }
    else if e.EditStep? {
      B.EditKeeps(setting.env, s.broker, r.version.proposalId,
                  B.Content(r.payload, r.version.attachmentIds, r.version.attachmentSha));
    } else { B.IssueKeeps(setting.env, s.broker, ApprovalOf(setting, r, e.decisionId, e.now), e.permitId, e.nonce); }
  }

  /** An authorization is for the version that is current at that moment. */
  lemma {:induction false} AuthorizeIsCurrent(setting: Setting, s: State, w: nat, now: int, intentId: Uuid)
    requires B.BrokerInv(setting.env, s.broker) && w in s.requests && s.requests[w].Committing?
    requires intentId !in s.intents
    ensures var s' := Authorize(setting, s, w, now, intentId);
            && B.BrokerGrows(s.broker, s'.broker)
            && (forall id :: id in s.intents ==> id in s'.intents && s'.intents[id] == s.intents[id])
            && forall id :: id in s'.intents && id !in s.intents ==>
                 s'.intents[id].intent.proposalId in s.broker.proposals
                 && s'.intents[id].intent.proposalVersion
                    == s.broker.proposals[s'.intents[id].intent.proposalId].proposal.currentVersion
  {
    hide B.BrokerInv, B.BrokerGrows, B.AuthorizeAndConsume, BuildRequest, ControlledPolicy, CommitContextOf;
    B.BrokerGrowsReflexive(s.broker);
    var r := s.requests[w];
    var policy, context := ControlledPolicy(setting, r.runId), CommitContextOf(setting, r.runId, r.current);
    B.AuthorizeKeeps(setting.env, s.broker, r.permitId, policy, context, now, intentId);
    if B.AuthorizeAndConsume(setting.env, s.broker, r.permitId, policy, context, now, intentId).0.Ok? {
      AuthorizedCurrent(setting.env, s.broker, r.permitId, policy, context, now, intentId);
    }
  }

  lemma {:induction false} AuthorizedCurrent(env: B.Env, b: B.BrokerState, permitId: Uuid, policy: B.EffectivePolicy,
                                             context: B.CommitContext, now: int, intentId: Uuid)
    requires B.AuthorizeAndConsume(env, b, permitId, policy, context, now, intentId).0.Ok?
    ensures var intent := B.AuthorizeAndConsume(env, b, permitId, policy, context, now, intentId).0.value.intent;
            && intent.proposalId in b.proposals
            && intent.proposalVersion == b.proposals[intent.proposalId].proposal.currentVersion
  {
    hide B.PayloadRefusal;
  }

  /** The version is no longer current, and nothing was authorized for it. */
  ghost predicate Superseded(s: State, proposalId: Uuid, version: nat) {
    && proposalId in s.broker.proposals && version < s.broker.proposals[proposalId].proposal.currentVersion
    && forall id :: id in s.intents ==>
          s.intents[id].intent.proposalId != proposalId || s.intents[id].intent.proposalVersion != version
  }

  lemma {:induction false} SupersededStays(setting: Setting, s: State, e: Event, proposalId: Uuid, version: nat)
    requires Enabled(setting, s, e) && B.BrokerInv(setting.env, s.broker) && Superseded(s, proposalId, version)
    ensures Superseded(Step(setting, s, e), proposalId, version)
  {
    hide Enabled, Step, B.BrokerInv, Authorize;
    if e.AuthorizeStep? {
      AuthorizeStepIs(setting, s, e);
      AuthorizeIsCurrent(setting, s, e.w, e.now, e.intentId);
    } else {
      QuietSteps(setting, s, e);
      if e.CreateStep? || e.EditStep? || e.IssueStep? { BrokerSteps(setting, s, e); }
    }
  }

  lemma {:induction false} AuthorizeStepIs(setting: Setting, s: State, e: Event)
    requires Enabled(setting, s, e) && e.AuthorizeStep?
    ensures e.w in s.requests && s.requests[e.w].Committing? && e.intentId !in s.intents
    ensures Step(setting, s, e) == Authorize(setting, s, e.w, e.now, e.intentId)
  {
    hide Authorize;
  }

  /** Once a proposal was edited past a version that was not yet authorized, that version is never
      dispatched, whatever was approved for it before. */
  lemma {:induction false} SupersededNeverDispatched(setting: Setting, r: Run, j: nat, k: nat, i: nat, proposalId: Uuid,
                                                     version: nat)
    requires IsRun(setting, r) && j <= k < |r.states| && Superseded(r.states[j], proposalId, version)
    ensures Superseded(r.states[k], proposalId, version)
    ensures !DispatchOf(r.states[k], i, proposalId, version)
    decreases k
  {
    hide Superseded, Step, Enabled, Inv;
    if j < k {
      SupersededNeverDispatched(setting, r, j, k - 1, i, proposalId, version);
      RunInv(setting, r, k - 1);
      BrokerIs(setting, r.states[k - 1]);
      SupersededStays(setting, r.states[k - 1], r.events[k - 1], proposalId, version);
    }
    SupersededMeans(r.states[k], i, proposalId, version);
  }

  lemma {:induction false} BrokerIs(setting: Setting, s: State)
    requires Inv(setting, s)
    ensures B.BrokerInv(setting.env, s.broker)
  {
    hide RequestsInv, RepoInv, ConsumedInv, IntentInv, BookInv, DispatchInv;
  }

  lemma SupersededMeans(s: State, i: nat, proposalId: Uuid, version: nat)
    requires Superseded(s, proposalId, version)
    ensures !DispatchOf(s, i, proposalId, version)
  {}
}
