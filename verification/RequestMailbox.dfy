/** Which requests send, and to whom (integration/service.py:609-690, email/service.py:84-96). */
module RequestMailbox {
  import opened Wrappers
  import opened Text
  import opened Repository
  import opened EmailRequest
  import opened Requests
  import opened RequestInvariant
  import opened RequestRuns
  import B = Broker
  import Mail = EmailProtocol
  import EmailStore
  import EmailProvider

  // ----- Only the controlled recipient is written to -----

  predicate HoldsMailbox(setting: Setting, worker: Mail.Worker) {
    BeforeDispatch(worker) ==> worker.recipient == setting.controlledRecipient
  }

  /** The request's mailbox is the controlled recipient, normalized. */
  predicate ToControlled(setting: Setting, request: EmailStore.DispatchRequest) {
    setting.normalize(setting.controlledRecipient) == Some(request.message.recipient)
  }

  ghost predicate MailboxInv(setting: Setting, s: State) {
    && (forall w :: w in s.email.workers ==> HoldsMailbox(setting, s.email.workers[w]))
    && (forall i :: 0 <= i < |s.dispatched| ==>
          s.dispatched[i] in s.book && ToControlled(setting, s.book[s.dispatched[i]]))
  }

  ghost predicate SameMail(s: State, s': State) {
    s'.email == s.email && s'.book == s.book && s'.dispatched == s.dispatched
  }

  lemma {:induction false} ReadsKeepMail(s: State, w: nat, listing: seq<IntegrationRecord>)
    requires w in s.requests
    ensures s.requests[w].Listed? ==> SameMail(s, Locate(s, w, listing))
    ensures s.requests[w].Located? ==> SameMail(s, See(s, w))
    ensures s.requests[w].Seen? ==> SameMail(s, Read(s, w))
    ensures s.requests[w].Deciding? ==> SameMail(s, Check(s, w, listing))
    ensures s.requests[w].Permitted? ==> SameMail(s, CommitSee(s, w))
    ensures s.requests[w].CommitSeen? ==> SameMail(s, CommitRead(s, w))
  {
    hide LastProposal, LastDecision, Choose, B.GetProposal, B.GetVersion;
  }

  lemma {:induction false} WritesKeepMail(setting: Setting, s: State, e: Event)
    requires Enabled(setting, s, e) && (e.CreateStep? || e.EditStep? || e.IssueStep? || e.RecordStep? || e.ReturnStep?)
    ensures SameMail(s, Step(setting, s, e))
  {
    hide IsListing, Mail.Enabled, Mailing, B.CreateProposal, B.EditProposal, B.IssuePermit, Repository.Put, FinalRecord,
         ApprovalOf, Locate, See, Read, Check, CommitSee, CommitRead, Authorize;
  }

  lemma {:induction false} QuietKeepsMail(setting: Setting, s: State, e: Event)
    requires Enabled(setting, s, e) && Quiet(e)
    ensures SameMail(s, Step(setting, s, e))
  {
    hide IsListing, Mail.Enabled, Mailing, Locate, See, Read, Check, CommitSee, CommitRead, Create, Edit, Issue, Record,
         Authorize, Returned;
    if e.CreateStep? || e.EditStep? || e.IssueStep? || e.RecordStep? || e.ReturnStep? {
      WritesKeepMail(setting, s, e);
    } else if e.w in s.requests {
      ReadsKeepMail(s, e.w, if e.LocateStep? || e.CheckStep? then e.listing else []);
    }
  }

  lemma {:induction false} AuthorizeMail(setting: Setting, s: State, w: nat, now: int, intentId: Uuid)
    requires w in s.requests && s.requests[w].Committing?
    ensures var s' := Authorize(setting, s, w, now, intentId);
            && s'.dispatched == s.dispatched
            && (|| (s'.email.workers == s.email.workers && s'.book == s.book)
                || (intentId in s'.book && s'.book == s.book[intentId := s'.book[intentId]]
                    && s'.email.workers == s.email.workers[
                         w := Mail.ExecuteStarted(s'.book[intentId], setting.controlledRecipient)]))
  {
    hide B.AuthorizeAndConsume, BuildRequest, ControlledPolicy, CommitContextOf;
  }

  lemma {:induction false} MailKeepsRecipient(cfg: Mail.Config, e: Mail.System, step: Mail.Event)
    requires Mail.Enabled(cfg, e, step) && step.w in e.workers && step.w in Mail.Step(cfg, e, step).workers
    requires !step.StartExecute? && !step.StartReconcile? && !step.Vanish?
    ensures var worker, worker' := e.workers[step.w], Mail.Step(cfg, e, step).workers[step.w];
            BeforeDispatch(worker') ==> BeforeDispatch(worker) && worker'.recipient == worker.recipient
  {
    hide EmailStore.Ensure, EmailStore.CompareAndSet, EmailStore.Get, EmailProvider.Dispatch, EmailProvider.Reconcile,
         Mail.ClaimReport, Mail.ClosingReport, Mail.ClosingState;
  }

  /** A step that calls the provider does so for a mailbox that the held recipient normalizes to. */
  lemma {:induction false} CallsNormalized(cfg: Mail.Config, e: Mail.System, step: Mail.Event)
    requires Dispatches(cfg, e, step)
    ensures BeforeDispatch(e.workers[step.w])
    ensures cfg.normalize(e.workers[step.w].recipient) == Some(e.workers[step.w].request.message.recipient)
  {}

  /** A worker's request is the one that was built for its intent. */
  lemma {:induction false} WorkerIsBooked(setting: Setting, s: State, w: nat)
    requires Inv(setting, s) && w in s.email.workers
    ensures s.email.workers[w].request.intentId in s.book
    ensures s.book[s.email.workers[w].request.intentId] == s.email.workers[w].request
  {
    hide BuildRequest, RequestsInv, RepoInv, ConsumedInv, IntentInv, BookInv, B.BrokerInv;
  }

  lemma {:induction false} MailKeepsMailbox(setting: Setting, s: State, step: Mail.Event)
    requires Inv(setting, s) && MailboxInv(setting, s) && step.w in s.email.workers
    requires Mail.Enabled(MailConfig(setting), s.email, step)
    requires !step.StartExecute? && !step.StartReconcile? && !step.Vanish?
    ensures MailboxInv(setting, Mailing(setting, s, step))
  {
    hide Inv, Mail.Enabled, Mail.Step, Dispatches, BeforeDispatch;
    var cfg := MailConfig(setting);
    MailMoves(cfg, s.email, step);
    MailKeepsRecipient(cfg, s.email, step);
    WorkerIsBooked(setting, s, step.w);
    if Dispatches(cfg, s.email, step) { CallsNormalized(cfg, s.email, step); }
  }

  lemma {:induction false} StepMailbox(setting: Setting, s: State, e: Event)
    requires Inv(setting, s) && MailboxInv(setting, s) && Enabled(setting, s, e)
    ensures MailboxInv(setting, Step(setting, s, e))
  {
    hide Inv, MailboxInv, IsListing, Mail.Enabled, Locate, See, Read, Check, CommitSee, CommitRead, Create, Edit, Issue,
         Record, Authorize, Mailing, Returned;
    if e.MailStep? {
      MailKeepsMailbox(setting, s, e.step);
    } else if e.AuthorizeStep? {
      NewIntent(setting, s, e.intentId);
      AuthorizeMail(setting, s, e.w, e.now, e.intentId);
      LaunchedMailbox(setting, s, Authorize(setting, s, e.w, e.now, e.intentId), e.w, e.intentId);
    } else if e.Abandon? {
      FewerWorkers(setting, s, Step(setting, s, e));
    } else {
      QuietKeepsMail(setting, s, e);
      FewerWorkers(setting, s, Step(setting, s, e));
    }
  }

  lemma {:induction false} FewerWorkers(setting: Setting, s: State, s': State)
    requires MailboxInv(setting, s) && s'.book == s.book && s'.dispatched == s.dispatched
    requires forall w :: w in s'.email.workers ==> w in s.email.workers && s'.email.workers[w] == s.email.workers[w]
    ensures MailboxInv(setting, s')
  {
    hide ToControlled, HoldsMailbox;
  }

  lemma {:induction false} LaunchedMailbox(setting: Setting, s: State, s': State, w: nat, intentId: Uuid)
    requires MailboxInv(setting, s) && intentId !in s.book && s'.dispatched == s.dispatched
    requires || (s'.email.workers == s.email.workers && s'.book == s.book)
             || (intentId in s'.book && s'.book == s.book[intentId := s'.book[intentId]]
                 && s'.email.workers == s.email.workers[
                      w := Mail.ExecuteStarted(s'.book[intentId], setting.controlledRecipient)])
    ensures MailboxInv(setting, s')
  {
    hide ToControlled;
  }

  lemma {:induction false} RunMailbox(setting: Setting, r: Run, k: nat)
    requires IsRun(setting, r) && k < |r.states|
    ensures MailboxInv(setting, r.states[k])
  {
    hide Inv, WorkersInv, Enabled, Step;
    if k > 0 {
      hide MailboxInv;
      RunMailbox(setting, r, k - 1);
      RunInv(setting, r, k - 1);
      StepMailbox(setting, r.states[k - 1], r.events[k - 1]);
    }
  }

  /** Every mail that is ever sent goes to the controlled recipient, normalized. */
  lemma {:induction false} DispatchedToControlled(setting: Setting, r: Run, k: nat, i: nat)
    requires IsRun(setting, r) && k < |r.states| && i < |r.states[k].dispatched|
    ensures r.states[k].dispatched[i] in r.states[k].book
    ensures setting.normalize(setting.controlledRecipient)
         == Some(r.states[k].book[r.states[k].dispatched[i]].message.recipient)
  {
    hide IsRun;
    RunMailbox(setting, r, k);
  }

  /** A controlled recipient that is no address of a mailbox is never written to. */
  lemma {:induction false} NoMailboxNoMail(setting: Setting, r: Run, k: nat)
    requires IsRun(setting, r) && k < |r.states| && setting.normalize(setting.controlledRecipient).None?
    ensures r.states[k].dispatched == []
  {
    if r.states[k].dispatched != [] { DispatchedToControlled(setting, r, k, 0); }
  }

  /** The dispatches are listed in the order in which the provider is called. */
  lemma {:induction false} DispatchIsListed(setting: Setting, s: State, w: nat)
    requires Mail.Enabled(MailConfig(setting), s.email, Mail.DispatchStep(w)) && w in s.email.workers
    ensures var s', request := Mailing(setting, s, Mail.DispatchStep(w)), s.email.workers[w].request;
            if setting.normalize(s.email.workers[w].recipient) == Some(request.message.recipient) then
              && s'.dispatched == s.dispatched + [request.intentId]
              && s'.email.provider.dispatchCalls == s.email.provider.dispatchCalls + [request]
            else s'.dispatched == s.dispatched && s'.email.provider == s.email.provider
  {
    var request := s.email.workers[w].request;
    EmailProvider.DispatchRecordsCall(s.email.provider, request);
    hide EmailProvider.Dispatch;
  }

  // ----- Which decision counts -----

  /** Records are listed oldest first, and those of one time by their references. */
  lemma {:induction false} ListingIsOldestFirst(records: Records, runId: Uuid, listing: seq<IntegrationRecord>, i: nat,
                                                j: nat)
    requires IsListing(records, runId, listing) && i < j < |listing|
    ensures listing[i].createdAt <= listing[j].createdAt
    ensures listing[i].createdAt == listing[j].createdAt ==> Below(listing[i].recordRef, listing[j].recordRef)
  {
    hide Below;
    assert Repository.Before(listing[i], listing[j]);
  }

  /** The record at that place is the last decision on the version. */
  predicate LastAt(listing: seq<IntegrationRecord>, proposalId: Uuid, version: nat, k: nat) {
    && k < |listing| && listing[k].payload.DecisionEntry?
    && listing[k].payload.proposalId == proposalId && listing[k].payload.version == version
    && forall m :: k < m < |listing| && listing[m].payload.DecisionEntry? ==>
         listing[m].payload.proposalId != proposalId || listing[m].payload.version != version
  }

  lemma {:induction false} LastDecisionIs(listing: seq<IntegrationRecord>, proposalId: Uuid, version: nat, k: nat)
    requires LastAt(listing, proposalId, version, k)
    ensures LastDecision(listing, proposalId, version) == Some(listing[k])
  {
    if k < |listing| - 1 {
      var last := listing[|listing| - 1];
      assert !Decides(last, proposalId, version);
      LastDecisionIs(listing[..|listing| - 1], proposalId, version, k);
    }
  }

  lemma {:induction false} LastDecisionAt(listing: seq<IntegrationRecord>, proposalId: Uuid, version: nat)
      returns (k: nat)
    requires LastDecision(listing, proposalId, version).Some?
    ensures LastAt(listing, proposalId, version, k)
  {
    if Decides(listing[|listing| - 1], proposalId, version) {
      k := |listing| - 1;
    } else {
      k := LastDecisionAt(listing[..|listing| - 1], proposalId, version);
    }
  }

  /** The last decision on the version approved it with that permit. */
  ghost predicate LastApproved(listing: seq<IntegrationRecord>, v: B.ProposalVersion, permitId: Uuid) {
    exists k: nat :: LastAt(listing, v.proposalId, v.version, k)
                     && listing[k].payload.decision == Approve && listing[k].payload.permitId == Some(permitId)
  }

  /** A request goes on to send with a permit exactly when the last decision on the version approved it with
      that permit and no execution of the version is recorded. */
  lemma {:induction false} SendsIffLastApproved(runId: Uuid, snapshot: seq<IntegrationRecord>, v: B.ProposalVersion,
                                                permitId: Uuid)
    ensures Choose(runId, snapshot, v) == Permitted(runId, v, permitId) <==>
            && LastApproved(snapshot, v, permitId)
            && (forall k :: 0 <= k < |snapshot| && snapshot[k].payload.ExecutionEntry? ==>
                  snapshot[k].payload.proposalId != v.proposalId || snapshot[k].payload.version != v.version)
  {
    var last := LastDecision(snapshot, v.proposalId, v.version);
    if last.Some? {
      var k := LastDecisionAt(snapshot, v.proposalId, v.version);
      forall m: nat | LastAt(snapshot, v.proposalId, v.version, m) ensures last == Some(snapshot[m]) {
        LastDecisionIs(snapshot, v.proposalId, v.version, m);
      }
    } else {
      forall m: nat ensures !LastAt(snapshot, v.proposalId, v.version, m) {
        if LastAt(snapshot, v.proposalId, v.version, m) { LastDecisionIs(snapshot, v.proposalId, v.version, m); }
      }
    }
    hide LastDecision, LastAt;
  }

  /** A second decision changes nothing: it repeats the recorded one or is refused. Without one, an
      approval is issued a permit first, and a rejection is recorded as it is. */
  lemma {:induction false} DecidesOnce(s: State, w: nat, listing: seq<IntegrationRecord>)
    requires w in s.requests && s.requests[w].Deciding?
    ensures var r, next := s.requests[w], Check(s, w, listing).requests[w];
            var decided := exists k: nat :: LastAt(listing, r.version.proposalId, r.version.version, k);
            && (next == Approving(r.runId, r.approverId, r.version) <==> !decided && r.decision == Approve)
            && (next == Decided(r.runId, Reject, r.approverId, r.version, None) <==> !decided && r.decision == Reject)
            && (next.Ended? <==> decided)
            && (forall k: nat :: LastAt(listing, r.version.proposalId, r.version.version, k) ==>
                  (next.result == Ok(()) <==> listing[k].payload.decision == r.decision)
                  && (next.result == Err(AlreadyDecided) <==> listing[k].payload.decision != r.decision))
  {
    var r := s.requests[w];
    forall k: nat | LastAt(listing, r.version.proposalId, r.version.version, k)
      ensures LastDecision(listing, r.version.proposalId, r.version.version) == Some(listing[k])
    {
      LastDecisionIs(listing, r.version.proposalId, r.version.version, k);
    }
    if LastDecision(listing, r.version.proposalId, r.version.version).Some? {
      var k := LastDecisionAt(listing, r.version.proposalId, r.version.version);
    }
  }
}
