/** What the broker lets through (protected_actions/broker.py:57-113, 145-262). */
module BrokerPolicy {
  import opened Wrappers
  import opened Text
  import opened CanonicalJson
  import opened JsonLoads
  import opened CanonicalRoundTrip
  import opened Broker
  import opened BrokerRuns

  /** The text is a JSON object whose first entry under the key is that string. */
  ghost predicate Carries(text: string, key: string, value: string) {
    exists entries: seq<PyEntry>, k: nat :: Loads(text) == Some(PyDict(entries)) && FirstAt(entries, key, k)
                         && entries[k].value == PyStr(value)
  }

  predicate FirstAt(entries: seq<PyEntry>, key: string, k: nat) {
    k < |entries| && entries[k].key == StrKey(key) && forall j :: 0 <= j < k ==> entries[j].key != StrKey(key)
  }

  lemma {:induction false} LookupFirst(entries: seq<PyEntry>, key: string, k: nat)
    requires FirstAt(entries, key, k)
    ensures Lookup(entries, key) == Some(entries[k].value)
  {
    if k > 0 { LookupFirst(entries[1..], key, k - 1); }
  }

  lemma {:induction false} LookupAt(entries: seq<PyEntry>, key: string) returns (k: nat)
    requires Lookup(entries, key).Some?
    ensures FirstAt(entries, key, k)
  {
    if entries[0].key == StrKey(key) {
      k := 0;
    } else {
      k := LookupAt(entries[1..], key);
      k := k + 1;
    }
  }

  /** The policy allows e-mail to a controlled recipient, and the text is addressed to it up to case. */
  ghost predicate ForControlledRecipient(env: Env, text: string, policy: EffectivePolicy) {
    && EmailSend in policy.allowedActions
    && policy.controlledRecipient.Some? && policy.controlledRecipient.value != ""
    && exists recipient :: Carries(text, "to", recipient)
                           && env.casefold(recipient) == env.casefold(policy.controlledRecipient.value)
  }

  lemma {:induction false} PayloadAllowed(env: Env, version: ProposalVersion, policy: EffectivePolicy)
    ensures PayloadRefusal(env, version, policy).None?
       <==> version.actionType == "email.send" && ForControlledRecipient(env, version.canonicalPayload, policy)
  {
    hide Loads, Lookup;
    var loaded := Loads(version.canonicalPayload);
    if loaded.Some? && loaded.value.PyDict? {
      var entries := loaded.value.entries;
      if Lookup(entries, "to").Some? {
        var k := LookupAt(entries, "to");
        LookupFirst(entries, "to", k);
      }
      forall j: nat | FirstAt(entries, "to", j) ensures Lookup(entries, "to") == Some(entries[j].value) {
        LookupFirst(entries, "to", j);
      }
      hide FirstAt;
    }
  }

  // ----- Creating and editing -----

  /** A version holds the canonical text of its content, its digest, and the attachments given with it. */
  ghost predicate Made(env: Env, v: ProposalVersion, id: Uuid, number: nat, actionType: string, content: Content) {
    && v.proposalId == id && v.version == number && v.actionType == actionType
    && Canonical(content.payload) == Ok(v.canonicalPayload) && v.sha == env.sha(v.canonicalPayload)
    && v.attachmentIds == content.attachmentIds && v.attachmentSha == content.attachmentSha
  }

  /** The content can be written canonically, within the bounds of the contract. */
  ghost predicate Makeable(actionType: string, content: Content) {
    && Canonical(content.payload).Ok? && 2 <= |Canonical(content.payload).value| <= 100_000
    && 2 <= |actionType| <= 100 && |content.attachmentIds| == |content.attachmentSha|
  }

  lemma {:induction false} MakesExactly(env: Env, id: Uuid, number: nat, actionType: string, content: Content)
    ensures var made := MakeVersion(env, id, number, actionType, content);
            && (made.Ok? <==> Makeable(actionType, content))
            && (made.Ok? ==> Made(env, made.value, id, number, actionType, content))
            && (Canonical(content.payload).Err? ==> made == Err(NotCanonical(Canonical(content.payload).error)))
  {
    hide Canonical;
  }

  /** A new proposal waits for approval with its first version alone; content that cannot be made is refused
      without any change. */
  lemma {:induction false} CreatesExactly(env: Env, b: BrokerState, id: Uuid, runId: Uuid, revisionId: Uuid,
                                          actionType: string, content: Content)
    ensures var (created, b') := CreateProposal(env, b, id, runId, revisionId, actionType, content);
            && (created.Ok? <==> Makeable(actionType, content)) && b'.permits == b.permits && b'.consumed == b.consumed
            && (created.Err? ==> b' == b)
            && (created.Ok? ==>
                  && Made(env, created.value, id, 1, actionType, content)
                  && id in b'.proposals && b'.proposals == b.proposals[id := b'.proposals[id]]
                  && b'.proposals[id].versions == map[1 := created.value]
                  && b'.proposals[id].proposal.id == id && b'.proposals[id].proposal.runId == runId
                  && b'.proposals[id].proposal.revisionId == revisionId
                  && b'.proposals[id].proposal.currentVersion == 1
                  && b'.proposals[id].proposal.status == PendingApproval)
  {
    hide Made, Makeable, MakeVersion;
    MakesExactly(env, id, 1, actionType, content);
  }

  /** An edit adds the next version, of the same kind of action, and sends the proposal back for approval; the diff
      names both versions and says whether the attachments changed. */
  lemma {:induction false} EditsExactly(env: Env, b: BrokerState, id: Uuid, content: Content)
    requires BrokerInv(env, b) && id in b.proposals
    ensures b.proposals[id].proposal.currentVersion in b.proposals[id].versions
    ensures var (edited, b') := EditProposal(env, b, id, content);
            var record := b.proposals[id];
            var n := record.proposal.currentVersion;
            var previous := record.versions[n];
            && (edited.Ok? <==> Makeable(previous.actionType, content))
            && b'.permits == b.permits && b'.consumed == b.consumed && (edited.Err? ==> b' == b)
            && (edited.Ok? ==>
                  && Made(env, edited.value.0, id, n + 1, previous.actionType, content)
                  && id in b'.proposals && b'.proposals == b.proposals[id := b'.proposals[id]]
                  && b'.proposals[id].versions == record.versions[n + 1 := edited.value.0]
                  && b'.proposals[id].proposal
                     == record.proposal.(currentVersion := n + 1, status := PendingApproval)
                  && edited.value.1.fromVersion == n && edited.value.1.toVersion == n + 1
                  && edited.value.1.proposalId == id
                  && (edited.value.1.attachmentsChanged <==> content.attachmentSha != previous.attachmentSha))
  {
    hide Makeable, MakeVersion, PermitOk, BrokerInv;
    CurrentKnown(env, b, id);
    var record := b.proposals[id];
    var n := record.proposal.currentVersion;
    MakesExactly(env, id, n + 1, record.versions[n].actionType, content);
  }

  lemma CurrentKnown(env: Env, b: BrokerState, id: Uuid)
    requires BrokerInv(env, b) && id in b.proposals
    ensures var n := b.proposals[id].proposal.currentVersion;
            n in b.proposals[id].versions && b.proposals[id].versions[n].version == n
  {
    assert RecordOk(env, id, b.proposals[id]) by { hide RecordOk, PermitOk; }
    hide PermitOk, BrokerInv;
    assert VersionOk(env, id, b.proposals[id].proposal.currentVersion,
                     b.proposals[id].versions[b.proposals[id].proposal.currentVersion]);
  }

  // ----- Issuing -----

  /** A permit is issued exactly for the current version of an e-mail to the controlled recipient, on an allowed
      decision of the policy in force about what the operator saw. */
  lemma {:induction false} IssuesExactly(env: Env, b: BrokerState, op: Op, permitId: Uuid)
    requires op.IssueOp? && op.permitId == permitId
    ensures Issues(env, b, op, permitId) <==>
              var a := op.approval;
              && a.proposalId in b.proposals && a.version in b.proposals[a.proposalId].versions
              && a.version == b.proposals[a.proposalId].proposal.currentVersion && a.ttl > 0
              && a.decision.allowed && a.decision.action == EmailSend
              && a.decision.organizationPolicyId == a.policy.organizationPolicyId
              && a.decision.organizationRevision == a.policy.organizationRevision
              && var version := b.proposals[a.proposalId].versions[a.version];
                 && version.actionType == "email.send"
                 && a.expectedSha == version.sha && a.expectedAttachments == version.attachmentSha
                 && ForControlledRecipient(env, version.canonicalPayload, a.policy)
  {
    hide PayloadRefusal, ForControlledRecipient;
    var a := op.approval;
    if a.proposalId in b.proposals && a.version in b.proposals[a.proposalId].versions {
      PayloadAllowed(env, b.proposals[a.proposalId].versions[a.version], a.policy);
      EmailAllowed(env, b.proposals[a.proposalId].versions[a.version].canonicalPayload, a.policy);
    }
  }

  lemma EmailAllowed(env: Env, text: string, policy: EffectivePolicy)
    ensures ForControlledRecipient(env, text, policy) ==> EmailSend in policy.allowedActions
  {}

  // ----- Authorizing -----

  /** The capabilities, policy and revision of the commit are those of the permit and of the policy in force. */
  predicate InForce(permit: Permit, policy: EffectivePolicy, context: CommitContext) {
    && "protected_action.execute" in context.capabilities
    && permit.organizationPolicyId == context.organizationPolicyId == policy.organizationPolicyId
    && permit.organizationRevision == context.organizationRevision == policy.organizationRevision
  }

  /** The permit, the commit and the version agree on number, digest and attachments. */
  predicate SameAction(permit: Permit, version: ProposalVersion, context: CommitContext) {
    && context.proposalVersion == permit.proposalVersion
    && version.sha == permit.sha == context.sha
    && version.attachmentSha == permit.attachmentSha == context.attachmentSha
  }

  /** A permit authorizes exactly once, before it expires, while its version is current and APPROVED, under the
      policy in force, for an e-mail to the controlled recipient of that policy. */
  lemma {:induction false} AuthorizesExactly(env: Env, b: BrokerState, op: Op, permitId: Uuid)
    requires op.AuthorizeOp? && op.permitId == permitId
    ensures Authorizes(env, b, op, permitId) <==>
              && permitId in b.permits && permitId !in b.consumed && op.now < b.permits[permitId].expiresAt
              && var permit := b.permits[permitId];
                 && InForce(permit, op.policy, op.context)
                 && permit.proposalId in b.proposals
                 && var record := b.proposals[permit.proposalId];
                    && record.proposal.currentVersion == permit.proposalVersion && record.proposal.status == Approved
                    && permit.proposalVersion in record.versions
                    && var version := record.versions[permit.proposalVersion];
                       && SameAction(permit, version, op.context) && version.actionType == "email.send"
                       && ForControlledRecipient(env, version.canonicalPayload, op.policy)
  {
    hide PayloadRefusal, ForControlledRecipient;
    if permitId in b.permits && b.permits[permitId].proposalId in b.proposals {
      var permit := b.permits[permitId];
      var record := b.proposals[permit.proposalId];
      if permit.proposalVersion in record.versions {
        PayloadAllowed(env, record.versions[permit.proposalVersion], op.policy);
      }
    }
  }

  // ----- Whole histories -----

  lemma {:induction false} IssuedTerms(env: Env, b: BrokerState, op: Op, permitId: Uuid)
    requires Issues(env, b, op, permitId)
    ensures permitId in Apply(env, b, op).permits
    ensures var permit, a := Apply(env, b, op).permits[permitId], op.approval;
            && permit.expiresAt == a.now + a.ttl && permit.approvedAt == a.now && permit.approverId == a.approverId
            && permit.decisionId == a.decision.id && permit.consumedAt == None && permit.nonce == op.nonce
            && permit.actionType == "email.send" && permit.sha == a.expectedSha
            && permit.attachmentSha == a.expectedAttachments
            && permit.organizationPolicyId == a.policy.organizationPolicyId
            && permit.organizationRevision == a.policy.organizationRevision
  {
    hide PayloadRefusal;
  }

  /** An authorization consumes its permit at that time, marks its proposal, and leaves everything else. */
  lemma {:induction false} AuthorizationLeaves(env: Env, b: BrokerState, op: Op, permitId: Uuid)
    requires Authorizes(env, b, op, permitId)
    ensures permitId in b.permits && b.permits[permitId].proposalId in b.proposals
    ensures var b', permit, action := Apply(env, b, op), b.permits[permitId], ActionOf(env, b, op);
            && b'.permits == b.permits[permitId := permit.(consumedAt := Some(op.now))]
            && b'.consumed == b.consumed + {permitId}
            && permit.proposalId in b'.proposals
            && b'.proposals == b.proposals[permit.proposalId := b'.proposals[permit.proposalId]]
            && b'.proposals[permit.proposalId].versions == b.proposals[permit.proposalId].versions
            && b'.proposals[permit.proposalId].proposal
               == b.proposals[permit.proposalId].proposal.(status := Authorized)
            && action.intent.id == op.intentId && action.intent.createdAt == op.now && action.nonce == permit.nonce
  {
    hide PayloadRefusal;
  }

  /** Every authorized action is addressed to the controlled recipient of the policy in force, and goes back to
      an allowed decision under that policy and revision whose time to live has not passed. */
  lemma {:induction false} AuthorizedUnderPolicy(env: Env, h: History, k: nat, permitId: Uuid) returns (i: nat)
    requires IsHistory(env, h) && k < |h.ops| && Authorizes(env, h.states[k], h.ops[k], permitId)
    ensures i < k && Issues(env, h.states[i], h.ops[i], permitId)
    ensures var a, op := h.ops[i].approval, h.ops[k];
            && ForControlledRecipient(env, ActionOf(env, h.states[k], op).canonicalPayload, op.policy)
            && a.decision.allowed && a.decision.action == EmailSend
            && a.policy.organizationPolicyId == op.policy.organizationPolicyId
            && a.policy.organizationRevision == op.policy.organizationRevision
            && op.now < a.now + a.ttl && "protected_action.execute" in op.context.capabilities
  {
    hide Apply, FreshIds, Issues, Authorizes, ForControlledRecipient, BrokerGrows, ActionOf;
    AuthorizeNeeds(env, h.states[k], h.ops[k], permitId);
    AuthorizeOpIs(env, h.states[k], h.ops[k], permitId);
    AuthorizesExactly(env, h.states[k], h.ops[k], permitId);
    i := PermitWasIssued(env, h, k, permitId);
    IssueOpIs(env, h.states[i], h.ops[i], permitId);
    IssuesExactly(env, h.states[i], h.ops[i], permitId);
    IssuedTerms(env, h.states[i], h.ops[i], permitId);
    HistoryGrows(env, h, i + 1, k);
    PermitStays(h.states[i + 1], h.states[k], permitId);
  }

  lemma PermitStays(b: BrokerState, b': BrokerState, permitId: Uuid)
    requires BrokerGrows(b, b') && permitId in b.permits
    ensures permitId in b'.permits && SamePermit(b.permits[permitId], b'.permits[permitId])
  {}

  lemma IssueOpIs(env: Env, b: BrokerState, op: Op, permitId: Uuid)
    requires Issues(env, b, op, permitId)
    ensures op.IssueOp? && op.permitId == permitId
  {
    hide IssueRefusal;
  }

  lemma AuthorizeOpIs(env: Env, b: BrokerState, op: Op, permitId: Uuid)
    requires Authorizes(env, b, op, permitId)
    ensures op.AuthorizeOp? && op.permitId == permitId
  {
    hide AuthorizeRefusal;
  }
}
