/** Whole histories of the approval broker, and the broker as an object (protected_actions/broker.py). */
module BrokerRuns {
  import opened Wrappers
  import opened Text
  import opened CanonicalJson
  import opened JsonLoads
  import opened CanonicalRoundTrip
  import opened Broker

  // ----- Histories -----

  datatype Op =
    | CreateOp(proposalId: Uuid, runId: Uuid, revisionId: Uuid, actionType: string, content: Content)
    | EditOp(proposalId: Uuid, content: Content)
    | IssueOp(approval: Approval, permitId: Uuid, nonce: Uuid)
    | AuthorizeOp(permitId: Uuid, policy: EffectivePolicy, context: CommitContext, now: int, intentId: Uuid)

  function Apply(env: Env, b: BrokerState, op: Op): BrokerState {
    match op
    case CreateOp(id, runId, revisionId, actionType, content) =>
      CreateProposal(env, b, id, runId, revisionId, actionType, content).1
    case EditOp(id, content) => EditProposal(env, b, id, content).1
    case IssueOp(approval, permitId, nonce) => IssuePermit(env, b, approval, permitId, nonce).1
    case AuthorizeOp(permitId, policy, context, now, intentId) =>
      AuthorizeAndConsume(env, b, permitId, policy, context, now, intentId).1
  }

  /** New identifiers are new; a nonce is UUID text, so it holds no colon. */
  ghost predicate FreshIds(b: BrokerState, op: Op) {
    match op
    case CreateOp(id, _, _, _, _) => id !in b.proposals
    case IssueOp(_, permitId, nonce) =>
      permitId !in b.permits && ':' !in nonce && forall p :: p in b.permits ==> b.permits[p].nonce != nonce
    case _ => true
  }

  ghost predicate Edits(env: Env, b: BrokerState, op: Op, proposalId: Uuid) {
    op.EditOp? && op.proposalId == proposalId && EditProposal(env, b, proposalId, op.content).0.Ok?
  }

  ghost predicate Issues(env: Env, b: BrokerState, op: Op, permitId: Uuid) {
    op.IssueOp? && op.permitId == permitId && IssueRefusal(env, b, op.approval).None?
  }

  ghost predicate Authorizes(env: Env, b: BrokerState, op: Op, permitId: Uuid) {
    op.AuthorizeOp? && op.permitId == permitId
    && AuthorizeRefusal(env, b, permitId, op.policy, op.context, op.now).None?
  }

  /** The authorized action a successful authorization returns. */
  ghost function ActionOf(env: Env, b: BrokerState, op: Op): AuthorizedAction
    requires op.AuthorizeOp? && Authorizes(env, b, op, op.permitId)
  {
    AuthorizeAndConsume(env, b, op.permitId, op.policy, op.context, op.now, op.intentId).0.value
  }

  datatype History = History(states: seq<BrokerState>, ops: seq<Op>)

  ghost predicate IsHistory(env: Env, h: History) {
    && |h.states| == |h.ops| + 1
    && h.states[0] == EMPTY_BROKER
    && forall k :: 0 <= k < |h.ops| ==>
          FreshIds(h.states[k], h.ops[k]) && h.states[k + 1] == Apply(env, h.states[k], h.ops[k])
  }

  lemma {:induction false} ApplyKeeps(env: Env, b: BrokerState, op: Op)
    requires BrokerInv(env, b) && FreshIds(b, op)
    ensures BrokerInv(env, Apply(env, b, op)) && BrokerGrows(b, Apply(env, b, op))
  {
    hide BrokerInv, BrokerGrows, CreateProposal, EditProposal, IssuePermit, AuthorizeAndConsume;
    match op
    case CreateOp(id, runId, revisionId, actionType, content) =>
      CreateKeeps(env, b, id, runId, revisionId, actionType, content);
    case EditOp(id, content) => EditKeeps(env, b, id, content);
    case IssueOp(approval, permitId, nonce) => IssueKeeps(env, b, approval, permitId, nonce);
    case AuthorizeOp(permitId, policy, context, now, intentId) =>
      AuthorizeKeeps(env, b, permitId, policy, context, now, intentId);
  }

  lemma {:induction false} HistoryInv(env: Env, h: History, k: nat)
    requires IsHistory(env, h) && k < |h.states|
    ensures BrokerInv(env, h.states[k])
  {
    hide BrokerInv, Apply, FreshIds;
    if k == 0 {
      EmptyInv(env);
    } else {
      HistoryInv(env, h, k - 1);
      ApplyKeeps(env, h.states[k - 1], h.ops[k - 1]);
    }
  }

  lemma {:induction false} EmptyInv(env: Env)
    ensures BrokerInv(env, EMPTY_BROKER)
  {}

  lemma {:induction false} HistoryGrows(env: Env, h: History, j: nat, k: nat)
    requires IsHistory(env, h) && j <= k < |h.states|
    ensures BrokerGrows(h.states[j], h.states[k])
    decreases k
  {
    hide BrokerInv, BrokerGrows, Apply, FreshIds;
    if j == k {
      BrokerGrowsReflexive(h.states[j]);
    } else {
      HistoryGrows(env, h, j, k - 1);
      HistoryInv(env, h, k - 1);
      ApplyKeeps(env, h.states[k - 1], h.ops[k - 1]);
      BrokerGrowsTransitive(h.states[j], h.states[k - 1], h.states[k]);
    }
  }

  // ----- Versions -----

  /** Versions are numbered 1 to the current one, and each carries the digest of its own canonical bytes. */
  lemma {:induction false} VersionsContiguous(env: Env, h: History, k: nat, id: Uuid)
    requires IsHistory(env, h) && k < |h.states| && id in h.states[k].proposals
    ensures var record := h.states[k].proposals[id];
            && (forall v :: v in record.versions <==> 1 <= v <= record.proposal.currentVersion)
            && forall v :: v in record.versions ==>
                 record.versions[v].version == v
                 && record.versions[v].sha == env.sha(record.versions[v].canonicalPayload)
                 && SinkAccepts(record.versions[v].canonicalPayload)
  {
    HistoryInv(env, h, k);
    hide IsHistory, SinkAccepts, IsCanonical;
    var record := h.states[k].proposals[id];
    assert RecordOk(env, id, record);
    forall v | v in record.versions ensures SinkAccepts(record.versions[v].canonicalPayload) {
      assert VersionOk(env, id, v, record.versions[v]);
      SinkAcceptsExactlyCanonical(record.versions[v].canonicalPayload);
    }
  }

  /** A version never changes once it exists. */
  lemma {:induction false} VersionsImmutable(env: Env, h: History, j: nat, k: nat, id: Uuid, v: nat)
    requires IsHistory(env, h) && j <= k < |h.states|
    requires id in h.states[j].proposals && v in h.states[j].proposals[id].versions
    ensures id in h.states[k].proposals && v in h.states[k].proposals[id].versions
    ensures h.states[k].proposals[id].versions[v] == h.states[j].proposals[id].versions[v]
  {
    HistoryGrows(env, h, j, k);
    hide IsHistory;
  }

  // ----- Permits -----

  lemma {:induction false} IssueAdds(env: Env, b: BrokerState, op: Op, permitId: Uuid)
    requires BrokerInv(env, b) && Issues(env, b, op, permitId)
    ensures permitId in Apply(env, b, op).permits
    ensures op.approval.proposalId in b.proposals
    ensures var permit := Apply(env, b, op).permits[permitId];
            var record := b.proposals[op.approval.proposalId];
            permit.proposalId == op.approval.proposalId
            && permit.proposalVersion == record.proposal.currentVersion == op.approval.version
            && op.approval.version in record.versions
  {
    hide PayloadRefusal, DecisionRefusal;
  }

  lemma {:induction false} AuthorizeNeeds(env: Env, b: BrokerState, op: Op, permitId: Uuid)
    requires Authorizes(env, b, op, permitId)
    ensures permitId in b.permits && permitId !in b.consumed && permitId in Apply(env, b, op).consumed
    ensures b.permits[permitId].proposalId in b.proposals
    ensures var permit := b.permits[permitId];
            var record := b.proposals[permit.proposalId];
            && record.proposal.currentVersion == permit.proposalVersion && record.proposal.status == Approved
            && permit.proposalVersion in record.versions
            && var action := ActionOf(env, b, op);
               && action.canonicalPayload == record.versions[permit.proposalVersion].canonicalPayload
               && action.intent.fingerprint == record.versions[permit.proposalVersion].sha
               && action.intent.proposalId == permit.proposalId
               && action.intent.proposalVersion == permit.proposalVersion
               && action.intent.permitId == permit.id && action.nonce == permit.nonce
               && action.intent.idempotencyKey == env.sha(KeyMaterial(permit))
    ensures Apply(env, b, op).proposals[b.permits[permitId].proposalId].proposal.status == Authorized
  {
    hide PayloadRefusal;
  }

  /** A step that edits a proposal moves its current version on. */
  lemma {:induction false} EditMovesOn(env: Env, b: BrokerState, op: Op, id: Uuid)
    requires Edits(env, b, op, id)
    ensures id in b.proposals && id in Apply(env, b, op).proposals
    ensures Apply(env, b, op).proposals[id].proposal.currentVersion == b.proposals[id].proposal.currentVersion + 1
  {
    var record := b.proposals[id];
    var current := record.proposal.currentVersion;
    MakeVersionOk(env, id, current + 1, record.versions[current].actionType, op.content);
    hide MakeVersion;
  }

  /** The permit a successful issue made, seen at a later step. */
  lemma {:induction false} IssuedPermitLater(env: Env, h: History, i: nat, k: nat, permitId: Uuid)
    requires IsHistory(env, h) && i < k < |h.states| && Issues(env, h.states[i], h.ops[i], permitId)
    ensures var a := h.ops[i].approval;
            && a.proposalId in h.states[i].proposals
            && a.version == h.states[i].proposals[a.proposalId].proposal.currentVersion
            && a.version in h.states[i].proposals[a.proposalId].versions
            && permitId in h.states[k].permits
            && h.states[k].permits[permitId].proposalId == a.proposalId
            && h.states[k].permits[permitId].proposalVersion == a.version
  {
    HistoryInv(env, h, i);
    HistoryGrows(env, h, i + 1, k);
    hide BrokerInv, Issues, Apply;
    IssueAdds(env, h.states[i], h.ops[i], permitId);
    assert SamePermit(h.states[i + 1].permits[permitId], h.states[k].permits[permitId]);
  }

  /** Once a proposal is edited, no permit issued before the edit can ever authorize again. */
  lemma {:induction false} EditedPermitIsDead(env: Env, h: History, i: nat, e: nat, a: nat, permitId: Uuid)
    requires IsHistory(env, h) && i < e < a < |h.ops|
    requires Issues(env, h.states[i], h.ops[i], permitId)
    requires Edits(env, h.states[e], h.ops[e], h.ops[i].approval.proposalId)
    ensures !Authorizes(env, h.states[a], h.ops[a], permitId)
  {
    var id := h.ops[i].approval.proposalId;
    IssuedPermitLater(env, h, i, a, permitId);
    HistoryGrows(env, h, i, e);
    HistoryGrows(env, h, e + 1, a);
    hide Issues, Apply, Authorizes, FreshIds;
    EditMovesOn(env, h.states[e], h.ops[e], id);
    assert Grows(h.states[i].proposals[id], h.states[e].proposals[id]);
    assert Grows(h.states[e + 1].proposals[id], h.states[a].proposals[id]);
    if Authorizes(env, h.states[a], h.ops[a], permitId) { AuthorizeNeeds(env, h.states[a], h.ops[a], permitId); }
  }

  /** Each permit authorizes at most once. */
  lemma {:induction false} PermitAuthorizesOnce(env: Env, h: History, a: nat, b: nat, permitId: Uuid)
    requires IsHistory(env, h) && a < |h.ops| && b < |h.ops|
    requires Authorizes(env, h.states[a], h.ops[a], permitId) && Authorizes(env, h.states[b], h.ops[b], permitId)
    ensures a == b
  {
    hide Apply, Authorizes, FreshIds;
    AuthorizeNeeds(env, h.states[a], h.ops[a], permitId);
    AuthorizeNeeds(env, h.states[b], h.ops[b], permitId);
    if a < b { HistoryGrows(env, h, a + 1, b); }
    if b < a { HistoryGrows(env, h, b + 1, a); }
  }

  ghost predicate IssuesFor(env: Env, b: BrokerState, op: Op, proposalId: Uuid) {
    op.IssueOp? && op.approval.proposalId == proposalId && Issues(env, b, op, op.permitId)
  }

  lemma {:induction false} OnlyIssueApproves(env: Env, b: BrokerState, op: Op, id: Uuid)
    requires FreshIds(b, op) && id in b.proposals && b.proposals[id].proposal.status != Approved
    requires !IssuesFor(env, b, op, id)
    ensures id in Apply(env, b, op).proposals && Apply(env, b, op).proposals[id].proposal.status != Approved
  {
    hide MakeVersion, PayloadRefusal, DecisionRefusal, PermitRefusal, CommitRefusal;
  }

  lemma {:induction false} UnapprovedUntilIssue(env: Env, h: History, j: nat, k: nat, id: Uuid)
    requires IsHistory(env, h) && j <= k < |h.states| && id in h.states[j].proposals
    requires h.states[j].proposals[id].proposal.status != Approved
    requires forall i :: j <= i < k ==> !IssuesFor(env, h.states[i], h.ops[i], id)
    ensures id in h.states[k].proposals && h.states[k].proposals[id].proposal.status != Approved
    decreases k
  {
    hide Apply, FreshIds, IssuesFor;
    if j < k {
      UnapprovedUntilIssue(env, h, j, k - 1, id);
      OnlyIssueApproves(env, h.states[k - 1], h.ops[k - 1], id);
    }
  }

  /** Two authorizations of one proposal always have a permit issue for it between them. */
  lemma {:induction false} IssueBetweenAuthorizations(env: Env, h: History, a: nat, b: nat, p: Uuid, q: Uuid)
    requires IsHistory(env, h) && a < b < |h.ops|
    requires Authorizes(env, h.states[a], h.ops[a], p) && Authorizes(env, h.states[b], h.ops[b], q)
    requires h.states[a].permits[p].proposalId == h.states[b].permits[q].proposalId
    ensures exists i :: a < i < b && IssuesFor(env, h.states[i], h.ops[i], h.states[a].permits[p].proposalId)
  {
    var id := h.states[a].permits[p].proposalId;
    hide Apply, Authorizes, FreshIds, IssuesFor;
    AuthorizeNeeds(env, h.states[a], h.ops[a], p);
    AuthorizeNeeds(env, h.states[b], h.ops[b], q);
    HistoryGrows(env, h, a, a + 1);
    if forall i :: a + 1 <= i < b ==> !IssuesFor(env, h.states[i], h.ops[i], id) {
      UnapprovedUntilIssue(env, h, a + 1, b, id);
    }
  }

  // ----- What is authorized -----

  lemma {:induction false} OnlyIssueAdds(env: Env, b: BrokerState, op: Op, permitId: Uuid)
    requires permitId in Apply(env, b, op).permits && permitId !in b.permits
    ensures Issues(env, b, op, permitId)
  {
    hide MakeVersion, PayloadRefusal, DecisionRefusal, CommitRefusal;
  }

  lemma {:induction false} PermitWasIssued(env: Env, h: History, k: nat, permitId: Uuid) returns (i: nat)
    requires IsHistory(env, h) && k < |h.states| && permitId in h.states[k].permits
    ensures i < k && Issues(env, h.states[i], h.ops[i], permitId)
  {
    hide Apply, FreshIds, Issues;
    assert k > 0;
    if permitId in h.states[k - 1].permits {
      i := PermitWasIssued(env, h, k - 1, permitId);
    } else {
      OnlyIssueAdds(env, h.states[k - 1], h.ops[k - 1], permitId);
      i := k - 1;
    }
  }

  /** An authorization returns the exact bytes of the version that was current when its permit was
      issued, and nothing edited the proposal in between. */
  lemma {:induction false} AuthorizedBytes(env: Env, h: History, a: nat, permitId: Uuid) returns (i: nat)
    requires IsHistory(env, h) && a < |h.ops| && Authorizes(env, h.states[a], h.ops[a], permitId)
    ensures i < a && Issues(env, h.states[i], h.ops[i], permitId)
    ensures var id := h.ops[i].approval.proposalId;
            && id in h.states[i].proposals
            && h.states[i].proposals[id].proposal.currentVersion in h.states[i].proposals[id].versions
            && (forall e :: i < e < a ==> !Edits(env, h.states[e], h.ops[e], id))
            && var version := h.states[i].proposals[id].versions[h.states[i].proposals[id].proposal.currentVersion];
               var action := ActionOf(env, h.states[a], h.ops[a]);
               && action.canonicalPayload == version.canonicalPayload && action.intent.fingerprint == version.sha
               && action.intent.proposalId == id && action.intent.proposalVersion == version.version
               && SinkAccepts(action.canonicalPayload) && action.intent.fingerprint == env.sha(action.canonicalPayload)
  {
    AuthorizeNeeds(env, h.states[a], h.ops[a], permitId);
    i := PermitWasIssued(env, h, a, permitId);
    IssuedPermitLater(env, h, i, a, permitId);
    var id := h.ops[i].approval.proposalId;
    forall e | i < e < a ensures !Edits(env, h.states[e], h.ops[e], id) {
      if Edits(env, h.states[e], h.ops[e], id) { EditedPermitIsDead(env, h, i, e, a, permitId); }
    }
    var v := h.ops[i].approval.version;
    VersionsImmutable(env, h, i, a, id, v);
    VersionsContiguous(env, h, i, id);
  }

  // ----- Idempotency keys -----

  ghost predicate NoncesOk(permits: map<Uuid, Permit>) {
    && (forall p :: p in permits ==> ':' !in permits[p].nonce)
    && forall p, q :: p in permits && q in permits && permits[p].nonce == permits[q].nonce ==> p == q
  }

  lemma {:induction false} NoncesKept(env: Env, b: BrokerState, op: Op)
    requires NoncesOk(b.permits) && FreshIds(b, op)
    ensures NoncesOk(Apply(env, b, op).permits)
  {
    hide MakeVersion, PayloadRefusal, DecisionRefusal, CommitRefusal, IssueRefusal;
    if op.AuthorizeOp? && op.permitId in b.permits {
      var permit := b.permits[op.permitId];
      assert permit.(consumedAt := Some(op.now)).nonce == permit.nonce;
    }
  }

  lemma {:induction false} HistoryNonces(env: Env, h: History, k: nat)
    requires IsHistory(env, h) && k < |h.states|
    ensures NoncesOk(h.states[k].permits)
  {
    hide Apply, FreshIds;
    if k > 0 {
      HistoryNonces(env, h, k - 1);
      hide NoncesOk;
      NoncesKept(env, h.states[k - 1], h.ops[k - 1]);
    }
  }

  ghost predicate Injective(sha: string -> string) {
    forall s, t :: sha(s) == sha(t) ==> s == t
  }

  /** Different authorizations carry different idempotency keys. */
  lemma {:induction false} KeysDistinct(env: Env, h: History, a: nat, b: nat, p: Uuid, q: Uuid)
    requires IsHistory(env, h) && Injective(env.sha) && a < |h.ops| && b < |h.ops| && a != b
    requires Authorizes(env, h.states[a], h.ops[a], p) && Authorizes(env, h.states[b], h.ops[b], q)
    ensures ActionOf(env, h.states[a], h.ops[a]).intent.idempotencyKey
         != ActionOf(env, h.states[b], h.ops[b]).intent.idempotencyKey
  {
    if b < a {
      KeysDistinct(env, h, b, a, q, p);
    } else {
      if p == q { PermitAuthorizesOnce(env, h, a, b, p); }
      hide Apply, Authorizes, FreshIds;
      AuthorizeNeeds(env, h.states[a], h.ops[a], p);
      AuthorizeNeeds(env, h.states[b], h.ops[b], q);
      HistoryGrows(env, h, a, b);
      HistoryNonces(env, h, b);
      var x, y := h.states[a].permits[p], h.states[b].permits[q];
      assert SamePermit(x, h.states[b].permits[p]);
      if KeyMaterial(x) == KeyMaterial(y) {
        SplitAtLast(x.proposalId + ":" + NatText(x.proposalVersion), x.nonce,
                    y.proposalId + ":" + NatText(y.proposalVersion), y.nonce, ':');
      }
    }
  }

  /** The broker alone does not limit a version to one authorization: issuing a permit does not look
      at the proposal's status, so an authorized version can be approved and authorized again. */
  lemma {:induction false} SameVersionAuthorizesAgain(env: Env, b: BrokerState, a: Approval, p: Uuid, q: Uuid, m: Uuid,
                                                      n: Uuid, context: CommitContext, now: int, first: Uuid,
                                                      second: Uuid)
    requires BrokerInv(env, b) && p !in b.permits && q !in b.permits && p != q && IssueRefusal(env, b, a).None?
    requires EXECUTE_CAPABILITY in context.capabilities && now < a.now + a.ttl
    requires context.organizationPolicyId == a.policy.organizationPolicyId
    requires context.organizationRevision == a.policy.organizationRevision
    requires context.proposalVersion == a.version && context.sha == a.expectedSha
    requires context.attachmentSha == a.expectedAttachments
    ensures var b1 := IssuePermit(env, b, a, p, m).1;
            var (one, b2) := AuthorizeAndConsume(env, b1, p, a.policy, context, now, first);
            var b3 := IssuePermit(env, b2, a, q, n).1;
            var (two, _) := AuthorizeAndConsume(env, b3, q, a.policy, context, now, second);
            one.Ok? && two.Ok? && one.value.intent.proposalVersion == two.value.intent.proposalVersion == a.version
            && one.value.intent.proposalId == two.value.intent.proposalId
            && one.value.canonicalPayload == two.value.canonicalPayload
  {
    var b1 := IssuePermit(env, b, a, p, m).1;
    IssueThenAuthorize(env, b, a, p, m, context, now, first);
    var b2 := AuthorizeAndConsume(env, b1, p, a.policy, context, now, first).1;
    assert b2.proposals[a.proposalId].versions == b.proposals[a.proposalId].versions;
    IssueThenAuthorize(env, b2, a, q, n, context, now, second);
  }

  lemma {:induction false} IssueThenAuthorize(env: Env, b: BrokerState, a: Approval, p: Uuid, n: Uuid,
                                              context: CommitContext, now: int, intentId: Uuid)
    requires p !in b.permits && p !in b.consumed && IssueRefusal(env, b, a).None?
    requires EXECUTE_CAPABILITY in context.capabilities && now < a.now + a.ttl
    requires context.organizationPolicyId == a.policy.organizationPolicyId
    requires context.organizationRevision == a.policy.organizationRevision
    requires context.proposalVersion == a.version && context.sha == a.expectedSha
    requires context.attachmentSha == a.expectedAttachments
    ensures var b1 := IssuePermit(env, b, a, p, n).1;
            var (action, b2) := AuthorizeAndConsume(env, b1, p, a.policy, context, now, intentId);
            && action.Ok? && action.value.intent.proposalVersion == a.version
            && action.value.intent.proposalId == a.proposalId
            && action.value.canonicalPayload == b.proposals[a.proposalId].versions[a.version].canonicalPayload
            && b2.consumed == b.consumed + {p} && b2.permits.Keys == b.permits.Keys + {p}
            && b2.proposals == b.proposals[a.proposalId := WithStatus(b.proposals[a.proposalId], Authorized)]
  {
    hide PayloadRefusal;
  }

  // ----- The broker object -----

  class ApprovalBroker {
    const env: Env
    var proposals: map<Uuid, ProposalRecord>
    var permits: map<Uuid, Permit>
    var consumedPermitIds: set<Uuid>

    ghost function View(): BrokerState
      reads this
    {
      BrokerState(proposals, permits, consumedPermitIds)
    }

    ghost predicate Valid()
      reads this
    {
      BrokerInv(env, View())
    }

    constructor (env: Env)
      ensures Valid() && this.env == env && View() == EMPTY_BROKER
    {
      this.env := env;
      proposals, permits, consumedPermitIds := map[], map[], {};
      new;
      EmptyInv(env);
    }

    method ReadProposal(id: Uuid) returns (result: Result<Proposal, BrokerError>)
      ensures result == GetProposal(View(), id)
    {
      if id !in proposals { return Err(NoProposal); }
      result := Ok(proposals[id].proposal);
    }

    method ReadVersion(id: Uuid, version: nat) returns (result: Result<ProposalVersion, BrokerError>)
      ensures result == GetVersion(View(), id, version)
    {
      if id !in proposals { return Err(NoProposal); }
      if version !in proposals[id].versions { return Err(NoVersion); }
      result := Ok(proposals[id].versions[version]);
    }

    method Create(id: Uuid, runId: Uuid, revisionId: Uuid, actionType: string, content: Content)
        returns (result: Result<ProposalVersion, BrokerError>)
      requires Valid() && id !in proposals
      modifies this
      ensures Valid() && BrokerGrows(old(View()), View())
      ensures (result, View()) == CreateProposal(env, old(View()), id, runId, revisionId, actionType, content)
    {
      CreateKeeps(env, View(), id, runId, revisionId, actionType, content);
      hide BrokerInv, BrokerGrows, MakeVersion;
      var version := MakeVersion(env, id, 1, actionType, content);
      if version.Err? { return version; }
      proposals := proposals[id := ProposalRecord(Proposal(id, runId, revisionId, 1, PendingApproval),
                                                  map[1 := version.value])];
      result := version;
    }

    method Edit(id: Uuid, content: Content) returns (result: Result<(ProposalVersion, ProposalDiff), BrokerError>)
      requires Valid()
      modifies this
      ensures Valid() && BrokerGrows(old(View()), View())
      ensures (result, View()) == EditProposal(env, old(View()), id, content)
    {
      hide BrokerInv, BrokerGrows, MakeVersion;
      EditKeeps(env, View(), id, content);
      if id !in proposals { return Err(NoProposal); }
      var record := proposals[id];
      var current := record.proposal.currentVersion;
      if current !in record.versions { return Err(NoVersion); }
      var previous := record.versions[current];
      var nextVersion := current + 1;
      var version := MakeVersion(env, id, nextVersion, previous.actionType, content);
      if version.Err? { return Err(version.error); }
      MakeVersionOk(env, id, nextVersion, previous.actionType, content);
      hide VersionOk;
      record := record.(versions := record.versions[nextVersion := version.value]);
      record := record.(proposal := record.proposal.(currentVersion := nextVersion, status := PendingApproval));
      proposals := proposals[id := record];
      result := Ok((version.value,
                    ProposalDiff(id, previous.version, nextVersion,
                                 previous.attachmentSha != version.value.attachmentSha)));
    }

    method Issue(a: Approval, permitId: Uuid, nonce: Uuid) returns (result: Result<Permit, BrokerError>)
      requires Valid() && permitId !in permits
      modifies this
      ensures Valid() && BrokerGrows(old(View()), View())
      ensures (result, View()) == IssuePermit(env, old(View()), a, permitId, nonce)
    {
      hide BrokerInv, BrokerGrows, PayloadRefusal, DecisionRefusal;
      IssueKeeps(env, View(), a, permitId, nonce);
      if a.proposalId !in proposals { return Err(NoProposal); }
      var record := proposals[a.proposalId];
      if a.version !in record.versions { return Err(NoVersion); }
      var version := record.versions[a.version];
      var refusal := DecisionRefusal(version, a.decision, a.policy);
      if refusal.Some? { return Err(refusal.value); }
      if record.proposal.currentVersion != a.version { return Err(NotCurrentVersion); }
      if version.sha != a.expectedSha { return Err(PreviewPayloadDiffers); }
      if version.attachmentSha != a.expectedAttachments { return Err(PreviewAttachmentsDiffer); }
      refusal := PayloadRefusal(env, version, a.policy);
      if refusal.Some? { return Err(refusal.value); }
      if a.ttl <= 0 { return Err(InvalidPermit); }
      var permit := PermitFor(version, a, permitId, nonce);
      permits := permits[permitId := permit];
      proposals := proposals[a.proposalId := WithStatus(record, Approved)];
      result := Ok(permit);
    }

    /** Lines 203-220. */
    method CheckPermit(permitId: Uuid, policy: EffectivePolicy, context: CommitContext, now: int)
        returns (refusal: Option<BrokerError>)
      ensures refusal == PermitRefusal(View(), permitId, policy, context, now)
      ensures refusal.None? ==>
                permitId in permits && permitId !in consumedPermitIds && now < permits[permitId].expiresAt
    {
      if permitId !in permits { return Some(NoPermit); }
      var permit := permits[permitId];
      if permitId in consumedPermitIds { return Some(PermitConsumed); }
      if now >= permit.expiresAt { return Some(PermitExpired); }
      if EXECUTE_CAPABILITY !in context.capabilities { return Some(NoCapability); }
      if context.organizationPolicyId != policy.organizationPolicyId { return Some(ContextOfAnotherPolicy); }
      if context.organizationRevision != policy.organizationRevision { return Some(StaleContext); }
      if permit.organizationPolicyId != policy.organizationPolicyId { return Some(PermitOfAnotherPolicy); }
      if permit.organizationRevision != policy.organizationRevision { return Some(StalePermit); }
      refusal := None;
    }

    /** Lines 221-238. */
    method CheckCommit(record: ProposalRecord, permit: Permit, policy: EffectivePolicy, context: CommitContext)
        returns (refusal: Option<BrokerError>)
      ensures refusal == CommitRefusal(env, record, permit, policy, context)
      ensures refusal.None? ==> permit.proposalVersion in record.versions && record.proposal.status == Approved
                                && permit.proposalVersion == record.proposal.currentVersion == context.proposalVersion
    {
      hide PayloadRefusal;
      if record.proposal.currentVersion != permit.proposalVersion { return Some(EditedAfterApproval); }
      if context.proposalVersion != permit.proposalVersion { return Some(ContextVersionDiffers); }
      if record.proposal.status != Approved { return Some(NotApproved); }
      if permit.proposalVersion !in record.versions { return Some(NoVersion); }
      var version := record.versions[permit.proposalVersion];
      if version.sha != permit.sha { return Some(PayloadDigestDiffers); }
      if context.sha != permit.sha { return Some(ContextDigestDiffers); }
      if version.attachmentSha != permit.attachmentSha { return Some(AttachmentsDiffer); }
      if context.attachmentSha != permit.attachmentSha { return Some(ContextAttachmentsDiffer); }
      refusal := PayloadRefusal(env, version, policy);
    }

    method Authorize(permitId: Uuid, policy: EffectivePolicy, context: CommitContext, now: int, intentId: Uuid)
        returns (result: Result<AuthorizedAction, BrokerError>)
      requires Valid()
      modifies this
      ensures Valid() && BrokerGrows(old(View()), View())
      ensures (result, View()) == AuthorizeAndConsume(env, old(View()), permitId, policy, context, now, intentId)
    {
      hide BrokerInv, BrokerGrows, CommitRefusal, ActionFor;
      AuthorizeKeeps(env, View(), permitId, policy, context, now, intentId);
      var refusal := CheckPermit(permitId, policy, context, now);
      if refusal.Some? { return Err(refusal.value); }
      var permit := permits[permitId];
      if permit.proposalId !in proposals { return Err(NoProposal); }
      var record := proposals[permit.proposalId];
      refusal := CheckCommit(record, permit, policy, context);
      if refusal.Some? { return Err(refusal.value); }
      hide PermitRefusal;
      assert AuthorizeRefusal(env, View(), permitId, policy, context, now).None?;
      hide AuthorizeRefusal;
      var current := record.versions[permit.proposalVersion];
      consumedPermitIds := consumedPermitIds + {permitId};
      permits := permits[permitId := permit.(consumedAt := Some(now))];
      proposals := proposals[permit.proposalId := WithStatus(record, Authorized)];
      result := Ok(ActionFor(env, permit, current, intentId, now));
    }
  }
}
