/** Whole runs of the parent workflow: what holds in every reachable state. */
module ParentRuns {
  import opened Wrappers
  import opened Text
  import opened Invalidation
  import opened ParentMachine
  import opened ParentLog
  import opened ParentWork
  import opened ParentControl
  import opened ParentJournal
  import opened JournalKeys

  // ----- Child workflows are started with ever larger attempts -----

  ghost predicate StartedInv(s: State) {
    && (forall k :: 0 <= k < |s.started| ==>
          && s.started[k].0 in s.work.states
          && 1 <= s.started[k].1 <= s.work.states[s.started[k].0].attempt)
    && (forall j, k :: 0 <= j < k < |s.started| && s.started[j].0 == s.started[k].0 ==>
          s.started[j].1 < s.started[k].1)
  }

  /** No item's attempt number ever goes down. */
  ghost predicate AttemptsRise(s: State, s': State) {
    && s.work.states.Keys == s'.work.states.Keys
    && forall item :: item in s.work.states ==> s.work.states[item].attempt <= s'.work.states[item].attempt
  }

  lemma {:induction false} AttemptsContinue(c: Request, s: State)
    requires Enabled(c, s, Continue) && WorkInv(c, s)
    ensures AttemptsRise(s, StepLoop(c, s))
    ensures StepLoop(c, s).started == s.started
         || (s.point.AwaitStart? && s.point.item in s.work.states
             && StepLoop(c, s).started == s.started + [(s.point.item, s.work.states[s.point.item].attempt + 1)]
             && StepLoop(c, s).work.states[s.point.item].attempt == s.work.states[s.point.item].attempt + 1)
  {
    hide RowOk, Startable, Finished;
  }

  lemma {:induction false} AttemptsOther(c: Request, s: State, e: Event)
    requires Enabled(c, s, e) && !e.Continue? && TableOk(c, s.work, InFlight(s.point))
    ensures AttemptsRise(s, Step(c, s, e))
  {
    match e
    case Update(id, command) => SubmitCases(c, s, id, command);
    case ChildrenDone(_) =>
    case Finish(item, outcome) => assert item in s.work.active ==> RowOk(s.work, {}, item);
    case Invalidate(item) =>
  }

  lemma {:induction false} AttemptsStep(c: Request, s: State, e: Event)
    requires Enabled(c, s, e) && WorkInv(c, s)
    ensures AttemptsRise(s, Step(c, s, e))
  {
    if e.Continue? { AttemptsContinue(c, s); } else { AttemptsOther(c, s, e); }
    hide WorkInv, Enabled, AttemptsRise;
  }

  lemma {:induction false} StartedStep(c: Request, s: State, e: Event)
    requires Enabled(c, s, e) && WorkInv(c, s) && StartedInv(s)
    ensures StartedInv(Step(c, s, e))
  {
    hide WorkInv, Enabled, StepLoop;
    var s' := Step(c, s, e);
    AttemptsStep(c, s, e);
    if e.Continue? {
      AttemptsContinue(c, s);
    } else {
      if e.Update? {
        ActiveListed(c, s);
        SubmitCases(c, s, e.commandId, e.command);
      }
      assert s'.started == s.started;
    }
  }

  lemma ActiveListed(c: Request, s: State)
    requires WorkInv(c, s)
    ensures s.work.active.Keys <= ItemIds(c.items)
  {
    hide RowOk;
  }

  // ----- Redirects -----

  /** While a redirect is applied, every held result that depends on an invalid key is still to be
      dropped; once it is applied, no held result depends on a changed key. */
  ghost predicate PlanInv(s: State) {
    match s.point
    case Invalidating(i, todo, keys) =>
      i < |s.log.commands| && s.log.commands[i].value.Redirect? && PlanFollowed(s, i, todo, keys)
    case AwaitInvalidated(i, todo, keys) =>
      i < |s.log.commands| && s.log.commands[i].value.Redirect? && PlanFollowed(s, i, todo, keys)
    case AwaitApplied(i) =>
      i < |s.log.commands| && s.log.commands[i].value.Redirect? ==>
        forall p :: p in HeldProducts(s.work.results) ==>
          !Affected(p, Elements(s.log.commands[i].value.changedDependencies))
    case _ => true
  }

  ghost predicate PlanFollowed(s: State, i: nat, todo: set<string>, keys: set<string>)
    requires i < |s.log.commands| && s.log.commands[i].value.Redirect?
  {
    && Elements(s.log.commands[i].value.changedDependencies) <= keys
    && Closed(HeldProducts(s.work.results), keys)
    && forall item, p :: item in s.work.results && p in s.work.results[item].products && Affected(p, keys) ==>
          item in todo
  }

  lemma {:induction false} PlannedFollows(s: State, i: nat)
    requires i < |s.log.commands| && s.log.commands[i].value.Redirect?
    ensures PlanInv(StepPlanned(s, i))
  {
    var keys := PlanKeys(s, i);
    forall item, p | item in s.work.results && p in s.work.results[item].products && Affected(p, keys)
      ensures item in InvalidatedItems(s.work.results, InvalidatedIds(s.work.results, keys))
    {
      assert p in HeldProducts(s.work.results);
      assert p.id in InvalidatedIds(s.work.results, keys);
    }
  }

  lemma {:induction false} PlanDone(s: State, i: nat, keys: set<string>)
    requires i < |s.log.commands| && s.log.commands[i].value.Redirect? && PlanFollowed(s, i, {}, keys)
    ensures forall p :: p in HeldProducts(s.work.results) ==>
              !Affected(p, keys) && !Affected(p, Elements(s.log.commands[i].value.changedDependencies))
  {
    forall p | p in HeldProducts(s.work.results)
      ensures !Affected(p, keys) && !Affected(p, Elements(s.log.commands[i].value.changedDependencies))
    {
      var item :| item in s.work.results && p in s.work.results[item].products;
    }
  }

  lemma {:induction false} PlanContinue(c: Request, s: State)
    requires Enabled(c, s, Continue) && PlanInv(s) && PointInLog(s.log, s.processed, s.point)
    ensures PlanInv(StepLoop(c, s))
  {
    match s.point
    case AwaitPlan(i) => PlannedFollows(s, i);
    case Invalidating(i, _, keys) => PlanDone(s, i, keys);
    case AwaitAccepted(i) =>
    case _ =>
  }

  lemma {:induction false} PlanUpdate(c: Request, s: State, id: string, command: Command)
    requires s.work.active.Keys <= ItemIds(c.items) && PlanInv(s) && PointInLog(s.log, s.processed, s.point)
    ensures PlanInv(Handle(c, s, id, command))
  {
    var s' := Handle(c, s, id, command);
    assert s'.work.results == s.work.results;
    assert forall k :: 0 <= k < |s.log.commands| ==> s'.log.commands[k] == s.log.commands[k];
  }

  lemma {:induction false} PlanInvalidate(c: Request, s: State, item: string)
    requires Enabled(c, s, Invalidate(item)) && PlanInv(s)
    ensures PlanInv(Step(c, s, Invalidate(item)))
  {
    var s' := Step(c, s, Invalidate(item));
    assert HeldProducts(s'.work.results) <= HeldProducts(s.work.results);
  }

  lemma {:induction false} PlanStep(c: Request, s: State, e: Event)
    requires Enabled(c, s, e) && LogInv(s) && PlanInv(s)
    ensures PlanInv(Step(c, s, e))
  {
    hide LogShape;
    match e
    case Update(id, command) =>
      SubmitCases(c, s, id, command);
      if Submit(c, s, id, command).1 != s { PlanUpdate(c, s, id, command); }
    case Continue => PlanContinue(c, s);
    case ChildrenDone(_) =>
    case Finish(_, _) =>
    case Invalidate(item) => PlanInvalidate(c, s, item);
  }

  // ----- The inductive invariant -----

  ghost predicate Inv(c: Request, s: State) {
    && ValidRequest(c)
    && LogInv(s) && ControlInv(c, s) && WorkInv(c, s) && RetryInv(s) && CancelInv(c, s)
    && StartedInv(s) && PlanInv(s)
    && (DistinctChildren(c) ==> JournalInv(c, s))
  }

  lemma {:induction false} InitInv(c: Request)
    requires Init(c).Ok?
    ensures Inv(c, Init(c).value)
  {
    var s := Init(c).value;
    assert s.log.commands[..0] == [];
    forall id | id in ItemIds(c.items) ensures RowOk(s.work, {}, id) {}
    assert JournalInv(c, s) by {
      forall call | Promised(c, s, call) ensures call in s.journal {
        assert call == s.journal[0];
      }
    }
  }

  lemma {:induction false} RetryAtHead(s: State)
    requires LogInv(s) && RetryInv(s)
    requires s.point.AwaitAccepted? && s.point.i < |s.log.commands| && s.log.commands[s.point.i].value.RetryWork?
    ensures RetryReady(s.work, s.point, s.log.commands[s.point.i].value.workItemId,
                       s.log.commands[s.point.i].value.expectedAttempt)
  {}

  /** Every step of the loop and every operator update keeps the invariant. */
  lemma {:induction false} StepInv(c: Request, s: State, e: Event)
    requires Inv(c, s) && Enabled(c, s, e)
    ensures Inv(c, Step(c, s, e))
  {
    hide LogInv, ControlInv, WorkInv, RetryInv, CancelInv, StartedInv, PlanInv, JournalInv, Enabled, Step;
    LogStep(c, s, e);
    ControlStep(c, s, e);
    WorkStep(c, s, e);
    RetryStep(c, s, e);
    CancelStep(c, s, e);
    StartedStep(c, s, e);
    PlanStep(c, s, e);
    if DistinctChildren(c) {
      if s.point.AwaitAccepted? && s.point.i < |s.log.commands| && s.log.commands[s.point.i].value.RetryWork? {
        RetryAtHead(s);
      }
      OrderOf(c, s);
      JournalStep(c, s, e);
    }
  }

  lemma {:induction false} OrderOf(c: Request, s: State)
    requires ControlInv(c, s)
    ensures OrderInv(c, s)
  {}

  // ----- Runs -----

  /** A finite run: the states the workflow goes through under some schedule of operator updates,
      child completions and loop steps. */
  datatype Run = Run(states: seq<State>, events: seq<Event>)

  ghost predicate IsRun(c: Request, r: Run) {
    && |r.states| == |r.events| + 1
    && Init(c) == Ok(r.states[0])
    && forall k :: 0 <= k < |r.events| ==>
          Enabled(c, r.states[k], r.events[k]) && r.states[k + 1] == Step(c, r.states[k], r.events[k])
  }

  lemma {:induction false} RunInv(c: Request, r: Run, k: nat)
    requires IsRun(c, r) && k < |r.states|
    ensures Inv(c, r.states[k])
  {
    hide Inv, Enabled, Step;
    if k == 0 {
      InitInv(c);
    } else {
      RunInv(c, r, k - 1);
      assert Enabled(c, r.states[k - 1], r.events[k - 1]);
      StepInv(c, r.states[k - 1], r.events[k - 1]);
    }
  }

  lemma {:induction false} InvParts(c: Request, s: State)
    requires Inv(c, s)
    ensures LogInv(s) && WorkInv(c, s)
  {}

  // ----- Theorems over every run -----

  /** The workflow never fails on a missing key. */
  lemma {:induction false} NeverCrashes(c: Request, r: Run, k: nat)
    requires IsRun(c, r) && k < |r.states|
    ensures r.states[k].point != Crashed
  {
    hide IsRun, Inv;
    RunInv(c, r, k);
    InvParts(c, r.states[k]);
  }

  /** Suspended at an await that only the outside can end, finished, or able to go on. */
  ghost predicate MayWait(s: State) {
    || (s.point.AwaitChildren? && s.work.active != map[])
    || (s.point.AwaitResume? && s.control.paused && !Unprocessed(s))
    || (s.point.AwaitCommand? && !Unprocessed(s))
    || s.point.Returned?
  }

  /** The loop is never stuck: it waits only for children, for the operator, or it has returned. */
  lemma {:induction false} NeverStuck(c: Request, r: Run, k: nat)
    requires IsRun(c, r) && k < |r.states| && !MayWait(r.states[k])
    ensures || Enabled(c, r.states[k], Continue)
            || exists item ::
                  Enabled(c, r.states[k], Finish(item, ChildCancelled)) || Enabled(c, r.states[k], Invalidate(item))
  {
    hide IsRun, Inv;
    RunInv(c, r, k);
    NotStuck(c, r.states[k]);
  }

  lemma {:induction false} NotStuck(c: Request, s: State)
    requires Inv(c, s) && !MayWait(s)
    ensures Enabled(c, s, Continue) || exists item ::
          Enabled(c, s, Finish(item, ChildCancelled)) || Enabled(c, s, Invalidate(item))
  {
    hide Inv, RowOk;
    InvParts(c, s);
    assert s.work.active.Keys <= ItemIds(c.items);
    match s.point
    case Finishing(todo) =>
      if todo != {} { var item :| item in todo; assert Enabled(c, s, Finish(item, ChildCancelled)); }
    case Invalidating(_, todo, _) =>
      if todo != {} { var item :| item in todo; assert Enabled(c, s, Invalidate(item)); }
    case AwaitFinish(_, _, item, _, _) => assert item in ItemIds(c.items);
    case _ =>
  }

  /** An accepted retry is applied exactly as it was validated, however many other commands were
      queued before it. */
  lemma {:induction false} RetryAppliedAsValidated(c: Request, r: Run, k: nat)
    requires IsRun(c, r) && k < |r.states|
    requires r.states[k].point.AwaitAccepted? && r.states[k].point.i < |r.states[k].log.commands|
    requires r.states[k].log.commands[r.states[k].point.i].value.RetryWork?
    ensures var s := r.states[k];
            var retry := s.log.commands[s.point.i].value;
            && retry.workItemId in s.work.states
            && (s.work.states[retry.workItemId].status == Failed || s.work.states[retry.workItemId].status == Pending)
            && retry.workItemId !in s.work.active
            && s.work.states[retry.workItemId].attempt == retry.expectedAttempt
  {
    RunInv(c, r, k);
    var s := r.states[k];
    RetryAtHead(s);
    assert RowOk(s.work, {}, s.log.commands[s.point.i].value.workItemId);
  }

  /** While the run is paused, or a pause or redirect is accepted and not yet drained, every
      cancellable child in `_active` has been asked to cancel. */
  lemma {:induction false} StopReachesEveryChild(c: Request, r: Run, k: nat, item: string)
    requires IsRun(c, r) && k < |r.states| && Stopping(r.states[k])
    requires item in r.states[k].work.active && item in ItemIds(c.items) && Item(c, item).cancellable
    ensures r.states[k].work.active[item].cancelRequested
  {
    RunInv(c, r, k);
  }

  /** The control fields refine the command log. */
  lemma {:induction false} ControlIsFoldOfLog(c: Request, r: Run, k: nat)
    requires IsRun(c, r) && k < |r.states|
    ensures var s := r.states[k];
            && s.log.sequence == |s.log.commands|
            && s.control.paused == PausedBy(s.log.commands)
            && s.control.acceptedRevision == RevisionBy(c, s.log.commands).1
            && Effective(s.processed, s.point) <= |s.log.commands|
            && (s.control.revisionId, s.control.revision)
               == RevisionBy(c, s.log.commands[..Effective(s.processed, s.point)])
            && s.control.messages == MessagesBy(s.log.commands, Effective(s.processed, s.point))
            && (s.point.Decide? ==> s.processed == |s.log.commands|)
  {
    RunInv(c, r, k);
  }

  /** Sequence numbers are 1..n in the order of acceptance, ids are distinct, and the acks match the log
      one to one. */
  lemma {:induction false} AcksMatchLog(c: Request, r: Run, k: nat)
    requires IsRun(c, r) && k < |r.states|
    ensures var log := r.states[k].log;
            && (forall n :: 0 <= n < |log.commands| ==>
                  log.commands[n].sequence == n + 1 && log.commands[n].commandId in log.acks
                  && log.acks[log.commands[n].commandId]
                  == CommandAck(log.commands[n].commandId, Kind(log.commands[n].value), n + 1))
            && (forall m, n :: 0 <= m < n < |log.commands| ==> log.commands[m].commandId != log.commands[n].commandId)
            && (forall id :: id in log.acks ==> exists n :: 0 <= n < |log.commands| && log.commands[n].commandId == id)
  {
    hide IsRun, Inv, WorkInv;
    RunInv(c, r, k);
    InvParts(c, r.states[k]);
  }

  lemma {:induction false} RowsCoherent(c: Request, s: State, item: string)
    requires WorkInv(c, s) && item in ItemIds(c.items)
    ensures |s.work.active.Keys| <= c.maxConcurrency
    ensures RowOk(s.work, InFlight(s.point), item)
    ensures s.point.AwaitChild? ==> s.point.item !in s.work.active
  {
    if s.point.AwaitChild? { assert RowOk(s.work, InFlight(s.point), s.point.item); }
  }

  /** At every await point statuses, results and active children agree, and the concurrency limit
      holds. */
  lemma {:induction false} TableCoherent(c: Request, r: Run, k: nat, item: string)
    requires IsRun(c, r) && k < |r.states| && item in ItemIds(c.items)
    ensures var s := r.states[k];
            && |s.work.active.Keys| <= c.maxConcurrency
            && item in s.work.states
            && (item in s.work.results
                <==> s.work.states[item].status == Completed || s.work.states[item].status == Failed)
            && (s.work.states[item].status == Running <==>
                  item in s.work.active || (s.point.AwaitChild? && s.point.item == item))
            && (s.point.AwaitChild? ==> s.point.item !in s.work.active)
  {
    hide IsRun, Inv, WorkInv, LogInv;
    RunInv(c, r, k);
    InvParts(c, r.states[k]);
    RowsCoherent(c, r.states[k], item);
  }

  lemma {:induction false} ExitStep(c: Request, s: State, e: Event)
    requires Enabled(c, s, e) && !Leaving(s.point) && Leaving(Step(c, s, e).point)
    ensures s.point.Decide? && !s.control.paused && Step(c, s, e).point.AwaitCompleted?
    ensures Step(c, s, e).processed == s.processed && Step(c, s, e).log == s.log && Step(c, s, e).control == s.control
  {
    if e.Update? { SubmitCases(c, s, e.commandId, e.command); }
  }

  /** The loop is left only when there is nothing to do: every accepted command is applied, no child
      is active, the run is not paused, nothing is pending and no failure is retryable. */
  lemma {:induction false} LoopExit(c: Request, r: Run, k: nat)
    requires IsRun(c, r) && k < |r.events|
    requires !Leaving(r.states[k].point) && Leaving(r.states[k + 1].point)
    ensures var s := r.states[k + 1];
            && s.processed == |s.log.commands| && !s.control.paused
            && s.point.AwaitCompleted? && Finished(c, s.work, s.point.failures)
  {
    hide Inv, Enabled, Step;
    RunInv(c, r, k);
    RunInv(c, r, k + 1);
    assert Enabled(c, r.states[k], r.events[k]);
    ExitStep(c, r.states[k], r.events[k]);
    InvParts(c, r.states[k]);
    InvParts(c, r.states[k + 1]);
    hide IsRun, LogShape, TableOk, Finished;
  }

  lemma {:induction false} ChildrenExact(items: seq<WorkItem>, results: map<string, ChildResult>)
    requires forall w :: w in items ==> w.id in results
    ensures |Children(items, results)| == |items|
    ensures forall k :: 0 <= k < |items| ==> Children(items, results)[k] == results[items[k].id]
  {
    if items != [] { ChildrenExact(items[1..], results); }
  }

  lemma {:induction false} ReturnedChildren(c: Request, s: State)
    requires WorkInv(c, s) && s.point.Returned?
    ensures var result := s.point.result;
            && |result.children| == |c.items|
            && (forall j :: 0 <= j < |c.items| ==>
                  c.items[j].id in s.work.results && result.children[j] == s.work.results[c.items[j].id])
            && (!result.failures <==> forall j :: 0 <= j < |c.items| ==> !result.children[j].failed)
  {
    forall w | w in c.items ensures w.id in s.work.results {
      assert RowOk(s.work, {}, w.id);
    }
    hide RowOk, IsRecoverable;
    ChildrenExact(c.items, s.work.results);
    assert forall j :: 0 <= j < |c.items| ==> c.items[j] in c.items;
    if AnyFailed(s.work.results) {
      var item :| item in s.work.results && s.work.results[item].failed;
      var w := Item(c, item);
      var j :| 0 <= j < |c.items| && c.items[j] == w;
      assert s.point.result.children[j].failed;
    }
  }

  /** The returned children are exactly one result per work item, in input order, and the run is
      completed without failures iff every child completed. */
  lemma {:induction false} ReturnsEveryChild(c: Request, r: Run, k: nat)
    requires IsRun(c, r) && k < |r.states| && r.states[k].point.Returned?
    ensures var result := r.states[k].point.result;
            && |result.children| == |c.items|
            && (forall j :: 0 <= j < |c.items| ==>
                  c.items[j].id in r.states[k].work.results
                  && result.children[j] == r.states[k].work.results[c.items[j].id])
            && (!result.failures <==> forall j :: 0 <= j < |c.items| ==> !result.children[j].failed)
  {
    hide IsRun, Inv, WorkInv, LogInv;
    RunInv(c, r, k);
    InvParts(c, r.states[k]);
    ReturnedChildren(c, r.states[k]);
  }

  /** Attempt numbers only rise, and no child workflow id is ever reused. */
  lemma {:induction false} ChildWorkflowIdsFresh(c: Request, r: Run, k: nat, i: nat, j: nat, workflowId: string)
    requires IsRun(c, r) && k < |r.states| && i < j < |r.states[k].started|
    ensures var started := r.states[k].started;
            && (started[i].0 == started[j].0 ==> started[i].1 < started[j].1)
            && ChildWorkflowId(workflowId, started[i].0, started[i].1)
            != ChildWorkflowId(workflowId, started[j].0, started[j].1)
  {
    RunInv(c, r, k);
    var started := r.states[k].started;
    if ChildWorkflowId(workflowId, started[i].0, started[i].1)
       == ChildWorkflowId(workflowId, started[j].0, started[j].1)
    {
      ChildWorkflowIdInjective(workflowId, started[i].0, started[i].1, started[j].0, started[j].1);
    }
  }

  /** Apart from recovery offers, no two journal calls to one run share the text of their key. */
  lemma {:induction false} JournalKeysFresh(c: Request, r: Run, k: nat, i: nat, j: nat)
    requires IsRun(c, r) && DistinctChildren(c) && k < |r.states| && i < j < |r.states[k].journal|
    requires r.states[k].journal[i].runId == r.states[k].journal[j].runId
    requires Render(r.states[k].journal[i].key) == Render(r.states[k].journal[j].key)
    ensures r.states[k].journal[i].key.Recovery? && r.states[k].journal[j].key.Recovery?
  {
    hide IsRun, Inv, Render;
    RunInv(c, r, k);
    InvJournal(c, r.states[k]);
    RenderInjective(r.states[k].journal[i].key, r.states[k].journal[j].key);
  }

  /** Every command that was applied was journaled as accepted and as applied, and every child
      result was reported. */
  lemma {:induction false} JournalComplete(c: Request, r: Run, k: nat, n: nat)
    requires IsRun(c, r) && DistinctChildren(c) && k < |r.states| && n < r.states[k].processed
    ensures var s := r.states[k];
            && n < |s.log.commands|
            && JournalCall(c.runId, CommandAccepted(s.log.commands[n].commandId)) in s.journal
            && JournalCall(c.runId, AppliedKey(s.log.commands[n])) in s.journal
  {
    hide IsRun, Inv;
    RunInv(c, r, k);
    InvParts(c, r.states[k]);
    InvJournal(c, r.states[k]);
    AppliedIsJournaled(c, r.states[k], n);
  }

  lemma {:induction false} InvJournal(c: Request, s: State)
    requires Inv(c, s) && DistinctChildren(c)
    ensures JournalInv(c, s)
  {
    hide LogInv, ControlInv, WorkInv, RetryInv, CancelInv, StartedInv, PlanInv, JournalInv, ValidRequest;
  }

  lemma {:induction false} AppliedIsJournaled(c: Request, s: State, n: nat)
    requires LogInv(s) && JournalInv(c, s) && n < s.processed
    ensures && n < |s.log.commands|
            && JournalCall(c.runId, CommandAccepted(s.log.commands[n].commandId)) in s.journal
            && JournalCall(c.runId, AppliedKey(s.log.commands[n])) in s.journal
  {
    hide OneEventEach, DroppedCall, Begun, Reported, Ended;
    assert AcceptedCall(s.log.commands, s.processed, s.point, CommandAccepted(s.log.commands[n].commandId));
    assert AppliedCall(s.log.commands, s.processed, s.point, AppliedKey(s.log.commands[n]));
    assert Promised(c, s, JournalCall(c.runId, CommandAccepted(s.log.commands[n].commandId)));
    assert Promised(c, s, JournalCall(c.runId, AppliedKey(s.log.commands[n])));
  }

  lemma {:induction false} ResultsReported(c: Request, r: Run, k: nat, item: string)
    requires IsRun(c, r) && DistinctChildren(c) && k < |r.states| && item in r.states[k].work.results
    requires !(r.states[k].point.AwaitFinish? && r.states[k].point.item == item)
    requires item in ItemIds(c.items)
    ensures var s := r.states[k];
            var w := Item(c, item);
            var result := s.work.results[item];
            && JournalCall(c.runId, WorkFinished(item, result.attempt, result.failed)) in s.journal
            && JournalCall(c.runId, SubagentFinished(w.subagentId, result.attempt, result.failed)) in s.journal
            && JournalCall(w.childRunId, AttemptFinished(result.attempt, result.failed)) in s.journal
  {
    hide IsRun, Inv;
    RunInv(c, r, k);
    InvParts(c, r.states[k]);
    InvJournal(c, r.states[k]);
    ResultIsJournaled(c, r.states[k], item);
  }

  lemma {:induction false} ResultIsJournaled(c: Request, s: State, item: string)
    requires WorkInv(c, s) && JournalInv(c, s) && item in s.work.results && item in ItemIds(c.items)
    requires !(s.point.AwaitFinish? && s.point.item == item)
    ensures var w := Item(c, item);
            var result := s.work.results[item];
            && JournalCall(c.runId, WorkFinished(item, result.attempt, result.failed)) in s.journal
            && JournalCall(c.runId, SubagentFinished(w.subagentId, result.attempt, result.failed)) in s.journal
            && JournalCall(w.childRunId, AttemptFinished(result.attempt, result.failed)) in s.journal
  {
    hide OneEventEach, Explained;
    var w, result := Item(c, item), s.work.results[item];
    assert Promised(c, s, JournalCall(c.runId, WorkFinished(item, result.attempt, result.failed)));
    assert Promised(c, s, JournalCall(c.runId, SubagentFinished(w.subagentId, result.attempt, result.failed)));
    assert Promised(c, s, JournalCall(w.childRunId, AttemptFinished(result.attempt, result.failed)));
  }

  /** When `run.redirected` is journaled, no held result depends, directly or through other held
      results, on what changed. */
  lemma {:induction false} RedirectLeavesNothingStale(c: Request, r: Run, k: nat)
    requires IsRun(c, r) && k < |r.states| && r.states[k].point.AwaitApplied?
    requires r.states[k].point.i < |r.states[k].log.commands|
    requires r.states[k].log.commands[r.states[k].point.i].value.Redirect?
    ensures var s := r.states[k];
            var changed := Elements(s.log.commands[s.point.i].value.changedDependencies);
            && (forall p :: p in HeldProducts(s.work.results) ==> !Affected(p, changed))
            && Closure(HeldProducts(s.work.results), changed) == changed
  {
    RunInv(c, r, k);
  }

  // ----- Resubmitted commands -----

  /** The log only grows, and accepted commands and acks never change. */
  ghost predicate LogGrows(s: State, s': State) {
    && s.log.commands <= s'.log.commands
    && forall id :: id in s.log.acks ==> id in s'.log.acks && s'.log.acks[id] == s.log.acks[id]
  }

  lemma {:induction false} LogGrowsStep(c: Request, s: State, e: Event)
    requires Enabled(c, s, e) && LogInv(s)
    ensures LogGrows(s, Step(c, s, e))
  {
    if e.Update? {
      SubmitCases(c, s, e.commandId, e.command);
    } else if e.Continue? {
      LogLoopStep(c, s);
    }
  }

  lemma {:induction false} LogGrowsRun(c: Request, r: Run, j: nat, k: nat)
    requires IsRun(c, r) && j <= k < |r.states|
    ensures LogGrows(r.states[j], r.states[k])
    decreases k
  {
    hide Inv, Enabled, Step;
    if j < k {
      LogGrowsRun(c, r, j, k - 1);
      RunInv(c, r, k - 1);
      InvParts(c, r.states[k - 1]);
      hide LogInv, WorkInv;
      assert Enabled(c, r.states[k - 1], r.events[k - 1]);
      LogGrowsStep(c, r.states[k - 1], r.events[k - 1]);
      hide IsRun;
    }
  }

  lemma {:induction false} FindsCommand(commands: seq<AcceptedCommand>, k: nat)
    requires k < |commands|
    requires forall i, j :: 0 <= i < j < |commands| ==> commands[i].commandId != commands[j].commandId
    ensures FindCommand(commands, commands[k].commandId) == Some(commands[k])
  {
    if k > 0 {
      assert commands[0].commandId != commands[k].commandId;
      FindsCommand(commands[1..], k - 1);
    }
  }

  /** A command that is in the log is a duplicate: submitting it again changes nothing and returns
      its ack; reusing its id for anything else is an error. */
  lemma {:induction false} DuplicateOf(c: Request, s: State, n: nat, command: Command)
    requires s.work.active.Keys <= ItemIds(c.items)
    requires LogShape(s.log) && n < |s.log.commands| && !IsBlank(s.log.commands[n].commandId)
    ensures var id := s.log.commands[n].commandId;
            && Submit(c, s, id, command).1 == s
            && if command == s.log.commands[n].value then Submit(c, s, id, command).0 == Ok(s.log.acks[id])
               else Submit(c, s, id, command).0.Err?
  {
    FindsCommand(s.log.commands, n);
  }

  lemma {:induction false} SubmitRecords(c: Request, s: State, id: string, command: Command)
    requires s.work.active.Keys <= ItemIds(c.items) && LogShape(s.log)
    requires Submit(c, s, id, command).0.Ok?
    ensures var s' := Submit(c, s, id, command).1;
            && !IsBlank(id)
            && id in s'.log.acks && s'.log.acks[id] == Submit(c, s, id, command).0.value
            && exists n ::
                  0 <= n < |s'.log.commands| && s'.log.commands[n].commandId == id
                  && s'.log.commands[n].value == command
  {
    var s' := Submit(c, s, id, command).1;
    if id in s.log.acks {
      var n :| 0 <= n < |s.log.commands| && s.log.commands[n].commandId == id;
      FindsCommand(s.log.commands, n);
      assert s'.log.commands[n].value == command;
    } else {
      assert s'.log.commands[|s.log.commands|] == AcceptedCommand(s.log.sequence + 1, id, command);
    }
  }

  /** Resubmitting an accepted command, at any later point of the run, changes nothing and returns
      its first ack. */
  lemma {:induction false} ResubmissionIsIdempotent(c: Request, r: Run, j: nat, k: nat, id: string, command: Command)
    requires IsRun(c, r) && j < k < |r.states| && r.events[j] == Update(id, command)
    requires r.states[j].work.active.Keys <= ItemIds(c.items) && Submit(c, r.states[j], id, command).0.Ok?
    ensures r.states[k].work.active.Keys <= ItemIds(c.items)
    ensures Submit(c, r.states[k], id, command) == (Submit(c, r.states[j], id, command).0, r.states[k])
  {
    hide Inv, Submit, Enabled;
    RunInv(c, r, j);
    RunInv(c, r, k);
    InvParts(c, r.states[j]);
    InvParts(c, r.states[k]);
    assert Enabled(c, r.states[j], r.events[j]);
    assert r.states[j + 1] == Submit(c, r.states[j], id, command).1;
    SubmitRecords(c, r.states[j], id, command);
    LogGrowsRun(c, r, j + 1, k);
    hide IsRun, RowOk, PointInWork;
    var n :| 0 <= n < |r.states[j + 1].log.commands| && r.states[j + 1].log.commands[n].commandId == id
          && r.states[j + 1].log.commands[n].value == command;
    assert r.states[k].log.commands[n] == r.states[j + 1].log.commands[n];
    DuplicateOf(c, r.states[k], n, command);
  }
}
