/** What the parent workflow holds of its children and of the operator's commands: results are those the
    children reported, and they are dropped only for a reason (workflows/parent.py:189-298, 473-588,
    683-733). */
module ParentOutcomes {
  import opened Wrappers
  import opened Text
  import opened Invalidation
  import opened ParentMachine
  import opened ParentLog
  import opened ParentWork
  import opened ParentControl
  import opened ParentRuns

  // ----- Results are what the children reported -----

  /** Step `j` takes the handle of a child of the item that was not cancelled. */
  ghost predicate Reports(r: Run, j: nat, item: string) {
    j < |r.events| && r.events[j].Finish? && r.events[j].item == item && !r.events[j].outcome.ChildCancelled?
  }

  /** The last report before state `k`. */
  ghost predicate LastReport(r: Run, j: nat, k: nat, item: string) {
    j < k && Reports(r, j, item) && forall m :: j < m < k ==> !Reports(r, m, item)
  }

  /** The state says what the child reported, under the attempt the child was started with and the
      revision then current. */
  ghost predicate Holds(s: State, item: string, outcome: Outcome, attempt: nat, revision: int) {
    && item in s.work.results && item in s.work.states
    && match outcome
       case ChildCompleted(products) =>
         && s.work.results[item] == ChildResult(false, attempt, products, None)
         && s.work.states[item] == WorkState(Completed, attempt, revision, None)
       case ChildFailed(failure) =>
         && s.work.results[item] == ChildResult(true, attempt, [], failure)
         && s.work.states[item] == WorkState(Failed, attempt, revision, failure)
       case ChildCancelled => false
  }

  lemma {:induction false} ReportIsHeld(c: Request, s: State, item: string, outcome: Outcome)
    requires Enabled(c, s, Finish(item, outcome)) && WorkInv(c, s) && !outcome.ChildCancelled?
    ensures item in s.work.active
    ensures Holds(Step(c, s, Finish(item, outcome)), item, outcome, s.work.active[item].attempt, s.control.revision)
  {
    assert RowOk(s.work, {}, item);
  }

  /** Nothing else writes a result, and no row with a result changes. */
  lemma {:induction false} RowKept(c: Request, s: State, e: Event, item: string)
    requires Enabled(c, s, e) && WorkInv(c, s)
    requires !(e.Finish? && e.item == item && !e.outcome.ChildCancelled?)
    requires item in Step(c, s, e).work.results
    ensures item in s.work.results && item in s.work.states && item in Step(c, s, e).work.states
    ensures Step(c, s, e).work.results[item] == s.work.results[item]
    ensures Step(c, s, e).work.states[item] == s.work.states[item]
  {
    if e.Continue? {
      KeptByLoop(c, s, item);
    } else if e.Update? {
      hide StepLoop;
      SubmitCases(c, s, e.commandId, e.command);
      assert RowOk(s.work, InFlight(s.point), item) by { RowOf(c, s, item); }
    } else {
      hide StepLoop;
      assert RowOk(s.work, {}, item);
      if e.Finish? { assert RowOk(s.work, {}, e.item); }
    }
  }

  lemma {:induction false} RowOf(c: Request, s: State, item: string)
    requires WorkInv(c, s) && item in s.work.results
    ensures RowOk(s.work, InFlight(s.point), item)
  {
    hide RowOk;
  }

  /** The loop changes the rows only when it applies a retry or starts a child. */
  lemma {:induction false} LoopRows(c: Request, s: State)
    requires Enabled(c, s, Continue)
    ensures StepLoop(c, s).work.results.Keys <= s.work.results.Keys
    ensures forall item :: item in StepLoop(c, s).work.results ==>
              StepLoop(c, s).work.results[item] == s.work.results[item]
    ensures forall item :: item in StepLoop(c, s).work.results && item in s.work.states ==>
              item in StepLoop(c, s).work.states
              && (StepLoop(c, s).work.states[item] == s.work.states[item]
                  || (s.point.AwaitStart? && s.point.item == item))
  {}

  lemma {:induction false} KeptByLoop(c: Request, s: State, item: string)
    requires Enabled(c, s, Continue) && WorkInv(c, s) && item in StepLoop(c, s).work.results
    ensures item in s.work.results && item in s.work.states && item in StepLoop(c, s).work.states
    ensures StepLoop(c, s).work.results[item] == s.work.results[item]
    ensures StepLoop(c, s).work.states[item] == s.work.states[item]
  {
    LoopRows(c, s);
    hide StepLoop, Enabled, Startable;
    RowOf(c, s, item);
  }

  /** A held result is, unchanged, what the last child of its item that was not cancelled reported. */
  lemma {:induction false} HeldResultWasReported(c: Request, r: Run, k: nat, item: string) returns (j: nat)
    requires IsRun(c, r) && k < |r.states| && item in r.states[k].work.results
    ensures LastReport(r, j, k, item) && item in r.states[j].work.active
    ensures Holds(r.states[k], item, r.events[j].outcome, r.states[j].work.active[item].attempt,
                  r.states[j].control.revision)
  {
    hide Enabled, Step, Inv, WorkInv, LogInv;
    if k > 0 {
      var s, e := r.states[k - 1], r.events[k - 1];
      assert Enabled(c, s, e) && r.states[k] == Step(c, s, e);
      RunInv(c, r, k - 1);
      InvParts(c, s);
      if Reports(r, k - 1, item) {
        j := k - 1;
        ReportIsHeld(c, s, item, e.outcome);
      } else {
        RowKept(c, s, e, item);
        j := HeldResultWasReported(c, r, k - 1, item);
      }
    }
  }

  /** When a redirect is journaled as applied, no held result is of a child that reported a product
      depending on what changed. */
  lemma {:induction false} RedirectDropsReportedProducts(c: Request, r: Run, k: nat, item: string, p: WorkProduct)
      returns (j: nat)
    requires IsRun(c, r) && k < |r.states| && r.states[k].point.AwaitApplied?
    requires r.states[k].point.i < |r.states[k].log.commands|
    requires r.states[k].log.commands[r.states[k].point.i].value.Redirect?
    requires item in r.states[k].work.results
    ensures LastReport(r, j, k, item)
    ensures r.events[j].outcome.ChildCompleted? && p in r.events[j].outcome.products ==>
              forall d :: d in p.dependsOn ==>
                d !in r.states[k].log.commands[r.states[k].point.i].value.changedDependencies
  {
    hide IsRun;
    j := HeldResultWasReported(c, r, k, item);
    RedirectLeavesNothingStale(c, r, k);
    if r.events[j].outcome.ChildCompleted? && p in r.events[j].outcome.products {
      var changed := r.states[k].log.commands[r.states[k].point.i].value.changedDependencies;
      assert p in HeldProducts(r.states[k].work.results);
      forall d | d in p.dependsOn ensures d !in changed {
        assert d in p.dependsOn * Elements(changed) <==> d in changed;
      }
    }
  }

  // ----- Results are dropped only for a reason -----

  /** Step `k` starts to apply a retry of the item. */
  ghost predicate AppliesRetry(r: Run, k: nat, item: string) {
    && k < |r.events| && k < |r.states| && r.events[k].Continue?
    && var s := r.states[k];
       && s.point.AwaitAccepted? && s.point.i < |s.log.commands|
       && s.log.commands[s.point.i].value.RetryWork? && s.log.commands[s.point.i].value.workItemId == item
  }

  /** Step `j` plans redirect `i`. */
  ghost predicate Plans(r: Run, j: nat, i: nat) {
    && j < |r.events| && j < |r.states| && r.events[j].Continue? && r.states[j].point == AwaitPlan(i)
    && i < |r.states[j].log.commands| && r.states[j].log.commands[i].value.Redirect?
  }

  /** The redirect planned at `j` affects, directly or through other held products, a product with the id
      of one of the item's. */
  ghost predicate Condemned(r: Run, j: nat, i: nat, item: string)
    requires Plans(r, j, i)
  {
    var results := r.states[j].work.results;
    var changed := Elements(r.states[j].log.commands[i].value.changedDependencies);
    item in results
    && exists p, q :: p in results[item].products && q in HeldProducts(results) && q.id == p.id
                      && Affected(q, Closure(HeldProducts(results), changed))
  }

  predicate InRedirect(point: Point, i: nat) {
    (point.Invalidating? || point.AwaitInvalidated?) && point.i == i
  }

  /** What is still to be dropped was condemned by the plan, and is as it was then. */
  ghost predicate PlanTraced(r: Run, j: nat, k: nat, i: nat)
    requires k < |r.states| && InRedirect(r.states[k].point, i)
  {
    && j < k && Plans(r, j, i)
    && forall item :: item in r.states[k].point.todo ==>
         && Condemned(r, j, i, item)
         && item in r.states[k].work.results && r.states[k].work.results[item] == r.states[j].work.results[item]
  }

  lemma {:induction false} PlannedAreCondemned(r: Run, j: nat, i: nat)
    requires Plans(r, j, i)
    ensures forall item :: item in StepPlanned(r.states[j], i).point.todo ==> Condemned(r, j, i, item)
  {
    var results := r.states[j].work.results;
    var keys := PlanKeys(r.states[j], i);
    forall item | item in StepPlanned(r.states[j], i).point.todo ensures Condemned(r, j, i, item) {
      var p :| p in results[item].products && p.id in InvalidatedIds(results, keys);
      var q :| q in HeldProducts(results) && Affected(q, keys) && q.id == p.id;
    }
  }

  /** Between two awaits of a redirect only the item of the step loses its result. */
  lemma {:induction false} RedirectGoesOn(c: Request, s: State, e: Event, i: nat)
    requires Enabled(c, s, e) && InRedirect(s.point, i) && InRedirect(Step(c, s, e).point, i)
    ensures var s' := Step(c, s, e);
            && s'.point.todo <= s.point.todo && s'.work.results.Keys <= s.work.results.Keys
            && (forall item :: item in s'.point.todo && item in s.work.results ==>
                  item in s'.work.results && s'.work.results[item] == s.work.results[item])
  {
    if e.Update? { SubmitCases(c, s, e.commandId, e.command); }
  }

  lemma {:induction false} RedirectStarts(c: Request, s: State, e: Event, i: nat)
    requires Enabled(c, s, e) && !InRedirect(s.point, i) && InRedirect(Step(c, s, e).point, i) && PointKnown(s.point)
    ensures e.Continue? && s.point == AwaitPlan(i) && i < |s.log.commands| && s.log.commands[i].value.Redirect?
    ensures Step(c, s, e) == StepPlanned(s, i)
  {
    if e.Update? { SubmitCases(c, s, e.commandId, e.command); }
  }

  /** A point of one redirect is not a point of another. */
  predicate PointKnown(point: Point) {
    !point.Invalidating? && !point.AwaitInvalidated?
  }

  lemma {:induction false} RedirectIsTraced(c: Request, r: Run, k: nat, i: nat) returns (j: nat)
    requires IsRun(c, r) && k < |r.states| && InRedirect(r.states[k].point, i)
    ensures PlanTraced(r, j, k, i)
  {
    hide Enabled, Step, Condemned, StepPlanned;
    if k > 0 {
      var s, e := r.states[k - 1], r.events[k - 1];
      assert Enabled(c, s, e) && r.states[k] == Step(c, s, e);
      if InRedirect(s.point, i) {
        j := RedirectIsTraced(c, r, k - 1, i);
        RedirectGoesOn(c, s, e, i);
      } else {
        OneRedirect(c, s, e, i);
        RedirectStarts(c, s, e, i);
        j := k - 1;
        PlannedAreCondemned(r, j, i);
        PlannedKeepsResults(s, i);
      }
    }
  }

  lemma PlannedKeepsResults(s: State, i: nat)
    requires i < |s.log.commands| && s.log.commands[i].value.Redirect?
    ensures StepPlanned(s, i).work == s.work
    ensures StepPlanned(s, i).point.Invalidating? && StepPlanned(s, i).point.todo <= s.work.results.Keys
  {}

  lemma {:induction false} OneRedirect(c: Request, s: State, e: Event, i: nat)
    requires Enabled(c, s, e) && InRedirect(Step(c, s, e).point, i) && !InRedirect(s.point, i)
    ensures PointKnown(s.point)
  {
    if e.Update? { SubmitCases(c, s, e.commandId, e.command); }
  }

  lemma {:induction false} LostByLoop(c: Request, s: State, item: string)
    requires Enabled(c, s, Continue) && item in s.work.results && item !in StepLoop(c, s).work.results
    ensures s.point.AwaitAccepted? && s.log.commands[s.point.i].value.RetryWork?
    ensures s.log.commands[s.point.i].value.workItemId == item
  {}

  lemma {:induction false} LostByOther(c: Request, s: State, e: Event, item: string)
    requires Enabled(c, s, e) && !e.Continue?
    requires item in s.work.results && item !in Step(c, s, e).work.results
    ensures e == Invalidate(item) && s.point.Invalidating? && item in s.point.todo
  {
    if e.Update? { SubmitCases(c, s, e.commandId, e.command); }
  }

  /** A held result is dropped only when a retry of its item is applied, or by a redirect whose changed
      dependencies reach, directly or through other held products, one of its products. */
  lemma {:induction false} DroppedOnlyForReason(c: Request, r: Run, k: nat, item: string)
    requires IsRun(c, r) && k < |r.events|
    requires item in r.states[k].work.results && item !in r.states[k + 1].work.results
    ensures AppliesRetry(r, k, item) || exists j: nat, i: nat :: DropsAt(r, j, i, k, item)
  {
    hide Enabled, Step, DropsAt;
    var s, e := r.states[k], r.events[k];
    assert Enabled(c, s, e) && r.states[k + 1] == Step(c, s, e);
    if e.Continue? {
      assert r.states[k + 1] == StepLoop(c, s) by { ContinueIs(c, s); }
      LostByLoop(c, s, item);
      ContinueInLog(c, s);
    } else {
      LostByOther(c, s, e, item);
      var j := RedirectIsTraced(c, r, k, s.point.i);
      assert DropsAt(r, j, s.point.i, k, item) by { TracedDrops(r, j, s.point.i, k, item); }
    }
  }

  /** The redirect planned at `j` condemns the item's result, which is still held at `k`. */
  ghost predicate DropsAt(r: Run, j: nat, i: nat, k: nat, item: string) {
    && j < k < |r.states| && Plans(r, j, i) && Condemned(r, j, i, item)
    && item in r.states[k].work.results && r.states[k].work.results[item] == r.states[j].work.results[item]
  }

  lemma TracedDrops(r: Run, j: nat, i: nat, k: nat, item: string)
    requires k < |r.states| && InRedirect(r.states[k].point, i) && PlanTraced(r, j, k, i)
    requires item in r.states[k].point.todo
    ensures DropsAt(r, j, i, k, item)
  {
    hide Condemned;
  }

  lemma ContinueIs(c: Request, s: State)
    requires Enabled(c, s, Continue)
    ensures Step(c, s, Continue) == StepLoop(c, s)
  {
    hide StepLoop;
  }

  lemma ContinueInLog(c: Request, s: State)
    requires Enabled(c, s, Continue) && s.point.AwaitAccepted?
    ensures s.point.i < |s.log.commands|
  {}

  // ----- Back to pending -----

  predicate OthersKept(work: WorkTable, work': WorkTable, item: string) {
    && work'.states - {item} == work.states - {item}
    && work'.results - {item} == work.results - {item}
    && work'.active - {item} == work.active - {item}
  }

  /** The item waits to be started again, with the attempts it has had and no result. */
  predicate Waits(work: WorkTable, item: string, attempt: nat, revision: int) {
    && item in work.states && work.states[item] == WorkState(Pending, attempt, revision, None)
    && item !in work.results && item !in work.active
  }

  /** When a retry is applied, exactly its item waits again, under the current revision. */
  lemma {:induction false} RetryTakesEffect(c: Request, r: Run, k: nat, item: string)
    requires IsRun(c, r) && AppliesRetry(r, k, item)
    ensures var s, s' := r.states[k], r.states[k + 1];
            && item in s.work.states
            && s.work.states[item].attempt == s.log.commands[s.point.i].value.expectedAttempt
            && Waits(s'.work, item, s.work.states[item].attempt, s.control.revision)
            && OthersKept(s.work, s'.work, item)
  {
    hide Enabled, Inv;
    var s := r.states[k];
    assert Enabled(c, s, r.events[k]) && r.states[k + 1] == Step(c, s, r.events[k]);
    RetryAppliedAsValidated(c, r, k);
    ContinueIs(c, s);
    hide IsRun;
  }

  lemma {:induction false} RunStep(c: Request, r: Run, k: nat)
    requires IsRun(c, r) && k < |r.events|
    ensures |r.states| == |r.events| + 1
    ensures Enabled(c, r.states[k], r.events[k]) && r.states[k + 1] == Step(c, r.states[k], r.events[k])
    ensures LogInv(r.states[k]) && WorkInv(c, r.states[k])
  {
    hide Enabled, Step, Inv;
    RunInv(c, r, k);
    InvParts(c, r.states[k]);
  }

  lemma {:induction false} CancelledStep(c: Request, s: State, item: string)
    requires Enabled(c, s, Finish(item, ChildCancelled)) && WorkInv(c, s)
    ensures var s' := Step(c, s, Finish(item, ChildCancelled));
            && item in s.work.active && item in s.work.states
            && Waits(s'.work, item, s.work.states[item].attempt, s.control.revision)
            && OthersKept(s.work, s'.work, item) && item !in s'.work.cancelReasons
  {
    hide StepLoop, Submit, StepInvalidate;
    assert RowOk(s.work, {}, item);
  }

  /** When a child was cancelled, exactly its item waits again, under the current revision. */
  lemma {:induction false} CancelledWaitsAgain(c: Request, r: Run, k: nat, item: string)
    requires IsRun(c, r) && k < |r.events| && r.events[k] == Finish(item, ChildCancelled)
    ensures var s, s' := r.states[k], r.states[k + 1];
            && item in s.work.active && item in s.work.states
            && Waits(s'.work, item, s.work.states[item].attempt, s.control.revision)
            && OthersKept(s.work, s'.work, item) && item !in s'.work.cancelReasons
  {
    hide Enabled, Step, WorkInv, LogInv, Waits, OthersKept;
    RunStep(c, r, k);
    CancelledStep(c, r.states[k], item);
  }

  lemma {:induction false} InvalidatedStep(c: Request, s: State, item: string)
    requires Enabled(c, s, Invalidate(item)) && WorkInv(c, s)
    ensures var s' := Step(c, s, Invalidate(item));
            && item in s.work.results && item in s.work.states
            && s.point.Invalidating? && s.point.i < |s.log.commands| && s.log.commands[s.point.i].value.Redirect?
            && Waits(s'.work, item, s.work.states[item].attempt, s.log.commands[s.point.i].value.revision)
            && OthersKept(s.work, s'.work, item)
  {
    hide StepLoop, Submit, StepFinish;
    assert RowOk(s.work, {}, item);
  }

  /** When a redirect drops a result, exactly its item waits again, under the new revision. */
  lemma {:induction false} RedirectedWaitsAgain(c: Request, r: Run, k: nat, item: string)
    requires IsRun(c, r) && k < |r.events| && r.events[k] == Invalidate(item)
    ensures var s, s' := r.states[k], r.states[k + 1];
            && item in s.work.results && item in s.work.states
            && s.point.Invalidating? && s.point.i < |s.log.commands| && s.log.commands[s.point.i].value.Redirect?
            && Waits(s'.work, item, s.work.states[item].attempt, s.log.commands[s.point.i].value.revision)
            && OthersKept(s.work, s'.work, item)
  {
    hide Enabled, Step, WorkInv, LogInv, Waits, OthersKept;
    RunStep(c, r, k);
    InvalidatedStep(c, r.states[k], item);
  }

  // ----- Which updates are accepted -----

  /** What the validators demand of a command that was not submitted before. */
  predicate Admissible(control: Control, states: map<string, WorkState>, command: Command) {
    match command
    case Pause(reason) => !IsBlank(reason)
    case Resume(reason) => !IsBlank(reason)
    case Redirect(revisionId, revision, changed, reason) =>
      revision > control.acceptedRevision && !IsBlank(revisionId) && changed != [] && !IsBlank(reason)
    case QueueMessage(messageId, body) =>
      !IsBlank(messageId) && !IsBlank(body) && forall m :: m in control.messages ==> m.messageId != messageId
    case RetryWork(item, expected, reason) =>
      && !IsBlank(reason) && item in states && states[item].status == Failed && states[item].attempt == expected
      && states[item].failure.Some? && states[item].failure.value.retryable
  }

  /** A new command is accepted exactly when it is admissible, and is then the next one of the log. */
  lemma {:induction false} AcceptsExactly(c: Request, r: Run, k: nat, id: string, command: Command)
    requires IsRun(c, r) && k < |r.events| && r.events[k] == Update(id, command) && id !in r.states[k].log.acks
    ensures var s, s' := r.states[k], r.states[k + 1];
            if !IsBlank(id) && Admissible(s.control, s.work.states, command) then
              s'.log.commands == s.log.commands + [AcceptedCommand(|s.log.commands| + 1, id, command)]
            else s' == s
  {
    hide Inv, WorkInv;
    assert Enabled(c, r.states[k], r.events[k]) && r.states[k + 1] == Step(c, r.states[k], r.events[k]);
    RunInv(c, r, k);
    InvParts(c, r.states[k]);
  }

  // ----- Which children are asked to cancel -----

  /** What a step does to one registered child. */
  ghost predicate HandleKept(c: Request, work: WorkTable, work': WorkTable, item: string, stop: bool)
    requires item in work.active && item in work'.active
  {
    || work'.active[item] == work.active[item]
    || (stop && item in ItemIds(c.items) && Item(c, item).cancellable
        && work'.active[item] == work.active[item].(cancelRequested := true))
  }

  lemma {:induction false} HandleByLoop(c: Request, s: State, item: string)
    requires Enabled(c, s, Continue) && item in s.work.active && item in StepLoop(c, s).work.active
    requires s.point.AwaitChild? ==> s.point.item !in s.work.active
    ensures HandleKept(c, s.work, StepLoop(c, s).work, item, false)
  {}

  lemma {:induction false} HandleByOther(c: Request, s: State, e: Event, item: string)
    requires Enabled(c, s, e) && !e.Continue? && item in s.work.active && item in Step(c, s, e).work.active
    ensures HandleKept(c, s.work, Step(c, s, e).work, item, e.Update? && (e.command.Pause? || e.command.Redirect?))
  {
    if e.Update? { SubmitCases(c, s, e.commandId, e.command); }
  }

  /** A registered child keeps its attempt, and is asked to cancel only by a pause or a redirect, and only
      if it is cancellable. */
  lemma {:induction false} OnlyStopsCancel(c: Request, r: Run, k: nat, item: string)
    requires IsRun(c, r) && k < |r.events|
    requires item in r.states[k].work.active && item in r.states[k + 1].work.active
    ensures HandleKept(c, r.states[k].work, r.states[k + 1].work, item,
                       r.events[k].Update? && (r.events[k].command.Pause? || r.events[k].command.Redirect?))
  {
    hide Enabled, Step, Inv, LogInv, WorkInv, HandleKept;
    var s, e := r.states[k], r.events[k];
    assert Enabled(c, s, e) && r.states[k + 1] == Step(c, s, e);
    if e.Continue? {
      RunInv(c, r, k);
      InvParts(c, s);
      if s.point.AwaitChild? { StartedIsNotActive(c, s); }
      ContinueIs(c, s);
      HandleByLoop(c, s, item);
    } else {
      HandleByOther(c, s, e, item);
    }
  }

  lemma StartedIsNotActive(c: Request, s: State)
    requires WorkInv(c, s) && s.point.AwaitChild?
    ensures s.point.item !in s.work.active
  {
    assert RowOk(s.work, InFlight(s.point), s.point.item);
  }

  lemma {:induction false} RegisteredStep(c: Request, s: State, e: Event, item: string)
    requires Enabled(c, s, e) && item !in s.work.active && item in Step(c, s, e).work.active
    ensures s.point.AwaitChild? && s.point.item == item
    ensures Step(c, s, e).work.active[item] == ChildHandle(s.point.attempt, s.control.paused || Unprocessed(s))
  {
    if e.Update? { SubmitCases(c, s, e.commandId, e.command); }
  }

  /** A child that is registered is asked to cancel at once exactly when the run is paused or a command is
      waiting; it is the child just started. */
  lemma {:induction false} RegisteredAsStarted(c: Request, r: Run, k: nat, item: string)
    requires IsRun(c, r) && k < |r.events|
    requires item !in r.states[k].work.active && item in r.states[k + 1].work.active
    ensures var s := r.states[k];
            && s.point.AwaitChild? && s.point.item == item
            && r.states[k + 1].work.active[item]
            == ChildHandle(s.point.attempt, s.control.paused || s.processed < |s.log.commands|)
  {
    hide Enabled, Step, WorkInv;
    RunStep(c, r, k);
    RegisteredStep(c, r.states[k], r.events[k], item);
  }

  // ----- What is returned -----

  lemma {:induction false} ReturnsFromHandlers(c: Request, s: State, e: Event)
    requires Enabled(c, s, e) && Step(c, s, e).point.Returned?
    ensures s.point.AwaitHandlers? && e.Continue?
    ensures Step(c, s, e) == StepReturn(c, s, s.point.failures)
  {
    if e.Update? { SubmitCases(c, s, e.commandId, e.command); }
  }

  /** The returned revision and messages are the folds of the commands that were applied. */
  lemma {:induction false} ReturnsAppliedControl(c: Request, r: Run, k: nat)
    requires IsRun(c, r) && k < |r.states| && r.states[k].point.Returned?
    ensures var s := r.states[k];
            && s.processed <= |s.log.commands|
            && (s.point.result.revisionId, s.point.result.revision) == RevisionBy(c, s.log.commands[..s.processed])
            && s.point.result.messages == MessagesBy(s.log.commands, s.processed)
  {
    hide Enabled, Step, Inv;
    ControlIsFoldOfLog(c, r, k);
    if k > 0 {
      assert Enabled(c, r.states[k - 1], r.events[k - 1]);
      ReturnsFromHandlers(c, r.states[k - 1], r.events[k - 1]);
    }
  }

  // ----- Which items are started -----

  predicate IsPending(c: Request, states: map<string, WorkState>, x: nat) {
    x < |c.items| && c.items[x].id in states && states[c.items[x].id].status == Pending
  }

  predicate Increasing(at: seq<nat>) {
    forall a, b :: 0 <= a < b < |at| ==> at[a] < at[b]
  }

  function Shifted(at: seq<nat>): (moved: seq<nat>)
    ensures |moved| == |at| && forall a :: 0 <= a < |at| ==> moved[a] == at[a] + 1
  {
    seq(|at|, a requires 0 <= a < |at| => at[a] + 1)
  }

  lemma {:induction false} ShiftedMembers(at: seq<nat>, x: nat)
    ensures x in Shifted(at) <==> x > 0 && x - 1 in at
  {
    if x > 0 && x - 1 in at {
      var a :| 0 <= a < |at| && at[a] == x - 1;
      assert Shifted(at)[a] == x;
    }
  }

  predicate IsPendingAt(items: seq<WorkItem>, states: map<string, WorkState>, x: nat) {
    x < |items| && items[x].id in states && states[items[x].id].status == Pending
  }

  /** The ids stand at those places. */
  predicate Names(items: seq<WorkItem>, ids: seq<string>, at: seq<nat>) {
    |at| == |ids| && forall a :: 0 <= a < |at| ==> at[a] < |items| && items[at[a]].id == ids[a]
  }

  /** The places of the pending items, in order. */
  ghost predicate PlacesOf(items: seq<WorkItem>, states: map<string, WorkState>, at: seq<nat>) {
    && Increasing(at) && Names(items, PendingItems(items, states), at)
    && (forall x: nat :: x in at <==> IsPendingAt(items, states, x))
  }

  lemma ShiftedNames(items: seq<WorkItem>, ids: seq<string>, at: seq<nat>)
    requires items != [] && Names(items[1..], ids, at)
    ensures Names(items, ids, Shifted(at)) && Names(items, [items[0].id] + ids, [0] + Shifted(at))
  {}

  lemma {:induction false} PlacesShift(items: seq<WorkItem>, states: map<string, WorkState>, rest: seq<nat>, x: nat)
    requires items != [] && forall y: nat :: y in rest <==> IsPendingAt(items[1..], states, y)
    ensures x in Shifted(rest) <==> x > 0 && IsPendingAt(items, states, x)
  {
    ShiftedMembers(rest, x);
    if x > 0 { assert IsPendingAt(items[1..], states, x - 1) <==> IsPendingAt(items, states, x); }
  }

  lemma ShiftedIncreasing(at: seq<nat>)
    requires Increasing(at)
    ensures Increasing(Shifted(at)) && Increasing([0] + Shifted(at))
  {}

  lemma {:induction false} PendingStep(items: seq<WorkItem>, states: map<string, WorkState>)
    requires items != []
    ensures PendingItems(items, states)
         == (if IsPendingAt(items, states, 0) then [items[0].id] else []) + PendingItems(items[1..], states)
  {}

  lemma {:induction false} PlacesStep(items: seq<WorkItem>, states: map<string, WorkState>, rest: seq<nat>)
      returns (at: seq<nat>)
    requires items != [] && PlacesOf(items[1..], states, rest)
    ensures PlacesOf(items, states, at)
  {
    hide Names, Increasing, PendingItems, IsPendingAt;
    ShiftedNames(items, PendingItems(items[1..], states), rest);
    ShiftedIncreasing(rest);
    PendingStep(items, states);
    at := if IsPendingAt(items, states, 0) then [0] + Shifted(rest) else Shifted(rest);
    assert [] + PendingItems(items[1..], states) == PendingItems(items[1..], states);
    forall x: nat ensures x in at <==> IsPendingAt(items, states, x) { PlacesShift(items, states, rest, x); }
  }

  lemma {:induction false} PendingPlaces(items: seq<WorkItem>, states: map<string, WorkState>) returns (at: seq<nat>)
    ensures PlacesOf(items, states, at)
  {
    if items == [] {
      at := [];
    } else {
      var rest := PendingPlaces(items[1..], states);
      at := PlacesStep(items, states, rest);
    }
  }

  /** `chosen` are the first pending items of the request, as many of them as may run at once. */
  ghost predicate FirstPending(c: Request, states: map<string, WorkState>, chosen: seq<string>, at: seq<nat>) {
    && |at| == |chosen| && Increasing(at) && 0 < |at| <= c.maxConcurrency
    && (forall a :: 0 <= a < |at| ==> IsPendingAt(c.items, states, at[a]) && c.items[at[a]].id == chosen[a])
    && (forall x: nat :: IsPendingAt(c.items, states, x) && x !in at ==>
          |at| == c.maxConcurrency && forall a :: 0 <= a < |at| ==> at[a] < x)
  }

  lemma {:induction false} CutPlaces(c: Request, states: map<string, WorkState>, all: seq<nat>, at: seq<nat>)
    requires c.maxConcurrency >= 1 && PlacesOf(c.items, states, all) && PendingItems(c.items, states) != []
    requires at == if |all| <= c.maxConcurrency then all else all[..c.maxConcurrency]
    ensures var pending := PendingItems(c.items, states);
            FirstPending(c, states, if |pending| <= c.maxConcurrency then pending else pending[..c.maxConcurrency], at)
  {
    hide IsPendingAt, PendingItems;
    forall a | 0 <= a < |at| ensures IsPendingAt(c.items, states, at[a]) { assert all[a] in all; }
    forall x: nat | IsPendingAt(c.items, states, x) && x !in at
      ensures |at| == c.maxConcurrency && forall a :: 0 <= a < |at| ==> at[a] < x
    {
      var b :| 0 <= b < |all| && all[b] == x;
      assert b >= |at|;
    }
  }

  lemma {:induction false} DecidesToStart(c: Request, s: State, e: Event)
    requires Enabled(c, s, e) && s.point.Decide? && Step(c, s, e).point.StartNext?
    ensures var pending := PendingItems(c.items, s.work.states);
            && pending != []
            && Step(c, s, e).point.rest
            == if |pending| <= c.maxConcurrency then pending else pending[..c.maxConcurrency]
  {}

  /** What is started after a decision are the first pending items in the order of the request. */
  lemma {:induction false} StartsFirstPending(c: Request, r: Run, k: nat) returns (at: seq<nat>)
    requires IsRun(c, r) && k < |r.events| && r.states[k].point.Decide? && r.states[k + 1].point.StartNext?
    ensures FirstPending(c, r.states[k].work.states, r.states[k + 1].point.rest, at)
  {
    hide Inv, Enabled, Step, PlacesOf, FirstPending;
    var s := r.states[k];
    assert Enabled(c, s, r.events[k]) && r.states[k + 1] == Step(c, s, r.events[k]);
    assert c.maxConcurrency >= 1 by { assert Init(c).Ok?; }
    var all := PendingPlaces(c.items, s.work.states);
    DecidesToStart(c, s, r.events[k]);
    at := if |all| <= c.maxConcurrency then all else all[..c.maxConcurrency];
    CutPlaces(c, s.work.states, all, at);
  }
}
