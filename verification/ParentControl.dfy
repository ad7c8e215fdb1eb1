/** Operator commands that land in the middle of the loop's work: retries stay valid until they are
    applied, and a pause or a redirect reaches every child. */
module ParentControl {
  import opened Wrappers
  import opened ParentMachine
  import opened ParentLog
  import opened ParentWork

  // ----- Retries -----

  /** A retry that was accepted and not applied yet can still be applied as validated. */
  ghost predicate RetryReady(work: WorkTable, point: Point, item: string, expectedAttempt: int) {
    && item in work.states
    && (work.states[item].status == Failed || work.states[item].status == Pending)
    && work.states[item].attempt == expectedAttempt
    && !(point.AwaitStart? && point.item == item)
  }

  ghost predicate RetryInv(s: State) {
    forall k :: s.processed <= k < |s.log.commands| && s.log.commands[k].value.RetryWork? ==>
      RetryReady(s.work, s.point, s.log.commands[k].value.workItemId, s.log.commands[k].value.expectedAttempt)
  }

  /** Items that are not running keep their attempt and do not start. */
  ghost predicate Calm(s: State, s': State) {
    && s'.log == s.log && s'.processed >= s.processed
    && (forall item, n :: RetryReady(s.work, s.point, item, n) && Unprocessed(s) ==>
            RetryReady(s'.work, s'.point, item, n))
  }

  lemma {:induction false} CalmKeepsRetries(s: State, s': State)
    requires RetryInv(s) && Calm(s, s') && s.log.sequence == |s.log.commands|
    ensures RetryInv(s')
  {}

  lemma {:induction false} LoopIsCalm(c: Request, s: State)
    requires Enabled(c, s, Continue) && s.point != Decide
    requires PointInLog(s.log, s.processed, s.point)
    requires s.point.AwaitApplied? ==> s.log.commands[s.point.i].sequence == s.point.i + 1
    requires PointInWork(c, s.work, s.point)
    ensures Calm(s, StepLoop(c, s))
  {}

  lemma {:induction false} FinishIsCalm(c: Request, s: State, item: string, outcome: Outcome)
    requires Enabled(c, s, Finish(item, outcome)) && item in s.work.states && s.work.states[item].status == Running
    ensures Calm(s, Step(c, s, Finish(item, outcome)))
  {}

  lemma {:induction false} InvalidateIsCalm(c: Request, s: State, item: string)
    requires Enabled(c, s, Invalidate(item)) && WorkInv(c, s)
    ensures Calm(s, Step(c, s, Invalidate(item)))
  {
    assert RowOk(s.work, {}, item);
  }

  lemma {:induction false} AcceptKeepsRetries(c: Request, s: State, id: string, command: Command)
    requires s.log.sequence == |s.log.commands| && s.work.active.Keys <= ItemIds(c.items)
    requires RetryInv(s) && PointInWork(c, s.work, s.point)
    requires ValidateNew(s.control, s.work.states, command).None?
    ensures RetryInv(Handle(c, s, id, command))
  {}

  lemma {:induction false} RetryStep(c: Request, s: State, e: Event)
    requires Enabled(c, s, e) && LogInv(s) && WorkInv(c, s) && RetryInv(s)
    ensures RetryInv(Step(c, s, e))
  {
    var s' := Step(c, s, e);
    match e
    case Update(id, command) =>
      SubmitCases(c, s, id, command);
      if s' != s { AcceptKeepsRetries(c, s, id, command); }
    case Continue =>
      if s.point.Decide? {
        assert s.processed == |s.log.commands| && s'.processed == s.processed && s'.log == s.log;
      } else {
        LoopIsCalm(c, s);
        CalmKeepsRetries(s, s');
      }
    case ChildrenDone(_) =>
    case Finish(item, outcome) =>
      assert RowOk(s.work, {}, item);
      FinishIsCalm(c, s, item, outcome);
      CalmKeepsRetries(s, s');
    case Invalidate(item) =>
      InvalidateIsCalm(c, s, item);
      CalmKeepsRetries(s, s');
  }

  // ----- Pause and redirect reach every child -----

  ghost predicate Stopping(s: State) {
    || s.control.paused
    || exists k :: s.processed <= k < |s.log.commands|
         && (s.log.commands[k].value.Pause? || s.log.commands[k].value.Redirect?)
  }

  /** Every cancellable child in `_active` was asked to cancel. */
  ghost predicate AllAsked(c: Request, work: WorkTable) {
    forall item :: item in work.active && item in ItemIds(c.items) && Item(c, item).cancellable ==>
      work.active[item].cancelRequested
  }

  ghost predicate CancelInv(c: Request, s: State) {
    Stopping(s) ==> AllAsked(c, s.work)
  }

  lemma {:induction false} LoopCancels(c: Request, s: State)
    requires Enabled(c, s, Continue) && s.log.sequence == |s.log.commands| && CancelInv(c, s)
    requires PointInLog(s.log, s.processed, s.point)
    requires s.point.AwaitApplied? ==> s.log.commands[s.point.i].sequence == s.point.i + 1
    ensures CancelInv(c, StepLoop(c, s))
  {
    var s' := StepLoop(c, s);
    assert s'.log == s.log && s'.processed >= s.processed && s'.control.paused == s.control.paused;
    assert Stopping(s') ==> Stopping(s);
    if s.point.AwaitChild? {
      assert Stopping(s) ==> s.control.paused || Unprocessed(s);
    } else {
      assert s'.work.active == s.work.active;
    }
  }

  lemma {:induction false} AcceptCancels(c: Request, s: State, id: string, command: Command)
    requires s.work.active.Keys <= ItemIds(c.items) && s.log.sequence == |s.log.commands| && CancelInv(c, s)
    ensures CancelInv(c, Handle(c, s, id, command))
  {
    var s' := Handle(c, s, id, command);
    if Stopping(s') && !Stopping(s) {
      if !s'.control.paused {
        var k :| s'.processed <= k < |s'.log.commands|
              && (s'.log.commands[k].value.Pause? || s'.log.commands[k].value.Redirect?);
        assert k == |s.log.commands| && s'.log.commands[k].value == command;
      }
      assert command.Pause? || command.Redirect?;
    }
  }

  lemma {:induction false} CancelStep(c: Request, s: State, e: Event)
    requires Enabled(c, s, e) && LogInv(s) && CancelInv(c, s)
    ensures CancelInv(c, Step(c, s, e))
  {
    var s' := Step(c, s, e);
    match e
    case Update(id, command) =>
      SubmitCases(c, s, id, command);
      if s' != s { AcceptCancels(c, s, id, command); }
    case Continue =>
      LoopCancels(c, s);
    case ChildrenDone(_) =>
    case Finish(item, outcome) =>
      assert s'.log == s.log && s'.processed == s.processed && s'.control == s.control;
      assert s'.work.active == s.work.active - {item} || s'.work == s.work;
    case Invalidate(item) =>
      assert s'.log == s.log && s'.processed == s.processed && s'.control == s.control;
      assert s'.work.active == s.work.active;
  }

  // ----- The work invariant, every step -----

  lemma {:induction false} WorkContinue(c: Request, s: State)
    requires ValidRequest(c) && Enabled(c, s, Continue) && LogInv(s) && WorkInv(c, s) && RetryInv(s)
    ensures WorkInv(c, StepLoop(c, s))
  {
    if s.point.AwaitAccepted? {
      assert s.log.commands[s.processed].value.RetryWork? ==>
        RetryReady(s.work, s.point, s.log.commands[s.processed].value.workItemId,
                   s.log.commands[s.processed].value.expectedAttempt);
      hide WorkInv, LogInv, RetryInv;
      WorkApply(c, s);
    } else {
      hide WorkInv, LogInv, RetryInv;
      match s.point
      case Decide => DecideOk(c, s);
      case AwaitPlan(_) => WorkPlanned(c, s);
      case StartNext(_) => WorkStartNext(c, s);
      case AwaitEnsure(_, _, _) => WorkEnsured(c, s);
      case AwaitStart(_, _, _, _) => WorkStart(c, s);
      case AwaitChild(_, _, _) => WorkRegister(c, s);
      case _ => WorkLoop(c, s);
    }
  }

  lemma {:induction false} WorkStep(c: Request, s: State, e: Event)
    requires ValidRequest(c) && Enabled(c, s, e) && LogInv(s) && WorkInv(c, s) && RetryInv(s)
    ensures WorkInv(c, Step(c, s, e))
  {
    match e
    case Update(id, command) =>
      SubmitCases(c, s, id, command);
      if Submit(c, s, id, command).1 != s { WorkUpdate(c, s, id, command); }
    case Continue => WorkContinue(c, s);
    case ChildrenDone(_) =>
    case Finish(item, outcome) => WorkFinish(c, s, item, outcome);
    case Invalidate(item) => WorkInvalidate(c, s, item);
  }
}
