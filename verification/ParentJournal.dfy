/** Every journal call of the parent has its own key, and the calls the state promises were made. */
module ParentJournal {
  import opened ParentMachine
  import opened ParentLog
  import opened ParentWork

  /** Child run ids and subagent ids belong to one work item each. */
  ghost predicate DistinctChildren(c: Request) {
    forall v, w :: v in c.items && w in c.items && v.id != w.id ==>
      v.childRunId != w.childRunId && v.subagentId != w.subagentId
  }

  // ----- Calls explained by the command log -----

  predicate InCommand(point: Point) {
    point.AwaitAccepted? || point.AwaitApplied? || point.AwaitPlan? || point.Invalidating? || point.AwaitInvalidated?
  }

  /** The last journal call of a command. */
  function AppliedKey(command: AcceptedCommand): JournalKey {
    match command.value
    case QueueMessage(messageId, _) => MessageApplied(messageId)
    case Redirect(_, revision, _, _) => Redirected(revision)
    case _ => CommandApplied(command.commandId)
  }

  ghost predicate AcceptedCall(commands: seq<AcceptedCommand>, processed: nat, point: Point, key: JournalKey) {
    exists k :: 0 <= k < |commands| && k < (if InCommand(point) then processed + 1 else processed)
             && key == CommandAccepted(commands[k].commandId)
  }

  ghost predicate AppliedCall(commands: seq<AcceptedCommand>, processed: nat, point: Point, key: JournalKey) {
    exists k :: 0 <= k < |commands| && k < Effective(processed, point) && key == AppliedKey(commands[k])
  }

  /** An item dropped by a redirect, finished or in progress. */
  ghost predicate DroppedCall(commands: seq<AcceptedCommand>, processed: nat, point: Point, revision: int,
                              item: string) {
    || AppliedCall(commands, processed, point, Redirected(revision))
    || ((point.Invalidating? || point.AwaitInvalidated?) && point.i < |commands| && item !in point.todo
        && AppliedKey(commands[point.i]) == Redirected(revision))
  }

  // ----- Calls explained by the work table -----

  /** Attempt n of the item was begun, at least up to its `stage`-th journal call. */
  predicate Begun(work: WorkTable, point: Point, item: string, n: nat, stage: nat) {
    && item in work.states && n >= 1
    && (|| n <= work.states[item].attempt
        || (point.AwaitStart? && point.item == item && point.attempt == n && point.stage >= stage))
  }

  /** Attempt n of the item is over, at least up to its `stage`-th closing journal call. */
  predicate Ended(work: WorkTable, point: Point, item: string, n: nat, stage: nat) {
    && item in work.states
    && (|| n < work.states[item].attempt
        || (&& n == work.states[item].attempt && work.states[item].status != Running
            && !(point.AwaitFinish? && point.item == item && point.stage < stage)))
  }

  /** The item's current result, its closing calls made up to `stage`. */
  predicate Reported(work: WorkTable, point: Point, item: string, n: nat, failed: bool, stage: nat) {
    && item in work.results && work.results[item].attempt == n && work.results[item].failed == failed
    && !(point.AwaitFinish? && point.item == item && point.stage < stage)
  }

  // ----- All calls -----

  predicate Leaving(point: Point) {
    point.AwaitCompleted? || point.AwaitHandlers? || point.Returned?
  }

  /** The state accounts for this call. */
  ghost predicate Explained(c: Request, s: State, call: JournalCall) {
    match call.key
    case Recovery(_) => true
    case WorkflowStarted => call.runId == c.runId
    case WorkflowCompleted => call.runId == c.runId && Leaving(s.point)
    case CommandAccepted(_) => call.runId == c.runId && AcceptedCall(s.log.commands, s.processed, s.point, call.key)
    case CommandApplied(_) => call.runId == c.runId && AppliedCall(s.log.commands, s.processed, s.point, call.key)
    case MessageApplied(_) => call.runId == c.runId && AppliedCall(s.log.commands, s.processed, s.point, call.key)
    case Redirected(_) => call.runId == c.runId && AppliedCall(s.log.commands, s.processed, s.point, call.key)
    case RedirectedWork(revision, item) =>
      call.runId == c.runId && DroppedCall(s.log.commands, s.processed, s.point, revision, item)
    case WorkStarted(item, n) => call.runId == c.runId && Begun(s.work, s.point, item, n, 0)
    case SubagentStarted(subagent, n) =>
      call.runId == c.runId && exists w ::
            w in c.items && w.subagentId == subagent && Begun(s.work, s.point, w.id, n, 1)
    case AttemptStarted(n) =>
      exists w :: w in c.items && w.childRunId == call.runId && Begun(s.work, s.point, w.id, n, 2)
    case WorkFinished(item, n, _) => call.runId == c.runId && Ended(s.work, s.point, item, n, 0)
    case SubagentFinished(subagent, n, _) =>
      call.runId == c.runId && exists w ::
            w in c.items && w.subagentId == subagent && Ended(s.work, s.point, w.id, n, 1)
    case AttemptFinished(n, _) =>
      exists w :: w in c.items && w.childRunId == call.runId && Ended(s.work, s.point, w.id, n, 2)
  }

  /** The state shows that this call was made. */
  ghost predicate Promised(c: Request, s: State, call: JournalCall) {
    match call.key
    case Recovery(_) => false
    case RedirectedWork(_, _) => false
    case WorkFinished(item, n, failed) => call.runId == c.runId && Reported(s.work, s.point, item, n, failed, 0)
    case SubagentFinished(subagent, n, failed) =>
      call.runId == c.runId && exists w ::
            w in c.items && w.subagentId == subagent && Reported(s.work, s.point, w.id, n, failed, 1)
    case AttemptFinished(n, failed) =>
      exists w :: w in c.items && w.childRunId == call.runId && Reported(s.work, s.point, w.id, n, failed, 2)
    case _ => Explained(c, s, call)
  }

  ghost predicate OneEventEach(journal: seq<JournalCall>) {
    forall i, j :: 0 <= i < j < |journal| && journal[i] == journal[j] ==> journal[i].key.Recovery?
  }

  ghost predicate JournalInv(c: Request, s: State) {
    && (forall call :: call in s.journal ==> Explained(c, s, call))
    && (forall call :: Promised(c, s, call) ==> call in s.journal)
    && OneEventEach(s.journal)
  }

  // ----- Steps that make no call, steps that make one -----

  ghost predicate Silent(c: Request, s: State, s': State) {
    && s'.journal == s.journal
    && (forall call :: Explained(c, s, call) ==> Explained(c, s', call))
    && (forall call :: Promised(c, s', call) ==> Promised(c, s, call))
  }

  ghost predicate Calls(c: Request, s: State, s': State, call: JournalCall) {
    && s'.journal == s.journal + [call]
    && (forall x :: Explained(c, s, x) ==> Explained(c, s', x))
    && Explained(c, s', call)
    && (call.key.Recovery? || !Explained(c, s, call))
    && (forall x :: Promised(c, s', x) ==> Promised(c, s, x) || x == call)
  }

  lemma {:induction false} SilentKeeps(c: Request, s: State, s': State)
    requires JournalInv(c, s) && Silent(c, s, s')
    ensures JournalInv(c, s')
  {
    hide Explained, Promised;
  }

  lemma {:induction false} CallKeeps(c: Request, s: State, s': State, call: JournalCall)
    requires JournalInv(c, s) && Calls(c, s, s', call)
    ensures JournalInv(c, s')
  {
    hide Explained, Promised;
    var n := |s.journal|;
    forall i, j | 0 <= i < j < |s'.journal| && s'.journal[i] == s'.journal[j]
      ensures s'.journal[i].key.Recovery?
    {
      if j == n {
        assert s.journal[i] in s.journal;
      } else {
        assert s.journal[i] == s.journal[j];
      }
    }
  }

  // ----- How the explanations move -----

  ghost predicate SameAccepted(s: State, s': State) {
    forall key :: AcceptedCall(s'.log.commands, s'.processed, s'.point, key)
             <==> AcceptedCall(s.log.commands, s.processed, s.point, key)
  }

  ghost predicate SameApplied(s: State, s': State) {
    forall key :: AppliedCall(s'.log.commands, s'.processed, s'.point, key)
             <==> AppliedCall(s.log.commands, s.processed, s.point, key)
  }

  ghost predicate DroppedGrows(s: State, s': State) {
    forall revision, item :: DroppedCall(s.log.commands, s.processed, s.point, revision, item)
      ==> DroppedCall(s'.log.commands, s'.processed, s'.point, revision, item)
  }

  ghost predicate SameLogCalls(s: State, s': State) {
    SameAccepted(s, s') && SameApplied(s, s') && DroppedGrows(s, s')
  }

  ghost predicate SameBegun(s: State, s': State) {
    forall item, n, stage :: stage <= 2 ==>
      (Begun(s'.work, s'.point, item, n, stage) <==> Begun(s.work, s.point, item, n, stage))
  }

  ghost predicate EndedGrows(s: State, s': State) {
    forall item, n, stage :: stage <= 2 && Ended(s.work, s.point, item, n, stage) ==>
      Ended(s'.work, s'.point, item, n, stage)
  }

  ghost predicate ReportsShrink(s: State, s': State) {
    forall item, n, failed, stage :: stage <= 2 && Reported(s'.work, s'.point, item, n, failed, stage) ==>
      Reported(s.work, s.point, item, n, failed, stage)
  }

  ghost predicate SameWorkCalls(s: State, s': State) {
    SameBegun(s, s') && EndedGrows(s, s') && ReportsShrink(s, s')
  }

  lemma {:induction false} SilentFrom(c: Request, s: State, s': State)
    requires SameLogCalls(s, s') && SameWorkCalls(s, s')
    requires Leaving(s'.point) == Leaving(s.point) && s'.journal == s.journal
    ensures Silent(c, s, s')
  {
    hide AcceptedCall, AppliedCall, DroppedCall, Begun, Ended, Reported;
  }

  /** A step that neither moves in the log nor in the work table. */
  lemma {:induction false} NeutralStep(c: Request, s: State, s': State)
    requires s'.log == s.log && s'.processed == s.processed && s'.journal == s.journal
    requires s'.work.states == s.work.states && s'.work.results == s.work.results
    requires InCommand(s'.point) == InCommand(s.point) && s'.point.AwaitApplied? == s.point.AwaitApplied?
    requires s.point.Invalidating? || s.point.AwaitInvalidated? ==>
               (s'.point.Invalidating? || s'.point.AwaitInvalidated?)
               && s'.point.i == s.point.i && s'.point.todo == s.point.todo
    requires !s.point.AwaitStart? && !s'.point.AwaitStart? && !s'.point.AwaitFinish?
    requires s.point.AwaitFinish? ==> s.point.stage == 2
    requires Leaving(s'.point) == Leaving(s.point)
    ensures Silent(c, s, s')
  {
    assert SameLogCalls(s, s') && SameWorkCalls(s, s');
    SilentFrom(c, s, s');
  }

  // ----- Steps over the command log -----

  /** A new command is not yet drained, so it explains nothing. */
  lemma {:induction false} UpdateSilent(c: Request, s: State, id: string, command: Command)
    requires LogInv(s) && s.work.active.Keys <= ItemIds(c.items)
    ensures Silent(c, s, Handle(c, s, id, command))
  {
    var s' := Handle(c, s, id, command);
    assert s'.work.states == s.work.states && s'.work.results == s.work.results;
    assert forall k :: 0 <= k < |s.log.commands| ==> s'.log.commands[k] == s.log.commands[k];
    assert SameLogCalls(s, s') && SameWorkCalls(s, s');
    SilentFrom(c, s, s');
  }

  /** The call that journals the acceptance of the next command. */
  lemma {:induction false} DrainCalls(c: Request, s: State, i: nat)
    requires LogInv(s) && s.point == Drain(i) && i == s.processed < |s.log.commands|
    ensures Calls(c, s, StepDrain(c, s, i), JournalCall(c.runId, CommandAccepted(s.log.commands[i].commandId)))
  {
    var s' := StepDrain(c, s, i);
    var key0 := CommandAccepted(s.log.commands[i].commandId);
    assert !AcceptedCall(s.log.commands, i, s.point, key0);
    assert forall key :: AcceptedCall(s'.log.commands, i, s'.point, key)
                    <==> AcceptedCall(s.log.commands, i, s.point, key) || key == key0;
    assert SameApplied(s, s') && DroppedGrows(s, s') && SameWorkCalls(s, s');
    hide LogInv, AcceptedCall, AppliedCall, DroppedCall, Begun, Ended, Reported;
  }

  /** No two commands share the key of their last journal call. */
  lemma {:induction false} AppliedKeysDistinct(c: Request, s: State, j: nat, k: nat)
    requires LogShape(s.log) && OrderInv(c, s) && j < k < |s.log.commands|
    ensures AppliedKey(s.log.commands[j]) != AppliedKey(s.log.commands[k])
  {}

  lemma {:induction false} AppliedKeyIsNew(c: Request, s: State)
    requires LogShape(s.log) && OrderInv(c, s) && s.processed < |s.log.commands| && !s.point.AwaitApplied?
    ensures !AppliedCall(s.log.commands, s.processed, s.point, AppliedKey(s.log.commands[s.processed]))
  {
    forall k | 0 <= k < s.processed
      ensures AppliedKey(s.log.commands[k]) != AppliedKey(s.log.commands[s.processed])
    {
      AppliedKeysDistinct(c, s, k, s.processed);
    }
  }

  lemma {:induction false} AppliedGrows(s: State, s': State)
    requires s.processed < |s.log.commands| && InCommand(s.point) && !s.point.AwaitApplied?
    requires s.point.Invalidating? || s.point.AwaitInvalidated? ==> s.point.i == s.processed
    requires s'.log == s.log && s'.processed == s.processed && s'.point == AwaitApplied(s.processed)
    ensures SameAccepted(s, s') && DroppedGrows(s, s')
    ensures forall key :: AppliedCall(s'.log.commands, s'.processed, s'.point, key) <==>
              (AppliedCall(s.log.commands, s.processed, s.point, key) || key == AppliedKey(s.log.commands[s.processed]))
  {}

  ghost predicate AppliedPlus(s: State, s': State, added: JournalKey) {
    forall key :: AppliedCall(s'.log.commands, s'.processed, s'.point, key) <==>
      (AppliedCall(s.log.commands, s.processed, s.point, key) || key == added)
  }

  lemma {:induction false} AppliedExplains(c: Request, s: State, s': State, key: JournalKey)
    requires SameAccepted(s, s') && DroppedGrows(s, s') && AppliedPlus(s, s', key) && SameWorkCalls(s, s')
    requires Leaving(s'.point) == Leaving(s.point)
    requires key.CommandApplied? || key.MessageApplied? || key.Redirected?
    ensures forall x :: Explained(c, s, x) ==> Explained(c, s', x)
    ensures Explained(c, s', JournalCall(c.runId, key))
  {
    hide AcceptedCall, AppliedCall, DroppedCall, Begun, Ended, Reported;
  }

  lemma {:induction false} AppliedPromises(c: Request, s: State, s': State, key: JournalKey)
    requires SameAccepted(s, s') && AppliedPlus(s, s', key) && SameWorkCalls(s, s')
    requires Leaving(s'.point) == Leaving(s.point)
    ensures forall x :: Promised(c, s', x) ==> Promised(c, s, x) || x == JournalCall(c.runId, key)
  {
    hide AcceptedCall, AppliedCall, DroppedCall, Begun, Ended, Reported;
  }

  /** Making the last journal call of the command being applied. */
  lemma {:induction false} AppliedCalls(c: Request, s: State, s': State)
    requires LogInv(s) && OrderInv(c, s)
    requires s.point.AwaitAccepted? || (s.point.Invalidating? && s.point.todo == {})
    requires s'.log == s.log && s'.processed == s.processed && s'.point == AwaitApplied(s.processed)
    requires s'.journal == s.journal + [JournalCall(c.runId, AppliedKey(s.log.commands[s.processed]))]
    requires SameWorkCalls(s, s')
    ensures Calls(c, s, s', JournalCall(c.runId, AppliedKey(s.log.commands[s.processed])))
  {
    var key := AppliedKey(s.log.commands[s.processed]);
    AppliedKeyIsNew(c, s);
    AppliedGrows(s, s');
    assert !Explained(c, s, JournalCall(c.runId, key));
    hide LogShape, OrderInv, AcceptedCall, AppliedCall, DroppedCall, SameAccepted, DroppedGrows, SameWorkCalls,
         Explained, Promised;
    AppliedExplains(c, s, s', key);
    AppliedPromises(c, s, s', key);
  }

  lemma {:induction false} ProcessedSilent(c: Request, s: State, s': State)
    requires s.point.AwaitApplied? && s'.processed == s.processed + 1 && s'.point == Drain(s.point.i + 1)
    requires s'.log == s.log && s'.journal == s.journal && s'.work == s.work && s.processed < |s.log.commands|
    ensures Silent(c, s, s')
  {
    assert SameLogCalls(s, s') && SameWorkCalls(s, s');
    SilentFrom(c, s, s');
  }

  lemma {:induction false} PlannedSilent(c: Request, s: State, s': State)
    requires s.point.AwaitAccepted? || s.point.AwaitPlan?
    requires if s.point.AwaitAccepted? then s'.point.AwaitPlan? else s'.point.Invalidating?
    requires s'.log == s.log && s'.processed == s.processed && s'.journal == s.journal && s'.work == s.work
    ensures Silent(c, s, s')
  {
    assert SameLogCalls(s, s') && SameWorkCalls(s, s');
    SilentFrom(c, s, s');
  }

  /** Putting an item that is not running back to pending explains no less and reports no more. */
  lemma {:induction false} RequeueWorkCalls(s: State, s': State, item: string, revision: int)
    requires item in s.work.states && s.work.states[item].status != Running
    requires s'.work == Requeue(s.work, item, revision)
    requires !s.point.AwaitFinish? && !s.point.AwaitStart? && !s'.point.AwaitFinish? && !s'.point.AwaitStart?
    ensures SameWorkCalls(s, s')
  {}

  lemma {:induction false} InvalidateExplains(c: Request, s: State, s': State, call: JournalCall)
    requires SameAccepted(s, s') && SameApplied(s, s') && DroppedGrows(s, s') && SameWorkCalls(s, s')
    requires Leaving(s'.point) == Leaving(s.point) && s'.journal == s.journal + [call]
    requires call.runId == c.runId && call.key.RedirectedWork?
    requires !DroppedCall(s.log.commands, s.processed, s.point, call.key.revision, call.key.workItemId)
    requires DroppedCall(s'.log.commands, s'.processed, s'.point, call.key.revision, call.key.workItemId)
    ensures Calls(c, s, s', call)
  {
    hide AcceptedCall, AppliedCall, DroppedCall, Begun, Ended, Reported;
  }

  lemma {:induction false} DroppedItem(c: Request, s: State, item: string)
    requires WorkInv(c, s) && Enabled(c, s, Invalidate(item))
    ensures item in s.work.states && s.work.states[item].status != Running && item in s.work.results
  {
    assert RowOk(s.work, {}, item);
  }

  /** Dropping one more item of a redirect's plan. */
  lemma {:induction false} DroppedMoves(c: Request, s: State, s': State, item: string)
    requires LogInv(s) && OrderInv(c, s) && s.point.Invalidating? && item in s.point.todo
    requires s.point.i == s.processed < |s.log.commands|
    requires s.log.commands[s.point.i].value.Redirect? && s'.log == s.log && s'.processed == s.processed
    requires s'.point == AwaitInvalidated(s.point.i, s.point.todo - {item}, s.point.keys)
    ensures SameAccepted(s, s') && SameApplied(s, s') && DroppedGrows(s, s')
    ensures var revision := s.log.commands[s.point.i].value.revision;
            && !DroppedCall(s.log.commands, s.processed, s.point, revision, item)
            && DroppedCall(s'.log.commands, s'.processed, s'.point, revision, item)
  {
    AppliedKeyIsNew(c, s);
    hide OrderInv, LogInv;
  }

  lemma {:induction false} InvalidateCalls(c: Request, s: State, item: string)
    requires LogInv(s) && OrderInv(c, s) && WorkInv(c, s) && Enabled(c, s, Invalidate(item))
    ensures Calls(c, s, Step(c, s, Invalidate(item)),
                  JournalCall(c.runId, RedirectedWork(s.log.commands[s.point.i].value.revision, item)))
  {
    hide Calls, SameAccepted, SameApplied, DroppedGrows, SameWorkCalls, DroppedCall, LogShape, OrderInv, WorkInv,
         AppliedCall;
    var s' := Step(c, s, Invalidate(item));
    var revision := s.log.commands[s.point.i].value.revision;
    DroppedItem(c, s, item);
    DroppedMoves(c, s, s', item);
    RequeueWorkCalls(s, s', item, revision);
    InvalidateExplains(c, s, s', JournalCall(c.runId, RedirectedWork(revision, item)));
  }

  // ----- Steps over the work table -----

  ghost predicate BegunPlus(s: State, s': State, item: string, n: nat, stage: nat) {
    forall i, m, g :: g <= 2 ==>
      (Begun(s'.work, s'.point, i, m, g) <==> (Begun(s.work, s.point, i, m, g) || (i == item && m == n && g == stage)))
  }

  ghost predicate EndedPlus(s: State, s': State, item: string, n: nat, stage: nat) {
    && !Ended(s.work, s.point, item, n, stage) && Ended(s'.work, s'.point, item, n, stage)
    && EndedGrows(s, s')
  }

  ghost predicate ReportedPlus(s: State, s': State, item: string, n: nat, failed: bool, stage: nat) {
    forall i, m, f, g :: g <= 2 && Reported(s'.work, s'.point, i, m, f, g) ==>
      Reported(s.work, s.point, i, m, f, g) || (i == item && m == n && f == failed && g == stage)
  }

  /** The `stage`-th call that opens an attempt of the item. */
  function OpeningCall(c: Request, w: WorkItem, n: nat, stage: nat): JournalCall {
    if stage == 0 then JournalCall(c.runId, WorkStarted(w.id, n))
    else if stage == 1 then JournalCall(c.runId, SubagentStarted(w.subagentId, n))
    else JournalCall(w.childRunId, AttemptStarted(n))
  }

  /** The `stage`-th call that closes an attempt of the item. */
  function ClosingCall(c: Request, w: WorkItem, n: nat, failed: bool, stage: nat): JournalCall {
    if stage == 0 then JournalCall(c.runId, WorkFinished(w.id, n, failed))
    else if stage == 1 then JournalCall(c.runId, SubagentFinished(w.subagentId, n, failed))
    else JournalCall(w.childRunId, AttemptFinished(n, failed))
  }

  lemma {:induction false} OpeningCalls(c: Request, s: State, s': State, w: WorkItem, n: nat, stage: nat)
    requires DistinctChildren(c) && DistinctIds(c.items) && w in c.items && stage <= 2
    requires SameLogCalls(s, s') && EndedGrows(s, s') && ReportsShrink(s, s')
    requires BegunPlus(s, s', w.id, n, stage) && !Begun(s.work, s.point, w.id, n, stage)
    requires Leaving(s'.point) == Leaving(s.point) && s'.journal == s.journal + [OpeningCall(c, w, n, stage)]
    ensures Calls(c, s, s', OpeningCall(c, w, n, stage))
  {
    hide AcceptedCall, AppliedCall, DroppedCall, Begun, Ended, Reported;
  }

  lemma {:induction false} ClosingCalls(c: Request, s: State, s': State, w: WorkItem, n: nat, failed: bool, stage: nat)
    requires DistinctChildren(c) && DistinctIds(c.items) && w in c.items && stage <= 2
    requires SameLogCalls(s, s') && SameBegun(s, s')
    requires EndedPlus(s, s', w.id, n, stage) && ReportedPlus(s, s', w.id, n, failed, stage)
    requires Leaving(s'.point) == Leaving(s.point) && s'.journal == s.journal + [ClosingCall(c, w, n, failed, stage)]
    ensures Calls(c, s, s', ClosingCall(c, w, n, failed, stage))
  {
    hide AcceptedCall, AppliedCall, DroppedCall, Begun, Ended, Reported;
  }

  /** Away from the drain, the log explains the same calls. */
  lemma {:induction false} LogUnmoved(s: State, s': State)
    requires s'.log == s.log && s'.processed == s.processed
    requires !InCommand(s.point) && !InCommand(s'.point)
    ensures SameLogCalls(s, s')
  {}

  lemma {:induction false} OpeningMoves(s: State, s': State)
    requires s.point.AwaitStart? && s.point.stage < 2 && s.point.item in s.work.states
    requires s'.point == AwaitStart(s.point.stage + 1, s.point.rest, s.point.item, s.point.attempt)
    requires s'.work == s.work
    requires s.work.states[s.point.item].attempt + 1 == s.point.attempt
    ensures BegunPlus(s, s', s.point.item, s.point.attempt, s.point.stage + 1)
    ensures EndedGrows(s, s') && ReportsShrink(s, s')
    ensures !Begun(s.work, s.point, s.point.item, s.point.attempt, s.point.stage + 1)
  {}

  lemma {:induction false} SettleMoves(s: State, s': State, item: string, n: nat, failed: bool)
    requires !s.point.AwaitStart? && !s.point.AwaitFinish? && !s'.point.AwaitStart?
    requires s'.point.AwaitFinish? && s'.point.stage == 0 && s'.point.item == item
    requires item in s.work.states && s.work.states[item].status == Running && s.work.states[item].attempt == n
    requires item !in s.work.results
    requires item in s'.work.states && s'.work.states[item].attempt == n && s'.work.states[item].status != Running
    requires s'.work.states == s.work.states[item := s'.work.states[item]]
    requires item in s'.work.results && s'.work.results == s.work.results[item := s'.work.results[item]]
    requires s'.work.results[item].attempt == n && s'.work.results[item].failed == failed
    ensures SameBegun(s, s') && EndedPlus(s, s', item, n, 0) && ReportedPlus(s, s', item, n, failed, 0)
  {}

  lemma {:induction false} ClosingMoves(s: State, s': State)
    requires s.point.AwaitFinish? && s.point.stage < 2 && s.point.item in s.work.states
    requires s'.point == AwaitFinish(s.point.stage + 1, s.point.todo, s.point.item, s.point.attempt, s.point.failed)
    requires s'.work == s.work
    requires s.work.states[s.point.item].attempt == s.point.attempt && s.work.states[s.point.item].status != Running
    requires s.point.item in s.work.results && s.work.results[s.point.item].attempt == s.point.attempt
    requires s.work.results[s.point.item].failed == s.point.failed
    ensures SameBegun(s, s') && EndedPlus(s, s', s.point.item, s.point.attempt, s.point.stage + 1)
    ensures ReportedPlus(s, s', s.point.item, s.point.attempt, s.point.failed, s.point.stage + 1)
  {}

  lemma {:induction false} EnsuredMoves(s: State, s': State, rest: seq<string>, item: string, n: nat)
    requires !s.point.AwaitStart? && !s.point.AwaitFinish? && item in s.work.states
    requires s'.point == AwaitStart(0, rest, item, n) && s'.work == s.work
    requires s.work.states[item].attempt + 1 == n
    ensures BegunPlus(s, s', item, n, 0) && !Begun(s.work, s.point, item, n, 0)
    ensures EndedGrows(s, s') && ReportsShrink(s, s')
  {}

  lemma {:induction false} EnsuredCalls(c: Request, s: State)
    requires ValidRequest(c) && DistinctChildren(c) && WorkInv(c, s) && s.point.AwaitEnsure?
    requires !s.control.paused && !Unprocessed(s)
    ensures Calls(c, s, StepEnsured(c, s), OpeningCall(c, Item(c, s.point.item), s.point.attempt + 1, 0))
  {
    hide TableOk, Startable, SameLogCalls, EndedGrows, ReportsShrink, BegunPlus, Calls, Begun;
    var s' := StepEnsured(c, s);
    LogUnmoved(s, s');
    EnsuredMoves(s, s', s.point.rest, s.point.item, s.point.attempt + 1);
    OpeningCalls(c, s, s', Item(c, s.point.item), s.point.attempt + 1, 0);
  }

  lemma {:induction false} StartCalls(c: Request, s: State)
    requires ValidRequest(c) && DistinctChildren(c) && WorkInv(c, s) && s.point.AwaitStart? && s.point.stage < 2
    ensures Calls(c, s, StepStartJournal(c, s),
                  OpeningCall(c, Item(c, s.point.item), s.point.attempt, s.point.stage + 1))
  {
    hide TableOk, Startable, SameLogCalls, EndedGrows, ReportsShrink, BegunPlus, Calls, Begun;
    var s' := StepStartJournal(c, s);
    LogUnmoved(s, s');
    OpeningMoves(s, s');
    OpeningCalls(c, s, s', Item(c, s.point.item), s.point.attempt, s.point.stage + 1);
  }

  lemma {:induction false} BeginSilent(c: Request, s: State)
    requires WorkInv(c, s) && s.point.AwaitStart? && s.point.stage == 2
    ensures Silent(c, s, StepStartJournal(c, s))
  {
    var s' := StepStartJournal(c, s);
    hide TableOk, Startable;
    assert SameLogCalls(s, s') && SameBegun(s, s') && EndedGrows(s, s') && ReportsShrink(s, s');
    SilentFrom(c, s, s');
  }

  lemma {:induction false} FinishCancelled(c: Request, s: State, item: string)
    requires WorkInv(c, s) && Enabled(c, s, Finish(item, ChildCancelled))
    ensures Silent(c, s, Step(c, s, Finish(item, ChildCancelled)))
  {
    var s' := Step(c, s, Finish(item, ChildCancelled));
    assert RowOk(s.work, {}, item);
    hide TableOk;
    assert SameLogCalls(s, s') && SameWorkCalls(s, s');
    SilentFrom(c, s, s');
  }

  lemma {:induction false} FinishRunning(c: Request, s: State, item: string, outcome: Outcome)
    requires WorkInv(c, s) && Enabled(c, s, Finish(item, outcome))
    ensures item in s.work.active && item in ItemIds(c.items) && item in s.work.states && item !in s.work.results
    ensures s.work.states[item].status == Running && s.work.states[item].attempt == s.work.active[item].attempt
  {
    assert item in s.work.active;
    assert RowOk(s.work, {}, item);
  }

  lemma {:induction false} FinishCalls(c: Request, s: State, item: string, outcome: Outcome)
    requires ValidRequest(c) && DistinctChildren(c) && WorkInv(c, s) && Enabled(c, s, Finish(item, outcome))
    requires !outcome.ChildCancelled?
    ensures Calls(c, s, Step(c, s, Finish(item, outcome)),
                  ClosingCall(c, Item(c, item), s.work.active[item].attempt, outcome.ChildFailed?, 0))
  {
    hide SameLogCalls, SameBegun, EndedPlus, ReportedPlus, Calls, WorkInv, DistinctChildren;
    FinishRunning(c, s, item, outcome);
    var s' := Step(c, s, Finish(item, outcome));
    var n, failed := s.work.active[item].attempt, outcome.ChildFailed?;
    LogUnmoved(s, s');
    SettleMoves(s, s', item, n, failed);
    ClosingCalls(c, s, s', Item(c, item), n, failed, 0);
  }

  lemma {:induction false} FinishedMoves(c: Request, s: State)
    requires s.point.AwaitFinish? && s.point.stage < 2 && s.point.item in ItemIds(c.items)
    requires PointInWork(c, s.work, s.point) && RowOk(s.work, {}, s.point.item)
    ensures var s' := StepFinishJournal(c, s);
            && SameLogCalls(s, s') && SameBegun(s, s') && Leaving(s'.point) == Leaving(s.point)
            && EndedPlus(s, s', s.point.item, s.point.attempt, s.point.stage + 1)
            && ReportedPlus(s, s', s.point.item, s.point.attempt, s.point.failed, s.point.stage + 1)
            && s'.journal == s.journal
               + [ClosingCall(c, Item(c, s.point.item), s.point.attempt, s.point.failed, s.point.stage + 1)]
  {
    hide SameLogCalls, SameBegun, EndedPlus, ReportedPlus;
    LogUnmoved(s, StepFinishJournal(c, s));
    ClosingMoves(s, StepFinishJournal(c, s));
  }

  lemma {:induction false} FinishedCalls(c: Request, s: State)
    requires ValidRequest(c) && DistinctChildren(c) && WorkInv(c, s) && s.point.AwaitFinish? && s.point.stage < 2
    requires s.point.item in ItemIds(c.items)
    ensures Calls(c, s, StepFinishJournal(c, s),
                  ClosingCall(c, Item(c, s.point.item), s.point.attempt, s.point.failed, s.point.stage + 1))
  {
    assert DistinctIds(c.items);
    hide *;
    assert RowOk(s.work, {}, s.point.item) && PointInWork(c, s.work, s.point) by { FinishRow(c, s); }
    FinishedMoves(c, s);
    ClosingCalls(c, s, StepFinishJournal(c, s), Item(c, s.point.item), s.point.attempt, s.point.failed,
                 s.point.stage + 1);
  }

  lemma {:induction false} FinishRow(c: Request, s: State)
    requires WorkInv(c, s) && s.point.AwaitFinish? && s.point.item in ItemIds(c.items)
    ensures RowOk(s.work, {}, s.point.item) && PointInWork(c, s.work, s.point)
  {}

  lemma {:induction false} WorkUnmoved(s: State, s': State)
    requires s'.work == s.work && !s.point.AwaitStart? && !s.point.AwaitFinish? && !s'.point.AwaitStart?
    requires !s'.point.AwaitFinish?
    ensures SameWorkCalls(s, s')
  {}

  /** A call that neither the log nor the work table explains. */
  lemma {:induction false} PlainCall(c: Request, s: State, s': State, call: JournalCall)
    requires SameLogCalls(s, s') && SameWorkCalls(s, s') && s'.journal == s.journal + [call] && call.runId == c.runId
    requires !Leaving(s.point)
    requires if call.key.WorkflowCompleted? then Leaving(s'.point) else call.key.Recovery? && !Leaving(s'.point)
    ensures Calls(c, s, s', call)
  {
    hide AcceptedCall, AppliedCall, DroppedCall, Begun, Ended, Reported;
  }

  /** Journaling an offered recovery, or the completion of the run. */
  lemma {:induction false} DecideJournal(c: Request, s: State)
    requires s.point.Decide? && c.maxConcurrency >= 0
    ensures var s' := StepDecide(c, s);
            if s'.point.AwaitRecoveryJournal? then Calls(c, s, s', JournalCall(c.runId, Recovery(Recoverable(s))))
            else if s'.point.AwaitCompleted? then Calls(c, s, s', JournalCall(c.runId, WorkflowCompleted))
            else Silent(c, s, s')
  {
    hide SameLogCalls, SameWorkCalls, Calls, Silent, PendingItems, Recoverable, AnyFailed;
    var s' := StepDecide(c, s);
    LogUnmoved(s, s');
    WorkUnmoved(s, s');
    if s'.point.AwaitRecoveryJournal? { PlainCall(c, s, s', JournalCall(c.runId, Recovery(Recoverable(s)))); }
    else if s'.point.AwaitCompleted? { PlainCall(c, s, s', JournalCall(c.runId, WorkflowCompleted)); }
    else { SilentFrom(c, s, s'); }
  }

  lemma {:induction false} ApplyJournal(c: Request, s: State)
    requires LogInv(s) && OrderInv(c, s) && s.point.AwaitAccepted? && !StepApply(c, s, s.point.i).point.Crashed?
    requires var command := s.log.commands[s.point.i].value;
             command.RetryWork? && command.workItemId in s.work.states ==>
               s.work.states[command.workItemId].status != Running
    ensures var s' := StepApply(c, s, s.point.i);
            if s'.point.AwaitPlan? then Silent(c, s, s')
            else Calls(c, s, s', JournalCall(c.runId, AppliedKey(s.log.commands[s.processed])))
  {
    var s' := StepApply(c, s, s.point.i);
    var command := s.log.commands[s.point.i].value;
    if command.Redirect? {
      PlannedSilent(c, s, s');
    } else {
      if command.RetryWork? {
        RequeueWorkCalls(s, s', command.workItemId, s.control.revision);
      } else {
        assert SameWorkCalls(s, s');
      }
      hide Calls, SameWorkCalls, OrderInv;
      AppliedCalls(c, s, s');
    }
  }

  /** The step makes no journal call, or exactly one that was not made before. */
  ghost predicate JournalsOnce(c: Request, s: State, s': State) {
    || Silent(c, s, s')
    || (|s'.journal| == |s.journal| + 1 && Calls(c, s, s', s'.journal[|s.journal|]))
  }

  lemma {:induction false} JournalDrain(c: Request, s: State)
    requires ValidRequest(c) && Enabled(c, s, Continue)
    requires LogInv(s) && OrderInv(c, s) && !StepLoop(c, s).point.Crashed?
    requires s.point.Drain? || InCommand(s.point)
    requires s.point.AwaitAccepted? && s.log.commands[s.point.i].value.RetryWork?
             && s.log.commands[s.point.i].value.workItemId in s.work.states ==>
               s.work.states[s.log.commands[s.point.i].value.workItemId].status != Running
    ensures JournalsOnce(c, s, StepLoop(c, s))
  {
    var s' := StepLoop(c, s);
    assert s.point.Drain? && s.point.i < |s.log.commands| ==> s.log.commands[s.point.i].sequence == s.point.i + 1;
    assert s.point.AwaitApplied? ==> s.log.commands[s.point.i].sequence == s.point.i + 1;
    hide LogShape, OrderInv, Calls, Silent;
    match s.point
    case Drain(i) =>
      if s'.point.AwaitAccepted? { DrainCalls(c, s, i); } else { NeutralStep(c, s, s'); }
    case AwaitAccepted(_) => ApplyJournal(c, s);
    case AwaitApplied(_) => ProcessedSilent(c, s, s');
    case AwaitPlan(_) => PlannedSilent(c, s, s');
    case Invalidating(_, _, _) =>
      assert SameWorkCalls(s, s');
      hide SameWorkCalls;
      AppliedCalls(c, s, s');
    case AwaitInvalidated(_, _, _) => NeutralStep(c, s, s');
  }

  lemma {:induction false} JournalWork(c: Request, s: State)
    requires ValidRequest(c) && DistinctChildren(c) && Enabled(c, s, Continue)
    requires WorkInv(c, s) && !StepLoop(c, s).point.Crashed?
    requires !s.point.Drain? && !InCommand(s.point)
    ensures JournalsOnce(c, s, StepLoop(c, s))
  {
    hide WorkInv, Calls, Silent;
    var s' := StepLoop(c, s);
    match s.point
    case Decide => DecideJournal(c, s);
    case AwaitFinish(stage, _, _, _, _) =>
      if stage < 2 { FinishedCalls(c, s); } else { StagesBounded(c, s); NeutralStep(c, s, s'); }
    case AwaitEnsure(_, _, _) =>
      if s'.point.AwaitStart? { EnsuredCalls(c, s); } else { NeutralStep(c, s, s'); }
    case AwaitStart(stage, _, _, _) =>
      if stage < 2 { StartCalls(c, s); } else { StagesBounded(c, s); BeginSilent(c, s); }
    case _ => NeutralStep(c, s, s');
  }

  lemma {:induction false} StagesBounded(c: Request, s: State)
    requires WorkInv(c, s) && (s.point.AwaitStart? || s.point.AwaitFinish?)
    ensures s.point.stage <= 2
  {}

  lemma {:induction false} NotCrashed(c: Request, s: State)
    requires WorkInv(c, s)
    ensures !s.point.Crashed?
  {}

  lemma {:induction false} JournalStep(c: Request, s: State, e: Event)
    requires ValidRequest(c) && DistinctChildren(c) && Enabled(c, s, e)
    requires LogInv(s) && OrderInv(c, s) && WorkInv(c, s) && WorkInv(c, Step(c, s, e)) && JournalInv(c, s)
    requires s.point.AwaitAccepted? && s.point.i < |s.log.commands| && s.log.commands[s.point.i].value.RetryWork?
             && s.log.commands[s.point.i].value.workItemId in s.work.states ==>
               s.work.states[s.log.commands[s.point.i].value.workItemId].status != Running
    ensures JournalInv(c, Step(c, s, e))
  {
    var s' := Step(c, s, e);
    hide JournalInv, LogShape, OrderInv, WorkInv, Calls, Silent;
    match e {
      case Update(id, command) =>
        SubmitCases(c, s, id, command);
        if s' != s { UpdateSilent(c, s, id, command); SilentKeeps(c, s, s'); }
      case Continue =>
        NotCrashed(c, s');
        if s.point.Drain? || InCommand(s.point) { JournalDrain(c, s); } else { JournalWork(c, s); }
        if Silent(c, s, s') { SilentKeeps(c, s, s'); } else { CallKeeps(c, s, s', s'.journal[|s.journal|]); }
      case ChildrenDone(_) =>
        NeutralStep(c, s, s');
        SilentKeeps(c, s, s');
      case Finish(item, outcome) =>
        if outcome.ChildCancelled? {
          FinishCancelled(c, s, item);
          SilentKeeps(c, s, s');
        } else {
          FinishCalls(c, s, item, outcome);
          CallKeeps(c, s, s', ClosingCall(c, Item(c, item), s.work.active[item].attempt, outcome.ChildFailed?, 0));
        }
      case Invalidate(item) =>
        InvalidateCalls(c, s, item);
        CallKeeps(c, s, s', JournalCall(c.runId, RedirectedWork(s.log.commands[s.point.i].value.revision, item)));
    }
  }
}
