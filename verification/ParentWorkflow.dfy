/** `ProcurementParentWorkflow` (workflows/parent.py): the object whose fields the operator updates
    and the run loop write. Each method runs from one await point, or internal point, to the next
    and is proved against the step functions of `ParentMachine`. */
module ParentWorkflow {
  import opened Wrappers
  import opened Text
  import opened Invalidation
  import M = ParentMachine
  import opened ParentLog
  import opened ParentWork
  import opened ParentRuns
  import opened ParentControl
  import opened ParentJournal

  class ProcurementParentWorkflow {
    const request: M.Request
    var requestRevisionId: string
    var requestRevisionNumber: int
    var acceptedRevisionNumber: int
    var paused: bool
    var commandSequence: nat
    var processedCommandSequence: nat
    var commands: seq<M.AcceptedCommand>
    var acks: map<string, M.CommandAck>
    var messages: seq<M.QueuedMessage>
    var states: map<string, M.WorkState>
    var results: map<string, M.ChildResult>
    var active: map<string, M.ChildHandle>
    var cancelReasons: map<string, string>
    var point: M.Point
    ghost var journal: seq<M.JournalCall>
    ghost var started: seq<(string, nat)>

    ghost function View(): M.State
      reads this
    {
      M.State(M.Control(paused, acceptedRevisionNumber, requestRevisionId, requestRevisionNumber, messages),
              M.CommandLog(commandSequence, commands, acks),
              processedCommandSequence,
              M.WorkTable(states, results, active, cancelReasons),
              point, journal, started)
    }

    ghost predicate Valid()
      reads this
    {
      Inv(request, View())
    }

    /** `__init__`, once its arguments are checked by `Create`. */
    constructor (request: M.Request)
      requires M.ValidRequest(request)
      ensures this.request == request && Valid()
      ensures M.Init(request) == Ok(View())
    {
      this.request := request;
      requestRevisionId, requestRevisionNumber := request.revisionId, request.revision;
      acceptedRevisionNumber := request.revision;
      paused := false;
      commandSequence, processedCommandSequence := 0, 0;
      commands, acks, messages := [], map[], [];
      states := map id | id in M.ItemIds(request.items) :: M.WorkState(M.Pending, 0, request.revision, None);
      results, active, cancelReasons := map[], map[], map[];
      point := M.JournalStart;
      journal := [M.JournalCall(request.runId, M.WorkflowStarted)];
      started := [];
      new;
      InitInv(request);
    }

    /** The checks of `__init__`. */
    static method Create(request: M.Request) returns (result: Result<ProcurementParentWorkflow, M.RequestError>)
      ensures M.Init(request).Err? ==> result.Err? && result.error == M.Init(request).error
      ensures M.Init(request).Ok? ==>
                result.Ok? && fresh(result.value) && result.value.request == request
                && result.value.Valid() && result.value.View() == M.Init(request).value
    {
      if request.items == [] { return Err(M.NoWorkItems); }
      if request.maxConcurrency < 1 { return Err(M.NonPositiveConcurrency); }
      if !M.DistinctIds(request.items) { return Err(M.DuplicateWorkItems); }
      var workflow := new ProcurementParentWorkflow(request);
      return Ok(workflow);
    }

    // ----- Operator updates -----

    /** `_is_duplicate` and the checks of the validator of each update. */
    method Check(id: string, command: M.Command) returns (error: Option<M.CommandError>)
      ensures error == M.Validate(View(), id, command)
    {
      if IsBlank(id) { return Some(M.BlankCommandId); }
      if id in acks {
        if acks[id].kind != M.Kind(command) { return Some(M.ReusedForOtherKind); }
        var k := 0;
        while k < |commands| && commands[k].commandId != id
          invariant 0 <= k <= |commands|
          invariant M.FindCommand(commands, id) == M.FindCommand(commands[k..], id)
        {
          k := k + 1;
        }
        if k < |commands| && commands[k].value != command { return Some(M.ReusedWithOtherPayload); }
        return None;
      }
      error := M.ValidateNew(M.Control(paused, acceptedRevisionNumber, requestRevisionId, requestRevisionNumber,
                                       messages),
                             states, command);
    }

    /** `_accept`. */
    method Accept(id: string, command: M.Command) returns (ack: M.CommandAck)
      modifies this`commandSequence, this`acks, this`commands
      ensures View() == old(View()).(log := M.Accept(old(View()).log, id, command))
      ensures ack == M.CommandAck(id, M.Kind(command), old(commandSequence) + 1)
    {
      commandSequence := commandSequence + 1;
      ack := M.CommandAck(id, M.Kind(command), commandSequence);
      acks := acks[id := ack];
      commands := commands + [M.AcceptedCommand(ack.sequence, id, command)];
    }

    /** `_cancel_active(reason, cancellable_only=True)`. */
    method CancelActive(reason: string)
      requires active.Keys <= M.ItemIds(request.items)
      modifies this`active, this`cancelReasons
      ensures View() == old(View()).(work := M.CancelActive(request, old(View()).work, reason))
    {
      hide CancelledSoFar;
      var todo := active.Keys;
      ghost var before := View().work;
      CancelNone(request, before, reason);
      while todo != {}
        invariant todo <= active.Keys
        invariant CancelledSoFar(request, before, active, cancelReasons, todo, reason)
      {
        var id :| id in todo;
        CancelNext(request, before, active, cancelReasons, todo, reason, id);
        if M.Item(request, id).cancellable {
          cancelReasons := cancelReasons[id := reason];
          active := active[id := active[id].(cancelRequested := true)];
        }
        todo := todo - {id};
      }
      CancelledAll(request, before, active, cancelReasons, reason);
    }

    /** The `pause` update. */
    method Pause(id: string, reason: string) returns (result: Result<M.CommandAck, M.CommandError>)
      requires Valid() && M.IsAwait(point)
      modifies this
      ensures active.Keys == old(active).Keys && Valid()
      ensures old(active).Keys <= M.ItemIds(request.items)
      ensures (result, View()) == M.Submit(request, old(View()), id, M.Pause(reason))
    {
      hide Inv;
      UpdateKeepsInv(request, View(), id, M.Pause(reason));
      var error := Check(id, M.Pause(reason));
      if error.Some? { return Err(error.value); }
      if id in acks { return Ok(acks[id]); }
      var ack := Accept(id, M.Pause(reason));
      paused := true;
      CancelActive("pause");
      result := Ok(ack);
    }

    /** The `resume` update. */
    method Resume(id: string, reason: string) returns (result: Result<M.CommandAck, M.CommandError>)
      requires Valid() && M.IsAwait(point)
      modifies this
      ensures Valid() && old(active).Keys <= M.ItemIds(request.items)
      ensures (result, View()) == M.Submit(request, old(View()), id, M.Resume(reason))
    {
      hide Inv;
      UpdateKeepsInv(request, View(), id, M.Resume(reason));
      var error := Check(id, M.Resume(reason));
      if error.Some? { return Err(error.value); }
      if id in acks { return Ok(acks[id]); }
      var ack := Accept(id, M.Resume(reason));
      paused := false;
      result := Ok(ack);
    }

    /** The `redirect` update. */
    method Redirect(id: string, revisionId: string, revision: int, changed: seq<string>, reason: string)
        returns (result: Result<M.CommandAck, M.CommandError>)
      requires Valid() && M.IsAwait(point)
      modifies this
      ensures Valid() && old(active).Keys <= M.ItemIds(request.items)
      ensures (result, View()) == M.Submit(request, old(View()), id, M.Redirect(revisionId, revision, changed, reason))
    {
      var command := M.Redirect(revisionId, revision, changed, reason);
      hide Inv;
      UpdateKeepsInv(request, View(), id, command);
      var error := Check(id, command);
      if error.Some? { return Err(error.value); }
      if id in acks { return Ok(acks[id]); }
      var ack := Accept(id, command);
      acceptedRevisionNumber := revision;
      CancelActive("redirect");
      result := Ok(ack);
    }

    /** The `queue_message` update. */
    method QueueMessage(id: string, messageId: string, body: string)
        returns (result: Result<M.CommandAck, M.CommandError>)
      requires Valid() && M.IsAwait(point)
      modifies this
      ensures Valid() && old(active).Keys <= M.ItemIds(request.items)
      ensures (result, View()) == M.Submit(request, old(View()), id, M.QueueMessage(messageId, body))
    {
      hide Inv;
      UpdateKeepsInv(request, View(), id, M.QueueMessage(messageId, body));
      var error := Check(id, M.QueueMessage(messageId, body));
      if error.Some? { return Err(error.value); }
      if id in acks { return Ok(acks[id]); }
      var ack := Accept(id, M.QueueMessage(messageId, body));
      messages := messages + [M.QueuedMessage(messageId, ack.sequence, body, false)];
      result := Ok(ack);
    }

    /** The `retry_work` update. */
    method RetryWork(id: string, workItemId: string, expectedAttempt: int, reason: string)
        returns (result: Result<M.CommandAck, M.CommandError>)
      requires Valid() && M.IsAwait(point)
      modifies this
      ensures Valid() && old(active).Keys <= M.ItemIds(request.items)
      ensures (result, View()) == M.Submit(request, old(View()), id, M.RetryWork(workItemId, expectedAttempt, reason))
    {
      var command := M.RetryWork(workItemId, expectedAttempt, reason);
      hide Inv;
      UpdateKeepsInv(request, View(), id, command);
      var error := Check(id, command);
      if error.Some? { return Err(error.value); }
      if id in acks { return Ok(acks[id]); }
      var ack := Accept(id, command);
      result := Ok(ack);
    }
  
    // ----- The run loop -----

    /** `_journal`: the call is recorded when it is made; the loop then waits at `next`. */
    method Journal(ghost runId: string, ghost key: M.JournalKey, next: M.Point)
      modifies this`journal, this`point
      ensures View() == M.Journal(old(View()), runId, key, next)
    {
      journal := journal + [M.JournalCall(runId, key)];
      point := next;
    }

    /** The head of the loop in `_drain_commands`. */
    method DrainNext(i: nat)
      modifies this`journal, this`point
      ensures View() == M.StepDrain(request, old(View()), i)
    {
      if i >= |commands| {
        point := M.Decide;
      } else if commands[i].sequence <= processedCommandSequence {
        point := M.Drain(i + 1);
      } else {
        Journal(request.runId, M.CommandAccepted(commands[i].commandId), M.AwaitAccepted(i));
      }
    }

    /** The new message list of `_apply_message`. */
    method MarkMessages(messageId: string)
      modifies this`messages
      ensures View()
           == old(View()).(control := old(View()).control.(messages := M.MarkApplied(old(messages), messageId)))
    {
      var marked: seq<M.QueuedMessage> := [];
      var k := 0;
      while k < |messages|
        invariant 0 <= k <= |messages|
        invariant marked == M.MarkApplied(messages, messageId)[..k]
      {
        marked := marked + [if messages[k].messageId == messageId then messages[k].(applied := true) else messages[k]];
        k := k + 1;
      }
      messages := marked;
    }

    /** The branches of `_drain_commands` up to the next await. */
    method ApplyAccepted(i: nat)
      requires i < |commands|
      requires commands[i].value.RetryWork? ==> commands[i].value.workItemId in states
      modifies this
      ensures View() == M.StepApply(request, old(View()), i)
    {
      var command := commands[i];
      match command.value
      case Pause(_) => Journal(request.runId, M.CommandApplied(command.commandId), M.AwaitApplied(i));
      case Resume(_) => Journal(request.runId, M.CommandApplied(command.commandId), M.AwaitApplied(i));
      case QueueMessage(messageId, _) =>
        MarkMessages(messageId);
        Journal(request.runId, M.MessageApplied(messageId), M.AwaitApplied(i));
      case Redirect(_, _, _, _) => point := M.AwaitPlan(i);
      case RetryWork(item, _, _) =>
        states := states[item := M.WorkState(M.Pending, states[item].attempt, requestRevisionNumber, None)];
        results := results - {item};
        Journal(request.runId, M.CommandApplied(command.commandId), M.AwaitApplied(i));
    }

    /** Lines 530-543: collect the products, let the activity plan, and find the affected results. */
    method PlanRedirect(i: nat)
      requires i < |commands| && commands[i].value.Redirect?
      modifies this`point
      ensures View() == M.StepPlanned(old(View()), i)
    {
      var products: seq<WorkProduct> := [];
      var todo := results.Keys;
      while todo != {}
        invariant todo <= results.Keys
        invariant forall p ::
                   p in products <==> exists item :: item in results && item !in todo && p in results[item].products
      {
        var item :| item in todo;
        products := products + results[item].products;
        todo := todo - {item};
      }
      assert Elements(products) == M.HeldProducts(results);
      var changed := Elements(commands[i].value.changedDependencies);
      var plan, taken, passes := PlanInvalidation(products, changed);
      PlanLists(products, changed, plan.invalidated, taken);
      var keys := changed + set entry | entry in plan.invalidated :: entry.outputKey;
      var invalidatedIds := set entry | entry in plan.invalidated :: entry.productId;
      point := M.Invalidating(i, AffectedItems(invalidatedIds), keys);
    }

    /** Line 544: drop the next affected result. */
    method InvalidateResult(i: nat, todo: set<string>, keys: set<string>, item: string)
      requires i < |commands| && commands[i].value.Redirect? && item in states && item in results
      modifies this
      ensures View() == M.StepInvalidate(request, old(View()), i, todo, keys, item)
    {
      var revision := commands[i].value.revision;
      states := states[item := M.WorkState(M.Pending, states[item].attempt, revision, None)];
      results := results - {item};
      Journal(request.runId, M.RedirectedWork(revision, item), M.AwaitInvalidated(i, todo - {item}, keys));
    }

    /** Lines 129-133: the pending items in input order. */
    method PendingItems() returns (pending: seq<string>)
      ensures pending == M.PendingItems(request.items, states)
    {
      pending := [];
      var k := |request.items|;
      while k > 0
        invariant 0 <= k <= |request.items|
        invariant pending == M.PendingItems(request.items[k..], states)
      {
        k := k - 1;
        assert request.items[k..][1..] == request.items[k + 1..];
        var id := request.items[k].id;
        if id in states && states[id].status == M.Pending { pending := [id] + pending; }
      }
    }

    /** Line 116: what to do once the log is drained. */
    method DecideNext()
      requires request.maxConcurrency >= 1
      modifies this`journal, this`point
      ensures View() == M.StepDecide(request, old(View()))
    {
      if active != map[] {
        point := M.AwaitChildren;
      } else if paused {
        point := M.AwaitResume;
      } else {
        var pending := PendingItems();
        var recoverable := set item | item in states && M.IsRecoverable(states[item]) :: (item, states[item].attempt);
        if pending != [] {
          point := M.StartNext(
            if |pending| <= request.maxConcurrency then pending else pending[..request.maxConcurrency]);
        } else if recoverable != {} {
          Journal(request.runId, M.Recovery(recoverable), M.AwaitRecoveryJournal);
        } else {
          var failures := exists item :: item in results && results[item].failed;
          Journal(request.runId, M.WorkflowCompleted, M.AwaitCompleted(failures));
        }
      }
    }

    /** `_finish_child` up to its first await. */
    method FinishChild(todo: set<string>, item: string, outcome: M.Outcome)
      requires item in active && item in states
      modifies this
      ensures View() == M.StepFinish(request, old(View()), todo, item, outcome)
    {
      var attempt := active[item].attempt;
      active := active - {item};
      match outcome
      case ChildCancelled =>
        states := states[item := M.WorkState(M.Pending, states[item].attempt, requestRevisionNumber, None)];
        cancelReasons := cancelReasons - {item};
        point := M.Finishing(todo - {item});
      case ChildCompleted(products) =>
        results := results[item := M.ChildResult(false, attempt, products, None)];
        states := states[item := M.WorkState(M.Completed, attempt, requestRevisionNumber, None)];
        Journal(request.runId, M.WorkFinished(item, attempt, false),
                M.AwaitFinish(0, todo - {item}, item, attempt, false));
      case ChildFailed(failure) =>
        results := results[item := M.ChildResult(true, attempt, [], failure)];
        states := states[item := M.WorkState(M.Failed, attempt, requestRevisionNumber, failure)];
        Journal(request.runId, M.WorkFinished(item, attempt, true),
                M.AwaitFinish(0, todo - {item}, item, attempt, true));
    }

    /** Lines 752-777: the other two closing journal calls. */
    method ReportChild()
      requires point.AwaitFinish? && point.item in M.ItemIds(request.items)
      modifies this`journal, this`point
      ensures View() == M.StepFinishJournal(request, old(View()))
    {
      var w := M.Item(request, point.item);
      if point.stage == 0 {
        Journal(request.runId, M.SubagentFinished(w.subagentId, point.attempt, point.failed),
                M.AwaitFinish(1, point.todo, point.item, point.attempt, point.failed));
      } else if point.stage == 1 {
        Journal(w.childRunId, M.AttemptFinished(point.attempt, point.failed),
                M.AwaitFinish(2, point.todo, point.item, point.attempt, point.failed));
      } else {
        point := M.Finishing(point.todo);
      }
    }

    /** `_start_child` after the child run exists: line 605. */
    method ChildRunEnsured()
      requires point.AwaitEnsure?
      modifies this`journal, this`point
      ensures View() == M.StepEnsured(request, old(View()))
    {
      if paused || processedCommandSequence < commandSequence {
        point := M.StartNext(point.rest);
      } else {
        Journal(request.runId, M.WorkStarted(point.item, point.attempt + 1),
                M.AwaitStart(0, point.rest, point.item, point.attempt + 1));
      }
    }

    /** Lines 627-677: the other opening journal calls, then the child workflow. */
    method BeginChild()
      requires point.AwaitStart? && point.item in M.ItemIds(request.items)
      modifies this
      ensures View() == M.StepStartJournal(request, old(View()))
    {
      var w := M.Item(request, point.item);
      var AwaitStart(stage, rest, item, attempt) := point;
      if stage == 0 {
        Journal(request.runId, M.SubagentStarted(w.subagentId, attempt), M.AwaitStart(1, rest, item, attempt));
      } else if stage == 1 {
        Journal(w.childRunId, M.AttemptStarted(attempt), M.AwaitStart(2, rest, item, attempt));
      } else {
        states := states[item := M.WorkState(M.Running, attempt, requestRevisionNumber, None)];
        started := started + [(item, attempt)];
        point := M.AwaitChild(rest, item, attempt);
      }
    }

    /** Lines 678-681. */
    method RegisterChild()
      requires point.AwaitChild?
      modifies this
      ensures View() == M.StepRegister(old(View()))
    {
      var AwaitChild(rest, item, attempt) := point;
      active := active[item := M.ChildHandle(attempt, false)];
      if paused || processedCommandSequence < commandSequence {
        cancelReasons := cancelReasons[item := "control_command"];
        active := active[item := active[item].(cancelRequested := true)];
      }
      point := M.StartNext(rest);
    }

    /** Lines 176-187. */
    method Leave(failures: bool)
      modifies this`point
      ensures View() == M.StepReturn(request, old(View()), failures)
    {
      var children: seq<M.ChildResult> := [];
      var k := |request.items|;
      while k > 0
        invariant 0 <= k <= |request.items|
        invariant children == M.Children(request.items[k..], results)
      {
        k := k - 1;
        assert request.items[k..][1..] == request.items[k + 1..];
        if request.items[k].id in results { children := [results[request.items[k].id]] + children; }
      }
      assert request.items[0..] == request.items;
      point := M.Returned(M.RunResult(failures, requestRevisionId, requestRevisionNumber, children, messages));
    }

    /** The loop resumes inside `_drain_commands`. */
    method ContinueDrain()
      requires M.Enabled(request, View(), M.Continue) && (point.Drain? || InCommand(point))
      requires point.AwaitAccepted? && commands[point.i].value.RetryWork? ==>
                commands[point.i].value.workItemId in states
      modifies this
      ensures old(M.Enabled(request, View(), M.Continue))
      ensures View() == M.StepLoop(request, old(View()))
    {
      hide M.StepDrain, M.StepApply, M.StepPlanned, M.ItemIds;
      match point
      case Drain(i) => DrainNext(i);
      case AwaitAccepted(i) => ApplyAccepted(i);
      case AwaitApplied(i) =>
        processedCommandSequence := commands[i].sequence;
        point := M.Drain(i + 1);
      case AwaitPlan(i) => PlanRedirect(i);
      case Invalidating(i, _, _) =>
        var redirect := commands[i].value;
        requestRevisionId, requestRevisionNumber := redirect.revisionId, redirect.revision;
        Journal(request.runId, M.Redirected(redirect.revision), M.AwaitApplied(i));
      case AwaitInvalidated(i, todo, keys) => point := M.Invalidating(i, todo, keys);
    }

    /** The loop resumes anywhere else. */
    method ContinueWork()
      requires M.Enabled(request, View(), M.Continue) && !point.Drain? && !InCommand(point)
      requires request.maxConcurrency >= 1
      requires point.StartNext? && point.rest != [] ==> point.rest[0] in states
      modifies this
      ensures old(M.Enabled(request, View(), M.Continue))
      ensures View() == M.StepLoop(request, old(View()))
    {
      hide M.StepDecide, M.StepFinishJournal, M.StepEnsured, M.StepStartJournal, M.StepRegister, M.StepReturn,
           M.ItemIds;
      match point
      case JournalStart => point := M.Drain(0);
      case Decide => DecideNext();
      case Finishing(_) => point := M.Drain(0);
      case AwaitFinish(_, _, _, _, _) => ReportChild();
      case AwaitResume => point := M.Drain(0);
      case AwaitRecoveryJournal => point := M.AwaitCommand;
      case AwaitCommand => point := M.Drain(0);
      case StartNext(rest) =>
        if rest == [] || paused || processedCommandSequence < commandSequence {
          point := M.Drain(0);
        } else {
          point := M.AwaitEnsure(rest[1..], rest[0], states[rest[0]].attempt);
        }
      case AwaitEnsure(_, _, _) => ChildRunEnsured();
      case AwaitStart(_, _, _, _) => BeginChild();
      case AwaitChild(_, _, _) => RegisterChild();
      case AwaitCompleted(failures) => point := M.AwaitHandlers(failures);
      case AwaitHandlers(failures) => Leave(failures);
    }

    /** The loop resumes and runs to its next suspension or internal point. */
    method Continue()
      requires Valid() && M.Enabled(request, View(), M.Continue)
      modifies this
      ensures Valid() && old(M.Enabled(request, View(), M.Continue))
      ensures View() == M.StepLoop(request, old(View()))
    {
      ghost var before := View();
      StepInv(request, before, M.Continue);
      LoopFacts(request, before);
      assert M.Step(request, before, M.Continue) == M.StepLoop(request, before);
      assert point.AwaitAccepted? ==> point.i < |commands|;
      hide Inv, M.Step, M.StepLoop, M.Enabled;
      if point.Drain? || InCommand(point) { ContinueDrain(); } else { ContinueWork(); }
    }

    /** `workflow.wait` returns: some active children are done. */
    method ChildrenDone(done: set<string>)
      requires Valid() && M.Enabled(request, View(), M.ChildrenDone(done))
      modifies this`point
      ensures Valid() && View() == old(View()).(point := M.Finishing(done))
    {
      StepInv(request, View(), M.ChildrenDone(done));
      point := M.Finishing(done);
    }

    /** The next handle of the loop at line 121. */
    method Finish(item: string, outcome: M.Outcome)
      requires Valid() && M.Enabled(request, View(), M.Finish(item, outcome))
      modifies this
      ensures Valid() && old(point).Finishing?
      ensures View() == M.StepFinish(request, old(View()), old(point).todo, item, outcome)
    {
      ghost var before := View();
      StepInv(request, before, M.Finish(item, outcome));
      FinishFacts(request, before, item);
      hide Inv;
      FinishChild(point.todo, item, outcome);
    }

    /** The next affected result of the loop at line 544. */
    method Invalidate(item: string)
      requires Valid() && M.Enabled(request, View(), M.Invalidate(item))
      modifies this
      ensures Valid() && old(M.Enabled(request, View(), M.Invalidate(item)))
      ensures View() == M.StepInvalidate(request, old(View()), old(point).i, old(point).todo, old(point).keys, item)
    {
      ghost var before := View();
      StepInv(request, before, M.Invalidate(item));
      InvalidateFacts(request, before, item);
      hide Inv;
      InvalidateResult(point.i, point.todo, point.keys, item);
    }

    /** The results one of whose products was invalidated. */
    function AffectedItems(invalidatedIds: set<string>): (items: set<string>)
      reads this
      ensures items == M.InvalidatedItems(results, invalidatedIds)
    {
      set item | item in results && exists p :: p in results[item].products && p.id in invalidatedIds
    }
  }

  // ----- The loop of `_cancel_active` -----

  ghost predicate Cancellable(c: M.Request, id: string) {
    id in M.ItemIds(c.items) && M.Item(c, id).cancellable
  }

  /** Every active child outside `todo` that can be cancelled was asked to. */
  ghost predicate CancelledSoFar(c: M.Request, before: M.WorkTable, active: map<string, M.ChildHandle>,
                                 reasons: map<string, string>, todo: set<string>, reason: string)
  {
    && before.active.Keys == active.Keys <= M.ItemIds(c.items)
    && (forall id :: id in active ==>
          active[id] == if id !in todo && Cancellable(c, id) then before.active[id].(cancelRequested := true)
                        else before.active[id])
    && (forall id :: id in reasons
                    <==> id in before.cancelReasons || (id in active && id !in todo && Cancellable(c, id)))
    && (forall id :: id in reasons ==>
          reasons[id] == if id in active && id !in todo && Cancellable(c, id) then reason else before.cancelReasons[id])
  }

  lemma {:induction false} CancelNone(c: M.Request, before: M.WorkTable, reason: string)
    requires before.active.Keys <= M.ItemIds(c.items)
    ensures CancelledSoFar(c, before, before.active, before.cancelReasons, before.active.Keys, reason)
  {}

  lemma {:induction false} CancelNext(c: M.Request, before: M.WorkTable, active: map<string, M.ChildHandle>,
                                      reasons: map<string, string>, todo: set<string>, reason: string, id: string)
    requires CancelledSoFar(c, before, active, reasons, todo, reason) && id in todo && id in active
    ensures id in M.ItemIds(c.items)
    ensures if M.Item(c, id).cancellable then
              CancelledSoFar(c, before, active[id := active[id].(cancelRequested := true)], reasons[id := reason],
                             todo - {id}, reason)
            else CancelledSoFar(c, before, active, reasons, todo - {id}, reason)
  {
    hide M.FindItem, M.ItemIds, M.Item;
    assert Cancellable(c, id) == M.Item(c, id).cancellable;
    hide Cancellable;
  }

  lemma {:induction false} CancelledAll(c: M.Request, before: M.WorkTable, active: map<string, M.ChildHandle>,
                                        reasons: map<string, string>, reason: string)
    requires CancelledSoFar(c, before, active, reasons, {}, reason)
    ensures before.(active := active, cancelReasons := reasons) == M.CancelActive(c, before, reason)
  {
    hide M.FindItem, M.ItemIds, M.Item;
    var after := M.CancelActive(c, before, reason);
    assert forall id :: id in active ==> Cancellable(c, id) == M.Item(c, id).cancellable;
    hide Cancellable;
    assert active == after.active;
    assert reasons == after.cancelReasons;
  }

  // ----- What the loop relies on -----

  lemma {:induction false} LoopFacts(c: M.Request, s: M.State)
    requires Inv(c, s)
    ensures c.maxConcurrency >= 1
    ensures s.point.AwaitAccepted? && s.point.i < |s.log.commands| && s.log.commands[s.point.i].value.RetryWork? ==>
              s.log.commands[s.point.i].value.workItemId in s.work.states
    ensures s.point.StartNext? && s.point.rest != [] ==> s.point.rest[0] in s.work.states
  {
    if s.point.AwaitAccepted? && s.point.i < |s.log.commands| && s.log.commands[s.point.i].value.RetryWork? {
      RetryAtHead(s);
    }
  }

  lemma {:induction false} FinishFacts(c: M.Request, s: M.State, item: string)
    requires Inv(c, s) && s.point.Finishing? && item in s.point.todo
    ensures item in s.work.active && item in s.work.states
  {
    InvParts(c, s);
    hide Inv, LogInv;
  }

  lemma {:induction false} InvalidateFacts(c: M.Request, s: M.State, item: string)
    requires Inv(c, s) && s.point.Invalidating? && item in s.point.todo
    ensures item in s.work.results && item in s.work.states
  {
    InvParts(c, s);
    hide Inv, LogInv;
  }

  lemma {:induction false} UpdateKeepsInv(c: M.Request, s: M.State, id: string, command: M.Command)
    requires Inv(c, s) && M.IsAwait(s.point)
    ensures s.work.active.Keys <= M.ItemIds(c.items)
    ensures Inv(c, M.Submit(c, s, id, command).1)
  {
    hide Inv, M.IsAwait;
    InvParts(c, s);
    assert s.work.active.Keys <= M.ItemIds(c.items) && c.maxConcurrency >= 0 by { ActiveKnown(c, s); }
    hide WorkInv, LogInv;
    assert M.Enabled(c, s, M.Update(id, command));
    StepInv(c, s, M.Update(id, command));
  }

  lemma {:induction false} ActiveKnown(c: M.Request, s: M.State)
    requires WorkInv(c, s)
    ensures s.work.active.Keys <= M.ItemIds(c.items) && c.maxConcurrency >= 0
  {}
}
