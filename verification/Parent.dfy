/** The parent workflow (workflows/parent.py) as a step machine.

    Everything between two awaits of the run loop is a chain of steps that starts and ends at an
    await point; an operator update (validator and handler together) is one step that can only be
    taken while the loop is suspended at an await point. */
module ParentMachine {
  import opened Wrappers
  import opened Text
  import opened Invalidation

  // ----- Models (workflows/models.py) -----

  datatype WorkItem = WorkItem(id: string, childRunId: string, subagentId: string, cancellable: bool)

  datatype Request = Request(runId: string, revisionId: string, revision: int,
                             items: seq<WorkItem>, maxConcurrency: int)

  datatype WorkStatus = Pending | Running | Completed | Failed

  datatype FailureRecord = FailureRecord(classification: string, retryable: bool)

  datatype WorkState = WorkState(status: WorkStatus, attempt: nat, revision: int, failure: Option<FailureRecord>)

  datatype ChildResult = ChildResult(failed: bool, attempt: nat, products: seq<WorkProduct>,
                                     failure: Option<FailureRecord>)

  datatype Command =
    | Pause(reason: string)
    | Resume(reason: string)
    | Redirect(revisionId: string, revision: int, changedDependencies: seq<string>, reason: string)
    | QueueMessage(messageId: string, body: string)
    | RetryWork(workItemId: string, expectedAttempt: int, reason: string)

  datatype CommandKind = PauseKind | ResumeKind | RedirectKind | QueueMessageKind | RetryWorkKind

  datatype AcceptedCommand = AcceptedCommand(sequence: nat, commandId: string, value: Command)

  datatype CommandAck = CommandAck(commandId: string, kind: CommandKind, sequence: nat)

  datatype QueuedMessage = QueuedMessage(messageId: string, sequence: nat, body: string, applied: bool)

  datatype CommandError =
    | BlankCommandId | ReusedForOtherKind | ReusedWithOtherPayload | BlankReason
    | RevisionNotIncreasing | BlankRevisionId | NoChangedDependency
    | BlankMessageId | BlankBody | MessageIdNotUnique
    | UnknownWorkItem | OnlyFailedWork | AttemptMismatch | NotRetryable

  datatype RequestError = NoWorkItems | NonPositiveConcurrency | DuplicateWorkItems

  function Kind(command: Command): CommandKind {
    match command
    case Pause(_) => PauseKind
    case Resume(_) => ResumeKind
    case Redirect(_, _, _, _) => RedirectKind
    case QueueMessage(_, _) => QueueMessageKind
    case RetryWork(_, _, _) => RetryWorkKind
  }

  /** A running child: the attempt it was started with, and whether it was asked to cancel. */
  datatype ChildHandle = ChildHandle(attempt: nat, cancelRequested: bool)

  /** How a finished child ended. A child echoes the attempt it was started with (child.py). */
  datatype Outcome =
    | ChildCancelled
    | ChildCompleted(products: seq<WorkProduct>)
    | ChildFailed(failure: Option<FailureRecord>)

  // ----- Journal calls -----

  /** The idempotency keys the parent builds, before they are formatted. */
  datatype JournalKey =
    | WorkflowStarted
    | WorkflowCompleted
    | CommandAccepted(commandId: string)
    | CommandApplied(commandId: string)
    | MessageApplied(messageId: string)
    | Redirected(revision: int)
    | RedirectedWork(revision: int, workItemId: string)
    | Recovery(attempts: set<(string, nat)>)
    | WorkStarted(workItemId: string, attempt: nat)
    | WorkFinished(workItemId: string, attempt: nat, failed: bool)
    | SubagentStarted(subagentId: string, attempt: nat)
    | SubagentFinished(subagentId: string, attempt: nat, failed: bool)
    | AttemptStarted(attempt: nat)
    | AttemptFinished(attempt: nat, failed: bool)

  datatype JournalCall = JournalCall(runId: string, key: JournalKey)

  // ----- Program points -----

  /** The values live across each suspension. `Drain`, `Decide`, `Invalidating`, `Finishing` and
      `StartNext` are points inside the code between two awaits. */
  datatype Point =
    | JournalStart                                             // line 99
    | Drain(i: nat)                                            // line 376
    | AwaitAccepted(i: nat)                                    // line 379
    | AwaitApplied(i: nat)                                     // lines 397-421, its last journal call
    | AwaitPlan(i: nat)                                        // line 533
    | Invalidating(i: nat, todo: set<string>, keys: set<string>)      // line 544
    | AwaitInvalidated(i: nat, todo: set<string>, keys: set<string>)  // line 554
    | Decide                                                   // line 116
    | AwaitChildren                                            // line 117
    | Finishing(todo: set<string>)                             // line 121
    | AwaitFinish(stage: nat, todo: set<string>, item: string, attempt: nat, failed: bool)  // lines 734-777
    | AwaitResume                                              // line 125
    | AwaitRecoveryJournal                                     // line 137
    | AwaitCommand                                             // line 138
    | StartNext(rest: seq<string>)                             // line 141
    | AwaitEnsure(rest: seq<string>, item: string, attempt: nat)                  // line 593
    | AwaitStart(stage: nat, rest: seq<string>, item: string, attempt: nat)       // lines 609-654
    | AwaitChild(rest: seq<string>, item: string, attempt: nat)                   // line 661
    | AwaitCompleted(failures: bool)                           // line 157
    | AwaitHandlers(failures: bool)                            // line 175
    | Returned(result: RunResult)                              // line 176
    | Crashed                                                  // a KeyError or StopIteration escaped

  datatype RunResult = RunResult(failures: bool, revisionId: string, revision: int,
                                 children: seq<ChildResult>, messages: seq<QueuedMessage>)

  predicate IsAwait(point: Point) {
    !(point.Drain? || point.Invalidating? || point.Decide? || point.Finishing? || point.StartNext?
      || point.Returned? || point.Crashed?)
  }

  // ----- State -----

  /** What the operator updates write: `_paused`, `_accepted_revision_number`, `_messages`, and the
      revision the drain moves to. */
  datatype Control = Control(paused: bool, acceptedRevision: int, revisionId: string, revision: int,
                             messages: seq<QueuedMessage>)

  /** `_command_sequence`, `_commands` and `_acks`. */
  datatype CommandLog = CommandLog(sequence: nat, commands: seq<AcceptedCommand>, acks: map<string, CommandAck>)

  /** `_states`, `_results`, `_active` and `_cancel_reasons`. */
  datatype WorkTable = WorkTable(states: map<string, WorkState>, results: map<string, ChildResult>,
                                 active: map<string, ChildHandle>, cancelReasons: map<string, string>)

  datatype State = State(
    control: Control,
    log: CommandLog,
    processed: nat,                    // _processed_command_sequence
    work: WorkTable,
    point: Point,
    journal: seq<JournalCall>,         // every journal call made so far
    started: seq<(string, nat)>)       // (work item, attempt) of every child workflow started

  function ItemIds(items: seq<WorkItem>): set<string> {
    set w | w in items :: w.id
  }

  predicate DistinctIds(items: seq<WorkItem>) {
    forall i, j :: 0 <= i < j < |items| ==> items[i].id != items[j].id
  }

  predicate ValidRequest(c: Request) {
    c.items != [] && c.maxConcurrency >= 1 && DistinctIds(c.items)
  }

  function Item(c: Request, id: string): (w: WorkItem)
    requires id in ItemIds(c.items)
    ensures w in c.items && w.id == id
  {
    FindItem(c.items, id)
  }

  function FindItem(items: seq<WorkItem>, id: string): (w: WorkItem)
    requires id in ItemIds(items)
    ensures w in items && w.id == id
  {
    if items[0].id == id then items[0] else FindItem(items[1..], id)
  }

  /** `__init__` followed by the first lines of `run`. */
  function Init(c: Request): Result<State, RequestError> {
    if c.items == [] then Err(NoWorkItems)
    else if c.maxConcurrency < 1 then Err(NonPositiveConcurrency)
    else if !DistinctIds(c.items) then Err(DuplicateWorkItems)
    else Ok(State(
      Control(false, c.revision, c.revisionId, c.revision, []),
      CommandLog(0, [], map[]),
      0,
      WorkTable(map id | id in ItemIds(c.items) :: WorkState(Pending, 0, c.revision, None), map[], map[], map[]),
      JournalStart, [JournalCall(c.runId, WorkflowStarted)], []))
  }

  predicate Unprocessed(s: State) {
    s.processed < s.log.sequence
  }

  function Journal(s: State, runId: string, key: JournalKey, next: Point): State {
    s.(journal := s.journal + [JournalCall(runId, key)], point := next)
  }

  // ----- Operator updates: lines 189-298 -----

  function FindCommand(commands: seq<AcceptedCommand>, id: string): Option<AcceptedCommand> {
    if commands == [] then None
    else if commands[0].commandId == id then Some(commands[0])
    else FindCommand(commands[1..], id)
  }

  function Validate(s: State, id: string, command: Command): Option<CommandError> {
    if IsBlank(id) then Some(BlankCommandId)
    else if id in s.log.acks then
      if s.log.acks[id].kind != Kind(command) then Some(ReusedForOtherKind)
      else
        var accepted := FindCommand(s.log.commands, id);
        if accepted.Some? && accepted.value.value != command then Some(ReusedWithOtherPayload)
        else None
    else ValidateNew(s.control, s.work.states, command)
  }

  function ValidateNew(control: Control, states: map<string, WorkState>, command: Command): Option<CommandError> {
    match command
    case Pause(reason) => if IsBlank(reason) then Some(BlankReason) else None
    case Resume(reason) => if IsBlank(reason) then Some(BlankReason) else None
    case Redirect(revisionId, revision, changed, reason) =>
      if revision <= control.acceptedRevision then Some(RevisionNotIncreasing)
      else if IsBlank(revisionId) then Some(BlankRevisionId)
      else if changed == [] then Some(NoChangedDependency)
      else if IsBlank(reason) then Some(BlankReason)
      else None
    case QueueMessage(messageId, body) =>
      if IsBlank(messageId) then Some(BlankMessageId)
      else if IsBlank(body) then Some(BlankBody)
      else if exists m :: m in control.messages && m.messageId == messageId then Some(MessageIdNotUnique)
      else None
    case RetryWork(item, expected, reason) =>
      if IsBlank(reason) then Some(BlankReason)
      else if item !in states then Some(UnknownWorkItem)
      else if states[item].status != Failed then Some(OnlyFailedWork)
      else if states[item].attempt != expected then Some(AttemptMismatch)
      else if states[item].failure.None? || !states[item].failure.value.retryable then Some(NotRetryable)
      else None
  }

  /** `_accept`. */
  function Accept(log: CommandLog, id: string, command: Command): CommandLog {
    var sequence := log.sequence + 1;
    CommandLog(sequence,
               log.commands + [AcceptedCommand(sequence, id, command)],
               log.acks[id := CommandAck(id, Kind(command), sequence)])
  }

  /** What a handler does to the fields it owns, apart from accepting the command. */
  function ControlAfter(control: Control, command: Command, sequence: nat): Control {
    match command
    case Pause(_) => control.(paused := true)
    case Resume(_) => control.(paused := false)
    case Redirect(_, revision, _, _) => control.(acceptedRevision := revision)
    case QueueMessage(messageId, body) =>
      control.(messages := control.messages + [QueuedMessage(messageId, sequence, body, false)])
    case RetryWork(_, _, _) => control
  }

  /** `_cancel_active(reason, cancellable_only=True)`. */
  function CancelActive(c: Request, work: WorkTable, reason: string): WorkTable
    requires work.active.Keys <= ItemIds(c.items)
  {
    work.(active := map item | item in work.active ::
            if Item(c, item).cancellable then work.active[item].(cancelRequested := true) else work.active[item],
          cancelReasons := work.cancelReasons + map item | item in work.active && Item(c, item).cancellable :: reason)
  }

  function WorkAfter(c: Request, work: WorkTable, command: Command): WorkTable
    requires work.active.Keys <= ItemIds(c.items)
  {
    match command
    case Pause(_) => CancelActive(c, work, "pause")
    case Redirect(_, _, _, _) => CancelActive(c, work, "redirect")
    case _ => work
  }

  /** The five handlers, once the command is new and valid. */
  function Handle(c: Request, s: State, id: string, command: Command): State
    requires s.work.active.Keys <= ItemIds(c.items)
  {
    s.(log := Accept(s.log, id, command),
       control := ControlAfter(s.control, command, s.log.sequence + 1),
       work := WorkAfter(c, s.work, command))
  }

  /** One operator update: the validator, then the handler. */
  function Submit(c: Request, s: State, id: string, command: Command): (Result<CommandAck, CommandError>, State)
    requires s.work.active.Keys <= ItemIds(c.items)
  {
    var error := Validate(s, id, command);
    if error.Some? then (Err(error.value), s)
    else if id in s.log.acks then (Ok(s.log.acks[id]), s)
    else (Ok(CommandAck(id, Kind(command), s.log.sequence + 1)), Handle(c, s, id, command))
  }

  // ----- Draining commands: lines 375-422 -----

  function StepDrain(c: Request, s: State, i: nat): State {
    if i >= |s.log.commands| then s.(point := Decide)
    else if s.log.commands[i].sequence <= s.processed then s.(point := Drain(i + 1))
    else Journal(s, c.runId, CommandAccepted(s.log.commands[i].commandId), AwaitAccepted(i))
  }

  function MarkApplied(messages: seq<QueuedMessage>, messageId: string): seq<QueuedMessage> {
    seq(|messages|, k requires 0 <= k < |messages| =>
      if messages[k].messageId == messageId then messages[k].(applied := true) else messages[k])
  }

  /** Put an item back to pending at its current attempt and forget its result. */
  function Requeue(work: WorkTable, item: string, revision: int): WorkTable
    requires item in work.states
  {
    work.(states := work.states[item := WorkState(Pending, work.states[item].attempt, revision, None)],
          results := work.results - {item})
  }

  /** After the acceptance was journaled: start applying command i. */
  function StepApply(c: Request, s: State, i: nat): State
    requires i < |s.log.commands|
  {
    var command := s.log.commands[i];
    match command.value
    case Pause(_) => Journal(s, c.runId, CommandApplied(command.commandId), AwaitApplied(i))
    case Resume(_) => Journal(s, c.runId, CommandApplied(command.commandId), AwaitApplied(i))
    case QueueMessage(messageId, _) =>
      Journal(s.(control := s.control.(messages := MarkApplied(s.control.messages, messageId))), c.runId,
              MessageApplied(messageId), AwaitApplied(i))
    case Redirect(_, _, _, _) => s.(point := AwaitPlan(i))
    case RetryWork(item, _, _) =>
      if item !in s.work.states then s.(point := Crashed)
      else
        Journal(s.(work := Requeue(s.work, item, s.control.revision)), c.runId, CommandApplied(command.commandId),
                AwaitApplied(i))
  }

  function StepApplied(s: State, i: nat): State
    requires i < |s.log.commands|
  {
    s.(processed := s.log.commands[i].sequence, point := Drain(i + 1))
  }

  // ----- Redirect: lines 529-588 -----

  ghost function HeldProducts(results: map<string, ChildResult>): set<WorkProduct> {
    set item, p | item in results && p in results[item].products :: p
  }

  /** The keys made invalid by a redirect over the products held when the plan is made. */
  ghost function PlanKeys(s: State, i: nat): set<string>
    requires i < |s.log.commands| && s.log.commands[i].value.Redirect?
  {
    Closure(HeldProducts(s.work.results), Elements(s.log.commands[i].value.changedDependencies))
  }

  ghost function InvalidatedIds(results: map<string, ChildResult>, keys: set<string>): set<string> {
    set p | p in HeldProducts(results) && Affected(p, keys) :: p.id
  }

  /** The items whose result holds a product with an invalidated id. */
  ghost function InvalidatedItems(results: map<string, ChildResult>, ids: set<string>): set<string> {
    set item | item in results && exists p :: p in results[item].products && p.id in ids
  }

  ghost function StepPlanned(s: State, i: nat): State
    requires i < |s.log.commands| && s.log.commands[i].value.Redirect?
  {
    var keys := PlanKeys(s, i);
    s.(point := Invalidating(i, InvalidatedItems(s.work.results, InvalidatedIds(s.work.results, keys)), keys))
  }

  function StepInvalidate(c: Request, s: State, i: nat, todo: set<string>, keys: set<string>, item: string): State
    requires i < |s.log.commands| && s.log.commands[i].value.Redirect?
  {
    if item !in s.work.states || item !in s.work.results then s.(point := Crashed)
    else
      var revision := s.log.commands[i].value.revision;
      Journal(s.(work := Requeue(s.work, item, revision)), c.runId, RedirectedWork(revision, item),
              AwaitInvalidated(i, todo - {item}, keys))
  }

  function StepRedirected(c: Request, s: State, i: nat): State
    requires i < |s.log.commands| && s.log.commands[i].value.Redirect?
  {
    var redirect := s.log.commands[i].value;
    Journal(s.(control := s.control.(revisionId := redirect.revisionId, revision := redirect.revision)),
            c.runId, Redirected(redirect.revision), AwaitApplied(i))
  }

  // ----- The decision after a drain: lines 116-144 -----

  function PendingItems(items: seq<WorkItem>, states: map<string, WorkState>): seq<string> {
    if items == [] then []
    else
      var rest := PendingItems(items[1..], states);
      if items[0].id in states && states[items[0].id].status == Pending then [items[0].id] + rest else rest
  }

  predicate IsRecoverable(w: WorkState) {
    w.status == Failed && w.failure.Some? && w.failure.value.retryable
  }

  function Recoverable(s: State): set<(string, nat)> {
    set item | item in s.work.states && IsRecoverable(s.work.states[item]) :: (item, s.work.states[item].attempt)
  }

  predicate AnyFailed(results: map<string, ChildResult>) {
    exists item :: item in results && results[item].failed
  }

  function StepDecide(c: Request, s: State): State
    requires c.maxConcurrency >= 0
  {
    if s.work.active != map[] then s.(point := AwaitChildren)
    else if s.control.paused then s.(point := AwaitResume)
    else
      var pending := PendingItems(c.items, s.work.states);
      if pending == [] then
        if Recoverable(s) != {} then Journal(s, c.runId, Recovery(Recoverable(s)), AwaitRecoveryJournal)
        else Journal(s, c.runId, WorkflowCompleted, AwaitCompleted(AnyFailed(s.work.results)))
      else s.(point := StartNext(if |pending| <= c.maxConcurrency then pending else pending[..c.maxConcurrency]))
  }

  // ----- Finishing a child: lines 683-777 -----

  /** What the outcome of a finished child does to the work table. */
  function Settle(work: WorkTable, item: string, outcome: Outcome, revision: int): WorkTable
    requires item in work.active && item in work.states
  {
    var attempt := work.active[item].attempt;
    match outcome
    case ChildCancelled =>
      WorkTable(work.states[item := WorkState(Pending, work.states[item].attempt, revision, None)],
                work.results, work.active - {item}, work.cancelReasons - {item})
    case ChildCompleted(products) =>
      WorkTable(work.states[item := WorkState(Completed, attempt, revision, None)],
                work.results[item := ChildResult(false, attempt, products, None)],
                work.active - {item}, work.cancelReasons)
    case ChildFailed(failure) =>
      WorkTable(work.states[item := WorkState(Failed, attempt, revision, failure)],
                work.results[item := ChildResult(true, attempt, [], failure)],
                work.active - {item}, work.cancelReasons)
  }

  function StepFinish(c: Request, s: State, todo: set<string>, item: string, outcome: Outcome): State {
    if item !in s.work.active || item !in s.work.states then s.(point := Crashed)
    else
      var attempt := s.work.active[item].attempt;
      var settled := s.(work := Settle(s.work, item, outcome, s.control.revision));
      if outcome.ChildCancelled? then settled.(point := Finishing(todo - {item}))
      else
        Journal(settled, c.runId, WorkFinished(item, attempt, outcome.ChildFailed?),
                AwaitFinish(0, todo - {item}, item, attempt, outcome.ChildFailed?))
  }

  function StepFinishJournal(c: Request, s: State): State
    requires s.point.AwaitFinish? && s.point.item in ItemIds(c.items)
  {
    var AwaitFinish(stage, todo, item, attempt, failed) := s.point;
    if stage == 0 then
      Journal(s, c.runId, SubagentFinished(Item(c, item).subagentId, attempt, failed),
              AwaitFinish(1, todo, item, attempt, failed))
    else if stage == 1 then
      Journal(s, Item(c, item).childRunId, AttemptFinished(attempt, failed),
              AwaitFinish(2, todo, item, attempt, failed))
    else s.(point := Finishing(todo))
  }

  // ----- Starting children: lines 141-144 and 590-681 -----

  function StepStartNext(s: State, rest: seq<string>): State {
    if rest == [] || s.control.paused || Unprocessed(s) then s.(point := Drain(0))
    else if rest[0] !in s.work.states then s.(point := Crashed)
    else s.(point := AwaitEnsure(rest[1..], rest[0], s.work.states[rest[0]].attempt))
  }

  function StepEnsured(c: Request, s: State): State
    requires s.point.AwaitEnsure?
  {
    var AwaitEnsure(rest, item, attempt) := s.point;
    if s.control.paused || Unprocessed(s) then s.(point := StartNext(rest))
    else Journal(s, c.runId, WorkStarted(item, attempt + 1), AwaitStart(0, rest, item, attempt + 1))
  }

  function StepStartJournal(c: Request, s: State): State
    requires s.point.AwaitStart? && s.point.item in ItemIds(c.items)
  {
    var AwaitStart(stage, rest, item, attempt) := s.point;
    if stage == 0 then
      Journal(s, c.runId, SubagentStarted(Item(c, item).subagentId, attempt), AwaitStart(1, rest, item, attempt))
    else if stage == 1 then
      Journal(s, Item(c, item).childRunId, AttemptStarted(attempt), AwaitStart(2, rest, item, attempt))
    else
      s.(work := s.work.(states := s.work.states[item := WorkState(Running, attempt, s.control.revision, None)]),
         started := s.started + [(item, attempt)],
         point := AwaitChild(rest, item, attempt))
  }

  function StepRegister(s: State): State
    requires s.point.AwaitChild?
  {
    var AwaitChild(rest, item, attempt) := s.point;
    var cancel := s.control.paused || Unprocessed(s);
    s.(work := s.work.(active := s.work.active[item := ChildHandle(attempt, cancel)],
                       cancelReasons := if cancel then s.work.cancelReasons[item := "control_command"]
                                        else s.work.cancelReasons),
       point := StartNext(rest))
  }

  // ----- Leaving the loop: lines 153-187 -----

  function Children(items: seq<WorkItem>, results: map<string, ChildResult>): seq<ChildResult> {
    if items == [] then []
    else (if items[0].id in results then [results[items[0].id]] else []) + Children(items[1..], results)
  }

  function StepReturn(c: Request, s: State, failures: bool): State {
    s.(point := Returned(RunResult(failures, s.control.revisionId, s.control.revision,
                                     Children(c.items, s.work.results), s.control.messages)))
  }

  // ----- Events -----

  datatype Event =
    | Update(commandId: string, command: Command)      // an operator update arrives
    | Continue                                         // the loop resumes
    | ChildrenDone(done: set<string>)                  // workflow.wait returns these handles
    | Finish(item: string, outcome: Outcome)           // the next handle of `done`
    | Invalidate(item: string)                         // the next affected result of a redirect

  ghost predicate Enabled(c: Request, s: State, e: Event) {
    && s.work.active.Keys <= ItemIds(c.items)
    && c.maxConcurrency >= 0
    && match e
       case Update(_, _) => IsAwait(s.point)
       case ChildrenDone(done) => s.point.AwaitChildren? && done != {} && done <= s.work.active.Keys
       case Finish(item, _) => s.point.Finishing? && item in s.point.todo
       case Invalidate(item) =>
         && s.point.Invalidating? && item in s.point.todo
         && s.point.i < |s.log.commands| && s.log.commands[s.point.i].value.Redirect?
       case Continue =>
         match s.point
         case AwaitAccepted(i) => i < |s.log.commands|
         case AwaitApplied(i) => i < |s.log.commands|
         case AwaitPlan(i) => i < |s.log.commands| && s.log.commands[i].value.Redirect?
         case Invalidating(i, todo, _) => todo == {} && i < |s.log.commands| && s.log.commands[i].value.Redirect?
         case AwaitChildren => false
         case Finishing(todo) => todo == {}
         case AwaitFinish(_, _, item, _, _) => item in ItemIds(c.items)
         case AwaitResume => !s.control.paused || Unprocessed(s)
         case AwaitCommand => Unprocessed(s)
         case AwaitStart(_, _, item, _) => item in ItemIds(c.items)
         case Returned(_) => false
         case Crashed => false
         case _ => true
  }

  ghost function Step(c: Request, s: State, e: Event): State
    requires Enabled(c, s, e)
  {
    match e
    case Update(id, command) => Submit(c, s, id, command).1
    case ChildrenDone(done) => s.(point := Finishing(done))
    case Finish(item, outcome) => StepFinish(c, s, s.point.todo, item, outcome)
    case Invalidate(item) => StepInvalidate(c, s, s.point.i, s.point.todo, s.point.keys, item)
    case Continue => StepLoop(c, s)
  }

  ghost function StepLoop(c: Request, s: State): State
    requires Enabled(c, s, Continue)
  {
    match s.point
    case JournalStart => s.(point := Drain(0))
    case Drain(i) => StepDrain(c, s, i)
    case AwaitAccepted(i) => StepApply(c, s, i)
    case AwaitApplied(i) => StepApplied(s, i)
    case AwaitPlan(i) => StepPlanned(s, i)
    case Invalidating(i, _, _) => StepRedirected(c, s, i)
    case AwaitInvalidated(i, todo, keys) => s.(point := Invalidating(i, todo, keys))
    case Decide => StepDecide(c, s)
    case Finishing(_) => s.(point := Drain(0))
    case AwaitFinish(_, _, _, _, _) => StepFinishJournal(c, s)
    case AwaitResume => s.(point := Drain(0))
    case AwaitRecoveryJournal => s.(point := AwaitCommand)
    case AwaitCommand => s.(point := Drain(0))
    case StartNext(rest) => StepStartNext(s, rest)
    case AwaitEnsure(_, _, _) => StepEnsured(c, s)
    case AwaitStart(_, _, _, _) => StepStartJournal(c, s)
    case AwaitChild(_, _, _) => StepRegister(s)
    case AwaitCompleted(failures) => s.(point := AwaitHandlers(failures))
    case AwaitHandlers(failures) => StepReturn(c, s, failures)
  }
}
