/** The parent workflow's command log, and the state that is a fold of it. */
module ParentLog {
  import opened Wrappers
  import opened ParentMachine

  // ----- The log -----

  /** Sequence numbers are 1..n, ids are distinct, and the acks match the log one to one. */
  ghost predicate LogShape(log: CommandLog) {
    && log.sequence == |log.commands|
    && (forall k :: 0 <= k < |log.commands| ==>
          && log.commands[k].sequence == k + 1
          && log.commands[k].commandId in log.acks
          && log.acks[log.commands[k].commandId]
             == CommandAck(log.commands[k].commandId, Kind(log.commands[k].value), k + 1))
    && (forall j, k :: 0 <= j < k < |log.commands| ==> log.commands[j].commandId != log.commands[k].commandId)
    && (forall id :: id in log.acks ==> exists k :: 0 <= k < |log.commands| && log.commands[k].commandId == id)
  }

  /** Where the drain loop stands in the log. */
  predicate PointInLog(log: CommandLog, processed: nat, point: Point) {
    && processed <= |log.commands|
    && match point
       case Drain(i) => i <= processed
       case AwaitAccepted(i) => i == processed < |log.commands|
       case AwaitApplied(i) => i == processed < |log.commands|
       case AwaitPlan(i) => i == processed < |log.commands| && log.commands[i].value.Redirect?
       case Invalidating(i, _, _) => i == processed < |log.commands| && log.commands[i].value.Redirect?
       case AwaitInvalidated(i, _, _) => i == processed < |log.commands| && log.commands[i].value.Redirect?
       case Decide => processed == |log.commands|
       case _ => true
  }

  ghost predicate LogInv(s: State) {
    LogShape(s.log) && PointInLog(s.log, s.processed, s.point)
  }

  lemma {:induction false} AcceptShape(log: CommandLog, id: string, command: Command)
    requires LogShape(log) && id !in log.acks
    ensures LogShape(Accept(log, id, command))
  {
    var log' := Accept(log, id, command);
    assert log'.commands[|log.commands|].commandId == id;
    forall x | x in log'.acks
      ensures exists k :: 0 <= k < |log'.commands| && log'.commands[k].commandId == x
    {
      if x != id {
        var k :| 0 <= k < |log.commands| && log.commands[k].commandId == x;
        assert log'.commands[k].commandId == x;
      }
    }
  }

  /** An update either changes nothing or is a new command that passes every check. */
  lemma {:induction false} SubmitCases(c: Request, s: State, id: string, command: Command)
    requires s.work.active.Keys <= ItemIds(c.items)
    ensures var s' := Submit(c, s, id, command).1;
            || s' == s
            || (id !in s.log.acks && ValidateNew(s.control, s.work.states, command).None?
               && s' == Handle(c, s, id, command))
  {}

  lemma {:induction false} LogLoopStep(c: Request, s: State)
    requires Enabled(c, s, Continue) && s.log.sequence == |s.log.commands|
    requires s.point.Drain? && s.point.i < |s.log.commands| ==> s.log.commands[s.point.i].sequence == s.point.i + 1
    requires s.point.AwaitApplied? ==> s.log.commands[s.point.i].sequence == s.point.i + 1
    requires PointInLog(s.log, s.processed, s.point)
    ensures StepLoop(c, s).log == s.log
    ensures PointInLog(s.log, StepLoop(c, s).processed, StepLoop(c, s).point)
  {}

  lemma {:induction false} LogStep(c: Request, s: State, e: Event)
    requires Enabled(c, s, e) && LogInv(s)
    ensures LogInv(Step(c, s, e))
  {
    match e
    case Update(id, command) =>
      SubmitCases(c, s, id, command);
      if Submit(c, s, id, command).1 != s { AcceptShape(s.log, id, command); }
    case Continue =>
      LogLoopStep(c, s);
    case _ =>
      assert Step(c, s, e).log == s.log && Step(c, s, e).processed == s.processed;
  }

  // ----- Folds over the log -----

  /** Commands whose effects are visible in the revision and in the message statuses: the processed
      prefix and, once its last journal call is made, the command being applied. */
  function Effective(processed: nat, point: Point): nat {
    if point.AwaitApplied? then processed + 1 else processed
  }

  function PausedBy(commands: seq<AcceptedCommand>): bool {
    if commands == [] then false
    else
      match commands[|commands| - 1].value
      case Pause(_) => true
      case Resume(_) => false
      case _ => PausedBy(commands[..|commands| - 1])
  }

  /** The last redirect among the commands, or the request's own revision. */
  function RevisionBy(c: Request, commands: seq<AcceptedCommand>): (string, int) {
    if commands == [] then (c.revisionId, c.revision)
    else
      match commands[|commands| - 1].value
      case Redirect(revisionId, revision, _, _) => (revisionId, revision)
      case _ => RevisionBy(c, commands[..|commands| - 1])
  }

  /** The queued messages, of which those with a sequence up to `applied` are applied. */
  function MessagesBy(commands: seq<AcceptedCommand>, applied: nat): seq<QueuedMessage> {
    if commands == [] then []
    else
      var last := commands[|commands| - 1];
      MessagesBy(commands[..|commands| - 1], applied) + MessageOf(last, applied)
  }

  function MessageOf(command: AcceptedCommand, applied: nat): seq<QueuedMessage> {
    match command.value
    case QueueMessage(messageId, body) =>
      [QueuedMessage(messageId, command.sequence, body, command.sequence <= applied)]
    case _ => []
  }

  /** What applying a command does to the message list. */
  function MessagesAfter(messages: seq<QueuedMessage>, command: Command): seq<QueuedMessage> {
    match command
    case QueueMessage(messageId, _) => MarkApplied(messages, messageId)
    case _ => messages
  }

  /** What applying a command does to the revision. */
  function RevisionAfter(revision: (string, int), command: Command): (string, int) {
    match command
    case Redirect(revisionId, number, _, _) => (revisionId, number)
    case _ => revision
  }

  /** `_paused`, `_accepted_revision_number` and the message list fold every accepted command; the
      revision and the message statuses fold the first `effective` of them. */
  ghost predicate FoldInv(c: Request, control: Control, commands: seq<AcceptedCommand>, effective: nat) {
    && effective <= |commands|
    && control.paused == PausedBy(commands)
    && control.acceptedRevision == RevisionBy(c, commands).1
    && (control.revisionId, control.revision) == RevisionBy(c, commands[..effective])
    && control.messages == MessagesBy(commands, effective)
  }

  ghost predicate DistinctMessages(commands: seq<AcceptedCommand>) {
    forall j, k :: 0 <= j < k < |commands| && commands[j].value.QueueMessage? && commands[k].value.QueueMessage? ==>
      commands[j].value.messageId != commands[k].value.messageId
  }

  ghost predicate IncreasingRedirects(c: Request, commands: seq<AcceptedCommand>, bound: int) {
    && c.revision <= bound
    && (forall k :: 0 <= k < |commands| && commands[k].value.Redirect? ==>
          c.revision < commands[k].value.revision <= bound)
    && (forall j, k :: 0 <= j < k < |commands| && commands[j].value.Redirect? && commands[k].value.Redirect? ==>
          commands[j].value.revision < commands[k].value.revision)
  }

  ghost predicate OrderInv(c: Request, s: State) {
    DistinctMessages(s.log.commands) && IncreasingRedirects(c, s.log.commands, s.control.acceptedRevision)
  }

  /** Every queued message of the log is in the message list, so the validator sees it. */
  lemma {:induction false} MessagesMember(commands: seq<AcceptedCommand>, applied: nat, k: nat)
    requires k < |commands| && commands[k].value.QueueMessage?
    ensures exists m :: m in MessagesBy(commands, applied) && m.messageId == commands[k].value.messageId
  {
    var last := commands[|commands| - 1];
    var before := MessagesBy(commands[..|commands| - 1], applied);
    if k == |commands| - 1 {
      var m := QueuedMessage(last.value.messageId, last.sequence, last.value.body, last.sequence <= applied);
      assert MessagesBy(commands, applied) == before + [m];
      assert m in MessagesBy(commands, applied);
    } else {
      MessagesMember(commands[..|commands| - 1], applied, k);
      var m :| m in before && m.messageId == commands[k].value.messageId;
      assert m in MessagesBy(commands, applied);
    }
  }

  lemma MarkAppend(a: seq<QueuedMessage>, b: seq<QueuedMessage>, command: Command)
    ensures MessagesAfter(a + b, command) == MessagesAfter(a, command) + MessagesAfter(b, command)
  {}

  lemma MarkOne(last: AcceptedCommand, n: nat, command: Command)
    requires last.value.QueueMessage? && command.QueueMessage? ==>
               (last.value.messageId == command.messageId <==> last.sequence == n + 1)
    requires last.sequence == n + 1 ==> last.value == command
    ensures MessageOf(last, n + 1) == MessagesAfter(MessageOf(last, n), command)
  {}

  /** Applying command `n` moves the message log forward by one. */
  lemma {:induction false} MessagesAdvance(commands: seq<AcceptedCommand>, n: nat, m: nat)
    requires n < |commands| && m <= |commands|
    requires forall k :: 0 <= k < |commands| ==> commands[k].sequence == k + 1
    requires DistinctMessages(commands)
    ensures MessagesBy(commands[..m], n + 1) == MessagesAfter(MessagesBy(commands[..m], n), commands[n].value)
  {
    if m != 0 {
      assert commands[..m][..m - 1] == commands[..m - 1];
      assert commands[..m][m - 1] == commands[m - 1];
      MessagesAdvance(commands, n, m - 1);
      MarkOne(commands[m - 1], n, commands[n].value);
      MarkAppend(MessagesBy(commands[..m - 1], n), MessageOf(commands[m - 1], n), commands[n].value);
    }
  }

  /** The loop applies command `n`: the folded state moves to `n + 1`. */
  lemma {:induction false} FoldAdvance(c: Request, control: Control, control': Control,
                                       commands: seq<AcceptedCommand>, n: nat)
    requires n < |commands| && FoldInv(c, control, commands, n)
    requires forall k :: 0 <= k < |commands| ==> commands[k].sequence == k + 1
    requires DistinctMessages(commands)
    requires control'.paused == control.paused && control'.acceptedRevision == control.acceptedRevision
    requires control'.messages == MessagesAfter(control.messages, commands[n].value)
    requires (control'.revisionId, control'.revision)
          == RevisionAfter((control.revisionId, control.revision), commands[n].value)
    ensures FoldInv(c, control', commands, n + 1)
  {
    MessagesAdvance(commands, n, |commands|);
    assert commands[..|commands|] == commands;
    assert commands[..n + 1][..n] == commands[..n];
  }

  /** An operator update extends the log: the folded state follows. */
  lemma {:induction false} FoldAccept(c: Request, control: Control, log: CommandLog, effective: nat,
                                      id: string, command: Command)
    requires log.sequence == |log.commands| && FoldInv(c, control, log.commands, effective)
    ensures FoldInv(c, ControlAfter(control, command, log.sequence + 1), Accept(log, id, command).commands, effective)
  {
    var commands' := Accept(log, id, command).commands;
    assert commands'[..|log.commands|] == log.commands;
    assert commands'[..effective] == log.commands[..effective];
  }

  lemma {:induction false} OrderAccept(c: Request, s: State, effective: nat, id: string, command: Command)
    requires s.log.sequence == |s.log.commands|
    requires FoldInv(c, s.control, s.log.commands, effective) && OrderInv(c, s)
    requires ValidateNew(s.control, s.work.states, command).None?
    ensures DistinctMessages(Accept(s.log, id, command).commands)
    ensures IncreasingRedirects(c, Accept(s.log, id, command).commands,
                                ControlAfter(s.control, command, s.log.sequence + 1).acceptedRevision)
  {
    if command.QueueMessage? {
      forall k | 0 <= k < |s.log.commands| && s.log.commands[k].value.QueueMessage?
        ensures s.log.commands[k].value.messageId != command.messageId
      {
        MessagesMember(s.log.commands, effective, k);
      }
    }
  }

  ghost predicate ControlInv(c: Request, s: State) {
    FoldInv(c, s.control, s.log.commands, Effective(s.processed, s.point)) && OrderInv(c, s)
  }

  /** The loop changes the control fields only when it makes the last journal call of a command. */
  lemma {:induction false} LoopControl(c: Request, s: State)
    requires Enabled(c, s, Continue) && PointInLog(s.log, s.processed, s.point)
    requires s.point.AwaitApplied? ==> s.log.commands[s.point.i].sequence == s.point.i + 1
    ensures var s' := StepLoop(c, s);
            var n := s.processed;
            && s'.log == s.log
            && s'.control.paused == s.control.paused && s'.control.acceptedRevision == s.control.acceptedRevision
            && if Effective(s'.processed, s'.point) == Effective(s.processed, s.point) then s'.control == s.control
               else
                 && Effective(s.processed, s.point) == n < |s.log.commands|
                 && Effective(s'.processed, s'.point) == n + 1
                 && s'.control.messages == MessagesAfter(s.control.messages, s.log.commands[n].value)
                 && (s'.control.revisionId, s'.control.revision)
                    == RevisionAfter((s.control.revisionId, s.control.revision), s.log.commands[n].value)
  {}

  lemma {:induction false} ControlStep(c: Request, s: State, e: Event)
    requires Enabled(c, s, e) && LogInv(s) && ControlInv(c, s)
    ensures ControlInv(c, Step(c, s, e))
  {
    hide FoldInv;
    hide DistinctMessages;
    hide IncreasingRedirects;
    var s' := Step(c, s, e);
    var n := Effective(s.processed, s.point);
    match e
    case Update(id, command) =>
      SubmitCases(c, s, id, command);
      if s' != s {
        FoldAccept(c, s.control, s.log, n, id, command);
        OrderAccept(c, s, n, id, command);
      }
    case Continue =>
      LoopControl(c, s);
      if Effective(s'.processed, s'.point) != n {
        FoldAdvance(c, s.control, s'.control, s.log.commands, n);
      }
    case _ =>
      assert s'.log == s.log && s'.processed == s.processed && s'.control == s.control;
  }
}
