/** What the run loop decides at each turn (workflows/parent.py:110-187, 590-681). */
module ParentDecisions {
  import opened Wrappers
  import opened Text
  import opened ParentMachine
  import opened ParentLog
  import opened ParentWork
  import opened ParentControl
  import opened ParentRuns
  import opened ParentOutcomes

  /** The run is paused, or an accepted command was not applied yet. */
  predicate Halted(s: State) {
    s.control.paused || s.processed < |s.log.commands|
  }

  // ----- The first state -----

  /** A request is refused for having no items, no room to run one, or two items of one id; otherwise every item waits
      for its first attempt under the request's revision, and nothing was accepted, journaled but the start, or
      begun. */
  lemma {:induction false} StartsFresh(c: Request)
    ensures Init(c) == Err(NoWorkItems) <==> c.items == []
    ensures Init(c) == Err(NonPositiveConcurrency) <==> c.items != [] && c.maxConcurrency < 1
    ensures Init(c).Ok? <==> ValidRequest(c)
    ensures Init(c).Ok? ==>
              var s := Init(c).value;
              && (forall id :: id in s.work.states <==> exists x :: 0 <= x < |c.items| && c.items[x].id == id)
              && (forall id :: id in s.work.states ==> s.work.states[id] == WorkState(Pending, 0, c.revision, None))
              && s.work.results == map[] && s.work.active == map[] && s.started == [] && s.log.commands == []
              && s.log.acks == map[] && s.processed == 0 && !s.control.paused && s.control.messages == []
              && s.control.revisionId == c.revisionId
              && s.control.revision == s.control.acceptedRevision == c.revision
              && s.journal == [JournalCall(c.runId, WorkflowStarted)]
  {
    if Init(c).Ok? {
      forall id ensures id in ItemIds(c.items) <==> exists x :: 0 <= x < |c.items| && c.items[x].id == id {
        if id in ItemIds(c.items) {
          var w :| w in c.items && w.id == id;
        }
      }
    }
  }

  // ----- How updates are refused -----

  /** An id may be submitted again only with the command it stands for. */
  lemma {:induction false} ReuseIsRefused(c: Request, s: State, id: string, command: Command)
    requires s.work.active.Keys <= ItemIds(c.items) && id in s.log.acks && !IsBlank(id)
    ensures var (result, s') := Submit(c, s, id, command);
            && s' == s
            && (s.log.acks[id].kind != Kind(command) ==> result == Err(ReusedForOtherKind))
            && (result.Err? && s.log.acks[id].kind == Kind(command) ==> result == Err(ReusedWithOtherPayload))
  {}

  /** The first objection to a command that is new. */
  lemma {:induction false} NewIsRefused(c: Request, s: State, id: string, command: Command)
    requires s.work.active.Keys <= ItemIds(c.items) && id !in s.log.acks
    ensures var result := Submit(c, s, id, command).0;
            && (IsBlank(id) ==> result == Err(BlankCommandId))
            && (!IsBlank(id) ==>
                  match command
                  case Pause(reason) => IsBlank(reason) ==> result == Err(BlankReason)
                  case Resume(reason) => IsBlank(reason) ==> result == Err(BlankReason)
                  case Redirect(revisionId, revision, changed, reason) =>
                    && (revision <= s.control.acceptedRevision ==> result == Err(RevisionNotIncreasing))
                    && (revision > s.control.acceptedRevision && IsBlank(revisionId) ==> result == Err(BlankRevisionId))
                    && (revision > s.control.acceptedRevision && !IsBlank(revisionId) && changed == [] ==>
                          result == Err(NoChangedDependency))
                  case QueueMessage(messageId, body) =>
                    && (IsBlank(messageId) ==> result == Err(BlankMessageId))
                    && (!IsBlank(messageId) && IsBlank(body) ==> result == Err(BlankBody))
                    && (!IsBlank(messageId) && !IsBlank(body)
                        && (exists m :: m in s.control.messages && m.messageId == messageId) ==>
                          result == Err(MessageIdNotUnique))
                  case RetryWork(item, expected, reason) =>
                    && (IsBlank(reason) ==> result == Err(BlankReason))
                    && (!IsBlank(reason) && item !in s.work.states ==> result == Err(UnknownWorkItem))
                    && (!IsBlank(reason) && item in s.work.states && s.work.states[item].status != Failed ==>
                          result == Err(OnlyFailedWork))
                    && (!IsBlank(reason) && item in s.work.states ==>
                          s.work.states[item].status == Failed && s.work.states[item].attempt != expected ==>
                            result == Err(AttemptMismatch)))
  {}

  /** A pause or a redirect that is accepted asks every cancellable child to stop, and notes why. */
  lemma {:induction false} StopsSayWhy(c: Request, s: State, id: string, command: Command)
    requires s.work.active.Keys <= ItemIds(c.items) && (command.Pause? || command.Redirect?)
    requires id !in s.log.acks && Submit(c, s, id, command).0.Ok?
    ensures var work, work' := s.work, Submit(c, s, id, command).1.work;
            && work'.states == work.states && work'.results == work.results && work'.active.Keys == work.active.Keys
            && forall item ::
                 if item in work.active && Item(c, item).cancellable then
                   && work'.active[item] == ChildHandle(work.active[item].attempt, true)
                   && item in work'.cancelReasons
                   && work'.cancelReasons[item] == if command.Pause? then "pause" else "redirect"
                 else
                   && (item in work'.cancelReasons <==> item in work.cancelReasons)
                   && (item in work.cancelReasons ==> work'.cancelReasons[item] == work.cancelReasons[item])
  {}

  // ----- After a drain -----

  /** A failed item that an operator may retry. */
  predicate AwaitsRetry(s: State, item: string) {
    item in s.work.states && s.work.states[item].status == Failed && s.work.states[item].failure.Some?
    && s.work.states[item].failure.value.retryable
  }

  lemma {:induction false} PendingNone(items: seq<WorkItem>, states: map<string, WorkState>)
    ensures PendingItems(items, states) == [] <==> forall x: nat :: !IsPendingAt(items, states, x)
  {
    if items != [] {
      PendingNone(items[1..], states);
      PendingStep(items, states);
      if forall x: nat :: !IsPendingAt(items[1..], states, x) {
        forall x: nat | IsPendingAt(items, states, x) ensures x == 0 {
          if x > 0 { assert IsPendingAt(items[1..], states, x - 1); }
        }
      }
      if x: nat :| IsPendingAt(items[1..], states, x) { assert IsPendingAt(items, states, x + 1); }
    }
  }

  lemma {:induction false} DecideIs(c: Request, s: State)
    requires Enabled(c, s, Continue) && s.point.Decide?
    ensures var next := StepLoop(c, s).point;
            if s.work.active != map[] then next == AwaitChildren
            else if s.control.paused then next == AwaitResume
            else if PendingItems(c.items, s.work.states) != [] then next.StartNext?
            else if exists item :: AwaitsRetry(s, item) then next == AwaitRecoveryJournal
            else next == AwaitCompleted(exists item :: item in s.work.results && s.work.results[item].failed)
  {
    hide PendingItems;
    if item :| AwaitsRetry(s, item) {
      assert (item, s.work.states[item].attempt) in Recoverable(s);
    }
    if Recoverable(s) != {} {
      var x :| x in Recoverable(s);
      assert AwaitsRetry(s, x.0);
    }
  }

  /** With nothing left to drain, the run waits for running children, else for a resume if it is paused, else
      starts pending items, else waits for the retry of a failed item that can be retried, else completes,
      reporting failures exactly when a held result failed. */
  lemma {:induction false} DecidesExactly(c: Request, r: Run, k: nat)
    requires IsRun(c, r) && k < |r.events| && r.states[k].point.Decide?
    ensures |r.states| == |r.events| + 1
    ensures var s, next := r.states[k], r.states[k + 1].point;
            var pending := exists x: nat :: IsPendingAt(c.items, s.work.states, x);
            && (next == AwaitChildren <==> s.work.active != map[])
            && (next == AwaitResume <==> s.work.active == map[] && s.control.paused)
            && (next.StartNext? <==> s.work.active == map[] && !s.control.paused && pending)
            && (next == AwaitRecoveryJournal <==>
                  s.work.active == map[] && !s.control.paused && !pending && exists item :: AwaitsRetry(s, item))
            && (next.AwaitCompleted? <==>
                  s.work.active == map[] && !s.control.paused && !pending && !exists item :: AwaitsRetry(s, item))
            && (next.AwaitCompleted? ==>
                  (next.failures <==> exists item :: item in s.work.results && s.work.results[item].failed))
  {
    hide IsRun, Enabled, Step, LogInv, WorkInv, IsPendingAt, AwaitsRetry;
    ParentOutcomes.RunStep(c, r, k);
    var s := r.states[k];
    DecideContinues(c, s, r.events[k]);
    ContinueIs(c, s);
    DecideIs(c, s);
    PendingNone(c.items, s.work.states);
  }

  lemma DecideContinues(c: Request, s: State, e: Event)
    requires Enabled(c, s, e) && s.point.Decide?
    ensures e.Continue?
  {}

  // ----- Starting a child -----

  lemma {:induction false} EnsuringStep(c: Request, s: State, e: Event)
    requires Enabled(c, s, e) && Step(c, s, e).point.AwaitEnsure? && !s.point.AwaitEnsure?
    ensures e.Continue? && s.point.StartNext? && s.point.rest != [] && !s.control.paused && !Unprocessed(s)
    ensures var next := Step(c, s, e).point;
            && next.item == s.point.rest[0] && next.rest == s.point.rest[1..]
            && next.item in s.work.states && next.attempt == s.work.states[next.item].attempt
  {
    if e.Update? { SubmitCases(c, s, e.commandId, e.command); }
  }

  lemma {:induction false} BeginningStep(c: Request, s: State, e: Event)
    requires Enabled(c, s, e) && Step(c, s, e).point.AwaitStart? && !s.point.AwaitStart?
    ensures e.Continue? && s.point.AwaitEnsure? && !s.control.paused && !Unprocessed(s)
    ensures var next := Step(c, s, e).point;
            next == AwaitStart(0, s.point.rest, s.point.item, s.point.attempt + 1)
  {
    if e.Update? { SubmitCases(c, s, e.commandId, e.command); }
  }

  /** No child is prepared or begun while the run is paused or a command waits; the next one is the next of the
      chosen items, under an attempt one higher than its last. */
  lemma {:induction false} NothingBeginsWhileHalted(c: Request, r: Run, k: nat)
    requires IsRun(c, r) && k < |r.events|
    ensures |r.states| == |r.events| + 1
    ensures var s, next := r.states[k], r.states[k + 1].point;
            && (next.AwaitEnsure? && !s.point.AwaitEnsure? ==>
                  && !Halted(s) && s.point.StartNext? && s.point.rest != [] && next.item == s.point.rest[0]
                  && next.item in s.work.states && next.attempt == s.work.states[next.item].attempt)
            && (next.AwaitStart? && !s.point.AwaitStart? ==>
                  && !Halted(s) && s.point.AwaitEnsure? && next.item == s.point.item
                  && next.attempt == s.point.attempt + 1)
  {
    hide IsRun, Enabled, Step, WorkInv;
    ParentOutcomes.RunStep(c, r, k);
    var s, e := r.states[k], r.events[k];
    if r.states[k + 1].point.AwaitEnsure? && !s.point.AwaitEnsure? { EnsuringStep(c, s, e); }
    if r.states[k + 1].point.AwaitStart? && !s.point.AwaitStart? { BeginningStep(c, s, e); }
  }

  lemma {:induction false} StartingStep(c: Request, s: State, e: Event)
    requires Enabled(c, s, e) && Step(c, s, e).point.AwaitChild? && !s.point.AwaitChild?
    ensures e.Continue? && s.point.AwaitStart?
    ensures var s', item, attempt := Step(c, s, e), s.point.item, s.point.attempt;
            && s'.point == AwaitChild(s.point.rest, item, attempt)
            && s'.started == s.started + [(item, attempt)]
            && s'.work.states == s.work.states[item := WorkState(Running, attempt, s.control.revision, None)]
  {
    if e.Update? { SubmitCases(c, s, e.commandId, e.command); }
  }

  /** A child workflow is started under the attempt that was journaled, and its item runs from then on, under the
      current revision. */
  lemma {:induction false} StartedRuns(c: Request, r: Run, k: nat)
    requires IsRun(c, r) && k < |r.events|
    requires r.states[k + 1].point.AwaitChild? && !r.states[k].point.AwaitChild?
    ensures var s, s' := r.states[k], r.states[k + 1];
            && s.point.AwaitStart? && s'.started == s.started + [(s.point.item, s.point.attempt)]
            && s.point.item in s'.work.states
            && s'.work.states[s.point.item] == WorkState(Running, s.point.attempt, s.control.revision, None)
  {
    hide IsRun, Enabled, Step, LogInv, WorkInv;
    ParentOutcomes.RunStep(c, r, k);
    StartingStep(c, r.states[k], r.events[k]);
  }

  /** A child that is registered into a halted run is asked to stop at once because of the waiting command. */
  lemma {:induction false} LateStopSaysWhy(c: Request, s: State)
    requires Enabled(c, s, Continue) && s.point.AwaitChild?
    ensures var s', item := StepLoop(c, s), s.point.item;
            && item in s'.work.active && s'.work.active[item].attempt == s.point.attempt
            && (s'.work.active[item].cancelRequested <==> s.control.paused || s.processed < s.log.sequence)
            && (s'.work.active[item].cancelRequested ==>
                  item in s'.work.cancelReasons && s'.work.cancelReasons[item] == "control_command")
            && (!s'.work.active[item].cancelRequested ==> s'.work.cancelReasons == s.work.cancelReasons)
  {}
}
