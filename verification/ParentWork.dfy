/** The parent workflow's work table: statuses, results and active children stay coherent. */
module ParentWork {
  import opened Wrappers
  import opened ParentMachine
  import opened ParentLog

  // ----- One row of the table -----

  /** The item whose child is being started: RUNNING already, registered in `_active` only when
      `start_child_workflow` returns. */
  function InFlight(point: Point): set<string> {
    if point.AwaitChild? then {point.item} else {}
  }

  predicate Settled(status: WorkStatus) {
    status == Completed || status == Failed
  }

  ghost predicate RowOk(work: WorkTable, inFlight: set<string>, id: string) {
    && id in work.states
    && (id in work.results <==> Settled(work.states[id].status))
    && (id in work.results ==>
          && work.results[id].attempt == work.states[id].attempt
          && work.results[id].failed == (work.states[id].status == Failed)
          && work.results[id].failure == work.states[id].failure)
    && (work.states[id].status == Running <==> id in work.active || id in inFlight)
    && !(id in work.active && id in inFlight)
    && (id in work.active ==> work.active[id].attempt == work.states[id].attempt)
  }

  ghost predicate TableOk(c: Request, work: WorkTable, inFlight: set<string>) {
    && work.states.Keys == ItemIds(c.items)
    && work.results.Keys <= ItemIds(c.items)
    && work.active.Keys <= ItemIds(c.items)
    && forall id :: id in ItemIds(c.items) ==> RowOk(work, inFlight, id)
  }

  // ----- What the loop knows about the table at each point -----

  ghost predicate NoRepeats<T>(s: seq<T>) {
    forall j, k :: 0 <= j < k < |s| ==> s[j] != s[k]
  }

  ghost predicate Startable(work: WorkTable, rest: seq<string>) {
    && (forall k :: 0 <= k < |rest| ==> rest[k] in work.states && work.states[rest[k]].status == Pending)
    && NoRepeats(rest)
  }

  ghost predicate StartingOk(c: Request, work: WorkTable, rest: seq<string>, item: string) {
    && Startable(work, rest)
    && item !in rest
    && item in ItemIds(c.items) && item in work.states
    && |work.active.Keys| + 1 + |rest| <= c.maxConcurrency
  }

  ghost predicate Finished(c: Request, work: WorkTable, failures: bool) {
    && work.active == map[]
    && failures == AnyFailed(work.results)
    && forall id :: id in work.states ==> Settled(work.states[id].status) && !IsRecoverable(work.states[id])
  }

  ghost predicate PointInWork(c: Request, work: WorkTable, point: Point) {
    && c.maxConcurrency >= 1
    && |work.active.Keys| <= c.maxConcurrency
    && match point
       case Invalidating(_, todo, _) => todo <= work.results.Keys
       case AwaitInvalidated(_, todo, _) => todo <= work.results.Keys
       case AwaitChildren => work.active != map[]
       case Finishing(todo) => todo <= work.active.Keys
       case AwaitFinish(stage, todo, item, attempt, failed) =>
         && stage <= 2 && todo <= work.active.Keys
         && item in work.results && item !in work.active
         && work.results[item].attempt == attempt && work.results[item].failed == failed
       case StartNext(rest) => Startable(work, rest) && |work.active.Keys| + |rest| <= c.maxConcurrency
       case AwaitEnsure(rest, item, attempt) =>
         StartingOk(c, work, rest, item) && work.states[item].status == Pending && work.states[item].attempt == attempt
       case AwaitStart(stage, rest, item, attempt) =>
         && stage <= 2
         && StartingOk(c, work, rest, item) && work.states[item].status == Pending
         && work.states[item].attempt + 1 == attempt
       case AwaitChild(rest, item, attempt) =>
         StartingOk(c, work, rest, item) && work.states[item].attempt == attempt
       case AwaitCompleted(failures) => Finished(c, work, failures)
       case AwaitHandlers(failures) => Finished(c, work, failures)
       case Returned(result) =>
         Finished(c, work, result.failures) && result.children == Children(c.items, work.results)
       case Crashed => false
       case _ => true
  }

  ghost predicate WorkInv(c: Request, s: State) {
    TableOk(c, s.work, InFlight(s.point)) && PointInWork(c, s.work, s.point)
  }

  // ----- Table operations -----

  lemma {:induction false} CancelKeepsTable(c: Request, work: WorkTable, inFlight: set<string>, reason: string)
    requires TableOk(c, work, inFlight)
    ensures TableOk(c, CancelActive(c, work, reason), inFlight)
    ensures CancelActive(c, work, reason).active.Keys == work.active.Keys
  {
    var work' := CancelActive(c, work, reason);
    forall id | id in ItemIds(c.items) ensures RowOk(work', inFlight, id) {
      assert RowOk(work, inFlight, id);
    }
  }

  lemma {:induction false} RequeueKeepsTable(c: Request, work: WorkTable, item: string, revision: int)
    requires TableOk(c, work, {}) && item in work.states && work.states[item].status != Running
    ensures TableOk(c, Requeue(work, item, revision), {})
  {
    var work' := Requeue(work, item, revision);
    forall id | id in ItemIds(c.items) ensures RowOk(work', {}, id) {
      assert RowOk(work, {}, id);
    }
  }

  lemma {:induction false} SettleKeepsTable(c: Request, work: WorkTable, item: string, outcome: Outcome, revision: int)
    requires TableOk(c, work, {}) && item in work.active && item in work.states
    ensures TableOk(c, Settle(work, item, outcome, revision), {})
  {
    var work' := Settle(work, item, outcome, revision);
    forall id | id in ItemIds(c.items) ensures RowOk(work', {}, id) {
      assert RowOk(work, {}, id);
    }
  }

  lemma {:induction false} BeginKeepsTable(c: Request, work: WorkTable, item: string, attempt: nat, revision: int)
    requires TableOk(c, work, {}) && item in work.states && work.states[item].status == Pending
    ensures TableOk(c, work.(states := work.states[item := WorkState(Running, attempt, revision, None)]), {item})
  {
    var work' := work.(states := work.states[item := WorkState(Running, attempt, revision, None)]);
    forall id | id in ItemIds(c.items) ensures RowOk(work', {item}, id) {
      assert RowOk(work, {}, id);
    }
  }

  lemma {:induction false} RegisterKeepsTable(c: Request, work: WorkTable, item: string, handle: ChildHandle,
                                              reasons: map<string, string>)
    requires TableOk(c, work, {item}) && item in work.states && work.states[item].attempt == handle.attempt
    ensures TableOk(c, work.(active := work.active[item := handle], cancelReasons := reasons), {})
    ensures work.active[item := handle].Keys == work.active.Keys + {item}
  {
    var work' := work.(active := work.active[item := handle], cancelReasons := reasons);
    forall id | id in ItemIds(c.items) ensures RowOk(work', {}, id) {
      assert RowOk(work, {item}, id);
    }
  }

  // ----- Choosing what to start -----

  lemma {:induction false} PendingItemsMembers(items: seq<WorkItem>, states: map<string, WorkState>)
    ensures forall id :: id in PendingItems(items, states)
              <==> id in ItemIds(items) && id in states && states[id].status == Pending
  {
    if items != [] {
      PendingItemsMembers(items[1..], states);
      assert ItemIds(items) == {items[0].id} + ItemIds(items[1..]) by {
        assert items == [items[0]] + items[1..];
      }
    }
  }

  lemma {:induction false} PendingItemsDistinct(items: seq<WorkItem>, states: map<string, WorkState>)
    requires DistinctIds(items)
    ensures NoRepeats(PendingItems(items, states))
  {
    if items != [] {
      var rest := PendingItems(items[1..], states);
      PendingItemsDistinct(items[1..], states);
      PendingItemsMembers(items[1..], states);
      assert items[0].id !in ItemIds(items[1..]) by {
        forall w | w in items[1..] ensures w.id != items[0].id {
          var k :| 0 <= k < |items[1..]| && items[1..][k] == w;
          assert items[k + 1] == w;
        }
      }
      var p := PendingItems(items, states);
      forall j, k | 0 <= j < k < |p| ensures p[j] != p[k] {
        if p != rest {
          assert p == [items[0].id] + rest;
          assert p[k] == rest[k - 1];
          if j > 0 { assert p[j] == rest[j - 1]; }
        }
      }
    }
  }

  lemma {:induction false} ChosenOk(c: Request, work: WorkTable, pending: seq<string>)
    requires ValidRequest(c) && TableOk(c, work, {}) && work.active == map[]
    requires pending == PendingItems(c.items, work.states)
    ensures var rest := if |pending| <= c.maxConcurrency then pending else pending[..c.maxConcurrency];
            Startable(work, rest) && |work.active.Keys| + |rest| <= c.maxConcurrency
  {
    PendingItemsMembers(c.items, work.states);
    PendingItemsDistinct(c.items, work.states);
    hide TableOk;
    forall k | 0 <= k < |pending| ensures pending[k] in work.states && work.states[pending[k]].status == Pending {
      assert pending[k] in pending;
    }
  }

  lemma {:induction false} ExhaustedIsFinished(c: Request, s: State)
    requires TableOk(c, s.work, {}) && s.work.active == map[]
    requires PendingItems(c.items, s.work.states) == [] && Recoverable(s) == {}
    ensures Finished(c, s.work, AnyFailed(s.work.results))
  {
    PendingItemsMembers(c.items, s.work.states);
    forall id | id in s.work.states
      ensures Settled(s.work.states[id].status) && !IsRecoverable(s.work.states[id])
    {
      assert RowOk(s.work, {}, id);
      assert id !in PendingItems(c.items, s.work.states);
      assert (id, s.work.states[id].attempt) !in Recoverable(s);
    }
  }

  /** The decision after a drain is right: either something can start, or nothing can ever be done
      without the operator. */
  lemma {:induction false} DecideOk(c: Request, s: State)
    requires ValidRequest(c) && s.point.Decide? && WorkInv(c, s)
    ensures WorkInv(c, StepDecide(c, s))
  {
    hide TableOk, Startable, Finished, PendingItems;
    if s.work.active == map[] && !s.control.paused {
      var pending := PendingItems(c.items, s.work.states);
      if pending != [] {
        ChosenOk(c, s.work, pending);
      } else if Recoverable(s) == {} {
        ExhaustedIsFinished(c, s);
      }
    }
  }

  // ----- Steps -----

  lemma {:induction false} WorkUpdate(c: Request, s: State, id: string, command: Command)
    requires IsAwait(s.point) && WorkInv(c, s)
    ensures WorkInv(c, Handle(c, s, id, command))
  {
    if command.Pause? {
      CancelKeepsTable(c, s.work, InFlight(s.point), "pause");
    } else if command.Redirect? {
      CancelKeepsTable(c, s.work, InFlight(s.point), "redirect");
    }
  }

  lemma {:induction false} WorkApply(c: Request, s: State)
    requires s.point.AwaitAccepted? && s.point.i < |s.log.commands|
    requires WorkInv(c, s)
    requires s.log.commands[s.point.i].value.RetryWork? ==>
               var item := s.log.commands[s.point.i].value.workItemId;
               item in s.work.states && s.work.states[item].status != Running
    ensures WorkInv(c, StepApply(c, s, s.point.i))
  {
    if s.log.commands[s.point.i].value.RetryWork? {
      RequeueKeepsTable(c, s.work, s.log.commands[s.point.i].value.workItemId, s.control.revision);
    }
  }

  lemma {:induction false} WorkInvalidate(c: Request, s: State, item: string)
    requires Enabled(c, s, Invalidate(item)) && WorkInv(c, s)
    ensures WorkInv(c, Step(c, s, Invalidate(item)))
  {
    assert RowOk(s.work, {}, item);
    RequeueKeepsTable(c, s.work, item, s.log.commands[s.point.i].value.revision);
  }

  lemma {:induction false} WorkFinish(c: Request, s: State, item: string, outcome: Outcome)
    requires Enabled(c, s, Finish(item, outcome)) && WorkInv(c, s)
    ensures WorkInv(c, Step(c, s, Finish(item, outcome)))
  {
    assert RowOk(s.work, {}, item);
    SettleKeepsTable(c, s.work, item, outcome, s.control.revision);
    assert (s.work.active - {item}).Keys == s.work.active.Keys - {item};
  }

  lemma {:induction false} WorkStartNext(c: Request, s: State)
    requires s.point.StartNext? && WorkInv(c, s)
    ensures WorkInv(c, StepStartNext(s, s.point.rest))
  {
    hide RowOk;
    var rest := s.point.rest;
    if rest != [] {
      assert forall k :: 0 <= k < |rest[1..]| ==> rest[1..][k] == rest[k + 1];
      assert rest[0] in s.work.states && s.work.states[rest[0]].status == Pending;
      assert rest[0] !in rest[1..];
    }
  }

  lemma {:induction false} WorkEnsured(c: Request, s: State)
    requires s.point.AwaitEnsure? && WorkInv(c, s)
    ensures WorkInv(c, StepEnsured(c, s))
  {
    hide TableOk, Startable;
  }

  lemma {:induction false} WorkStart(c: Request, s: State)
    requires s.point.AwaitStart? && s.point.item in ItemIds(c.items) && WorkInv(c, s)
    ensures WorkInv(c, StepStartJournal(c, s))
  {
    BeginKeepsTable(c, s.work, s.point.item, s.point.attempt, s.control.revision);
    hide TableOk;
  }

  lemma {:induction false} WorkRegister(c: Request, s: State)
    requires s.point.AwaitChild? && WorkInv(c, s)
    ensures WorkInv(c, StepRegister(s))
  {
    RegisterKeepsTable(c, s.work, s.point.item, StepRegister(s).work.active[s.point.item],
                       StepRegister(s).work.cancelReasons);
    hide TableOk;
  }

  lemma {:induction false} WorkPlanned(c: Request, s: State)
    requires s.point.AwaitPlan? && s.point.i < |s.log.commands| && s.log.commands[s.point.i].value.Redirect?
    requires WorkInv(c, s)
    ensures WorkInv(c, StepPlanned(s, s.point.i))
  {}

  lemma {:induction false} WorkLoop(c: Request, s: State)
    requires Enabled(c, s, Continue) && WorkInv(c, s)
    requires !(s.point.AwaitAccepted? || s.point.Decide? || s.point.AwaitPlan?)
    requires !(s.point.StartNext? || s.point.AwaitEnsure? || s.point.AwaitStart? || s.point.AwaitChild?)
    ensures WorkInv(c, StepLoop(c, s))
  {
    hide TableOk;
  }
}
