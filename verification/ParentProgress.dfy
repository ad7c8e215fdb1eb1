/** The run loop makes progress: left alone, with no operator update and no cancelled child, every step
    lowers a rank, so the loop comes to rest (workflows/parent.py:97-187, 375-777). */
module ParentProgress {
  import opened Wrappers
  import opened ParentMachine
  import opened ParentLog
  import opened ParentWork
  import opened ParentControl
  import opened ParentRuns

  // ----- The rank -----

  function WithStatus(work: WorkTable, status: WorkStatus): set<string> {
    set id | id in work.states && work.states[id].status == status
  }

  /** Two steps are ahead of a pending item, being started and finishing, and one of a running one. */
  function Load(work: WorkTable): nat {
    2 * |WithStatus(work, Pending)| + |WithStatus(work, Running)|
  }

  predicate Stopped(s: State) {
    s.control.paused || Unprocessed(s)
  }

  /** The starts and finishes that the loop has already committed to. */
  function Promise(s: State): nat {
    match s.point
    case StartNext(rest) => if Stopped(s) then 0 else |rest|
    case AwaitEnsure(rest, _, _) => if Stopped(s) then 0 else |rest| + 1
    case AwaitStart(_, rest, _, _) => if Stopped(s) then 1 else |rest| + 1
    case AwaitChild(rest, _, _) => if Stopped(s) then 0 else |rest|
    case Finishing(todo) => |todo|
    case AwaitFinish(_, todo, _, _, _) => |todo|
    case _ => 0
  }

  /** The command at the head of the queue is being applied. */
  predicate Applying(point: Point) {
    point.AwaitApplied? || point.AwaitPlan? || point.Invalidating? || point.AwaitInvalidated?
  }

  /** Results that the redirect may still drop. */
  function ToDrop(s: State): nat {
    match s.point
    case AwaitPlan(_) => |s.work.results.Keys| + 1
    case Invalidating(_, todo, _) => |todo|
    case AwaitInvalidated(_, todo, _) => |todo|
    case _ => 0
  }

  /** The way from a point to the next decision. */
  function Distance(s: State): int {
    var top := |s.log.commands| + 10;
    match s.point
    case JournalStart => top
    case Drain(i) => top - 1 - i
    case AwaitAccepted(_) => 3
    case AwaitApplied(_) => 0
    case AwaitPlan(_) => 3
    case Invalidating(_, _, _) => 1
    case AwaitInvalidated(_, _, _) => 2
    case Decide => 5
    case AwaitChildren => 0
    case Finishing(todo) => top + 4 * |todo|
    case AwaitFinish(stage, todo, _, _, _) => top + 4 * |todo| + 3 - stage
    case AwaitResume => if s.control.paused && !Unprocessed(s) then 0 else top
    case AwaitRecoveryJournal => if Unprocessed(s) then top + 1 else 1
    case AwaitCommand => if Unprocessed(s) then top else 0
    case StartNext(rest) => top + 6 * |rest|
    case AwaitEnsure(rest, _, _) => top + 6 * |rest| + 5
    case AwaitStart(stage, rest, _, _) => top + 6 * |rest| + 4 - stage
    case AwaitChild(rest, _, _) => top + 6 * |rest| + 1
    case AwaitCompleted(_) => 2
    case AwaitHandlers(_) => 1
    case Returned(_) => 0
    case Crashed => 0
  }

  datatype Rank = Rank(commands: int, drops: nat, load: int, distance: int)

  function RankOf(c: Request, s: State): Rank {
    Rank(2 * (|s.log.commands| - s.processed) - (if Applying(s.point) then 1 else 0),
         ToDrop(s), Load(s.work) + c.maxConcurrency - Promise(s), Distance(s))
  }

  predicate Natural(rank: Rank) {
    rank.commands >= 0 && rank.load >= 0 && rank.distance >= 0
  }

  /** Lexicographically smaller. */
  predicate Lower(a: Rank, b: Rank) {
    || a.commands < b.commands
    || (a.commands == b.commands
        && (|| a.drops < b.drops
            || (a.drops == b.drops && (a.load < b.load || (a.load == b.load && a.distance < b.distance)))))
  }

  /** Every step that is neither an operator update nor the end of a cancelled child. */
  predicate Quiet(e: Event) {
    !e.Update? && !(e.Finish? && e.outcome.ChildCancelled?)
  }

  lemma {:induction false} RankNatural(c: Request, s: State)
    requires LogInv(s) && WorkInv(c, s)
    ensures Natural(RankOf(c, s))
  {
    hide TableOk, LogShape, Load, RowOk, Finished;
    match s.point
    case Finishing(todo) => SubsetSize(todo, s.work.active.Keys);
    case AwaitFinish(_, todo, _, _, _) => SubsetSize(todo, s.work.active.Keys);
    case _ =>
  }

  lemma {:induction false} SubsetSize<T>(a: set<T>, b: set<T>)
    requires a <= b
    ensures |a| <= |b|
  {
    assert b == a + (b - a);
  }

  // ----- How the load changes -----

  lemma {:induction false} CountOne(work: WorkTable, work': WorkTable, item: string, status: WorkStatus)
    requires item in work.states && item in work'.states && work'.states == work.states[item := work'.states[item]]
    ensures |WithStatus(work', status)| + (if work.states[item].status == status then 1 else 0)
         == |WithStatus(work, status)| + (if work'.states[item].status == status then 1 else 0)
  {
    var rest := WithStatus(work, status) - {item};
    assert WithStatus(work', status) == if work'.states[item].status == status then rest + {item} else rest;
    assert WithStatus(work, status) == if work.states[item].status == status then rest + {item} else rest;
  }

  lemma {:induction false} LoadOf(work: WorkTable, work': WorkTable, item: string)
    requires item in work.states && item in work'.states && work'.states == work.states[item := work'.states[item]]
    ensures Load(work') == Load(work) - WeightOf(work.states[item]) + WeightOf(work'.states[item])
  {
    CountOne(work, work', item, Pending);
    CountOne(work, work', item, Running);
    hide WithStatus;
  }

  function WeightOf(w: WorkState): nat {
    if w.status == Pending then 2 else if w.status == Running then 1 else 0
  }

  lemma LoadSame(work: WorkTable, work': WorkTable)
    requires work'.states == work.states
    ensures Load(work') == Load(work)
  {}

  // ----- Every quiet step -----

  lemma {:induction false} FinishFacts(c: Request, s: State, item: string, outcome: Outcome)
    requires Enabled(c, s, Finish(item, outcome)) && WorkInv(c, s) && !outcome.ChildCancelled?
    ensures var s' := Step(c, s, Finish(item, outcome));
            && item in s.work.states && s.work.states[item].status == Running
            && item in s'.work.states && s'.work.states == s.work.states[item := s'.work.states[item]]
            && Settled(s'.work.states[item].status)
            && s'.log == s.log && s'.processed == s.processed
            && s'.point.AwaitFinish? && s'.point.stage == 0 && s'.point.todo == s.point.todo - {item}
  {
    hide StepLoop, Submit, StepInvalidate;
    assert RowOk(s.work, {}, item);
  }

  lemma {:induction false} FinishProgress(c: Request, s: State, item: string, outcome: Outcome)
    requires Enabled(c, s, Finish(item, outcome)) && WorkInv(c, s) && LogInv(s) && !outcome.ChildCancelled?
    ensures Lower(RankOf(c, Step(c, s, Finish(item, outcome))), RankOf(c, s))
  {
    FinishFacts(c, s, item, outcome);
    hide Step, WorkInv, LogInv, Load;
    var s' := Step(c, s, Finish(item, outcome));
    LoadOf(s.work, s'.work, item);
    assert |s.point.todo - {item}| == |s.point.todo| - 1;
  }

  lemma {:induction false} InvalidateProgress(c: Request, s: State, item: string)
    requires Enabled(c, s, Invalidate(item)) && WorkInv(c, s) && LogInv(s)
    ensures Lower(RankOf(c, Step(c, s, Invalidate(item))), RankOf(c, s))
  {
    assert RowOk(s.work, {}, item);
    assert |s.point.todo - {item}| == |s.point.todo| - 1;
    hide TableOk, LogShape, Load;
  }

  lemma {:induction false} DoneProgress(c: Request, s: State, done: set<string>)
    requires Enabled(c, s, ChildrenDone(done)) && WorkInv(c, s) && LogInv(s)
    ensures Lower(RankOf(c, Step(c, s, ChildrenDone(done))), RankOf(c, s))
  {
    hide TableOk, LogShape, Load;
    assert |done| > 0;
  }

  lemma {:induction false} StartFacts(c: Request, s: State)
    requires s.point.AwaitStart? && s.point.item in ItemIds(c.items) && s.point.stage <= 2
    requires s.point.item in s.work.states && s.work.states[s.point.item].status == Pending
    ensures var s' := StepStartJournal(c, s);
            && s'.log == s.log && s'.processed == s.processed && s'.control == s.control
            && if s.point.stage < 2 then s'.work == s.work && s'.point == s.point.(stage := s.point.stage + 1)
               else
                 && s'.point == AwaitChild(s.point.rest, s.point.item, s.point.attempt)
                 && s.point.item in s'.work.states && s'.work.states[s.point.item].status == Running
                 && s'.work.states == s.work.states[s.point.item := s'.work.states[s.point.item]]
  {
    hide Item;
  }

  lemma StartedIsPending(c: Request, s: State)
    requires s.point.AwaitStart? && WorkInv(c, s)
    ensures s.point.stage <= 2 && s.point.item in s.work.states && s.work.states[s.point.item].status == Pending
  {
    hide TableOk;
  }

  lemma {:induction false} StartProgress(c: Request, s: State)
    requires s.point.AwaitStart? && s.point.item in ItemIds(c.items) && WorkInv(c, s) && LogInv(s)
    ensures Lower(RankOf(c, StepStartJournal(c, s)), RankOf(c, s))
  {
    hide WorkInv, LogInv, Load, StepStartJournal;
    StartedIsPending(c, s);
    var s' := StepStartJournal(c, s);
    StartFacts(c, s);
    if s.point.stage == 2 { LoadOf(s.work, s'.work, s.point.item); } else { LoadSame(s.work, s'.work); }
  }

  lemma {:induction false} PlanProgress(c: Request, s: State)
    requires s.point.AwaitPlan? && LogInv(s)
    ensures Lower(RankOf(c, StepPlanned(s, s.point.i)), RankOf(c, s))
  {
    var s' := StepPlanned(s, s.point.i);
    SubsetSize(s'.point.todo, s.work.results.Keys);
    hide LogShape, Load;
  }

  lemma {:induction false} DecideFacts(c: Request, s: State)
    requires c.maxConcurrency >= 1 && s.point.Decide?
    ensures var s' := StepDecide(c, s);
            && s'.log == s.log && s'.processed == s.processed && s'.work == s.work && s'.control == s.control
            && (|| s'.point.AwaitChildren? || (s'.point.AwaitResume? && s.control.paused)
                || s'.point.AwaitRecoveryJournal? || s'.point.AwaitCompleted?
                || (s'.point.StartNext? && s'.point.rest != [] && !s.control.paused))
  {
    hide PendingItems;
  }

  lemma {:induction false} DecideProgress(c: Request, s: State)
    requires ValidRequest(c) && s.point.Decide? && WorkInv(c, s) && LogInv(s)
    ensures Lower(RankOf(c, StepDecide(c, s)), RankOf(c, s))
  {
    assert !Unprocessed(s) && s.processed == |s.log.commands|;
    hide WorkInv, LogInv, Load, StepDecide;
    DecideFacts(c, s);
    var s' := StepDecide(c, s);
    hide RankOf;
    LoadSame(s.work, s'.work);
    RankAtDecision(c, s);
    RankAtDecision(c, s');
    RankAtStart(c, s');
  }

  lemma RankAtDecision(c: Request, s: State)
    requires s.processed == |s.log.commands| && !Unprocessed(s)
    ensures s.point.Decide? ==> RankOf(c, s) == Rank(0, 0, Load(s.work) + c.maxConcurrency, 5)
    ensures s.point.AwaitChildren? || (s.point.AwaitResume? && s.control.paused) ==>
              RankOf(c, s) == Rank(0, 0, Load(s.work) + c.maxConcurrency, 0)
    ensures s.point.AwaitRecoveryJournal? ==> RankOf(c, s) == Rank(0, 0, Load(s.work) + c.maxConcurrency, 1)
    ensures s.point.AwaitCompleted? ==> RankOf(c, s) == Rank(0, 0, Load(s.work) + c.maxConcurrency, 2)
  {
    hide Load;
  }

  lemma RankAtStart(c: Request, s: State)
    ensures var w, n := 2 * (|s.log.commands| - s.processed), |s.log.commands| + 10;
            var load := Load(s.work) + c.maxConcurrency;
            && (s.point.StartNext? ==>
                  RankOf(c, s)
                  == Rank(w, 0, if Stopped(s) then load else load - |s.point.rest|, n + 6 * |s.point.rest|))
            && (s.point.AwaitEnsure? ==>
                  RankOf(c, s) == Rank(w, 0, if Stopped(s) then load else load - |s.point.rest| - 1,
                                       n + 6 * |s.point.rest| + 5))
            && (s.point.AwaitStart? && s.point.stage == 0 ==>
                  RankOf(c, s) == Rank(w, 0, if Stopped(s) then load - 1 else load - |s.point.rest| - 1,
                                       n + 6 * |s.point.rest| + 4))
            && (s.point.AwaitChild? ==>
                  RankOf(c, s) == Rank(w, 0, if Stopped(s) then load else load - |s.point.rest|,
                                       n + 6 * |s.point.rest| + 1))
            && (s.point.Drain? && s.point.i == 0 ==> RankOf(c, s) == Rank(w, 0, load, n - 1))
  {
    hide Load, Stopped;
  }

  /** From the head of the drain loop to the decision, or to the last journal call of a command. */
  lemma {:induction false} DrainProgress(c: Request, s: State)
    requires Enabled(c, s, Continue) && LogInv(s)
    requires s.point.JournalStart? || s.point.Drain? || s.point.AwaitAccepted? || Applying(s.point)
    requires !s.point.AwaitPlan?
    ensures Lower(RankOf(c, StepLoop(c, s)), RankOf(c, s))
  {
    assert s.point.Drain? && s.point.i < |s.log.commands| ==> s.log.commands[s.point.i].sequence == s.point.i + 1;
    assert s.point.AwaitApplied? ==> s.log.commands[s.point.i].sequence == s.processed + 1;
    hide LogShape, Load, Requeue, MarkApplied;
    LoadSame(s.work, s.work);
  }

  /** From the handles of finished children back to the drain loop. */
  lemma {:induction false} ReportProgress(c: Request, s: State)
    requires Enabled(c, s, Continue) && WorkInv(c, s) && (s.point.Finishing? || s.point.AwaitFinish?)
    ensures Lower(RankOf(c, StepLoop(c, s)), RankOf(c, s))
  {
    assert s.point.AwaitFinish? ==> s.point.stage <= 2;
    hide WorkInv, Load, Item;
    LoadSame(s.work, StepLoop(c, s).work);
  }

  /** Through the items that are to be started. */
  lemma {:induction false} NextProgress(c: Request, s: State)
    requires Enabled(c, s, Continue) && WorkInv(c, s)
    requires s.point.StartNext? || s.point.AwaitEnsure? || s.point.AwaitChild?
    ensures Lower(RankOf(c, StepLoop(c, s)), RankOf(c, s))
  {
    assert s.point.StartNext? && s.point.rest != [] ==> s.point.rest[0] in s.work.states by { hide TableOk; }
    hide WorkInv, Load, Item;
    var s' := StepLoop(c, s);
    hide RankOf;
    LoadSame(s.work, s'.work);
    RankAtStart(c, s);
    RankAtStart(c, s');
  }

  /** Waiting is over, or the loop was left. */
  lemma {:induction false} WaitProgress(c: Request, s: State)
    requires Enabled(c, s, Continue)
    requires || s.point.AwaitResume? || s.point.AwaitRecoveryJournal? || s.point.AwaitCommand?
             || s.point.AwaitCompleted? || s.point.AwaitHandlers?
    ensures Lower(RankOf(c, StepLoop(c, s)), RankOf(c, s))
  {
    hide Load, Children;
    LoadSame(s.work, StepLoop(c, s).work);
  }

  lemma {:induction false} LoopProgress(c: Request, s: State)
    requires ValidRequest(c) && Enabled(c, s, Continue) && LogInv(s) && WorkInv(c, s)
    ensures Lower(RankOf(c, StepLoop(c, s)), RankOf(c, s))
  {
    var point := s.point;
    if point.AwaitStart? {
      StartProgress(c, s);
    } else if point.AwaitPlan? {
      PlanProgress(c, s);
    } else if point.Decide? {
      DecideProgress(c, s);
    } else {
      hide LogInv, WorkInv, RankOf, StepLoop, StepPlanned;
      if point.Finishing? || point.AwaitFinish? { ReportProgress(c, s); }
      else if point.StartNext? || point.AwaitEnsure? || point.AwaitChild? { NextProgress(c, s); }
      else if point.JournalStart? || point.Drain? || point.AwaitAccepted? || Applying(point) { DrainProgress(c, s); }
      else { WaitProgress(c, s); }
    }
  }

  /** Every quiet step lowers the rank. */
  lemma {:induction false} ProgressStep(c: Request, s: State, e: Event)
    requires ValidRequest(c) && Enabled(c, s, e) && LogInv(s) && WorkInv(c, s) && Quiet(e)
    ensures Lower(RankOf(c, Step(c, s, e)), RankOf(c, s))
  {
    hide LogInv, WorkInv, RankOf;
    match e
    case ChildrenDone(done) => DoneProgress(c, s, done);
    case Finish(item, outcome) => FinishProgress(c, s, item, outcome);
    case Invalidate(item) => InvalidateProgress(c, s, item);
    case Continue => LoopProgress(c, s);
  }

  // ----- Runs -----

  lemma LowerTransitive(a: Rank, b: Rank, x: Rank)
    requires Lower(a, b) && Lower(b, x)
    ensures Lower(a, x)
  {}

  ghost predicate QuietFrom(r: Run, j: nat, k: nat) {
    j <= k <= |r.events| && forall m :: j <= m < k ==> Quiet(r.events[m])
  }

  /** While nothing arrives from the operator and no child is cancelled, the rank goes down with every
      step; so no state ever comes back, and there are only finitely many such steps. */
  lemma {:induction false} QuietRunsDescend(c: Request, r: Run, j: nat, k: nat)
    requires IsRun(c, r) && j < k < |r.states| && QuietFrom(r, j, k)
    ensures Lower(RankOf(c, r.states[k]), RankOf(c, r.states[j])) && r.states[k] != r.states[j]
    ensures Natural(RankOf(c, r.states[k]))
    decreases k
  {
    hide Enabled, Step, Inv, RankOf, LogInv, WorkInv, Lower, Natural;
    assert Enabled(c, r.states[k - 1], r.events[k - 1]) && Quiet(r.events[k - 1]);
    RunInv(c, r, k - 1);
    RunInv(c, r, k);
    InvParts(c, r.states[k - 1]);
    InvParts(c, r.states[k]);
    InvRequest(c, r.states[k - 1]);
    ProgressStep(c, r.states[k - 1], r.events[k - 1]);
    RankNatural(c, r.states[k]);
    if j < k - 1 {
      QuietRunsDescend(c, r, j, k - 1);
      LowerTransitive(RankOf(c, r.states[k]), RankOf(c, r.states[k - 1]), RankOf(c, r.states[j]));
    }
    LowerIrreflexive(RankOf(c, r.states[j]));
  }

  lemma LowerIrreflexive(a: Rank)
    ensures !Lower(a, a)
  {}

  lemma InvRequest(c: Request, s: State)
    requires Inv(c, s)
    ensures ValidRequest(c)
  {}

  ghost predicate Extends(r: Run, r': Run) {
    r.states <= r'.states && r.events <= r'.events && |r'.states| == |r'.events| + 1
  }

  /** A step that the loop can take by itself. */
  lemma {:induction false} NextQuiet(c: Request, s: State) returns (e: Event)
    requires Inv(c, s) && !MayWait(s)
    ensures Enabled(c, s, e) && Quiet(e)
  {
    hide Inv;
    NotStuck(c, s);
    if Enabled(c, s, Continue) {
      e := Continue;
    } else {
      var item :| Enabled(c, s, Finish(item, ChildCancelled)) || Enabled(c, s, Invalidate(item));
      e := if Enabled(c, s, Invalidate(item)) then Invalidate(item) else Finish(item, ChildCompleted([]));
    }
  }

  /** Every run can go on by quiet steps until the loop waits for children or for the operator, or has
      returned. */
  lemma {:induction false} ComesToRest(c: Request, r: Run) returns (r': Run)
    requires IsRun(c, r)
    ensures IsRun(c, r') && Extends(r, r') && QuietFrom(r', |r.events|, |r'.events|)
    ensures MayWait(r'.states[|r'.states| - 1])
    decreases RankOf(c, r.states[|r.events|]).commands, RankOf(c, r.states[|r.events|]).drops,
              RankOf(c, r.states[|r.events|]).load, RankOf(c, r.states[|r.events|]).distance
  {
    hide Enabled, Step, Inv, RankOf, LogInv, WorkInv, MayWait;
    var n := |r.events|;
    var s := r.states[n];
    RunInv(c, r, n);
    if MayWait(s) {
      r' := r;
    } else {
      var e := NextQuiet(c, s);
      var next := Run(r.states + [Step(c, s, e)], r.events + [e]);
      assert next.states[n + 1] == Step(c, s, e) && next.events[n] == e;
      assert IsRun(c, next) by { RunGoesOn(c, r, e); }
      InvParts(c, s);
      InvRequest(c, s);
      ProgressStep(c, s, e);
      RankNatural(c, s);
      RunInv(c, next, n + 1);
      InvParts(c, next.states[n + 1]);
      RankNatural(c, next.states[n + 1]);
      hide IsRun;
      r' := ComesToRest(c, next);
    }
  }

  lemma {:induction false} RunGoesOn(c: Request, r: Run, e: Event)
    requires IsRun(c, r) && Enabled(c, r.states[|r.events|], e)
    ensures IsRun(c, Run(r.states + [Step(c, r.states[|r.events|], e)], r.events + [e]))
  {
    hide Enabled, Step;
    var next := Run(r.states + [Step(c, r.states[|r.events|], e)], r.events + [e]);
    forall k | 0 <= k < |next.events|
      ensures Enabled(c, next.states[k], next.events[k])
      ensures next.states[k + 1] == Step(c, next.states[k], next.events[k])
    {
      if k < |r.events| { assert Enabled(c, r.states[k], r.events[k]); }
    }
  }
}
