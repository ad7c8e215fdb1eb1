/** `PostgresEventStore` as an object over its tables (persistence/postgres.py). */
module PostgresEventStore {
  import opened Wrappers
  import opened Text
  import opened EventJournal
  import opened ColumnReplay
  import opened PostgresStore
  import Memory = MemoryStore

  // ----- A journal whose rebuild aborts -----

  const PLAIN := Env((_, value) => Some(value), (_, value) => Some(value), (_, value) => Some(value), _ => true,
                     _ => true,
                     (value: Value) => if value.Str? then Some(value.text) else None)

  const QUEUED_RUN := Memory.NewRun("run", "Run", "queued", None, Null, Null, Null)
  const NO_DETAILS := Details("", None, None, None, None)

  /** The row that `create_run` inserts for it, and the event it journals first. */
  const QUEUED_ROW: Columns :=
    map["title" := Str("Run"), "status" := Str("queued"), "summary" := Null, "request_revision_id" := Null,
        "policy_revision" := Null, "started_at" := Null, "completed_at" := Null]
  const CREATED := Memory.CreatedDraft(QUEUED_RUN, NO_DETAILS)

  function StatusDraft(status: string, payload: Columns): Draft {
    Draft("run.status_changed", status, "The run is " + status, payload, None, None, NO_DETAILS)
  }

  /** A run that failed before it ever started, and then started. */
  const FAILED_THEN_STARTED :=
    [CREATED,
     StatusDraft("failed", map["status" := Str("failed"), "completed_at" := Moment(2)]),
     StatusDraft("running", map["status" := Str("running"), "started_at" := Moment(3)])]

  const CREATED_UPDATES: Columns :=
    map["title" := Str("Run"), "status" := Str("queued"), "summary" := Null, "request_revision_id" := Null,
        "policy_revision" := Null, "completed_at" := Null]

  lemma {:induction false} PlainRunEvent(v: View, e: Event)
    requires IsRunEvent(e) && !IsWorkEvent(e) && !IsSubagentEvent(e)
    ensures Written(PLAIN, e) == Some(Updates(e))
    ensures Updates(e) != map[] && TimesOk(Write(v.row, Updates(e))) ==>
              Apply(PLAIN, v, e).Some? && Apply(PLAIN, v, e).value.row == Write(v.row, Updates(e))
  {
    hide CountRows, Updates, TimesOk;
    var u := Updates(e);
    assert CastAll(PLAIN.run, u).value == u;
  }

  /** The writes of the three events. */
  lemma {:induction false} ExampleUpdates(e: Event, k: nat)
    requires k < 3 && e.draft == FAILED_THEN_STARTED[k]
    ensures IsRunEvent(e) && !IsWorkEvent(e) && !IsSubagentEvent(e)
    ensures k == 0 ==> Updates(e) == CREATED_UPDATES
    ensures k == 1 ==> Updates(e) == map["status" := Str("failed"), "completed_at" := Moment(2)]
    ensures k == 2 ==> Updates(e) == map["status" := Str("running"), "started_at" := Moment(3), "completed_at" := Null]
  {
    var t := e.draft.eventType;
    assert t[..4] == "run." && t[..5][0] == 'r' && "work."[0] == 'w';
    assert |t| >= 9 ==> t[..9][0] == 'r' && "subagent."[0] == 's';
  }

  /** Replay starts from the final row, so such a journal, every event of which was appended, cannot
      be rebuilt: the replayed completion is before the final start. */
  lemma {:induction false} RebuildCanAbort() returns (t: RunTables)
    ensures Reached(PLAIN, QUEUED_ROW, 1, t) && |t.events| == 3
    ensures forall k :: 0 <= k < 3 ==> t.events[k].draft == FAILED_THEN_STARTED[k]
    ensures Rebuild(PLAIN, t).None?
  {
    hide Reached, ApplyAll, WriteAll, Rebuild, InOrder, Writes;
    var t0 := RunTables(None, 1, 1, [], Inserted(QUEUED_ROW, 1));
    ReachedStart(PLAIN, QUEUED_ROW, None, 1);
    var t1 := ExampleStep(t0, 0, 1);
    var t2 := ExampleStep(t1, 1, 2);
    t := ExampleStep(t2, 2, 3);
    assert t.events[0] == t.events[..2][..1][0] && t.events[1] == t.events[..2][1];
    RebuildSucceedsIff(PLAIN, QUEUED_ROW, 1, t);
    OutOfOrder(t.events, t.view.row);
  }

  lemma {:induction false} OutOfOrder(events: seq<Event>, row: Columns)
    requires |events| == 3 && forall k :: 0 <= k < 3 ==> events[k].draft == FAILED_THEN_STARTED[k]
    requires row.Keys == ROW_COLUMNS && row["started_at"] == Moment(3)
    ensures !InOrder(Writes(PLAIN, events), row)
  {
    hide Apply, Updates, CastAll, Written, IsRunEvent, IsWorkEvent, IsSubagentEvent;
    ExampleUpdates(events[0], 0);
    ExampleUpdates(events[1], 1);
    var ws := Writes(PLAIN, events);
    var v := Inserted(QUEUED_ROW, 1);
    PlainRunEvent(v, events[0]);
    PlainRunEvent(v, events[1]);
    assert ws[0] == Updates(events[0]) && ws[1] == Updates(events[1]);
    assert SetsAlone(ws, 1, "completed_at", "started_at");
    assert Late(row["started_at"], ws[1]["completed_at"]);
  }

  lemma {:induction false} ExampleStep(t: RunTables, k: nat, at: int) returns (t': RunTables)
    requires Reached(PLAIN, QUEUED_ROW, 1, t) && k < 3 && |t.events| == k
    requires k > 0 ==> t.view.row.Keys == ROW_COLUMNS && t.view.row["started_at"] == Null
    requires k == 0 ==> t.view.row == QUEUED_ROW
    ensures Reached(PLAIN, QUEUED_ROW, 1, t') && |t'.events| == k + 1
    ensures t'.events[..k] == t.events && t'.events[k].draft == FAILED_THEN_STARTED[k] && t'.events[k].createdAt == at
    ensures t'.view.row.Keys == ROW_COLUMNS
    ensures t'.view.row["started_at"] == if k == 2 then Moment(3) else Null
  {
    hide Reached, Apply, Write, TimesOk;
    var draft := FAILED_THEN_STARTED[k];
    t' := Append(PLAIN, QUEUED_RUN.runId, t, draft, at).1;
    AppendReached(PLAIN, QUEUED_ROW, 1, QUEUED_RUN.runId, t, draft, at);
    var e := Event(QUEUED_RUN.runId, t.nextSequence, t.parentRunId, draft, at);
    ExampleUpdates(e, k);
    PlainRunEvent(t.view.(rowUpdatedAt := at), e);
    ExampleTimes(t.view.row, Updates(e), k);
  }

  lemma {:induction false} ExampleTimes(row: Columns, u: Columns, k: nat)
    requires row.Keys == ROW_COLUMNS && row["started_at"] == Null && k < 3
    requires k == 0 ==> u == CREATED_UPDATES
    requires k == 1 ==> u == map["status" := Str("failed"), "completed_at" := Moment(2)]
    requires k == 2 ==> u == map["status" := Str("running"), "started_at" := Moment(3), "completed_at" := Null]
    ensures TimesOk(Write(row, u)) && Write(row, u).Keys == ROW_COLUMNS && u != map[]
    ensures Write(row, u)["started_at"] == if k == 2 then Moment(3) else Null
  {
    assert "status" in u;
  }

  // ----- A rebuild that moves the row's time -----

  const ITEM_STARTED :=
    Draft("work.started", "running", "Item started",
          map["phase" := Str("integration"), "kind" := Str("work"),
              "label" := Str("Item")], Some("item"), None, NO_DETAILS)

  lemma {:induction false} PlainWorkEvent(v: View, e: Event)
    requires e.draft == ITEM_STARTED
    ensures Written(PLAIN, e) == Some(map[])
    ensures Apply(PLAIN, v, e).Some? && Apply(PLAIN, v, e).value.rowUpdatedAt == v.rowUpdatedAt
  {
    hide CountRows, Upsert, WorkValues;
    var t := e.draft.eventType;
    assert t[..5] == "work." && t[..4][0] == 'w' && "run."[0] == 'r';
    assert !IsSpace("integration"[0]) && !IsSpace("work"[0]) && !IsSpace("Item"[0]);
    assert CastAll(PLAIN.work, WorkValues(e, Memory.RowAt(v.work, "item"))).Some?;
  }

  /** The run was created at 1 and its item started at 2: the row says 2, and after a rebuild 1. */
  lemma {:induction false} RebuildMovesRowTime() returns (t: RunTables)
    ensures Reached(PLAIN, QUEUED_ROW, 1, t) && |t.events| == 2
    ensures t.events[0].draft == CREATED && t.events[1].draft == ITEM_STARTED
    ensures t.view.rowUpdatedAt == 2 && Rebuild(PLAIN, t) == Some(t.view.(rowUpdatedAt := 1))
  {
    hide Reached, ApplyAll, WriteAll, Rebuild, InOrder, Writes, Apply, Written;
    var t0 := RunTables(None, 1, 1, [], Inserted(QUEUED_ROW, 1));
    ReachedStart(PLAIN, QUEUED_ROW, None, 1);
    var t1 := ExampleStep(t0, 0, 1);
    t := Append(PLAIN, QUEUED_RUN.runId, t1, ITEM_STARTED, 2).1;
    AppendReached(PLAIN, QUEUED_ROW, 1, QUEUED_RUN.runId, t1, ITEM_STARTED, 2);
    var e := Event(QUEUED_RUN.runId, t1.nextSequence, t1.parentRunId, ITEM_STARTED, 2);
    PlainWorkEvent(t1.view.(rowUpdatedAt := 2), e);
    assert t.events == t1.events + [e];
    RebuildSucceedsIff(PLAIN, QUEUED_ROW, 1, t);
    QuietJournal(t1.events[0], e, t.view.row, 2);
    assert t.events == [t1.events[0], e];
    RebuildIsIdentity(PLAIN, QUEUED_ROW, 1, t);
  }

  lemma {:induction false} QuietJournal(created: Event, started: Event, row: Columns, otherwise: int)
    requires created.draft == CREATED && created.createdAt == 1 && started.draft == ITEM_STARTED
    requires "started_at" in row && "completed_at" in row
    ensures InOrder(Writes(PLAIN, [created, started]), row)
    ensures LastRunUpdate(PLAIN, [created, started], otherwise) == 1
  {
    hide Apply, Updates, CastAll, Written, IsRunEvent, IsWorkEvent, IsSubagentEvent;
    ExampleUpdates(created, 0);
    PlainRunEvent(Inserted(QUEUED_ROW, 1), created);
    PlainWorkEvent(Inserted(QUEUED_ROW, 1), started);
    var ws := Writes(PLAIN, [created, started]);
    assert ws[0] == CREATED_UPDATES && ws[1] == map[];
    assert [created, started][..1] == [created];
    assert "status" in CREATED_UPDATES;
  }

  // ----- The store -----

  class PostgresEventStore {
    const env: Env
    var tables: map<Uuid, RunTables>

    constructor (env: Env)
      ensures this.env == env && tables == map[]
    {
      this.env := env;
      tables := map[];
    }

    /** `append_event`: one transaction. */
    method AppendEvent(runId: Uuid, draft: Draft, at: int) returns (outcome: Option<AppendOutcome>)
      modifies this
      ensures outcome.None? <==> runId !in old(tables)
      ensures tables
           == if runId in old(tables) then old(tables)[runId := Append(env, runId, old(tables)[runId], draft, at).1]
              else old(tables)
      ensures runId in old(tables) ==> outcome == Some(Append(env, runId, old(tables)[runId], draft, at).0)
    {
      if runId !in tables { return None; }
      var t := tables[runId];
      if draft.idempotencyKey.Some? {
        var existing := FindKey(t.events, draft.idempotencyKey.value);
        if existing.Some? { return Some(Duplicate(existing.value)); }
      }
      var e := Event(runId, t.nextSequence, t.parentRunId, draft, at);
      var view := Apply(env, t.view.(rowUpdatedAt := at), e);
      if view.None? { return Some(Aborted); }
      tables := tables[runId := t.(nextSequence := t.nextSequence + 1, events := t.events + [e], view := view.value)];
      outcome := Some(Stored(e));
    }

    /** `rebuild_projections`: the journal is replayed row by row over the run's final row; an aborted
        rebuild changes nothing, and no rebuild touches another run. */
    method RebuildProjections(runId: Uuid) returns (rebuilt: Option<View>)
      modifies this
      ensures runId !in old(tables) ==> rebuilt.None?
      ensures runId in old(tables) ==> rebuilt == Rebuild(env, old(tables)[runId])
      ensures tables
           == if rebuilt.Some? then old(tables)[runId := old(tables)[runId].(view := rebuilt.value)] else old(tables)
    {
      if runId !in tables { return None; }
      var t := tables[runId];
      var v := RebuildStart(t);
      for k := 0 to |t.events|
        invariant ApplyAll(env, RebuildStart(t), t.events[..k]) == Some(v)
        invariant tables == old(tables)
      {
        assert t.events[..k + 1][..k] == t.events[..k];
        var next := Apply(env, v, t.events[k]);
        if next.None? {
          ApplyAllStops(env, RebuildStart(t), t.events, k);
          return None;
        }
        v := next.value;
      }
      assert t.events[..|t.events|] == t.events;
      tables := tables[runId := t.(view := v)];
      rebuilt := Some(v);
    }
  }

  lemma {:induction false} ApplyAllStops(env: Env, v: View, events: seq<Event>, k: nat)
    requires k < |events| && ApplyAll(env, v, events[..k + 1]).None?
    ensures ApplyAll(env, v, events).None?
  {
    if k + 1 < |events| {
      assert events[..|events| - 1][..k + 1] == events[..k + 1];
      ApplyAllStops(env, v, events[..|events| - 1], k);
    } else {
      assert events[..k + 1] == events;
    }
  }
}
