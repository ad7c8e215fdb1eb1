/** The PostgreSQL event store: rows, incremental projections and their rebuild
    (persistence/postgres.py:256-347, 381-707, 789-850). Tables are kept per run. */
module PostgresStore {
  import opened Wrappers
  import opened Text
  import opened EventJournal
  import opened ColumnReplay
  import Memory = MemoryStore

  // ----- Rows -----

  /** What PostgreSQL makes of a value for a column (casts and single-column checks), by table; None
      aborts the transaction. `workCheck` and `subagentCheck` are the checks over whole rows. */
  datatype Env = Env(
    run: (string, Value) -> Option<Value>, work: (string, Value) -> Option<Value>,
    subagent: (string, Value) -> Option<Value>,
    workCheck: Columns -> bool, subagentCheck: Columns -> bool, uuid: Value -> Option<Uuid>)

  datatype Counts = Counts(completed: nat, total: nat, activeSubagents: nat, blockers: nat)

  /** Everything an event can change: the columns of the run's row, its projection row, and the work
      and subagent projections. */
  datatype View = View(
    row: Columns, rowUpdatedAt: int, columns: Columns, counts: Counts, eventCount: nat, lastSequence: nat,
    updatedAt: int,
    work: map<Uuid, Memory.Row>, subagents: map<Uuid, Memory.Row>)

  const ROW_COLUMNS := {"title", "status", "summary", "request_revision_id", "policy_revision", "started_at",
                        "completed_at"}
  const RUN_COLUMNS := ROW_COLUMNS + {"active_phase"}
  const ACTIVE := {"queued", "running", "recovering"}

  predicate Active(value: Value) {
    value.Str? && value.text in ACTIVE
  }

  // ----- Run events: lines 362-487 -----

  /** The columns a run event sets, before PostgreSQL sees them. */
  function Updates(e: Event): Columns {
    var given := map name | name in RUN_COLUMNS && name in e.draft.payload :: e.draft.payload[name];
    var updates :=
      if e.draft.eventType == "run.status_changed" && "status" !in given then given["status" := Str(e.draft.status)]
      else given;
    if "status" in updates && Active(updates["status"]) then updates["completed_at" := Null] else updates
  }

  function CastAll(convert: (string, Value) -> Option<Value>, values: Columns): (cast: Option<Columns>)
    ensures cast.Some? ==> cast.value.Keys == values.Keys
  {
    if forall name :: name in values ==> convert(name, values[name]).Some? then
      Some(map name | name in values :: convert(name, values[name]).value)
    else None
  }

  /** What the event writes to the run's columns; events of other kinds write nothing. */
  function Written(env: Env, e: Event): Option<Columns> {
    if IsRunEvent(e) then CastAll(env.run, Updates(e)) else Some(map[])
  }

  /** `_apply_run_event`: both rows, and the check of sentinel.runs. */
  function ApplyRun(env: Env, v: View, e: Event): Option<View> {
    match Written(env, e)
    case None => None
    case Some(w) =>
      if w == map[] then Some(v)
      else if !TimesOk(Write(v.row, w)) then None
      else Some(v.(row := Write(v.row, w), rowUpdatedAt := e.createdAt, columns := Write(v.columns, w),
                   updatedAt := e.createdAt))
  }

  // ----- Work and subagent events: lines 489-642 -----

  const WORK_VALUES := {"parent_work_item_id", "subagent_id", "phase", "kind", "label", "position", "completed_units",
                        "total_units", "blocker"}
  const SUBAGENT_VALUES := {"parent_subagent_id", "child_run_id", "label", "goal", "tool_scope", "started_at",
                            "completed_at"}

  predicate FirstFields(e: Event, names: set<string>) {
    forall name :: name in names ==>
          name in e.draft.payload && e.draft.payload[name].Str? && !IsBlank(e.draft.payload[name].text)
  }

  function StatusOf(e: Event): Value {
    if "status" in e.draft.payload then e.draft.payload["status"] else Str(e.draft.status)
  }

  function WorkValues(e: Event, previous: Option<Memory.Row>): Columns {
    (map name | name in WORK_VALUES :: Memory.FieldValue(e, previous, name,
                                                         if name == "position" then Num(0) else Null))
      ["status" := StatusOf(e)]
  }

  function SubagentValues(e: Event, previous: Option<Memory.Row>): Columns {
    var values := map name | name in SUBAGENT_VALUES ::
          Memory.FieldValue(e, previous, name, if name == "tool_scope" then Items([]) else Null);
    var timed := if Active(StatusOf(e)) then values["completed_at" := Null] else values;
    timed["status" := StatusOf(e)]
  }

  /** INSERT ... ON CONFLICT DO UPDATE ... WHERE last_sequence < EXCLUDED.last_sequence. */
  function Upsert(rows: map<Uuid, Memory.Row>, id: Uuid, fields: Columns, e: Event): map<Uuid, Memory.Row> {
    if id in rows then
      if rows[id].lastSequence < e.sequence then
        rows[id := Memory.Row(fields, e.sequence, rows[id].createdAt, e.createdAt)] else rows
    else rows[id := Memory.Row(fields, e.sequence, e.createdAt, e.createdAt)]
  }

  function ApplyWork(env: Env, work: map<Uuid, Memory.Row>, e: Event): Option<map<Uuid, Memory.Row>> {
    if e.draft.workItemId.None? then None
    else
      var id := e.draft.workItemId.value;
      if id !in work && !FirstFields(e, {"phase", "kind", "label"}) then None
      else
        match CastAll(env.work, WorkValues(e, Memory.RowAt(work, id)))
        case None => None
        case Some(fields) => if env.workCheck(fields) then Some(Upsert(work, id, fields, e)) else None
  }

  function ApplySubagent(env: Env, subagents: map<Uuid, Memory.Row>, e: Event): Option<map<Uuid, Memory.Row>> {
    if "subagent_id" !in e.draft.payload || e.draft.payload["subagent_id"] == Null then None
    else
      match env.uuid(e.draft.payload["subagent_id"])
      case None => None
      case Some(id) =>
        if id !in subagents && !FirstFields(e, {"label", "goal"}) then None
        else
          match CastAll(env.subagent, SubagentValues(e, Memory.RowAt(subagents, id)))
          case None => None
          case Some(fields) => if env.subagentCheck(fields) then Some(Upsert(subagents, id, fields, e)) else None
  }

  // ----- One event -----

  predicate Has(row: Memory.Row, name: string, value: Value) {
    name in row.fields && row.fields[name] == value
  }

  function CountRows(work: map<Uuid, Memory.Row>, subagents: map<Uuid, Memory.Row>): Counts {
    Counts(|set id | id in work && Has(work[id], "status", Str("completed"))|, |work|,
           |set id | id in subagents && "status" in subagents[id].fields && Active(subagents[id].fields["status"])|,
           |set id | id in work && (Has(work[id], "status", Str("blocked")) || !Has(work[id], "blocker", Null))|)
  }

  /** `_refresh_run_counts`. */
  function Refresh(v: View, e: Event): View {
    v.(counts := CountRows(v.work, v.subagents), eventCount := e.sequence, lastSequence := e.sequence,
       updatedAt := e.createdAt)
  }

  /** The work and subagent projections after an event. */
  function ApplyRows(env: Env, v: View, e: Event): Option<View> {
    if IsWorkEvent(e) then
      match ApplyWork(env, v.work, e)
      case None => None
      case Some(work) => Some(v.(work := work))
    else if IsSubagentEvent(e) then
      match ApplySubagent(env, v.subagents, e)
      case None => None
      case Some(subagents) => Some(v.(subagents := subagents))
    else Some(v)
  }

  /** `_apply_projection`; None aborts the transaction. */
  function Apply(env: Env, v: View, e: Event): Option<View> {
    match ApplyRun(env, v, e)
    case None => None
    case Some(v1) =>
      match ApplyRows(env, v1, e)
      case None => None
      case Some(v2) => Some(Refresh(v2, e))
  }

  function ApplyAll(env: Env, v: View, events: seq<Event>): Option<View> {
    if events == [] then Some(v)
    else
      match ApplyAll(env, v, events[..|events| - 1])
      case None => None
      case Some(v') => Apply(env, v', events[|events| - 1])
  }

  // ----- A run's tables -----

  datatype RunTables = RunTables(parentRunId: Option<Uuid>, createdAt: int, nextSequence: nat, events: seq<Event>,
                                 view: View)

  /** The rows `create_run` inserts before it journals `run.created`. */
  function Inserted(row: Columns, at: int): View {
    View(row, at, row["active_phase" := Null], Counts(0, 0, 0, 0), 0, 0, at, map[], map[])
  }

  datatype AppendOutcome = Stored(event: Event) | Duplicate(event: Event) | Aborted

  /** `_append_locked`: `at` is `clock_timestamp()`. An abort leaves everything as it was. */
  function Append(env: Env, runId: Uuid, t: RunTables, draft: Draft, at: int): (AppendOutcome, RunTables) {
    if draft.idempotencyKey.Some? && FindKey(t.events, draft.idempotencyKey.value).Some? then
      (Duplicate(FindKey(t.events, draft.idempotencyKey.value).value), t)
    else
      var e := Event(runId, t.nextSequence, t.parentRunId, draft, at);
      match Apply(env, t.view.(rowUpdatedAt := at), e)
      case None => (Aborted, t)
      case Some(v) => (Stored(e), t.(nextSequence := t.nextSequence + 1, events := t.events + [e], view := v))
  }

  /** The rows a rebuild starts from: the run's own row, already in its final state. */
  function RebuildStart(t: RunTables): View {
    View(t.view.row, t.view.rowUpdatedAt, t.view.row["active_phase" := Null], Counts(0, 0, 0, 0), 0, 0, t.createdAt,
         map[], map[])
  }

  /** `rebuild_projections`: delete the projections and replay the journal. */
  function Rebuild(env: Env, t: RunTables): Option<View> {
    ApplyAll(env, RebuildStart(t), t.events)
  }

  // ----- The columns of a fold -----

  function Writes(env: Env, events: seq<Event>): (ws: seq<Columns>)
    ensures |ws| == |events|
  {
    seq(|events|, k requires 0 <= k < |events| => match Written(env, events[k]) case Some(w) => w case None => map[])
  }

  lemma {:induction false} WritesPrefix(env: Env, events: seq<Event>, k: nat)
    requires k <= |events|
    ensures Writes(env, events[..k]) == Writes(env, events)[..k]
  {}

  lemma {:induction false} WriteNothing(columns: Columns)
    ensures Write(columns, map[]) == columns
  {}

  /** What an applied event does to the columns. */
  lemma {:induction false} ApplyColumns(env: Env, v: View, e: Event)
    requires Apply(env, v, e).Some? && TimesOk(v.row)
    ensures Written(env, e).Some?
    ensures var v' := Apply(env, v, e).value;
            && v'.row == Write(v.row, Written(env, e).value) && v'.columns == Write(v.columns, Written(env, e).value)
            && TimesOk(v'.row) && v'.updatedAt == e.createdAt && v'.eventCount == v'.lastSequence == e.sequence
            && v'.counts == CountRows(v'.work, v'.subagents)
            && v'.rowUpdatedAt == if Written(env, e).value == map[] then v.rowUpdatedAt else e.createdAt
  {
    hide ApplyWork, ApplySubagent, CountRows, TimesOk, Write, Written;
    WriteNothing(v.row);
    WriteNothing(v.columns);
  }

  /** The columns after a fold are the writes in order, and the check held throughout. */
  lemma {:induction false} FoldColumns(env: Env, v: View, events: seq<Event>)
    requires ApplyAll(env, v, events).Some? && TimesOk(v.row)
    ensures var v' := ApplyAll(env, v, events).value;
            && v'.row == WriteAll(v.row, Writes(env, events)) && v'.columns == WriteAll(v.columns, Writes(env, events))
            && TimesOk(v'.row)
    ensures AlwaysOk(v.row, Writes(env, events))
  {
    hide Apply, TimesOk, Write, Written;
    var ws := Writes(env, events);
    if events == [] {
      assert ws[..0] == [];
    } else {
      var n := |events| - 1;
      FoldColumns(env, v, events[..n]);
      WritesPrefix(env, events, n);
      ApplyColumns(env, ApplyAll(env, v, events[..n]).value, events[n]);
      assert TimesOk(WriteAll(v.row, ws));
      forall k | 0 <= k <= |ws| ensures TimesOk(WriteAll(v.row, ws[..k])) {
        if k == |ws| { assert ws[..k] == ws; } else { assert ws[..n][..k] == ws[..k]; }
      }
    }
  }

  // ----- The replay beside the incremental run -----

  /** Two views that agree on everything a work or subagent event looks at. */
  predicate SameRows(a: View, b: View) {
    a.work == b.work && a.subagents == b.subagents
  }

  predicate SameCounts(a: View, b: View) {
    a.counts == b.counts && a.eventCount == b.eventCount && a.lastSequence == b.lastSequence
    && a.updatedAt == b.updatedAt
  }

  /** An event that was applied incrementally is refused in a replay only by the check on the times. */
  lemma {:induction false} ApplyBeside(env: Env, a: View, b: View, e: Event)
    requires SameRows(a, b) && Apply(env, a, e).Some? && TimesOk(b.row)
    ensures Written(env, e).Some?
    ensures Apply(env, b, e).Some? <==> TimesOk(Write(b.row, Written(env, e).value))
    ensures Apply(env, b, e).Some? ==>
              var a', b' := Apply(env, a, e).value, Apply(env, b, e).value;
              SameRows(a', b') && SameCounts(a', b')
  {
    hide ApplyRows, CountRows, TimesOk, Write, Written;
    WriteNothing(b.row);
    var a1 := ApplyRun(env, a, e).value;
    if ApplyRun(env, b, e).Some? { RowsBeside(env, a1, ApplyRun(env, b, e).value, e); }
  }

  lemma {:induction false} RowsBeside(env: Env, a: View, b: View, e: Event)
    requires SameRows(a, b)
    ensures ApplyRows(env, a, e).Some? <==> ApplyRows(env, b, e).Some?
    ensures ApplyRows(env, a, e).Some? ==> SameRows(ApplyRows(env, a, e).value, ApplyRows(env, b, e).value)
  {
    hide ApplyWork, ApplySubagent;
  }

  /** The replay runs to the end exactly when the check holds throughout. */
  lemma {:induction false} FoldBeside(env: Env, a: View, b: View, events: seq<Event>)
    requires SameRows(a, b) && ApplyAll(env, a, events).Some? && TimesOk(b.row)
    ensures ApplyAll(env, b, events).Some? <==> AlwaysOk(b.row, Writes(env, events))
    ensures ApplyAll(env, b, events).Some? ==>
              var a', b' := ApplyAll(env, a, events).value, ApplyAll(env, b, events).value;
              SameRows(a', b') && (events != [] ==> SameCounts(a', b'))
  {
    hide Apply, TimesOk, Write, Written, SameRows, Writes;
    var ws := Writes(env, events);
    if events == [] {
      assert ws[..0] == [];
    } else {
      var n := |events| - 1;
      FoldBeside(env, a, b, events[..n]);
      WritesPrefix(env, events, n);
      AlwaysOkStep(b.row, ws, n);
      if ApplyAll(env, b, events[..n]).Some? {
        var a1, b1 := ApplyAll(env, a, events[..n]).value, ApplyAll(env, b, events[..n]).value;
        FoldColumns(env, b, events[..n]);
        ApplyBeside(env, a1, b1, events[n]);
        LastOfWrites(env, events);
      }
    }
  }

  lemma LastOfWrites(env: Env, events: seq<Event>)
    requires events != [] && Written(env, events[|events| - 1]).Some?
    ensures Writes(env, events)[|events| - 1] == Written(env, events[|events| - 1]).value
  {}

  lemma {:induction false} AlwaysOkStep(columns: Columns, ws: seq<Columns>, n: nat)
    requires |ws| == n + 1
    ensures AlwaysOk(columns, ws) <==> AlwaysOk(columns, ws[..n]) && TimesOk(Write(WriteAll(columns, ws[..n]), ws[n]))
  {
    assert ws[..n + 1] == ws;
    assert WriteAll(columns, ws) == Write(WriteAll(columns, ws[..n]), ws[n]);
    forall k | 0 <= k <= n ensures ws[..n][..k] == ws[..k] {}
    hide TimesOk, Write, WriteAll;
    if AlwaysOk(columns, ws) {
      forall k | 0 <= k <= n
        ensures TimesOk(WriteAll(columns, ws[..n][..k]))
      {
        assert TimesOk(WriteAll(columns, ws[..k]));
      }
      assert TimesOk(WriteAll(columns, ws[..n + 1]));
    }
    if AlwaysOk(columns, ws[..n]) && TimesOk(Write(WriteAll(columns, ws[..n]), ws[n])) {
      forall k | 0 <= k <= n + 1 ensures TimesOk(WriteAll(columns, ws[..k])) {
        if k <= n { assert TimesOk(WriteAll(columns, ws[..n][..k])); }
      }
    }
  }

  // ----- Runs reached by successful appends -----

  /** A row `create_run` may insert: no times yet. */
  predicate NewRow(row: Columns) {
    row.Keys == ROW_COLUMNS && row["started_at"] == Null && row["completed_at"] == Null
  }

  /** The tables come from a new row by successful appends. */
  ghost predicate Reached(env: Env, row: Columns, at: int, t: RunTables) {
    && NewRow(row) && t.createdAt == at && t.nextSequence == |t.events| + 1
    && Numbered(t.events) && UniqueKeys(t.events)
    && (t.events != [] ==> t.view.rowUpdatedAt == t.events[|t.events| - 1].createdAt)
    && exists v ::
          ApplyAll(env, Inserted(row, at), t.events) == Some(v) && t.view == v.(rowUpdatedAt := t.view.rowUpdatedAt)
  }

  predicate SameButRowTime(a: View, b: View) {
    a == b.(rowUpdatedAt := a.rowUpdatedAt)
  }

  lemma {:induction false} ApplyIgnoresRowTime(env: Env, a: View, b: View, e: Event)
    requires SameButRowTime(a, b)
    ensures Apply(env, a, e).Some? <==> Apply(env, b, e).Some?
    ensures Apply(env, a, e).Some? ==> SameButRowTime(Apply(env, a, e).value, Apply(env, b, e).value)
  {
    hide ApplyWork, ApplySubagent, CountRows, TimesOk, Write, Written;
  }

  /** Every append stamps the run's row, whatever it writes. */
  lemma {:induction false} ApplyStamps(env: Env, v: View, e: Event)
    requires Apply(env, v, e).Some? && v.rowUpdatedAt == e.createdAt
    ensures Apply(env, v, e).value.rowUpdatedAt == e.createdAt
  {
    hide ApplyWork, ApplySubagent, CountRows, TimesOk, Write, Written;
  }

  lemma {:induction false} ApplyAllStep(env: Env, v: View, events: seq<Event>, e: Event)
    requires ApplyAll(env, v, events).Some?
    ensures ApplyAll(env, v, events + [e]) == Apply(env, ApplyAll(env, v, events).value, e)
  {
    assert (events + [e])[..|events + [e]| - 1] == events;
  }

  lemma {:induction false} ReachedStart(env: Env, row: Columns, parentRunId: Option<Uuid>, at: int)
    requires NewRow(row)
    ensures Reached(env, row, at, RunTables(parentRunId, at, 1, [], Inserted(row, at)))
  {
    assert ApplyAll(env, Inserted(row, at), []) == Some(Inserted(row, at));
  }

  /** A successful append keeps the journal numbered without a gap and its keys unique, and the tables
      the fold of the journal; a duplicate or an abort changes nothing. */
  lemma {:induction false} AppendReached(env: Env, row: Columns, at: int, runId: Uuid, t: RunTables, draft: Draft,
                                         now: int)
    requires Reached(env, row, at, t)
    ensures Reached(env, row, at, Append(env, runId, t, draft, now).1)
    ensures !Append(env, runId, t, draft, now).0.Stored? ==> Append(env, runId, t, draft, now).1 == t
  {
    hide Apply, FindKey, Inserted, NewRow, Numbered, UniqueKeys;
    var (outcome, t') := Append(env, runId, t, draft, now);
    if outcome.Stored? {
      var v :| ApplyAll(env, Inserted(row, at), t.events) == Some(v)
               && t.view == v.(rowUpdatedAt := t.view.rowUpdatedAt);
      StoredIsJournaled(t.events, outcome.event);
      ApplyAllStep(env, Inserted(row, at), t.events, outcome.event);
      ApplyIgnoresRowTime(env, t.view.(rowUpdatedAt := now), v, outcome.event);
      ApplyStamps(env, t.view.(rowUpdatedAt := now), outcome.event);
    }
  }

  lemma StoredIsJournaled(events: seq<Event>, e: Event)
    requires Numbered(events) && UniqueKeys(events) && e.sequence == |events| + 1
    requires e.draft.idempotencyKey.Some? ==> FindKey(events, e.draft.idempotencyKey.value).None?
    ensures Numbered(events + [e]) && UniqueKeys(events + [e])
  {}

  // ----- The theorems -----

  /** The projection's columns, replayed from the final row. */
  lemma {:induction false} ProjectionColumns(row: Columns, ws: seq<Columns>)
    requires row.Keys == ROW_COLUMNS
    ensures WriteAll(WriteAll(row, ws)["active_phase" := Null], ws) == WriteAll(row["active_phase" := Null], ws)
  {
    var start, final := row["active_phase" := Null], WriteAll(row, ws)["active_phase" := Null];
    forall name | name in start ensures WriteAll(final, ws)[name] == WriteAll(start, ws)[name] {
      WriteAllIsLast(final, ws, name);
      WriteAllIsLast(start, ws, name);
      if name in row { WriteAllIsLast(row, ws, name); }
    }
  }

  /** The time of the last event that updated the run's row. */
  function LastRunUpdate(env: Env, events: seq<Event>, otherwise: int): int {
    if events == [] then otherwise
    else if Written(env, events[|events| - 1]).Some? && Written(env, events[|events| - 1]).value != map[] then
      events[|events| - 1].createdAt
    else LastRunUpdate(env, events[..|events| - 1], otherwise)
  }

  lemma {:induction false} FoldRowTime(env: Env, v: View, events: seq<Event>)
    requires ApplyAll(env, v, events).Some? && TimesOk(v.row)
    ensures ApplyAll(env, v, events).value.rowUpdatedAt == LastRunUpdate(env, events, v.rowUpdatedAt)
  {
    hide Apply, Written, TimesOk;
    if events != [] {
      FoldRowTime(env, v, events[..|events| - 1]);
      FoldColumns(env, v, events[..|events| - 1]);
      ApplyColumns(env, ApplyAll(env, v, events[..|events| - 1]).value, events[|events| - 1]);
    }
  }

  lemma {:induction false} ReachedFacts(env: Env, row: Columns, at: int, t: RunTables) returns (v: View)
    requires Reached(env, row, at, t)
    ensures NewRow(row) && TimesOk(row) && t.createdAt == at
    ensures ApplyAll(env, Inserted(row, at), t.events) == Some(v) && SameButRowTime(t.view, v)
    ensures t.view.row == WriteAll(row, Writes(env, t.events)) && TimesOk(t.view.row)
    ensures AlwaysOk(row, Writes(env, t.events))
    ensures t.view.columns == WriteAll(row["active_phase" := Null], Writes(env, t.events))
  {
    v :| ApplyAll(env, Inserted(row, at), t.events) == Some(v) && t.view == v.(rowUpdatedAt := t.view.rowUpdatedAt);
    hide ApplyAll, WriteAll;
    FoldColumns(env, Inserted(row, at), t.events);
  }

  /** A rebuild of a journal of successful appends runs to the end exactly when the recorded starts and
      completions are in order; otherwise the check of sentinel.runs aborts it. */
  lemma {:induction false} RebuildSucceedsIff(env: Env, row: Columns, at: int, t: RunTables)
    requires Reached(env, row, at, t)
    ensures "started_at" in t.view.row && "completed_at" in t.view.row
    ensures Rebuild(env, t).Some? <==> InOrder(Writes(env, t.events), t.view.row)
  {
    hide Reached, ApplyAll, WriteAll, TimesOk, AlwaysOk, InOrder, Writes;
    var v := ReachedFacts(env, row, at, t);
    FoldBeside(env, Inserted(row, at), RebuildStart(t), t.events);
    ReplayPassesIff(row, Writes(env, t.events));
  }

  /** A rebuild that succeeds gives every row and column back, from the final row on, including the
      cleared `completed_at`; only the run row's `updated_at` becomes the time of the last run event. So it
      changes nothing at all exactly when that is the time of the last event. */
  lemma {:induction false} RebuildIsIdentity(env: Env, row: Columns, at: int, t: RunTables)
    requires Reached(env, row, at, t) && t.events != [] && Rebuild(env, t).Some?
    ensures Rebuild(env, t).value == t.view.(rowUpdatedAt := LastRunUpdate(env, t.events, t.view.rowUpdatedAt))
    ensures Rebuild(env, t).value == t.view
       <==> LastRunUpdate(env, t.events, t.view.rowUpdatedAt) == t.events[|t.events| - 1].createdAt
  {
    assert t.view.rowUpdatedAt == t.events[|t.events| - 1].createdAt;
    hide Reached, ApplyAll, WriteAll, TimesOk, AlwaysOk, Writes, LastRunUpdate;
    var v := ReachedFacts(env, row, at, t);
    var ws := Writes(env, t.events);
    FoldBeside(env, Inserted(row, at), RebuildStart(t), t.events);
    FoldColumns(env, RebuildStart(t), t.events);
    FoldRowTime(env, RebuildStart(t), t.events);
    ReplayIsIdentity(row, ws);
    ProjectionColumns(row, ws);
  }
}
