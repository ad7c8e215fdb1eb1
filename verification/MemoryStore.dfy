/** The in-memory event store and its projections (integration/event_store.py). */
module MemoryStore {
  import opened Wrappers
  import opened Text
  import opened EventJournal

  datatype NewRun = NewRun(runId: Uuid, title: string, status: string, parentRunId: Option<Uuid>,
                           requestRevisionId: Value, policyRevision: Value, summary: Value)

  /** The conversions the projection applies (`UUID(str(v))`, `int(str(v))`, `str(v)`, ...), by field
      name; a raised ValueError is None. `uuid` reads the identifier of a subagent. */
  datatype Env = Env(convert: (string, Value) -> Option<Value>, uuid: Value -> Option<Uuid>)

  datatype StoreError = RunNotFound | RunReused | BlankTitle | InvalidEvent

  /** One projected work item or subagent. */
  datatype Row = Row(fields: map<string, Value>, lastSequence: nat, createdAt: int, updatedAt: int)

  /** A key of `_work` or `_subagents`. */
  datatype Slot = Slot(runId: Uuid, id: Uuid)

  // ----- One event -----

  const WORK_FIELDS := {"parent_work_item_id", "subagent_id", "phase", "kind", "label", "status", "position",
                        "completed_units",
                        "total_units", "blocker"}

  const SUBAGENT_FIELDS := {"parent_subagent_id", "child_run_id", "label", "goal", "status", "tool_scope", "started_at",
                            "completed_at"}

  function WorkDefault(e: Event, name: string): Value {
    if name == "phase" then Str("integration")
    else if name == "kind" then Str("work")
    else if name == "label" then Str(e.draft.summary)
    else if name == "status" then Str(e.draft.status)
    else if name == "position" then Num(0)
    else Null
  }

  function SubagentDefault(e: Event, name: string): Value {
    if name == "label" || name == "goal" then Str(e.draft.summary)
    else if name == "status" then Str(e.draft.status)
    else if name == "tool_scope" then Items([])
    else Null
  }

  /** `value(name, default)`: the payload wins, then the previous projection, then the default. */
  function FieldValue(e: Event, previous: Option<Row>, name: string, default_: Value): Value {
    if name in e.draft.payload then e.draft.payload[name]
    else if previous.Some? && name in previous.value.fields then previous.value.fields[name]
    else default_
  }

  /** The next projection of an item, unless a conversion raises. */
  function NextRow(env: Env, e: Event, previous: Option<Row>, names: set<string>,
                   defaults: string -> Value)
    : Option<Row>
  {
    if forall name :: name in names ==> env.convert(name, FieldValue(e, previous, name, defaults(name))).Some? then
      Some(Row(map name | name in names :: env.convert(name, FieldValue(e, previous, name, defaults(name))).value,
               e.sequence, if previous.Some? then previous.value.createdAt else e.createdAt, e.createdAt))
    else None
  }

  function RowAt(rows: map<Uuid, Row>, id: Uuid): Option<Row> {
    if id in rows then Some(rows[id]) else None
  }

  /** The item a work event describes. */
  function WorkItem(e: Event): Option<Uuid> {
    e.draft.workItemId
  }

  /** The subagent a subagent event describes. */
  function Subagent(env: Env, e: Event): Option<Uuid> {
    if "subagent_id" !in e.draft.payload || e.draft.payload["subagent_id"] == Null then None
    else env.uuid(e.draft.payload["subagent_id"])
  }

  // ----- The projections of one run -----

  datatype Projection = Projection(work: map<Uuid, Row>, subagents: map<Uuid, Row>)

  const NO_ROWS := Projection(map[], map[])

  function ApplyRow(env: Env, e: Event, rows: map<Uuid, Row>, id: Option<Uuid>, names: set<string>,
                    defaults: string -> Value)
    : Option<map<Uuid, Row>>
  {
    if id.None? then None
    else
      match NextRow(env, e, RowAt(rows, id.value), names, defaults)
      case None => None
      case Some(row) => Some(rows[id.value := row])
  }

  /** `_apply_projection` on the rows of the event's run. */
  function Apply(env: Env, p: Projection, e: Event): Option<Projection> {
    if IsWorkEvent(e) then
      match ApplyRow(env, e, p.work, WorkItem(e), WORK_FIELDS, name => WorkDefault(e, name))
      case None => None
      case Some(work) => Some(p.(work := work))
    else if IsSubagentEvent(e) then
      match ApplyRow(env, e, p.subagents, Subagent(env, e), SUBAGENT_FIELDS, name => SubagentDefault(e, name))
      case None => None
      case Some(subagents) => Some(p.(subagents := subagents))
    else Some(p)
  }

  /** What incremental appends leave: an event that cannot be projected changes nothing. */
  function Fold(env: Env, events: seq<Event>): Projection {
    if events == [] then NO_ROWS
    else
      var p := Fold(env, events[..|events| - 1]);
      match Apply(env, p, events[|events| - 1])
      case None => p
      case Some(p') => p'
  }

  /** The k-th event was appended successfully: its projection did not raise. */
  predicate Projects(env: Env, events: seq<Event>, k: nat)
    requires k < |events|
  {
    Apply(env, Fold(env, events[..k]), events[k]).Some?
  }

  /** What a replay from nothing gives: it stops at the first event that cannot be projected. */
  function Replay(env: Env, events: seq<Event>): Option<Projection> {
    if events == [] then Some(NO_ROWS)
    else
      match Replay(env, events[..|events| - 1])
      case None => None
      case Some(p) => Apply(env, p, events[|events| - 1])
  }

  /** A replay gives the incremental projection back, and it succeeds exactly for journals of
      successfully appended events. */
  lemma {:induction false} ReplayIsFold(env: Env, events: seq<Event>)
    ensures Replay(env, events).Some? <==> forall k :: 0 <= k < |events| ==> Projects(env, events, k)
    ensures Replay(env, events).Some? ==> Replay(env, events).value == Fold(env, events)
  {
    hide Apply;
    if events != [] {
      var n := |events| - 1;
      ReplayIsFold(env, events[..n]);
      forall k | 0 <= k < n ensures Projects(env, events, k) <==> Projects(env, events[..n], k) {
        assert events[..n][..k] == events[..k];
      }
      if Replay(env, events).Some? {
        forall k | 0 <= k < |events| ensures Projects(env, events, k) {
          if k < n { assert Projects(env, events[..n], k); }
        }
      }
      if forall k :: 0 <= k < |events| ==> Projects(env, events, k) {
        assert forall k :: 0 <= k < n ==> Projects(env, events[..n], k);
        assert Projects(env, events, n);
      }
    }
  }

  // ----- The store -----

  datatype State = State(
    runs: map<Uuid, NewRun>, events: map<Uuid, seq<Event>>, created: map<Uuid, int>, work: map<Slot, Row>,
    subagents: map<Slot, Row>)

  const EMPTY_STORE := State(map[], map[], map[], map[], map[])

  /** The rows of one run in the shared dictionaries. */
  function RowsOf(rows: map<Slot, Row>, runId: Uuid): map<Uuid, Row> {
    map slot | slot in rows && slot.runId == runId :: slot.id := rows[slot]
  }

  function ProjectionOf(s: State, runId: Uuid): Projection {
    Projection(RowsOf(s.work, runId), RowsOf(s.subagents, runId))
  }

  function SlotRow(rows: map<Slot, Row>, slot: Slot): Option<Row> {
    if slot in rows then Some(rows[slot]) else None
  }

  /** `_apply_projection` on the shared dictionaries; None stands for the raised error. */
  function ApplyTo(env: Env, s: State, e: Event): Option<State> {
    if IsWorkEvent(e) then
      if WorkItem(e).None? then None
      else
        var slot := Slot(e.runId, WorkItem(e).value);
        match NextRow(env, e, SlotRow(s.work, slot), WORK_FIELDS, name => WorkDefault(e, name))
        case None => None
        case Some(row) => Some(s.(work := s.work[slot := row]))
    else if IsSubagentEvent(e) then
      if Subagent(env, e).None? then None
      else
        var slot := Slot(e.runId, Subagent(env, e).value);
        match NextRow(env, e, SlotRow(s.subagents, slot), SUBAGENT_FIELDS, name => SubagentDefault(e, name))
        case None => None
        case Some(row) => Some(s.(subagents := s.subagents[slot := row]))
    else Some(s)
  }

  function NewEvent(s: State, runId: Uuid, draft: Draft, at: int): Event
    requires runId in s.runs && runId in s.events
  {
    Event(runId, |s.events[runId]| + 1, s.runs[runId].parentRunId, draft, at)
  }

  /** `append_event`. An event that cannot be projected raises, but stays in the journal. */
  function Append(env: Env, s: State, runId: Uuid, draft: Draft, at: int): (Result<Event, StoreError>, State)
  {
    if runId !in s.runs || runId !in s.events then (Err(RunNotFound), s)
    else if draft.idempotencyKey.Some? && FindKey(s.events[runId], draft.idempotencyKey.value).Some? then
      (Ok(FindKey(s.events[runId], draft.idempotencyKey.value).value), s)
    else
      var e := NewEvent(s, runId, draft, at);
      var s1 := s.(events := s.events[runId := s.events[runId] + [e]]);
      match ApplyTo(env, s1, e)
      case None => (Err(InvalidEvent), s1)
      case Some(s2) => (Ok(e), s2)
  }

  /** The draft `create_run` journals first. */
  function CreatedDraft(run: NewRun, details: Details): Draft {
    Draft("run.created", run.status, "Created run: " + run.title,
          map["title" := Str(run.title), "status" := Str(run.status), "summary" := run.summary,
              "request_revision_id" := run.requestRevisionId, "policy_revision" := run.policyRevision],
          None, Some("run.created"), details)
  }

  function CreateRun(env: Env, s: State, run: NewRun, details: Details, at: int): (Result<Event, StoreError>, State)
    requires run.runId in s.runs ==> run.runId in s.events && s.events[run.runId] != []
  {
    if run.runId in s.runs then
      if s.runs[run.runId] != run then (Err(RunReused), s) else (Ok(s.events[run.runId][0]), s)
    else if IsBlank(run.title) then (Err(BlankTitle), s)
    else
      var s1 := s.(runs := s.runs[run.runId := run], events := s.events[run.runId := []],
                   created := s.created[run.runId := at]);
      Append(env, s1, run.runId, CreatedDraft(run, details), at)
  }

  // ----- What every operation keeps -----

  ghost predicate JournalOk(env: Env, runId: Uuid, events: seq<Event>, p: Projection) {
    && Numbered(events) && UniqueKeys(events)
    && (forall k :: 0 <= k < |events| ==> events[k].runId == runId)
    && p == Fold(env, events)
  }

  /** Every run's projection is the fold of its journal, and only runs have rows. */
  ghost predicate JournalsOk(env: Env, s: State) {
    && s.runs.Keys == s.events.Keys == s.created.Keys
    && (forall runId :: runId in s.events ==> JournalOk(env, runId, s.events[runId], ProjectionOf(s, runId)))
    && (forall slot :: slot in s.work ==> slot.runId in s.runs)
    && (forall slot :: slot in s.subagents ==> slot.runId in s.runs)
  }

  ghost predicate StoreInv(env: Env, s: State) {
    JournalsOk(env, s) && forall runId :: runId in s.events ==> s.events[runId] != []
  }

  lemma {:induction false} PutRow(rows: map<Slot, Row>, slot: Slot, row: Row)
    ensures RowsOf(rows[slot := row], slot.runId) == RowsOf(rows, slot.runId)[slot.id := row]
    ensures forall runId :: runId != slot.runId ==> RowsOf(rows[slot := row], runId) == RowsOf(rows, runId)
  {
    var rows' := rows[slot := row];
    assert forall id :: id in RowsOf(rows', slot.runId) <==> Slot(slot.runId, id) in rows';
    assert forall id :: id in RowsOf(rows, slot.runId) <==> Slot(slot.runId, id) in rows;
    forall runId | runId != slot.runId ensures RowsOf(rows', runId) == RowsOf(rows, runId) {
      assert forall id :: id in RowsOf(rows', runId) <==> Slot(runId, id) in rows';
      assert forall id :: id in RowsOf(rows, runId) <==> Slot(runId, id) in rows;
    }
  }

  lemma SlotRowIs(rows: map<Slot, Row>, slot: Slot)
    ensures SlotRow(rows, slot) == RowAt(RowsOf(rows, slot.runId), slot.id)
  {
    assert slot in rows <==> slot.id in RowsOf(rows, slot.runId);
  }

  /** Projecting an event works on the rows of its own run, and on no others. */
  lemma {:induction false} ApplyToIsLocal(env: Env, s: State, e: Event)
    ensures ApplyTo(env, s, e).Some? <==> Apply(env, ProjectionOf(s, e.runId), e).Some?
    ensures ApplyTo(env, s, e).Some? ==>
              var s' := ApplyTo(env, s, e).value;
              && ProjectionOf(s', e.runId) == Apply(env, ProjectionOf(s, e.runId), e).value
              && (forall runId :: runId != e.runId ==> ProjectionOf(s', runId) == ProjectionOf(s, runId))
              && s'.runs == s.runs && s'.events == s.events && s'.created == s.created
              && (forall slot :: slot in s'.work ==> slot in s.work || slot.runId == e.runId)
              && (forall slot :: slot in s'.subagents ==> slot in s.subagents || slot.runId == e.runId)
  {
    hide NextRow, RowsOf;
    if IsWorkEvent(e) {
      if WorkItem(e).Some? {
        var slot := Slot(e.runId, WorkItem(e).value);
        SlotRowIs(s.work, slot);
        var next := NextRow(env, e, SlotRow(s.work, slot), WORK_FIELDS, name => WorkDefault(e, name));
        if next.Some? { PutRow(s.work, slot, next.value); }
      }
    } else if IsSubagentEvent(e) {
      if Subagent(env, e).Some? {
        var slot := Slot(e.runId, Subagent(env, e).value);
        SlotRowIs(s.subagents, slot);
        var next := NextRow(env, e, SlotRow(s.subagents, slot), SUBAGENT_FIELDS, name => SubagentDefault(e, name));
        if next.Some? { PutRow(s.subagents, slot, next.value); }
      }
    }
  }

  lemma {:induction false} FoldStep(env: Env, events: seq<Event>, e: Event)
    ensures Fold(env, events + [e])
         == match Apply(env, Fold(env, events), e) case None => Fold(env, events) case Some(p) => p
  {
    assert (events + [e])[..|events + [e]| - 1] == events;
  }

  /** The journal of the run after an append. */
  lemma {:induction false} AppendedOk(env: Env, events: seq<Event>, p: Projection, e: Event)
    requires JournalOk(env, e.runId, events, p) && e.sequence == |events| + 1
    requires e.draft.idempotencyKey.Some? ==> FindKey(events, e.draft.idempotencyKey.value).None?
    ensures JournalOk(env, e.runId, events + [e], match Apply(env, p, e) case None => p case Some(p') => p')
  {
    hide Apply;
    FoldStep(env, events, e);
  }

  lemma {:induction false} AppendKeeps(env: Env, s: State, runId: Uuid, draft: Draft, at: int)
    requires JournalsOk(env, s) && runId in s.runs
    requires forall r :: r in s.events && r != runId ==> s.events[r] != []
    ensures StoreInv(env, Append(env, s, runId, draft, at).1)
  {
    hide JournalOk, Apply, ApplyTo, RowsOf, FindKey, ProjectionOf;
    var events := s.events[runId];
    if draft.idempotencyKey.None? || FindKey(events, draft.idempotencyKey.value).None? {
      var e := NewEvent(s, runId, draft, at);
      AppendedOk(env, events, ProjectionOf(s, runId), e);
      var s1 := s.(events := s.events[runId := events + [e]]);
      SameRows(s, s1);
      ApplyToIsLocal(env, s1, e);
    } else {
      FoundKey(events, draft.idempotencyKey.value);
    }
  }

  lemma SameRows(s: State, s': State)
    requires s.work == s'.work && s.subagents == s'.subagents
    ensures forall runId :: ProjectionOf(s', runId) == ProjectionOf(s, runId)
  {}

  lemma FoundKey(events: seq<Event>, key: string)
    requires FindKey(events, key).Some?
    ensures events != []
  {}

  lemma {:induction false} CreateRunKeeps(env: Env, s: State, run: NewRun, details: Details, at: int)
    requires StoreInv(env, s)
    ensures StoreInv(env, CreateRun(env, s, run, details, at).1)
  {
    hide JournalOk, ProjectionOf, Append, CreatedDraft;
    if run.runId !in s.runs && !IsBlank(run.title) {
      var s1 := s.(runs := s.runs[run.runId := run], events := s.events[run.runId := []],
                   created := s.created[run.runId := at]);
      SameRows(s, s1);
      NoRows(env, s, run.runId);
      AppendKeeps(env, s1, run.runId, CreatedDraft(run, details), at);
    }
  }

  /** A run that does not exist has no rows. */
  lemma {:induction false} NoRows(env: Env, s: State, runId: Uuid)
    requires runId !in s.runs && JournalsOk(env, s)
    ensures JournalOk(env, runId, [], ProjectionOf(s, runId))
  {
    assert RowsOf(s.work, runId) == map[];
    assert RowsOf(s.subagents, runId) == map[];
  }

  // ----- Events that cannot be projected -----

  /** A replay that has failed does not recover. */
  lemma {:induction false} ReplayStaysNone(env: Env, events: seq<Event>, more: seq<Event>)
    requires Replay(env, events).None?
    ensures Replay(env, events + more).None?
    decreases |more|
  {
    if more == [] {
      assert events + more == events;
    } else {
      assert (events + more)[..|events + more| - 1] == events + more[..|more| - 1];
      ReplayStaysNone(env, events, more[..|more| - 1]);
    }
  }

  /** An append raises exactly when its event, which is not a duplicate, cannot be projected. */
  predicate Raises(env: Env, s: State, runId: Uuid, draft: Draft, at: int)
    requires runId in s.runs && runId in s.events
  {
    && (draft.idempotencyKey.Some? ==> FindKey(s.events[runId], draft.idempotencyKey.value).None?)
    && Apply(env, ProjectionOf(s, runId), NewEvent(s, runId, draft, at)).None?
  }

  /** Then the event is in the journal although nothing was projected, and no replay of that journal,
      however it goes on, succeeds. */
  lemma {:induction false} RaisedAppendStays(env: Env, s: State, runId: Uuid, draft: Draft, at: int, more: seq<Event>)
    requires StoreInv(env, s) && runId in s.runs && runId in s.events
    ensures Append(env, s, runId, draft, at).0 == Err(InvalidEvent) <==> Raises(env, s, runId, draft, at)
    ensures Raises(env, s, runId, draft, at) ==>
              var journal := s.events[runId] + [NewEvent(s, runId, draft, at)];
              && Append(env, s, runId, draft, at).1 == s.(events := s.events[runId := journal])
              && Replay(env, journal + more).None?
  {
    hide Apply, ApplyTo, ProjectionOf, FindKey;
    var e := NewEvent(s, runId, draft, at);
    var journal := s.events[runId] + [e];
    var s1 := s.(events := s.events[runId := journal]);
    SameRows(s, s1);
    ApplyToIsLocal(env, s1, e);
    if Raises(env, s, runId, draft, at) {
      assert JournalOk(env, runId, s.events[runId], ProjectionOf(s, runId));
      ReplayIsFold(env, s.events[runId]);
      assert journal[..|journal| - 1] == s.events[runId];
      ReplayStaysNone(env, journal, more);
    }
  }

  /** A work event that names no work item. */
  const UNADDRESSED := Draft("work.started", "running", "Item started", map[], None, None,
                             Details("", None, None, None, None))

  /** The store after the first run was created. */
  lemma {:induction false} FirstRun(env: Env, run: NewRun, details: Details, at: int) returns (s: State)
    requires !IsBlank(run.title)
    ensures s == CreateRun(env, EMPTY_STORE, run, details, at).1 && StoreInv(env, s)
    ensures run.runId in s.runs && run.runId in s.events
  {
    CreateRunKeeps(env, EMPTY_STORE, run, details, at);
    s := CreateRun(env, EMPTY_STORE, run, details, at).1;
    hide StoreInv, Append, CreatedDraft;
    AppendFacts(env, State(map[run.runId := run], map[run.runId := []], map[run.runId := at], map[], map[]), run.runId,
                CreatedDraft(run, details), at);
  }

  /** Any new run can be spoilt for ever by it. */
  lemma {:induction false} MalformedEventStays(env: Env, run: NewRun, details: Details, at: int, later: int,
                                               more: seq<Event>)
      returns (s: State, spoilt: State)
    requires !IsBlank(run.title)
    ensures s == CreateRun(env, EMPTY_STORE, run, details, at).1 && StoreInv(env, s)
    ensures run.runId in s.runs && run.runId in s.events
    ensures Append(env, s, run.runId, UNADDRESSED, later) == (Err(InvalidEvent), spoilt)
    ensures run.runId in spoilt.events
    ensures spoilt.events[run.runId] == s.events[run.runId] + [NewEvent(s, run.runId, UNADDRESSED, later)]
    ensures Replay(env, spoilt.events[run.runId] + more).None?
  {
    hide CreateRun, StoreInv, Append, Replay, ProjectionOf, Fold;
    s := FirstRun(env, run, details, at);
    spoilt := Append(env, s, run.runId, UNADDRESSED, later).1;
    assert Raises(env, s, run.runId, UNADDRESSED, later) by {
      assert "work.started"[..5] == "work.";
    }
    hide Apply, Raises;
    RaisedAppendStays(env, s, run.runId, UNADDRESSED, later, more);
  }

  // ----- Idempotency -----

  /** Appending twice under one key is appending once: the second call changes nothing and returns the
      event of the first. */
  lemma {:induction false} AppendIsIdempotent(env: Env, s: State, runId: Uuid, draft: Draft, at: int, again: Draft,
                                              at': int, s': State)
    requires StoreInv(env, s) && runId in s.runs && draft.idempotencyKey.Some?
    requires again.idempotencyKey == draft.idempotencyKey
    requires s' == Append(env, s, runId, draft, at).1
    ensures runId in s'.runs && runId in s'.events
    ensures var (second, s'') := Append(env, s', runId, again, at');
            s'' == s' && second.Ok? && second.value in s'.events[runId]
            && second.value.draft.idempotencyKey == draft.idempotencyKey
    ensures Append(env, s, runId, draft, at).0.Ok? ==>
              Append(env, s', runId, again, at').0 == Append(env, s, runId, draft, at).0
  {
    hide ApplyTo, StoreInv;
    assert runId in s.events by { RunKnown(env, s, runId); }
    var key := draft.idempotencyKey.value;
    if FindKey(s.events[runId], key).None? {
      var e := NewEvent(s, runId, draft, at);
      FindAppended(s.events[runId], e, key);
      ApplyToIsLocal(env, s.(events := s.events[runId := s.events[runId] + [e]]), e);
    }
  }

  lemma RunKnown(env: Env, s: State, runId: Uuid)
    requires StoreInv(env, s) && runId in s.runs
    ensures runId in s.events
  {}

  lemma {:induction false} FindAppended(events: seq<Event>, e: Event, key: string)
    requires FindKey(events, key).None? && e.draft.idempotencyKey == Some(key)
    ensures FindKey(events + [e], key) == Some(e)
  {
    if events != [] {
      assert (events + [e])[1..] == events[1..] + [e];
      FindAppended(events[1..], e, key);
    } else {
      assert events + [e] == [e];
    }
  }

  // ----- Any number of executions of any journal calls -----

  /** One execution of the append activity. */
  datatype Execution = Execution(runId: Uuid, draft: Draft, at: int)

  function Execute(env: Env, s: State, executions: seq<Execution>): State
    decreases |executions|
  {
    if executions == [] then s
    else Execute(env, Append(env, s, executions[0].runId, executions[0].draft, executions[0].at).1, executions[1..])
  }

  lemma AppendFacts(env: Env, s: State, runId: Uuid, draft: Draft, at: int)
    requires forall r :: r in s.runs ==> r in s.events
    ensures var s' := Append(env, s, runId, draft, at).1;
            && s'.runs == s.runs && (forall r :: r in s.events ==> r in s'.events && s.events[r] <= s'.events[r])
            && (forall r :: r in s'.runs ==> r in s'.events)
            && (runId in s.runs && draft.idempotencyKey.Some? ==>
                  exists e :: e in s'.events[runId] && e.draft.idempotencyKey == draft.idempotencyKey)
    ensures runId in s.runs ==>
              var s' := Append(env, s, runId, draft, at).1;
              (forall e :: e in s'.events[runId] ==> e in s.events[runId] || e.draft == draft)
              && (forall r :: r in s.events && r != runId ==> s'.events[r] == s.events[r])
    ensures runId !in s.runs ==> Append(env, s, runId, draft, at).1 == s
  {
    hide ApplyTo, FindKey;
    if runId in s.runs && (draft.idempotencyKey.None? || FindKey(s.events[runId], draft.idempotencyKey.value).None?) {
      var e := NewEvent(s, runId, draft, at);
      assert e in s.events[runId] + [e];
      ApplyToIsLocal(env, s.(events := s.events[runId := s.events[runId] + [e]]), e);
    }
  }

  /** The events of one key. */
  ghost predicate Keyed(events: seq<Event>, k: nat, key: string) {
    k < |events| && events[k].draft.idempotencyKey == Some(key)
  }

  /** However often and in whatever order append activities run, each key gives exactly one event, and
      its content is that of one of the executions (or was there before). */
  lemma {:induction false} OneEventPerKey(env: Env, s: State, executions: seq<Execution>, i: nat)
    requires StoreInv(env, s) && i < |executions| && executions[i].runId in s.runs
    requires executions[i].draft.idempotencyKey.Some?
    ensures var s' := Execute(env, s, executions);
            var runId, key := executions[i].runId, executions[i].draft.idempotencyKey.value;
            && StoreInv(env, s') && runId in s'.events
            && (exists k :: Keyed(s'.events[runId], k, key))
            && (forall j, k :: Keyed(s'.events[runId], j, key) && Keyed(s'.events[runId], k, key) ==> j == k)
    decreases |executions|
  {
    hide Append, Fold, RowsOf, FindKey;
    var runId, key := executions[i].runId, executions[i].draft.idempotencyKey.value;
    var e := executions[0];
    ExecuteKeeps(env, s, executions);
    var s' := Execute(env, s, executions);
    ExecutedKey(env, s, executions, i);
    assert JournalOk(env, runId, s'.events[runId], ProjectionOf(s', runId));
  }

  lemma {:induction false} ExecuteKeeps(env: Env, s: State, executions: seq<Execution>)
    requires StoreInv(env, s)
    ensures StoreInv(env, Execute(env, s, executions)) && Execute(env, s, executions).runs == s.runs
    ensures forall r :: r in s.events ==>
          r in Execute(env, s, executions).events && s.events[r] <= Execute(env, s, executions).events[r]
    decreases |executions|
  {
    hide Append, JournalOk, ProjectionOf;
    if executions != [] {
      var e := executions[0];
      AppendFacts(env, s, e.runId, e.draft, e.at);
      if e.runId in s.runs { AppendKeeps(env, s, e.runId, e.draft, e.at); }
      ExecuteKeeps(env, Append(env, s, e.runId, e.draft, e.at).1, executions[1..]);
    }
  }

  lemma {:induction false} ExecutedKey(env: Env, s: State, executions: seq<Execution>, i: nat)
    requires StoreInv(env, s) && i < |executions| && executions[i].runId in s.runs
    requires executions[i].draft.idempotencyKey.Some?
    ensures executions[i].runId in Execute(env, s, executions).events
    ensures exists k ::
          Keyed(Execute(env, s, executions).events[executions[i].runId], k, executions[i].draft.idempotencyKey.value)
    decreases |executions|
  {
    hide Append, JournalOk, ProjectionOf;
    var e := executions[0];
    var s1 := Append(env, s, e.runId, e.draft, e.at).1;
    AppendFacts(env, s, e.runId, e.draft, e.at);
    if e.runId in s.runs { AppendKeeps(env, s, e.runId, e.draft, e.at); }
    ExecuteKeeps(env, s1, executions[1..]);
    if i > 0 {
      ExecutedKey(env, s1, executions[1..], i - 1);
    } else {
      var x :| x in s1.events[e.runId] && x.draft.idempotencyKey == e.draft.idempotencyKey;
      var k :| 0 <= k < |s1.events[e.runId]| && s1.events[e.runId][k] == x;
      assert Keyed(Execute(env, s, executions).events[e.runId], k, e.draft.idempotencyKey.value);
    }
  }

  /** An event of the final journal was there before, or one of the executions appended its draft. */
  lemma {:induction false} ExecutedDrafts(env: Env, s: State, executions: seq<Execution>, runId: Uuid, e: Event)
    requires StoreInv(env, s) && runId in s.runs && runId in s.events
    requires runId in Execute(env, s, executions).events && e in Execute(env, s, executions).events[runId]
    ensures e in s.events[runId] || exists m ::
          0 <= m < |executions| && executions[m].runId == runId && executions[m].draft == e.draft
    decreases |executions|
  {
    hide Append, JournalOk, ProjectionOf;
    if executions != [] {
      var x := executions[0];
      var s1 := Append(env, s, x.runId, x.draft, x.at).1;
      AppendFacts(env, s, x.runId, x.draft, x.at);
      if x.runId in s.runs { AppendKeeps(env, s, x.runId, x.draft, x.at); }
      ExecutedDrafts(env, s1, executions[1..], runId, e);
      if e !in s1.events[runId] {
        var m :| 0 <= m < |executions[1..]| && executions[1..][m].runId == runId && executions[1..][m].draft == e.draft;
        assert executions[m + 1].draft == e.draft;
      } else if e !in s.events[runId] {
        assert executions[0].runId == runId && executions[0].draft == e.draft;
      }
    }
  }

  /** A draft apart from its `event_id`, which is new for every execution. */
  function ContentOf(draft: Draft): Draft {
    draft.(details := draft.details.(eventId := ""))
  }

  /** All executions under the key of the m-th one, on its run, carry the content of its draft. */
  ghost predicate OneDraft(executions: seq<Execution>, m: nat)
    requires m < |executions|
  {
    forall x :: 0 <= x < |executions| && SameKey(executions[x], executions[m]) ==>
      ContentOf(executions[x].draft) == ContentOf(executions[m].draft)
  }

  predicate SameKey(x: Execution, y: Execution) {
    x.runId == y.runId && x.draft.idempotencyKey == y.draft.idempotencyKey
  }

  ghost predicate HasOne(events: seq<Event>, draft: Draft) {
    && draft.idempotencyKey.Some?
    && (exists n: nat :: Keyed(events, n, draft.idempotencyKey.value) && ContentOf(events[n].draft) == ContentOf(draft))
    && (forall n: nat, n': nat ::
          Keyed(events, n, draft.idempotencyKey.value) && Keyed(events, n', draft.idempotencyKey.value) ==> n == n')
  }

  /** Then the journal ends with exactly one event of that key, and it holds that content. */
  lemma {:induction false} OneEventWithDraft(env: Env, s: State, executions: seq<Execution>, m: nat)
    requires m < |executions| && executions[m].draft.idempotencyKey.Some? && OneDraft(executions, m)
    requires executions[m].runId in s.runs && executions[m].runId in s.events
    requires FindKey(s.events[executions[m].runId], executions[m].draft.idempotencyKey.value).None?
    requires StoreInv(env, s)
    ensures executions[m].runId in Execute(env, s, executions).events
    ensures HasOne(Execute(env, s, executions).events[executions[m].runId], executions[m].draft)
  {
    hide StoreInv, Execute, FindKey;
    var runId, key := executions[m].runId, executions[m].draft.idempotencyKey.value;
    OneEventPerKey(env, s, executions, m);
    var events := Execute(env, s, executions).events[runId];
    var n :| 0 <= n && Keyed(events, n, key);
    ExecutedDrafts(env, s, executions, runId, events[n]);
  }
}
