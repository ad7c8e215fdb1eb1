/** What the PostgreSQL projections hold (persistence/postgres.py:381-707). */
module PostgresFields {
  import opened Wrappers
  import opened Text
  import opened EventJournal
  import opened ColumnReplay
  import opened PostgresStore
  import opened ProjectionTables
  import Memory = MemoryStore

  /** `work_item_projection` and `subagent_projection`. */
  function RowsIn(table: Table, v: View): map<Uuid, Memory.Row> {
    match table case WorkItems => v.work case Subagents => v.subagents
  }

  function Cast(env: Env, table: Table, name: string, value: Value): Option<Value> {
    match table case WorkItems => env.work(name, value) case Subagents => env.subagent(name, value)
  }

  /** What the event says of the field: a subagent that is active again has not completed; otherwise the payload,
      and for the status, if the payload has none, the event itself. */
  function Says(table: Table, e: Event, name: string): Option<Value> {
    var payload := e.draft.payload;
    var status := if "status" in payload then payload["status"] else Str(e.draft.status);
    if name == "status" then Some(status)
    else if table == Subagents && name == "completed_at" && status in {Str("queued"), Str("running"), Str("recovering")}
    then Some(Null)
    else if name in payload then Some(payload[name])
    else None
  }

  /** What a first event leaves unsaid. */
  function Unsaid(name: string): Value {
    if name == "position" then Num(0) else if name == "tool_scope" then Items([]) else Null
  }

  /** The value is the cast of what the event says of the field, else of what the row held, else of what is
      left unsaid. */
  ghost predicate Takes(env: Env, table: Table, rows: map<Uuid, Memory.Row>, e: Event, id: Uuid, name: string,
                        value: Value) {
    && (Says(table, e, name).Some? ==> Cast(env, table, name, Says(table, e, name).value) == Some(value))
    && (Says(table, e, name).None? && id in rows && name in rows[id].fields ==>
          Cast(env, table, name, rows[id].fields[name]) == Some(value))
    && (Says(table, e, name).None? && id !in rows ==> Cast(env, table, name, Unsaid(name)) == Some(value))
  }

  /** A first event gives the descriptive fields, none of them blank. */
  predicate Introduces(table: Table, e: Event) {
    forall name :: name in (if table == WorkItems then {"phase", "kind", "label"} else {"label", "goal"}) ==>
      name in e.draft.payload && e.draft.payload[name].Str? && !IsBlank(e.draft.payload[name].text)
  }

  /** The rows come from earlier events. */
  ghost predicate Older(rows: map<Uuid, Memory.Row>, e: Event) {
    forall id :: id in rows ==> rows[id].lastSequence < e.sequence
  }

  // ----- One event -----

  lemma {:induction false} CastAllIs(convert: (string, Value) -> Option<Value>, values: Columns, name: string)
    requires CastAll(convert, values).Some? && name in values
    ensures convert(name, values[name]) == Some(CastAll(convert, values).value[name])
  {}

  /** The columns a work event inserts, before PostgreSQL sees them. */
  lemma {:induction false} WorkValueIs(e: Event, previous: Option<Memory.Row>, name: string)
    requires name in FieldsOf(WorkItems)
    ensures WorkValues(e, previous).Keys == FieldsOf(WorkItems)
    ensures WorkValues(e, previous)[name] ==
      match Says(WorkItems, e, name)
      case Some(value) => value
      case None =>
        if previous.Some? && name in previous.value.fields then previous.value.fields[name] else Unsaid(name)
  {
    assert name in WORK_VALUES || name == "status";
    assert name != "tool_scope";
    assert FieldsOf(WorkItems) == WORK_VALUES + {"status"};
  }

  lemma {:induction false} SubagentValueIs(e: Event, previous: Option<Memory.Row>, name: string)
    requires name in FieldsOf(Subagents)
    ensures SubagentValues(e, previous).Keys == FieldsOf(Subagents)
    ensures SubagentValues(e, previous)[name] ==
      match Says(Subagents, e, name)
      case Some(value) => value
      case None =>
        if previous.Some? && name in previous.value.fields then previous.value.fields[name] else Unsaid(name)
  {
    assert name in SUBAGENT_VALUES || name == "status";
    assert name != "position";
    assert FieldsOf(Subagents) == SUBAGENT_VALUES + {"status"};
  }

  lemma {:induction false} WorkTakes(env: Env, work: map<Uuid, Memory.Row>, e: Event, name: string)
    requires IsWorkEvent(e) && ApplyWork(env, work, e).Some? && Older(work, e) && name in FieldsOf(WorkItems)
    ensures ItemOf(env.uuid, WorkItems, e).Some?
    ensures var id, rows' := ItemOf(env.uuid, WorkItems, e).value, ApplyWork(env, work, e).value;
            && WritesRow(WorkItems, work, rows', e, id)
            && Takes(env, WorkItems, work, e, id, name, rows'[id].fields[name])
            && (id !in work ==> Introduces(WorkItems, e)) && env.workCheck(rows'[id].fields)
  {
    hide WorkValues, CastAll, Says, Unsaid, FieldsOf, IsWorkEvent;
    var id := e.draft.workItemId.value;
    WorkValueIs(e, Memory.RowAt(work, id), name);
    CastAllIs(env.work, WorkValues(e, Memory.RowAt(work, id)), name);
  }

  lemma {:induction false} SubagentTakes(env: Env, subagents: map<Uuid, Memory.Row>, e: Event, name: string)
    requires IsSubagentEvent(e) && ApplySubagent(env, subagents, e).Some? && Older(subagents, e)
    requires name in FieldsOf(Subagents)
    ensures ItemOf(env.uuid, Subagents, e).Some?
    ensures var id, rows' := ItemOf(env.uuid, Subagents, e).value, ApplySubagent(env, subagents, e).value;
            && WritesRow(Subagents, subagents, rows', e, id)
            && Takes(env, Subagents, subagents, e, id, name, rows'[id].fields[name])
            && (id !in subagents ==> Introduces(Subagents, e)) && env.subagentCheck(rows'[id].fields)
  {
    hide SubagentValues, CastAll, Says, Unsaid, FieldsOf, IsSubagentEvent;
    var id := env.uuid(e.draft.payload["subagent_id"]).value;
    SubagentValueIs(e, Memory.RowAt(subagents, id), name);
    CastAllIs(env.subagent, SubagentValues(e, Memory.RowAt(subagents, id)), name);
  }

  /** What an applied event leaves of the rows. */
  lemma {:induction false} AppliedRows(env: Env, v: View, e: Event)
    requires Apply(env, v, e).Some?
    ensures var v' := Apply(env, v, e).value;
            && (IsWorkEvent(e) ==> ApplyWork(env, v.work, e) == Some(v'.work) && v'.subagents == v.subagents)
            && (IsSubagentEvent(e) ==>
                  ApplySubagent(env, v.subagents, e) == Some(v'.subagents) && v'.work == v.work)
            && (!IsWorkEvent(e) && !IsSubagentEvent(e) ==> v'.work == v.work && v'.subagents == v.subagents)
  {
    hide ApplyWork, ApplySubagent, CountRows, TimesOk, Write, Written, IsWorkEvent, IsSubagentEvent;
    KindsDiffer(e);
  }

  /** An event of a table that is applied writes the row of its item and nothing else; each field is what the
      event says, else what it was, else the default, and a first event introduces its item. */
  lemma {:induction false} AppliedField(env: Env, table: Table, v: View, e: Event, name: string)
    requires Apply(env, v, e).Some? && OfTable(table, e) && Older(RowsIn(table, v), e) && name in FieldsOf(table)
    ensures ItemOf(env.uuid, table, e).Some?
    ensures var id, v' := ItemOf(env.uuid, table, e).value, Apply(env, v, e).value;
            && WritesRow(table, RowsIn(table, v), RowsIn(table, v'), e, id)
            && Takes(env, table, RowsIn(table, v), e, id, name, RowsIn(table, v')[id].fields[name])
            && (id !in RowsIn(table, v) ==> Introduces(table, e))
  {
    hide Apply, ApplyWork, ApplySubagent, Takes, WritesRow, FieldsOf, Introduces, Older, IsWorkEvent, IsSubagentEvent;
    AppliedRows(env, v, e);
    if table == WorkItems { WorkTakes(env, v.work, e, name); } else { SubagentTakes(env, v.subagents, e, name); }
  }

  /** What an applied event does to one item's row. */
  lemma {:induction false} LastEvent(env: Env, table: Table, v: View, e: Event, id: Uuid)
    requires Apply(env, v, e).Some? && Older(RowsIn(table, v), e)
    ensures var rows, rows' := RowsIn(table, v), RowsIn(table, Apply(env, v, e).value);
            if ItemOf(env.uuid, table, e) == Some(id) then
              WritesRow(table, rows, rows', e, id)
              && forall name :: name in FieldsOf(table) ==> Takes(env, table, rows, e, id, name, rows'[id].fields[name])
            else (id in rows' <==> id in rows) && (id in rows ==> rows'[id] == rows[id])
  {
    hide Apply, Takes, Older, Introduces, IsWorkEvent, IsSubagentEvent;
    KindsDiffer(e);
    AppliedRows(env, v, e);
    hide ApplyWork, ApplySubagent;
    if OfTable(table, e) {
      forall name | name in FieldsOf(table)
        ensures ItemOf(env.uuid, table, e).Some?
        ensures WritesRow(table, RowsIn(table, v), RowsIn(table, Apply(env, v, e).value), e,
                          ItemOf(env.uuid, table, e).value)
        ensures Takes(env, table, RowsIn(table, v), e, ItemOf(env.uuid, table, e).value, name,
                      RowsIn(table, Apply(env, v, e).value)[ItemOf(env.uuid, table, e).value].fields[name])
      {
        AppliedField(env, table, v, e, name);
      }
      assert "status" in FieldsOf(table);
    }
  }

  // ----- Whole journals -----

  ghost predicate Describes(env: Env, table: Table, events: seq<Event>, id: Uuid, k: int) {
    0 <= k < |events| && ItemOf(env.uuid, table, events[k]) == Some(id)
  }

  ghost predicate SaysOf(env: Env, table: Table, events: seq<Event>, id: Uuid, name: string, k: int) {
    Describes(env, table, events, id, k) && Says(table, events[k], name).Some?
  }

  /** Casting a cast value gives it back. */
  ghost predicate Idempotent(env: Env) {
    forall table, name, v, w :: Cast(env, table, name, v) == Some(w) ==> Cast(env, table, name, w) == Some(w)
  }

  lemma IdempotentAt(env: Env, table: Table, name: string, v: Value, w: Value)
    requires Idempotent(env) && Cast(env, table, name, v) == Some(w)
    ensures Cast(env, table, name, w) == Some(w)
  {}

  /** The tables of a journal start without work items and subagents. */
  ghost predicate FromNothing(env: Env, v: View, events: seq<Event>) {
    v.work == map[] && v.subagents == map[] && Numbered(events) && ApplyAll(env, v, events).Some?
  }

  ghost function Folded(env: Env, v: View, events: seq<Event>): View
    requires FromNothing(env, v, events)
  {
    ApplyAll(env, v, events).value
  }

  lemma {:induction false} FoldedLast(env: Env, v: View, events: seq<Event>)
    requires FromNothing(env, v, events) && events != []
    ensures var n := |events| - 1;
            FromNothing(env, v, events[..n]) && Apply(env, Folded(env, v, events[..n]), events[n]).Some?
            && Folded(env, v, events) == Apply(env, Folded(env, v, events[..n]), events[n]).value
  {
    hide Apply;
  }

  /** Rows are complete, belong to described items, and carry the number of one of the events. */
  lemma {:induction false} FoldedRow(env: Env, table: Table, v: View, events: seq<Event>, id: Uuid) returns (k: nat)
    requires FromNothing(env, v, events) && id in RowsIn(table, Folded(env, v, events))
    ensures Describes(env, table, events, id, k)
    ensures RowsIn(table, Folded(env, v, events))[id].lastSequence <= |events|
    ensures RowsIn(table, Folded(env, v, events))[id].fields.Keys == FieldsOf(table)
    decreases |events|, 1
  {
    hide Apply, ItemOf, FieldsOf, Takes, Folded;
    if events == [] {
      StartsEmpty(env, table, v, id);
    } else {
      var n := |events| - 1;
      FoldedLast(env, v, events);
      OlderRows(env, table, v, events);
      LastEvent(env, table, Folded(env, v, events[..n]), events[n], id);
      assert events[n].sequence == |events| by { assert Numbered(events); }
      hide FromNothing;
      if ItemOf(env.uuid, table, events[n]) == Some(id) {
        k := n;
      } else {
        k := FoldedRow(env, table, v, events[..n], id);
      }
    }
  }

  lemma {:induction false} StartsEmpty(env: Env, table: Table, v: View, id: Uuid)
    requires FromNothing(env, v, [])
    ensures id !in RowsIn(table, Folded(env, v, []))
  {}

  lemma {:induction false} OlderRows(env: Env, table: Table, v: View, events: seq<Event>)
    requires FromNothing(env, v, events) && events != []
    ensures var n := |events| - 1;
            FromNothing(env, v, events[..n]) && Older(RowsIn(table, Folded(env, v, events[..n])), events[n])
    decreases |events|, 0
  {
    hide Apply, ItemOf, FieldsOf, Folded;
    var n := |events| - 1;
    FoldedLast(env, v, events);
    assert events[n].sequence == n + 1;
    hide FromNothing;
    forall id | id in RowsIn(table, Folded(env, v, events[..n]))
      ensures RowsIn(table, Folded(env, v, events[..n]))[id].lastSequence < events[n].sequence
    {
      var k := FoldedRow(env, table, v, events[..n], id);
    }
  }

  /** A described item has a row. */
  lemma {:induction false} DescribedHasRow(env: Env, table: Table, v: View, events: seq<Event>, id: Uuid, k: nat)
    requires FromNothing(env, v, events) && Describes(env, table, events, id, k)
    ensures id in RowsIn(table, Folded(env, v, events))
    ensures RowsIn(table, Folded(env, v, events))[id].fields.Keys == FieldsOf(table)
  {
    hide Apply, ItemOf, FieldsOf, Takes, Folded, FromNothing;
    var n := |events| - 1;
    FoldedLast(env, v, events);
    OlderRows(env, table, v, events);
    LastEvent(env, table, Folded(env, v, events[..n]), events[n], id);
    if k < n { DescribedHasRow(env, table, v, events[..n], id, k); }
  }

  /** A field holds the cast of what the last event said of it. */
  lemma {:induction false} FieldIsLastSaid(env: Env, table: Table, v: View, events: seq<Event>, id: Uuid, name: string,
                                           k: nat)
    requires Idempotent(env) && FromNothing(env, v, events) && name in FieldsOf(table)
    requires SaysOf(env, table, events, id, name, k)
    requires forall m :: k < m < |events| ==> !SaysOf(env, table, events, id, name, m)
    ensures id in RowsIn(table, Folded(env, v, events)) && name in RowsIn(table, Folded(env, v, events))[id].fields
    ensures Cast(env, table, name, Says(table, events[k], name).value)
         == Some(RowsIn(table, Folded(env, v, events))[id].fields[name])
  {
    hide Idempotent, Apply, ItemOf, FieldsOf, Says, Cast, Folded, FromNothing;
    var n := |events| - 1;
    FoldedLast(env, v, events);
    OlderRows(env, table, v, events);
    DescribedHasRow(env, table, v, events, id, k);
    LastEvent(env, table, Folded(env, v, events[..n]), events[n], id);
    if k < n {
      forall m | k < m < n ensures !SaysOf(env, table, events[..n], id, name, m) {
        assert !SaysOf(env, table, events, id, name, m);
      }
      FieldIsLastSaid(env, table, v, events[..n], id, name, k);
      var value := RowsIn(table, Folded(env, v, events[..n]))[id].fields[name];
      IdempotentAt(env, table, name, Says(table, events[k], name).value, value);
      assert !SaysOf(env, table, events, id, name, n);
    }
  }

  /** A field that nothing was said of holds the cast of what is left unsaid. */
  lemma {:induction false} FieldIsUnsaid(env: Env, table: Table, v: View, events: seq<Event>, id: Uuid, name: string,
                                         k: nat)
    requires Idempotent(env) && FromNothing(env, v, events) && name in FieldsOf(table)
    requires Describes(env, table, events, id, k)
    requires forall m :: 0 <= m < |events| ==> !SaysOf(env, table, events, id, name, m)
    ensures id in RowsIn(table, Folded(env, v, events)) && name in RowsIn(table, Folded(env, v, events))[id].fields
    ensures Cast(env, table, name, Unsaid(name)) == Some(RowsIn(table, Folded(env, v, events))[id].fields[name])
  {
    hide Idempotent, Apply, ItemOf, FieldsOf, Says, Cast, Unsaid, Folded, FromNothing;
    var n := |events| - 1;
    FoldedLast(env, v, events);
    OlderRows(env, table, v, events);
    DescribedHasRow(env, table, v, events, id, k);
    LastEvent(env, table, Folded(env, v, events[..n]), events[n], id);
    assert !SaysOf(env, table, events, id, name, n);
    if id in RowsIn(table, Folded(env, v, events[..n])) {
      var m := FoldedRow(env, table, v, events[..n], id);
      forall j | 0 <= j < n ensures !SaysOf(env, table, events[..n], id, name, j) {
        assert !SaysOf(env, table, events, id, name, j);
      }
      FieldIsUnsaid(env, table, v, events[..n], id, name, m);
      IdempotentAt(env, table, name, Unsaid(name), RowsIn(table, Folded(env, v, events[..n]))[id].fields[name]);
    }
  }

  /** All this holds of the tables of any run that successful appends have led to. */
  lemma {:induction false} ReachedFolds(env: Env, row: Columns, at: int, t: RunTables)
    requires Reached(env, row, at, t)
    ensures FromNothing(env, Inserted(row, at), t.events)
    ensures t.view == Folded(env, Inserted(row, at), t.events).(rowUpdatedAt := t.view.rowUpdatedAt)
  {
    hide ApplyAll;
  }

  // ----- Which events are applied -----

  /** The fields are what the event makes of the row. */
  ghost predicate TakesAll(env: Env, table: Table, rows: map<Uuid, Memory.Row>, e: Event, id: Uuid, fields: Columns) {
    && fields.Keys == FieldsOf(table)
    && forall name :: name in fields ==> Takes(env, table, rows, e, id, name, fields[name])
  }

  predicate Complete(table: Table, rows: map<Uuid, Memory.Row>) {
    forall id :: id in rows ==> rows[id].fields.Keys == FieldsOf(table)
  }

  lemma {:induction false} CastAllTo(convert: (string, Value) -> Option<Value>, values: Columns, fields: Columns)
    requires fields.Keys == values.Keys
    requires forall name :: name in fields ==> convert(name, values[name]) == Some(fields[name])
    ensures CastAll(convert, values) == Some(fields)
  {
    forall name | name in values ensures name in fields && convert(name, values[name]) == Some(fields[name]) {
      assert name in values.Keys;
    }
    assert CastAll(convert, values).value == fields;
  }

  lemma {:induction false} WorkCasts(env: Env, work: map<Uuid, Memory.Row>, e: Event, id: Uuid, fields: Columns)
    requires Complete(WorkItems, work)
    ensures CastAll(env.work, WorkValues(e, Memory.RowAt(work, id))) == Some(fields)
       <==> TakesAll(env, WorkItems, work, e, id, fields)
  {
    hide WorkValues, CastAll, Says, Unsaid, FieldsOf;
    var values := WorkValues(e, Memory.RowAt(work, id));
    assert values.Keys == FieldsOf(WorkItems) by { WorkKeys(e, Memory.RowAt(work, id)); }
    forall name | name in FieldsOf(WorkItems)
      ensures env.work(name, values[name]).Some? ==>
                Takes(env, WorkItems, work, e, id, name, env.work(name, values[name]).value)
      ensures forall value :: Takes(env, WorkItems, work, e, id, name, value) ==>
                env.work(name, values[name]) == Some(value)
    {
      WorkValueIs(e, Memory.RowAt(work, id), name);
    }
    hide Takes;
    if TakesAll(env, WorkItems, work, e, id, fields) { CastAllTo(env.work, values, fields); }
    if CastAll(env.work, values) == Some(fields) {
      forall name | name in fields ensures Takes(env, WorkItems, work, e, id, name, fields[name]) {
        CastAllIs(env.work, values, name);
      }
    }
  }

  lemma WorkKeys(e: Event, previous: Option<Memory.Row>)
    ensures WorkValues(e, previous).Keys == FieldsOf(WorkItems)
  {
    WorkValueIs(e, previous, "status");
  }

  lemma {:induction false} SubagentCasts(env: Env, subagents: map<Uuid, Memory.Row>, e: Event, id: Uuid,
                                         fields: Columns)
    requires Complete(Subagents, subagents)
    ensures CastAll(env.subagent, SubagentValues(e, Memory.RowAt(subagents, id))) == Some(fields)
       <==> TakesAll(env, Subagents, subagents, e, id, fields)
  {
    hide SubagentValues, CastAll, Says, Unsaid, FieldsOf;
    var values := SubagentValues(e, Memory.RowAt(subagents, id));
    assert values.Keys == FieldsOf(Subagents) by { SubagentKeys(e, Memory.RowAt(subagents, id)); }
    forall name | name in FieldsOf(Subagents)
      ensures env.subagent(name, values[name]).Some? ==>
                Takes(env, Subagents, subagents, e, id, name, env.subagent(name, values[name]).value)
      ensures forall value :: Takes(env, Subagents, subagents, e, id, name, value) ==>
                env.subagent(name, values[name]) == Some(value)
    {
      SubagentValueIs(e, Memory.RowAt(subagents, id), name);
    }
    hide Takes;
    if TakesAll(env, Subagents, subagents, e, id, fields) { CastAllTo(env.subagent, values, fields); }
    if CastAll(env.subagent, values) == Some(fields) {
      forall name | name in fields ensures Takes(env, Subagents, subagents, e, id, name, fields[name]) {
        CastAllIs(env.subagent, values, name);
      }
    }
  }

  lemma SubagentKeys(e: Event, previous: Option<Memory.Row>)
    ensures SubagentValues(e, previous).Keys == FieldsOf(Subagents)
  {
    SubagentValueIs(e, previous, "status");
  }

  predicate Checked(env: Env, table: Table, fields: Columns) {
    match table case WorkItems => env.workCheck(fields) case Subagents => env.subagentCheck(fields)
  }

  /** A work or subagent event that changes no column of the run is stored exactly when it describes an item, a
      first event introduces it, every field casts, and the row passes the check of its table. */
  lemma {:induction false} AppliedIff(env: Env, table: Table, v: View, e: Event)
    requires OfTable(table, e) && Complete(table, RowsIn(table, v))
    ensures Apply(env, v, e).Some? <==>
              && ItemOf(env.uuid, table, e).Some?
              && var id := ItemOf(env.uuid, table, e).value;
                 && (id !in RowsIn(table, v) ==> Introduces(table, e))
                 && exists fields :: TakesAll(env, table, RowsIn(table, v), e, id, fields)
                                     && Checked(env, table, fields)
  {
    hide CastAll, WorkValues, SubagentValues, TakesAll, Complete, CountRows, TimesOk, Write, Upsert;
    hide IsRunEvent, IsWorkEvent, IsSubagentEvent;
    KindsDiffer(e);
    var item := ItemOf(env.uuid, table, e);
    if item.Some? {
      forall fields
        ensures table == WorkItems ==>
                  (CastAll(env.work, WorkValues(e, Memory.RowAt(v.work, item.value))) == Some(fields)
                   <==> TakesAll(env, table, v.work, e, item.value, fields))
        ensures table == Subagents ==>
                  (CastAll(env.subagent, SubagentValues(e, Memory.RowAt(v.subagents, item.value))) == Some(fields)
                   <==> TakesAll(env, table, v.subagents, e, item.value, fields))
      {
        if table == WorkItems { WorkCasts(env, v.work, e, item.value, fields); }
        else { SubagentCasts(env, v.subagents, e, item.value, fields); }
      }
    }
  }

  /** An event is stored as the next of its run, with the parent of the run and the draft as given; a known key
      gives the event that has it, and an abort leaves everything as it was. */
  lemma {:induction false} AppendsExactly(env: Env, runId: Uuid, t: RunTables, draft: Draft, at: int)
    ensures var (outcome, t') := Append(env, runId, t, draft, at);
            && t'.parentRunId == t.parentRunId && t'.createdAt == t.createdAt
            && if exists e :: e in t.events && draft.idempotencyKey.Some?
                              && e.draft.idempotencyKey == draft.idempotencyKey then
                 t' == t && outcome.Duplicate? && outcome.event in t.events
                 && outcome.event.draft.idempotencyKey == draft.idempotencyKey
               else if outcome.Aborted? then t' == t
               else
                 && outcome == Stored(Event(runId, t.nextSequence, t.parentRunId, draft, at))
                 && t'.events == t.events + [outcome.event] && t'.nextSequence == t.nextSequence + 1
                 && Apply(env, t.view.(rowUpdatedAt := at), outcome.event) == Some(t'.view)
  {
    hide FindKey, Apply;
  }

  // ----- Counts -----

  function Present(rows: map<Uuid, Memory.Row>, id: Uuid): nat {
    if id in rows then 1 else 0
  }

  /** One if the row exists and its status is one of these. */
  function StatusIn(rows: map<Uuid, Memory.Row>, id: Uuid, statuses: set<Value>): nat {
    if id in rows && "status" in rows[id].fields && rows[id].fields["status"] in statuses then 1 else 0
  }

  /** One if the row exists and has the status `blocked` or a blocker. */
  function Blocked(rows: map<Uuid, Memory.Row>, id: Uuid): nat {
    if id !in rows then 0
    else if "status" in rows[id].fields && rows[id].fields["status"] == Str("blocked") then 1
    else if "blocker" in rows[id].fields && rows[id].fields["blocker"] == Null then 0
    else 1
  }

  /** The counts are zero without rows, and a written row moves each of them by what it does to that row. */
  lemma {:induction false} WorkCountsMove(work: map<Uuid, Memory.Row>, subagents: map<Uuid, Memory.Row>, id: Uuid,
                                          row: Memory.Row)
    ensures var work', a, b := work[id := row], CountRows(work, subagents), CountRows(work[id := row], subagents);
            && b.total == a.total + 1 - Present(work, id) && b.activeSubagents == a.activeSubagents
            && b.completed + StatusIn(work, id, {Str("completed")})
               == a.completed + StatusIn(work', id, {Str("completed")})
            && b.blockers + Blocked(work, id) == a.blockers + Blocked(work', id)
    ensures CountRows(map[], map[]) == Counts(0, 0, 0, 0)
  {
    hide Active;
    var work' := work[id := row];
    OneApart(work.Keys, work'.Keys, id);
    var wasDone := set x | x in work && Has(work[x], "status", Str("completed"));
    var nowDone := set x | x in work' && Has(work'[x], "status", Str("completed"));
    OneApart(wasDone, nowDone, id);
    BlockersMove(work, subagents, id, row);
  }

  lemma {:induction false} BlockersMove(work: map<Uuid, Memory.Row>, subagents: map<Uuid, Memory.Row>, id: Uuid,
                                        row: Memory.Row)
    ensures CountRows(work[id := row], subagents).blockers + Blocked(work, id)
         == CountRows(work, subagents).blockers + Blocked(work[id := row], id)
  {
    hide Active;
    var work' := work[id := row];
    var was := set x | x in work && (Has(work[x], "status", Str("blocked")) || !Has(work[x], "blocker", Null));
    var now := set x | x in work' && (Has(work'[x], "status", Str("blocked")) || !Has(work'[x], "blocker", Null));
    OneApart(was, now, id);
  }

  lemma {:induction false} SubagentCountsMove(work: map<Uuid, Memory.Row>, subagents: map<Uuid, Memory.Row>, id: Uuid,
                                              row: Memory.Row)
    ensures var a, b := CountRows(work, subagents), CountRows(work, subagents[id := row]);
            var active := {Str("queued"), Str("running"), Str("recovering")};
            && b.total == a.total && b.completed == a.completed && b.blockers == a.blockers
            && b.activeSubagents + StatusIn(subagents, id, active)
               == a.activeSubagents + StatusIn(subagents[id := row], id, active)
  {
    hide Has;
    var subagents' := subagents[id := row];
    var was := set x | x in subagents && "status" in subagents[x].fields && Active(subagents[x].fields["status"]);
    var now := set x | x in subagents' && "status" in subagents'[x].fields && Active(subagents'[x].fields["status"]);
    OneApart(was, now, id);
  }

  /** The projection of the run counts, after every event, the work items, the completed and the blocked ones, and
      the active subagents. */
  lemma {:induction false} CountsMove(env: Env, v: View, e: Event)
    requires Apply(env, v, e).Some? && Older(v.work, e) && Older(v.subagents, e)
    requires v.counts == CountRows(v.work, v.subagents)
    ensures var v' := Apply(env, v, e).value;
            var a, b := v.counts, v'.counts;
            var work, subagent := ItemOf(env.uuid, WorkItems, e), ItemOf(env.uuid, Subagents, e);
            var active := {Str("queued"), Str("running"), Str("recovering")};
            && b == CountRows(v'.work, v'.subagents) && v'.eventCount == v'.lastSequence == e.sequence
            && v'.updatedAt == e.createdAt
            && (work.Some? ==>
                  && b.total == a.total + 1 - Present(v.work, work.value)
                  && b.completed + StatusIn(v.work, work.value, {Str("completed")})
                     == a.completed + StatusIn(v'.work, work.value, {Str("completed")})
                  && b.blockers + Blocked(v.work, work.value) == a.blockers + Blocked(v'.work, work.value))
            && (work.None? ==> b.total == a.total && b.completed == a.completed && b.blockers == a.blockers)
            && (subagent.Some? ==>
                  b.activeSubagents + StatusIn(v.subagents, subagent.value, active)
                  == a.activeSubagents + StatusIn(v'.subagents, subagent.value, active))
            && (subagent.None? ==> b.activeSubagents == a.activeSubagents)
  {
    hide Apply, CountRows, Older, ApplyWork, ApplySubagent, StatusIn, Blocked, Present, WritesRow, Takes;
    hide IsWorkEvent, IsSubagentEvent, Introduces;
    KindsDiffer(e);
    AppliedRows(env, v, e);
    Refreshed(env, v, e);
    var v' := Apply(env, v, e).value;
    if IsWorkEvent(e) {
      AppliedField(env, WorkItems, v, e, "status");
      var id := ItemOf(env.uuid, WorkItems, e).value;
      assert v'.work == v.work[id := v'.work[id]] by { WrittenRow(WorkItems, v.work, v'.work, e, id); }
      WorkCountsMove(v.work, v.subagents, id, v'.work[id]);
    }
    if IsSubagentEvent(e) {
      AppliedField(env, Subagents, v, e, "status");
      var id := ItemOf(env.uuid, Subagents, e).value;
      assert v'.subagents == v.subagents[id := v'.subagents[id]] by {
        WrittenRow(Subagents, v.subagents, v'.subagents, e, id);
      }
      SubagentCountsMove(v.work, v.subagents, id, v'.subagents[id]);
    }
  }

  lemma WrittenRow(table: Table, rows: map<Uuid, Memory.Row>, rows': map<Uuid, Memory.Row>, e: Event, id: Uuid)
    requires WritesRow(table, rows, rows', e, id)
    ensures id in rows' && rows' == rows[id := rows'[id]]
  {}

  lemma Refreshed(env: Env, v: View, e: Event)
    requires Apply(env, v, e).Some?
    ensures var v' := Apply(env, v, e).value;
            && v'.counts == CountRows(v'.work, v'.subagents) && v'.eventCount == v'.lastSequence == e.sequence
            && v'.updatedAt == e.createdAt
  {
    hide ApplyRun, ApplyRows, CountRows;
  }

  // ----- The columns of the run -----

  /** What a run event says of a column: a run that is active again has not completed; a `run.status_changed`
      without a status in its payload gives its own; otherwise the payload. */
  function RunSays(e: Event, name: string): Option<Value> {
    var payload := e.draft.payload;
    var status := if "status" in payload then Some(payload["status"])
                  else if e.draft.eventType == "run.status_changed" then Some(Str(e.draft.status))
                  else None;
    if !IsRunEvent(e) then None
    else if name == "status" then status
    else if name == "completed_at"
            && status in {Some(Str("queued")), Some(Str("running")), Some(Str("recovering"))} then Some(Null)
    else if name in payload then Some(payload[name])
    else None
  }

  function RunColumns(): set<string> {
    {"title", "status", "summary", "request_revision_id", "policy_revision", "started_at", "completed_at",
     "active_phase"}
  }

  lemma {:induction false} UpdatesSay(e: Event, name: string)
    requires IsRunEvent(e) && name in RunColumns()
    ensures name in Updates(e) <==> RunSays(e, name).Some?
    ensures name in Updates(e) ==> Updates(e)[name] == RunSays(e, name).value
  {
    hide IsRunEvent;
  }

  /** What the event writes to a column is the cast of what it says of it. */
  lemma {:induction false} WrittenIsSaid(env: Env, e: Event, name: string)
    requires Written(env, e).Some? && name in RunColumns()
    ensures name in Written(env, e).value <==> RunSays(e, name).Some?
    ensures name in Written(env, e).value ==>
              env.run(name, RunSays(e, name).value) == Some(Written(env, e).value[name])
  {
    hide Updates, IsRunEvent, CastAll;
    if IsRunEvent(e) {
      hide RunSays;
      UpdatesSay(e, name);
      if name in Updates(e) { CastAllIs(env.run, Updates(e), name); }
    }
  }

  lemma {:induction false} AllWritten(env: Env, v: View, events: seq<Event>, k: nat)
    requires ApplyAll(env, v, events).Some? && k < |events|
    ensures Written(env, events[k]).Some?
  {
    hide Written, ApplyRows, Refresh;
    if k < |events| - 1 { AllWritten(env, v, events[..|events| - 1], k); }
  }

  lemma {:induction false} LastWriteAt(ws: seq<Columns>, name: string, k: nat)
    requires k < |ws| && name in ws[k] && forall m :: k < m < |ws| ==> name !in ws[m]
    ensures LastWrite(ws, name) == Some(ws[k][name])
  {
    if k < |ws| - 1 { LastWriteAt(ws[..|ws| - 1], name, k); }
  }

  lemma {:induction false} NeverWritten(ws: seq<Columns>, name: string)
    requires forall m :: 0 <= m < |ws| ==> name !in ws[m]
    ensures LastWrite(ws, name) == None
  {
    if ws != [] { NeverWritten(ws[..|ws| - 1], name); }
  }

  lemma {:induction false} WritesSay(env: Env, v: View, events: seq<Event>, name: string, k: nat)
    requires ApplyAll(env, v, events).Some? && k < |events| && name in RunColumns()
    ensures name in Writes(env, events)[k] <==> RunSays(events[k], name).Some?
    ensures name in Writes(env, events)[k] ==>
              env.run(name, RunSays(events[k], name).value) == Some(Writes(env, events)[k][name])
  {
    hide RunSays, Written, ApplyAll;
    AllWritten(env, v, events, k);
    WrittenIsSaid(env, events[k], name);
  }

  /** A run event is stored exactly when everything it says casts and the run's row does not then have a completion
      before its start. */
  lemma {:induction false} RunStoredIff(env: Env, v: View, e: Event)
    requires IsRunEvent(e) && v.row.Keys == RunColumns() - {"active_phase"} && TimesOk(v.row)
    ensures Apply(env, v, e).Some? <==>
              && Written(env, e).Some?
              && var row := Write(v.row, Written(env, e).value);
                 !(row["started_at"].Moment? && row["completed_at"].Moment?
                   && row["completed_at"].at < row["started_at"].at)
    ensures Written(env, e).Some? <==>
              forall name :: name in RunColumns() && RunSays(e, name).Some? ==>
                env.run(name, RunSays(e, name).value).Some?
  {
    hide IsRunEvent, IsWorkEvent, IsSubagentEvent, RunSays, Updates, CountRows, CastAll;
    KindsDiffer(e);
    WriteNothing(v.row);
    forall name | name in RunColumns()
      ensures name in Updates(e) <==> RunSays(e, name).Some?
      ensures name in Updates(e) ==> Updates(e)[name] == RunSays(e, name).value
    {
      UpdatesSay(e, name);
    }
    UpdatesWithin(e);
    CastsIff(env.run, Updates(e));
  }

  lemma {:induction false} UpdatesWithin(e: Event)
    ensures Updates(e).Keys <= RunColumns()
  {}

  lemma {:induction false} CastsIff(convert: (string, Value) -> Option<Value>, values: Columns)
    ensures CastAll(convert, values).Some? <==> forall name :: name in values ==> convert(name, values[name]).Some?
  {}

  /** The run's row and its projection hold, in every column, the cast of what the last event said of it. */
  lemma {:induction false} ColumnIsLastSaid(env: Env, row: Columns, at: int, t: RunTables, name: string, k: nat)
    requires Reached(env, row, at, t) && name in RunColumns() && k < |t.events| && RunSays(t.events[k], name).Some?
    requires forall m :: k < m < |t.events| ==> RunSays(t.events[m], name).None?
    ensures name in t.view.columns
    ensures env.run(name, RunSays(t.events[k], name).value) == Some(t.view.columns[name])
    ensures name != "active_phase" ==> name in t.view.row && t.view.row[name] == t.view.columns[name]
  {
    hide RunSays, Reached, ApplyAll, Written, Writes, WriteAll, LastWrite, AlwaysOk;
    var v := ReachedFacts(env, row, at, t);
    var ws := Writes(env, t.events);
    forall m: nat | m < |t.events| ensures name in ws[m] <==> RunSays(t.events[m], name).Some? {
      WritesSay(env, Inserted(row, at), t.events, name, m);
    }
    WritesSay(env, Inserted(row, at), t.events, name, k);
    LastWriteAt(ws, name, k);
    WriteAllIsLast(row["active_phase" := Null], ws, name);
    if name != "active_phase" { WriteAllIsLast(row, ws, name); }
  }

  /** A column that no event said anything of holds what the run was created with. */
  lemma {:induction false} ColumnIsInitial(env: Env, row: Columns, at: int, t: RunTables, name: string)
    requires Reached(env, row, at, t) && name in RunColumns()
    requires forall m :: 0 <= m < |t.events| ==> RunSays(t.events[m], name).None?
    ensures name in t.view.columns
    ensures name == "active_phase" ==> t.view.columns[name] == Null
    ensures name != "active_phase" ==>
              name in row && name in t.view.row && t.view.columns[name] == t.view.row[name] == row[name]
  {
    hide RunSays, Reached, ApplyAll, Written, Writes, WriteAll, LastWrite, AlwaysOk;
    var v := ReachedFacts(env, row, at, t);
    var ws := Writes(env, t.events);
    forall m: nat | m < |t.events| ensures name !in ws[m] {
      WritesSay(env, Inserted(row, at), t.events, name, m);
    }
    NeverWritten(ws, name);
    WriteAllIsLast(row["active_phase" := Null], ws, name);
    if name != "active_phase" { WriteAllIsLast(row, ws, name); }
  }
}
