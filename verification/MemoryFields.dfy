/** What the in-memory projections and the run summary hold (integration/event_store.py:97-217). */
module MemoryFields {
  import opened Wrappers
  import opened Text
  import opened EventJournal
  import opened MemoryStore
  import opened MemoryEventStore
  import opened ProjectionTables

  /** `_work` and `_subagents`. */
  function RowsIn(table: Table, p: Projection): map<Uuid, Row> {
    match table case WorkItems => p.work case Subagents => p.subagents
  }

  /** What a first event leaves unsaid. */
  function Unsaid(table: Table, e: Event, name: string): Value {
    match table case WorkItems => WorkDefault(e, name) case Subagents => SubagentDefault(e, name)
  }

  /** The value is the conversion of what the payload says of the field, else of what the row held, else of
      what is left unsaid. */
  ghost predicate Takes(env: Env, table: Table, rows: map<Uuid, Row>, e: Event, id: Uuid, name: string, value: Value) {
    var payload := e.draft.payload;
    && (name in payload ==> env.convert(name, payload[name]) == Some(value))
    && (name !in payload && id in rows && name in rows[id].fields ==>
          env.convert(name, rows[id].fields[name]) == Some(value))
    && (name !in payload && id !in rows ==> env.convert(name, Unsaid(table, e, name)) == Some(value))
  }

  lemma {:induction false} NextRowTakes(env: Env, table: Table, rows: map<Uuid, Row>, e: Event, id: Uuid, name: string,
                                        defaults: string -> Value)
    requires NextRow(env, e, RowAt(rows, id), FieldsOf(table), defaults).Some? && name in FieldsOf(table)
    requires defaults(name) == Unsaid(table, e, name)
    ensures var row := NextRow(env, e, RowAt(rows, id), FieldsOf(table), defaults).value;
            WritesRow(table, rows, rows[id := row], e, id) && Takes(env, table, rows, e, id, name, row.fields[name])
  {
    hide FieldsOf, Unsaid;
  }

  /** An event of a table that is projected writes the row of its item and nothing else; each field is what
      the payload says, else what it was, else the default. */
  lemma {:induction false} ProjectedField(env: Env, table: Table, p: Projection, e: Event, name: string)
    requires Apply(env, p, e).Some? && ItemOf(env.uuid, table, e).Some? && name in FieldsOf(table)
    ensures var id, p' := ItemOf(env.uuid, table, e).value, Apply(env, p, e).value;
            && WritesRow(table, RowsIn(table, p), RowsIn(table, p'), e, id)
            && Takes(env, table, RowsIn(table, p), e, id, name, RowsIn(table, p')[id].fields[name])
  {
    hide NextRow, WritesRow, Takes, IsWorkEvent, IsSubagentEvent;
    KindsDiffer(e);
    var id := ItemOf(env.uuid, table, e).value;
    match table
    case WorkItems =>
      assert WORK_FIELDS == FieldsOf(table);
      NextRowTakes(env, table, p.work, e, id, name, n => WorkDefault(e, n));
    case Subagents =>
      assert SUBAGENT_FIELDS == FieldsOf(table);
      NextRowTakes(env, table, p.subagents, e, id, name, n => SubagentDefault(e, n));
  }

  /** An event that describes no item of a table leaves the table alone. */
  lemma {:induction false} OtherTable(env: Env, table: Table, p: Projection, e: Event)
    requires Apply(env, p, e).Some? && ItemOf(env.uuid, table, e).None?
    ensures RowsIn(table, Apply(env, p, e).value) == RowsIn(table, p)
  {
    hide NextRow, IsWorkEvent, IsSubagentEvent;
    KindsDiffer(e);
  }

  /** What a first event leaves unsaid is the text `integration`, the text `work`, its own summary and status,
      zero and an empty list; any other field is null. */
  lemma {:induction false} Defaults(table: Table, e: Event, name: string)
    requires name in FieldsOf(table)
    ensures name == "label" ==> Unsaid(table, e, name) == Str(e.draft.summary)
    ensures name == "status" ==> Unsaid(table, e, name) == Str(e.draft.status)
    ensures table == WorkItems && name == "phase" ==> Unsaid(table, e, name) == Str("integration")
    ensures table == WorkItems && name == "kind" ==> Unsaid(table, e, name) == Str("work")
    ensures table == WorkItems && name == "position" ==> Unsaid(table, e, name) == Num(0)
    ensures table == Subagents && name == "goal" ==> Unsaid(table, e, name) == Str(e.draft.summary)
    ensures table == Subagents && name == "tool_scope" ==> Unsaid(table, e, name) == Items([])
    ensures name !in {"label", "status", "phase", "kind", "position", "goal", "tool_scope"} ==>
              Unsaid(table, e, name) == Null
  {}

  // ----- Whole journals -----

  /** The k-th event describes the item and was projected. */
  ghost predicate Describes(env: Env, table: Table, events: seq<Event>, id: Uuid, k: int) {
    0 <= k < |events| && ItemOf(env.uuid, table, events[k]) == Some(id) && Projects(env, events, k)
  }

  ghost predicate Names(env: Env, table: Table, events: seq<Event>, id: Uuid, name: string, k: int) {
    Describes(env, table, events, id, k) && name in events[k].draft.payload
  }

  /** Converting a converted value gives it back. */
  ghost predicate Idempotent(env: Env) {
    forall name, v, w :: env.convert(name, v) == Some(w) ==> env.convert(name, w) == Some(w)
  }

  lemma {:induction false} DescribesBefore(env: Env, table: Table, events: seq<Event>, id: Uuid, n: nat, k: int)
    requires n <= |events| && k < n
    ensures Describes(env, table, events[..n], id, k) <==> Describes(env, table, events, id, k)
  {
    hide Apply, ItemOf, Fold;
    if 0 <= k { assert events[..n][..k] == events[..k]; }
  }

  /** The last event of a journal, seen from the fold before it. */
  lemma {:induction false} FoldLast(env: Env, table: Table, events: seq<Event>)
    requires events != []
    ensures var n := |events| - 1;
            if Projects(env, events, n) then
              Apply(env, Fold(env, events[..n]), events[n]) == Some(Fold(env, events))
            else Fold(env, events) == Fold(env, events[..n])
  {
    hide Apply;
  }

  /** What a projected event does to one item's row. */
  lemma {:induction false} LastEvent(env: Env, table: Table, p: Projection, e: Event, id: Uuid)
    requires Apply(env, p, e).Some?
    ensures var rows, rows' := RowsIn(table, p), RowsIn(table, Apply(env, p, e).value);
            if ItemOf(env.uuid, table, e) == Some(id) then
              WritesRow(table, rows, rows', e, id)
              && forall name :: name in FieldsOf(table) ==> Takes(env, table, rows, e, id, name, rows'[id].fields[name])
            else (id in rows' <==> id in rows) && (id in rows ==> rows'[id] == rows[id])
  {
    hide Apply, Takes;
    var item := ItemOf(env.uuid, table, e);
    if item.None? {
      OtherTable(env, table, p, e);
    } else {
      forall name | name in FieldsOf(table)
        ensures WritesRow(table, RowsIn(table, p), RowsIn(table, Apply(env, p, e).value), e, item.value)
        ensures Takes(env, table, RowsIn(table, p), e, item.value, name,
                      RowsIn(table, Apply(env, p, e).value)[item.value].fields[name])
      {
        ProjectedField(env, table, p, e, name);
      }
      assert "status" in FieldsOf(table);
    }
  }

  /** A described item has a complete row. */
  lemma {:induction false} DescribedHasRow(env: Env, table: Table, events: seq<Event>, id: Uuid, k: nat)
    requires Describes(env, table, events, id, k)
    ensures id in RowsIn(table, Fold(env, events))
    ensures RowsIn(table, Fold(env, events))[id].fields.Keys == FieldsOf(table)
  {
    hide Apply, ItemOf, FieldsOf, Takes;
    var n := |events| - 1;
    FoldLast(env, table, events);
    hide Fold, Projects;
    if Projects(env, events, n) { LastEvent(env, table, Fold(env, events[..n]), events[n], id); }
    if k < n {
      DescribesBefore(env, table, events, id, n, k);
      DescribedHasRow(env, table, events[..n], id, k);
    }
  }

  /** Only described items have a row. */
  lemma {:induction false} RowIsDescribed(env: Env, table: Table, events: seq<Event>, id: Uuid) returns (k: nat)
    requires id in RowsIn(table, Fold(env, events))
    ensures Describes(env, table, events, id, k)
  {
    hide Apply, ItemOf, FieldsOf, Takes;
    if events != [] {
      var n := |events| - 1;
      FoldLast(env, table, events);
      if Projects(env, events, n) { LastEvent(env, table, Fold(env, events[..n]), events[n], id); }
      if Projects(env, events, n) && ItemOf(env.uuid, table, events[n]) == Some(id) {
        k := n;
      } else {
        k := RowIsDescribed(env, table, events[..n], id);
        DescribesBefore(env, table, events, id, n, k);
      }
    }
  }

  lemma IdempotentAt(env: Env, name: string, v: Value, w: Value)
    requires Idempotent(env) && env.convert(name, v) == Some(w)
    ensures env.convert(name, w) == Some(w)
  {}

  /** A field holds the conversion of what the last projected event that names it said. */
  lemma {:induction false} FieldIsLastSaid(env: Env, table: Table, events: seq<Event>, id: Uuid, name: string, k: nat)
    requires Idempotent(env) && name in FieldsOf(table) && Names(env, table, events, id, name, k)
    requires forall m :: k < m < |events| ==> !Names(env, table, events, id, name, m)
    ensures id in RowsIn(table, Fold(env, events)) && name in RowsIn(table, Fold(env, events))[id].fields
    ensures env.convert(name, events[k].draft.payload[name])
         == Some(RowsIn(table, Fold(env, events))[id].fields[name])
  {
    hide Idempotent, Apply, ItemOf, FieldsOf;
    var n := |events| - 1;
    FoldLast(env, table, events);
    hide Fold, Projects;
    DescribedHasRow(env, table, events, id, k);
    if Projects(env, events, n) { LastEvent(env, table, Fold(env, events[..n]), events[n], id); }
    if k < n {
      DescribesBefore(env, table, events, id, n, k);
      forall m | k < m < n ensures !Names(env, table, events[..n], id, name, m) {
        assert !Names(env, table, events, id, name, m);
        DescribesBefore(env, table, events, id, n, m);
      }
      FieldIsLastSaid(env, table, events[..n], id, name, k);
      var value := RowsIn(table, Fold(env, events[..n]))[id].fields[name];
      IdempotentAt(env, name, events[k].draft.payload[name], value);
      assert !Names(env, table, events, id, name, n);
    }
  }

  /** A field that no projected event names holds the conversion of what the item's first one left unsaid. */
  lemma {:induction false} FieldIsUnsaid(env: Env, table: Table, events: seq<Event>, id: Uuid, name: string, k: nat)
    requires Idempotent(env) && name in FieldsOf(table) && Describes(env, table, events, id, k)
    requires forall m :: 0 <= m < k ==> !Describes(env, table, events, id, m)
    requires forall m :: k <= m < |events| ==> !Names(env, table, events, id, name, m)
    ensures id in RowsIn(table, Fold(env, events)) && name in RowsIn(table, Fold(env, events))[id].fields
    ensures env.convert(name, Unsaid(table, events[k], name))
         == Some(RowsIn(table, Fold(env, events))[id].fields[name])
  {
    hide Idempotent, Apply, ItemOf, FieldsOf, Unsaid;
    var n := |events| - 1;
    FoldLast(env, table, events);
    hide Fold, Projects;
    if Projects(env, events, n) { LastEvent(env, table, Fold(env, events[..n]), events[n], id); }
    assert !Names(env, table, events, id, name, n);
    if k < n {
      DescribesBefore(env, table, events, id, n, k);
      forall m | 0 <= m < n
        ensures Names(env, table, events[..n], id, name, m) ==> Names(env, table, events, id, name, m)
        ensures Describes(env, table, events[..n], id, m) ==> Describes(env, table, events, id, m)
      {
        DescribesBefore(env, table, events, id, n, m);
      }
      FieldIsUnsaid(env, table, events[..n], id, name, k);
      IdempotentAt(env, name, Unsaid(table, events[k], name), RowsIn(table, Fold(env, events[..n]))[id].fields[name]);
    } else if id in RowsIn(table, Fold(env, events[..n])) {
      var m := RowIsDescribed(env, table, events[..n], id);
      DescribesBefore(env, table, events, id, n, m);
    }
  }

  // ----- Which events are projected -----

  ghost predicate Convertible(env: Env, table: Table, rows: map<Uuid, Row>, e: Event, id: Uuid, name: string) {
    exists value :: Takes(env, table, rows, e, id, name, value)
  }

  lemma {:induction false} NextRowWhen(env: Env, table: Table, rows: map<Uuid, Row>, e: Event, id: Uuid,
                                       defaults: string -> Value)
    requires id in rows ==> rows[id].fields.Keys == FieldsOf(table)
    requires forall name :: name in FieldsOf(table) ==> defaults(name) == Unsaid(table, e, name)
    requires forall name :: name in FieldsOf(table) ==> Convertible(env, table, rows, e, id, name)
    ensures NextRow(env, e, RowAt(rows, id), FieldsOf(table), defaults).Some?
  {
    hide FieldsOf, Unsaid;
    forall name | name in FieldsOf(table)
      ensures env.convert(name, FieldValue(e, RowAt(rows, id), name, defaults(name))).Some?
    {
      assert Convertible(env, table, rows, e, id, name);
    }
  }

  lemma {:induction false} ProjectedConverts(env: Env, table: Table, p: Projection, e: Event, name: string)
    requires Apply(env, p, e).Some? && ItemOf(env.uuid, table, e).Some? && name in FieldsOf(table)
    ensures Convertible(env, table, RowsIn(table, p), e, ItemOf(env.uuid, table, e).value, name)
  {
    hide Apply, Takes, ItemOf;
    ProjectedField(env, table, p, e, name);
    var row := RowsIn(table, Apply(env, p, e).value)[ItemOf(env.uuid, table, e).value];
    assert Takes(env, table, RowsIn(table, p), e, ItemOf(env.uuid, table, e).value, name, row.fields[name]);
  }

  /** An event of a table is projected exactly when it describes an item and every field converts; all other
      events change nothing. */
  lemma {:induction false} ProjectedIff(env: Env, table: Table, p: Projection, e: Event)
    requires forall id :: id in RowsIn(table, p) ==> RowsIn(table, p)[id].fields.Keys == FieldsOf(table)
    ensures OfTable(table, e) ==>
              (Apply(env, p, e).Some? <==>
                 && ItemOf(env.uuid, table, e).Some?
                 && forall name :: name in FieldsOf(table) ==>
                      Convertible(env, table, RowsIn(table, p), e, ItemOf(env.uuid, table, e).value, name))
    ensures !IsWorkEvent(e) && !IsSubagentEvent(e) ==> Apply(env, p, e) == Some(p)
  {
    hide NextRow, Takes, WritesRow, IsWorkEvent, IsSubagentEvent;
    KindsDiffer(e);
    var item := ItemOf(env.uuid, table, e);
    if OfTable(table, e) && item.Some? {
      if Apply(env, p, e).Some? {
        forall name | name in FieldsOf(table) ensures Convertible(env, table, RowsIn(table, p), e, item.value, name) {
          ProjectedConverts(env, table, p, e, name);
        }
      } else if forall name :: name in FieldsOf(table) ==>
                    Convertible(env, table, RowsIn(table, p), e, item.value, name) {
        hide Convertible;
        if table == WorkItems { NextRowWhen(env, table, p.work, e, item.value, n => WorkDefault(e, n)); }
        else { NextRowWhen(env, table, p.subagents, e, item.value, n => SubagentDefault(e, n)); }
      }
    }
  }

  // ----- The summary -----

  /** One if the row exists and its field has the value, else zero. */
  function Counted(rows: map<Slot, Row>, slot: Slot, name: string, value: Value): nat {
    if slot in rows && name in rows[slot].fields && rows[slot].fields[name] == value then 1 else 0
  }

  function Unblocked(rows: map<Slot, Row>, slot: Slot): nat {
    Counted(rows, slot, "blocker", Null)
  }

  function Present(rows: map<Slot, Row>, slot: Slot): nat {
    if slot in rows then 1 else 0
  }

  lemma {:induction false} TotalMoves(s: State, s': State, runId: Uuid, slot: Slot)
    requires Summarize(s, runId).Some? && Summarize(s', runId).Some? && slot.runId == runId && slot in s'.work
    requires s'.work == s.work[slot := s'.work[slot]]
    ensures Summarize(s', runId).value.totalWorkItems
         == Summarize(s, runId).value.totalWorkItems + 1 - Present(s.work, slot)
  {
    hide Column, FieldIs;
    OneApart((set x | x in s.work && x.runId == runId), (set x | x in s'.work && x.runId == runId), slot);
  }

  lemma {:induction false} CompletedMoves(s: State, s': State, runId: Uuid, slot: Slot)
    requires Summarize(s, runId).Some? && Summarize(s', runId).Some? && slot.runId == runId && slot in s'.work
    requires s'.work == s.work[slot := s'.work[slot]]
    ensures Summarize(s', runId).value.completedWorkItems + Counted(s.work, slot, "status", Str("completed"))
         == Summarize(s, runId).value.completedWorkItems + Counted(s'.work, slot, "status", Str("completed"))
  {
    hide Column;
    var was := set x | x in s.work && x.runId == runId && FieldIs(s.work[x], "status", Str("completed"));
    var now := set x | x in s'.work && x.runId == runId && FieldIs(s'.work[x], "status", Str("completed"));
    OneApart(was, now, slot);
  }

  lemma {:induction false} BlockersMove(s: State, s': State, runId: Uuid, slot: Slot)
    requires Summarize(s, runId).Some? && Summarize(s', runId).Some? && slot.runId == runId && slot in s'.work
    requires s'.work == s.work[slot := s'.work[slot]]
    ensures Summarize(s', runId).value.blockerCount + Present(s.work, slot) - Unblocked(s.work, slot)
         == Summarize(s, runId).value.blockerCount + 1 - Unblocked(s'.work, slot)
  {
    hide Column;
    var was := set x | x in s.work && x.runId == runId && !FieldIs(s.work[x], "blocker", Null);
    var now := set x | x in s'.work && x.runId == runId && !FieldIs(s'.work[x], "blocker", Null);
    OneApart(was, now, slot);
  }

  lemma {:induction false} RunningMove(s: State, s': State, runId: Uuid, slot: Slot)
    requires Summarize(s, runId).Some? && Summarize(s', runId).Some? && slot.runId == runId && slot in s'.subagents
    requires s'.subagents == s.subagents[slot := s'.subagents[slot]]
    ensures Summarize(s', runId).value.activeSubagents + Counted(s.subagents, slot, "status", Str("running"))
         == Summarize(s, runId).value.activeSubagents + Counted(s'.subagents, slot, "status", Str("running"))
  {
    hide Column;
    var was := set x | x in s.subagents && x.runId == runId && FieldIs(s.subagents[x], "status", Str("running"));
    var now := set x | x in s'.subagents && x.runId == runId && FieldIs(s'.subagents[x], "status", Str("running"));
    OneApart(was, now, slot);
  }

  lemma {:induction false} SameCounts(s: State, s': State, runId: Uuid)
    requires Summarize(s, runId).Some? && Summarize(s', runId).Some?
    ensures var a, b := Summarize(s, runId).value, Summarize(s', runId).value;
            && (s.work == s'.work ==>
                  b.totalWorkItems == a.totalWorkItems && b.completedWorkItems == a.completedWorkItems
                  && b.blockerCount == a.blockerCount)
            && (s.subagents == s'.subagents ==> b.activeSubagents == a.activeSubagents)
  {
    hide Column;
  }

  /** A projected event moves the counts of its run by what it does to the row of its item: the summary counts
      the rows, those with status `completed`, those with a blocker, and the subagents with status `running`. */
  lemma {:induction false} CountsMove(env: Env, s: State, e: Event)
    requires ApplyTo(env, s, e).Some? && Summarize(s, e.runId).Some?
    ensures var s' := ApplyTo(env, s, e).value;
            var work, subagent := ItemOf(env.uuid, WorkItems, e), ItemOf(env.uuid, Subagents, e);
            && Summarize(s', e.runId).Some?
            && var a, b := Summarize(s, e.runId).value, Summarize(s', e.runId).value;
               && (work.Some? ==>
                     var slot := Slot(e.runId, work.value);
                     && b.totalWorkItems == a.totalWorkItems + 1 - Present(s.work, slot)
                     && b.completedWorkItems + Counted(s.work, slot, "status", Str("completed"))
                        == a.completedWorkItems + Counted(s'.work, slot, "status", Str("completed"))
                     && b.blockerCount + Present(s.work, slot) - Unblocked(s.work, slot)
                        == a.blockerCount + 1 - Unblocked(s'.work, slot))
               && (work.None? ==>
                     && b.totalWorkItems == a.totalWorkItems && b.completedWorkItems == a.completedWorkItems
                     && b.blockerCount == a.blockerCount)
               && (subagent.Some? ==>
                     var slot := Slot(e.runId, subagent.value);
                     b.activeSubagents + Counted(s.subagents, slot, "status", Str("running"))
                     == a.activeSubagents + Counted(s'.subagents, slot, "status", Str("running")))
               && (subagent.None? ==> b.activeSubagents == a.activeSubagents)
  {
    hide NextRow, Summarize, Counted, Unblocked, Present, IsWorkEvent, IsSubagentEvent;
    KindsDiffer(e);
    var s' := ApplyTo(env, s, e).value;
    SameRun(s, s', e.runId);
    SameCounts(s, s', e.runId);
    if ItemOf(env.uuid, WorkItems, e).Some? {
      var slot := Slot(e.runId, ItemOf(env.uuid, WorkItems, e).value);
      TotalMoves(s, s', e.runId, slot);
      CompletedMoves(s, s', e.runId, slot);
      BlockersMove(s, s', e.runId, slot);
    }
    if ItemOf(env.uuid, Subagents, e).Some? {
      RunningMove(s, s', e.runId, Slot(e.runId, ItemOf(env.uuid, Subagents, e).value));
    }
  }

  lemma SameRun(s: State, s': State, runId: Uuid)
    requires Summarize(s, runId).Some? && s'.runs == s.runs && s'.events == s.events && s'.created == s.created
    ensures Summarize(s', runId).Some?
  {
    hide Column;
  }

  lemma {:induction false} NoRowsNoSlots(rows: map<Slot, Row>, runId: Uuid)
    requires RowsOf(rows, runId) == map[]
    ensures (set slot | slot in rows && slot.runId == runId) == {}
  {
    assert forall slot :: slot in rows && slot.runId == runId ==> slot.id in RowsOf(rows, runId);
  }

  /** A run that was just created has no rows to count. */
  lemma {:induction false} NothingCounted(env: Env, s: State, runId: Uuid)
    requires Summarize(s, runId).Some? && ProjectionOf(s, runId) == NO_ROWS
    ensures var a := Summarize(s, runId).value;
            a.totalWorkItems == a.completedWorkItems == a.blockerCount == a.activeSubagents == 0
  {
    hide Column, RowsOf, FieldIs;
    var work := set slot | slot in s.work && slot.runId == runId;
    var subagents := set slot | slot in s.subagents && slot.runId == runId;
    var completed := set slot | slot in s.work && slot.runId == runId
                                && FieldIs(s.work[slot], "status", Str("completed"));
    var blocked := set slot | slot in s.work && slot.runId == runId && !FieldIs(s.work[slot], "blocker", Null);
    var running := set slot | slot in s.subagents && slot.runId == runId
                              && FieldIs(s.subagents[slot], "status", Str("running"));
    assert completed <= work && blocked <= work && running <= subagents;
    NoRowsNoSlots(s.work, runId);
    NoRowsNoSlots(s.subagents, runId);
  }

  /** A stored `work.completed` that says so leaves its item completed, and the summary counts it. */
  lemma {:induction false} CompletedIsCounted(env: Env, s: State, runId: Uuid, draft: Draft, at: int)
    requires StoreInv(env, s) && runId in s.runs && draft.eventType == "work.completed"
    requires "status" in draft.payload && draft.payload["status"] == Str("completed")
    requires env.convert("status", Str("completed")) == Some(Str("completed"))
    requires Append(env, s, runId, draft, at).0.Ok? && Append(env, s, runId, draft, at).1.events != s.events
    ensures draft.workItemId.Some? && runId in s.events
    ensures var s', slot := Append(env, s, runId, draft, at).1, Slot(runId, draft.workItemId.value);
            && slot in s'.work && "status" in s'.work[slot].fields
            && s'.work[slot].fields["status"] == Str("completed")
            && Summarize(s, runId).Some? && Summarize(s', runId).Some?
            && Summarize(s', runId).value.completedWorkItems
               == Summarize(s, runId).value.completedWorkItems + 1 - Counted(s.work, slot, "status", Str("completed"))
            && Summarize(s', runId).value.eventCount == Summarize(s, runId).value.eventCount + 1
  {
    hide JournalOk, ApplyTo, Apply, ProjectionOf, Summarize, FindKey, Counted;
    var e := NewEvent(s, runId, draft, at);
    assert "work.completed"[..5] == "work.";
    assert IsWorkEvent(e);
    var s1 := s.(events := s.events[runId := s.events[runId] + [e]]);
    var s' := ApplyTo(env, s1, e).value;
    JournaledSummary(s, s1, runId, e);
    ApplyToIsLocal(env, s1, e);
    hide StoreInv, IsWorkEvent;
    CountsMove(env, s1, e);
    EventsCounted(s1, s', runId);
    WorkNeedsItem(env, ProjectionOf(s1, runId), e);
    ProjectedField(env, WorkItems, ProjectionOf(s1, runId), e, "status");
    StatusShown(env, s', s1, e);
  }

  lemma WorkNeedsItem(env: Env, p: Projection, e: Event)
    requires Apply(env, p, e).Some? && IsWorkEvent(e)
    ensures ItemOf(env.uuid, WorkItems, e).Some? && e.draft.workItemId.Some?
  {
    hide NextRow;
  }

  lemma {:induction false} JournaledSummary(s: State, s1: State, runId: Uuid, e: Event)
    requires runId in s.runs && runId in s.events && runId in s.created
    requires s1 == s.(events := s.events[runId := s.events[runId] + [e]])
    ensures Summarize(s, runId).Some? && Summarize(s1, runId).Some?
    ensures var a, b := Summarize(s, runId).value, Summarize(s1, runId).value;
            && b.completedWorkItems == a.completedWorkItems && b.totalWorkItems == a.totalWorkItems
            && b.blockerCount == a.blockerCount && b.activeSubagents == a.activeSubagents
            && b.eventCount == b.lastSequence == a.eventCount + 1 && b.updatedAt == e.createdAt
            && b.createdAt == a.createdAt
  {
    hide Column;
  }

  lemma EventsCounted(s: State, s': State, runId: Uuid)
    requires Summarize(s, runId).Some? && Summarize(s', runId).Some? && s'.events == s.events
    ensures Summarize(s', runId).value.eventCount == Summarize(s, runId).value.eventCount
  {
    hide Column;
  }

  lemma {:induction false} StatusShown(env: Env, s': State, s: State, e: Event)
    requires ItemOf(env.uuid, WorkItems, e).Some? && "status" in e.draft.payload
    requires e.draft.payload["status"] == Str("completed")
    requires env.convert("status", Str("completed")) == Some(Str("completed"))
    requires var id, rows := ItemOf(env.uuid, WorkItems, e).value, ProjectionOf(s', e.runId).work;
             && id in rows && "status" in rows[id].fields
             && Takes(env, WorkItems, ProjectionOf(s, e.runId).work, e, id, "status", rows[id].fields["status"])
    ensures var slot := Slot(e.runId, ItemOf(env.uuid, WorkItems, e).value);
            && slot in s'.work && "status" in s'.work[slot].fields
            && s'.work[slot].fields["status"] == Str("completed")
            && Counted(s'.work, slot, "status", Str("completed")) == 1
  {}

  // ----- What is journaled -----

  /** An event is journaled as the next of its run, with the parent of the run and the draft as given; a known key
      gives the event that has it, and an unknown run is refused. */
  lemma {:induction false} AppendsExactly(env: Env, s: State, runId: Uuid, draft: Draft, at: int)
    requires runId in s.runs <==> runId in s.events
    ensures var (result, s') := Append(env, s, runId, draft, at);
            if runId !in s.runs then result == Err(RunNotFound) && s' == s
            else if exists e :: e in s.events[runId] && draft.idempotencyKey.Some?
                                && e.draft.idempotencyKey == draft.idempotencyKey then
              s' == s && result.Ok? && result.value in s.events[runId]
              && result.value.draft.idempotencyKey == draft.idempotencyKey
            else
              && s'.runs == s.runs && s'.created == s.created && runId in s'.events
              && s'.events == s.events[runId := s'.events[runId]]
              && s'.events[runId] == s.events[runId]
                   + [Event(runId, |s.events[runId]| + 1, s.runs[runId].parentRunId, draft, at)]
              && (result == Ok(s'.events[runId][|s.events[runId]|]) || result == Err(InvalidEvent))
  {
    hide FindKey, NextRow, WorkDefault, SubagentDefault;
  }

  /** A new run is journaled as created, with what it was created with; its title may not be blank. */
  lemma {:induction false} CreatesExactly(env: Env, s: State, run: NewRun, details: Details, at: int)
    requires run.runId in s.runs ==> run.runId in s.events && s.events[run.runId] != []
    ensures var (result, s') := CreateRun(env, s, run, details, at);
            if run.runId in s.runs then
              s' == s && result == if s.runs[run.runId] == run then Ok(s.events[run.runId][0]) else Err(RunReused)
            else if IsBlank(run.title) then s' == s && result == Err(BlankTitle)
            else
              && s'.runs == s.runs[run.runId := run] && s'.created == s.created[run.runId := at]
              && s'.work == s.work && s'.subagents == s.subagents
              && run.runId in s'.events && |s'.events[run.runId]| == 1
              && result == Ok(s'.events[run.runId][0])
              && var e := s'.events[run.runId][0];
                 && e.runId == run.runId && e.sequence == 1 && e.parentRunId == run.parentRunId && e.createdAt == at
                 && e.draft.eventType == "run.created" && e.draft.status == run.status
                 && e.draft.summary == "Created run: " + run.title && e.draft.workItemId == None
                 && e.draft.idempotencyKey == Some("run.created")
                 && e.draft.payload == map["title" := Str(run.title), "status" := Str(run.status),
                                           "summary" := run.summary, "request_revision_id" := run.requestRevisionId,
                                           "policy_revision" := run.policyRevision]
  {
    if run.runId !in s.runs && !IsBlank(run.title) {
      var e := Event(run.runId, 1, run.parentRunId, CreatedDraft(run, details), at);
      var t := "run.created";
      assert t[..4] == "run." && t[..5] != "work." && t[..9] != "subagent." by {
        assert t[..5][0] == 'r' && t[..9][0] == 'r' && "work."[0] == 'w' && "subagent."[0] == 's';
      }
    }
    hide NextRow;
  }

  // ----- The columns of the run -----

  /** The k-th event is the last run event that names the column. */
  predicate LastNames(events: seq<Event>, name: string, k: int) {
    && 0 <= k < |events| && IsRunEvent(events[k]) && name in events[k].draft.payload
    && forall m :: k < m < |events| && IsRunEvent(events[m]) ==> name !in events[m].draft.payload
  }

  /** A column of the summary is what the last run event that names it said. */
  lemma {:induction false} ColumnIsLastSaid(run: NewRun, events: seq<Event>, name: string, k: nat)
    requires LastNames(events, name, k)
    ensures Column(run, events, name) == events[k].draft.payload[name]
  {
    hide IsRunEvent;
    if k < |events| - 1 { ColumnIsLastSaid(run, events[..|events| - 1], name, k); }
  }

  /** A column that no run event names is what the run was created with. */
  lemma {:induction false} ColumnIsInitial(run: NewRun, events: seq<Event>, name: string)
    requires forall m :: 0 <= m < |events| && IsRunEvent(events[m]) ==> name !in events[m].draft.payload
    ensures name == "title" ==> Column(run, events, name) == Str(run.title)
    ensures name == "status" ==> Column(run, events, name) == Str(run.status)
    ensures name == "summary" ==> Column(run, events, name) == run.summary
    ensures name == "request_revision_id" ==> Column(run, events, name) == run.requestRevisionId
    ensures name == "policy_revision" ==> Column(run, events, name) == run.policyRevision
    ensures name in {"active_phase", "started_at", "completed_at"} ==> Column(run, events, name) == Null
  {
    hide IsRunEvent;
    if events != [] { ColumnIsInitial(run, events[..|events| - 1], name); }
  }

  /** The summary shows those columns and the extent and times of the journal. */
  lemma {:induction false} SummaryShows(env: Env, s: State, runId: Uuid, name: string)
    requires StoreInv(env, s) && runId in s.runs
    requires name in {"title", "status", "summary", "active_phase", "request_revision_id", "policy_revision",
                      "started_at", "completed_at"}
    ensures runId in s.events && s.events[runId] != [] && Summarize(s, runId).Some?
    ensures var events, shown := s.events[runId], Summarize(s, runId).value;
            && name in shown.columns && shown.columns[name] == Column(s.runs[runId], events, name)
            && shown.eventCount == shown.lastSequence == events[|events| - 1].sequence == |events|
            && shown.updatedAt == events[|events| - 1].createdAt
  {
    hide Column, Fold, ProjectionOf, UniqueKeys;
    assert JournalOk(env, runId, s.events[runId], ProjectionOf(s, runId));
  }
}
