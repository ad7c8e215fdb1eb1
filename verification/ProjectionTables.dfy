/** The tables of projected rows, common to both event stores (persistence/models.py). */
module ProjectionTables {
  import opened Wrappers
  import opened Text
  import opened EventJournal
  import opened MemoryStore

  /** The work items and the subagents of a run. */
  datatype Table = WorkItems | Subagents

  function FieldsOf(table: Table): set<string> {
    match table
    case WorkItems =>
      {"parent_work_item_id", "subagent_id", "phase", "kind", "label", "status", "position", "completed_units",
       "total_units", "blocker"}
    case Subagents =>
      {"parent_subagent_id", "child_run_id", "label", "goal", "status", "tool_scope", "started_at", "completed_at"}
  }

  predicate OfTable(table: Table, e: Event) {
    match table case WorkItems => IsWorkEvent(e) case Subagents => IsSubagentEvent(e)
  }

  /** The item of the table that the event describes, if it names one. */
  function ItemOf(uuid: Value -> Option<Uuid>, table: Table, e: Event): Option<Uuid> {
    if !OfTable(table, e) then None
    else
      match table
      case WorkItems => e.draft.workItemId
      case Subagents =>
        if "subagent_id" in e.draft.payload && e.draft.payload["subagent_id"] != Null then
          uuid(e.draft.payload["subagent_id"])
        else None
  }

  /** One row is written, with the event's sequence number and time and every field; all others stay. */
  ghost predicate WritesRow(table: Table, rows: map<Uuid, Row>, rows': map<Uuid, Row>, e: Event, id: Uuid) {
    && id in rows' && rows' == rows[id := rows'[id]]
    && rows'[id].lastSequence == e.sequence && rows'[id].updatedAt == e.createdAt
    && rows'[id].createdAt == (if id in rows then rows[id].createdAt else e.createdAt)
    && rows'[id].fields.Keys == FieldsOf(table)
  }

  /** An event is of one kind at most. */
  lemma {:induction false} KindsDiffer(e: Event)
    ensures !(IsWorkEvent(e) && IsSubagentEvent(e)) && !(IsRunEvent(e) && IsWorkEvent(e))
    ensures !(IsRunEvent(e) && IsSubagentEvent(e))
  {
    var t := e.draft.eventType;
    assert IsWorkEvent(e) ==> t[..5][0] == 'w';
    assert IsSubagentEvent(e) ==> t[..9][0] == 's';
    assert IsRunEvent(e) ==> t[..4][0] == 'r';
  }

  /** Sets that differ in one element at most. */
  lemma {:induction false} OneApart<T>(a: set<T>, b: set<T>, x: T)
    requires a - {x} == b - {x}
    ensures |b| + (if x in a then 1 else 0) == |a| + (if x in b then 1 else 0)
  {
    if x in a { assert a == (a - {x}) + {x}; } else { assert a == a - {x}; }
    if x in b { assert b == (b - {x}) + {x}; } else { assert b == b - {x}; }
  }
}
