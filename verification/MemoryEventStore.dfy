/** `InMemoryEventStore` as an object (integration/event_store.py). */
module MemoryEventStore {
  import opened Wrappers
  import opened Text
  import opened EventJournal
  import opened MemoryStore

  // ----- The summary of a run: lines 166-217 -----

  datatype Summary = Summary(runId: Uuid, columns: map<string, Value>, completedWorkItems: nat, totalWorkItems: nat,
                             activeSubagents: nat, blockerCount: nat, eventCount: nat, lastSequence: nat,
                             createdAt: int, updatedAt: int)

  const COLUMNS := {"title", "status", "summary", "active_phase", "request_revision_id", "policy_revision",
                    "started_at", "completed_at"}

  /** The last value a run event gave the column, or what the run was created with. */
  function Column(run: NewRun, events: seq<Event>, name: string): Value {
    if events == [] then
      if name == "title" then Str(run.title)
      else if name == "status" then Str(run.status)
      else if name == "summary" then run.summary
      else if name == "request_revision_id" then run.requestRevisionId
      else if name == "policy_revision" then run.policyRevision
      else Null
    else
      var last := events[|events| - 1];
      if IsRunEvent(last) && name in last.draft.payload then last.draft.payload[name]
      else Column(run, events[..|events| - 1], name)
  }

  predicate FieldIs(row: Row, name: string, value: Value) {
    name in row.fields && row.fields[name] == value
  }

  function Summarize(s: State, runId: Uuid): Option<Summary> {
    if runId !in s.runs || runId !in s.events || runId !in s.created then None
    else
      var events := s.events[runId];
      Some(Summary(
        runId,
        map name | name in COLUMNS :: Column(s.runs[runId], events, name),
        |set slot | slot in s.work && slot.runId == runId && FieldIs(s.work[slot], "status", Str("completed"))|,
        |set slot | slot in s.work && slot.runId == runId|,
        |set slot | slot in s.subagents && slot.runId == runId && FieldIs(s.subagents[slot], "status", Str("running"))|,
        |set slot | slot in s.work && slot.runId == runId && !FieldIs(s.work[slot], "blocker", Null)|,
        |events|, |events|, s.created[runId],
        if events == [] then s.created[runId] else events[|events| - 1].createdAt))
  }

  // ----- Dictionaries that differ from before in one run only -----

  ghost predicate OnlyRun(s: State, s': State, runId: Uuid) {
    && s'.runs == s.runs && s'.events == s.events && s'.created == s.created
    && (forall r :: r != runId ==> ProjectionOf(s', r) == ProjectionOf(s, r))
  }

  lemma {:induction false} ClearRows(rows: map<Slot, Row>, runId: Uuid)
    ensures var rows' := map slot | slot in rows && slot.runId != runId :: rows[slot];
            RowsOf(rows', runId) == map[] && forall r :: r != runId ==> RowsOf(rows', r) == RowsOf(rows, r)
  {
    var rows' := map slot | slot in rows && slot.runId != runId :: rows[slot];
    forall r | r != runId ensures RowsOf(rows', r) == RowsOf(rows, r) {
      assert forall id :: id in RowsOf(rows', r) <==> Slot(r, id) in rows';
      assert forall id :: id in RowsOf(rows, r) <==> Slot(r, id) in rows;
    }
  }

  /** A dictionary is determined by the rows of each run. */
  lemma {:induction false} SameRowsSame(rows: map<Slot, Row>, rows': map<Slot, Row>)
    requires forall r :: RowsOf(rows', r) == RowsOf(rows, r)
    ensures rows' == rows
  {
    forall slot: Slot
      ensures slot in rows' <==> slot in rows
      ensures slot in rows ==> rows'[slot] == rows[slot]
    {
      assert slot.id in RowsOf(rows', slot.runId) <==> slot.id in RowsOf(rows, slot.runId);
    }
  }

  lemma {:induction false} SameProjections(s: State, s': State, runId: Uuid)
    requires OnlyRun(s, s', runId) && ProjectionOf(s', runId) == ProjectionOf(s, runId)
    ensures s' == s
  {
    forall r ensures RowsOf(s'.work, r) == RowsOf(s.work, r) && RowsOf(s'.subagents, r) == RowsOf(s.subagents, r) {
      assert ProjectionOf(s', r) == ProjectionOf(s, r);
    }
    hide RowsOf;
    SameRowsSame(s.work, s'.work);
    SameRowsSame(s.subagents, s'.subagents);
  }

  // ----- The store -----

  class InMemoryEventStore {
    const env: Env
    var runs: map<Uuid, NewRun>
    var events: map<Uuid, seq<Event>>
    var runCreated: map<Uuid, int>
    var work: map<Slot, Row>
    var subagents: map<Slot, Row>

    ghost function View(): State
      reads this
    {
      State(runs, events, runCreated, work, subagents)
    }

    ghost predicate Valid()
      reads this
    {
      StoreInv(env, View())
    }

    constructor (env: Env)
      ensures Valid() && this.env == env && View() == EMPTY_STORE
    {
      this.env := env;
      runs, events, runCreated, work, subagents := map[], map[], map[], map[], map[];
    }

    /** The projection of one event; false stands for the raised ValueError. */
    method ApplyProjection(e: Event) returns (ok: bool)
      modifies this`work, this`subagents
      ensures ok <==> ApplyTo(env, old(View()), e).Some?
      ensures View() == if ok then ApplyTo(env, old(View()), e).value else old(View())
    {
      hide NextRow, WorkDefault, SubagentDefault;
      ok := true;
      if IsWorkEvent(e) {
        if e.draft.workItemId.None? { return false; }
        var key := Slot(e.runId, e.draft.workItemId.value);
        var previous := if key in work then Some(work[key]) else None;
        var next := NextRow(env, e, previous, WORK_FIELDS, name => WorkDefault(e, name));
        if next.None? { return false; }
        work := work[key := next.value];
      } else if IsSubagentEvent(e) {
        var subagentId := Subagent(env, e);
        if subagentId.None? { return false; }
        var key := Slot(e.runId, subagentId.value);
        var previous := if key in subagents then Some(subagents[key]) else None;
        var next := NextRow(env, e, previous, SUBAGENT_FIELDS, name => SubagentDefault(e, name));
        if next.None? { return false; }
        subagents := subagents[key := next.value];
      }
    }

    /** The search for an event with the draft's key. */
    method Existing(journal: seq<Event>, key: string) returns (found: Option<Event>)
      ensures found == FindKey(journal, key)
    {
      for k := 0 to |journal|
        invariant FindKey(journal, key) == FindKey(journal[k..], key)
      {
        assert journal[k..][0] == journal[k] && journal[k..][1..] == journal[k + 1..];
        if journal[k].draft.idempotencyKey == Some(key) { return Some(journal[k]); }
      }
      found := None;
    }

    method AppendEvent(runId: Uuid, draft: Draft, at: int) returns (result: Result<Event, StoreError>)
      requires Valid()
      modifies this
      ensures Valid() && (result, View()) == Append(env, old(View()), runId, draft, at)
    {
      hide StoreInv, FindKey, ApplyTo;
      ghost var before := View();
      if runId in runs { AppendKept(env, before, runId, draft, at); }
      if runId !in runs { return Err(RunNotFound); }
      var journal := events[runId];
      if draft.idempotencyKey.Some? {
        var existing := Existing(journal, draft.idempotencyKey.value);
        if existing.Some? { return Ok(existing.value); }
      }
      var event := Event(runId, |journal| + 1, runs[runId].parentRunId, draft, at);
      events := events[runId := journal + [event]];
      var ok := ApplyProjection(event);
      result := if ok then Ok(event) else Err(InvalidEvent);
    }

    method CreateRun(run: NewRun, details: Details, at: int) returns (result: Result<Event, StoreError>)
      requires Valid()
      modifies this
      ensures Valid() && (run.runId in old(events) ==> old(events)[run.runId] != [])
      ensures (result, View()) == MemoryStore.CreateRun(env, old(View()), run, details, at)
    {
      hide JournalOk, ProjectionOf, Append, CreatedDraft;
      CreateRunKeeps(env, View(), run, details, at);
      if run.runId in runs {
        if runs[run.runId] != run { return Err(RunReused); }
        return Ok(events[run.runId][0]);
      }
      if IsBlank(run.title) { return Err(BlankTitle); }
      ghost var before := View();
      runs := runs[run.runId := run];
      events := events[run.runId := []];
      runCreated := runCreated[run.runId := at];
      result := AppendFirst(run, details, at);
    }

    /** The append of `run.created` to a journal that is still empty. */
    method AppendFirst(run: NewRun, details: Details, at: int) returns (result: Result<Event, StoreError>)
      requires run.runId in runs && run.runId in events
      modifies this
      ensures (result, View()) == Append(env, old(View()), run.runId, CreatedDraft(run, details), at)
    {
      hide ApplyTo, FindKey;
      var draft := CreatedDraft(run, details);
      var journal := events[run.runId];
      var existing := Existing(journal, "run.created");
      if existing.Some? { return Ok(existing.value); }
      var event := Event(run.runId, |journal| + 1, runs[run.runId].parentRunId, draft, at);
      events := events[run.runId := journal + [event]];
      var ok := ApplyProjection(event);
      result := if ok then Ok(event) else Err(InvalidEvent);
    }

    /** `list_events`: in a journal that appends have numbered it is the slice after the cursor. */
    method ListRunEvents(runId: Uuid, after: nat, limit: nat) returns (listing: seq<Event>)
      requires Valid()
      ensures listing == if runId in events then Listed(events[runId], 0, after, limit) else []
    {
      hide Fold, UniqueKeys, ProjectionOf, Listed;
      if runId !in events { return []; }
      assert JournalOk(env, runId, events[runId], ProjectionOf(View(), runId));
      listing := ListEvents(events[runId], after, limit);
      ListingIsSlice(events[runId], 0, after, limit);
      assert events[runId][0..] == events[runId];
    }

    /** The dictionary comprehensions that drop the rows of one run. */
    method ClearRun(runId: Uuid)
      modifies this`work, this`subagents
      ensures OnlyRun(old(View()), View(), runId) && ProjectionOf(View(), runId) == NO_ROWS
    {
      hide RowsOf;
      ClearRows(work, runId);
      ClearRows(subagents, runId);
      work := map key | key in work && key.runId != runId :: work[key];
      subagents := map key | key in subagents && key.runId != runId :: subagents[key];
    }

    /** The replay loop; it stops at the first event that cannot be projected. */
    method ReplayJournal(runId: Uuid, journal: seq<Event>) returns (ok: bool)
      requires forall k :: 0 <= k < |journal| ==> journal[k].runId == runId
      requires ProjectionOf(View(), runId) == NO_ROWS
      modifies this`work, this`subagents
      ensures OnlyRun(old(View()), View(), runId) && (ok <==> Replay(env, journal).Some?)
      ensures ok ==> Replay(env, journal) == Some(ProjectionOf(View(), runId))
    {
      hide Apply, ApplyTo, ProjectionOf;
      ghost var before := View();
      for k := 0 to |journal|
        invariant OnlyRun(before, View(), runId)
        invariant Replay(env, journal[..k]) == Some(ProjectionOf(View(), runId))
      {
        assert journal[..k + 1][..k] == journal[..k] && journal[..k + 1][k] == journal[k];
        ApplyToIsLocal(env, View(), journal[k]);
        ok := ApplyProjection(journal[k]);
        if !ok {
          ReplayStops(env, journal, k);
          return;
        }
      }
      assert journal[..|journal|] == journal;
      ok := true;
    }

    /** Rebuilding succeeds exactly when every event of the journal was appended successfully, and then
        it changes nothing at all; it never touches another run. */
    method RebuildProjections(runId: Uuid) returns (result: Result<Summary, StoreError>)
      requires Valid()
      modifies this`work, this`subagents
      ensures runId !in runs ==> result == Err(RunNotFound) && View() == old(View())
      ensures runId in runs ==> runId in events
      ensures runId in runs ==>
                && (result.Ok? <==> forall k :: 0 <= k < |events[runId]| ==> Projects(env, events[runId], k))
                && (result.Ok? ==> View() == old(View()) && Some(result.value) == Summarize(View(), runId))
                && OnlyRun(old(View()), View(), runId)
    {
      hide Fold, Replay, Projects, ProjectionOf, UniqueKeys, Column;
      if runId !in runs { return Err(RunNotFound); }
      ghost var before := View();
      var journal := events[runId];
      assert JournalOk(env, runId, journal, ProjectionOf(before, runId));
      ClearRun(runId);
      var ok := ReplayJournal(runId, journal);
      ReplayIsFold(env, journal);
      if !ok { return Err(InvalidEvent); }
      SameProjections(before, View(), runId);
      result := Ok(Summarize(State(runs, events, runCreated, work, subagents), runId).value);
    }
  }

  lemma {:induction false} ReplayStops(env: Env, events: seq<Event>, k: nat)
    requires k < |events| && Replay(env, events[..k + 1]).None?
    ensures Replay(env, events).None?
  {
    if k + 1 < |events| {
      assert events[..|events| - 1][..k + 1] == events[..k + 1];
      ReplayStops(env, events[..|events| - 1], k);
    } else {
      assert events[..k + 1] == events;
    }
  }

  lemma {:induction false} AppendKept(env: Env, s: State, runId: Uuid, draft: Draft, at: int)
    requires StoreInv(env, s) && runId in s.runs
    ensures StoreInv(env, Append(env, s, runId, draft, at).1) && runId in s.events
  {
    AppendKeeps(env, s, runId, draft, at);
  }
}
