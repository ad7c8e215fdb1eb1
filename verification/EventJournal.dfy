/** The append-only journal of one run (persistence/models.py). */
module EventJournal {
  import opened Wrappers
  import opened Text

  /** A JSON value or database value of an event payload. */
  datatype Value = Null | Str(text: string) | Num(i: int) | Moment(at: int) | Items(items: seq<string>)

  /** The identifiers and references an event only carries along. */
  datatype Details = Details(eventId: Uuid, actorId: Option<string>, causationId: Option<Uuid>,
                             correlationId: Option<Uuid>, payloadRef: Option<string>)

  datatype Draft = Draft(eventType: string, status: string, summary: string, payload: map<string, Value>,
                         workItemId: Option<Uuid>, idempotencyKey: Option<string>, details: Details)

  datatype Event = Event(runId: Uuid, sequence: nat, parentRunId: Option<Uuid>, draft: Draft, createdAt: int)

  predicate HasPrefix(text: string, prefix: string) {
    |prefix| <= |text| && text[..|prefix|] == prefix
  }

  predicate IsRunEvent(e: Event) { HasPrefix(e.draft.eventType, "run.") }
  predicate IsWorkEvent(e: Event) { HasPrefix(e.draft.eventType, "work.") }
  predicate IsSubagentEvent(e: Event) { HasPrefix(e.draft.eventType, "subagent.") }

  /** Sequence numbers are 1, 2, ... without a gap. */
  predicate Numbered(events: seq<Event>) {
    forall k :: 0 <= k < |events| ==> events[k].sequence == k + 1
  }

  /** No two events share an idempotency key. */
  predicate UniqueKeys(events: seq<Event>) {
    forall i, j :: 0 <= i < j < |events| && events[i].draft.idempotencyKey.Some? ==>
      events[i].draft.idempotencyKey != events[j].draft.idempotencyKey
  }

  /** The event an idempotency key already stands for. */
  function FindKey(events: seq<Event>, key: string): (found: Option<Event>)
    ensures found.Some? ==> found.value in events && found.value.draft.idempotencyKey == Some(key)
    ensures found.None? ==> forall e :: e in events ==> e.draft.idempotencyKey != Some(key)
  {
    if events == [] then None
    else if events[0].draft.idempotencyKey == Some(key) then Some(events[0])
    else FindKey(events[1..], key)
  }

  /** `list_events`: at most `limit` events after the cursor. */
  function ListEvents(events: seq<Event>, after: int, limit: nat): seq<Event> {
    if events == [] || limit == 0 then []
    else if events[0].sequence > after then [events[0]] + ListEvents(events[1..], after, limit - 1)
    else ListEvents(events[1..], after, limit)
  }

  function Min(a: int, b: int): int {
    if a <= b then a else b
  }

  /** The slice of a numbered journal that a listing from position `first` on gives. */
  function Listed(events: seq<Event>, first: nat, after: nat, limit: nat): seq<Event>
    requires first <= |events|
  {
    if after >= |events| then []
    else
      var start := if first <= after then after else first;
      events[start..Min(start + limit, |events|)]
  }

  /** In a numbered journal a listing is the slice after the cursor. */
  lemma {:induction false} ListingIsSlice(events: seq<Event>, first: nat, after: nat, limit: nat)
    requires Numbered(events) && first <= |events|
    ensures ListEvents(events[first..], after, limit) == Listed(events, first, after, limit)
    decreases |events| - first
  {
    hide Listed, ListEvents;
    if first < |events| && limit > 0 {
      assert events[first].sequence == first + 1;
      hide Numbered;
      ListedStep(events, first, after, limit);
      ListStep(events, first, after, limit);
      ListingIsSlice(events, first + 1, after, if first + 1 > after then limit - 1 else limit);
    } else {
      ListedNone(events, first, after, limit);
      ListNone(events[first..], after, limit);
    }
  }

  lemma ListNone(events: seq<Event>, after: nat, limit: nat)
    requires events == [] || limit == 0
    ensures ListEvents(events, after, limit) == []
  {}

  lemma {:induction false} ListStep(events: seq<Event>, first: nat, after: nat, limit: nat)
    requires first < |events| && limit > 0
    ensures ListEvents(events[first..], after, limit)
         == if events[first].sequence > after then [events[first]] + ListEvents(events[first + 1..], after, limit - 1)
            else ListEvents(events[first + 1..], after, limit)
  {
    assert events[first..][0] == events[first] && events[first..][1..] == events[first + 1..];
  }

  lemma ListedNone(events: seq<Event>, first: nat, after: nat, limit: nat)
    requires first <= |events| && (first == |events| || limit == 0)
    ensures Listed(events, first, after, limit) == []
  {}

  lemma {:induction false} ListedStep(events: seq<Event>, first: nat, after: nat, limit: nat)
    requires first < |events| && limit > 0
    ensures Listed(events, first, after, limit)
         == if first + 1 > after then [events[first]] + Listed(events, first + 1, after, limit - 1)
            else Listed(events, first + 1, after, limit)
  {}
}
