/** The resumable stream over a growing journal, with disconnections (realtime.py:42-110). */
module EventStream {
  import opened Wrappers
  import opened Text
  import opened EventJournal

  // ----- The cursor of a reconnecting client: lines 98-110 -----

  /** The digits of a Python integer literal: single underscores may separate them. */
  predicate IsDigits(text: string) {
    text != [] && IsDigit(text[0])
    && (|text| == 1 || IsDigits(text[1..]) || (text[1] == '_' && IsDigits(text[2..])))
  }

  function DigitsValue(text: string, so_far: nat): nat
    requires IsDigits(text)
  {
    var value := 10 * so_far + DigitValue(text[0]);
    if |text| == 1 then value
    else if IsDigits(text[1..]) then DigitsValue(text[1..], value)
    else DigitsValue(text[2..], value)
  }

  /** `int(text)`, for ASCII digits. */
  function ParseInt(text: string): Option<int> {
    var body := Strip(text);
    if body != [] && (body[0] == '+' || body[0] == '-') then
      if IsDigits(body[1..]) then
        Some(if body[0] == '-' then 0 - DigitsValue(body[1..], 0) else DigitsValue(body[1..], 0))
      else None
    else if IsDigits(body) then Some(DigitsValue(body, 0))
    else None
  }

  /** `parse_last_event_id`: None is the client error. */
  function ParseLastEventId(header: Option<string>): Option<nat> {
    if header.None? || header == Some("") then Some(0)
    else
      match ParseInt(header.value)
      case None => None
      case Some(cursor) => if cursor < 0 then None else Some(cursor)
  }

  lemma {:induction false} AllDigitsAreDigits(text: string)
    requires text != [] && AllDigits(text)
    ensures IsDigits(text)
  {
    assert text[0] in text;
    if |text| > 1 {
      assert forall c :: c in text[1..] ==> c in text;
      AllDigitsAreDigits(text[1..]);
    }
  }

  lemma {:induction false} DigitsValueSnoc(text: string, c: char, so_far: nat)
    requires text != [] && AllDigits(text) && IsDigit(c)
    ensures IsDigits(text) && IsDigits(text + [c])
    ensures DigitsValue(text + [c], so_far) == 10 * DigitsValue(text, so_far) + DigitValue(c)
  {
    AllDigitsAreDigits(text);
    AllDigitsAreDigits(text + [c]);
    assert text[0] in text;
    if |text| > 1 {
      assert text[1] in text && IsDigit(text[1]);
      assert forall d :: d in text[1..] ==> d in text;
      assert (text + [c])[1..] == text[1..] + [c];
      DigitsValueSnoc(text[1..], c, 10 * so_far + DigitValue(text[0]));
    } else {
      assert (text + [c])[1..] == [c];
    }
  }

  lemma {:induction false} NatTextDigits(n: nat)
    ensures IsDigits(NatText(n)) && DigitsValue(NatText(n), 0) == n
  {
    AllDigitsAreDigits(NatText(n));
    if n >= 10 {
      NatTextDigits(n / 10);
      DigitsValueSnoc(NatText(n / 10), DigitText(n % 10), 0);
    }
  }

  /** The id of a delivered event parses back to its sequence number. */
  lemma {:induction false} LastEventIdRoundTrip(n: nat)
    ensures ParseLastEventId(Some(NatText(n))) == Some(n)
  {
    NatTextDigits(n);
    var text := NatText(n);
    assert text[0] in text && text[|text| - 1] in text;
    assert Strip(text) == text;
  }

  // ----- The stream -----

  /** Where `iter_bytes` is suspended. */
  datatype Point =
    | Polling
    | Yielding(batch: seq<Event>)
    | Waiting
    | Failed                              // the non-monotonic sequence error

  datatype Connection = Connection(cursor: nat, idle: real, point: Point)

  datatype Setting = Setting(batchSize: nat, pollInterval: real, heartbeatInterval: real)

  /** The constructor's checks. */
  predicate SettingOk(setting: Setting) {
    setting.batchSize >= 1 && setting.pollInterval > 0.0 && setting.heartbeatInterval >= setting.pollInterval
  }

  datatype Chunk = Message(event: Event) | KeepAlive

  /** One step of the generator: the next connection and the chunk it yields, if any. */
  function Advance(setting: Setting, journal: seq<Event>, c: Connection): (Connection, Option<Chunk>)
    requires c.point.Yielding? ==> c.point.batch != []
  {
    match c.point
    case Polling =>
      var events := ListEvents(journal, c.cursor, setting.batchSize);
      (c.(point := if events != [] then Yielding(events) else Waiting), None)
    case Yielding(batch) =>
      if batch[0].sequence <= c.cursor then (c.(point := Failed), None)
      else if |batch| == 1 then (Connection(batch[0].sequence, 0.0, Polling), Some(Message(batch[0])))
      else (c.(cursor := batch[0].sequence, point := Yielding(batch[1..])), Some(Message(batch[0])))
    case Waiting =>
      var idle := c.idle + setting.pollInterval;
      if idle >= setting.heartbeatInterval then (Connection(c.cursor, 0.0, Polling), Some(KeepAlive))
      else (Connection(c.cursor, idle, Polling), None)
    case Failed => (c, None)
  }

  /** The journal, the open connection, the chunks in flight, and what the client has received. */
  datatype System = System(journal: seq<Event>, start: nat, connection: Connection, wire: seq<Chunk>,
                           received: seq<Event>)

  datatype Step =
    | AppendRow(event: Event)
    | Run                                 // the generator advances
    | Arrive                              // the client receives the oldest chunk in flight
    | Reconnect                           // the connection drops with all that is in flight

  /** The `Last-Event-ID` header of a reconnecting client. */
  function LastEventId(s: System): string {
    NatText(if s.received == [] then s.start else s.received[|s.received| - 1].sequence)
  }

  predicate Enabled(s: System, step: Step) {
    match step
    case AppendRow(e) => e.sequence == |s.journal| + 1
    case Run => s.connection.point.Yielding? ==> s.connection.point.batch != []
    case Arrive => s.wire != []
    case Reconnect => true
  }

  function Next(setting: Setting, s: System, step: Step): System
    requires Enabled(s, step)
  {
    match step
    case AppendRow(e) => s.(journal := s.journal + [e])
    case Run =>
      var (connection, chunk) := Advance(setting, s.journal, s.connection);
      s.(connection := connection, wire := s.wire + match chunk case Some(x) => [x] case None => [])
    case Arrive =>
      s.(wire := s.wire[1..], received := s.received + match s.wire[0] case Message(e) => [e] case KeepAlive => [])
    case Reconnect =>
      (match ParseLastEventId(Some(LastEventId(s)))
       case Some(cursor) => s.(connection := Connection(cursor, 0.0, Polling), wire := [])
       case None => s)
  }

  // ----- What every step keeps -----

  function Messages(wire: seq<Chunk>): seq<Event> {
    if wire == [] then []
    else Messages(wire[..|wire| - 1]) + match wire[|wire| - 1] case Message(e) => [e] case KeepAlive => []
  }

  /** `events` are the rows of the journal from one cursor to another. */
  predicate Rows(journal: seq<Event>, from: nat, to: nat, events: seq<Event>) {
    from <= to && |events| == to - from && (events != [] ==> to <= |journal| && events == journal[from..to])
  }

  ghost predicate Inv(s: System) {
    && Numbered(s.journal)
    && !s.connection.point.Failed?
    && Rows(s.journal, s.start, s.start + |s.received|, s.received)
    && Rows(s.journal, s.start + |s.received|, s.connection.cursor, Messages(s.wire))
    && (s.connection.point.Yielding? ==>
          s.connection.point.batch != []
          && Rows(s.journal, s.connection.cursor, s.connection.cursor + |s.connection.point.batch|,
                  s.connection.point.batch))
  }

  lemma {:induction false} MessagesSnoc(wire: seq<Chunk>, chunk: Chunk)
    ensures Messages(wire + [chunk]) == Messages(wire) + match chunk case Message(e) => [e] case KeepAlive => []
  {
    assert (wire + [chunk])[..|wire|] == wire;
  }

  lemma {:induction false} MessagesHead(wire: seq<Chunk>)
    requires wire != []
    ensures Messages(wire) == (match wire[0] case Message(e) => [e] case KeepAlive => []) + Messages(wire[1..])
  {
    var n := |wire| - 1;
    if n > 0 {
      MessagesHead(wire[..n]);
      assert wire[..n][1..] == wire[1..][..n - 1] && wire[1..][n - 1] == wire[n];
    } else {
      assert wire[..0] == [] && wire[1..] == [];
    }
  }

  lemma {:induction false} RowsAppend(journal: seq<Event>, e: Event, from: nat, to: nat, events: seq<Event>)
    requires Rows(journal, from, to, events)
    ensures Rows(journal + [e], from, to, events)
  {
    if events != [] { assert (journal + [e])[from..to] == journal[from..to]; }
  }

  lemma {:induction false} RowsJoin(journal: seq<Event>, a: nat, b: nat, c: nat, x: seq<Event>, y: seq<Event>)
    requires Rows(journal, a, b, x) && Rows(journal, b, c, y)
    ensures Rows(journal, a, c, x + y)
  {}

  lemma {:induction false} RowsSplit(journal: seq<Event>, a: nat, c: nat, e: Event, rest: seq<Event>)
    requires Rows(journal, a, c, [e] + rest)
    ensures Rows(journal, a, a + 1, [e]) && Rows(journal, a + 1, c, rest)
  {
    assert ([e] + rest)[0] == e && ([e] + rest)[1..] == rest;
  }

  lemma {:induction false} PollGivesRows(journal: seq<Event>, cursor: nat, limit: nat)
    requires Numbered(journal) && limit >= 1
    ensures var events := ListEvents(journal, cursor, limit);
            Rows(journal, cursor, cursor + |events|, events) && (events == [] <==> cursor >= |journal|)
  {
    ListingIsSlice(journal, 0, cursor, limit);
    assert journal[0..] == journal;
  }

  lemma {:induction false} RunKeeps(setting: Setting, s: System)
    requires SettingOk(setting) && Inv(s)
    ensures Inv(Next(setting, s, Run))
  {
    hide Rows, ListEvents, Numbered, Messages;
    var c := s.connection;
    match c.point
    case Polling => PollGivesRows(s.journal, c.cursor, setting.batchSize);
    case Waiting =>
      MessagesSnoc(s.wire, KeepAlive);
      assert s.wire + [] == s.wire && Messages(s.wire) + [] == Messages(s.wire);
    case Yielding(batch) =>
      assert batch == [batch[0]] + batch[1..];
      RowsSplit(s.journal, c.cursor, c.cursor + |batch|, batch[0], batch[1..]);
      RowSequence(s.journal, c.cursor, batch[0]);
      MessagesSnoc(s.wire, Message(batch[0]));
      RowsJoin(s.journal, s.start + |s.received|, c.cursor, c.cursor + 1, Messages(s.wire), [batch[0]]);
    case Failed => assert false;
  }

  lemma {:induction false} RowSequence(journal: seq<Event>, cursor: nat, e: Event)
    requires Numbered(journal) && Rows(journal, cursor, cursor + 1, [e])
    ensures e.sequence == cursor + 1
  {
    assert [e][0] == journal[cursor..cursor + 1][0];
  }

  lemma {:induction false} ArriveKeeps(setting: Setting, s: System)
    requires Inv(s) && s.wire != []
    ensures Inv(Next(setting, s, Arrive))
  {
    hide Rows, Numbered, Messages;
    MessagesHead(s.wire);
    match s.wire[0]
    case KeepAlive => assert s.received + [] == s.received && [] + Messages(s.wire[1..]) == Messages(s.wire[1..]);
    case Message(e) =>
      RowsSplit(s.journal, s.start + |s.received|, s.connection.cursor, e, Messages(s.wire[1..]));
      RowsJoin(s.journal, s.start, s.start + |s.received|, s.start + |s.received| + 1, s.received, [e]);
  }

  /** A reconnecting client asks for exactly what it has not received. */
  lemma {:induction false} ReconnectKeeps(setting: Setting, s: System)
    requires Inv(s)
    ensures Inv(Next(setting, s, Reconnect)) && Next(setting, s, Reconnect).connection.cursor == s.start + |s.received|
  {
    hide ParseLastEventId, NatText;
    var last := s.start + |s.received|;
    if s.received != [] {
      assert s.received[|s.received| - 1] == s.journal[s.start..last][|s.received| - 1] == s.journal[last - 1];
    }
    LastEventIdRoundTrip(last);
    assert Messages([]) == [];
  }

  lemma {:induction false} AppendKeeps(setting: Setting, s: System, e: Event)
    requires Inv(s) && e.sequence == |s.journal| + 1
    ensures Inv(Next(setting, s, AppendRow(e)))
  {
    hide Rows, Messages;
    RowsAppend(s.journal, e, s.start, s.start + |s.received|, s.received);
    RowsAppend(s.journal, e, s.start + |s.received|, s.connection.cursor, Messages(s.wire));
    if s.connection.point.Yielding? {
      var batch := s.connection.point.batch;
      RowsAppend(s.journal, e, s.connection.cursor, s.connection.cursor + |batch|, batch);
    }
  }

  // ----- Runs -----

  datatype History = History(states: seq<System>, steps: seq<Step>)

  ghost predicate IsHistory(setting: Setting, h: History) {
    && SettingOk(setting) && |h.states| == |h.steps| + 1
    && Numbered(h.states[0].journal) && h.states[0].connection == Connection(h.states[0].start, 0.0, Polling)
    && h.states[0].wire == [] && h.states[0].received == []
    && forall k :: 0 <= k < |h.steps| ==>
          Enabled(h.states[k], h.steps[k]) && h.states[k + 1] == Next(setting, h.states[k], h.steps[k])
  }

  lemma {:induction false} HistoryInv(setting: Setting, h: History, k: nat)
    requires IsHistory(setting, h) && k < |h.states|
    ensures Inv(h.states[k]) && h.states[k].start == h.states[0].start
  {
    if k > 0 {
      HistoryInv(setting, h, k - 1);
      hide Inv, Advance, ParseLastEventId;
      var s := h.states[k - 1];
      match h.steps[k - 1]
      case AppendRow(e) => AppendKeeps(setting, s, e);
      case Run => RunKeeps(setting, s);
      case Arrive => ArriveKeeps(setting, s);
      case Reconnect => ReconnectKeeps(setting, s);
    }
  }

  /** Whatever the batch size, however appends interleave with polls, and however often the connection
      drops, the client has received exactly the first rows after its starting cursor, in order, without
      a gap or a duplicate; and the non-monotonic error never occurs. */
  lemma {:induction false} DeliversJournalInOrder(setting: Setting, h: History, k: nat)
    requires IsHistory(setting, h) && k < |h.states|
    ensures var s := h.states[k];
            && !s.connection.point.Failed?
            && (s.received != [] ==>
                    s.start + |s.received| <= |s.journal| && s.received == s.journal[s.start..s.start + |s.received|])
            && forall i :: 0 <= i < |s.received| ==> s.received[i].sequence == s.start + i + 1
  {
    HistoryInv(setting, h, k);
    hide IsHistory;
    var s := h.states[k];
    forall i | 0 <= i < |s.received| ensures s.received[i].sequence == s.start + i + 1 {
      assert s.received[i] == s.journal[s.start..s.start + |s.received|][i];
    }
  }

  /** A poll comes back empty only when every row after the cursor has been yielded. */
  lemma {:induction false} WaitsOnlyWhenCaughtUp(setting: Setting, h: History, k: nat)
    requires IsHistory(setting, h) && k < |h.steps| && h.steps[k].Run? && h.states[k].connection.point.Polling?
    ensures h.states[k + 1].connection.point.Waiting? <==> |h.states[k].journal| <= h.states[k].connection.cursor
    ensures h.states[k].connection.cursor == h.states[k].start + |h.states[k].received| + |Messages(h.states[k].wire)|
  {
    HistoryInv(setting, h, k);
    PollGivesRows(h.states[k].journal, h.states[k].connection.cursor, setting.batchSize);
  }

  // ----- The stream object -----

  /** `ResumableEventStream.iter_bytes` for one run; the journal is read at each poll. */
  class ResumableEventStream {
    const setting: Setting
    var cursor: nat
    var idleFor: real
    var batch: seq<Event>
    var waiting: bool
    var failed: bool

    ghost function View(): Connection
      reads this
    {
      Connection(cursor, idleFor,
                 if failed then Failed else if batch != [] then Yielding(batch) else if waiting then Waiting
                 else Polling)
    }

    constructor (setting: Setting, afterSequence: nat)
      requires SettingOk(setting)
      ensures this.setting == setting && View() == Connection(afterSequence, 0.0, Polling)
    {
      this.setting := setting;
      cursor, idleFor, batch, waiting, failed := afterSequence, 0.0, [], false, false;
    }

    /** Runs to the next await or yield. */
    method Resume(journal: seq<Event>) returns (chunk: Option<Chunk>)
      modifies this
      ensures (View(), chunk) == Advance(setting, journal, old(View()))
    {
      chunk := None;
      if failed {
        return;
      } else if batch != [] {
        var event := batch[0];
        if event.sequence <= cursor {
          failed := true;
          return;
        }
        cursor := event.sequence;
        batch := batch[1..];
        chunk := Some(Message(event));
        if batch == [] {
          idleFor := 0.0;
          waiting := false;
        }
      } else if waiting {
        waiting := false;
        idleFor := idleFor + setting.pollInterval;
        if idleFor >= setting.heartbeatInterval {
          chunk := Some(KeepAlive);
          idleFor := 0.0;
        }
      } else {
        batch := ListEvents(journal, cursor, setting.batchSize);
        waiting := batch == [];
      }
    }
  }
}
