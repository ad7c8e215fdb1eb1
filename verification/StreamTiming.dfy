/** Keep-alives and cursors of the resumable stream (realtime.py:42-110). */
module StreamTiming {
  import opened Wrappers
  import opened Text
  import opened EventJournal
  import opened EventStream
  import opened ServerSentEvents

  // ----- Keep-alives -----

  /** A poll and the wait after it, on a journal that has nothing new. */
  function Quiet(setting: Setting, journal: seq<Event>, c: Connection): (Connection, Option<Chunk>)
    requires c.point.Polling?
  {
    var (polled, _) := Advance(setting, journal, c);
    if polled.point.Waiting? then Advance(setting, journal, polled) else (polled, None)
  }

  /** The chunks of n such rounds. */
  function Rounds(setting: Setting, journal: seq<Event>, c: Connection, n: nat): (Connection, seq<Chunk>)
    requires c.point.Polling?
    decreases n
  {
    if n == 0 then (c, [])
    else
      var (next, chunk) := Quiet(setting, journal, c);
      if !next.point.Polling? then (next, [])
      else
        var (last, rest) := Rounds(setting, journal, next, n - 1);
        (last, (match chunk case Some(x) => [x] case None => []) + rest)
  }

  lemma {:induction false} NothingNew(journal: seq<Event>, cursor: nat, limit: nat)
    requires forall k :: 0 <= k < |journal| ==> journal[k].sequence <= cursor
    ensures ListEvents(journal, cursor, limit) == []
  {
    if journal != [] { NothingNew(journal[1..], cursor, limit); }
  }

  /** After a round without news the time waited has grown by the poll interval; once that reaches the heartbeat
      interval a keep-alive is sent, and the time starts again. */
  lemma {:induction false} QuietRound(setting: Setting, journal: seq<Event>, c: Connection)
    requires c.point.Polling? && forall k :: 0 <= k < |journal| ==> journal[k].sequence <= c.cursor
    ensures var idle := c.idle + setting.pollInterval;
            Quiet(setting, journal, c)
            == if idle >= setting.heartbeatInterval then (Connection(c.cursor, 0.0, Polling), Some(KeepAlive))
               else (Connection(c.cursor, idle, Polling), None)
  {
    NothingNew(journal, c.cursor, setting.batchSize);
  }

  /** The time that n rounds take. */
  function Waited(setting: Setting, n: nat): real {
    n as real * setting.pollInterval
  }

  lemma {:induction false} WaitedOneMore(setting: Setting, n: nat)
    ensures Waited(setting, n + 1) == Waited(setting, n) + setting.pollInterval
  {}

  lemma {:induction false} WaitedInOrder(setting: Setting, m: nat, n: nat)
    requires m <= n && setting.pollInterval > 0.0
    ensures Waited(setting, m) <= Waited(setting, n)
  {
    if m < n {
      WaitedOneMore(setting, n - 1);
      WaitedInOrder(setting, m, n - 1);
      hide Waited;
    }
  }

  /** Without news a client hears nothing for as long as the rounds take less than the heartbeat interval. */
  lemma {:induction false} SilentUntilHeartbeat(setting: Setting, journal: seq<Event>, cursor: nat, past: nat, n: nat)
    requires setting.pollInterval > 0.0
    requires forall k :: 0 <= k < |journal| ==> journal[k].sequence <= cursor
    requires Waited(setting, past + n) < setting.heartbeatInterval
    ensures Rounds(setting, journal, Connection(cursor, Waited(setting, past), Polling), n)
         == (Connection(cursor, Waited(setting, past + n), Polling), [])
    decreases n
  {
    hide Waited, Quiet;
    if n > 0 {
      WaitedOneMore(setting, past);
      WaitedInOrder(setting, past + 1, past + n);
      QuietRound(setting, journal, Connection(cursor, Waited(setting, past), Polling));
      SilentUntilHeartbeat(setting, journal, cursor, past + 1, n - 1);
      var nothing: seq<Chunk> := [];
      assert nothing + nothing == nothing && past + 1 + (n - 1) == past + n;
    }
  }

  /** The keep-alive comes with the first round that completes the heartbeat interval, and the time starts again. */
  lemma {:induction false} KeepAliveIsInTime(setting: Setting, journal: seq<Event>, cursor: nat, n: nat)
    requires setting.pollInterval > 0.0
    requires forall k :: 0 <= k < |journal| ==> journal[k].sequence <= cursor
    requires Waited(setting, n) < setting.heartbeatInterval
    ensures var c := Rounds(setting, journal, Connection(cursor, 0.0, Polling), n).0;
            && Rounds(setting, journal, Connection(cursor, 0.0, Polling), n).1 == []
            && c == Connection(cursor, Waited(setting, n), Polling)
            && Quiet(setting, journal, c)
               == if Waited(setting, n + 1) >= setting.heartbeatInterval then
                    (Connection(cursor, 0.0, Polling), Some(KeepAlive))
                  else (Connection(cursor, Waited(setting, n + 1), Polling), None)
  {
    assert Waited(setting, 0) == 0.0;
    hide Waited, Quiet, Rounds;
    SilentUntilHeartbeat(setting, journal, cursor, 0, n);
    WaitedOneMore(setting, n);
    QuietRound(setting, journal, Connection(cursor, Waited(setting, n), Polling));
  }

  /** A delivered row moves the cursor to its number; with the last one of a batch the time waited starts again. */
  lemma {:induction false} DeliveryResets(setting: Setting, journal: seq<Event>, c: Connection)
    requires c.point.Yielding? && c.point.batch != [] && c.point.batch[0].sequence > c.cursor
    ensures var (next, chunk) := Advance(setting, journal, c);
            && chunk == Some(Message(c.point.batch[0])) && next.cursor == c.point.batch[0].sequence
            && (|c.point.batch| == 1 ==> next.point.Polling? && next.idle == 0.0)
            && (|c.point.batch| > 1 ==> next.point == Yielding(c.point.batch[1..]))
  {}

  /** A stream polls at least one row at a time, waits between polls, and sends keep-alives no more often. */
  lemma SettingMeans(setting: Setting)
    ensures SettingOk(setting) <==>
              setting.batchSize > 0 && setting.pollInterval > 0.0 && setting.pollInterval <= setting.heartbeatInterval
  {}

  // ----- Cursors -----

  /** Digits, which single underscores may separate. */
  predicate IsLiteral(text: string) {
    && text != [] && IsDigit(text[0]) && IsDigit(text[|text| - 1])
    && (forall k :: 0 <= k < |text| ==> IsDigit(text[k]) || text[k] == '_')
    && (forall k :: 0 <= k < |text| - 1 ==> text[k] != '_' || text[k + 1] != '_')
  }

  lemma {:induction false} DigitsAreLiteral(text: string)
    ensures IsDigits(text) <==> IsLiteral(text)
    decreases |text|
  {
    if |text| > 1 && IsDigit(text[0]) {
      assert !IsDigit('_');
      if text[1] == '_' {
        DigitsAreLiteral(text[2..]);
        TailLiteral(text, 2);
      } else {
        DigitsAreLiteral(text[1..]);
        TailLiteral(text, 1);
      }
    }
  }

  /** The rest of a literal after a leading digit, with or without a separator. */
  lemma {:induction false} TailLiteral(text: string, n: nat)
    requires 1 <= n <= 2 && |text| > 1 && IsDigit(text[0]) && (n == 2 <==> text[1] == '_')
    ensures IsLiteral(text) <==> n < |text| && IsLiteral(text[n..])
  {
    if IsLiteral(text) {
      assert n < |text|;
      if n == 2 { assert text[1] != '_' || text[2] != '_'; }
    }
    if n < |text| && IsLiteral(text[n..]) {
      assert text[n..][0] == text[n] && text[n..][|text| - n - 1] == text[|text| - 1];
      forall k | 0 <= k < |text| ensures IsDigit(text[k]) || text[k] == '_' {
        if k >= n { assert text[n..][k - n] == text[k]; }
      }
      forall k | 0 <= k < |text| - 1 ensures text[k] != '_' || text[k + 1] != '_' {
        if k >= n { assert text[n..][k - n] == text[k] && text[n..][k + 1 - n] == text[k + 1]; }
      }
    }
  }

  /** What is left of a literal without its separators. */
  function Bare(text: string): string {
    if text == [] then []
    else if text[0] == '_' then Bare(text[1..])
    else [text[0]] + Bare(text[1..])
  }

  /** The decimal value of digits after others that amount to `so_far`. */
  function Decimal(digits: string, so_far: nat): nat
    requires forall c :: c in digits ==> IsDigit(c)
  {
    if digits == [] then so_far else Decimal(digits[1..], 10 * so_far + DigitValue(digits[0]))
  }

  lemma {:induction false} BareDigits(text: string)
    requires forall k :: 0 <= k < |text| ==> IsDigit(text[k]) || text[k] == '_'
    ensures forall c :: c in Bare(text) ==> IsDigit(c)
  {
    if text != [] { BareDigits(text[1..]); }
  }

  /** A literal stands for the number that its digits write. */
  lemma {:induction false} LiteralValue(text: string, so_far: nat)
    requires IsDigits(text)
    ensures forall c :: c in Bare(text) ==> IsDigit(c)
    ensures DigitsValue(text, so_far) == Decimal(Bare(text), so_far)
    decreases |text|
  {
    DigitsAreLiteral(text);
    BareDigits(text);
    assert !IsDigit('_');
    var value := 10 * so_far + DigitValue(text[0]);
    assert Bare(text) == [text[0]] + Bare(text[1..]);
    assert Bare(text)[1..] == Bare(text[1..]);
    if |text| > 1 {
      if IsDigits(text[1..]) {
        LiteralValue(text[1..], value);
      } else {
        assert text[1] == '_';
        assert Bare(text[1..]) == Bare(text[2..]) by { assert text[1..][1..] == text[2..]; }
        LiteralValue(text[2..], value);
      }
    }
  }

  /** A missing or empty header starts at the beginning. Otherwise white space around it is ignored, an integer
      that is not negative is the cursor, and anything else is the client's error. */
  lemma {:induction false} CursorMeans(header: Option<string>)
    ensures header in {None, Some("")} ==> ParseLastEventId(header) == Some(0)
    ensures header.Some? && header != Some("") ==>
              var text := Strip(header.value);
              && (IsLiteral(text) ==> IsDigits(text) && ParseLastEventId(header) == Some(DigitsValue(text, 0)))
              && (text != [] && text[0] == '+' && IsLiteral(text[1..]) ==>
                    IsDigits(text[1..]) && ParseLastEventId(header) == Some(DigitsValue(text[1..], 0)))
              && (text != [] && text[0] == '-' && IsLiteral(text[1..]) ==>
                    IsDigits(text[1..])
                    && ParseLastEventId(header) == if DigitsValue(text[1..], 0) == 0 then Some(0) else None)
              && (!IsLiteral(text) && !(text != [] && text[0] in "+-" && IsLiteral(text[1..])) ==>
                    ParseLastEventId(header) == None)
  {
    if header.Some? {
      var text := Strip(header.value);
      hide Strip;
      DigitsAreLiteral(text);
      if text != [] { DigitsAreLiteral(text[1..]); }
      assert !IsDigit('+') && !IsDigit('-');
    }
  }

  // ----- Event types -----

  /** Line breaks are taken out of an event type, and nothing else is. */
  lemma {:induction false} SafeTypeDrops(c: char)
    ensures SafeType([c]) == if c == '\r' || c == '\n' then [] else [c]
  {
    assert [c][1..] == [];
  }

  lemma {:induction false} SafeTypeJoins(a: string, b: string)
    ensures SafeType(a + b) == SafeType(a) + SafeType(b)
  {
    if a == [] {
      assert a + b == b;
    } else {
      assert (a + b)[1..] == a[1..] + b;
      SafeTypeJoins(a[1..], b);
    }
  }
}
