/** Encoding journal rows as server-sent events (realtime.py:29-39) and reading them back as section
    9.2.6 of the WHATWG HTML Standard prescribes. */
module ServerSentEvents {
  import opened Wrappers
  import opened Text
  import opened EventJournal
  import opened EventStream

  // ----- Encoding -----

  predicate NoBreaks(text: string) {
    '\r' !in text && '\n' !in text
  }

  /** `event_type.replace("\r", "").replace("\n", "")`. */
  function SafeType(text: string): (safe: string)
    ensures NoBreaks(safe)
    ensures NoBreaks(text) ==> safe == text
  {
    if text == [] then []
    else if text[0] == '\r' || text[0] == '\n' then SafeType(text[1..])
    else [text[0]] + SafeType(text[1..])
  }

  const KEEP_ALIVE := ": keep-alive\n\n"

  /** `encode_event`; `data` is the JSON text of a row, which escapes line breaks. */
  function Encode(data: Event -> string, chunk: Chunk): string {
    match chunk
    case KeepAlive => KEEP_ALIVE
    case Message(e) =>
      "id: " + NatText(e.sequence) + "\n"
      + ("event: " + SafeType(e.draft.eventType) + "\n" + ("data: " + data(e) + "\n" + "\n"))
  }

  function EncodeAll(data: Event -> string, chunks: seq<Chunk>): string {
    if chunks == [] then "" else Encode(data, chunks[0]) + EncodeAll(data, chunks[1..])
  }

  // ----- Decoding -----

  datatype Received = Received(lastEventId: string, eventType: string, data: string)

  /** The buffers of an event source. */
  datatype Buffers = Buffers(data: string, eventType: string, lastEventId: string)

  /** The position of the first line break. */
  function Break(text: string): (k: Option<nat>)
    ensures k.Some? ==>
              k.value < |text| && NoBreaks(text[..k.value]) && (text[k.value] == '\r' || text[k.value] == '\n')
    ensures k.None? ==> NoBreaks(text)
  {
    if text == [] then None
    else if text[0] == '\r' || text[0] == '\n' then Some(0)
    else
      match Break(text[1..])
      case None => assert text == [text[0]] + text[1..]; None
      case Some(k) => assert text[..k + 1] == [text[0]] + text[1..][..k]; Some(k + 1)
  }

  function Colon(line: string): (k: nat)
    ensures k <= |line| && ':' !in line[..k] && (k < |line| ==> line[k] == ':')
  {
    if line == [] || line[0] == ':' then 0
    else
      var k := Colon(line[1..]);
      assert line[..k + 1] == [line[0]] + line[1..][..k];
      k + 1
  }

  /** Process one field. */
  function Field(b: Buffers, name: string, value: string): Buffers {
    if name == "event" then b.(eventType := value)
    else if name == "data" then b.(data := b.data + value + "\n")
    else if name == "id" && '\0' !in value then b.(lastEventId := value)
    else b
  }

  /** A line that is not empty: a comment or a field. */
  function Line(b: Buffers, line: string): Buffers {
    var k := Colon(line);
    if k == 0 then b
    else if k == |line| then Field(b, line, "")
    else if k + 1 < |line| && line[k + 1] == ' ' then Field(b, line[..k], line[k + 2..])
    else Field(b, line[..k], line[k + 1..])
  }

  /** An empty line dispatches the event. */
  function Dispatched(b: Buffers): seq<Received> {
    if b.data == "" then []
    else
      [Received(b.lastEventId, if b.eventType == "" then "message" else b.eventType,
                if b.data[|b.data| - 1] == '\n' then b.data[..|b.data| - 1] else b.data)]
  }

  function AfterDispatch(b: Buffers): Buffers {
    Buffers("", "", b.lastEventId)
  }

  /** The events of a stream; what follows the last line break is not yet an event. */
  function Parse(b: Buffers, text: string): seq<Received>
    decreases |text|
  {
    match Break(text)
    case None => []
    case Some(k) =>
      var line := text[..k];
      var rest := if text[k] == '\r' && k + 1 < |text| && text[k + 1] == '\n' then text[k + 2..] else text[k + 1..];
      if line == "" then Dispatched(b) + Parse(AfterDispatch(b), rest) else Parse(Line(b, line), rest)
  }

  // ----- The round trip -----

  lemma {:induction false} BreakAt(line: string, rest: string)
    requires NoBreaks(line)
    ensures Break(line + "\n" + rest) == Some(|line|)
  {
    var text := line + "\n" + rest;
    if line == [] {
      assert text[0] == '\n';
    } else {
      assert text[0] == line[0] && line[0] in line && text[1..] == line[1..] + "\n" + rest;
      BreakAt(line[1..], rest);
    }
  }

  lemma {:induction false} ParseLine(b: Buffers, line: string, rest: string)
    requires NoBreaks(line)
    ensures Parse(b, line + "\n" + rest)
         == if line == "" then Dispatched(b) + Parse(AfterDispatch(b), rest) else Parse(Line(b, line), rest)
  {
    var text := line + "\n" + rest;
    BreakAt(line, rest);
    assert text[..|line|] == line && text[|line|] == '\n' && text[|line| + 1..] == rest;
  }

  lemma {:induction false} ColonAt(name: string, value: string)
    requires ':' !in name
    ensures Colon(name + ": " + value) == |name|
  {
    var line := name + ": " + value;
    if name == [] {
      assert line[0] == ':';
    } else {
      assert line[0] == name[0] && name[0] in name && line[1..] == name[1..] + ": " + value;
      ColonAt(name[1..], value);
    }
  }

  lemma {:induction false} FieldLine(b: Buffers, name: string, value: string)
    requires name != "" && ':' !in name
    ensures Line(b, name + ": " + value) == Field(b, name, value)
  {
    var line := name + ": " + value;
    ColonAt(name, value);
    assert line[..|name|] == name && line[|name| + 1] == ' ' && line[|name| + 2..] == value;
  }

  lemma {:induction false} DigitsNoNull(n: nat)
    ensures '\0' !in NatText(n) && NoBreaks(NatText(n))
  {}

  /** The event a client sees for a chunk. */
  function Seen(data: Event -> string, chunk: Chunk): seq<Received> {
    match chunk
    case KeepAlive => []
    case Message(e) =>
      var safe := SafeType(e.draft.eventType);
      [Received(NatText(e.sequence), if safe == "" then "message" else safe, data(e))]
  }

  /** The JSON text of a row has no line break and is not empty. */
  ghost predicate DataOk(data: Event -> string, chunk: Chunk) {
    chunk.Message? ==> data(chunk.event) != "" && NoBreaks(data(chunk.event))
  }

  lemma {:induction false} ParseKeepAlive(id: string, rest: string)
    ensures Parse(Buffers("", "", id), KEEP_ALIVE + rest) == Parse(Buffers("", "", id), rest)
  {
    var b := Buffers("", "", id);
    var line := ": keep-alive";
    assert KEEP_ALIVE + rest == line + "\n" + ("" + "\n" + rest);
    ParseLine(b, line, "" + "\n" + rest);
    assert line[0] == ':' && Colon(line) == 0;
    ParseLine(b, "", rest);
    assert [] + Parse(b, rest) == Parse(b, rest);
  }

  lemma {:induction false} ParseMessage(data: Event -> string, id: string, e: Event, rest: string)
    requires DataOk(data, Message(e))
    ensures Parse(Buffers("", "", id), Encode(data, Message(e)) + rest)
         == Seen(data, Message(e)) + Parse(Buffers("", "", NatText(e.sequence)), rest)
  {
    hide Parse, Line, NatText;
    var n, safe, text := NatText(e.sequence), SafeType(e.draft.eventType), data(e);
    DigitsNoNull(e.sequence);
    var b0 := Buffers("", "", id);
    var b1 := Buffers("", "", n);
    var b2 := Buffers("", safe, n);
    var b3 := Buffers(text + "\n", safe, n);
    var r3 := "" + "\n" + rest;
    var r2 := ("data: " + text) + "\n" + r3;
    var r1 := ("event: " + safe) + "\n" + r2;
    assert Encode(data, Message(e)) + rest == ("id: " + n) + "\n" + r1;
    assert "id" + ": " == "id: " && "event" + ": " == "event: " && "data" + ": " == "data: ";
    NamedLine(b0, "id", n, r1);
    NamedLine(b1, "event", safe, r2);
    NamedLine(b2, "data", text, r3);
    assert "" + text + "\n" == text + "\n";
    ParseLine(b3, "", rest);
    assert b3.data[|b3.data| - 1] == '\n' && b3.data[..|b3.data| - 1] == text;
    assert Dispatched(b3) == Seen(data, Message(e));
    assert Field(b0, "id", n) == b1 && Field(b1, "event", safe) == b2 && Field(b2, "data", text) == b3;
  }

  lemma {:induction false} NamedLine(b: Buffers, name: string, value: string, rest: string)
    requires (name == "id" || name == "event" || name == "data") && NoBreaks(value)
    ensures Parse(b, (name + ": " + value) + "\n" + rest) == Parse(Field(b, name, value), rest)
  {
    hide Parse, Field, Line;
    FieldLine(b, name, value);
    ParseLine(b, name + ": " + value, rest);
  }

  /** A client that reads what the stream yields sees one event per row, with the row's sequence number
      as its id, in the order they were yielded, and nothing for a keep-alive. */
  lemma {:induction false} ClientSeesEveryRow(data: Event -> string, chunks: seq<Chunk>, id: string)
    requires forall k :: 0 <= k < |chunks| ==> DataOk(data, chunks[k])
    ensures Parse(Buffers("", "", id), EncodeAll(data, chunks)) == SeenAll(data, chunks)
  {
    hide Parse, Encode;
    if chunks == [] {
      ParseNothing(Buffers("", "", id));
    } else {
      var rest := EncodeAll(data, chunks[1..]);
      if chunks[0].KeepAlive? {
        KeepAliveText(data);
        ParseKeepAlive(id, rest);
        ClientSeesEveryRow(data, chunks[1..], id);
      } else {
        ParseMessage(data, id, chunks[0].event, rest);
        ClientSeesEveryRow(data, chunks[1..], NatText(chunks[0].event.sequence));
      }
    }
  }

  lemma ParseNothing(b: Buffers)
    ensures Parse(b, "") == []
  {}

  lemma KeepAliveText(data: Event -> string)
    ensures Encode(data, KeepAlive) == KEEP_ALIVE
  {}

  function SeenAll(data: Event -> string, chunks: seq<Chunk>): seq<Received> {
    if chunks == [] then [] else Seen(data, chunks[0]) + SeenAll(data, chunks[1..])
  }

  // ----- A text that is cut off -----

  function Lines(lines: seq<string>): string {
    if lines == [] then "" else lines[0] + "\n" + Lines(lines[1..])
  }

  /** Lines without the empty line that would dispatch them give no event, wherever they are cut. */
  lemma {:induction false} UndispatchedLines(b: Buffers, lines: seq<string>, n: nat)
    requires n <= |Lines(lines)| && forall l :: l in lines ==> l != "" && NoBreaks(l)
    ensures Parse(b, Lines(lines)[..n]) == []
    decreases |lines|
  {
    if lines == [] {
      ParseNothing(b);
    } else {
      var text := Lines(lines);
      assert lines[0] in lines;
      if n <= |lines[0]| {
        assert text[..n] == lines[0][..n] && Break(text[..n]).None?;
      } else {
        var m := n - |lines[0]| - 1;
        assert text[..n] == lines[0] + "\n" + Lines(lines[1..])[..m];
        ParseLine(b, lines[0], Lines(lines[1..])[..m]);
        assert forall l :: l in lines[1..] ==> l in lines;
        UndispatchedLines(Line(b, lines[0]), lines[1..], m);
      }
    }
  }

  /** The lines of a chunk, before its empty line. */
  function ChunkLines(data: Event -> string, chunk: Chunk): seq<string> {
    match chunk
    case KeepAlive => [": keep-alive"]
    case Message(e) => ["id: " + NatText(e.sequence), "event: " + SafeType(e.draft.eventType), "data: " + data(e)]
  }

  lemma {:induction false} ChunkIsLines(data: Event -> string, chunk: Chunk)
    requires DataOk(data, chunk)
    ensures Encode(data, chunk) == Lines(ChunkLines(data, chunk)) + "\n"
    ensures forall l :: l in ChunkLines(data, chunk) ==> l != "" && NoBreaks(l)
  {
    var lines := ChunkLines(data, chunk);
    match chunk
    case KeepAlive =>
      assert Lines(lines) == lines[0] + "\n" + Lines([]);
    case Message(e) =>
      DigitsNoNull(e.sequence);
      hide NatText, SafeType;
      assert lines[1..] == [lines[1], lines[2]] && lines[1..][1..] == [lines[2]];
      assert Lines([lines[2]]) == lines[2] + "\n" + "";
      assert Lines(lines) == lines[0] + "\n" + (lines[1] + "\n" + (lines[2] + "\n" + ""));
  }

  /** A chunk that is cut off gives no event. */
  lemma {:induction false} CutChunk(data: Event -> string, b: Buffers, chunk: Chunk, n: nat)
    requires DataOk(data, chunk) && n < |Encode(data, chunk)|
    ensures Parse(b, Encode(data, chunk)[..n]) == []
  {
    hide Encode, ChunkLines, Parse;
    ChunkIsLines(data, chunk);
    var lines := ChunkLines(data, chunk);
    assert Encode(data, chunk)[..n] == Lines(lines)[..n];
    UndispatchedLines(b, lines, n);
  }

  /** The `m` chunks that a text of length `n` holds completely. */
  ghost predicate Complete(data: Event -> string, chunks: seq<Chunk>, m: nat, n: nat) {
    && m <= |chunks| && |EncodeAll(data, chunks[..m])| <= n
    && (m < |chunks| ==> n < |EncodeAll(data, chunks[..m + 1])|)
  }

  /** A connection may drop in the middle of a chunk, at any character: the client has then seen exactly
      the events of the complete chunks, so the last id it has dispatched is that of the last complete
      row, although the id of the next one may have arrived. */
  lemma {:induction false} CutStreamShowsCompleteRows(data: Event -> string, chunks: seq<Chunk>, id: string, n: nat)
      returns (m: nat)
    requires forall k :: 0 <= k < |chunks| ==> DataOk(data, chunks[k])
    requires n <= |EncodeAll(data, chunks)|
    ensures Complete(data, chunks, m, n)
    ensures Parse(Buffers("", "", id), EncodeAll(data, chunks)[..n]) == SeenAll(data, chunks[..m])
  {
    hide Parse, Encode;
    var b := Buffers("", "", id);
    if chunks == [] {
      m := 0;
      ParseNothing(b);
    } else {
      var first, rest := Encode(data, chunks[0]), EncodeAll(data, chunks[1..]);
      assert chunks[..1] == [chunks[0]] && chunks[..1][1..] == [];
      if n < |first| {
        m := 0;
        assert (first + rest)[..n] == first[..n];
        CutChunk(data, b, chunks[0], n);
      } else {
        var cut := rest[..n - |first|];
        assert (first + rest)[..n] == first + cut;
        var last := if chunks[0].KeepAlive? then id else NatText(chunks[0].event.sequence);
        var before := CutStreamShowsCompleteRows(data, chunks[1..], last, n - |first|);
        if chunks[0].KeepAlive? {
          KeepAliveText(data);
          ParseKeepAlive(id, cut);
        } else {
          ParseMessage(data, id, chunks[0].event, cut);
        }
        m := before + 1;
        CompleteSnoc(data, chunks, before, n - |first|);
        SeenSnoc(data, chunks, before);
      }
    }
  }

  lemma {:induction false} CompleteSnoc(data: Event -> string, chunks: seq<Chunk>, m: nat, n: nat)
    requires chunks != [] && Complete(data, chunks[1..], m, n)
    ensures Complete(data, chunks, m + 1, |Encode(data, chunks[0])| + n)
  {
    hide Encode;
    assert chunks[..m + 1][1..] == chunks[1..][..m];
    if m + 1 < |chunks| { assert chunks[..m + 2][1..] == chunks[1..][..m + 1]; }
  }

  lemma {:induction false} SeenSnoc(data: Event -> string, chunks: seq<Chunk>, m: nat)
    requires m < |chunks|
    ensures SeenAll(data, chunks[..m + 1]) == Seen(data, chunks[0]) + SeenAll(data, chunks[1..][..m])
  {
    assert chunks[..m + 1][1..] == chunks[1..][..m];
  }
}
