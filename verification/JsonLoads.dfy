/** `json.loads` (RFC 8259, sections 2 to 7, with Python's NaN and Infinity), and the round trip of
    canonical text. */
module JsonLoads {
  import opened Wrappers
  import opened Text
  import opened CanonicalJson

  // ----- The parser -----

  predicate IsJsonSpace(c: char) {
    c == ' ' || c == '\t' || c == '\n' || c == '\r'
  }

  function SkipSpace(s: string): (rest: string)
    ensures |rest| <= |s|
  {
    if s != [] && IsJsonSpace(s[0]) then SkipSpace(s[1..]) else s
  }

  predicate IsHex(c: char) {
    '0' <= c <= '9' || 'a' <= c <= 'f' || 'A' <= c <= 'F'
  }

  function HexValue(c: char): (d: nat)
    requires IsHex(c)
    ensures d < 16
  {
    if '0' <= c <= '9' then (c - '0') as nat
    else if 'a' <= c <= 'f' then (c - 'a') as nat + 10
    else (c - 'A') as nat + 10
  }

  /** The four hexadecimal digits of `\u`. */
  function ParseHex4(s: string): (r: Option<(nat, string)>)
    ensures r.Some? ==> r.value.0 < 0x10000 && |r.value.1| + 4 == |s|
  {
    if |s| < 4 || !IsHex(s[0]) || !IsHex(s[1]) || !IsHex(s[2]) || !IsHex(s[3]) then None
    else Some((((HexValue(s[0]) * 16 + HexValue(s[1])) * 16 + HexValue(s[2])) * 16 + HexValue(s[3]), s[4..]))
  }

  /** After `\u`: one code unit, or a surrogate pair. A lone surrogate is not a character here. */
  function ParseUnicode(s: string): (r: Option<(char, string)>)
    ensures r.Some? ==> |r.value.1| < |s|
  {
    match ParseHex4(s)
    case None => None
    case Some((unit, rest)) =>
      if unit < 0xD800 || 0xE000 <= unit then Some((unit as char, rest))
      else if unit < 0xDC00 && |rest| >= 2 && rest[0] == '\\' && rest[1] == 'u' then
        match ParseHex4(rest[2..])
        case None => None
        case Some((low, rest')) =>
          if 0xDC00 <= low < 0xE000 then
            Some(((0x10000 + (unit - 0xD800) * 0x400 + (low - 0xDC00)) as char, rest'))
          else None
      else None
  }

  /** After a backslash. */
  function ParseEscape(s: string): (r: Option<(char, string)>)
    ensures r.Some? ==> |r.value.1| < |s|
  {
    if s == [] then None
    else if s[0] == '"' || s[0] == '\\' || s[0] == '/' then Some((s[0], s[1..]))
    else if s[0] == 'b' then Some(('\U{8}', s[1..]))
    else if s[0] == 'f' then Some(('\U{c}', s[1..]))
    else if s[0] == 'n' then Some(('\n', s[1..]))
    else if s[0] == 'r' then Some(('\r', s[1..]))
    else if s[0] == 't' then Some(('\t', s[1..]))
    else if s[0] == 'u' then ParseUnicode(s[1..])
    else None
  }

  /** After the opening quotation mark. */
  function ParseString(s: string): (r: Option<(string, string)>)
    ensures r.Some? ==> |r.value.1| < |s|
  {
    if s == [] || s[0] < ' ' then None
    else if s[0] == '"' then Some(("", s[1..]))
    else
      var head := if s[0] == '\\' then ParseEscape(s[1..]) else Some((s[0], s[1..]));
      match head
      case None => None
      case Some((c, rest)) =>
        match ParseString(rest)
        case None => None
        case Some((text, rest')) => Some(([c] + text, rest'))
  }

  function TakeDigits(s: string): (r: (string, string))
    ensures AllDigits(r.0) && s == r.0 + r.1
  {
    if s != [] && IsDigit(s[0]) then
      var (digits, rest) := TakeDigits(s[1..]);
      ([s[0]] + digits, rest)
    else ("", s)
  }

  /** The fraction and exponent of a number, if any. */
  function TakeFraction(s: string): (r: (string, string))
    ensures |r.1| <= |s|
  {
    var (fraction, rest) :=
      if |s| >= 2 && s[0] == '.' && IsDigit(s[1]) then
        var (digits, after) := TakeDigits(s[1..]);
        ("." + digits, after)
      else ("", s);
    var signed := |rest| >= 3 && (rest[1] == '+' || rest[1] == '-');
    if |rest| >= 2 && (rest[0] == 'e' || rest[0] == 'E') && (IsDigit(rest[1]) || (signed && IsDigit(rest[2]))) then
      var (digits, after) := TakeDigits(rest[if signed then 2 else 1..]);
      (fraction + rest[..if signed then 2 else 1] + digits, after)
    else (fraction, rest)
  }

  /** A number that starts with a digit, after its sign. */
  function ParseNumber(s: string, negative: bool): (r: Option<(PyValue, string)>)
    requires s != [] && IsDigit(s[0])
    ensures r.Some? ==> |r.value.1| < |s|
  {
    var (digits, rest) := if s[0] == '0' then ("0", s[1..]) else TakeDigits(s);
    var (fraction, rest') := TakeFraction(rest);
    var magnitude: int := NatValue(digits);
    if fraction == "" then Some((PyInt(if negative then -magnitude else magnitude), rest))
    else Some((PyFloat((if negative then "-" else "") + digits + fraction), rest'))
  }

  predicate StartsWith(s: string, prefix: string) {
    |prefix| <= |s| && s[..|prefix|] == prefix
  }

  /** `dict` keeps the last value of a repeated key. */
  function PutEntry(entries: seq<PyEntry>, key: string, value: PyValue): seq<PyEntry> {
    if entries == [] then [PyEntry(StrKey(key), value)]
    else if entries[0].key == StrKey(key) then [PyEntry(StrKey(key), value)] + entries[1..]
    else [entries[0]] + PutEntry(entries[1..], key, value)
  }

  function ParseValue(s: string): (r: Option<(PyValue, string)>)
    ensures r.Some? ==> |r.value.1| < |s|
    decreases |s|, 1
  {
    if s == [] then None
    else if s[0] == '"' then
      match ParseString(s[1..])
      case None => None
      case Some((text, rest)) => Some((PyStr(text), rest))
    else if s[0] == '{' then
      var t := SkipSpace(s[1..]);
      if t != [] && t[0] == '}' then Some((PyDict([]), t[1..])) else ParseMembers(t, [])
    else if s[0] == '[' then
      var t := SkipSpace(s[1..]);
      if t != [] && t[0] == ']' then Some((PyList([]), t[1..])) else ParseElements(t, [])
    else if StartsWith(s, "null") then Some((PyNone, s[4..]))
    else if StartsWith(s, "true") then Some((PyBool(true), s[4..]))
    else if StartsWith(s, "false") then Some((PyBool(false), s[5..]))
    else if IsDigit(s[0]) then ParseNumber(s, false)
    else if s[0] == '-' && |s| > 1 && IsDigit(s[1]) then ParseNumber(s[1..], true)
    else if StartsWith(s, "NaN") then Some((PyFloat("NaN"), s[3..]))
    else if StartsWith(s, "Infinity") then Some((PyFloat("Infinity"), s[8..]))
    else if StartsWith(s, "-Infinity") then Some((PyFloat("-Infinity"), s[9..]))
    else None
  }

  function ParseElements(s: string, items: seq<PyValue>): (r: Option<(PyValue, string)>)
    ensures r.Some? ==> |r.value.1| < |s|
    decreases |s|, 2
  {
    match ParseValue(s)
    case None => None
    case Some((value, rest)) =>
      var t := SkipSpace(rest);
      if t == [] then None
      else if t[0] == ',' then ParseElements(SkipSpace(t[1..]), items + [value])
      else if t[0] == ']' then Some((PyList(items + [value]), t[1..]))
      else None
  }

  function ParseMembers(s: string, entries: seq<PyEntry>): (r: Option<(PyValue, string)>)
    ensures r.Some? ==> |r.value.1| < |s|
    decreases |s|, 2
  {
    if s == [] || s[0] != '"' then None
    else
      match ParseString(s[1..])
      case None => None
      case Some((key, rest)) =>
        var colon := SkipSpace(rest);
        if colon == [] || colon[0] != ':' then None
        else
          match ParseValue(SkipSpace(colon[1..]))
          case None => None
          case Some((value, rest')) =>
            var t := SkipSpace(rest');
            if t == [] then None
            else if t[0] == ',' then ParseMembers(SkipSpace(t[1..]), PutEntry(entries, key, value))
            else if t[0] == '}' then Some((PyDict(PutEntry(entries, key, value)), t[1..]))
            else None
  }

  /** `json.loads`. */
  function Loads(text: string): Option<PyValue> {
    match ParseValue(SkipSpace(text))
    case None => None
    case Some((value, rest)) => if SkipSpace(rest) == [] then Some(value) else None
  }

  // ----- Strings -----

  lemma {:induction false} ParseEscapedChar(c: char, rest: string)
    ensures ParseString(EscapeChar(c) + rest)
         == match ParseString(rest)
            case None => None
            case Some((text, rest')) => Some(([c] + text, rest'))
  {
    var s := EscapeChar(c) + rest;
    if |EscapeChar(c)| == 1 {
      assert s[0] == c && s[1..] == rest;
    } else if |EscapeChar(c)| == 2 {
      assert s[0] == '\\' && s[1..][0] == EscapeChar(c)[1] && s[1..][1..] == rest;
    } else {
      var hex := [HexDigit(c as int / 16), HexDigit(c as int % 16)];
      assert s[1..][0] == 'u';
      var t := s[1..][1..];
      assert t[0] == '0' && t[1] == '0' && t[2] == hex[0] && t[3] == hex[1] && t[4..] == rest;
      assert ParseHex4(t) == Some((c as nat, rest));
    }
  }

  lemma {:induction false} ParseEscaped(s: string, rest: string)
    ensures ParseString(Escape(s) + "\"" + rest) == Some((s, rest))
  {
    if s == [] {
      assert Escape(s) + "\"" + rest == "\"" + rest;
    } else {
      ParseEscaped(s[1..], rest);
      assert Escape(s) + "\"" + rest == EscapeChar(s[0]) + (Escape(s[1..]) + "\"" + rest);
      ParseEscapedChar(s[0], Escape(s[1..]) + "\"" + rest);
      assert s == [s[0]] + s[1..];
    }
  }

  // ----- Numbers -----

  /** What may follow a value inside canonical text. */
  predicate Stops(rest: string) {
    rest == [] || rest[0] == ',' || rest[0] == ']' || rest[0] == '}'
  }

  lemma {:induction false} TakeAllDigits(digits: string, rest: string)
    requires AllDigits(digits) && (rest == [] || !IsDigit(rest[0]))
    ensures TakeDigits(digits + rest) == (digits, rest)
  {
    if digits == [] {
      assert digits + rest == rest;
    } else {
      assert digits[0] in digits;
      assert (digits + rest)[0] == digits[0] && (digits + rest)[1..] == digits[1..] + rest;
      TakeAllDigits(digits[1..], rest);
      assert digits == [digits[0]] + digits[1..];
    }
  }

  lemma {:induction false} NatTextLeads(n: nat)
    ensures NatText(n)[0] == '0' <==> n == 0
    ensures n == 0 ==> NatText(n) == "0"
  {
    if n >= 10 {
      NatTextLeads(n / 10);
      assert NatText(n)[0] == NatText(n / 10)[0];
    }
  }

  lemma {:induction false} ParseNatText(n: nat, negative: bool, rest: string)
    requires Stops(rest)
    ensures IsDigit((NatText(n) + rest)[0])
    ensures ParseNumber(NatText(n) + rest, negative) == Some((PyInt(if negative then 0 - n else n), rest))
  {
    var s := NatText(n) + rest;
    assert s[0] == NatText(n)[0];
    assert NatText(n)[0] in NatText(n);
    NatTextLeads(n);
    NatRoundTrip(n);
    if n == 0 {
      assert s[1..] == rest;
    } else {
      TakeAllDigits(NatText(n), rest);
    }
  }

  lemma {:induction false} ParseDigits(s: string)
    requires s != [] && IsDigit(s[0])
    ensures ParseValue(s) == ParseNumber(s, false)
  {
    hide ParseNumber, ParseElements, ParseMembers, ParseString;
  }

  lemma {:induction false} ParseMinus(s: string)
    requires |s| > 1 && s[0] == '-' && IsDigit(s[1])
    ensures ParseValue(s) == ParseNumber(s[1..], true)
  {
    hide ParseNumber, ParseElements, ParseMembers, ParseString;
  }

  lemma {:induction false} ParseIntText(i: int, rest: string)
    requires Stops(rest)
    ensures ParseValue(IntText(i) + rest) == Some((PyInt(i), rest))
  {
    hide ParseNumber, ParseValue;
    var s := IntText(i) + rest;
    if i >= 0 {
      ParseNatText(i, false, rest);
      ParseDigits(s);
    } else {
      ParseNatText(-i, true, rest);
      assert s[0] == '-' && s[1..] == NatText(-i) + rest;
      ParseMinus(s);
    }
  }

  // ----- One layer of a value -----

  lemma {:induction false} ParseQuote(text: string, rest: string)
    ensures ParseValue(Quote(text) + rest) == Some((PyStr(text), rest))
  {
    hide ParseNumber, ParseElements, ParseMembers, ParseString;
    var s := Quote(text) + rest;
    assert s[0] == '"' && s[1..] == Escape(text) + "\"" + rest;
    ParseEscaped(text, rest);
  }

  lemma {:induction false} ParseLiteral(v: Json, rest: string)
    requires v.JNull? || v.JBool?
    ensures ParseValue(Print(v) + rest) == Some((ToPy(v), rest))
  {
    hide ParseNumber, ParseElements, ParseMembers, ParseString;
    var s := Print(v) + rest;
    assert s[..|Print(v)|] == Print(v) && s[|Print(v)|..] == rest;
    if v == JNull { assert s[0] == 'n'; }
    else if v == JBool(true) { assert s[0] == 't'; assert s[..4] == "true" != "null"; }
    else { assert s[0] == 'f'; assert s[..5] == "false" && s[..4] == "fals"; }
  }

  lemma {:induction false} ParseBracket(s: string)
    requires s != [] && s[0] == '['
    requires s[1..] != [] && !IsJsonSpace(s[1]) && s[1] != ']'
    ensures ParseValue(s) == ParseElements(s[1..], [])
  {
    hide ParseNumber, ParseElements, ParseMembers, ParseString;
    SkipNothing(s[1..]);
  }

  lemma {:induction false} ParseBrace(s: string)
    requires s != [] && s[0] == '{'
    requires s[1..] != [] && s[1] == '"'
    ensures ParseValue(s) == ParseMembers(s[1..], [])
  {
    hide ParseNumber, ParseElements, ParseMembers, ParseString;
    SkipNothing(s[1..]);
  }

  lemma {:induction false} ParseEmpty(rest: string)
    ensures ParseValue("[]" + rest) == Some((PyList([]), rest))
    ensures ParseValue("{}" + rest) == Some((PyDict([]), rest))
  {
    hide ParseNumber, ParseElements, ParseMembers, ParseString;
    var s, t := "[]" + rest, "{}" + rest;
    assert s[0] == '[' && s[1..] == "]" + rest && s[1..][1..] == rest;
    assert t[0] == '{' && t[1..] == "}" + rest && t[1..][1..] == rest;
    SkipNothing(s[1..]);
    SkipNothing(t[1..]);
  }

  // ----- Values -----

  function ToPy(v: Json): PyValue
    decreases v, 1
  {
    match v
    case JNull => PyNone
    case JBool(b) => PyBool(b)
    case JInt(i) => PyInt(i)
    case JStr(s) => PyStr(s)
    case JArr(items) => PyList(ToPyItems(items))
    case JObj(fields) => PyDict(ToPyFields(fields))
  }

  function ToPyItems(items: seq<Json>): (values: seq<PyValue>)
    ensures |values| == |items|
    decreases items, 0
  {
    if items == [] then [] else [ToPy(items[0])] + ToPyItems(items[1..])
  }

  function ToPyEntry(field: Field): PyEntry
    decreases field, 2
  {
    PyEntry(StrKey(field.key), ToPy(field.value))
  }

  function ToPyFields(fields: seq<Field>): (entries: seq<PyEntry>)
    ensures |entries| == |fields|
    ensures forall k :: 0 <= k < |fields| ==> entries[k].key == StrKey(fields[k].key)
    decreases fields, 3
  {
    if fields == [] then [] else [ToPyEntry(fields[0])] + ToPyFields(fields[1..])
  }

  /** Printed values start with a character that is neither space nor a closing bracket. */
  lemma PrintStarts(v: Json)
    ensures Print(v) != [] && !IsJsonSpace(Print(v)[0]) && Print(v)[0] != ']' && Print(v)[0] != '}'
  {
    if v.JInt? && v.i >= 0 { assert NatText(v.i)[0] in NatText(v.i); }
  }

  lemma {:induction false} SkipNothing(s: string)
    requires s == [] || !IsJsonSpace(s[0])
    ensures SkipSpace(s) == s
  {}

  lemma {:induction false} ParsePrinted(v: Json, rest: string)
    requires WellFormed(v) && Stops(rest)
    ensures ParseValue(Print(v) + rest) == Some((ToPy(v), rest))
    decreases v, 1
  {
    hide ParseValue, IntText;
    match v
    case JNull => ParseLiteral(v, rest);
    case JBool(_) => ParseLiteral(v, rest);
    case JInt(i) => ParseIntText(i, rest);
    case JStr(text) => ParseQuote(text, rest);
    case JArr(items) =>
      if items == [] {
        ParseEmpty(rest);
        assert "[" + "" + "]" == "[]";
      } else {
        ParsePrintedArray(items, rest);
      }
    case JObj(fields) =>
      if fields == [] {
        ParseEmpty(rest);
        assert "{" + "" + "}" == "{}";
      } else {
        ParsePrintedObject(fields, rest);
      }
  }

  lemma {:induction false} ParsePrintedArray(items: seq<Json>, rest: string)
    requires items != [] && forall k :: 0 <= k < |items| ==> WellFormed(items[k])
    ensures ParseValue("[" + PrintItems(items) + "]" + rest) == Some((PyList(ToPyItems(items)), rest))
    decreases items, 1
  {
    hide ParseValue, ParseElements, PrintItems, ToPyItems, WellFormed;
    var s := "[" + PrintItems(items) + "]" + rest;
    ItemsStart(items);
    assert s[0] == '[' && s[1..] == PrintItems(items) + "]" + rest && s[1] == PrintItems(items)[0];
    ParseBracket(s);
    ParsePrintedItems(items, rest, []);
    assert [] + ToPyItems(items) == ToPyItems(items);
  }

  lemma {:induction false} ParsePrintedObject(fields: seq<Field>, rest: string)
    requires fields != [] && WellFormed(JObj(fields))
    ensures ParseValue("{" + PrintFields(fields) + "}" + rest) == Some((PyDict(ToPyFields(fields)), rest))
    decreases fields, 5
  {
    hide ParseValue, ParseMembers, PrintFields, ToPyFields;
    assert Pending(fields, []);
    hide WellFormed;
    var s := "{" + PrintFields(fields) + "}" + rest;
    FieldsStart(fields);
    assert s[0] == '{' && s[1..] == PrintFields(fields) + "}" + rest && s[1] == PrintFields(fields)[0];
    ParseBrace(s);
    ParsePrintedFields(fields, rest, []);
    assert [] + ToPyFields(fields) == ToPyFields(fields);
  }

  lemma {:induction false} ItemsStart(items: seq<Json>)
    requires items != []
    ensures PrintItems(items) != [] && !IsJsonSpace(PrintItems(items)[0]) && PrintItems(items)[0] != ']'
  {
    PrintStarts(items[0]);
  }

  lemma {:induction false} FieldsStart(fields: seq<Field>)
    requires fields != []
    ensures PrintFields(fields) != [] && PrintFields(fields)[0] == '"'
  {}

  lemma {:induction false} ParsePrintedItems(items: seq<Json>, rest: string, done: seq<PyValue>)
    requires items != [] && forall k :: 0 <= k < |items| ==> WellFormed(items[k])
    ensures ParseElements(PrintItems(items) + "]" + rest, done) == Some((PyList(done + ToPyItems(items)), rest))
    decreases items, 0
  {
    var more := if |items| == 1 then "]" + rest else "," + (PrintItems(items[1..]) + "]" + rest);
    assert PrintItems(items) + "]" + rest == Print(items[0]) + more;
    ParsePrinted(items[0], more);
    SkipNothing(more);
    if |items| == 1 {
      assert items[1..] == [];
      assert more[1..] == rest;
      assert done + ToPyItems(items) == done + [ToPy(items[0])];
    } else {
      assert more[1..] == PrintItems(items[1..]) + "]" + rest;
      ItemsStart(items[1..]);
      SkipNothing(more[1..]);
      ParsePrintedItems(items[1..], rest, done + [ToPy(items[0])]);
      assert done + [ToPy(items[0])] + ToPyItems(items[1..]) == done + ToPyItems(items);
    }
  }

  lemma {:induction false} PutEntryAppends(entries: seq<PyEntry>, key: string, value: PyValue)
    requires forall k :: 0 <= k < |entries| ==> entries[k].key != StrKey(key)
    ensures PutEntry(entries, key, value) == entries + [PyEntry(StrKey(key), value)]
  {
    if entries != [] {
      PutEntryAppends(entries[1..], key, value);
      assert entries == [entries[0]] + entries[1..];
    }
  }

  /** One member: its key, its value, and the comma or brace after it. */
  lemma {:induction false} ParseMember(field: Field, more: string, done: seq<PyEntry>)
    requires WellFormed(field.value) && more != [] && (more[0] == ',' || more[0] == '}')
    requires forall j :: 0 <= j < |done| ==> done[j].key != StrKey(field.key)
    ensures ParseMembers(PrintField(field) + more, done)
         == var entries := done + [ToPyEntry(field)];
            if more[0] == ',' then ParseMembers(SkipSpace(more[1..]), entries) else Some((PyDict(entries), more[1..]))
    decreases field, 4
  {
    hide ParseValue, ParseString, PutEntry, WellFormed;
    var s := PrintField(field) + more;
    var value := Print(field.value) + more;
    assert s == "\"" + (Escape(field.key) + "\"" + (":" + value));
    assert s[1..] == Escape(field.key) + "\"" + (":" + value);
    ParseEscaped(field.key, ":" + value);
    SkipNothing(":" + value);
    assert (":" + value)[1..] == value;
    PrintStarts(field.value);
    SkipNothing(value);
    ParsePrintedField(field, more);
    SkipNothing(more);
    PutEntryAppends(done, field.key, ToPy(field.value));
  }

  /** None of `fields` is in `done` yet, and their values are well formed. */
  ghost predicate Pending(fields: seq<Field>, done: seq<PyEntry>) {
    && WellFormed(JObj(fields))
    && forall j, k :: 0 <= j < |done| && 0 <= k < |fields| ==> done[j].key != StrKey(fields[k].key)
  }

  lemma {:induction false} PendingStep(fields: seq<Field>, done: seq<PyEntry>)
    requires Pending(fields, done) && fields != []
    ensures WellFormed(fields[0].value)
    ensures forall j :: 0 <= j < |done| ==> done[j].key != StrKey(fields[0].key)
    ensures Pending(fields[1..], done + [ToPyEntry(fields[0])])
  {
    var rest := fields[1..];
    forall k | 0 <= k < |rest| ensures rest[k].key != fields[0].key && WellFormed(rest[k].value) {
      assert rest[k] == fields[k + 1];
    }
    assert DistinctFields(rest);
  }

  lemma {:induction false} ParsePrintedFields(fields: seq<Field>, rest: string, done: seq<PyEntry>)
    requires fields != [] && Pending(fields, done)
    ensures ParseMembers(PrintFields(fields) + "}" + rest, done) == Some((PyDict(done + ToPyFields(fields)), rest))
    decreases fields, 0
  {
    hide ParseMembers, PrintField, PrintFields, Pending, ToPyEntry, ToPyFields;
    PendingStep(fields, done);
    var more := if |fields| == 1 then "}" + rest else "," + (PrintFields(fields[1..]) + "}" + rest);
    FieldsUnfold(fields, rest, done, more);
    ParseMember(fields[0], more, done);
    if |fields| == 1 {
      assert more[1..] == rest;
    } else {
      assert more[1..] == PrintFields(fields[1..]) + "}" + rest;
      FieldsStart(fields[1..]);
      SkipNothing(more[1..]);
      ParsePrintedFields(fields[1..], rest, done + [ToPyEntry(fields[0])]);
    }
  }

  lemma {:induction false} FieldsUnfold(fields: seq<Field>, rest: string, done: seq<PyEntry>, more: string)
    requires fields != []
    requires more == if |fields| == 1 then "}" + rest else "," + (PrintFields(fields[1..]) + "}" + rest)
    ensures PrintFields(fields) + "}" + rest == PrintField(fields[0]) + more
    ensures done + ToPyFields(fields) == if |fields| == 1 then done + [ToPyEntry(fields[0])]
                                         else done + [ToPyEntry(fields[0])] + ToPyFields(fields[1..])
  {
    hide PrintField, ToPyEntry;
    if |fields| == 1 {
      assert fields[1..] == [];
    } else {
      assert done + [ToPyEntry(fields[0])] + ToPyFields(fields[1..]) == done + ToPyFields(fields);
    }
  }

  lemma {:induction false} ParsePrintedField(field: Field, rest: string)
    requires WellFormed(field.value) && Stops(rest)
    ensures ParseValue(Print(field.value) + rest) == Some((ToPy(field.value), rest))
    decreases field, 2
  {
    ParsePrinted(field.value, rest);
  }

  // ----- Normalizing what was loaded -----

  lemma {:induction false} NormalizeLoaded(v: Json, path: string)
    requires WellFormed(v)
    ensures Normalize(ToPy(v), path) == Ok(v)
    decreases v, 1
  {
    match v
    case JArr(items) => NormalizeLoadedItems(items, path, 0);
    case JObj(fields) =>
      assert Unused(fields, []);
      NormalizeLoadedFields(fields, path, []);
      assert [] + fields == fields;
    case _ =>
  }

  lemma {:induction false} NormalizeLoadedItems(items: seq<Json>, path: string, index: nat)
    requires forall k :: 0 <= k < |items| ==> WellFormed(items[k])
    ensures NormalizeItems(ToPyItems(items), path, index) == Ok(items)
    decreases items, 0
  {
    if items != [] {
      NormalizeLoaded(items[0], path + "[" + NatText(index) + "]");
      NormalizeLoadedItems(items[1..], path, index + 1);
      assert items == [items[0]] + items[1..];
    }
  }

  lemma {:induction false} PutAppends(fields: seq<Field>, key: string, value: Json)
    requires forall k :: 0 <= k < |fields| ==> fields[k].key != key
    ensures Put(fields, key, value) == fields + [Field(key, value)]
  {
    if fields != [] {
      PutAppends(fields[1..], key, value);
      assert fields == [fields[0]] + fields[1..];
    }
  }

  ghost predicate Unused(fields: seq<Field>, done: seq<Field>) {
    && WellFormed(JObj(fields))
    && forall j, k :: 0 <= j < |done| && 0 <= k < |fields| ==> done[j].key != fields[k].key
  }

  lemma {:induction false} UnusedStep(fields: seq<Field>, done: seq<Field>)
    requires Unused(fields, done) && fields != []
    ensures WellFormed(fields[0].value)
    ensures forall j :: 0 <= j < |done| ==> done[j].key != fields[0].key
    ensures Unused(fields[1..], done + [fields[0]])
  {
    var rest := fields[1..];
    forall k | 0 <= k < |rest| ensures rest[k].key != fields[0].key && WellFormed(rest[k].value) {
      assert rest[k] == fields[k + 1];
    }
    assert DistinctFields(rest);
  }

  lemma {:induction false} NormalizeLoadedFields(fields: seq<Field>, path: string, done: seq<Field>)
    requires Unused(fields, done)
    ensures NormalizeEntries(ToPyFields(fields), path, done) == Ok(done + fields)
    decreases fields, 0
  {
    if fields == [] {
      assert done + fields == done;
    } else {
      hide Unused, NormalizeEntry, Put;
      UnusedStep(fields, done);
      NormalizeLoadedField(fields[0], path);
      PutAppends(done, fields[0].key, fields[0].value);
      NormalizeLoadedFields(fields[1..], path, done + [fields[0]]);
      assert done + [fields[0]] + fields[1..] == done + fields;
      assert ToPyFields(fields)[1..] == ToPyFields(fields[1..]);
    }
  }

  lemma {:induction false} NormalizeLoadedField(field: Field, path: string)
    requires WellFormed(field.value)
    ensures NormalizeEntry(ToPyEntry(field), path) == Ok(field.value)
    decreases field, 2
  {
    NormalizeLoaded(field.value, path + "." + field.key);
  }
}
