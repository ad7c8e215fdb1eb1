/** Canonical JSON (protected_actions/canonical.py): normalization and printing. */
module CanonicalJson {
  import opened Wrappers
  import opened Text
  import opened Sorting

  // ----- Values -----

  /** A Python value as `_normalize` sees it. Mappings keep their insertion order. */
  datatype PyValue =
    | PyNone
    | PyBool(b: bool)
    | PyInt(i: int)
    | PyFloat(text: string)
    | PyStr(s: string)
    | PyList(items: seq<PyValue>)
    | PyDict(entries: seq<PyEntry>)
    | PyOther(typeName: string)

  datatype PyEntry = PyEntry(key: PyKey, value: PyValue)

  datatype PyKey = StrKey(s: string) | OtherKey(typeName: string)

  /** A normalized tree: the fields of an object in insertion order. */
  datatype Json =
    | JNull
    | JBool(b: bool)
    | JInt(i: int)
    | JStr(s: string)
    | JArr(items: seq<Json>)
    | JObj(fields: seq<Field>)

  datatype Field = Field(key: string, value: Json)

  datatype CanonicalizationError =
    | FloatForbidden(path: string)
    | NonStringKey(path: string)
    | UnsupportedType(path: string, typeName: string)

  // ----- Normalization: lines 15-33 -----

  /** `normalized[key] = value` on a dict: an existing key keeps its place. */
  function Put(fields: seq<Field>, key: string, value: Json): seq<Field> {
    if fields == [] then [Field(key, value)]
    else if fields[0].key == key then [Field(key, value)] + fields[1..]
    else [fields[0]] + Put(fields[1..], key, value)
  }

  function Normalize(value: PyValue, path: string): Result<Json, CanonicalizationError>
    decreases value, 1
  {
    match value
    case PyNone => Ok(JNull)
    case PyBool(b) => Ok(JBool(b))
    case PyInt(i) => Ok(JInt(i))
    case PyFloat(_) => Err(FloatForbidden(path))
    case PyStr(s) => Ok(JStr(s))
    case PyDict(entries) =>
      (match NormalizeEntries(entries, path, [])
       case Ok(fields) => Ok(JObj(fields))
       case Err(error) => Err(error))
    case PyList(items) =>
      (match NormalizeItems(items, path, 0)
       case Ok(normalized) => Ok(JArr(normalized))
       case Err(error) => Err(error))
    case PyOther(typeName) => Err(UnsupportedType(path, typeName))
  }

  function NormalizeItems(items: seq<PyValue>, path: string, index: nat): Result<seq<Json>, CanonicalizationError>
    decreases items, 0
  {
    if items == [] then Ok([])
    else
      match Normalize(items[0], path + "[" + NatText(index) + "]")
      case Err(error) => Err(error)
      case Ok(first) =>
        match NormalizeItems(items[1..], path, index + 1)
        case Err(error) => Err(error)
        case Ok(rest) => Ok([first] + rest)
  }

  function NormalizeEntries(entries: seq<PyEntry>, path: string, normalized: seq<Field>)
    : Result<seq<Field>, CanonicalizationError>
    decreases entries, 0
  {
    if entries == [] then Ok(normalized)
    else if entries[0].key.OtherKey? then Err(NonStringKey(path))
    else
      match NormalizeEntry(entries[0], path)
      case Err(error) => Err(error)
      case Ok(value) => NormalizeEntries(entries[1..], path, Put(normalized, entries[0].key.s, value))
  }

  function NormalizeEntry(entry: PyEntry, path: string): Result<Json, CanonicalizationError>
    requires entry.key.StrKey?
    decreases entry, 2
  {
    Normalize(entry.value, path + "." + entry.key.s)
  }

  /** `_normalize`: the mapping branch fills a fresh dict entry by entry. */
  method NormalizeValue(value: PyValue, path: string) returns (r: Result<Json, CanonicalizationError>)
    ensures r == Normalize(value, path)
    decreases value
  {
    match value {
      case PyNone => return Ok(JNull);
      case PyBool(b) => return Ok(JBool(b));
      case PyInt(i) => return Ok(JInt(i));
      case PyFloat(_) => return Err(FloatForbidden(path));
      case PyStr(s) => return Ok(JStr(s));
      case PyOther(typeName) => return Err(UnsupportedType(path, typeName));
      case PyDict(entries) =>
        var normalized: seq<Field> := [];
        for k := 0 to |entries|
          invariant NormalizeEntries(entries, path, []) == NormalizeEntries(entries[k..], path, normalized)
        {
          assert entries[k..][0] == entries[k] && entries[k..][1..] == entries[k + 1..];
          if entries[k].key.OtherKey? { return Err(NonStringKey(path)); }
          var child := NormalizeValue(entries[k].value, path + "." + entries[k].key.s);
          if child.Err? { return Err(child.error); }
          normalized := Put(normalized, entries[k].key.s, child.value);
        }
        return Ok(JObj(normalized));
      case PyList(items) =>
        var normalized: seq<Json> := [];
        assert items[0..] == items;
        assert NormalizeItems(items, path, 0).Ok? ==>
              [] + NormalizeItems(items, path, 0).value == NormalizeItems(items, path, 0).value;
        for k := 0 to |items|
          invariant NormalizeItems(items, path, 0) == Prefixed(normalized, NormalizeItems(items[k..], path, k))
        {
          assert items[k..][0] == items[k] && items[k..][1..] == items[k + 1..];
          var child := NormalizeValue(items[k], path + "[" + NatText(k) + "]");
          if child.Err? { return Err(child.error); }
          PrefixedStep(normalized, child.value, NormalizeItems(items[k + 1..], path, k + 1));
          normalized := normalized + [child.value];
        }
        assert normalized + [] == normalized;
        return Ok(JArr(normalized));
    }
  }

  /** The items normalized so far, in front of what the rest gives. */
  function Prefixed(done: seq<Json>,
                    rest: Result<seq<Json>, CanonicalizationError>)
    : Result<seq<Json>, CanonicalizationError>
  {
    match rest
    case Ok(items) => Ok(done + items)
    case Err(error) => Err(error)
  }

  lemma {:induction false} PrefixedStep(done: seq<Json>, item: Json, rest: Result<seq<Json>, CanonicalizationError>)
    ensures Prefixed(done + [item], rest) == Prefixed(done, Prefixed([item], rest))
  {
    if rest.Ok? { assert done + [item] + rest.value == done + ([item] + rest.value); }
  }

  // ----- Sorting keys -----

  predicate KeyBefore(a: Field, b: Field) {
    Below(a.key, b.key)
  }

  function SortFields(fields: seq<Field>): seq<Field> {
    Sort(KeyBefore, fields)
  }

  /** The tree with the fields of every object in key order. */
  function SortDeep(v: Json): Json
    decreases v, 1
  {
    match v
    case JArr(items) => JArr(SortItems(items))
    case JObj(fields) => JObj(SortFields(SortValues(fields)))
    case _ => v
  }

  function SortItems(items: seq<Json>): (sorted: seq<Json>)
    ensures |sorted| == |items|
    ensures forall k :: 0 <= k < |items| ==> sorted[k] == SortDeep(items[k])
    decreases items, 0
  {
    if items == [] then [] else [SortDeep(items[0])] + SortItems(items[1..])
  }

  function SortValues(fields: seq<Field>): (sorted: seq<Field>)
    ensures |sorted| == |fields|
    ensures forall k :: 0 <= k < |fields| ==> sorted[k] == Field(fields[k].key, SortDeep(fields[k].value))
    decreases fields, 0
  {
    if fields == [] then [] else [Field(fields[0].key, SortDeep(fields[0].value))] + SortValues(fields[1..])
  }

  // ----- Printing: lines 39-46 -----

  function HexDigit(d: nat): char
    requires d < 16
  {
    if d < 10 then '0' + d as char else 'a' + (d - 10) as char
  }

  function EscapeChar(c: char): string {
    if c == '"' then "\\\""
    else if c == '\\' then "\\\\"
    else if c == '\n' then "\\n"
    else if c == '\r' then "\\r"
    else if c == '\t' then "\\t"
    else if c == '\U{8}' then "\\b"
    else if c == '\U{c}' then "\\f"
    else if c < ' ' then ['\\', 'u', '0', '0', HexDigit(c as int / 16), HexDigit(c as int % 16)]
    else [c]
  }

  function Escape(s: string): string {
    if s == [] then [] else EscapeChar(s[0]) + Escape(s[1..])
  }

  function Quote(s: string): string {
    "\"" + Escape(s) + "\""
  }

  function Print(v: Json): string
    decreases v, 1
  {
    match v
    case JNull => "null"
    case JBool(b) => if b then "true" else "false"
    case JInt(i) => IntText(i)
    case JStr(s) => Quote(s)
    case JArr(items) => "[" + PrintItems(items) + "]"
    case JObj(fields) => "{" + PrintFields(fields) + "}"
  }

  function PrintItems(items: seq<Json>): string
    decreases items, 0
  {
    if items == [] then ""
    else if |items| == 1 then Print(items[0])
    else Print(items[0]) + "," + PrintItems(items[1..])
  }

  function PrintField(field: Field): string
    decreases field, 2
  {
    Quote(field.key) + ":" + Print(field.value)
  }

  function PrintFields(fields: seq<Field>): string
    decreases fields, 3
  {
    if fields == [] then ""
    else if |fields| == 1 then PrintField(fields[0])
    else PrintField(fields[0]) + "," + PrintFields(fields[1..])
  }

  /** The text `canonical_json` encodes, for a normalized tree. */
  function CanonicalText(v: Json): string {
    Print(SortDeep(v))
  }

  /** `canonical_json`, before UTF-8. */
  function Canonical(value: PyValue): Result<string, CanonicalizationError> {
    match Normalize(value, "$")
    case Ok(v) => Ok(CanonicalText(v))
    case Err(error) => Err(error)
  }

  // ----- Trees whose objects have distinct keys -----

  predicate DistinctFields(fields: seq<Field>) {
    forall i, j :: 0 <= i < j < |fields| ==> fields[i].key != fields[j].key
  }

  predicate WellFormed(v: Json) {
    match v
    case JArr(items) => forall k :: 0 <= k < |items| ==> WellFormed(items[k])
    case JObj(fields) => DistinctFields(fields) && forall k :: 0 <= k < |fields| ==> WellFormed(fields[k].value)
    case _ => true
  }

  /** Equality of Python values: dicts are equal when they hold equal values at the same keys. */
  ghost predicate SameValue(v: Json, w: Json)
    decreases v, 1
  {
    match v
    case JArr(items) =>
      w.JArr? && |w.items| == |items| && forall k :: 0 <= k < |items| ==> SameValue(items[k], w.items[k])
    case JObj(fields) =>
      w.JObj? && |w.fields| == |fields| && forall k :: 0 <= k < |fields| ==> HasSame(fields[k], w.fields)
    case _ => v == w
  }

  ghost predicate HasSame(field: Field, fields: seq<Field>)
    decreases field, 2
  {
    exists j :: 0 <= j < |fields| && fields[j].key == field.key && SameValue(field.value, fields[j].value)
  }

  // ----- Normalization gives well-formed trees -----

  lemma {:induction false} PutDistinct(fields: seq<Field>, key: string, value: Json)
    requires DistinctFields(fields)
    ensures DistinctFields(Put(fields, key, value))
    ensures forall f :: f in Put(fields, key, value) ==> f.key == key || f in fields
    ensures (forall f :: f in fields ==> WellFormed(f.value)) && WellFormed(value) ==>
              forall f :: f in Put(fields, key, value) ==> WellFormed(f.value)
  {
    if fields != [] && fields[0].key != key {
      PutDistinct(fields[1..], key, value);
      var rest := Put(fields[1..], key, value);
      forall f | f in rest ensures f.key != fields[0].key {
        if f in fields[1..] { var i :| 0 <= i < |fields[1..]| && fields[1..][i] == f; assert fields[i + 1] == f; }
      }
      forall f | f in Put(fields, key, value) ensures f == fields[0] || f in rest {}
    }
  }

  lemma {:induction false} NormalizeWellFormed(value: PyValue, path: string)
    requires Normalize(value, path).Ok?
    ensures WellFormed(Normalize(value, path).value)
    decreases value, 1
  {
    match value
    case PyList(items) => NormalizeItemsWellFormed(items, path, 0);
    case PyDict(entries) => NormalizeEntriesWellFormed(entries, path, []);
    case _ =>
  }

  lemma {:induction false} NormalizeItemsWellFormed(items: seq<PyValue>, path: string, index: nat)
    requires NormalizeItems(items, path, index).Ok?
    ensures forall k :: 0 <= k < |NormalizeItems(items, path, index).value| ==>
              WellFormed(NormalizeItems(items, path, index).value[k])
    decreases items, 0
  {
    if items != [] {
      NormalizeWellFormed(items[0], path + "[" + NatText(index) + "]");
      NormalizeItemsWellFormed(items[1..], path, index + 1);
    }
  }

  lemma {:induction false} NormalizeEntriesWellFormed(entries: seq<PyEntry>, path: string, normalized: seq<Field>)
    requires NormalizeEntries(entries, path, normalized).Ok?
    requires DistinctFields(normalized) && forall f :: f in normalized ==> WellFormed(f.value)
    ensures WellFormed(JObj(NormalizeEntries(entries, path, normalized).value))
    decreases entries, 0
  {
    if entries == [] {
      assert forall k :: 0 <= k < |normalized| ==> normalized[k] in normalized;
    } else {
      var key := entries[0].key.s;
      NormalizeEntryWellFormed(entries[0], path);
      var value := NormalizeEntry(entries[0], path).value;
      PutDistinct(normalized, key, value);
      NormalizeEntriesWellFormed(entries[1..], path, Put(normalized, key, value));
    }
  }

  lemma {:induction false} NormalizeEntryWellFormed(entry: PyEntry, path: string)
    requires entry.key.StrKey? && NormalizeEntry(entry, path).Ok?
    ensures WellFormed(NormalizeEntry(entry, path).value)
    decreases entry, 2
  {
    NormalizeWellFormed(entry.value, path + "." + entry.key.s);
  }

  // ----- Sorting is the right normal form for dict equality -----

  predicate SortedFields(fields: seq<Field>) {
    Ascending(KeyBefore, fields)
  }

  lemma {:induction false} KeyBeforeIsStrict()
    ensures StrictOrder(KeyBefore)
  {
    forall x ensures !KeyBefore(x, x) { BelowIrreflexive(x.key); }
    forall x, y, z | KeyBefore(x, y) && KeyBefore(y, z)
      ensures KeyBefore(x, z)
    {
      BelowTransitive(x.key, y.key, z.key);
    }
  }

  lemma {:induction false} SortFieldsOk(fields: seq<Field>)
    requires DistinctFields(fields)
    ensures SortedFields(SortFields(fields)) && |SortFields(fields)| == |fields|
    ensures forall f :: f in SortFields(fields) <==> f in fields
  {
    KeyBeforeIsStrict();
    forall i, j | 0 <= i < j < |fields| ensures KeyBefore(fields[i], fields[j]) || KeyBefore(fields[j], fields[i]) {
      BelowTotal(fields[i].key, fields[j].key);
    }
    SortAscending(KeyBefore, fields);
    Sorting.SameMembers(SortFields(fields), fields);
  }

  /** Two key-sorted field lists with the same members are equal. */
  lemma {:induction false} SortedUnique(a: seq<Field>, b: seq<Field>)
    requires SortedFields(a) && SortedFields(b) && forall f :: f in a <==> f in b
    ensures a == b
  {
    KeyBeforeIsStrict();
    AscendingUnique(KeyBefore, a, b);
  }

  lemma {:induction false} SortValuesDistinct(fields: seq<Field>)
    requires DistinctFields(fields)
    ensures DistinctFields(SortValues(fields))
  {}

  lemma {:induction false} SortedObject(fields: seq<Field>)
    requires DistinctFields(fields)
    ensures SortedFields(SortFields(SortValues(fields))) && |SortFields(SortValues(fields))| == |fields|
    ensures forall f :: f in SortFields(SortValues(fields)) <==> f in SortValues(fields)
  {
    SortValuesDistinct(fields);
    SortFieldsOk(SortValues(fields));
  }

  /** Distinct field lists of the same length, one inside the other, have the same members. */
  lemma {:induction false} InsideIsSame(a: seq<Field>, b: seq<Field>)
    requires DistinctFields(a) && DistinctFields(b) && |a| == |b| && forall f :: f in a ==> f in b
    ensures forall f :: f in b ==> f in a
  {
    var sa, sb := (set f | f in a), (set f | f in b);
    FieldCount(a);
    FieldCount(b);
    assert sa <= sb;
    SubsetFull(sa, sb);
    forall f | f in b ensures f in a { assert f in sb; }
  }

  lemma {:induction false} FieldCount(a: seq<Field>)
    requires DistinctFields(a)
    ensures |set f | f in a| == |a|
  {
    if a != [] {
      var n := |a| - 1;
      FieldCount(a[..n]);
      assert a == a[..n] + [a[n]];
      assert (set f | f in a) == (set f | f in a[..n]) + {a[n]};
    }
  }

  lemma {:induction false} SubsetFull<T>(a: set<T>, b: set<T>)
    requires a <= b && |a| == |b|
    ensures a == b
  {
    assert |b - a| == |b| - |a|;
  }

  /** Two trees are equal as Python values exactly when their sorted forms are identical. */
  lemma {:induction false} SameIffSorted(v: Json, w: Json)
    requires WellFormed(v) && WellFormed(w)
    ensures SameValue(v, w) <==> SortDeep(v) == SortDeep(w)
    decreases v
  {
    match v
    case JArr(items) =>
      if w.JArr? && |w.items| == |items| {
        forall k | 0 <= k < |items|
          ensures SameValue(items[k], w.items[k]) <==> SortDeep(items[k]) == SortDeep(w.items[k])
        {
          SameIffSorted(items[k], w.items[k]);
        }
        assert SortItems(items) == SortItems(w.items) <==> forall k :: 0 <= k < |items| ==>
              SortItems(items)[k] == SortItems(w.items)[k];
      }
    case JObj(fields) =>
      if w.JObj? {
        SortedObject(fields);
        SortedObject(w.fields);
        if |w.fields| == |fields| { SameFieldsIffSorted(v, w); }
      }
    case _ =>
  }

  /** Field lists whose values were sorted, compared through their keys and sorted values. */
  ghost predicate Covers(a: seq<Field>, b: seq<Field>) {
    forall k :: 0 <= k < |a| ==> a[k] in b
  }

  lemma {:induction false} CoversIffSorted(a: seq<Field>, b: seq<Field>)
    requires DistinctFields(a) && DistinctFields(b) && |a| == |b|
    ensures Covers(a, b) <==> SortFields(a) == SortFields(b)
  {
    SortFieldsOk(a);
    SortFieldsOk(b);
    if Covers(a, b) {
      forall f | f in a ensures f in b {
        var k :| 0 <= k < |a| && a[k] == f;
      }
      InsideIsSame(a, b);
      SortedUnique(SortFields(a), SortFields(b));
    }
    if SortFields(a) == SortFields(b) {
      forall k | 0 <= k < |a| ensures a[k] in b {
        assert a[k] in a;
      }
    }
  }

  lemma {:induction false} SameIffCovers(v: Json, w: Json, a: seq<Field>, b: seq<Field>)
    requires v.JObj? && w.JObj? && |v.fields| == |w.fields| == |a| == |b|
    requires forall k, j :: 0 <= k < |a| && 0 <= j < |b| ==>
               (b[j] == a[k] <==> w.fields[j].key == v.fields[k].key && SameValue(v.fields[k].value, w.fields[j].value))
    ensures SameValue(v, w) <==> Covers(a, b)
  {
    forall k | 0 <= k < |a| ensures a[k] in b <==> HasSame(v.fields[k], w.fields) {
      if a[k] in b { var j :| 0 <= j < |b| && b[j] == a[k]; }
      if HasSame(v.fields[k], w.fields) {
        var j :| 0 <= j < |w.fields| && w.fields[j].key == v.fields[k].key
                 && SameValue(v.fields[k].value, w.fields[j].value);
        assert b[j] == a[k];
      }
    }
  }

  lemma {:induction false} SameFieldsIffSorted(v: Json, w: Json)
    requires v.JObj? && w.JObj? && |w.fields| == |v.fields| && WellFormed(v) && WellFormed(w)
    ensures SameValue(v, w) <==> SortDeep(v) == SortDeep(w)
    decreases v, 0
  {
    var a, b := SortValues(v.fields), SortValues(w.fields);
    SortValuesDistinct(v.fields);
    SortValuesDistinct(w.fields);
    CoversIffSorted(a, b);
    hide SortFields, SortValues, DistinctFields, SameValue;
    forall k, j | 0 <= k < |a| && 0 <= j < |b|
      ensures b[j] == a[k] <==> w.fields[j].key == v.fields[k].key && SameValue(v.fields[k].value, w.fields[j].value)
    {
      SameIffSorted(v.fields[k].value, w.fields[j].value);
    }
    SameIffCovers(v, w, a, b);
  }
}
