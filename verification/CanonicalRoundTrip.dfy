/** What canonical bytes promise: they parse back, they identify the value up to key order, and
    canonicalizing them again changes nothing. */
module CanonicalRoundTrip {
  import opened Wrappers
  import opened Text
  import opened CanonicalJson
  import opened JsonLoads

  // ----- The sorted tree -----

  lemma {:induction false} SortDeepWellFormed(v: Json)
    requires WellFormed(v)
    ensures WellFormed(SortDeep(v))
    decreases v
  {
    match v
    case JArr(items) =>
      forall k | 0 <= k < |items| ensures WellFormed(SortItems(items)[k]) { SortDeepWellFormed(items[k]); }
    case JObj(fields) =>
      var values := SortValues(fields);
      forall k | 0 <= k < |fields| ensures WellFormed(values[k].value) { SortDeepWellFormed(fields[k].value); }
      SortedObject(fields);
      SortedIsWellFormed(values, SortFields(values));
    case _ =>
  }

  lemma {:induction false} SortedIsWellFormed(values: seq<Field>, sorted: seq<Field>)
    requires SortedFields(sorted) && forall f :: f in sorted <==> f in values
    requires forall k :: 0 <= k < |values| ==> WellFormed(values[k].value)
    ensures WellFormed(JObj(sorted))
  {
    forall i, j | 0 <= i < j < |sorted| ensures sorted[i].key != sorted[j].key { BelowIrreflexive(sorted[i].key); }
    forall k | 0 <= k < |sorted| ensures WellFormed(sorted[k].value) {
      assert sorted[k] in values;
    }
  }

  lemma {:induction false} SortFieldsId(fields: seq<Field>)
    requires SortedFields(fields)
    ensures SortFields(fields) == fields
  {
    forall i, j | 0 <= i < j < |fields| ensures fields[i].key != fields[j].key { BelowIrreflexive(fields[i].key); }
    SortFieldsOk(fields);
    SortedUnique(SortFields(fields), fields);
  }

  /** Sorting an already sorted tree changes nothing. */
  lemma {:induction false} SortDeepIdempotent(v: Json)
    requires WellFormed(v)
    ensures SortDeep(SortDeep(v)) == SortDeep(v)
    decreases v
  {
    match v
    case JArr(items) =>
      forall k | 0 <= k < |items|
        ensures SortDeep(SortItems(items)[k]) == SortItems(items)[k]
      {
        SortDeepIdempotent(items[k]);
      }
      assert SortItems(SortItems(items)) == SortItems(items);
    case JObj(fields) =>
      var values := SortValues(fields);
      var sorted := SortFields(values);
      SortedObject(fields);
      forall f | f in values ensures SortDeep(f.value) == f.value {
        var k :| 0 <= k < |values| && values[k] == f;
        SortDeepIdempotent(fields[k].value);
      }
      forall k | 0 <= k < |sorted| ensures SortValues(sorted)[k] == sorted[k] {
        assert sorted[k] in sorted;
      }
      assert SortValues(sorted) == sorted;
      SortFieldsId(sorted);
    case _ =>
  }

  // ----- Printing is injective on trees -----

  lemma {:induction false} ToPyInjective(v: Json, w: Json)
    requires WellFormed(v) && WellFormed(w) && ToPy(v) == ToPy(w)
    ensures v == w
  {
    NormalizeLoaded(v, "$");
    NormalizeLoaded(w, "$");
  }

  lemma {:induction false} LoadsPrinted(v: Json)
    requires WellFormed(v)
    ensures Loads(Print(v)) == Some(ToPy(v))
  {
    ParsePrinted(v, "");
    assert Print(v) + "" == Print(v);
    PrintStarts(v);
    SkipNothing(Print(v));
    SkipNothing("");
  }

  lemma {:induction false} PrintInjective(v: Json, w: Json)
    requires WellFormed(v) && WellFormed(w) && Print(v) == Print(w)
    ensures v == w
  {
    LoadsPrinted(v);
    LoadsPrinted(w);
    hide Print, ToPy, Loads, WellFormed;
    ToPyInjective(v, w);
  }

  // ----- The theorems -----

  /** Canonical text parses back to the normalized tree, with its keys in order: an equal value. */
  lemma {:induction false} LoadsCanonicalText(v: Json)
    requires WellFormed(v)
    ensures Loads(CanonicalText(v)) == Some(ToPy(SortDeep(v)))
    ensures SameValue(v, SortDeep(v))
  {
    SortDeepWellFormed(v);
    LoadsPrinted(SortDeep(v));
    SortDeepIdempotent(v);
    SameIffSorted(v, SortDeep(v));
  }

  lemma {:induction false} LoadsCanonical(value: PyValue)
    requires Canonical(value).Ok?
    ensures Normalize(value, "$").Ok? && WellFormed(Normalize(value, "$").value)
    ensures var v := Normalize(value, "$").value;
            && Loads(Canonical(value).value) == Some(ToPy(SortDeep(v)))
            && Normalize(ToPy(SortDeep(v)), "$") == Ok(SortDeep(v)) && SameValue(v, SortDeep(v))
  {
    var v := Normalize(value, "$").value;
    NormalizeWellFormed(value, "$");
    LoadsCanonicalText(v);
    SortDeepWellFormed(v);
    NormalizeLoaded(SortDeep(v), "$");
  }

  /** The same bytes exactly for values that differ at most in the order of their keys. */
  lemma {:induction false} SameBytesIffSameValue(v: Json, w: Json)
    requires WellFormed(v) && WellFormed(w)
    ensures CanonicalText(v) == CanonicalText(w) <==> SameValue(v, w)
  {
    SameIffSorted(v, w);
    SortDeepWellFormed(v);
    SortDeepWellFormed(w);
    if CanonicalText(v) == CanonicalText(w) { PrintInjective(SortDeep(v), SortDeep(w)); }
  }

  /** The fields of one normalized object in another order give the same bytes. */
  lemma {:induction false} FieldOrderIsIrrelevant(a: seq<Field>, b: seq<Field>)
    requires WellFormed(JObj(a)) && WellFormed(JObj(b)) && multiset(a) == multiset(b)
    ensures CanonicalText(JObj(a)) == CanonicalText(JObj(b))
  {
    forall k | 0 <= k < |a| ensures HasSame(a[k], b) {
      assert a[k] in multiset(a);
      assert a[k] in b;
      var j :| 0 <= j < |b| && b[j] == a[k];
      SameIffSorted(a[k].value, b[j].value);
    }
    assert |multiset(a)| == |a| && |multiset(b)| == |b|;
    SameBytesIffSameValue(JObj(a), JObj(b));
  }

  // ----- Dictionaries filled in another order -----

  /** A mapping holds each string key once. */
  predicate DistinctEntries(entries: seq<PyEntry>) {
    forall i, j :: 0 <= i < j < |entries| && entries[i].key.StrKey? ==> entries[i].key != entries[j].key
  }

  /** The same value, but for the insertion order of dictionary entries, at any depth. */
  ghost predicate Reordered(a: PyValue, b: PyValue)
    decreases a, 1
  {
    match a
    case PyList(items) =>
      b.PyList? && |b.items| == |items| && forall k :: 0 <= k < |items| ==> Reordered(items[k], b.items[k])
    case PyDict(entries) => b.PyDict? && SameEntries(entries, b.entries)
    case _ => a == b
  }

  ghost predicate SameEntries(a: seq<PyEntry>, b: seq<PyEntry>)
    decreases a, 3
  {
    && |a| == |b| && DistinctEntries(a) && DistinctEntries(b)
    && (forall k :: 0 <= k < |a| ==> IsIn(a[k], b))
    && (forall j :: 0 <= j < |b| ==> ComesFrom(a, b[j]))
  }

  ghost predicate SameEntry(x: PyEntry, y: PyEntry)
    decreases x, 2
  {
    x.key == y.key && Reordered(x.value, y.value)
  }

  ghost predicate IsIn(x: PyEntry, b: seq<PyEntry>)
    decreases x, 4
  {
    exists j :: 0 <= j < |b| && SameEntry(x, b[j])
  }

  ghost predicate ComesFrom(a: seq<PyEntry>, y: PyEntry)
    decreases a, 2
  {
    exists k :: 0 <= k < |a| && SameEntry(a[k], y)
  }

  predicate EntryOk(entry: PyEntry, path: string) {
    entry.key.StrKey? && NormalizeEntry(entry, path).Ok?
  }

  /** A key that is not there yet is put at the end. */
  lemma {:induction false} PutNew(fields: seq<Field>, key: string, value: Json)
    requires forall f :: f in fields ==> f.key != key
    ensures Put(fields, key, value) == fields + [Field(key, value)]
  {
    if fields != [] { PutNew(fields[1..], key, value); }
  }

  /** The entries of a mapping are normalized one by one, in their order. */
  lemma {:induction false} EntriesInOrder(entries: seq<PyEntry>, path: string, done: seq<Field>)
    requires DistinctEntries(entries)
    requires forall f, e :: f in done && e in entries ==> e.key != StrKey(f.key)
    ensures NormalizeEntries(entries, path, done).Ok? <==> forall k :: 0 <= k < |entries| ==> EntryOk(entries[k], path)
    ensures var r := NormalizeEntries(entries, path, done);
            r.Ok? ==>
              && |r.value| == |done| + |entries| && r.value[..|done|] == done
              && forall k :: 0 <= k < |entries| ==>
                   EntryOk(entries[k], path)
                   && r.value[|done| + k] == Field(entries[k].key.s, NormalizeEntry(entries[k], path).value)
    decreases |entries|
  {
    hide NormalizeEntry;
    if entries != [] && EntryOk(entries[0], path) {
      var key, value := entries[0].key.s, NormalizeEntry(entries[0], path).value;
      assert entries[0] in entries;
      PutNew(done, key, value);
      var done' := done + [Field(key, value)];
      forall f, e | f in done' && e in entries[1..] ensures e.key != StrKey(f.key) {
        var j :| 0 <= j < |entries[1..]| && entries[1..][j] == e;
        assert entries[j + 1] == e;
      }
      EntriesInOrder(entries[1..], path, done');
      var r := NormalizeEntries(entries[1..], path, done');
      assert NormalizeEntries(entries, path, done) == r;
      if r.Ok? {
        assert r.value[..|done|] == r.value[..|done'|][..|done|] == done;
        forall k | 0 <= k < |entries|
          ensures EntryOk(entries[k], path)
          ensures r.value[|done| + k] == Field(entries[k].key.s, NormalizeEntry(entries[k], path).value)
        {
          if k > 0 {
            assert entries[k] == entries[1..][k - 1];
          } else {
            assert r.value[..|done'|][|done|] == done'[|done|];
          }
        }
      } else {
        var k :| 0 <= k < |entries[1..]| && !EntryOk(entries[1..][k], path);
        assert !EntryOk(entries[k + 1], path);
      }
    }
  }

  /** What the k-th item of a list gives. */
  function ItemAt(items: seq<PyValue>, path: string, index: nat, k: nat): Result<Json, CanonicalizationError>
    requires k < |items|
  {
    Normalize(items[k], path + "[" + NatText(index + k) + "]")
  }

  lemma {:induction false} ItemsInOrder(items: seq<PyValue>, path: string, index: nat)
    ensures NormalizeItems(items, path, index).Ok?
       <==> forall k :: 0 <= k < |items| ==> ItemAt(items, path, index, k).Ok?
    ensures var r := NormalizeItems(items, path, index);
            r.Ok? ==>
              && |r.value| == |items|
              && forall k :: 0 <= k < |items| ==> ItemAt(items, path, index, k) == Ok(r.value[k])
    decreases |items|
  {
    hide Normalize, NatText;
    if items != [] {
      var rest, next := items[1..], index + 1;
      ItemsInOrder(rest, path, next);
      assert NormalizeItems(items, path, index).Ok?
        <==> ItemAt(items, path, index, 0).Ok? && NormalizeItems(rest, path, next).Ok?;
      forall k | 0 < k < |items| ensures ItemAt(items, path, index, k) == ItemAt(rest, path, next, k - 1) {}
      forall k {:trigger ItemAt(rest, path, next, k)} | 0 <= k < |rest|
        ensures ItemAt(rest, path, next, k) == ItemAt(items, path, index, k + 1)
      {}
      hide ItemAt;
    }
  }

  /** Such values are refused together, and otherwise normalize to equal values. */
  lemma {:induction false} ReorderedNormalizes(a: PyValue, b: PyValue, path: string)
    requires Reordered(a, b)
    ensures Normalize(a, path).Ok? <==> Normalize(b, path).Ok?
    ensures Normalize(a, path).Ok? ==> SameValue(Normalize(a, path).value, Normalize(b, path).value)
    decreases a, 1
  {
    hide SameEntries, NormalizeItems, NormalizeEntries;
    match a
    case PyList(items) => ReorderedItems(items, b.items, path);
    case PyDict(entries) => ReorderedEntries(entries, b.entries, path);
    case _ =>
  }

  lemma {:induction false} ReorderedItems(a: seq<PyValue>, b: seq<PyValue>, path: string)
    requires |a| == |b| && forall k :: 0 <= k < |a| ==> Reordered(a[k], b[k])
    ensures NormalizeItems(a, path, 0).Ok? <==> NormalizeItems(b, path, 0).Ok?
    ensures NormalizeItems(a, path, 0).Ok? ==>
              SameValue(JArr(NormalizeItems(a, path, 0).value), JArr(NormalizeItems(b, path, 0).value))
    decreases a, 4
  {
    hide NormalizeItems, ItemAt, Reordered;
    forall k | 0 <= k < |a|
      ensures ItemAt(a, path, 0, k).Ok? <==> ItemAt(b, path, 0, k).Ok?
      ensures ItemAt(a, path, 0, k).Ok? ==> SameValue(ItemAt(a, path, 0, k).value, ItemAt(b, path, 0, k).value)
    {
      ReorderedItem(a, b, path, k);
    }
    ItemsInOrder(a, path, 0);
    ItemsInOrder(b, path, 0);
  }

  lemma {:induction false} ReorderedItem(a: seq<PyValue>, b: seq<PyValue>, path: string, k: nat)
    requires |a| == |b| && k < |a| && Reordered(a[k], b[k])
    ensures ItemAt(a, path, 0, k).Ok? <==> ItemAt(b, path, 0, k).Ok?
    ensures ItemAt(a, path, 0, k).Ok? ==> SameValue(ItemAt(a, path, 0, k).value, ItemAt(b, path, 0, k).value)
    decreases a, 3
  {
    hide Normalize, SameValue;
    ReorderedNormalizes(a[k], b[k], path + "[" + NatText(0 + k) + "]");
  }

  lemma {:induction false} ReorderedEntry(x: PyEntry, y: PyEntry, path: string)
    requires SameEntry(x, y)
    ensures EntryOk(x, path) <==> EntryOk(y, path)
    ensures EntryOk(x, path) ==> SameValue(NormalizeEntry(x, path).value, NormalizeEntry(y, path).value)
    decreases x, 2
  {
    if x.key.StrKey? { ReorderedNormalizes(x.value, y.value, path + "." + x.key.s); }
    hide SameValue, Normalize;
  }

  /** Whatever holds of all entries of one holds of all entries of the other. */
  lemma {:induction false} EntriesOkTogether(a: seq<PyEntry>, b: seq<PyEntry>, path: string)
    requires SameEntries(a, b)
    ensures (forall k :: 0 <= k < |a| ==> EntryOk(a[k], path)) <==> forall j :: 0 <= j < |b| ==> EntryOk(b[j], path)
    decreases a, 3
  {
    hide EntryOk, SameEntry, IsIn, ComesFrom, DistinctEntries;
    forall k | 0 <= k < |a| && forall j :: 0 <= j < |b| ==> EntryOk(b[j], path) ensures EntryOk(a[k], path) {
      var j := Partner(a[k], b);
      ReorderedEntry(a[k], b[j], path);
    }
    forall j | 0 <= j < |b| && forall k :: 0 <= k < |a| ==> EntryOk(a[k], path) ensures EntryOk(b[j], path) {
      var k := Origin(a, b[j]);
      ReorderedEntry(a[k], b[j], path);
    }
  }

  lemma Partner(x: PyEntry, b: seq<PyEntry>) returns (j: nat)
    requires IsIn(x, b)
    ensures j < |b| && SameEntry(x, b[j])
  {
    j :| 0 <= j < |b| && SameEntry(x, b[j]);
  }

  lemma Origin(a: seq<PyEntry>, y: PyEntry) returns (k: nat)
    requires ComesFrom(a, y)
    ensures k < |a| && SameEntry(a[k], y)
  {
    k :| 0 <= k < |a| && SameEntry(a[k], y);
  }

  lemma {:induction false} ReorderedEntries(a: seq<PyEntry>, b: seq<PyEntry>, path: string)
    requires SameEntries(a, b)
    ensures NormalizeEntries(a, path, []).Ok? <==> NormalizeEntries(b, path, []).Ok?
    ensures NormalizeEntries(a, path, []).Ok? ==>
              SameValue(JObj(NormalizeEntries(a, path, []).value), JObj(NormalizeEntries(b, path, []).value))
    decreases a, 4
  {
    hide NormalizeEntries, EntryOk, NormalizeEntry, DistinctEntries, SameEntry, HasSame, IsIn, ComesFrom;
    EntriesInOrder(a, path, []);
    EntriesInOrder(b, path, []);
    EntriesOkTogether(a, b, path);
    if NormalizeEntries(a, path, []).Ok? {
      var fa, fb := NormalizeEntries(a, path, []).value, NormalizeEntries(b, path, []).value;
      forall k | 0 <= k < |a| ensures HasSame(fa[k], fb) {
        var j := Partner(a[k], b);
        ReorderedEntry(a[k], b[j], path);
        HasPartner(a[k], b[j], path, fb, j);
      }
    }
  }

  lemma {:induction false} HasPartner(x: PyEntry, y: PyEntry, path: string, fields: seq<Field>, j: nat)
    requires SameEntry(x, y) && EntryOk(x, path) && EntryOk(y, path) && j < |fields|
    requires fields[j] == Field(y.key.s, NormalizeEntry(y, path).value)
    requires SameValue(NormalizeEntry(x, path).value, NormalizeEntry(y, path).value)
    ensures HasSame(Field(x.key.s, NormalizeEntry(x, path).value), fields)
  {
    hide NormalizeEntry, SameValue, Reordered;
  }

  /** Filling dictionaries in another order, at any depth, gives the same bytes or is refused as well. */
  lemma {:induction false} KeyOrderIsIrrelevant(a: PyValue, b: PyValue)
    requires Reordered(a, b)
    ensures Canonical(a).Ok? <==> Canonical(b).Ok?
    ensures Canonical(a).Ok? ==> Canonical(a) == Canonical(b)
  {
    hide Normalize, Reordered, SameValue, CanonicalText, WellFormed;
    ReorderedNormalizes(a, b, "$");
    if Normalize(a, "$").Ok? {
      NormalizeWellFormed(a, "$");
      NormalizeWellFormed(b, "$");
      SameBytesIffSameValue(Normalize(a, "$").value, Normalize(b, "$").value);
    }
  }

  /** Canonicalizing what canonical bytes parse to gives the same bytes. */
  lemma {:induction false} CanonicalIsIdempotent(value: PyValue)
    requires Canonical(value).Ok?
    ensures Loads(Canonical(value).value).Some?
    ensures Canonical(Loads(Canonical(value).value).value) == Canonical(value)
  {
    LoadsCanonical(value);
    SortDeepIdempotent(Normalize(value, "$").value);
  }

  /** The sink's check (email/service.py:139-141): the text parses, and canonicalizing the parsed
      value gives the text again. */
  predicate SinkAccepts(text: string) {
    match Loads(text)
    case None => false
    case Some(value) => Canonical(value) == Ok(text)
  }

  ghost predicate IsCanonical(text: string) {
    exists value :: Canonical(value) == Ok(text)
  }

  /** The sink accepts exactly the texts `canonical_json` can produce. */
  lemma {:induction false} SinkAcceptsExactlyCanonical(text: string)
    ensures SinkAccepts(text) <==> IsCanonical(text)
  {
    if IsCanonical(text) {
      var value :| Canonical(value) == Ok(text);
      CanonicalIsIdempotent(value);
    }
  }

  /** Canonical text is never blank at either end, so a strict string field keeps it as it is. */
  lemma {:induction false} PrintEnds(v: Json)
    ensures Print(v) != [] && !IsSpace(Print(v)[0]) && !IsSpace(Print(v)[|Print(v)| - 1])
  {
    if v.JInt? {
      var digits := NatText(if v.i < 0 then -v.i else v.i);
      assert digits[0] in digits && digits[|digits| - 1] in digits;
      assert Print(v)[|Print(v)| - 1] == digits[|digits| - 1];
    }
  }
}
