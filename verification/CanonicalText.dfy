/** What canonical texts look like, and what has none (protected_actions/canonical.py). */
module CanonicalText {
  import opened Wrappers
  import opened Text
  import opened CanonicalJson
  import Sorting

  // ----- What has a canonical text -----

  /** No float, no value of another type and no key that is not a string, anywhere. */
  predicate Plain(value: PyValue) {
    match value
    case PyFloat(_) => false
    case PyOther(_) => false
    case PyList(items) => forall k :: 0 <= k < |items| ==> Plain(items[k])
    case PyDict(entries) => forall k :: 0 <= k < |entries| ==> entries[k].key.StrKey? && Plain(entries[k].value)
    case _ => true
  }

  /** Exactly the plain values have a canonical text. */
  lemma {:induction false} NormalizesIffPlain(value: PyValue, path: string)
    ensures Normalize(value, path).Ok? <==> Plain(value)
    decreases value, 1
  {
    match value
    case PyList(items) => ItemsNormalizeIffPlain(items, path, 0);
    case PyDict(entries) => EntriesNormalizeIffPlain(entries, path, []);
    case _ =>
  }

  lemma {:induction false} ItemsNormalizeIffPlain(items: seq<PyValue>, path: string, index: nat)
    ensures NormalizeItems(items, path, index).Ok? <==> forall k :: 0 <= k < |items| ==> Plain(items[k])
    decreases items, 0
  {
    if items != [] {
      NormalizesIffPlain(items[0], path + "[" + NatText(index) + "]");
      ItemsNormalizeIffPlain(items[1..], path, index + 1);
      assert items == [items[0]] + items[1..];
    }
  }

  lemma {:induction false} EntryNormalizesIffPlain(entry: PyEntry, path: string)
    requires entry.key.StrKey?
    ensures NormalizeEntry(entry, path).Ok? <==> Plain(entry.value)
    decreases entry, 2
  {
    NormalizesIffPlain(entry.value, path + "." + entry.key.s);
  }

  lemma {:induction false} EntriesNormalizeIffPlain(entries: seq<PyEntry>, path: string, done: seq<Field>)
    ensures NormalizeEntries(entries, path, done).Ok?
       <==> forall k :: 0 <= k < |entries| ==> entries[k].key.StrKey? && Plain(entries[k].value)
    decreases entries, 0
  {
    if entries != [] && entries[0].key.StrKey? {
      EntryNormalizesIffPlain(entries[0], path);
      if Plain(entries[0].value) {
        EntriesNormalizeIffPlain(entries[1..], path,
                                 Put(done, entries[0].key.s, NormalizeEntry(entries[0], path).value));
      }
      assert entries == [entries[0]] + entries[1..];
    }
  }

  /** An error names the kind of the offending value and where it stands. */
  lemma {:induction false} LeafErrors(path: string, text: string)
    ensures Normalize(PyFloat(text), path) == Err(FloatForbidden(path))
    ensures Normalize(PyOther(text), path) == Err(UnsupportedType(path, text))
  {}

  /** In a list the first offending item decides; its index is added to the way. */
  lemma {:induction false} ItemError(items: seq<PyValue>, path: string, index: nat, k: nat)
    requires k < |items| && !Plain(items[k]) && forall m :: 0 <= m < k ==> Plain(items[m])
    ensures NormalizeItems(items, path, index).Err?
    ensures Normalize(items[k], path + "[" + NatText(index + k) + "]").Err?
    ensures NormalizeItems(items, path, index).error
         == Normalize(items[k], path + "[" + NatText(index + k) + "]").error
  {
    hide Normalize, NatText;
    NormalizesIffPlain(items[0], path + "[" + NatText(index) + "]");
    if k > 0 { ItemError(items[1..], path, index + 1, k - 1); }
  }

  /** In a mapping the first entry decides whose key is not a string or whose value offends; the key is added to
      the way of the value. */
  lemma {:induction false} EntryError(entries: seq<PyEntry>, path: string, done: seq<Field>, k: nat)
    requires k < |entries| && (entries[k].key.OtherKey? || !Plain(entries[k].value))
    requires forall m :: 0 <= m < k ==> entries[m].key.StrKey? && Plain(entries[m].value)
    ensures NormalizeEntries(entries, path, done).Err?
    ensures entries[k].key.OtherKey? ==> NormalizeEntries(entries, path, done).error == NonStringKey(path)
    ensures entries[k].key.StrKey? ==>
              && Normalize(entries[k].value, path + "." + entries[k].key.s).Err?
              && NormalizeEntries(entries, path, done).error
                 == Normalize(entries[k].value, path + "." + entries[k].key.s).error
  {
    hide Normalize;
    if entries[0].key.StrKey? { EntryNormalizesIffPlain(entries[0], path); }
    if k > 0 {
      EntryError(entries[1..], path, Put(done, entries[0].key.s, NormalizeEntry(entries[0], path).value), k - 1);
    }
  }

  // ----- Repeated keys -----

  ghost predicate HoldsAt(fields: seq<Field>, key: string, value: Json) {
    exists k :: 0 <= k < |fields| && fields[k] == Field(key, value)
  }

  lemma {:induction false} PutHolds(fields: seq<Field>, key: string, value: Json)
    ensures HoldsAt(Put(fields, key, value), key, value)
    ensures forall other, w :: other != key && HoldsAt(fields, other, w) ==> HoldsAt(Put(fields, key, value), other, w)
  {
    if fields == [] || fields[0].key == key {
      assert Put(fields, key, value)[0] == Field(key, value);
      forall other, w | other != key && HoldsAt(fields, other, w) ensures HoldsAt(Put(fields, key, value), other, w) {
        var k :| 0 <= k < |fields| && fields[k] == Field(other, w);
        assert Put(fields, key, value)[k] == Field(other, w);
      }
    } else {
      PutHolds(fields[1..], key, value);
      var rest := Put(fields[1..], key, value);
      var k :| 0 <= k < |rest| && rest[k] == Field(key, value);
      assert Put(fields, key, value)[k + 1] == Field(key, value);
      forall other, w | other != key && HoldsAt(fields, other, w) ensures HoldsAt(Put(fields, key, value), other, w) {
        var m :| 0 <= m < |fields| && fields[m] == Field(other, w);
        if m == 0 {
          assert Put(fields, key, value)[0] == Field(other, w);
        } else {
          assert fields[1..][m - 1] == Field(other, w);
          assert HoldsAt(fields[1..], other, w);
          var n :| 0 <= n < |rest| && rest[n] == Field(other, w);
          assert Put(fields, key, value)[n + 1] == Field(other, w);
        }
      }
    }
  }

  lemma {:induction false} KeptByEntries(entries: seq<PyEntry>, path: string, done: seq<Field>, key: string,
                                         value: Json)
    requires NormalizeEntries(entries, path, done).Ok? && HoldsAt(done, key, value)
    requires forall k :: 0 <= k < |entries| ==> entries[k].key != StrKey(key)
    ensures HoldsAt(NormalizeEntries(entries, path, done).value, key, value)
  {
    if entries != [] {
      var first := NormalizeEntry(entries[0], path).value;
      PutHolds(done, entries[0].key.s, first);
      KeptByEntries(entries[1..], path, Put(done, entries[0].key.s, first), key, value);
    }
  }

  /** An object holds, under every key, the value that was given last. */
  lemma {:induction false} LastValueWins(entries: seq<PyEntry>, path: string, done: seq<Field>, k: nat)
    requires NormalizeEntries(entries, path, done).Ok? && k < |entries| && entries[k].key.StrKey?
    requires forall m :: k < m < |entries| ==> entries[m].key != entries[k].key
    ensures var key := entries[k].key.s;
            && Normalize(entries[k].value, path + "." + key).Ok?
            && HoldsAt(NormalizeEntries(entries, path, done).value, key,
                       Normalize(entries[k].value, path + "." + key).value)
  {
    var first := NormalizeEntry(entries[0], path).value;
    var done' := Put(done, entries[0].key.s, first);
    if k == 0 {
      PutHolds(done, entries[0].key.s, first);
      KeptByEntries(entries[1..], path, done', entries[0].key.s, first);
    } else {
      LastValueWins(entries[1..], path, done', k - 1);
    }
  }

  // ----- The order of keys -----

  /** Strings are ordered by their first different character; a prefix comes first. */
  lemma {:induction false} BelowMeans(a: string, b: string)
    ensures Below(a, b)
       <==> exists k :: 0 <= k <= |a| && k < |b| && a[..k] == b[..k] && (k == |a| || a[k] < b[k])
  {
    if Below(a, b) {
      if a != [] && a[0] == b[0] && Below(a[1..], b[1..]) {
        BelowMeans(a[1..], b[1..]);
        var k :| 0 <= k <= |a[1..]| && k < |b[1..]| && a[1..][..k] == b[1..][..k]
                 && (k == |a[1..]| || a[1..][k] < b[1..][k]);
        assert a[..k + 1] == [a[0]] + a[1..][..k] && b[..k + 1] == [b[0]] + b[1..][..k];
      } else {
        assert a[..0] == b[..0];
      }
    }
    if k :| 0 <= k <= |a| && k < |b| && a[..k] == b[..k] && (k == |a| || a[k] < b[k]) {
      if k > 0 {
        assert a[0] == a[..k][0] == b[..k][0] == b[0];
        assert a[1..][..k - 1] == a[..k][1..] && b[1..][..k - 1] == b[..k][1..];
        BelowMeans(a[1..], b[1..]);
      }
    }
  }

  /** The keys of every object in a canonical text ascend. */
  lemma {:induction false} KeysAscend(v: Json, i: nat, j: nat)
    requires v.JObj? && WellFormed(v) && i < j < |SortDeep(v).fields|
    ensures Below(SortDeep(v).fields[i].key, SortDeep(v).fields[j].key)
  {
    SortedObject(v.fields);
  }

  // ----- The text -----

  /** Every text after a comma. */
  function Commas(texts: seq<string>): string {
    if texts == [] then "" else "," + texts[0] + Commas(texts[1..])
  }

  function ItemTexts(items: seq<Json>): seq<string> {
    if items == [] then [] else [Print(items[0])] + ItemTexts(items[1..])
  }

  function FieldTexts(fields: seq<Field>): seq<string> {
    if fields == [] then []
    else [Quote(fields[0].key) + ":" + Print(fields[0].value)] + FieldTexts(fields[1..])
  }

  lemma {:induction false} ItemsBetweenCommas(items: seq<Json>)
    requires items != []
    ensures PrintItems(items) == Print(items[0]) + Commas(ItemTexts(items[1..]))
  {
    hide Print;
    if |items| > 1 {
      ItemsBetweenCommas(items[1..]);
      assert Print(items[0]) + "," + PrintItems(items[1..]) == Print(items[0]) + ("," + PrintItems(items[1..]));
    }
  }

  lemma {:induction false} FieldsBetweenCommas(fields: seq<Field>)
    requires fields != []
    ensures PrintFields(fields) == Quote(fields[0].key) + ":" + Print(fields[0].value) + Commas(FieldTexts(fields[1..]))
  {
    hide Print, Quote;
    if |fields| > 1 {
      FieldsBetweenCommas(fields[1..]);
      assert PrintField(fields[0]) + "," + PrintFields(fields[1..])
          == PrintField(fields[0]) + ("," + PrintFields(fields[1..]));
    }
  }

  /** Literals are in lower case, lists in brackets, objects in braces, with a comma between two entries, a colon
      after a key, and no white space. */
  lemma {:induction false} PrintsCompactly(items: seq<Json>, fields: seq<Field>)
    ensures Print(JNull) == "null" && Print(JBool(true)) == "true" && Print(JBool(false)) == "false"
    ensures Print(JArr([])) == "[]" && Print(JObj([])) == "{}"
    ensures items != [] ==> Print(JArr(items)) == "[" + (Print(items[0]) + Commas(ItemTexts(items[1..]))) + "]"
    ensures fields != [] ==>
              Print(JObj(fields))
              == "{" + (Quote(fields[0].key) + ":" + Print(fields[0].value) + Commas(FieldTexts(fields[1..]))) + "}"
    ensures forall text :: Quote(text) == "\"" + Escape(text) + "\""
  {
    if items != [] { ItemsBetweenCommas(items); }
    if fields != [] { FieldsBetweenCommas(fields); }
    hide PrintItems, PrintFields, Escape;
  }

  /** Quotes, backslashes and control characters are escaped, the shorter way where there is one; nothing else
      is. */
  lemma {:induction false} EscapesExactly(c: char)
    ensures c >= ' ' && c != '"' && c != '\\' ==> EscapeChar(c) == [c]
    ensures EscapeChar('"') == "\\\"" && EscapeChar('\\') == "\\\\"
    ensures EscapeChar('\n') == "\\n" && EscapeChar('\r') == "\\r" && EscapeChar('\t') == "\\t"
    ensures EscapeChar('\U{8}') == "\\b" && EscapeChar('\U{c}') == "\\f"
    ensures EscapeChar('\U{0}') == "\\u0000" && EscapeChar('\U{1f}') == "\\u001f" && EscapeChar('\U{1b}') == "\\u001b"
    ensures c < ' ' && c !in "\n\r\t\U{8}\U{c}" ==>
              && |EscapeChar(c)| == 6 && EscapeChar(c)[..4] == "\\u00"
              && EscapeChar(c)[4] == (if c as int < 16 then '0' else '1')
              && (c as int % 16 < 10 ==> EscapeChar(c)[5] == '0' + (c as int % 16) as char)
              && (c as int % 16 >= 10 ==> EscapeChar(c)[5] == 'a' + (c as int % 16 - 10) as char)
  {}

  lemma {:induction false} EscapesEach(s: string)
    ensures s != [] ==> Escape(s) == EscapeChar(s[0]) + Escape(s[1..])
    ensures Escape([]) == []
  {}
}
