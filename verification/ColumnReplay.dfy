/** Last-write-wins columns, replayed from a row that already holds their final values
    (persistence/postgres.py:789-850). */
module ColumnReplay {
  import opened Wrappers
  import opened EventJournal

  type Columns = map<string, Value>

  /** `UPDATE ... SET c = CASE WHEN has_c THEN new ELSE c END` for every column. */
  function Write(columns: Columns, w: Columns): (result: Columns)
    ensures result.Keys == columns.Keys
  {
    map name | name in columns :: if name in w then w[name] else columns[name]
  }

  function WriteAll(columns: Columns, ws: seq<Columns>): (result: Columns)
    ensures result.Keys == columns.Keys
  {
    if ws == [] then columns else Write(WriteAll(columns, ws[..|ws| - 1]), ws[|ws| - 1])
  }

  /** The last value written to a column. */
  function LastWrite(ws: seq<Columns>, name: string): Option<Value> {
    if ws == [] then None
    else if name in ws[|ws| - 1] then Some(ws[|ws| - 1][name])
    else LastWrite(ws[..|ws| - 1], name)
  }

  lemma {:induction false} WriteAllIsLast(columns: Columns, ws: seq<Columns>, name: string)
    requires name in columns
    ensures WriteAll(columns, ws)[name]
         == match LastWrite(ws, name) case Some(value) => value case None => columns[name]
  {
    if ws != [] { WriteAllIsLast(columns, ws[..|ws| - 1], name); }
  }

  /** Replaying all writes over the row they led to gives that row back. */
  lemma {:induction false} ReplayIsIdentity(columns: Columns, ws: seq<Columns>)
    ensures WriteAll(WriteAll(columns, ws), ws) == WriteAll(columns, ws)
  {
    forall name | name in columns ensures WriteAll(WriteAll(columns, ws), ws)[name] == WriteAll(columns, ws)[name] {
      WriteAllIsLast(columns, ws, name);
      WriteAllIsLast(WriteAll(columns, ws), ws, name);
    }
  }

  // ----- The CHECK of sentinel.runs -----

  predicate Late(started: Value, completed: Value) {
    started.Moment? && completed.Moment? && completed.at < started.at
  }

  /** `completed_at IS NULL OR started_at IS NULL OR completed_at >= started_at`. */
  predicate TimesOk(columns: Columns) {
    "started_at" in columns && "completed_at" in columns ==> !Late(columns["started_at"], columns["completed_at"])
  }

  /** The check holds before the first write and after each one. */
  ghost predicate AlwaysOk(columns: Columns, ws: seq<Columns>) {
    forall k :: 0 <= k <= |ws| ==> TimesOk(WriteAll(columns, ws[..k]))
  }

  predicate Untouched(ws: seq<Columns>, k: nat, name: string)
    requires k <= |ws|
  {
    forall j :: 0 <= j < k ==> name !in ws[j]
  }

  /** The k-th write sets `name` to `value`, and nothing before or with it set `other`. */
  predicate SetsAlone(ws: seq<Columns>, k: nat, name: string, other: string)
    requires k < |ws|
  {
    name in ws[k] && Untouched(ws, k + 1, other)
  }

  /** Until `started_at` is first written, no completion before the final start is written; until
      `completed_at` is first written, no start after the final completion is written. */
  ghost predicate InOrder(ws: seq<Columns>, final: Columns)
    requires "started_at" in final && "completed_at" in final
  {
    && (forall k :: 0 <= k < |ws| && SetsAlone(ws, k, "completed_at", "started_at") ==>
            !Late(final["started_at"], ws[k]["completed_at"]))
    && (forall k :: 0 <= k < |ws| && SetsAlone(ws, k, "started_at", "completed_at") ==>
            !Late(ws[k]["started_at"], final["completed_at"]))
  }

  lemma {:induction false} UntouchedNone(ws: seq<Columns>, name: string)
    ensures LastWrite(ws, name).None? <==> Untouched(ws, |ws|, name)
  {
    if ws != [] {
      UntouchedNone(ws[..|ws| - 1], name);
      assert Untouched(ws, |ws|, name) <==> name !in ws[|ws| - 1] && Untouched(ws[..|ws| - 1], |ws| - 1, name);
    }
  }

  /** The write a column's value comes from. */
  lemma {:induction false} LastWriter(ws: seq<Columns>, name: string) returns (k: nat)
    requires LastWrite(ws, name).Some?
    ensures k < |ws| && name in ws[k] && LastWrite(ws, name) == Some(ws[k][name])
  {
    if name in ws[|ws| - 1] { k := |ws| - 1; } else { k := LastWriter(ws[..|ws| - 1], name); }
  }

  /** A prefix of the replay mixes written columns with final ones. */
  lemma {:induction false} MixedColumns(columns: Columns, ws: seq<Columns>, k: nat, name: string)
    requires k <= |ws| && name in columns
    ensures WriteAll(WriteAll(columns, ws), ws[..k])[name]
         == if Untouched(ws, k, name) then WriteAll(columns, ws)[name] else WriteAll(columns, ws[..k])[name]
  {
    WriteAllIsLast(columns, ws[..k], name);
    WriteAllIsLast(WriteAll(columns, ws), ws[..k], name);
    UntouchedNone(ws[..k], name);
    assert Untouched(ws[..k], k, name) <==> Untouched(ws, k, name);
  }

  lemma {:induction false} ReplayNeedsOrder(columns: Columns, ws: seq<Columns>, k: nat)
    requires "started_at" in columns && "completed_at" in columns && k < |ws| && AlwaysOk(WriteAll(columns, ws), ws)
    ensures SetsAlone(ws, k, "completed_at", "started_at") ==>
              !Late(WriteAll(columns, ws)["started_at"], ws[k]["completed_at"])
    ensures SetsAlone(ws, k, "started_at", "completed_at") ==>
              !Late(ws[k]["started_at"], WriteAll(columns, ws)["completed_at"])
  {
    var final := WriteAll(columns, ws);
    assert TimesOk(WriteAll(final, ws[..k + 1]));
    assert ws[..k + 1][k] == ws[k] && ws[..k + 1][..k] == ws[..k];
    MixedColumns(columns, ws, k + 1, "started_at");
    MixedColumns(columns, ws, k + 1, "completed_at");
    hide Write;
    WriteAllIsLast(columns, ws[..k + 1], "started_at");
    WriteAllIsLast(columns, ws[..k + 1], "completed_at");
  }

  lemma {:induction false} OrderSuffices(columns: Columns, ws: seq<Columns>, k: nat)
    requires "started_at" in columns && "completed_at" in columns && k <= |ws| && AlwaysOk(columns, ws)
    requires InOrder(ws, WriteAll(columns, ws))
    ensures TimesOk(WriteAll(WriteAll(columns, ws), ws[..k]))
  {
    var final := WriteAll(columns, ws);
    assert ws[..|ws|] == ws;
    assert TimesOk(final) && TimesOk(WriteAll(columns, ws[..k]));
    MixedColumns(columns, ws, k, "started_at");
    MixedColumns(columns, ws, k, "completed_at");
    WriteAllIsLast(columns, ws[..k], "started_at");
    WriteAllIsLast(columns, ws[..k], "completed_at");
    UntouchedNone(ws[..k], "started_at");
    UntouchedNone(ws[..k], "completed_at");
    hide WriteAll, Write;
    if Untouched(ws, k, "started_at") && !Untouched(ws, k, "completed_at") {
      var j := LastWriter(ws[..k], "completed_at");
      assert SetsAlone(ws, j, "completed_at", "started_at");
    }
    if Untouched(ws, k, "completed_at") && !Untouched(ws, k, "started_at") {
      var j := LastWriter(ws[..k], "started_at");
      assert SetsAlone(ws, j, "started_at", "completed_at");
    }
  }

  /** A replay over the final row passes the check throughout exactly when the writes are in order. */
  lemma {:induction false} ReplayPassesIff(columns: Columns, ws: seq<Columns>)
    requires "started_at" in columns && "completed_at" in columns && AlwaysOk(columns, ws)
    ensures AlwaysOk(WriteAll(columns, ws), ws) <==> InOrder(ws, WriteAll(columns, ws))
  {
    var final := WriteAll(columns, ws);
    if AlwaysOk(final, ws) {
      forall k | 0 <= k < |ws|
        ensures SetsAlone(ws, k, "completed_at", "started_at") ==> !Late(final["started_at"], ws[k]["completed_at"])
        ensures SetsAlone(ws, k, "started_at", "completed_at") ==> !Late(ws[k]["started_at"], final["completed_at"])
      {
        ReplayNeedsOrder(columns, ws, k);
      }
    }
    if InOrder(ws, final) {
      forall k | 0 <= k <= |ws| ensures TimesOk(WriteAll(final, ws[..k])) { OrderSuffices(columns, ws, k); }
    }
  }

  /** In particular: when the first write clears `completed_at`, and `started_at` is written before any
      real completion, a rebuild passes. */
  lemma {:induction false} StartedFirstIsInOrder(ws: seq<Columns>, final: Columns)
    requires "started_at" in final && "completed_at" in final
    requires ws != [] && "completed_at" in ws[0] && ws[0]["completed_at"] == Null
    requires forall k :: 0 <= k < |ws| && SetsAlone(ws, k, "completed_at", "started_at") ==>
          ws[k]["completed_at"] == Null
    ensures InOrder(ws, final)
  {
    assert forall k :: 0 <= k < |ws| ==> !SetsAlone(ws, k, "started_at", "completed_at");
  }
}
