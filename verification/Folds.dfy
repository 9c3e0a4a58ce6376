/** What any sequence of upserts leaves behind, stated without running it: the last write
    of a column group wins, the first write of a row decides its insert-only columns. */
module Folds {
  import opened Wrappers
  import opened ReadModel

  function LastColumns(ws: seq<Write>, g: Group, k: string): Option<Columns> {
    if ws == [] then None
    else if Sets(ws[|ws| - 1], g, k) then Some(ColumnsOf(ws[|ws| - 1]))
    else LastColumns(ws[..|ws| - 1], g, k)
  }

  function LastStamp(ws: seq<Write>, t: Table, k: string): Option<string> {
    if ws == [] then None
    else if Touches(ws[|ws| - 1], t, k) then Some(ws[|ws| - 1].at)
    else LastStamp(ws[..|ws| - 1], t, k)
  }

  function FirstTouch(ws: seq<Write>, t: Table, k: string): (r: Option<Write>)
    ensures r.Some? ==> r.value in ws && Touches(r.value, t, k)
    ensures r.None? ==> forall w :: w in ws ==> !Touches(w, t, k)
  {
    if ws == [] then None
    else
      var r := FirstTouch(ws[..|ws| - 1], t, k);
      var w := ws[|ws| - 1];
      assert ws == ws[..|ws| - 1] + [w];
      if r.Some? then r else if Touches(w, t, k) then Some(w) else None
  }

  lemma {:induction false} LastColumnsSome(ws: seq<Write>, g: Group, k: string)
    ensures LastColumns(ws, g, k).Some? <==> exists w :: w in ws && Sets(w, g, k)
  {
    hide Sets, ColumnsOf;
    if ws != [] {
      LastColumnsSome(ws[..|ws| - 1], g, k);
      assert ws == ws[..|ws| - 1] + [ws[|ws| - 1]];
    }
  }

  /** The last columns are those of some write. */
  lemma {:induction false} LastColumnsFrom(ws: seq<Write>, g: Group, k: string) returns (w: Write)
    requires LastColumns(ws, g, k).Some?
    ensures w in ws && Sets(w, g, k) && LastColumns(ws, g, k) == Some(ColumnsOf(w))
  {
    hide Sets, ColumnsOf;
    if Sets(ws[|ws| - 1], g, k) {
      w := ws[|ws| - 1];
    } else {
      w := LastColumnsFrom(ws[..|ws| - 1], g, k);
    }
  }

  lemma {:induction false} LastStampSome(ws: seq<Write>, t: Table, k: string)
    ensures LastStamp(ws, t, k).Some? <==> exists w :: w in ws && Touches(w, t, k)
  {
    hide Touches;
    if ws != [] {
      LastStampSome(ws[..|ws| - 1], t, k);
      assert ws == ws[..|ws| - 1] + [ws[|ws| - 1]];
    }
  }

  lemma {:induction false} LastColumnsConcat(a: seq<Write>, b: seq<Write>, g: Group, k: string)
    ensures LastColumns(a + b, g, k) ==
            if LastColumns(b, g, k).Some? then LastColumns(b, g, k) else LastColumns(a, g, k)
  {
    hide Sets, ColumnsOf;
    if b == [] {
      assert a + b == a;
    } else {
      var ab, n := a + b, |b| - 1;
      assert ab[..|ab| - 1] == a + b[..n];
      LastColumnsConcat(a, b[..n], g, k);
    }
  }

  lemma {:induction false} ApplyAllConcat(m: Model, a: seq<Write>, b: seq<Write>)
    ensures ApplyAll(m, a + b) == ApplyAll(ApplyAll(m, a), b)
  {
    hide Apply;
    if b == [] {
      assert a + b == a;
    } else {
      var ab, n := a + b, |b| - 1;
      assert ab[..|ab| - 1] == a + b[..n];
      ApplyAllConcat(m, a, b[..n]);
    }
  }

  /** The columns a group must show after the writes. */
  function ColumnsAfter(m: Model, ws: seq<Write>, g: Group, k: string): Columns
    requires Exists(m, TableOf(g), k) || FirstTouch(ws, TableOf(g), k).Some?
  {
    if LastColumns(ws, g, k).Some? then LastColumns(ws, g, k).value
    else if Exists(m, TableOf(g), k) then Get(m, g, k)
    else
      var first := FirstTouch(ws, TableOf(g), k).value;
      LastColumnsSome(ws, g, k);
      assert !Sets(first, g, k);
      FreshColumns(g, first)
  }

  function InsertOnlyAfter(m: Model, ws: seq<Write>, t: Table, k: string): InsertOnly
    requires Exists(m, t, k) || FirstTouch(ws, t, k).Some?
  {
    if Exists(m, t, k) then GetInsertOnly(m, t, k) else FreshInsertOnly(FirstTouch(ws, t, k).value)
  }

  ghost predicate RowsAfter(m: Model, ws: seq<Write>, r: Model) {
    && (forall t, k :: Exists(r, t, k) <==> Exists(m, t, k) || FirstTouch(ws, t, k).Some?)
    && (forall g, k :: Exists(r, TableOf(g), k) ==> Get(r, g, k) == ColumnsAfter(m, ws, g, k))
    && (forall t, k :: Exists(r, t, k) ==> GetInsertOnly(r, t, k) == InsertOnlyAfter(m, ws, t, k))
    && (forall t, k :: Exists(r, t, k) && LastStamp(ws, t, k).Some? ==>
          GetStamp(r, t, k) == LastStamp(ws, t, k).value)
    && (forall t, k :: Exists(m, t, k) && LastStamp(ws, t, k).None? ==>
          GetStamp(r, t, k) == GetStamp(m, t, k))
  }

  /** The law of any fold of upserts, for every table, column group and key at once. */
  lemma {:induction false} ApplyAllLaw(m: Model, ws: seq<Write>)
    ensures RowsAfter(m, ws, ApplyAll(m, ws))
  {
    if ws != [] {
      var before, w := ws[..|ws| - 1], ws[|ws| - 1];
      ApplyAllLaw(m, before);
      ApplyLaw(ApplyAll(m, before), w);
      var mid, r := ApplyAll(m, before), ApplyAll(m, ws);
      forall g, k | Exists(r, TableOf(g), k)
        ensures Get(r, g, k) == ColumnsAfter(m, ws, g, k)
      {
        if !Exists(mid, TableOf(g), k) {
          assert Touches(w, TableOf(g), k);
          LastColumnsSome(before, g, k);
          assert LastColumns(before, g, k).None?;
        }
      }
    }
  }

  /** Re-running a fold of upserts changes nothing at all: every column, the creation and
      update times included, already holds what the second run writes. */
  lemma ApplyAllIdempotent(m: Model, ws: seq<Write>)
    ensures ApplyAll(ApplyAll(m, ws), ws) == ApplyAll(m, ws)
  {
    var a := ApplyAll(m, ws);
    var b := ApplyAll(a, ws);
    ApplyAllLaw(m, ws);
    ApplyAllLaw(a, ws);
    forall t, k | Exists(a, t, k)
      ensures GetStamp(a, t, k) == GetStamp(b, t, k)
    {
      LastStampSome(ws, t, k);
    }
    Extensionality(a, b);
  }

  lemma NoUpserts(m: Model)
    ensures ApplyAll(m, []) == m
  {
  }

  /** What one column group of one row shows after the writes. */
  lemma RowShown(m: Model, ws: seq<Write>, g: Group, k: string)
    requires Exists(m, TableOf(g), k) || LastColumns(ws, g, k).Some?
    ensures var r := ApplyAll(m, ws);
            Exists(r, TableOf(g), k) &&
            Get(r, g, k) == if LastColumns(ws, g, k).Some? then LastColumns(ws, g, k).value else Get(m, g, k)
  {
    ApplyAllLaw(m, ws);
    LastColumnsSome(ws, g, k);
    assert FirstTouch(ws, TableOf(g), k).Some? || Exists(m, TableOf(g), k);
  }
}
