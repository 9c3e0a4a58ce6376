/** What one projection cycle keeps and what it does not depend on. */
module CycleProperties {
  import opened Wrappers
  import opened EventLog
  import opened ReadModel
  import opened Folds
  import opened Messages
  import opened Projection
  import opened Refinement

  // ---------------------------------------------------------------- idempotence

  /** A second cycle over the same answers changes nothing, times included. */
  lemma CycleIdempotent(c: Codec, m: Model, plan: seq<seq<Event>>)
    ensures Cycle(c, Cycle(c, m, plan), plan) == Cycle(c, m, plan)
  {
    ApplyAllIdempotent(m, Writes(c, Flatten(plan)));
  }

  // ---------------------------------------------------------------- order of the answers

  /** The writes that touch one row, in order. */
  function Restrict(ws: seq<Write>, t: Table, k: string): seq<Write> {
    if ws == [] then []
    else
      Restrict(ws[..|ws| - 1], t, k) + if Touches(ws[|ws| - 1], t, k) then [ws[|ws| - 1]] else []
  }

  lemma {:induction false} RestrictConcat(a: seq<Write>, b: seq<Write>, t: Table, k: string)
    ensures Restrict(a + b, t, k) == Restrict(a, t, k) + Restrict(b, t, k)
  {
    if b == [] {
      assert a + b == a;
    } else {
      var ab, n := a + b, |b| - 1;
      assert ab[..|ab| - 1] == a + b[..n];
      RestrictConcat(a, b[..n], t, k);
    }
  }

  lemma {:induction false} RestrictObserved(ws: seq<Write>, t: Table, k: string)
    ensures FirstTouch(ws, t, k) == if Restrict(ws, t, k) == [] then None else Some(Restrict(ws, t, k)[0])
    ensures LastStamp(ws, t, k) == LastStamp(Restrict(ws, t, k), t, k)
    ensures forall g :: TableOf(g) == t ==> LastColumns(ws, g, k) == LastColumns(Restrict(ws, t, k), g, k)
  {
    if ws != [] {
      RestrictObserved(ws[..|ws| - 1], t, k);
      var r := Restrict(ws, t, k);
      if Touches(ws[|ws| - 1], t, k) {
        assert r[..|r| - 1] == Restrict(ws[..|ws| - 1], t, k);
      } else {
        assert r == Restrict(ws[..|ws| - 1], t, k);
      }
    }
  }

  /** Only the order of the writes to each single row matters. */
  lemma RowOrderDecides(m: Model, ws: seq<Write>, vs: seq<Write>)
    requires forall t, k :: Restrict(ws, t, k) == Restrict(vs, t, k)
    ensures ApplyAll(m, ws) == ApplyAll(m, vs)
  {
    ApplyAllLaw(m, ws);
    ApplyAllLaw(m, vs);
    forall t, k
      ensures FirstTouch(ws, t, k) == FirstTouch(vs, t, k) && LastStamp(ws, t, k) == LastStamp(vs, t, k)
      ensures forall g :: TableOf(g) == t ==> LastColumns(ws, g, k) == LastColumns(vs, g, k)
    {
      RestrictObserved(ws, t, k);
      RestrictObserved(vs, t, k);
    }
    var a, b := ApplyAll(m, ws), ApplyAll(m, vs);
    forall t, k | Exists(a, t, k)
      ensures GetStamp(a, t, k) == GetStamp(b, t, k)
    {
      LastStampSome(ws, t, k);
    }
    Extensionality(a, b);
  }

  lemma {:induction false} RestrictNothing(ws: seq<Write>, t: Table, k: string)
    requires forall w :: w in ws ==> !Touches(w, t, k)
    ensures Restrict(ws, t, k) == []
  {
    if ws != [] {
      RestrictNothing(ws[..|ws| - 1], t, k);
    }
  }

  lemma {:induction false} RestrictToOne(c: Codec, es: seq<Event>, t: Table, k: string, p: nat)
    requires p < |es|
    requires forall q :: 0 <= q < |es| && q != p ==> Restrict(EventWrites(c, es[q]), t, k) == []
    ensures Restrict(Writes(c, es), t, k) == Restrict(EventWrites(c, es[p]), t, k)
  {
    hide EventWrites;
    var n := |es| - 1;
    RestrictConcat(Writes(c, es[..n]), EventWrites(c, es[n]), t, k);
    assert forall q :: 0 <= q < n ==> es[..n][q] == es[q];
    if p < n {
      RestrictToOne(c, es[..n], t, k, p);
    } else {
      forall w | w in Writes(c, es[..n])
        ensures !Touches(w, t, k)
      {
        WritesSource(c, es[..n], w);
        var q :| 0 <= q < n && w in EventWrites(c, es[..n][q]);
        if Touches(w, t, k) {
          RestrictMember(EventWrites(c, es[q]), t, k, w);
        }
      }
      RestrictNothing(Writes(c, es[..n]), t, k);
    }
  }

  lemma {:induction false} RestrictMember(ws: seq<Write>, t: Table, k: string, w: Write)
    requires w in ws && Touches(w, t, k)
    ensures w in Restrict(ws, t, k)
  {
    if w in ws[..|ws| - 1] {
      RestrictMember(ws[..|ws| - 1], t, k, w);
    }
  }

  /** A row of a single-item topic touches no table row but the one it is filed under. */
  lemma SingleItemTouches(c: Codec, log: seq<Event>, g: Group, e: Event, t: Table, k: string)
    requires e in log && e.topic == TopicOf(g) && SingleItem(c, log, g)
    requires t != TableOf(g) || k != e.itemId
    ensures Restrict(EventWrites(c, e), t, k) == []
  {
    hide EventWrites, TopicOf;
    EventWritesByTopic(c, g, e);
    forall w | w in EventWrites(c, e)
      ensures !Touches(w, t, k)
    {
      assert Sets(w, g, KeyOf(w));
      LastColumnsSome(EventWrites(c, e), g, KeyOf(w));
      assert EventColumns(c, e, g, KeyOf(w)).Some?;
      var i :| 0 <= i < |log| && log[i] == e;
    }
    RestrictNothing(EventWrites(c, e), t, k);
  }

  lemma BatchRestrict(c: Codec, log: seq<Event>, g: Group, batch: seq<Event>, t: Table, k: string)
    requires IsBatch(log, TopicOf(g), batch) && SingleItem(c, log, g)
    ensures Restrict(Writes(c, batch), t, k) ==
            if t == TableOf(g) && LastIndex(log, TopicOf(g), k).Some? then
              Restrict(EventWrites(c, log[LastIndex(log, TopicOf(g), k).value]), t, k)
            else []
  {
    hide EventWrites, TopicOf;
    forall q | 0 <= q < |batch|
      ensures batch[q] in log && batch[q].topic == TopicOf(g)
      ensures t != TableOf(g) || k != batch[q].itemId ==> Restrict(EventWrites(c, batch[q]), t, k) == []
    {
      assert Selected(log, TopicOf(g), batch[q]);
      if t != TableOf(g) || k != batch[q].itemId {
        SingleItemTouches(c, log, g, batch[q], t, k);
      }
    }
    if t == TableOf(g) && LastIndex(log, TopicOf(g), k).Some? {
      var last := LastIndex(log, TopicOf(g), k).value;
      assert IsLatest(log, last);
      assert log[last] in batch;
      var p :| 0 <= p < |batch| && batch[p] == log[last];
      RestrictToOne(c, batch, t, k, p);
    } else {
      RestrictNone(c, batch, t, k);
    }
  }

  lemma {:induction false} RestrictNone(c: Codec, es: seq<Event>, t: Table, k: string)
    requires forall q :: 0 <= q < |es| ==> Restrict(EventWrites(c, es[q]), t, k) == []
    ensures Restrict(Writes(c, es), t, k) == []
  {
    hide EventWrites;
    if es != [] {
      var n := |es| - 1;
      assert forall q :: 0 <= q < n ==> es[..n][q] == es[q];
      RestrictNone(c, es[..n], t, k);
      RestrictConcat(Writes(c, es[..n]), EventWrites(c, es[n]), t, k);
    }
  }

  /** The tables after projecting a single-item topic do not depend on the order in which
      the query returned its rows. */
  lemma BatchOrderFree(c: Codec, log: seq<Event>, g: Group, m: Model, a: seq<Event>, b: seq<Event>)
    requires IsBatch(log, TopicOf(g), a) && IsBatch(log, TopicOf(g), b) && SingleItem(c, log, g)
    ensures ApplyAll(m, Writes(c, a)) == ApplyAll(m, Writes(c, b))
  {
    hide EventWrites, TopicOf;
    forall t, k
      ensures Restrict(Writes(c, a), t, k) == Restrict(Writes(c, b), t, k)
    {
      BatchRestrict(c, log, g, a, t, k);
      BatchRestrict(c, log, g, b, t, k);
    }
    RowOrderDecides(m, Writes(c, a), Writes(c, b));
  }

  lemma {:induction false} PrefixOrderFree(
      c: Codec, log: seq<Event>, m: Model, a: seq<seq<Event>>, b: seq<seq<Event>>, n: nat)
    requires IsPlan(log, a) && IsPlan(log, b) && n <= |a|
    requires forall p :: 0 <= p < |a| ==> a[p] == b[p] || SingleItem(c, log, PROJECTORS[p])
    ensures Cycle(c, m, a[..n]) == Cycle(c, m, b[..n])
  {
    hide EventWrites, TopicOf, Cycle, ApplyAll, SingleItem, IsBatch;
    if n == 0 {
      assert a[..0] == b[..0];
    } else {
      PrefixOrderFree(c, log, m, a, b, n - 1);
      assert a[..n] == a[..n - 1] + [a[n - 1]] && b[..n] == b[..n - 1] + [b[n - 1]];
      CyclePlus(c, m, a[..n - 1], a[n - 1]);
      CyclePlus(c, m, b[..n - 1], b[n - 1]);
      if a[n - 1] != b[n - 1] {
        BatchOrderFree(c, log, PROJECTORS[n - 1], Cycle(c, m, a[..n - 1]), a[n - 1], b[n - 1]);
      }
    }
  }

  /** A whole cycle gives the same tables, every column included, however the query orders
      the rows of its single-item topics. */
  lemma CycleOrderFree(c: Codec, log: seq<Event>, m: Model, a: seq<seq<Event>>, b: seq<seq<Event>>)
    requires IsPlan(log, a) && IsPlan(log, b)
    requires forall p :: 0 <= p < |a| ==> a[p] == b[p] || SingleItem(c, log, PROJECTORS[p])
    ensures Cycle(c, m, a) == Cycle(c, m, b)
  {
    PrefixOrderFree(c, log, m, a, b, |a|);
    assert a[..|a|] == a && b[..|b|] == b;
  }

  /** No latest row carries an outdated value for a key that another row updated since. */
  ghost predicate NoStale(c: Codec, log: seq<Event>, g: Group) {
    forall i, k :: 0 <= i < |log| && log[i].topic == TopicOf(g) && IsLatest(log, i) &&
                   EventColumns(c, log[i], g, k).Some? ==>
      EventColumns(c, log[i], g, k) == Newest(c, log, g, k)
  }

  /** Where rows name only the item they are filed under, no latest row is stale. */
  lemma SingleItemNeverStale(c: Codec, log: seq<Event>, g: Group)
    requires SingleItem(c, log, g)
    ensures NoStale(c, log, g)
  {
    hide EventWrites, TopicOf, EventColumns;
    forall i, k | 0 <= i < |log| && log[i].topic == TopicOf(g) && IsLatest(log, i) && EventColumns(c, log[i], g, k).Some?
      ensures EventColumns(c, log[i], g, k) == Newest(c, log, g, k)
    {
      forall q | i < q < |log|
        ensures EventColumns(c, log[q], g, k).None?
      {
        ForeignColumns(c, log[q], g, k);
      }
      LastWord(c, log, g, k, i);
    }
  }

  lemma NoStaleAnyOrder(c: Codec, log: seq<Event>, g: Group, batch: seq<Event>)
    requires Settled(c, log, g) && NoStale(c, log, g) && IsBatch(log, TopicOf(g), batch)
    ensures ShowsNewest(c, log, g, batch)
  {
    hide EventWrites, TopicOf, Settled;
    forall k
      ensures LastColumns(Writes(c, batch), g, k) == Newest(c, log, g, k)
    {
      NoStaleAt(c, log, g, batch, k);
    }
  }

  lemma NoStaleAt(c: Codec, log: seq<Event>, g: Group, batch: seq<Event>, k: string)
    requires Settled(c, log, g) && NoStale(c, log, g) && IsBatch(log, TopicOf(g), batch)
    ensures LastColumns(Writes(c, batch), g, k) == Newest(c, log, g, k)
  {
    hide EventWrites, TopicOf, EventColumns, Newest;
    if Newest(c, log, g, k).Some? {
      forall q | 0 <= q < |batch| && EventColumns(c, batch[q], g, k).Some?
        ensures EventColumns(c, batch[q], g, k) == Newest(c, log, g, k)
      {
        var r := SelectedRow(log, TopicOf(g), batch, q);
      }
      UpheldInBatch(c, log, g, batch, k);
      NoWord(c, batch, g, k);
      var p := LastNamer(c, batch, g, k);
    } else {
      SilentAnswer(c, log, g, batch, k);
    }
  }

  lemma UpheldInBatch(c: Codec, log: seq<Event>, g: Group, batch: seq<Event>, k: string)
    requires Settled(c, log, g) && IsBatch(log, TopicOf(g), batch) && Newest(c, log, g, k).Some?
    ensures exists p :: 0 <= p < |batch| && EventColumns(c, batch[p], g, k).Some?
  {
    hide EventWrites, TopicOf, EventColumns;
    var j := LastNamer(c, log, g, k);
    assert Upheld(c, log, g, k, j);
    var i :| 0 <= i < |log| && log[i].topic == TopicOf(g) && IsLatest(log, i) &&
             EventColumns(c, log[i], g, k) == EventColumns(c, log[j], g, k);
    assert log[i] in batch;
  }

  /** Moving one row of an answer to its end gives another possible answer. */
  lemma MoveToEnd(log: seq<Event>, topic: string, batch: seq<Event>, p: nat)
    requires IsBatch(log, topic, batch) && p < |batch|
    ensures IsBatch(log, topic, batch[..p] + batch[p + 1..] + [batch[p]])
  {
    hide Selected, IsLatest;
    var moved := batch[..p] + batch[p + 1..] + [batch[p]];
    var n := |batch| - 1;
    assert |moved| == n + 1;
    assert forall x :: 0 <= x < p ==> moved[x] == batch[x];
    assert forall x :: p <= x < n ==> moved[x] == batch[x + 1];
    assert moved[n] == batch[p];
    forall e | e in batch
      ensures e in moved
    {
      var x :| 0 <= x < |batch| && batch[x] == e;
      assert e == if x < p then moved[x] else if x == p then moved[n] else moved[x - 1];
    }
  }

  /** A stale row shows its outdated value when the query returns it last. */
  lemma StaleRowLast(c: Codec, log: seq<Event>, g: Group, i: nat, k: string)
    requires Ascending(log) && i < |log| && log[i].topic == TopicOf(g) && IsLatest(log, i)
    requires EventColumns(c, log[i], g, k).Some? && EventColumns(c, log[i], g, k) != Newest(c, log, g, k)
    ensures exists batch :: IsBatch(log, TopicOf(g), batch) && !ShowsNewest(c, log, g, batch)
  {
    hide EventWrites, TopicOf;
    var batch := LatestInOrder(log, TopicOf(g));
    assert log[i] in batch;
    var p :| 0 <= p < |batch| && batch[p] == log[i];
    var moved := batch[..p] + batch[p + 1..] + [batch[p]];
    MoveToEnd(log, TopicOf(g), batch, p);
    LastWord(c, moved, g, k, |moved| - 1);
    assert LastColumns(Writes(c, moved), g, k) != Newest(c, log, g, k);
  }

  /** The query has no ORDER BY. Every order that it may return shows the newest columns if
      and only if the log is settled and no latest row is stale. */
  lemma AnyOrderIffNoStale(c: Codec, log: seq<Event>, g: Group)
    requires Ascending(log)
    ensures (forall batch :: IsBatch(log, TopicOf(g), batch) ==> ShowsNewest(c, log, g, batch)) <==>
            Settled(c, log, g) && NoStale(c, log, g)
  {
    hide EventWrites, TopicOf, Settled, IsBatch, ShowsNewest, EventColumns, Newest;
    if Settled(c, log, g) && NoStale(c, log, g) {
      forall batch | IsBatch(log, TopicOf(g), batch)
        ensures ShowsNewest(c, log, g, batch)
      {
        NoStaleAnyOrder(c, log, g, batch);
      }
    } else if !NoStale(c, log, g) {
      var i, k :| 0 <= i < |log| && log[i].topic == TopicOf(g) && IsLatest(log, i) &&
                  EventColumns(c, log[i], g, k).Some? && EventColumns(c, log[i], g, k) != Newest(c, log, g, k);
      StaleRowLast(c, log, g, i, k);
    } else {
      InOrderIffSettled(c, log, g, LatestInOrder(log, TopicOf(g)));
    }
  }

  // ---------------------------------------------------------------- order of the topics

  /** The law of one upsert, at one column group of one row. */
  lemma ApplyAt(m: Model, w: Write, g: Group, k: string)
    ensures var r, t := Apply(m, w), TableOf(g);
            && (Exists(r, t, k) <==> Exists(m, t, k) || Touches(w, t, k))
            && (Exists(r, t, k) ==>
                  && Get(r, g, k) == (if Sets(w, g, k) then ColumnsOf(w)
                                      else if Exists(m, t, k) then Get(m, g, k) else FreshColumns(g, w))
                  && GetInsertOnly(r, t, k) == (if Exists(m, t, k) then GetInsertOnly(m, t, k) else FreshInsertOnly(w))
                  && GetStamp(r, t, k) == (if Touches(w, t, k) then w.at else GetStamp(m, t, k)))
  {
    hide Apply, Get, GetInsertOnly, GetStamp, Exists, ColumnsOf, FreshInsertOnly;
    ApplyLaw(m, w);
  }

  /** Two upserts commute on every conflict-updated column but the update time, unless both
      write the same group of the same row. */
  lemma UpsertsCommute(m: Model, v: Write, w: Write, g: Group, k: string)
    requires GroupOf(v) != GroupOf(w) || KeyOf(v) != KeyOf(w)
    ensures var vw, wv, t := Apply(Apply(m, v), w), Apply(Apply(m, w), v), TableOf(g);
            && (Exists(vw, t, k) <==> Exists(wv, t, k))
            && (Exists(vw, t, k) ==> Get(vw, g, k) == Get(wv, g, k))
            && (Exists(vw, t, k) && !(Touches(v, t, k) && Touches(w, t, k)) ==>
                  GetInsertOnly(vw, t, k) == GetInsertOnly(wv, t, k) && GetStamp(vw, t, k) == GetStamp(wv, t, k))
  {
    hide Apply, Get, GetInsertOnly, GetStamp, Exists, ColumnsOf, FreshInsertOnly;
    ApplyAt(m, v, g, k);
    ApplyAt(m, w, g, k);
    ApplyAt(Apply(m, v), w, g, k);
    ApplyAt(Apply(m, w), v, g, k);
  }

  // ---------------------------------------------------------------- failures

  function DropFailed(c: Codec, es: seq<Event>): seq<Event> {
    if es == [] then []
    else DropFailed(c, es[..|es| - 1]) + if Parses(c, es[|es| - 1]) then [es[|es| - 1]] else []
  }

  lemma FailedWritesNothing(c: Codec, e: Event)
    requires !Parses(c, e)
    ensures EventWrites(c, e) == []
  {
    hide EventWrites, TopicOf;
    var g :| e.topic == TopicOf(g) && !Decodes(c, g, e);
    EventWritesByTopic(c, g, e);
  }

  /** A cycle in which some events fail to parse is the cycle without those events. */
  lemma {:induction false} FailedEventsDropped(c: Codec, es: seq<Event>)
    ensures Writes(c, DropFailed(c, es)) == Writes(c, es)
  {
    hide EventWrites, Parses;
    if es != [] {
      var n := |es| - 1;
      FailedEventsDropped(c, es[..n]);
      if Parses(c, es[n]) {
        WritesConcat(c, DropFailed(c, es[..n]), [es[n]]);
        assert [es[n]][..0] == [];
        assert Writes(c, [es[n]]) == EventWrites(c, es[n]);
      } else {
        FailedWritesNothing(c, es[n]);
        assert DropFailed(c, es) == DropFailed(c, es[..n]);
        assert Writes(c, es) == Writes(c, es[..n]);
      }
    }
  }

  /** The codec d parses whatever c parses, to the same upserts. */
  ghost predicate Repairs(c: Codec, d: Codec, es: seq<Event>) {
    forall e :: e in es ==> EventWrites(c, e) == [] || EventWrites(c, e) == EventWrites(d, e)
  }

  /** No event that fails under c would, if it parsed, have written these columns. */
  ghost predicate Unaffected(c: Codec, d: Codec, es: seq<Event>, g: Group, k: string) {
    forall e :: e in es && EventWrites(c, e) != EventWrites(d, e) ==> EventColumns(d, e, g, k).None?
  }

  /** Failing events cost only the columns they would have written: all others are as if
      nothing had failed. */
  lemma FailureIsolated(c: Codec, d: Codec, m: Model, es: seq<Event>, g: Group, k: string)
    requires Repairs(c, d, es) && Unaffected(c, d, es, g, k)
    requires Exists(m, TableOf(g), k) || LastColumns(Writes(d, es), g, k).Some?
    ensures var r, s := ApplyAll(m, Writes(c, es)), ApplyAll(m, Writes(d, es));
            Exists(r, TableOf(g), k) && Exists(s, TableOf(g), k) && Get(r, g, k) == Get(s, g, k)
  {
    hide EventWrites;
    forall e | e in es
      ensures EventColumns(c, e, g, k) == EventColumns(d, e, g, k)
    {
    }
    SameLastColumns(c, d, es, g, k);
    RowShown(m, Writes(c, es), g, k);
    RowShown(m, Writes(d, es), g, k);
  }

  /** Columns that only failing events would have written keep what they last held. */
  lemma FailureRetains(c: Codec, d: Codec, m: Model, es: seq<Event>, g: Group, k: string)
    requires forall e :: e in es && EventColumns(d, e, g, k).Some? ==> EventWrites(c, e) == []
    requires Repairs(c, d, es) && Exists(m, TableOf(g), k)
    ensures var r := ApplyAll(m, Writes(c, es)); Exists(r, TableOf(g), k) && Get(r, g, k) == Get(m, g, k)
  {
    hide EventWrites;
    NoWord(c, es, g, k);
    assert forall q :: 0 <= q < |es| ==> es[q] in es;
    RowShown(m, Writes(c, es), g, k);
  }

  lemma {:induction false} SameLastColumns(c: Codec, d: Codec, es: seq<Event>, g: Group, k: string)
    requires forall e :: e in es ==> EventColumns(c, e, g, k) == EventColumns(d, e, g, k)
    ensures LastColumns(Writes(c, es), g, k) == LastColumns(Writes(d, es), g, k)
  {
    hide EventWrites;
    if es != [] {
      var n := |es| - 1;
      assert es[n] in es;
      SameLastColumns(c, d, es[..n], g, k);
      LastColumnsConcat(Writes(c, es[..n]), EventWrites(c, es[n]), g, k);
      LastColumnsConcat(Writes(d, es[..n]), EventWrites(d, es[n]), g, k);
    }
  }
}
