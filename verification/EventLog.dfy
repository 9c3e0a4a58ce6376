/** The write model: the append-only vda5050_events table and its repository. */
module EventLog {
  import opened Wrappers

  datatype Event = Event(
    id: nat,
    topic: string,
    itemId: string,
    receivedAt: string,
    manufacturer: string,
    serialNumber: string,
    robotId: string,
    direction: string,
    headerId: Option<int>,
    headerVersion: Option<string>,
    headerTimestamp: Option<string>,
    payload: string)

  ghost predicate Ascending(log: seq<Event>) {
    forall i, j :: 0 <= i < j < |log| ==> log[i].id < log[j].id
  }

  predicate Matches(e: Event, topic: string, item: string) {
    e.topic == topic && e.itemId == item
  }

  /** No later row has the same topic and item: this row carries the group's MAX(id). */
  ghost predicate IsLatest(log: seq<Event>, i: nat)
    requires i < |log|
  {
    forall j :: i < j < |log| ==> !Matches(log[j], log[i].topic, log[i].itemId)
  }

  ghost predicate Selected(log: seq<Event>, topic: string, e: Event) {
    exists i :: 0 <= i < |log| && log[i] == e && e.topic == topic && IsLatest(log, i)
  }

  /** What the latest-per-item query promises about its rows. It has no ORDER BY, so
      nothing is said about their order. */
  ghost predicate IsBatch(log: seq<Event>, topic: string, batch: seq<Event>) {
    && (forall b :: 0 <= b < |batch| ==> Selected(log, topic, batch[b]))
    && (forall i :: 0 <= i < |log| && log[i].topic == topic && IsLatest(log, i) ==> log[i] in batch)
    && (forall a, b :: 0 <= a < b < |batch| ==> batch[a].itemId != batch[b].itemId)
  }

  /** The position of the newest row for an item of a topic. */
  function LastIndex(log: seq<Event>, topic: string, item: string): (r: Option<nat>)
    ensures r.Some? ==> r.value < |log| && Matches(log[r.value], topic, item)
    ensures r.Some? ==> forall j :: r.value < j < |log| ==> !Matches(log[j], topic, item)
    ensures r.None? ==> forall j :: 0 <= j < |log| ==> !Matches(log[j], topic, item)
  {
    if log == [] then None
    else
      var n := |log| - 1;
      if Matches(log[n], topic, item) then Some(n)
      else
        var r := LastIndex(log[..n], topic, item);
        assert forall j :: 0 <= j < n ==> log[..n][j] == log[j];
        r
  }

  /** An index from item to newest id, kept up to date one insert at a time. */
  function NewestIds(log: seq<Event>, topic: string): map<string, nat> {
    if log == [] then map[]
    else
      var n := |log| - 1;
      var before := NewestIds(log[..n], topic);
      if log[n].topic == topic then before[log[n].itemId := log[n].id] else before
  }

  lemma {:induction false} NewestIdsAt(log: seq<Event>, topic: string, item: string)
    ensures item in NewestIds(log, topic) <==> LastIndex(log, topic, item).Some?
    ensures item in NewestIds(log, topic) ==>
              NewestIds(log, topic)[item] == log[LastIndex(log, topic, item).value].id
  {
    if log != [] {
      NewestIdsAt(log[..|log| - 1], topic, item);
    }
  }

  /** The query is exact and incremental: its rows are, item for item, the entries of the
      index that is updated on every insert, and each carries the largest id of its item. */
  lemma QueryEqualsIndex(log: seq<Event>, topic: string, batch: seq<Event>)
    requires Ascending(log) && IsBatch(log, topic, batch)
    ensures forall e :: e in batch ==>
              e.itemId in NewestIds(log, topic) && NewestIds(log, topic)[e.itemId] == e.id
    ensures forall item :: item in NewestIds(log, topic) ==>
              exists e :: e in batch && e.itemId == item
    ensures forall e, i :: e in batch && 0 <= i < |log| && Matches(log[i], topic, e.itemId) ==>
              log[i].id <= e.id
    ensures |batch| == |NewestIds(log, topic)|
  {
    var index := NewestIds(log, topic);
    forall e | e in batch
      ensures e.itemId in index && index[e.itemId] == e.id
      ensures forall i :: 0 <= i < |log| && Matches(log[i], topic, e.itemId) ==> log[i].id <= e.id
    {
      assert Selected(log, topic, e);
      NewestIdsAt(log, topic, e.itemId);
    }
    forall item | item in index
      ensures exists e :: e in batch && e.itemId == item
    {
      NewestIdsAt(log, topic, item);
      var i := LastIndex(log, topic, item).value;
      assert IsLatest(log, i);
      assert log[i] in batch;
    }
    BatchSize(batch, index.Keys);
  }

  lemma {:induction false} BatchSize(batch: seq<Event>, items: set<string>)
    requires forall a, b :: 0 <= a < b < |batch| ==> batch[a].itemId != batch[b].itemId
    requires forall e :: e in batch ==> e.itemId in items
    requires forall item :: item in items ==> exists e :: e in batch && e.itemId == item
    ensures |batch| == |items|
  {
    if batch == [] {
      assert items == {};
    } else {
      var n := |batch| - 1;
      var fewer := items - {batch[n].itemId};
      forall item | item in fewer
        ensures exists e :: e in batch[..n] && e.itemId == item
      {
        var e :| e in batch && e.itemId == item;
        assert e in batch[..n];
      }
      BatchSize(batch[..n], fewer);
    }
  }

  /** The order in which a query plan visits the rows of the table: each row once. */
  ghost predicate IsScan(scan: seq<nat>, size: nat) {
    && (forall s :: 0 <= s < |scan| ==> scan[s] < size)
    && (forall s, t :: 0 <= s < t < |scan| ==> scan[s] != scan[t])
    && (forall i :: 0 <= i < size ==> i in scan)
  }

  ghost predicate IdOrder(scan: seq<nat>) {
    forall s, t :: 0 <= s < t < |scan| ==> scan[s] < scan[t]
  }

  /** The rows selected at the first n stops of a scan. */
  ghost function ScanResult(log: seq<Event>, topic: string, scan: seq<nat>, n: nat): seq<Event>
    requires n <= |scan| && IsScan(scan, |log|)
  {
    if n == 0 then []
    else
      ScanResult(log, topic, scan, n - 1) +
      if log[scan[n - 1]].topic == topic && IsLatest(log, scan[n - 1]) then [log[scan[n - 1]]] else []
  }

  ghost predicate SelectedBefore(log: seq<Event>, topic: string, scan: seq<nat>, n: nat, e: Event)
    requires n <= |scan| && IsScan(scan, |log|)
  {
    exists s :: 0 <= s < n && log[scan[s]] == e && e.topic == topic && IsLatest(log, scan[s])
  }

  lemma {:induction false} ScanResultRows(log: seq<Event>, topic: string, scan: seq<nat>, n: nat)
    requires Ascending(log) && n <= |scan| && IsScan(scan, |log|)
    ensures forall e :: e in ScanResult(log, topic, scan, n) <==> SelectedBefore(log, topic, scan, n, e)
    ensures IdOrder(scan) ==> Ascending(ScanResult(log, topic, scan, n))
    ensures forall a, b :: 0 <= a < b < |ScanResult(log, topic, scan, n)| ==>
              ScanResult(log, topic, scan, n)[a].itemId != ScanResult(log, topic, scan, n)[b].itemId
  {
    if n > 0 {
      ScanResultRows(log, topic, scan, n - 1);
      var before, i := ScanResult(log, topic, scan, n - 1), scan[n - 1];
      if log[i].topic == topic && IsLatest(log, i) {
        forall e | e in before
          ensures e.itemId != log[i].itemId
          ensures IdOrder(scan) ==> e.id < log[i].id
        {
          var s :| 0 <= s < n - 1 && log[scan[s]] == e && e.topic == topic && IsLatest(log, scan[s]);
          LatestUnique(log, scan[s], i);
        }
      }
      forall e
        ensures e in ScanResult(log, topic, scan, n) <==> SelectedBefore(log, topic, scan, n, e)
      {
        assert SelectedBefore(log, topic, scan, n - 1, e) ==> SelectedBefore(log, topic, scan, n, e);
        if SelectedBefore(log, topic, scan, n, e) && !SelectedBefore(log, topic, scan, n - 1, e) {
          assert e == log[i] && log[i].topic == topic && IsLatest(log, i);
        }
      }
    }
  }

  lemma LatestUnique(log: seq<Event>, i: nat, j: nat)
    requires i < |log| && j < |log| && i != j
    requires log[i].topic == log[j].topic && IsLatest(log, i) && IsLatest(log, j)
    ensures log[i].itemId != log[j].itemId
  {
  }

  lemma ScanResultIsBatch(log: seq<Event>, topic: string, scan: seq<nat>)
    requires Ascending(log) && IsScan(scan, |log|)
    ensures IsBatch(log, topic, ScanResult(log, topic, scan, |scan|))
    ensures IdOrder(scan) ==> Ascending(ScanResult(log, topic, scan, |scan|))
  {
    var rows := ScanResult(log, topic, scan, |scan|);
    ScanResultRows(log, topic, scan, |scan|);
    forall i | 0 <= i < |log| && log[i].topic == topic && IsLatest(log, i)
      ensures log[i] in rows
    {
      assert i in scan;
      var s :| 0 <= s < |scan| && scan[s] == i;
      assert SelectedBefore(log, topic, scan, |scan|, log[i]);
    }
    forall b | 0 <= b < |rows|
      ensures Selected(log, topic, rows[b])
    {
      assert SelectedBefore(log, topic, scan, |scan|, rows[b]);
    }
  }

  ghost function RowOrder(n: nat): (scan: seq<nat>)
    ensures IsScan(scan, n) && IdOrder(scan)
    ensures |scan| == n && forall i :: 0 <= i < n ==> scan[i] == i
  {
    if n == 0 then [] else RowOrder(n - 1) + [n - 1]
  }

  /** The rows the query selects, in id order. */
  ghost function LatestInOrder(log: seq<Event>, topic: string): (rows: seq<Event>)
    requires Ascending(log)
    ensures IsBatch(log, topic, rows) && Ascending(rows)
  {
    var scan := RowOrder(|log|);
    ScanResultIsBatch(log, topic, scan);
    ScanResult(log, topic, scan, |log|)
  }

  class EventsRepository {
    /** The value of the database clock when the row with a given id is inserted. */
    const clock: nat -> string
    var rows: seq<Event>
    var lastId: nat

    constructor (clock: nat -> string)
      ensures Valid() && rows == [] && this.clock == clock
    {
      this.clock := clock;
      rows := [];
      lastId := 0;
    }

    ghost predicate Valid()
      reads this
    {
      Ascending(rows) && forall e :: e in rows ==> e.id <= lastId
    }

    /** Appends the event; the table assigns the id and the receive time. Whether the
        database throws is given; then nothing is changed and there is no id. */
    method Insert(event: Event, throws: bool) returns (id: Option<nat>)
      requires Valid()
      modifies this
      ensures Valid() && (id.None? <==> throws)
      ensures id.None? ==> rows == old(rows) && lastId == old(lastId)
      ensures id.Some? ==> rows == old(rows) + [event.(id := id.value, receivedAt := clock(id.value))]
      ensures id.Some? ==> id.value == lastId == old(lastId) + 1 && forall e :: e in old(rows) ==> e.id < id.value
    {
      if throws {
        return None;
      }
      lastId := lastId + 1;
      rows := rows + [event.(id := lastId, receivedAt := clock(lastId))];
      return Some(lastId);
    }

    /** The latest row of every item of a topic, in the order the query plan visits them. */
    method FindLatestByTopic(topic: string, scan: seq<nat>) returns (results: seq<Event>)
      requires Valid() && IsScan(scan, |rows|)
      ensures IsBatch(rows, topic, results)
      ensures IdOrder(scan) ==> Ascending(results)
    {
      var newest: map<string, nat> := map[];
      for i := 0 to |rows|
        invariant newest == NewestIds(rows[..i], topic)
      {
        assert rows[..i + 1][..i] == rows[..i];
        if rows[i].topic == topic {
          newest := newest[rows[i].itemId := rows[i].id];
        }
      }
      assert rows[..|rows|] == rows;
      results := [];
      for s := 0 to |scan|
        invariant results == ScanResult(rows, topic, scan, s)
      {
        var row := rows[scan[s]];
        NewestIdsAt(rows, topic, row.itemId);
        LatestIffNewest(rows, scan[s]);
        if row.topic == topic && row.itemId in newest && newest[row.itemId] == row.id {
          results := results + [row];
        }
      }
      ScanResultIsBatch(rows, topic, scan);
    }
  }

  lemma LatestIffNewest(log: seq<Event>, i: nat)
    requires Ascending(log) && i < |log|
    ensures var last := LastIndex(log, log[i].topic, log[i].itemId);
            last.Some? && (IsLatest(log, i) <==> log[last.value].id == log[i].id)
  {
  }
}
