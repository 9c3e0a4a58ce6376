/** Projecting only the latest event per item shows what replaying the whole log shows. */
module Refinement {
  import opened Wrappers
  import opened EventLog
  import opened ReadModel
  import opened Folds
  import opened Messages
  import opened Projection

  // ---------------------------------------------------------------- what an event says

  /** The columns an event gives to a row of a group: its payload's last word on that key. */
  function EventColumns(c: Codec, e: Event, g: Group, k: string): Option<Columns> {
    LastColumns(EventWrites(c, e), g, k)
  }

  /** The columns the newest parseable event naming a key gives it, over the whole log. */
  function Newest(c: Codec, log: seq<Event>, g: Group, k: string): Option<Columns> {
    LastColumns(Writes(c, log), g, k)
  }

  predicate SameMessage(a: Event, b: Event) {
    a.topic == b.topic && a.payload == b.payload && a.robotId == b.robotId &&
    a.manufacturer == b.manufacturer && a.serialNumber == b.serialNumber
  }

  lemma {:induction false} SameActionColumns(actions: seq<VdaAction>, a: Event, b: Event, g: Group, k: string)
    requires a.robotId == b.robotId
    ensures LastColumns(ActionWrites(actions, a), g, k) == LastColumns(ActionWrites(actions, b), g, k)
  {
    if actions != [] {
      var n, v, w := |actions| - 1, ActionWrites(actions, a), ActionWrites(actions, b);
      SameActionColumns(actions[..n], a, b, g, k);
      assert v[..|v| - 1] == ActionWrites(actions[..n], a) && w[..|w| - 1] == ActionWrites(actions[..n], b);
    }
  }

  lemma {:induction false} SameResponseColumns(responses: seq<VdaResponse>, a: Event, b: Event, g: Group, k: string)
    ensures LastColumns(ResponseWrites(responses, a), g, k) == LastColumns(ResponseWrites(responses, b), g, k)
  {
    if responses != [] {
      var n, v, w := |responses| - 1, ResponseWrites(responses, a), ResponseWrites(responses, b);
      SameResponseColumns(responses[..n], a, b, g, k);
      assert v[..|v| - 1] == ResponseWrites(responses[..n], a) && w[..|w| - 1] == ResponseWrites(responses[..n], b);
    }
  }

  lemma SameMessageColumns(c: Codec, a: Event, b: Event, g: Group, k: string)
    requires SameMessage(a, b)
    ensures EventColumns(c, a, g, k) == EventColumns(c, b, g, k)
  {
    hide EventWrites, TopicOf;
    EventWritesByTopic(c, g, a);
    EventWritesByTopic(c, g, b);
    LastColumnsSome(EventWrites(c, a), g, k);
    LastColumnsSome(EventWrites(c, b), g, k);
    if a.topic == TopicOf(g) && Decodes(c, g, a) {
      match g
      case Action => SameActionColumns(c.parseActions(a.payload).value.actions, a, b, g, k);
      case Response => SameResponseColumns(c.parseResponses(a.payload).value.responses, a, b, g, k);
      case _ =>
    }
  }

  lemma ForeignColumns(c: Codec, e: Event, g: Group, k: string)
    ensures e.topic != TopicOf(g) ==> EventColumns(c, e, g, k).None?
    ensures e.topic == TopicOf(g) && !Decodes(c, g, e) ==> EventColumns(c, e, g, k).None?
  {
    EventWritesByTopic(c, g, e);
    LastColumnsSome(EventWrites(c, e), g, k);
  }

  /** The last event that names a key decides, if no later event says anything else. */
  lemma {:induction false} LastWord(c: Codec, es: seq<Event>, g: Group, k: string, p: nat)
    requires p < |es| && EventColumns(c, es[p], g, k).Some?
    requires forall q :: p < q < |es| ==>
               EventColumns(c, es[q], g, k).None? || EventColumns(c, es[q], g, k) == EventColumns(c, es[p], g, k)
    ensures LastColumns(Writes(c, es), g, k) == EventColumns(c, es[p], g, k)
  {
    hide EventWrites, TopicOf;
    var n := |es| - 1;
    LastColumnsConcat(Writes(c, es[..n]), EventWrites(c, es[n]), g, k);
    if p < n {
      assert forall q :: 0 <= q < n ==> es[..n][q] == es[q];
      LastWord(c, es[..n], g, k, p);
    }
  }

  lemma {:induction false} NoWord(c: Codec, es: seq<Event>, g: Group, k: string)
    ensures LastColumns(Writes(c, es), g, k).Some? <==>
            exists q :: 0 <= q < |es| && EventColumns(c, es[q], g, k).Some?
  {
    hide EventWrites, TopicOf;
    if es != [] {
      var n := |es| - 1;
      assert forall q :: 0 <= q < n ==> es[..n][q] == es[q];
      LastColumnsConcat(Writes(c, es[..n]), EventWrites(c, es[n]), g, k);
      NoWord(c, es[..n], g, k);
    }
  }

  // ---------------------------------------------------------------- what the latest rows keep

  /** The row that names a key last. */
  ghost predicate NamesLast(c: Codec, log: seq<Event>, g: Group, k: string, j: nat)
    requires j < |log|
  {
    EventColumns(c, log[j], g, k).Some? && forall q :: j < q < |log| ==> EventColumns(c, log[q], g, k).None?
  }

  /** Among the latest rows of the topic, the last one that names the key says what row j
      says about it. */
  ghost predicate Upheld(c: Codec, log: seq<Event>, g: Group, k: string, j: nat)
    requires j < |log|
  {
    exists i :: 0 <= i < |log| && log[i].topic == TopicOf(g) && IsLatest(log, i) &&
                EventColumns(c, log[i], g, k) == EventColumns(c, log[j], g, k) && NothingElseAfter(c, log, g, k, i)
  }

  ghost predicate NothingElseAfter(c: Codec, log: seq<Event>, g: Group, k: string, i: nat)
    requires i < |log|
  {
    forall q :: i < q < |log| && log[q].topic == TopicOf(g) && IsLatest(log, q) ==>
      EventColumns(c, log[q], g, k).None? || EventColumns(c, log[q], g, k) == EventColumns(c, log[i], g, k)
  }

  /** For each key, the last latest row that names it agrees with the last row that names it. */
  ghost predicate Settled(c: Codec, log: seq<Event>, g: Group) {
    forall j, k :: 0 <= j < |log| && NamesLast(c, log, g, k, j) ==> Upheld(c, log, g, k, j)
  }

  ghost predicate Coherent(c: Codec, log: seq<Event>) {
    Ascending(log) && forall g :: Settled(c, log, g)
  }

  /** Each row of the topic names no key but the one it is filed under. */
  ghost predicate SingleItem(c: Codec, log: seq<Event>, g: Group) {
    forall j, k :: 0 <= j < |log| && EventColumns(c, log[j], g, k).Some? ==> k == log[j].itemId
  }

  ghost predicate GoodPlan(c: Codec, log: seq<Event>, plan: seq<seq<Event>>) {
    && IsPlan(log, plan)
    && forall p :: 0 <= p < |plan| ==> Ascending(plan[p]) || SingleItem(c, log, PROJECTORS[p])
  }

  /** A projected answer shows the newest columns of its group. */
  ghost predicate ShowsNewest(c: Codec, log: seq<Event>, g: Group, batch: seq<Event>) {
    forall k :: LastColumns(Writes(c, batch), g, k) == Newest(c, log, g, k)
  }

  // ---------------------------------------------------------------- the latest rows suffice

  lemma {:induction false} FindLastNamer(c: Codec, es: seq<Event>, g: Group, k: string, n: nat) returns (j: nat)
    requires n <= |es| && forall q :: n <= q < |es| ==> EventColumns(c, es[q], g, k).None?
    requires exists q :: 0 <= q < |es| && EventColumns(c, es[q], g, k).Some?
    ensures j < |es| && NamesLast(c, es, g, k, j)
  {
    hide EventColumns;
    if EventColumns(c, es[n - 1], g, k).Some? {
      j := n - 1;
    } else {
      j := FindLastNamer(c, es, g, k, n - 1);
    }
  }

  /** A key that some event names has an event that names it last. */
  lemma LastNamer(c: Codec, es: seq<Event>, g: Group, k: string) returns (j: nat)
    requires LastColumns(Writes(c, es), g, k).Some?
    ensures j < |es| && NamesLast(c, es, g, k, j) && LastColumns(Writes(c, es), g, k) == EventColumns(c, es[j], g, k)
  {
    hide EventColumns, Writes, LastColumns;
    NoWord(c, es, g, k);
    j := FindLastNamer(c, es, g, k, |es|);
    LastWord(c, es, g, k, j);
  }

  lemma SelectedRow(log: seq<Event>, topic: string, batch: seq<Event>, q: nat) returns (r: nat)
    requires IsBatch(log, topic, batch) && q < |batch|
    ensures r < |log| && log[r] == batch[q] && log[r].topic == topic && IsLatest(log, r)
  {
    assert Selected(log, topic, batch[q]);
    r :| 0 <= r < |log| && log[r] == batch[q] && log[r].topic == topic && IsLatest(log, r);
  }

  lemma SameRowOrder(log: seq<Event>, batch: seq<Event>, last: nat, r: nat, p: nat, q: nat)
    requires Ascending(log) && Ascending(batch) && last < |log| && r < |log| && p < q < |batch|
    requires batch[p] == log[last] && batch[q] == log[r]
    ensures last < r
  {
  }

  /** One query answer, projected, says what the whole log says: in any order when rows
      name only their own key, in id order otherwise. */
  lemma BatchNewest(c: Codec, log: seq<Event>, g: Group, batch: seq<Event>, k: string)
    requires Ascending(log) && Settled(c, log, g) && IsBatch(log, TopicOf(g), batch)
    requires Ascending(batch) || SingleItem(c, log, g)
    ensures LastColumns(Writes(c, batch), g, k) == Newest(c, log, g, k)
  {
    hide EventWrites, TopicOf, EventColumns, Ascending;
    if Newest(c, log, g, k).Some? {
      var j := LastNamer(c, log, g, k);
      assert Upheld(c, log, g, k, j);
      var i :| 0 <= i < |log| && log[i].topic == TopicOf(g) && IsLatest(log, i) &&
               EventColumns(c, log[i], g, k) == EventColumns(c, log[j], g, k) && NothingElseAfter(c, log, g, k, i);
      assert log[i] in batch;
      var p :| 0 <= p < |batch| && batch[p] == log[i];
      forall q | p < q < |batch| && EventColumns(c, batch[q], g, k).Some?
        ensures EventColumns(c, batch[q], g, k) == EventColumns(c, batch[p], g, k)
      {
        var r := SelectedRow(log, TopicOf(g), batch, q);
        if Ascending(batch) {
          SameRowOrder(log, batch, i, r, p, q);
        }
      }
      LastWord(c, batch, g, k, p);
    } else {
      SilentAnswer(c, log, g, batch, k);
    }
  }

  lemma SilentAnswer(c: Codec, log: seq<Event>, g: Group, batch: seq<Event>, k: string)
    requires IsBatch(log, TopicOf(g), batch) && Newest(c, log, g, k).None?
    ensures LastColumns(Writes(c, batch), g, k).None?
  {
    hide EventWrites, TopicOf, EventColumns;
    NoWord(c, log, g, k);
    NoWord(c, batch, g, k);
    forall q | 0 <= q < |batch|
      ensures EventColumns(c, batch[q], g, k).None?
    {
      var r := SelectedRow(log, TopicOf(g), batch, q);
    }
  }

  /** The exact condition: in id order, the projected answer shows what the whole log says
      if and only if the log is settled. */
  lemma InOrderIffSettled(c: Codec, log: seq<Event>, g: Group, batch: seq<Event>)
    requires Ascending(log) && IsBatch(log, TopicOf(g), batch) && Ascending(batch)
    ensures ShowsNewest(c, log, g, batch) <==> Settled(c, log, g)
  {
    hide EventWrites, TopicOf, EventColumns, IsBatch, Ascending;
    if Settled(c, log, g) {
      forall k
        ensures LastColumns(Writes(c, batch), g, k) == Newest(c, log, g, k)
      {
        BatchNewest(c, log, g, batch, k);
      }
    }
    if ShowsNewest(c, log, g, batch) {
      forall j, k | 0 <= j < |log| && NamesLast(c, log, g, k, j)
        ensures Upheld(c, log, g, k, j)
      {
        ShownIsUpheld(c, log, g, batch, k, j);
      }
    }
  }

  lemma ShownIsUpheld(c: Codec, log: seq<Event>, g: Group, batch: seq<Event>, k: string, j: nat)
    requires Ascending(log) && IsBatch(log, TopicOf(g), batch) && Ascending(batch)
    requires ShowsNewest(c, log, g, batch) && j < |log| && NamesLast(c, log, g, k, j)
    ensures Upheld(c, log, g, k, j)
  {
    hide EventWrites, TopicOf, EventColumns, Ascending;
    LastWord(c, log, g, k, j);
    var p := LastNamer(c, batch, g, k);
    var i := SelectedRow(log, TopicOf(g), batch, p);
    forall q | i < q < |log| && log[q].topic == TopicOf(g) && IsLatest(log, q)
      ensures EventColumns(c, log[q], g, k).None?
    {
      assert log[q] in batch;
      var b :| 0 <= b < |batch| && batch[b] == log[q];
      if b < p {
        SameRowOrder(log, batch, q, i, b, p);
      }
      DistinctRows(log, i, q);
    }
    assert NothingElseAfter(c, log, g, k, i);
  }

  lemma DistinctRows(log: seq<Event>, i: nat, q: nat)
    requires Ascending(log) && i < q < |log|
    ensures log[i] != log[q]
  {
  }

  /** What the last of the latest rows among the first n says about a key. */
  ghost function LatestSays(c: Codec, log: seq<Event>, g: Group, k: string, n: nat): Option<Columns>
    requires n <= |log|
  {
    if n == 0 then None
    else if log[n - 1].topic == TopicOf(g) && IsLatest(log, n - 1) && EventColumns(c, log[n - 1], g, k).Some? then
      EventColumns(c, log[n - 1], g, k)
    else LatestSays(c, log, g, k, n - 1)
  }

  lemma {:induction false} LatestSayer(c: Codec, log: seq<Event>, g: Group, k: string, n: nat) returns (i: nat)
    requires n <= |log| && LatestSays(c, log, g, k, n).Some?
    ensures i < n && log[i].topic == TopicOf(g) && IsLatest(log, i)
    ensures EventColumns(c, log[i], g, k) == LatestSays(c, log, g, k, n)
    ensures forall q :: i < q < n && log[q].topic == TopicOf(g) && IsLatest(log, q) ==> EventColumns(c, log[q], g, k).None?
  {
    hide TopicOf, EventColumns, IsLatest;
    if log[n - 1].topic == TopicOf(g) && IsLatest(log, n - 1) && EventColumns(c, log[n - 1], g, k).Some? {
      i := n - 1;
    } else {
      i := LatestSayer(c, log, g, k, n - 1);
    }
  }

  /** Above a row whose columns all later latest rows repeat, the latest rows say them. */
  lemma {:induction false} LatestSaysFrom(c: Codec, log: seq<Event>, g: Group, k: string, i: nat, n: nat)
    requires i < n <= |log| && log[i].topic == TopicOf(g) && IsLatest(log, i) && EventColumns(c, log[i], g, k).Some?
    requires NothingElseAfter(c, log, g, k, i)
    ensures LatestSays(c, log, g, k, n) == EventColumns(c, log[i], g, k)
  {
    hide TopicOf, EventColumns, IsLatest;
    if i + 1 < n {
      LatestSaysFrom(c, log, g, k, i, n - 1);
    }
  }

  /** A row is upheld exactly when the latest rows say what it says. */
  lemma UpheldIffSaid(c: Codec, log: seq<Event>, g: Group, k: string, j: nat)
    requires j < |log| && NamesLast(c, log, g, k, j)
    ensures Upheld(c, log, g, k, j) <==> LatestSays(c, log, g, k, |log|) == EventColumns(c, log[j], g, k)
  {
    hide TopicOf, EventColumns, IsLatest, LatestSays;
    if Upheld(c, log, g, k, j) {
      var i :| 0 <= i < |log| && log[i].topic == TopicOf(g) && IsLatest(log, i) &&
               EventColumns(c, log[i], g, k) == EventColumns(c, log[j], g, k) && NothingElseAfter(c, log, g, k, i);
      LatestSaysFrom(c, log, g, k, i, |log|);
    }
    if LatestSays(c, log, g, k, |log|) == EventColumns(c, log[j], g, k) {
      var i := LatestSayer(c, log, g, k, |log|);
      assert NothingElseAfter(c, log, g, k, i);
    }
  }

  lemma {:induction false} LatestSaysSome(c: Codec, log: seq<Event>, g: Group, k: string, i: nat, n: nat)
    requires i < n <= |log| && log[i].topic == TopicOf(g) && IsLatest(log, i) && EventColumns(c, log[i], g, k).Some?
    ensures LatestSays(c, log, g, k, n).Some?
  {
    hide TopicOf, EventColumns, IsLatest;
    if i + 1 < n {
      LatestSaysSome(c, log, g, k, i, n - 1);
    }
  }

  /** In id order, the projected answer shows what the latest rows say. */
  lemma InOrderShowsLatest(c: Codec, log: seq<Event>, g: Group, batch: seq<Event>, k: string)
    requires Ascending(log) && IsBatch(log, TopicOf(g), batch) && Ascending(batch)
    ensures LastColumns(Writes(c, batch), g, k) == LatestSays(c, log, g, k, |log|)
  {
    hide EventWrites, TopicOf, EventColumns, Ascending, LatestSays;
    if LastColumns(Writes(c, batch), g, k).Some? {
      var p := LastNamer(c, batch, g, k);
      var r := SelectedRow(log, TopicOf(g), batch, p);
      LatestSaysSome(c, log, g, k, r, |log|);
    }
    if LatestSays(c, log, g, k, |log|).Some? {
      var i := LatestSayer(c, log, g, k, |log|);
      assert log[i] in batch;
      var p :| 0 <= p < |batch| && batch[p] == log[i];
      forall q | p < q < |batch|
        ensures EventColumns(c, batch[q], g, k).None?
      {
        var r := SelectedRow(log, TopicOf(g), batch, q);
        SameRowOrder(log, batch, i, r, p, q);
      }
      LastWord(c, batch, g, k, p);
    }
  }

  // ---------------------------------------------------------------- completely filed logs

  /** A row that parses writes the key it is filed under. */
  ghost predicate SelfNaming(c: Codec, log: seq<Event>) {
    forall i, g :: 0 <= i < |log| && log[i].topic == TopicOf(g) && Decodes(c, g, log[i]) ==>
      EventColumns(c, log[i], g, log[i].itemId).Some?
  }

  /** Between two rows of a topic there are only rows of one and the same message. */
  ghost predicate OneMessage(log: seq<Event>, i: nat, j: nat)
    requires i < |log| && j < |log|
  {
    forall q :: 0 <= q < |log| && (i <= q <= j || j <= q <= i) && log[q].topic == log[j].topic ==>
      SameMessage(log[q], log[j])
  }

  /** Every key that a row names is filed in a row of the same message. */
  ghost predicate Complete(c: Codec, log: seq<Event>) {
    forall j, g, k :: 0 <= j < |log| && EventColumns(c, log[j], g, k).Some? ==>
      exists i :: 0 <= i < |log| && Matches(log[i], TopicOf(g), k) && OneMessage(log, i, j)
  }

  ghost predicate LatestDecode(c: Codec, log: seq<Event>) {
    forall i, g :: 0 <= i < |log| && log[i].topic == TopicOf(g) && IsLatest(log, i) ==> Decodes(c, g, log[i])
  }

  /** Where rows name only the item they are filed under, and parse, every log is settled. */
  lemma SingleItemSettled(c: Codec, log: seq<Event>, g: Group)
    requires SingleItem(c, log, g) && SelfNaming(c, log) && LatestDecode(c, log)
    ensures Settled(c, log, g)
  {
    hide EventWrites, TopicOf, EventColumns, Decodes;
    forall j, k | 0 <= j < |log| && NamesLast(c, log, g, k, j)
      ensures Upheld(c, log, g, k, j)
    {
      ForeignColumns(c, log[j], g, k);
      assert Matches(log[j], TopicOf(g), k);
      var last := LastIndex(log, TopicOf(g), k).value;
      assert IsLatest(log, last) && j <= last;
      assert EventColumns(c, log[last], g, k).Some?;
      assert NothingElseAfter(c, log, g, k, j);
    }
  }

  /** In a completely filed log, the newest row filed under a key says what the whole log
      says about that key. */
  lemma NewestRow(c: Codec, log: seq<Event>, g: Group, k: string, last: nat)
    requires SelfNaming(c, log) && Complete(c, log) && LatestDecode(c, log)
    requires LastIndex(log, TopicOf(g), k) == Some(last)
    ensures IsLatest(log, last) && EventColumns(c, log[last], g, k).Some?
    ensures forall q :: last < q < |log| ==>
              EventColumns(c, log[q], g, k).None? || EventColumns(c, log[q], g, k) == EventColumns(c, log[last], g, k)
    ensures Newest(c, log, g, k) == EventColumns(c, log[last], g, k)
  {
    hide EventWrites, TopicOf;
    assert IsLatest(log, last);
    forall q | last < q < |log| && EventColumns(c, log[q], g, k).Some?
      ensures EventColumns(c, log[q], g, k) == EventColumns(c, log[last], g, k)
    {
      ForeignColumns(c, log[q], g, k);
      var i :| 0 <= i < |log| && Matches(log[i], TopicOf(g), k) && OneMessage(log, i, q);
      assert i <= last;
      SameMessageColumns(c, log[last], log[q], g, k);
    }
    LastWord(c, log, g, k, last);
  }

  // ---------------------------------------------------------------- the six answers together

  function Position(g: Group): (p: nat)
    ensures p < |PROJECTORS| && PROJECTORS[p] == g
    ensures forall q :: 0 <= q < |PROJECTORS| && q != p ==> PROJECTORS[q] != g
  {
    match g case Connection => 0 case State => 1 case Factsheet => 2 case Order => 3 case Action => 4 case Response => 5
  }

  /** Only one of the six answers speaks about a column group. */
  lemma {:induction false} FlattenColumns(c: Codec, log: seq<Event>, plan: seq<seq<Event>>, n: nat, g: Group, k: string)
    requires IsPlan(log, plan) && n <= |plan|
    ensures LastColumns(Writes(c, Flatten(plan[..n])), g, k) ==
            if Position(g) < n then LastColumns(Writes(c, plan[Position(g)]), g, k) else None
  {
    hide EventWrites, TopicOf, IsBatch, LastColumns;
    if n == 0 {
      NothingWritten(c, g, k);
      assert plan[..0] == [];
    } else {
      var answer := plan[n - 1];
      FlattenColumns(c, log, plan, n - 1, g, k);
      assert plan[..n][..n - 1] == plan[..n - 1];
      WritesConcat(c, Flatten(plan[..n - 1]), answer);
      LastColumnsConcat(Writes(c, Flatten(plan[..n - 1])), Writes(c, answer), g, k);
      if n - 1 != Position(g) {
        ForeignAnswer(c, log, PROJECTORS[n - 1], answer, g, k);
      }
    }
  }

  lemma NothingWritten(c: Codec, g: Group, k: string)
    ensures LastColumns(Writes(c, Flatten([])), g, k) == None
  {
  }

  /** The answer for one projector says nothing about another's columns. */
  lemma ForeignAnswer(c: Codec, log: seq<Event>, h: Group, answer: seq<Event>, g: Group, k: string)
    requires IsBatch(log, TopicOf(h), answer) && g != h
    ensures LastColumns(Writes(c, answer), g, k) == None
  {
    hide EventWrites, TopicOf, EventColumns, LastColumns;
    if TopicOf(h) == TopicOf(g) {
      TopicsDistinct(h, g);
    }
    NoWord(c, answer, g, k);
    forall q | 0 <= q < |answer|
      ensures EventColumns(c, answer[q], g, k).None?
    {
      var r := SelectedRow(log, TopicOf(h), answer, q);
      ForeignColumns(c, answer[q], g, k);
    }
  }

  lemma PlanColumns(c: Codec, log: seq<Event>, plan: seq<seq<Event>>, g: Group, k: string)
    requires IsPlan(log, plan)
    ensures LastColumns(Writes(c, Flatten(plan)), g, k) == LastColumns(Writes(c, plan[Position(g)]), g, k)
  {
    hide EventWrites, TopicOf;
    assert plan[..|plan|] == plan;
    FlattenColumns(c, log, plan, |plan|, g, k);
  }

  /** The answer for a group comes in an order that suits it. */
  ghost predicate GoodAnswer(c: Codec, log: seq<Event>, plan: seq<seq<Event>>, g: Group) {
    IsPlan(log, plan) && (Ascending(plan[Position(g)]) || SingleItem(c, log, g))
  }

  lemma PlanNewest(c: Codec, log: seq<Event>, plan: seq<seq<Event>>, g: Group, k: string)
    requires Ascending(log) && Settled(c, log, g) && GoodAnswer(c, log, plan, g)
    ensures LastColumns(Writes(c, Flatten(plan)), g, k) == Newest(c, log, g, k)
  {
    hide EventWrites, TopicOf;
    PlanColumns(c, log, plan, g, k);
    BatchNewest(c, log, g, plan[Position(g)], k);
  }

  /** A cycle writes nothing that the log does not say. */
  lemma {:induction false} PlanFromLog(c: Codec, log: seq<Event>, plan: seq<seq<Event>>, n: nat)
    requires IsPlan(log, plan) && n <= |plan|
    ensures forall e :: e in Flatten(plan[..n]) ==> e in log
  {
    if n > 0 {
      PlanFromLog(c, log, plan, n - 1);
      assert plan[..n][..n - 1] == plan[..n - 1];
      forall e | e in plan[n - 1]
        ensures e in log
      {
        assert Selected(log, TopicOf(PROJECTORS[n - 1]), e);
      }
    }
  }

  lemma PlanWritesFromLog(c: Codec, log: seq<Event>, plan: seq<seq<Event>>)
    requires IsPlan(log, plan)
    ensures forall w :: w in Writes(c, Flatten(plan)) ==> w in Writes(c, log)
  {
    hide EventWrites, TopicOf;
    assert plan[..|plan|] == plan;
    PlanFromLog(c, log, plan, |plan|);
    forall w | w in Writes(c, Flatten(plan))
      ensures w in Writes(c, log)
    {
      WritesSource(c, Flatten(plan), w);
      var e :| e in Flatten(plan) && w in EventWrites(c, e);
      assert e in log;
      WritesSource(c, log, w);
    }
  }

  // ---------------------------------------------------------------- what the read model must show

  /** The values a column group has in a row that some other group's write inserted. The
      robot of an action row inserted by a response is whichever response came first. */
  predicate IsFresh(g: Group, x: Columns) {
    match g
    case Connection => x == ConnectionColumns("OFFLINE")
    case State => x == StateColumns(None, false, false, None, false)
    case Factsheet => x == FactsheetColumns(None)
    case Order => false
    case Action => x.ActionColumns? && x == ActionColumns("zoneRequest", None, "NONE", None, x.robotId)
    case Response => x == ResponseColumns("WAITING")
  }

  predicate Mentions(c: Codec, log: seq<Event>, t: Table, k: string) {
    FirstTouch(Writes(c, log), t, k).Some?
  }

  /** The meaning of a log: what a table must show after it, starting from m0. */
  ghost predicate Shows(c: Codec, log: seq<Event>, m0: Model, m: Model, t: Table) {
    && (forall k :: Exists(m, t, k) <==> Exists(m0, t, k) || Mentions(c, log, t, k))
    && (forall g, k :: TableOf(g) == t && Exists(m, TableOf(g), k) ==>
          if Newest(c, log, g, k).Some? then Get(m, g, k) == Newest(c, log, g, k).value
          else if Exists(m0, TableOf(g), k) then Get(m, g, k) == Get(m0, g, k)
          else IsFresh(g, Get(m, g, k)))
  }

  /** The part of that meaning which every partial projection of the log respects. */
  ghost predicate Explained(c: Codec, log: seq<Event>, m0: Model, m: Model) {
    && (forall t, k :: Exists(m0, t, k) ==> Exists(m, t, k))
    && (forall t, k :: Exists(m, t, k) ==> Exists(m0, t, k) || Mentions(c, log, t, k))
    && (forall g, k :: Exists(m, TableOf(g), k) && Newest(c, log, g, k).None? ==>
          if Exists(m0, TableOf(g), k) then Get(m, g, k) == Get(m0, g, k) else IsFresh(g, Get(m, g, k)))
  }

  lemma ExplainedApply(c: Codec, log: seq<Event>, m0: Model, m: Model, w: Write)
    requires Explained(c, log, m0, m) && w in Writes(c, log)
    ensures Explained(c, log, m0, Apply(m, w))
  {
    hide EventWrites, TopicOf, Apply, Get, Exists, ColumnsOf;
    ApplyLaw(m, w);
    LastColumnsSome(Writes(c, log), GroupOf(w), KeyOf(w));
    assert Sets(w, GroupOf(w), KeyOf(w));
    assert Touches(w, TableOf(GroupOf(w)), KeyOf(w));
  }

  lemma {:induction false} ExplainedApplyAll(c: Codec, log: seq<Event>, m0: Model, m: Model, ws: seq<Write>)
    requires Explained(c, log, m0, m) && forall w :: w in ws ==> w in Writes(c, log)
    ensures Explained(c, log, m0, ApplyAll(m, ws))
  {
    if ws != [] {
      ExplainedApplyAll(c, log, m0, m, ws[..|ws| - 1]);
      ExplainedApply(c, log, m0, ApplyAll(m, ws[..|ws| - 1]), ws[|ws| - 1]);
    }
  }

  lemma ExplainedGrows(c: Codec, log: seq<Event>, e: Event, m0: Model, m: Model)
    requires Explained(c, log, m0, m)
    ensures Explained(c, log + [e], m0, m)
  {
    hide EventWrites, TopicOf;
    var more := log + [e];
    assert more[..|more| - 1] == log;
    forall g, k {
      LastColumnsConcat(Writes(c, log), EventWrites(c, e), g, k);
    }
    forall t, k | Mentions(c, log, t, k)
      ensures Mentions(c, more, t, k)
    {
      assert FirstTouch(Writes(c, log), t, k).value in Writes(c, more);
    }
  }

  /** The groups of a table are settled, and their answers come in a suitable order. */
  ghost predicate Trusted(c: Codec, log: seq<Event>, plan: seq<seq<Event>>, t: Table) {
    Ascending(log) && IsPlan(log, plan) &&
    forall g :: TableOf(g) == t ==> Settled(c, log, g) && GoodAnswer(c, log, plan, g)
  }

  lemma AllTrusted(c: Codec, log: seq<Event>, plan: seq<seq<Event>>, t: Table)
    requires Coherent(c, log) && GoodPlan(c, log, plan)
    ensures Trusted(c, log, plan, t)
  {
    hide EventWrites, TopicOf, Settled, SingleItem, Ascending, IsBatch;
    forall g | TableOf(g) == t
      ensures GoodAnswer(c, log, plan, g)
    {
      assert PROJECTORS[Position(g)] == g;
    }
  }

  /** From any state that the log explains, one undisturbed cycle shows the log's meaning. */
  lemma CycleShows(c: Codec, log: seq<Event>, m0: Model, m: Model, plan: seq<seq<Event>>, t: Table)
    requires Trusted(c, log, plan, t) && Explained(c, log, m0, m)
    ensures Shows(c, log, m0, Cycle(c, m, plan), t)
  {
    hide EventWrites, TopicOf, Settled, GoodAnswer, IsBatch, Ascending;
    var ws, r := Writes(c, Flatten(plan)), Cycle(c, m, plan);
    PlanWritesFromLog(c, log, plan);
    ExplainedApplyAll(c, log, m0, m, ws);
    ApplyAllLaw(m, ws);
    forall g, k | TableOf(g) == t
      ensures LastColumns(ws, g, k) == Newest(c, log, g, k)
    {
      PlanNewest(c, log, plan, g, k);
    }
    forall k | Mentions(c, log, t, k)
      ensures Exists(r, t, k)
    {
      var w := FirstTouch(Writes(c, log), t, k).value;
      assert Sets(w, GroupOf(w), k);
      LastColumnsSome(Writes(c, log), GroupOf(w), k);
      LastColumnsSome(ws, GroupOf(w), k);
    }
  }

  lemma ExplainedStart(c: Codec, log: seq<Event>, m0: Model)
    ensures Explained(c, log, m0, m0)
  {
  }

  lemma ReplayShows(c: Codec, log: seq<Event>, m0: Model, t: Table)
    ensures Shows(c, log, m0, Replay(c, m0, log), t)
  {
    hide EventWrites, TopicOf;
    var ws := Writes(c, log);
    ApplyAllLaw(m0, ws);
    ExplainedApplyAll(c, log, m0, m0, ws);
  }

  /** Equal in every row of a table and every conflict-updated column but the update time. The
      one exception is the robot of an action row that only responses have ever written. */
  ghost predicate SameTable(c: Codec, log: seq<Event>, m0: Model, a: Model, b: Model, t: Table) {
    && (forall k :: Exists(a, t, k) <==> Exists(b, t, k))
    && (forall g, k :: TableOf(g) == t && Exists(a, TableOf(g), k) ==>
          || Get(a, g, k) == Get(b, g, k)
          || (g == Action && !Exists(m0, InstantActions, k) && Newest(c, log, g, k).None? &&
              Get(a, g, k) == Get(b, g, k).(robotId := Get(a, g, k).robotId)))
  }

  ghost predicate SameColumns(c: Codec, log: seq<Event>, m0: Model, a: Model, b: Model) {
    forall t :: SameTable(c, log, m0, a, b, t)
  }

  lemma ShownAlike(c: Codec, log: seq<Event>, m0: Model, a: Model, b: Model, t: Table)
    requires Shows(c, log, m0, a, t) && Shows(c, log, m0, b, t)
    ensures SameTable(c, log, m0, a, b, t)
  {
    forall g, k | TableOf(g) == t && Exists(a, TableOf(g), k) && Get(a, g, k) != Get(b, g, k)
      ensures g == Action && !Exists(m0, InstantActions, k) && Newest(c, log, g, k).None? &&
              Get(a, g, k) == Get(b, g, k).(robotId := Get(a, g, k).robotId)
    {
      assert IsFresh(g, Get(a, g, k)) && IsFresh(g, Get(b, g, k));
    }
  }

  /** Latest-only projection refines full replay, table by table, from any starting tables. */
  lemma TableRefinesReplay(c: Codec, log: seq<Event>, m0: Model, plan: seq<seq<Event>>, t: Table)
    requires Trusted(c, log, plan, t)
    ensures SameTable(c, log, m0, Cycle(c, m0, plan), Replay(c, m0, log), t)
  {
    hide EventWrites, TopicOf, Trusted, Shows, SameTable, Explained, Cycle, Replay;
    ExplainedStart(c, log, m0);
    CycleShows(c, log, m0, m0, plan, t);
    ReplayShows(c, log, m0, t);
    ShownAlike(c, log, m0, Cycle(c, m0, plan), Replay(c, m0, log), t);
  }

  /** Latest-only projection refines full replay, from any starting read model. */
  lemma LatestOnlyRefinesReplay(c: Codec, log: seq<Event>, m0: Model, plan: seq<seq<Event>>)
    requires Coherent(c, log) && GoodPlan(c, log, plan)
    ensures SameColumns(c, log, m0, Cycle(c, m0, plan), Replay(c, m0, log))
  {
    hide EventWrites, TopicOf, Trusted, Coherent, GoodPlan, Cycle, Replay, SameTable;
    forall t
      ensures SameTable(c, log, m0, Cycle(c, m0, plan), Replay(c, m0, log), t)
    {
      AllTrusted(c, log, plan, t);
      TableRefinesReplay(c, log, m0, plan, t);
    }
  }

  lemma OtherColumns(g: Group, k: string, x: Columns) returns (w: Write)
    ensures GroupOf(w) == g && KeyOf(w) == k && ColumnsOf(w) != x
  {
    match g
    case Connection => w := ConnectionWrite(k, "", "", if x == ConnectionColumns("1") then "2" else "1", "");
    case State => w := StateWrite(k, "", "", if x.StateColumns? && x.operatingMode == Some("1") then "2" else "1",
                                  false, false, "", false, "");
    case Factsheet => w := FactsheetWrite(k, "", "", if x == FactsheetColumns(Some("1")) then "2" else "1", "");
    case Order => w := OrderWrite(k, if x.OrderColumns? && x.assignedRobotId == "1" then "2" else "1", 0, "", "", "", "");
    case Action => w := ActionWrite(k, if x.ActionColumns? && x.actionType == "1" then "2" else "1", "", "", "", "", "");
    case Response => w := ResponseWrite(k, "", if x == ResponseColumns("1") then "2" else "1", "");
  }

  /** A start from which a projection that misses the newest columns is seen to. */
  lemma MissedColumns(c: Codec, log: seq<Event>, plan: seq<seq<Event>>, g: Group, k: string)
    requires IsPlan(log, plan) && LastColumns(Writes(c, plan[Position(g)]), g, k) != Newest(c, log, g, k)
    ensures exists m0 :: !SameTable(c, log, m0, Cycle(c, m0, plan), Replay(c, m0, log), TableOf(g))
  {
    hide EventWrites, TopicOf, Get, Exists, Apply, ApplyAll, LastColumns;
    if Newest(c, log, g, k).None? {
      SilentAnswer(c, log, g, plan[Position(g)], k);
      assert false;
    }
    var w := OtherColumns(g, k, Newest(c, log, g, k).value);
    var empty := Model(map[], map[], map[]);
    var m0 := Apply(empty, w);
    ApplyLaw(empty, w);
    PlanColumns(c, log, plan, g, k);
    assert Touches(w, TableOf(g), k);
    RowShown(m0, Writes(c, Flatten(plan)), g, k);
    RowShown(m0, Writes(c, log), g, k);
    assert Get(Cycle(c, m0, plan), g, k) != Get(Replay(c, m0, log), g, k);
  }

  /** The exact condition for the whole design: with its answers in id order, latest-only
      projection shows in a table, from every start, what full replay shows, if and only if
      the log is settled for every projector of the table. */
  lemma RefinesReplayIffSettled(c: Codec, log: seq<Event>, plan: seq<seq<Event>>, t: Table)
    requires Ascending(log) && IsPlan(log, plan) && forall g :: TableOf(g) == t ==> Ascending(plan[Position(g)])
    ensures (forall m0 :: SameTable(c, log, m0, Cycle(c, m0, plan), Replay(c, m0, log), t)) <==>
            forall g :: TableOf(g) == t ==> Settled(c, log, g)
  {
    hide EventWrites, TopicOf, SameTable, Cycle, Replay, Settled, Ascending, TableOf;
    if forall g :: TableOf(g) == t ==> Settled(c, log, g) {
      forall m0
        ensures SameTable(c, log, m0, Cycle(c, m0, plan), Replay(c, m0, log), t)
      {
        TableRefinesReplay(c, log, m0, plan, t);
      }
    } else {
      var g :| TableOf(g) == t && !Settled(c, log, g);
      InOrderIffSettled(c, log, g, plan[Position(g)]);
      var k :| LastColumns(Writes(c, plan[Position(g)]), g, k) != Newest(c, log, g, k);
      MissedColumns(c, log, plan, g, k);
    }
  }
}
