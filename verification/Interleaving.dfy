/** Every interleaving of the recorder, which takes no lock, with a projection loop whose
    cycles are no transactions: they may be overtaken by inserts, skip events, or be
    abandoned at any point by an exception, a stop or a restart. */
module Interleaving {
  import opened Wrappers
  import opened EventLog
  import opened ReadModel
  import opened Folds
  import opened Messages
  import opened Projection
  import opened Refinement
  import opened CycleProperties

  datatype Slot = Slot(group: Group, key: string)

  /** Where the loop stands: `next` queries have been made since row count `begun`, `batch`
      holds the rows of the last one that are still to be projected, `item` counts the
      upserts already made for the first of them, `clean` says nothing has failed. */
  datatype Loop = Idle | Running(begun: nat, clean: bool, next: nat, batch: seq<Event>, item: nat)

  /** `sources` is a history variable: the id of the event behind each column group. */
  datatype System = System(log: seq<Event>, model: Model, loop: Loop, sources: map<Slot, nat>)

  datatype Move =
    | Insert(event: Event)
    | BeginCycle
    | Query(batch: seq<Event>)
    | WriteItem
    | NextEvent
    | SkipEvent
    | EndCycle
    | Abandon

  ghost predicate Enabled(c: Codec, s: System, move: Move) {
    match move
    case Insert(e) => forall old' :: old' in s.log ==> old'.id < e.id
    case BeginCycle => s.loop.Idle?
    case Query(batch) =>
      s.loop.Running? && s.loop.batch == [] && s.loop.next < |PROJECTORS| &&
      IsBatch(s.log, TopicOf(PROJECTORS[s.loop.next]), batch)
    case WriteItem => s.loop.Running? && s.loop.batch != [] && s.loop.item < |EventWrites(c, s.loop.batch[0])|
    case NextEvent => s.loop.Running? && s.loop.batch != [] && s.loop.item == |EventWrites(c, s.loop.batch[0])|
    case SkipEvent => s.loop.Running? && s.loop.batch != []
    case EndCycle => s.loop.Running? && s.loop.batch == [] && s.loop.next == |PROJECTORS|
    case Abandon => s.loop.Running?
  }

  ghost function Next(c: Codec, s: System, move: Move): System
    requires Enabled(c, s, move)
  {
    match move
    case Insert(e) => s.(log := s.log + [e])
    case BeginCycle => s.(loop := Running(|s.log|, true, 0, [], 0))
    case Query(batch) => s.(loop := s.loop.(next := s.loop.next + 1, batch := batch, item := 0))
    case WriteItem =>
      var e := s.loop.batch[0];
      var w := EventWrites(c, e)[s.loop.item];
      s.(model := Apply(s.model, w), sources := s.sources[Slot(GroupOf(w), KeyOf(w)) := e.id],
         loop := s.loop.(item := s.loop.item + 1))
    case NextEvent =>
      s.(loop := s.loop.(batch := s.loop.batch[1..], item := 0, clean := s.loop.clean && Parses(c, s.loop.batch[0])))
    case SkipEvent => s.(loop := s.loop.(batch := s.loop.batch[1..], item := 0, clean := false))
    case EndCycle => s.(loop := Idle)
    case Abandon => s.(loop := Idle)
  }

  ghost predicate IsRun(c: Codec, run: seq<System>, moves: seq<Move>) {
    && |run| == |moves| + 1
    && run[0].loop == Idle && run[0].sources == map[]
    && forall i :: 0 <= i < |moves| ==> Enabled(c, run[i], moves[i]) && run[i + 1] == Next(c, run[i], moves[i])
  }

  /** A move of a cycle that nothing overtakes, interrupts or ends. */
  predicate Quiet(move: Move) {
    move.Query? || move.WriteItem? || move.NextEvent?
  }

  /** The upserts already made for the event under way. */
  ghost function Begun(c: Codec, s: System): seq<Write>
    requires s.loop.Running?
  {
    if s.loop.batch != [] && s.loop.item <= |EventWrites(c, s.loop.batch[0])| then
      EventWrites(c, s.loop.batch[0])[..s.loop.item]
    else []
  }

  // ---------------------------------------------------------------- restart safety

  ghost predicate BatchInLog(s: System) {
    s.loop.Running? ==> forall e :: e in s.loop.batch ==> e in s.log
  }

  lemma ExplainedNext(c: Codec, m0: Model, s: System, move: Move)
    requires Enabled(c, s, move) && BatchInLog(s) && Explained(c, s.log, m0, s.model)
    ensures var r := Next(c, s, move); BatchInLog(r) && Explained(c, r.log, m0, r.model)
  {
    hide EventWrites, TopicOf, Explained;
    match move
    case Insert(e) => ExplainedGrows(c, s.log, e, m0, s.model);
    case Query(batch) =>
      forall e | e in batch
        ensures e in s.log
      {
        assert Selected(s.log, TopicOf(PROJECTORS[s.loop.next]), e);
      }
    case WriteItem =>
      var e := s.loop.batch[0];
      var w := EventWrites(c, e)[s.loop.item];
      assert e in s.log;
      WritesSource(c, s.log, w);
      ExplainedApply(c, s.log, m0, s.model, w);
    case _ =>
  }

  lemma {:induction false} RunExplained(c: Codec, run: seq<System>, moves: seq<Move>, n: nat)
    requires IsRun(c, run, moves) && n < |run|
    ensures BatchInLog(run[n]) && Explained(c, run[n].log, run[0].model, run[n].model)
  {
    hide EventWrites, TopicOf, Explained, Next, Enabled;
    if n == 0 {
      ExplainedStart(c, run[0].log, run[0].model);
    } else {
      RunExplained(c, run, moves, n - 1);
      ExplainedNext(c, run[0].model, run[n - 1], moves[n - 1]);
    }
  }

  /** Whatever inserts, complete cycles and abandoned cycles came before, one undisturbed
      cycle shows in a table what a single cycle over the final log would have shown from the
      start, and both show what replaying the final log shows. */
  lemma TableRestartSafe(c: Codec, run: seq<System>, moves: seq<Move>, n: nat, plan: seq<seq<Event>>,
                         once: seq<seq<Event>>, t: Table)
    requires IsRun(c, run, moves) && n < |run|
    requires Trusted(c, run[n].log, plan, t) && Trusted(c, run[n].log, once, t)
    ensures SameTable(c, run[n].log, run[0].model, Cycle(c, run[n].model, plan), Cycle(c, run[0].model, once), t)
    ensures SameTable(c, run[n].log, run[0].model, Cycle(c, run[n].model, plan), Replay(c, run[0].model, run[n].log), t)
  {
    hide EventWrites, TopicOf, Explained, Next, Enabled, Shows, Trusted, SameTable, Cycle, Replay;
    var log, m0 := run[n].log, run[0].model;
    RunExplained(c, run, moves, n);
    CycleShows(c, log, m0, run[n].model, plan, t);
    ExplainedStart(c, log, m0);
    CycleShows(c, log, m0, m0, once, t);
    ReplayShows(c, log, m0, t);
    ShownAlike(c, log, m0, Cycle(c, run[n].model, plan), Cycle(c, m0, once), t);
    ShownAlike(c, log, m0, Cycle(c, run[n].model, plan), Replay(c, m0, log), t);
  }

  /** The same for all tables at once. */
  lemma RestartSafe(c: Codec, run: seq<System>, moves: seq<Move>, n: nat, plan: seq<seq<Event>>, once: seq<seq<Event>>)
    requires IsRun(c, run, moves) && n < |run|
    requires Coherent(c, run[n].log)
    requires GoodPlan(c, run[n].log, plan) && GoodPlan(c, run[n].log, once)
    ensures SameColumns(c, run[n].log, run[0].model, Cycle(c, run[n].model, plan), Cycle(c, run[0].model, once))
    ensures SameColumns(c, run[n].log, run[0].model, Cycle(c, run[n].model, plan), Replay(c, run[0].model, run[n].log))
  {
    hide EventWrites, TopicOf, Next, Enabled, Trusted, SameTable, Cycle, Replay, GoodPlan, Coherent;
    var log, m0 := run[n].log, run[0].model;
    forall t
      ensures SameTable(c, log, m0, Cycle(c, run[n].model, plan), Cycle(c, m0, once), t)
      ensures SameTable(c, log, m0, Cycle(c, run[n].model, plan), Replay(c, m0, log), t)
    {
      AllTrusted(c, log, plan, t);
      AllTrusted(c, log, once, t);
      TableRestartSafe(c, run, moves, n, plan, once, t);
    }
  }

  // ---------------------------------------------------------------- insert-only columns

  /** No run changes the identity, management or creation columns of a row that exists. */
  lemma {:induction false} InsertOnlyFrozen(c: Codec, run: seq<System>, moves: seq<Move>, i: nat, j: nat,
                                            t: Table, k: string)
    requires IsRun(c, run, moves) && i <= j < |run| && Exists(run[i].model, t, k)
    ensures Exists(run[j].model, t, k) && GetInsertOnly(run[j].model, t, k) == GetInsertOnly(run[i].model, t, k)
  {
    hide EventWrites, TopicOf, Apply, Exists, GetInsertOnly;
    if i < j {
      InsertOnlyFrozen(c, run, moves, i, j - 1, t, k);
      if moves[j - 1] == WriteItem {
        ApplyLaw(run[j - 1].model, EventWrites(c, run[j - 1].loop.batch[0])[run[j - 1].loop.item]);
      }
    }
  }

  // ---------------------------------------------------------------- no regression

  /** The event with the given id says what the column group of the slot now shows. */
  ghost predicate Backed(c: Codec, s: System, slot: Slot, id: nat) {
    && Exists(s.model, TableOf(slot.group), slot.key)
    && exists i :: 0 <= i < |s.log| && s.log[i].id == id && Matches(s.log[i], TopicOf(slot.group), slot.key) &&
                   EventColumns(c, s.log[i], slot.group, slot.key) == Some(Get(s.model, slot.group, slot.key))
  }

  ghost predicate SourcesBacked(c: Codec, s: System) {
    forall slot :: slot in s.sources && Snapshot(slot.group) ==> Backed(c, s, slot, s.sources[slot])
  }

  /** The rows under way come from one query, and none is older than what is shown. */
  ghost predicate BatchAhead(s: System) {
    s.loop.Running? ==>
      && s.loop.next <= |PROJECTORS| && s.loop.begun <= |s.log|
      && (s.loop.batch != [] ==> s.loop.next > 0)
      && (forall e :: e in s.loop.batch ==> e in s.log && e.topic == TopicOf(PROJECTORS[s.loop.next - 1]))
      && (forall a, b :: 0 <= a < b < |s.loop.batch| ==> s.loop.batch[a].itemId != s.loop.batch[b].itemId)
      && (forall e :: e in s.loop.batch ==> NotBehind(s, e))
  }

  ghost predicate NotBehind(s: System, e: Event)
    requires s.loop.Running? && 0 < s.loop.next <= |PROJECTORS|
  {
    var slot := Slot(PROJECTORS[s.loop.next - 1], e.itemId);
    Snapshot(slot.group) && slot in s.sources ==> s.sources[slot] <= e.id
  }

  ghost predicate Keyed(c: Codec, log: seq<Event>) {
    Ascending(log) && forall g :: Snapshot(g) ==> SingleItem(c, log, g)
  }

  ghost predicate RegressionInv(c: Codec, s: System) {
    Keyed(c, s.log) && SourcesBacked(c, s) && BatchAhead(s)
  }

  /** The one upsert of a snapshot event, on the row it is filed under. */
  lemma SnapshotWrite(c: Codec, log: seq<Event>, g: Group, e: Event)
    requires e in log && e.topic == TopicOf(g) && Snapshot(g) && SingleItem(c, log, g)
    ensures |EventWrites(c, e)| == if Parses(c, e) then 1 else 0
    ensures Parses(c, e) ==>
              var w := EventWrites(c, e)[0];
              GroupOf(w) == g && KeyOf(w) == e.itemId && EventColumns(c, e, g, e.itemId) == Some(ColumnsOf(w))
  {
    hide EventWrites, TopicOf;
    EventWritesByTopic(c, g, e);
    forall h | TopicOf(h) == TopicOf(g)
      ensures h == g
    {
      TopicsDistinct(h, g);
    }
    if Parses(c, e) {
      assert Decodes(c, g, e);
      var w := EventWrites(c, e)[0];
      assert EventWrites(c, e) == [w] && [w][..0] == [];
      assert LastColumns([w], g, KeyOf(w)) == Some(ColumnsOf(w));
      assert EventColumns(c, e, g, KeyOf(w)).Some?;
      var i :| 0 <= i < |log| && log[i] == e;
    } else {
      assert !Decodes(c, g, e);
    }
  }

  lemma BackedGrows(c: Codec, s: System, e: Event, slot: Slot, id: nat)
    requires Backed(c, s, slot, id)
    ensures Backed(c, s.(log := s.log + [e]), slot, id)
  {
    hide EventWrites, TopicOf;
    var r := s.(log := s.log + [e]);
    var i :| 0 <= i < |s.log| && s.log[i].id == id && Matches(s.log[i], TopicOf(slot.group), slot.key) &&
             EventColumns(c, s.log[i], slot.group, slot.key) == Some(Get(s.model, slot.group, slot.key));
    assert r.log[i] == s.log[i];
  }

  lemma RegressionInsert(c: Codec, s: System, move: Move)
    requires Enabled(c, s, move) && move.Insert? && RegressionInv(c, s) && Keyed(c, s.log + [move.event])
    ensures RegressionInv(c, Next(c, s, move))
  {
    hide EventWrites, TopicOf, Backed;
    var r := Next(c, s, move);
    forall slot | slot in r.sources && Snapshot(slot.group)
      ensures Backed(c, r, slot, r.sources[slot])
    {
      BackedGrows(c, s, move.event, slot, s.sources[slot]);
    }
    if s.loop.Running? {
      forall e | e in s.loop.batch
        ensures NotBehind(r, e)
      {
        assert NotBehind(s, e);
      }
    }
  }

  lemma RegressionQuery(c: Codec, s: System, move: Move)
    requires Enabled(c, s, move) && move.Query? && RegressionInv(c, s)
    ensures RegressionInv(c, Next(c, s, move))
  {
    hide EventWrites, TopicOf, EventColumns, Get, Exists, Keyed, Backed;
    var r := Next(c, s, move);
    var g := PROJECTORS[s.loop.next];
    forall slot | slot in r.sources && Snapshot(slot.group)
      ensures Backed(c, r, slot, r.sources[slot])
    {
      BackedElsewhere(c, s, r, slot, s.sources[slot]);
    }
    forall e | e in move.batch
      ensures e in s.log && e.topic == TopicOf(g) && NotBehind(r, e)
    {
      QueryNotBehind(c, s, g, move.batch, e);
    }
  }

  lemma BackedElsewhere(c: Codec, s: System, r: System, slot: Slot, id: nat)
    requires Backed(c, s, slot, id) && r.log == s.log && r.model == s.model
    ensures Backed(c, r, slot, id)
  {
    hide EventWrites, TopicOf, EventColumns, Get, Exists;
  }

  lemma QueryNotBehind(c: Codec, s: System, g: Group, batch: seq<Event>, e: Event)
    requires Keyed(c, s.log) && SourcesBacked(c, s) && IsBatch(s.log, TopicOf(g), batch) && e in batch
    ensures e in s.log && e.topic == TopicOf(g)
    ensures Snapshot(g) && Slot(g, e.itemId) in s.sources ==> s.sources[Slot(g, e.itemId)] <= e.id
  {
    hide EventWrites, TopicOf, EventColumns, Get, Exists, SingleItem;
    assert Selected(s.log, TopicOf(g), e);
    var j :| 0 <= j < |s.log| && s.log[j] == e && e.topic == TopicOf(g) && IsLatest(s.log, j);
    var slot := Slot(g, e.itemId);
    if Snapshot(g) && slot in s.sources {
      assert Backed(c, s, slot, s.sources[slot]);
      var i :| 0 <= i < |s.log| && s.log[i].id == s.sources[slot] && Matches(s.log[i], TopicOf(g), e.itemId);
      assert i <= j;
    }
  }

  lemma RegressionWrite(c: Codec, s: System, move: Move)
    requires Enabled(c, s, move) && move.WriteItem? && RegressionInv(c, s)
    ensures RegressionInv(c, Next(c, s, move))
    ensures forall slot :: slot in s.sources && Snapshot(slot.group) ==>
              slot in Next(c, s, move).sources && s.sources[slot] <= Next(c, s, move).sources[slot]
  {
    hide EventWrites, TopicOf, Apply, Get, Exists, ColumnsOf, EventColumns, Keyed, Backed;
    var r, e, g := Next(c, s, move), s.loop.batch[0], PROJECTORS[s.loop.next - 1];
    var w := EventWrites(c, e)[s.loop.item];
    WrittenSlot(c, s, g, e, w);
    assert NotBehind(s, e);
    forall slot | slot in r.sources && Snapshot(slot.group)
      ensures Backed(c, r, slot, r.sources[slot])
    {
      BackedAfterWrite(c, s, move, g, e, w, slot);
    }
    forall d | d in r.loop.batch
      ensures NotBehind(r, d)
    {
      assert NotBehind(s, d);
    }
  }

  lemma WrittenSlot(c: Codec, s: System, g: Group, e: Event, w: Write)
    requires Keyed(c, s.log) && e in s.log && e.topic == TopicOf(g) && w in EventWrites(c, e)
    ensures GroupOf(w) == g
    ensures Snapshot(g) ==> KeyOf(w) == e.itemId && EventColumns(c, e, g, e.itemId) == Some(ColumnsOf(w))
  {
    hide EventWrites, TopicOf, ColumnsOf, EventColumns;
    EventWritesByTopic(c, g, e);
    if Snapshot(g) {
      SnapshotWrite(c, s.log, g, e);
    }
  }

  lemma BackedAfterWrite(c: Codec, s: System, move: Move, g: Group, e: Event, w: Write, slot: Slot)
    requires Enabled(c, s, move) && move.WriteItem? && RegressionInv(c, s)
    requires e == s.loop.batch[0] && g == PROJECTORS[s.loop.next - 1] && w == EventWrites(c, e)[s.loop.item]
    requires slot in Next(c, s, move).sources && Snapshot(slot.group)
    ensures Backed(c, Next(c, s, move), slot, Next(c, s, move).sources[slot])
  {
    hide EventWrites, TopicOf, Apply, Get, Exists, ColumnsOf, EventColumns, Keyed;
    WrittenSlot(c, s, g, e, w);
    ApplyLaw(s.model, w);
    if slot == Slot(GroupOf(w), KeyOf(w)) {
      var i :| 0 <= i < |s.log| && s.log[i] == e;
      assert Touches(w, TableOf(slot.group), slot.key);
    } else {
      assert Backed(c, s, slot, s.sources[slot]);
      assert !Sets(w, slot.group, slot.key);
    }
  }

  lemma RegressionOther(c: Codec, s: System, move: Move)
    requires Enabled(c, s, move) && RegressionInv(c, s)
    requires !move.Insert? && !move.Query? && !move.WriteItem?
    ensures RegressionInv(c, Next(c, s, move)) && Next(c, s, move).sources == s.sources
  {
    hide EventWrites, TopicOf, EventColumns, Get, Exists, Keyed;
    var r := Next(c, s, move);
    forall slot | slot in r.sources && Snapshot(slot.group)
      ensures Backed(c, r, slot, r.sources[slot])
    {
      assert Backed(c, s, slot, s.sources[slot]);
    }
    if r.loop.Running? {
      forall e | e in r.loop.batch
        ensures e in s.log && e.topic == TopicOf(PROJECTORS[r.loop.next - 1]) && NotBehind(r, e)
      {
        assert NotBehind(s, e);
      }
    }
  }

  lemma RegressionNext(c: Codec, s: System, move: Move)
    requires Enabled(c, s, move) && RegressionInv(c, s)
    requires move.Insert? ==> Keyed(c, s.log + [move.event])
    ensures RegressionInv(c, Next(c, s, move))
    ensures forall slot :: slot in s.sources && Snapshot(slot.group) ==>
              slot in Next(c, s, move).sources && s.sources[slot] <= Next(c, s, move).sources[slot]
  {
    hide EventWrites, TopicOf, Apply, EventColumns, Get, Exists, Keyed;
    match move
    case Insert(_) => RegressionInsert(c, s, move);
    case Query(_) => RegressionQuery(c, s, move);
    case WriteItem => RegressionWrite(c, s, move);
    case _ => RegressionOther(c, s, move);
  }

  ghost predicate KeyedRun(c: Codec, run: seq<System>) {
    forall i :: 0 <= i < |run| ==> Keyed(c, run[i].log)
  }

  lemma {:induction false} RunRegressionInv(c: Codec, run: seq<System>, moves: seq<Move>, n: nat)
    requires IsRun(c, run, moves) && KeyedRun(c, run) && n < |run|
    ensures RegressionInv(c, run[n])
  {
    hide EventWrites, TopicOf, Keyed;
    if n > 0 {
      RunRegressionInv(c, run, moves, n - 1);
      assert Keyed(c, run[n].log);
      RegressionNext(c, run[n - 1], moves[n - 1]);
    }
  }

  /** Over any interleaving, the connection, state, factsheet and order columns of a row
      never go back to an older event, and they show what the recorded source said. */
  lemma {:induction false} NoRegression(c: Codec, run: seq<System>, moves: seq<Move>, i: nat, j: nat, slot: Slot)
    requires IsRun(c, run, moves) && KeyedRun(c, run) && i <= j < |run|
    requires Snapshot(slot.group) && slot in run[i].sources
    ensures slot in run[j].sources && run[i].sources[slot] <= run[j].sources[slot]
    ensures Backed(c, run[j], slot, run[j].sources[slot])
  {
    hide EventWrites, TopicOf, Keyed, Backed;
    RunRegressionInv(c, run, moves, j);
    if i < j {
      NoRegression(c, run, moves, i, j - 1, slot);
      RunRegressionInv(c, run, moves, j - 1);
      assert Keyed(c, run[j].log);
      RegressionNext(c, run[j - 1], moves[j - 1]);
    }
  }
}
