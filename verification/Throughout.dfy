/** What a column group shows while a cycle runs, move by move, although inserts overtake it:
    what the upserts of its own answer have made of the start. */
module Throughout {
  import opened Wrappers
  import opened EventLog
  import opened ReadModel
  import opened Folds
  import opened Messages
  import opened Projection
  import opened Refinement
  import opened CycleProperties
  import opened Interleaving

  /** A move that goes on with a cycle and does not skip an event of the group. */
  ghost predicate GoesOn(s: System, move: Move, g: Group) {
    move.Insert? || Quiet(move) || (move.SkipEvent? && s.loop.Running? && s.loop.next != Position(g) + 1)
  }

  /** A cycle that began at b and has not ended or been abandoned since, nor skipped an event
      of the group; other groups may fail. */
  ghost predicate InCycle(c: Codec, run: seq<System>, moves: seq<Move>, b: nat, n: nat, g: Group) {
    && IsRun(c, run, moves) && b < n < |run| && moves[b] == BeginCycle
    && forall i :: b < i < n ==> GoesOn(run[i], moves[i], g)
  }

  ghost predicate OwnTopic(s: System) {
    s.loop.Running? ==>
      && s.loop.next <= |PROJECTORS| && (s.loop.batch != [] ==> s.loop.next > 0)
      && forall e :: e in s.loop.batch ==> e.topic == TopicOf(PROJECTORS[s.loop.next - 1])
  }

  lemma {:induction false} RunOwnTopic(c: Codec, run: seq<System>, moves: seq<Move>, n: nat)
    requires IsRun(c, run, moves) && n < |run|
    ensures OwnTopic(run[n])
  {
    hide EventWrites, TopicOf, Apply, Parses;
    if n > 0 {
      RunOwnTopic(c, run, moves, n - 1);
      if moves[n - 1].Query? {
        var s := run[n - 1];
        forall e | e in moves[n - 1].batch
          ensures e.topic == TopicOf(PROJECTORS[s.loop.next])
        {
          assert Selected(s.log, TopicOf(PROJECTORS[s.loop.next]), e);
        }
      }
    }
  }

  /** The upsert under way belongs to the projector under way. */
  lemma WriteGroup(c: Codec, s: System)
    requires OwnTopic(s) && Enabled(c, s, WriteItem)
    ensures s.loop.next > 0 && GroupOf(EventWrites(c, s.loop.batch[0])[s.loop.item]) == PROJECTORS[s.loop.next - 1]
  {
    hide EventWrites, TopicOf;
    EventWritesByTopic(c, PROJECTORS[s.loop.next - 1], s.loop.batch[0]);
  }

  // ---------------------------------------------------------------- one group, upsert by upsert

  /** The columns of a group are what the upserts have made of the start. */
  ghost predicate Follows(m0: Model, ws: seq<Write>, g: Group, m: Model) {
    forall k :: Exists(m0, TableOf(g), k) || LastColumns(ws, g, k).Some? ==>
      Exists(m, TableOf(g), k) &&
      Get(m, g, k) == if LastColumns(ws, g, k).Some? then LastColumns(ws, g, k).value else Get(m0, g, k)
  }

  lemma FollowsStart(m: Model, g: Group)
    ensures Follows(m, [], g, m)
  {
  }

  lemma FollowsWrite(m0: Model, ws: seq<Write>, g: Group, m: Model, w: Write)
    requires Follows(m0, ws, g, m)
    ensures Follows(m0, if GroupOf(w) == g then ws + [w] else ws, g, Apply(m, w))
  {
    hide Apply, Get, Exists, ColumnsOf;
    ApplyLaw(m, w);
    assert (ws + [w])[..|ws|] == ws;
    forall k | Exists(m0, TableOf(g), k) || LastColumns(ws, g, k).Some? || Sets(w, g, k)
      ensures Exists(Apply(m, w), TableOf(g), k)
      ensures !Sets(w, g, k) ==> Get(Apply(m, w), g, k) == Get(m, g, k)
    {
    }
  }

  /** Until a projector makes its query, nothing touches its columns. */
  lemma {:induction false} BeforeAnswer(c: Codec, run: seq<System>, moves: seq<Move>, b: nat, n: nat, g: Group)
    requires InCycle(c, run, moves, b, n, g) && run[n].loop.Running? && run[n].loop.next <= Position(g)
    ensures Follows(run[b].model, [], g, run[n].model)
  {
    hide EventWrites, TopicOf, Apply, Follows, Parses;
    if n == b + 1 {
      FollowsStart(run[b].model, g);
    } else {
      BeforeAnswer(c, run, moves, b, n - 1, g);
      if moves[n - 1].WriteItem? {
        var s := run[n - 1];
        RunOwnTopic(c, run, moves, n - 1);
        WriteGroup(c, s);
        FollowsWrite(run[b].model, [], g, s.model, EventWrites(c, s.loop.batch[0])[s.loop.item]);
      }
    }
  }

  /** The projector's query is the move q of the cycle. */
  ghost predicate AnswersAt(c: Codec, run: seq<System>, moves: seq<Move>, b: nat, q: nat, n: nat, g: Group) {
    InCycle(c, run, moves, b, n, g) && b < q < n && moves[q].Query? && run[q].loop.Running? &&
    run[q].loop.next == Position(g)
  }

  lemma {:induction false} FindAnswer(c: Codec, run: seq<System>, moves: seq<Move>, b: nat, n: nat, g: Group)
      returns (q: nat)
    requires InCycle(c, run, moves, b, n, g) && run[n].loop.Running? && run[n].loop.next > Position(g)
    ensures AnswersAt(c, run, moves, b, q, n, g)
  {
    hide EventWrites, TopicOf, Apply, Parses, IsBatch;
    var s := run[n - 1];
    if moves[n - 1].Query? && s.loop.next == Position(g) {
      q := n - 1;
    } else {
      q := FindAnswer(c, run, moves, b, n - 1, g);
    }
  }

  /** The events of the answer to projector p that are done. */
  ghost function Finished(s: System, p: nat, answer: seq<Event>): seq<Event>
    requires s.loop.Running?
  {
    if s.loop.next == p + 1 && |s.loop.batch| <= |answer| then answer[..|answer| - |s.loop.batch|] else answer
  }

  ghost function Made(c: Codec, s: System, p: nat, answer: seq<Event>): seq<Write>
    requires s.loop.Running?
  {
    Writes(c, Finished(s, p, answer)) + if s.loop.next == p + 1 then Begun(c, s) else []
  }

  /** Where the loop stands in an answer. */
  ghost predicate Within(c: Codec, s: System, p: nat, answer: seq<Event>) {
    && s.loop.Running? && s.loop.next > p
    && (s.loop.batch == [] ==> s.loop.item == 0)
    && (s.loop.batch != [] ==> s.loop.item <= |EventWrites(c, s.loop.batch[0])|)
    && (s.loop.next == p + 1 ==>
          |s.loop.batch| <= |answer| && s.loop.batch == answer[|answer| - |s.loop.batch|..])
  }

  lemma WithinNext(c: Codec, s: System, move: Move, p: nat, answer: seq<Event>)
    requires Within(c, s, p, answer) && Enabled(c, s, move)
    requires move.Insert? || Quiet(move) || (move.SkipEvent? && s.loop.next != p + 1)
    ensures Within(c, Next(c, s, move), p, answer)
  {
    hide EventWrites, TopicOf, Apply, Parses, IsBatch;
  }

  lemma MadeByWrite(c: Codec, s: System, p: nat, answer: seq<Event>)
    requires Within(c, s, p, answer) && Enabled(c, s, WriteItem)
    ensures Made(c, Next(c, s, WriteItem), p, answer) ==
            Made(c, s, p, answer) +
            if s.loop.next == p + 1 then [EventWrites(c, s.loop.batch[0])[s.loop.item]] else []
  {
    hide EventWrites, TopicOf, Apply, Writes;
    var ws, i := EventWrites(c, s.loop.batch[0]), s.loop.item;
    assert ws[..i + 1] == ws[..i] + [ws[i]];
  }

  lemma MadeByNextEvent(c: Codec, s: System, p: nat, answer: seq<Event>)
    requires Within(c, s, p, answer) && Enabled(c, s, NextEvent)
    ensures Made(c, Next(c, s, NextEvent), p, answer) == Made(c, s, p, answer)
  {
    hide EventWrites, TopicOf, Parses;
    var r := Next(c, s, NextEvent);
    if s.loop.next == p + 1 {
      var e, done, more := s.loop.batch[0], Finished(s, p, answer), Finished(r, p, answer);
      assert more == done + [e] && more[..|more| - 1] == done;
      assert Begun(c, s) == EventWrites(c, e) && Begun(c, r) == [];
    }
  }

  lemma MadeByOther(c: Codec, s: System, move: Move, p: nat, answer: seq<Event>)
    requires Within(c, s, p, answer) && Enabled(c, s, move)
    requires move.Insert? || move.Query? || (move.SkipEvent? && s.loop.next != p + 1)
    ensures Made(c, Next(c, s, move), p, answer) == Made(c, s, p, answer)
  {
    hide EventWrites, TopicOf, IsBatch, Writes;
    if move.Query? && s.loop.next == p + 1 {
      assert answer[..|answer|] == answer;
    }
  }

  /** From its query on, a group shows the start overwritten by the upserts made so far. */
  lemma {:induction false} AfterAnswer(c: Codec, run: seq<System>, moves: seq<Move>, b: nat, q: nat, n: nat, g: Group)
    requires AnswersAt(c, run, moves, b, q, n, g)
    ensures Within(c, run[n], Position(g), moves[q].batch)
    ensures Follows(run[b].model, Made(c, run[n], Position(g), moves[q].batch), g, run[n].model)
  {
    hide EventWrites, TopicOf, Apply, Follows, Parses, IsBatch, Made, Within;
    var p, answer, m0 := Position(g), moves[q].batch, run[b].model;
    if n == q + 1 {
      BeforeAnswer(c, run, moves, b, q, g);
      AnswerBegins(c, run[q], moves[q], p);
    } else {
      AfterAnswer(c, run, moves, b, q, n - 1, g);
      var s, move := run[n - 1], moves[n - 1];
      WithinNext(c, s, move, p, answer);
      match move
      case WriteItem =>
        RunOwnTopic(c, run, moves, n - 1);
        WriteGroup(c, s);
        MadeByWrite(c, s, p, answer);
        FollowsWrite(m0, Made(c, s, p, answer), g, s.model, EventWrites(c, s.loop.batch[0])[s.loop.item]);
        assert Made(c, s, p, answer) + [] == Made(c, s, p, answer);
        OneProjector(g, s.loop.next - 1);
      case NextEvent => MadeByNextEvent(c, s, p, answer);
      case _ => MadeByOther(c, s, move, p, answer);
    }
  }

  lemma OneProjector(g: Group, p: nat)
    requires p < |PROJECTORS|
    ensures PROJECTORS[p] == g <==> p == Position(g)
  {
  }

  lemma AnswerBegins(c: Codec, s: System, move: Move, p: nat)
    requires Enabled(c, s, move) && move.Query? && s.loop.next == p
    ensures Within(c, Next(c, s, move), p, move.batch) && Made(c, Next(c, s, move), p, move.batch) == []
    ensures Next(c, s, move).model == s.model
  {
    hide EventWrites, TopicOf, IsBatch;
    assert move.batch[..0] == [];
  }

  // ---------------------------------------------------------------- the end of a cycle

  /** A column group shows what the log says last, for every key that the log names. */
  ghost predicate ShowsNow(c: Codec, log: seq<Event>, g: Group, m: Model) {
    forall k :: Newest(c, log, g, k).Some? ==>
      Exists(m, TableOf(g), k) && Some(Get(m, g, k)) == Newest(c, log, g, k)
  }

  lemma AllMade(c: Codec, s: System, p: nat, answer: seq<Event>)
    requires Within(c, s, p, answer) && s.loop.batch == []
    ensures Made(c, s, p, answer) == Writes(c, answer)
  {
    hide EventWrites, Writes;
    assert answer[..|answer|] == answer;
  }

  lemma {:induction false} LogsGrow(c: Codec, run: seq<System>, moves: seq<Move>, i: nat, j: nat)
    requires IsRun(c, run, moves) && i <= j < |run|
    ensures run[i].log <= run[j].log
  {
    hide EventWrites, TopicOf, Apply, Parses, IsBatch;
    if i < j {
      LogsGrow(c, run, moves, i, j - 1);
    }
  }

  lemma LogUnchanged(c: Codec, run: seq<System>, moves: seq<Move>, b: nat, t: nat, n: nat)
    requires IsRun(c, run, moves) && b <= t <= n < |run| && run[n].log == run[b].log
    ensures run[t].log == run[b].log
  {
    hide EventWrites, TopicOf, Apply, Parses, IsBatch;
    LogsGrow(c, run, moves, b, t);
    LogsGrow(c, run, moves, t, n);
    assert run[t].log == run[b].log[..|run[t].log|];
  }

  /** Following an answer that says what a log says shows that log. */
  lemma FollowedShows(c: Codec, log: seq<Event>, m0: Model, ws: seq<Write>, g: Group, m: Model)
    requires Follows(m0, ws, g, m)
    requires forall k :: LastColumns(ws, g, k) == Newest(c, log, g, k)
    ensures ShowsNow(c, log, g, m)
  {
    hide Newest, LastColumns, Get, Exists;
  }

  /** In a cycle, the projector of a group asks with answers in an order that suits it. */
  ghost predicate AsksInOrder(c: Codec, run: seq<System>, moves: seq<Move>, b: nat, n: nat, g: Group)
    requires n < |run| && |run| == |moves| + 1
  {
    forall q :: b < q < n && moves[q].Query? && run[q].loop.Running? && run[q].loop.next == Position(g) ==>
      Ascending(moves[q].batch) || SingleItem(c, run[q].log, g)
  }

  /** A cycle that skips no event of a group, although inserts keep overtaking it and other
      groups may fail, ends with that column group showing everything that was in the log when
      its own projector asked: in id order for any group, in any order for single-item groups.
      That log contains all that was there when the cycle began. */
  lemma CleanCycleShows(c: Codec, run: seq<System>, moves: seq<Move>, b: nat, n: nat, g: Group) returns (q: nat)
    requires InCycle(c, run, moves, b, n, g) && n < |moves| && moves[n] == EndCycle
    requires AsksInOrder(c, run, moves, b, n, g)
    requires forall i :: b < i < n ==> Ascending(run[i].log) && Settled(c, run[i].log, g)
    ensures AnswersAt(c, run, moves, b, q, n, g) && ShowsNow(c, run[q].log, g, run[n + 1].model)
    ensures run[b].log <= run[q].log <= run[n].log
  {
    hide EventWrites, TopicOf, Apply, IsBatch, Parses, Made, Within, Ascending, SingleItem, Settled, Follows, ShowsNow;
    var p := Position(g);
    assert Enabled(c, run[n], moves[n]) && run[n + 1] == Next(c, run[n], moves[n]);
    q := FindAnswer(c, run, moves, b, n, g);
    AfterAnswer(c, run, moves, b, q, n, g);
    AllMade(c, run[n], p, moves[q].batch);
    assert Enabled(c, run[q], moves[q]) && Settled(c, run[q].log, g);
    forall k
      ensures LastColumns(Writes(c, moves[q].batch), g, k) == Newest(c, run[q].log, g, k)
    {
      BatchNewest(c, run[q].log, g, moves[q].batch, k);
    }
    FollowedShows(c, run[q].log, run[b].model, Writes(c, moves[q].batch), g, run[n].model);
    LogsGrow(c, run, moves, b, q);
    LogsGrow(c, run, moves, q, n);
  }

  // ---------------------------------------------------------------- between two events

  /** With no stale row, a group that shows the newest columns shows them at every event
      boundary of a cycle, whatever the order of the answer. */
  lemma NoStaleThroughout(c: Codec, run: seq<System>, moves: seq<Move>, b: nat, n: nat, g: Group)
    requires InCycle(c, run, moves, b, n, g) && run[n].log == run[b].log && run[n].loop.Running? && run[n].loop.item == 0
    requires ShowsNow(c, run[b].log, g, run[b].model) && NoStale(c, run[b].log, g)
    ensures ShowsNow(c, run[b].log, g, run[n].model)
  {
    hide EventWrites, TopicOf, Apply, IsBatch, Parses, EventColumns, NoStale, ShowsNow, Follows, Within, Made;
    var p, m0, log := Position(g), run[b].model, run[b].log;
    if run[n].loop.next <= p {
      BeforeAnswer(c, run, moves, b, n, g);
      FreshSayings(c, log, g, []);
      FollowedFresh(c, log, m0, [], g, run[n].model);
    } else {
      var q := FindAnswer(c, run, moves, b, n, g);
      var answer := moves[q].batch;
      AfterAnswer(c, run, moves, b, q, n, g);
      LogUnchanged(c, run, moves, b, q, n);
      assert Enabled(c, run[q], moves[q]);
      FinishedIsPart(c, run[n], p, answer);
      NoStaleSayings(c, log, g, answer, Finished(run[n], p, answer));
      FollowedFresh(c, log, m0, Finished(run[n], p, answer), g, run[n].model);
    }
  }

  /** Events that say nothing but what the log says last. */
  ghost predicate SayNewest(c: Codec, log: seq<Event>, g: Group, es: seq<Event>) {
    forall q, k :: 0 <= q < |es| && EventColumns(c, es[q], g, k).Some? ==>
      EventColumns(c, es[q], g, k) == Newest(c, log, g, k)
  }

  lemma FreshSayings(c: Codec, log: seq<Event>, g: Group, es: seq<Event>)
    requires es == []
    ensures SayNewest(c, log, g, es) && Writes(c, es) == []
  {
  }

  lemma FinishedIsPart(c: Codec, s: System, p: nat, answer: seq<Event>)
    requires Within(c, s, p, answer) && s.loop.item == 0
    ensures Finished(s, p, answer) <= answer && Made(c, s, p, answer) == Writes(c, Finished(s, p, answer))
  {
    hide EventWrites, Writes;
  }

  lemma NoStaleSayings(c: Codec, log: seq<Event>, g: Group, answer: seq<Event>, es: seq<Event>)
    requires NoStale(c, log, g) && IsBatch(log, TopicOf(g), answer) && es <= answer
    ensures SayNewest(c, log, g, es)
  {
    hide EventWrites, TopicOf, EventColumns, Newest, IsBatch;
    forall q, k | 0 <= q < |es| && EventColumns(c, es[q], g, k).Some?
      ensures EventColumns(c, es[q], g, k) == Newest(c, log, g, k)
    {
      var r := SelectedRow(log, TopicOf(g), answer, q);
    }
  }

  lemma FollowedFresh(c: Codec, log: seq<Event>, m0: Model, es: seq<Event>, g: Group, m: Model)
    requires Follows(m0, Writes(c, es), g, m) && SayNewest(c, log, g, es) && ShowsNow(c, log, g, m0)
    ensures ShowsNow(c, log, g, m)
  {
    hide EventWrites, TopicOf, EventColumns, Newest, Get, Exists, LastColumns;
    forall k | LastColumns(Writes(c, es), g, k).Some?
      ensures LastColumns(Writes(c, es), g, k) == Newest(c, log, g, k)
    {
      var j := LastNamer(c, es, g, k);
    }
  }

  /** The moment after the event at position x of an answer. */
  lemma {:induction false} FindBoundary(c: Codec, run: seq<System>, moves: seq<Move>, b: nat, q: nat, n: nat, g: Group, x: nat)
      returns (t: nat)
    requires AnswersAt(c, run, moves, b, q, n, g) && x < |moves[q].batch|
    requires Within(c, run[n], Position(g), moves[q].batch)
    requires run[n].loop.next > Position(g) + 1 || |run[n].loop.batch| + x < |moves[q].batch|
    ensures q < t <= n && run[t].loop.Running? && run[t].loop.next == Position(g) + 1 && run[t].loop.item == 0
    ensures |run[t].loop.batch| + x + 1 == |moves[q].batch|
  {
    hide EventWrites, TopicOf, Apply, IsBatch, Parses, Made, Follows;
    var p, answer := Position(g), moves[q].batch;
    var s := run[n - 1];
    if q < n - 1 {
      AfterAnswer(c, run, moves, b, q, n - 1, g);
    }
    if q < n - 1 && (s.loop.next > p + 1 || |s.loop.batch| + x < |answer|) {
      t := FindBoundary(c, run, moves, b, q, n - 1, g, x);
    } else {
      t := n;
    }
  }

  /** A stale row is projected in every cycle, and at the moment after it the outdated columns
      are shown. */
  lemma StaleShown(c: Codec, run: seq<System>, moves: seq<Move>, b: nat, q: nat, n: nat, g: Group) returns (t: nat)
    requires AnswersAt(c, run, moves, b, q, n, g) && !NoStale(c, run[q].log, g)
    requires run[n].loop.Running? && (run[n].loop.next > Position(g) + 1 || run[n].loop.batch == [])
    ensures q < t <= n && run[t].loop.Running? && run[t].loop.item == 0 && !ShowsNow(c, run[q].log, g, run[t].model)
  {
    hide EventWrites, TopicOf, Apply, IsBatch, Parses, EventColumns, Newest, Made, Follows, Within, LastColumns, Get, Exists;
    var p, log, answer := Position(g), run[q].log, moves[q].batch;
    var i, k :| 0 <= i < |log| && log[i].topic == TopicOf(g) && IsLatest(log, i) &&
                EventColumns(c, log[i], g, k).Some? && EventColumns(c, log[i], g, k) != Newest(c, log, g, k);
    assert Enabled(c, run[q], moves[q]);
    var x := AnsweredRow(log, TopicOf(g), answer, i);
    AfterAnswer(c, run, moves, b, q, n, g);
    t := FindBoundary(c, run, moves, b, q, n, g, x);
    AfterAnswer(c, run, moves, b, q, t, g);
    FinishedIsPart(c, run[t], p, answer);
    var done := Finished(run[t], p, answer);
    assert done == answer[..x + 1] && done[x] == log[i];
    LastWord(c, done, g, k, x);
    NamedInLog(c, log, g, k, i);
    FollowedAt(run[b].model, Writes(c, done), g, run[t].model, k);
  }

  lemma AnsweredRow(log: seq<Event>, topic: string, answer: seq<Event>, i: nat) returns (x: nat)
    requires IsBatch(log, topic, answer) && i < |log| && log[i].topic == topic && IsLatest(log, i)
    ensures x < |answer| && answer[x] == log[i]
  {
    assert log[i] in answer;
    x :| 0 <= x < |answer| && answer[x] == log[i];
  }

  lemma NamedInLog(c: Codec, log: seq<Event>, g: Group, k: string, i: nat)
    requires i < |log| && EventColumns(c, log[i], g, k).Some?
    ensures Newest(c, log, g, k).Some?
  {
    hide EventWrites;
    NoWord(c, log, g, k);
  }

  lemma FollowedAt(m0: Model, ws: seq<Write>, g: Group, m: Model, k: string)
    requires Follows(m0, ws, g, m) && LastColumns(ws, g, k).Some?
    ensures Exists(m, TableOf(g), k) && Some(Get(m, g, k)) == LastColumns(ws, g, k)
  {
  }

  /** No regression of a group within a cycle, exactly: from newest columns, an undisturbed
      cycle shows them at every event boundary if and only if no latest row is stale. The
      order of the answers plays no part. */
  lemma ThroughoutIffNoStale(c: Codec, run: seq<System>, moves: seq<Move>, b: nat, n: nat, g: Group)
    requires InCycle(c, run, moves, b, n, g) && n < |moves| && moves[n] == EndCycle && run[n].log == run[b].log
    requires ShowsNow(c, run[b].log, g, run[b].model)
    ensures (forall t :: b < t <= n && run[t].loop.Running? && run[t].loop.item == 0 ==>
               ShowsNow(c, run[b].log, g, run[t].model)) <==>
            NoStale(c, run[b].log, g)
  {
    hide EventWrites, TopicOf, Apply, IsBatch, Parses, ShowsNow, NoStale;
    var log := run[b].log;
    if NoStale(c, log, g) {
      forall t | b < t <= n && run[t].loop.Running? && run[t].loop.item == 0
        ensures ShowsNow(c, log, g, run[t].model)
      {
        LogUnchanged(c, run, moves, b, t, n);
        NoStaleThroughout(c, run, moves, b, t, g);
      }
    } else {
      assert Enabled(c, run[n], moves[n]);
      var q := FindAnswer(c, run, moves, b, n, g);
      LogUnchanged(c, run, moves, b, q, n);
      var t := StaleShown(c, run, moves, b, q, n, g);
    }
  }

  // ---------------------------------------------------------------- between two upserts

  /** Upserts of a group that say nothing but what the log says last. */
  ghost predicate WriteNewest(c: Codec, log: seq<Event>, g: Group, ws: seq<Write>) {
    forall w :: w in ws && GroupOf(w) == g ==> Some(ColumnsOf(w)) == Newest(c, log, g, KeyOf(w))
  }

  /** No single upsert of a latest row is outdated, not even one that the same message
      overwrites. */
  ghost predicate NoStaleWrite(c: Codec, log: seq<Event>, g: Group) {
    forall i :: 0 <= i < |log| && log[i].topic == TopicOf(g) && IsLatest(log, i) ==>
      WriteNewest(c, log, g, EventWrites(c, log[i]))
  }

  lemma FollowedNewest(c: Codec, log: seq<Event>, m0: Model, ws: seq<Write>, g: Group, m: Model)
    requires Follows(m0, ws, g, m) && WriteNewest(c, log, g, ws) && ShowsNow(c, log, g, m0)
    ensures ShowsNow(c, log, g, m)
  {
    hide EventWrites, TopicOf, Newest, Get, Exists, LastColumns, ColumnsOf;
    forall k | LastColumns(ws, g, k).Some?
      ensures LastColumns(ws, g, k) == Newest(c, log, g, k)
    {
      var w := LastColumnsFrom(ws, g, k);
      assert Sets(w, g, k);
    }
  }

  /** Every upsert made so far is one of a latest row. */
  lemma MadeNewest(c: Codec, log: seq<Event>, s: System, g: Group, answer: seq<Event>)
    requires NoStaleWrite(c, log, g) && IsBatch(log, TopicOf(g), answer) && Within(c, s, Position(g), answer)
    ensures WriteNewest(c, log, g, Made(c, s, Position(g), answer))
  {
    hide EventWrites, TopicOf, Newest, ColumnsOf, IsBatch;
    var done := Finished(s, Position(g), answer);
    forall w | w in Made(c, s, Position(g), answer) && GroupOf(w) == g
      ensures Some(ColumnsOf(w)) == Newest(c, log, g, KeyOf(w))
    {
      var x: nat;
      if w in Writes(c, done) {
        WritesSource(c, done, w);
        x :| 0 <= x < |done| && w in EventWrites(c, done[x]);
      } else {
        x := |answer| - |s.loop.batch|;
        assert w in EventWrites(c, answer[x]);
      }
      var r := SelectedRow(log, TopicOf(g), answer, x);
      assert WriteNewest(c, log, g, EventWrites(c, log[r]));
    }
  }

  lemma NoStaleWriteThroughout(c: Codec, run: seq<System>, moves: seq<Move>, b: nat, n: nat, g: Group)
    requires InCycle(c, run, moves, b, n, g) && run[n].log == run[b].log && run[n].loop.Running?
    requires ShowsNow(c, run[b].log, g, run[b].model) && NoStaleWrite(c, run[b].log, g)
    ensures ShowsNow(c, run[b].log, g, run[n].model)
  {
    hide EventWrites, TopicOf, Apply, IsBatch, Parses, NoStaleWrite, ShowsNow, Follows, Within, Made;
    var p, m0, log := Position(g), run[b].model, run[b].log;
    if run[n].loop.next <= p {
      BeforeAnswer(c, run, moves, b, n, g);
      FollowedNewest(c, log, m0, [], g, run[n].model);
    } else {
      var q := FindAnswer(c, run, moves, b, n, g);
      AfterAnswer(c, run, moves, b, q, n, g);
      LogUnchanged(c, run, moves, b, q, n);
      assert Enabled(c, run[q], moves[q]);
      MadeNewest(c, log, run[n], g, moves[q].batch);
      FollowedNewest(c, log, m0, Made(c, run[n], p, moves[q].batch), g, run[n].model);
    }
  }

  /** The loop has made upsert y of the event at position x of its answer. */
  ghost predicate Past(s: System, p: nat, answer: seq<Event>, x: nat, y: nat) {
    s.loop.Running? && s.loop.next > p &&
    (s.loop.next > p + 1 || |s.loop.batch| + x < |answer| || (|s.loop.batch| + x == |answer| && s.loop.item > y))
  }

  /** The moment after that upsert. */
  lemma {:induction false} FindUpsert(c: Codec, run: seq<System>, moves: seq<Move>, b: nat, q: nat, n: nat, g: Group,
                                      x: nat, y: nat) returns (t: nat)
    requires AnswersAt(c, run, moves, b, q, n, g) && x < |moves[q].batch|
    requires y < |EventWrites(c, moves[q].batch[x])| && Past(run[n], Position(g), moves[q].batch, x, y)
    ensures q < t <= n && run[t].loop.Running? && run[t].loop.next == Position(g) + 1 && run[t].loop.item == y + 1
    ensures |run[t].loop.batch| + x == |moves[q].batch|
  {
    hide EventWrites, TopicOf, Apply, IsBatch, Parses, Made, Follows;
    var p, answer := Position(g), moves[q].batch;
    if q < n - 1 {
      AfterAnswer(c, run, moves, b, q, n - 1, g);
      if Past(run[n - 1], p, answer, x, y) {
        t := FindUpsert(c, run, moves, b, q, n - 1, g, x, y);
        return;
      }
    }
    t := n;
  }

  /** An outdated upsert is made in every cycle, and at the moment after it it shows. */
  lemma StaleWriteShown(c: Codec, run: seq<System>, moves: seq<Move>, b: nat, q: nat, n: nat, g: Group) returns (t: nat)
    requires AnswersAt(c, run, moves, b, q, n, g) && !NoStaleWrite(c, run[q].log, g)
    requires run[n].loop.Running? && (run[n].loop.next > Position(g) + 1 || run[n].loop.batch == [])
    ensures q < t <= n && run[t].loop.Running? && !ShowsNow(c, run[q].log, g, run[t].model)
  {
    hide EventWrites, TopicOf, Apply, IsBatch, Parses, Newest, Made, Follows, Within, LastColumns, Get, Exists, ColumnsOf;
    var p, log, answer := Position(g), run[q].log, moves[q].batch;
    var i :| 0 <= i < |log| && log[i].topic == TopicOf(g) && IsLatest(log, i) &&
             !WriteNewest(c, log, g, EventWrites(c, log[i]));
    assert Enabled(c, run[q], moves[q]);
    var x := AnsweredRow(log, TopicOf(g), answer, i);
    var ws := EventWrites(c, log[i]);
    var y :| 0 <= y < |ws| && GroupOf(ws[y]) == g && Some(ColumnsOf(ws[y])) != Newest(c, log, g, KeyOf(ws[y]));
    AfterAnswer(c, run, moves, b, q, n, g);
    NextGrows(c, run, moves, b, q, n, g);
    t := FindUpsert(c, run, moves, b, q, n, g, x, y);
    AfterAnswer(c, run, moves, b, q, t, g);
    MadeUpTo(c, run[t], p, answer, x, y);
    NamedByWrite(c, log, g, i, ws[y]);
    FollowedAt(run[b].model, Made(c, run[t], p, answer), g, run[t].model, KeyOf(ws[y]));
  }

  /** Once a projector has asked, the loop is at its answer or beyond. */
  lemma NextGrows(c: Codec, run: seq<System>, moves: seq<Move>, b: nat, q: nat, n: nat, g: Group)
    requires AnswersAt(c, run, moves, b, q, n, g)
    ensures run[n].loop.Running? && run[n].loop.next > Position(g)
  {
    hide Made, Follows, EventWrites;
    AfterAnswer(c, run, moves, b, q, n, g);
  }

  lemma MadeUpTo(c: Codec, s: System, p: nat, answer: seq<Event>, x: nat, y: nat)
    requires Within(c, s, p, answer) && s.loop.next == p + 1 && |s.loop.batch| + x == |answer| && s.loop.item == y + 1
    requires x < |answer| && y < |EventWrites(c, answer[x])|
    ensures var ws := Made(c, s, p, answer);
            var w := EventWrites(c, answer[x])[y];
            LastColumns(ws, GroupOf(w), KeyOf(w)) == Some(ColumnsOf(w))
  {
    hide EventWrites, Writes, ColumnsOf;
    var ws, upserts := Made(c, s, p, answer), EventWrites(c, answer[x]);
    assert s.loop.batch[0] == answer[x];
    assert ws == Writes(c, answer[..x]) + upserts[..y + 1];
    assert ws[|ws| - 1] == upserts[y];
  }

  lemma NamedByWrite(c: Codec, log: seq<Event>, g: Group, i: nat, w: Write)
    requires i < |log| && w in EventWrites(c, log[i]) && GroupOf(w) == g
    ensures Newest(c, log, g, KeyOf(w)).Some?
  {
    hide EventWrites;
    assert Sets(w, g, KeyOf(w));
    LastColumnsSome(EventWrites(c, log[i]), g, KeyOf(w));
    NamedInLog(c, log, g, KeyOf(w), i);
  }

  /** No regression of a group within a cycle, as a reader sees it who may look at the tables
      between any two upserts: from newest columns, an undisturbed cycle shows them at every
      move if and only if no single upsert of a latest row is outdated. */
  lemma ThroughoutIffNoStaleWrite(c: Codec, run: seq<System>, moves: seq<Move>, b: nat, n: nat, g: Group)
    requires InCycle(c, run, moves, b, n, g) && n < |moves| && moves[n] == EndCycle && run[n].log == run[b].log
    requires ShowsNow(c, run[b].log, g, run[b].model)
    ensures (forall t :: b < t <= n && run[t].loop.Running? ==> ShowsNow(c, run[b].log, g, run[t].model)) <==>
            NoStaleWrite(c, run[b].log, g)
  {
    hide EventWrites, TopicOf, Apply, IsBatch, Parses, ShowsNow, NoStaleWrite;
    var log := run[b].log;
    if NoStaleWrite(c, log, g) {
      forall t | b < t <= n && run[t].loop.Running?
        ensures ShowsNow(c, log, g, run[t].model)
      {
        LogUnchanged(c, run, moves, b, t, n);
        NoStaleWriteThroughout(c, run, moves, b, t, g);
      }
    } else {
      assert Enabled(c, run[n], moves[n]);
      var q := FindAnswer(c, run, moves, b, n, g);
      LogUnchanged(c, run, moves, b, q, n);
      var t := StaleWriteShown(c, run, moves, b, q, n, g);
    }
  }
}
