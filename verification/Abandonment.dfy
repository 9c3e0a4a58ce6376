/** A cycle that is abandoned between two events, or between two upserts. The next full cycle
    repairs what it leaves behind, and this is exactly when there is something to repair. */
module Abandonment {
  import opened Wrappers
  import opened EventLog
  import opened ReadModel
  import opened Folds
  import opened Messages
  import opened Projection
  import opened Refinement
  import opened CycleProperties
  import opened Interleaving
  import opened Throughout

  /** From the given log and tables, one cycle that is abandoned. */
  ghost predicate CutShort(c: Codec, log: seq<Event>, m: Model, run: seq<System>, moves: seq<Move>, g: Group) {
    && |moves| > 1 && InCycle(c, run, moves, 0, |moves| - 1, g) && run[0].log == log && run[0].model == m
    && moves[|moves| - 1] == Abandon
    && var s := run[|moves| - 1]; s.log == log && s.loop.Running?
  }

  /** It is abandoned between two events. */
  ghost predicate BetweenEvents(run: seq<System>, moves: seq<Move>) {
    |run| == |moves| + 1 && |moves| > 0 && run[|moves| - 1].loop.Running? && run[|moves| - 1].loop.item == 0
  }

  // ---------------------------------------------------------------- every cycle can go on

  ghost predicate AtRest(c: Codec, s: System) {
    s.loop.Running? && if s.loop.batch == [] then s.loop.item == 0 else s.loop.item <= |EventWrites(c, s.loop.batch[0])|
  }

  /** A run of one undisturbed cycle so far, over an unchanging log. */
  ghost predicate Going(c: Codec, run: seq<System>, moves: seq<Move>) {
    |moves| > 0 && IsRun(c, run, moves) && moves[0] == BeginCycle && (forall i :: 0 < i < |moves| ==> Quiet(moves[i])) &&
    run[|moves|].log == run[0].log && AtRest(c, run[|moves|])
  }

  lemma GoOn(c: Codec, run: seq<System>, moves: seq<Move>, move: Move) returns (r: seq<System>, ms: seq<Move>)
    requires Going(c, run, moves) && Quiet(move) && Enabled(c, run[|moves|], move)
    ensures Going(c, r, ms) && r[0] == run[0] && r[|ms|] == Next(c, run[|moves|], move)
  {
    hide EventWrites, TopicOf, Apply, IsBatch, Parses;
    r, ms := run + [Next(c, run[|moves|], move)], moves + [move];
    forall i | 0 <= i < |ms|
      ensures Enabled(c, r[i], ms[i]) && r[i + 1] == Next(c, r[i], ms[i])
    {
      if i < |moves| {
        assert Enabled(c, run[i], moves[i]) && run[i + 1] == Next(c, run[i], moves[i]);
      }
    }
  }

  /** The rest of an answer can be projected. */
  lemma {:induction false} Drain(c: Codec, run: seq<System>, moves: seq<Move>) returns (r: seq<System>, ms: seq<Move>)
    requires Going(c, run, moves)
    ensures Going(c, r, ms) && r[0] == run[0]
    ensures r[|ms|].loop.batch == [] && r[|ms|].loop.next == run[|moves|].loop.next
    decreases |run[|moves|].loop.batch|,
              if run[|moves|].loop.batch == [] then 0
              else |EventWrites(c, run[|moves|].loop.batch[0])| - run[|moves|].loop.item
  {
    hide EventWrites, TopicOf, Apply, IsBatch, Parses;
    var s := run[|moves|];
    if s.loop.batch == [] {
      r, ms := run, moves;
    } else {
      r, ms := GoOn(c, run, moves, if s.loop.item < |EventWrites(c, s.loop.batch[0])| then WriteItem else NextEvent);
      r, ms := Drain(c, r, ms);
    }
  }

  /** From any log and tables, a cycle can run until p projectors are done. */
  lemma {:induction false} RunTo(c: Codec, log: seq<Event>, m: Model, p: nat) returns (run: seq<System>, moves: seq<Move>)
    requires Ascending(log) && p <= |PROJECTORS|
    ensures Going(c, run, moves) && run[0].log == log && run[0].model == m
    ensures run[|moves|].loop.next == p && run[|moves|].loop.batch == []
  {
    hide EventWrites, TopicOf, Apply, IsBatch, Parses, Ascending;
    if p == 0 {
      var s := System(log, m, Idle, map[]);
      run, moves := [s, Next(c, s, BeginCycle)], [BeginCycle];
    } else {
      run, moves := RunTo(c, log, m, p - 1);
      run, moves := GoOn(c, run, moves, Query(LatestInOrder(log, TopicOf(PROJECTORS[p - 1]))));
      run, moves := Drain(c, run, moves);
    }
  }

  // ---------------------------------------------------------------- what an abandoned cycle leaves

  lemma CutAt(c: Codec, run: seq<System>, moves: seq<Move>, t: nat, g: Group) returns (r: seq<System>, ms: seq<Move>)
    requires InCycle(c, run, moves, 0, |moves|, g) && 0 < t <= |moves| && run[t].log == run[0].log
    requires run[t].loop.Running?
    ensures CutShort(c, run[0].log, run[0].model, r, ms, g) && r[|ms|].model == run[t].model
    ensures BetweenEvents(r, ms) <==> run[t].loop.item == 0
  {
    hide EventWrites, TopicOf, Apply, IsBatch, Parses;
    r, ms := run[..t + 1] + [Next(c, run[t], Abandon)], moves[..t] + [Abandon];
    forall i | 0 <= i < |ms|
      ensures Enabled(c, r[i], ms[i]) && r[i + 1] == Next(c, r[i], ms[i])
    {
      if i < t {
        assert Enabled(c, run[i], moves[i]) && run[i + 1] == Next(c, run[i], moves[i]);
      }
    }
  }

  /** From newest columns, a cycle that is abandoned between two events can leave a group
      showing outdated ones if and only if some latest row of its topic is stale. */
  lemma OutdatedIffStale(c: Codec, log: seq<Event>, m: Model, g: Group)
    requires Ascending(log) && ShowsNow(c, log, g, m)
    ensures (exists run: seq<System>, moves: seq<Move> ::
               CutShort(c, log, m, run, moves, g) && BetweenEvents(run, moves) &&
               !ShowsNow(c, log, g, run[|moves|].model)) <==>
            !NoStale(c, log, g)
  {
    hide EventWrites, TopicOf, Apply, IsBatch, Parses, ShowsNow, NoStale, Ascending;
    if NoStale(c, log, g) {
      forall run: seq<System>, moves: seq<Move> | CutShort(c, log, m, run, moves, g) && BetweenEvents(run, moves)
        ensures ShowsNow(c, log, g, run[|moves|].model)
      {
        var n := |moves| - 1;
        assert Enabled(c, run[n], moves[n]) && run[n + 1] == Next(c, run[n], moves[n]);
        NoStaleThroughout(c, run, moves, 0, n, g);
      }
    } else {
      var run, moves := RunTo(c, log, m, Position(g) + 1);
      var q := FindAnswer(c, run, moves, 0, |moves|, g);
      LogUnchanged(c, run, moves, 0, q, |moves|);
      var t := StaleShown(c, run, moves, 0, q, |moves|, g);
      LogUnchanged(c, run, moves, 0, t, |moves|);
      var r, ms := CutAt(c, run, moves, t, g);
    }
  }

  /** A cycle that is abandoned anywhere, between two upserts of a message included, can leave
      outdated columns if and only if some single upsert of a latest row is outdated. */
  lemma OutdatedIffStaleWrite(c: Codec, log: seq<Event>, m: Model, g: Group)
    requires Ascending(log) && ShowsNow(c, log, g, m)
    ensures (exists run: seq<System>, moves: seq<Move> ::
               CutShort(c, log, m, run, moves, g) && !ShowsNow(c, log, g, run[|moves|].model)) <==>
            !NoStaleWrite(c, log, g)
  {
    hide EventWrites, TopicOf, Apply, IsBatch, Parses, ShowsNow, NoStaleWrite, Ascending;
    if NoStaleWrite(c, log, g) {
      forall run: seq<System>, moves: seq<Move> | CutShort(c, log, m, run, moves, g)
        ensures ShowsNow(c, log, g, run[|moves|].model)
      {
        var n := |moves| - 1;
        assert Enabled(c, run[n], moves[n]) && run[n + 1] == Next(c, run[n], moves[n]);
        NoStaleWriteThroughout(c, run, moves, 0, n, g);
      }
    } else {
      var run, moves := RunTo(c, log, m, Position(g) + 1);
      var q := FindAnswer(c, run, moves, 0, |moves|, g);
      LogUnchanged(c, run, moves, 0, q, |moves|);
      var t := StaleWriteShown(c, run, moves, 0, q, |moves|, g);
      LogUnchanged(c, run, moves, 0, t, |moves|);
      var r, ms := CutAt(c, run, moves, t, g);
    }
  }

  /** Columns stay as they are, outdated or not, until their own projector writes again. */
  lemma {:induction false} KeptUntilProjected(c: Codec, run: seq<System>, moves: seq<Move>, i: nat, j: nat, g: Group)
    requires IsRun(c, run, moves) && i <= j < |run|
    requires forall x :: i <= x < j && moves[x].WriteItem? ==> run[x].loop.Running? && run[x].loop.next != Position(g) + 1
    ensures forall k :: Exists(run[i].model, TableOf(g), k) ==>
              Exists(run[j].model, TableOf(g), k) && Get(run[j].model, g, k) == Get(run[i].model, g, k)
  {
    hide EventWrites, TopicOf, Apply, IsBatch, Parses, Exists, Get;
    if i < j {
      KeptUntilProjected(c, run, moves, i, j - 1, g);
      if moves[j - 1].WriteItem? {
        var s := run[j - 1];
        RunOwnTopic(c, run, moves, j - 1);
        WriteGroup(c, s);
        OneProjector(g, s.loop.next - 1);
        ApplyLaw(s.model, EventWrites(c, s.loop.batch[0])[s.loop.item]);
      }
    }
  }

  /** The next cycle that nothing disturbs repairs them. */
  lemma NextCycleRepairs(c: Codec, run: seq<System>, moves: seq<Move>, b: nat, n: nat, g: Group)
    requires InCycle(c, run, moves, b, n, g) && n < |moves| && moves[n] == EndCycle && run[n].log == run[b].log
    requires Ascending(run[b].log) && Settled(c, run[b].log, g) && AsksInOrder(c, run, moves, b, n, g)
    ensures ShowsNow(c, run[b].log, g, run[n + 1].model)
  {
    hide EventWrites, TopicOf, Apply, IsBatch, Parses, Settled, Ascending, ShowsNow;
    forall i | b < i < n
      ensures run[i].log == run[b].log
    {
      LogUnchanged(c, run, moves, b, i, n);
    }
    var q := CleanCycleShows(c, run, moves, b, n, g);
  }
}
