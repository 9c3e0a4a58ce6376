/** The whole pipeline: messages recorded by any interleaving of the callback threads, some of
    them cut short, and a projection loop that reads the log while it grows. For the robots
    and orders tables, nothing is asked of the recording; for the instant actions table,
    exactly that what the cut messages lost is covered. */
module Pipeline {
  import opened Wrappers
  import opened EventLog
  import opened ReadModel
  import opened Messages
  import opened Projection
  import opened Refinement
  import opened Recorder
  import R = RecorderRuns
  import opened Interleaving
  import opened Freshness
  import opened Throughout
  import opened Undisturbed
  import opened Guarantees
  import opened RowTimes

  /** A run of the loop over a log that a run of the recorder has produced. */
  ghost predicate Fed(c: Codec, a: string, recordings: seq<R.Recording>, steps: seq<R.Step>, run: seq<System>,
                      moves: seq<Move>) {
    && RoundTrips(c) && ActionsTopicAllowed(a)
    && R.IsRun(c, a, recordings, steps) && IsRun(c, run, moves)
    && exists r :: 0 <= r < |recordings| && recordings[r].log == run[|moves|].log
  }

  /** Every prefix of a recorded log was the log at some earlier moment. */
  lemma {:induction false} PrefixRecorded(c: Codec, a: string, recordings: seq<R.Recording>, steps: seq<R.Step>, r: nat,
                                          n: nat) returns (e: nat)
    requires R.IsRun(c, a, recordings, steps) && r < |recordings| && n <= |recordings[r].log|
    ensures e <= r && recordings[e].log == recordings[r].log[..n]
  {
    hide Filed, ItemsOf, TopicOfMessage;
    if n == |recordings[r].log| {
      e := r;
    } else {
      assert recordings[r] == R.Next(c, a, recordings[r - 1], steps[r - 1]);
      assert recordings[r - 1].log == recordings[r].log[..|recordings[r - 1].log|];
      e := PrefixRecorded(c, a, recordings, steps, r - 1, n);
    }
  }

  lemma FedLog(c: Codec, a: string, recordings: seq<R.Recording>, steps: seq<R.Step>, run: seq<System>,
               moves: seq<Move>, i: nat) returns (r: nat)
    requires Fed(c, a, recordings, steps, run, moves) && i < |run|
    ensures r < |recordings| && recordings[r].log == run[i].log
  {
    hide R.IsRun, RoundTrips, Enabled, Next;
    var last :| 0 <= last < |recordings| && recordings[last].log == run[|moves|].log;
    LastOfRun(c, run, moves, i);
    r := PrefixRecorded(c, a, recordings, steps, last, |run[i].log|);
    assert run[|moves|].log[..|run[i].log|] == run[i].log;
  }

  lemma LastOfRun(c: Codec, run: seq<System>, moves: seq<Move>, i: nat)
    requires IsRun(c, run, moves) && i < |run|
    ensures |run| == |moves| + 1 && run[i].log <= run[|moves|].log
  {
    LogsGrow(c, run, moves, i, |moves|);
  }

  /** At every moment of the run the log ascends, its robot ids are composed, and its
      single-item topics are single-item and settled, whatever was cut short. */
  lemma FedKeyed(c: Codec, a: string, recordings: seq<R.Recording>, steps: seq<R.Step>, run: seq<System>,
                 moves: seq<Move>)
    requires Fed(c, a, recordings, steps, run, moves)
    ensures forall i :: 0 <= i < |run| ==> Ascending(run[i].log) && RobotIdsComposed(run[i].log)
    ensures forall i, g :: 0 <= i < |run| && Snapshot(g) ==> SingleItem(c, run[i].log, g) && Settled(c, run[i].log, g)
    ensures KeyedRun(c, run)
  {
    hide R.IsRun, RoundTrips, IsRun, SingleItem, Settled, Ascending, RobotIdsComposed;
    forall i | 0 <= i < |run|
      ensures Ascending(run[i].log) && RobotIdsComposed(run[i].log)
      ensures forall g :: Snapshot(g) ==> SingleItem(c, run[i].log, g) && Settled(c, run[i].log, g)
    {
      var r := FedLog(c, a, recordings, steps, run, moves, i);
      R.RecordedLogs(c, a, recordings, steps, r);
      RecordedIds(c, a, recordings, steps, r);
    }
  }

  /** A topic from which nothing can be lost, or has been lost that is not covered. */
  ghost predicate Safe(c: Codec, a: string, recordings: seq<R.Recording>, log: seq<Event>, g: Group) {
    Snapshot(g) || (g == Action && a != INSTANT_ACTIONS_TOPIC) ||
    exists r :: 0 <= r < |recordings| && recordings[r].log == log && R.LossCovered(c, a, recordings[r], g)
  }

  /** At every moment, a topic is settled if and only if it is safe. */
  lemma SafeIffSettled(c: Codec, a: string, recordings: seq<R.Recording>, steps: seq<R.Step>, run: seq<System>,
                       moves: seq<Move>, i: nat, g: Group)
    requires Fed(c, a, recordings, steps, run, moves) && i < |run|
    ensures Safe(c, a, recordings, run[i].log, g) <==> Settled(c, run[i].log, g)
  {
    hide R.IsRun, RoundTrips, IsRun, Settled, R.LossCovered;
    var r := FedLog(c, a, recordings, steps, run, moves, i);
    R.RecordedLogs(c, a, recordings, steps, r);
    R.SettledIffLossCovered(c, a, recordings, steps, r, g);
    forall e | 0 <= e < |recordings| && recordings[e].log == run[i].log
      ensures R.LossCovered(c, a, recordings[e], g) <==> Settled(c, run[i].log, g)
    {
      R.SettledIffLossCovered(c, a, recordings, steps, e, g);
    }
  }

  lemma RecordedIds(c: Codec, a: string, recordings: seq<R.Recording>, steps: seq<R.Step>, r: nat)
    requires RoundTrips(c) && ActionsTopicAllowed(a) && R.IsRun(c, a, recordings, steps)
    requires r < |recordings|
    ensures RobotIdsComposed(recordings[r].log)
  {
    hide R.IsRun, RoundTrips;
    R.RunInv(c, a, recordings, steps, r);
    forall e | e in recordings[r].log
      ensures e.robotId == e.manufacturer + "." + e.serialNumber
    {
      assert R.IsFiled(c, a, e);
    }
  }

  /** A cycle that nothing disturbs shows in a table what replaying the whole log shows,
      whatever ran before and whatever is half recorded or cut short: in the robots and orders
      tables for any order of its answers, in the instant actions table for answers in id
      order from safe topics. */
  lemma PipelineShowsReplay(c: Codec, a: string, recordings: seq<R.Recording>, steps: seq<R.Step>, run: seq<System>,
                            moves: seq<Move>, b: nat, n: nat, t: Table)
    requires Fed(c, a, recordings, steps, run, moves) && b < n < |moves|
    requires moves[b] == BeginCycle && moves[n] == EndCycle && forall i :: b < i < n ==> Quiet(moves[i])
    requires t == InstantActions ==> OrderedQueries(run, moves, b, n)
    requires forall g :: TableOf(g) == t ==> Safe(c, a, recordings, run[b].log, g)
    ensures SameTable(c, run[b].log, run[0].model, run[n + 1].model, Replay(c, run[0].model, run[b].log), t)
  {
    hide EventWrites, TopicOf, IsBatch, Cycle, SingleItem, Ascending, SameTable, R.IsRun, RoundTrips, Settled, Safe;
    FedKeyed(c, a, recordings, steps, run, moves);
    var plan := QuietCycle(c, run, moves, b, n);
    forall g | TableOf(g) == t
      ensures Settled(c, run[b].log, g) && GoodAnswer(c, run[b].log, plan, g)
    {
      SafeIffSettled(c, a, recordings, steps, run, moves, b, g);
      if Snapshot(g) {
        assert SingleItem(c, run[b].log, g);
      } else {
        assert Ordered(PROJECTORS[Position(g)], plan[Position(g)]);
      }
    }
    assert Trusted(c, run[b].log, plan, t);
    TableRestartSafe(c, run, moves, b, plan, plan, t);
  }

  /** For the robots and orders tables that is all recordings, all orders and all cuts. */
  lemma RobotsAndOrdersShowReplay(c: Codec, a: string, recordings: seq<R.Recording>, steps: seq<R.Step>,
                                  run: seq<System>, moves: seq<Move>, b: nat, n: nat, t: Table)
    requires Fed(c, a, recordings, steps, run, moves) && b < n < |moves| && t != InstantActions
    requires moves[b] == BeginCycle && moves[n] == EndCycle && forall i :: b < i < n ==> Quiet(moves[i])
    ensures SameTable(c, run[b].log, run[0].model, run[n + 1].model, Replay(c, run[0].model, run[b].log), t)
  {
    hide EventWrites, TopicOf, IsBatch, SameTable, R.IsRun, RoundTrips;
    forall g | TableOf(g) == t
      ensures Safe(c, a, recordings, run[b].log, g)
    {
      assert Snapshot(g);
    }
    PipelineShowsReplay(c, a, recordings, steps, run, moves, b, n, t);
  }

  /** The times that such a cycle leaves, from the recorded log alone. A robot row was last
      updated when its newest factsheet was received, although its newest state may be newer;
      without a factsheet, when its newest state was; without either, its newest connection. A
      row that the cycle inserts was created when its newest connection was received, else its
      newest state, else its newest factsheet. An order row has the time of its newest order. */
  lemma PipelineTimes(c: Codec, a: string, recordings: seq<R.Recording>, steps: seq<R.Step>, run: seq<System>,
                      moves: seq<Move>, b: nat, n: nat, k: string)
    requires Fed(c, a, recordings, steps, run, moves) && b < n < |moves|
    requires moves[b] == BeginCycle && moves[n] == EndCycle && forall i :: b < i < n ==> Quiet(moves[i])
    ensures var connection, state, factsheet := NewestTime(run[b].log, "connection", k),
                                                NewestTime(run[b].log, "state", k),
                                                NewestTime(run[b].log, "factsheet", k);
            Timed(run[b].model, run[n + 1].model, Robots, k, Else(connection, Else(state, factsheet)),
                  Else(factsheet, Else(state, connection)))
    ensures var order := NewestTime(run[b].log, "order", k);
            Timed(run[b].model, run[n + 1].model, Orders, k, order, order)
  {
    hide EventWrites, TopicOf, IsBatch, Cycle, SingleItem, Ascending, R.IsRun, RoundTrips, Settled, Timed, SelfNaming,
      LatestDecode, IsPlan, NewestTime;
    var r := FedLog(c, a, recordings, steps, run, moves, b);
    R.RecordedLogs(c, a, recordings, steps, r);
    var plan := QuietCycle(c, run, moves, b, n);
    RobotTimesFromLog(c, run[b].log, run[b].model, plan, k);
  }

  /** The exact condition on the recording: at every moment, with answers in id order, one
      cycle over the log shows in a table, from every start, what full replay shows, if and
      only if the table's topics are safe. */
  lemma ReplayIffSafe(c: Codec, a: string, recordings: seq<R.Recording>, steps: seq<R.Step>, run: seq<System>,
                      moves: seq<Move>, i: nat, plan: seq<seq<Event>>, t: Table)
    requires Fed(c, a, recordings, steps, run, moves) && i < |run| && IsPlan(run[i].log, plan)
    requires forall g :: TableOf(g) == t ==> Ascending(plan[Position(g)])
    ensures (forall m0 ::
               SameTable(c, run[i].log, m0, Cycle(c, m0, plan), Replay(c, m0, run[i].log), t)) <==>
            forall g :: TableOf(g) == t ==> Safe(c, a, recordings, run[i].log, g)
  {
    hide EventWrites, TopicOf, IsBatch, IsPlan, Cycle, Replay, SingleItem, Ascending, SameTable, R.IsRun, RoundTrips,
      Settled, Safe, TableOf;
    FedKeyed(c, a, recordings, steps, run, moves);
    forall g
      ensures Safe(c, a, recordings, run[i].log, g) <==> Settled(c, run[i].log, g)
    {
      SafeIffSettled(c, a, recordings, steps, run, moves, i, g);
    }
    RefinesReplayIffSettled(c, run[i].log, plan, t);
  }

  /** A cycle that skips no event of a group, overtaken by inserts as it may be and although
      other groups fail, ends with the group showing at least all that was recorded when it
      began: what was in the log when the group's projector asked. */
  lemma PipelineCatchesUp(c: Codec, a: string, recordings: seq<R.Recording>, steps: seq<R.Step>, run: seq<System>,
                          moves: seq<Move>, b: nat, n: nat, g: Group) returns (q: nat)
    requires Fed(c, a, recordings, steps, run, moves)
    requires InCycle(c, run, moves, b, n, g) && n < |moves| && moves[n] == EndCycle
    requires Snapshot(g) || AsksInOrder(c, run, moves, b, n, g)
    requires forall i :: b < i < n ==> Safe(c, a, recordings, run[i].log, g)
    ensures b < q < n && run[b].log <= run[q].log && ShowsNow(c, run[q].log, g, run[n + 1].model)
  {
    hide EventWrites, TopicOf, IsBatch, SingleItem, Ascending, R.IsRun, RoundTrips, ShowsNow, Apply, Parses, Settled, Safe;
    FedKeyed(c, a, recordings, steps, run, moves);
    forall i | b < i < n
      ensures Settled(c, run[i].log, g)
    {
      SafeIffSettled(c, a, recordings, steps, run, moves, i, g);
    }
    q := CleanCycleShows(c, run, moves, b, n, g);
  }

  /** The columns of the single-item groups never go back to an older message, and show what
      the message behind them says. */
  lemma PipelineNeverRegresses(c: Codec, a: string, recordings: seq<R.Recording>, steps: seq<R.Step>,
                               run: seq<System>, moves: seq<Move>, i: nat, j: nat, slot: Slot)
    requires Fed(c, a, recordings, steps, run, moves) && i <= j < |run|
    requires Snapshot(slot.group) && slot in run[i].sources
    ensures slot in run[j].sources && run[i].sources[slot] <= run[j].sources[slot]
    ensures Backed(c, run[j], slot, run[j].sources[slot])
  {
    hide EventWrites, TopicOf, SingleItem, R.IsRun, RoundTrips, Backed, KeyedRun;
    FedKeyed(c, a, recordings, steps, run, moves);
    NoRegression(c, run, moves, i, j, slot);
  }

  /** Robot rows are keyed by manufacturer and serial number throughout, and those that the
      run inserted keep the default management columns. */
  lemma PipelineIdentifiesRobots(c: Codec, a: string, recordings: seq<R.Recording>, steps: seq<R.Step>,
                                 run: seq<System>, moves: seq<Move>, n: nat)
    requires Fed(c, a, recordings, steps, run, moves) && n < |run| && RobotKeyed(run[0].model)
    ensures RobotKeyed(run[n].model)
    ensures forall k :: k in run[n].model.robots && k !in run[0].model.robots ==>
              var row := run[n].model.robots[k];
              row.siteId == None && row.displayName == None && !row.suspended && !row.archived
  {
    hide EventWrites, TopicOf, SingleItem, R.IsRun, RoundTrips, RobotKeyed, RobotIdsComposed;
    FedKeyed(c, a, recordings, steps, run, moves);
    RobotRowsIdentified(c, run, moves, n);
  }
}
