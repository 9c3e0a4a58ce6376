/** What a cycle in which nothing fails guarantees, although inserts keep overtaking it. */
module Freshness {
  import opened Wrappers
  import opened EventLog
  import opened ReadModel
  import opened Folds
  import opened Messages
  import opened Projection
  import opened Refinement
  import opened Interleaving

  /** The column group that the event belongs to shows it or something newer. */
  ghost predicate Shown(s: System, g: Group, e: Event) {
    Slot(g, e.itemId) in s.sources && e.id <= s.sources[Slot(g, e.itemId)]
  }

  /** The event, or something newer for its item, is still to be projected. */
  ghost predicate Coming(s: System, e: Event) {
    s.loop.Running? && exists d :: d in s.loop.batch && d.itemId == e.itemId && e.id <= d.id
  }

  ghost predicate Covered(s: System) {
    s.loop.Running? && s.loop.clean && s.loop.next <= |PROJECTORS| && s.loop.begun <= |s.log| ==>
      forall p, i :: 0 <= p < s.loop.next && 0 <= i < s.loop.begun && Snapshot(PROJECTORS[p]) &&
                     s.log[i].topic == TopicOf(PROJECTORS[p]) ==>
        Shown(s, PROJECTORS[p], s.log[i]) || (p == s.loop.next - 1 && Coming(s, s.log[i]))
  }

  ghost predicate Started(s: System) {
    s.loop.Running? && 0 < s.loop.next <= |PROJECTORS| && s.loop.batch != [] && s.loop.item > 0 &&
    Snapshot(PROJECTORS[s.loop.next - 1]) ==>
      Shown(s, PROJECTORS[s.loop.next - 1], s.loop.batch[0])
  }

  ghost predicate FreshInv(c: Codec, s: System) {
    RegressionInv(c, s) && Covered(s) && Started(s)
  }

  lemma CoveredQuery(c: Codec, s: System, move: Move)
    requires Enabled(c, s, move) && FreshInv(c, s) && move.Query?
    ensures Covered(Next(c, s, move))
  {
    hide EventWrites, TopicOf, Keyed, SourcesBacked;
    var r, g := Next(c, s, move), PROJECTORS[s.loop.next];
    forall i | 0 <= i < r.loop.begun && r.log[i].topic == TopicOf(g)
      ensures Coming(r, r.log[i])
    {
      var e := s.log[i];
      assert Matches(e, TopicOf(g), e.itemId);
      var last := LastIndex(s.log, TopicOf(g), e.itemId).value;
      assert IsLatest(s.log, last);
      assert s.log[last] in move.batch;
      assert Keyed(c, s.log) && i <= last;
      AscendingAt(c, s.log, i, last);
    }
  }

  lemma AscendingAt(c: Codec, log: seq<Event>, i: nat, j: nat)
    requires Keyed(c, log) && i <= j < |log|
    ensures log[i].id <= log[j].id
  {
  }

  lemma CoveredWrite(c: Codec, s: System, move: Move)
    requires Enabled(c, s, move) && FreshInv(c, s) && move.WriteItem?
    ensures Covered(Next(c, s, move)) && Started(Next(c, s, move))
  {
    hide EventWrites, TopicOf, Keyed, SourcesBacked, Apply;
    var r := Next(c, s, move);
    var e, g := s.loop.batch[0], PROJECTORS[s.loop.next - 1];
    RegressionWrite(c, s, move);
    if Snapshot(g) {
      KeyedSingle(c, s.log, g);
      SnapshotWrite(c, s.log, g, e);
    }
    if r.loop.clean {
      forall p, i | 0 <= p < r.loop.next && 0 <= i < r.loop.begun && Snapshot(PROJECTORS[p]) &&
                    r.log[i].topic == TopicOf(PROJECTORS[p])
        ensures Shown(r, PROJECTORS[p], r.log[i]) || (p == r.loop.next - 1 && Coming(r, r.log[i]))
      {
        if Shown(s, PROJECTORS[p], s.log[i]) {
          assert Slot(PROJECTORS[p], s.log[i].itemId) in r.sources;
        }
      }
    }
  }

  lemma KeyedSingle(c: Codec, log: seq<Event>, g: Group)
    requires Keyed(c, log) && Snapshot(g)
    ensures SingleItem(c, log, g)
  {
  }

  lemma CoveredNextEvent(c: Codec, s: System, move: Move)
    requires Enabled(c, s, move) && FreshInv(c, s) && move.NextEvent?
    ensures Covered(Next(c, s, move))
  {
    hide EventWrites, TopicOf, Keyed, SourcesBacked, Parses;
    var r, d := Next(c, s, move), s.loop.batch[0];
    if r.loop.clean {
      forall p, i | 0 <= p < r.loop.next && 0 <= i < r.loop.begun && Snapshot(PROJECTORS[p]) &&
                    r.log[i].topic == TopicOf(PROJECTORS[p])
        ensures Shown(r, PROJECTORS[p], r.log[i]) || (p == r.loop.next - 1 && Coming(r, r.log[i]))
      {
        if p == s.loop.next - 1 && Coming(s, s.log[i]) {
          var x :| x in s.loop.batch && x.itemId == s.log[i].itemId && s.log[i].id <= x.id;
          if x == d {
            KeyedSingle(c, s.log, PROJECTORS[p]);
            SnapshotWrite(c, s.log, PROJECTORS[p], d);
            assert Shown(s, PROJECTORS[p], d);
          } else {
            assert x in s.loop.batch[1..];
          }
        }
      }
    }
  }

  lemma CoveredInsert(c: Codec, s: System, move: Move)
    requires Enabled(c, s, move) && FreshInv(c, s) && move.Insert?
    ensures Covered(Next(c, s, move)) && Started(Next(c, s, move))
  {
    hide EventWrites, TopicOf, Keyed, SourcesBacked;
    var r := Next(c, s, move);
    if r.loop.Running? && r.loop.clean {
      forall p, i | 0 <= p < r.loop.next && 0 <= i < r.loop.begun && Snapshot(PROJECTORS[p]) &&
                    r.log[i].topic == TopicOf(PROJECTORS[p])
        ensures Shown(r, PROJECTORS[p], r.log[i]) || (p == r.loop.next - 1 && Coming(r, r.log[i]))
      {
        assert r.log[i] == s.log[i];
      }
    }
  }

  lemma FreshNext(c: Codec, s: System, move: Move)
    requires Enabled(c, s, move) && FreshInv(c, s)
    requires move.Insert? ==> Keyed(c, s.log + [move.event])
    ensures FreshInv(c, Next(c, s, move))
  {
    hide EventWrites, TopicOf, Keyed, SourcesBacked, Parses, Apply, BatchAhead;
    RegressionNext(c, s, move);
    match move
    case Insert(_) => CoveredInsert(c, s, move);
    case Query(_) => CoveredQuery(c, s, move);
    case WriteItem => CoveredWrite(c, s, move);
    case NextEvent => CoveredNextEvent(c, s, move);
    case _ =>
  }

  lemma {:induction false} RunFreshInv(c: Codec, run: seq<System>, moves: seq<Move>, n: nat)
    requires IsRun(c, run, moves) && KeyedRun(c, run) && n < |run|
    ensures FreshInv(c, run[n])
  {
    hide EventWrites, TopicOf, Keyed, Next, Enabled, RegressionInv;
    RunRegressionInv(c, run, moves, n);
    if n > 0 {
      RunFreshInv(c, run, moves, n - 1);
      KeyedMove(c, run, moves, n - 1);
      FreshNext(c, run[n - 1], moves[n - 1]);
    }
  }

  lemma KeyedMove(c: Codec, run: seq<System>, moves: seq<Move>, n: nat)
    requires IsRun(c, run, moves) && KeyedRun(c, run) && n < |moves|
    ensures moves[n].Insert? ==> Keyed(c, run[n].log + [moves[n].event])
  {
    hide Keyed, EventWrites, Apply;
    assert Keyed(c, run[n + 1].log);
  }

  /** Rows never change, and a cycle remembers the log it began with. */
  lemma {:induction false} CycleBegan(c: Codec, run: seq<System>, moves: seq<Move>, b: nat, n: nat)
    requires IsRun(c, run, moves) && b < n < |run| && moves[b] == BeginCycle
    requires forall k :: b < k <= n ==> run[k].loop.Running?
    ensures run[n].loop.begun == |run[b].log| && run[b].log <= run[n].log
  {
    hide EventWrites, TopicOf, Apply;
    if b + 1 < n {
      CycleBegan(c, run, moves, b, n - 1);
    }
  }

  /** A cycle in which no event fails, although inserts overtake it, leaves every connection,
      state, factsheet and order column group at least as new as any event that was in the
      log when the cycle began. */
  lemma CleanCycleCatchesUp(c: Codec, run: seq<System>, moves: seq<Move>, b: nat, n: nat, g: Group, i: nat)
    requires IsRun(c, run, moves) && KeyedRun(c, run) && b < n < |moves|
    requires moves[b] == BeginCycle && moves[n] == EndCycle
    requires (forall k :: b < k <= n ==> run[k].loop.Running?) && run[n].loop.clean
    requires Snapshot(g) && i < |run[b].log| && run[b].log[i].topic == TopicOf(g)
    ensures Shown(run[n + 1], g, run[b].log[i])
  {
    hide EventWrites, TopicOf, Keyed, RegressionInv;
    RunFreshInv(c, run, moves, n);
    CycleBegan(c, run, moves, b, n);
    var s := run[n];
    assert Enabled(c, s, moves[n]);
    var e := s.log[i];
    assert PROJECTORS[Position(g)] == g && e == run[b].log[i];
    assert !Coming(s, e);
  }
}
