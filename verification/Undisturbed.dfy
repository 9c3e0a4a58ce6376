/** The micro-steps of a cycle that nothing overtakes or interrupts add up to the cycle of
    the engine: the same upserts, from answers that one unchanging log gives. */
module Undisturbed {
  import opened Wrappers
  import opened EventLog
  import opened ReadModel
  import opened Folds
  import opened Messages
  import opened Projection
  import opened Refinement
  import I = Interleaving

  /** How far a cycle has come: the answers so far, and the events of the last one done. */
  ghost predicate Progress(c: Codec, m0: Model, log: seq<Event>, s: I.System, plan: seq<seq<Event>>, done: seq<Event>) {
    && s.loop.Running? && s.log == log && s.loop.next <= |PROJECTORS| && |plan| == s.loop.next
    && (forall p :: 0 <= p < |plan| ==> IsBatch(log, TopicOf(PROJECTORS[p]), plan[p]))
    && (s.loop.batch == [] ==> s.loop.item == 0)
    && (s.loop.batch != [] ==> plan != [] && s.loop.item <= |EventWrites(c, s.loop.batch[0])|)
    && (if plan == [] then done == [] else plan[|plan| - 1] == done + s.loop.batch)
    && s.model == ApplyAll(ApplyAll(Cycle(c, m0, if plan == [] then [] else plan[..|plan| - 1]), Writes(c, done)), I.Begun(c, s))
  }

  /** Between two queries the tables are those of a cycle with the answers so far. */
  lemma AnswersDone(c: Codec, m0: Model, log: seq<Event>, s: I.System, plan: seq<seq<Event>>, done: seq<Event>)
    requires Progress(c, m0, log, s, plan, done) && s.loop.batch == []
    ensures s.model == Cycle(c, m0, plan)
  {
    hide EventWrites, TopicOf, IsBatch, ApplyAll, Cycle, Writes;
    NoUpserts(s.model);
    if plan == [] {
      NoEvents(c);
      NoUpserts(Cycle(c, m0, []));
      NoUpserts(ApplyAll(Cycle(c, m0, []), []));
    } else {
      var front, last := plan[..|plan| - 1], plan[|plan| - 1];
      assert done == last && plan == front + [last];
      CyclePlus(c, m0, front, last);
      NoUpserts(ApplyAll(Cycle(c, m0, front), Writes(c, last)));
    }
  }

  lemma NoEvents(c: Codec)
    ensures Writes(c, []) == []
  {
  }

  lemma ProgressQuery(c: Codec, m0: Model, log: seq<Event>, s: I.System, plan: seq<seq<Event>>,
      done: seq<Event>, move: I.Move)
    requires Progress(c, m0, log, s, plan, done) && I.Enabled(c, s, move) && move.Query?
    ensures Progress(c, m0, log, I.Next(c, s, move), plan + [move.batch], [])
  {
    hide EventWrites, TopicOf, IsBatch, ApplyAll, Cycle, Writes;
    AnswersDone(c, m0, log, s, plan, done);
    var r, more := I.Next(c, s, move), plan + [move.batch];
    assert more[..|more| - 1] == plan && more[|more| - 1] == [] + move.batch;
    NothingBegun(c, r);
    NoEvents(c);
    NoUpserts(r.model);
  }

  lemma NothingBegun(c: Codec, s: I.System)
    requires s.loop.Running? && s.loop.item == 0
    ensures I.Begun(c, s) == []
  {
    hide EventWrites;
  }

  lemma ProgressWrite(c: Codec, m0: Model, log: seq<Event>, s: I.System, plan: seq<seq<Event>>,
      done: seq<Event>, move: I.Move)
    requires Progress(c, m0, log, s, plan, done) && I.Enabled(c, s, move) && move.WriteItem?
    ensures Progress(c, m0, log, I.Next(c, s, move), plan, done)
  {
    hide EventWrites, TopicOf, IsBatch, Cycle, Apply;
    var ws, i := EventWrites(c, s.loop.batch[0]), s.loop.item;
    assert ws[..i + 1][..i] == ws[..i] && ws[..i + 1][i] == ws[i];
  }

  lemma ProgressNextEvent(c: Codec, m0: Model, log: seq<Event>, s: I.System, plan: seq<seq<Event>>,
      done: seq<Event>, move: I.Move)
    requires Progress(c, m0, log, s, plan, done) && I.Enabled(c, s, move) && move.NextEvent?
    ensures Progress(c, m0, log, I.Next(c, s, move), plan, done + [s.loop.batch[0]])
  {
    hide EventWrites, TopicOf, IsBatch, Cycle, ApplyAll, Parses, Writes;
    var r, e := I.Next(c, s, move), s.loop.batch[0];
    var start := Cycle(c, m0, plan[..|plan| - 1]);
    assert EventWrites(c, e)[..s.loop.item] == EventWrites(c, e);
    assert done + s.loop.batch == (done + [e]) + r.loop.batch by {
      assert s.loop.batch == [e] + r.loop.batch;
    }
    EventAdded(c, done, e);
    ApplyAllConcat(start, Writes(c, done), EventWrites(c, e));
    NothingBegun(c, r);
    NoUpserts(r.model);
  }

  lemma EventAdded(c: Codec, es: seq<Event>, e: Event)
    ensures Writes(c, es + [e]) == Writes(c, es) + EventWrites(c, e)
  {
    hide EventWrites;
    assert (es + [e])[..|es|] == es;
  }

  /** An answer comes in id order, unless it is for a projector that does not depend on it. */
  ghost predicate Ordered(g: Group, answer: seq<Event>) {
    Ascending(answer) || Snapshot(g)
  }

  ghost predicate OrderedQueries(run: seq<I.System>, moves: seq<I.Move>, b: nat, n: nat)
    requires n < |run| && |run| == |moves| + 1
  {
    forall i :: b < i < n && moves[i].Query? ==>
      run[i].loop.Running? && run[i].loop.next < |PROJECTORS| && Ordered(PROJECTORS[run[i].loop.next], moves[i].batch)
  }

  lemma QuietStep(c: Codec, m0: Model, log: seq<Event>, s: I.System, move: I.Move, plan: seq<seq<Event>>,
      done: seq<Event>)
      returns (more: seq<seq<Event>>, now: seq<Event>)
    requires Progress(c, m0, log, s, plan, done) && I.Enabled(c, s, move) && I.Quiet(move)
    ensures Progress(c, m0, log, I.Next(c, s, move), more, now)
    ensures more == if move.Query? then plan + [move.batch] else plan
    ensures s.loop.Running? && |plan| == s.loop.next
  {
    hide EventWrites, TopicOf, IsBatch, Cycle, ApplyAll, Parses, I.Next;
    more, now := plan, done;
    match move
    case Query(batch) =>
      ProgressQuery(c, m0, log, s, plan, done, move);
      more, now := plan + [batch], [];
    case WriteItem => ProgressWrite(c, m0, log, s, plan, done, move);
    case NextEvent =>
      ProgressNextEvent(c, m0, log, s, plan, done, move);
      now := done + [s.loop.batch[0]];
  }

  lemma {:induction false} QuietProgress(c: Codec, run: seq<I.System>, moves: seq<I.Move>, b: nat, n: nat)
      returns (plan: seq<seq<Event>>, done: seq<Event>)
    requires I.IsRun(c, run, moves) && b < n < |run| && moves[b] == I.BeginCycle
    requires forall i :: b < i < n ==> I.Quiet(moves[i])
    ensures Progress(c, run[b].model, run[b].log, run[n], plan, done)
    ensures OrderedQueries(run, moves, b, n) ==> forall p :: 0 <= p < |plan| ==> Ordered(PROJECTORS[p], plan[p])
  {
    hide EventWrites, TopicOf, IsBatch, Cycle, ApplyAll, Parses, Ordered, I.Next, I.Enabled, Progress;
    if n == b + 1 {
      plan, done := [], [];
      ProgressBegin(c, run[b]);
    } else {
      plan, done := QuietProgress(c, run, moves, b, n - 1);
      plan, done := QuietStep(c, run[b].model, run[b].log, run[n - 1], moves[n - 1], plan, done);
    }
  }

  lemma ProgressBegin(c: Codec, s: I.System)
    requires I.Enabled(c, s, I.BeginCycle)
    ensures Progress(c, s.model, s.log, I.Next(c, s, I.BeginCycle), [], [])
  {
    hide EventWrites, TopicOf, IsBatch;
    NoUpserts(s.model);
  }

  /** A cycle without insert, failure or interruption is the engine's cycle, for some answers
      that the unchanged log gives. */
  lemma QuietCycle(c: Codec, run: seq<I.System>, moves: seq<I.Move>, b: nat, n: nat) returns (plan: seq<seq<Event>>)
    requires I.IsRun(c, run, moves) && b < n < |moves| && moves[b] == I.BeginCycle && moves[n] == I.EndCycle
    requires forall i :: b < i < n ==> I.Quiet(moves[i])
    ensures run[n].log == run[b].log && IsPlan(run[b].log, plan)
    ensures run[n + 1].model == Cycle(c, run[b].model, plan)
    ensures OrderedQueries(run, moves, b, n) ==> forall p :: 0 <= p < |plan| ==> Ordered(PROJECTORS[p], plan[p])
  {
    hide EventWrites, TopicOf, IsBatch, Cycle, ApplyAll, Ordered;
    var done: seq<Event>;
    plan, done := QuietProgress(c, run, moves, b, n);
    assert I.Enabled(c, run[n], moves[n]) && run[n + 1] == I.Next(c, run[n], moves[n]);
    AnswersDone(c, run[b].model, run[b].log, run[n], plan, done);
  }
}
