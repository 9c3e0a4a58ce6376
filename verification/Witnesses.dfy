/** Two short recordings of responses, under any codec that round-trips. In one, the order of
    the query's rows decides what is shown; in the other, a message that is cut short leaves
    an outdated answer. */
module Witnesses {
  import opened Wrappers
  import opened EventLog
  import opened ReadModel
  import opened Folds
  import opened Messages
  import opened Projection
  import opened Refinement
  import opened CycleProperties
  import opened Topics
  import opened Recorder
  import opened RecorderRuns
  import opened Guarantees

  const CONTEXT := TopicContext("interface", "v3", "M", "1")

  function Response1(header: int, request: string, status: string): ResponsesMsg {
    ResponsesMsg(Header(header, "", ""), [VdaResponse(request, status)])
  }

  function Response2(header: int, request: string, status: string, request': string, status': string): ResponsesMsg {
    ResponsesMsg(Header(header, "", ""), [VdaResponse(request, status), VdaResponse(request', status')])
  }

  function Row(c: Codec, a: string, m: ResponsesMsg, item: string, id: nat): Event {
    Filed(c, a, OfResponses(m), CONTEXT, item, id, "")
  }

  /** The status of a request after some upserts. */
  predicate StatusAfter(m: Model, ws: seq<Write>, request: string, status: string) {
    var r := ApplyAll(m, ws);
    request in r.actions && r.actions[request].actionStatus == status
  }

  // ---------------------------------------------------------------- rows

  lemma RowSays(c: Codec, a: string, m: ResponsesMsg, item: string, id: nat, k: string)
    requires RoundTrips(c) && ActionsTopicAllowed(a)
    ensures var last := LastResponse(m.responses, k);
            EventColumns(c, Row(c, a, m, item, id), Response, k) ==
            if last.None? then None else Some(ResponseColumns(m.responses[last.value].grantType))
  {
    hide EventWrites, TopicOf, EventColumns;
    var e := Row(c, a, m, item, id);
    TopicGroup(OfResponses(m), a, Response);
    FiledNames(c, a, OfResponses(m), CONTEXT, e, Response, k);
    var last := LastResponse(m.responses, k);
    if last.Some? {
      assert RequestIds(m.responses)[last.value] == k;
      FiledColumns(c, a, OfResponses(m), CONTEXT, e, Response, k);
    }
  }

  lemma OneAnswer(header: int, request: string, status: string, k: string)
    ensures LastResponse(Response1(header, request, status).responses, k) == if k == request then Some(0) else None
  {
  }

  lemma TwoAnswers(header: int, request: string, status: string, request': string, status': string, k: string)
    requires request != request'
    ensures LastResponse(Response2(header, request, status, request', status').responses, k) ==
            if k == request then Some(0) else if k == request' then Some(1) else None
  {
    var responses := Response2(header, request, status, request', status').responses;
    assert responses[..1] == [VdaResponse(request, status)];
  }

  /** What the last of a few events that names a request says is what is shown. */
  lemma ShownAfter(c: Codec, m: Model, es: seq<Event>, request: string, p: nat, status: string)
    requires p < |es| && EventColumns(c, es[p], Response, request) == Some(ResponseColumns(status))
    requires forall q :: p < q < |es| ==> EventColumns(c, es[q], Response, request).None?
    ensures StatusAfter(m, Writes(c, es), request, status)
    ensures Newest(c, es, Response, request) == Some(ResponseColumns(status))
  {
    hide EventWrites, TopicOf, EventColumns, ApplyAll;
    LastWord(c, es, Response, request, p);
    RowShown(m, Writes(c, es), Response, request);
  }

  /** In a log of three rows whose last two share an item, the query returns the outer two. */
  lemma OuterRows(log: seq<Event>)
    requires |log| == 3 && forall i :: 0 <= i < 3 ==> log[i].topic == RESPONSES_TOPIC
    requires log[0].itemId != log[1].itemId == log[2].itemId
    ensures IsLatest(log, 0) && IsLatest(log, 2) && log[0].topic == TopicOf(Response)
    ensures IsBatch(log, TopicOf(Response), [log[0], log[2]]) && IsBatch(log, TopicOf(Response), [log[2], log[0]])
  {
    assert IsLatest(log, 0) && IsLatest(log, 2);
    assert Matches(log[2], log[1].topic, log[1].itemId);
    assert !IsLatest(log, 1);
    assert Selected(log, TopicOf(Response), log[0]) && Selected(log, TopicOf(Response), log[2]);
  }

  // ---------------------------------------------------------------- recordings

  lemma Record(c: Codec, a: string, run: seq<Recording>, steps: seq<Step>, step: Step)
      returns (r: seq<Recording>, ss: seq<Step>)
    requires IsRun(c, a, run, steps) && Enabled(a, run[|steps|], step)
    ensures IsRun(c, a, r, ss) && r == run + [Next(c, a, run[|steps|], step)] && ss == steps + [step]
  {
    hide Next, Enabled;
    r, ss := run + [Next(c, a, run[|steps|], step)], steps + [step];
    forall i | 0 <= i < |ss|
      ensures Enabled(a, r[i], ss[i]) && r[i + 1] == Next(c, a, r[i], ss[i])
    {
    }
  }

  /** A message of responses, of which the first n items are filed. */
  lemma {:induction false} RecordItems(c: Codec, a: string, run: seq<Recording>, steps: seq<Step>, m: ResponsesMsg, id: nat,
                                       n: nat) returns (r: seq<Recording>, ss: seq<Step>)
    requires IsRun(c, a, run, steps) && run[|steps|].open == map[] && n <= |m.responses|
    requires forall e :: e in run[|steps|].log ==> e.id < id
    ensures IsRun(c, a, r, ss) && |r| > |run| && |ss| == |steps| + 1 + n
    ensures r[|ss|].open == map[RESPONSES_TOPIC := Open(OfResponses(m), CONTEXT, n, |run[|steps|].log|)]
    ensures r[|ss|].log == run[|steps|].log + seq(n, i requires 0 <= i < n => Row(c, a, m, m.responses[i].requestId, id + i))
    ensures r[|ss|].cuts == run[|steps|].cuts
  {
    hide Filed;
    if n == 0 {
      r, ss := Record(c, a, run, steps, Begin(OfResponses(m), CONTEXT));
    } else {
      r, ss := RecordItems(c, a, run, steps, m, id, n - 1);
      var log := r[|ss|].log;
      forall e | e in log
        ensures e.id < id + n - 1
      {
        RowIds(c, a, m, id);
      }
      r, ss := Record(c, a, r, ss, FileNext(RESPONSES_TOPIC, id + n - 1, ""));
    }
  }

  lemma RowIds(c: Codec, a: string, m: ResponsesMsg, id: nat)
    ensures forall item, i: nat :: Row(c, a, m, item, i).id == i
  {
  }

  /** A message of responses, recorded as a whole. */
  lemma RecordAll(c: Codec, a: string, run: seq<Recording>, steps: seq<Step>, m: ResponsesMsg, id: nat)
      returns (r: seq<Recording>, ss: seq<Step>)
    requires IsRun(c, a, run, steps) && run[|steps|].open == map[]
    requires forall e :: e in run[|steps|].log ==> e.id < id
    ensures IsRun(c, a, r, ss) && |r| > |run| && r[|ss|].open == map[]
    ensures r[|ss|].log == run[|steps|].log +
            seq(|m.responses|, i requires 0 <= i < |m.responses| => Row(c, a, m, m.responses[i].requestId, id + i))
    ensures r[|ss|].cuts == run[|steps|].cuts
  {
    hide Filed, Inv;
    r, ss := RecordItems(c, a, run, steps, m, id, |m.responses|);
    r, ss := Record(c, a, r, ss, End(RESPONSES_TOPIC));
  }

  // ---------------------------------------------------------------- the order of the answer

  const FIRST := Response2(1, "r", "GRANTED", "s", "QUEUED")
  const SECOND := Response1(2, "s", "GRANTED")

  function TwiceAnswered(c: Codec, a: string): (log: seq<Event>)
    ensures |log| == 3
  {
    [Row(c, a, FIRST, "r", 1), Row(c, a, FIRST, "s", 2), Row(c, a, SECOND, "s", 3)]
  }

  lemma TwiceAnsweredRecorded(c: Codec, a: string) returns (run: seq<Recording>, steps: seq<Step>)
    ensures IsRun(c, a, run, steps) && run[|steps|].open == map[] && run[|steps|].cuts == []
    ensures run[|steps|].log == TwiceAnswered(c, a)
  {
    hide Filed;
    run, steps := [Recording([], map[], [])], [];
    run, steps := RecordAll(c, a, run, steps, FIRST, 1);
    RowIds(c, a, FIRST, 1);
    run, steps := RecordAll(c, a, run, steps, SECOND, 3);
  }

  lemma TwiceAnsweredSays(c: Codec, a: string)
    requires RoundTrips(c) && ActionsTopicAllowed(a)
    ensures var log := TwiceAnswered(c, a);
            && EventColumns(c, log[0], Response, "s") == Some(ResponseColumns("QUEUED"))
            && EventColumns(c, log[2], Response, "s") == Some(ResponseColumns("GRANTED"))
  {
    hide EventWrites, EventColumns, Filed;
    RowSays(c, a, FIRST, "r", 1, "s");
    RowSays(c, a, SECOND, "s", 3, "s");
    TwoAnswers(1, "r", "GRANTED", "s", "QUEUED", "s");
    OneAnswer(2, "s", "GRANTED", "s");
  }

  lemma RowShape(c: Codec, a: string, m: ResponsesMsg, item: string, id: nat)
    ensures var e := Row(c, a, m, item, id); e.topic == RESPONSES_TOPIC && e.itemId == item && e.id == id
  {
  }

  /** A recording whose query may return its two rows in either order: in id order the newest
      status is shown, in the other an outdated one. Even in id order the outdated one comes
      back for a moment in every later cycle. */
  lemma ReturnOrderMatters(c: Codec, a: string, m: Model) returns (run: seq<Recording>, steps: seq<Step>)
    requires RoundTrips(c) && ActionsTopicAllowed(a)
    ensures IsRun(c, a, run, steps) && run[|steps|].open == map[] && run[|steps|].cuts == []
    ensures var log := run[|steps|].log;
            && |log| == 3 && Coherent(c, log) && !NoStale(c, log, Response)
            && var ordered, swapped := [log[0], log[2]], [log[2], log[0]];
               && IsBatch(log, TopicOf(Response), ordered) && IsBatch(log, TopicOf(Response), swapped)
               && StatusAfter(m, Writes(c, ordered), "s", "GRANTED")
               && StatusAfter(m, Writes(c, swapped), "s", "QUEUED")
               && StatusAfter(ApplyAll(m, Writes(c, ordered)), Writes(c, [log[0]]), "s", "QUEUED")
  {
    hide EventWrites, TopicOf, EventColumns, Filed, Inv, Coherent, IsBatch, IsRun, StatusAfter, IsLatest,
      RoundTrips, Newest;
    run, steps := TwiceAnsweredRecorded(c, a);
    var log := TwiceAnswered(c, a);
    RunLength(c, a, run, steps);
    UncutIsCoherent(c, a, run, steps, |steps|);
    RowShape(c, a, FIRST, "r", 1);
    RowShape(c, a, FIRST, "s", 2);
    RowShape(c, a, SECOND, "s", 3);
    OuterRows(log);
    TwiceAnsweredSays(c, a);
    var ordered, swapped := [log[0], log[2]], [log[2], log[0]];
    ShownAfter(c, m, ordered, "s", 1, "GRANTED");
    ShownAfter(c, m, swapped, "s", 1, "QUEUED");
    ShownAfter(c, ApplyAll(m, Writes(c, ordered)), [log[0]], "s", 0, "QUEUED");
    ShownAfter(c, m, log, "s", 2, "GRANTED");
    StaleRow(c, log, Response, "s", 0);
  }

  lemma RunLength(c: Codec, a: string, run: seq<Recording>, steps: seq<Step>)
    requires IsRun(c, a, run, steps)
    ensures |run| == |steps| + 1
  {
  }

  lemma StaleRow(c: Codec, log: seq<Event>, g: Group, k: string, i: nat)
    requires i < |log| && log[i].topic == TopicOf(g) && IsLatest(log, i)
    requires EventColumns(c, log[i], g, k).Some? && EventColumns(c, log[i], g, k) != Newest(c, log, g, k)
    ensures !NoStale(c, log, g)
  {
    hide EventWrites, TopicOf, EventColumns, Newest;
  }

  // ---------------------------------------------------------------- a message cut short

  const EARLIER := Response1(1, "y", "QUEUED")
  const TORN := Response2(2, "x", "GRANTED", "y", "GRANTED")
  const LATER := Response1(3, "x", "REVOKED")

  function CutShortLog(c: Codec, a: string): (log: seq<Event>)
    ensures |log| == 3
  {
    [Row(c, a, EARLIER, "y", 1), Row(c, a, TORN, "x", 2), Row(c, a, LATER, "x", 3)]
  }

  lemma CutShortRecorded(c: Codec, a: string) returns (run: seq<Recording>, steps: seq<Step>)
    ensures IsRun(c, a, run, steps)
    ensures run[|steps|].open == map[] && run[|steps|].log == CutShortLog(c, a)
  {
    hide Filed;
    run, steps := [Recording([], map[], [])], [];
    run, steps := RecordAll(c, a, run, steps, EARLIER, 1);
    RowIds(c, a, EARLIER, 1);
    run, steps := RecordItems(c, a, run, steps, TORN, 2, 1);
    run, steps := Record(c, a, run, steps, Abort(RESPONSES_TOPIC));
    RowIds(c, a, TORN, 2);
    run, steps := RecordAll(c, a, run, steps, LATER, 3);
  }

  lemma CutShortSays(c: Codec, a: string)
    requires RoundTrips(c) && ActionsTopicAllowed(a)
    ensures var log := CutShortLog(c, a);
            && EventColumns(c, log[0], Response, "y") == Some(ResponseColumns("QUEUED"))
            && EventColumns(c, log[1], Response, "y") == Some(ResponseColumns("GRANTED"))
            && EventColumns(c, log[2], Response, "y") == None
  {
    hide EventWrites, EventColumns, Filed;
    RowSays(c, a, EARLIER, "y", 1, "y");
    RowSays(c, a, TORN, "x", 2, "y");
    RowSays(c, a, LATER, "x", 3, "y");
    OneAnswer(1, "y", "QUEUED", "y");
    TwoAnswers(2, "x", "GRANTED", "y", "GRANTED", "y");
    OneAnswer(3, "x", "REVOKED", "y");
  }

  /** A message that is cut short can do harm: its second answer is filed under no row of its
      own, and its first row is superseded. Then even in id order the cycle shows an outdated
      status where full replay shows the newest. */
  lemma CutShortMatters(c: Codec, a: string, m: Model) returns (run: seq<Recording>, steps: seq<Step>)
    requires RoundTrips(c) && ActionsTopicAllowed(a)
    ensures IsRun(c, a, run, steps) && run[|steps|].open == map[] && !LossCovered(c, a, run[|steps|], Response)
    ensures var log := run[|steps|].log;
            && |log| == 3 && !Settled(c, log, Response)
            && var ordered := [log[0], log[2]];
               && IsBatch(log, TopicOf(Response), ordered) && Ascending(ordered)
               && StatusAfter(m, Writes(c, ordered), "y", "QUEUED") && StatusAfter(m, Writes(c, log), "y", "GRANTED")
  {
    hide EventWrites, TopicOf, EventColumns, Filed, Inv, IsBatch, IsRun, StatusAfter, IsLatest, RoundTrips,
      Newest, Settled, LossCovered;
    run, steps := CutShortRecorded(c, a);
    var log := CutShortLog(c, a);
    RunLength(c, a, run, steps);
    RowShape(c, a, EARLIER, "y", 1);
    RowShape(c, a, TORN, "x", 2);
    RowShape(c, a, LATER, "x", 3);
    OuterRows(log);
    CutShortSays(c, a);
    var ordered := [log[0], log[2]];
    ShownAfter(c, m, ordered, "y", 0, "QUEUED");
    ShownAfter(c, m, log, "y", 1, "GRANTED");
    Unsettled(c, log, ordered);
    SettledIffLossCovered(c, a, run, steps, |steps|, Response);
  }

  lemma Unsettled(c: Codec, log: seq<Event>, ordered: seq<Event>)
    requires Ascending(log) && IsBatch(log, TopicOf(Response), ordered) && Ascending(ordered)
    requires Newest(c, ordered, Response, "y") != Newest(c, log, Response, "y")
    ensures !Settled(c, log, Response)
  {
    hide EventWrites, TopicOf, IsBatch, Settled, LastColumns, Writes;
    if Settled(c, log, Response) {
      BatchNewest(c, log, Response, ordered, "y");
    }
  }
}
