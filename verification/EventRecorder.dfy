/** The recorder itself: the callbacks it registers on the two endpoints and the rows that
    each of them inserts. */
module EventRecorders {
  import opened Wrappers
  import opened EventLog
  import opened Messages
  import opened Projection
  import opened Refinement
  import opened Topics
  import opened Recorder
  import opened RecorderRuns
  import opened EndPoints
  import PlainCodec

  /** The callback that records a message; it is not the bridge's. */
  const RECORD: nat := 1

  function KindOf(m: Message): Kind {
    match m
    case OfState(_) => State
    case OfVisualization(_) => Visualization
    case OfConnection(_) => Connection
    case OfFactsheet(_) => FactSheet
    case OfOrder(_) => Order
    case OfActions(_) => InstantActions
    case OfResponses(_) => Responses
    case OfZoneSet(_) => ZoneSet
  }

  /** Messages heard on the local side are filed as uplink, those of the cloud as downlink. */
  lemma DirectionBySide(m: Message)
    ensures KindOf(m) in SubscribedKinds(Local) <==> DirectionOf(m) == "uplink"
    ensures KindOf(m) in SubscribedKinds(Cloud) <==> DirectionOf(m) == "downlink"
  {
    assert "uplink"[0] != "downlink"[0];
  }

  /** A message is filed under the last level of the topic that it comes under. */
  lemma FiledUnderSuffix(m: Message)
    ensures TopicOfMessage(m, RECORDED_ACTIONS_TOPIC) == SuffixOf(KindOf(m))
  {
  }

  /** The rows for the first n items of a message, with consecutive ids after `lastId`. */
  function FiledRows(c: Codec, m: Message, context: TopicContext, clock: nat -> string, lastId: nat,
                     n: nat): (rows: seq<Event>)
    requires n <= |ItemsOf(m, context)|
    ensures |rows| == n
  {
    if n == 0 then []
    else
      FiledRows(c, m, context, clock, lastId, n - 1) +
      [Filed(c, RECORDED_ACTIONS_TOPIC, m, context, ItemsOf(m, context)[n - 1], lastId + n, clock(lastId + n))]
  }

  lemma {:induction false} FiledRowsAt(c: Codec, m: Message, context: TopicContext, clock: nat -> string, lastId: nat,
                                       n: nat, i: nat)
    requires i < n <= |ItemsOf(m, context)|
    ensures FiledRows(c, m, context, clock, lastId, n)[i] ==
            Filed(c, RECORDED_ACTIONS_TOPIC, m, context, ItemsOf(m, context)[i], lastId + i + 1, clock(lastId + i + 1))
  {
    hide Filed, ItemsOf;
    if i < n - 1 {
      FiledRowsAt(c, m, context, clock, lastId, n - 1, i);
    }
  }

  lemma NoneFiled(c: Codec, m: Message, context: TopicContext, clock: nat -> string, lastId: nat, rows: seq<Event>)
    ensures rows == rows + FiledRows(c, m, context, clock, lastId, 0)
  {
  }

  lemma ItemsOfSeveral(m: Message, context: TopicContext)
    ensures m.OfActions? ==>
              var actions := m.actions.actions;
              |ItemsOf(m, context)| == |actions| && forall i :: 0 <= i < |actions| ==> ItemsOf(m, context)[i] == actions[i].actionId
    ensures m.OfResponses? ==>
              var responses := m.responses.responses;
              |ItemsOf(m, context)| == |responses| &&
              forall i :: 0 <= i < |responses| ==> ItemsOf(m, context)[i] == responses[i].requestId
  {
  }

  /** How many of the first n inserts succeed before one throws. */
  function Completed(throws: nat -> bool, n: nat): (done: nat)
    ensures done <= n && (forall i :: 0 <= i < done ==> !throws(i)) && (done < n ==> throws(done))
  {
    if n == 0 then 0
    else
      var before := Completed(throws, n - 1);
      if before == n - 1 && !throws(n - 1) then n else before
  }

  lemma {:induction false} CompletedAt(throws: nat -> bool, i: nat, n: nat)
    requires i <= n && (forall j :: 0 <= j < i ==> !throws(j)) && (i < n ==> throws(i))
    ensures Completed(throws, n) == i
  {
  }

  /** The cut, if any, of a message of which n items were filed after `start` rows. */
  function CutsOf(m: Message, context: TopicContext, n: nat, start: nat): seq<Cut> {
    if n == |ItemsOf(m, context)| then [] else [Cut(Open(m, context, n, start), start + n)]
  }

  /** A log into which one message is being filed. */
  ghost predicate Filing(c: Codec, log: seq<Event>, cuts: seq<Cut>, m: Message, context: TopicContext, n: nat, start: nat) {
    Inv(c, RECORDED_ACTIONS_TOPIC,
        Recording(log, map[TopicOfMessage(m, RECORDED_ACTIONS_TOPIC) := Open(m, context, n, start)], cuts))
  }

  lemma StartFiling(c: Codec, log: seq<Event>, cuts: seq<Cut>, m: Message, context: TopicContext)
    requires RoundTrips(c) && Inv(c, RECORDED_ACTIONS_TOPIC, Recording(log, map[], cuts))
    ensures Filing(c, log, cuts, m, context, 0, |log|)
  {
    hide Inv, TopicOfMessage;
    InvNext(c, RECORDED_ACTIONS_TOPIC, Recording(log, map[], cuts), Begin(m, context));
  }

  lemma FileItem(c: Codec, log: seq<Event>, cuts: seq<Cut>, m: Message, context: TopicContext, n: nat, start: nat, id: nat,
                 at: string)
    requires RoundTrips(c) && Filing(c, log, cuts, m, context, n, start) && n < |ItemsOf(m, context)|
    requires forall e :: e in log ==> e.id < id
    ensures Filing(c, log + [Filed(c, RECORDED_ACTIONS_TOPIC, m, context, ItemsOf(m, context)[n], id, at)], cuts,
                   m, context, n + 1, start)
  {
    hide Inv, TopicOfMessage, Filed, ItemsOf;
    var topic := TopicOfMessage(m, RECORDED_ACTIONS_TOPIC);
    var s := Recording(log, map[topic := Open(m, context, n, start)], cuts);
    InvNext(c, RECORDED_ACTIONS_TOPIC, s, FileNext(topic, id, at));
    assert s.open[topic := Open(m, context, n + 1, start)] == map[topic := Open(m, context, n + 1, start)];
  }

  lemma FiledShape(c: Codec, m: Message, context: TopicContext, item: string, id: nat, at: string)
    ensures Filed(c, RECORDED_ACTIONS_TOPIC, m, context, item, id, at) ==
            Event(id, TopicOfMessage(m, RECORDED_ACTIONS_TOPIC), item, at, context.manufacturer, context.serialNumber,
                  RobotId(context), DirectionOf(m), Some(HeaderOf(m).headerId), Some(HeaderOf(m).version),
                  Some(HeaderOf(m).timestamp), PayloadOf(c, m))
  {
  }

  /** The message ends with all its items filed, or is cut short. */
  lemma FinishFiling(c: Codec, log: seq<Event>, cuts: seq<Cut>, m: Message, context: TopicContext, n: nat, start: nat)
    requires RoundTrips(c) && Filing(c, log, cuts, m, context, n, start)
    requires n <= |ItemsOf(m, context)| && |log| == start + n
    ensures Inv(c, RECORDED_ACTIONS_TOPIC, Recording(log, map[], cuts + CutsOf(m, context, n, start)))
  {
    hide Inv, TopicOfMessage, ItemsOf;
    var topic := TopicOfMessage(m, RECORDED_ACTIONS_TOPIC);
    var s := Recording(log, map[topic := Open(m, context, n, start)], cuts);
    assert s.open - {topic} == map[];
    if n == |ItemsOf(m, context)| {
      InvNext(c, RECORDED_ACTIONS_TOPIC, s, End(topic));
      assert cuts + CutsOf(m, context, n, start) == cuts;
    } else {
      InvNext(c, RECORDED_ACTIONS_TOPIC, s, Abort(topic));
    }
  }

  /** The callbacks of an endpoint after the recorder has joined each kind of its side. */
  ghost predicate Joined(before: map<Kind, seq<nat>>, after: map<Kind, seq<nat>>, side: Side, stopped: bool) {
    forall k :: k in before && k in after &&
                after[k] == before[k] + if k in SubscribedKinds(side) && !stopped then [RECORD] else []
  }

  /** Where the recorder's callback was not in a list, it is there once after joining. */
  lemma JoinedOnce(before: map<Kind, seq<nat>>, after: map<Kind, seq<nat>>, side: Side, kind: Kind)
    requires Joined(before, after, side, false) && kind in SubscribedKinds(side)
    requires kind in before && kind in after && RECORD !in before[kind]
    ensures Times(RECORD, after[kind]) == 1
  {
    assert multiset(after[kind]) == multiset(before[kind]) + multiset([RECORD]);
  }

  class EventRecorder {
    const codec: Codec
    const repo: EventsRepository
    const local: EndPoint
    /** The cloud endpoint, if there was one when the recorder was constructed. */
    const cloud: EndPoint?
    var attachedCloud: bool
    /** The messages whose recording an insert that threw has cut short. */
    ghost var cuts: seq<Cut>

    constructor (codec: Codec, repo: EventsRepository, local: EndPoint, cloud: EndPoint?)
      ensures this.codec == codec && this.repo == repo && this.local == local && this.cloud == cloud && !attachedCloud && cuts == []
      ensures RoundTrips(codec) && repo.Valid() && repo.rows == [] ==> Valid()
    {
      this.codec, this.repo, this.local, this.cloud := codec, repo, local, cloud;
      attachedCloud := false;
      cuts := [];
      new;
      InvInit(codec, RECORDED_ACTIONS_TOPIC);
    }

    ghost predicate EndPointsValid()
      reads this, local, cloud
    {
      && (attachedCloud ==> cloud != null)
      && local.Valid() && local.side == Local
      && (cloud != null ==> cloud.Valid() && cloud.side == Cloud)
    }

    /** Joins the four kinds of the local endpoint, and those of the cloud endpoint if there is
        one that has not been joined. */
    method Attach()
      requires EndPointsValid()
      modifies this`attachedCloud, local, cloud
      ensures EndPointsValid() && attachedCloud == (cloud != null)
      ensures Joined(old(local.callbacks), local.callbacks, Local, local.stopped)
      ensures cloud != null ==>
                if old(attachedCloud) then cloud.callbacks == old(cloud.callbacks)
                else Joined(old(cloud.callbacks), cloud.callbacks, Cloud, cloud.stopped)
    {
      var _ := local.On(State, RECORD);
      var _ := local.On(Visualization, RECORD);
      var _ := local.On(Connection, RECORD);
      var _ := local.On(FactSheet, RECORD);
      if cloud != null {
        AttachCloud();
      }
    }

    /** Joins the cloud endpoint's kinds the first time. Without a cloud endpoint at
        construction it never does. */
    method AttachCloud()
      requires EndPointsValid()
      modifies this`attachedCloud, cloud
      ensures EndPointsValid() && attachedCloud == (old(attachedCloud) || cloud != null)
      ensures local.callbacks == old(local.callbacks) && local.stopped == old(local.stopped)
      ensures cloud != null ==>
                if old(attachedCloud) then cloud.callbacks == old(cloud.callbacks)
                else Joined(old(cloud.callbacks), cloud.callbacks, Cloud, cloud.stopped)
    {
      if cloud == null || attachedCloud {
        return;
      }
      attachedCloud := true;
      var _ := cloud.On(Order, RECORD);
      var _ := cloud.On(InstantActions, RECORD);
      var _ := cloud.On(Responses, RECORD);
      var _ := cloud.On(ZoneSet, RECORD);
    }

    /** The log is one that recording produces, with the messages that were cut short. */
    ghost predicate Valid()
      reads this, repo
    {
      RoundTrips(codec) && repo.Valid() && Inv(codec, RECORDED_ACTIONS_TOPIC, Recording(repo.rows, map[], cuts))
    }

    /** A message has been filed, row by row, up to the first insert that throws. */
    ghost predicate HasRecorded(m: Message, context: TopicContext, throws: nat -> bool, rows: seq<Event>, lastId: nat,
                                before: seq<Cut>, ok: bool)
      reads this, repo
    {
      var n := Completed(throws, |ItemsOf(m, context)|);
      && Valid() && ok == (n == |ItemsOf(m, context)|) && repo.lastId == lastId + n
      && repo.rows == rows + FiledRows(codec, m, context, repo.clock, lastId, n)
      && cuts == before + CutsOf(m, context, n, |rows|)
    }

    /** The recorded rows, one by one. */
    lemma RowsRecorded(m: Message, context: TopicContext, throws: nat -> bool, rows: seq<Event>, lastId: nat,
                       before: seq<Cut>, ok: bool)
      requires HasRecorded(m, context, throws, rows, lastId, before, ok)
      ensures rows <= repo.rows && |repo.rows| - |rows| == Completed(throws, |ItemsOf(m, context)|)
      ensures ok == (Completed(throws, |ItemsOf(m, context)|) == |ItemsOf(m, context)|)
      ensures forall i :: 0 <= i < |repo.rows| - |rows| ==>
                repo.rows[|rows| + i] ==
                Event(lastId + 1 + i, TopicOfMessage(m, RECORDED_ACTIONS_TOPIC), ItemsOf(m, context)[i],
                      repo.clock(lastId + 1 + i), context.manufacturer, context.serialNumber, RobotId(context),
                      DirectionOf(m), Some(HeaderOf(m).headerId), Some(HeaderOf(m).version),
                      Some(HeaderOf(m).timestamp), PayloadOf(codec, m))
    {
      hide Inv, Filed, FiledRows, RoundTrips, TopicOfMessage, ItemsOf, Completed, RobotId, DirectionOf, HeaderOf, PayloadOf;
      var n := Completed(throws, |ItemsOf(m, context)|);
      forall i | 0 <= i < n
        ensures repo.rows[|rows| + i] ==
                Event(lastId + 1 + i, TopicOfMessage(m, RECORDED_ACTIONS_TOPIC), ItemsOf(m, context)[i],
                      repo.clock(lastId + 1 + i), context.manufacturer, context.serialNumber, RobotId(context),
                      DirectionOf(m), Some(HeaderOf(m).headerId), Some(HeaderOf(m).version),
                      Some(HeaderOf(m).timestamp), PayloadOf(codec, m))
      {
        FiledRowsAt(codec, m, context, repo.clock, lastId, n, i);
        FiledShape(codec, m, context, ItemsOf(m, context)[i], lastId + 1 + i, repo.clock(lastId + 1 + i));
      }
    }

    method InsertEvent(topic: string, item: string, context: TopicContext, direction: string, header: Header,
                       payload: string, throws: bool) returns (ok: bool)
      requires repo.Valid()
      modifies repo
      ensures repo.Valid() && ok == !throws
      ensures !ok ==> repo.rows == old(repo.rows) && repo.lastId == old(repo.lastId)
      ensures ok ==>
                && repo.lastId == old(repo.lastId) + 1 && (forall e :: e in old(repo.rows) ==> e.id < repo.lastId)
                && repo.rows == old(repo.rows) +
                   [Event(repo.lastId, topic, item, repo.clock(repo.lastId), context.manufacturer, context.serialNumber,
                          RobotId(context), direction, Some(header.headerId), Some(header.version),
                          Some(header.timestamp), payload)]
    {
      var event := Event(0, topic, item, "", context.manufacturer, context.serialNumber,
                         context.manufacturer + "." + context.serialNumber, direction,
                         Some(header.headerId), Some(header.version), Some(header.timestamp), payload);
      var id := repo.Insert(event, throws);
      return id.Some?;
    }

    /** Files the next item of a message that began when the log held the given rows. */
    method InsertItem(ghost m: Message, ghost n: nat, ghost rows: seq<Event>, ghost before: nat, topic: string,
                      item: string, context: TopicContext, direction: string, header: Header, payload: string,
                      throws: bool) returns (ok: bool)
      requires RoundTrips(codec) && repo.Valid() && Filing(codec, repo.rows, cuts, m, context, n, |rows|)
      requires n < |ItemsOf(m, context)| && item == ItemsOf(m, context)[n]
      requires topic == TopicOfMessage(m, RECORDED_ACTIONS_TOPIC) && direction == DirectionOf(m)
      requires header == HeaderOf(m) && payload == PayloadOf(codec, m)
      requires repo.lastId == before + n && repo.rows == rows + FiledRows(codec, m, context, repo.clock, before, n)
      modifies repo
      ensures ok == !throws && repo.Valid()
      ensures repo.rows == old(repo.rows) +
              if throws then []
              else
                [Event(repo.lastId, topic, item, repo.clock(repo.lastId), context.manufacturer, context.serialNumber,
                       context.manufacturer + "." + context.serialNumber, direction, Some(header.headerId),
                       Some(header.version), Some(header.timestamp), payload)]
      ensures var more := if ok then n + 1 else n;
              && repo.lastId == before + more && repo.rows == rows + FiledRows(codec, m, context, repo.clock, before, more)
              && Filing(codec, repo.rows, cuts, m, context, more, |rows|)
    {
      hide Inv, Filed, Filing, RoundTrips, ItemsOf;
      ok := InsertEvent(topic, item, context, direction, header, payload, throws);
      if ok {
        FileItem(codec, old(repo.rows), cuts, m, context, n, |rows|, repo.lastId, repo.clock(repo.lastId));
        FiledShape(codec, m, context, item, repo.lastId, repo.clock(repo.lastId));
      }
    }

    /** Closes a message of which n items have been filed. */
    ghost method Close(m: Message, context: TopicContext, throws: nat -> bool, n: nat, rows: seq<Event>, before: nat,
                       ok: bool)
      requires RoundTrips(codec) && repo.Valid() && Filing(codec, repo.rows, cuts, m, context, n, |rows|)
      requires repo.lastId == before + n && n <= |ItemsOf(m, context)|
      requires repo.rows == rows + FiledRows(codec, m, context, repo.clock, before, n)
      requires (forall i :: 0 <= i < n ==> !throws(i)) && (n < |ItemsOf(m, context)| ==> throws(n))
      requires ok == (n == |ItemsOf(m, context)|)
      modifies this`cuts
      ensures HasRecorded(m, context, throws, rows, before, old(cuts), ok)
    {
      hide Inv, Filed, Filing, RoundTrips, ItemsOf, FiledRows, CutsOf;
      CompletedAt(throws, n, |ItemsOf(m, context)|);
      FinishFiling(codec, repo.rows, cuts, m, context, n, |rows|);
      cuts := cuts + CutsOf(m, context, n, |rows|);
    }

    /** Files a message that carries one item. */
    method InsertSingle(ghost m: Message, topic: string, item: string, context: TopicContext, direction: string,
                        header: Header, payload: string, throws: nat -> bool) returns (ok: bool)
      requires Valid()
      requires topic == TopicOfMessage(m, RECORDED_ACTIONS_TOPIC) && direction == DirectionOf(m)
      requires ItemsOf(m, context) == [item] && header == HeaderOf(m) && payload == PayloadOf(codec, m)
      modifies repo, this`cuts
      ensures HasRecorded(m, context, throws, old(repo.rows), old(repo.lastId), old(cuts), ok)
      ensures ok == !throws(0)
      ensures repo.rows == old(repo.rows) +
              if throws(0) then []
              else
                [Event(repo.lastId, topic, item, repo.clock(repo.lastId), context.manufacturer, context.serialNumber,
                       context.manufacturer + "." + context.serialNumber, direction, Some(header.headerId),
                       Some(header.version), Some(header.timestamp), payload)]
    {
      hide Inv, Filed, Filing, RoundTrips;
      ghost var rows, before := repo.rows, repo.lastId;
      StartFiling(codec, repo.rows, cuts, m, context);
      assert repo.rows == rows + FiledRows(codec, m, context, repo.clock, before, 0);
      ok := InsertItem(m, 0, rows, before, topic, item, context, direction, header, payload, throws(0));
      Close(m, context, throws, if ok then 1 else 0, rows, before, ok);
    }

    /** What the recorder's callback does for a message, by the message's kind. An insert that
        throws ends it; the dispatch that called it catches the exception. */
    method Record(m: Message, context: TopicContext, throws: nat -> bool) returns (ok: bool)
      requires Valid()
      modifies repo, this`cuts
      ensures HasRecorded(m, context, throws, old(repo.rows), old(repo.lastId), old(cuts), ok)
    {
      hide Inv, Filed, Valid, FiledRows, RoundTrips, HasRecorded;
      match m
      case OfState(msg) => ok := OnState(msg, context, throws);
      case OfVisualization(msg) => ok := OnVisualization(msg, context, throws);
      case OfConnection(msg) => ok := OnConnection(msg, context, throws);
      case OfFactsheet(msg) => ok := OnFactSheet(msg, context, throws);
      case OfOrder(msg) => ok := OnOrder(msg, context, throws);
      case OfActions(msg) => ok := OnInstantActions(msg, context, throws);
      case OfResponses(msg) => ok := OnResponses(msg, context, throws);
      case OfZoneSet(msg) => ok := OnZoneSet(msg, context, throws);
    }

    /** The calls that one accepted message causes at an endpoint whose list holds the
        recorder's callback once: the message is recorded once, whatever else is called. */
    method OnCalls(calls: seq<Call>, m: Message, context: TopicContext, throws: nat -> bool, ghost snapshot: seq<nat>,
                   ghost template: TopicContext, ghost recode: Recoder, ghost topic: string, ghost payload: string)
      returns (ok: bool)
      requires Valid() && Times(RECORD, snapshot) == 1
      requires calls == CallsFor(template, recode, KindOf(m), snapshot, false, topic, payload)
      requires ParseTopicContext(template, topic, SuffixOf(KindOf(m))) == Some(context)
      requires recode(KindOf(m), payload).Some?
      modifies repo, this`cuts
      ensures HasRecorded(m, context, throws, old(repo.rows), old(repo.lastId), old(cuts), ok)
      ensures forall e :: e in repo.rows[|old(repo.rows)|..] ==>
                topic == template.interfaceName + "/" + template.majorVersion + "/" + e.manufacturer + "/" +
                         e.serialNumber + "/" + e.topic
    {
      hide Inv, Filed, FiledRows, RoundTrips, HasRecorded, Completed, ParseTopicContext, SuffixOf;
      ok := true;
      assert snapshot[..|calls|] == snapshot;
      for i := 0 to |calls|
        invariant Times(RECORD, snapshot[..i]) <= 1
        invariant Times(RECORD, snapshot[..i]) == 0 ==>
                    Valid() && repo.rows == old(repo.rows) && repo.lastId == old(repo.lastId) && cuts == old(cuts)
        invariant Times(RECORD, snapshot[..i]) == 1 ==>
                    HasRecorded(m, context, throws, old(repo.rows), old(repo.lastId), old(cuts), ok)
      {
        assert snapshot[..i + 1] == snapshot[..i] + [snapshot[i]];
        assert snapshot == snapshot[..i + 1] + snapshot[i + 1..];
        assert multiset(snapshot) == multiset(snapshot[..i + 1]) + multiset(snapshot[i + 1..]);
        if calls[i].callback == RECORD {
          ok := Record(m, calls[i].context, throws);
        }
      }
      RowsUnderTopic(m, context, throws, old(repo.rows), old(repo.lastId), old(cuts), ok, template, topic);
    }

    /** Each recorded row spells the topic that its message came under. */
    lemma RowsUnderTopic(m: Message, context: TopicContext, throws: nat -> bool, rows: seq<Event>, lastId: nat,
                         before: seq<Cut>, ok: bool, template: TopicContext, topic: string)
      requires HasRecorded(m, context, throws, rows, lastId, before, ok)
      requires ParseTopicContext(template, topic, SuffixOf(KindOf(m))) == Some(context)
      ensures forall e :: e in repo.rows[|rows|..] ==>
                topic == template.interfaceName + "/" + template.majorVersion + "/" + e.manufacturer + "/" +
                         e.serialNumber + "/" + e.topic
    {
      hide Inv, Filed, FiledRows, RoundTrips, ParseTopicContext, SuffixOf, TopicOfMessage, ItemsOf, Spell, Completed;
      FiledUnderSuffix(m);
      ParseShape(template, topic, SuffixOf(KindOf(m)));
      SpelledTopic(template, context, SuffixOf(KindOf(m)));
      RowsRecorded(m, context, throws, rows, lastId, before, ok);
      forall e | e in repo.rows[|rows|..]
        ensures e.manufacturer == context.manufacturer && e.serialNumber == context.serialNumber
        ensures e.topic == SuffixOf(KindOf(m))
      {
        var i :| 0 <= i < |repo.rows| - |rows| && repo.rows[|rows|..][i] == e;
        assert e == repo.rows[|rows| + i] && e.itemId == ItemsOf(m, context)[i];
      }
    }

    lemma SpelledTopic(template: TopicContext, context: TopicContext, suffix: string)
      ensures Spell(template, context.manufacturer, context.serialNumber, suffix) ==
              template.interfaceName + "/" + template.majorVersion + "/" + context.manufacturer + "/" +
              context.serialNumber + "/" + suffix
    {
    }

    method OnState(msg: StateMsg, context: TopicContext, throws: nat -> bool) returns (ok: bool)
      requires Valid()
      modifies repo, this`cuts
      ensures HasRecorded(OfState(msg), context, throws, old(repo.rows), old(repo.lastId), old(cuts), ok)
      ensures ok == !throws(0)
      ensures repo.rows == old(repo.rows) +
              if throws(0) then []
              else
                [Event(repo.lastId, "state", context.manufacturer + "." + context.serialNumber, repo.clock(repo.lastId),
                       context.manufacturer, context.serialNumber, context.manufacturer + "." + context.serialNumber,
                       "uplink", Some(msg.header.headerId), Some(msg.header.version), Some(msg.header.timestamp),
                       codec.dumpState(msg))]
    {
      hide HasRecorded, RoundTrips, Inv;
      ok := InsertSingle(OfState(msg), STATE_TOPIC, context.manufacturer + "." + context.serialNumber, context, "uplink",
                         msg.header, codec.dumpState(msg), throws);
    }

    method OnVisualization(msg: VisualizationMsg, context: TopicContext, throws: nat -> bool) returns (ok: bool)
      requires Valid()
      modifies repo, this`cuts
      ensures HasRecorded(OfVisualization(msg), context, throws, old(repo.rows), old(repo.lastId), old(cuts), ok)
      ensures ok == !throws(0)
      ensures repo.rows == old(repo.rows) +
              if throws(0) then []
              else
                [Event(repo.lastId, "visualization", context.manufacturer + "." + context.serialNumber, repo.clock(repo.lastId),
                       context.manufacturer, context.serialNumber, context.manufacturer + "." + context.serialNumber,
                       "uplink", Some(msg.header.headerId), Some(msg.header.version), Some(msg.header.timestamp),
                       codec.dumpVisualization(msg))]
    {
      hide HasRecorded, RoundTrips, Inv;
      ok := InsertSingle(OfVisualization(msg), VISUALIZATION_TOPIC, context.manufacturer + "." + context.serialNumber,
                         context, "uplink", msg.header, codec.dumpVisualization(msg), throws);
    }

    method OnConnection(msg: ConnectionMsg, context: TopicContext, throws: nat -> bool) returns (ok: bool)
      requires Valid()
      modifies repo, this`cuts
      ensures HasRecorded(OfConnection(msg), context, throws, old(repo.rows), old(repo.lastId), old(cuts), ok)
      ensures ok == !throws(0)
      ensures repo.rows == old(repo.rows) +
              if throws(0) then []
              else
                [Event(repo.lastId, "connection", context.manufacturer + "." + context.serialNumber, repo.clock(repo.lastId),
                       context.manufacturer, context.serialNumber, context.manufacturer + "." + context.serialNumber,
                       "uplink", Some(msg.header.headerId), Some(msg.header.version), Some(msg.header.timestamp),
                       codec.dumpConnection(msg))]
    {
      hide HasRecorded, RoundTrips, Inv;
      ok := InsertSingle(OfConnection(msg), CONNECTION_TOPIC, context.manufacturer + "." + context.serialNumber, context,
                         "uplink", msg.header, codec.dumpConnection(msg), throws);
    }

    method OnFactSheet(msg: FactsheetMsg, context: TopicContext, throws: nat -> bool) returns (ok: bool)
      requires Valid()
      modifies repo, this`cuts
      ensures HasRecorded(OfFactsheet(msg), context, throws, old(repo.rows), old(repo.lastId), old(cuts), ok)
      ensures ok == !throws(0)
      ensures repo.rows == old(repo.rows) +
              if throws(0) then []
              else
                [Event(repo.lastId, "factsheet", context.manufacturer + "." + context.serialNumber, repo.clock(repo.lastId),
                       context.manufacturer, context.serialNumber, context.manufacturer + "." + context.serialNumber,
                       "uplink", Some(msg.header.headerId), Some(msg.header.version), Some(msg.header.timestamp),
                       codec.dumpFactsheet(msg))]
    {
      hide HasRecorded, RoundTrips, Inv;
      ok := InsertSingle(OfFactsheet(msg), FACTSHEET_TOPIC, context.manufacturer + "." + context.serialNumber, context,
                         "uplink", msg.header, codec.dumpFactsheet(msg), throws);
    }

    method OnOrder(msg: OrderMsg, context: TopicContext, throws: nat -> bool) returns (ok: bool)
      requires Valid()
      modifies repo, this`cuts
      ensures HasRecorded(OfOrder(msg), context, throws, old(repo.rows), old(repo.lastId), old(cuts), ok)
      ensures ok == !throws(0)
      ensures repo.rows == old(repo.rows) +
              if throws(0) then []
              else
                [Event(repo.lastId, "order", msg.orderId, repo.clock(repo.lastId),
                       context.manufacturer, context.serialNumber, context.manufacturer + "." + context.serialNumber,
                       "downlink", Some(msg.header.headerId), Some(msg.header.version), Some(msg.header.timestamp),
                       codec.dumpOrder(msg))]
    {
      hide HasRecorded, RoundTrips, Inv;
      ok := InsertSingle(OfOrder(msg), ORDER_TOPIC, msg.orderId, context, "downlink", msg.header, codec.dumpOrder(msg),
                         throws);
    }

    method OnInstantActions(msg: InstantActionsMsg, context: TopicContext, throws: nat -> bool) returns (ok: bool)
      requires Valid()
      modifies repo, this`cuts
      ensures HasRecorded(OfActions(msg), context, throws, old(repo.rows), old(repo.lastId), old(cuts), ok)
      ensures old(repo.rows) <= repo.rows
      ensures var filed := |repo.rows| - |old(repo.rows)|;
              && filed <= |msg.actions| && ok == (filed == |msg.actions|)
              && (forall i :: 0 <= i < filed ==> !throws(i)) && (!ok ==> throws(filed))
              && forall i :: 0 <= i < filed ==>
                   repo.rows[|old(repo.rows)| + i] ==
                   Event(old(repo.lastId) + 1 + i, "instantActions", msg.actions[i].actionId,
                         repo.clock(old(repo.lastId) + 1 + i), context.manufacturer, context.serialNumber,
                         context.manufacturer + "." + context.serialNumber, "downlink", Some(msg.header.headerId),
                         Some(msg.header.version), Some(msg.header.timestamp), codec.dumpActions(msg))
    {
      hide Inv, Filed, Filing, RoundTrips, Ascending, HasRecorded, FiledRows, ItemsOf;
      var payload := codec.dumpActions(msg);
      ghost var m, rows, before := OfActions(msg), repo.rows, repo.lastId;
      ItemsOfSeveral(m, context);
      NoneFiled(codec, m, context, repo.clock, before, rows);
      StartFiling(codec, repo.rows, cuts, m, context);
      for i := 0 to |msg.actions|
        invariant repo.Valid() && repo.lastId == before + i && cuts == old(cuts)
        invariant repo.rows == rows + FiledRows(codec, m, context, repo.clock, before, i)
        invariant Filing(codec, repo.rows, cuts, m, context, i, |rows|)
        invariant forall j :: 0 <= j < i ==> !throws(j)
      {
        ok := InsertItem(m, i, rows, before, RECORDED_ACTIONS_TOPIC, msg.actions[i].actionId, context, "downlink",
                         msg.header, payload, throws(i));
        if !ok {
          Close(m, context, throws, i, rows, before, false);
          RowsRecorded(m, context, throws, rows, before, old(cuts), false);
          return false;
        }
      }
      Close(m, context, throws, |msg.actions|, rows, before, true);
      RowsRecorded(m, context, throws, rows, before, old(cuts), true);
      return true;
    }

    method OnResponses(msg: ResponsesMsg, context: TopicContext, throws: nat -> bool) returns (ok: bool)
      requires Valid()
      modifies repo, this`cuts
      ensures HasRecorded(OfResponses(msg), context, throws, old(repo.rows), old(repo.lastId), old(cuts), ok)
      ensures old(repo.rows) <= repo.rows
      ensures var filed := |repo.rows| - |old(repo.rows)|;
              && filed <= |msg.responses| && ok == (filed == |msg.responses|)
              && (forall i :: 0 <= i < filed ==> !throws(i)) && (!ok ==> throws(filed))
              && forall i :: 0 <= i < filed ==>
                   repo.rows[|old(repo.rows)| + i] ==
                   Event(old(repo.lastId) + 1 + i, "responses", msg.responses[i].requestId,
                         repo.clock(old(repo.lastId) + 1 + i), context.manufacturer, context.serialNumber,
                         context.manufacturer + "." + context.serialNumber, "downlink", Some(msg.header.headerId),
                         Some(msg.header.version), Some(msg.header.timestamp), codec.dumpResponses(msg))
    {
      hide Inv, Filed, Filing, RoundTrips, Ascending, HasRecorded, FiledRows, ItemsOf;
      var payload := codec.dumpResponses(msg);
      ghost var m, rows, before := OfResponses(msg), repo.rows, repo.lastId;
      ItemsOfSeveral(m, context);
      NoneFiled(codec, m, context, repo.clock, before, rows);
      StartFiling(codec, repo.rows, cuts, m, context);
      for i := 0 to |msg.responses|
        invariant repo.Valid() && repo.lastId == before + i && cuts == old(cuts)
        invariant repo.rows == rows + FiledRows(codec, m, context, repo.clock, before, i)
        invariant Filing(codec, repo.rows, cuts, m, context, i, |rows|)
        invariant forall j :: 0 <= j < i ==> !throws(j)
      {
        ok := InsertItem(m, i, rows, before, RESPONSES_TOPIC, msg.responses[i].requestId, context, "downlink",
                         msg.header, payload, throws(i));
        if !ok {
          Close(m, context, throws, i, rows, before, false);
          RowsRecorded(m, context, throws, rows, before, old(cuts), false);
          return false;
        }
      }
      Close(m, context, throws, |msg.responses|, rows, before, true);
      RowsRecorded(m, context, throws, rows, before, old(cuts), true);
      return true;
    }

    method OnZoneSet(msg: ZoneSetMsg, context: TopicContext, throws: nat -> bool) returns (ok: bool)
      requires Valid()
      modifies repo, this`cuts
      ensures HasRecorded(OfZoneSet(msg), context, throws, old(repo.rows), old(repo.lastId), old(cuts), ok)
      ensures ok == !throws(0)
      ensures repo.rows == old(repo.rows) +
              if throws(0) then []
              else
                [Event(repo.lastId, "zoneSet", msg.zoneSetId, repo.clock(repo.lastId),
                       context.manufacturer, context.serialNumber, context.manufacturer + "." + context.serialNumber,
                       "downlink", Some(msg.header.headerId), Some(msg.header.version), Some(msg.header.timestamp),
                       codec.dumpZoneSet(msg))]
    {
      hide HasRecorded, RoundTrips, Inv;
      ok := InsertSingle(OfZoneSet(msg), ZONE_SET_TOPIC, msg.zoneSetId, context, "downlink", msg.header,
                         codec.dumpZoneSet(msg), throws);
    }
  }

  /** A recorder over an empty log whose codec returns what it was given. */
  method NewRecorder(clock: nat -> string, local: EndPoint, cloud: EndPoint?) returns (recorder: EventRecorder)
    ensures fresh(recorder) && fresh(recorder.repo) && recorder.repo.rows == [] && recorder.Valid()
    ensures recorder.local == local && recorder.cloud == cloud && recorder.repo.clock == clock
  {
    PlainCodec.PlainTextRoundTrips();
    var repo := new EventsRepository(clock);
    recorder := new EventRecorder(PlainCodec.PlainText(), repo, local, cloud);
  }
}
