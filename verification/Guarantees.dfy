/** What a reader of the tables sees: the fields of the newest message, keys that identify
    robots, and rows that began with what some event of the log inserted. */
module Guarantees {
  import opened Wrappers
  import opened EventLog
  import opened ReadModel
  import opened Folds
  import opened Messages
  import opened Projection
  import opened Refinement
  import opened CycleProperties
  import opened RowTimes
  import opened Topics
  import opened Recorder
  import opened Interleaving

  // ---------------------------------------------------------------- the newest message is shown

  /** The last response in a message to a request. */
  function LastResponse(responses: seq<VdaResponse>, id: string): (r: Option<nat>)
    ensures r.Some? ==> r.value < |responses| && responses[r.value].requestId == id
    ensures r.Some? ==> forall i :: r.value < i < |responses| ==> responses[i].requestId != id
    ensures r.None? ==> forall i :: 0 <= i < |responses| ==> responses[i].requestId != id
  {
    if responses == [] then None
    else if responses[|responses| - 1].requestId == id then Some(|responses| - 1)
    else
      var r := LastResponse(responses[..|responses| - 1], id);
      assert forall i :: 0 <= i < |responses| - 1 ==> responses[..|responses| - 1][i] == responses[i];
      r
  }

  lemma {:induction false} LastResponseColumns(responses: seq<VdaResponse>, e: Event, id: string)
    ensures LastColumns(ResponseWrites(responses, e), Response, id) ==
            match LastResponse(responses, id)
            case Some(i) => Some(ResponseColumns(responses[i].grantType))
            case None => None
  {
    if responses != [] {
      var ws, n := ResponseWrites(responses, e), |responses| - 1;
      assert ws[..|ws| - 1] == ResponseWrites(responses[..n], e);
      assert ws[|ws| - 1] == ResponseWrite(responses[n].requestId, e.robotId, responses[n].grantType, e.receivedAt);
      LastResponseColumns(responses[..n], e, id);
    }
  }

  /** The last action in a message with an id. */
  function LastAction(actions: seq<VdaAction>, id: string): (r: Option<nat>)
    ensures r.Some? ==> r.value < |actions| && actions[r.value].actionId == id
    ensures r.Some? ==> forall i :: r.value < i < |actions| ==> actions[i].actionId != id
    ensures r.None? ==> forall i :: 0 <= i < |actions| ==> actions[i].actionId != id
  {
    if actions == [] then None
    else if actions[|actions| - 1].actionId == id then Some(|actions| - 1)
    else
      var r := LastAction(actions[..|actions| - 1], id);
      assert forall i :: 0 <= i < |actions| - 1 ==> actions[..|actions| - 1][i] == actions[i];
      r
  }

  lemma {:induction false} LastActionColumns(actions: seq<VdaAction>, e: Event, id: string)
    ensures LastColumns(ActionWrites(actions, e), Action, id) ==
            match LastAction(actions, id)
            case Some(i) =>
              var x := actions[i];
              Some(ActionColumns(x.actionType, NullIfEmpty(x.actionDescriptor.GetOr("")), x.blockingType,
                                 NullIfEmpty(x.actionParameters.GetOr("")), e.robotId))
            case None => None
  {
    if actions != [] {
      var ws, n := ActionWrites(actions, e), |actions| - 1;
      assert ws[..|ws| - 1] == ActionWrites(actions[..n], e);
      LastActionColumns(actions[..n], e, id);
    }
  }

  /** The columns of the newest row that names a key are what an undisturbed cycle shows. */
  lemma NewestRowShown(c: Codec, log: seq<Event>, plan: seq<seq<Event>>, m: Model, g: Group, k: string, j: nat)
    requires Ascending(log) && Settled(c, log, g) && GoodAnswer(c, log, plan, g)
    requires j < |log| && NamesLast(c, log, g, k, j)
    ensures var r := Cycle(c, m, plan);
            Exists(r, TableOf(g), k) && Some(Get(r, g, k)) == EventColumns(c, log[j], g, k)
  {
    hide EventWrites, TopicOf, EventColumns, Settled, GoodAnswer, Ascending;
    LastWord(c, log, g, k, j);
    PlanNewest(c, log, plan, g, k);
    RowShown(m, Writes(c, Flatten(plan)), g, k);
  }

  /** Where every named key is filed, it is the newest row filed under the key that is shown. */
  lemma NewestFiledShown(c: Codec, log: seq<Event>, plan: seq<seq<Event>>, m: Model, g: Group, k: string, last: nat)
    requires Ascending(log) && Settled(c, log, g) && GoodAnswer(c, log, plan, g)
    requires SelfNaming(c, log) && Complete(c, log) && LatestDecode(c, log)
    requires LastIndex(log, TopicOf(g), k) == Some(last)
    ensures var r := Cycle(c, m, plan);
            Exists(r, TableOf(g), k) && Some(Get(r, g, k)) == EventColumns(c, log[last], g, k)
  {
    hide EventWrites, TopicOf, EventColumns, Settled, GoodAnswer, Ascending, LastIndex, Complete, SelfNaming, LatestDecode;
    NewestRow(c, log, g, k, last);
    PlanNewest(c, log, plan, g, k);
    RowShown(m, Writes(c, Flatten(plan)), g, k);
  }

  /** A parseable message of responses that answers a request. */
  predicate Answers(c: Codec, e: Event, id: string) {
    e.topic == TopicOf(Response) && c.parseResponses(e.payload).Some? &&
    LastResponse(c.parseResponses(e.payload).value.responses, id).Some?
  }

  lemma AnswerColumns(c: Codec, e: Event, id: string)
    ensures Answers(c, e, id) <==> EventColumns(c, e, Response, id).Some?
    ensures Answers(c, e, id) ==>
              var answers := c.parseResponses(e.payload).value.responses;
              EventColumns(c, e, Response, id) == Some(ResponseColumns(answers[LastResponse(answers, id).value].grantType))
  {
    hide EventWrites, TopicOf;
    EventWritesByTopic(c, Response, e);
    ForeignColumns(c, e, Response, id);
    if e.topic == TopicOf(Response) && c.parseResponses(e.payload).Some? {
      LastResponseColumns(c.parseResponses(e.payload).value.responses, e, id);
    }
  }

  /** However many older payloads a cycle re-applies, a request ends with its last answer in
      the newest message that names it. */
  lemma NewestAnswerShown(c: Codec, log: seq<Event>, plan: seq<seq<Event>>, m: Model, j: nat, id: string)
    requires Ascending(log) && Settled(c, log, Response) && GoodAnswer(c, log, plan, Response)
    requires j < |log| && Answers(c, log[j], id) && forall q :: j < q < |log| ==> !Answers(c, log[q], id)
    ensures var answers, r := c.parseResponses(log[j].payload).value.responses, Cycle(c, m, plan);
            id in r.actions && r.actions[id].actionStatus == answers[LastResponse(answers, id).value].grantType
  {
    hide EventWrites, TopicOf, Settled, GoodAnswer, Answers, EventColumns, Cycle, Ascending;
    forall q | j <= q < |log|
      ensures Answers(c, log[q], id) <==> EventColumns(c, log[q], Response, id).Some?
    {
      AnswerColumns(c, log[q], id);
    }
    AnswerColumns(c, log[j], id);
    NewestRowShown(c, log, plan, m, Response, id, j);
  }

  /** What the row of an item shows of a message. */
  predicate ShowsMessage(m: Message, context: TopicContext, item: string, r: Model) {
    match m
    case OfConnection(msg) =>
      item in r.robots && r.robots[item].connectionState == msg.connectionState
    case OfState(msg) =>
      item in r.robots &&
      var row := r.robots[item];
      row.operatingMode == Some(msg.operatingMode) && row.driving == msg.driving &&
      (row.paused <==> msg.paused == Some(true)) && row.batteryLevel == Some(msg.stateOfCharge) && row.charging == msg.charging
    case OfOrder(msg) =>
      item in r.orders &&
      var row := r.orders[item];
      row.orderUpdateId == msg.orderUpdateId && row.assignedRobotId == RobotId(context) &&
      row.nodes == msg.nodes && row.edges == msg.edges &&
      row.orderDescription == if msg.orderDescription == Some("") then None else msg.orderDescription
    case OfResponses(msg) =>
      LastResponse(msg.responses, item).Some? && item in r.actions &&
      r.actions[item].actionStatus == msg.responses[LastResponse(msg.responses, item).value].grantType
    case OfActions(msg) =>
      LastAction(msg.actions, item).Some? && item in r.actions &&
      var x, row := msg.actions[LastAction(msg.actions, item).value], r.actions[item];
      row.actionType == x.actionType && row.blockingType == x.blockingType && row.robotId == RobotId(context) &&
      row.actionDescriptor == (if x.actionDescriptor == Some("") then None else x.actionDescriptor) &&
      row.actionParameters == if x.actionParameters == Some("") then None else x.actionParameters
    case _ => true
  }

  /** End to end: after a cycle, the row of an item shows the fields of the newest message
      that names it, and for several mentions in that message the last one. */
  lemma NewestMessageShown(c: Codec, a: string, log: seq<Event>, plan: seq<seq<Event>>, m0: Model, j: nat,
                           m: Message, context: TopicContext, item: string)
    requires RoundTrips(c) && Ascending(log)
    requires j < |log| && log[j] == Filed(c, a, m, context, log[j].itemId, log[j].id, log[j].receivedAt)
    requires Projected(m, a) && item in ItemsOf(m, context)
    requires Settled(c, log, GroupOfMessage(m)) && GoodAnswer(c, log, plan, GroupOfMessage(m))
    requires forall q :: j < q < |log| ==> EventColumns(c, log[q], GroupOfMessage(m), item).None?
    ensures ShowsMessage(m, context, item, Cycle(c, m0, plan))
    ensures m.OfFactsheet? ==>
              var r := Cycle(c, m0, plan);
              item in r.robots && r.robots[item].factsheet == Some(c.dumpFactsheet(m.factsheet))
  {
    hide EventWrites, TopicOf, Settled, GoodAnswer, Cycle, EventColumns, Ascending;
    var g := GroupOfMessage(m);
    MessageTopic(m, a, g);
    FiledColumns(c, a, m, context, log[j], g, item);
    NewestRowShown(c, log, plan, m0, g, item, j);
  }

  /** The messages that some projector reads. */
  predicate Projected(m: Message, actionsTopic: string) {
    !m.OfVisualization? && !m.OfZoneSet? && (m.OfActions? ==> actionsTopic == INSTANT_ACTIONS_TOPIC)
  }

  function GroupOfMessage(m: Message): Group
    requires !m.OfVisualization? && !m.OfZoneSet?
  {
    match m
    case OfState(_) => State
    case OfConnection(_) => Connection
    case OfFactsheet(_) => Factsheet
    case OfOrder(_) => Order
    case OfActions(_) => Action
    case OfResponses(_) => Response
  }

  lemma MessageTopic(m: Message, a: string, g: Group)
    requires !m.OfVisualization? && !m.OfZoneSet? && g == GroupOfMessage(m)
    requires m.OfActions? ==> a == INSTANT_ACTIONS_TOPIC
    ensures TopicOfMessage(m, a) == TopicOf(g)
  {
  }

  /** The columns that a message gives to the row of one of its items. */
  function SaidColumns(c: Codec, m: Message, context: TopicContext, item: string): Option<Columns> {
    match m
    case OfConnection(msg) => Some(ConnectionColumns(msg.connectionState))
    case OfState(msg) =>
      Some(StateColumns(Some(msg.operatingMode), msg.driving, msg.paused.GetOr(false), Some(msg.stateOfCharge),
                        msg.charging))
    case OfFactsheet(msg) => Some(FactsheetColumns(Some(c.dumpFactsheet(msg))))
    case OfOrder(msg) =>
      Some(OrderColumns(msg.orderUpdateId, NullIfEmpty(msg.orderDescription.GetOr("")), RobotId(context),
                        msg.nodes, msg.edges))
    case OfResponses(msg) =>
      var last := LastResponse(msg.responses, item);
      if last.None? then None else Some(ResponseColumns(msg.responses[last.value].grantType))
    case OfActions(msg) =>
      var last := LastAction(msg.actions, item);
      if last.None? then None
      else
        var x := msg.actions[last.value];
        Some(ActionColumns(x.actionType, NullIfEmpty(x.actionDescriptor.GetOr("")), x.blockingType,
                           NullIfEmpty(x.actionParameters.GetOr("")), RobotId(context)))
    case _ => None
  }

  lemma FiledColumns(c: Codec, a: string, m: Message, context: TopicContext, e: Event, g: Group, item: string)
    requires RoundTrips(c) && e == Filed(c, a, m, context, e.itemId, e.id, e.receivedAt)
    requires !m.OfVisualization? && !m.OfZoneSet? && g == GroupOfMessage(m)
    requires e.topic == TopicOf(g) && item in ItemsOf(m, context)
    ensures EventColumns(c, e, g, item) == SaidColumns(c, m, context, item)
    ensures EventColumns(c, e, g, item).Some?
  {
    hide EventWrites, TopicOf;
    EventWritesByTopic(c, g, e);
    match m
    case OfActions(msg) => LastActionColumns(msg.actions, e, item);
    case OfResponses(msg) => LastResponseColumns(msg.responses, e, item);
    case OfState(_) => OneKey(ProjectorWrites(c, g, e)[0], g, item);
    case OfConnection(_) => OneKey(ProjectorWrites(c, g, e)[0], g, item);
    case OfFactsheet(_) => OneKey(ProjectorWrites(c, g, e)[0], g, item);
    case OfOrder(_) => OneKey(ProjectorWrites(c, g, e)[0], g, item);
  }

  // ---------------------------------------------------------------- how rows begin

  /** Every row was there at the start or still carries what some event inserted it with. */
  ghost predicate Born(c: Codec, log: seq<Event>, m0: Model, m: Model) {
    forall t, k :: Exists(m, t, k) && !Exists(m0, t, k) ==> BornFrom(c, log, m, t, k)
  }

  ghost predicate BornFrom(c: Codec, log: seq<Event>, m: Model, t: Table, k: string)
    requires Exists(m, t, k)
  {
    && (exists w :: w in Writes(c, log) && Touches(w, t, k) && GetInsertOnly(m, t, k) == FreshInsertOnly(w))
    && (exists w :: w in Writes(c, log) && Touches(w, t, k) && GetStamp(m, t, k) == w.at)
    && (t == InstantActions ==>
          exists w :: w in Writes(c, log) && Touches(w, t, k) && Get(m, Action, k).robotId == w.robotId)
  }

  lemma BornNext(c: Codec, m0: Model, s: System, move: Move)
    requires Enabled(c, s, move) && BatchInLog(s) && Born(c, s.log, m0, s.model)
    ensures var r := Next(c, s, move); Born(c, r.log, m0, r.model)
  {
    hide EventWrites, TopicOf, Apply, GetInsertOnly, GetStamp, Exists, FreshInsertOnly, Touches;
    var r := Next(c, s, move);
    if move.Insert? {
      var more := s.log + [move.event];
      assert more[..|more| - 1] == s.log;
      forall t, k | Exists(r.model, t, k) && !Exists(m0, t, k)
        ensures BornFrom(c, r.log, r.model, t, k)
      {
        assert BornFrom(c, s.log, s.model, t, k);
      }
    } else if move.WriteItem? {
      var e := s.loop.batch[0];
      var w := EventWrites(c, e)[s.loop.item];
      assert e in s.log;
      WritesSource(c, s.log, w);
      forall t, k | Exists(r.model, t, k) && !Exists(m0, t, k)
        ensures BornFrom(c, r.log, r.model, t, k)
      {
        BornApply(c, s.log, s.model, w, t, k);
      }
    }
  }

  lemma BornApply(c: Codec, log: seq<Event>, m: Model, w: Write, t: Table, k: string)
    requires w in Writes(c, log) && Exists(Apply(m, w), t, k)
    requires Exists(m, t, k) ==> BornFrom(c, log, m, t, k)
    ensures BornFrom(c, log, Apply(m, w), t, k)
  {
    hide EventWrites, TopicOf, Apply, GetInsertOnly, GetStamp, Exists, FreshInsertOnly;
    ApplyLaw(m, w);
    assert Exists(m, t, k) || Touches(w, t, k);
  }

  lemma {:induction false} RunBorn(c: Codec, run: seq<System>, moves: seq<Move>, n: nat)
    requires IsRun(c, run, moves) && n < |run|
    ensures Born(c, run[n].log, run[0].model, run[n].model)
  {
    hide EventWrites, TopicOf, Next, Enabled, Born;
    if n == 0 {
      BornStart(c, run[0].log, run[0].model);
    } else {
      RunBorn(c, run, moves, n - 1);
      RunExplained(c, run, moves, n - 1);
      BornNext(c, run[0].model, run[n - 1], moves[n - 1]);
    }
  }

  lemma BornStart(c: Codec, log: seq<Event>, m: Model)
    ensures Born(c, log, m, m)
  {
  }

  ghost predicate RobotKeyed(m: Model) {
    forall k :: k in m.robots ==> k == m.robots[k].manufacturer + "." + m.robots[k].serialNumber
  }

  ghost predicate RobotIdsComposed(log: seq<Event>) {
    forall e :: e in log ==> e.robotId == e.manufacturer + "." + e.serialNumber
  }

  /** A robot write repeats the identity of its event. */
  lemma RobotWriteIdentity(c: Codec, e: Event, w: Write)
    requires w in EventWrites(c, e) && TableOf(GroupOf(w)) == Robots
    ensures w.robotId == e.robotId && w.manufacturer == e.manufacturer && w.serialNumber == e.serialNumber
  {
    hide EventWrites, TopicOf;
    forall g | e.topic == TopicOf(g)
      ensures EventWrites(c, e) == ProjectorWrites(c, g, e)
    {
      EventWritesByTopic(c, g, e);
    }
    WriteTime(c, e, w);
    var g :| e.topic == TopicOf(g) && GroupOf(w) == g;
  }

  /** Over any run, the two times of a row that the run inserted are the receive times of
      events in the log that mention the row. */
  lemma RowTimesFromLog(c: Codec, run: seq<System>, moves: seq<Move>, n: nat, t: Table, k: string)
    requires IsRun(c, run, moves) && n < |run|
    requires Exists(run[n].model, t, k) && !Exists(run[0].model, t, k)
    ensures exists e :: e in run[n].log && e.receivedAt == CreatedAt(run[n].model, t, k) && Mentions(c, [e], t, k)
    ensures exists e :: e in run[n].log && e.receivedAt == GetStamp(run[n].model, t, k) && Mentions(c, [e], t, k)
  {
    hide EventWrites, TopicOf, GetStamp, Exists, Mentions;
    var log, m := run[n].log, run[n].model;
    RunBorn(c, run, moves, n);
    assert BornFrom(c, log, m, t, k);
    var w :| w in Writes(c, log) && Touches(w, t, k) && GetInsertOnly(m, t, k) == FreshInsertOnly(w);
    var e := Mentioner(c, log, w, t, k);
    var v :| v in Writes(c, log) && Touches(v, t, k) && GetStamp(m, t, k) == v.at;
    var d := Mentioner(c, log, v, t, k);
  }

  lemma Mentioner(c: Codec, log: seq<Event>, w: Write, t: Table, k: string) returns (e: Event)
    requires w in Writes(c, log) && Touches(w, t, k)
    ensures e in log && e.receivedAt == w.at && e.robotId == w.robotId && Mentions(c, [e], t, k)
  {
    hide EventWrites;
    WritesSource(c, log, w);
    var i :| 0 <= i < |log| && w in EventWrites(c, log[i]);
    e := log[i];
    WriteTime(c, e, w);
    WritesSource(c, [e], w);
    assert [e][0] == e;
  }

  /** Over any run, a robot row's key stays its manufacturer and serial number, and a row
      that the run inserted keeps the default management columns. */
  lemma RobotRowsIdentified(c: Codec, run: seq<System>, moves: seq<Move>, n: nat)
    requires IsRun(c, run, moves) && n < |run|
    requires RobotKeyed(run[0].model) && RobotIdsComposed(run[n].log)
    ensures RobotKeyed(run[n].model)
    ensures forall k :: k in run[n].model.robots && k !in run[0].model.robots ==>
              var row := run[n].model.robots[k];
              row.siteId == None && row.displayName == None && !row.suspended && !row.archived
  {
    hide EventWrites, TopicOf;
    RunBorn(c, run, moves, n);
    RunExplained(c, run, moves, n);
    forall k | k in run[n].model.robots
      ensures k == run[n].model.robots[k].manufacturer + "." + run[n].model.robots[k].serialNumber
      ensures k !in run[0].model.robots ==>
                var row := run[n].model.robots[k];
                row.siteId == None && row.displayName == None && !row.suspended && !row.archived
    {
      if k in run[0].model.robots {
        assert Exists(run[0].model, Robots, k);
        InsertOnlyFrozen(c, run, moves, 0, n, Robots, k);
      } else {
        assert Exists(run[n].model, Robots, k) && !Exists(run[0].model, Robots, k);
        assert BornFrom(c, run[n].log, run[n].model, Robots, k);
        var w :| w in Writes(c, run[n].log) && Touches(w, Robots, k) &&
                 GetInsertOnly(run[n].model, Robots, k) == FreshInsertOnly(w);
        WritesSource(c, run[n].log, w);
        var i :| 0 <= i < |run[n].log| && w in EventWrites(c, run[n].log[i]);
        RobotWriteIdentity(c, run[n].log[i], w);
      }
    }
  }

  /** A column group of a row that the run inserted and no message in the log has written. */
  lemma UnwrittenGroup(c: Codec, run: seq<System>, moves: seq<Move>, n: nat, g: Group, k: string)
    requires IsRun(c, run, moves) && n < |run|
    requires Exists(run[n].model, TableOf(g), k) && !Exists(run[0].model, TableOf(g), k)
    ensures BornFrom(c, run[n].log, run[n].model, TableOf(g), k)
    ensures Newest(c, run[n].log, g, k).None? ==> IsFresh(g, Get(run[n].model, g, k))
  {
    hide EventWrites, TopicOf, Newest, IsRun, BornFrom, IsFresh, Get, Exists, TableOf;
    RunBorn(c, run, moves, n);
    RunExplained(c, run, moves, n);
  }

  /** Over any run, an order that it inserted keeps the defaults of what no message says. */
  lemma InsertedOrder(c: Codec, run: seq<System>, moves: seq<Move>, n: nat, k: string)
    requires IsRun(c, run, moves) && n < |run| && k in run[n].model.orders && k !in run[0].model.orders
    ensures var row := run[n].model.orders[k]; row.status == "QUEUED" && row.siteId == "" && !row.archived
  {
    hide EventWrites, TopicOf, Newest, IsRun;
    UnwrittenGroup(c, run, moves, n, Order, k);
  }

  /** So does an action, which belongs to the robot of some event that mentions it. One that
      nothing answers waits, and one that only answers name is a zone request. */
  lemma InsertedAction(c: Codec, run: seq<System>, moves: seq<Move>, n: nat, k: string)
    requires IsRun(c, run, moves) && n < |run| && k in run[n].model.actions && k !in run[0].model.actions
    ensures var log, row := run[n].log, run[n].model.actions[k];
            && !row.retriable && row.actionResult == None && row.siteId == None && !row.archived
            && (exists e :: e in log && e.robotId == row.robotId && Mentions(c, [e], InstantActions, k))
            && (Newest(c, log, Response, k).None? ==> row.actionStatus == "WAITING")
            && (Newest(c, log, Action, k).None? ==>
                  row.actionType == "zoneRequest" && row.blockingType == "NONE" && row.actionDescriptor == None &&
                  row.actionParameters == None)
  {
    hide EventWrites, TopicOf, Newest, Mentions, IsRun;
    var log, m := run[n].log, run[n].model;
    UnwrittenGroup(c, run, moves, n, Action, k);
    UnwrittenGroup(c, run, moves, n, Response, k);
    var w :| w in Writes(c, log) && Touches(w, InstantActions, k) && Get(m, Action, k).robotId == w.robotId;
    var e := Mentioner(c, log, w, InstantActions, k);
  }

  /** A robot that has not connected is offline, and shows no state before its first one. */
  lemma InsertedRobot(c: Codec, run: seq<System>, moves: seq<Move>, n: nat, k: string)
    requires IsRun(c, run, moves) && n < |run| && k in run[n].model.robots && k !in run[0].model.robots
    ensures var log, row := run[n].log, run[n].model.robots[k];
            && (Newest(c, log, Connection, k).None? ==> row.connectionState == "OFFLINE")
            && (Newest(c, log, Factsheet, k).None? ==> row.factsheet == None)
            && (Newest(c, log, State, k).None? ==>
                  row.operatingMode == None && !row.driving && !row.paused && row.batteryLevel == None && !row.charging)
  {
    hide EventWrites, TopicOf, Newest, IsRun, BornFrom;
    UnwrittenGroup(c, run, moves, n, Connection, k);
    UnwrittenGroup(c, run, moves, n, State, k);
    UnwrittenGroup(c, run, moves, n, Factsheet, k);
  }

  /** Two robots share a key exactly when one manufacturer extends the other by a dot and
      more: never when manufacturers contain no dot. */
  lemma RobotKeyCollision(m: string, s: string, n: string, t: string)
    ensures m + "." + s == n + "." + t <==>
            || (m == n && s == t)
            || (exists x :: m == n + "." + x && t == x + "." + s)
            || (exists x :: n == m + "." + x && s == x + "." + t)
    ensures '.' !in m && '.' !in n && m + "." + s == n + "." + t ==> m == n && s == t
  {
    var a, b := m + "." + s, n + "." + t;
    if a == b {
      if |m| == |n| {
        assert m == a[..|m|] == n && s == a[|m| + 1..] == t;
      } else if |m| > |n| {
        KeyExtends(m, s, n, t);
      } else {
        KeyExtends(n, t, m, s);
      }
    }
    forall x | m == n + "." + x && t == x + "." + s
      ensures a == b
    {
      assert a == n + "." + (x + "." + s);
    }
    forall x | n == m + "." + x && s == x + "." + t
      ensures a == b
    {
      assert b == m + "." + (x + "." + t);
    }
  }

  lemma KeyExtends(m: string, s: string, n: string, t: string)
    requires m + "." + s == n + "." + t && |m| > |n|
    ensures '.' in m && exists x :: m == n + "." + x && t == x + "." + s
  {
    var a := m + "." + s;
    assert a == n + "." + t && m == a[..|m|] && n == a[..|n|];
    assert m[|n|] == a[|n|] == '.';
    var x := m[|n| + 1..];
    assert m == n + "." + x;
    assert t == a[|n| + 1..] == x + "." + s;
  }
}
