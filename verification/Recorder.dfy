/** The event recorder: how messages become rows of the log, one row per item, and why any
    interleaving of its callback threads leaves a log that projection can trust. */
module Recorder {
  import opened Wrappers
  import opened EventLog
  import opened ReadModel
  import opened Folds
  import opened Messages
  import opened Projection
  import opened Refinement
  import opened Topics

  /** The topic under which the recorder files instant actions. It is not the topic that
      the instant-actions projector asks for. */
  const RECORDED_ACTIONS_TOPIC := "instantActions"
  const VISUALIZATION_TOPIC := "visualization"
  const ZONE_SET_TOPIC := "zoneSet"

  datatype Message =
    | OfState(state: StateMsg)
    | OfVisualization(visualization: VisualizationMsg)
    | OfConnection(connection: ConnectionMsg)
    | OfFactsheet(factsheet: FactsheetMsg)
    | OfOrder(order: OrderMsg)
    | OfActions(actions: InstantActionsMsg)
    | OfResponses(responses: ResponsesMsg)
    | OfZoneSet(zoneSet: ZoneSetMsg)

  function RobotId(context: TopicContext): string {
    context.manufacturer + "." + context.serialNumber
  }

  function TopicOfMessage(m: Message, actionsTopic: string): string {
    match m
    case OfState(_) => STATE_TOPIC
    case OfVisualization(_) => VISUALIZATION_TOPIC
    case OfConnection(_) => CONNECTION_TOPIC
    case OfFactsheet(_) => FACTSHEET_TOPIC
    case OfOrder(_) => ORDER_TOPIC
    case OfActions(_) => actionsTopic
    case OfResponses(_) => RESPONSES_TOPIC
    case OfZoneSet(_) => ZONE_SET_TOPIC
  }

  function HeaderOf(m: Message): Header {
    match m
    case OfState(s) => s.header
    case OfVisualization(v) => v.header
    case OfConnection(n) => n.header
    case OfFactsheet(f) => f.header
    case OfOrder(o) => o.header
    case OfActions(a) => a.header
    case OfResponses(r) => r.header
    case OfZoneSet(z) => z.header
  }

  function PayloadOf(c: Codec, m: Message): string {
    match m
    case OfState(s) => c.dumpState(s)
    case OfVisualization(v) => c.dumpVisualization(v)
    case OfConnection(n) => c.dumpConnection(n)
    case OfFactsheet(f) => c.dumpFactsheet(f)
    case OfOrder(o) => c.dumpOrder(o)
    case OfActions(a) => c.dumpActions(a)
    case OfResponses(r) => c.dumpResponses(r)
    case OfZoneSet(z) => c.dumpZoneSet(z)
  }

  function DirectionOf(m: Message): string {
    if m.OfState? || m.OfVisualization? || m.OfConnection? || m.OfFactsheet? then "uplink" else "downlink"
  }

  function ActionIds(actions: seq<VdaAction>): seq<string> {
    seq(|actions|, i requires 0 <= i < |actions| => actions[i].actionId)
  }

  function RequestIds(responses: seq<VdaResponse>): seq<string> {
    seq(|responses|, i requires 0 <= i < |responses| => responses[i].requestId)
  }

  /** The item ids under which a message is filed, one row each. */
  function ItemsOf(m: Message, context: TopicContext): seq<string> {
    match m
    case OfState(_) => [RobotId(context)]
    case OfVisualization(_) => [RobotId(context)]
    case OfConnection(_) => [RobotId(context)]
    case OfFactsheet(_) => [RobotId(context)]
    case OfOrder(o) => [o.orderId]
    case OfActions(a) => ActionIds(a.actions)
    case OfResponses(r) => RequestIds(r.responses)
    case OfZoneSet(z) => [z.zoneSetId]
  }

  /** A row of the log, apart from what the table assigns. */
  function Filed(c: Codec, actionsTopic: string, m: Message, context: TopicContext, item: string,
                 id: nat, receivedAt: string): Event {
    var h := HeaderOf(m);
    Event(id, TopicOfMessage(m, actionsTopic), item, receivedAt, context.manufacturer, context.serialNumber,
          RobotId(context), DirectionOf(m), Some(h.headerId), Some(h.version), Some(h.timestamp), PayloadOf(c, m))
  }

  // ---------------------------------------------------------------- what a filed row says

  lemma {:induction false} ResponseKeys(responses: seq<VdaResponse>, e: Event, k: string)
    ensures LastColumns(ResponseWrites(responses, e), Response, k).Some? <==> k in RequestIds(responses)
  {
    if responses != [] {
      var n, ws := |responses| - 1, ResponseWrites(responses, e);
      ResponseKeys(responses[..n], e, k);
      assert RequestIds(responses) == RequestIds(responses[..n]) + [responses[n].requestId];
      assert ws[..|ws| - 1] == ResponseWrites(responses[..n], e);
      assert Sets(ws[|ws| - 1], Response, k) <==> responses[n].requestId == k;
    }
  }

  lemma {:induction false} ActionKeys(actions: seq<VdaAction>, e: Event, k: string)
    ensures LastColumns(ActionWrites(actions, e), Action, k).Some? <==> k in ActionIds(actions)
  {
    if actions != [] {
      var n, ws := |actions| - 1, ActionWrites(actions, e);
      ActionKeys(actions[..n], e, k);
      assert ActionIds(actions) == ActionIds(actions[..n]) + [actions[n].actionId];
      assert ws[..|ws| - 1] == ActionWrites(actions[..n], e);
      assert Sets(ws[|ws| - 1], Action, k) <==> actions[n].actionId == k;
    }
  }

  lemma OneKey(w: Write, g: Group, k: string)
    ensures LastColumns([w], g, k) == if Sets(w, g, k) then Some(ColumnsOf(w)) else None
  {
    assert [w][..0] == [];
  }

  predicate ActionsTopicAllowed(topic: string) {
    topic == RECORDED_ACTIONS_TOPIC || topic == INSTANT_ACTIONS_TOPIC
  }

  lemma TopicGroup(m: Message, actionsTopic: string, g: Group)
    requires ActionsTopicAllowed(actionsTopic)
    ensures TopicOfMessage(m, actionsTopic) == TopicOf(g) <==>
            match m
            case OfState(_) => g == State
            case OfVisualization(_) => false
            case OfConnection(_) => g == Connection
            case OfFactsheet(_) => g == Factsheet
            case OfOrder(_) => g == Order
            case OfActions(_) => g == Action && actionsTopic == INSTANT_ACTIONS_TOPIC
            case OfResponses(_) => g == Response
            case OfZoneSet(_) => false
  {
    assert |RECORDED_ACTIONS_TOPIC| == 14 && |VISUALIZATION_TOPIC| == 13 && |ZONE_SET_TOPIC| == 7;
    match m
    case OfState(_) => if TopicOf(State) == TopicOf(g) { TopicsDistinct(State, g); }
    case OfConnection(_) => if TopicOf(Connection) == TopicOf(g) { TopicsDistinct(Connection, g); }
    case OfFactsheet(_) => if TopicOf(Factsheet) == TopicOf(g) { TopicsDistinct(Factsheet, g); }
    case OfOrder(_) => if TopicOf(Order) == TopicOf(g) { TopicsDistinct(Order, g); }
    case OfActions(_) => if TopicOf(Action) == TopicOf(g) { TopicsDistinct(Action, g); }
    case OfResponses(_) => if TopicOf(Response) == TopicOf(g) { TopicsDistinct(Response, g); }
    case _ =>
  }

  /** A filed row parses, and names exactly the items of its message. */
  lemma FiledNames(c: Codec, actionsTopic: string, m: Message, context: TopicContext, e: Event, g: Group, k: string)
    requires RoundTrips(c) && ActionsTopicAllowed(actionsTopic)
    requires e == Filed(c, actionsTopic, m, context, e.itemId, e.id, e.receivedAt)
    requires e.topic == TopicOf(g)
    ensures Decodes(c, g, e)
    ensures EventColumns(c, e, g, k).Some? <==> k in ItemsOf(m, context)
  {
    hide EventWrites, TopicOf;
    TopicGroup(m, actionsTopic, g);
    EventWritesByTopic(c, g, e);
    match m
    case OfState(s) => OneKey(ProjectorWrites(c, g, e)[0], g, k);
    case OfConnection(n) => OneKey(ProjectorWrites(c, g, e)[0], g, k);
    case OfFactsheet(f) => OneKey(ProjectorWrites(c, g, e)[0], g, k);
    case OfOrder(o) => OneKey(ProjectorWrites(c, g, e)[0], g, k);
    case OfActions(a) => ActionKeys(a.actions, e, k);
    case OfResponses(r) => ResponseKeys(r.responses, e, k);
    case _ =>
  }
}
