/** From events to upserts: what each projector writes for an event, and what a projection
    cycle and a full replay of the log write in all. */
module Projection {
  import opened Wrappers
  import opened EventLog
  import opened ReadModel
  import opened Folds
  import opened Messages

  const CONNECTION_TOPIC := "connection"
  const STATE_TOPIC := "state"
  const FACTSHEET_TOPIC := "factsheet"
  const ORDER_TOPIC := "order"
  const INSTANT_ACTIONS_TOPIC := "instant_actions"
  const RESPONSES_TOPIC := "responses"

  /** The projectors in the order in which a cycle runs them. */
  const PROJECTORS: seq<Group> := [Connection, State, Factsheet, Order, Action, Response]

  function TopicOf(g: Group): string {
    match g
    case Connection => CONNECTION_TOPIC
    case State => STATE_TOPIC
    case Factsheet => FACTSHEET_TOPIC
    case Order => ORDER_TOPIC
    case Action => INSTANT_ACTIONS_TOPIC
    case Response => RESPONSES_TOPIC
  }

  /** The groups whose messages carry a single item. */
  predicate Snapshot(g: Group) {
    g == Connection || g == State || g == Factsheet || g == Order
  }

  lemma TopicsDistinct(g: Group, h: Group)
    requires TopicOf(g) == TopicOf(h)
    ensures g == h
  {
  }

  function ActionWrites(actions: seq<VdaAction>, e: Event): seq<Write> {
    if actions == [] then []
    else
      var a := actions[|actions| - 1];
      ActionWrites(actions[..|actions| - 1], e) +
      [ActionWrite(a.actionId, a.actionType, a.actionDescriptor.GetOr(""), a.blockingType,
                   a.actionParameters.GetOr(""), e.robotId, e.receivedAt)]
  }

  function ResponseWrites(responses: seq<VdaResponse>, e: Event): seq<Write> {
    if responses == [] then []
    else
      var r := responses[|responses| - 1];
      ResponseWrites(responses[..|responses| - 1], e) +
      [ResponseWrite(r.requestId, e.robotId, r.grantType, e.receivedAt)]
  }

  /** Whether a projector gets past parsing the payload. The factsheet is stored unparsed. */
  predicate Decodes(c: Codec, g: Group, e: Event) {
    match g
    case Connection => c.parseConnection(e.payload).Some?
    case State => c.parseState(e.payload).Some?
    case Factsheet => true
    case Order => c.parseOrder(e.payload).Some?
    case Action => c.parseActions(e.payload).Some?
    case Response => c.parseResponses(e.payload).Some?
  }

  /** The repository calls that one projector makes for one event. */
  function ProjectorWrites(c: Codec, g: Group, e: Event): seq<Write> {
    if !Decodes(c, g, e) then []
    else
      match g
      case Connection =>
        var m := c.parseConnection(e.payload).value;
        [ConnectionWrite(e.robotId, e.manufacturer, e.serialNumber, m.connectionState, e.receivedAt)]
      case State =>
        var m := c.parseState(e.payload).value;
        [StateWrite(e.robotId, e.manufacturer, e.serialNumber, m.operatingMode, m.driving,
                    m.paused.GetOr(false), m.stateOfCharge, m.charging, e.receivedAt)]
      case Factsheet =>
        [FactsheetWrite(e.robotId, e.manufacturer, e.serialNumber, e.payload, e.receivedAt)]
      case Order =>
        var m := c.parseOrder(e.payload).value;
        [OrderWrite(m.orderId, e.robotId, m.orderUpdateId, m.orderDescription.GetOr(""),
                    m.nodes, m.edges, e.receivedAt)]
      case Action => ActionWrites(c.parseActions(e.payload).value.actions, e)
      case Response => ResponseWrites(c.parseResponses(e.payload).value.responses, e)
  }

  lemma {:induction false} ItemWritesGroup(actions: seq<VdaAction>, responses: seq<VdaResponse>, e: Event)
    ensures forall w :: w in ActionWrites(actions, e) ==> GroupOf(w) == Action
    ensures forall w :: w in ResponseWrites(responses, e) ==> GroupOf(w) == Response
    decreases |actions| + |responses|
  {
    if actions != [] {
      ItemWritesGroup(actions[..|actions| - 1], responses, e);
    } else if responses != [] {
      ItemWritesGroup(actions, responses[..|responses| - 1], e);
    }
  }

  lemma ProjectorWritesGroup(c: Codec, g: Group, e: Event)
    ensures forall w :: w in ProjectorWrites(c, g, e) ==> GroupOf(w) == g
  {
    if Decodes(c, g, e) {
      match g
      case Action => ItemWritesGroup(c.parseActions(e.payload).value.actions, [], e);
      case Response => ItemWritesGroup([], c.parseResponses(e.payload).value.responses, e);
      case _ =>
    }
  }

  /** The repository calls for an event, by its topic; topics without projector cause none. */
  function EventWrites(c: Codec, e: Event): seq<Write> {
    if e.topic == CONNECTION_TOPIC then ProjectorWrites(c, Connection, e)
    else if e.topic == STATE_TOPIC then ProjectorWrites(c, State, e)
    else if e.topic == FACTSHEET_TOPIC then ProjectorWrites(c, Factsheet, e)
    else if e.topic == ORDER_TOPIC then ProjectorWrites(c, Order, e)
    else if e.topic == INSTANT_ACTIONS_TOPIC then ProjectorWrites(c, Action, e)
    else if e.topic == RESPONSES_TOPIC then ProjectorWrites(c, Response, e)
    else []
  }

  lemma EventWritesByTopic(c: Codec, g: Group, e: Event)
    ensures e.topic == TopicOf(g) ==> EventWrites(c, e) == ProjectorWrites(c, g, e)
    ensures e.topic == TopicOf(g) ==> forall w :: w in EventWrites(c, e) ==> GroupOf(w) == g
    ensures e.topic != TopicOf(g) ==> forall w :: w in EventWrites(c, e) ==> GroupOf(w) != g
  {
    forall h, f | TopicOf(h) == TopicOf(f)
      ensures h == f
    {
      TopicsDistinct(h, f);
    }
    forall h {
      ProjectorWritesGroup(c, h, e);
    }
  }

  /** No projector fails to parse the event. */
  predicate Parses(c: Codec, e: Event) {
    forall g: Group :: e.topic == TopicOf(g) ==> Decodes(c, g, e)
  }

  function Writes(c: Codec, es: seq<Event>): seq<Write> {
    if es == [] then [] else Writes(c, es[..|es| - 1]) + EventWrites(c, es[|es| - 1])
  }

  lemma {:induction false} WritesConcat(c: Codec, a: seq<Event>, b: seq<Event>)
    ensures Writes(c, a + b) == Writes(c, a) + Writes(c, b)
  {
    hide EventWrites;
    if b == [] {
      assert a + b == a;
    } else {
      var ab, n := a + b, |b| - 1;
      assert ab[..|ab| - 1] == a + b[..n] && ab[|ab| - 1] == b[n];
      WritesConcat(c, a, b[..n]);
      var last := EventWrites(c, b[n]);
      assert (Writes(c, a) + Writes(c, b[..n])) + last == Writes(c, a) + (Writes(c, b[..n]) + last);
    }
  }

  lemma {:induction false} WritesSource(c: Codec, es: seq<Event>, w: Write)
    ensures w in Writes(c, es) <==> exists i :: 0 <= i < |es| && w in EventWrites(c, es[i])
  {
    hide EventWrites;
    if es != [] {
      var n := |es| - 1;
      WritesSource(c, es[..n], w);
      assert forall i :: 0 <= i < n ==> es[..n][i] == es[i];
    }
  }

  /** The answers of the latest-per-item query for the first n projectors, end to end. */
  function Flatten(plan: seq<seq<Event>>): seq<Event> {
    if plan == [] then [] else Flatten(plan[..|plan| - 1]) + plan[|plan| - 1]
  }

  /** The answers that the six queries of one cycle may return over an unchanging log. */
  ghost predicate IsPlan(log: seq<Event>, plan: seq<seq<Event>>) {
    |plan| == |PROJECTORS| &&
    forall p :: 0 <= p < |plan| ==> IsBatch(log, TopicOf(PROJECTORS[p]), plan[p])
  }

  /** The read model after one undisturbed cycle. */
  function Cycle(c: Codec, m: Model, plan: seq<seq<Event>>): Model {
    ApplyAll(m, Writes(c, Flatten(plan)))
  }

  /** One more answer at the end of a cycle. */
  lemma CyclePlus(c: Codec, m: Model, plan: seq<seq<Event>>, batch: seq<Event>)
    ensures Cycle(c, m, plan + [batch]) == ApplyAll(Cycle(c, m, plan), Writes(c, batch))
  {
    hide EventWrites, ApplyAll;
    var more := plan + [batch];
    assert more[..|more| - 1] == plan;
    WritesConcat(c, Flatten(plan), batch);
    ApplyAllConcat(m, Writes(c, Flatten(plan)), Writes(c, batch));
  }

  /** The read model after projecting every event of the log in id order. */
  function Replay(c: Codec, m: Model, log: seq<Event>): Model {
    ApplyAll(m, Writes(c, log))
  }
}
