/** The two times of a row after a cycle. They follow the order in which the cycle runs its
    projectors, not the order in which events were received. */
module RowTimes {
  import opened Wrappers
  import opened EventLog
  import opened ReadModel
  import opened Folds
  import opened Messages
  import opened Projection
  import opened Refinement

  /** An event whose projection writes the row of a key. */
  predicate WritesRow(c: Codec, e: Event, t: Table, k: string) {
    exists w :: w in EventWrites(c, e) && Touches(w, t, k)
  }

  /** When the last of some events that write a row was received. */
  function LastTime(c: Codec, es: seq<Event>, t: Table, k: string): Option<string> {
    if es == [] then None
    else if WritesRow(c, es[|es| - 1], t, k) then Some(es[|es| - 1].receivedAt)
    else LastTime(c, es[..|es| - 1], t, k)
  }

  /** When the first of them was received. */
  function FirstTime(c: Codec, es: seq<Event>, t: Table, k: string): Option<string> {
    if es == [] then None
    else Else(FirstTime(c, es[..|es| - 1], t, k),
              if WritesRow(c, es[|es| - 1], t, k) then Some(es[|es| - 1].receivedAt) else None)
  }

  function Else(a: Option<string>, b: Option<string>): Option<string> {
    if a.Some? then a else b
  }

  lemma {:induction false} TimesConcat(c: Codec, a: seq<Event>, b: seq<Event>, t: Table, k: string)
    ensures LastTime(c, a + b, t, k) == Else(LastTime(c, b, t, k), LastTime(c, a, t, k))
    ensures FirstTime(c, a + b, t, k) == Else(FirstTime(c, a, t, k), FirstTime(c, b, t, k))
  {
    hide WritesRow;
    if b == [] {
      assert a + b == a;
    } else {
      var ab, n := a + b, |b| - 1;
      assert ab[..|ab| - 1] == a + b[..n];
      TimesConcat(c, a, b[..n], t, k);
    }
  }

  // ---------------------------------------------------------------- after any events

  lemma {:induction false} LastStampConcat(a: seq<Write>, b: seq<Write>, t: Table, k: string)
    ensures LastStamp(a + b, t, k) == Else(LastStamp(b, t, k), LastStamp(a, t, k))
  {
    hide Touches;
    if b == [] {
      assert a + b == a;
    } else {
      var ab, n := a + b, |b| - 1;
      assert ab[..|ab| - 1] == a + b[..n];
      LastStampConcat(a, b[..n], t, k);
    }
  }

  lemma {:induction false} FirstTouchConcat(a: seq<Write>, b: seq<Write>, t: Table, k: string)
    ensures FirstTouch(a + b, t, k) == if FirstTouch(a, t, k).Some? then FirstTouch(a, t, k) else FirstTouch(b, t, k)
  {
    hide Touches;
    if b == [] {
      assert a + b == a;
    } else {
      var ab, n := a + b, |b| - 1;
      assert ab[..|ab| - 1] == a + b[..n];
      FirstTouchConcat(a, b[..n], t, k);
    }
  }

  function TimeOf(w: Option<Write>): Option<string> {
    match w case None => None case Some(x) => Some(x.at)
  }

  lemma {:induction false} LastStampFrom(ws: seq<Write>, t: Table, k: string) returns (w: Write)
    requires LastStamp(ws, t, k).Some?
    ensures w in ws && Touches(w, t, k) && LastStamp(ws, t, k) == Some(w.at)
  {
    hide Touches;
    if Touches(ws[|ws| - 1], t, k) {
      w := ws[|ws| - 1];
    } else {
      w := LastStampFrom(ws[..|ws| - 1], t, k);
    }
  }

  /** All writes of an event carry its receive time. */
  lemma EventTimes(c: Codec, e: Event, t: Table, k: string)
    ensures LastStamp(EventWrites(c, e), t, k) == if WritesRow(c, e, t, k) then Some(e.receivedAt) else None
    ensures TimeOf(FirstTouch(EventWrites(c, e), t, k)) == if WritesRow(c, e, t, k) then Some(e.receivedAt) else None
  {
    hide EventWrites, Touches;
    var ws := EventWrites(c, e);
    forall w | w in ws
      ensures w.at == e.receivedAt
    {
      WriteTime(c, e, w);
    }
    LastStampSome(ws, t, k);
    if LastStamp(ws, t, k).Some? {
      var w := LastStampFrom(ws, t, k);
    }
  }

  lemma {:induction false} ItemTimes(actions: seq<VdaAction>, responses: seq<VdaResponse>, e: Event)
    ensures forall w :: w in ActionWrites(actions, e) ==> w.at == e.receivedAt && w.robotId == e.robotId
    ensures forall w :: w in ResponseWrites(responses, e) ==> w.at == e.receivedAt && w.robotId == e.robotId
    decreases |actions| + |responses|
  {
    if actions != [] {
      ItemTimes(actions[..|actions| - 1], responses, e);
    } else if responses != [] {
      ItemTimes(actions, responses[..|responses| - 1], e);
    }
  }

  /** Every write of an event carries its receive time and its robot, and is for its topic. */
  lemma WriteTime(c: Codec, e: Event, w: Write)
    requires w in EventWrites(c, e)
    ensures w.at == e.receivedAt && w.robotId == e.robotId && e.topic == TopicOf(GroupOf(w))
  {
    hide EventWrites, TopicOf;
    var g := GroupOf(w);
    EventWritesByTopic(c, g, e);
    match g
    case Action => ItemTimes(c.parseActions(e.payload).value.actions, [], e);
    case Response => ItemTimes([], c.parseResponses(e.payload).value.responses, e);
    case _ =>
  }

  lemma {:induction false} WrittenTimes(c: Codec, es: seq<Event>, t: Table, k: string)
    ensures LastStamp(Writes(c, es), t, k) == LastTime(c, es, t, k)
    ensures TimeOf(FirstTouch(Writes(c, es), t, k)) == FirstTime(c, es, t, k)
  {
    hide EventWrites, WritesRow;
    if es != [] {
      var n := |es| - 1;
      WrittenTimes(c, es[..n], t, k);
      EventTimes(c, es[n], t, k);
      LastStampConcat(Writes(c, es[..n]), EventWrites(c, es[n]), t, k);
      FirstTouchConcat(Writes(c, es[..n]), EventWrites(c, es[n]), t, k);
    }
  }

  lemma {:induction false} BothOrNone(c: Codec, es: seq<Event>, t: Table, k: string)
    ensures FirstTime(c, es, t, k).Some? <==> LastTime(c, es, t, k).Some?
  {
    hide WritesRow;
    if es != [] {
      BothOrNone(c, es[..|es| - 1], t, k);
    }
  }

  /** The row and its two times after projecting some events onto some tables. */
  ghost predicate Timed(m: Model, r: Model, t: Table, k: string, first: Option<string>, last: Option<string>) {
    && (Exists(r, t, k) <==> Exists(m, t, k) || last.Some?)
    && (last.Some? ==> GetStamp(r, t, k) == last.value)
    && (last.None? && Exists(m, t, k) ==> GetStamp(r, t, k) == GetStamp(m, t, k))
    && (Exists(m, t, k) ==> CreatedAt(r, t, k) == CreatedAt(m, t, k))
    && (!Exists(m, t, k) && last.Some? ==> first.Some? && CreatedAt(r, t, k) == first.value)
  }

  function CreatedAt(m: Model, t: Table, k: string): string
    requires Exists(m, t, k)
  {
    GetInsertOnly(m, t, k).createdAt
  }

  lemma TimesAfter(c: Codec, m: Model, es: seq<Event>, t: Table, k: string)
    ensures Timed(m, ApplyAll(m, Writes(c, es)), t, k, FirstTime(c, es, t, k), LastTime(c, es, t, k))
  {
    hide EventWrites, WritesRow, GetStamp, Exists, LastTime, FirstTime;
    ApplyAllLaw(m, Writes(c, es));
    WrittenTimes(c, es, t, k);
    BothOrNone(c, es, t, k);
  }

  // ---------------------------------------------------------------- after a cycle

  lemma FlattenSix(plan: seq<seq<Event>>)
    requires |plan| == 6
    ensures Flatten(plan) == ((((plan[0] + plan[1]) + plan[2]) + plan[3]) + plan[4]) + plan[5]
  {
    assert plan[..5][..4] == plan[..4] && plan[..4][..3] == plan[..3];
    assert plan[..3][..2] == plan[..2] && plan[..2][..1] == plan[..1];
    assert Flatten(plan[..1]) == plan[0] by { assert plan[..1][..0] == []; }
    assert Flatten(plan[..2]) == plan[0] + plan[1];
    assert Flatten(plan[..3]) == (plan[0] + plan[1]) + plan[2];
    assert Flatten(plan[..4]) == ((plan[0] + plan[1]) + plan[2]) + plan[3];
    assert Flatten(plan[..5]) == (((plan[0] + plan[1]) + plan[2]) + plan[3]) + plan[4];
  }

  /** The answer of a plan for a column group. */
  function AnswerOf(plan: seq<seq<Event>>, g: Group): seq<Event>
    requires |plan| == |PROJECTORS|
  {
    plan[Position(g)]
  }

  lemma {:induction false} ForeignTimes(c: Codec, es: seq<Event>, g: Group, t: Table, k: string)
    requires (forall e :: e in es ==> e.topic == TopicOf(g)) && TableOf(g) != t
    ensures FirstTime(c, es, t, k) == LastTime(c, es, t, k) == None
  {
    hide EventWrites, TopicOf, TableOf;
    if es != [] {
      var n := |es| - 1;
      ForeignTimes(c, es[..n], g, t, k);
      EventWritesByTopic(c, g, es[n]);
    }
  }

  lemma PlanTimes(c: Codec, plan: seq<seq<Event>>, t: Table, k: string)
    requires |plan| == 6
    ensures LastTime(c, Flatten(plan), t, k) ==
            Else(LastTime(c, plan[5], t, k), Else(LastTime(c, plan[4], t, k), Else(LastTime(c, plan[3], t, k),
            Else(LastTime(c, plan[2], t, k), Else(LastTime(c, plan[1], t, k), LastTime(c, plan[0], t, k))))))
    ensures FirstTime(c, Flatten(plan), t, k) ==
            Else(FirstTime(c, plan[0], t, k), Else(FirstTime(c, plan[1], t, k), Else(FirstTime(c, plan[2], t, k),
            Else(FirstTime(c, plan[3], t, k), Else(FirstTime(c, plan[4], t, k), FirstTime(c, plan[5], t, k))))))
  {
    hide LastTime, FirstTime;
    FlattenSix(plan);
    TimesConcat(c, plan[0], plan[1], t, k);
    TimesConcat(c, plan[0] + plan[1], plan[2], t, k);
    TimesConcat(c, (plan[0] + plan[1]) + plan[2], plan[3], t, k);
    TimesConcat(c, ((plan[0] + plan[1]) + plan[2]) + plan[3], plan[4], t, k);
    TimesConcat(c, (((plan[0] + plan[1]) + plan[2]) + plan[3]) + plan[4], plan[5], t, k);
  }

  /** Where a plan has the answer to each query. */
  lemma PlanAnswers(log: seq<Event>, plan: seq<seq<Event>>, g: Group)
    requires IsPlan(log, plan)
    ensures IsBatch(log, TopicOf(g), AnswerOf(plan, g))
    ensures forall e :: e in AnswerOf(plan, g) ==> e.topic == TopicOf(g)
  {
    hide TopicOf, IsBatch;
    var answer := AnswerOf(plan, g);
    assert PROJECTORS[Position(g)] == g;
    forall e | e in answer
      ensures e.topic == TopicOf(g)
    {
      AnswerTopics(log, TopicOf(g), answer, e);
    }
  }

  lemma AnswerTopics(log: seq<Event>, topic: string, answer: seq<Event>, e: Event)
    requires IsBatch(log, topic, answer) && e in answer
    ensures e.topic == topic
  {
    var b :| 0 <= b < |answer| && answer[b] == e;
    assert Selected(log, topic, answer[b]);
  }

  lemma PlanLength(log: seq<Event>, plan: seq<seq<Event>>)
    requires IsPlan(log, plan)
    ensures |plan| == |PROJECTORS| == 6
  {
  }

  lemma ForeignAnswerTimes(c: Codec, log: seq<Event>, plan: seq<seq<Event>>, t: Table, k: string)
    requires IsPlan(log, plan)
    ensures forall g :: TableOf(g) != t ==>
              FirstTime(c, AnswerOf(plan, g), t, k) == LastTime(c, AnswerOf(plan, g), t, k) == None
  {
    hide TopicOf, IsPlan, TableOf, FirstTime, LastTime, AnswerOf;
    PlanLength(log, plan);
    forall g | TableOf(g) != t
      ensures FirstTime(c, AnswerOf(plan, g), t, k) == LastTime(c, AnswerOf(plan, g), t, k) == None
    {
      PlanAnswers(log, plan, g);
      ForeignTimes(c, AnswerOf(plan, g), g, t, k);
    }
  }

  /** The times of a robot row after a cycle. It was last updated when the last row of the
      factsheet answer that writes it was received, although newer state or connection rows
      may have been projected; failing that, by the state answer; failing that, by the
      connection answer. A row that the cycle inserts was created in the opposite order. */
  lemma RobotTimes(c: Codec, log: seq<Event>, m: Model, plan: seq<seq<Event>>, k: string)
    requires IsPlan(log, plan)
    ensures var connections, states, factsheets :=
              AnswerOf(plan, Connection), AnswerOf(plan, State), AnswerOf(plan, Factsheet);
            && IsBatch(log, "connection", connections) && IsBatch(log, "state", states)
            && IsBatch(log, "factsheet", factsheets)
            && Timed(m, Cycle(c, m, plan), Robots, k,
                     Else(FirstTime(c, connections, Robots, k), Else(FirstTime(c, states, Robots, k),
                                                                    FirstTime(c, factsheets, Robots, k))),
                     Else(LastTime(c, factsheets, Robots, k), Else(LastTime(c, states, Robots, k),
                                                                  LastTime(c, connections, Robots, k))))
  {
    hide IsPlan, FirstTime, LastTime, Timed, IsBatch, ApplyAll;
    PlanLength(log, plan);
    PlanAnswers(log, plan, Connection);
    PlanAnswers(log, plan, State);
    PlanAnswers(log, plan, Factsheet);
    TimesAfter(c, m, Flatten(plan), Robots, k);
    PlanTimes(c, plan, Robots, k);
    ForeignAnswerTimes(c, log, plan, Robots, k);
    assert FirstTime(c, AnswerOf(plan, Order), Robots, k) == LastTime(c, AnswerOf(plan, Order), Robots, k) == None;
    assert FirstTime(c, AnswerOf(plan, Action), Robots, k) == LastTime(c, AnswerOf(plan, Action), Robots, k) == None;
    assert FirstTime(c, AnswerOf(plan, Response), Robots, k) == LastTime(c, AnswerOf(plan, Response), Robots, k) == None;
  }

  /** The times of an order row: those of the one answer that writes it. */
  lemma OrderTimes(c: Codec, log: seq<Event>, m: Model, plan: seq<seq<Event>>, k: string)
    requires IsPlan(log, plan)
    ensures var answer := AnswerOf(plan, Order);
            && IsBatch(log, "order", answer)
            && Timed(m, Cycle(c, m, plan), Orders, k, FirstTime(c, answer, Orders, k), LastTime(c, answer, Orders, k))
  {
    hide IsPlan, FirstTime, LastTime, Timed, IsBatch, ApplyAll;
    PlanLength(log, plan);
    PlanAnswers(log, plan, Order);
    TimesAfter(c, m, Flatten(plan), Orders, k);
    PlanTimes(c, plan, Orders, k);
    ForeignAnswerTimes(c, log, plan, Orders, k);
    var t := Orders;
    assert FirstTime(c, AnswerOf(plan, Connection), t, k) == LastTime(c, AnswerOf(plan, Connection), t, k) == None;
    assert FirstTime(c, AnswerOf(plan, State), t, k) == LastTime(c, AnswerOf(plan, State), t, k) == None;
    assert FirstTime(c, AnswerOf(plan, Factsheet), t, k) == LastTime(c, AnswerOf(plan, Factsheet), t, k) == None;
    assert FirstTime(c, AnswerOf(plan, Action), t, k) == LastTime(c, AnswerOf(plan, Action), t, k) == None;
    assert FirstTime(c, AnswerOf(plan, Response), t, k) == LastTime(c, AnswerOf(plan, Response), t, k) == None;
  }

  /** The times of an action row: responses come after actions. */
  lemma ActionTimes(c: Codec, log: seq<Event>, m: Model, plan: seq<seq<Event>>, k: string)
    requires IsPlan(log, plan)
    ensures var actions, responses := AnswerOf(plan, Action), AnswerOf(plan, Response);
            && IsBatch(log, "instant_actions", actions) && IsBatch(log, "responses", responses)
            && Timed(m, Cycle(c, m, plan), InstantActions, k,
                     Else(FirstTime(c, actions, InstantActions, k), FirstTime(c, responses, InstantActions, k)),
                     Else(LastTime(c, responses, InstantActions, k), LastTime(c, actions, InstantActions, k)))
  {
    hide IsPlan, FirstTime, LastTime, Timed, IsBatch, ApplyAll;
    PlanLength(log, plan);
    PlanAnswers(log, plan, Action);
    PlanAnswers(log, plan, Response);
    TimesAfter(c, m, Flatten(plan), InstantActions, k);
    PlanTimes(c, plan, InstantActions, k);
    ForeignAnswerTimes(c, log, plan, InstantActions, k);
    var t := InstantActions;
    assert FirstTime(c, AnswerOf(plan, Connection), t, k) == LastTime(c, AnswerOf(plan, Connection), t, k) == None;
    assert FirstTime(c, AnswerOf(plan, State), t, k) == LastTime(c, AnswerOf(plan, State), t, k) == None;
    assert FirstTime(c, AnswerOf(plan, Factsheet), t, k) == LastTime(c, AnswerOf(plan, Factsheet), t, k) == None;
    assert FirstTime(c, AnswerOf(plan, Order), t, k) == LastTime(c, AnswerOf(plan, Order), t, k) == None;
  }

  // ---------------------------------------------------------------- over logs of single items

  lemma {:induction false} OneTime(c: Codec, es: seq<Event>, t: Table, k: string, p: nat)
    requires p < |es| && WritesRow(c, es[p], t, k)
    requires forall q :: 0 <= q < |es| && q != p ==> !WritesRow(c, es[q], t, k)
    ensures FirstTime(c, es, t, k) == LastTime(c, es, t, k) == Some(es[p].receivedAt)
  {
    hide WritesRow;
    var n := |es| - 1;
    if p == n {
      NoTime(c, es[..n], t, k);
    } else {
      OneTime(c, es[..n], t, k, p);
    }
  }

  lemma {:induction false} NoTime(c: Codec, es: seq<Event>, t: Table, k: string)
    requires forall q :: 0 <= q < |es| ==> !WritesRow(c, es[q], t, k)
    ensures FirstTime(c, es, t, k) == LastTime(c, es, t, k) == None
  {
    hide WritesRow;
    if es != [] {
      NoTime(c, es[..|es| - 1], t, k);
    }
  }

  lemma WritesRowNamed(c: Codec, e: Event, g: Group, k: string)
    requires e.topic == TopicOf(g)
    ensures WritesRow(c, e, TableOf(g), k) <==> EventColumns(c, e, g, k).Some?
  {
    hide EventWrites, TopicOf, ColumnsOf;
    EventWritesByTopic(c, g, e);
    LastColumnsSome(EventWrites(c, e), g, k);
    forall w | w in EventWrites(c, e)
      ensures Touches(w, TableOf(g), k) <==> Sets(w, g, k)
    {
    }
  }

  /** When the newest row filed under an item of a topic was received. */
  function NewestTime(log: seq<Event>, topic: string, k: string): Option<string> {
    match LastIndex(log, topic, k)
    case None => None
    case Some(i) => Some(log[i].receivedAt)
  }

  lemma SingleItemTime(c: Codec, log: seq<Event>, g: Group, answer: seq<Event>, k: string)
    requires SingleItem(c, log, g) && SelfNaming(c, log) && LatestDecode(c, log)
    requires IsBatch(log, TopicOf(g), answer)
    ensures FirstTime(c, answer, TableOf(g), k) == LastTime(c, answer, TableOf(g), k) == NewestTime(log, TopicOf(g), k)
  {
    hide EventWrites, TopicOf, TableOf, WritesRow, EventColumns, Decodes;
    var topic := TopicOf(g);
    forall p | 0 <= p < |answer|
      ensures WritesRow(c, answer[p], TableOf(g), k) <==> answer[p].itemId == k
    {
      var r := SelectedRow(log, topic, answer, p);
      WritesRowNamed(c, answer[p], g, k);
      assert EventColumns(c, log[r], g, log[r].itemId).Some?;
    }
    if LastIndex(log, topic, k).Some? {
      var i := LastIndex(log, topic, k).value;
      assert IsLatest(log, i);
      assert log[i] in answer;
      var p :| 0 <= p < |answer| && answer[p] == log[i];
      OneTime(c, answer, TableOf(g), k, p);
    } else {
      forall p | 0 <= p < |answer|
        ensures answer[p].itemId != k
      {
        var r := SelectedRow(log, topic, answer, p);
        assert !Matches(log[r], topic, k);
      }
      NoTime(c, answer, TableOf(g), k);
    }
  }

  /** Where robots' messages are filed under the one key they name, the times follow from the
      log alone, for any return order of the queries: a robot row was last updated when its
      newest factsheet was received, however old that is; without one, its newest state, and
      only without either its newest connection. */
  lemma RobotTimesFromLog(c: Codec, log: seq<Event>, m: Model, plan: seq<seq<Event>>, k: string)
    requires IsPlan(log, plan) && SelfNaming(c, log) && LatestDecode(c, log)
    requires forall g :: Snapshot(g) ==> SingleItem(c, log, g)
    ensures var connection, state, factsheet :=
              NewestTime(log, "connection", k), NewestTime(log, "state", k), NewestTime(log, "factsheet", k);
            Timed(m, Cycle(c, m, plan), Robots, k, Else(connection, Else(state, factsheet)),
                  Else(factsheet, Else(state, connection)))
    ensures var order := NewestTime(log, "order", k); Timed(m, Cycle(c, m, plan), Orders, k, order, order)
  {
    hide IsPlan, IsBatch, FirstTime, LastTime, Timed, ApplyAll, SingleItem, SelfNaming, LatestDecode, LastIndex, AnswerOf,
      NewestTime;
    PlanLength(log, plan);
    RobotTimes(c, log, m, plan, k);
    OrderTimes(c, log, m, plan, k);
    SingleItemTime(c, log, Connection, AnswerOf(plan, Connection), k);
    SingleItemTime(c, log, State, AnswerOf(plan, State), k);
    SingleItemTime(c, log, Factsheet, AnswerOf(plan, Factsheet), k);
    SingleItemTime(c, log, Order, AnswerOf(plan, Order), k);
  }
}
