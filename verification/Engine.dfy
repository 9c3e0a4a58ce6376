/** The projection engine: six projectors over three repositories, run topic by topic. */
module Engine {
  import opened Wrappers
  import opened EventLog
  import opened ReadModel
  import opened Folds
  import opened Messages
  import opened Projection
  import opened Repositories
  import opened Projectors

  class ProjectionEngine {
    const codec: Codec
    const events: EventsRepository
    const robots: RobotsRepository
    const orders: OrdersRepository
    const actions: InstantActionsRepository
    const connectionProjector: ConnectionProjector
    const stateProjector: StateProjector
    const factsheetProjector: FactsheetProjector
    const orderProjector: OrderProjector
    const instantActionsProjector: InstantActionsProjector
    const responsesProjector: ResponsesProjector

    constructor (codec: Codec, events: EventsRepository, robots: RobotsRepository, orders: OrdersRepository,
                 actions: InstantActionsRepository)
      ensures this.codec == codec && this.events == events
      ensures this.robots == robots && this.orders == orders && this.actions == actions
      ensures Wired()
    {
      this.codec, this.events := codec, events;
      this.robots, this.orders, this.actions := robots, orders, actions;
      connectionProjector := new ConnectionProjector(codec, robots);
      stateProjector := new StateProjector(codec, robots);
      factsheetProjector := new FactsheetProjector(robots);
      orderProjector := new OrderProjector(codec, orders);
      instantActionsProjector := new InstantActionsProjector(codec, actions);
      responsesProjector := new ResponsesProjector(codec, actions);
    }

    /** Each projector writes the table it is meant to write. */
    ghost predicate Wired() {
      && connectionProjector.repo == robots && connectionProjector.codec == codec
      && stateProjector.repo == robots && stateProjector.codec == codec
      && factsheetProjector.repo == robots
      && orderProjector.repo == orders && orderProjector.codec == codec
      && instantActionsProjector.repo == actions && instantActionsProjector.codec == codec
      && responsesProjector.repo == actions && responsesProjector.codec == codec
    }

    ghost function Tables(): Model
      reads robots, orders, actions
    {
      Model(robots.rows, orders.rows, actions.rows)
    }

    /** Runs one projector on one event; the result says whether parsing succeeded. */
    method Project(g: Group, event: Event) returns (ok: bool)
      requires Wired()
      modifies robots, orders, actions
      ensures ok == Decodes(codec, g, event)
      ensures Tables() == ApplyAll(old(Tables()), ProjectorWrites(codec, g, event))
    {
      ghost var before, ws := Tables(), ProjectorWrites(codec, g, event);
      match g {
        case Connection => ok := connectionProjector.Project(event);
        case State => ok := stateProjector.Project(event);
        case Factsheet => ok := factsheetProjector.Project(event);
        case Order => ok := orderProjector.Project(event);
        case Action =>
          ok := instantActionsProjector.Project(event);
          UpsertActionsIsApplyAll(before, ws);
        case Response =>
          ok := responsesProjector.Project(event);
          UpsertActionsIsApplyAll(before, ws);
      }
      if ok && g != Action && g != Response {
        ApplyOne(before, ws[0]);
        assert ws == [ws[0]];
      }
    }

    /** One projection cycle over an unchanging log, with whatever row order each query
        plan produces. An event that fails to parse is skipped and counted. */
    method RunCycle(scans: seq<seq<nat>>) returns (plan: seq<seq<Event>>, failures: nat)
      requires Wired() && events.Valid() && |scans| == |PROJECTORS|
      requires forall p :: 0 <= p < |scans| ==> IsScan(scans[p], |events.rows|)
      modifies robots, orders, actions
      ensures IsPlan(events.rows, plan)
      ensures forall p :: 0 <= p < |scans| && IdOrder(scans[p]) ==> Ascending(plan[p])
      ensures Tables() == Cycle(codec, old(Tables()), plan)
      ensures failures == Failures(codec, Flatten(plan))
      ensures failures == |set i: nat | i < |Flatten(plan)| && !Parses(codec, Flatten(plan)[i])|
    {
      hide EventWrites, TopicOf, IsBatch, Ascending, IdOrder, ApplyAll;
      plan, failures := [], 0;
      assert Writes(codec, Flatten(plan)) == [];
      NoUpserts(Tables());
      for p := 0 to |PROJECTORS|
        invariant |plan| == p
        invariant forall q :: 0 <= q < p ==> IsBatch(events.rows, TopicOf(PROJECTORS[q]), plan[q])
        invariant forall q :: 0 <= q < p && IdOrder(scans[q]) ==> Ascending(plan[q])
        invariant Tables() == Cycle(codec, old(Tables()), plan)
        invariant failures == Failures(codec, Flatten(plan))
      {
        var batch := events.FindLatestByTopic(TopicOf(PROJECTORS[p]), scans[p]);
        failures := ProjectBatch(PROJECTORS[p], batch, failures);
        ExtendPlan(codec, old(Tables()), plan, batch);
        plan := plan + [batch];
      }
      FailuresCounted(codec, Flatten(plan));
    }

    /** The inner loop of a cycle: the rows that one query returned. */
    method ProjectBatch(g: Group, batch: seq<Event>, failuresBefore: nat) returns (failures: nat)
      requires Wired() && IsBatch(events.rows, TopicOf(g), batch)
      modifies robots, orders, actions
      ensures Tables() == ApplyAll(old(Tables()), Writes(codec, batch))
      ensures failures == failuresBefore + Failures(codec, batch)
      ensures failures == failuresBefore + |set i: nat | i < |batch| && !Parses(codec, batch[i])|
    {
      hide EventWrites, TopicOf, ProjectorWrites, Decodes, Parses, ApplyAll;
      NoUpserts(Tables());
      failures := failuresBefore;
      for b := 0 to |batch|
        invariant Tables() == ApplyAll(old(Tables()), Writes(codec, batch[..b]))
        invariant failures == failuresBefore + Failures(codec, batch[..b])
      {
        assert Selected(events.rows, TopicOf(g), batch[b]);
        var ok := Project(g, batch[b]);
        if !ok {
          failures := failures + 1;
        }
        ParsesByGroup(codec, g, batch[b]);
        EventWritesByTopic(codec, g, batch[b]);
        assert batch[..b + 1][..b] == batch[..b];
        ApplyAllConcat(old(Tables()), Writes(codec, batch[..b]), EventWrites(codec, batch[b]));
      }
      assert batch[..|batch|] == batch;
      FailuresCounted(codec, batch);
    }
  }

  lemma ApplyOne(m: Model, w: Write)
    ensures ApplyAll(m, [w]) == Apply(m, w)
  {
    assert [w][..0] == [];
  }

  function Failures(c: Codec, es: seq<Event>): nat {
    if es == [] then 0 else Failures(c, es[..|es| - 1]) + if Parses(c, es[|es| - 1]) then 0 else 1
  }

  /** They are the events that fail to parse, each counted once. */
  lemma {:induction false} FailuresCounted(c: Codec, es: seq<Event>)
    ensures Failures(c, es) == |set i: nat | i < |es| && !Parses(c, es[i])|
  {
    hide Parses;
    if es != [] {
      var n := |es| - 1;
      FailuresCounted(c, es[..n]);
      var before, all := (set i: nat | i < n && !Parses(c, es[..n][i])), (set i: nat | i < |es| && !Parses(c, es[i]));
      assert all == before + if Parses(c, es[n]) then {} else {n};
    }
  }

  lemma {:induction false} FailuresConcat(c: Codec, a: seq<Event>, b: seq<Event>)
    ensures Failures(c, a + b) == Failures(c, a) + Failures(c, b)
  {
    hide Parses;
    if b == [] {
      assert a + b == a;
    } else {
      var ab, n := a + b, |b| - 1;
      assert ab[..|ab| - 1] == a + b[..n];
      FailuresConcat(c, a, b[..n]);
    }
  }

  lemma ParsesByGroup(c: Codec, g: Group, e: Event)
    requires e.topic == TopicOf(g)
    ensures Parses(c, e) <==> Decodes(c, g, e)
  {
    forall h | e.topic == TopicOf(h)
      ensures h == g
    {
      TopicsDistinct(g, h);
    }
  }

  lemma ExtendPlan(c: Codec, m: Model, plan: seq<seq<Event>>, batch: seq<Event>)
    ensures Cycle(c, m, plan + [batch]) == ApplyAll(Cycle(c, m, plan), Writes(c, batch))
    ensures Failures(c, Flatten(plan + [batch])) == Failures(c, Flatten(plan)) + Failures(c, batch)
  {
    hide EventWrites, Parses, ApplyAll, Cycle;
    var more := plan + [batch];
    assert more[..|more| - 1] == plan;
    CyclePlus(c, m, plan, batch);
    FailuresConcat(c, Flatten(plan), batch);
  }
}
