/** The six projectors: each parses an event's payload and makes its repository calls. The
    result of Project says whether parsing succeeded. */
module Projectors {
  import opened Wrappers
  import opened EventLog
  import opened ReadModel
  import opened Messages
  import opened Projection
  import opened Repositories

  class ConnectionProjector {
    const codec: Codec
    const repo: RobotsRepository

    constructor (codec: Codec, repo: RobotsRepository)
      ensures this.codec == codec && this.repo == repo
    {
      this.codec, this.repo := codec, repo;
    }

    method Project(event: Event) returns (ok: bool)
      modifies repo
      ensures ok == Decodes(codec, Connection, event)
      ensures repo.rows ==
              if ok then UpsertRobot(old(repo.rows), ProjectorWrites(codec, Connection, event)[0]) else old(repo.rows)
    {
      var parsed := codec.parseConnection(event.payload);
      if parsed.None? {
        return false;
      }
      repo.UpsertConnection(event.robotId, event.manufacturer, event.serialNumber, parsed.value.connectionState,
                            event.receivedAt);
      return true;
    }
  }

  class StateProjector {
    const codec: Codec
    const repo: RobotsRepository

    constructor (codec: Codec, repo: RobotsRepository)
      ensures this.codec == codec && this.repo == repo
    {
      this.codec, this.repo := codec, repo;
    }

    method Project(event: Event) returns (ok: bool)
      modifies repo
      ensures ok == Decodes(codec, State, event)
      ensures repo.rows ==
              if ok then UpsertRobot(old(repo.rows), ProjectorWrites(codec, State, event)[0]) else old(repo.rows)
    {
      var parsed := codec.parseState(event.payload);
      if parsed.None? {
        return false;
      }
      var msg := parsed.value;
      repo.UpsertState(event.robotId, event.manufacturer, event.serialNumber, msg.operatingMode, msg.driving,
                       msg.paused.GetOr(false), msg.stateOfCharge, msg.charging, event.receivedAt);
      return true;
    }
  }

  class FactsheetProjector {
    const repo: RobotsRepository

    constructor (repo: RobotsRepository)
      ensures this.repo == repo
    {
      this.repo := repo;
    }

    method Project(event: Event) returns (ok: bool)
      modifies repo
      ensures ok
      ensures forall c :: repo.rows == UpsertRobot(old(repo.rows), ProjectorWrites(c, Factsheet, event)[0])
    {
      repo.UpsertFactsheet(event.robotId, event.manufacturer, event.serialNumber, event.payload, event.receivedAt);
      return true;
    }
  }

  class OrderProjector {
    const codec: Codec
    const repo: OrdersRepository

    constructor (codec: Codec, repo: OrdersRepository)
      ensures this.codec == codec && this.repo == repo
    {
      this.codec, this.repo := codec, repo;
    }

    method Project(event: Event) returns (ok: bool)
      modifies repo
      ensures ok == Decodes(codec, Order, event)
      ensures repo.rows ==
              if ok then UpsertOrder(old(repo.rows), ProjectorWrites(codec, Order, event)[0]) else old(repo.rows)
    {
      var parsed := codec.parseOrder(event.payload);
      if parsed.None? {
        return false;
      }
      var msg := parsed.value;
      repo.UpsertFromOrder(msg.orderId, event.robotId, msg.orderUpdateId, msg.orderDescription.GetOr(""), msg.nodes,
                           msg.edges, event.receivedAt);
      return true;
    }
  }

  /** A sequence of upserts on the instant_actions table. */
  function UpsertActions(rows: map<string, ActionRow>, ws: seq<Write>): map<string, ActionRow>
    requires forall w :: w in ws ==> TableOf(GroupOf(w)) == InstantActions
  {
    if ws == [] then rows else UpsertAction(UpsertActions(rows, ws[..|ws| - 1]), ws[|ws| - 1])
  }

  lemma {:induction false} UpsertActionsIsApplyAll(m: Model, ws: seq<Write>)
    requires forall w :: w in ws ==> TableOf(GroupOf(w)) == InstantActions
    ensures ApplyAll(m, ws) == m.(actions := UpsertActions(m.actions, ws))
  {
    if ws != [] {
      UpsertActionsIsApplyAll(m, ws[..|ws| - 1]);
    }
  }

  class InstantActionsProjector {
    const codec: Codec
    const repo: InstantActionsRepository

    constructor (codec: Codec, repo: InstantActionsRepository)
      ensures this.codec == codec && this.repo == repo
    {
      this.codec, this.repo := codec, repo;
    }

    method Project(event: Event) returns (ok: bool)
      modifies repo
      ensures ok == Decodes(codec, Action, event)
      ensures forall w :: w in ProjectorWrites(codec, Action, event) ==> GroupOf(w) == Action
      ensures repo.rows == UpsertActions(old(repo.rows), ProjectorWrites(codec, Action, event))
    {
      ProjectorWritesGroup(codec, Action, event);
      var parsed := codec.parseActions(event.payload);
      if parsed.None? {
        return false;
      }
      var items := parsed.value.actions;
      ItemWritesGroup(items, [], event);
      for i := 0 to |items|
        invariant forall w :: w in ActionWrites(items[..i], event) ==> GroupOf(w) == Action
        invariant repo.rows == UpsertActions(old(repo.rows), ActionWrites(items[..i], event))
      {
        var action := items[i];
        repo.UpsertFromAction(action.actionId, action.actionType, action.actionDescriptor.GetOr(""), action.blockingType,
                              action.actionParameters.GetOr(""), event.robotId, event.receivedAt);
        assert items[..i + 1][..i] == items[..i];
      }
      assert items[..|items|] == items;
      return true;
    }
  }

  class ResponsesProjector {
    const codec: Codec
    const repo: InstantActionsRepository

    constructor (codec: Codec, repo: InstantActionsRepository)
      ensures this.codec == codec && this.repo == repo
    {
      this.codec, this.repo := codec, repo;
    }

    method Project(event: Event) returns (ok: bool)
      modifies repo
      ensures ok == Decodes(codec, Response, event)
      ensures forall w :: w in ProjectorWrites(codec, Response, event) ==> GroupOf(w) == Response
      ensures repo.rows == UpsertActions(old(repo.rows), ProjectorWrites(codec, Response, event))
    {
      ProjectorWritesGroup(codec, Response, event);
      var parsed := codec.parseResponses(event.payload);
      if parsed.None? {
        return false;
      }
      var items := parsed.value.responses;
      ItemWritesGroup([], items, event);
      for i := 0 to |items|
        invariant forall w :: w in ResponseWrites(items[..i], event) ==> GroupOf(w) == Response
        invariant repo.rows == UpsertActions(old(repo.rows), ResponseWrites(items[..i], event))
      {
        repo.UpsertFromResponse(items[i].requestId, event.robotId, items[i].grantType, event.receivedAt);
        assert items[..i + 1][..i] == items[..i];
      }
      assert items[..|items|] == items;
      return true;
    }
  }
}
