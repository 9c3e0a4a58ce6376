/** The read model as values: three tables, the partial-column upserts that the projectors
    issue, and the laws that folds of such upserts obey. */
module ReadModel {
  import opened Wrappers

  datatype RobotRow = RobotRow(
    manufacturer: string,
    serialNumber: string,
    siteId: Option<string>,
    displayName: Option<string>,
    connectionState: string,
    operatingMode: Option<string>,
    driving: bool,
    paused: bool,
    batteryLevel: Option<Decimal>,
    charging: bool,
    suspended: bool,
    archived: bool,
    factsheet: Option<string>,
    lastUpdatedAt: string,
    createdAt: string)

  datatype OrderRow = OrderRow(
    orderUpdateId: int,
    orderDescription: Option<string>,
    status: string,
    assignedRobotId: string,
    siteId: string,
    nodes: string,
    edges: string,
    archived: bool,
    createdAt: string,
    lastUpdatedAt: string)

  datatype ActionRow = ActionRow(
    actionType: string,
    actionDescriptor: Option<string>,
    blockingType: string,
    actionParameters: Option<string>,
    retriable: bool,
    actionStatus: string,
    actionResult: Option<string>,
    robotId: string,
    siteId: Option<string>,
    archived: bool,
    createdAt: string,
    lastUpdatedAt: string)

  datatype Model = Model(
    robots: map<string, RobotRow>,
    orders: map<string, OrderRow>,
    actions: map<string, ActionRow>)

  /** One call of a projector on a repository. */
  datatype Write =
    | ConnectionWrite(robotId: string, manufacturer: string, serialNumber: string,
                      connectionState: string, at: string)
    | StateWrite(robotId: string, manufacturer: string, serialNumber: string, operatingMode: string,
                 driving: bool, paused: bool, batteryLevel: Decimal, charging: bool, at: string)
    | FactsheetWrite(robotId: string, manufacturer: string, serialNumber: string,
                     factsheet: string, at: string)
    | OrderWrite(orderId: string, robotId: string, orderUpdateId: int, orderDescription: string,
                 nodes: string, edges: string, at: string)
    | ActionWrite(actionId: string, actionType: string, actionDescriptor: string,
                  blockingType: string, actionParameters: string, robotId: string, at: string)
    | ResponseWrite(actionId: string, robotId: string, actionStatus: string, at: string)

  /** The groups of columns that one kind of write overwrites on conflict. */
  datatype Group = Connection | State | Factsheet | Order | Action | Response

  datatype Table = Robots | Orders | InstantActions

  /** The values in one column group of a row. */
  datatype Columns =
    | ConnectionColumns(connectionState: string)
    | StateColumns(operatingMode: Option<string>, driving: bool, paused: bool,
                   batteryLevel: Option<Decimal>, charging: bool)
    | FactsheetColumns(factsheet: Option<string>)
    | OrderColumns(orderUpdateId: int, orderDescription: Option<string>, assignedRobotId: string,
                   nodes: string, edges: string)
    | ActionColumns(actionType: string, actionDescriptor: Option<string>, blockingType: string,
                    actionParameters: Option<string>, robotId: string)
    | ResponseColumns(actionStatus: string)

  /** The columns that only an insert writes: identity, management columns, creation time. */
  datatype InsertOnly =
    | RobotInsertOnly(manufacturer: string, serialNumber: string, siteId: Option<string>,
                      displayName: Option<string>, suspended: bool, archived: bool, createdAt: string)
    | OrderInsertOnly(status: string, orderSiteId: string, archived: bool, createdAt: string)
    | ActionInsertOnly(retriable: bool, actionResult: Option<string>, siteId: Option<string>,
                       archived: bool, createdAt: string)

  function TableOf(g: Group): Table {
    match g
    case Connection => Robots
    case State => Robots
    case Factsheet => Robots
    case Order => Orders
    case Action => InstantActions
    case Response => InstantActions
  }

  function GroupOf(w: Write): Group {
    match w
    case ConnectionWrite(_, _, _, _, _) => Connection
    case StateWrite(_, _, _, _, _, _, _, _, _) => State
    case FactsheetWrite(_, _, _, _, _) => Factsheet
    case OrderWrite(_, _, _, _, _, _, _) => Order
    case ActionWrite(_, _, _, _, _, _, _) => Action
    case ResponseWrite(_, _, _, _) => Response
  }

  function KeyOf(w: Write): string {
    match w
    case ConnectionWrite(id, _, _, _, _) => id
    case StateWrite(id, _, _, _, _, _, _, _, _) => id
    case FactsheetWrite(id, _, _, _, _) => id
    case OrderWrite(id, _, _, _, _, _, _) => id
    case ActionWrite(id, _, _, _, _, _, _) => id
    case ResponseWrite(id, _, _, _) => id
  }

  /** An empty string is bound as NULL. */
  function NullIfEmpty(s: string): Option<string> {
    if s == "" then None else Some(s)
  }

  function ColumnsOf(w: Write): Columns {
    match w
    case ConnectionWrite(_, _, _, s, _) => ConnectionColumns(s)
    case StateWrite(_, _, _, mode, driving, paused, battery, charging, _) =>
      StateColumns(Some(mode), driving, paused, Some(battery), charging)
    case FactsheetWrite(_, _, _, f, _) => FactsheetColumns(Some(f))
    case OrderWrite(_, robot, update, description, nodes, edges, _) =>
      OrderColumns(update, NullIfEmpty(description), robot, nodes, edges)
    case ActionWrite(_, kind, descriptor, blocking, params, robot, _) =>
      ActionColumns(kind, NullIfEmpty(descriptor), blocking, NullIfEmpty(params), robot)
    case ResponseWrite(_, _, status, _) => ResponseColumns(status)
  }

  // ---------------------------------------------------------------- upserts

  function NewRobot(manufacturer: string, serialNumber: string, at: string): RobotRow {
    RobotRow(manufacturer, serialNumber, None, None, "OFFLINE", None, false, false, None, false,
             false, false, None, at, at)
  }

  function UpsertRobot(rows: map<string, RobotRow>, w: Write): map<string, RobotRow>
    requires TableOf(GroupOf(w)) == Robots
  {
    var row := if w.robotId in rows then rows[w.robotId] else NewRobot(w.manufacturer, w.serialNumber, w.at);
    rows[w.robotId :=
      match w
      case ConnectionWrite(_, _, _, s, at) => row.(connectionState := s, lastUpdatedAt := at)
      case StateWrite(_, _, _, mode, driving, paused, battery, charging, at) =>
        row.(operatingMode := Some(mode), driving := driving, paused := paused,
             batteryLevel := Some(battery), charging := charging, lastUpdatedAt := at)
      case FactsheetWrite(_, _, _, f, at) => row.(factsheet := Some(f), lastUpdatedAt := at)]
  }

  function UpsertOrder(rows: map<string, OrderRow>, w: Write): map<string, OrderRow>
    requires w.OrderWrite?
  {
    var description := NullIfEmpty(w.orderDescription);
    rows[w.orderId :=
      if w.orderId in rows then
        rows[w.orderId].(orderUpdateId := w.orderUpdateId, orderDescription := description,
                         assignedRobotId := w.robotId, nodes := w.nodes, edges := w.edges,
                         lastUpdatedAt := w.at)
      else
        OrderRow(w.orderUpdateId, description, "QUEUED", w.robotId, "", w.nodes, w.edges, false, w.at, w.at)]
  }

  function UpsertAction(rows: map<string, ActionRow>, w: Write): map<string, ActionRow>
    requires TableOf(GroupOf(w)) == InstantActions
  {
    match w
    case ActionWrite(id, kind, descriptor, blocking, params, robot, at) =>
      rows[id :=
        if id in rows then
          rows[id].(actionType := kind, actionDescriptor := NullIfEmpty(descriptor),
                    blockingType := blocking, actionParameters := NullIfEmpty(params),
                    robotId := robot, lastUpdatedAt := at)
        else
          ActionRow(kind, NullIfEmpty(descriptor), blocking, NullIfEmpty(params), false, "WAITING",
                    None, robot, None, false, at, at)]
    case ResponseWrite(id, robot, status, at) =>
      rows[id :=
        if id in rows then rows[id].(actionStatus := status, lastUpdatedAt := at)
        else ActionRow("zoneRequest", None, "NONE", None, false, status, None, robot, None, false, at, at)]
  }

  function Apply(m: Model, w: Write): Model {
    match TableOf(GroupOf(w))
    case Robots => m.(robots := UpsertRobot(m.robots, w))
    case Orders => m.(orders := UpsertOrder(m.orders, w))
    case InstantActions => m.(actions := UpsertAction(m.actions, w))
  }

  function ApplyAll(m: Model, ws: seq<Write>): Model {
    if ws == [] then m else Apply(ApplyAll(m, ws[..|ws| - 1]), ws[|ws| - 1])
  }

  // ---------------------------------------------------------------- observations

  predicate Exists(m: Model, t: Table, k: string) {
    match t
    case Robots => k in m.robots
    case Orders => k in m.orders
    case InstantActions => k in m.actions
  }

  function Get(m: Model, g: Group, k: string): Columns
    requires Exists(m, TableOf(g), k)
  {
    match g
    case Connection => ConnectionColumns(m.robots[k].connectionState)
    case State =>
      var r := m.robots[k];
      StateColumns(r.operatingMode, r.driving, r.paused, r.batteryLevel, r.charging)
    case Factsheet => FactsheetColumns(m.robots[k].factsheet)
    case Order =>
      var r := m.orders[k];
      OrderColumns(r.orderUpdateId, r.orderDescription, r.assignedRobotId, r.nodes, r.edges)
    case Action =>
      var r := m.actions[k];
      ActionColumns(r.actionType, r.actionDescriptor, r.blockingType, r.actionParameters, r.robotId)
    case Response => ResponseColumns(m.actions[k].actionStatus)
  }

  function GetInsertOnly(m: Model, t: Table, k: string): InsertOnly
    requires Exists(m, t, k)
  {
    match t
    case Robots =>
      var r := m.robots[k];
      RobotInsertOnly(r.manufacturer, r.serialNumber, r.siteId, r.displayName, r.suspended, r.archived, r.createdAt)
    case Orders =>
      var r := m.orders[k];
      OrderInsertOnly(r.status, r.siteId, r.archived, r.createdAt)
    case InstantActions =>
      var r := m.actions[k];
      ActionInsertOnly(r.retriable, r.actionResult, r.siteId, r.archived, r.createdAt)
  }

  function GetStamp(m: Model, t: Table, k: string): string
    requires Exists(m, t, k)
  {
    match t
    case Robots => m.robots[k].lastUpdatedAt
    case Orders => m.orders[k].lastUpdatedAt
    case InstantActions => m.actions[k].lastUpdatedAt
  }

  /** The observations determine the whole read model. */
  lemma Extensionality(a: Model, b: Model)
    requires forall t, k :: Exists(a, t, k) <==> Exists(b, t, k)
    requires forall g, k :: Exists(a, TableOf(g), k) ==> Get(a, g, k) == Get(b, g, k)
    requires forall t, k :: Exists(a, t, k) ==> GetInsertOnly(a, t, k) == GetInsertOnly(b, t, k)
    requires forall t, k :: Exists(a, t, k) ==> GetStamp(a, t, k) == GetStamp(b, t, k)
    ensures a == b
  {
    forall k
      ensures k in a.robots <==> k in b.robots
      ensures k in a.robots ==> a.robots[k] == b.robots[k]
    {
      assert Exists(a, Robots, k) <==> Exists(b, Robots, k);
      if Exists(a, Robots, k) {
        assert Get(a, Connection, k) == Get(b, Connection, k);
        assert Get(a, State, k) == Get(b, State, k);
        assert Get(a, Factsheet, k) == Get(b, Factsheet, k);
        assert GetInsertOnly(a, Robots, k) == GetInsertOnly(b, Robots, k);
        assert GetStamp(a, Robots, k) == GetStamp(b, Robots, k);
      }
    }
    forall k
      ensures k in a.orders <==> k in b.orders
      ensures k in a.orders ==> a.orders[k] == b.orders[k]
    {
      assert Exists(a, Orders, k) <==> Exists(b, Orders, k);
      if Exists(a, Orders, k) {
        assert Get(a, Order, k) == Get(b, Order, k);
        assert GetInsertOnly(a, Orders, k) == GetInsertOnly(b, Orders, k);
        assert GetStamp(a, Orders, k) == GetStamp(b, Orders, k);
      }
    }
    forall k
      ensures k in a.actions <==> k in b.actions
      ensures k in a.actions ==> a.actions[k] == b.actions[k]
    {
      assert Exists(a, InstantActions, k) <==> Exists(b, InstantActions, k);
      if Exists(a, InstantActions, k) {
        assert Get(a, Action, k) == Get(b, Action, k);
        assert Get(a, Response, k) == Get(b, Response, k);
        assert GetInsertOnly(a, InstantActions, k) == GetInsertOnly(b, InstantActions, k);
        assert GetStamp(a, InstantActions, k) == GetStamp(b, InstantActions, k);
      }
    }
    assert a.robots == b.robots && a.orders == b.orders && a.actions == b.actions;
  }

  // ---------------------------------------------------------------- one upsert

  predicate Touches(w: Write, t: Table, k: string) {
    TableOf(GroupOf(w)) == t && KeyOf(w) == k
  }

  predicate Sets(w: Write, g: Group, k: string) {
    GroupOf(w) == g && KeyOf(w) == k
  }

  /** The column values a fresh row has outside the group of the write that inserted it. */
  function FreshColumns(g: Group, w: Write): Columns
    requires TableOf(GroupOf(w)) == TableOf(g) && GroupOf(w) != g
  {
    match g
    case Connection => ConnectionColumns("OFFLINE")
    case State => StateColumns(None, false, false, None, false)
    case Factsheet => FactsheetColumns(None)
    case Action => ActionColumns("zoneRequest", None, "NONE", None, w.robotId)
    case Response => ResponseColumns("WAITING")
  }

  function FreshInsertOnly(w: Write): InsertOnly {
    match TableOf(GroupOf(w))
    case Robots => RobotInsertOnly(w.manufacturer, w.serialNumber, None, None, false, false, w.at)
    case Orders => OrderInsertOnly("QUEUED", "", false, w.at)
    case InstantActions => ActionInsertOnly(false, None, None, false, w.at)
  }

  lemma ApplyExists(m: Model, w: Write)
    ensures forall t, k :: Exists(Apply(m, w), t, k) <==> Exists(m, t, k) || Touches(w, t, k)
  {
  }

  lemma ApplyGet(m: Model, w: Write)
    ensures Get(Apply(m, w), GroupOf(w), KeyOf(w)) == ColumnsOf(w)
    ensures forall g, k :: Exists(m, TableOf(g), k) && !Sets(w, g, k) ==> Get(Apply(m, w), g, k) == Get(m, g, k)
    ensures forall g :: TableOf(g) == TableOf(GroupOf(w)) && g != GroupOf(w) && !Exists(m, TableOf(g), KeyOf(w)) ==>
              Get(Apply(m, w), g, KeyOf(w)) == FreshColumns(g, w)
  {
  }

  lemma ApplyInsertOnly(m: Model, w: Write)
    ensures forall t, k :: Exists(m, t, k) ==> GetInsertOnly(Apply(m, w), t, k) == GetInsertOnly(m, t, k)
    ensures !Exists(m, TableOf(GroupOf(w)), KeyOf(w)) ==>
              GetInsertOnly(Apply(m, w), TableOf(GroupOf(w)), KeyOf(w)) == FreshInsertOnly(w)
  {
  }

  lemma ApplyStamp(m: Model, w: Write)
    ensures GetStamp(Apply(m, w), TableOf(GroupOf(w)), KeyOf(w)) == w.at
    ensures forall t, k :: Exists(m, t, k) && !Touches(w, t, k) ==> GetStamp(Apply(m, w), t, k) == GetStamp(m, t, k)
  {
  }

  /** The law of one upsert: it overwrites its own column group and the update time of its
      row, and nothing else, unless it inserts the row. */
  lemma ApplyLaw(m: Model, w: Write)
    ensures var r := Apply(m, w);
            && (forall t, k :: Exists(r, t, k) <==> Exists(m, t, k) || Touches(w, t, k))
            && Get(r, GroupOf(w), KeyOf(w)) == ColumnsOf(w)
            && (forall g, k :: Exists(m, TableOf(g), k) && !Sets(w, g, k) ==> Get(r, g, k) == Get(m, g, k))
            && (forall g :: TableOf(g) == TableOf(GroupOf(w)) && g != GroupOf(w) && !Exists(m, TableOf(g), KeyOf(w)) ==>
                  Get(r, g, KeyOf(w)) == FreshColumns(g, w))
            && (forall t, k :: Exists(m, t, k) ==> GetInsertOnly(r, t, k) == GetInsertOnly(m, t, k))
            && (!Exists(m, TableOf(GroupOf(w)), KeyOf(w)) ==>
                  GetInsertOnly(r, TableOf(GroupOf(w)), KeyOf(w)) == FreshInsertOnly(w))
            && GetStamp(r, TableOf(GroupOf(w)), KeyOf(w)) == w.at
            && (forall t, k :: Exists(m, t, k) && !Touches(w, t, k) ==> GetStamp(r, t, k) == GetStamp(m, t, k))
  {
    hide Apply, Exists, Get, GetInsertOnly, GetStamp, ColumnsOf, FreshColumns, FreshInsertOnly;
    ApplyExists(m, w);
    ApplyGet(m, w);
    ApplyInsertOnly(m, w);
    ApplyStamp(m, w);
  }
}
