/** The three read-table repositories that the projectors write through. Each method runs
    one INSERT ... ON CONFLICT DO UPDATE statement. */
module Repositories {
  import opened Wrappers
  import opened ReadModel

  class RobotsRepository {
    var rows: map<string, RobotRow>

    constructor ()
      ensures rows == map[]
    {
      rows := map[];
    }

    method UpsertConnection(robotId: string, manufacturer: string, serialNumber: string,
                            connectionState: string, at: string)
      modifies this
      ensures rows == UpsertRobot(old(rows), ConnectionWrite(robotId, manufacturer, serialNumber, connectionState, at))
    {
      if robotId in rows {
        rows := rows[robotId := rows[robotId].(connectionState := connectionState, lastUpdatedAt := at)];
      } else {
        rows := rows[robotId := RobotRow(manufacturer, serialNumber, None, None, connectionState, None, false, false,
                                         None, false, false, false, None, at, at)];
      }
    }

    method UpsertState(robotId: string, manufacturer: string, serialNumber: string, operatingMode: string,
                       driving: bool, paused: bool, batteryLevel: Decimal, charging: bool, at: string)
      modifies this
      ensures rows == UpsertRobot(old(rows), StateWrite(robotId, manufacturer, serialNumber, operatingMode, driving,
                                                        paused, batteryLevel, charging, at))
    {
      if robotId in rows {
        rows := rows[robotId := rows[robotId].(operatingMode := Some(operatingMode), driving := driving,
                                               paused := paused, batteryLevel := Some(batteryLevel),
                                               charging := charging, lastUpdatedAt := at)];
      } else {
        rows := rows[robotId := RobotRow(manufacturer, serialNumber, None, None, "OFFLINE", Some(operatingMode),
                                         driving, paused, Some(batteryLevel), charging, false, false, None, at, at)];
      }
    }

    method UpsertFactsheet(robotId: string, manufacturer: string, serialNumber: string, factsheet: string, at: string)
      modifies this
      ensures rows == UpsertRobot(old(rows), FactsheetWrite(robotId, manufacturer, serialNumber, factsheet, at))
    {
      if robotId in rows {
        rows := rows[robotId := rows[robotId].(factsheet := Some(factsheet), lastUpdatedAt := at)];
      } else {
        rows := rows[robotId := RobotRow(manufacturer, serialNumber, None, None, "OFFLINE", None, false, false,
                                         None, false, false, false, Some(factsheet), at, at)];
      }
    }
  }

  class OrdersRepository {
    var rows: map<string, OrderRow>

    constructor ()
      ensures rows == map[]
    {
      rows := map[];
    }

    method UpsertFromOrder(orderId: string, robotId: string, orderUpdateId: int, orderDescription: string,
                           nodes: string, edges: string, at: string)
      modifies this
      ensures rows == UpsertOrder(old(rows), OrderWrite(orderId, robotId, orderUpdateId, orderDescription, nodes, edges, at))
    {
      var description := if orderDescription != "" then Some(orderDescription) else None;
      if orderId in rows {
        rows := rows[orderId := rows[orderId].(orderUpdateId := orderUpdateId, orderDescription := description,
                                               assignedRobotId := robotId, nodes := nodes, edges := edges,
                                               lastUpdatedAt := at)];
      } else {
        rows := rows[orderId := OrderRow(orderUpdateId, description, "QUEUED", robotId, "", nodes, edges, false, at, at)];
      }
    }
  }

  class InstantActionsRepository {
    var rows: map<string, ActionRow>

    constructor ()
      ensures rows == map[]
    {
      rows := map[];
    }

    method UpsertFromAction(actionId: string, actionType: string, actionDescriptor: string, blockingType: string,
                            actionParameters: string, robotId: string, at: string)
      modifies this
      ensures rows == UpsertAction(old(rows), ActionWrite(actionId, actionType, actionDescriptor, blockingType,
                                                          actionParameters, robotId, at))
    {
      var descriptor := if actionDescriptor != "" then Some(actionDescriptor) else None;
      var parameters := if actionParameters != "" then Some(actionParameters) else None;
      if actionId in rows {
        rows := rows[actionId := rows[actionId].(actionType := actionType, actionDescriptor := descriptor,
                                                 blockingType := blockingType, actionParameters := parameters,
                                                 robotId := robotId, lastUpdatedAt := at)];
      } else {
        rows := rows[actionId := ActionRow(actionType, descriptor, blockingType, parameters, false, "WAITING", None,
                                           robotId, None, false, at, at)];
      }
    }

    method UpsertFromResponse(actionId: string, robotId: string, actionStatus: string, at: string)
      modifies this
      ensures rows == UpsertAction(old(rows), ResponseWrite(actionId, robotId, actionStatus, at))
    {
      if actionId in rows {
        rows := rows[actionId := rows[actionId].(actionStatus := actionStatus, lastUpdatedAt := at)];
      } else {
        rows := rows[actionId := ActionRow("zoneRequest", None, "NONE", None, false, actionStatus, None, robotId, None,
                                           false, at, at)];
      }
    }
  }
}
