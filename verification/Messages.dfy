/** The VDA 5050 messages, reduced to the fields that the recorder and the projectors read,
    and the JSON codec that carries them through the payload column. */
module Messages {
  import opened Wrappers

  datatype Header = Header(headerId: int, timestamp: string, version: string)

  datatype ConnectionMsg = ConnectionMsg(header: Header, connectionState: string)

  datatype StateMsg = StateMsg(
    header: Header,
    operatingMode: string,
    driving: bool,
    paused: Option<bool>,
    stateOfCharge: Decimal,
    charging: bool)

  datatype FactsheetMsg = FactsheetMsg(header: Header, content: string)

  datatype OrderMsg = OrderMsg(
    header: Header,
    orderId: string,
    orderUpdateId: int,
    orderDescription: Option<string>,
    nodes: string,
    edges: string)

  datatype VdaAction = VdaAction(
    actionId: string,
    actionType: string,
    actionDescriptor: Option<string>,
    blockingType: string,
    actionParameters: Option<string>)

  datatype InstantActionsMsg = InstantActionsMsg(header: Header, actions: seq<VdaAction>)

  datatype VdaResponse = VdaResponse(requestId: string, grantType: string)

  datatype ResponsesMsg = ResponsesMsg(header: Header, responses: seq<VdaResponse>)

  datatype VisualizationMsg = VisualizationMsg(header: Header, content: string)

  datatype ZoneSetMsg = ZoneSetMsg(header: Header, zoneSetId: string, content: string)

  /** Serialising and parsing JSON text. Parsing may fail on any text. */
  datatype Codec = Codec(
    dumpConnection: ConnectionMsg -> string,
    parseConnection: string -> Option<ConnectionMsg>,
    dumpState: StateMsg -> string,
    parseState: string -> Option<StateMsg>,
    dumpFactsheet: FactsheetMsg -> string,
    dumpOrder: OrderMsg -> string,
    parseOrder: string -> Option<OrderMsg>,
    dumpActions: InstantActionsMsg -> string,
    parseActions: string -> Option<InstantActionsMsg>,
    dumpResponses: ResponsesMsg -> string,
    parseResponses: string -> Option<ResponsesMsg>,
    dumpVisualization: VisualizationMsg -> string,
    dumpZoneSet: ZoneSetMsg -> string)

  /** Parsing a dumped message returns it. */
  ghost predicate RoundTrips(c: Codec) {
    && (forall m: ConnectionMsg :: c.parseConnection(c.dumpConnection(m)) == Some(m))
    && (forall m: StateMsg :: c.parseState(c.dumpState(m)) == Some(m))
    && (forall m: OrderMsg :: c.parseOrder(c.dumpOrder(m)) == Some(m))
    && (forall m: InstantActionsMsg :: c.parseActions(c.dumpActions(m)) == Some(m))
    && (forall m: ResponsesMsg :: c.parseResponses(c.dumpResponses(m)) == Some(m))
  }
}
