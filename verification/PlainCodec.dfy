/** A codec that satisfies what the theorems about recorded logs assume of JSON: parsing a
    dumped message returns it. Fields are written one after the other, each spelled so that
    its end can be found. */
module PlainCodec {
  import opened Wrappers
  import opened Messages

  // ---------------------------------------------------------------- lists of strings

  function Quote(s: string): string {
    if s == "" then "." else ['x', s[0]] + Quote(s[1..])
  }

  /** The quoted string at the start of a text, and the rest of the text. */
  function Unquote(t: string): (r: Option<(string, string)>)
    ensures r.Some? ==> |r.value.1| < |t|
  {
    if t == "" then None
    else if t[0] == '.' then Some(("", t[1..]))
    else if |t| == 1 then None
    else
      match Unquote(t[2..])
      case None => None
      case Some((s, rest)) => Some(([t[1]] + s, rest))
  }

  lemma {:induction false} UnquoteQuote(s: string, rest: string)
    ensures Unquote(Quote(s) + rest) == Some((s, rest))
  {
    var t := Quote(s) + rest;
    if s == "" {
      assert t[1..] == rest;
    } else {
      UnquoteQuote(s[1..], rest);
      assert t[2..] == Quote(s[1..]) + rest && t[1] == s[0];
      assert s == [s[0]] + s[1..];
    }
  }

  function Pack(fields: seq<string>): string {
    if fields == [] then "" else Quote(fields[0]) + Pack(fields[1..])
  }

  function Unpack(t: string): Option<seq<string>>
    decreases |t|
  {
    if t == "" then Some([])
    else
      match Unquote(t)
      case None => None
      case Some((s, rest)) =>
        match Unpack(rest)
        case None => None
        case Some(fields) => Some([s] + fields)
  }

  lemma {:induction false} UnpackPack(fields: seq<string>)
    ensures Unpack(Pack(fields)) == Some(fields)
  {
    if fields != [] {
      UnquoteQuote(fields[0], Pack(fields[1..]));
      UnpackPack(fields[1..]);
      assert Pack(fields) != "";
      assert fields == [fields[0]] + fields[1..];
    }
  }

  // ---------------------------------------------------------------- fields

  function FromInt(n: int): string {
    if n >= 0 then seq(n, _ => '+') else seq(-n, _ => '-')
  }

  function ToInt(t: string): int {
    if t != "" && t[0] == '-' then -|t| else |t|
  }

  function FromBool(b: bool): string {
    if b then "t" else "f"
  }

  function FromOptional(s: Option<string>): string {
    match s
    case None => ""
    case Some(v) => "=" + v
  }

  function ToOptional(t: string): Option<string> {
    if t == "" then None else Some(t[1..])
  }

  function FromFlag(b: Option<bool>): string {
    match b
    case None => ""
    case Some(v) => FromBool(v)
  }

  function ToFlag(t: string): Option<bool> {
    if t == "" then None else Some(t == "t")
  }

  lemma FieldsReturn(n: int, b: bool, s: Option<string>, f: Option<bool>)
    ensures ToInt(FromInt(n)) == n && (FromBool(b) == "t") == b
    ensures ToOptional(FromOptional(s)) == s && ToFlag(FromFlag(f)) == f
  {
  }

  // ---------------------------------------------------------------- messages

  function HeaderFields(h: Header): seq<string> {
    [FromInt(h.headerId), h.timestamp, h.version]
  }

  function ToHeader(fields: seq<string>): Header
    requires |fields| >= 3
  {
    Header(ToInt(fields[0]), fields[1], fields[2])
  }

  function DumpConnection(m: ConnectionMsg): string {
    Pack(HeaderFields(m.header) + [m.connectionState])
  }

  function ParseConnection(t: string): Option<ConnectionMsg> {
    match Unpack(t)
    case Some(f) => if |f| == 4 then Some(ConnectionMsg(ToHeader(f), f[3])) else None
    case None => None
  }

  function DumpState(m: StateMsg): string {
    Pack(HeaderFields(m.header) +
         [m.operatingMode, FromBool(m.driving), FromFlag(m.paused), m.stateOfCharge, FromBool(m.charging)])
  }

  function ParseState(t: string): Option<StateMsg> {
    match Unpack(t)
    case Some(f) =>
      if |f| == 8 then Some(StateMsg(ToHeader(f), f[3], f[4] == "t", ToFlag(f[5]), f[6], f[7] == "t")) else None
    case None => None
  }

  function DumpOrder(m: OrderMsg): string {
    Pack(HeaderFields(m.header) +
         [m.orderId, FromInt(m.orderUpdateId), FromOptional(m.orderDescription), m.nodes, m.edges])
  }

  function ParseOrder(t: string): Option<OrderMsg> {
    match Unpack(t)
    case Some(f) =>
      if |f| == 8 then Some(OrderMsg(ToHeader(f), f[3], ToInt(f[4]), ToOptional(f[5]), f[6], f[7])) else None
    case None => None
  }

  function DumpAction(a: VdaAction): string {
    Pack([a.actionId, a.actionType, FromOptional(a.actionDescriptor), a.blockingType, FromOptional(a.actionParameters)])
  }

  function ParseAction(t: string): Option<VdaAction> {
    match Unpack(t)
    case Some(f) => if |f| == 5 then Some(VdaAction(f[0], f[1], ToOptional(f[2]), f[3], ToOptional(f[4]))) else None
    case None => None
  }

  function DumpResponse(r: VdaResponse): string {
    Pack([r.requestId, r.grantType])
  }

  function ParseResponse(t: string): Option<VdaResponse> {
    match Unpack(t)
    case Some(f) => if |f| == 2 then Some(VdaResponse(f[0], f[1])) else None
    case None => None
  }

  function DumpEach<T>(items: seq<T>, dump: T -> string): seq<string> {
    seq(|items|, i requires 0 <= i < |items| => dump(items[i]))
  }

  function ParseEach<T>(texts: seq<string>, parse: string -> Option<T>): Option<seq<T>> {
    if texts == [] then Some([])
    else
      match (parse(texts[0]), ParseEach(texts[1..], parse))
      case (Some(x), Some(rest)) => Some([x] + rest)
      case _ => None
  }

  lemma {:induction false} ParseDumpedEach<T>(items: seq<T>, dump: T -> string, parse: string -> Option<T>)
    requires forall i :: 0 <= i < |items| ==> parse(dump(items[i])) == Some(items[i])
    ensures ParseEach(DumpEach(items, dump), parse) == Some(items)
  {
    if items != [] {
      ParseDumpedEach(items[1..], dump, parse);
      assert DumpEach(items, dump)[1..] == DumpEach(items[1..], dump);
      assert items == [items[0]] + items[1..];
    }
  }

  function DumpActions(m: InstantActionsMsg): string {
    Pack(HeaderFields(m.header) + DumpEach(m.actions, DumpAction))
  }

  function ParseActions(t: string): Option<InstantActionsMsg> {
    match Unpack(t)
    case Some(f) =>
      if |f| < 3 then None
      else
        (match ParseEach(f[3..], ParseAction)
         case Some(actions) => Some(InstantActionsMsg(ToHeader(f), actions))
         case None => None)
    case None => None
  }

  function DumpResponses(m: ResponsesMsg): string {
    Pack(HeaderFields(m.header) + DumpEach(m.responses, DumpResponse))
  }

  function ParseResponses(t: string): Option<ResponsesMsg> {
    match Unpack(t)
    case Some(f) =>
      if |f| < 3 then None
      else
        (match ParseEach(f[3..], ParseResponse)
         case Some(responses) => Some(ResponsesMsg(ToHeader(f), responses))
         case None => None)
    case None => None
  }

  function PlainText(): Codec {
    Codec(DumpConnection, ParseConnection, DumpState, ParseState,
          (m: FactsheetMsg) => Pack(HeaderFields(m.header) + [m.content]),
          DumpOrder, ParseOrder, DumpActions, ParseActions, DumpResponses, ParseResponses,
          (m: VisualizationMsg) => Pack(HeaderFields(m.header) + [m.content]),
          (m: ZoneSetMsg) => Pack(HeaderFields(m.header) + [m.zoneSetId, m.content]))
  }

  // ---------------------------------------------------------------- parsing what was dumped

  lemma HeaderReturns(h: Header, more: seq<string>)
    ensures ToHeader(HeaderFields(h) + more) == h
  {
    FieldsReturn(h.headerId, true, None, None);
  }

  lemma ConnectionReturns(m: ConnectionMsg)
    ensures ParseConnection(DumpConnection(m)) == Some(m)
  {
    hide Pack, Unpack, ToHeader;
    UnpackPack(HeaderFields(m.header) + [m.connectionState]);
    HeaderReturns(m.header, [m.connectionState]);
  }

  lemma StateReturns(m: StateMsg)
    ensures ParseState(DumpState(m)) == Some(m)
  {
    hide Pack, Unpack, ToHeader;
    var more := [m.operatingMode, FromBool(m.driving), FromFlag(m.paused), m.stateOfCharge, FromBool(m.charging)];
    UnpackPack(HeaderFields(m.header) + more);
    HeaderReturns(m.header, more);
    FieldsReturn(0, m.driving, None, m.paused);
    FieldsReturn(0, m.charging, None, None);
  }

  lemma OrderReturns(m: OrderMsg)
    ensures ParseOrder(DumpOrder(m)) == Some(m)
  {
    hide Pack, Unpack, ToHeader, FromInt, ToInt;
    var more := [m.orderId, FromInt(m.orderUpdateId), FromOptional(m.orderDescription), m.nodes, m.edges];
    UnpackPack(HeaderFields(m.header) + more);
    HeaderReturns(m.header, more);
    FieldsReturn(m.orderUpdateId, true, m.orderDescription, None);
  }

  lemma ActionReturns(a: VdaAction)
    ensures ParseAction(DumpAction(a)) == Some(a)
  {
    hide Pack, Unpack;
    UnpackPack([a.actionId, a.actionType, FromOptional(a.actionDescriptor), a.blockingType,
                FromOptional(a.actionParameters)]);
    FieldsReturn(0, true, a.actionDescriptor, None);
    FieldsReturn(0, true, a.actionParameters, None);
  }

  lemma ActionsReturn(m: InstantActionsMsg)
    ensures ParseActions(DumpActions(m)) == Some(m)
  {
    hide Pack, Unpack, ToHeader, ParseEach, DumpAction, ParseAction;
    var texts := DumpEach(m.actions, DumpAction);
    var fields := HeaderFields(m.header) + texts;
    UnpackPack(fields);
    HeaderReturns(m.header, texts);
    forall i | 0 <= i < |m.actions|
      ensures ParseAction(DumpAction(m.actions[i])) == Some(m.actions[i])
    {
      ActionReturns(m.actions[i]);
    }
    ParseDumpedEach(m.actions, DumpAction, ParseAction);
    assert fields[3..] == texts;
  }

  lemma ResponsesReturn(m: ResponsesMsg)
    ensures ParseResponses(DumpResponses(m)) == Some(m)
  {
    hide Pack, Unpack, ToHeader, ParseEach, DumpResponse, ParseResponse;
    var texts := DumpEach(m.responses, DumpResponse);
    var fields := HeaderFields(m.header) + texts;
    UnpackPack(fields);
    HeaderReturns(m.header, texts);
    forall i | 0 <= i < |m.responses|
      ensures ParseResponse(DumpResponse(m.responses[i])) == Some(m.responses[i])
    {
      ResponseReturns(m.responses[i]);
    }
    ParseDumpedEach(m.responses, DumpResponse, ParseResponse);
    assert fields[3..] == texts;
  }

  lemma ResponseReturns(r: VdaResponse)
    ensures ParseResponse(DumpResponse(r)) == Some(r)
  {
    hide Pack, Unpack;
    UnpackPack([r.requestId, r.grantType]);
  }

  /** The assumption on codecs can be met. */
  lemma PlainTextRoundTrips()
    ensures RoundTrips(PlainText())
  {
    hide DumpConnection, ParseConnection, DumpState, ParseState, DumpOrder, ParseOrder, DumpActions, ParseActions,
      DumpResponses, ParseResponses;
    var c := PlainText();
    forall m: ConnectionMsg
      ensures c.parseConnection(c.dumpConnection(m)) == Some(m)
    {
      ConnectionReturns(m);
    }
    forall m: StateMsg
      ensures c.parseState(c.dumpState(m)) == Some(m)
    {
      StateReturns(m);
    }
    forall m: OrderMsg
      ensures c.parseOrder(c.dumpOrder(m)) == Some(m)
    {
      OrderReturns(m);
    }
    forall m: InstantActionsMsg
      ensures c.parseActions(c.dumpActions(m)) == Some(m)
    {
      ActionsReturn(m);
    }
    forall m: ResponsesMsg
      ensures c.parseResponses(c.dumpResponses(m)) == Some(m)
    {
      ResponsesReturn(m);
    }
  }
}
