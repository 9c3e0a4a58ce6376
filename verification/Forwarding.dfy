/** The bridge between two brokers as a network: what is published on one broker reaches the
    endpoint subscribed there, and may make it publish on the other. */
module Forwarding {
  import opened Wrappers
  import opened Topics
  import opened EndPoints

  /** A message in flight: on which broker, under which topic, with which text. */
  datatype Packet = Packet(side: Side, topic: string, payload: string)

  /** The prefixes of the two endpoints. They are the same unless the configuration changed
      between the start and a later cloud connection. */
  datatype Prefixes = Prefixes(local: TopicContext, cloud: TopicContext) {
    function At(side: Side): TopicContext {
      if side == Local then local else cloud
    }
  }

  predicate Named(prefixes: Prefixes) {
    prefixes.local.interfaceName != "" && prefixes.local.majorVersion != "" &&
    prefixes.cloud.interfaceName != "" && prefixes.cloud.majorVersion != ""
  }

  /** What the bridge publishes for a message that reaches it, when the broker takes it. */
  function Forward(prefixes: Prefixes, recode: Recoder, p: Packet): Option<Packet> {
    match Accepted(prefixes.At(p.side), SubscribedKinds(p.side), p.topic)
    case None => None
    case Some(kind) =>
      var context := ParseTopicContext(prefixes.At(p.side), p.topic, SuffixOf(kind)).value;
      match recode(kind, p.payload)
      case None => None
      case Some(text) =>
        if !MayPublish(Other(p.side), kind) then None
        else
          match BuildTopic(context, SuffixOf(kind))
          case None => None
          case Some(topic) => Some(Packet(Other(p.side), topic, text))
  }

  lemma SidesDisjoint(side: Side, j: Kind, k: Kind)
    requires j in SubscribedKinds(side) && k in SubscribedKinds(Other(side))
    ensures j != k && MayPublish(Other(side), j) && MayListen(side, j)
  {
  }

  /** A message that an endpoint accepts and decodes is published on the other broker, under
      the same topic, and the other endpoint does not accept it, whatever its prefix: there is
      no echo. */
  lemma ForwardedOnce(prefixes: Prefixes, recode: Recoder, p: Packet)
    requires Named(prefixes)
    ensures Forward(prefixes, recode, p).Some? <==>
            var kind := Accepted(prefixes.At(p.side), SubscribedKinds(p.side), p.topic);
            kind.Some? && recode(kind.value, p.payload).Some?
    ensures Forward(prefixes, recode, p).Some? ==>
              var q := Forward(prefixes, recode, p).value;
              q.side == Other(p.side) && q.topic == p.topic &&
              recode(Accepted(prefixes.At(p.side), SubscribedKinds(p.side), p.topic).value, p.payload) == Some(q.payload) &&
              Accepted(prefixes.At(q.side), SubscribedKinds(q.side), q.topic).None? && Forward(prefixes, recode, q).None?
  {
    hide ParseTopicContext, BuildTopic, SuffixOf, SubscribedKinds;
    var here, there := prefixes.At(p.side), prefixes.At(Other(p.side));
    var accepted := Accepted(here, SubscribedKinds(p.side), p.topic);
    if accepted.Some? {
      var kind := accepted.value;
      SuffixesDistinct(kind, kind);
      ParseThenPrint(here, p.topic, SuffixOf(kind));
      var echo := Accepted(there, SubscribedKinds(Other(p.side)), p.topic);
      AlwaysPublishable(p.side, kind);
      if echo.Some? {
        SuffixesDistinct(kind, echo.value);
        OneSuffix(here, there, p.topic, SuffixOf(kind), SuffixOf(echo.value));
        SidesDisjoint(p.side, kind, echo.value);
        assert false;
      }
    }
  }

  /** Messages of a kind are carried from one side to the other under the same topic, each with
      its text decoded and encoded again, and dropped where they do not decode. */
  ghost predicate Carries(prefixes: Prefixes, recode: Recoder, side: Side, kind: Kind, name: string) {
    forall x, y, payload :: NamesRobot(x, y) ==>
      var p := Packet(side, Spell(prefixes.At(side), x, y, name), payload);
      Forward(prefixes, recode, p) ==
      match recode(kind, payload)
      case None => None
      case Some(text) => Some(Packet(Other(side), p.topic, text))
  }

  ghost predicate Drops(prefixes: Prefixes, recode: Recoder, side: Side, name: string) {
    forall x, y, payload :: NamesRobot(x, y) ==>
      Forward(prefixes, recode, Packet(side, Spell(prefixes.At(side), x, y, name), payload)) == None
  }

  predicate NamesRobot(manufacturer: string, serialNumber: string) {
    manufacturer != "" && '/' !in manufacturer && serialNumber != "" && '/' !in serialNumber
  }

  lemma OneWay(prefixes: Prefixes, recode: Recoder, side: Side, kind: Kind)
    requires Named(prefixes) && kind in SubscribedKinds(side)
    ensures Carries(prefixes, recode, side, kind, SuffixOf(kind))
    ensures Drops(prefixes, recode, Other(side), SuffixOf(kind))
  {
    hide ParseTopicContext, BuildTopic, SuffixOf, SubscribedKinds, Spell, Forward;
    SideGates(side, kind);
    Carried(prefixes, recode, side, kind);
    Carried(prefixes, recode, Other(side), kind);
  }

  lemma Carried(prefixes: Prefixes, recode: Recoder, side: Side, kind: Kind)
    requires Named(prefixes)
    ensures kind in SubscribedKinds(side) ==> Carries(prefixes, recode, side, kind, SuffixOf(kind))
    ensures kind !in SubscribedKinds(side) ==> Drops(prefixes, recode, side, SuffixOf(kind))
  {
    hide SuffixOf, SubscribedKinds, Spell, Forward, NamesRobot;
    var name, here := SuffixOf(kind), prefixes.At(side);
    if kind in SubscribedKinds(side) {
      forall x, y, payload | NamesRobot(x, y)
        ensures var p := Packet(side, Spell(here, x, y, name), payload);
                Forward(prefixes, recode, p) ==
                match recode(kind, payload)
                case None => None
                case Some(text) => Some(Packet(Other(side), p.topic, text))
      {
        CarriedMessage(prefixes, recode, Packet(side, Spell(here, x, y, name), payload), kind, x, y);
      }
    } else {
      forall x, y, payload | NamesRobot(x, y)
        ensures Forward(prefixes, recode, Packet(side, Spell(here, x, y, name), payload)) == None
      {
        CarriedMessage(prefixes, recode, Packet(side, Spell(here, x, y, name), payload), kind, x, y);
      }
      assert Drops(prefixes, recode, side, name);
    }
  }

  lemma CarriedMessage(prefixes: Prefixes, recode: Recoder, p: Packet, kind: Kind, x: string, y: string)
    requires Named(prefixes) && NamesRobot(x, y) && p.topic == Spell(prefixes.At(p.side), x, y, SuffixOf(kind))
    ensures Forward(prefixes, recode, p) ==
            if kind !in SubscribedKinds(p.side) then None
            else
              match recode(kind, p.payload)
              case None => None
              case Some(text) => Some(Packet(Other(p.side), p.topic, text))
  {
    hide ParseTopicContext, BuildTopic, SuffixOf, SubscribedKinds, Spell, Forward;
    var here := prefixes.At(p.side);
    SuffixesDistinct(kind, kind);
    ParseAccepts(here, x, y, SuffixOf(kind));
    ForwardedOnce(prefixes, recode, p);
    var accepted := Accepted(here, SubscribedKinds(p.side), p.topic);
    if accepted.Some? {
      SuffixesDistinct(kind, accepted.value);
      SuffixesDistinct(accepted.value, accepted.value);
      OneSuffix(here, here, p.topic, SuffixOf(kind), SuffixOf(accepted.value));
    }
  }

  /** What the bridge carries, topic by topic: four kinds from the robots' side, four from the
      fleet manager's, and none of them the other way. */
  lemma BridgeTable(prefixes: Prefixes, recode: Recoder)
    requires Named(prefixes)
    ensures Carries(prefixes, recode, Local, State, "state") && Drops(prefixes, recode, Cloud, "state")
    ensures Carries(prefixes, recode, Local, Visualization, "visualization") && Drops(prefixes, recode, Cloud, "visualization")
    ensures Carries(prefixes, recode, Local, Connection, "connection") && Drops(prefixes, recode, Cloud, "connection")
    ensures Carries(prefixes, recode, Local, FactSheet, "factsheet") && Drops(prefixes, recode, Cloud, "factsheet")
    ensures Carries(prefixes, recode, Cloud, Order, "order") && Drops(prefixes, recode, Local, "order")
    ensures Carries(prefixes, recode, Cloud, InstantActions, "instantActions") && Drops(prefixes, recode, Local, "instantActions")
    ensures Carries(prefixes, recode, Cloud, Responses, "responses") && Drops(prefixes, recode, Local, "responses")
    ensures Carries(prefixes, recode, Cloud, ZoneSet, "zoneSet") && Drops(prefixes, recode, Local, "zoneSet")
  {
    hide Carries, Drops, SuffixOf;
    SuffixTable();
    OneWay(prefixes, recode, Local, State);
    OneWay(prefixes, recode, Local, Visualization);
    OneWay(prefixes, recode, Local, Connection);
    OneWay(prefixes, recode, Local, FactSheet);
    OneWay(prefixes, recode, Cloud, Order);
    OneWay(prefixes, recode, Cloud, InstantActions);
    OneWay(prefixes, recode, Cloud, Responses);
    OneWay(prefixes, recode, Cloud, ZoneSet);
  }

  lemma AlwaysPublishable(side: Side, kind: Kind)
    requires kind in SubscribedKinds(side)
    ensures MayPublish(Other(side), kind)
  {
  }

  // ---------------------------------------------------------------- the network

  /** Messages in flight, and a history: what was injected from outside, what the bridge
      published, and what a broker client refused to take. */
  datatype Network = Network(
    flight: multiset<Packet>,
    injected: multiset<Packet>,
    published: multiset<Packet>,
    refused: multiset<Packet>)

  datatype Hop =
    | Inject(packet: Packet)
    | Deliver(packet: Packet, taken: bool)

  predicate CanHop(n: Network, hop: Hop) {
    hop.Deliver? ==> hop.packet in n.flight
  }

  function Hopped(prefixes: Prefixes, recode: Recoder, n: Network, hop: Hop): Network
    requires CanHop(n, hop)
  {
    match hop
    case Inject(p) => n.(flight := n.flight + multiset{p}, injected := n.injected + multiset{p})
    case Deliver(p, taken) =>
      var rest := n.flight - multiset{p};
      match Forward(prefixes, recode, p)
      case None => n.(flight := rest)
      case Some(q) =>
        if taken then n.(flight := rest + multiset{q}, published := n.published + multiset{q})
        else n.(flight := rest, refused := n.refused + multiset{q})
  }

  ghost predicate IsTraffic(prefixes: Prefixes, recode: Recoder, run: seq<Network>, hops: seq<Hop>) {
    && |run| == |hops| + 1
    && run[0] == Network(multiset{}, multiset{}, multiset{}, multiset{})
    && forall i :: 0 <= i < |hops| ==> CanHop(run[i], hops[i]) && run[i + 1] == Hopped(prefixes, recode, run[i], hops[i])
  }

  /** What the bridge makes of a bag of packets. */
  ghost function Images(prefixes: Prefixes, recode: Recoder, ps: multiset<Packet>): multiset<Packet>
    decreases |ps|
  {
    if ps == multiset{} then multiset{}
    else
      var p :| p in ps;
      Images(prefixes, recode, ps - multiset{p}) + Image(prefixes, recode, p)
  }

  ghost function Image(prefixes: Prefixes, recode: Recoder, p: Packet): multiset<Packet> {
    match Forward(prefixes, recode, p) case None => multiset{} case Some(q) => multiset{q}
  }

  lemma {:induction false} ImagesAdd(prefixes: Prefixes, recode: Recoder, ps: multiset<Packet>, p: Packet)
    ensures Images(prefixes, recode, ps + multiset{p}) == Images(prefixes, recode, ps) + Image(prefixes, recode, p)
    decreases |ps|
  {
    hide Forward, Image;
    var all := ps + multiset{p};
    assert p in all;
    var q :| q in all && Images(prefixes, recode, all) == Images(prefixes, recode, all - multiset{q}) + Image(prefixes, recode, q);
    if q == p {
      assert all - multiset{q} == ps;
    } else {
      var fewer := ps - multiset{q};
      assert q in ps;
      assert all - multiset{q} == fewer + multiset{p};
      assert ps == fewer + multiset{q};
      ImagesAdd(prefixes, recode, fewer, p);
      ImagesAdd(prefixes, recode, fewer, q);
      SwapLast(Images(prefixes, recode, fewer), Image(prefixes, recode, p), Image(prefixes, recode, q));
    }
  }

  lemma SwapLast(a: multiset<Packet>, b: multiset<Packet>, c: multiset<Packet>)
    ensures (a + b) + c == (a + c) + b
  {
  }

  /** Conservation over any traffic: every message injected so far that the bridge accepts
      has been published on the other broker, refused there, or is still in flight, exactly
      once; nothing else is ever published. */
  lemma {:induction false} Conservation(prefixes: Prefixes, recode: Recoder, run: seq<Network>, hops: seq<Hop>, n: nat)
    requires Named(prefixes)
    requires IsTraffic(prefixes, recode, run, hops) && n < |run|
    ensures run[n].published + run[n].refused + Images(prefixes, recode, run[n].flight) ==
            Images(prefixes, recode, run[n].injected)
    ensures forall q :: q in run[n].published + run[n].refused ==> Forward(prefixes, recode, q).None?
  {
    hide Forward, Images;
    if n == 0 {
      ImagesNone(prefixes, recode);
    } else {
      Conservation(prefixes, recode, run, hops, n - 1);
      HopConserves(prefixes, recode, run[n - 1], hops[n - 1]);
    }
  }

  lemma ImagesNone(prefixes: Prefixes, recode: Recoder)
    ensures Images(prefixes, recode, multiset{}) == multiset{}
  {
  }

  ghost predicate Conserved(prefixes: Prefixes, recode: Recoder, n: Network) {
    && n.published + n.refused + Images(prefixes, recode, n.flight) == Images(prefixes, recode, n.injected)
    && forall q :: q in n.published + n.refused ==> Forward(prefixes, recode, q).None?
  }

  lemma InjectConserves(prefixes: Prefixes, recode: Recoder, s: Network, p: Packet)
    requires Conserved(prefixes, recode, s)
    ensures Conserved(prefixes, recode, Hopped(prefixes, recode, s, Inject(p)))
  {
    hide Forward, Images, Image;
    ImagesAdd(prefixes, recode, s.flight, p);
    ImagesAdd(prefixes, recode, s.injected, p);
  }

  lemma DeliverConserves(prefixes: Prefixes, recode: Recoder, s: Network, p: Packet, taken: bool)
    requires Named(prefixes)
    requires p in s.flight && Conserved(prefixes, recode, s)
    ensures Conserved(prefixes, recode, Hopped(prefixes, recode, s, Deliver(p, taken)))
  {
    hide Forward, Images;
    var rest := s.flight - multiset{p};
    var images := Images(prefixes, recode, rest);
    assert rest + multiset{p} == s.flight;
    ImagesAdd(prefixes, recode, rest, p);
    if Forward(prefixes, recode, p).Some? {
      ForwardedConserves(prefixes, recode, s, p, taken, rest, images);
    } else {
      assert images + multiset{} == images;
    }
  }

  lemma ForwardedConserves(prefixes: Prefixes, recode: Recoder, s: Network, p: Packet, taken: bool,
                           rest: multiset<Packet>, images: multiset<Packet>)
    requires Named(prefixes)
    requires p in s.flight && Conserved(prefixes, recode, s) && Forward(prefixes, recode, p).Some?
    requires rest == s.flight - multiset{p} && images == Images(prefixes, recode, rest)
    requires Images(prefixes, recode, s.flight) == images + Image(prefixes, recode, p)
    ensures Conserved(prefixes, recode, Hopped(prefixes, recode, s, Deliver(p, taken)))
  {
    hide Forward, Images;
    var q := Forward(prefixes, recode, p).value;
    ForwardedOnce(prefixes, recode, p);
    ImagesAdd(prefixes, recode, rest, q);
    assert Image(prefixes, recode, q) == multiset{};
    assert images + multiset{} == images;
    Regroup(s.published, s.refused, images, multiset{q});
  }

  lemma Regroup(a: multiset<Packet>, b: multiset<Packet>, c: multiset<Packet>, d: multiset<Packet>)
    ensures (a + d) + b + c == a + b + (c + d) == a + (b + d) + c
  {
  }

  lemma HopConserves(prefixes: Prefixes, recode: Recoder, s: Network, hop: Hop)
    requires Named(prefixes)
    requires CanHop(s, hop) && Conserved(prefixes, recode, s)
    ensures Conserved(prefixes, recode, Hopped(prefixes, recode, s, hop))
  {
    hide Forward, Images, Hopped, Conserved;
    match hop
    case Inject(p) => InjectConserves(prefixes, recode, s, p);
    case Deliver(p, taken) => DeliverConserves(prefixes, recode, s, p, taken);
  }

  /** When nothing is in flight, what was published or refused is exactly the image of what
      was injected. */
  lemma QuiescentExactlyOnce(prefixes: Prefixes, recode: Recoder, run: seq<Network>, hops: seq<Hop>, n: nat)
    requires Named(prefixes)
    requires IsTraffic(prefixes, recode, run, hops) && n < |run| && run[n].flight == multiset{}
    ensures run[n].published + run[n].refused == Images(prefixes, recode, run[n].injected)
  {
    Conservation(prefixes, recode, run, hops, n);
  }

  /** The deliveries that are still possible: two for a message that will be forwarded. */
  ghost function Pending(prefixes: Prefixes, recode: Recoder, n: Network): nat {
    |n.flight| + |Images(prefixes, recode, n.flight)|
  }

  lemma DeliveryDecreases(prefixes: Prefixes, recode: Recoder, n: Network, hop: Hop)
    requires Named(prefixes)
    requires hop.Deliver? && CanHop(n, hop)
    ensures Pending(prefixes, recode, Hopped(prefixes, recode, n, hop)) < Pending(prefixes, recode, n)
  {
    hide Forward;
    var p, rest := hop.packet, n.flight - multiset{hop.packet};
    assert rest + multiset{p} == n.flight;
    ImagesAdd(prefixes, recode, rest, p);
    ForwardedOnce(prefixes, recode, p);
    if Forward(prefixes, recode, p).Some? {
      ImagesAdd(prefixes, recode, rest, Forward(prefixes, recode, p).value);
    }
  }

  predicate OnlyDeliveries(hops: seq<Hop>) {
    forall i :: 0 <= i < |hops| ==> hops[i].Deliver?
  }

  ghost predicate Continues(prefixes: Prefixes, recode: Recoder, run: seq<Network>, hops: seq<Hop>) {
    && |run| == |hops| + 1
    && forall i :: 0 <= i < |hops| ==> CanHop(run[i], hops[i]) && run[i + 1] == Hopped(prefixes, recode, run[i], hops[i])
  }

  /** Forwarding quiesces: once injection stops, at most twice as many deliveries follow as
      there are messages in flight, whatever the order of delivery. */
  lemma {:induction false} ForwardingQuiesces(prefixes: Prefixes, recode: Recoder, run: seq<Network>, hops: seq<Hop>)
    requires Named(prefixes)
    requires Continues(prefixes, recode, run, hops) && OnlyDeliveries(hops)
    ensures |hops| + Pending(prefixes, recode, run[|hops|]) <= Pending(prefixes, recode, run[0]) <= 2 * |run[0].flight|
  {
    hide Forward, Images;
    ImagesSize(prefixes, recode, run[0].flight);
    if hops != [] {
      var n := |hops| - 1;
      ForwardingQuiesces(prefixes, recode, run[..n + 1], hops[..n]);
      DeliveryDecreases(prefixes, recode, run[n], hops[n]);
    }
  }

  lemma {:induction false} ImagesSize(prefixes: Prefixes, recode: Recoder, ps: multiset<Packet>)
    ensures |Images(prefixes, recode, ps)| <= |ps|
    decreases |ps|
  {
    hide Forward;
    if ps != multiset{} {
      var p :| p in ps && Images(prefixes, recode, ps) == Images(prefixes, recode, ps - multiset{p}) + Image(prefixes, recode, p);
      ImagesSize(prefixes, recode, ps - multiset{p});
      assert |Image(prefixes, recode, p)| <= 1;
      assert |ps - multiset{p}| == |ps| - 1;
    }
  }
}
