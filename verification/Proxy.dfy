/** The proxy: lifecycle of the two endpoints and the bridge between them. The class
    invariant holds after any sequence of calls, whichever of them fail at whatever stage.
    The two MQTT clients live as long as the proxy and keep every subscription ever made, so
    after a restart, or a start that failed after subscribing, a message also reaches handlers
    of endpoints that are gone. */
module Proxy {
  import opened Wrappers
  import opened Topics
  import opened EndPoints
  import opened Forwarding

  /** The callback that forwards a message; all other callbacks have other numbers. */
  const BRIDGE: nat := 0

  const ALL_KINDS := {State, Visualization, Connection, FactSheet, Order, InstantActions, Responses, ZoneSet}

  /** What the outside world answers at each stage of start. */
  datatype Answers = Answers(libInit: bool, configured: bool, connected: bool, granted: set<Kind>, loopStarted: bool)

  /** The publication that one delivery causes on the other side. */
  function Published(prefixes: Prefixes, recode: Recoder, p: Packet): seq<Publication> {
    match Forward(prefixes, recode, p)
    case None => []
    case Some(q) => [Publication(q.topic, Accepted(prefixes.At(p.side), SubscribedKinds(p.side), p.topic).value, q.payload)]
  }

  lemma ParsedTwoLevels(prefix: string)
    requires ParseTopicPrefix(prefix).Some?
    ensures TwoLevels(ParseTopicPrefix(prefix).value)
  {
    hide FindSlash;
    PrefixAccepted(prefix);
  }

  lemma PrefixLevels(prefix: string)
    ensures var levels := Levels(prefix);
            ParseTopicPrefix(prefix) ==
            if |levels| == 2 && levels[0] != "" && levels[1] != "" then Some(TopicContext(levels[0], levels[1], "", ""))
            else None
  {
    hide FindSlash, Levels, ParseTopicPrefix;
    PrefixAccepted(prefix);
    var levels := Levels(prefix);
    if |levels| == 2 {
      assert levels == [levels[0], levels[1]];
    }
  }

  /** All kinds of a side are obtained exactly when each is granted and has a valid filter. */
  lemma NothingRefused(template: TopicContext, side: Side, granted: set<Kind>)
    ensures ObtainedKinds(template, side, granted) == SubscribedKinds(side) <==>
            forall kind :: kind in SubscribedKinds(side) ==>
              kind in granted &&
              ValidFilter(template.interfaceName + "/" + template.majorVersion + "/+/+/" + SuffixOf(kind))
  {
    hide SubscribedKinds, SuffixOf, ValidFilter, ObtainedKinds;
    ObtainedAll(template, side, granted);
    forall kind
      ensures BuildFilter(template, SuffixOf(kind)) ==
              template.interfaceName + "/" + template.majorVersion + "/+/+/" + SuffixOf(kind)
    {
    }
  }

  // ---------------------------------------------------------------- subscription lists

  /** Entries of valid filters, made by endpoints with the given numbers. */
  ghost predicate MadeBy(entries: seq<Entry>, endpoints: nat) {
    GrantedEntries(entries) && forall e :: e in entries ==> e.owner < endpoints
  }

  /** The list ends with all that the endpoint subscribed to, and holds no other entry of it. */
  ghost predicate Subscribed(entries: seq<Entry>, owner: nat, template: TopicContext, kinds: seq<Kind>) {
    |entries| >= |kinds| && entries == Earlier(entries, kinds) + EntriesOf(owner, template, kinds) &&
    forall e :: e in Earlier(entries, kinds) ==> e.owner != owner
  }

  /** What was subscribed before that. */
  function Earlier(entries: seq<Entry>, kinds: seq<Kind>): seq<Entry> {
    if |entries| >= |kinds| then entries[..|entries| - |kinds|] else []
  }

  /** A new endpoint subscribes to some kinds. */
  lemma NewEntries(entries: seq<Entry>, owner: nat, template: TopicContext, side: Side, granted: set<Kind>)
    requires MadeBy(entries, owner) && TwoLevels(template)
    ensures var kinds := ObtainedKinds(template, side, granted);
            MadeBy(entries + EntriesOf(owner, template, kinds), owner + 1) &&
            Subscribed(entries + EntriesOf(owner, template, kinds), owner, template, kinds)
  {
    hide SubscribedKinds, BuildFilter, SuffixOf, ValidFilter, BeforeRefusal, TwoLevels;
    var kinds := ObtainedKinds(template, side, granted);
    var own := EntriesOf(owner, template, kinds);
    forall e | e in own
      ensures ValidFilter(FilterOf(e)) && TwoLevels(e.template) && e.owner == owner
    {
      assert e.kind in kinds;
    }
    assert (entries + own)[..|entries|] == entries;
  }

  /** All entries are the endpoint's own exactly when nothing was subscribed before it. */
  lemma NoneEarlier(entries: seq<Entry>, owner: nat, template: TopicContext, kinds: seq<Kind>)
    requires Subscribed(entries, owner, template, kinds)
    ensures (forall e :: e in entries ==> e.owner == owner) <==> Earlier(entries, kinds) == []
  {
    var earlier := Earlier(entries, kinds);
    if earlier != [] {
      assert earlier[0] in earlier && earlier[0] in entries;
    }
  }

  class VDA5050Proxy {
    const recode: Recoder
    const localClient: MqttClient
    const cloudClient: MqttClient
    var prefix: string
    var initialized: bool
    var running: bool
    var mosquittoInitialized: bool
    var connectCallback: bool
    var local: EndPoint?
    var cloud: EndPoint?
    /** How many endpoints have been constructed: the number of the next one. */
    var endpoints: nat
    var inits: nat
    var cleanups: nat

    constructor (recode: Recoder)
      ensures this.recode == recode && Valid() && !initialized && !running && inits == cleanups == endpoints == 0
      ensures fresh(localClient) && fresh(cloudClient) && localClient.entries == [] && cloudClient.entries == []
    {
      this.recode := recode;
      localClient := new MqttClient();
      cloudClient := new MqttClient();
      prefix := "";
      initialized, running, mosquittoInitialized, connectCallback := false, false, false, false;
      local, cloud := null, null;
      endpoints, inits, cleanups := 0, 0, 0;
    }

    ghost predicate Live(e: EndPoint, side: Side)
      reads this, e
    {
      e.side == side && e.Valid() && e.initialized && !e.stopped && !e.publisherStopped &&
      e.client == ClientOf(side) && e.recode == recode && TwoLevels(e.template) && e.id < endpoints
    }

    function ClientOf(side: Side): MqttClient {
      if side == Local then localClient else cloudClient
    }

    ghost predicate Bridged(e: EndPoint, times: nat)
      reads e
    {
      e.Valid() && forall k :: k in SubscribedKinds(e.side) ==> Times(BRIDGE, e.callbacks[k]) == times
    }

    /** What holds at every stage, also within a start that fails. */
    ghost predicate Sound()
      reads this, localClient, cloudClient
    {
      && inits == cleanups + (if mosquittoInitialized then 1 else 0)
      && localClient != cloudClient
      && MadeBy(localClient.entries, endpoints) && MadeBy(cloudClient.entries, endpoints)
    }

    /** Successful library inits minus cleanups equals the initialized flag, which equals the
        running flag; running means a live local endpoint; a cloud endpoint is live; each live
        endpoint has subscribed to all its kinds; and each bridge callback is registered once
        while there is a cloud endpoint, else not at all. */
    ghost predicate Valid()
      reads this, localClient, cloudClient, local, cloud
    {
      && Sound()
      && running == mosquittoInitialized == (local != null)
      && (running ==> initialized && connectCallback)
      && (cloud != null ==>
            local != null && Live(cloud, Cloud) && Bridged(cloud, 1) &&
            Subscribed(cloudClient.entries, cloud.id, cloud.template, SubscribedKinds(Cloud)))
      && (local != null ==>
            Live(local, Local) && Bridged(local, if cloud == null then 0 else 1) &&
            Subscribed(localClient.entries, local.id, local.template, SubscribedKinds(Local)))
    }

    ghost predicate Stopped()
      reads this
    {
      !running && !mosquittoInitialized && local == null && cloud == null && inits == cleanups
    }

    method Init(prefix: string)
      requires Valid()
      modifies this`prefix, this`initialized
      ensures Valid() && initialized && this.prefix == prefix
    {
      this.prefix := prefix;
      initialized := true;
    }

    /** Stage by stage: the library is initialised once the configuration is there and its
        prefix is two non-empty levels, an endpoint subscribes once the clients are configured
        and the local broker is connected, and the proxy runs once nothing was refused and the
        local loop has started. A start that fails at any stage leaves the proxy stopped. */
    method Start(answers: Answers) returns (ok: bool)
      requires Valid()
      modifies this, local, cloud, localClient
      ensures Valid() && ok == running && initialized == old(initialized) && prefix == old(prefix)
      ensures old(running) ==>
                ok && local == old(local) && cloud == old(cloud) && inits == old(inits) && endpoints == old(endpoints) &&
                localClient.entries == old(localClient.entries)
      ensures var levels := Levels(prefix);
              var begins := !old(running) && initialized && |levels| == 2 && levels[0] != "" && levels[1] != "" && answers.libInit;
              inits == old(inits) + if begins then 1 else 0
      ensures var levels := Levels(prefix);
              !old(running) ==>
                (ok <==>
                 && initialized && |levels| == 2 && levels[0] != "" && levels[1] != ""
                 && answers.libInit && answers.configured && answers.connected && answers.loopStarted
                 && forall kind :: kind in SubscribedKinds(Local) ==>
                      kind in answers.granted &&
                      ValidFilter(levels[0] + "/" + levels[1] + "/+/+/" + SuffixOf(kind)))
      ensures var levels := Levels(prefix);
              var asks := !old(running) && initialized && |levels| == 2 && levels[0] != "" && levels[1] != "" &&
                          answers.libInit && answers.configured && answers.connected;
              && endpoints == old(endpoints) + (if asks then 1 else 0)
              && localClient.entries == old(localClient.entries) +
                 if asks then
                   var template := TopicContext(levels[0], levels[1], "", "");
                   EntriesOf(old(endpoints), template, ObtainedKinds(template, Local, answers.granted))
                 else []
      ensures !old(running) && ok ==>
                fresh(local) && cloud == null && local.id == old(endpoints) &&
                local.template == TopicContext(Levels(prefix)[0], Levels(prefix)[1], "", "")
      ensures !old(running) && !ok ==> Stopped()
    {
      hide ParseTopicPrefix, ObtainedKinds, SubscribedKinds, EntriesOf, BeforeRefusal, TwoLevels, MadeBy, Subscribed, Levels;
      PrefixLevels(prefix);
      if !initialized {
        return false;
      }
      if running {
        return true;
      }
      var template := ParseTopicPrefix(prefix);
      if template.None? {
        return false;
      }
      if !answers.libInit {
        return false;
      }
      inits, mosquittoInitialized := inits + 1, true;
      if !answers.configured {
        Stop();
        return false;
      }
      if !answers.connected {
        Stop();
        return false;
      }
      ParsedTwoLevels(prefix);
      NothingRefused(template.value, Local, answers.granted);
      var endpoint, subscribed := Open(Local, template.value, answers.granted);
      local := endpoint;
      if !subscribed {
        Stop();
        return false;
      }
      if !answers.loopStarted {
        Stop();
        return false;
      }
      connectCallback := true;
      running := true;
      return true;
    }

    /** Constructs an endpoint and initialises it. */
    method Open(side: Side, template: TopicContext, granted: set<Kind>) returns (e: EndPoint, ok: bool)
      requires Sound() && TwoLevels(template)
      modifies this`endpoints, ClientOf(side)
      ensures Sound() && endpoints == old(endpoints) + 1
      ensures fresh(e) && e.Valid() && e.id == old(endpoints) && e.template == template
      ensures ClientOf(side).entries == old(ClientOf(side).entries) +
              EntriesOf(e.id, template, ObtainedKinds(template, side, granted))
      ensures ok == (ObtainedKinds(template, side, granted) == SubscribedKinds(side))
      ensures ok ==> Live(e, side) && Bridged(e, 0) &&
                     Subscribed(ClientOf(side).entries, e.id, template, SubscribedKinds(side))
    {
      hide ObtainedKinds, SubscribedKinds, EntriesOf, BeforeRefusal, TwoLevels, MadeBy, Subscribed;
      NewEntries(ClientOf(side).entries, endpoints, template, side, granted);
      OthersMadeBy(ClientOf(Other(side)).entries, endpoints);
      NamesOfTwoLevels(template);
      e := new EndPoint(endpoints, ClientOf(side), side, template, recode);
      endpoints := endpoints + 1;
      ok := e.Init(granted);
      assert forall k :: e.callbacks[k] == [];
    }

    lemma OthersMadeBy(entries: seq<Entry>, endpoints: nat)
      requires MadeBy(entries, endpoints)
      ensures MadeBy(entries, endpoints + 1)
    {
    }

    lemma NamesOfTwoLevels(template: TopicContext)
      requires TwoLevels(template)
      ensures template.interfaceName != "" && template.majorVersion != ""
    {
    }

    /** The clients keep their subscriptions. */
    method Stop()
      requires Sound() && (local != null ==> local.Valid()) && (cloud != null ==> cloud.Valid())
      requires local != null && cloud != null ==> local != cloud
      modifies this, local, cloud
      ensures Valid() && Stopped()
      ensures initialized == old(initialized) && prefix == old(prefix) && inits == old(inits)
      ensures endpoints == old(endpoints)
      ensures old(local) != null ==> old(local).stopped && old(local).publisherStopped
      ensures old(cloud) != null ==> old(cloud).stopped && old(cloud).publisherStopped
    {
      hide MadeBy;
      if local != null {
        local.Stop();
      }
      if cloud != null {
        cloud.Stop();
      }
      local, cloud := null, null;
      if mosquittoInitialized {
        mosquittoInitialized := false;
        cleanups := cleanups + 1;
      }
      running := false;
    }

    /** The cloud client's connect callback. The result says whether it announced a new cloud
        connection; a reconnect leaves endpoints and callbacks as they are. A setup that fails
        leaves what it subscribed to with the cloud client. */
    method OnCloudConnect(success: bool, granted: set<Kind>) returns (announced: bool)
      requires Valid() && connectCallback
      modifies this`cloud, this`endpoints, local, cloudClient
      ensures Valid()
      ensures announced == (success && old(cloud) == null && running && ParseTopicPrefix(prefix).Some? &&
                            ObtainedKinds(ParseTopicPrefix(prefix).value, Cloud, granted) == SubscribedKinds(Cloud))
      ensures announced ==> cloud != null && fresh(cloud) && cloud.template == ParseTopicPrefix(prefix).value
      ensures !announced ==> cloud == old(cloud)
      ensures local != null ==> local.sent == old(local.sent)
      ensures local != null && !announced ==> local.callbacks == old(local.callbacks)
      ensures cloudClient.entries == old(cloudClient.entries) +
              if success && old(cloud) == null && ParseTopicPrefix(prefix).Some? then
                var template := ParseTopicPrefix(prefix).value;
                EntriesOf(old(endpoints), template, ObtainedKinds(template, Cloud, granted))
              else []
    {
      hide ParseTopicPrefix, ObtainedKinds, SubscribedKinds, EntriesOf, BeforeRefusal, TwoLevels, MadeBy, Subscribed;
      if !success || cloud != null {
        return false;
      }
      var template := ParseTopicPrefix(prefix);
      if template.None? {
        return false;
      }
      ParsedTwoLevels(prefix);
      var endpoint, subscribed := Open(Cloud, template.value, granted);
      cloud := endpoint;
      if !subscribed {
        cloud := null;
        return false;
      }
      var bridged := SetupBridge();
      if !bridged {
        cloud := null;
        return false;
      }
      return true;
    }

    method SetupBridge() returns (ok: bool)
      requires local != null ==> Live(local, Local) && Bridged(local, 0)
      requires cloud != null ==> Live(cloud, Cloud) && Bridged(cloud, 0)
      modifies local, cloud
      ensures ok == (local != null && cloud != null)
      ensures ok ==> Live(local, Local) && Bridged(local, 1) && Live(cloud, Cloud) && Bridged(cloud, 1)
      ensures local != null ==> local.sent == old(local.sent)
      ensures !ok && local != null ==> local.callbacks == old(local.callbacks) && Live(local, Local)
    {
      if local == null || cloud == null {
        return false;
      }
      ok := Register(local);
      if ok {
        ok := Register(cloud);
      }
    }

    /** Registers the bridge callback for every kind of a side, stopping at the first refusal. */
    method Register(e: EndPoint) returns (ok: bool)
      requires Live(e, e.side) && Bridged(e, 0)
      modifies e`callbacks
      ensures ok && Live(e, e.side) && Bridged(e, 1)
    {
      var kinds := SubscribedKinds(e.side);
      ok := true;
      for i := 0 to |kinds|
        invariant ok && Live(e, e.side)
        invariant forall j :: 0 <= j < |kinds| ==> Times(BRIDGE, e.callbacks[kinds[j]]) == if j < i then 1 else 0
      {
        HeardKind(e.side, kinds[i]);
        ok := e.On(kinds[i], BRIDGE);
        if !ok {
          return false;
        }
      }
    }

    lemma HeardKind(side: Side, kind: Kind)
      requires kind in SubscribedKinds(side)
      ensures MayListen(side, kind) && Distinct(SubscribedKinds(side))
    {
    }

    /** A message arrives on one broker: the endpoint there runs its callbacks, and the bridge
        callback publishes on the other side, exactly once if the message is accepted. If the
        message reaches a handler of an endpoint that is gone, nothing is promised. */
    method Deliver(p: Packet, throwing: set<nat>, taken: bool) returns (stray: bool)
      requires Valid() && local != null && cloud != null && TopicName(p.topic)
      modifies local`sent, cloud`sent
      ensures Valid()
      ensures stray <==> StrayReached(recode, ClientOf(p.side).entries, (if p.side == Local then local else cloud).id,
                                      p.topic, p.payload)
      ensures !stray ==>
                var prefixes := Prefixes(local.template, cloud.template);
                && local.sent == old(local.sent) +
                   (if taken && p.side == Cloud then Published(prefixes, recode, p) else [])
                && cloud.sent == old(cloud.sent) +
                   (if taken && p.side == Local then Published(prefixes, recode, p) else [])
    {
      hide Published, TwoLevels, TopicName, StrayReached, SubscribedKinds, MadeBy, Subscribed;
      ghost var prefixes := Prefixes(local.template, cloud.template);
      NamesOfTwoLevels(local.template);
      NamesOfTwoLevels(cloud.template);
      if p.side == Local {
        stray := DeliverBetween(local, cloud, p, throwing, taken, prefixes);
      } else {
        stray := DeliverBetween(cloud, local, p, throwing, taken, prefixes);
      }
    }

    method DeliverBetween(from: EndPoint, to: EndPoint, p: Packet, throwing: set<nat>, taken: bool, ghost prefixes: Prefixes)
      returns (stray: bool)
      requires Live(from, p.side) && Bridged(from, 1) && Live(to, Other(p.side))
      requires Named(prefixes) && prefixes.At(p.side) == from.template
      requires Subscribed(from.client.entries, from.id, from.template, SubscribedKinds(p.side)) && TopicName(p.topic)
      modifies to`sent
      ensures stray <==> StrayReached(recode, from.client.entries, from.id, p.topic, p.payload)
      ensures !stray ==> to.sent == old(to.sent) + if taken then Published(prefixes, recode, p) else []
    {
      hide ParseTopicContext, BuildTopic, SuffixOf, Published, Forward, AllCalls, SubscribedKinds, EntriesCalls, TwoLevels,
        TopicName, StrayReached, Subscribed;
      var calls: seq<Call>;
      calls, stray := from.client.HandleMessage(from, p.topic, p.payload, throwing);
      if stray {
        return;
      }
      CallsOfOwn(from.client.entries, from.id, from.template, SubscribedKinds(p.side), from.callbacks, p);
      OneHandlerOf(p, from.template, from.callbacks);
      if calls != [] {
        ghost var kind := Accepted(from.template, SubscribedKinds(p.side), p.topic).value;
        PublishedShape(p, prefixes, kind);
        RunCalls(to, calls, kind, from.callbacks[kind], ParseTopicContext(from.template, p.topic, SuffixOf(kind)).value,
                 p.payload, taken);
      } else {
        NotForwarded(p, prefixes, from.callbacks);
      }
    }

    /** Without strays, earlier entries are not reached, and the live endpoint's own make the
        calls that its parser allows. */
    lemma CallsOfOwn(entries: seq<Entry>, owner: nat, template: TopicContext, kinds: seq<Kind>,
                     callbacks: map<Kind, seq<nat>>, p: Packet)
      requires Subscribed(entries, owner, template, kinds) && !StrayReached(recode, entries, owner, p.topic, p.payload)
      requires TwoLevels(template) && TopicName(p.topic) && forall k :: k in callbacks
      ensures EntriesCalls(entries, template, recode, callbacks, false, p.topic, p.payload) ==
              AllCalls(template, recode, kinds, callbacks, false, p.topic, p.payload)
    {
      hide EntriesCalls, AllCalls, TwoLevels, TopicName, Reaches, EntriesOf;
      var earlier := Earlier(entries, kinds);
      EntriesCallsConcat(earlier, EntriesOf(owner, template, kinds), template, recode, callbacks, false, p.topic, p.payload);
      forall e | e in earlier
        ensures !Reaches(recode, e, p.topic, p.payload)
      {
        assert e in entries && e.owner != owner;
      }
      NoCallsUnreached(earlier, template, recode, callbacks, false, p.topic, p.payload);
      OwnCalls(owner, template, kinds, recode, callbacks, false, p.topic, p.payload);
    }

    /** Every handler that a message can reach belongs to the live endpoint, if and only if no
        earlier endpoint ever subscribed through its client. */
    lemma OnlyLiveIffFirst(side: Side)
      requires Valid() && Decodable(recode) && (if side == Local then local else cloud) != null
      ensures var client, live := ClientOf(side), if side == Local then local else cloud;
              OnlyLiveReached(recode, client.entries, live.id) <==>
              Earlier(client.entries, SubscribedKinds(side)) == []
    {
      hide OnlyLiveReached, Earlier, EntriesOf, SubscribedKinds, Decodable, GrantedEntries, Bridged;
      var client, live := ClientOf(side), if side == Local then local else cloud;
      OnlyLiveIffNoOthers(recode, client.entries, live.id);
      NoneEarlier(client.entries, live.id, live.template, SubscribedKinds(side));
    }

    lemma PublishedShape(p: Packet, prefixes: Prefixes, kind: Kind)
      requires Named(prefixes) && Accepted(prefixes.At(p.side), SubscribedKinds(p.side), p.topic) == Some(kind)
      requires recode(kind, p.payload).Some?
      ensures var topic := BuildTopic(ParseTopicContext(prefixes.At(p.side), p.topic, SuffixOf(kind)).value, SuffixOf(kind));
              topic.Some? && MayPublish(Other(p.side), kind) &&
              Published(prefixes, recode, p) == [Publication(topic.value, kind, recode(kind, p.payload).value)]
    {
      hide ParseTopicContext, BuildTopic, SuffixOf, SubscribedKinds;
      ForwardedOnce(prefixes, recode, p);
    }

    /** Without calls, the message was not accepted or did not decode: some bridge callback
        is registered for every kind that is heard. */
    lemma NotForwarded(p: Packet, prefixes: Prefixes, callbacks: map<Kind, seq<nat>>)
      requires forall k :: k in SubscribedKinds(p.side) ==> k in callbacks && Times(BRIDGE, callbacks[k]) == 1
      requires AllCalls(prefixes.At(p.side), recode, SubscribedKinds(p.side), callbacks, false, p.topic, p.payload) == []
      requires Named(prefixes)
      ensures Published(prefixes, recode, p) == []
    {
      hide ParseTopicContext, SuffixOf, AllCalls, BuildTopic, SubscribedKinds;
      OneHandlerOf(p, prefixes.At(p.side), callbacks);
      ForwardedOnce(prefixes, recode, p);
    }

    lemma OneHandlerOf(p: Packet, template: TopicContext, callbacks: map<Kind, seq<nat>>)
      requires forall k :: k in SubscribedKinds(p.side) ==> k in callbacks
      ensures AllCalls(template, recode, SubscribedKinds(p.side), callbacks, false, p.topic, p.payload) ==
              match Accepted(template, SubscribedKinds(p.side), p.topic)
              case None => []
              case Some(k) => CallsFor(template, recode, k, callbacks[k], false, p.topic, p.payload)
    {
      OneHandler(template, recode, SubscribedKinds(p.side), callbacks, false, p.topic, p.payload);
    }

    /** Among the calls of one message, exactly the bridge's publishes. */
    method RunCalls(to: EndPoint, calls: seq<Call>, ghost kind: Kind, ghost snapshot: seq<nat>,
                    ghost context: TopicContext, payload: string, taken: bool)
      requires |calls| == |snapshot| && forall i :: 0 <= i < |calls| ==> calls[i] == Call(snapshot[i], kind, context)
      requires Times(BRIDGE, snapshot) == 1 && recode(kind, payload).Some?
      requires MayPublish(to.side, kind) && !to.publisherStopped && BuildTopic(context, SuffixOf(kind)).Some?
      modifies to`sent
      ensures to.sent == old(to.sent) +
              if taken then [Publication(BuildTopic(context, SuffixOf(kind)).value, kind, recode(kind, payload).value)] else []
    {
      hide BuildTopic, SuffixOf;
      ghost var one := if taken then [Publication(BuildTopic(context, SuffixOf(kind)).value, kind, recode(kind, payload).value)] else [];
      assert snapshot[..|calls|] == snapshot;
      for i := 0 to |calls|
        invariant Times(BRIDGE, snapshot[..i]) <= 1
        invariant to.sent == old(to.sent) + if Times(BRIDGE, snapshot[..i]) == 1 then one else []
      {
        assert snapshot[..i + 1] == snapshot[..i] + [snapshot[i]];
        assert snapshot == snapshot[..i + 1] + snapshot[i + 1..];
        assert multiset(snapshot) == multiset(snapshot[..i + 1]) + multiset(snapshot[i + 1..]);
        if calls[i].callback == BRIDGE {
          var text := recode(calls[i].kind, payload);
          var _ := to.Publish(calls[i].context, calls[i].kind, text.value, taken);
        }
      }
    }
  }

  // ---------------------------------------------------------------- a restart

  /** With a usable prefix and nothing refused, an endpoint hears all kinds of its side. */
  lemma AllObtained(template: TopicContext, side: Side)
    requires TwoLevels(template) && FilterLevel(template.interfaceName) && FilterLevel(template.majorVersion)
    ensures ObtainedKinds(template, side, ALL_KINDS) == SubscribedKinds(side)
  {
    hide BuildFilter, SuffixOf, ValidFilter, SubscribedKinds, TwoLevels, FilterLevel;
    forall k | k in SubscribedKinds(side)
      ensures k in UsableKinds(template, ALL_KINDS)
    {
      SuffixesDistinct(k, k);
      FilterIsValid(template, SuffixOf(k));
    }
  }

  /** What an endpoint and its successor with the same prefix leave in the list. */
  lemma TwiceSubscribed(template: TopicContext, kinds: seq<Kind>, entries: seq<Entry>)
    requires entries == EntriesOf(0, template, kinds) + EntriesOf(1, template, kinds)
    ensures forall e :: e in entries && e.owner == 1 ==> e.(owner := 0) in entries
    ensures kinds != [] ==> exists e :: e in entries && e.owner != 1
  {
    forall e | e in entries && e.owner == 1
      ensures e.(owner := 0) in entries
    {
      var i :| 0 <= i < |entries| && entries[i] == e;
      assert entries[i - |kinds|] == e.(owner := 0);
    }
    if kinds != [] {
      assert entries[0] in entries;
    }
  }

  lemma KindsHeard(side: Side)
    ensures SubscribedKinds(side) != []
  {
  }

  /** A restart: after it, each message that reaches a handler of the live endpoint also
      reaches one of the endpoint before it. */
  method Restart(prefix: string, recode: Recoder) returns (proxy: VDA5050Proxy)
    requires ParseTopicPrefix(prefix).Some?
    requires var template := ParseTopicPrefix(prefix).value;
             FilterLevel(template.interfaceName) && FilterLevel(template.majorVersion)
    ensures fresh(proxy) && proxy.Valid() && proxy.running && proxy.local != null && proxy.recode == recode
    ensures forall e :: e in proxy.localClient.entries && e.owner == proxy.local.id ==>
              e.(owner := 0) in proxy.localClient.entries && proxy.local.id != 0
    ensures Decodable(recode) ==> !OnlyLiveReached(recode, proxy.localClient.entries, proxy.local.id)
  {
    hide ParseTopicPrefix, SubscribedKinds, FilterLevel, Decodable, OnlyLiveReached, EntriesOf, ObtainedKinds, TwoLevels,
      GrantedEntries, Levels;
    proxy := new VDA5050Proxy(recode);
    proxy.Init(prefix);
    var template := ParseTopicPrefix(prefix).value;
    ParsedTwoLevels(prefix);
    PrefixLevels(prefix);
    AllObtained(template, Local);
    NothingRefused(template, Local, ALL_KINDS);
    var answers := Answers(true, true, true, ALL_KINDS, true);
    var _ := proxy.Start(answers);
    proxy.Stop();
    var _ := proxy.Start(answers);
    ghost var entries := proxy.localClient.entries;
    assert entries == EntriesOf(0, template, SubscribedKinds(Local)) + EntriesOf(1, template, SubscribedKinds(Local));
    TwiceSubscribed(template, SubscribedKinds(Local), entries);
    KindsHeard(Local);
    if Decodable(recode) {
      OnlyLiveIffNoOthers(recode, entries, 1);
    }
  }
}
