/** MQTT clients and VDA 5050 endpoints: the kinds of message each side subscribes to and may
    publish, and the path of an incoming message through filter match, decoding and dispatch. */
module EndPoints {
  import opened Wrappers
  import opened Topics

  datatype Kind = State | Visualization | Connection | FactSheet | Order | InstantActions | Responses | ZoneSet

  datatype Side = Local | Cloud

  function Other(side: Side): Side {
    if side == Local then Cloud else Local
  }

  function SuffixOf(kind: Kind): string {
    match kind
    case State => "state"
    case Visualization => "visualization"
    case Connection => "connection"
    case FactSheet => "factsheet"
    case Order => "order"
    case InstantActions => "instantActions"
    case Responses => "responses"
    case ZoneSet => "zoneSet"
  }

  /** The subscriptions that an endpoint makes when it is initialised, in order. */
  function SubscribedKinds(side: Side): seq<Kind> {
    match side
    case Local => [State, Visualization, Connection, FactSheet]
    case Cloud => [Order, InstantActions, Responses, ZoneSet]
  }

  /** The kinds for which On... accepts a callback. */
  predicate MayListen(side: Side, kind: Kind) {
    match kind
    case State => side == Local
    case Visualization => side == Local
    case Connection => side == Local
    case FactSheet => side == Local
    case Order => side == Cloud
    case InstantActions => side == Cloud
    case Responses => side == Cloud
    case ZoneSet => side == Cloud
  }

  /** The kinds that Publish lets through. */
  predicate MayPublish(side: Side, kind: Kind) {
    match kind
    case State => side == Cloud
    case Visualization => side == Cloud
    case Connection => side == Cloud
    case FactSheet => side == Cloud
    case Order => side == Local
    case InstantActions => side == Local
    case Responses => side == Local
    case ZoneSet => side == Local
  }

  /** Callbacks are accepted for exactly the kinds that the side subscribes to, messages for
      exactly those that the other side does. */
  lemma SideGates(side: Side, kind: Kind)
    ensures MayListen(side, kind) <==> kind in SubscribedKinds(side)
    ensures MayPublish(side, kind) <==> kind in SubscribedKinds(Other(side))
    ensures kind in SubscribedKinds(side) <==> kind !in SubscribedKinds(Other(side))
  {
  }

  /** The filters of a side as they go to the broker, in order. */
  lemma SideFilters(template: TopicContext)
    ensures var names := template.interfaceName + "/" + template.majorVersion + "/+/+/";
            && FiltersOf(template, SubscribedKinds(Local)) ==
               [names + "state", names + "visualization", names + "connection", names + "factsheet"]
            && FiltersOf(template, SubscribedKinds(Cloud)) ==
               [names + "order", names + "instantActions", names + "responses", names + "zoneSet"]
  {
    hide SuffixOf;
    SuffixTable();
    var names := template.interfaceName + "/" + template.majorVersion + "/+/+/";
    forall kind
      ensures BuildFilter(template, SuffixOf(kind)) == names + SuffixOf(kind)
    {
    }
  }

  lemma SuffixTable()
    ensures SuffixOf(State) == "state" && SuffixOf(Visualization) == "visualization" &&
            SuffixOf(Connection) == "connection" && SuffixOf(FactSheet) == "factsheet"
    ensures SuffixOf(Order) == "order" && SuffixOf(InstantActions) == "instantActions" &&
            SuffixOf(Responses) == "responses" && SuffixOf(ZoneSet) == "zoneSet"
  {
  }

  function FiltersOf(template: TopicContext, kinds: seq<Kind>): seq<string> {
    seq(|kinds|, i requires 0 <= i < |kinds| => BuildFilter(template, SuffixOf(kinds[i])))
  }

  lemma SuffixesDistinct(j: Kind, k: Kind)
    ensures SuffixOf(j) == SuffixOf(k) ==> j == k
    ensures PlainLevel(SuffixOf(k))
  {
    hide PlainLevel;
    SuffixIsPlain(k);
    assert |SuffixOf(k)| == LengthOf(k) && |SuffixOf(j)| == LengthOf(j);
    assert SuffixOf(State)[0] != SuffixOf(Order)[0];
    assert SuffixOf(FactSheet)[0] != SuffixOf(Responses)[0];
  }

  lemma SuffixIsPlain(kind: Kind)
    ensures PlainLevel(SuffixOf(kind))
  {
  }

  function LengthOf(kind: Kind): nat {
    match kind
    case State => 5
    case Visualization => 13
    case Connection => 10
    case FactSheet => 9
    case Order => 5
    case InstantActions => 14
    case Responses => 9
    case ZoneSet => 7
  }

  function NoCallbacks(): map<Kind, seq<nat>> {
    map[State := [], Visualization := [], Connection := [], FactSheet := [],
        Order := [], InstantActions := [], Responses := [], ZoneSet := []]
  }

  lemma NoCallbacksEmpty()
    ensures forall k :: k in NoCallbacks() && NoCallbacks()[k] == []
  {
    forall k
      ensures k in NoCallbacks() && NoCallbacks()[k] == []
    {
      match k
      case State => case Visualization => case Connection => case FactSheet =>
      case Order => case InstantActions => case Responses => case ZoneSet =>
    }
  }

  /** One callback invocation: which callback, for what kind and context. */
  datatype Call = Call(callback: nat, kind: Kind, context: TopicContext)

  /** How often a callback is registered in a list. */
  function Times(callback: nat, callbacks: seq<nat>): nat {
    multiset(callbacks)[callback]
  }

  datatype Publication = Publication(topic: string, kind: Kind, payload: string)

  /** Decoding to the kind's message type and encoding it again; decoding may fail. */
  type Recoder = (Kind, string) -> Option<string>

  /** The calls that one subscription makes for a message. */
  function CallsFor(template: TopicContext, recode: Recoder, kind: Kind, callbacks: seq<nat>, stopped: bool,
                    topic: string, payload: string): seq<Call> {
    var context := ParseTopicContext(template, topic, SuffixOf(kind));
    if stopped || context.None? || recode(kind, payload).None? then []
    else seq(|callbacks|, i requires 0 <= i < |callbacks| => Call(callbacks[i], kind, context.value))
  }

  function AllCalls(template: TopicContext, recode: Recoder, kinds: seq<Kind>, callbacks: map<Kind, seq<nat>>,
                    stopped: bool, topic: string, payload: string): seq<Call>
    requires forall k :: k in kinds ==> k in callbacks
  {
    if kinds == [] then []
    else
      var k := kinds[|kinds| - 1];
      AllCalls(template, recode, kinds[..|kinds| - 1], callbacks, stopped, topic, payload) +
      CallsFor(template, recode, k, callbacks[k], stopped, topic, payload)
  }

  /** The one kind, if any, under which a topic is accepted. */
  function Accepted(template: TopicContext, kinds: seq<Kind>, topic: string): (r: Option<Kind>)
    ensures r.Some? ==> r.value in kinds && ParseTopicContext(template, topic, SuffixOf(r.value)).Some?
    ensures r.None? ==> forall k :: k in kinds ==> ParseTopicContext(template, topic, SuffixOf(k)).None?
  {
    if kinds == [] then None
    else if ParseTopicContext(template, topic, SuffixOf(kinds[|kinds| - 1])).Some? then Some(kinds[|kinds| - 1])
    else Accepted(template, kinds[..|kinds| - 1], topic)
  }

  predicate Distinct(kinds: seq<Kind>) {
    forall i, j :: 0 <= i < j < |kinds| ==> kinds[i] != kinds[j]
  }

  /** An accepted message reaches the callbacks of exactly one kind, each once, in order. */
  lemma {:induction false} OneHandler(template: TopicContext, recode: Recoder, kinds: seq<Kind>,
                                      callbacks: map<Kind, seq<nat>>, stopped: bool, topic: string, payload: string)
    requires Distinct(kinds) && forall k :: k in kinds ==> k in callbacks
    ensures AllCalls(template, recode, kinds, callbacks, stopped, topic, payload) ==
            match Accepted(template, kinds, topic)
            case None => []
            case Some(k) => CallsFor(template, recode, k, callbacks[k], stopped, topic, payload)
  {
    hide SuffixOf, ParseTopicContext;
    if kinds != [] {
      var n := |kinds| - 1;
      OneHandler(template, recode, kinds[..n], callbacks, stopped, topic, payload);
      if ParseTopicContext(template, topic, SuffixOf(kinds[n])).Some? && Accepted(template, kinds[..n], topic).Some? {
        var k := Accepted(template, kinds[..n], topic).value;
        SuffixesDistinct(k, k);
        SuffixesDistinct(kinds[n], kinds[n]);
        OneSuffix(template, template, topic, SuffixOf(k), SuffixOf(kinds[n]));
        SuffixesDistinct(k, kinds[n]);
        assert false;
      }
    }
  }

  // ---------------------------------------------------------------- the client's subscriptions

  /** One entry of a client's subscription list: the endpoint that made it, and the filter and
      kind that it made it for. */
  datatype Entry = Entry(owner: nat, template: TopicContext, kind: Kind)

  function FilterOf(e: Entry): string {
    BuildFilter(e.template, SuffixOf(e.kind))
  }

  function EntriesOf(owner: nat, template: TopicContext, kinds: seq<Kind>): seq<Entry> {
    seq(|kinds|, i requires 0 <= i < |kinds| => Entry(owner, template, kinds[i]))
  }

  /** The filters of a list of entries. */
  function EntryFilters(entries: seq<Entry>): seq<string> {
    seq(|entries|, i requires 0 <= i < |entries| => FilterOf(entries[i]))
  }

  lemma FiltersOfEntries(entries: seq<Entry>, owner: nat, template: TopicContext, kinds: seq<Kind>)
    ensures EntryFilters(entries + EntriesOf(owner, template, kinds)) == EntryFilters(entries) + FiltersOf(template, kinds)
  {
    hide BuildFilter, SuffixOf;
  }

  lemma EntriesOfNext(owner: nat, template: TopicContext, kinds: seq<Kind>, i: nat)
    requires i <= |kinds|
    ensures EntriesOf(owner, template, kinds[..0]) == []
    ensures i < |kinds| ==>
              EntriesOf(owner, template, kinds[..i + 1]) == EntriesOf(owner, template, kinds[..i]) + [Entry(owner, template, kinds[i])]
  {
  }

  /** A message reaches the handler of an entry when the filter matches and it decodes. */
  predicate Reaches(recode: Recoder, e: Entry, topic: string, payload: string) {
    TopicMatches(FilterOf(e), topic) && recode(e.kind, payload).Some?
  }

  /** A message reaches the handler of an endpoint that is not the live one. */
  ghost predicate StrayReached(recode: Recoder, entries: seq<Entry>, live: nat, topic: string, payload: string) {
    exists e :: e in entries && Reaches(recode, e, topic, payload) && e.owner != live
  }

  ghost predicate OnlyLiveReached(recode: Recoder, entries: seq<Entry>, live: nat) {
    forall topic, payload :: TopicName(topic) ==> !StrayReached(recode, entries, live, topic, payload)
  }

  /** Each kind of message has some text that decodes. */
  ghost predicate Decodable(recode: Recoder) {
    forall kind :: SomeDecodes(recode, kind)
  }

  ghost predicate SomeDecodes(recode: Recoder, kind: Kind) {
    exists payload :: recode(kind, payload).Some?
  }

  ghost predicate GrantedEntries(entries: seq<Entry>) {
    forall e :: e in entries ==> TwoLevels(e.template) && ValidFilter(FilterOf(e))
  }

  /** Every handler that a message can reach belongs to the live endpoint, if and only if all
      entries of the client are the live endpoint's. */
  lemma OnlyLiveIffNoOthers(recode: Recoder, entries: seq<Entry>, live: nat)
    requires Decodable(recode) && GrantedEntries(entries)
    ensures OnlyLiveReached(recode, entries, live) <==> forall e :: e in entries ==> e.owner == live
  {
    hide BuildFilter, SuffixOf, TopicMatches, ValidFilter, HasNames, TopicName;
    if e :| e in entries && e.owner != live {
      SuffixesDistinct(e.kind, e.kind);
      var topic := SomeTopic(e.template, SuffixOf(e.kind));
      assert SomeDecodes(recode, e.kind);
      var payload :| recode(e.kind, payload).Some?;
      assert Reaches(recode, e, topic, payload);
      assert StrayReached(recode, entries, live, topic, payload);
    }
  }

  function EntryCalls(e: Entry, template: TopicContext, recode: Recoder, callbacks: map<Kind, seq<nat>>, stopped: bool,
                      topic: string, payload: string): seq<Call>
    requires e.kind in callbacks
  {
    if TopicMatches(FilterOf(e), topic) then CallsFor(template, recode, e.kind, callbacks[e.kind], stopped, topic, payload)
    else []
  }

  /** The calls that an endpoint makes for a message, entry by entry. */
  function EntriesCalls(entries: seq<Entry>, template: TopicContext, recode: Recoder, callbacks: map<Kind, seq<nat>>,
                        stopped: bool, topic: string, payload: string): seq<Call>
    requires forall k :: k in callbacks
  {
    if entries == [] then []
    else
      EntriesCalls(entries[..|entries| - 1], template, recode, callbacks, stopped, topic, payload) +
      EntryCalls(entries[|entries| - 1], template, recode, callbacks, stopped, topic, payload)
  }

  lemma {:induction false} EntriesCallsConcat(a: seq<Entry>, b: seq<Entry>, template: TopicContext, recode: Recoder,
                                              callbacks: map<Kind, seq<nat>>, stopped: bool, topic: string, payload: string)
    requires forall k :: k in callbacks
    ensures EntriesCalls(a + b, template, recode, callbacks, stopped, topic, payload) ==
            EntriesCalls(a, template, recode, callbacks, stopped, topic, payload) +
            EntriesCalls(b, template, recode, callbacks, stopped, topic, payload)
  {
    hide EntryCalls;
    if b == [] {
      assert a + b == a;
    } else {
      var n := |b| - 1;
      assert (a + b)[..|a + b| - 1] == a + b[..n] && (a + b)[|a + b| - 1] == b[n];
      EntriesCallsConcat(a, b[..n], template, recode, callbacks, stopped, topic, payload);
    }
  }

  /** The entries whose filter matches a topic, in order. */
  function MatchingEntries(entries: seq<Entry>, topic: string): seq<Entry> {
    if entries == [] then []
    else
      var last := entries[|entries| - 1];
      MatchingEntries(entries[..|entries| - 1], topic) + if TopicMatches(FilterOf(last), topic) then [last] else []
  }

  /** The others cause no calls. */
  lemma {:induction false} MatchingMembers(entries: seq<Entry>, topic: string)
    ensures forall e :: e in MatchingEntries(entries, topic) <==> e in entries && TopicMatches(FilterOf(e), topic)
  {
    hide TopicMatches, FilterOf;
    if entries != [] {
      MatchingMembers(entries[..|entries| - 1], topic);
      assert entries == entries[..|entries| - 1] + [entries[|entries| - 1]];
    }
  }

  lemma {:induction false} MatchingCalls(entries: seq<Entry>, template: TopicContext, recode: Recoder,
                                         callbacks: map<Kind, seq<nat>>, stopped: bool, topic: string, payload: string)
    requires forall k :: k in callbacks
    ensures EntriesCalls(MatchingEntries(entries, topic), template, recode, callbacks, stopped, topic, payload) ==
            EntriesCalls(entries, template, recode, callbacks, stopped, topic, payload)
  {
    hide TopicMatches, FilterOf, CallsFor;
    if entries != [] {
      var n := |entries| - 1;
      var found := MatchingEntries(entries[..n], topic);
      MatchingCalls(entries[..n], template, recode, callbacks, stopped, topic, payload);
      if TopicMatches(FilterOf(entries[n]), topic) {
        assert (found + [entries[n]])[..|found|] == found;
      } else {
        assert MatchingEntries(entries, topic) == found;
        assert EntryCalls(entries[n], template, recode, callbacks, stopped, topic, payload) == [];
      }
    }
  }

  /** Entries that the message does not reach cause no calls. */
  lemma {:induction false} NoCallsUnreached(entries: seq<Entry>, template: TopicContext, recode: Recoder,
                                            callbacks: map<Kind, seq<nat>>, stopped: bool, topic: string, payload: string)
    requires forall k :: k in callbacks
    requires forall e :: e in entries ==> !Reaches(recode, e, topic, payload)
    ensures EntriesCalls(entries, template, recode, callbacks, stopped, topic, payload) == []
  {
    if entries != [] {
      NoCallsUnreached(entries[..|entries| - 1], template, recode, callbacks, stopped, topic, payload);
      assert !Reaches(recode, entries[|entries| - 1], topic, payload);
    }
  }

  /** An endpoint's own entries cause exactly the calls that its parser allows: whatever the
      parser accepts, the filters deliver. */
  lemma {:induction false} OwnCalls(owner: nat, template: TopicContext, kinds: seq<Kind>, recode: Recoder,
                                    callbacks: map<Kind, seq<nat>>, stopped: bool, topic: string, payload: string)
    requires TwoLevels(template) && TopicName(topic) && forall k :: k in callbacks
    ensures EntriesCalls(EntriesOf(owner, template, kinds), template, recode, callbacks, stopped, topic, payload) ==
            AllCalls(template, recode, kinds, callbacks, stopped, topic, payload)
  {
    hide SuffixOf, ParseTopicContext, TopicMatches, BuildFilter, TopicName, TwoLevels;
    if kinds != [] {
      var n := |kinds| - 1;
      var entries := EntriesOf(owner, template, kinds);
      assert entries[..n] == EntriesOf(owner, template, kinds[..n]);
      OwnCalls(owner, template, kinds[..n], recode, callbacks, stopped, topic, payload);
      SuffixesDistinct(kinds[n], kinds[n]);
      FilterAndParserAgree(template, topic, SuffixOf(kinds[n]));
    }
  }

  /** The kinds subscribed before the first refusal. */
  function BeforeRefusal(kinds: seq<Kind>, granted: set<Kind>): (r: seq<Kind>)
    ensures r <= kinds && forall k :: k in r ==> k in granted
    ensures r == kinds <==> forall k :: k in kinds ==> k in granted
  {
    if kinds == [] || kinds[0] !in granted then []
    else
      var rest := BeforeRefusal(kinds[1..], granted);
      assert kinds == [kinds[0]] + kinds[1..];
      [kinds[0]] + rest
  }

  lemma {:induction false} BeforeRefusalSteps(kinds: seq<Kind>, granted: set<Kind>, i: nat)
    requires i <= |kinds| && forall j :: 0 <= j < i ==> kinds[j] in granted
    ensures i <= |BeforeRefusal(kinds, granted)|
    ensures i < |kinds| && kinds[i] !in granted ==> BeforeRefusal(kinds, granted) == kinds[..i]
  {
    if i > 0 {
      BeforeRefusalSteps(kinds[1..], granted, i - 1);
      assert kinds == [kinds[0]] + kinds[1..];
    }
  }

  /** The kinds whose subscription succeeds: granted, with a filter that the library takes. */
  function UsableKinds(template: TopicContext, granted: set<Kind>): set<Kind> {
    set k | k in granted && ValidFilter(BuildFilter(template, SuffixOf(k)))
  }

  /** The kinds that an endpoint comes to hear: all of its side, or those before the first
      refusal. */
  function ObtainedKinds(template: TopicContext, side: Side, granted: set<Kind>): seq<Kind> {
    BeforeRefusal(SubscribedKinds(side), UsableKinds(template, granted))
  }

  /** All kinds are obtained exactly when none is refused. */
  lemma ObtainedAll(template: TopicContext, side: Side, granted: set<Kind>)
    ensures ObtainedKinds(template, side, granted) == SubscribedKinds(side) <==>
            forall kind :: kind in SubscribedKinds(side) ==> kind in granted && ValidFilter(BuildFilter(template, SuffixOf(kind)))
  {
    hide SubscribedKinds, BuildFilter, SuffixOf, ValidFilter;
  }

  /** An MQTT client. It outlives the endpoints that subscribe through it, and it never
      forgets a subscription. */
  class MqttClient {
    var entries: seq<Entry>

    constructor ()
      ensures entries == []
    {
      entries := [];
    }

    /** The library refuses a filter that is not valid; whether it grants another is given. */
    method Subscribe(entry: Entry, granted: bool) returns (ok: bool)
      modifies this
      ensures ok == (granted && ValidFilter(FilterOf(entry)))
      ensures entries == old(entries) + if ok then [entry] else []
    {
      if !granted || !ValidFilter(FilterOf(entry)) {
        return false;
      }
      entries := entries + [entry];
      return true;
    }

    /** The path of an incoming message: match every filter, then decode and call handler by
        handler. A handler of an endpoint that is gone is a stray: what it does is undefined,
        so nothing is said of what follows. */
    method HandleMessage(live: EndPoint, topic: string, payload: string, throwing: set<nat>)
      returns (calls: seq<Call>, stray: bool)
      requires live.Valid()
      ensures stray <==> StrayReached(live.recode, entries, live.id, topic, payload)
      ensures stray <==> exists e :: e in entries && e.owner != live.id && TopicMatches(FilterOf(e), topic) &&
                                     live.recode(e.kind, payload).Some?
      ensures !stray ==>
                calls == EntriesCalls(entries, live.template, live.recode, live.callbacks, live.stopped, topic, payload)
    {
      hide SuffixOf, TopicMatches, FilterOf, CallsFor, EntriesCalls;
      var found: seq<Entry> := [];
      for i := 0 to |entries|
        invariant found == MatchingEntries(entries[..i], topic)
      {
        assert entries[..i + 1][..i] == entries[..i];
        if TopicMatches(FilterOf(entries[i]), topic) {
          found := found + [entries[i]];
        }
      }
      assert entries[..|entries|] == entries;
      MatchingMembers(entries, topic);
      MatchingCalls(entries, live.template, live.recode, live.callbacks, live.stopped, topic, payload);
      calls, stray := CallHandlers(found, live, topic, payload, throwing);
    }

    /** Decodes and calls for each matching entry. */
    method CallHandlers(found: seq<Entry>, live: EndPoint, topic: string, payload: string, throwing: set<nat>)
      returns (calls: seq<Call>, stray: bool)
      requires live.Valid() && forall e :: e in found ==> TopicMatches(FilterOf(e), topic)
      ensures stray <==> StrayReached(live.recode, found, live.id, topic, payload)
      ensures !stray ==>
                calls == EntriesCalls(found, live.template, live.recode, live.callbacks, live.stopped, topic, payload)
    {
      hide SuffixOf, TopicMatches, FilterOf, CallsFor;
      calls, stray := [], false;
      for i := 0 to |found|
        invariant calls == EntriesCalls(found[..i], live.template, live.recode, live.callbacks, live.stopped, topic, payload)
        invariant forall j :: 0 <= j < i && live.recode(found[j].kind, payload).Some? ==> found[j].owner == live.id
      {
        assert found[..i + 1][..i] == found[..i] && found[i] in found;
        if live.recode(found[i].kind, payload).Some? {
          if found[i].owner != live.id {
            assert Reaches(live.recode, found[i], topic, payload);
            return calls, true;
          }
          var more := live.Handle(found[i].kind, topic, payload, throwing);
          calls := calls + more;
        } else {
          NothingDecoded(live.template, live.recode, found[i].kind, live.callbacks[found[i].kind], live.stopped, topic,
                         payload);
        }
      }
      assert found[..|found|] == found;
    }

    lemma NothingDecoded(template: TopicContext, recode: Recoder, kind: Kind, callbacks: seq<nat>, stopped: bool,
                         topic: string, payload: string)
      requires recode(kind, payload).None?
      ensures CallsFor(template, recode, kind, callbacks, stopped, topic, payload) == []
    {
    }
  }

  // ---------------------------------------------------------------- endpoints

  class EndPoint {
    /** Tells this endpoint from every other. */
    const id: nat
    const client: MqttClient
    const side: Side
    const template: TopicContext
    const recode: Recoder
    var initialized: bool
    var stopped: bool
    var callbacks: map<Kind, seq<nat>>
    var publisherStopped: bool
    var sent: seq<Publication>

    constructor (id: nat, client: MqttClient, side: Side, template: TopicContext, recode: Recoder)
      ensures this.id == id && this.client == client
      ensures this.side == side && this.template == template && this.recode == recode
      ensures Valid() && !initialized && !stopped && !publisherStopped && sent == []
      ensures forall k :: callbacks[k] == []
    {
      this.id, this.client := id, client;
      this.side, this.template, this.recode := side, template, recode;
      initialized, stopped, publisherStopped := false, false, false;
      sent := [];
      callbacks := NoCallbacks();
      NoCallbacksEmpty();
    }

    /** Callback lists exist for every kind and are empty for the other side's kinds. */
    ghost predicate Valid()
      reads this
    {
      forall k :: k in callbacks && (callbacks[k] != [] ==> MayListen(side, k))
    }

    /** The kinds that Init subscribes to. */
    function Obtained(granted: set<Kind>): seq<Kind> {
      ObtainedKinds(template, side, granted)
    }

    /** Subscribes kind by kind and stops at the first refusal. Which kinds the broker client
        grants is given. What has been subscribed stays with the client. */
    method Init(granted: set<Kind>) returns (ok: bool)
      requires Valid()
      modifies this, client
      ensures Valid()
      ensures var asks := !stopped && (old(initialized) || (template.interfaceName != "" && template.majorVersion != ""));
              && ok == (asks && Obtained(granted) == SubscribedKinds(side))
              && client.entries == old(client.entries) + (if asks then EntriesOf(id, template, Obtained(granted)) else [])
              && initialized == (old(initialized) || asks)
      ensures ok <==>
              && !stopped && (old(initialized) || (template.interfaceName != "" && template.majorVersion != ""))
              && forall kind :: kind in SubscribedKinds(side) ==>
                   kind in granted && ValidFilter(BuildFilter(template, SuffixOf(kind)))
      ensures ok ==>
                var names := template.interfaceName + "/" + template.majorVersion + "/+/+/";
                EntryFilters(client.entries) == EntryFilters(old(client.entries)) +
                if side == Local then
                  [names + "state", names + "visualization", names + "connection", names + "factsheet"]
                else [names + "order", names + "instantActions", names + "responses", names + "zoneSet"]
      ensures stopped == old(stopped) && publisherStopped == old(publisherStopped)
      ensures callbacks == old(callbacks) && sent == old(sent)
    {
      hide ObtainedKinds, SubscribedKinds, EntriesOf, BuildFilter, SuffixOf, ValidFilter;
      if stopped {
        return false;
      }
      if !initialized {
        if template.interfaceName == "" || template.majorVersion == "" {
          return false;
        }
        initialized := true;
      }
      ok := SubscribeAll(granted);
      ObtainedAll(template, side, granted);
      SideFilters(template);
      FiltersOfEntries(old(client.entries), id, template, SubscribedKinds(side));
    }

    method SubscribeAll(granted: set<Kind>) returns (ok: bool)
      modifies client
      ensures ok == (Obtained(granted) == SubscribedKinds(side))
      ensures client.entries == old(client.entries) + EntriesOf(id, template, Obtained(granted))
    {
      hide SuffixOf, BuildFilter, ValidFilter, SubscribedKinds, EntriesOf, BeforeRefusal;
      var kinds := SubscribedKinds(side);
      EntriesOfNext(id, template, kinds, 0);
      for i := 0 to |kinds|
        invariant forall j :: 0 <= j < i ==> kinds[j] in UsableKinds(template, granted)
        invariant client.entries == old(client.entries) + EntriesOf(id, template, kinds[..i])
      {
        BeforeRefusalSteps(kinds, UsableKinds(template, granted), i);
        EntriesOfNext(id, template, kinds, i);
        var subscribed := client.Subscribe(Entry(id, template, kinds[i]), kinds[i] in granted);
        if !subscribed {
          return false;
        }
      }
      assert kinds[..|kinds|] == kinds;
      BeforeRefusalSteps(kinds, UsableKinds(template, granted), |kinds|);
      return true;
    }

    /** Registers a callback for a kind: only on the side that hears the kind, and not after Stop. */
    method On(kind: Kind, callback: nat) returns (ok: bool)
      requires Valid()
      modifies this`callbacks
      ensures Valid()
      ensures ok == (MayListen(side, kind) && !stopped)
      ensures callbacks == if ok then old(callbacks)[kind := old(callbacks)[kind] + [callback]] else old(callbacks)
    {
      if !MayListen(side, kind) || stopped {
        return false;
      }
      callbacks := callbacks[kind := callbacks[kind] + [callback]];
      return true;
    }

    /** Publishes a message of a kind: only on the side that may, and not after Stop.
        Whether the broker client takes the message is given. */
    method Publish(context: TopicContext, kind: Kind, payload: string, taken: bool) returns (ok: bool)
      modifies this`sent
      ensures ok == (MayPublish(side, kind) && !publisherStopped && taken && BuildTopic(context, SuffixOf(kind)).Some?)
      ensures sent == old(sent) +
              if ok then [Publication(BuildTopic(context, SuffixOf(kind)).value, kind, payload)] else []
      ensures ok <==>
              && MayPublish(side, kind) && !publisherStopped && taken && context.interfaceName != ""
              && context.majorVersion != "" && context.manufacturer != "" && context.serialNumber != ""
      ensures ok ==>
                sent[|old(sent)|].topic ==
                context.interfaceName + "/" + context.majorVersion + "/" + context.manufacturer + "/" +
                context.serialNumber + "/" + SuffixOf(kind)
    {
      SuffixesDistinct(kind, kind);
      if !MayPublish(side, kind) || publisherStopped {
        return false;
      }
      var topic := BuildTopic(context, SuffixOf(kind));
      if topic.None? || !taken {
        return false;
      }
      sent := sent + [Publication(topic.value, kind, payload)];
      return true;
    }

    method Stop()
      requires Valid()
      modifies this
      ensures Valid() && stopped && publisherStopped && forall k :: callbacks[k] == []
      ensures sent == old(sent) && initialized == old(initialized)
    {
      stopped, publisherStopped := true, true;
      callbacks := NoCallbacks();
      NoCallbacksEmpty();
    }

    /** Takes a snapshot of the kind's callbacks and dispatches to it. */
    method Handle(kind: Kind, topic: string, payload: string, throwing: set<nat>) returns (calls: seq<Call>)
      requires Valid() && recode(kind, payload).Some?
      ensures calls == CallsFor(template, recode, kind, callbacks[kind], stopped, topic, payload)
      ensures stopped ==> calls == []
    {
      var snapshot := callbacks[kind];
      var made, _ := Dispatch(kind, topic, payload, snapshot, throwing);
      return made;
    }

    /** Runs a snapshot of callbacks; a callback that throws does not stop the others. */
    method Dispatch(kind: Kind, topic: string, payload: string, snapshot: seq<nat>, throwing: set<nat>)
      returns (calls: seq<Call>, caught: nat)
      requires recode(kind, payload).Some?
      ensures calls == CallsFor(template, recode, kind, snapshot, stopped, topic, payload)
      ensures var context := ParseTopicContext(template, topic, SuffixOf(kind));
              if stopped || context.None? then calls == []
              else
                |calls| == |snapshot| &&
                forall i :: 0 <= i < |snapshot| ==> calls[i] == Call(snapshot[i], kind, context.value)
      ensures caught <= |calls| && (throwing == {} ==> caught == 0)
    {
      calls, caught := [], 0;
      if stopped {
        return;
      }
      var context := ParseTopicContext(template, topic, SuffixOf(kind));
      if context.None? {
        return;
      }
      for i := 0 to |snapshot|
        invariant |calls| == i && forall j :: 0 <= j < i ==> calls[j] == Call(snapshot[j], kind, context.value)
        invariant caught <= i && (throwing == {} ==> caught == 0)
      {
        calls := calls + [Call(snapshot[i], kind, context.value)];
        if snapshot[i] in throwing {
          caught := caught + 1;
        }
      }
    }
  }
}
