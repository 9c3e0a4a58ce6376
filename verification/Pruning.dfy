/** Publishing removes top-level nulls and empty arrays from the encoded message; decoding
    fills in defaults. What a message means survives, up to one normalisation. */
module Pruning {
  import opened Wrappers

  datatype Json =
    | Null
    | Bool(b: bool)
    | Number(n: int)
    | Text(s: string)
    | Array(items: seq<Json>)
    | Object(members: seq<Member>)

  datatype Member = Member(key: string, value: Json)

  // ---------------------------------------------------------------- the erase loop

  predicate Removed(value: Json) {
    value.Null? || (value.Array? && value.items == [])
  }

  /** The members that stay, in their order. */
  function Kept(members: seq<Member>): seq<Member> {
    if members == [] then []
    else
      var last := members[|members| - 1];
      Kept(members[..|members| - 1]) + if Removed(last.value) then [] else [last]
  }

  class Document {
    var json: Json

    constructor (json: Json)
      ensures this.json == json
    {
      this.json := json;
    }

    /** Erases members while walking over them. Anything but an object is left alone. */
    method PruneTopLevelFields()
      modifies this
      ensures json == if old(json).Object? then Object(Kept(old(json).members)) else old(json)
    {
      if !json.Object? {
        return;
      }
      ghost var all := json.members;
      ghost var seen := 0;
      var i := 0;
      assert all[..0] == [];
      while i < |json.members|
        invariant json.Object? && seen <= |all| && i <= |json.members|
        invariant json.members[..i] == Kept(all[..seen]) && json.members[i..] == all[seen..]
        decreases |json.members| - i
      {
        var member := json.members[i];
        assert member == all[seen] && all[..seen + 1][..seen] == all[..seen];
        if Removed(member.value) {
          json := Object(json.members[..i] + json.members[i + 1..]);
        } else {
          i := i + 1;
        }
        seen := seen + 1;
      }
      assert all[..seen] == all;
    }
  }

  lemma {:induction false} KeptMember(members: seq<Member>, m: Member)
    ensures m in Kept(members) <==> m in members && !Removed(m.value)
  {
    hide Removed;
    if members != [] {
      KeptMember(members[..|members| - 1], m);
      assert members == members[..|members| - 1] + [members[|members| - 1]];
    }
  }

  lemma KeptNext(members: seq<Member>, last: Member)
    ensures Kept(members + [last]) == Kept(members) + if Removed(last.value) then [] else [last]
  {
    assert (members + [last])[..|members|] == members;
  }

  lemma {:induction false} AllKept(members: seq<Member>, n: nat)
    requires n <= |members| && forall i :: 0 <= i < n ==> !Removed(members[i].value)
    ensures Kept(members[..n]) == members[..n]
  {
    hide Removed, Kept;
    if n == 0 {
      KeptNothing();
      assert members[..0] == [];
    } else {
      AllKept(members, n - 1);
      KeptNext(members[..n - 1], members[n - 1]);
      assert members[..n - 1] + [members[n - 1]] == members[..n];
    }
  }

  lemma KeptNothing()
    ensures Kept([]) == []
  {
  }

  lemma {:induction false} NoneAdded(members: seq<Member>)
    ensures |Kept(members)| <= |members|
  {
    hide Removed;
    if members != [] {
      NoneAdded(members[..|members| - 1]);
    }
  }

  lemma {:induction false} KeptParts(a: seq<Member>, b: seq<Member>)
    ensures Kept(a + b) == Kept(a) + Kept(b)
  {
    hide Removed;
    if b == [] {
      assert a + b == a;
    } else {
      var ab, n := a + b, |b| - 1;
      assert ab[..|ab| - 1] == a + b[..n];
      KeptParts(a, b[..n]);
      var last := if Removed(b[n].value) then [] else [b[n]];
      assert (Kept(a) + Kept(b[..n])) + last == Kept(a) + (Kept(b[..n]) + last);
    }
  }

  /** What stays of a list is what stays of its parts, one after the other. */
  lemma KeptConcat(a: seq<Member>, b: seq<Member>)
    ensures Kept(a + b) == Kept(a) + Kept(b)
    ensures |b| == 1 ==> Kept(b) == if b[0].value == Null || b[0].value == Array([]) then [] else b
  {
    KeptParts(a, b);
    if |b| == 1 {
      assert b[..0] == [];
    }
  }

  /** The erase loop is an order-preserving filter. */
  lemma {:induction false} KeptMembers(members: seq<Member>)
    ensures forall m :: m in Kept(members) <==> m in members && !Removed(m.value)
    ensures |Kept(members)| <= |members|
    ensures (forall m :: m in members ==> !Removed(m.value)) ==> Kept(members) == members
  {
    hide Removed, Kept;
    forall m {
      KeptMember(members, m);
    }
    NoneAdded(members);
    if forall m :: m in members ==> !Removed(m.value) {
      AllKept(members, |members|);
      assert members[..|members|] == members;
    }
  }

  // ---------------------------------------------------------------- messages

  datatype Shape = Scalar | Struct | Vector

  /** A top-level field of a message type. `takes` says which values a scalar or a struct, or
      each element of a vector, can be read from. */
  datatype Field = Field(key: string, optional: bool, shape: Shape, default: Json, takes: Json -> bool)

  datatype Value = Absent | Plain(json: Json) | Items(items: seq<Json>)

  predicate Conforms(f: Field, v: Value) {
    match v
    case Absent => f.optional
    case Plain(j) => !f.shape.Vector? && !j.Null? && !j.Array? && f.takes(j)
    case Items(items) => f.shape.Vector? && forall x :: x in items ==> f.takes(x)
  }

  ghost predicate IsMessage(fields: seq<Field>, message: seq<Value>) {
    |message| == |fields| && forall i :: 0 <= i < |fields| ==> Conforms(fields[i], message[i])
  }

  predicate DistinctKeys(fields: seq<Field>) {
    forall i, j :: 0 <= i < j < |fields| ==> fields[i].key != fields[j].key
  }

  function EncodeValue(v: Value): Json {
    match v
    case Absent => Null
    case Plain(j) => j
    case Items(items) => Array(items)
  }

  /** Every field is written, in order; an absent one as null. */
  function Encode(fields: seq<Field>, message: seq<Value>): seq<Member>
    requires |message| == |fields|
  {
    seq(|fields|, i requires 0 <= i < |fields| => Member(fields[i].key, EncodeValue(message[i])))
  }

  function Find(members: seq<Member>, key: string): (r: Option<nat>)
    ensures r.Some? ==> r.value < |members| && members[r.value].key == key
    ensures r.Some? ==> forall i :: r.value < i < |members| ==> members[i].key != key
    ensures r.None? ==> forall i :: 0 <= i < |members| ==> members[i].key != key
  {
    if members == [] then None
    else if members[|members| - 1].key == key then Some(|members| - 1)
    else
      var r := Find(members[..|members| - 1], key);
      assert forall i :: 0 <= i < |members| - 1 ==> members[..|members| - 1][i] == members[i];
      r
  }

  function Default(f: Field): Value {
    if f.optional then Absent else if f.shape.Vector? then Items([]) else Plain(f.default)
  }

  /** Decoding one field: its default if it is missing, a type error if it does not fit. A
      struct reads null as all its members missing. */
  function DecodeField(f: Field, members: seq<Member>): Option<Value> {
    var at := Find(members, f.key);
    if at.None? then Some(Default(f))
    else
      match members[at.value].value
      case Null => if f.optional || f.shape.Struct? then Some(Default(f)) else None
      case Array(items) =>
        if f.shape.Vector? && forall x :: x in items ==> f.takes(x) then Some(Items(items)) else None
      case j => if !f.shape.Vector? && f.takes(j) then Some(Plain(j)) else None
  }

  function Decode(fields: seq<Field>, members: seq<Member>): Option<seq<Value>> {
    if fields == [] then Some([])
    else
      var before := Decode(fields[..|fields| - 1], members);
      var last := DecodeField(fields[|fields| - 1], members);
      if before.None? || last.None? then None else Some(before.value + [last.value])
  }

  /** Decoding a whole text: null is read as an object without members, and no other value
      but an object is accepted. */
  function DecodeDocument(fields: seq<Field>, json: Json): Option<seq<Value>> {
    match json
    case Null => Decode(fields, [])
    case Object(members) => Decode(fields, members)
    case _ => None
  }

  // ---------------------------------------------------------------- what decoding accepts

  /** A value that a field can be read from. */
  predicate Fits(f: Field, j: Json) {
    if j.Null? then f.optional || f.shape == Struct
    else if j.Array? then f.shape == Vector && forall x :: x in j.items ==> f.takes(x)
    else f.shape != Vector && f.takes(j)
  }

  ghost predicate Occurs(members: seq<Member>, key: string) {
    exists m :: m in members && m.key == key
  }

  /** The value that counts for a key: that of its last member. */
  ghost predicate Holds(members: seq<Member>, key: string, j: Json) {
    exists p :: 0 <= p < |members| && members[p] == Member(key, j) && forall q :: p < q < |members| ==> members[q].key != key
  }

  lemma OneHolds(members: seq<Member>, key: string, i: Json, j: Json)
    requires Holds(members, key, i) && Holds(members, key, j)
    ensures i == j
  {
  }

  lemma FindHolds(members: seq<Member>, key: string)
    ensures Find(members, key).None? <==> !Occurs(members, key)
    ensures Find(members, key).Some? ==> Holds(members, key, members[Find(members, key).value].value)
  {
    hide Find;
    var at := Find(members, key);
    if at.Some? {
      assert members[at.value] in members;
      assert members[at.value] == Member(key, members[at.value].value);
    }
  }

  /** What is read for a field: a missing one is absent if it is optional, else an empty
      vector, else the declared default; a present one is what it holds, if that fits. */
  ghost predicate ReadAs(f: Field, members: seq<Member>, v: Value) {
    && (!Occurs(members, f.key) ==>
          v == if f.optional then Absent else if f.shape == Vector then Items([]) else Plain(f.default))
    && (forall j :: Holds(members, f.key, j) ==>
          Fits(f, j) &&
          match j
          case Null => v == if f.optional then Absent else Plain(f.default)
          case Array(items) => v == Items(items)
          case _ => v == Plain(j))
  }

  lemma FieldRead(f: Field, members: seq<Member>)
    ensures DecodeField(f, members).Some? <==> forall j :: Holds(members, f.key, j) ==> Fits(f, j)
    ensures DecodeField(f, members).Some? ==> ReadAs(f, members, DecodeField(f, members).value)
  {
    hide Find, Holds, Occurs;
    FindHolds(members, f.key);
    forall i, j | Holds(members, f.key, i) && Holds(members, f.key, j)
      ensures i == j
    {
      OneHolds(members, f.key, i, j);
    }
    forall j | Holds(members, f.key, j)
      ensures Occurs(members, f.key)
    {
      HoldsOccurs(members, f.key, j);
    }
  }

  lemma HoldsOccurs(members: seq<Member>, key: string, j: Json)
    requires Holds(members, key, j)
    ensures Occurs(members, key)
  {
    var p :| 0 <= p < |members| && members[p] == Member(key, j) && forall q :: p < q < |members| ==> members[q].key != key;
    assert members[p] in members;
  }

  /** Decoding by default, on any members: it succeeds if and only if every member that is
      present fits its field, and then reads each field as it should. */
  lemma {:induction false} DecodeLaw(fields: seq<Field>, members: seq<Member>)
    ensures Decode(fields, members).Some? <==>
            forall f, j :: f in fields && Holds(members, f.key, j) ==> Fits(f, j)
    ensures Decode(fields, members).Some? ==>
              var message := Decode(fields, members).value;
              |message| == |fields| && forall i :: 0 <= i < |fields| ==> ReadAs(fields[i], members, message[i])
  {
    hide DecodeField, Holds, Fits, ReadAs;
    if fields != [] {
      var n := |fields| - 1;
      DecodeLaw(fields[..n], members);
      FieldRead(fields[n], members);
      assert fields == fields[..n] + [fields[n]];
    }
  }

  /** The members without those of a key. */
  function Without(members: seq<Member>, key: string): (r: seq<Member>)
    ensures forall m :: m in r <==> m in members && m.key != key
  {
    if members == [] then []
    else
      var last := members[|members| - 1];
      assert members == members[..|members| - 1] + [last];
      Without(members[..|members| - 1], key) + if last.key == key then [] else [last]
  }

  lemma {:induction false} WithoutHolds(members: seq<Member>, key: string, other: string, j: Json)
    requires other != key
    ensures Holds(Without(members, key), other, j) <==> Holds(members, other, j)
  {
    hide Holds;
    if members == [] {
      assert Without(members, key) == members;
    } else {
      var n := |members| - 1;
      WithoutHolds(members[..n], key, other, j);
      HoldsLast(members, other, j);
      if members[n].key == key {
        assert Without(members, key) == Without(members[..n], key);
      } else {
        var rest := Without(members[..n], key) + [members[n]];
        assert rest[..|rest| - 1] == Without(members[..n], key);
        HoldsLast(rest, other, j);
      }
    }
  }

  lemma HoldsLast(members: seq<Member>, key: string, j: Json)
    requires members != []
    ensures var last := members[|members| - 1];
            Holds(members, key, j) <==>
            if last.key == key then last.value == j else Holds(members[..|members| - 1], key, j)
  {
    var n := |members| - 1;
    if members[n].key == key {
      if members[n].value == j {
        assert members[n] == Member(key, j);
      }
    } else {
      HoldsMore(members[..n], members[n], key, j);
      assert members == members[..n] + [members[n]];
    }
  }

  lemma HoldsMore(members: seq<Member>, last: Member, key: string, j: Json)
    requires last.key != key
    ensures Holds(members + [last], key, j) <==> Holds(members, key, j)
  {
    var more := members + [last];
    if Holds(members, key, j) {
      var p :| 0 <= p < |members| && members[p] == Member(key, j) && forall q :: p < q < |members| ==> members[q].key != key;
      assert more[p] == Member(key, j);
    }
    if Holds(more, key, j) {
      var p :| 0 <= p < |more| && more[p] == Member(key, j) && forall q :: p < q < |more| ==> more[q].key != key;
      assert members[p] == Member(key, j);
      assert forall q :: p < q < |members| ==> members[q] == more[q];
    }
  }

  /** Leaving a member out never makes decoding fail, and changes no other field: the message
      is the one without it, with the default in its place. */
  lemma MissingMemberDecodes(fields: seq<Field>, members: seq<Member>, key: string)
    requires Decode(fields, members).Some?
    ensures Decode(fields, Without(members, key)).Some?
    ensures var all, fewer := Decode(fields, members).value, Decode(fields, Without(members, key)).value;
            |all| == |fewer| == |fields| &&
            forall i :: 0 <= i < |fields| ==>
              fewer[i] == if fields[i].key != key then all[i]
                          else if fields[i].optional then Absent
                          else if fields[i].shape == Vector then Items([])
                          else Plain(fields[i].default)
  {
    hide Decode, Holds, Fits, Occurs;
    var without := Without(members, key);
    DecodeLaw(fields, members);
    DecodeLaw(fields, without);
    forall f, j | f in fields && Holds(without, f.key, j)
      ensures Fits(f, j)
    {
      HoldsOccurs(without, f.key, j);
      NotWithout(members, key);
      WithoutHolds(members, key, f.key, j);
    }
    var all, fewer := Decode(fields, members).value, Decode(fields, without).value;
    forall i | 0 <= i < |fields|
      ensures fewer[i] == if fields[i].key != key then all[i]
                          else if fields[i].optional then Absent
                          else if fields[i].shape == Vector then Items([])
                          else Plain(fields[i].default)
    {
      if fields[i].key == key {
        NotWithout(members, key);
      } else {
        SameRead(fields[i], members, without, key, all[i], fewer[i]);
      }
    }
  }

  lemma NotWithout(members: seq<Member>, key: string)
    ensures !Occurs(Without(members, key), key)
  {
  }

  lemma SameRead(f: Field, members: seq<Member>, without: seq<Member>, key: string, v: Value, w: Value)
    requires without == Without(members, key) && f.key != key
    requires ReadAs(f, members, v) && ReadAs(f, without, w)
    ensures v == w
  {
    hide Holds, Fits, Find;
    FindHolds(members, f.key);
    if Occurs(members, f.key) {
      var j := members[Find(members, f.key).value].value;
      WithoutHolds(members, key, f.key, j);
    }
  }

  /** A text that is null is a message of defaults; a value that is neither null nor an object
      is dropped. */
  lemma DocumentLaw(fields: seq<Field>, json: Json)
    ensures DecodeDocument(fields, json).Some? <==>
            json.Null? ||
            (json.Object? && forall f, j :: f in fields && Holds(json.members, f.key, j) ==> Fits(f, j))
    ensures json.Null? ==>
              var message := DecodeDocument(fields, json).value;
              |message| == |fields| &&
              forall i :: 0 <= i < |fields| ==>
                message[i] == if fields[i].optional then Absent
                              else if fields[i].shape == Vector then Items([])
                              else Plain(fields[i].default)
  {
    hide Decode, Fits;
    DecodeLaw(fields, []);
    assert forall key, j :: !Holds([], key, j);
    if json.Object? {
      DecodeLaw(fields, json.members);
    } else if json.Null? {
      NothingOccurs();
      var message := Decode(fields, []).value;
      forall i | 0 <= i < |fields|
        ensures message[i] == if fields[i].optional then Absent
                              else if fields[i].shape == Vector then Items([])
                              else Plain(fields[i].default)
      {
        assert ReadAs(fields[i], [], message[i]);
      }
    }
  }

  lemma NothingOccurs()
    ensures forall key :: !Occurs([], key)
  {
  }

  // ---------------------------------------------------------------- pruning and decoding

  /** An optional array that is present but empty becomes absent. */
  function NormalValue(f: Field, v: Value): Value {
    if f.optional && v == Items([]) then Absent else v
  }

  function Normal(fields: seq<Field>, message: seq<Value>): seq<Value>
    requires |message| == |fields|
  {
    seq(|fields|, i requires 0 <= i < |fields| => NormalValue(fields[i], message[i]))
  }

  lemma {:induction false} DecodeAll(fields: seq<Field>, members: seq<Member>, message: seq<Value>)
    requires |message| == |fields|
    requires forall i :: 0 <= i < |fields| ==> DecodeField(fields[i], members) == Some(message[i])
    ensures Decode(fields, members) == Some(message)
  {
    if fields != [] {
      var n := |fields| - 1;
      assert forall i :: 0 <= i < n ==> fields[..n][i] == fields[i];
      DecodeAll(fields[..n], members, message[..n]);
      assert message == message[..n] + [message[n]];
    }
  }

  /** Among members with the keys of an encoding, a key finds its own member. */
  lemma FoundMember(fields: seq<Field>, message: seq<Value>, members: seq<Member>, i: nat)
    requires |message| == |fields| && DistinctKeys(fields) && i < |fields|
    requires forall m :: m in members ==> m in Encode(fields, message)
    ensures var at := Find(members, fields[i].key);
            && (at.Some? ==> members[at.value] == Encode(fields, message)[i])
            && (at.None? ==> Encode(fields, message)[i] !in members)
  {
    hide Find, EncodeValue;
    var all, at := Encode(fields, message), Find(members, fields[i].key);
    assert all[i].key == fields[i].key;
    if at.Some? {
      assert members[at.value] in all;
      var j :| 0 <= j < |all| && all[j] == members[at.value];
      assert all[j].key == fields[j].key;
      assert j == i;
    }
  }

  lemma FieldSurvives(fields: seq<Field>, message: seq<Value>, i: nat)
    requires IsMessage(fields, message) && DistinctKeys(fields) && i < |fields|
    ensures DecodeField(fields[i], Kept(Encode(fields, message))) == Some(NormalValue(fields[i], message[i]))
    ensures DecodeField(fields[i], Encode(fields, message)) == Some(message[i])
  {
    hide Find, Kept;
    var all := Encode(fields, message);
    KeptMembers(all);
    assert Conforms(fields[i], message[i]);
    assert all[i] in all;
    FoundMember(fields, message, all, i);
    FoundMember(fields, message, Kept(all), i);
  }

  /** Decoding a pruned encoding returns the message with engaged-but-empty optional arrays
      made absent; decoding an unpruned encoding, as the event log does, returns it as it is. */
  lemma PruneKeepsMeaning(fields: seq<Field>, message: seq<Value>)
    requires IsMessage(fields, message) && DistinctKeys(fields)
    ensures Decode(fields, Kept(Encode(fields, message))) == Some(Normal(fields, message))
    ensures Decode(fields, Encode(fields, message)) == Some(message)
  {
    forall i | 0 <= i < |fields|
      ensures DecodeField(fields[i], Kept(Encode(fields, message))) == Some(Normal(fields, message)[i])
      ensures DecodeField(fields[i], Encode(fields, message)) == Some(message[i])
    {
      FieldSurvives(fields, message, i);
    }
    DecodeAll(fields, Kept(Encode(fields, message)), Normal(fields, message));
    DecodeAll(fields, Encode(fields, message), message);
  }

  /** The message survives unchanged exactly when no optional array is present but empty. */
  lemma {:induction false} SurvivesUnchangedIff(fields: seq<Field>, message: seq<Value>)
    requires IsMessage(fields, message) && DistinctKeys(fields)
    ensures Decode(fields, Kept(Encode(fields, message))) == Some(message) <==>
            forall i :: 0 <= i < |fields| && fields[i].optional ==> message[i] != Items([])
  {
    PruneKeepsMeaning(fields, message);
    if Normal(fields, message) == message {
      forall i | 0 <= i < |fields| && fields[i].optional
        ensures message[i] != Items([])
      {
        assert Normal(fields, message)[i] == message[i];
      }
    }
  }

  lemma {:induction false} SamePruned(fields: seq<Field>, message: seq<Value>)
    requires IsMessage(fields, message)
    ensures IsMessage(fields, Normal(fields, message))
    ensures Kept(Encode(fields, Normal(fields, message))) == Kept(Encode(fields, message))
  {
    if fields != [] {
      var n := |fields| - 1;
      SamePruned(fields[..n], message[..n]);
      assert Normal(fields, message)[..n] == Normal(fields[..n], message[..n]);
      var a, b := Encode(fields, message), Encode(fields, Normal(fields, message));
      assert a[..n] == Encode(fields[..n], message[..n]);
      assert b[..n] == Encode(fields[..n], Normal(fields[..n], message[..n]));
      assert Kept(a) == Kept(a[..n]) + if Removed(a[n].value) then [] else [a[n]];
      assert Kept(b) == Kept(b[..n]) + if Removed(b[n].value) then [] else [b[n]];
    }
  }

  /** One forwarding hop: decode, encode, prune. */
  function Hop(fields: seq<Field>, members: seq<Member>): Option<seq<Member>> {
    var message := Decode(fields, members);
    if message.None? || |message.value| != |fields| then None else Some(Kept(Encode(fields, message.value)))
  }

  /** After the first hop, further hops change neither the text nor the message. */
  lemma HopsStable(fields: seq<Field>, message: seq<Value>)
    requires IsMessage(fields, message) && DistinctKeys(fields)
    ensures var once := Kept(Encode(fields, message));
            Hop(fields, once) == Some(once) && Hop(fields, Encode(fields, message)) == Some(once)
    ensures Normal(fields, Normal(fields, message)) == Normal(fields, message)
  {
    PruneKeepsMeaning(fields, message);
    SamePruned(fields, message);
  }

  // ---------------------------------------------------------------- the nested lengths codec

  /** Writes each engaged member under its key. With none engaged nothing is assigned and
      the value stays null. */
  function EncodeLengths(keys: seq<string>, lengths: seq<Option<int>>): Json
    requires |lengths| == |keys|
  {
    if keys == [] then Null
    else
      var n := |keys| - 1;
      var before := EncodeLengths(keys[..n], lengths[..n]);
      match lengths[n]
      case None => before
      case Some(x) => Object((if before.Object? then before.members else []) + [Member(keys[n], Number(x))])
  }

  /** Reads one key: absent when the value is null, has no such key, or holds null there;
      anything but a number is a type error. */
  function DecodeLength(key: string, j: Json): Option<Option<int>> {
    match j
    case Null => Some(None)
    case Object(members) =>
      var at := Find(members, key);
      if at.None? || members[at.value].value.Null? then Some(None)
      else if members[at.value].value.Number? then Some(Some(members[at.value].value.n)) else None
    case _ => Some(None)
  }

  /** Reading a length, from any value: null and values that are no object have none, an
      object has the number that it holds under the key, and nothing where it holds null. */
  lemma LengthLaw(key: string, j: Json)
    ensures !j.Object? ==> DecodeLength(key, j) == Some(None)
    ensures j.Object? && !Occurs(j.members, key) ==> DecodeLength(key, j) == Some(None)
    ensures forall v :: j.Object? && Holds(j.members, key, v) ==>
              DecodeLength(key, j) == if v.Null? then Some(None) else if v.Number? then Some(Some(v.n)) else None
  {
    hide Find, Holds, Occurs;
    if j.Object? {
      FindHolds(j.members, key);
      forall v | Holds(j.members, key, v)
        ensures DecodeLength(key, j) == if v.Null? then Some(None) else if v.Number? then Some(Some(v.n)) else None
      {
        HoldsOccurs(j.members, key, v);
        OneHolds(j.members, key, v, j.members[Find(j.members, key).value].value);
      }
    }
  }

  lemma {:induction false} EncodedLengths(keys: seq<string>, lengths: seq<Option<int>>)
    requires |lengths| == |keys|
    ensures var j := EncodeLengths(keys, lengths);
            && (j.Null? || (j.Object? && j.members != []))
            && (j.Null? <==> forall i :: 0 <= i < |lengths| ==> lengths[i].None?)
            && (j.Object? ==> forall m :: m in j.members <==>
                  exists i :: 0 <= i < |keys| && lengths[i].Some? && m == Member(keys[i], Number(lengths[i].value)))
  {
    if keys != [] {
      var n := |keys| - 1;
      EncodedLengths(keys[..n], lengths[..n]);
      assert forall i :: 0 <= i < n ==> keys[..n][i] == keys[i] && lengths[..n][i] == lengths[i];
    }
  }

  /** The nested codec returns what was written, the all-absent case, which encodes as null,
      included: null is written exactly then. */
  lemma LengthsRoundTrip(keys: seq<string>, lengths: seq<Option<int>>)
    requires |lengths| == |keys| && forall i, j :: 0 <= i < j < |keys| ==> keys[i] != keys[j]
    ensures forall i :: 0 <= i < |keys| ==> DecodeLength(keys[i], EncodeLengths(keys, lengths)) == Some(lengths[i])
    ensures EncodeLengths(keys, lengths).Null? <==> forall i :: 0 <= i < |lengths| ==> lengths[i].None?
  {
    var j := EncodeLengths(keys, lengths);
    EncodedLengths(keys, lengths);
    forall i | 0 <= i < |keys|
      ensures DecodeLength(keys[i], j) == Some(lengths[i])
    {
      if j.Object? {
        LengthFound(keys, lengths, j.members, i);
      }
    }
  }

  lemma LengthFound(keys: seq<string>, lengths: seq<Option<int>>, members: seq<Member>, i: nat)
    requires |lengths| == |keys| && i < |keys| && forall x, y :: 0 <= x < y < |keys| ==> keys[x] != keys[y]
    requires forall m :: m in members <==>
               exists x :: 0 <= x < |keys| && lengths[x].Some? && m == Member(keys[x], Number(lengths[x].value))
    ensures DecodeLength(keys[i], Object(members)) == Some(lengths[i])
  {
    var at := Find(members, keys[i]);
    if lengths[i].Some? {
      assert Member(keys[i], Number(lengths[i].value)) in members;
    }
    if at.Some? {
      assert members[at.value] in members;
      var x :| 0 <= x < |keys| && lengths[x].Some? && members[at.value] == Member(keys[x], Number(lengths[x].value));
      assert x == i;
    }
  }
}
