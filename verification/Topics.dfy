/** The VDA 5050 topic grammar: one printer, one subscription filter and two parsers, related
    through the levels of a topic and the matching rules of section 4.7.1 of MQTT 5.0. */
module Topics {
  import opened Wrappers

  datatype TopicContext = TopicContext(
    interfaceName: string,
    majorVersion: string,
    manufacturer: string,
    serialNumber: string)

  // ---------------------------------------------------------------- the code's string functions

  /** The first slash at or after a position. */
  function FindSlash(s: string, from: nat): (r: Option<nat>)
    requires from <= |s|
    ensures r.Some? ==> from <= r.value < |s| && s[r.value] == '/' && '/' !in s[from..r.value]
    ensures r.None? ==> '/' !in s[from..]
    decreases |s| - from
  {
    if from == |s| then None
    else if s[from] == '/' then Some(from)
    else
      var r := FindSlash(s, from + 1);
      assert s[from..] == [s[from]] + s[from + 1..];
      assert r.Some? ==> s[from..r.value] == [s[from]] + s[from + 1..r.value];
      r
  }

  function ParseTopicPrefix(prefix: string): Option<TopicContext> {
    if prefix == "" then None
    else
      var sep := FindSlash(prefix, 0);
      if sep.None? || sep.value == 0 || sep.value == |prefix| - 1 then None
      else if FindSlash(prefix, sep.value + 1).Some? then None
      else Some(TopicContext(prefix[..sep.value], prefix[sep.value + 1..], "", ""))
  }

  function BuildTopic(context: TopicContext, suffix: string): Option<string> {
    if context.interfaceName == "" || context.majorVersion == "" || context.manufacturer == "" ||
       context.serialNumber == "" || suffix == ""
    then None
    else
      Some(context.interfaceName + "/" + context.majorVersion + "/" + context.manufacturer + "/" +
           context.serialNumber + "/" + suffix)
  }

  function BuildFilter(template: TopicContext, suffix: string): string {
    template.interfaceName + "/" + template.majorVersion + "/+/+/" + suffix
  }

  function ExpectedPrefix(template: TopicContext): string {
    template.interfaceName + "/" + template.majorVersion + "/"
  }

  function ParseTopicContext(template: TopicContext, topic: string, suffix: string): Option<TopicContext> {
    var expected := ExpectedPrefix(template);
    if !(expected <= topic) then None
    else
      var remainder := topic[|expected|..];
      var first := FindSlash(remainder, 0);
      if first.None? || first.value == 0 then None
      else
        var second := FindSlash(remainder, first.value + 1);
        if second.None? || second.value == first.value + 1 then None
        else if remainder[second.value + 1..] != suffix then None
        else
          Some(template.(manufacturer := remainder[..first.value],
                         serialNumber := remainder[first.value + 1..second.value]))
  }

  // ---------------------------------------------------------------- topic levels

  /** The levels of a topic name or filter: the strings between its slashes. */
  function Levels(s: string): (levels: seq<string>)
    ensures levels != []
    ensures forall level :: level in levels ==> '/' !in level
    decreases |s|
  {
    var sep := FindSlash(s, 0);
    if sep.None? then
      assert s[0..] == s;
      [s]
    else
      assert s[0..sep.value] == s[..sep.value];
      [s[..sep.value]] + Levels(s[sep.value + 1..])
  }

  function Join(levels: seq<string>): string
    requires levels != []
  {
    if |levels| == 1 then levels[0] else levels[0] + "/" + Join(levels[1..])
  }

  lemma {:induction false} JoinLevels(s: string)
    ensures Join(Levels(s)) == s
    decreases |s|
  {
    var sep := FindSlash(s, 0);
    if sep.Some? {
      JoinLevels(s[sep.value + 1..]);
      assert s == s[..sep.value] + "/" + s[sep.value + 1..];
      assert ([s[..sep.value]] + Levels(s[sep.value + 1..]))[1..] == Levels(s[sep.value + 1..]);
    }
  }

  lemma LevelsOne(a: string)
    requires '/' !in a
    ensures Levels(a) == [a]
  {
    assert a[0..] == a;
  }

  lemma {:induction false} FirstSlash(s: string, from: nat, at: nat)
    requires from <= at < |s| && s[at] == '/' && forall i :: from <= i < at ==> s[i] != '/'
    ensures FindSlash(s, from) == Some(at)
    decreases at - from
  {
    if from < at {
      FirstSlash(s, from + 1, at);
    }
  }

  lemma LevelsCons(a: string, rest: string)
    requires '/' !in a
    ensures Levels(a + "/" + rest) == [a] + Levels(rest)
  {
    var s := a + "/" + rest;
    FirstSlash(s, 0, |a|);
    assert s[..|a|] == a && s[|a| + 1..] == rest;
  }

  /** The single-level and multi-level wildcards of sections 4.7.1.3 and 4.7.1.2. */
  predicate LevelsMatch(filter: seq<string>, topic: seq<string>) {
    if filter == [] then topic == []
    else if filter == ["#"] then true
    else topic != [] && (filter[0] == "+" || filter[0] == topic[0]) && LevelsMatch(filter[1..], topic[1..])
  }

  /** A wildcard fills its level, and the multi-level one comes last. */
  predicate ValidFilter(filter: string) {
    var levels := Levels(filter);
    forall i :: 0 <= i < |levels| ==>
      ('+' in levels[i] ==> levels[i] == "+") && ('#' in levels[i] ==> levels[i] == "#" && i == |levels| - 1)
  }

  /** A topic name, as opposed to a filter, has no wildcard characters. */
  predicate TopicName(topic: string) {
    '+' !in topic && '#' !in topic
  }

  predicate TopicMatches(filter: string, topic: string) {
    ValidFilter(filter) && LevelsMatch(Levels(filter), Levels(topic))
  }

  /** Without multi-level wildcard, a filter matches level by level. */
  lemma {:induction false} SingleLevelRule(filter: seq<string>, topic: seq<string>)
    requires "#" !in filter
    ensures LevelsMatch(filter, topic) <==>
            |filter| == |topic| && forall i :: 0 <= i < |filter| ==> filter[i] == "+" || filter[i] == topic[i]
  {
    if filter != [] && topic != [] {
      SingleLevelRule(filter[1..], topic[1..]);
      assert filter == [filter[0]] + filter[1..] && topic == [topic[0]] + topic[1..];
    }
  }

  /** With one at its end, it matches what the levels before it match, and everything below. */
  lemma {:induction false} MultiLevelRule(filter: seq<string>, topic: seq<string>)
    requires "#" !in filter
    ensures LevelsMatch(filter + ["#"], topic) <==>
            |filter| <= |topic| && forall i :: 0 <= i < |filter| ==> filter[i] == "+" || filter[i] == topic[i]
  {
    var all := filter + ["#"];
    if filter == [] {
      assert all == ["#"];
    } else {
      assert all[0] == filter[0] && all[1..] == filter[1..] + ["#"] && |all| > 1;
      if topic != [] {
        MultiLevelRule(filter[1..], topic[1..]);
        assert filter == [filter[0]] + filter[1..] && topic == [topic[0]] + topic[1..];
      }
    }
  }

  /** A level that can appear in a topic name and stands only for itself in a filter. */
  predicate PlainLevel(level: string) {
    level != "" && '/' !in level && '+' !in level && '#' !in level
  }

  // ---------------------------------------------------------------- the prefix parser

  /** The configured prefix is accepted exactly when it is two non-empty levels. */
  lemma PrefixAccepted(prefix: string)
    ensures ParseTopicPrefix(prefix).Some? <==> |Levels(prefix)| == 2 && "" !in Levels(prefix)
    ensures ParseTopicPrefix(prefix).Some? ==>
              ParseTopicPrefix(prefix).value == TopicContext(Levels(prefix)[0], Levels(prefix)[1], "", "")
  {
    var sep := FindSlash(prefix, 0);
    if sep.Some? {
      var rest := prefix[sep.value + 1..];
      var again := FindSlash(prefix, sep.value + 1);
      var inRest := FindSlash(rest, 0);
      assert rest[0..] == rest;
      if again.Some? {
        assert rest[again.value - (sep.value + 1)] == '/';
        assert inRest.Some?;
      } else {
        assert inRest.None?;
        LevelsOne(rest);
      }
      assert Levels(prefix) == [prefix[..sep.value]] + Levels(rest);
    }
  }

  // ---------------------------------------------------------------- printer, filter, parser

  /** The topic name that a context and a suffix stand for. */
  function Spell(template: TopicContext, manufacturer: string, serialNumber: string, suffix: string): string {
    template.interfaceName + "/" + template.majorVersion + "/" + manufacturer + "/" + serialNumber + "/" + suffix
  }

  /** A string cut at a slash. */
  lemma Cut(a: string, rest: string)
    ensures var s := a + "/" + rest;
            |s| == |a| + 1 + |rest| && s[|a|] == '/' && s[..|a|] == a && s[|a| + 1..] == rest
  {
  }

  lemma SliceOfTail(s: string, i: nat, n: nat)
    requires i + n <= |s|
    ensures s[i..i + n] == s[i..][..n] && s[i + n..] == s[i..][n..]
  {
  }

  lemma SlashPositions(s: string, i: nat, j: nat)
    requires i < j < |s| && s[i] == '/' && s[j] == '/' && '/' !in s[..i] && '/' !in s[i + 1..j]
    ensures FindSlash(s, 0) == Some(i) && FindSlash(s, i + 1) == Some(j)
  {
    hide FindSlash;
    assert forall k :: 0 <= k < i ==> s[k] == s[..i][k];
    assert forall k :: i + 1 <= k < j ==> s[k] == s[i + 1..j][k - i - 1];
    FirstSlash(s, 0, i);
    FirstSlash(s, i + 1, j);
  }

  predicate IsJoined(s: string, x: string, y: string, z: string) {
    s == x + "/" + (y + "/" + z)
  }

  /** Where x, y and z lie in x/y/z. */
  lemma ThreeParts(s: string, x: string, y: string, z: string)
    requires IsJoined(s, x, y, z)
    ensures var at := |x| + 1 + |y|;
            && at < |s| && s[|x|] == '/' && s[at] == '/'
            && s[..|x|] == x && s[|x| + 1..at] == y && s[at + 1..] == z
  {
    var rest := s[|x| + 1..];
    Cut(x, y + "/" + z);
    Cut(y, z);
    assert rest == y + "/" + z;
    SliceOfTail(s, |x| + 1, |y|);
    SliceOfTail(s, |x| + 1, |y| + 1);
    assert s[|x| + 1 + |y|] == rest[|y|];
  }

  lemma TwoSlashes(s: string, x: string, y: string, suffix: string)
    requires IsJoined(s, x, y, suffix) && '/' !in x && '/' !in y
    ensures var at := |x| + 1 + |y|;
            && at < |s| && FindSlash(s, 0) == Some(|x|) && FindSlash(s, |x| + 1) == Some(at)
            && s[..|x|] == x && s[|x| + 1..at] == y && s[at + 1..] == suffix
  {
    hide FindSlash, IsJoined;
    ThreeParts(s, x, y, suffix);
    SlashPositions(s, |x|, |x| + 1 + |y|);
  }

  /** A spelled topic is the parser's expected prefix and a remainder cut at two slashes. */
  lemma SpellSplit(template: TopicContext, x: string, y: string, suffix: string, remainder: string)
    requires IsJoined(remainder, x, y, suffix)
    ensures Spell(template, x, y, suffix) == ExpectedPrefix(template) + remainder
  {
  }

  lemma RestAfter(prefix: string, s: string)
    requires prefix <= s
    ensures s == prefix + s[|prefix|..]
  {
  }

  lemma RestOfSum(prefix: string, s: string)
    ensures prefix <= prefix + s && (prefix + s)[|prefix|..] == s
  {
  }

  lemma ParseAccepts(template: TopicContext, x: string, y: string, suffix: string)
    requires x != "" && y != "" && '/' !in x && '/' !in y
    ensures ParseTopicContext(template, Spell(template, x, y, suffix), suffix) ==
            Some(template.(manufacturer := x, serialNumber := y))
  {
    var remainder := x + "/" + (y + "/" + suffix);
    assert IsJoined(remainder, x, y, suffix);
    ParseAcceptsJoined(template, x, y, suffix, remainder);
  }

  lemma ParseAcceptsJoined(template: TopicContext, x: string, y: string, suffix: string, remainder: string)
    requires x != "" && y != "" && '/' !in x && '/' !in y && IsJoined(remainder, x, y, suffix)
    ensures ParseTopicContext(template, Spell(template, x, y, suffix), suffix) ==
            Some(template.(manufacturer := x, serialNumber := y))
  {
    hide FindSlash, Spell, IsJoined, ExpectedPrefix;
    SpellSplit(template, x, y, suffix, remainder);
    RestOfSum(ExpectedPrefix(template), remainder);
    TwoSlashes(remainder, x, y, suffix);
  }

  lemma Reassemble(s: string, i: nat, j: nat)
    requires i < j < |s| && s[i] == '/' && s[j] == '/'
    ensures IsJoined(s, s[..i], s[i + 1..j], s[j + 1..])
  {
    assert s[i + 1..] == s[i + 1..j] + "/" + s[j + 1..];
  }

  lemma FirstTwoLevels(s: string, i: nat, j: nat)
    requires FindSlash(s, 0) == Some(i) && i < |s| && FindSlash(s, i + 1) == Some(j)
    ensures i < j < |s| && '/' !in s[..i] && '/' !in s[i + 1..j]
    ensures s[i] == '/' && s[j] == '/'
  {
    hide FindSlash;
    assert s[0..i] == s[..i];
  }

  lemma ParsedNames(template: TopicContext, topic: string, suffix: string)
    requires ParseTopicContext(template, topic, suffix).Some?
    ensures var c := ParseTopicContext(template, topic, suffix).value;
            && c.interfaceName == template.interfaceName && c.majorVersion == template.majorVersion
            && c.manufacturer != "" && '/' !in c.manufacturer
            && c.serialNumber != "" && '/' !in c.serialNumber
            && ExpectedPrefix(template) <= topic
            && IsJoined(topic[|ExpectedPrefix(template)|..], c.manufacturer, c.serialNumber, suffix)
  {
    hide FindSlash, IsJoined, ExpectedPrefix;
    var remainder := topic[|ExpectedPrefix(template)|..];
    var first := FindSlash(remainder, 0).value;
    var second := FindSlash(remainder, first + 1).value;
    Reassemble(remainder, first, second);
    FirstTwoLevels(remainder, first, second);
  }

  lemma ParseShape(template: TopicContext, topic: string, suffix: string)
    requires ParseTopicContext(template, topic, suffix).Some?
    ensures var c := ParseTopicContext(template, topic, suffix).value;
            && c.interfaceName == template.interfaceName && c.majorVersion == template.majorVersion
            && c.manufacturer != "" && '/' !in c.manufacturer
            && c.serialNumber != "" && '/' !in c.serialNumber
            && topic == Spell(template, c.manufacturer, c.serialNumber, suffix)
  {
    hide FindSlash, Spell, IsJoined, ExpectedPrefix, ParseTopicContext;
    ParsedNames(template, topic, suffix);
    var c, remainder := ParseTopicContext(template, topic, suffix).value, topic[|ExpectedPrefix(template)|..];
    SpellSplit(template, c.manufacturer, c.serialNumber, suffix, remainder);
    RestAfter(ExpectedPrefix(template), topic);
  }

  lemma SpellLevels(template: TopicContext, x: string, y: string, suffix: string)
    requires '/' !in template.interfaceName && '/' !in template.majorVersion
    requires '/' !in x && '/' !in y && '/' !in suffix
    ensures Levels(Spell(template, x, y, suffix)) == [template.interfaceName, template.majorVersion, x, y, suffix]
  {
    hide Levels, FindSlash;
    var t3 := y + "/" + suffix;
    var t2 := x + "/" + t3;
    var t1 := template.majorVersion + "/" + t2;
    assert Spell(template, x, y, suffix) == template.interfaceName + "/" + t1;
    LevelsOne(suffix);
    LevelsCons(y, suffix);
    LevelsCons(x, t3);
    LevelsCons(template.majorVersion, t2);
    LevelsCons(template.interfaceName, t1);
  }

  lemma FilterLevels(template: TopicContext, suffix: string)
    requires '/' !in template.interfaceName && '/' !in template.majorVersion && '/' !in suffix
    ensures Levels(BuildFilter(template, suffix)) == [template.interfaceName, template.majorVersion, "+", "+", suffix]
  {
    assert BuildFilter(template, suffix) == Spell(template, "+", "+", suffix);
    SpellLevels(template, "+", "+", suffix);
  }

  /** Both names, the levels under the two wildcards, are non-empty. */
  predicate HasNames(topic: string) {
    |Levels(topic)| == 5 && Levels(topic)[2] != "" && Levels(topic)[3] != ""
  }

  /** A level of a prefix that a valid filter may contain. */
  predicate FilterLevel(level: string) {
    PlainLevel(level) || level == "+"
  }

  /** A prefix of two levels, as the configuration must have it. */
  predicate TwoLevels(template: TopicContext) {
    template.interfaceName != "" && '/' !in template.interfaceName &&
    template.majorVersion != "" && '/' !in template.majorVersion
  }

  lemma FilterIsValid(template: TopicContext, suffix: string)
    requires TwoLevels(template) && PlainLevel(suffix)
    ensures ValidFilter(BuildFilter(template, suffix)) <==>
            FilterLevel(template.interfaceName) && FilterLevel(template.majorVersion)
  {
    hide Levels, FindSlash;
    FilterLevels(template, suffix);
    var levels := Levels(BuildFilter(template, suffix));
    assert levels[0] == template.interfaceName && levels[1] == template.majorVersion && levels[4] == suffix;
    assert '+' in "+" && '#' !in "+";
  }

  lemma FilterMatches(template: TopicContext, topic: string, suffix: string)
    requires TwoLevels(template) && PlainLevel(suffix)
    requires FilterLevel(template.interfaceName) && FilterLevel(template.majorVersion)
    ensures TopicMatches(BuildFilter(template, suffix), topic) <==>
            var levels := Levels(topic);
            && |levels| == 5 && levels[4] == suffix
            && (template.interfaceName == "+" || levels[0] == template.interfaceName)
            && (template.majorVersion == "+" || levels[1] == template.majorVersion)
  {
    hide Levels, FindSlash, LevelsMatch, ValidFilter, BuildFilter;
    FilterIsValid(template, suffix);
    FilterLevels(template, suffix);
    SingleLevelRule([template.interfaceName, template.majorVersion, "+", "+", suffix], Levels(topic));
    assert '#' in "#" && '+' in "+" && '#' !in "+";
  }

  /** A topic of five levels is spelled from them. */
  lemma FiveLevels(topic: string)
    requires |Levels(topic)| == 5
    ensures var levels := Levels(topic);
            topic == Spell(TopicContext(levels[0], levels[1], "", ""), levels[2], levels[3], levels[4])
  {
    hide Levels, FindSlash;
    var levels := Levels(topic);
    var template := TopicContext(levels[0], levels[1], "", "");
    SpellLevels(template, levels[2], levels[3], levels[4]);
    assert levels == [levels[0], levels[1], levels[2], levels[3], levels[4]];
    JoinLevels(topic);
    JoinLevels(Spell(template, levels[2], levels[3], levels[4]));
  }

  lemma SpellChars(template: TopicContext, x: string, y: string, suffix: string)
    ensures TopicName(Spell(template, x, y, suffix)) <==>
            TopicName(template.interfaceName) && TopicName(template.majorVersion) && TopicName(x) && TopicName(y) &&
            TopicName(suffix)
  {
    var s := Spell(template, x, y, suffix);
    assert forall ch :: ch in s <==> ch in template.interfaceName || ch in template.majorVersion || ch in x || ch in y ||
                                     ch in suffix || ch == '/';
  }

  /** What the parser accepts, the subscription filter delivers; and of what the filter
      delivers, the parser accepts exactly the topics with two non-empty names, unless the
      prefix itself contains a wildcard. The names are the levels under the wildcards. */
  lemma FilterAndParserAgree(template: TopicContext, topic: string, suffix: string)
    requires TwoLevels(template) && PlainLevel(suffix) && TopicName(topic)
    ensures ParseTopicContext(template, topic, suffix).Some? ==>
              TopicMatches(BuildFilter(template, suffix), topic) && HasNames(topic) &&
              ParseTopicContext(template, topic, suffix).value ==
              template.(manufacturer := Levels(topic)[2], serialNumber := Levels(topic)[3])
    ensures TopicMatches(BuildFilter(template, suffix), topic) && HasNames(topic) &&
            template.interfaceName != "+" && template.majorVersion != "+" ==>
              ParseTopicContext(template, topic, suffix).Some?
  {
    hide Levels, FindSlash, LevelsMatch, ParseTopicContext, BuildFilter, Spell, ValidFilter, TopicMatches;
    FilterIsValid(template, suffix);
    if ParseTopicContext(template, topic, suffix).Some? {
      ParseShape(template, topic, suffix);
      var c := ParseTopicContext(template, topic, suffix).value;
      SpellLevels(template, c.manufacturer, c.serialNumber, suffix);
      SpellChars(template, c.manufacturer, c.serialNumber, suffix);
      FilterMatches(template, topic, suffix);
    }
    if TopicMatches(BuildFilter(template, suffix), topic) && HasNames(topic) &&
       template.interfaceName != "+" && template.majorVersion != "+"
    {
      MatchedIsValid(BuildFilter(template, suffix), topic);
      FilterMatches(template, topic, suffix);
      FiveLevels(topic);
      var levels := Levels(topic);
      SameSpelling(TopicContext(levels[0], levels[1], "", ""), template, levels[2], levels[3], suffix);
      ParseAccepts(template, levels[2], levels[3], suffix);
    }
  }

  lemma MatchedIsValid(filter: string, topic: string)
    requires TopicMatches(filter, topic)
    ensures ValidFilter(filter)
  {
  }

  lemma SameSpelling(a: TopicContext, b: TopicContext, x: string, y: string, suffix: string)
    requires a.interfaceName == b.interfaceName && a.majorVersion == b.majorVersion
    ensures Spell(a, x, y, suffix) == Spell(b, x, y, suffix)
  {
  }

  /** Filter and parser agree on every topic with two names if and only if no level of the
      prefix is a wildcard that the filter may contain. */
  lemma AgreeIffNoWildcard(template: TopicContext, suffix: string)
    requires TwoLevels(template) && PlainLevel(suffix)
    ensures (forall topic :: TopicName(topic) && HasNames(topic) ==>
               (ParseTopicContext(template, topic, suffix).Some? <==> TopicMatches(BuildFilter(template, suffix), topic))) <==>
            !(ValidFilter(BuildFilter(template, suffix)) && (template.interfaceName == "+" || template.majorVersion == "+"))
  {
    hide Levels, FindSlash, LevelsMatch, ParseTopicContext, BuildFilter, Spell, ValidFilter, TopicMatches, HasNames;
    var filter := BuildFilter(template, suffix);
    if ValidFilter(filter) && (template.interfaceName == "+" || template.majorVersion == "+") {
      var topic := DeliveredNotParsed(template, suffix);
    } else {
      forall topic | TopicName(topic) && HasNames(topic)
        ensures ParseTopicContext(template, topic, suffix).Some? <==> TopicMatches(filter, topic)
      {
        FilterAndParserAgree(template, topic, suffix);
        if TopicMatches(filter, topic) {
          MatchedIsValid(filter, topic);
        }
      }
    }
  }

  /** A valid filter matches some topic with two names. */
  lemma SomeTopic(template: TopicContext, suffix: string) returns (topic: string)
    requires TwoLevels(template) && PlainLevel(suffix) && ValidFilter(BuildFilter(template, suffix))
    ensures TopicName(topic) && HasNames(topic) && TopicMatches(BuildFilter(template, suffix), topic)
    ensures Levels(topic)[0] != "+" && Levels(topic)[1] != "+"
  {
    hide Levels, FindSlash, LevelsMatch, BuildFilter, Spell, ValidFilter, TopicMatches;
    FilterIsValid(template, suffix);
    var concrete := TopicContext(if template.interfaceName == "+" then "x" else template.interfaceName,
                                 if template.majorVersion == "+" then "x" else template.majorVersion, "", "");
    topic := Spell(concrete, "x", "x", suffix);
    SpellLevels(concrete, "x", "x", suffix);
    SpellChars(concrete, "x", "x", suffix);
    FilterMatches(template, topic, suffix);
  }

  /** With a wildcard in the prefix, the filter delivers topics that the parser rejects. */
  lemma DeliveredNotParsed(template: TopicContext, suffix: string) returns (topic: string)
    requires TwoLevels(template) && PlainLevel(suffix) && ValidFilter(BuildFilter(template, suffix))
    requires template.interfaceName == "+" || template.majorVersion == "+"
    ensures TopicName(topic) && HasNames(topic) && TopicMatches(BuildFilter(template, suffix), topic)
    ensures ParseTopicContext(template, topic, suffix).None?
  {
    hide Levels, FindSlash, LevelsMatch, ParseTopicContext, BuildFilter, Spell, ValidFilter, TopicMatches;
    topic := SomeTopic(template, suffix);
    if ParseTopicContext(template, topic, suffix).Some? {
      ParseShape(template, topic, suffix);
      var c := ParseTopicContext(template, topic, suffix).value;
      SpellLevels(template, c.manufacturer, c.serialNumber, suffix);
      assert false;
    }
  }

  /** Parsing a printed topic returns its context exactly when neither name has a slash. */
  lemma PrintThenParse(context: TopicContext, suffix: string)
    requires BuildTopic(context, suffix).Some? && '/' !in suffix
    ensures ParseTopicContext(context, BuildTopic(context, suffix).value, suffix) == Some(context) <==>
            '/' !in context.manufacturer && '/' !in context.serialNumber
  {
    assert BuildTopic(context, suffix).value == Spell(context, context.manufacturer, context.serialNumber, suffix);
    if '/' !in context.manufacturer && '/' !in context.serialNumber {
      ParseAccepts(context, context.manufacturer, context.serialNumber, suffix);
    } else if ParseTopicContext(context, BuildTopic(context, suffix).value, suffix) == Some(context) {
      ParseShape(context, BuildTopic(context, suffix).value, suffix);
    }
  }

  /** Any accepted topic is printed back unchanged from the context it was parsed to. */
  lemma ParseThenPrint(template: TopicContext, topic: string, suffix: string)
    requires template.interfaceName != "" && template.majorVersion != "" && suffix != ""
    requires ParseTopicContext(template, topic, suffix).Some?
    ensures BuildTopic(ParseTopicContext(template, topic, suffix).value, suffix) == Some(topic)
  {
    ParseShape(template, topic, suffix);
  }

  /** No topic is accepted under two suffixes, not even by parsers of two prefixes: at most one
      kind of handler takes a message. */
  lemma OneSuffix(template: TopicContext, other: TopicContext, topic: string, s: string, t: string)
    requires '/' !in s && '/' !in t
    requires ParseTopicContext(template, topic, s).Some? && ParseTopicContext(other, topic, t).Some?
    ensures s == t
  {
  }
}
