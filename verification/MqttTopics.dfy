/** MQTT topics: cutting them into levels, the access rule of the embedded broker, and downlink topics. */
module MqttTopics {
  import opened Wrappers
  import opened Text

  // ---------------------------------------------------------------- levels

  /** The first position from i on that holds no slash. */
  function SlashesEnd(s: string, i: nat): (n: nat)
    requires i <= |s|
    ensures i <= n <= |s|
    decreases |s| - i
  {
    if i < |s| && s[i] == '/' then SlashesEnd(s, i + 1) else i
  }

  /** The last position up to i that has no slash before it. */
  function SlashesStart(s: string, i: nat): (n: nat)
    requires i <= |s|
    ensures n <= i
  {
    if i > 0 && s[i - 1] == '/' then SlashesStart(s, i - 1) else i
  }

  function TrimSlashesLeft(s: string): string {
    s[SlashesEnd(s, 0)..]
  }

  /** strings.Trim(s, "/") */
  function TrimSlashes(s: string): string {
    var left := TrimSlashesLeft(s);
    left[..SlashesStart(left, |left|)]
  }

  function CleanTopic(topic: string): string {
    TrimSlashes(TrimSpace(topic))
  }

  /** strings.Split(s, "/") */
  function Levels(s: string): (levels: seq<string>)
    ensures |levels| >= 1
    decreases |s|
  {
    if s == "" then [""]
    else
      var levels, c := Levels(s[..|s| - 1]), s[|s| - 1];
      if c == '/' then levels + [""] else levels[|levels| - 1 := levels[|levels| - 1] + [c]]
  }

  function SplitTopic(topic: string): seq<string> {
    if CleanTopic(topic) == "" then [] else Levels(CleanTopic(topic))
  }

  /** The levels of a topic below a base, if it is at or below it. */
  function TopicRest(topic: string, base: string): Option<seq<string>> {
    var t, b := SplitTopic(topic), SplitTopic(base);
    if b == [] || !(b <= t) then None else Some(t[|b|..])
  }

  method FindTopicRest(topic: string, base: string) returns (rest: Option<seq<string>>)
    ensures rest == TopicRest(topic, base)
  {
    hide SplitTopic;
    var topicParts := SplitTopic(topic);
    var baseParts := SplitTopic(base);
    if |baseParts| == 0 || |topicParts| < |baseParts| {
      return None;
    }
    for i := 0 to |baseParts|
      invariant baseParts[..i] == topicParts[..i]
    {
      if topicParts[i] != baseParts[i] {
        return None;
      }
    }
    assert baseParts == baseParts[..|baseParts|] == topicParts[..|baseParts|];
    return Some(topicParts[|baseParts|..]);
  }

  function NormalizeKind(kind: string): string {
    KnownKind(ToLower(TrimSpace(kind)))
  }

  function KnownKind(k: string): string {
    if k == "telemetry" || k == "metrics" || k == "metric" then "telemetry"
    else if k == "heartbeat" || k == "availability" || k == "presence" then "heartbeat"
    else if k == "event" || k == "events" then "event"
    else if k == "state" || k == "status" then "state"
    else if k == "log" || k == "logs" then "log"
    else if k == "ack" || k == "acks" || k == "command_ack" || k == "receipt" || k == "command_receipt" then "ack"
    else k
  }

  // ---------------------------------------------------------------- access

  datatype Bases = Bases(goster: string, zigbee: string)

  predicate IsUplinkKind(kind: string) {
    kind == "telemetry" || kind == "heartbeat" || kind == "event" || kind == "ack" || kind == "state" || kind == "log"
  }

  /** May a session of this device publish to (write) or subscribe to the topic? */
  predicate AllowedTopic(bases: Bases, uuid: string, topic: string, write: bool) {
    var clean := CleanTopic(topic);
    match TopicRest(clean, bases.goster)
    case Some(rest) =>
      if |rest| < 2 then false
      else if TrimSpace(rest[0]) == "" || TrimSpace(rest[0]) != uuid then false
      else if write then IsUplinkKind(NormalizeKind(rest[1])) && |rest| == 2
      else NormalizeKind(rest[1]) == "downlink" && |rest| == 2
    case None => TopicRest(clean, bases.zigbee).Some? && write
  }

  // ---------------------------------------------------------------- matching

  predicate HasChar(s: string, c: char) {
    exists i :: 0 <= i < |s| && s[i] == c
  }

  predicate NoWildcards(s: string) {
    !HasChar(s, '+') && !HasChar(s, '#')
  }

  /** Section 4.7 of the MQTT specification, version 3.1.1. */
  predicate LevelsMatch(filter: seq<string>, topic: seq<string>)
    decreases filter
  {
    if filter == [] then topic == []
    else if filter[0] == "#" then |filter| == 1
    else topic != [] && (filter[0] == "+" || filter[0] == topic[0]) && LevelsMatch(filter[1..], topic[1..])
  }

  /** A filter that starts with a wildcard does not match topics that start with '$'. */
  predicate Matches(filter: string, topic: string) {
    && topic != ""
    && (topic[0] == '$' && filter != "" ==> filter[0] != '+' && filter[0] != '#')
    && LevelsMatch(Levels(filter), Levels(topic))
  }

  // ---------------------------------------------------------------- downlink topics

  /** strings.ReplaceAll */
  function ReplaceAll(s: string, key: string, value: string): string
    requires key != ""
    decreases |s|
  {
    if |s| < |key| then s
    else if s[..|key|] == key then value + ReplaceAll(s[|key|..], key, value)
    else [s[0]] + ReplaceAll(s[1..], key, value)
  }

  predicate IsPlaceholder(key: string): (b: bool)
    ensures b ==> key != "" && key[0] == '{'
  {
    key == "{uuid}" || key == "{device_uuid}" || key == "{tenant}" || key == "{tenant_id}"
  }

  function Replacement(key: string, uuid: string, tenant: string): string {
    if key == "{uuid}" || key == "{device_uuid}" then uuid else tenant
  }

  const DEFAULT_DOWNLINK_TOPIC: string := "goster/v1/{uuid}/downlink"

  /** The placeholders are replaced in an order that the runtime chooses. */
  function Substituted(tmpl: string, order: seq<string>, uuid: string, tenant: string): string
    requires forall i :: 0 <= i < |order| ==> IsPlaceholder(order[i])
    decreases |order|
  {
    if order == [] then tmpl
    else
      var n := |order| - 1;
      assert IsPlaceholder(order[n]);
      ReplaceAll(Substituted(tmpl, order[..n], uuid, tenant), order[n], Replacement(order[n], uuid, tenant))
  }

  function Rendered(tmpl: string, order: seq<string>, uuid: string, tenant: string): string
    requires forall i :: 0 <= i < |order| ==> IsPlaceholder(order[i])
  {
    TrimSlashes(Substituted(if TrimSpace(tmpl) == "" then DEFAULT_DOWNLINK_TOPIC else tmpl, order, uuid, tenant))
  }

  method RenderDownlinkTopic(tmpl: string, order: seq<string>, uuid: string, tenant: string) returns (topic: string)
    requires forall i :: 0 <= i < |order| ==> IsPlaceholder(order[i])
    ensures topic == Rendered(tmpl, order, uuid, tenant)
  {
    hide TrimSpace, TrimSlashes, ReplaceAll;
    var template := tmpl;
    if TrimSpace(tmpl) == "" {
      template := DEFAULT_DOWNLINK_TOPIC;
    }
    var out := template;
    for i := 0 to |order|
      invariant out == Substituted(template, order[..i], uuid, tenant)
    {
      assert order[..i + 1][..i] == order[..i];
      out := ReplaceAll(out, order[i], Replacement(order[i], uuid, tenant));
    }
    assert order[..|order|] == order;
    return TrimSlashes(out);
  }

  // ---------------------------------------------------------------- facts about levels

  function JoinLevels(levels: seq<string>): string
    requires |levels| >= 1
    decreases |levels|
  {
    if |levels| == 1 then levels[0] else JoinLevels(levels[..|levels| - 1]) + "/" + levels[|levels| - 1]
  }

  lemma JoinLast(levels: seq<string>, c: char)
    requires |levels| >= 1
    ensures JoinLevels(levels[|levels| - 1 := levels[|levels| - 1] + [c]]) == JoinLevels(levels) + [c]
  {
    var n := |levels| - 1;
    assert levels[n := levels[n] + [c]][..n] == levels[..n];
  }

  /** One more character opens a level or joins the last one. */
  function Extended(levels: seq<string>, c: char): (r: seq<string>)
    requires |levels| >= 1
    ensures |r| >= 1
  {
    if c == '/' then levels + [""] else levels[|levels| - 1 := levels[|levels| - 1] + [c]]
  }

  lemma LevelsSnoc(s: string, c: char)
    ensures Levels(s + [c]) == Extended(Levels(s), c)
  {
    assert (s + [c])[..|s|] == s;
  }

  lemma {:induction false} JoinExtended(levels: seq<string>, c: char)
    requires |levels| >= 1
    ensures JoinLevels(Extended(levels, c)) == JoinLevels(levels) + [c]
  {
    if c == '/' {
      assert (levels + [""])[..|levels|] == levels;
      assert JoinLevels(levels) + "/" + "" == JoinLevels(levels) + [c];
    } else {
      JoinLast(levels, c);
    }
  }

  /** A topic is its levels joined, so two topics with the same levels are the same. */
  lemma {:induction false} LevelsJoin(s: string)
    ensures JoinLevels(Levels(s)) == s
    decreases |s|
  {
    if s == "" {
    } else {
      hide Levels, JoinLevels, Extended;
      var init, c := s[..|s| - 1], s[|s| - 1];
      assert s == init + [c];
      LevelsJoin(init);
      LevelsSnoc(init, c);
      JoinExtended(Levels(init), c);
    }
  }

  lemma ExtendedAppend(l: seq<string>, m: seq<string>, c: char)
    requires |l| >= 1 && |m| >= 1
    ensures Extended(l + m, c) == l + Extended(m, c)
  {
    if c != '/' {
      assert (l + m)[|l + m| - 1 := m[|m| - 1] + [c]] == l + m[|m| - 1 := m[|m| - 1] + [c]];
    } else {
      assert l + m + [""] == l + (m + [""]);
    }
  }

  lemma LevelsOfNothing(a: string)
    ensures Levels(a + "/") == Levels(a) + Levels("")
  {
    LevelsSnoc(a, '/');
    assert a + ['/'] == a + "/";
  }

  lemma {:induction false} LevelsAppend(a: string, b: string)
    ensures Levels(a + "/" + b) == Levels(a) + Levels(b)
    decreases |b|
  {
    hide Levels, Extended;
    if b == "" {
      assert a + "/" + b == a + "/";
      LevelsOfNothing(a);
    } else {
      var init, c := b[..|b| - 1], b[|b| - 1];
      assert b == init + [c];
      LevelsAppend(a, init);
      assert a + "/" + b == (a + "/" + init) + [c];
      LevelsSnoc(a + "/" + init, c);
      LevelsSnoc(init, c);
      ExtendedAppend(Levels(a), Levels(init), c);
    }
  }

  /** A character of a topic, other than the separator, is in one of its levels. */
  lemma {:induction false} CharInLevels(s: string, c: char)
    requires c != '/' && HasChar(s, c)
    ensures exists k :: 0 <= k < |Levels(s)| && HasChar(Levels(s)[k], c)
    decreases |s|
  {
    var init, d := s[..|s| - 1], s[|s| - 1];
    var levels, before := Levels(s), Levels(init);
    var n := |before| - 1;
    if d == c {
      assert levels[n][|before[n]|] == c;
      assert HasChar(levels[n], c);
    } else {
      var i :| 0 <= i < |s| && s[i] == c;
      assert init[i] == c;
      CharInLevels(init, c);
      var k :| 0 <= k < |before| && HasChar(before[k], c);
      var j :| 0 <= j < |before[k]| && before[k][j] == c;
      assert levels[k][j] == c;
      assert HasChar(levels[k], c);
    }
  }

  lemma {:induction false} LevelHasNoSlash(s: string, k: nat)
    requires k < |Levels(s)|
    ensures !HasChar(Levels(s)[k], '/')
    decreases |s|
  {
    if s != "" {
      var before := Levels(s[..|s| - 1]);
      if k < |before| {
        LevelHasNoSlash(s[..|s| - 1], k);
      }
    }
  }

  lemma {:induction false} NoSlashOneLevel(s: string)
    requires |Levels(s)| == 1
    ensures Levels(s) == [s]
    decreases |s|
  {
    LevelsJoin(s);
  }

  // ---------------------------------------------------------------- subscriptions have no wildcards

  lemma TrimSpaceKeeps(s: string, c: char)
    requires !IsSpace(c) && HasChar(s, c)
    ensures HasChar(TrimSpace(s), c)
  {
    hide TrimSpace, IsSpace;
    var before, after := TrimParts(s);
    var i :| 0 <= i < |s| && s[i] == c;
    assert |before| <= i < |before| + |TrimSpace(s)|;
    assert TrimSpace(s)[i - |before|] == c;
  }

  predicate AllSlashes(s: string) {
    forall i :: 0 <= i < |s| ==> s[i] == '/'
  }

  lemma {:induction false} SlashesEndIsSharp(s: string, i: nat)
    requires i <= |s|
    ensures var n := SlashesEnd(s, i);
            && (n < |s| ==> s[n] != '/')
            && forall j :: i <= j < n ==> s[j] == '/'
    decreases |s| - i
  {
    if i < |s| && s[i] == '/' {
      SlashesEndIsSharp(s, i + 1);
    }
  }

  lemma {:induction false} SlashesStartIsSharp(s: string, i: nat)
    requires i <= |s|
    ensures var n := SlashesStart(s, i);
            && (n > 0 ==> s[n - 1] != '/')
            && forall j :: n <= j < i ==> s[j] == '/'
  {
    if i > 0 && s[i - 1] == '/' {
      SlashesStartIsSharp(s, i - 1);
    }
  }

  /** Trimming cuts slashes off both ends and leaves none there. */
  lemma SlashParts(s: string) returns (before: string, after: string)
    ensures s == before + TrimSlashes(s) + after && AllSlashes(before) && AllSlashes(after)
    ensures TrimSlashes(s) != "" ==> TrimSlashes(s)[0] != '/' && TrimSlashes(s)[|TrimSlashes(s)| - 1] != '/'
  {
    hide SlashesEnd, SlashesStart;
    var left := TrimSlashesLeft(s);
    SlashesEndIsSharp(s, 0);
    SlashesStartIsSharp(left, |left|);
    before, after := s[..SlashesEnd(s, 0)], left[SlashesStart(left, |left|)..];
  }

  lemma CleanKeeps(s: string, c: char)
    requires !IsSpace(c) && c != '/' && HasChar(s, c)
    ensures HasChar(CleanTopic(s), c)
  {
    hide TrimSpace, TrimSlashes, IsSpace;
    TrimSpaceKeeps(s, c);
    var t := TrimSpace(s);
    var before, after := SlashParts(t);
    var i :| 0 <= i < |t| && t[i] == c;
    assert |before| <= i < |before| + |TrimSlashes(t)|;
    assert TrimSlashes(t)[i - |before|] == c;
  }

  lemma LowerKeeps(s: string, c: char)
    requires !('A' <= c <= 'Z') && HasChar(s, c)
    ensures HasChar(ToLower(s), c)
  {
    var i :| 0 <= i < |s| && s[i] == c;
    assert ToLower(s)[i] == c;
  }

  /** The one name of the downlink level. */
  predicate NamesDownlink(kind: string) {
    ToLower(TrimSpace(kind)) == "downlink"
  }

  lemma KindIsDownlink(kind: string)
    ensures NormalizeKind(kind) == "downlink" <==> NamesDownlink(kind)
  {
    hide ToLower, TrimSpace;
  }

  lemma DownlinkIsPlain()
    ensures NoWildcards("downlink") && !HasChar("downlink", '/')
  {
  }

  /** A level that normalizes to "downlink" has no wildcard and no separator in it. */
  lemma DownlinkLevelIsPlain(level: string, c: char)
    requires NormalizeKind(level) == "downlink" && (c == '+' || c == '#' || c == '/')
    ensures !HasChar(level, c)
  {
    KindIsDownlink(level);
    DownlinkIsPlain();
    hide NormalizeKind, ToLower, TrimSpace, HasChar;
    if HasChar(level, c) {
      TrimSpaceKeeps(level, c);
      LowerKeeps(TrimSpace(level), c);
    }
  }

  /** What an accepted subscription looks like, level by level. */
  lemma SubscriptionLevels(bases: Bases, uuid: string, filter: string)
    requires AllowedTopic(bases, uuid, filter, false)
    ensures var levels, base := SplitTopic(CleanTopic(filter)), SplitTopic(bases.goster);
            && base != [] && |levels| == |base| + 2 && levels[..|base|] == base
            && TrimSpace(levels[|base|]) == uuid && uuid != ""
            && NormalizeKind(levels[|base| + 1]) == "downlink"
  {
    hide CleanTopic, TrimSpace, NormalizeKind, SplitTopic;
  }

  lemma PlainLevels(bases: Bases, uuid: string, filter: string, c: char, k: nat)
    requires c == '+' || c == '#'
    requires AllowedTopic(bases, uuid, filter, false) && !HasChar(uuid, c)
    requires forall i :: 0 <= i < |SplitTopic(bases.goster)| ==> !HasChar(SplitTopic(bases.goster)[i], c)
    requires k < |SplitTopic(CleanTopic(filter))|
    ensures !HasChar(SplitTopic(CleanTopic(filter))[k], c)
  {
    hide CleanTopic, TrimSpace, NormalizeKind, SplitTopic, HasChar, AllowedTopic;
    SubscriptionLevels(bases, uuid, filter);
    var levels, base := SplitTopic(CleanTopic(filter)), SplitTopic(bases.goster);
    if k < |base| {
      assert levels[k] == levels[..|base|][k] == base[k];
    } else if k == |base| {
      if HasChar(levels[k], c) {
        TrimSpaceKeeps(levels[k], c);
      }
    } else {
      DownlinkLevelIsPlain(levels[k], c);
    }
  }

  /** A filter that may be subscribed to has no wildcard anywhere. */
  lemma SubscriptionsHaveNoWildcards(bases: Bases, uuid: string, filter: string)
    requires AllowedTopic(bases, uuid, filter, false)
    requires NoWildcards(uuid) && forall i :: 0 <= i < |SplitTopic(bases.goster)| ==>
             NoWildcards(SplitTopic(bases.goster)[i])
    ensures NoWildcards(filter)
  {
    forall c | c == '+' || c == '#' ensures !HasChar(filter, c) {
      WildcardAbsent(bases, uuid, filter, c);
    }
  }

  lemma WildcardAbsent(bases: Bases, uuid: string, filter: string, c: char)
    requires c == '+' || c == '#'
    requires AllowedTopic(bases, uuid, filter, false) && !HasChar(uuid, c)
    requires forall i :: 0 <= i < |SplitTopic(bases.goster)| ==> !HasChar(SplitTopic(bases.goster)[i], c)
    ensures !HasChar(filter, c)
  {
    hide CleanTopic, HasChar, AllowedTopic, Levels;
    var clean := CleanTopic(CleanTopic(filter));
    if HasChar(filter, c) {
      CleanKeeps(filter, c);
      CleanKeeps(CleanTopic(filter), c);
      NotEmpty(clean, c);
      CharInLevels(clean, c);
      var k :| 0 <= k < |Levels(clean)| && HasChar(Levels(clean)[k], c);
      PlainLevels(bases, uuid, filter, c, k);
    }
  }

  lemma NotEmpty(s: string, c: char)
    requires HasChar(s, c)
    ensures s != ""
  {
  }

  // ---------------------------------------------------------------- matching without wildcards

  lemma {:induction false} PlainLevelsMatch(filter: seq<string>, topic: seq<string>)
    requires forall i :: 0 <= i < |filter| ==> filter[i] != "+" && filter[i] != "#"
    ensures LevelsMatch(filter, topic) <==> filter == topic
    decreases filter
  {
    if filter != [] && topic != [] {
      PlainLevelsMatch(filter[1..], topic[1..]);
      assert filter == [filter[0]] + filter[1..] && topic == [topic[0]] + topic[1..];
    }
  }

  lemma {:induction false} LevelCharsInTopic(s: string, k: nat, c: char)
    requires k < |Levels(s)| && HasChar(Levels(s)[k], c)
    ensures HasChar(s, c)
    decreases |s|
  {
    if s != "" {
      var init, d := s[..|s| - 1], s[|s| - 1];
      var n := |Levels(init)| - 1;
      var level := Levels(s)[k];
      var j :| 0 <= j < |level| && level[j] == c;
      if d != '/' && k == n && j == |level| - 1 {
        assert s[|s| - 1] == c;
      } else {
        assert Levels(init)[k][j] == c;
        LevelCharsInTopic(init, k, c);
        var i :| 0 <= i < |init| && init[i] == c;
        assert s[i] == c;
      }
    }
  }

  /** A filter without wildcards matches only itself. */
  lemma PlainFilterMatches(filter: string, topic: string)
    requires NoWildcards(filter) && topic != ""
    ensures Matches(filter, topic) <==> filter == topic
  {
    forall i | 0 <= i < |Levels(filter)| ensures Levels(filter)[i] != "+" && Levels(filter)[i] != "#" {
      if HasChar(Levels(filter)[i], '+') {
        LevelCharsInTopic(filter, i, '+');
      }
      if HasChar(Levels(filter)[i], '#') {
        LevelCharsInTopic(filter, i, '#');
      }
      OneCharHas('+');
      OneCharHas('#');
    }
    PlainLevelsMatch(Levels(filter), Levels(topic));
    LevelsJoin(filter);
    LevelsJoin(topic);
    if filter != "" {
      FirstPlain(filter);
    }
    hide Levels, LevelsMatch, HasChar;
  }

  lemma OneCharHas(c: char)
    ensures HasChar([c], c)
  {
    assert [c][0] == c;
  }

  lemma FirstPlain(filter: string)
    requires NoWildcards(filter) && filter != ""
    ensures filter[0] != '+' && filter[0] != '#'
  {
  }
}
