/** A downlink published for one device reaches only sessions of that device. */
module MqttIsolation {
  import opened Wrappers
  import opened Text
  import opened MqttTopics

  predicate NoBrace(s: string) {
    forall i :: 0 <= i < |s| ==> s[i] != '{'
  }

  // ---------------------------------------------------------------- substitution

  lemma ReplaceStep(c: char, rest: string, key: string, value: string)
    requires c != '{' && IsPlaceholder(key)
    ensures ReplaceAll([c] + rest, key, value) == [c] + ReplaceAll(rest, key, value)
  {
    hide IsPlaceholder;
    var s := [c] + rest;
    assert s[1..] == rest;
    if |s| >= |key| {
      assert s[..|key|][0] == c != key[0];
    }
  }

  /** Text before the first brace is out of reach of any replacement. */
  lemma {:induction false} ReplaceSkips(a: string, rest: string, key: string, value: string)
    requires NoBrace(a) && IsPlaceholder(key)
    ensures ReplaceAll(a + rest, key, value) == a + ReplaceAll(rest, key, value)
    decreases a
  {
    hide ReplaceAll, IsPlaceholder;
    if a == "" {
      assert a + rest == rest;
    } else {
      ReplaceSkips(a[1..], rest, key, value);
      ReplaceStep(a[0], a[1..] + rest, key, value);
      assert [a[0]] + (a[1..] + rest) == a + rest;
      assert [a[0]] + (a[1..] + ReplaceAll(rest, key, value)) == a + ReplaceAll(rest, key, value);
    }
  }

  lemma ReplaceShort(s: string, key: string, value: string)
    requires IsPlaceholder(key) && |s| < |key|
    ensures ReplaceAll(s, key, value) == s
  {
  }

  lemma {:induction false} ReplaceNothing(s: string, key: string, value: string)
    requires NoBrace(s) && IsPlaceholder(key)
    ensures ReplaceAll(s, key, value) == s
  {
    ReplaceSkips(s, "", key, value);
    ReplaceShort("", key, value);
    assert s + "" == s;
  }

  /** No placeholder begins another. */
  lemma KeysDiffer(k: string, key: string) returns (i: nat)
    requires IsPlaceholder(k) && IsPlaceholder(key) && k != key
    ensures i < |k| && i < |key| && k[i] != key[i]
  {
    i := if k[1] != key[1] then 1 else 7;
  }

  lemma PlaceholderTail(k: string)
    requires IsPlaceholder(k)
    ensures k[0] == '{' && NoBrace(k[1..])
  {
  }

  /** The placeholder itself is replaced by its own key and by no other. */
  lemma ReplacePlaceholder(k: string, b: string, key: string, value: string)
    requires NoBrace(b) && IsPlaceholder(k) && IsPlaceholder(key)
    ensures ReplaceAll(k + b, key, value) == if key == k then value + b else k + b
  {
    PlaceholderTail(k);
    hide IsPlaceholder;
    var s := k + b;
    if key == k {
      assert s[..|key|] == key && s[|key|..] == b;
      ReplaceNothing(b, key, value);
    } else {
      var i := KeysDiffer(k, key);
      assert |s| >= |key| ==> s[..|key|][i] == k[i] != key[i];
      var tail := s[1..];
      assert tail == k[1..] + b;
      ReplaceNothing(tail, key, value);
      assert [s[0]] + tail == s;
    }
  }

  /** What stands for a placeholder: the device or its tenant. */
  predicate StandsFor(k: string, own: string, uuid: string, tenant: string) {
    own == if k == "{uuid}" || k == "{device_uuid}" then uuid else tenant
  }

  /** Replacing turns t into done under its own placeholder, and nothing else changes either of them. */
  ghost predicate TurnsInto(t: string, done: string, k: string, own: string) {
    && IsPlaceholder(k) && ReplaceAll(t, k, own) == done
    && (forall key, value :: IsPlaceholder(key) && key != k ==> ReplaceAll(t, key, value) == t)
    && (forall key, value :: IsPlaceholder(key) ==> ReplaceAll(done, key, value) == done)
  }

  lemma {:induction false} SubstitutedTurns(t: string, done: string, k: string, own: string, order: seq<string>,
                                            uuid: string, tenant: string)
    requires forall i :: 0 <= i < |order| ==> IsPlaceholder(order[i])
    requires TurnsInto(t, done, k, own) && Replacement(k, uuid, tenant) == own
    ensures Substituted(t, order, uuid, tenant) == if k in order then done else t
    decreases |order|
  {
    hide ReplaceAll, IsPlaceholder, Replacement;
    if order != [] {
      var n := |order| - 1;
      SubstitutedTurns(t, done, k, own, order[..n], uuid, tenant);
      assert k in order <==> k in order[..n] || order[n] == k;
    }
  }

  /** Whatever order the runtime picks, a template with one placeholder gets exactly the device or tenant there. */
  lemma {:induction false} SubstitutesOne(a: string, k: string, b: string, own: string, order: seq<string>,
                                          uuid: string, tenant: string)
    requires forall i :: 0 <= i < |order| ==> IsPlaceholder(order[i])
    requires IsPlaceholder(k) && StandsFor(k, own, uuid, tenant) && NoBrace(a) && NoBrace(b) && NoBrace(own)
    ensures Substituted(a + k + b, order, uuid, tenant) == if k in order then a + own + b else a + k + b
  {
    OwnReplacement(k, own, uuid, tenant);
    var t, done := a + k + b, a + own + b;
    ThreePlain(a, own, b);
    hide ReplaceAll, IsPlaceholder, Replacement, StandsFor, NoBrace, Substituted;
    OneReplaced(a, k, b, k, own);
    forall key, value | IsPlaceholder(key) && key != k ensures ReplaceAll(t, key, value) == t {
      OneReplaced(a, k, b, key, value);
    }
    forall key, value | IsPlaceholder(key) ensures ReplaceAll(done, key, value) == done {
      ReplaceNothing(done, key, value);
    }
    SubstitutedTurns(t, done, k, own, order, uuid, tenant);
  }

  lemma OneReplaced(a: string, k: string, b: string, key: string, value: string)
    requires NoBrace(a) && NoBrace(b) && IsPlaceholder(k) && IsPlaceholder(key)
    ensures ReplaceAll(a + k + b, key, value) == if key == k then a + value + b else a + k + b
  {
    hide ReplaceAll, IsPlaceholder, NoBrace;
    assert a + k + b == a + (k + b) && a + value + b == a + (value + b);
    ReplaceSkips(a, k + b, key, value);
    ReplacePlaceholder(k, b, key, value);
  }

  lemma OwnReplacement(k: string, own: string, uuid: string, tenant: string)
    requires StandsFor(k, own, uuid, tenant)
    ensures Replacement(k, uuid, tenant) == own
  {
  }

  lemma ThreePlain(a: string, own: string, b: string)
    requires NoBrace(a) && NoBrace(own) && NoBrace(b)
    ensures NoBrace(a + own + b)
  {
  }

  const UUID_KEY: string := "{uuid}"

  // ---------------------------------------------------------------- who reads a topic

  /** The session may subscribe to some filter that the topic matches. */
  ghost predicate Reads(bases: Bases, session: string, topic: string) {
    exists filter :: AllowedTopic(bases, session, filter, false) && Matches(filter, topic)
  }

  /** The topic lies two levels below the base: the session's uuid, then a level that means downlink. */
  predicate NamesReader(bases: Bases, session: string, topic: string) {
    var levels, base := SplitTopic(CleanTopic(topic)), SplitTopic(bases.goster);
    && base != [] && |levels| == |base| + 2 && levels[..|base|] == base
    && TrimSpace(levels[|base|]) == session && session != ""
    && NamesDownlink(levels[|base| + 1])
  }

  predicate PlainBase(base: string) {
    forall i :: 0 <= i < |SplitTopic(base)| ==> NoWildcards(SplitTopic(base)[i])
  }

  lemma NamedIsAllowed(bases: Bases, session: string, topic: string)
    requires NamesReader(bases, session, topic)
    ensures AllowedTopic(bases, session, topic, false) && topic != ""
  {
    KindIsDownlink(SplitTopic(CleanTopic(topic))[|SplitTopic(bases.goster)| + 1]);
    hide TrimSpace, NormalizeKind, Levels, NamesDownlink;
    assert CleanTopic("") == "" by {
      NothingClean();
    }
    hide CleanTopic;
  }

  lemma NothingClean()
    ensures CleanTopic("") == ""
  {
  }

  /** The names under which a device may report. */
  const UPLINK_NAMES: set<string> :=
    {"telemetry", "metrics", "metric", "heartbeat", "availability", "presence", "event", "events", "state", "status",
     "log", "logs", "ack", "acks", "command_ack", "receipt", "command_receipt"}

  /** The topic lies two levels below the base: the session's uuid, then a name under which devices report. */
  predicate NamesReporter(bases: Bases, session: string, topic: string) {
    var levels, base := SplitTopic(CleanTopic(topic)), SplitTopic(bases.goster);
    && |levels| == |base| + 2 && levels[..|base|] == base
    && TrimSpace(levels[|base|]) == session && session != ""
    && ToLower(TrimSpace(levels[|base| + 1])) in UPLINK_NAMES
  }

  predicate IsBelow(base: string, topic: string) {
    SplitTopic(base) != [] && SplitTopic(base) <= SplitTopic(CleanTopic(topic))
  }

  /**
   * Who may publish: below the device base a session may report under its own uuid and nothing else;
   * elsewhere every session may publish anywhere below the bridge base, and nobody anywhere else.
   */
  lemma TopicWriters(bases: Bases, session: string, topic: string)
    ensures AllowedTopic(bases, session, topic, true)
       <==> if IsBelow(bases.goster, topic) then NamesReporter(bases, session, topic) else IsBelow(bases.zigbee, topic)
  {
    var levels, base := SplitTopic(CleanTopic(topic)), SplitTopic(bases.goster);
    if IsBelow(bases.goster, topic) && |levels| >= |base| + 2 {
      assert TopicRest(CleanTopic(topic), bases.goster).value[1] == levels[|base| + 1];
      ReportingName(levels[|base| + 1]);
    }
    hide CleanTopic, SplitTopic, NormalizeKind, TrimSpace, ToLower, UPLINK_NAMES;
  }

  lemma ReportingName(kind: string)
    ensures IsUplinkKind(NormalizeKind(kind)) <==> ToLower(TrimSpace(kind)) in UPLINK_NAMES
  {
    hide TrimSpace, ToLower;
  }

  /** Whatever the topic, the only session that can receive it is the one its level below the base names. */
  lemma TopicReaders(bases: Bases, session: string, topic: string)
    requires PlainBase(bases.goster) && NoWildcards(session)
    ensures Reads(bases, session, topic) <==> NamesReader(bases, session, topic)
  {
    hide AllowedTopic, Matches, SplitTopic, CleanTopic, NormalizeKind, NamesDownlink, TrimSpace, NoWildcards, HasChar;
    if Reads(bases, session, topic) {
      var filter :| AllowedTopic(bases, session, filter, false) && Matches(filter, topic);
      SubscriptionsHaveNoWildcards(bases, session, filter);
      MatchedIsNotEmpty(filter, topic);
      PlainFilterMatches(filter, topic);
      SubscriptionLevels(bases, session, filter);
      KindIsDownlink(SplitTopic(CleanTopic(filter))[|SplitTopic(bases.goster)| + 1]);
    }
    if NamesReader(bases, session, topic) {
      NamedIsAllowed(bases, session, topic);
      SubscriptionsHaveNoWildcards(bases, session, topic);
      PlainFilterMatches(topic, topic);
    }
  }

  lemma MatchedIsNotEmpty(filter: string, topic: string)
    requires Matches(filter, topic)
    ensures topic != ""
  {
    hide LevelsMatch, Levels;
  }

  // ---------------------------------------------------------------- the topic of a downlink

  /** A base or an ending as the configuration should hold it: neat, and without placeholders. */
  predicate IsNeat(part: string) {
    part != "" && CleanTopic(part) == part && NoBrace(part)
  }

  function DownlinkTopic(base: string, uuid: string, ending: string): string {
    base + "/" + uuid + "/" + ending
  }

  lemma NeatEnds(part: string)
    requires part != "" && CleanTopic(part) == part
    ensures !IsSpace(part[0]) && part[0] != '/' && !IsSpace(part[|part| - 1]) && part[|part| - 1] != '/'
  {
    hide IsSpace, TrimSpace, TrimSlashes;
    var t := TrimSpace(part);
    var before, after := TrimParts(part);
    var before', after' := SlashParts(t);
    assert |part| == |before| + |t| + |after| && |t| == |before'| + |part| + |after'|;
    assert t == part;
  }

  lemma NothingToTrim(s: string)
    requires s != "" && !IsSpace(s[0]) && s[0] != '/' && !IsSpace(s[|s| - 1]) && s[|s| - 1] != '/'
    ensures TrimSlashes(s) == s && CleanTopic(s) == s
  {
    hide IsSpace;
    TrimOfTrimmed(s);
  }

  lemma TopicIsClean(base: string, uuid: string, ending: string)
    requires IsNeat(base) && IsNeat(ending)
    ensures var t := DownlinkTopic(base, uuid, ending); TrimSlashes(t) == t && CleanTopic(t) == t && t != ""
  {
    hide CleanTopic, TrimSlashes, IsSpace, NoBrace;
    NeatEnds(base);
    NeatEnds(ending);
    var t := DownlinkTopic(base, uuid, ending);
    assert t[0] == base[0] && t[|t| - 1] == ending[|ending| - 1];
    NothingToTrim(t);
  }

  lemma {:induction false} TopicLevels(base: string, uuid: string, ending: string)
    requires IsNeat(base) && IsNeat(ending)
    ensures SplitTopic(base) == Levels(base)
    ensures SplitTopic(CleanTopic(DownlinkTopic(base, uuid, ending))) == Levels(base) + Levels(uuid) + Levels(ending)
  {
    hide CleanTopic, Levels, NoBrace;
    TopicIsClean(base, uuid, ending);
    LevelsAppend(base + "/" + uuid, ending);
    LevelsAppend(base, uuid);
  }

  lemma RenderedIs(base: string, ending: string, order: seq<string>, uuid: string, tenant: string)
    requires forall i :: 0 <= i < |order| ==> IsPlaceholder(order[i])
    requires IsNeat(base) && IsNeat(ending) && NoBrace(uuid) && UUID_KEY in order
    ensures Rendered(DownlinkTopic(base, UUID_KEY, ending), order, uuid, tenant) == DownlinkTopic(base, uuid, ending)
  {
    hide TrimSlashes, TrimSpace, IsPlaceholder, Substituted, CleanTopic;
    TopicIsClean(base, uuid, ending);
    NotBlank(base, "/" + UUID_KEY + "/" + ending);
    var a, b := base + "/", "/" + ending;
    assert DownlinkTopic(base, UUID_KEY, ending) == a + UUID_KEY + b == base + ("/" + UUID_KEY + "/" + ending);
    assert DownlinkTopic(base, uuid, ending) == a + uuid + b;
    assert IsPlaceholder(UUID_KEY) && StandsFor(UUID_KEY, uuid, uuid, tenant);
    SubstitutesOne(a, UUID_KEY, b, uuid, order, uuid, tenant);
  }

  lemma NotBlank(base: string, rest: string)
    requires base != "" && CleanTopic(base) == base
    ensures TrimSpace(base + rest) != ""
  {
    hide CleanTopic, TrimSpace, IsSpace;
    NeatEnds(base);
    assert (base + rest)[0] == base[0];
    TrimSpaceKeeps(base + rest, base[0]);
  }

  lemma {:induction false} LevelOfWord(s: string)
    requires !HasChar(s, '/')
    ensures Levels(s) == [s]
    decreases |s|
  {
    if s != "" {
      var init := s[..|s| - 1];
      assert s[|s| - 1] != '/';
      LevelOfWord(init);
      assert init + [s[|s| - 1]] == s;
    }
  }

  // ---------------------------------------------------------------- main result

  /**
   * Isolation: a downlink rendered for a device from the template base/{uuid}/ending, under any order of
   * substitution, can be received by no session but the device's own, and by that one exactly if its
   * uuid is one level and the ending is a level that means downlink. With any other ending, such as
   * "cmd", nobody may subscribe to it.
   */
  lemma DownlinkReaders(bases: Bases, ending: string, order: seq<string>, uuid: string, tenant: string, session: string)
    requires forall i :: 0 <= i < |order| ==> IsPlaceholder(order[i])
    requires IsNeat(bases.goster) && IsNeat(ending) && PlainBase(bases.goster) && UUID_KEY in order
    requires NoBrace(uuid) && Trimmed(uuid) && NoWildcards(session)
    ensures Reads(bases, session, Rendered(DownlinkTopic(bases.goster, UUID_KEY, ending), order, uuid, tenant))
       <==> session == uuid && uuid != "" && !HasChar(uuid, '/') && NamesDownlink(ending)
  {
    hide Reads, CleanTopic, Levels, Rendered, NamesDownlink, TrimSpace, HasChar, NoBrace, IsPlaceholder, PlainBase,
         SplitTopic;
    RenderedIs(bases.goster, ending, order, uuid, tenant);
    TopicLevels(bases.goster, uuid, ending);
    TopicReaders(bases, session, DownlinkTopic(bases.goster, uuid, ending));
    TrimOfTrimmed(uuid);
    UuidLevels(uuid);
    EndingLevels(ending);
    var base, ids, ends := Levels(bases.goster), Levels(uuid), Levels(ending);
    assert (base + ids + ends)[..|base|] == base;
    assert (base + ids + ends)[|base|] == ids[0];
    assert |ids| == 1 ==> (base + ids + ends)[|base| + 1] == ends[0];
  }

  lemma UuidLevels(uuid: string)
    ensures |Levels(uuid)| == 1 <==> !HasChar(uuid, '/')
    ensures |Levels(uuid)| == 1 ==> Levels(uuid) == [uuid]
  {
    hide Levels, HasChar;
    if |Levels(uuid)| == 1 {
      NoSlashOneLevel(uuid);
      LevelHasNoSlash(uuid, 0);
    } else if !HasChar(uuid, '/') {
      LevelOfWord(uuid);
    }
  }

  lemma {:induction false} EndingLevels(ending: string)
    ensures |Levels(ending)| == 1 ==> Levels(ending) == [ending]
    ensures NamesDownlink(ending) ==> |Levels(ending)| == 1
  {
    hide Levels, HasChar, NormalizeKind, NamesDownlink;
    UuidLevels(ending);
    KindIsDownlink(ending);
    if NamesDownlink(ending) {
      DownlinkLevelIsPlain(ending, '/');
    }
  }
}
