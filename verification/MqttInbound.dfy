/** An inbound MQTT message on its way to the core, and the identity it is forwarded under. */
module MqttInbound {
  import opened Wrappers
  import opened Text
  import opened Commands
  import opened MqttTopics

  /** A published message with the identity of the connection it came from. */
  datatype Inbound = Inbound(topic: string, clientId: string, authUuid: string, authTenant: string)

  /** The strings that the payload gives for a device uuid and for a token; empty if it gives none. */
  datatype PayloadNames = PayloadNames(uuid: string, token: string)

  /** The core's answer to a token found in a payload. */
  datatype TokenAnswer = TokenAccepted(uuid: string, tenantId: string) | TokenRejected

  datatype InboundError =
    | EmptyTopic | NoSuchBase | LevelsMissing | BridgeTopic
    | TopicMismatch | TokenRefused | TokenUuidMismatch | TokenTenantMismatch

  /** Whom an event is about. */
  datatype Subject = Subject(
    uuid: string, tenantId: string, tenantHint: string,
    identity: Identity, identities: seq<Identity>, deviceUuid: string)

  function FirstTrimmed(a: string, b: string): string {
    if TrimSpace(a) != "" then TrimSpace(a) else TrimSpace(b)
  }

  /** strings.EqualFold on ASCII */
  predicate EqualFold(a: string, b: string) {
    ToLower(a) == ToLower(b)
  }

  predicate Lists(items: seq<Identity>, kind: string, value: string) {
    exists i :: 0 <= i < |items| && EqualFold(TrimSpace(items[i].kind), kind) && TrimSpace(items[i].value) == value
  }

  function Appended(items: seq<Identity>, item: Identity): seq<Identity> {
    var kind, value := TrimSpace(item.kind), TrimSpace(item.value);
    if kind == "" || value == "" || Lists(items, kind, value) then items else items + [Identity(kind, value)]
  }

  function UuidIdentity(uuid: string): Identity {
    Identity("uuid", uuid)
  }

  // ---------------------------------------------------------------- mapping

  /** A payload may name another device than the topic does, and then it wins here. */
  function MappedGoster(rest: seq<string>, names: PayloadNames): Result<Subject, InboundError> {
    if |rest| < 2 || TrimSpace(rest[0]) == "" || TrimSpace(rest[1]) == "" then Err(LevelsMissing)
    else
      var uuid := if names.uuid != "" then names.uuid else TrimSpace(rest[0]);
      Ok(Subject(uuid, "", "", UuidIdentity(uuid), [UuidIdentity(uuid)], uuid))
  }

  /** `external` is the uuid derived from the friendly name. */
  function MappedZigbee(rest: seq<string>, topic: string, external: string): Result<Subject, InboundError> {
    if rest == [] || rest[0] == "" then Err(LevelsMissing)
    else if rest[0] == "bridge" then Err(BridgeTopic)
    else
      var identity := Identity("zigbee2mqtt_friendly_name", rest[0]);
      Ok(Subject(external, "", "", identity, [identity, Identity("mqtt_topic", topic)], external))
  }

  function Mapped(bases: Bases, msg: Inbound, names: PayloadNames, external: string): Result<Subject, InboundError> {
    var topic := CleanTopic(msg.topic);
    if topic == "" then Err(EmptyTopic)
    else
      match TopicRest(topic, bases.goster)
      case Some(rest) => MappedGoster(rest, names)
      case None =>
        match TopicRest(topic, bases.zigbee)
        case Some(rest) => MappedZigbee(rest, topic, external)
        case None => Err(NoSuchBase)
  }

  // ---------------------------------------------------------------- pinning

  function WithClient(items: seq<Identity>, msg: Inbound): seq<Identity> {
    if msg.clientId != "" then Appended(items, Identity("mqtt_client_id", msg.clientId)) else items
  }

  /** The connection's identity imposed on the event. */
  function Pinned(bases: Bases, msg: Inbound, s: Subject): Result<Subject, InboundError> {
    var uuid, tenant := TrimSpace(msg.authUuid), TrimSpace(msg.authTenant);
    if uuid == "" then Ok(s)
    else
      match TopicRest(CleanTopic(msg.topic), bases.goster)
      case Some(rest) =>
        if |rest| < 2 then Err(LevelsMissing)
        else if TrimSpace(rest[0]) != "" && TrimSpace(rest[0]) != uuid then Err(TopicMismatch)
        else
          Ok(Subject(uuid, FirstTrimmed(tenant, s.tenantId), FirstTrimmed(tenant, s.tenantHint), UuidIdentity(uuid),
                     WithClient(Appended(s.identities, UuidIdentity(uuid)), msg), uuid))
      case None =>
        Ok(s.(tenantId := if tenant != "" then FirstTrimmed(s.tenantId, tenant) else s.tenantId,
              tenantHint := if tenant != "" then FirstTrimmed(s.tenantHint, tenant) else s.tenantHint,
              identities := WithClient(s.identities, msg)))
  }

  function TokenError(msg: Inbound, answer: TokenAnswer): Option<InboundError> {
    if answer.TokenRejected? then Some(TokenRefused)
    else if msg.authUuid != "" && answer.uuid != "" && answer.uuid != msg.authUuid then Some(TokenUuidMismatch)
    else if msg.authTenant != "" && answer.tenantId != "" && answer.tenantId != msg.authTenant then
      Some(TokenTenantMismatch)
    else None
  }

  /** What an accepted token changes. */
  function WithToken(s: Subject, uuid: string, tenantId: string): Subject {
    var named := if uuid != "" then s.(uuid := uuid, identity := UuidIdentity(uuid), deviceUuid := uuid) else s;
    if tenantId != "" then named.(tenantId := tenantId, tenantHint := tenantId) else named
  }

  /** Only messages below the device base carry tokens. */
  function TokenOf(bases: Bases, msg: Inbound, names: PayloadNames): string {
    if TopicRest(CleanTopic(msg.topic), bases.goster).Some? then names.token else ""
  }

  /** Whom the message is forwarded about, or why it is not forwarded. */
  function Handled(bases: Bases, msg: Inbound, names: PayloadNames, external: string,
                   answer: TokenAnswer): Result<Subject, InboundError>
  {
    match Mapped(bases, msg, names, external)
    case Err(e) => Err(e)
    case Ok(s) =>
      match Pinned(bases, msg, s)
      case Err(e) => Err(e)
      case Ok(p) =>
        if TokenOf(bases, msg, names) == "" then Ok(p)
        else if TokenError(msg, answer).Some? then Err(TokenError(msg, answer).value)
        else Ok(WithToken(p, answer.uuid, answer.tenantId))
  }

  // ---------------------------------------------------------------- the imperative code

  class AdapterEvent {
    var uuid: string
    var tenantId: string
    var tenantHint: string
    var identity: Identity
    var identities: seq<Identity>
    var deviceUuid: string

    constructor (s: Subject)
      ensures State() == s
    {
      uuid, tenantId, tenantHint := s.uuid, s.tenantId, s.tenantHint;
      identity, identities, deviceUuid := s.identity, s.identities, s.deviceUuid;
    }

    function State(): Subject
      reads this
    {
      Subject(uuid, tenantId, tenantHint, identity, identities, deviceUuid)
    }

    method AppendIdentity(item: Identity)
      modifies this`identities
      ensures identities == Appended(old(identities), item)
    {
      hide TrimSpace, ToLower;
      var kind, value := TrimSpace(item.kind), TrimSpace(item.value);
      if kind == "" || value == "" {
        return;
      }
      for i := 0 to |identities|
        invariant identities == old(identities)
        invariant !Lists(identities[..i], kind, value)
      {
        if EqualFold(TrimSpace(identities[i].kind), kind) && TrimSpace(identities[i].value) == value {
          assert Lists(identities, kind, value);
          return;
        }
        assert identities[..i + 1] == identities[..i] + [identities[i]];
      }
      assert identities[..|identities|] == identities;
      identities := identities + [Identity(kind, value)];
    }

    method ApplyConnectionPrincipal(bases: Bases, msg: Inbound) returns (r: Result<(), InboundError>)
      modifies this
      ensures match Pinned(bases, msg, old(State()))
              case Ok(s) => r == Ok(()) && State() == s
              case Err(e) => r == Err(e)
    {
      hide TrimSpace, Appended, CleanTopic, TopicRest;
      if TrimSpace(msg.authUuid) == "" {
        return Ok(());
      }
      var authUuid := TrimSpace(msg.authUuid);
      var authTenant := TrimSpace(msg.authTenant);
      var rest := FindTopicRest(CleanTopic(msg.topic), bases.goster);
      if rest.Some? {
        if |rest.value| < 2 {
          return Err(LevelsMissing);
        }
        var topicUuid := TrimSpace(rest.value[0]);
        if topicUuid != "" && topicUuid != authUuid {
          return Err(TopicMismatch);
        }
        uuid := authUuid;
        tenantId := FirstTrimmed(authTenant, tenantId);
        tenantHint := FirstTrimmed(authTenant, tenantHint);
        identity := UuidIdentity(authUuid);
        AppendIdentity(UuidIdentity(authUuid));
        if msg.clientId != "" {
          AppendIdentity(Identity("mqtt_client_id", msg.clientId));
        }
        deviceUuid := authUuid;
        return Ok(());
      }
      if authTenant != "" {
        tenantId := FirstTrimmed(tenantId, authTenant);
        tenantHint := FirstTrimmed(tenantHint, authTenant);
      }
      if msg.clientId != "" {
        AppendIdentity(Identity("mqtt_client_id", msg.clientId));
      }
      return Ok(());
    }

    method ApplyToken(msg: Inbound, answer: TokenAnswer) returns (r: Result<(), InboundError>)
      modifies this
      ensures match TokenError(msg, answer)
              case Some(e) => r == Err(e)
              case None => r == Ok(()) && State() == WithToken(old(State()), answer.uuid, answer.tenantId)
    {
      if answer.TokenRejected? {
        return Err(TokenRefused);
      }
      if msg.authUuid != "" && answer.uuid != "" && answer.uuid != msg.authUuid {
        return Err(TokenUuidMismatch);
      }
      if msg.authTenant != "" && answer.tenantId != "" && answer.tenantId != msg.authTenant {
        return Err(TokenTenantMismatch);
      }
      if answer.uuid != "" {
        uuid := answer.uuid;
        identity := UuidIdentity(answer.uuid);
        deviceUuid := answer.uuid;
      }
      if answer.tenantId != "" {
        tenantId := answer.tenantId;
        tenantHint := answer.tenantId;
      }
      return Ok(());
    }
  }

  /** Forwards the message under the resulting event, or drops it. */
  method HandleMessage(bases: Bases, msg: Inbound, names: PayloadNames, external: string, answer: TokenAnswer)
    returns (r: Result<AdapterEvent, InboundError>)
    ensures match Handled(bases, msg, names, external, answer)
            case Ok(s) => r.Ok? && fresh(r.value) && r.value.State() == s
            case Err(e) => r.Err? && r.error == e
  {
    hide Mapped, Pinned, TokenError, WithToken, TokenOf;
    var mapped := Mapped(bases, msg, names, external);
    if mapped.Err? {
      return Err(mapped.error);
    }
    var event := new AdapterEvent(mapped.value);
    var pinned := event.ApplyConnectionPrincipal(bases, msg);
    if pinned.Err? {
      return Err(pinned.error);
    }
    if TokenOf(bases, msg, names) != "" {
      var authenticated := event.ApplyToken(msg, answer);
      if authenticated.Err? {
        return Err(authenticated.error);
      }
    }
    return Ok(event);
  }

  // ---------------------------------------------------------------- main result

  /** The uuid named in a payload stays on the list, first and beside the session's own. */
  function PublishedIdentities(msg: Inbound, names: PayloadNames): seq<Identity> {
    (if names.uuid == "" || TrimSpace(names.uuid) == msg.authUuid then
       [UuidIdentity(if names.uuid == "" then msg.authUuid else names.uuid)]
     else [UuidIdentity(names.uuid), UuidIdentity(msg.authUuid)])
    + (if TrimSpace(msg.clientId) == "" then [] else [Identity("mqtt_client_id", TrimSpace(msg.clientId))])
  }

  /**
   * Whatever device or token a payload names, a message that the broker let a session publish below the
   * device base is forwarded as the session's own device and tenant, or not at all; and it is forwarded
   * exactly if it carries no token or one that the core accepts for that same device and tenant. What
   * the payload can do is put its uuid on the list of further identities.
   */
  lemma PublishIsPinned(bases: Bases, msg: Inbound, names: PayloadNames, external: string, answer: TokenAnswer)
    requires Trimmed(msg.authUuid) && msg.authUuid != "" && Trimmed(msg.authTenant)
    requires AllowedTopic(bases, msg.authUuid, msg.topic, true) && TopicRest(CleanTopic(msg.topic), bases.goster).Some?
    ensures var r := Handled(bases, msg, names, external, answer);
            && (r.Ok? ==>
                  && r.value.uuid == msg.authUuid && r.value.deviceUuid == msg.authUuid
                  && r.value.identity == UuidIdentity(msg.authUuid)
                  && r.value.identities == PublishedIdentities(msg, names)
                  && (msg.authTenant != "" ==>
                        r.value.tenantId == msg.authTenant && r.value.tenantHint == msg.authTenant))
            && (r.Ok? <==>
                  || names.token == ""
                  || (&& answer.TokenAccepted? && (answer.uuid == "" || answer.uuid == msg.authUuid)
                      && (msg.authTenant == "" || answer.tenantId == "" || answer.tenantId == msg.authTenant)))
  {
    hide Mapped, Pinned, AllowedTopic, CleanTopic, TopicRest, Appended, WithClient, TrimSpace, PublishedIdentities;
    TrimOfTrimmed(msg.authUuid);
    TrimOfTrimmed(msg.authTenant);
    AllowedIsMapped(bases, msg, names, external);
    AllowedIsPinned(bases, msg, Mapped(bases, msg, names, external).value);
    IdentitiesBecome(msg, names);
  }

  lemma AllowedIsMapped(bases: Bases, msg: Inbound, names: PayloadNames, external: string)
    requires msg.authUuid != "" && AllowedTopic(bases, msg.authUuid, msg.topic, true)
    requires TopicRest(CleanTopic(msg.topic), bases.goster).Some?
    ensures Mapped(bases, msg, names, external).Ok?
    ensures var s := Mapped(bases, msg, names, external).value;
            && s.tenantId == "" == s.tenantHint
            && s.identities == [UuidIdentity(if names.uuid != "" then names.uuid else msg.authUuid)]
  {
    hide CleanTopic, TopicRest, TrimSpace, NormalizeKind;
    TopicNotEmpty(bases, msg.topic);
    UplinkKindNotEmpty(TopicRest(CleanTopic(msg.topic), bases.goster).value[1]);
  }

  lemma AllowedIsPinned(bases: Bases, msg: Inbound, s: Subject)
    requires TrimSpace(msg.authUuid) == msg.authUuid != "" && TrimSpace(msg.authTenant) == msg.authTenant
    requires AllowedTopic(bases, msg.authUuid, msg.topic, true) && TopicRest(CleanTopic(msg.topic), bases.goster).Some?
    ensures Pinned(bases, msg, s).Ok?
    ensures var p := Pinned(bases, msg, s).value;
            && p.uuid == msg.authUuid && p.deviceUuid == msg.authUuid && p.identity == UuidIdentity(msg.authUuid)
            && p.identities == WithClient(Appended(s.identities, UuidIdentity(msg.authUuid)), msg)
            && (msg.authTenant != "" ==> p.tenantId == msg.authTenant && p.tenantHint == msg.authTenant)
  {
    hide CleanTopic, TopicRest, TrimSpace, NormalizeKind, WithClient, Appended;
  }

  lemma IdentitiesBecome(msg: Inbound, names: PayloadNames)
    requires TrimSpace(msg.authUuid) == msg.authUuid != ""
    ensures var named := UuidIdentity(if names.uuid != "" then names.uuid else msg.authUuid);
            WithClient(Appended([named], UuidIdentity(msg.authUuid)), msg) == PublishedIdentities(msg, names)
  {
    KindNames();
    hide TrimSpace, ToLower;
    var uuid, client := UuidIdentity(msg.authUuid), Identity("mqtt_client_id", msg.clientId);
    var named := UuidIdentity(if names.uuid != "" then names.uuid else msg.authUuid);
    var items := Appended([named], uuid);
    assert Lists([named], "uuid", msg.authUuid) <==> TrimSpace(named.value) == msg.authUuid by {
      assert [named][0] == named;
    }
    assert items == [named] || items == [named] + [uuid];
    assert !Lists(items, "mqtt_client_id", TrimSpace(msg.clientId));
  }

  lemma KindNames()
    ensures TrimSpace("uuid") == "uuid" && TrimSpace("mqtt_client_id") == "mqtt_client_id" && TrimSpace("") == ""
    ensures |ToLower("uuid")| != |ToLower("mqtt_client_id")|
  {
    TrimOfTrimmed("uuid");
    TrimOfTrimmed("mqtt_client_id");
    TrimOfTrimmed("");
  }

  lemma TopicNotEmpty(bases: Bases, topic: string)
    requires TopicRest(CleanTopic(topic), bases.goster).Some?
    ensures CleanTopic(topic) != ""
  {
    NothingClean();
    hide CleanTopic, Levels;
  }

  lemma NothingClean()
    ensures CleanTopic("") == "" && ToLower("") == ""
  {
  }

  lemma BlankKind()
    ensures !IsUplinkKind(KnownKind(""))
  {
  }

  lemma UplinkKindNotEmpty(kind: string)
    requires IsUplinkKind(NormalizeKind(kind))
    ensures TrimSpace(kind) != ""
  {
    hide TrimSpace, ToLower, KnownKind, IsUplinkKind;
    NothingClean();
    BlankKind();
  }

  // ---------------------------------------------------------------- messages from elsewhere

  /**
   * A message of the bridge is forwarded for the device it names, under its friendly name and topic, with
   * the session's tenant and no other device's identity; only the bridge's own topics are dropped.
   */
  lemma BridgeIsForwarded(bases: Bases, msg: Inbound, names: PayloadNames, external: string, answer: TokenAnswer)
    requires Trimmed(msg.authUuid) && msg.authUuid != "" && Trimmed(msg.authTenant)
    requires TopicRest(CleanTopic(msg.topic), bases.goster).None?
    requires TopicRest(CleanTopic(msg.topic), bases.zigbee).Some?
    ensures var rest := TopicRest(CleanTopic(msg.topic), bases.zigbee).value;
            var r := Handled(bases, msg, names, external, answer);
            && (r.Ok? <==> rest != [] && rest[0] != "" && rest[0] != "bridge")
            && (r.Ok? ==>
                  && r.value.uuid == external && r.value.deviceUuid == external
                  && r.value.identity == Identity("zigbee2mqtt_friendly_name", rest[0])
                  && |r.value.identities| >= 2 && r.value.identities[0] == r.value.identity
                  && r.value.identities[1] == Identity("mqtt_topic", CleanTopic(msg.topic))
                  && r.value.tenantId == msg.authTenant && r.value.tenantHint == msg.authTenant)
  {
    TrimOfTrimmed(msg.authUuid);
    TrimOfTrimmed(msg.authTenant);
    BridgeTopicNotEmpty(bases, msg.topic);
    var rest := TopicRest(CleanTopic(msg.topic), bases.zigbee).value;
    hide CleanTopic, TopicRest, TrimSpace, Pinned;
    if rest != [] && rest[0] != "" && rest[0] != "bridge" {
      BridgePinned(bases, msg, Mapped(bases, msg, names, external).value);
    }
  }

  lemma BridgePinned(bases: Bases, msg: Inbound, s: Subject)
    requires TrimSpace(msg.authUuid) == msg.authUuid != "" && TrimSpace(msg.authTenant) == msg.authTenant
    requires TopicRest(CleanTopic(msg.topic), bases.goster).None? && s.tenantId == "" == s.tenantHint
    ensures var r := Pinned(bases, msg, s);
            && r.Ok? && r.value.uuid == s.uuid && r.value.deviceUuid == s.deviceUuid && r.value.identity == s.identity
            && s.identities <= r.value.identities
            && r.value.tenantId == msg.authTenant && r.value.tenantHint == msg.authTenant
  {
    assert TrimSpace("") == "" by {
      TrimOfTrimmed("");
    }
    hide CleanTopic, TopicRest, TrimSpace, Lists;
  }

  lemma BridgeTopicNotEmpty(bases: Bases, topic: string)
    requires TopicRest(CleanTopic(topic), bases.zigbee).Some?
    ensures CleanTopic(topic) != ""
  {
    NothingClean();
    hide CleanTopic, Levels;
  }

  /** Without an identity of its own a session's message goes by its token: as its device and its tenant. */
  lemma TokenDecides(bases: Bases, msg: Inbound, names: PayloadNames, external: string, answer: TokenAnswer)
    requires msg.authUuid == "" && TopicRest(CleanTopic(msg.topic), bases.goster).Some? && names.token != ""
    requires Mapped(bases, msg, names, external).Ok?
    ensures var r := Handled(bases, msg, names, external, answer);
            && (r.Ok? <==>
                  && answer.TokenAccepted?
                  && (msg.authTenant == "" || answer.tenantId == "" || answer.tenantId == msg.authTenant))
            && (r.Ok? && answer.uuid != "" ==>
                  && r.value.uuid == answer.uuid && r.value.deviceUuid == answer.uuid
                  && r.value.identity == UuidIdentity(answer.uuid))
            && (r.Ok? && answer.tenantId != "" ==>
                  r.value.tenantId == answer.tenantId && r.value.tenantHint == answer.tenantId)
  {
    TrimOfTrimmed("");
    hide CleanTopic, TopicRest, TrimSpace, Lists, Mapped;
  }
}
