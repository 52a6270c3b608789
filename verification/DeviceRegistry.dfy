/**
 * Device identity and lifecycle, with a cache of accepted tokens over the devices table. Each operation
 * is one step; tokens drawn from the random generator are parameters.
 */
module DeviceRegistry {
  import opened Wrappers
  import opened Text
  import opened DeviceTable
  import CommandStore

  type Cache = map<string, string>

  datatype Registry = Registry(rows: Rows, cache: Cache)

  const EMPTY_REGISTRY := Registry(map[], map[])

  datatype AuthError =
    | InvalidToken
    | DevicePending(uuid: string)
    | DeviceRefused(uuid: string)
    | DeviceUnknown(uuid: string)

  datatype RegistryError = AlreadyExists | Table(e: TableError)

  // ---------------------------------------------------------------- what each operation does

  /** Without any cache: the row that has the token decides. */
  ghost function Lookup(rows: Rows, token: string): Result<string, AuthError> {
    if !Known(rows, token) then Err(InvalidToken)
    else
      var u :| Carries(rows, u, token);
      Judged(u, rows[u].status)
  }

  function Judged(uuid: string, status: AuthStatus): Result<string, AuthError> {
    match status
    case Authenticated => Ok(uuid)
    case Pending => Err(DevicePending(uuid))
    case Refuse => Err(DeviceRefused(uuid))
    case _ => Err(DeviceUnknown(uuid))
  }

  ghost function AfterAuthenticate(r: Registry, token: string): (result: (Registry, Result<string, AuthError>)) {
    if token in r.cache then (r, Ok(r.cache[token]))
    else
      var found := Lookup(r.rows, token);
      (if found.Ok? then r.(cache := r.cache[token := found.value]) else r, found)
  }

  /** The cache after the token of a device is forgotten. */
  function Forgotten(r: Registry, uuid: string): Cache {
    if uuid in r.rows && r.rows[uuid].token.Some? then r.cache - {r.rows[uuid].token.value} else r.cache
  }

  function NewToken(row: DeviceRow, status: AuthStatus, drawn: string): string {
    match status
    case Authenticated => drawn
    case Unknown => row.token.GetOr("")
    case _ => ""
  }

  function AfterUpdateStatus(r: Registry, uuid: string, status: AuthStatus,
                             drawn: string): (result: (Registry, Result<string, RegistryError>))
  {
    if uuid !in r.rows then (r, Err(Table(DeviceNotFound)))
    else
      var token := NewToken(r.rows[uuid], status, drawn);
      match AfterWrite(r.rows, uuid, r.rows[uuid].(status := status, token := NullableToken(token)))
      case Ok(rows) => (Registry(rows, Forgotten(r, uuid)), Ok(token))
      case Err(e) => (r.(cache := Forgotten(r, uuid)), Err(Table(e)))
  }

  function AfterRefresh(r: Registry, uuid: string, drawn: string): (result: (Registry, Result<(), RegistryError>)) {
    if uuid !in r.rows then (r, Err(Table(DeviceNotFound)))
    else
      match AfterWrite(r.rows, uuid, r.rows[uuid].(token := NullableToken(drawn)))
      case Ok(rows) => (Registry(rows, Forgotten(r, uuid)), Ok(()))
      case Err(e) => (r.(cache := Forgotten(r, uuid)), Err(Table(e)))
  }

  function AfterRegister(r: Registry, uuid: string, info: string): (result: (Registry, Result<(), RegistryError>)) {
    match AfterInsert(r.rows, uuid, DeviceRow(CommandStore.DEFAULT_TENANT, Pending, None, info))
    case Ok(rows) => (r.(rows := rows), Ok(()))
    case Err(e) => (r, Err(Table(e)))
  }

  function AfterProvision(r: Registry, tenantId: string, uuid: string, info: string, drawn: string)
    : (result: (Registry, Result<(string, string), RegistryError>))
  {
    if uuid in r.rows then (r, Err(AlreadyExists))
    else
      match AfterInsert(r.rows, uuid,
                        DeviceRow(CommandStore.NormalizeTenant(tenantId), Authenticated, NullableToken(drawn), info))
      case Ok(rows) => (r.(rows := rows), Ok((uuid, drawn)))
      case Err(e) => (r, Err(Table(e)))
  }

  function AfterDelete(r: Registry, uuid: string): (result: (Registry, Result<(), RegistryError>)) {
    if uuid !in r.rows then (r, Err(Table(DeviceNotFound)))
    else (Registry(r.rows - {uuid}, Forgotten(r, uuid)), Ok(()))
  }

  // ---------------------------------------------------------------- the service object

  class DeviceRegistryService {
    const store: DeviceRepository
    var tokenCache: Cache

    constructor (store: DeviceRepository)
      ensures this.store == store && tokenCache == map[]
    {
      this.store := store;
      tokenCache := map[];
    }

    function State(): Registry
      reads this, store
    {
      Registry(store.rows, tokenCache)
    }

    method Authenticate(token: string) returns (r: Result<string, AuthError>)
      requires TokensUnique(store.rows)
      modifies this
      ensures (State(), r) == AfterAuthenticate(old(State()), token)
    {
      if token in tokenCache {
        return Ok(tokenCache[token]);
      }
      var found := store.GetDeviceByToken(token);
      if found.Err? {
        return Err(InvalidToken);
      }
      var (uuid, status) := found.value;
      FoundIsLookup(store.rows, uuid, token);
      if status == Authenticated {
        tokenCache := tokenCache[token := uuid];
        return Ok(uuid);
      }
      match status {
        case Pending => return Err(DevicePending(uuid));
        case Refuse => return Err(DeviceRefused(uuid));
        case _ => return Err(DeviceUnknown(uuid));
      }
    }

    method Forget(token: Option<string>)
      modifies this
      ensures tokenCache == if token.Some? then old(tokenCache) - {token.value} else old(tokenCache)
    {
      if token.Some? {
        tokenCache := tokenCache - {token.value};
      }
    }

    method UpdateDeviceAuthenticateStatus(uuid: string, status: AuthStatus, drawn: string)
      returns (r: Result<string, RegistryError>)
      modifies this, store
      ensures (State(), r) == AfterUpdateStatus(old(State()), uuid, status, drawn)
    {
      hide NullableToken, AfterWrite;
      var loaded := store.LoadConfig(uuid);
      if loaded.Err? {
        return Err(Table(loaded.error));
      }
      var meta := loaded.value;
      Forget(meta.token);
      var token := meta.token.GetOr("");
      match status {
        case Authenticated => token := drawn;
        case Unknown =>
        case _ => token := "";
      }
      var saved := store.SaveMetadata(uuid, meta.(status := status, token := NullableToken(token)));
      if saved.Err? {
        return Err(Table(saved.error));
      }
      return Ok(token);
    }

    method RefreshToken(uuid: string, drawn: string) returns (r: Result<(), RegistryError>)
      modifies this, store
      ensures (State(), r) == AfterRefresh(old(State()), uuid, drawn)
    {
      var loaded := store.LoadConfig(uuid);
      if loaded.Ok? {
        Forget(loaded.value.token);
      }
      var updated := store.UpdateToken(uuid, drawn);
      return if updated.Ok? then Ok(()) else Err(Table(updated.error));
    }

    method RegisterDevice(uuid: string, info: string) returns (r: Result<(), RegistryError>)
      modifies store
      ensures (State(), r) == AfterRegister(old(State()), uuid, info)
    {
      var done := store.InitDevice(uuid, DeviceRow(CommandStore.DEFAULT_TENANT, Pending, None, info));
      return if done.Ok? then Ok(()) else Err(Table(done.error));
    }

    method ProvisionDevice(tenantId: string, uuid: string, info: string, drawn: string)
      returns (r: Result<(string, string), RegistryError>)
      modifies store
      ensures (State(), r) == AfterProvision(old(State()), tenantId, uuid, info, drawn)
    {
      var loaded := store.LoadConfig(uuid);
      if loaded.Ok? {
        return Err(AlreadyExists);
      }
      var row := DeviceRow(CommandStore.NormalizeTenant(tenantId), Authenticated, NullableToken(drawn), info);
      var done := store.InitDevice(uuid, row);
      return if done.Ok? then Ok((uuid, drawn)) else Err(Table(done.error));
    }

    method DeleteDevice(uuid: string) returns (r: Result<(), RegistryError>)
      modifies this, store
      ensures (State(), r) == AfterDelete(old(State()), uuid)
    {
      var loaded := store.LoadConfig(uuid);
      if loaded.Ok? {
        Forget(loaded.value.token);
      }
      var done := store.DestroyDevice(uuid);
      assert uuid !in old(store.rows) ==> store.rows == old(store.rows);
      return if done.Ok? then Ok(()) else Err(Table(done.error));
    }
  }

  // ---------------------------------------------------------------- runs

  datatype Op =
    | Register(uuid: string, info: string)
    | Provision(tenantId: string, uuid: string, info: string, drawn: string)
    | Authenticate(token: string)
    | UpdateStatus(uuid: string, status: AuthStatus, drawn: string)
    | Refresh(uuid: string, drawn: string)
    | Delete(uuid: string)

  ghost function Next(r: Registry, op: Op): Registry {
    match op
    case Register(uuid, info) => AfterRegister(r, uuid, info).0
    case Provision(tenantId, uuid, info, drawn) => AfterProvision(r, tenantId, uuid, info, drawn).0
    case Authenticate(token) => AfterAuthenticate(r, token).0
    case UpdateStatus(uuid, status, drawn) => AfterUpdateStatus(r, uuid, status, drawn).0
    case Refresh(uuid, drawn) => AfterRefresh(r, uuid, drawn).0
    case Delete(uuid) => AfterDelete(r, uuid).0
  }

  ghost function Run(r: Registry, ops: seq<Op>): Registry
    decreases ops
  {
    if ops == [] then r else Run(Next(r, ops[0]), ops[1..])
  }

  /** Every cached token is the present token of an authenticated device. */
  ghost predicate Coherent(r: Registry) {
    && TokensUnique(r.rows)
    && (forall u :: u in r.rows && r.rows[u].token.Some? ==> NullableToken(r.rows[u].token.value) == r.rows[u].token)
    && (forall t :: t in r.cache ==> Carries(r.rows, r.cache[t], t) && r.rows[r.cache[t]].status == Authenticated)
  }

  lemma FoundIsLookup(rows: Rows, uuid: string, token: string)
    requires TokensUnique(rows) && Carries(rows, uuid, token)
    ensures Lookup(rows, token) == Judged(uuid, rows[uuid].status)
  {
  }

  lemma StoredTwice(token: string)
    ensures NullableToken(token).Some? ==> NullableToken(NullableToken(token).value) == NullableToken(token)
  {
    TrimIsTrimmed(token);
  }

  /** A device whose old token left the cache may get any row at all. */
  lemma RewriteKeepsCoherence(r: Registry, uuid: string, row: DeviceRow)
    requires Coherent(r) && uuid in r.rows
    requires row.token.Some? ==> NullableToken(row.token.value) == row.token
    ensures match AfterWrite(r.rows, uuid, row)
            case Ok(rows) => Coherent(Registry(rows, Forgotten(r, uuid)))
            case Err(_) => Coherent(r.(cache := Forgotten(r, uuid)))
  {
    hide NullableToken;
    ForgottenPointsElsewhere(r, uuid);
    hide Forgotten;
  }

  lemma ForgottenPointsElsewhere(r: Registry, uuid: string)
    requires Coherent(r) && uuid in r.rows
    ensures forall t :: t in Forgotten(r, uuid) ==>
              t in r.cache && Forgotten(r, uuid)[t] == r.cache[t] && r.cache[t] != uuid
  {
    hide NullableToken;
  }

  lemma InsertKeepsCoherence(r: Registry, uuid: string, row: DeviceRow)
    requires Coherent(r) && (row.token.Some? ==> NullableToken(row.token.value) == row.token)
    ensures AfterInsert(r.rows, uuid, row).Ok? ==> Coherent(r.(rows := AfterInsert(r.rows, uuid, row).value))
  {
    hide NullableToken;
  }

  lemma StepKeepsCoherence(r: Registry, op: Op)
    requires Coherent(r)
    ensures Coherent(Next(r, op))
  {
    match op {
      case Register(uuid, info) =>
        InsertKeepsCoherence(r, uuid, DeviceRow(CommandStore.DEFAULT_TENANT, Pending, None, info));
      case Provision(tenantId, uuid, info, drawn) =>
        StoredTwice(drawn);
        var row := DeviceRow(CommandStore.NormalizeTenant(tenantId), Authenticated, NullableToken(drawn), info);
        InsertKeepsCoherence(r, uuid, row);
      case Authenticate(token) =>
        AuthenticateKeepsCoherence(r, token);
      case UpdateStatus(uuid, status, drawn) =>
        if uuid in r.rows {
          var token := NewToken(r.rows[uuid], status, drawn);
          StoredTwice(token);
          RewriteKeepsCoherence(r, uuid, r.rows[uuid].(status := status, token := NullableToken(token)));
        }
      case Refresh(uuid, drawn) =>
        if uuid in r.rows {
          StoredTwice(drawn);
          RewriteKeepsCoherence(r, uuid, r.rows[uuid].(token := NullableToken(drawn)));
        }
      case Delete(uuid) =>
        DeleteKeepsCoherence(r, uuid);
    }
  }

  lemma AuthenticateKeepsCoherence(r: Registry, token: string)
    requires Coherent(r)
    ensures Coherent(AfterAuthenticate(r, token).0) && AfterAuthenticate(r, token).1 == Lookup(r.rows, token)
  {
    hide NullableToken, Lookup;
    if token in r.cache {
      FoundIsLookup(r.rows, r.cache[token], token);
    } else if Known(r.rows, token) {
      var u :| Carries(r.rows, u, token);
      FoundIsLookup(r.rows, u, token);
    } else {
      UnknownToken(r.rows, token);
    }
  }

  lemma UnknownToken(rows: Rows, token: string)
    requires !Known(rows, token)
    ensures Lookup(rows, token) == Err(InvalidToken)
  {
  }

  lemma DeleteKeepsCoherence(r: Registry, uuid: string)
    requires Coherent(r)
    ensures Coherent(AfterDelete(r, uuid).0)
  {
    hide NullableToken;
  }

  lemma {:induction false} RunKeepsCoherence(r: Registry, ops: seq<Op>)
    requires Coherent(r)
    ensures Coherent(Run(r, ops))
    decreases ops
  {
    hide Coherent, Next;
    if ops != [] {
      StepKeepsCoherence(r, ops[0]);
      RunKeepsCoherence(Next(r, ops[0]), ops[1..]);
    }
  }

  /**
   * The cache is invisible: after any operations, even ones that failed halfway on a taken token,
   * authenticating with any string gives exactly what the table alone would say.
   */
  lemma CacheIsInvisible(ops: seq<Op>, token: string)
    ensures AfterAuthenticate(Run(EMPTY_REGISTRY, ops), token).1 == Lookup(Run(EMPTY_REGISTRY, ops).rows, token)
  {
    RunKeepsCoherence(EMPTY_REGISTRY, ops);
    hide Coherent, Run, Lookup, AfterAuthenticate;
    AuthenticateKeepsCoherence(Run(EMPTY_REGISTRY, ops), token);
  }

  // ---------------------------------------------------------------- retired tokens

  /** The token an operation draws, as it would be stored. */
  function Drawn(op: Op): Option<string> {
    match op
    case Provision(_, _, _, drawn) => NullableToken(drawn)
    case UpdateStatus(_, status, drawn) => if status == Authenticated then NullableToken(drawn) else None
    case Refresh(_, drawn) => NullableToken(drawn)
    case _ => None
  }

  function UsedAfter(used: set<string>, op: Op): set<string> {
    if Drawn(op).Some? then used + {Drawn(op).value} else used
  }

  function AllUsedAfter(used: set<string>, ops: seq<Op>): set<string>
    decreases ops
  {
    if ops == [] then used else AllUsedAfter(UsedAfter(used, ops[0]), ops[1..])
  }

  predicate IsFresh(used: set<string>, op: Op) {
    Drawn(op).Some? ==> Drawn(op).value !in used
  }

  /** The generator never draws a token twice. */
  predicate FreshRun(used: set<string>, ops: seq<Op>)
    decreases ops
  {
    ops != [] ==> IsFresh(used, ops[0]) && FreshRun(UsedAfter(used, ops[0]), ops[1..])
  }

  ghost predicate AllUsed(r: Registry, used: set<string>) {
    forall t :: Known(r.rows, t) ==> t in used
  }

  /** A token in the table was there before, on the same device, or was drawn just now. */
  lemma RowOfStep(r: Registry, op: Op, u: string, t: string)
    requires Coherent(r) && Carries(Next(r, op).rows, u, t)
    ensures Carries(r.rows, u, t) || Drawn(op) == Some(t)
  {
    NullableBlank();
    hide TrimSpace, Lookup, NullableToken;
  }

  lemma NullableBlank()
    ensures NullableToken("") == None
  {
  }

  lemma TokensOfStep(r: Registry, op: Op, t: string)
    requires Coherent(r) && Known(Next(r, op).rows, t)
    ensures Known(r.rows, t) || Drawn(op) == Some(t)
  {
    hide Coherent, Drawn, Next;
    var u :| Carries(Next(r, op).rows, u, t);
    RowOfStep(r, op, u, t);
  }

  /** t was handed out once, and no device has it any more. */
  ghost predicate Retired(r: Registry, used: set<string>, t: string) {
    t in used && !Known(r.rows, t)
  }

  /** The operations that take a device's token away. */
  predicate Retires(op: Op, uuid: string) {
    match op
    case UpdateStatus(u, status, _) => u == uuid && status != Unknown
    case Refresh(u, _) => u == uuid
    case Delete(u) => u == uuid
    case _ => false
  }

  /** A token is retired by exactly a refresh, a deletion, or a change of status to anything but unknown. */
  lemma RetiredExactly(r: Registry, used: set<string>, op: Op, uuid: string, t: string)
    requires Coherent(r) && AllUsed(r, used) && IsFresh(used, op) && Carries(r.rows, uuid, t)
    ensures Retired(Next(r, op), UsedAfter(used, op), t) <==> Retires(op, uuid)
  {
    assert t in used;
    if Retires(op, uuid) {
      RetiringTakes(r, used, op, uuid, t);
    } else {
      OthersKeep(r, op, uuid, t);
    }
  }

  lemma OthersKeep(r: Registry, op: Op, uuid: string, t: string)
    requires Coherent(r) && Carries(r.rows, uuid, t) && !Retires(op, uuid)
    ensures Carries(Next(r, op).rows, uuid, t)
  {
    hide TrimSpace, Lookup, NullableToken;
  }

  lemma RetiringTakes(r: Registry, used: set<string>, op: Op, uuid: string, t: string)
    requires Coherent(r) && AllUsed(r, used) && IsFresh(used, op) && Carries(r.rows, uuid, t) && Retires(op, uuid)
    ensures !Known(Next(r, op).rows, t)
  {
    assert t in used && Drawn(op) != Some(t);
    if Known(Next(r, op).rows, t) {
      var u :| Carries(Next(r, op).rows, u, t);
      RowOfStep(r, op, u, t);
      assert u == uuid;
      OwnerLoses(r, used, op, uuid, t);
    }
  }

  lemma OwnerLoses(r: Registry, used: set<string>, op: Op, uuid: string, t: string)
    requires Coherent(r) && AllUsed(r, used) && IsFresh(used, op) && Carries(r.rows, uuid, t) && Retires(op, uuid)
    ensures !Carries(Next(r, op).rows, uuid, t)
  {
    assert t in used;
    NothingTaken(r, used, uuid, Drawn(op));
    hide NullableToken, Coherent, AllUsed, Taken, Next;
    match op {
      case UpdateStatus(_, status, drawn) =>
        StatusTakesToken(r, uuid, status, drawn, t);
      case Refresh(_, drawn) =>
        RefreshTakesToken(r, uuid, drawn, t);
      case Delete(_) =>
        DeleteTakesToken(r, uuid, t);
    }
  }

  lemma StatusTakesToken(r: Registry, uuid: string, status: AuthStatus, drawn: string, t: string)
    requires Carries(r.rows, uuid, t) && status != Unknown
    requires status == Authenticated ==> NullableToken(drawn) != Some(t) && !Taken(r.rows, uuid, NullableToken(drawn))
    ensures !Carries(Next(r, UpdateStatus(uuid, status, drawn)).rows, uuid, t)
  {
    NullableBlank();
    hide NullableToken;
  }

  lemma RefreshTakesToken(r: Registry, uuid: string, drawn: string, t: string)
    requires Carries(r.rows, uuid, t) && NullableToken(drawn) != Some(t) && !Taken(r.rows, uuid, NullableToken(drawn))
    ensures !Carries(Next(r, Refresh(uuid, drawn)).rows, uuid, t)
  {
    hide NullableToken;
  }

  lemma DeleteTakesToken(r: Registry, uuid: string, t: string)
    ensures !Carries(Next(r, Delete(uuid)).rows, uuid, t)
  {
  }

  lemma NothingTaken(r: Registry, used: set<string>, uuid: string, token: Option<string>)
    requires AllUsed(r, used) && (token.Some? ==> token.value !in used)
    ensures !Taken(r.rows, uuid, token)
  {
    if Taken(r.rows, uuid, token) {
      var u :| u in r.rows && u != uuid && r.rows[u].token == token;
      assert Carries(r.rows, u, token.value);
    }
  }

  lemma StepKeepsUsed(r: Registry, used: set<string>, op: Op)
    requires Coherent(r) && AllUsed(r, used)
    ensures AllUsed(Next(r, op), UsedAfter(used, op))
  {
    hide Coherent, Known, Next, Drawn;
    forall t | Known(Next(r, op).rows, t) ensures t in UsedAfter(used, op) {
      TokensOfStep(r, op, t);
    }
  }

  lemma {:induction false} RetiredForever(r: Registry, used: set<string>, ops: seq<Op>, t: string)
    requires Coherent(r) && Retired(r, used, t) && FreshRun(used, ops)
    ensures !Known(Run(r, ops).rows, t) && Coherent(Run(r, ops))
    decreases ops
  {
    hide Coherent, Known, Next, Drawn;
    if ops != [] {
      var op := ops[0];
      StepKeepsCoherence(r, op);
      if Known(Next(r, op).rows, t) {
        TokensOfStep(r, op, t);
      }
      RetiredForever(Next(r, op), UsedAfter(used, op), ops[1..], t);
    }
  }

  lemma {:induction false} RunKeepsUsed(r: Registry, used: set<string>, ops: seq<Op>)
    requires Coherent(r) && AllUsed(r, used)
    ensures Coherent(Run(r, ops)) && AllUsed(Run(r, ops), AllUsedAfter(used, ops))
    decreases ops
  {
    hide Coherent, AllUsed, Next, UsedAfter;
    if ops != [] {
      StepKeepsCoherence(r, ops[0]);
      StepKeepsUsed(r, used, ops[0]);
      RunKeepsUsed(Next(r, ops[0]), UsedAfter(used, ops[0]), ops[1..]);
    }
  }

  /**
   * Once a refresh, a rejection, an unblocking, a revocation, a new approval or a deletion took a
   * token from its device, no later operations whatever make that token authenticate again.
   */
  lemma RetiredTokensStayDead(before: seq<Op>, op: Op, later: seq<Op>, uuid: string, t: string)
    requires Carries(Run(EMPTY_REGISTRY, before).rows, uuid, t) && Retires(op, uuid)
    requires FreshRun(AllUsedAfter({}, before), [op] + later)
    ensures var end := Run(Next(Run(EMPTY_REGISTRY, before), op), later);
            AfterAuthenticate(end, t) == (end, Err(InvalidToken))
  {
    var r, used := Run(EMPTY_REGISTRY, before), AllUsedAfter({}, before);
    NobodyKnown();
    RunKeepsUsed(EMPTY_REGISTRY, {}, before);
    assert ([op] + later)[1..] == later;
    RetiredExactly(r, used, op, uuid, t);
    StepKeepsCoherence(r, op);
    RetiredForever(Next(r, op), UsedAfter(used, op), later, t);
    var end := Run(Next(r, op), later);
    UnknownToken(end.rows, t);
    AuthenticateKeepsCoherence(end, t);
    assert t !in end.cache;
  }

  lemma NobodyKnown()
    ensures Coherent(EMPTY_REGISTRY) && AllUsed(EMPTY_REGISTRY, {})
  {
  }
}
