/** What becomes of devices: who can authenticate, with which token, and what each operation writes. */
module DeviceLifecycle {
  import opened Wrappers
  import opened Text
  import opened DeviceTable
  import opened DeviceRegistry
  import CommandStore

  lemma {:induction false} ReachableCoherent(ops: seq<Op>)
    ensures Coherent(Run(EMPTY_REGISTRY, ops))
  {
    RunKeepsCoherence(EMPTY_REGISTRY, ops);
  }

  // ---------------------------------------------------------------- answers

  /**
   * Whatever happened before, a token is answered by the status of the one device that has it, and one
   * that no device has is invalid.
   */
  lemma AnswersTellStatus(ops: seq<Op>, uuid: string, t: string)
    ensures var r := Run(EMPTY_REGISTRY, ops);
            var answer := AfterAuthenticate(r, t).1;
            && (Carries(r.rows, uuid, t) ==>
                  && (answer == Ok(uuid) <==> r.rows[uuid].status == Authenticated)
                  && (answer == Err(DevicePending(uuid)) <==> r.rows[uuid].status == Pending)
                  && (answer == Err(DeviceRefused(uuid)) <==> r.rows[uuid].status == Refuse)
                  && (answer == Err(DeviceUnknown(uuid)) <==> r.rows[uuid].status in {Unknown, Revoked}))
            && (answer == Err(InvalidToken) <==> !Known(r.rows, t))
            && (answer.Ok? <==> t in AfterAuthenticate(r, t).0.cache) && AfterAuthenticate(r, t).0.rows == r.rows
  {
    ReachableCoherent(ops);
    var r := Run(EMPTY_REGISTRY, ops);
    hide Run, Lookup, NullableToken;
    AuthenticateKeepsCoherence(r, t);
    if Known(r.rows, t) {
      var u :| Carries(r.rows, u, t);
      FoundIsLookup(r.rows, u, t);
    } else {
      UnknownToken(r.rows, t);
    }
  }

  // ---------------------------------------------------------------- what a change of status writes

  /** Another device has the token. */
  ghost predicate HeldElsewhere(rows: Rows, uuid: string, token: Option<string>) {
    exists u, t :: u != uuid && Carries(rows, u, t) && token == Some(t)
  }

  /**
   * A change of status writes that status, with the token just drawn for an approval, the old one for
   * a device set to unknown, and none otherwise, and answers with it. It fails, and then changes no row,
   * exactly if there is no such device or the drawn token belongs to another. No other row ever changes.
   */
  lemma {:induction false} StatusIsWritten(ops: seq<Op>, uuid: string, status: AuthStatus, drawn: string)
    ensures var r := Run(EMPTY_REGISTRY, ops);
            var (r', answer) := AfterUpdateStatus(r, uuid, status, drawn);
            && (answer.Ok? <==>
                  uuid in r.rows && !(status == Authenticated && HeldElsewhere(r.rows, uuid, NullableToken(drawn))))
            && (answer.Err? ==> r'.rows == r.rows)
            && (answer.Ok? ==>
                  && r'.rows.Keys == r.rows.Keys && (forall u :: u in r.rows && u != uuid ==> r'.rows[u] == r.rows[u])
                  && r'.rows[uuid].status == status
                  && r'.rows[uuid].tenantId == r.rows[uuid].tenantId && r'.rows[uuid].info == r.rows[uuid].info
                  && r'.rows[uuid].token
                     == (if status == Authenticated then NullableToken(drawn)
                         else if status == Unknown then r.rows[uuid].token
                         else None)
                  && answer.value == (if status == Authenticated then drawn else r'.rows[uuid].token.GetOr("")))
  {
    ReachableCoherent(ops);
    NullableBlank();
    var r := Run(EMPTY_REGISTRY, ops);
    hide Run, NullableToken, Forgotten;
    if uuid in r.rows {
      var token := NullableToken(NewToken(r.rows[uuid], status, drawn));
      if status == Unknown {
        OwnTokenIsFree(r.rows, uuid);
      }
      TakenIsHeldElsewhere(r.rows, uuid, token);
    }
  }

  lemma OwnTokenIsFree(rows: Rows, uuid: string)
    requires TokensUnique(rows) && uuid in rows
    ensures !Taken(rows, uuid, rows[uuid].token)
  {
  }

  lemma TakenIsHeldElsewhere(rows: Rows, uuid: string, token: Option<string>)
    ensures Taken(rows, uuid, token) <==> HeldElsewhere(rows, uuid, token)
  {
    if Taken(rows, uuid, token) {
      var u :| u in rows && u != uuid && rows[u].token == token;
      assert Carries(rows, u, token.value);
    }
  }

  /** A registered device waits without a token; a provisioned one is in with the token drawn for it. */
  lemma NewDeviceIsWritten(r: Registry, tenantId: string, uuid: string, info: string, drawn: string)
    ensures var (r', answer) := AfterRegister(r, uuid, info);
            && (answer.Ok? <==> uuid !in r.rows)
            && r'.rows == if answer.Err? then r.rows else
                 r.rows[uuid := DeviceRow(CommandStore.DEFAULT_TENANT, Pending, None, info)]
    ensures var (r', answer) := AfterProvision(r, tenantId, uuid, info, drawn);
            && (answer.Ok? <==> uuid !in r.rows && !HeldElsewhere(r.rows, uuid, NullableToken(drawn)))
            && (answer.Ok? ==> answer.value == (uuid, drawn))
            && r'.rows == if answer.Err? then r.rows else
                 r.rows[uuid := DeviceRow(CommandStore.NormalizeTenant(tenantId), Authenticated, NullableToken(drawn),
                                          info)]
  {
    TakenIsHeldElsewhere(r.rows, uuid, NullableToken(drawn));
    hide NullableToken;
  }

  // ---------------------------------------------------------------- approved devices get in

  /**
   * The operation gives an authenticated device the token t, which is what was drawn without the white
   * space around it, and which no other device has.
   */
  ghost predicate Grants(r: Registry, op: Op, uuid: string, t: string) {
    && t != "" && (forall u :: Carries(r.rows, u, t) ==> u == uuid)
    && match op
       case UpdateStatus(u, status, drawn) =>
         u == uuid && uuid in r.rows && status == Authenticated && t == TrimSpace(drawn)
       case Provision(_, u, _, drawn) => u == uuid && uuid !in r.rows && t == TrimSpace(drawn)
       case Refresh(u, drawn) =>
         u == uuid && uuid in r.rows && r.rows[uuid].status == Authenticated && t == TrimSpace(drawn)
       case _ => false
  }

  /** The operation may take the token or the status of the device away. */
  predicate Touches(op: Op, uuid: string) {
    (op.UpdateStatus? || op.Refresh? || op.Delete?) && op.uuid == uuid
  }

  ghost predicate IsIn(r: Registry, uuid: string, t: string) {
    Carries(r.rows, uuid, t) && r.rows[uuid].status == Authenticated
  }

  lemma GrantedIsIn(r: Registry, op: Op, uuid: string, t: string)
    requires Grants(r, op, uuid, t)
    ensures IsIn(Next(r, op), uuid, t)
  {
    TakenIsHeldElsewhere(r.rows, uuid, Some(t));
    hide TrimSpace, Taken, Forgotten;
  }

  lemma OthersStayIn(r: Registry, op: Op, uuid: string, t: string)
    requires IsIn(r, uuid, t) && !Touches(op, uuid)
    ensures IsIn(Next(r, op), uuid, t)
  {
    hide NullableToken, Taken, Forgotten, Lookup;
  }

  lemma {:induction false} StaysIn(r: Registry, ops: seq<Op>, uuid: string, t: string)
    requires IsIn(r, uuid, t) && forall k :: 0 <= k < |ops| ==> !Touches(ops[k], uuid)
    ensures IsIn(Run(r, ops), uuid, t)
    decreases ops
  {
    hide Next, IsIn, Touches;
    if ops != [] {
      OthersStayIn(r, ops[0], uuid, t);
      StaysIn(Next(r, ops[0]), ops[1..], uuid, t);
    }
  }

  lemma {:induction false} RunAppend(r: Registry, a: seq<Op>, b: seq<Op>)
    ensures Run(r, a + b) == Run(Run(r, a), b)
    decreases a
  {
    hide Next;
    if a == [] {
      assert a + b == b;
    } else {
      assert (a + b)[1..] == a[1..] + b;
      RunAppend(Next(r, a[0]), a[1..], b);
    }
  }

  /**
   * A device that was approved, provisioned or given a new token authenticates with the token drawn
   * for it, at once and as long as nobody changes its status, its token or deletes it.
   */
  lemma {:induction false} ApprovedAuthenticates(before: seq<Op>, op: Op, later: seq<Op>, uuid: string, t: string)
    requires Grants(Run(EMPTY_REGISTRY, before), op, uuid, t)
    requires forall k :: 0 <= k < |later| ==> !Touches(later[k], uuid)
    ensures AfterAuthenticate(Run(EMPTY_REGISTRY, before + [op] + later), t).1 == Ok(uuid)
  {
    var r := Run(EMPTY_REGISTRY, before);
    GrantedIsIn(r, op, uuid, t);
    StaysIn(Next(r, op), later, uuid, t);
    assert Run(r, [op]) == Next(r, op) by {
      assert [op][1..] == [];
    }
    hide Run, Next, Grants, AfterAuthenticate, Touches;
    RunAppend(EMPTY_REGISTRY, before, [op]);
    RunAppend(EMPTY_REGISTRY, before + [op], later);
    AnswersTellStatus(before + [op] + later, uuid, t);
  }
}
