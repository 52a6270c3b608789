/** Tenant invitations and memberships: the rows, and what each operation does when it runs alone. */
module Invitations {
  import opened Wrappers
  import opened Text
  import CommandStore

  datatype Role = Admin | ReadWrite | ReadOnly

  datatype InvitationStatus = Pending | Accepted | Rejected

  datatype Invitation = Invitation(
    tenantId: string, username: string, role: Role, invitedBy: string,
    status: InvitationStatus, expiresAt: int, createdAt: int, updatedAt: int)

  datatype Member = Member(role: Role, createdAt: int)

  datatype MemberKey = MemberKey(tenantId: string, username: string)

  /** The two tables, and the tenants that exist. */
  datatype Db = Db(invitations: map<string, Invitation>, members: map<MemberKey, Member>, tenants: set<string>)

  datatype TenantError =
    | UsernameRequired | InviterRequired | TenantNotFound | MemberNotFound
    | InvitationNotFound | InvitationExpired | AlreadyProcessed

  const WEEK: int := 7 * 24 * 3600 * 1_000_000_000

  /** The invitation row of an id, which is trimmed before any use. */
  function Find(db: Db, id: string): Option<Invitation> {
    if TrimSpace(id) in db.invitations then Some(db.invitations[TrimSpace(id)]) else None
  }

  function Upserted(members: map<MemberKey, Member>, key: MemberKey, role: Role, now: int): map<MemberKey, Member> {
    members[key := if key in members then members[key].(role := role) else Member(role, now)]
  }

  /** What the first half of an acceptance says, from the row it read. */
  function AcceptCheck(row: Option<Invitation>, now: int): Option<TenantError> {
    if row.None? then Some(InvitationNotFound)
    else if row.value.status != Pending then Some(AlreadyProcessed)
    else if now > row.value.expiresAt then Some(InvitationExpired)
    else None
  }

  /** The conditional update finds its row. */
  predicate AcceptMatches(row: Option<Invitation>, now: int) {
    row.Some? && row.value.status == Pending && row.value.expiresAt > now
  }

  predicate RejectMatches(row: Option<Invitation>) {
    row.Some? && row.value.status == Pending
  }

  function RejectCheck(row: Option<Invitation>): Option<TenantError> {
    if row.None? then Some(InvitationNotFound)
    else if row.value.status != Pending then Some(AlreadyProcessed)
    else None
  }

  /** Why an acceptance that runs alone fails, if it does. */
  function AcceptError(row: Option<Invitation>, now: int): Option<TenantError> {
    if AcceptCheck(row, now).Some? then AcceptCheck(row, now)
    else if !AcceptMatches(row, now) then Some(AlreadyProcessed)
    else None
  }

  function KeyOf(i: Invitation): MemberKey {
    MemberKey(i.tenantId, i.username)
  }

  function WithStatus(db: Db, id: string, status: InvitationStatus, now: int): Db
    requires Find(db, id).Some?
  {
    db.(invitations := db.invitations[TrimSpace(id) := Find(db, id).value.(status := status, updatedAt := now)])
  }

  // ---------------------------------------------------------------- operations that run alone

  function AfterAccept(db: Db, id: string, now: int): Db {
    var row := Find(db, id);
    if AcceptError(row, now).Some? then db
    else
      WithStatus(db, id, Accepted, now).(members := Upserted(db.members, KeyOf(row.value), row.value.role, now))
  }

  function AfterReject(db: Db, id: string, now: int): Db {
    if RejectCheck(Find(db, id)).Some? then db else WithStatus(db, id, Rejected, now)
  }

  function CreateError(db: Db, tenantId: string, username: string, invitedBy: string): Option<TenantError> {
    if TrimSpace(username) == "" then Some(UsernameRequired)
    else if TrimSpace(invitedBy) == "" then Some(InviterRequired)
    else if CommandStore.NormalizeTenant(tenantId) !in db.tenants then Some(TenantNotFound)
    else None
  }

  function AfterCreate(db: Db, id: string, tenantId: string, username: string, invitedBy: string, role: Role,
                       now: int): Db
  {
    if CreateError(db, tenantId, username, invitedBy).Some? then db
    else
      db.(invitations := db.invitations[id := Invitation(
        CommandStore.NormalizeTenant(tenantId), TrimSpace(username), role, TrimSpace(invitedBy),
        Pending, now + WEEK, now, now)])
  }

  function AddError(db: Db, tenantId: string, username: string): Option<TenantError> {
    if TrimSpace(username) == "" then Some(UsernameRequired)
    else if CommandStore.NormalizeTenant(tenantId) !in db.tenants then Some(TenantNotFound)
    else None
  }

  function TrimmedKey(tenantId: string, username: string): MemberKey {
    MemberKey(CommandStore.NormalizeTenant(tenantId), TrimSpace(username))
  }

  function AfterAdd(db: Db, tenantId: string, username: string, role: Role, now: int): Db {
    if AddError(db, tenantId, username).Some? then db
    else db.(members := Upserted(db.members, TrimmedKey(tenantId, username), role, now))
  }

  function AfterRemove(db: Db, tenantId: string, username: string): Db {
    db.(members := db.members - {TrimmedKey(tenantId, username)})
  }

  predicate Listed(i: Invitation, username: string, now: int) {
    TrimSpace(username) != "" && i.username == TrimSpace(username) && i.status == Pending && i.expiresAt > now
  }

  function ResultOf(e: Option<TenantError>): Result<(), TenantError> {
    if e.Some? then Err(e.value) else Ok(())
  }

  class TenantRepository {
    var invitations: map<string, Invitation>
    var members: map<MemberKey, Member>
    const tenants: set<string>

    constructor (tenants: set<string>)
      ensures State() == Db(map[], map[], tenants)
    {
      invitations, members, this.tenants := map[], map[], tenants;
    }

    function State(): Db
      reads this
    {
      Db(invitations, members, tenants)
    }

    method GetInvitation(id: string) returns (r: Result<Invitation, TenantError>)
      ensures r == match Find(State(), id)
                   case Some(i) => Ok(i)
                   case None => Err(InvitationNotFound)
    {
      var key := TrimSpace(id);
      return if key in invitations then Ok(invitations[key]) else Err(InvitationNotFound);
    }

    /** One transaction: the membership is written first, and kept only if the update then finds its row. */
    method AcceptInvitation(id: string, now: int) returns (r: Result<(), TenantError>)
      modifies this
      ensures State() == AfterAccept(old(State()), id, now)
      ensures r == ResultOf(AcceptError(Find(old(State()), id), now))
    {
      hide TrimSpace;
      var found := GetInvitation(id);
      if found.Err? {
        return Err(found.error);
      }
      var invitation := found.value;
      if invitation.status != Pending {
        return Err(AlreadyProcessed);
      }
      if now > invitation.expiresAt {
        return Err(InvitationExpired);
      }
      var written := Upserted(members, KeyOf(invitation), invitation.role, now);
      var key := TrimSpace(id);
      var rowsAffected := 0;
      var updated := invitations;
      if key in invitations && invitations[key].status == Pending && invitations[key].expiresAt > now {
        updated := invitations[key := invitations[key].(status := Accepted, updatedAt := now)];
        rowsAffected := 1;
      }
      if rowsAffected == 0 {
        return Err(AlreadyProcessed);
      }
      invitations, members := updated, written;
      return Ok(());
    }

    method RejectInvitation(id: string, now: int) returns (r: Result<(), TenantError>)
      modifies this
      ensures State() == AfterReject(old(State()), id, now)
      ensures r == ResultOf(RejectCheck(Find(old(State()), id)))
    {
      hide TrimSpace;
      var found := GetInvitation(id);
      if found.Err? {
        return Err(found.error);
      }
      if found.value.status != Pending {
        return Err(AlreadyProcessed);
      }
      var key := TrimSpace(id);
      invitations := invitations[key := invitations[key].(status := Rejected, updatedAt := now)];
      return Ok(());
    }

    method CreateTenantInvitation(id: string, tenantId: string, username: string, invitedBy: string, role: Role,
                                  now: int)
      returns (r: Result<(), TenantError>)
      modifies this
      ensures State() == AfterCreate(old(State()), id, tenantId, username, invitedBy, role, now)
      ensures r == ResultOf(CreateError(old(State()), tenantId, username, invitedBy))
    {
      hide TrimSpace;
      var tenant := CommandStore.NormalizeTenant(tenantId);
      if TrimSpace(username) == "" {
        return Err(UsernameRequired);
      }
      if TrimSpace(invitedBy) == "" {
        return Err(InviterRequired);
      }
      if tenant !in tenants {
        return Err(TenantNotFound);
      }
      invitations := invitations[id := Invitation(
        tenant, TrimSpace(username), role, TrimSpace(invitedBy), Pending, now + WEEK, now, now)];
      return Ok(());
    }

    method AddTenantUser(tenantId: string, username: string, role: Role, now: int) returns (r: Result<(), TenantError>)
      modifies this
      ensures State() == AfterAdd(old(State()), tenantId, username, role, now)
      ensures r == ResultOf(AddError(old(State()), tenantId, username))
    {
      hide TrimSpace;
      if TrimSpace(username) == "" {
        return Err(UsernameRequired);
      }
      if CommandStore.NormalizeTenant(tenantId) !in tenants {
        return Err(TenantNotFound);
      }
      members := Upserted(members, TrimmedKey(tenantId, username), role, now);
      return Ok(());
    }

    method RemoveTenantUser(tenantId: string, username: string) returns (r: Result<(), TenantError>)
      modifies this
      ensures State() == AfterRemove(old(State()), tenantId, username)
      ensures r == if TrimmedKey(tenantId, username) in old(members) then Ok(()) else Err(MemberNotFound)
    {
      hide TrimSpace;
      var key := TrimmedKey(tenantId, username);
      r := if key in members then Ok(()) else Err(MemberNotFound);
      members := members - {key};
    }

    /** The ids of the invitations a user can still answer, the newest first. */
    method ListPendingInvitations(username: string, now: int) returns (ids: seq<string>)
      ensures forall id :: id in ids <==> id in invitations && Listed(invitations[id], username, now)
      ensures NewestFirst(invitations, ids)
    {
      hide TrimSpace, Listed;
      ids := [];
      if TrimSpace(username) == "" {
        NobodyListed(username, now);
        return;
      }
      var rest := invitations.Keys;
      while rest != {}
        invariant rest <= invitations.Keys && NewestFirst(invitations, ids)
        invariant forall id :: id in ids <==> id in invitations && id !in rest && Listed(invitations[id], username, now)
        decreases rest
      {
        var id :| id in rest;
        if Listed(invitations[id], username, now) {
          ids := Placed(ids, id);
        }
        rest := rest - {id};
      }
    }

    /** Puts id behind everything that was created later. */
    method Placed(ids: seq<string>, id: string) returns (more: seq<string>)
      requires NewestFirst(invitations, ids) && id in invitations && id !in ids
      ensures NewestFirst(invitations, more) && forall x :: x in more <==> x in ids || x == id
    {
      var k := 0;
      while k < |ids| && invitations[ids[k]].createdAt > invitations[id].createdAt
        invariant k <= |ids|
        invariant forall i :: 0 <= i < k ==> invitations[ids[i]].createdAt > invitations[id].createdAt
      {
        k := k + 1;
      }
      more := ids[..k] + [id] + ids[k..];
      assert forall x :: x in ids <==> x in ids[..k] || x in ids[k..];
    }
  }

  /** Different ids, created no later than those before them. */
  predicate NewestFirst(invitations: map<string, Invitation>, ids: seq<string>) {
    && (forall i :: 0 <= i < |ids| ==> ids[i] in invitations)
    && (forall i, j :: 0 <= i < j < |ids| ==>
          ids[i] != ids[j] && invitations[ids[i]].createdAt >= invitations[ids[j]].createdAt)
  }

  lemma NobodyListed(username: string, now: int)
    requires TrimSpace(username) == ""
    ensures forall i :: !Listed(i, username, now)
  {
  }

  /** What a user is shown is exactly his own, and what accepting at that very moment would not refuse. */
  lemma ListedIsAcceptable(db: Db, id: string, username: string, now: int)
    requires TrimSpace(id) == id && id in db.invitations
    ensures Listed(db.invitations[id], username, now)
       <==> && TrimSpace(username) != "" && db.invitations[id].username == TrimSpace(username)
            && AcceptError(Find(db, id), now) == None
  {
    hide TrimSpace;
    FindStored(db, id);
  }

  lemma FindStored(db: Db, id: string)
    requires TrimSpace(id) == id && id in db.invitations
    ensures Find(db, id) == Some(db.invitations[id])
  {
  }
}
