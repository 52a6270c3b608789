/** Who is a member of what, in which role and since when: what the committed operations say, in any race. */
module Memberships {
  import opened Wrappers
  import opened Text
  import opened Invitations
  import opened InvitationRaces
  import CommandStore

  /** The user and tenant that a removal or an addition names. */
  function Named(tenantId: string, username: string): MemberKey {
    MemberKey(CommandStore.NormalizeTenant(tenantId), TrimSpace(username))
  }

  /** The operation makes key a member: its invitation was accepted, or it was added to a tenant that exists. */
  predicate Joins(db: Db, op: Op, key: MemberKey) {
    match op
    case Accept(id, _) =>
      && TrimSpace(id) in db.invitations
      && key == MemberKey(db.invitations[TrimSpace(id)].tenantId, db.invitations[TrimSpace(id)].username)
    case Add(tenantId, username, _, _) =>
      && TrimSpace(username) != "" && CommandStore.NormalizeTenant(tenantId) in db.tenants
      && key == Named(tenantId, username)
    case _ => false
  }

  predicate Leaves(op: Op, key: MemberKey) {
    op.Remove? && key == Named(op.tenantId, op.username)
  }

  function RoleGiven(db: Db, op: Op): Role {
    match op
    case Accept(id, _) => if TrimSpace(id) in db.invitations then db.invitations[TrimSpace(id)].role else ReadOnly
    case Add(_, _, role, _) => role
    case _ => ReadOnly
  }

  /** Entry k of the log made key a member, and no later one ended that. */
  predicate StillIn(w: World, key: MemberKey, k: int) {
    && 0 <= k < |w.log| && Joins(w.db, w.log[k], key)
    && forall j :: k < j < |w.log| ==> !Leaves(w.log[j], key)
  }

  predicate LastJoin(w: World, key: MemberKey, k: int) {
    StillIn(w, key, k) && forall j :: k < j < |w.log| ==> !StillIn(w, key, j)
  }

  predicate FirstJoin(w: World, key: MemberKey, k: int) {
    StillIn(w, key, k) && forall j :: 0 <= j < k ==> !StillIn(w, key, j)
  }

  ghost predicate MemberOk(w: World, key: MemberKey) {
    && (key in w.db.members <==> exists k :: StillIn(w, key, k))
    && (forall k :: LastJoin(w, key, k) ==> key in w.db.members && w.db.members[key].role == RoleGiven(w.db, w.log[k]))
    && (forall k :: FirstJoin(w, key, k) ==> key in w.db.members && w.db.members[key].createdAt == w.log[k].now)
  }

  // ---------------------------------------------------------------- one operation

  /** What an operation does to one membership. */
  lemma OpOnMember(db: Db, op: Op, key: MemberKey)
    requires Fits(db, op)
    ensures var db' := Do(db, op);
            && (Joins(db', op, key) ==>
                  && key in db'.members && db'.members[key].role == RoleGiven(db', op)
                  && db'.members[key].createdAt == (if key in db.members then db.members[key].createdAt else op.now))
            && (Leaves(op, key) ==> key !in db'.members)
            && (!Joins(db', op, key) && !Leaves(op, key) ==>
                  && (key in db'.members <==> key in db.members)
                  && (key in db.members ==> db'.members[key] == db.members[key]))
  {
    hide TrimSpace;
  }

  /** What was logged before keeps its meaning: invitations keep their terms. */
  lemma PastStays(w: World, db': Db, k: int, key: MemberKey)
    requires LogOk(w) && RowsStay(w.db, db') && db'.tenants == w.db.tenants && 0 <= k < |w.log|
    ensures Joins(db', w.log[k], key) == Joins(w.db, w.log[k], key)
    ensures RoleGiven(db', w.log[k]) == RoleGiven(w.db, w.log[k])
  {
    hide TrimSpace, Settles;
  }

  lemma StillInAfter(w: World, w': World, op: Op, key: MemberKey, k: int)
    requires LogOk(w) && RowsStay(w.db, w'.db) && w'.db.tenants == w.db.tenants && w'.log == w.log + [op]
    ensures k < |w.log| ==> (StillIn(w', key, k) <==> StillIn(w, key, k) && !Leaves(op, key))
    ensures k == |w.log| ==> (StillIn(w', key, k) <==> Joins(w'.db, op, key))
    ensures k > |w.log| ==> !StillIn(w', key, k)
  {
    hide Joins, Leaves, LogOk, RowsStay;
    if 0 <= k < |w.log| {
      PastStays(w, w'.db, k, key);
      assert w'.log[k] == w.log[k] && w'.log[|w.log|] == op;
      assert forall j :: k < j < |w.log| ==> w'.log[j] == w.log[j];
    }
  }

  lemma OpKeepsMember(w: World, w': World, op: Op, key: MemberKey)
    requires LogOk(w) && MemberOk(w, key) && Fits(w.db, op) && w'.db == Do(w.db, op) && w'.log == w.log + [op]
    ensures MemberOk(w', key)
  {
    DoKeepsRows(w.db, op);
    DoKeepsTenants(w.db, op);
    OpOnMember(w.db, op, key);
    JoinsOrLeaves(w'.db, op, key);
    var n := |w.log|;
    hide Do, Fits, RowsStay, Joins, Leaves, RoleGiven, StillIn, LogOk;
    forall k: int
      ensures k < n ==> (StillIn(w', key, k) <==> StillIn(w, key, k) && !Leaves(op, key))
      ensures k == n ==> (StillIn(w', key, k) <==> Joins(w'.db, op, key))
      ensures k > n ==> !StillIn(w', key, k)
    {
      StillInAfter(w, w', op, key, k);
    }
    MembershipAfter(w, w', op, key);
    forall k | LastJoin(w', key, k)
      ensures key in w'.db.members && w'.db.members[key].role == RoleGiven(w'.db, w'.log[k])
    {
      if k < n {
        LastBefore(w, w', op, key, k);
      }
    }
    forall k | FirstJoin(w', key, k)
      ensures key in w'.db.members && w'.db.members[key].createdAt == w'.log[k].now
    {
      if k < n {
        FirstBefore(w, w', op, key, k);
      } else {
        assert key !in w.db.members;
      }
    }
  }

  lemma DoKeepsTenants(db: Db, op: Op)
    ensures Do(db, op).tenants == db.tenants
  {
    hide TrimSpace;
  }

  lemma JoinsOrLeaves(db: Db, op: Op, key: MemberKey)
    ensures !(Joins(db, op, key) && Leaves(op, key))
  {
    hide TrimSpace;
  }

  /** The log of w' is that of w and op, seen from key. */
  ghost predicate Extends(w: World, w': World, op: Op, key: MemberKey) {
    && w'.log == w.log + [op] && LogOk(w) && RowsStay(w.db, w'.db) && w'.db.tenants == w.db.tenants
    && (forall k :: k < |w.log| ==> (StillIn(w', key, k) <==> StillIn(w, key, k) && !Leaves(op, key)))
    && (StillIn(w', key, |w.log|) <==> Joins(w'.db, op, key))
    && (forall k :: k > |w.log| ==> !StillIn(w', key, k))
  }

  lemma MembershipAfter(w: World, w': World, op: Op, key: MemberKey)
    requires Extends(w, w', op, key) && MemberOk(w, key) && !(Joins(w'.db, op, key) && Leaves(op, key))
    requires Joins(w'.db, op, key) ==> key in w'.db.members
    requires Leaves(op, key) ==> key !in w'.db.members
    requires !Joins(w'.db, op, key) && !Leaves(op, key) ==> (key in w'.db.members <==> key in w.db.members)
    ensures key in w'.db.members <==> exists k :: StillIn(w', key, k)
  {
    hide Joins, Leaves, StillIn, LogOk, RowsStay;
    if key in w'.db.members && !Joins(w'.db, op, key) {
      var k :| StillIn(w, key, k);
      StillInBounds(w, key, k);
      assert StillIn(w', key, k);
    }
    if exists k :: StillIn(w', key, k) {
      var k :| StillIn(w', key, k);
      assert k < |w.log| ==> StillIn(w, key, k);
    }
  }

  lemma StillInBounds(w: World, key: MemberKey, k: int)
    requires StillIn(w, key, k)
    ensures 0 <= k < |w.log|
  {
  }

  lemma LastBefore(w: World, w': World, op: Op, key: MemberKey, k: int)
    requires Extends(w, w', op, key) && LastJoin(w', key, k) && k < |w.log|
    ensures LastJoin(w, key, k) && !Joins(w'.db, op, key) && !Leaves(op, key)
    ensures RoleGiven(w'.db, w'.log[k]) == RoleGiven(w.db, w.log[k])
  {
    StillInBounds(w', key, k);
    PastStays(w, w'.db, k, key);
    hide Joins, Leaves, LogOk, RowsStay, RoleGiven;
    forall j | k < j < |w.log| ensures !StillIn(w, key, j) {
      assert !StillIn(w', key, j);
    }
    hide StillIn;
    assert w'.log[k] == w.log[k];
  }

  lemma FirstBefore(w: World, w': World, op: Op, key: MemberKey, k: int)
    requires Extends(w, w', op, key) && FirstJoin(w', key, k) && k < |w.log|
    ensures FirstJoin(w, key, k) && !Leaves(op, key) && w'.log[k] == w.log[k]
  {
    StillInBounds(w', key, k);
    hide Joins, Leaves, LogOk, RowsStay;
    forall j | 0 <= j < k ensures !StillIn(w, key, j) {
      assert !StillIn(w', key, j);
    }
  }

  // ---------------------------------------------------------------- every run

  lemma {:induction false} RunKeepsMember(w: World, steps: seq<Step>, key: MemberKey)
    requires Inv(w) && MemberOk(w, key) && IsRun(w, steps)
    ensures MemberOk(Run(w, steps), key)
    decreases steps
  {
    hide Inv, Next, Enabled, Do, Fits, MemberOk;
    if steps != [] {
      var w' := Next(w, steps[0]);
      StepKeepsInv(w, steps[0]);
      if w'.log == w.log {
        SameMember(w, w', key);
      } else {
        LogIsOk(w);
        OpKeepsMember(w, w', w'.log[|w.log|], key);
      }
      RunKeepsMember(w', steps[1..], key);
    }
  }

  lemma SameMember(w: World, w': World, key: MemberKey)
    requires MemberOk(w, key) && w'.db == w.db && w'.log == w.log
    ensures MemberOk(w', key)
  {
    hide Joins, Leaves, RoleGiven;
    assert forall k :: StillIn(w', key, k) == StillIn(w, key, k);
    assert forall k :: LastJoin(w', key, k) ==> LastJoin(w, key, k);
    assert forall k :: FirstJoin(w', key, k) ==> FirstJoin(w, key, k);
  }

  lemma LogIsOk(w: World)
    requires Inv(w)
    ensures LogOk(w)
  {
    hide LogOk, TxOk;
  }

  /**
   * In any race a user is a member exactly if some committed acceptance or addition made him one and
   * no later removal ended that; his role is the one last given, and he is a member since the first
   * such operation after the last removal.
   */
  lemma MembersFollowLog(tenants: set<string>, steps: seq<Step>, key: MemberKey, k: int)
    requires IsRun(Start(tenants), steps)
    ensures var w := Run(Start(tenants), steps);
            && (key in w.db.members <==> exists i :: StillIn(w, key, i))
            && (LastJoin(w, key, k) ==> key in w.db.members && w.db.members[key].role == RoleGiven(w.db, w.log[k]))
            && (FirstJoin(w, key, k) ==> key in w.db.members && w.db.members[key].createdAt == w.log[k].now)
  {
    StartOk(tenants);
    NobodyIn(tenants, key);
    RunKeepsMember(Start(tenants), steps, key);
    hide Run, IsRun, StillIn, Joins, LastJoin, FirstJoin, RoleGiven;
  }

  lemma NobodyIn(tenants: set<string>, key: MemberKey)
    ensures MemberOk(Start(tenants), key)
  {
  }

  // ---------------------------------------------------------------- invitations

  /** The operation issues invitation id: with a user, an inviter and a tenant that exists. */
  predicate Issues(db: Db, op: Op, id: string) {
    && op.Create? && op.id == id
    && TrimSpace(op.username) != "" && TrimSpace(op.invitedBy) != ""
    && CommandStore.NormalizeTenant(op.tenantId) in db.tenants
  }

  /** The invitation says what was asked for, and holds for seven days. */
  predicate SaysAsked(i: Invitation, op: Op)
    requires op.Create?
  {
    && MemberKey(i.tenantId, i.username) == Named(op.tenantId, op.username)
    && i.role == op.role && i.invitedBy == TrimSpace(op.invitedBy)
    && i.createdAt == op.now && i.expiresAt == op.now + 604_800_000_000_000
  }

  ghost predicate InvitationOk(w: World, id: string) {
    && (id in w.db.invitations <==> exists k :: 0 <= k < |w.log| && Issues(w.db, w.log[k], id))
    && (forall k :: 0 <= k < |w.log| && Issues(w.db, w.log[k], id) ==>
          id in w.db.invitations && SaysAsked(w.db.invitations[id], w.log[k]))
  }

  /** Nothing but the status and its time differs. */
  predicate OnlyStatus(i: Invitation, i': Invitation) {
    i' == i.(status := i'.status, updatedAt := i'.updatedAt)
  }

  lemma OpOnInvitation(db: Db, op: Op, id: string)
    requires Fits(db, op)
    ensures var db' := Do(db, op);
            && (Issues(db, op, id) ==>
                  id !in db.invitations && id in db'.invitations && SaysAsked(db'.invitations[id], op))
            && (!Issues(db, op, id) ==> (id in db'.invitations <==> id in db.invitations))
            && (id in db.invitations ==>
                  && id in db'.invitations
                  && OnlyStatus(db.invitations[id], db'.invitations[id]))
  {
    hide TrimSpace;
  }

  lemma OpKeepsInvitation(w: World, w': World, op: Op, id: string)
    requires InvitationOk(w, id) && Fits(w.db, op) && w'.db == Do(w.db, op) && w'.log == w.log + [op]
    ensures InvitationOk(w', id)
  {
    DoKeepsTenants(w.db, op);
    OpOnInvitation(w.db, op, id);
    hide Do, Fits, TrimSpace, SaysAsked;
    forall k | 0 <= k < |w'.log|
      ensures w'.log[k] == (if k < |w.log| then w.log[k] else op)
      ensures Issues(w'.db, w'.log[k], id) == Issues(w.db, w'.log[k], id)
    {
      TenantsDecide(w.db, w'.db, w'.log[k], id);
    }
    hide Issues;
    SameTermsSay(w.db, w'.db, id);
    if id in w.db.invitations {
      var k :| 0 <= k < |w.log| && Issues(w.db, w.log[k], id);
      assert Issues(w'.db, w'.log[k], id);
    }
    if id in w'.db.invitations && id !in w.db.invitations {
      assert Issues(w'.db, w'.log[|w.log|], id);
    }
    forall k | 0 <= k < |w'.log| && Issues(w'.db, w'.log[k], id)
      ensures id in w'.db.invitations && w'.log[k].Create? && SaysAsked(w'.db.invitations[id], w'.log[k])
    {
      IssuesCreates(w'.db, w'.log[k], id);
    }
  }

  lemma TenantsDecide(db: Db, db': Db, op: Op, id: string)
    requires db'.tenants == db.tenants
    ensures Issues(db', op, id) == Issues(db, op, id)
  {
  }

  lemma SameTermsSay(db: Db, db': Db, id: string)
    requires id in db.invitations ==> id in db'.invitations
    requires id in db.invitations ==> OnlyStatus(db.invitations[id], db'.invitations[id])
    ensures id in db.invitations ==>
              forall op: Op :: op.Create? && SaysAsked(db.invitations[id], op) ==> SaysAsked(db'.invitations[id], op)
  {
  }

  lemma IssuesCreates(db: Db, op: Op, id: string)
    requires Issues(db, op, id)
    ensures op.Create?
  {
  }

  lemma {:induction false} RunKeepsInvitation(w: World, steps: seq<Step>, id: string)
    requires Inv(w) && InvitationOk(w, id) && IsRun(w, steps)
    ensures InvitationOk(Run(w, steps), id)
    decreases steps
  {
    hide Inv, Next, Enabled, Do, Fits, Issues, SaysAsked;
    if steps != [] {
      var w' := Next(w, steps[0]);
      StepKeepsInv(w, steps[0]);
      if w'.log != w.log {
        OpKeepsInvitation(w, w', w'.log[|w.log|], id);
      }
      RunKeepsInvitation(w', steps[1..], id);
    }
  }

  /** In any race the invitations are those issued, each with the terms it was issued on, whatever became of it. */
  lemma InvitationsFollowLog(tenants: set<string>, steps: seq<Step>, id: string, k: int)
    requires IsRun(Start(tenants), steps)
    ensures var w := Run(Start(tenants), steps);
            && (id in w.db.invitations <==> exists i :: 0 <= i < |w.log| && Issues(w.db, w.log[i], id))
            && (0 <= k < |w.log| && Issues(w.db, w.log[k], id) ==>
                  id in w.db.invitations && SaysAsked(w.db.invitations[id], w.log[k]))
  {
    StartOk(tenants);
    RunKeepsInvitation(Start(tenants), steps, id);
    hide Run, IsRun, Issues, SaysAsked;
  }
}
