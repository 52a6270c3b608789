/**
 * Acceptances and rejections as database transactions that interleave freely: each reads committed
 * rows, keeps its writes to itself, and commits them or rolls them back in its last step.
 */
module InvitationRaces {
  import opened Wrappers
  import opened Text
  import opened Invitations

  datatype Tx =
    | AcceptRead(id: string, row: Invitation)
    | AcceptWritten(id: string, row: Invitation, now: int)
    | RejectRead(id: string, row: Invitation)
    | Ended(result: Result<(), TenantError>)
    | Aborted

  /** What was committed. */
  datatype Op =
    | Accept(id: string, now: int)
    | Reject(id: string, now: int)
    | Create(id: string, tenantId: string, username: string, invitedBy: string, role: Role, now: int)
    | Add(tenantId: string, username: string, role: Role, now: int)
    | Remove(tenantId: string, username: string)

  datatype World = World(db: Db, txs: map<int, Tx>, log: seq<Op>)

  datatype Step =
    | BeginAccept(t: int, id: string)
    | WriteMember(t: int, now: int)
    | CommitAccept(t: int)
    | BeginReject(t: int, id: string)
    | CommitReject(t: int, now: int)
    | Abort(t: int)
    | Alone(op: Op)

  predicate Enabled(w: World, step: Step) {
    match step
    case BeginAccept(t, _) => t !in w.txs
    case WriteMember(t, _) => t in w.txs && w.txs[t].AcceptRead?
    case CommitAccept(t) => t in w.txs && w.txs[t].AcceptWritten?
    case BeginReject(t, _) => t !in w.txs
    case CommitReject(t, _) => t in w.txs && w.txs[t].RejectRead?
    case Abort(t) => t in w.txs && !w.txs[t].Ended?
    case Alone(op) =>
      match op
      case Accept(_, _) => false
      case Reject(_, _) => false
      case Create(id, _, _, _, _, _) => TrimSpace(id) == id && id !in w.db.invitations
      case _ => true
  }

  // ---------------------------------------------------------------- the steps

  function BegunAccept(row: Option<Invitation>, id: string): Tx {
    if row.None? then Ended(Err(InvitationNotFound))
    else if row.value.status != Pending then Ended(Err(AlreadyProcessed))
    else AcceptRead(id, row.value)
  }

  function BegunReject(row: Option<Invitation>, id: string): Tx {
    if RejectCheck(row).Some? then Ended(Err(RejectCheck(row).value)) else RejectRead(id, row.value)
  }

  /** The clock is read after the row, and the membership written if the invitation is not past its time. */
  function Written(tx: Tx, now: int): Tx
    requires tx.AcceptRead?
  {
    if now > tx.row.expiresAt then Ended(Err(InvitationExpired)) else AcceptWritten(tx.id, tx.row, now)
  }

  function AfterCommitAccept(w: World, t: int): World
    requires t in w.txs && w.txs[t].AcceptWritten?
  {
    var tx := w.txs[t];
    if AcceptMatches(Find(w.db, tx.id), tx.now) then
      World(WithStatus(w.db, tx.id, Accepted, tx.now).(
              members := Upserted(w.db.members, KeyOf(tx.row), tx.row.role, tx.now)),
            w.txs[t := Ended(Ok(()))], w.log + [Accept(tx.id, tx.now)])
    else w.(txs := w.txs[t := Ended(Err(AlreadyProcessed))])
  }

  function AfterCommitReject(w: World, t: int, now: int): World
    requires t in w.txs && w.txs[t].RejectRead?
  {
    var tx := w.txs[t];
    if RejectMatches(Find(w.db, tx.id)) then
      World(WithStatus(w.db, tx.id, Rejected, now), w.txs[t := Ended(Ok(()))], w.log + [Reject(tx.id, now)])
    else w.(txs := w.txs[t := Ended(Err(AlreadyProcessed))])
  }

  /** The sequential effect of an operation. */
  function Do(db: Db, op: Op): Db {
    match op
    case Accept(id, now) => AfterAccept(db, id, now)
    case Reject(id, now) => AfterReject(db, id, now)
    case Create(id, tenantId, username, invitedBy, role, now) =>
      AfterCreate(db, id, tenantId, username, invitedBy, role, now)
    case Add(tenantId, username, role, now) => AfterAdd(db, tenantId, username, role, now)
    case Remove(tenantId, username) => AfterRemove(db, tenantId, username)
  }

  function Next(w: World, step: Step): World
    requires Enabled(w, step)
  {
    match step
    case BeginAccept(t, id) => w.(txs := w.txs[t := BegunAccept(Find(w.db, id), id)])
    case WriteMember(t, now) => w.(txs := w.txs[t := Written(w.txs[t], now)])
    case CommitAccept(t) => AfterCommitAccept(w, t)
    case BeginReject(t, id) => w.(txs := w.txs[t := BegunReject(Find(w.db, id), id)])
    case CommitReject(t, now) => AfterCommitReject(w, t, now)
    case Abort(t) => w.(txs := w.txs[t := Aborted])
    case Alone(op) => w.(db := Do(w.db, op), log := w.log + [op])
  }

  predicate IsRun(w: World, steps: seq<Step>)
    decreases steps
  {
    steps != [] ==> Enabled(w, steps[0]) && IsRun(Next(w, steps[0]), steps[1..])
  }

  function Run(w: World, steps: seq<Step>): World
    requires IsRun(w, steps)
    decreases steps
  {
    if steps == [] then w else Run(Next(w, steps[0]), steps[1..])
  }

  function Start(tenants: set<string>): World {
    World(Db(map[], map[], tenants), map[], [])
  }

  function Replay(db: Db, log: seq<Op>): Db
    decreases |log|
  {
    if log == [] then db else Do(Replay(db, log[..|log| - 1]), log[|log| - 1])
  }

  // ---------------------------------------------------------------- what every step keeps

  /** The part of an invitation that is fixed for good. */
  predicate SameTerms(a: Invitation, b: Invitation) {
    a.tenantId == b.tenantId && a.username == b.username && a.role == b.role && a.expiresAt == b.expiresAt
  }

  /** The row a transaction read is still there, with the same terms. */
  predicate TxOk(db: Db, tx: Tx) {
    match tx
    case AcceptRead(id, row) => Find(db, id).Some? && SameTerms(row, Find(db, id).value)
    case AcceptWritten(id, row, now) => Find(db, id).Some? && SameTerms(row, Find(db, id).value) && now <= row.expiresAt
    case RejectRead(id, row) => Find(db, id).Some? && SameTerms(row, Find(db, id).value)
    case _ => true
  }

  predicate Settles(op: Op, id: string) {
    (op.Accept? || op.Reject?) && TrimSpace(op.id) == id
  }

  predicate SettledBy(i: Invitation, op: Op)
    requires op.Accept? || op.Reject?
  {
    i.status == (if op.Accept? then Accepted else Rejected) && i.updatedAt == op.now
  }

  /** Nobody accepted or rejected it yet. */
  predicate Untouched(i: Invitation) {
    i.status == Pending && i.updatedAt == i.createdAt
  }

  /** Invitations only ever stay, and those not pending any more are exactly the ones settled in the log. */
  ghost predicate LogOk(w: World) {
    && (forall k :: 0 <= k < |w.log| && (w.log[k].Accept? || w.log[k].Reject?) ==>
          && TrimSpace(w.log[k].id) in w.db.invitations
          && SettledBy(w.db.invitations[TrimSpace(w.log[k].id)], w.log[k]))
    && (forall i, j, id :: 0 <= i < j < |w.log| && Settles(w.log[i], id) ==> !Settles(w.log[j], id))
    && (forall id :: id in w.db.invitations && !Untouched(w.db.invitations[id]) ==>
          exists k :: 0 <= k < |w.log| && Settles(w.log[k], id))
  }

  ghost predicate Inv(w: World) {
    (forall t :: t in w.txs ==> TxOk(w.db, w.txs[t])) && LogOk(w)
  }

  /** Rows are only added, and keep their terms. */
  predicate RowsStay(db: Db, db': Db) {
    forall id :: id in db.invitations ==> id in db'.invitations && SameTerms(db.invitations[id], db'.invitations[id])
  }

  lemma TxsStay(db: Db, db': Db, tx: Tx)
    requires RowsStay(db, db') && TxOk(db, tx)
    ensures TxOk(db', tx)
  {
    hide TrimSpace;
  }

  /** The operation succeeds where it is done. */
  predicate Fits(db: Db, op: Op) {
    match op
    case Accept(id, now) => AcceptError(Find(db, id), now).None?
    case Reject(id, _) => RejectCheck(Find(db, id)).None?
    case Create(id, _, _, _, _, _) => TrimSpace(id) == id && id !in db.invitations
    case _ => true
  }

  lemma DoKeepsRows(db: Db, op: Op)
    requires Fits(db, op)
    ensures RowsStay(db, Do(db, op))
  {
    hide TrimSpace;
  }

  /** Which invitation an operation settles, and how. */
  lemma DoSettles(db: Db, op: Op, id: string)
    requires Fits(db, op)
    ensures var db' := Do(db, op);
            && (Settles(op, id) ==>
                  && id in db.invitations && db.invitations[id].status == Pending && id in db'.invitations
                  && SettledBy(db'.invitations[id], op))
            && (!Settles(op, id) && id in db.invitations ==>
                  id in db'.invitations && db'.invitations[id] == db.invitations[id])
            && (id in db'.invitations && id !in db.invitations ==> Untouched(db'.invitations[id]))
  {
    hide TrimSpace;
  }

  lemma LogGrows(w: World, w': World, op: Op)
    requires LogOk(w) && Fits(w.db, op) && w'.db == Do(w.db, op) && w'.log == w.log + [op]
    ensures LogOk(w')
  {
    hide Do, Fits, TrimSpace;
    forall k | 0 <= k < |w'.log| && (w'.log[k].Accept? || w'.log[k].Reject?)
      ensures TrimSpace(w'.log[k].id) in w'.db.invitations
      ensures SettledBy(w'.db.invitations[TrimSpace(w'.log[k].id)], w'.log[k])
    {
      var id := TrimSpace(w'.log[k].id);
      DoSettles(w.db, op, id);
      assert k == |w.log| ==> Settles(op, id);
    }
    forall i, j, id | 0 <= i < j < |w'.log| && Settles(w'.log[i], id) ensures !Settles(w'.log[j], id) {
      if j == |w.log| {
        assert w.log[i] == w'.log[i];
        DoSettles(w.db, op, id);
      }
    }
    forall id | id in w'.db.invitations && !Untouched(w'.db.invitations[id])
      ensures exists k :: 0 <= k < |w'.log| && Settles(w'.log[k], id)
    {
      DoSettles(w.db, op, id);
      if Settles(op, id) {
        assert Settles(w'.log[|w.log|], id);
      } else {
        var k :| 0 <= k < |w.log| && Settles(w.log[k], id);
        assert Settles(w'.log[k], id);
      }
    }
  }

  lemma OpKeepsInv(w: World, w': World, op: Op)
    requires Inv(w) && Fits(w.db, op) && w'.db == Do(w.db, op) && w'.log == w.log + [op]
    requires forall t :: t in w'.txs ==> (t in w.txs && w'.txs[t] == w.txs[t]) || w'.txs[t].Ended?
    ensures Inv(w')
  {
    hide Do, Fits, LogOk, TrimSpace;
    DoKeepsRows(w.db, op);
    LogGrows(w, w', op);
    forall t | t in w'.txs ensures TxOk(w'.db, w'.txs[t]) {
      if !w'.txs[t].Ended? {
        TxsStay(w.db, w'.db, w.txs[t]);
      }
    }
  }

  /** A committing acceptance does what it would do alone at that moment, and fails as it would. */
  lemma AcceptIsSequential(w: World, t: int)
    requires Inv(w) && t in w.txs && w.txs[t].AcceptWritten?
    ensures var tx := w.txs[t];
            var w' := AfterCommitAccept(w, t);
            && w'.txs[t] == Ended(ResultOf(AcceptError(Find(w.db, tx.id), tx.now)))
            && w'.db == AfterAccept(w.db, tx.id, tx.now)
            && w'.log == if AcceptError(Find(w.db, tx.id), tx.now).None? then w.log + [Accept(tx.id, tx.now)] else w.log
  {
    hide TrimSpace, LogOk, Upserted;
    assert TxOk(w.db, w.txs[t]);
  }

  lemma RejectIsSequential(w: World, t: int, now: int)
    requires Inv(w) && t in w.txs && w.txs[t].RejectRead?
    ensures var tx := w.txs[t];
            var w' := AfterCommitReject(w, t, now);
            && w'.txs[t] == Ended(ResultOf(RejectCheck(Find(w.db, tx.id))))
            && w'.db == AfterReject(w.db, tx.id, now)
            && w'.log == if RejectCheck(Find(w.db, tx.id)).None? then w.log + [Reject(tx.id, now)] else w.log
  {
    hide TrimSpace, LogOk;
    assert TxOk(w.db, w.txs[t]);
  }

  /** A step of a transaction that leaves the database alone. */
  lemma QuietKeepsInv(w: World, t: int, tx: Tx)
    requires Inv(w) && TxOk(w.db, tx)
    ensures Inv(w.(txs := w.txs[t := tx]))
  {
    hide TxOk, TrimSpace;
    var w' := w.(txs := w.txs[t := tx]);
    assert LogOk(w');
  }

  /** Each step either leaves the database and the log alone, or does the one operation that it logs. */
  predicate OneOp(w: World, w': World) {
    || (w'.db == w.db && w'.log == w.log)
    || (&& |w'.log| == |w.log| + 1 && w'.log == w.log + [w'.log[|w.log|]]
        && w'.db == Do(w.db, w'.log[|w.log|]) && Fits(w.db, w'.log[|w.log|]))
  }

  lemma StepKeepsInv(w: World, step: Step)
    requires Inv(w) && Enabled(w, step)
    ensures Inv(Next(w, step)) && OneOp(w, Next(w, step))
  {
    hide TrimSpace, LogOk, Inv, AfterAccept, AfterReject, AfterCreate, AfterAdd, AfterRemove, AfterCommitAccept,
         AfterCommitReject, AcceptError, RejectCheck, Find;
    match step {
      case BeginAccept(t, id) => BeginAcceptKeepsInv(w, t, id);
      case WriteMember(t, now) => WriteKeepsInv(w, t, now);
      case CommitAccept(t) =>
        CommitAcceptKeepsInv(w, t);
      case BeginReject(t, id) => BeginRejectKeepsInv(w, t, id);
      case CommitReject(t, now) =>
        CommitRejectKeepsInv(w, t, now);
      case Abort(t) => QuietKeepsInv(w, t, Aborted);
      case Alone(op) => OpKeepsInv(w, Next(w, step), op);
    }
  }

  lemma BeginAcceptKeepsInv(w: World, t: int, id: string)
    requires Inv(w)
    ensures Inv(w.(txs := w.txs[t := BegunAccept(Find(w.db, id), id)]))
  {
    hide TrimSpace, Inv;
    QuietKeepsInv(w, t, BegunAccept(Find(w.db, id), id));
  }

  lemma BeginRejectKeepsInv(w: World, t: int, id: string)
    requires Inv(w)
    ensures Inv(w.(txs := w.txs[t := BegunReject(Find(w.db, id), id)]))
  {
    hide TrimSpace, Inv;
    QuietKeepsInv(w, t, BegunReject(Find(w.db, id), id));
  }

  lemma WriteKeepsInv(w: World, t: int, now: int)
    requires Inv(w) && t in w.txs && w.txs[t].AcceptRead?
    ensures Inv(w.(txs := w.txs[t := Written(w.txs[t], now)]))
  {
    hide TrimSpace, LogOk;
    assert TxOk(w.db, w.txs[t]);
    QuietKeepsInv(w, t, Written(w.txs[t], now));
  }

  lemma CommitAcceptKeepsInv(w: World, t: int)
    requires Inv(w) && t in w.txs && w.txs[t].AcceptWritten?
    ensures Inv(AfterCommitAccept(w, t)) && OneOp(w, AfterCommitAccept(w, t))
  {
    AcceptIsSequential(w, t);
    hide Inv, TrimSpace, Upserted, AcceptMatches, AcceptError;
    var w', tx := AfterCommitAccept(w, t), w.txs[t];
    if AcceptError(Find(w.db, tx.id), tx.now).None? {
      OpKeepsInv(w, w', Accept(tx.id, tx.now));
    } else {
      QuietKeepsInv(w, t, w'.txs[t]);
    }
  }

  lemma CommitRejectKeepsInv(w: World, t: int, now: int)
    requires Inv(w) && t in w.txs && w.txs[t].RejectRead?
    ensures Inv(AfterCommitReject(w, t, now)) && OneOp(w, AfterCommitReject(w, t, now))
  {
    RejectIsSequential(w, t, now);
    hide Inv, TrimSpace, RejectMatches, RejectCheck;
    var w', tx := AfterCommitReject(w, t, now), w.txs[t];
    if RejectCheck(Find(w.db, tx.id)).None? {
      OpKeepsInv(w, w', Reject(tx.id, now));
    } else {
      QuietKeepsInv(w, t, w'.txs[t]);
    }
  }

  // ---------------------------------------------------------------- main results

  lemma StartOk(tenants: set<string>)
    ensures Inv(Start(tenants)) && Start(tenants).db == Replay(Start(tenants).db, Start(tenants).log)
  {
  }

  lemma {:induction false} RunIsReplay(db: Db, w: World, steps: seq<Step>)
    requires Inv(w) && w.db == Replay(db, w.log) && IsRun(w, steps)
    ensures Inv(Run(w, steps)) && Run(w, steps).db == Replay(db, Run(w, steps).log)
    decreases steps
  {
    hide Inv, Next, Enabled, Do, Fits;
    if steps != [] {
      var w' := Next(w, steps[0]);
      StepKeepsInv(w, steps[0]);
      if w'.log != w.log {
        assert w'.log[..|w.log|] == w.log;
      }
      RunIsReplay(db, w', steps[1..]);
    }
  }

  /**
   * Racing transactions are serializable: however acceptances, rejections and other changes
   * interleave, the tables are what the committed operations leave when done one after the other.
   */
  lemma RacesAreSerializable(tenants: set<string>, steps: seq<Step>)
    requires IsRun(Start(tenants), steps)
    ensures Run(Start(tenants), steps).db == Replay(Start(tenants).db, Run(Start(tenants), steps).log)
  {
    StartOk(tenants);
    RunIsReplay(Start(tenants).db, Start(tenants), steps);
  }

  ghost predicate SettledIn(log: seq<Op>, id: string) {
    exists k :: 0 <= k < |log| && Settles(log[k], id)
  }

  /**
   * Each invitation is settled by at most one committed transaction, which fixes its status and the time
   * of its last update; until then it is pending and as it was issued.
   */
  lemma InvitationsSettleOnce(tenants: set<string>, steps: seq<Step>, id: string, i: nat, j: nat)
    requires IsRun(Start(tenants), steps)
    ensures var w := Run(Start(tenants), steps);
            && (id in w.db.invitations ==>
                  && (w.db.invitations[id].status != Pending <==> SettledIn(w.log, id))
                  && (w.db.invitations[id].status == Pending ==>
                        w.db.invitations[id].updatedAt == w.db.invitations[id].createdAt))
            && (i < |w.log| && j < |w.log| && Settles(w.log[i], id) && Settles(w.log[j], id) ==> i == j)
            && (i < |w.log| && Settles(w.log[i], id) ==>
                  && id in w.db.invitations
                  && w.db.invitations[id].status == (if w.log[i].Accept? then Accepted else Rejected)
                  && w.db.invitations[id].updatedAt == w.log[i].now)
  {
    StartOk(tenants);
    RunIsReplay(Start(tenants).db, Start(tenants), steps);
    hide Run, IsRun, Replay, TrimSpace, TxOk;
  }

  /** How each transaction of a run ends: as its operation would end if it ran alone at that moment. */
  lemma CommitsAsIfAlone(tenants: set<string>, steps: seq<Step>, t: int, now: int)
    requires IsRun(Start(tenants), steps) && t in Run(Start(tenants), steps).txs
    ensures var w := Run(Start(tenants), steps);
            && (w.txs[t].AcceptWritten? ==>
                  && AfterCommitAccept(w, t).txs[t]
                     == Ended(ResultOf(AcceptError(Find(w.db, w.txs[t].id), w.txs[t].now)))
                  && AfterCommitAccept(w, t).db == AfterAccept(w.db, w.txs[t].id, w.txs[t].now))
            && (w.txs[t].RejectRead? ==>
                  && AfterCommitReject(w, t, now).txs[t] == Ended(ResultOf(RejectCheck(Find(w.db, w.txs[t].id))))
                  && AfterCommitReject(w, t, now).db == AfterReject(w.db, w.txs[t].id, now))
  {
    StartOk(tenants);
    RunIsReplay(Start(tenants).db, Start(tenants), steps);
    var w := Run(Start(tenants), steps);
    hide Run, IsRun, Inv, TrimSpace, AfterCommitAccept, AfterCommitReject, AfterAccept, AfterReject, AcceptError,
         RejectCheck;
    if w.txs[t].AcceptWritten? {
      AcceptIsSequential(w, t);
    }
    if w.txs[t].RejectRead? {
      RejectIsSequential(w, t, now);
    }
  }

  /** A transaction that ends before its commit fails as it would alone, at whatever time, with the row it read. */
  lemma EarlyEndings(w: World, t: int, id: string, now: int)
    ensures t !in w.txs ==>
              var tx := Next(w, BeginAccept(t, id)).txs[t];
              tx.Ended? ==> tx.result.Err? && tx.result == ResultOf(AcceptError(Find(w.db, id), now))
    ensures t !in w.txs ==>
              var tx := Next(w, BeginReject(t, id)).txs[t];
              tx.Ended? ==> tx.result.Err? && tx.result == ResultOf(RejectCheck(Find(w.db, id)))
    ensures t in w.txs && w.txs[t].AcceptRead? && w.txs[t].row.status == Pending ==>
              var tx := Next(w, WriteMember(t, now)).txs[t];
              && (tx.Ended? <==> now > w.txs[t].row.expiresAt)
              && (tx.Ended? ==> tx.result.Err? && tx.result == ResultOf(AcceptError(Some(w.txs[t].row), now)))
  {
    hide Find;
  }

  /** From the instant of expiry on, an acceptance that already wrote its membership is undone. */
  lemma ExpiredAcceptanceIsUndone(w: World, t: int)
    requires Inv(w) && t in w.txs && w.txs[t].AcceptWritten? && w.txs[t].now >= w.txs[t].row.expiresAt
    ensures AfterCommitAccept(w, t) == w.(txs := w.txs[t := Ended(Err(AlreadyProcessed))])
  {
    hide TrimSpace, LogOk;
    assert TxOk(w.db, w.txs[t]);
  }

  // ---------------------------------------------------------------- failed transactions

  function TxOf(step: Step): Option<int> {
    match step
    case Alone(_) => None
    case _ => Some(step.t)
  }

  function Without(steps: seq<Step>, t: int): seq<Step>
    decreases steps
  {
    if steps == [] then []
    else if TxOf(steps[0]) == Some(t) then Without(steps[1..], t)
    else [steps[0]] + Without(steps[1..], t)
  }

  /** The same but for what is known of t. */
  predicate Alike(w: World, v: World, t: int) {
    w.db == v.db && w.log == v.log && w.txs - {t} == v.txs - {t}
  }

  predicate Succeeded(w: World, t: int) {
    t in w.txs && w.txs[t] == Ended(Ok(()))
  }

  lemma {:induction false} SuccessStays(w: World, steps: seq<Step>, t: int)
    requires IsRun(w, steps) && Succeeded(w, t)
    ensures Succeeded(Run(w, steps), t)
    decreases steps
  {
    hide Do, WithStatus, Upserted, AcceptMatches, RejectMatches, Find, BegunAccept, BegunReject;
    if steps != [] {
      SuccessStays(Next(w, steps[0]), steps[1..], t);
    }
  }

  lemma OwnStep(w: World, v: World, step: Step, t: int)
    requires Enabled(w, step) && TxOf(step) == Some(t) && Alike(w, v, t) && !Succeeded(Next(w, step), t)
    ensures Alike(Next(w, step), v, t)
  {
    hide WithStatus, Upserted, AcceptMatches, RejectMatches, Find, BegunAccept, BegunReject, Do;
    var w' := Next(w, step);
    assert w'.txs - {t} == w.txs - {t};
  }

  lemma OtherStep(w: World, v: World, step: Step, t: int)
    requires Enabled(w, step) && TxOf(step) != Some(t) && Alike(w, v, t)
    ensures Enabled(v, step) && Alike(Next(w, step), Next(v, step), t)
  {
    hide WithStatus, Upserted, AcceptMatches, RejectMatches, Find, BegunAccept, BegunReject, Do, TrimSpace;
    if TxOf(step).Some? {
      var u := TxOf(step).value;
      assert u in w.txs <==> u in w.txs - {t};
      assert u in v.txs <==> u in v.txs - {t};
      assert u in w.txs ==> w.txs[u] == (w.txs - {t})[u] == (v.txs - {t})[u] == v.txs[u];
      TxsMinus(w, v, step, t, u);
    }
  }

  lemma TxsMinus(w: World, v: World, step: Step, t: int, u: int)
    requires u != t && Enabled(w, step) && Enabled(v, step) && TxOf(step) == Some(u)
    requires Alike(w, v, t) && (u in w.txs ==> w.txs[u] == v.txs[u])
    ensures Next(w, step).txs - {t} == Next(v, step).txs - {t}
  {
    hide WithStatus, Upserted, AcceptMatches, RejectMatches, Find, BegunAccept, BegunReject;
    var tx := Next(w, step).txs[u];
    assert Next(w, step).txs == w.txs[u := tx] && Next(v, step).txs == v.txs[u := tx];
    assert w.txs[u := tx] - {t} == (w.txs - {t})[u := tx];
    assert v.txs[u := tx] - {t} == (v.txs - {t})[u := tx];
  }

  /**
   * A transaction that does not succeed leaves no trace: the run with all of its steps cut out is a
   * run too, and ends in the same tables, the same log and the same fate of every other transaction.
   */
  lemma {:induction false} FailureLeavesNoTrace(w: World, v: World, steps: seq<Step>, t: int)
    requires IsRun(w, steps) && Alike(w, v, t) && !Succeeded(Run(w, steps), t)
    ensures IsRun(v, Without(steps, t)) && Alike(Run(w, steps), Run(v, Without(steps, t)), t)
    decreases steps
  {
    hide Next, Enabled, Alike;
    if steps != [] {
      var w' := Next(w, steps[0]);
      if Succeeded(w', t) {
        SuccessStays(w', steps[1..], t);
      }
      if TxOf(steps[0]) == Some(t) {
        OwnStep(w, v, steps[0], t);
        FailureLeavesNoTrace(w', v, steps[1..], t);
      } else {
        OtherStep(w, v, steps[0], t);
        var v' := Next(v, steps[0]);
        FailureLeavesNoTrace(w', v', steps[1..], t);
        var rest := Without(steps[1..], t);
        assert ([steps[0]] + rest)[1..] == rest;
      }
    }
  }
}
