/**
 * Order. While no session pulls for a device whose previous command is still held elsewhere, commands
 * reach the device, and are settled, in the order in which they were created.
 */
module PipelineOrder {
  import opened Wrappers
  import opened GosterWy
  import opened Text
  import opened Commands
  import opened CommandQueue
  import opened CommandStore
  import opened DownlinkService
  import opened CoreIngress
  import opened TcpSession
  import opened RequeueIdentity
  import opened Pipeline
  import opened PipelineInvariant

  predicate Settles(e: Event, device: string) {
    (e.Acknowledged? || e.Refused?) && e.device == device
  }

  /** e puts a command of the device on the wire or settles one. */
  predicate Concerns(e: Event, device: string) {
    Settles(e, device) || (e.Wrote? && e.device == device)
  }

  /** A later event may be about `id`: not about an older command, nor about one already settled. */
  predicate Behind(e: Event, id: int, device: string) {
    e.id <= id && (Settles(e, device) ==> e.id < id)
  }

  /** Writes never go back (a repeat is a retry), settled ids strictly increase, nothing settled is written again. */
  predicate OrderedLog(log: seq<Event>, device: string) {
    forall i, j :: 0 <= i < j < |log| && Concerns(log[i], device) && Concerns(log[j], device) ==>
      Behind(log[i], log[j].id, device)
  }

  predicate Increasing(q: seq<Message>) {
    forall i, j :: 0 <= i < j < |q| ==> q[i].commandId < q[j].commandId
  }

  predicate HoldsFor(w: World, c: ConnId, device: string) {
    c in w.conns && HeldCommand(w.conns[c]).Some? && HeldCommand(w.conns[c]).value.uuid == device
  }

  function HeldId(w: World, c: ConnId): int
    requires c in w.conns && HeldCommand(w.conns[c]).Some?
  {
    HeldCommand(w.conns[c]).value.commandId
  }

  /** c's command is ahead of the whole queue, and only c has one. */
  predicate HolderOk(w: World, c: ConnId, device: string)
    requires HoldsFor(w, c, device)
  {
    && (forall i :: 0 <= i < |QueueAt(w, device)| ==> HeldId(w, c) < QueueAt(w, device)[i].commandId)
    && (forall c' :: c' in w.conns && HoldsFor(w, c', device) ==> c' == c)
  }

  /** Everything logged so far is behind everything still in line. */
  predicate PastOk(w: World, e: Event, device: string) {
    && e.id < w.core.table.nextId
    && (forall i :: 0 <= i < |QueueAt(w, device)| ==> Behind(e, QueueAt(w, device)[i].commandId, device))
    && (forall c :: c in w.conns && HoldsFor(w, c, device) ==> Behind(e, HeldId(w, c), device))
  }

  ghost predicate HoldersOk(w: World, device: string) {
    forall c :: HoldsFor(w, c, device) ==> HolderOk(w, c, device)
  }

  predicate PastsOk(w: World, device: string) {
    forall k :: 0 <= k < |w.log| && Concerns(w.log[k], device) ==> PastOk(w, w.log[k], device)
  }

  ghost predicate OrderInv(w: World, device: string) {
    && Increasing(QueueAt(w, device))
    && HoldersOk(w, device)
    && PastsOk(w, device)
    && OrderedLog(w.log, device)
  }

  /** The device a connection pulls for. */
  function PullsFor(w: World, c: ConnId): string
    requires c in w.conns
  {
    PullUuid(PullRequestOf(w.conns[c].session))
  }

  /** A pop by c now takes a command: c is authenticated, has a free slot, and something waits for it. */
  predicate HandsOver(w: World, c: ConnId) {
    && c in w.conns && w.conns[c].session.authenticated && w.conns[c].session.inflight.None?
    && QueueAt(w, PullsFor(w, c)) != []
  }

  /** A pop that takes a command is exclusive when no other connection holds a command of that device. */
  predicate Exclusive(w: World, step: Step)
    requires Enabled(w, step)
  {
    step.PopDownlink? && HandsOver(w, step.c) ==>
      forall c :: c in w.conns && c != step.c ==> !HoldsFor(w, c, PullsFor(w, step.c))
  }

  // ---------------------------------------------------------------- each kind of step

  lemma LogGrows(log: seq<Event>, e: Event, device: string)
    requires OrderedLog(log, device)
    requires Concerns(e, device) ==>
               forall k :: 0 <= k < |log| && Concerns(log[k], device) ==> Behind(log[k], e.id, device)
    ensures OrderedLog(log + [e], device)
  {
  }

  /** What an enqueue does to one device's line. */
  lemma EnqueueLine(w: World, w': World, uuid: string, m: Message, row: CommandRow, device: string)
    requires Inv(w) && EnqueueMoves(w, w', uuid, m, row)
    ensures w'.log == w.log && w'.conns == w.conns && w'.core.table.nextId == m.commandId + 1 == w.core.table.nextId + 1
    ensures var q, q' := QueueAt(w, device), QueueAt(w', device);
            && (forall i :: 0 <= i < |q| ==> q[i].commandId < m.commandId)
            && (q' == q || q' == q + [m] || (q != [] && q' == q[1..] + [m]))
  {
    hide TrimSpace, PlaceAfterEnqueue, LedgerOk, ConnOk, QueueOk;
    QueuedIds(w, device);
  }

  lemma EnqueueKeepsOrder(w: World, w': World, uuid: string, m: Message, row: CommandRow, device: string)
    requires Inv(w) && OrderInv(w, device) && EnqueueMoves(w, w', uuid, m, row)
    ensures OrderInv(w', device)
  {
    EnqueueLine(w, w', uuid, m, row, device);
    hide EnqueueMoves, OrderedLog, QueueAt, Inv, PastsOk, HoldersOk, Increasing;
    IncreasingSnoc(QueueAt(w, device), QueueAt(w', device), m);
    EnqueueKeepsHolders(w, w', m.commandId, device);
    EnqueueKeepsPasts(w, w', m.commandId, device);
  }

  lemma IncreasingSnoc(q: seq<Message>, q': seq<Message>, m: Message)
    requires Increasing(q) && forall i :: 0 <= i < |q| ==> q[i].commandId < m.commandId
    requires q' == q || q' == q + [m] || (q != [] && q' == q[1..] + [m])
    ensures Increasing(q')
    ensures forall x :: x in q' ==> x in q || x.commandId == m.commandId
  {
  }

  lemma EnqueueKeepsHolders(w: World, w': World, id: int, device: string)
    requires Inv(w) && HoldersOk(w, device)
    requires w'.conns == w.conns && w.core.table.nextId == id
    requires forall m :: m in QueueAt(w', device) ==> m in QueueAt(w, device) || m.commandId == id
    ensures HoldersOk(w', device)
  {
    hide Inv, QueueAt;
    forall c | HoldsFor(w', c, device) ensures HolderOk(w', c, device) {
      assert HolderOk(w, c, device);
      HeldIsKnown(w, c);
    }
  }

  lemma EnqueueKeepsPasts(w: World, w': World, id: int, device: string)
    requires PastsOk(w, device)
    requires w'.conns == w.conns && w'.log == w.log && w.core.table.nextId == id && w'.core.table.nextId == id + 1
    requires forall m :: m in QueueAt(w', device) ==> m in QueueAt(w, device) || m.commandId == id
    ensures PastsOk(w', device)
  {
    hide QueueAt;
    forall k | 0 <= k < |w'.log| && Concerns(w'.log[k], device) ensures PastOk(w', w'.log[k], device) {
      assert PastOk(w, w.log[k], device);
      hide Concerns;
    }
  }

  lemma HeldIsKnown(w: World, c: ConnId)
    requires Inv(w) && c in w.conns && HeldCommand(w.conns[c]).Some?
    ensures HeldId(w, c) < w.core.table.nextId
  {
    hide Image, ResolveDownlinkCmd, TrimSpace;
    HeldFacts(w, c);
  }

  lemma PopKeepsOrder(w: World, w': World, c: ConnId, uuid: string, tenantId: string, device: string)
    requires OrderInv(w, device) && PopMoves(w, w', c, uuid, tenantId)
    requires forall k :: k in w.conns && k != c ==> !HoldsFor(w, k, uuid)
    ensures OrderInv(w', device)
  {
    hide TrimSpace;
    var q := QueueAt(w, uuid);
    ImageId(uuid, tenantId, q[0]);
    hide Image;
    LogGrows(w.log, Popped(c, q[0].commandId), device);
    hide OrderedLog;
    forall k | HoldsFor(w', k, device) ensures HolderOk(w', k, device) {
      assert k != c ==> HoldsFor(w, k, device);
    }
    forall k | 0 <= k < |w'.log| && Concerns(w'.log[k], device) ensures PastOk(w', w'.log[k], device) {
      assert w'.log[k] == w.log[k] && PastOk(w, w.log[k], device);
    }
  }

  /** c's own command is what e is about, if e concerns the device; otherwise the line only loses a holder. */
  ghost predicate LineOfEvent(w: World, w': World, c: ConnId, e: Event, device: string) {
    && w'.log == w.log + [e] && w'.core.table.nextId == w.core.table.nextId
    && QueueAt(w', device) == QueueAt(w, device)
    && (forall k :: HoldsFor(w', k, device) ==> HoldsFor(w, k, device) && HeldId(w', k) == HeldId(w, k))
    && (Concerns(e, device) ==> HoldsFor(w, c, device) && HeldId(w, c) == e.id < w.core.table.nextId)
    && (Settles(e, device) ==> !HoldsFor(w', c, device))
  }

  lemma EventKeepsOrder(w: World, w': World, c: ConnId, e: Event, device: string)
    requires OrderInv(w, device) && LineOfEvent(w, w', c, e, device)
    ensures OrderInv(w', device)
  {
    hide QueueAt, HeldId;
    LogGrows(w.log, e, device);
    hide OrderedLog, Increasing;
    forall k | HoldsFor(w', k, device) ensures HolderOk(w', k, device) {
      assert HolderOk(w, k, device);
    }
    forall k | 0 <= k < |w'.log| && Concerns(w'.log[k], device) ensures PastOk(w', w'.log[k], device) {
      if k < |w.log| {
        assert PastOk(w, w.log[k], device);
      } else {
        assert HolderOk(w, c, device);
      }
    }
  }

  lemma SettleKeepsOrder(w: World, w': World, c: ConnId, command: AdapterCommand, status: CommandStatus,
                         errorText: string, device: string)
    requires Inv(w) && OrderInv(w, device) && SettleMoves(w, w', c, command, status, errorText)
    ensures OrderInv(w', device)
  {
    hide Inv, OrderInv, Image, WithStatus, ResolveDownlinkCmd, TrimSpace;
    HeldIsKnown(w, c);
    var e := w'.log[|w.log|];
    assert LineOfEvent(w, w', c, e, device);
    EventKeepsOrder(w, w', c, e, device);
  }

  lemma WriteKeepsOrder(w: World, w': World, c: ConnId, command: AdapterCommand, sequence: nat, device: string)
    requires Inv(w) && OrderInv(w, device) && WriteMoves(w, w', c, command, sequence)
    ensures OrderInv(w', device)
  {
    hide Inv, OrderInv, Image, WithStatus, ResolveDownlinkCmd, TrimSpace;
    HeldIsKnown(w, c);
    var e := Wrote(c, command.commandId, command.uuid, sequence);
    assert LineOfEvent(w, w', c, e, device);
    EventKeepsOrder(w, w', c, e, device);
  }

  /** What a return does to one device's line: c stops holding id, which may go back to the head. */
  ghost predicate LineOfReturn(w: World, w': World, c: ConnId, id: int, uuid: string, device: string) {
    && w'.log == w.log + [Returned(c, id)] && w'.core.table.nextId == w.core.table.nextId
    && (forall k :: HoldsFor(w', k, device) ==> k != c && HoldsFor(w, k, device) && HeldId(w', k) == HeldId(w, k))
    && HoldsFor(w, c, uuid) && HeldId(w, c) == id
    && var q, q' := QueueAt(w, device), QueueAt(w', device);
       q' == q || (uuid == device && |q'| >= 1 && q'[0].commandId == id && q'[1..] <= q)
  }

  lemma ReturnLine(w: World, w': World, c: ConnId, command: AdapterCommand, device: string)
    requires ReturnMoves(w, w', c, command)
    ensures LineOfReturn(w, w', c, command.commandId, command.uuid, device)
  {
    hide WithStatus, PlaceAfterReturn;
  }

  lemma ReturnKeepsOrder(w: World, w': World, c: ConnId, command: AdapterCommand, device: string)
    requires OrderInv(w, device) && ReturnMoves(w, w', c, command)
    ensures OrderInv(w', device)
  {
    hide ReturnMoves, QueueAt, HoldersOk, PastsOk, Increasing;
    ReturnLine(w, w', c, command, device);
    LogGrows(w.log, Returned(c, command.commandId), device);
    hide OrderedLog;
    ReturnKeepsHolders(w, w', c, command.commandId, command.uuid, device);
    ReturnKeepsPasts(w, w', c, command.commandId, command.uuid, device);
  }

  lemma ReturnKeepsHolders(w: World, w': World, c: ConnId, id: int, uuid: string, device: string)
    requires LineOfReturn(w, w', c, id, uuid, device) && HoldersOk(w, device) && Increasing(QueueAt(w, device))
    ensures HoldersOk(w', device) && Increasing(QueueAt(w', device))
  {
    hide QueueAt, HeldId;
    var q, q' := QueueAt(w, device), QueueAt(w', device);
    if q' != q {
      assert HolderOk(w, c, device);
      assert forall i :: 1 <= i < |q'| ==> q'[i] == q'[1..][i - 1] == q[i - 1];
    }
    forall k | HoldsFor(w', k, device) ensures HolderOk(w', k, device) {
      assert HolderOk(w, k, device);
    }
  }

  lemma ReturnKeepsPasts(w: World, w': World, c: ConnId, id: int, uuid: string, device: string)
    requires LineOfReturn(w, w', c, id, uuid, device) && PastsOk(w, device)
    ensures PastsOk(w', device)
  {
    hide QueueAt, HeldId, Behind;
    var q, q' := QueueAt(w, device), QueueAt(w', device);
    assert q' != q ==> forall i :: 1 <= i < |q'| ==> q'[i] == q'[1..][i - 1] == q[i - 1];
    forall k | 0 <= k < |w'.log| && Concerns(w'.log[k], device) ensures PastOk(w', w'.log[k], device) {
      assert w'.log[k] == w.log[k];
      assert PastOk(w, w.log[k], device);
    }
  }

  lemma QuietKeepsOrder(w: World, w': World, c: ConnId, device: string)
    requires OrderInv(w, device) && QuietMoves(w, w', c)
    ensures OrderInv(w', device)
  {
    hide OrderedLog;
    assert QueueAt(w', device) == QueueAt(w, device);
    forall k | HoldsFor(w', k, device) ensures HolderOk(w', k, device) {
      assert HoldsFor(w, k, device) && HeldId(w', k) == HeldId(w, k);
    }
    forall k | 0 <= k < |w'.log| && Concerns(w'.log[k], device) ensures PastOk(w', w'.log[k], device) {
      assert PastOk(w, w.log[k], device);
    }
  }

  // ---------------------------------------------------------------- every step, every run

  lemma StepKeepsOrder(w: World, step: Step, device: string)
    requires Inv(w) && OrderInv(w, device) && Enabled(w, step) && Exclusive(w, step)
    ensures OrderInv(Next(w, step), device)
  {
    StepKeepsInv(w, step);
    var w' := Next(w, step);
    hide Inv, OrderInv, Next, Moves, TrimSpace, CreateError;
    if step.Enqueue? {
      OrderOfEnqueueStep(w, step, w', device);
    } else if step.Connect? || step.Bind? || step.WriteOther? || step.PopDownlink? {
      OrderOfLightStep(w, step, w', device);
    } else if step.AckArrives? || step.Disconnect? {
      OrderOfInflightStep(w, step, w', device);
    } else {
      OrderOfHandStep(w, step, w', device);
    }
  }

  lemma OrderOfEnqueueStep(w: World, step: Step, w': World, device: string)
    requires step.Enqueue? && Inv(w) && OrderInv(w, device) && Moves(w, step, w')
    ensures OrderInv(w', device)
  {
    hide Inv, OrderInv, EnqueueMoves, TrimSpace, CreateError, NormalizeTenant, ToLower;
    if CreateError(step.tenantId, step.uuid, step.command, step.owner).None? {
      EnqueueKeepsOrder(w, w', step.uuid, Message(w.core.table.nextId, step.cmdId, step.payload),
                        NewRow(step.tenantId, step.uuid, step.cmdId, step.command, step.payload), device);
    }
  }

  lemma OrderOfLightStep(w: World, step: Step, w': World, device: string)
    requires step.Connect? || step.Bind? || step.WriteOther? || step.PopDownlink?
    requires OrderInv(w, device) && Enabled(w, step) && Exclusive(w, step) && Moves(w, step, w')
    ensures OrderInv(w', device)
  {
    hide OrderInv, PopMoves, QuietMoves, PullUuid, ResolveTenant, HoldsFor, HandsOver;
    if step.PopDownlink? {
      if w' != w {
        var uuid := PullsFor(w, step.c);
        PopTakes(w, w', step.c, ResolveTenant(step.tenants, uuid));
        PopKeepsOrder(w, w', step.c, uuid, ResolveTenant(step.tenants, uuid), device);
      }
    } else {
      QuietKeepsOrder(w, w', step.c, device);
    }
  }

  lemma PopTakes(w: World, w': World, c: ConnId, tenantId: string)
    requires c in w.conns && PopMoves(w, w', c, PullsFor(w, c), tenantId)
    ensures HandsOver(w, c)
  {
    hide Image, TrimSpace, PullUuid, QueueAt;
  }

  lemma OrderOfHandStep(w: World, step: Step, w': World, device: string)
    requires step.FailUnmapped? || step.FailPack? || step.WriteOk? || step.WriteFail?
    requires Inv(w) && OrderInv(w, device) && Enabled(w, step) && Moves(w, step, w')
    ensures OrderInv(w', device)
  {
    hide Inv, OrderInv, SettleMoves, WriteMoves, ReturnMoves, TrimSpace, ResolveDownlinkCmd;
    var command := w.conns[step.c].hand.value;
    match step {
      case WriteOk(c) => WriteKeepsOrder(w, w', c, command, w.conns[c].writeSeq + 1, device);
      case WriteFail(c, _) => ReturnKeepsOrder(w, w', c, command, device);
      case _ => SettleKeepsOrder(w, w', step.c, command, Failed, TrimSpace(step.errorText), device);
    }
  }

  lemma OrderOfInflightStep(w: World, step: Step, w': World, device: string)
    requires step.AckArrives? || step.Disconnect?
    requires Inv(w) && OrderInv(w, device) && Enabled(w, step) && Moves(w, step, w')
    ensures OrderInv(w', device)
  {
    hide Inv, OrderInv, SettleMoves, ReturnMoves, QuietMoves, TrimSpace, AckMatches;
    var session := w.conns[step.c].session;
    if step.AckArrives? {
      if AckMatches(session, step.cmd, step.sequence) {
        AckHasInflight(session, step.cmd, step.sequence);
        SettleKeepsOrder(w, w', step.c, session.inflight.value.command, Acked, "", device);
      }
    } else if session.inflight.Some? {
      ReturnKeepsOrder(w, w', step.c, session.inflight.value.command, device);
    } else {
      QuietKeepsOrder(w, w', step.c, device);
    }
  }

  /** Every pop of the run is exclusive. */
  predicate ExclusiveRun(w: World, steps: seq<Step>)
    requires IsRun(w, steps)
    decreases steps
  {
    steps != [] ==> Exclusive(w, steps[0]) && ExclusiveRun(Next(w, steps[0]), steps[1..])
  }

  lemma OneStep(w: World, a: Step)
    requires Enabled(w, a)
    ensures IsRun(w, [a]) && Run(w, [a]) == Next(w, a)
    ensures Exclusive(w, a) ==> ExclusiveRun(w, [a])
  {
    hide Enabled, Next, Exclusive;
    assert [a][1..] == [];
  }

  lemma TwoSteps(w: World, a: Step, b: Step)
    requires Enabled(w, a) && Enabled(Next(w, a), b)
    ensures IsRun(w, [a, b]) && Run(w, [a, b]) == Next(Next(w, a), b)
    ensures Exclusive(w, a) && Exclusive(Next(w, a), b) ==> ExclusiveRun(w, [a, b])
  {
    hide Enabled, Next, Exclusive;
    OneStep(Next(w, a), b);
    assert [a, b][1..] == [b];
  }

  lemma {:induction false} RunKeepsOrder(w: World, steps: seq<Step>, device: string)
    requires Inv(w) && OrderInv(w, device) && IsRun(w, steps) && ExclusiveRun(w, steps)
    ensures OrderInv(Run(w, steps), device)
    decreases steps
  {
    hide Inv, OrderInv, Next, Enabled, Exclusive, Moves;
    if steps != [] {
      StepKeepsInv(w, steps[0]);
      StepKeepsOrder(w, steps[0], device);
      RunKeepsOrder(Next(w, steps[0]), steps[1..], device);
    }
  }

  lemma InitialOrder(capacity: int, device: string)
    ensures OrderInv(InitialWorld(capacity), device)
  {
  }

  /**
   * Over any run of connects, rebinds, disconnects, overflows, retries and requests in which every pop
   * is exclusive: each queue stays in creation order, the held command comes before it, and what is
   * written and settled for a device is in creation order too.
   */
  lemma {:induction false} CommandsStayInOrder(capacity: int, steps: seq<Step>, device: string, c: ConnId, i: nat)
    requires IsRun(InitialWorld(capacity), steps) && ExclusiveRun(InitialWorld(capacity), steps)
    ensures var w := Run(InitialWorld(capacity), steps);
            && OrderedLog(w.log, device)
            && Increasing(QueueAt(w, device))
            && (HoldsFor(w, c, device) && i < |QueueAt(w, device)| ==> HeldId(w, c) < QueueAt(w, device)[i].commandId)
  {
    var w0 := InitialWorld(capacity);
    InitialInv(capacity);
    InitialOrder(capacity, device);
    RunKeepsOrder(w0, steps, device);
    hide Run, IsRun, ExclusiveRun, OrderedLog, Increasing, PastsOk;
    var w := Run(w0, steps);
    assert HoldsFor(w, c, device) ==> HolderOk(w, c, device);
  }

  // ---------------------------------------------------------------- one live session per device

  /** No other live session pulls for a device handed over now, and none is rebound away with a command in flight. */
  predicate OneSession(w: World, step: Step)
    requires Enabled(w, step)
  {
    && (step.PopDownlink? && HandsOver(w, step.c) ==>
          forall c :: c in w.conns && c != step.c && w.conns[c].open && w.conns[c].session.authenticated ==>
            PullsFor(w, c) != PullsFor(w, step.c))
    && (step.Bind? && w.conns[step.c].session.inflight.Some? ==>
          PullUuid(PullRequestOf(Bound(w.conns[step.c].session, step.uuid, step.tenantId))) == PullsFor(w, step.c))
  }

  predicate OneSessionRun(w: World, steps: seq<Step>)
    requires IsRun(w, steps)
    decreases steps
  {
    steps != [] ==> OneSession(w, steps[0]) && OneSessionRun(Next(w, steps[0]), steps[1..])
  }

  /** Whoever holds a command still pulls for the device it belongs to. */
  predicate HoldersPull(w: World) {
    forall c :: c in w.conns && HeldCommand(w.conns[c]).Some? ==> HoldsFor(w, c, PullsFor(w, c))
  }

  lemma OneSessionIsExclusive(w: World, step: Step)
    requires Inv(w) && HoldersPull(w) && Enabled(w, step) && OneSession(w, step)
    ensures Exclusive(w, step)
  {
    hide Inv, PullUuid;
    if step.PopDownlink? && HandsOver(w, step.c) {
      hide HandsOver;
      forall c | c in w.conns && c != step.c ensures !HoldsFor(w, c, PullsFor(w, step.c)) {
        if HeldCommand(w.conns[c]).Some? {
          HolderIsLive(w, c);
        }
      }
    }
  }

  lemma HolderIsLive(w: World, c: ConnId)
    requires Inv(w) && c in w.conns && HeldCommand(w.conns[c]).Some?
    ensures w.conns[c].open && w.conns[c].session.authenticated
  {
    hide Image, TrimSpace;
    HeldFacts(w, c);
  }

  /** Only c changes, and it keeps the command and the binding it had, or has no command any more. */
  predicate KeepsBinding(w: World, w': World, c: ConnId) {
    && c in w.conns && c in w'.conns && w'.conns == w.conns[c := w'.conns[c]]
    && (HeldCommand(w'.conns[c]).Some? ==>
          HeldCommand(w'.conns[c]) == HeldCommand(w.conns[c]) && PullsFor(w', c) == PullsFor(w, c))
  }

  lemma BindingKeepsHolders(w: World, w': World, c: ConnId)
    requires HoldersPull(w) && KeepsBinding(w, w', c)
    ensures HoldersPull(w')
  {
    hide PullUuid;
    forall k | k in w'.conns && HeldCommand(w'.conns[k]).Some? ensures HoldsFor(w', k, PullsFor(w', k)) {
      assert HoldsFor(w, k, PullsFor(w, k));
    }
  }

  lemma PopKeepsHolders(w: World, w': World, c: ConnId, tenantId: string)
    requires HoldersPull(w) && c in w.conns && PopMoves(w, w', c, PullsFor(w, c), tenantId)
    ensures HoldersPull(w')
  {
    hide PullUuid, Image, TrimSpace;
    ImageId(PullsFor(w, c), tenantId, QueueAt(w, PullsFor(w, c))[0]);
    forall k | k in w'.conns && HeldCommand(w'.conns[k]).Some? ensures HoldsFor(w', k, PullsFor(w', k)) {
      assert k != c ==> HoldsFor(w, k, PullsFor(w, k));
    }
  }

  lemma LightKeepsHolders(w: World, step: Step)
    requires step.Connect? || step.Bind? || step.WriteOther?
    requires HoldersPull(w) && Enabled(w, step) && OneSession(w, step)
    ensures HoldersPull(Next(w, step))
  {
    hide PullUuid;
    var w' := Next(w, step);
    if step.Connect? {
      forall k | k in w'.conns && HeldCommand(w'.conns[k]).Some? ensures HoldsFor(w', k, PullsFor(w', k)) {
        assert HoldsFor(w, k, PullsFor(w, k));
      }
    } else {
      BindingKeepsHolders(w, w', step.c);
    }
  }

  lemma StepKeepsHolders(w: World, step: Step)
    requires Inv(w) && HoldersPull(w) && Enabled(w, step) && OneSession(w, step)
    ensures HoldersPull(Next(w, step))
  {
    hide Inv, Next, PullUuid, TrimSpace, CreateError, HoldersPull, Moves;
    StepKeepsInv(w, step);
    if step.Connect? || step.Bind? || step.WriteOther? {
      LightKeepsHolders(w, step);
    } else {
      MovesKeepHolders(w, step, Next(w, step));
    }
  }

  lemma MovesKeepHolders(w: World, step: Step, w': World)
    requires !step.Connect? && !step.Bind? && !step.WriteOther?
    requires HoldersPull(w) && Enabled(w, step) && Moves(w, step, w')
    ensures HoldersPull(w')
  {
    hide PullUuid, TrimSpace, CreateError, HoldersPull, EnqueueMoves, PopMoves, SettleMoves, WriteMoves, ReturnMoves,
         QuietMoves, AckMatches, ResolveTenant, ResolveDownlinkCmd, NewRow;
    match step {
      case Enqueue(tenantId, uuid, cmdId, command, payload, owner) =>
        if CreateError(tenantId, uuid, command, owner).None? {
          SameConnsKeepHolders(w, w', uuid, Message(w.core.table.nextId, cmdId, payload),
                               NewRow(tenantId, uuid, cmdId, command, payload));
        }
      case PopDownlink(c, tenants) =>
        if w' != w {
          PopKeepsHolders(w, w', c, ResolveTenant(tenants, PullsFor(w, c)));
        }
      case _ => FinishKeepsHolders(w, step, w');
    }
  }

  lemma SameConnsKeepHolders(w: World, w': World, uuid: string, m: Message, row: CommandRow)
    requires HoldersPull(w) && EnqueueMoves(w, w', uuid, m, row)
    ensures HoldersPull(w')
  {
    hide PullUuid, TrimSpace, PlaceAfterEnqueue, Enqueued;
    forall k | k in w'.conns && HeldCommand(w'.conns[k]).Some? ensures HoldsFor(w', k, PullsFor(w', k)) {
      assert HoldsFor(w, k, PullsFor(w, k));
    }
  }

  lemma FinishKeepsHolders(w: World, step: Step, w': World)
    requires !step.Enqueue? && !step.Connect? && !step.Bind? && !step.WriteOther? && !step.PopDownlink?
    requires HoldersPull(w) && Enabled(w, step) && Moves(w, step, w')
    ensures HoldersPull(w')
  {
    hide PullUuid, TrimSpace, HoldersPull, AckMatches, ResolveDownlinkCmd, WithStatus, PlaceAfterReturn, KeepsBinding;
    if w' != w {
      FinishKeepsBinding(w, step, w');
      BindingKeepsHolders(w, w', step.c);
    }
  }

  lemma FinishKeepsBinding(w: World, step: Step, w': World)
    requires !step.Enqueue? && !step.Connect? && !step.Bind? && !step.WriteOther? && !step.PopDownlink?
    requires Enabled(w, step) && Moves(w, step, w') && w' != w
    ensures KeepsBinding(w, w', step.c)
  {
    hide PullUuid, TrimSpace, AckMatches, ResolveDownlinkCmd, WithStatus, PlaceAfterReturn;
  }

  lemma {:induction false} OneSessionRunIsExclusive(w: World, steps: seq<Step>)
    requires Inv(w) && HoldersPull(w) && IsRun(w, steps) && OneSessionRun(w, steps)
    ensures ExclusiveRun(w, steps)
    decreases steps
  {
    hide Inv, HoldersPull, Next, Enabled, Exclusive, OneSession, Moves;
    if steps != [] {
      StepKeepsInv(w, steps[0]);
      OneSessionIsExclusive(w, steps[0]);
      StepKeepsHolders(w, steps[0]);
      OneSessionRunIsExclusive(Next(w, steps[0]), steps[1..]);
    }
  }

  /** With one live session per device at a time, the commands of every device stay in order over any run. */
  lemma {:induction false} OneSessionKeepsOrder(capacity: int, steps: seq<Step>, device: string, c: ConnId, i: nat)
    requires IsRun(InitialWorld(capacity), steps) && OneSessionRun(InitialWorld(capacity), steps)
    ensures var w := Run(InitialWorld(capacity), steps);
            && OrderedLog(w.log, device)
            && Increasing(QueueAt(w, device))
            && (HoldsFor(w, c, device) && i < |QueueAt(w, device)| ==> HeldId(w, c) < QueueAt(w, device)[i].commandId)
  {
    InitialInv(capacity);
    assert HoldersPull(InitialWorld(capacity));
    hide Inv, HoldersPull, Run, IsRun, OneSessionRun, ExclusiveRun, OrderedLog, Increasing, QueueAt;
    OneSessionRunIsExclusive(InitialWorld(capacity), steps);
    CommandsStayInOrder(capacity, steps, device, c, i);
  }

  // ---------------------------------------------------------------- exclusiveness is needed

  /** A step that settles the command c holds. */
  function SettleStep(w: World, c: ConnId): Step
    requires c in w.conns && HeldCommand(w.conns[c]).Some?
  {
    var cmd := ResolveDownlinkCmd(HeldCommand(w.conns[c]).value);
    if w.conns[c].hand.None? then AckArrives(c, cmd.GetOr(0), w.conns[c].session.inflight.value.sequence)
    else if cmd.Some? then FailPack(c, "")
    else FailUnmapped(c, "")
  }

  lemma SettleStepSettles(w: World, c: ConnId)
    requires Inv(w) && c in w.conns && HeldCommand(w.conns[c]).Some?
    ensures var command := HeldCommand(w.conns[c]).value;
            && Enabled(w, SettleStep(w, c))
            && var w' := Next(w, SettleStep(w, c));
               && Inv(w') && |w'.log| == |w.log| + 1 && w'.log[..|w.log|] == w.log
               && w'.log[|w.log|].id == command.commandId && Settles(w'.log[|w.log|], command.uuid)
               && (forall k :: k in w.conns && k != c ==> k in w'.conns && w'.conns[k] == w.conns[k])
  {
    hide Image, TrimSpace, ResolveDownlinkCmd;
    HeldFacts(w, c);
    var step := SettleStep(w, c);
    if w.conns[c].hand.None? {
      assert AckMatches(w.conns[c].session, step.cmd, step.sequence);
    }
    hide Inv;
    StepKeepsInv(w, step);
    hide Next, WithStatus;
  }

  predicate HeldByTwo(w: World, c: ConnId, other: ConnId) {
    && c != other && c in w.conns && other in w.conns
    && HeldCommand(w.conns[c]).Some? && HeldCommand(w.conns[other]).Some?
  }

  lemma PopHandsOver(w: World, c: ConnId, tenants: Tenants)
    requires Inv(w) && Idle(w, c) && HandsOver(w, c)
    ensures Inv(NextPop(w, c, tenants))
    ensures PopMoves(w, NextPop(w, c, tenants), c, PullsFor(w, c), ResolveTenant(tenants, PullsFor(w, c)))
  {
    hide Inv, AfterPopCommand, Image, PullUuid, TrimSpace, ResolveTenant, QueueAt, PopMoves;
    var device := PullsFor(w, c);
    StepPop(w, c, tenants);
    QueueAtIs(w, device);
    QueueHasDevice(w, device);
    PopEffect(w.core, tenants, w.conns[c].session);
    assert NextPop(w, c, tenants).conns[c].hand.Some?;
  }

  /** Nothing is ever queued under the empty name. */
  lemma QueueHasDevice(w: World, device: string)
    requires Inv(w) && QueueAt(w, device) != []
    ensures device != ""
  {
    assert QueueOk(w, device) && Waiting(w, device, QueueAt(w, device)[0]);
    TrimOfTrimmed("");
    hide Inv, TrimSpace;
  }

  lemma QueueAtIs(w: World, device: string)
    ensures QueueAt(w, device) == QueueOf(w.core.queues, device)
  {
  }

  /** The command that c pops is newer than the one `other` still holds. */
  lemma PoppedIsNewer(w: World, w': World, c: ConnId, other: ConnId, tenantId: string, device: string)
    requires OrderInv(w, device) && PopMoves(w, w', c, device, tenantId) && c != other && HoldsFor(w, other, device)
    ensures HeldByTwo(w', c, other) && HoldsFor(w', c, device) && HoldsFor(w', other, device)
    ensures HeldId(w', other) < HeldId(w', c)
  {
    hide Image, TrimSpace, OrderedLog, PastsOk, Increasing, QueueAt;
    ImageId(device, tenantId, QueueAt(w, device)[0]);
    assert HolderOk(w, other, device);
    assert HeldId(w, other) < QueueAt(w, device)[0].commandId;
    hide OrderInv, HolderOk;
  }

  lemma BothSettle(w: World, c: ConnId, other: ConnId, device: string)
    requires Inv(w) && HeldByTwo(w, c, other) && HoldsFor(w, c, device) && HoldsFor(w, other, device)
    requires HeldId(w, other) < HeldId(w, c)
    ensures var a, b := SettleStep(w, c), SettleStep(w, other);
            && Enabled(w, a) && Enabled(Next(w, a), b)
            && !a.PopDownlink? && !b.PopDownlink?
            && !OrderedLog(Next(Next(w, a), b).log, device)
  {
    hide Inv, Next, Enabled, OrderedLog;
    SettleStepSettles(w, c);
    var w1 := Next(w, SettleStep(w, c));
    SettleStepSettles(w1, other);
    assert SettleStep(w1, other) == SettleStep(w, other);
    hide SettleStep;
    var w2 := Next(w1, SettleStep(w, other));
    assert w2.log[|w.log|] == w1.log[|w.log|];
    WrongOrder(w2.log, |w.log|, device);
  }

  /** Even if every later pop is exclusive, commands of the device may settle in the wrong order. */
  ghost predicate CanGoWrong(w: World, device: string) {
    exists steps: seq<Step> :: IsRun(w, steps) && ExclusiveRun(w, steps) && !OrderedLog(Run(w, steps).log, device)
  }

  /** A pop that takes a command while another connection holds one lets the two settle in the wrong order. */
  lemma SharedPopBreaksOrder(w: World, step: Step)
    requires Inv(w) && step.PopDownlink? && Enabled(w, step) && OrderInv(w, PullsFor(w, step.c))
    requires !Exclusive(w, step)
    ensures CanGoWrong(Next(w, step), PullsFor(w, step.c))
  {
    hide Inv, OrderInv, Next, NextPop, PullsFor, OrderedLog, PopMoves, QueueAt, ResolveTenant, HoldsFor, SettleStep,
         HandsOver;
    var c, device := step.c, PullsFor(w, step.c);
    var other :| other in w.conns && other != c && HoldsFor(w, other, device);
    PopHandsOver(w, c, step.tenants);
    NextOfPop(w, c, step.tenants);
    var w1 := Next(w, step);
    PoppedIsNewer(w, w1, c, other, ResolveTenant(step.tenants, device), device);
    BothSettle(w1, c, other, device);
    var a, b := SettleStep(w1, c), SettleStep(w1, other);
    TwoSteps(w1, a, b);
    hide Run, IsRun, ExclusiveRun;
    assert IsRun(w1, [a, b]) && ExclusiveRun(w1, [a, b]);
  }

  /** From a world in order, what follows a pop stays in order under exclusive pops exactly if this pop is exclusive. */
  lemma ExclusivenessIsExact(w: World, step: Step)
    requires Inv(w) && step.PopDownlink? && Enabled(w, step) && OrderInv(w, PullsFor(w, step.c))
    ensures Exclusive(w, step) <==> !CanGoWrong(Next(w, step), PullsFor(w, step.c))
  {
    var w', device := Next(w, step), PullsFor(w, step.c);
    hide Inv, OrderInv, Next, Enabled, PullsFor, Exclusive, Run, IsRun, ExclusiveRun, Moves;
    if Exclusive(w, step) {
      StepKeepsInv(w, step);
      StepKeepsOrder(w, step, device);
      forall steps: seq<Step> | IsRun(w', steps) && ExclusiveRun(w', steps)
        ensures OrderedLog(Run(w', steps).log, device)
      {
        RunKeepsOrder(w', steps, device);
        OrderGivesLog(Run(w', steps), device);
      }
    } else {
      SharedPopBreaksOrder(w, step);
    }
  }

  lemma OrderGivesLog(w: World, device: string)
    requires OrderInv(w, device)
    ensures OrderedLog(w.log, device)
  {
    hide OrderedLog;
  }

  lemma WrongOrder(log: seq<Event>, i: nat, device: string)
    requires i + 1 < |log| && Settles(log[i], device) && Settles(log[i + 1], device) && log[i + 1].id < log[i].id
    ensures !OrderedLog(log, device)
  {
  }

  // ---------------------------------------------------------------- a run that goes wrong

  const FIRST_REQUEST := Step.Enqueue("", "A", CONFIG_PUSH, "c", [1], Some(""))
  const SECOND_REQUEST := Step.Enqueue("", "A", CONFIG_PUSH, "c", [2], Some(""))

  function OneQueued(): World {
    World(Core(Table(map[1 := NewRow("", "A", CONFIG_PUSH, "c", [1])], 2),
               map["A" := [Message(1, CONFIG_PUSH, [1])]], 0),
          map[], map[1 := InQueue("A")], [])
  }

  function TwoQueued(): World {
    World(Core(Table(map[1 := NewRow("", "A", CONFIG_PUSH, "c", [1]), 2 := NewRow("", "A", CONFIG_PUSH, "c", [2])], 3),
               map["A" := [Message(1, CONFIG_PUSH, [1]), Message(2, CONFIG_PUSH, [2])]], 0),
          map[], map[1 := InQueue("A"), 2 := InQueue("A")], [])
  }

  lemma FirstRequest()
    ensures Next(InitialWorld(0), FIRST_REQUEST) == OneQueued()
  {
    NameIsAccepted();
    hide TrimSpace, ToLower, NewRow;
    var m := Message(1, CONFIG_PUSH, [1]);
    assert [] + [m] == [m];
    var w := Next(InitialWorld(0), FIRST_REQUEST);
    assert w.core.table.rows == OneQueued().core.table.rows;
    assert w.core.queues == map["A" := [m]];
    assert w.place == map[1 := InQueue("A")];
  }

  lemma SecondRequest()
    ensures Next(OneQueued(), SECOND_REQUEST) == TwoQueued()
  {
    NameIsAccepted();
    hide TrimSpace, ToLower, NewRow;
    var m, m' := Message(1, CONFIG_PUSH, [1]), Message(2, CONFIG_PUSH, [2]);
    assert [m] + [m'] == [m, m'];
    var w := Next(OneQueued(), SECOND_REQUEST);
    assert w.core.table.rows == TwoQueued().core.table.rows;
    assert w.core.queues == map["A" := [m, m']];
    assert w.place == map[1 := InQueue("A"), 2 := InQueue("A")];
  }

  lemma NameIsAccepted()
    ensures CreateError("", "A", "c", Some("")) == None && TrimSpace("A") == "A"
  {
    TrimOfTrimmed("A");
    TrimOfTrimmed("c");
    TrimOfTrimmed("");
    assert ToLower("c") == "c";
  }

  /** c authenticated as `device`, idle and without a command. */
  predicate Ready(w: World, c: ConnId, device: string) {
    Idle(w, c) && w.conns[c].session == Bound(NEW_SESSION, device, "")
  }

  lemma ReadyPulls(w: World, c: ConnId, device: string)
    requires Ready(w, c, device) && Trimmed(device) && device != ""
    ensures PullsFor(w, c) == device
    ensures QueueAt(w, device) != [] ==> HandsOver(w, c)
  {
    TrimOfTrimmed(device);
    hide TrimSpace;
  }

  lemma {:induction false} ConnectAndBind(w: World, c: ConnId, device: string)
    requires Inv(w) && OrderInv(w, device) && c !in w.conns
    ensures var steps := [Connect(c), Bind(c, device, "")];
            && IsRun(w, steps)
            && var w' := Run(w, steps);
               && Inv(w') && OrderInv(w', device) && Ready(w', c, device) && w'.core == w.core
               && (forall k :: k in w.conns ==> k in w'.conns && w'.conns[k] == w.conns[k])
               && (forall k :: k in w'.conns ==> k == c || k in w.conns)
  {
    hide Inv, OrderInv;
    StepKeepsInv(w, Connect(c));
    StepKeepsOrder(w, Connect(c), device);
    var w1 := Next(w, Connect(c));
    StepKeepsInv(w1, Bind(c, device, ""));
    StepKeepsOrder(w1, Bind(c, device, ""), device);
    TwoSteps(w, Connect(c), Bind(c, device, ""));
  }

  lemma FirstSessionPops(w: World, c: ConnId, device: string) returns (steps: seq<Step>)
    requires Inv(w) && OrderInv(w, device) && w.conns == map[]
    requires |QueueAt(w, device)| >= 2 && Trimmed(device) && device != ""
    ensures IsRun(w, steps)
    ensures var w' := Run(w, steps);
            && Inv(w') && OrderInv(w', device) && HoldsFor(w', c, device)
            && w'.conns.Keys == {c} && QueueAt(w', device) != []
  {
    hide Inv, OrderInv, Next, PopMoves, PullUuid, ResolveTenant, Trimmed;
    ConnectAndBind(w, c, device);
    var start := [Connect(c), Bind(c, device, "")];
    var w1 := Run(w, start);
    ReadyPulls(w1, c, device);
    var pop := PopDownlink(c, map[]);
    PopHandsOver(w1, c, map[]);
    NextOfPop(w1, c, map[]);
    StepKeepsOrder(w1, pop, device);
    var w2 := Next(w1, pop);
    AfterPopMoves(w1, w2, c, device, ResolveTenant(map[], device));
    OneStep(w1, pop);
    RunAppend(w, start, [pop]);
    steps := start + [pop];
  }

  lemma NextOfPop(w: World, c: ConnId, tenants: Tenants)
    requires Idle(w, c)
    ensures Enabled(w, PopDownlink(c, tenants)) && Next(w, PopDownlink(c, tenants)) == NextPop(w, c, tenants)
  {
    hide NextPop;
  }

  lemma AfterPopMoves(w: World, w': World, c: ConnId, device: string, tenantId: string)
    requires PopMoves(w, w', c, device, tenantId) && |QueueAt(w, device)| >= 2
    ensures HoldsFor(w', c, device) && QueueAt(w', device) != [] && w'.conns.Keys == w.conns.Keys
  {
    hide Image, TrimSpace, QueueAt;
    var m := QueueAt(w, device)[0];
    var conn := w.conns[c].(hand := Some(Image(device, tenantId, m)));
    assert w'.conns == w.conns[c := conn];
    ImageId(device, tenantId, m);
    KeysOfUpdate(w.conns, c, conn);
    hide PopMoves;
  }

  lemma KeysOfUpdate(conns: map<ConnId, Conn>, c: ConnId, conn: Conn)
    requires c in conns
    ensures conns[c := conn].Keys == conns.Keys
  {
  }

  lemma SecondSessionBreaks(w: World, c: ConnId, other: ConnId, device: string)
    requires Inv(w) && OrderInv(w, device) && c !in w.conns && HoldsFor(w, other, device)
    requires QueueAt(w, device) != [] && Trimmed(device) && device != ""
    ensures SomeRunGoesWrong(w, device)
  {
    hide Inv, OrderInv, Next, PullUuid, Trimmed, OrderedLog, Run, IsRun, ExclusiveRun, HandsOver;
    ConnectAndBind(w, c, device);
    var start := [Connect(c), Bind(c, device, "")];
    var w1 := Run(w, start);
    var pop := PopDownlink(c, map[]);
    ReadyPulls(w1, c, device);
    assert HoldsFor(w1, other, device);
    SharedPopBreaksOrder(w1, pop);
    OneStep(w1, pop);
    assert SomeRunGoesWrong(Run(w1, [pop]), device);
    WrongAfter(w1, [pop], device);
    WrongAfter(w, start, device);
  }

  /** Some run from w settles commands of the device in the wrong order. */
  ghost predicate SomeRunGoesWrong(w: World, device: string) {
    exists steps: seq<Step> :: IsRun(w, steps) && !OrderedLog(Run(w, steps).log, device)
  }

  lemma WrongAfter(w: World, start: seq<Step>, device: string)
    requires IsRun(w, start) && SomeRunGoesWrong(Run(w, start), device)
    ensures SomeRunGoesWrong(w, device)
  {
    hide Run, IsRun, OrderedLog;
    var rest :| IsRun(Run(w, start), rest) && !OrderedLog(Run(Run(w, start), rest).log, device);
    RunAppend(w, start, rest);
  }

  /** Two requests for one device, two sessions of that device: its commands may settle in the wrong order. */
  lemma TwoSessionsBreakOrder()
    ensures SomeRunGoesWrong(InitialWorld(0), "A")
  {
    QueuedOrder();
    QueuedCount();
    NameIsTrimmed();
    var queued := TwoQueued();
    var w0 := InitialWorld(0);
    var start := [FIRST_REQUEST, SECOND_REQUEST];
    hide Inv, OrderInv, Next, Trimmed, SomeRunGoesWrong, TwoQueued, QueueAt, HoldsFor, InitialWorld, Run, IsRun;
    var pops := FirstSessionPops(queued, 0, "A");
    SecondSessionBreaks(Run(queued, pops), 1, 0, "A");
    WrongAfter(queued, pops, "A");
    WrongAfter(w0, start, "A");
  }

  lemma QueuedCount()
    ensures |QueueAt(TwoQueued(), "A")| == 2 && TwoQueued().conns == map[]
  {
    hide NewRow;
  }

  lemma NameIsTrimmed()
    ensures Trimmed("A")
  {
  }

  lemma QueuedOrder()
    ensures IsRun(InitialWorld(0), [FIRST_REQUEST, SECOND_REQUEST])
    ensures Run(InitialWorld(0), [FIRST_REQUEST, SECOND_REQUEST]) == TwoQueued()
    ensures Inv(TwoQueued()) && OrderInv(TwoQueued(), "A")
  {
    InitialInv(0);
    InitialOrder(0, "A");
    FirstRequest();
    SecondRequest();
    var w0, queued := InitialWorld(0), TwoQueued();
    hide Inv, OrderInv, Moves, Next, InitialWorld, TwoQueued, NewRow;
    StepKeepsInv(w0, FIRST_REQUEST);
    StepKeepsOrder(w0, FIRST_REQUEST, "A");
    StepKeepsInv(OneQueued(), SECOND_REQUEST);
    StepKeepsOrder(OneQueued(), SECOND_REQUEST, "A");
    TwoSteps(w0, FIRST_REQUEST, SECOND_REQUEST);
  }
}
