/** What holds over every run of the downlink pipeline: conservation, accounting of losses, finality. */
module PipelineTheorems {
  import opened Wrappers
  import opened GosterWy
  import opened Text
  import opened Commands
  import opened CommandQueue
  import opened CommandStore
  import opened DownlinkService
  import opened CoreIngress
  import opened TcpSession
  import opened RequeueIdentity
  import opened Pipeline
  import opened PipelineInvariant

  lemma {:induction false} ReachableInv(capacity: int, steps: seq<Step>)
    requires IsRun(InitialWorld(capacity), steps)
    ensures Inv(Run(InitialWorld(capacity), steps))
  {
    InitialInv(capacity);
    RunKeepsInv(InitialWorld(capacity), steps);
  }

  // ---------------------------------------------------------------- conservation

  predicate Final(w: World, id: int) {
    id in w.core.table.rows && IsFinal(w.core.table.rows[id].status)
  }

  /**
   * The ledger is the truth about the real queues, sessions and rows. As a place is one value, every
   * created id is in exactly one of: one device's queue, one connection, settled, or lost.
   */
  lemma Conservation(capacity: int, steps: seq<Step>, id: int, u: string, c: ConnId)
    requires IsRun(InitialWorld(capacity), steps)
    ensures var w := Run(InitialWorld(capacity), steps);
            && (1 <= id < w.core.table.nextId <==> id in w.place)
            && (HasId(QueueAt(w, u), id) <==> id in w.place && w.place[id] == InQueue(u))
            && (HoldsId(w, c, id) <==> id in w.place && w.place[id] == HeldBy(c))
            && (Final(w, id) <==> id in w.place && w.place[id] == Settled)
  {
    hide Run, IsRun, Inv, QueueAt, HasId, HoldsId, Final;
    ReachableInv(capacity, steps);
    LedgerIsTrue(Run(InitialWorld(capacity), steps), id, u, c);
  }

  lemma LedgerIsTrue(w: World, id: int, u: string, c: ConnId)
    requires Inv(w)
    ensures 1 <= id < w.core.table.nextId <==> id in w.place
    ensures HasId(QueueAt(w, u), id) <==> id in w.place && w.place[id] == InQueue(u)
    ensures HoldsId(w, c, id) <==> id in w.place && w.place[id] == HeldBy(c)
    ensures Final(w, id) <==> id in w.place && w.place[id] == Settled
  {
    hide Image, ResolveDownlinkCmd, TrimSpace;
    assert QueueOk(w, u);
    if HasId(QueueAt(w, u), id) {
      var i :| 0 <= i < |QueueAt(w, u)| && QueueAt(w, u)[i].commandId == id;
      assert Waiting(w, u, QueueAt(w, u)[i]);
    }
    if HoldsId(w, c, id) {
      assert ConnOk(w, c);
    }
    if id in w.place {
      assert LedgerOk(w, id);
    }
  }

  /** In every reachable state a queued message is its row's message, still marked queued, once. */
  lemma {:induction false} QueuedMessagesIntact(capacity: int, steps: seq<Step>, u: string, i: nat, j: nat)
    requires IsRun(InitialWorld(capacity), steps)
    requires i < |QueueAt(Run(InitialWorld(capacity), steps), u)|
    ensures var w := Run(InitialWorld(capacity), steps);
            var q := QueueAt(w, u);
            && (capacity > 0 ==> |q| <= capacity)
            && q[i].commandId in w.core.table.rows
            && q[i] == MessageOf(q[i].commandId, w.core.table.rows[q[i].commandId])
            && w.core.table.rows[q[i].commandId].status == Queued
            && w.core.table.rows[q[i].commandId].uuid == TrimSpace(u)
            && (j < |q| && i != j ==> q[i].commandId != q[j].commandId)
  {
    var w := Run(InitialWorld(capacity), steps);
    ReachableInv(capacity, steps);
    CapacityConstant(InitialWorld(capacity), steps);
    hide Image, ResolveDownlinkCmd, TrimSpace, Run, IsRun;
    assert QueueOk(w, u);
    assert Waiting(w, u, QueueAt(w, u)[i]);
  }

  lemma {:induction false} CapacityConstant(w: World, steps: seq<Step>)
    requires Inv(w) && IsRun(w, steps)
    ensures Run(w, steps).core.capacity == w.core.capacity
    decreases steps
  {
    hide Inv, Next, Enabled, PlaceAfterEnqueue, PlaceAfterReturn, Image, ResolveDownlinkCmd, TrimSpace, PullUuid,
         CreateError, AckMatches, NewRow, WithStatus;
    if steps != [] {
      StepKeepsInv(w, steps[0]);
      CapacityConstant(Next(w, steps[0]), steps[1..]);
    }
  }

  // ---------------------------------------------------------------- losses

  /** The step pushes a message into a full queue. */
  predicate Overflows(w: World, step: Step)
    requires Enabled(w, step)
  {
    match step
    case Enqueue(tenantId, uuid, _, command, _, owner) =>
      CreateError(tenantId, uuid, command, owner).None? && IsFull(QueueAt(w, uuid), w.core.capacity)
    case WriteFail(c, _) => ReturnOverflows(w, w.conns[c].hand.value)
    case Disconnect(c) =>
      w.conns[c].session.inflight.Some? && ReturnOverflows(w, w.conns[c].session.inflight.value.command)
    case _ => false
  }

  predicate ReturnOverflows(w: World, command: AdapterCommand) {
    command.payload != [] && IsFull(QueueAt(w, command.uuid), w.core.capacity)
  }

  /** The step returns a command that has no payload, which the core refuses to requeue. */
  predicate Drops(w: World, step: Step)
    requires Enabled(w, step)
  {
    match step
    case WriteFail(c, _) => w.conns[c].hand.value.payload == []
    case Disconnect(c) =>
      w.conns[c].session.inflight.Some? && w.conns[c].session.inflight.value.command.payload == []
    case _ => false
  }

  function EvictedIds(w: World): set<int> {
    set id | id in w.place && w.place[id] == Evicted
  }

  function DroppedIds(w: World): set<int> {
    set id | id in w.place && w.place[id] == Dropped
  }

  /** One loss of each kind exactly where the step says so, and no loss is ever undone. */
  ghost predicate Loses(w: World, w': World, evicts: bool, drops: bool) {
    && |EvictedIds(w')| == |EvictedIds(w)| + (if evicts then 1 else 0)
    && |DroppedIds(w')| == |DroppedIds(w)| + (if drops then 1 else 0)
    && EvictedIds(w) <= EvictedIds(w') && DroppedIds(w) <= DroppedIds(w')
  }

  lemma StepLosses(w: World, step: Step)
    requires Inv(w) && Enabled(w, step)
    ensures Loses(w, Next(w, step), Overflows(w, step), Drops(w, step))
  {
    StepKeepsInv(w, step);
    hide Inv, Next, Moves, Loses, CreateError, TrimSpace;
    if step.Enqueue? {
      LossesOfEnqueueStep(w, step, Next(w, step));
    } else if step.WriteFail? || step.Disconnect? {
      LossesOfEnd(w, step, Next(w, step));
    } else {
      LossesOfOthers(w, step, Next(w, step));
    }
  }

  lemma LossesOfEnqueueStep(w: World, step: Step, w': World)
    requires step.Enqueue? && Inv(w) && Moves(w, step, w')
    ensures Loses(w, w', Overflows(w, step), false)
  {
    hide CreateError, TrimSpace, NewRow, Enqueued, LedgerOk, ConnOk;
    if CreateError(step.tenantId, step.uuid, step.command, step.owner).None? {
      assert QueueOk(w, step.uuid) && w.core.table.nextId !in w.place;
      hide QueueOk, Inv;
      LossesOfPush(w, w', step.uuid, w.core.table.nextId, 0);
    }
  }

  lemma LossesOfEnd(w: World, step: Step, w': World)
    requires step.WriteFail? || step.Disconnect?
    requires Inv(w) && Enabled(w, step) && Moves(w, step, w')
    ensures Loses(w, w', Overflows(w, step), Drops(w, step))
  {
    hide Inv, ReturnMoves, Loses, ResolveDownlinkCmd;
    if step.WriteFail? {
      LossesOfReturn(w, w', step.c, w.conns[step.c].hand.value);
    } else if w.conns[step.c].session.inflight.Some? {
      LossesOfReturn(w, w', step.c, w.conns[step.c].session.inflight.value.command);
    } else {
      NothingLost(w, w');
    }
  }

  lemma NothingLost(w: World, w': World)
    requires w'.place == w.place
    ensures Loses(w, w', false, false)
  {
  }

  lemma LossesOfOthers(w: World, step: Step, w': World)
    requires !step.Enqueue? && !step.WriteFail? && !step.Disconnect?
    requires Inv(w) && Enabled(w, step) && Moves(w, step, w')
    ensures Loses(w, w', false, false)
  {
    hide Inv, Loses, SettleMoves, PopMoves, PullUuid, TrimSpace, ResolveTenant, ResolveDownlinkCmd, AckMatches,
         WithStatus;
    match step {
      case PopDownlink(c, tenants) =>
        var uuid := PullUuid(PullRequestOf(w.conns[c].session));
        if w' == w {
          NothingLost(w, w');
        } else {
          LossesOfPop(w, w', c, uuid, ResolveTenant(tenants, uuid));
        }
      case FailUnmapped(c, text) => LossesOfSettle(w, w', c, w.conns[c].hand.value, Failed, TrimSpace(text));
      case FailPack(c, text) => LossesOfSettle(w, w', c, w.conns[c].hand.value, Failed, TrimSpace(text));
      case AckArrives(c, cmd, sequence) =>
        if AckMatches(w.conns[c].session, cmd, sequence) {
          AckHasInflight(w.conns[c].session, cmd, sequence);
          LossesOfSettle(w, w', c, w.conns[c].session.inflight.value.command, Acked, "");
        } else {
          NothingLost(w, w');
        }
      case _ => NothingLost(w, w');
    }
  }

  lemma LossesOfPop(w: World, w': World, c: ConnId, uuid: string, tenantId: string)
    requires Inv(w) && PopMoves(w, w', c, uuid, tenantId)
    ensures Loses(w, w', false, false)
  {
    hide Image, TrimSpace, LedgerOk, ConnOk;
    assert QueueOk(w, uuid);
    QueuedIds(w, uuid);
    LossesUnchanged(w, w', QueueAt(w, uuid)[0].commandId);
  }

  lemma LossesOfSettle(w: World, w': World, c: ConnId, command: AdapterCommand, status: CommandStatus, text: string)
    requires Inv(w) && SettleMoves(w, w', c, command, status, text)
    ensures Loses(w, w', false, false)
  {
    hide Inv, Image, TrimSpace, WithStatus;
    HeldFacts(w, c);
    LossesUnchanged(w, w', command.commandId);
  }

  lemma LossesUnchanged(w: World, w': World, id: int)
    requires id in w.place && !w.place[id].Evicted? && !w.place[id].Dropped?
    requires id in w'.place && w'.place == w.place[id := w'.place[id]] && !w'.place[id].Evicted?
             && !w'.place[id].Dropped?
    ensures EvictedIds(w') == EvictedIds(w) && DroppedIds(w') == DroppedIds(w)
  {
    assert EvictedIds(w') == EvictedIds(w);
    assert DroppedIds(w') == DroppedIds(w);
  }

  /** Pushing `id` into the queue of uuid costs one message, the one at `loser`, exactly if it is full. */
  lemma LossesOfPush(w: World, w': World, uuid: string, id: int, loser: int)
    requires QueueOk(w, uuid)
    requires id in w.place ==> w.place[id].HeldBy?
    requires IsFull(QueueAt(w, uuid), w.core.capacity) ==> 0 <= loser < |QueueAt(w, uuid)|
    requires w'.place == (if IsFull(QueueAt(w, uuid), w.core.capacity)
                          then w.place[QueueAt(w, uuid)[loser].commandId := Evicted] else w.place)[id := InQueue(uuid)]
    ensures |EvictedIds(w')| == |EvictedIds(w)| + if IsFull(QueueAt(w, uuid), w.core.capacity) then 1 else 0
    ensures EvictedIds(w) <= EvictedIds(w') && DroppedIds(w') == DroppedIds(w)
  {
    hide TrimSpace;
    var q := QueueAt(w, uuid);
    QueuedIds(w, uuid);
    assert DroppedIds(w') == DroppedIds(w);
    if IsFull(q, w.core.capacity) {
      assert EvictedIds(w') == EvictedIds(w) + {q[loser].commandId};
    } else {
      assert EvictedIds(w') == EvictedIds(w);
    }
  }

  lemma LossesOfReturn(w: World, w': World, c: ConnId, command: AdapterCommand)
    requires Inv(w) && ReturnMoves(w, w', c, command)
    ensures Loses(w, w', ReturnOverflows(w, command), command.payload == [])
  {
    hide Inv, QueueOk, Image, ResolveDownlinkCmd, TrimSpace, WithStatus;
    HeldFacts(w, c);
    QueueIsOk(w, command.uuid);
    if command.payload == [] {
      assert EvictedIds(w') == EvictedIds(w);
      assert DroppedIds(w') == DroppedIds(w) + {command.commandId};
    } else {
      LossesOfPush(w, w', command.uuid, command.commandId, |QueueAt(w, command.uuid)| - 1);
    }
  }

  lemma QueueIsOk(w: World, uuid: string)
    requires Inv(w)
    ensures QueueOk(w, uuid)
  {
    hide QueueOk, ConnOk, LedgerOk;
  }

  function OverflowCount(w: World, steps: seq<Step>): nat
    requires IsRun(w, steps)
    decreases steps
  {
    if steps == [] then 0
    else (if Overflows(w, steps[0]) then 1 else 0) + OverflowCount(Next(w, steps[0]), steps[1..])
  }

  function DropCount(w: World, steps: seq<Step>): nat
    requires IsRun(w, steps)
    decreases steps
  {
    if steps == [] then 0
    else (if Drops(w, steps[0]) then 1 else 0) + DropCount(Next(w, steps[0]), steps[1..])
  }

  lemma {:induction false} RunLosses(w: World, steps: seq<Step>)
    requires Inv(w) && IsRun(w, steps)
    ensures |EvictedIds(Run(w, steps))| == |EvictedIds(w)| + OverflowCount(w, steps)
    ensures |DroppedIds(Run(w, steps))| == |DroppedIds(w)| + DropCount(w, steps)
    decreases steps
  {
    hide Inv, Next, Enabled, EvictedIds, DroppedIds, Overflows, Drops, Moves;
    if steps != [] {
      StepKeepsInv(w, steps[0]);
      StepLosses(w, steps[0]);
      RunLosses(Next(w, steps[0]), steps[1..]);
    }
  }

  /**
   * Every loss is accounted for: exactly one id is evicted per push into a full queue, exactly one is
   * dropped per returned command without payload, and no other step, however connections come and go,
   * loses anything.
   */
  lemma {:induction false} LossesAreCounted(capacity: int, steps: seq<Step>)
    requires IsRun(InitialWorld(capacity), steps)
    ensures var w := Run(InitialWorld(capacity), steps);
            && |EvictedIds(w)| == OverflowCount(InitialWorld(capacity), steps)
            && |DroppedIds(w)| == DropCount(InitialWorld(capacity), steps)
  {
    InitialInv(capacity);
    RunLosses(InitialWorld(capacity), steps);
  }

  // ---------------------------------------------------------------- rows

  /** The status changes that happen, although the row update itself allows any. */
  predicate Transition(before: CommandStatus, after: CommandStatus) {
    match before
    case Queued => true && after != Acked
    case Sent => after != Failed
    case Acked => after == Acked
    case Failed => after == Failed
  }

  predicate RowMoves(before: CommandRow, after: CommandRow) {
    && after.tenantId == before.tenantId && after.uuid == before.uuid && after.cmdId == before.cmdId
    && after.command == before.command && after.payload == before.payload
    && Transition(before.status, after.status)
    && (IsFinal(before.status) ==> after == before)
    && (after.executed <==> IsFinal(after.status))
  }

  /** Every row of w lives on in w', moved as allowed; a new row has the payload `added`. */
  ghost predicate RowsMove(w: World, w': World, added: Option<seq<bv8>>) {
    && (forall id :: id in w.core.table.rows ==>
          id in w'.core.table.rows && RowMoves(w.core.table.rows[id], w'.core.table.rows[id]))
    && (forall id :: id in w'.core.table.rows && id !in w.core.table.rows ==>
          added == Some(w'.core.table.rows[id].payload))
  }

  /** Where `executed` means final, a row that keeps still moves as allowed. */
  lemma RowStays(w: World, id: int)
    requires Inv(w) && id in w.core.table.rows
    ensures RowMoves(w.core.table.rows[id], w.core.table.rows[id])
  {
    hide LedgerOk, ConnOk, QueueOk;
    assert id in w.place;
    LedgerRow(w, id);
  }

  lemma LedgerRow(w: World, id: int)
    requires id in w.place && id in w.core.table.rows && LedgerOk(w, id)
    ensures w.core.table.rows[id].executed <==> IsFinal(w.core.table.rows[id].status)
  {
  }

  lemma RowsOfUpdate(w: World, w': World, k: int, status: CommandStatus, errorText: string)
    requires Inv(w) && k in w.core.table.rows
    requires !IsFinal(w.core.table.rows[k].status) && Transition(w.core.table.rows[k].status, status)
    requires w'.core.table.rows == w.core.table.rows[k := WithStatus(w.core.table.rows[k], status, errorText)]
    ensures RowsMove(w, w', None)
  {
    hide TrimSpace, Inv;
    forall id | id in w.core.table.rows
      ensures id in w'.core.table.rows && RowMoves(w.core.table.rows[id], w'.core.table.rows[id])
    {
      RowStays(w, id);
    }
  }

  lemma RowsOfNoUpdate(w: World, w': World)
    requires Inv(w) && w'.core.table.rows == w.core.table.rows
    ensures RowsMove(w, w', None)
  {
    hide Inv, RowMoves;
    forall id | id in w.core.table.rows ensures RowMoves(w.core.table.rows[id], w'.core.table.rows[id]) {
      RowStays(w, id);
    }
  }

  lemma RowsOfInsert(w: World, w': World, k: int, row: CommandRow)
    requires Inv(w) && k !in w.core.table.rows
    requires w'.core.table.rows == w.core.table.rows[k := row]
    ensures RowsMove(w, w', Some(row.payload))
  {
    hide Inv, RowMoves;
    forall id | id in w.core.table.rows
      ensures id in w'.core.table.rows && RowMoves(w.core.table.rows[id], w'.core.table.rows[id])
    {
      RowStays(w, id);
    }
  }

  lemma RowsOfEnqueue(w: World, w': World, uuid: string, m: Message, row: CommandRow)
    requires Inv(w) && EnqueueMoves(w, w', uuid, m, row)
    ensures RowsMove(w, w', Some(row.payload))
  {
    hide TrimSpace, PlaceAfterEnqueue, Enqueued, QueueOk, ConnOk, LedgerOk, RowsMove;
    assert TableOk(w);
    hide Inv;
    RowsOfInsert(w, w', m.commandId, row);
  }

  lemma RowsOfSettle(w: World, w': World, c: ConnId, command: AdapterCommand, status: CommandStatus, errorText: string)
    requires Inv(w) && SettleMoves(w, w', c, command, status, errorText)
    ensures RowsMove(w, w', None)
  {
    hide Inv, Image, TrimSpace, WithStatus, RowsMove;
    HeldFacts(w, c);
    RowsOfUpdate(w, w', command.commandId, status, errorText);
  }

  lemma RowsOfWrite(w: World, w': World, c: ConnId, command: AdapterCommand, sequence: nat)
    requires Inv(w) && WriteMoves(w, w', c, command, sequence)
    ensures RowsMove(w, w', None)
  {
    hide Inv, Image, TrimSpace, WithStatus, ResolveDownlinkCmd, RowsMove;
    HeldFacts(w, c);
    RowsOfUpdate(w, w', command.commandId, Sent, "");
  }

  lemma RowsOfReturn(w: World, w': World, c: ConnId, command: AdapterCommand)
    requires Inv(w) && ReturnMoves(w, w', c, command)
    ensures RowsMove(w, w', None)
  {
    hide Inv, Image, TrimSpace, WithStatus, ResolveDownlinkCmd, RowsMove, PlaceAfterReturn;
    HeldFacts(w, c);
    if command.payload == [] {
      RowsOfNoUpdate(w, w');
    } else {
      RowsOfUpdate(w, w', command.commandId, Queued, "");
    }
  }

  lemma RowsOfPop(w: World, w': World, c: ConnId, uuid: string, tenantId: string)
    requires Inv(w) && PopMoves(w, w', c, uuid, tenantId)
    ensures RowsMove(w, w', None)
  {
    hide Inv, Image, TrimSpace, RowsMove;
    RowsOfNoUpdate(w, w');
  }

  lemma StepRows(w: World, step: Step)
    requires Inv(w) && Enabled(w, step)
    ensures RowsMove(w, Next(w, step), if step.Enqueue? then Some(step.payload) else None)
  {
    StepKeepsInv(w, step);
    hide Inv, Next, RowsMove, EnqueueMoves, TrimSpace, CreateError, Moves, NewRow;
    if step.Enqueue? {
      RowsOfEnqueueStep(w, step, Next(w, step));
    } else if step.Connect? || step.Bind? || step.WriteOther? || step.PopDownlink? {
      RowsOfLightStep(w, step, Next(w, step));
    } else if step.AckArrives? || step.Disconnect? {
      RowsOfInflightStep(w, step, Next(w, step));
    } else {
      RowsOfHandStep(w, step, Next(w, step));
    }
  }

  lemma RowsOfEnqueueStep(w: World, step: Step, w': World)
    requires step.Enqueue? && Inv(w) && Moves(w, step, w')
    ensures RowsMove(w, w', Some(step.payload))
  {
    hide Inv, RowsMove, EnqueueMoves, TrimSpace, CreateError, NormalizeTenant, ToLower;
    if CreateError(step.tenantId, step.uuid, step.command, step.owner).Some? {
      NothingMoves(w, Some(step.payload));
    } else {
      RowsOfEnqueue(w, w', step.uuid, Message(w.core.table.nextId, step.cmdId, step.payload),
                    NewRow(step.tenantId, step.uuid, step.cmdId, step.command, step.payload));
    }
  }

  lemma RowsOfLightStep(w: World, step: Step, w': World)
    requires step.Connect? || step.Bind? || step.WriteOther? || step.PopDownlink?
    requires Inv(w) && Enabled(w, step) && Moves(w, step, w')
    ensures RowsMove(w, w', None)
  {
    hide Inv, RowsMove, PopMoves, PullUuid, ResolveTenant;
    if step.PopDownlink? && w' != w {
      var uuid := PullUuid(PullRequestOf(w.conns[step.c].session));
      RowsOfPop(w, w', step.c, uuid, ResolveTenant(step.tenants, uuid));
    } else {
      RowsOfNoUpdate(w, w');
    }
  }

  lemma RowsOfHandStep(w: World, step: Step, w': World)
    requires step.FailUnmapped? || step.FailPack? || step.WriteOk? || step.WriteFail?
    requires Inv(w) && Enabled(w, step) && Moves(w, step, w')
    ensures RowsMove(w, w', None)
  {
    hide Inv, RowsMove, SettleMoves, WriteMoves, ReturnMoves, TrimSpace, ResolveDownlinkCmd;
    var command := w.conns[step.c].hand.value;
    match step {
      case WriteOk(c) => RowsOfWrite(w, w', c, command, w.conns[c].writeSeq + 1);
      case WriteFail(c, _) => RowsOfReturn(w, w', c, command);
      case _ => RowsOfSettle(w, w', step.c, command, Failed, TrimSpace(step.errorText));
    }
  }

  lemma RowsOfInflightStep(w: World, step: Step, w': World)
    requires step.AckArrives? || step.Disconnect?
    requires Inv(w) && Enabled(w, step) && Moves(w, step, w')
    ensures RowsMove(w, w', None)
  {
    hide Inv, RowsMove, SettleMoves, ReturnMoves, TrimSpace, AckMatches;
    var session := w.conns[step.c].session;
    if step.AckArrives? && AckMatches(session, step.cmd, step.sequence) {
      assert session.inflight.Some? by {
        AckHasInflight(session, step.cmd, step.sequence);
      }
      RowsOfSettle(w, w', step.c, session.inflight.value.command, Acked, "");
    } else if step.Disconnect? && session.inflight.Some? {
      RowsOfReturn(w, w', step.c, session.inflight.value.command);
    } else {
      RowsOfNoUpdate(w, w');
    }
  }

  lemma NothingMoves(w: World, added: Option<seq<bv8>>)
    requires Inv(w)
    ensures RowsMove(w, w, added)
  {
    hide Inv, RowMoves;
    forall id | id in w.core.table.rows ensures RowMoves(w.core.table.rows[id], w.core.table.rows[id]) {
      RowStays(w, id);
    }
  }

  /**
   * Finality: once a row is acked or failed, no run of connections, retries and new requests ever
   * writes it again; and what a row asks for never changes at all.
   */
  lemma {:induction false} FinalRowsStay(w: World, steps: seq<Step>, id: int)
    requires Inv(w) && IsRun(w, steps) && id in w.core.table.rows
    ensures var before := w.core.table.rows[id];
            && id in Run(w, steps).core.table.rows
            && var after := Run(w, steps).core.table.rows[id];
               && (IsFinal(before.status) ==> after == before)
               && MessageOf(id, after) == MessageOf(id, before) && after.uuid == before.uuid
               && after.tenantId == before.tenantId && after.command == before.command
    decreases steps
  {
    hide Inv, Next, Enabled, Moves;
    if steps != [] {
      StepKeepsInv(w, steps[0]);
      StepRows(w, steps[0]);
      FinalRowsStay(Next(w, steps[0]), steps[1..], id);
    }
  }

  // ---------------------------------------------------------------- rows are requests

  /** A request that names a device and a command, for a device of the tenant that asks. */
  predicate Admissible(step: Step) {
    && step.Enqueue? && TrimSpace(step.uuid) != "" && TrimSpace(ToLower(step.command)) != ""
    && step.owner.Some? && TenantNamed(step.owner.value) == TenantNamed(step.tenantId)
  }

  /** A blank name stands for the tenant from before there were any. */
  function TenantNamed(tenantId: string): string {
    if TrimSpace(tenantId) == "" then "tenant_legacy" else TrimSpace(tenantId)
  }

  function Admitted(steps: seq<Step>): (requests: seq<Step>)
    decreases steps
  {
    if steps == [] then [] else (if Admissible(steps[0]) then [steps[0]] else []) + Admitted(steps[1..])
  }

  /** The row asks for what the request asked for. */
  predicate Asks(row: CommandRow, request: Step)
    requires request.Enqueue?
  {
    && row.cmdId == request.cmdId && row.payload == request.payload
    && row.uuid == TrimSpace(request.uuid) && row.command == TrimSpace(ToLower(request.command))
    && row.tenantId == TenantNamed(request.tenantId)
  }

  lemma IdsOfStep(w: World, step: Step)
    requires Inv(w) && Enabled(w, step)
    ensures var w' := Next(w, step);
            && w'.core.table.nextId == w.core.table.nextId + (if Admissible(step) then 1 else 0)
            && (Admissible(step) ==>
                  w.core.table.nextId in w'.core.table.rows && Asks(w'.core.table.rows[w.core.table.nextId], step))
  {
    StepKeepsInv(w, step);
    hide Inv, Next, TrimSpace, ToLower, PlaceAfterEnqueue, PlaceAfterReturn, Image, ResolveDownlinkCmd,
         PullUuid, AckMatches, WithStatus, Enqueued;
  }

  lemma {:induction false} RunIds(w: World, steps: seq<Step>, i: nat)
    requires Inv(w) && IsRun(w, steps)
    ensures Run(w, steps).core.table.nextId == w.core.table.nextId + |Admitted(steps)|
    ensures i < |Admitted(steps)| ==>
              var id, rows := w.core.table.nextId + i, Run(w, steps).core.table.rows;
              Admitted(steps)[i].Enqueue? && id in rows && Asks(rows[id], Admitted(steps)[i])
    decreases steps
  {
    hide Inv, Next, Enabled, Admissible, Asks, Moves, IsFinal;
    if steps != [] {
      var w' := Next(w, steps[0]);
      StepKeepsInv(w, steps[0]);
      IdsOfStep(w, steps[0]);
      if Admissible(steps[0]) {
        AdmissibleAsks(steps[0]);
        if i == 0 {
          FinalRowsStay(w', steps[1..], w.core.table.nextId);
          AsksStill(w'.core.table.rows[w.core.table.nextId], Run(w, steps).core.table.rows[w.core.table.nextId],
                    steps[0]);
          RunIds(w', steps[1..], 0);
        } else {
          RunIds(w', steps[1..], i - 1);
        }
      } else {
        RunIds(w', steps[1..], i);
      }
    }
  }

  lemma AdmissibleAsks(step: Step)
    requires Admissible(step)
    ensures step.Enqueue?
  {
  }

  lemma AsksStill(row: CommandRow, row': CommandRow, request: Step)
    requires request.Enqueue? && Asks(row, request)
    requires row'.cmdId == row.cmdId && row'.payload == row.payload && row'.uuid == row.uuid
    requires row'.tenantId == row.tenantId && row'.command == row.command
    ensures Asks(row', request)
  {
  }

  /**
   * The web requests that are admissible, and no others, become commands, numbered in the order of
   * arrival; and whatever happens to a command, its row still asks for what was requested.
   */
  lemma {:induction false} RowsAreRequests(capacity: int, steps: seq<Step>, id: int)
    requires IsRun(InitialWorld(capacity), steps)
    ensures var table := Run(InitialWorld(capacity), steps).core.table;
            && (id in table.rows <==> 1 <= id <= |Admitted(steps)|)
            && (id in table.rows ==>
                  Admitted(steps)[id - 1].Enqueue? && Asks(table.rows[id], Admitted(steps)[id - 1]))
  {
    hide Run, IsRun, Inv, Asks, Admissible, Admitted;
    InitialInv(capacity);
    ReachableInv(capacity, steps);
    IdsInTable(Run(InitialWorld(capacity), steps), id);
    RunIds(InitialWorld(capacity), steps, if 1 <= id <= |Admitted(steps)| then id - 1 else 0);
  }

  lemma IdsInTable(w: World, id: int)
    requires Inv(w)
    ensures id in w.core.table.rows <==> 1 <= id < w.core.table.nextId
  {
    hide QueueOk, ConnOk, LedgerOk;
  }

  // ---------------------------------------------------------------- no loss without overflow

  /** id is in its own device's queue, held by one connection, or settled. */
  ghost predicate Kept(w: World, id: int) {
    || Final(w, id)
    || (exists c :: HoldsId(w, c, id))
    || (id in w.core.table.rows &&
        exists u :: HasId(QueueAt(w, u), id) && TrimSpace(u) == w.core.table.rows[id].uuid)
  }

  lemma KeptUnlessLost(w: World, id: int)
    requires Inv(w) && id in w.place && w.place[id] != Evicted
    requires id in w.core.table.rows && w.core.table.rows[id].payload != []
    ensures Kept(w, id)
  {
    hide Image, ResolveDownlinkCmd, TrimSpace;
    assert LedgerOk(w, id);
    if w.place[id].InQueue? {
      QueuedUnderOwnDevice(w, id, w.place[id].uuid);
    }
  }

  lemma QueuedUnderOwnDevice(w: World, id: int, u: string)
    requires QueueOk(w, u) && HasId(QueueAt(w, u), id)
    ensures id in w.core.table.rows && TrimSpace(u) == w.core.table.rows[id].uuid
  {
    hide TrimSpace;
    var i :| 0 <= i < |QueueAt(w, u)| && QueueAt(w, u)[i].commandId == id;
    assert Waiting(w, u, QueueAt(w, u)[i]);
  }

  /** The step pushes a message into a full queue of the device. */
  predicate OverflowsAt(w: World, step: Step, device: string)
    requires Enabled(w, step)
  {
    && Overflows(w, step)
    && match step
       case Enqueue(_, uuid, _, _, _, _) => TrimSpace(uuid) == device
       case WriteFail(c, _) => w.conns[c].hand.value.uuid == device
       case Disconnect(c) => w.conns[c].session.inflight.value.command.uuid == device
       case _ => false
  }

  /** No push of the run meets a full queue of the device. */
  predicate NeverFull(w: World, steps: seq<Step>, device: string)
    requires IsRun(w, steps)
    decreases steps
  {
    steps != [] ==> !OverflowsAt(w, steps[0], device) && NeverFull(Next(w, steps[0]), steps[1..], device)
  }

  /** A message is evicted by a push into the queue of its own device alone. */
  lemma EvictedByOwnQueue(w: World, step: Step, id: int)
    requires Inv(w) && Enabled(w, step) && id in Next(w, step).place && Next(w, step).place[id] == Evicted
    ensures id in w.place && id in w.core.table.rows
    ensures w.place[id] == Evicted || OverflowsAt(w, step, w.core.table.rows[id].uuid)
  {
    StepKeepsInv(w, step);
    var w' := Next(w, step);
    hide Inv, Next, EnqueueMoves, SettleMoves, WriteMoves, PopMoves, ReturnMoves, QuietMoves, CreateError, TrimSpace,
         ResolveDownlinkCmd, AckMatches, PullUuid, ResolveTenant, NewRow, QueueAt;
    PlaceHasRow(w, id);
    if step.Enqueue? {
      EvictedByEnqueue(w, step, w', id);
    } else if step.WriteFail? {
      EvictedByReturn(w, w', step.c, w.conns[step.c].hand.value, id);
    } else if step.Disconnect? && w.conns[step.c].session.inflight.Some? {
      EvictedByReturn(w, w', step.c, w.conns[step.c].session.inflight.value.command, id);
    } else {
      EvictedByNoOther(w, step, w', id);
    }
  }

  lemma PlaceHasRow(w: World, id: int)
    requires Inv(w)
    ensures id in w.core.table.rows <==> id in w.place
  {
    hide ConnOk, LedgerOk, QueueOk;
  }

  lemma EvictedByEnqueue(w: World, step: Step, w': World, id: int)
    requires step.Enqueue? && Inv(w) && Moves(w, step, w') && id in w'.place && w'.place[id] == Evicted
    ensures id in w.place
    ensures w.place[id] == Evicted || (id in w.core.table.rows && OverflowsAt(w, step, w.core.table.rows[id].uuid))
  {
    QueueIsOk(w, step.uuid);
    hide Inv, CreateError, TrimSpace, NewRow, Enqueued;
  }

  lemma EvictedByReturn(w: World, w': World, c: ConnId, command: AdapterCommand, id: int)
    requires Inv(w) && ReturnMoves(w, w', c, command) && id in w'.place && w'.place[id] == Evicted
    ensures id in w.place
    ensures w.place[id] == Evicted
            || (id in w.core.table.rows && ReturnOverflows(w, command) && w.core.table.rows[id].uuid == command.uuid)
  {
    hide Inv, TrimSpace, WithStatus, Image;
    HeldFacts(w, c);
    LastIsOwn(w, command);
  }

  /** The last message in the queue of a held command's device belongs to that device. */
  lemma LastIsOwn(w: World, command: AdapterCommand)
    requires Inv(w) && command.commandId in w.core.table.rows
    requires var row := w.core.table.rows[command.commandId];
             Trimmed(row.uuid) && command == Image(row.uuid, command.tenantId, MessageOf(command.commandId, row))
    ensures var q := QueueAt(w, command.uuid);
            q != [] ==> Waiting(w, command.uuid, q[|q| - 1]) && TrimSpace(command.uuid) == command.uuid
  {
    var row := w.core.table.rows[command.commandId];
    ImageId(row.uuid, command.tenantId, MessageOf(command.commandId, row));
    TrimOfTrimmed(row.uuid);
    QueueIsOk(w, command.uuid);
    hide Inv, Image, TrimSpace;
  }

  lemma EvictedByNoOther(w: World, step: Step, w': World, id: int)
    requires !step.Enqueue? && !step.WriteFail? && Enabled(w, step)
    requires step.Disconnect? ==> w.conns[step.c].session.inflight.None?
    requires Moves(w, step, w') && id in w'.place && w'.place[id] == Evicted
    ensures id in w.place && w.place[id] == Evicted
  {
    hide CreateError, TrimSpace, ResolveDownlinkCmd, PullUuid, ResolveTenant, AckMatches, WithStatus, Image;
  }

  lemma {:induction false} KeptFromEviction(w: World, steps: seq<Step>, id: int)
    requires Inv(w) && IsRun(w, steps) && (id in w.place ==> w.place[id] != Evicted)
    requires id in Run(w, steps).core.table.rows && NeverFull(w, steps, Run(w, steps).core.table.rows[id].uuid)
    ensures id in Run(w, steps).place && Run(w, steps).place[id] != Evicted
    decreases steps
  {
    hide Inv, Next, Enabled, Moves, OverflowsAt;
    if steps == [] {
      PlaceHasRow(w, id);
    } else {
      var w' := Next(w, steps[0]);
      StepKeepsInv(w, steps[0]);
      if id in w'.place && w'.place[id] == Evicted {
        EvictedByOwnQueue(w, steps[0], id);
        FinalRowsStay(w, steps, id);
      }
      KeptFromEviction(w', steps[1..], id);
    }
  }

  /**
   * As long as no push meets a full queue of its own device, a command that carries a payload is never
   * lost, whatever happens to other devices and whatever the other commands carry.
   */
  lemma {:induction false} NoLossWithoutOverflow(capacity: int, steps: seq<Step>, id: int)
    requires IsRun(InitialWorld(capacity), steps)
    requires id in Run(InitialWorld(capacity), steps).core.table.rows
    requires Run(InitialWorld(capacity), steps).core.table.rows[id].payload != []
    requires NeverFull(InitialWorld(capacity), steps, Run(InitialWorld(capacity), steps).core.table.rows[id].uuid)
    ensures Kept(Run(InitialWorld(capacity), steps), id)
  {
    InitialInv(capacity);
    ReachableInv(capacity, steps);
    hide Run, IsRun, NeverFull, Kept, Inv;
    KeptFromEviction(InitialWorld(capacity), steps, id);
    KeptUnlessLost(Run(InitialWorld(capacity), steps), id);
  }
}
