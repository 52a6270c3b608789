/** What every step of the downlink pipeline keeps. */
module PipelineInvariant {
  import opened Wrappers
  import opened GosterWy
  import opened Text
  import opened Commands
  import opened CommandQueue
  import opened CommandStore
  import opened DownlinkService
  import opened CoreIngress
  import opened TcpSession
  import opened RequeueIdentity
  import opened Pipeline

  /** The message a row stands for. */
  function MessageOf(id: int, row: CommandRow): Message {
    Message(id, row.cmdId, row.payload)
  }

  /** Exactly the ids handed out so far have a row and a place. */
  ghost predicate TableOk(w: World) {
    && w.core.table.nextId >= 1
    && (forall id :: id in w.core.table.rows <==> 1 <= id < w.core.table.nextId)
    && (forall id :: id in w.place <==> 1 <= id < w.core.table.nextId)
  }

  /** m waits in the queue of uuid: unaltered, under its own device, still marked queued. */
  predicate Waiting(w: World, uuid: string, m: Message) {
    var rows := w.core.table.rows;
    && m.commandId in rows && m.commandId in w.place
    && w.place[m.commandId] == InQueue(uuid)
    && m == MessageOf(m.commandId, rows[m.commandId])
    && rows[m.commandId].status == Queued
    && rows[m.commandId].uuid == TrimSpace(uuid) && TrimSpace(uuid) != ""
  }

  predicate HasId(q: seq<Message>, id: int) {
    exists i :: 0 <= i < |q| && q[i].commandId == id
  }

  predicate Distinct(q: seq<Message>) {
    forall i, j :: 0 <= i < j < |q| ==> q[i].commandId != q[j].commandId
  }

  predicate QueueOk(w: World, uuid: string) {
    var q := QueueAt(w, uuid);
    && (forall i :: 0 <= i < |q| ==> Waiting(w, uuid, q[i]))
    && Distinct(q)
    && (w.core.capacity > 0 ==> |q| <= w.core.capacity)
  }

  /** c holds the command: it is the image of its row's message, under that row's device. */
  predicate Holds(w: World, c: ConnId, command: AdapterCommand, status: CommandStatus) {
    var rows := w.core.table.rows;
    var id := command.commandId;
    && id in rows && id in w.place
    && w.place[id] == HeldBy(c)
    && rows[id].status == status
    && Trimmed(rows[id].uuid) && rows[id].uuid != ""
    && command == Image(rows[id].uuid, command.tenantId, MessageOf(id, rows[id]))
  }

  /** At most one command per connection: in hand or in flight, never both, and none once closed. */
  predicate ConnOk(w: World, c: ConnId)
    requires c in w.conns
  {
    var conn := w.conns[c];
    && (conn.session.authenticated ==> conn.session.identity == Identity("uuid", conn.session.uuid))
    && (conn.hand.Some? ==>
          && conn.open && conn.session.authenticated && conn.session.inflight.None?
          && Holds(w, c, conn.hand.value, Queued))
    && (conn.session.inflight.Some? ==>
          && conn.open && conn.session.authenticated
          && Holds(w, c, conn.session.inflight.value.command, Sent)
          && ResolveDownlinkCmd(conn.session.inflight.value.command).Some?)
  }

  function HeldCommand(conn: Conn): Option<AdapterCommand> {
    if conn.hand.Some? then conn.hand
    else if conn.session.inflight.Some? then Some(conn.session.inflight.value.command)
    else None
  }

  predicate HoldsId(w: World, c: ConnId, id: int) {
    c in w.conns && HeldCommand(w.conns[c]).Some? && HeldCommand(w.conns[c]).value.commandId == id
  }

  /** The place of each id tells the truth about the real state. */
  predicate LedgerOk(w: World, id: int)
    requires id in w.place && id in w.core.table.rows
  {
    var row := w.core.table.rows[id];
    && (w.place[id].InQueue? ==> HasId(QueueAt(w, w.place[id].uuid), id))
    && (w.place[id].HeldBy? ==> HoldsId(w, w.place[id].conn, id))
    && (w.place[id].Settled? <==> IsFinal(row.status))
    && (w.place[id].Dropped? ==> row.payload == [])
    && (row.executed <==> IsFinal(row.status))
  }

  ghost predicate Inv(w: World) {
    && TableOk(w)
    && (forall u :: QueueOk(w, u))
    && (forall c :: c in w.conns ==> ConnOk(w, c))
    && (forall id :: id in w.place ==> LedgerOk(w, id))
  }

  lemma InitialInv(capacity: int)
    ensures Inv(InitialWorld(capacity))
  {
  }

  // ---------------------------------------------------------------- effects on the core

  /** A status report about an existing row rewrites that row and nothing else. */
  lemma MarkEffect(c: Core, id: int, status: CommandStatus, errorText: string)
    requires id > 0 && id in c.table.rows
    ensures AfterMark(c, id, status, errorText)
         == c.(table := c.table.(rows := c.table.rows[id := WithStatus(c.table.rows[id], status, errorText)]))
  {
  }

  /** A requeue within capacity puts the message at the head and marks its row queued again. */
  lemma RequeueEffect(c: Core, uuid: string, m: Message)
    requires m.commandId > 0 && m.commandId in c.table.rows
    requires c.capacity > 0 ==> |QueueOf(c.queues, uuid)| <= c.capacity
    ensures var q := QueueOf(c.queues, uuid);
            var kept := if IsFull(q, c.capacity) then q[..|q| - 1] else q;
            && Requeued(q, m, c.capacity) == Some([m] + kept)
            && AfterRequeue(c, uuid, m) ==
               c.(queues := c.queues[uuid := [m] + kept],
                  table := c.table.(
                    rows := c.table.rows[m.commandId := WithStatus(c.table.rows[m.commandId], Queued, "")]))
  {
  }

  // ---------------------------------------------------------------- what a step leaves alone

  /** The row and the place of id are the same in both worlds. */
  predicate Same(w: World, w': World, id: int) {
    && id in w.place && id in w.core.table.rows && id in w'.place && id in w'.core.table.rows
    && w'.place[id] == w.place[id] && w'.core.table.rows[id] == w.core.table.rows[id]
  }

  /** Every id outside `changed` keeps its row and place; the ids only grow. */
  ghost predicate OnlyChanges(w: World, w': World, changed: set<int>) {
    && w'.core.capacity == w.core.capacity
    && forall id :: id in w.place && id !in changed ==> Same(w, w', id)
  }

  lemma QueueFrame(w: World, w': World, u: string, changed: set<int>)
    requires QueueOk(w, u) && OnlyChanges(w, w', changed)
    requires QueueAt(w', u) == QueueAt(w, u)
    requires forall id :: id in changed && id in w.place ==> w.place[id] != InQueue(u)
    ensures QueueOk(w', u)
  {
    var q := QueueAt(w, u);
    forall i | 0 <= i < |q| ensures Waiting(w', u, q[i]) {
      assert Waiting(w, u, q[i]);
      assert q[i].commandId !in changed;
    }
  }

  lemma ConnFrame(w: World, w': World, c: ConnId, changed: set<int>)
    requires c in w.conns && ConnOk(w, c) && OnlyChanges(w, w', changed)
    requires c in w'.conns && w'.conns[c] == w.conns[c]
    requires forall id :: id in changed && id in w.place ==> w.place[id] != HeldBy(c)
    ensures ConnOk(w', c)
  {
    var conn := w.conns[c];
    if conn.hand.Some? {
      assert Same(w, w', conn.hand.value.commandId);
    }
    if conn.session.inflight.Some? {
      assert Same(w, w', conn.session.inflight.value.command.commandId);
    }
  }

  lemma LedgerFrame(w: World, w': World, id: int)
    requires id in w.place && id in w.core.table.rows && LedgerOk(w, id) && Same(w, w', id)
    requires w.place[id].InQueue? ==> HasId(QueueAt(w', w.place[id].uuid), id)
    requires w.place[id].HeldBy? ==> HoldsId(w', w.place[id].conn, id)
    ensures LedgerOk(w', id)
  {
  }

  lemma HasIdAt(q: seq<Message>, i: nat)
    requires i < |q|
    ensures HasId(q, q[i].commandId)
  {
  }

  // ---------------------------------------------------------------- one lemma per kind of step

  /** The new world of an accepted enqueue, field by field. */
  ghost predicate EnqueueMoves(w: World, w': World, uuid: string, m: Message, row: CommandRow) {
    && m == MessageOf(m.commandId, row) && m.commandId == w.core.table.nextId
    && row.uuid == TrimSpace(uuid) && row.uuid != "" && row.status == Queued && !row.executed
    && w'.core.capacity == w.core.capacity
    && w'.core.table == Table(w.core.table.rows[m.commandId := row], w.core.table.nextId + 1)
    && w'.core.queues == w.core.queues[uuid := Enqueued(QueueAt(w, uuid), m, w.core.capacity)]
    && w'.place == PlaceAfterEnqueue(w, uuid)
    && w'.conns == w.conns && w'.log == w.log
  }

  lemma StepEnqueue(w: World, tenantId: string, uuid: string, cmdId: CmdId, command: string, payload: seq<bv8>,
                    owner: Option<string>)
    requires Inv(w)
    ensures Inv(NextEnqueue(w, tenantId, uuid, cmdId, command, payload, owner))
    ensures CreateError(tenantId, uuid, command, owner).None? ==>
              EnqueueMoves(w, NextEnqueue(w, tenantId, uuid, cmdId, command, payload, owner), uuid,
                           Message(w.core.table.nextId, cmdId, payload),
                           NewRow(tenantId, uuid, cmdId, command, payload))
  {
    hide Inv, TrimSpace, NormalizeTenant, ToLower, PlaceAfterEnqueue, Enqueued;
    if CreateError(tenantId, uuid, command, owner).None? {
      var w' := NextEnqueue(w, tenantId, uuid, cmdId, command, payload, owner);
      var m := Message(w.core.table.nextId, cmdId, payload);
      var row := NewRow(tenantId, uuid, cmdId, command, payload);
      assert EnqueueMoves(w, w', uuid, m, row);
      EnqueueKeepsInv(w, w', uuid, m, row);
    }
  }

  lemma EnqueueKeepsInv(w: World, w': World, uuid: string, m: Message, row: CommandRow)
    requires Inv(w) && EnqueueMoves(w, w', uuid, m, row)
    ensures Inv(w')
  {
    hide Image, ResolveDownlinkCmd, TrimSpace, HasId, LedgerOk, ConnOk, QueueOk;
    var q := QueueAt(w, uuid);
    var changed := {m.commandId} + if IsFull(q, w.core.capacity) then {q[0].commandId} else {};
    QueuedIds(w, uuid);
    assert OnlyChanges(w, w', changed);
    forall u ensures QueueOk(w', u) {
      if u == uuid {
        EnqueuedQueue(w, w', uuid, m, row);
      } else {
        QueueFrame(w, w', u, changed);
      }
    }
    forall c | c in w'.conns ensures ConnOk(w', c) {
      ConnFrame(w, w', c, changed);
    }
    forall k | k in w'.place ensures k in w'.core.table.rows && LedgerOk(w', k) {
      EnqueuedLedger(w, w', uuid, m, row, k);
    }
  }

  lemma QueuedIds(w: World, uuid: string)
    requires QueueOk(w, uuid)
    ensures var q := QueueAt(w, uuid);
            forall i :: 0 <= i < |q| ==> q[i].commandId in w.place && w.place[q[i].commandId] == InQueue(uuid)
  {
    var q := QueueAt(w, uuid);
    forall i | 0 <= i < |q| ensures q[i].commandId in w.place && w.place[q[i].commandId] == InQueue(uuid) {
      assert Waiting(w, uuid, q[i]);
    }
  }

  lemma EnqueuedQueue(w: World, w': World, uuid: string, m: Message, row: CommandRow)
    requires TableOk(w) && QueueOk(w, uuid) && EnqueueMoves(w, w', uuid, m, row)
    ensures QueueOk(w', uuid)
  {
    hide TrimSpace;
    var q, q' := QueueAt(w, uuid), QueueAt(w', uuid);
    var shift := if IsFull(q, w.core.capacity) then 1 else 0;
    forall i | 0 <= i < |q'| ensures Waiting(w', uuid, q'[i]) {
      if i < |q'| - 1 {
        assert q'[i] == q[i + shift];
        assert Waiting(w, uuid, q[i + shift]);
      }
    }
    forall i, j | 0 <= i < j < |q'| ensures q'[i].commandId != q'[j].commandId {
      assert q'[i] == q[i + shift];
      assert Waiting(w, uuid, q[i + shift]);
    }
  }

  lemma EnqueuedLedger(w: World, w': World, uuid: string, m: Message, row: CommandRow, k: int)
    requires TableOk(w) && QueueOk(w, uuid) && EnqueueMoves(w, w', uuid, m, row)
    requires k in w'.place && (k in w.place ==> LedgerOk(w, k))
    ensures k in w'.core.table.rows && LedgerOk(w', k)
  {
    hide TrimSpace;
    var q, q' := QueueAt(w, uuid), QueueAt(w', uuid);
    var shift := if IsFull(q, w.core.capacity) then 1 else 0;
    QueuedIds(w, uuid);
    if k == m.commandId {
      HasIdAt(q', |q'| - 1);
    } else if shift == 1 && k == q[0].commandId {
      assert Waiting(w, uuid, q[0]);
      assert LedgerOk(w', k);
    } else {
      if w.place[k] == InQueue(uuid) {
        var i :| 0 <= i < |q| && q[i].commandId == k;
        assert q'[i - shift] == q[i];
        HasIdAt(q', i - shift);
      }
      LedgerFrame(w, w', k);
    }
  }

  // ---------------------------------------------------------------- popping

  /** A pop either changes nothing or hands over the head of the queue of the session's device. */
  lemma PopEffect(c: Core, tenants: Tenants, s: Session)
    ensures var (c', r) := AfterPopCommand(c, tenants, s);
            var uuid := PullUuid(PullRequestOf(s));
            var q := QueueOf(c.queues, uuid);
            if !s.authenticated || s.inflight.Some? || uuid == "" || q == [] then c' == c && r == None
            else
              && r == Some(Image(uuid, ResolveTenant(tenants, uuid), q[0]))
              && c' == c.(queues := c'.queues)
              && QueueOf(c'.queues, uuid) == q[1..]
              && forall u :: u != uuid ==> QueueOf(c'.queues, u) == QueueOf(c.queues, u)
  {
    hide TrimSpace, PullUuid, ResolveTenant, ToCanonical;
    var uuid := PullUuid(PullRequestOf(s));
    var (c1, m) := AfterPop(c, uuid);
    assert Pulled(c1, tenants, uuid, 0) == (c1, []);
    if m.Some? {
      var command := ToCanonical(uuid, ResolveTenant(tenants, uuid), m.value);
      assert [command] + [] == [command];
      assert Pulled(c, tenants, uuid, 1) == (c1, [command]);
    }
  }

  ghost predicate PopMoves(w: World, w': World, c: ConnId, uuid: string, tenantId: string) {
    var q := QueueAt(w, uuid);
    && c in w.conns && w.conns[c].open && HeldCommand(w.conns[c]).None? && w.conns[c].session.authenticated
    && q != [] && TrimSpace(uuid) == uuid
    && w'.core == w.core.(queues := w'.core.queues)
    && QueueAt(w', uuid) == q[1..] && (forall u :: u != uuid ==> QueueAt(w', u) == QueueAt(w, u))
    && w'.place == w.place[q[0].commandId := HeldBy(c)]
    && w'.conns == w.conns[c := w.conns[c].(hand := Some(Image(uuid, tenantId, q[0])))]
    && w'.log == w.log + [Popped(c, q[0].commandId)]
  }

  lemma PopKeepsInv(w: World, w': World, c: ConnId, uuid: string, tenantId: string)
    requires Inv(w) && PopMoves(w, w', c, uuid, tenantId)
    ensures Inv(w')
  {
    hide ResolveDownlinkCmd, TrimSpace, HasId, LedgerOk;
    var q := QueueAt(w, uuid);
    var id := q[0].commandId;
    assert QueueOk(w, uuid);
    assert Waiting(w, uuid, q[0]);
    QueuedIds(w, uuid);
    assert OnlyChanges(w, w', {id});
    forall u ensures QueueOk(w', u) {
      if u == uuid {
        ShortenedQueue(w, w', uuid, c);
      } else {
        assert QueueOk(w, u);
        QueueFrame(w, w', u, {id});
      }
    }
    forall k | k in w'.conns ensures ConnOk(w', k) {
      assert ConnOk(w, k);
      if k == c {
        TrimIsTrimmed(uuid);
        assert Holds(w', c, Image(uuid, tenantId, q[0]), Queued);
      } else {
        ConnFrame(w, w', k, {id});
      }
    }
    forall k | k in w'.place ensures k in w'.core.table.rows && LedgerOk(w', k) {
      PoppedLedger(w, w', c, uuid, tenantId, k);
    }
  }

  lemma ShortenedQueue(w: World, w': World, uuid: string, c: ConnId)
    requires QueueOk(w, uuid) && QueueAt(w, uuid) != [] && QueueAt(w', uuid) == QueueAt(w, uuid)[1..]
    requires w'.core == w.core.(queues := w'.core.queues)
    requires w'.place == w.place[QueueAt(w, uuid)[0].commandId := HeldBy(c)]
    ensures QueueOk(w', uuid)
  {
    hide TrimSpace;
    var q := QueueAt(w, uuid);
    forall i | 0 <= i < |q| - 1 ensures Waiting(w', uuid, QueueAt(w', uuid)[i]) {
      assert Waiting(w, uuid, q[i + 1]);
    }
  }

  lemma PoppedLedger(w: World, w': World, c: ConnId, uuid: string, tenantId: string, k: int)
    requires Inv(w) && PopMoves(w, w', c, uuid, tenantId) && k in w'.place
    requires QueueAt(w, uuid)[0].commandId in w.place
    ensures k in w'.core.table.rows && LedgerOk(w', k)
  {
    hide TrimSpace, ResolveDownlinkCmd, ConnOk;
    var q := QueueAt(w, uuid);
    assert LedgerOk(w, k);
    assert QueueOk(w, uuid);
    assert Waiting(w, uuid, q[0]);
    if k != q[0].commandId {
      if w.place[k] == InQueue(uuid) {
        var i :| 0 <= i < |q| && q[i].commandId == k;
        HasIdAt(q[1..], i - 1);
      }
      LedgerFrame(w, w', k);
    }
  }

  lemma StepPop(w: World, c: ConnId, tenants: Tenants)
    requires Inv(w) && Idle(w, c)
    ensures Inv(NextPop(w, c, tenants))
    ensures var uuid := PullUuid(PullRequestOf(w.conns[c].session));
            NextPop(w, c, tenants) == w || PopMoves(w, NextPop(w, c, tenants), c, uuid, ResolveTenant(tenants, uuid))
  {
    hide AfterPopCommand, PullUuid, Image, Inv, TrimSpace, ConnOk;
    var s := w.conns[c].session;
    var uuid := PullUuid(PullRequestOf(s));
    PopEffect(w.core, tenants, s);
    if AfterPopCommand(w.core, tenants, s).1.Some? {
      HeadDevice(w, c, uuid);
      var w' := NextPop(w, c, tenants);
      assert w'.core == AfterPopCommand(w.core, tenants, s).0;
      ImageId(uuid, ResolveTenant(tenants, uuid), QueueAt(w, uuid)[0]);
      assert PopMoves(w, w', c, uuid, ResolveTenant(tenants, uuid));
      PopKeepsInv(w, w', c, uuid, ResolveTenant(tenants, uuid));
    } else {
      assert NextPop(w, c, tenants) == w;
    }
  }

  lemma ImageId(uuid: string, tenantId: string, m: Message)
    ensures Image(uuid, tenantId, m).commandId == m.commandId && Image(uuid, tenantId, m).uuid == uuid
    ensures Image(uuid, tenantId, m).payload == m.payload
  {
  }

  /** A session only ever finds commands under a trimmed device name. */
  lemma HeadDevice(w: World, c: ConnId, uuid: string)
    requires Inv(w) && c in w.conns && w.conns[c].session.authenticated
    requires uuid == PullUuid(PullRequestOf(w.conns[c].session)) && QueueAt(w, uuid) != []
    ensures TrimSpace(uuid) == uuid
  {
    hide TrimSpace, PullUuid, PullRequestOf;
    assert ConnOk(w, c);
    assert QueueOk(w, uuid);
    assert Waiting(w, uuid, QueueAt(w, uuid)[0]);
    PullUuidIsTrimmed(w.conns[c].session);
    if Trimmed(uuid) {
      TrimOfTrimmed(uuid);
    }
  }

  // ---------------------------------------------------------------- steps without a command

  lemma StepQuiet(w: World, c: ConnId, conn: Conn)
    requires Inv(w)
    requires if c in w.conns then HeldCommand(conn) == HeldCommand(w.conns[c]) && conn.hand == w.conns[c].hand
                                  && conn.session.inflight == w.conns[c].session.inflight
                                  && conn.open == w.conns[c].open
                                  && (w.conns[c].session.authenticated ==> conn.session.authenticated)
             else conn.hand.None? && conn.session.inflight.None?
    requires conn.session.authenticated ==> conn.session.identity == Identity("uuid", conn.session.uuid)
    ensures Inv(SetConn(w, c, conn))
  {
    hide Image, ResolveDownlinkCmd, TrimSpace, HasId, LedgerOk, QueueOk, ConnOk;
    var w' := SetConn(w, c, conn);
    assert OnlyChanges(w, w', {});
    forall u ensures QueueOk(w', u) {
      QueueFrame(w, w', u, {});
    }
    forall k | k in w'.conns ensures ConnOk(w', k) {
      if k != c {
        ConnFrame(w, w', k, {});
      } else {
        QuietConn(w, c, conn);
      }
    }
    forall k | k in w'.place ensures LedgerOk(w', k) {
      QuietLedger(w, c, conn, k);
    }
  }

  lemma QuietConn(w: World, c: ConnId, conn: Conn)
    requires if c in w.conns then ConnOk(w, c) && conn.hand == w.conns[c].hand
                                  && conn.session.inflight == w.conns[c].session.inflight
                                  && conn.open == w.conns[c].open
                                  && (w.conns[c].session.authenticated ==> conn.session.authenticated)
             else conn.hand.None? && conn.session.inflight.None?
    requires conn.session.authenticated ==> conn.session.identity == Identity("uuid", conn.session.uuid)
    ensures ConnOk(SetConn(w, c, conn), c)
  {
    hide Image, ResolveDownlinkCmd, TrimSpace;
  }

  lemma QuietLedger(w: World, c: ConnId, conn: Conn, k: int)
    requires k in w.place && k in w.core.table.rows && LedgerOk(w, k)
    requires c in w.conns ==> HeldCommand(conn) == HeldCommand(w.conns[c])
    ensures LedgerOk(SetConn(w, c, conn), k)
  {
    hide HasId;
    assert forall u :: QueueAt(SetConn(w, c, conn), u) == QueueAt(w, u);
  }

  // ---------------------------------------------------------------- settling

  /** c's command gets a final status and c is left without one. */
  ghost predicate SettleMoves(w: World, w': World, c: ConnId, command: AdapterCommand, status: CommandStatus,
                              errorText: string)
  {
    && c in w.conns
    && ((w.conns[c].hand.Some? && status == Failed && w'.log == w.log + [Refused(c, command.commandId, command.uuid)])
        || (w.conns[c].hand.None? && w.conns[c].session.inflight.Some? && status == Acked && w'.log == w.log +
              [Acknowledged(c, command.commandId, command.uuid, w.conns[c].session.inflight.value.sequence)]))
    && HeldCommand(w.conns[c]) == Some(command) && IsFinal(status)
    && command.commandId in w.core.table.rows
    && w'.core == w.core.(table := w.core.table.(rows :=
         w.core.table.rows[command.commandId := WithStatus(w.core.table.rows[command.commandId], status, errorText)]))
    && w'.place == w.place[command.commandId := Settled]
    && c in w'.conns && w'.conns == w.conns[c := w'.conns[c]]
    && w'.conns[c].hand.None? && w'.conns[c].session == w.conns[c].session.(inflight := None)
    && w'.conns[c].writeSeq >= w.conns[c].writeSeq && w'.conns[c].open == w.conns[c].open
  }

  lemma HeldFacts(w: World, c: ConnId)
    requires Inv(w) && c in w.conns && HeldCommand(w.conns[c]).Some?
    ensures var command := HeldCommand(w.conns[c]).value;
            && command.commandId in w.core.table.rows && command.commandId in w.place && command.commandId > 0
            && w.place[command.commandId] == HeldBy(c)
            && w.conns[c].session.authenticated && w.conns[c].open
            && w.conns[c].session.identity == Identity("uuid", w.conns[c].session.uuid)
            && (w.conns[c].hand.Some? ==> w.conns[c].session.inflight.None?)
            && var row := w.core.table.rows[command.commandId];
               && Trimmed(row.uuid) && row.uuid != ""
               && command == Image(row.uuid, command.tenantId, MessageOf(command.commandId, row))
               && row.status == (if w.conns[c].hand.Some? then Queued else Sent)
  {
    hide Image, ResolveDownlinkCmd, TrimSpace;
    assert ConnOk(w, c);
  }

  lemma SettleKeepsInv(w: World, w': World, c: ConnId, command: AdapterCommand, status: CommandStatus,
                       errorText: string)
    requires Inv(w) && SettleMoves(w, w', c, command, status, errorText)
    ensures Inv(w')
  {
    hide Image, ResolveDownlinkCmd, TrimSpace, HasId, LedgerOk, QueueOk, ConnOk;
    var id := command.commandId;
    HeldFacts(w, c);
    assert OnlyChanges(w, w', {id});
    forall u ensures QueueOk(w', u) {
      QueueFrame(w, w', u, {id});
    }
    forall k | k in w'.conns ensures ConnOk(w', k) {
      if k != c {
        ConnFrame(w, w', k, {id});
      } else {
        FreeConn(w', c);
      }
    }
    forall k | k in w'.place ensures k in w'.core.table.rows && LedgerOk(w', k) {
      SettledLedger(w, w', c, command, status, errorText, k);
    }
  }

  lemma FreeConn(w: World, c: ConnId)
    requires c in w.conns && HeldCommand(w.conns[c]).None?
    requires w.conns[c].session.authenticated ==>
             w.conns[c].session.identity == Identity("uuid", w.conns[c].session.uuid)
    ensures ConnOk(w, c)
  {
  }

  lemma SettledLedger(w: World, w': World, c: ConnId, command: AdapterCommand, status: CommandStatus,
                      errorText: string, k: int)
    requires Inv(w) && SettleMoves(w, w', c, command, status, errorText) && k in w'.place
    requires command.commandId in w.place && w.place[command.commandId] == HeldBy(c)
    ensures k in w'.core.table.rows && LedgerOk(w', k)
  {
    hide Image, ResolveDownlinkCmd, TrimSpace, HasId, QueueOk, ConnOk;
    assert LedgerOk(w, k);
    if k != command.commandId {
      assert forall u :: QueueAt(w', u) == QueueAt(w, u);
      LedgerFrame(w, w', k);
    }
  }

  lemma FailEffect(c: Core, s: Session, command: AdapterCommand, errorText: string)
    requires s.authenticated && s.inflight.None? && command.commandId > 0 && command.commandId in c.table.rows
    ensures var rows := c.table.rows;
            AfterFail(c, s, command, errorText) ==
            (c.(table := c.table.(
                  rows := rows[command.commandId :=
                               WithStatus(rows[command.commandId], Failed, TrimSpace(errorText))])), s)
  {
    hide TrimSpace, FromAdapter, WithStatus;
    MarkEffect(c, command.commandId, Failed, TrimSpace(errorText));
  }

  lemma StepFail(w: World, c: ConnId, errorText: string, writeSeq: nat)
    requires Inv(w) && c in w.conns && w.conns[c].hand.Some? && writeSeq >= w.conns[c].writeSeq
    ensures Inv(NextFail(w, c, errorText, writeSeq))
    ensures SettleMoves(w, NextFail(w, c, errorText, writeSeq), c, w.conns[c].hand.value, Failed, TrimSpace(errorText))
  {
    hide Inv, AfterFail, TrimSpace, Image;
    HeldFacts(w, c);
    var command := w.conns[c].hand.value;
    FailEffect(w.core, w.conns[c].session, command, errorText);
    var w' := NextFail(w, c, errorText, writeSeq);
    assert SettleMoves(w, w', c, command, Failed, TrimSpace(errorText));
    SettleKeepsInv(w, w', c, command, Failed, TrimSpace(errorText));
  }

  lemma AckEffect(c: Core, s: Session, cmd: CmdId, sequence: nat)
    requires AckMatches(s, cmd, sequence)
    requires s.inflight.value.command.commandId > 0 && s.inflight.value.command.commandId in c.table.rows
    ensures var id := s.inflight.value.command.commandId;
            AfterAck(c, s, cmd, sequence) ==
            (c.(table := c.table.(rows := c.table.rows[id := WithStatus(c.table.rows[id], Acked, "")])),
             s.(inflight := None))
  {
    hide TrimSpace, WithStatus;
    MarkEffect(c, s.inflight.value.command.commandId, Acked, "");
  }

  lemma StepAck(w: World, c: ConnId, cmd: CmdId, sequence: nat)
    requires Inv(w) && Idle(w, c)
    ensures Inv(NextAck(w, c, cmd, sequence))
    ensures if AckMatches(w.conns[c].session, cmd, sequence) then
              SettleMoves(w, NextAck(w, c, cmd, sequence), c, w.conns[c].session.inflight.value.command, Acked, "")
            else NextAck(w, c, cmd, sequence) == w
  {
    hide Inv, AfterAck, TrimSpace, Image, ResolveDownlinkCmd;
    var w' := NextAck(w, c, cmd, sequence);
    var s := w.conns[c].session;
    if AckMatches(s, cmd, sequence) {
      HeldFacts(w, c);
      var command := s.inflight.value.command;
      AckEffect(w.core, s, cmd, sequence);
      assert SettleMoves(w, w', c, command, Acked, "");
      SettleKeepsInv(w, w', c, command, Acked, "");
    } else {
      assert AfterAck(w.core, s, cmd, sequence) == (w.core, s) by {
        IgnoredAck(w.core, s, cmd, sequence);
      }
      assert w.conns[c].(session := s) == w.conns[c];
      assert w' == w.(conns := w.conns[c := w.conns[c]]);
      assert w.conns[c := w.conns[c]] == w.conns;
    }
  }

  lemma AckHasInflight(s: Session, cmd: CmdId, sequence: nat)
    requires AckMatches(s, cmd, sequence)
    ensures s.inflight.Some? && s.inflight.value.sequence == sequence
  {
    hide ResolveDownlinkCmd;
  }

  lemma IgnoredAck(c: Core, s: Session, cmd: CmdId, sequence: nat)
    requires !AckMatches(s, cmd, sequence)
    ensures AfterAck(c, s, cmd, sequence) == (c, s)
  {
  }

  // ---------------------------------------------------------------- writing

  ghost predicate WriteMoves(w: World, w': World, c: ConnId, command: AdapterCommand, sequence: nat) {
    && c in w.conns && w.conns[c].hand == Some(command) && ResolveDownlinkCmd(command).Some?
    && command.commandId in w.core.table.rows
    && w'.core == w.core.(table := w.core.table.(rows :=
         w.core.table.rows[command.commandId := WithStatus(w.core.table.rows[command.commandId], Sent, "")]))
    && w'.place == w.place
    && w'.conns == w.conns[c := Conn(w.conns[c].session.(inflight := Some(Inflight(command, sequence))), None, sequence,
                                     w.conns[c].open)]
    && sequence == w.conns[c].writeSeq + 1
    && w'.log == w.log + [Wrote(c, command.commandId, command.uuid, sequence)]
  }

  lemma WriteKeepsInv(w: World, w': World, c: ConnId, command: AdapterCommand, sequence: nat)
    requires Inv(w) && WriteMoves(w, w', c, command, sequence)
    ensures Inv(w')
  {
    hide Image, ResolveDownlinkCmd, TrimSpace, HasId, LedgerOk, QueueOk, ConnOk;
    var id := command.commandId;
    HeldFacts(w, c);
    assert OnlyChanges(w, w', {id});
    forall u ensures QueueOk(w', u) {
      QueueFrame(w, w', u, {id});
    }
    forall k | k in w'.conns ensures ConnOk(w', k) {
      if k != c {
        ConnFrame(w, w', k, {id});
      } else {
        WrittenConn(w, w', c, command, sequence);
      }
    }
    forall k | k in w'.place ensures k in w'.core.table.rows && LedgerOk(w', k) {
      WrittenLedger(w, w', c, command, sequence, k);
    }
  }

  lemma WrittenConn(w: World, w': World, c: ConnId, command: AdapterCommand, sequence: nat)
    requires c in w.conns && ConnOk(w, c) && WriteMoves(w, w', c, command, sequence)
    ensures ConnOk(w', c)
  {
    hide Image, ResolveDownlinkCmd, TrimSpace;
    assert Holds(w, c, command, Queued);
    assert Holds(w', c, command, Sent);
  }

  lemma WrittenLedger(w: World, w': World, c: ConnId, command: AdapterCommand, sequence: nat, k: int)
    requires Inv(w) && WriteMoves(w, w', c, command, sequence) && k in w'.place
    requires command.commandId in w.place && w.place[command.commandId] == HeldBy(c)
    requires w.core.table.rows[command.commandId].status == Queued
    ensures k in w'.core.table.rows && LedgerOk(w', k)
  {
    hide Image, ResolveDownlinkCmd, TrimSpace, HasId, QueueOk, ConnOk;
    assert LedgerOk(w, k);
    assert w'.core.queues == w.core.queues;
    if k != command.commandId {
      assert forall u :: QueueAt(w', u) == QueueAt(w, u);
      LedgerFrame(w, w', k);
    }
  }

  lemma SentEffect(c: Core, s: Session, command: AdapterCommand, cmd: CmdId, sequence: nat)
    requires s.authenticated && command.commandId > 0 && command.commandId in c.table.rows
    ensures var rows := c.table.rows;
            AfterSent(c, s, command, cmd, sequence) ==
            (c.(table := c.table.(rows := rows[command.commandId := WithStatus(rows[command.commandId], Sent, "")])),
             s.(inflight := Some(Inflight(command, sequence))))
  {
    hide TrimSpace, FromAdapter, WithStatus;
    MarkEffect(c, command.commandId, Sent, "");
  }

  lemma StepWriteOk(w: World, c: ConnId)
    requires Inv(w) && Handling(w, c, true)
    ensures Inv(NextWriteOk(w, c))
    ensures WriteMoves(w, NextWriteOk(w, c), c, w.conns[c].hand.value, w.conns[c].writeSeq + 1)
  {
    hide Inv, AfterSent, TrimSpace, Image, ResolveDownlinkCmd;
    HeldFacts(w, c);
    var conn := w.conns[c];
    var command := conn.hand.value;
    SentEffect(w.core, conn.session, command, ResolveDownlinkCmd(command).value, conn.writeSeq + 1);
    var w' := NextWriteOk(w, c);
    assert WriteMoves(w, w', c, command, conn.writeSeq + 1);
    WriteKeepsInv(w, w', c, command, conn.writeSeq + 1);
  }

  // ---------------------------------------------------------------- returning

  /** c ends; its command goes back to the head of its own queue, or is dropped if it has no payload. */
  ghost predicate ReturnMoves(w: World, w': World, c: ConnId, command: AdapterCommand) {
    && c in w.conns && HeldCommand(w.conns[c]) == Some(command)
    && command.commandId in w.core.table.rows
    && c in w'.conns && w'.conns == w.conns[c := w'.conns[c]]
    && w'.conns[c].hand.None? && w'.conns[c].session == w.conns[c].session.(inflight := None)
    && w'.conns[c].writeSeq >= w.conns[c].writeSeq && !w'.conns[c].open
    && w'.place == PlaceAfterReturn(w, command)
    && w'.log == w.log + [Returned(c, command.commandId)]
    && var rows, id, q := w.core.table.rows, command.commandId, QueueAt(w, command.uuid);
       var kept := if IsFull(q, w.core.capacity) then q[..|q| - 1] else q;
       if command.payload == [] then w'.core == w.core
       else
         w'.core == w.core.(
           table := w.core.table.(rows := rows[id := WithStatus(rows[id], Queued, "")]),
           queues := w.core.queues[command.uuid := [MessageOf(id, rows[id])] + kept])
  }

  lemma ReturnKeepsInv(w: World, w': World, c: ConnId, command: AdapterCommand)
    requires Inv(w) && ReturnMoves(w, w', c, command)
    ensures Inv(w')
  {
    hide ResolveDownlinkCmd, TrimSpace, HasId, LedgerOk, QueueOk, ConnOk, Image;
    var id, u := command.commandId, command.uuid;
    var q := QueueAt(w, u);
    HeldFacts(w, c);
    QueuedIds(w, u);
    var changed := {id} + if command.payload != [] && IsFull(q, w.core.capacity) then {q[|q| - 1].commandId} else {};
    ImageId(w.core.table.rows[id].uuid, command.tenantId, MessageOf(id, w.core.table.rows[id]));
    assert OnlyChanges(w, w', changed);
    forall v ensures QueueOk(w', v) {
      if v == u && command.payload != [] {
        ReturnedQueue(w, w', c, command);
      } else {
        QueueFrame(w, w', v, changed);
      }
    }
    forall k | k in w'.conns ensures ConnOk(w', k) {
      if k != c {
        ConnFrame(w, w', k, changed);
      } else {
        FreeConn(w', c);
      }
    }
    forall k | k in w'.place ensures k in w'.core.table.rows && LedgerOk(w', k) {
      ReturnedLedger(w, w', c, command, k);
    }
  }

  lemma ReturnedQueue(w: World, w': World, c: ConnId, command: AdapterCommand)
    requires Inv(w) && ReturnMoves(w, w', c, command) && command.payload != []
    ensures QueueOk(w', command.uuid)
  {
    hide ResolveDownlinkCmd, TrimSpace, Image, ConnOk, LedgerOk;
    HeldFacts(w, c);
    var id, u := command.commandId, command.uuid;
    var row := w.core.table.rows[id];
    ImageId(row.uuid, command.tenantId, MessageOf(id, row));
    TrimOfTrimmed(u);
    assert QueueOk(w, u);
    var q, q' := QueueAt(w, u), QueueAt(w', u);
    forall i | 0 <= i < |q'| ensures Waiting(w', u, q'[i]) {
      if i > 0 {
        assert q'[i] == q[i - 1];
        assert Waiting(w, u, q[i - 1]);
      }
    }
    forall i, j | 0 <= i < j < |q'| ensures q'[i].commandId != q'[j].commandId {
      assert q'[j] == q[j - 1] && Waiting(w, u, q[j - 1]);
    }
  }

  lemma ReturnedLedger(w: World, w': World, c: ConnId, command: AdapterCommand, k: int)
    requires Inv(w) && ReturnMoves(w, w', c, command) && k in w'.place
    ensures k in w'.core.table.rows && LedgerOk(w', k)
  {
    hide ResolveDownlinkCmd, TrimSpace, Image, ConnOk;
    HeldFacts(w, c);
    var id, u := command.commandId, command.uuid;
    var row := w.core.table.rows[id];
    ImageId(row.uuid, command.tenantId, MessageOf(id, row));
    assert QueueOk(w, u);
    QueuedIds(w, u);
    assert k in w.place && LedgerOk(w, k);
    assert LedgerOk(w, id);
    var q, q' := QueueAt(w, u), QueueAt(w', u);
    if command.payload == [] {
      if k != id {
        LedgerFrame(w, w', k);
      }
    } else if k == id {
      assert q'[0].commandId == id;
      HasIdAt(q', 0);
    } else if IsFull(q, w.core.capacity) && k == q[|q| - 1].commandId {
      assert Waiting(w, u, q[|q| - 1]);
    } else {
      if w.place[k] == InQueue(u) {
        var i :| 0 <= i < |q| && q[i].commandId == k;
        assert q'[i + 1] == q[i];
        HasIdAt(q', i + 1);
      }
      LedgerFrame(w, w', k);
    }
  }

  lemma ReturnEffect(c: Core, s: Session, command: AdapterCommand, row: CommandRow, errorText: string)
    requires s.authenticated && s.inflight.None? && command.commandId > 0
    requires command.commandId in c.table.rows && c.table.rows[command.commandId] == row
    requires Trimmed(row.uuid) && row.uuid != ""
    requires command == Image(row.uuid, command.tenantId, MessageOf(command.commandId, row))
    requires ResolveDownlinkCmd(command).Some?
    requires c.capacity > 0 ==> |QueueOf(c.queues, row.uuid)| <= c.capacity
    ensures command.uuid == row.uuid && command.payload == row.payload
    ensures var q := QueueOf(c.queues, row.uuid);
            var kept := if IsFull(q, c.capacity) then q[..|q| - 1] else q;
            AfterRequeueDownlink(c, s, command, errorText) ==
            if command.payload == [] then (c, s)
            else (c.(table := c.table.(rows := c.table.rows[command.commandId := WithStatus(row, Queued, "")]),
                     queues := c.queues[row.uuid := [MessageOf(command.commandId, row)] + kept]), s)
  {
    var m := MessageOf(command.commandId, row);
    hide Image, ResolveDownlinkCmd, RequeueTarget, RequeueRequest, TrimSpace, WithStatus, AfterReport, AfterRequeue,
         Requeued;
    ImageId(row.uuid, command.tenantId, m);
    ImageResolves(row.uuid, command.tenantId, m);
    RequeueRestoresMessage(s, row.uuid, command.tenantId, m, errorText);
    RequeueReport(c, s, command, errorText);
    RequeueEffect(c, row.uuid, m);
    assert Cleared(s, command.commandId) == s;
  }

  lemma RequeueReport(c: Core, s: Session, command: AdapterCommand, errorText: string)
    requires command.commandId > 0
    ensures AfterReport(c, RequeueRequest(s, command, errorText)) ==
            match RequeueTarget(RequeueRequest(s, command, errorText))
            case None => c
            case Some(t) => AfterRequeue(c, t.0, t.1)
  {
    hide RequeueTarget, AfterRequeue, TrimSpace, FromAdapter, TargetIdentity, FirstNonEmpty, ResolveDownlinkCmd;
    assert RequeueRequest(s, command, errorText).commandId == command.commandId;
    assert RequeueRequest(s, command, errorText).report == RequeuedReport;
  }

  lemma StepWriteFail(w: World, c: ConnId, errorText: string)
    requires Inv(w) && Handling(w, c, true)
    ensures Inv(NextWriteFail(w, c, errorText))
    ensures ReturnMoves(w, NextWriteFail(w, c, errorText), c, w.conns[c].hand.value)
  {
    hide AfterRequeueDownlink, TrimSpace, Image, ResolveDownlinkCmd, PlaceAfterReturn, QueueOk, Inv;
    HeldFacts(w, c);
    var conn := w.conns[c];
    var command := conn.hand.value;
    var row := w.core.table.rows[command.commandId];
    CapacityAt(w, row.uuid);
    ReturnEffect(w.core, conn.session, command, row, errorText);
    var w' := NextWriteFail(w, c, errorText);
    assert ReturnMoves(w, w', c, command);
    ReturnKeepsInv(w, w', c, command);
  }

  lemma CapacityAt(w: World, uuid: string)
    requires Inv(w)
    ensures w.core.capacity > 0 ==> |QueueAt(w, uuid)| <= w.core.capacity
  {
    assert QueueOk(w, uuid);
  }

  lemma StepDisconnect(w: World, c: ConnId)
    requires Inv(w) && Idle(w, c)
    ensures Inv(NextDisconnect(w, c))
    ensures if w.conns[c].session.inflight.Some? then
              ReturnMoves(w, NextDisconnect(w, c), c, w.conns[c].session.inflight.value.command)
            else NextDisconnect(w, c) == w.(conns := w.conns[c := w.conns[c].(open := false)])
  {
    hide AfterRequeueDownlink, TrimSpace, Image, ResolveDownlinkCmd, PlaceAfterReturn, QueueOk, Inv;
    var conn := w.conns[c];
    if conn.session.inflight.Some? {
      HeldFacts(w, c);
      InflightResolves(w, c);
      var command := conn.session.inflight.value.command;
      var row := w.core.table.rows[command.commandId];
      CapacityAt(w, row.uuid);
      ReturnEffect(w.core, conn.session.(inflight := None), command, row, "");
      var w' := NextDisconnect(w, c);
      assert ReturnMoves(w, w', c, command);
      ReturnKeepsInv(w, w', c, command);
    } else {
      CloseKeepsInv(w, c);
    }
  }

  lemma InflightResolves(w: World, c: ConnId)
    requires Inv(w) && c in w.conns && w.conns[c].session.inflight.Some?
    ensures ResolveDownlinkCmd(w.conns[c].session.inflight.value.command).Some?
  {
    hide ResolveDownlinkCmd, Image, TrimSpace;
    assert ConnOk(w, c);
  }

  lemma CloseKeepsInv(w: World, c: ConnId)
    requires Inv(w) && Idle(w, c) && w.conns[c].session.inflight.None?
    ensures Inv(NextDisconnect(w, c))
  {
    hide Image, ResolveDownlinkCmd, TrimSpace, HasId, LedgerOk, QueueOk;
    var w' := NextDisconnect(w, c);
    assert w'.core == w.core && w'.place == w.place;
    assert OnlyChanges(w, w', {});
    forall u ensures QueueOk(w', u) {
      QueueFrame(w, w', u, {});
    }
    forall k | k in w'.conns ensures ConnOk(w', k) {
      assert ConnOk(w, k);
      if k != c {
        ConnFrame(w, w', k, {});
      }
    }
    forall k | k in w'.place ensures LedgerOk(w', k) {
      ClosedLedger(w, w', c, k);
    }
  }

  lemma ClosedLedger(w: World, w': World, c: ConnId, k: int)
    requires k in w.place && k in w.core.table.rows && LedgerOk(w, k)
    requires w'.core == w.core && w'.place == w.place
    requires c in w.conns && w'.conns == w.conns[c := w.conns[c].(open := false)]
    ensures LedgerOk(w', k)
  {
    hide HasId;
    assert forall u :: QueueAt(w', u) == QueueAt(w, u);
  }

  // ---------------------------------------------------------------- every step, every run

  /** Nothing but the connections changes, and none of them gains or loses a command. */
  ghost predicate QuietMoves(w: World, w': World, c: ConnId) {
    && w'.core == w.core && w'.place == w.place && w'.log == w.log
    && c in w'.conns && w'.conns == w.conns[c := w'.conns[c]]
    && if c in w.conns then
         && w'.conns[c].hand == w.conns[c].hand && w'.conns[c].session.inflight == w.conns[c].session.inflight
         && w'.conns[c].writeSeq >= w.conns[c].writeSeq
       else w'.conns[c] == NEW_CONN
  }

  /** The shape of every step: which command moves from where to where, and what is logged. */
  ghost predicate Moves(w: World, step: Step, w': World)
    requires Enabled(w, step)
  {
    match step
    case Enqueue(tenantId, uuid, cmdId, command, payload, owner) =>
      if CreateError(tenantId, uuid, command, owner).Some? then w' == w
      else EnqueueMoves(w, w', uuid, Message(w.core.table.nextId, cmdId, payload),
                        NewRow(tenantId, uuid, cmdId, command, payload))
    case Connect(c) => QuietMoves(w, w', c)
    case Bind(c, _, _) => QuietMoves(w, w', c)
    case WriteOther(c) => QuietMoves(w, w', c)
    case PopDownlink(c, tenants) =>
      var uuid := PullUuid(PullRequestOf(w.conns[c].session));
      w' == w || PopMoves(w, w', c, uuid, ResolveTenant(tenants, uuid))
    case FailUnmapped(c, errorText) => SettleMoves(w, w', c, w.conns[c].hand.value, Failed, TrimSpace(errorText))
    case FailPack(c, errorText) => SettleMoves(w, w', c, w.conns[c].hand.value, Failed, TrimSpace(errorText))
    case WriteOk(c) => WriteMoves(w, w', c, w.conns[c].hand.value, w.conns[c].writeSeq + 1)
    case WriteFail(c, _) => ReturnMoves(w, w', c, w.conns[c].hand.value)
    case AckArrives(c, cmd, sequence) =>
      if AckMatches(w.conns[c].session, cmd, sequence) then
        SettleMoves(w, w', c, w.conns[c].session.inflight.value.command, Acked, "")
      else w' == w
    case Disconnect(c) =>
      if w.conns[c].session.inflight.Some? then ReturnMoves(w, w', c, w.conns[c].session.inflight.value.command)
      else QuietMoves(w, w', c)
  }

  /** Every step of the pipeline keeps the invariant and has its shape. */
  lemma StepKeepsInv(w: World, step: Step)
    requires Inv(w) && Enabled(w, step)
    ensures Inv(Next(w, step))
    ensures Moves(w, step, Next(w, step))
  {
    hide Inv, NextEnqueue, NextPop, NextFail, NextWriteOk, NextWriteFail, NextAck, NextDisconnect, ResolveDownlinkCmd,
         EnqueueMoves, PopMoves, SettleMoves, WriteMoves, ReturnMoves, PullUuid, CreateError, AckMatches, TrimSpace;
    match step {
      case Enqueue(tenantId, uuid, cmdId, command, payload, owner) =>
        StepEnqueue(w, tenantId, uuid, cmdId, command, payload, owner);
        if CreateError(tenantId, uuid, command, owner).Some? {
          RefusedEnqueue(w, tenantId, uuid, cmdId, command, payload, owner);
        }
      case Connect(c) =>
        StepQuiet(w, c, NEW_CONN);
      case Bind(c, uuid, tenantId) =>
        StepQuiet(w, c, w.conns[c].(session := Bound(w.conns[c].session, uuid, tenantId)));
      case WriteOther(c) =>
        SessionIdentity(w, c);
        StepQuiet(w, c, w.conns[c].(writeSeq := w.conns[c].writeSeq + 1));
      case PopDownlink(c, tenants) => StepPop(w, c, tenants);
      case FailUnmapped(c, errorText) => StepFail(w, c, errorText, w.conns[c].writeSeq);
      case FailPack(c, errorText) => StepFail(w, c, errorText, w.conns[c].writeSeq + 1);
      case WriteOk(c) => StepWriteOk(w, c);
      case WriteFail(c, errorText) => StepWriteFail(w, c, errorText);
      case AckArrives(c, cmd, sequence) => StepAck(w, c, cmd, sequence);
      case Disconnect(c) => StepDisconnect(w, c);
    }
  }

  lemma RefusedEnqueue(w: World, tenantId: string, uuid: string, cmdId: CmdId, command: string, payload: seq<bv8>,
                       owner: Option<string>)
    requires CreateError(tenantId, uuid, command, owner).Some?
    ensures NextEnqueue(w, tenantId, uuid, cmdId, command, payload, owner) == w
  {
    hide CreateError;
  }

  lemma SessionIdentity(w: World, c: ConnId)
    requires Inv(w) && c in w.conns
    ensures w.conns[c].session.authenticated ==>
            w.conns[c].session.identity == Identity("uuid", w.conns[c].session.uuid)
  {
    hide ResolveDownlinkCmd, Image, TrimSpace;
    assert ConnOk(w, c);
  }

  lemma {:induction false} RunKeepsInv(w: World, steps: seq<Step>)
    requires Inv(w) && IsRun(w, steps)
    ensures Inv(Run(w, steps))
    decreases steps
  {
    hide Inv, Next, Enabled;
    if steps != [] {
      StepKeepsInv(w, steps[0]);
      RunKeepsInv(Next(w, steps[0]), steps[1..]);
    }
  }
}