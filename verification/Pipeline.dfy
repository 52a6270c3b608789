/**
 * The downlink pipeline as a step system: web requests enqueue, any number of TCP connections pop,
 * write, settle and requeue, one remote call at a time, in any interleaving.
 *
 * Beside the real state a world keeps a ledger: where each command id is, and a log of every pop
 * and status report. The steps never read the ledger.
 */
module Pipeline {
  import opened Wrappers
  import opened GosterWy
  import opened Text
  import opened Commands
  import opened CommandQueue
  import opened CommandStore
  import opened DownlinkService
  import opened CoreIngress
  import opened TcpSession

  type ConnId = nat

  /** A connection: its session, the command popped but not yet written, and its write counter. */
  datatype Conn = Conn(session: Session, hand: Option<AdapterCommand>, writeSeq: nat, open: bool)

  const NEW_CONN := Conn(NEW_SESSION, None, 0, true)

  datatype Place = InQueue(uuid: string) | HeldBy(conn: ConnId) | Settled | Evicted | Dropped

  datatype Event =
    | Popped(conn: ConnId, id: int)
    | Wrote(conn: ConnId, id: int, device: string, sequence: nat)
    | Acknowledged(conn: ConnId, id: int, device: string, sequence: nat)
    | Refused(conn: ConnId, id: int, device: string)
    | Returned(conn: ConnId, id: int)

  datatype World = World(core: Core, conns: map<ConnId, Conn>, place: map<int, Place>, log: seq<Event>)

  function InitialWorld(capacity: int): World {
    World(InitialCore(capacity), map[], map[], [])
  }

  datatype Step =
    | Enqueue(tenantId: string, uuid: string, cmdId: CmdId, command: string, payload: seq<bv8>, owner: Option<string>)
    | Connect(c: ConnId)
    | Bind(c: ConnId, uuid: string, tenantId: string)
    | WriteOther(c: ConnId)
    | PopDownlink(c: ConnId, tenants: Tenants)
    | FailUnmapped(c: ConnId, errorText: string)
    | FailPack(c: ConnId, errorText: string)
    | WriteOk(c: ConnId)
    | WriteFail(c: ConnId, errorText: string)
    | AckArrives(c: ConnId, cmd: CmdId, sequence: nat)
    | Disconnect(c: ConnId)

  function QueueAt(w: World, uuid: string): seq<Message> {
    QueueOf(w.core.queues, uuid)
  }

  predicate Idle(w: World, c: ConnId) {
    c in w.conns && w.conns[c].open && w.conns[c].hand.None?
  }

  predicate Handling(w: World, c: ConnId, mapped: bool) {
    && c in w.conns && w.conns[c].open && w.conns[c].hand.Some?
    && ResolveDownlinkCmd(w.conns[c].hand.value).Some? == mapped
  }

  /** The connection's loop decides which of its steps comes next; requests from the web always may. */
  predicate Enabled(w: World, step: Step) {
    match step
    case Enqueue(_, _, _, _, _, _) => true
    case Connect(c) => c !in w.conns
    case Bind(c, _, _) => Idle(w, c)
    case WriteOther(c) => Idle(w, c)
    case PopDownlink(c, _) => Idle(w, c)
    case FailUnmapped(c, _) => Handling(w, c, false)
    case FailPack(c, _) => Handling(w, c, true)
    case WriteOk(c) => Handling(w, c, true)
    case WriteFail(c, _) => Handling(w, c, true)
    case AckArrives(c, _, _) => Idle(w, c)
    case Disconnect(c) => Idle(w, c)
  }

  // ---------------------------------------------------------------- the ledger

  function PlaceAfterEnqueue(w: World, uuid: string): map<int, Place> {
    var q := QueueAt(w, uuid);
    (if IsFull(q, w.core.capacity) then w.place[q[0].commandId := Evicted] else w.place)
    [w.core.table.nextId := InQueue(uuid)]
  }

  function PlaceAfterReturn(w: World, command: AdapterCommand): map<int, Place> {
    if command.payload == [] then w.place[command.commandId := Dropped]
    else
      var q := QueueAt(w, command.uuid);
      (if IsFull(q, w.core.capacity) then w.place[q[|q| - 1].commandId := Evicted] else w.place)
      [command.commandId := InQueue(command.uuid)]
  }

  // ---------------------------------------------------------------- the steps

  function SetConn(w: World, c: ConnId, conn: Conn): World {
    w.(conns := w.conns[c := conn])
  }

  function Next(w: World, step: Step): World
    requires Enabled(w, step)
  {
    match step
    case Enqueue(tenantId, uuid, cmdId, command, payload, owner) =>
      NextEnqueue(w, tenantId, uuid, cmdId, command, payload, owner)
    case Connect(c) => SetConn(w, c, NEW_CONN)
    case Bind(c, uuid, tenantId) =>
      SetConn(w, c, w.conns[c].(session := Bound(w.conns[c].session, uuid, tenantId)))
    case WriteOther(c) => SetConn(w, c, w.conns[c].(writeSeq := w.conns[c].writeSeq + 1))
    case PopDownlink(c, tenants) => NextPop(w, c, tenants)
    case FailUnmapped(c, errorText) => NextFail(w, c, errorText, w.conns[c].writeSeq)
    case FailPack(c, errorText) => NextFail(w, c, errorText, w.conns[c].writeSeq + 1)
    case WriteOk(c) => NextWriteOk(w, c)
    case WriteFail(c, errorText) => NextWriteFail(w, c, errorText)
    case AckArrives(c, cmd, sequence) => NextAck(w, c, cmd, sequence)
    case Disconnect(c) => NextDisconnect(w, c)
  }

  function NextEnqueue(w: World, tenantId: string, uuid: string, cmdId: CmdId, command: string, payload: seq<bv8>,
                       owner: Option<string>): World
  {
    if CreateError(tenantId, uuid, command, owner).Some? then w
    else
      w.(core := AfterEnqueue(w.core, tenantId, uuid, cmdId, command, payload, owner),
         place := PlaceAfterEnqueue(w, uuid))
  }

  function NextPop(w: World, c: ConnId, tenants: Tenants): World
    requires Idle(w, c)
  {
    var conn := w.conns[c];
    match AfterPopCommand(w.core, tenants, conn.session)
    case (core, None) => w.(core := core)
    case (core, Some(command)) =>
      World(core, w.conns[c := conn.(hand := Some(command))],
            w.place[command.commandId := HeldBy(c)], w.log + [Popped(c, command.commandId)])
  }

  /** A command that cannot be mapped or packed is reported failed; a failed pack still used a number. */
  function NextFail(w: World, c: ConnId, errorText: string, writeSeq: nat): World
    requires c in w.conns && w.conns[c].hand.Some?
  {
    var conn := w.conns[c];
    var command := conn.hand.value;
    var (core, session) := AfterFail(w.core, conn.session, command, errorText);
    World(core, w.conns[c := Conn(session, None, writeSeq, conn.open)],
          w.place[command.commandId := Settled], w.log + [Refused(c, command.commandId, command.uuid)])
  }

  function NextWriteOk(w: World, c: ConnId): World
    requires Handling(w, c, true)
  {
    var conn := w.conns[c];
    var command := conn.hand.value;
    var sequence := conn.writeSeq + 1;
    var (core, session) := AfterSent(w.core, conn.session, command, ResolveDownlinkCmd(command).value, sequence);
    World(core, w.conns[c := Conn(session, None, sequence, conn.open)], w.place,
          w.log + [Wrote(c, command.commandId, command.uuid, sequence)])
  }

  /** A failed write requeues the command, then the connection ends like any other. */
  function NextWriteFail(w: World, c: ConnId, errorText: string): World
    requires Handling(w, c, true)
  {
    var conn := w.conns[c];
    var command := conn.hand.value;
    var (core, session) := AfterRequeueDownlink(w.core, conn.session, command, errorText);
    var (core', session') := AfterRequeueInflight(core, session);
    World(core', w.conns[c := Conn(session', None, conn.writeSeq + 1, false)],
          PlaceAfterReturn(w, command), w.log + [Returned(c, command.commandId)])
  }

  function NextAck(w: World, c: ConnId, cmd: CmdId, sequence: nat): World
    requires Idle(w, c)
  {
    var conn := w.conns[c];
    var (core, session) := AfterAck(w.core, conn.session, cmd, sequence);
    if !AckMatches(conn.session, cmd, sequence) then w.(core := core, conns := w.conns[c := conn.(session := session)])
    else
      var command := conn.session.inflight.value.command;
      World(core, w.conns[c := conn.(session := session)], w.place[command.commandId := Settled],
            w.log + [Acknowledged(c, command.commandId, command.uuid, sequence)])
  }

  function NextDisconnect(w: World, c: ConnId): World
    requires Idle(w, c)
  {
    var conn := w.conns[c];
    var (core, session) := AfterRequeueInflight(w.core, conn.session);
    var closed := w.(core := core, conns := w.conns[c := conn.(session := session, open := false)]);
    if conn.session.inflight.None? then closed
    else
      var command := conn.session.inflight.value.command;
      closed.(place := PlaceAfterReturn(w, command), log := w.log + [Returned(c, command.commandId)])
  }

  // ---------------------------------------------------------------- runs

  /** Every step of the list is enabled where it is taken. */
  predicate IsRun(w: World, steps: seq<Step>)
    decreases steps
  {
    steps != [] ==> Enabled(w, steps[0]) && IsRun(Next(w, steps[0]), steps[1..])
  }

  function Run(w: World, steps: seq<Step>): World
    requires IsRun(w, steps)
    decreases steps
  {
    if steps == [] then w else Run(Next(w, steps[0]), steps[1..])
  }

  lemma {:induction false} RunAppend(w: World, a: seq<Step>, b: seq<Step>)
    requires IsRun(w, a) && IsRun(Run(w, a), b)
    ensures IsRun(w, a + b) && Run(w, a + b) == Run(Run(w, a), b)
    decreases a
  {
    if a == [] {
      assert a + b == b;
    } else {
      assert (a + b)[0] == a[0] && (a + b)[1..] == a[1..] + b;
      RunAppend(Next(w, a[0]), a[1..], b);
    }
  }
}
