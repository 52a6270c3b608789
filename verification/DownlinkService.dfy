/** Ties the command table to the device queues: creation, popping, retrying and status marks. */
module DownlinkService {
  import opened Wrappers
  import opened GosterWy
  import opened Text
  import opened CommandQueue
  import opened CommandStore

  /** The core's downlink state. */
  datatype Core = Core(table: Table, queues: Queues, capacity: int)

  function InitialCore(capacity: int): Core {
    Core(EMPTY_TABLE, map[], capacity)
  }

  datatype ServiceError = Store(e: StoreError) | Queue(e': QueueError)

  function AfterEnqueue(c: Core, tenantId: string, uuid: string, cmdId: CmdId, command: string, payload: seq<bv8>,
                        owner: Option<string>): Core
  {
    if CreateError(tenantId, uuid, command, owner).Some? then c
    else
      var message := Message(c.table.nextId, cmdId, payload);
      c.(table := Inserted(c.table, NewRow(tenantId, uuid, cmdId, command, payload)),
         queues := c.queues[uuid := Enqueued(QueueOf(c.queues, uuid), message, c.capacity)])
  }

  function AfterPop(c: Core, uuid: string): (r: (Core, Option<Message>)) {
    var (queues, m) := Dequeued(c.queues, uuid);
    (c.(queues := queues), m)
  }

  function AfterMark(c: Core, id: int, status: CommandStatus, errorText: string): Core {
    if id <= 0 then c else c.(table := Updated(c.table, id, status, errorText))
  }

  function MarkResult(c: Core, id: int): Result<(), ServiceError> {
    if id <= 0 then Ok(())
    else
      match StatusError(c.table, id)
      case Some(e) => Err(Store(e))
      case None => Ok(())
  }

  /** A retry puts the message back first and then marks its row queued. */
  function AfterRequeue(c: Core, uuid: string, m: Message): Core {
    if m.commandId <= 0 then c
    else
      match Requeued(QueueOf(c.queues, uuid), m, c.capacity)
      case None => AfterMark(c, m.commandId, Failed, "downlink queue: full")
      case Some(q) => AfterMark(c.(queues := c.queues[uuid := q]), m.commandId, Queued, "")
  }

  function RequeueResult(c: Core, uuid: string, m: Message): Result<(), ServiceError> {
    if m.commandId <= 0 then Ok(())
    else if Requeued(QueueOf(c.queues, uuid), m, c.capacity).None? then Err(Queue(QueueFull))
    else MarkResult(c, m.commandId)
  }

  class DownlinkCommandService {
    const store: CommandRepository
    const queue: DeviceCommandQueue

    constructor (store: CommandRepository, queue: DeviceCommandQueue)
      ensures this.store == store && this.queue == queue
    {
      this.store := store;
      this.queue := queue;
    }

    function State(): Core
      reads store, queue
    {
      Core(store.State(), queue.queues, queue.capacity)
    }

    method Enqueue(tenantId: string, uuid: string, cmdId: CmdId, command: string, payload: seq<bv8>,
                   owner: Option<string>)
      returns (r: Result<Message, ServiceError>)
      modifies store, queue
      ensures State() == AfterEnqueue(old(State()), tenantId, uuid, cmdId, command, payload, owner)
      ensures match CreateError(tenantId, uuid, command, owner)
              case Some(e) => r == Err(Store(e))
              case None => r == Ok(Message(old(store.nextId), cmdId, payload))
    {
      var created := store.CreateDeviceCommand(tenantId, uuid, cmdId, command, payload, owner);
      if created.Err? {
        return Err(Store(created.error));
      }
      var msg := Message(created.value, cmdId, payload);
      queue.Enqueue(uuid, msg);
      return Ok(msg);
    }

    method PopDownlink(uuid: string) returns (r: Option<Message>)
      modifies queue
      ensures (State(), r) == AfterPop(old(State()), uuid)
    {
      r := queue.Dequeue(uuid);
    }

    method Requeue(uuid: string, message: Message) returns (r: Result<(), ServiceError>)
      modifies store, queue
      ensures State() == AfterRequeue(old(State()), uuid, message)
      ensures r == RequeueResult(old(State()), uuid, message)
    {
      if message.commandId <= 0 {
        return Ok(());
      }
      var placed := queue.Requeue(uuid, message);
      if placed.Err? {
        TrimOfTrimmed("downlink queue: full");
        var _ := MarkFailed(message.commandId, "downlink queue: full");
        return Err(Queue(placed.error));
      }
      var updated := store.UpdateDeviceCommandStatus(message.commandId, Queued, "");
      return if updated.Ok? then Ok(()) else Err(Store(updated.error));
    }

    method Mark(commandId: int, status: CommandStatus, errorText: string) returns (r: Result<(), ServiceError>)
      modifies store
      ensures State() == AfterMark(old(State()), commandId, status, errorText)
      ensures r == MarkResult(old(State()), commandId)
    {
      if commandId <= 0 {
        return Ok(());
      }
      var updated := store.UpdateDeviceCommandStatus(commandId, status, errorText);
      return if updated.Ok? then Ok(()) else Err(Store(updated.error));
    }

    method MarkSent(commandId: int) returns (r: Result<(), ServiceError>)
      modifies store
      ensures State() == AfterMark(old(State()), commandId, Sent, "")
      ensures r == MarkResult(old(State()), commandId)
    {
      r := Mark(commandId, Sent, "");
    }

    method MarkAcked(commandId: int) returns (r: Result<(), ServiceError>)
      modifies store
      ensures State() == AfterMark(old(State()), commandId, Acked, "")
      ensures r == MarkResult(old(State()), commandId)
    {
      r := Mark(commandId, Acked, "");
    }

    method MarkFailed(commandId: int, errorText: string) returns (r: Result<(), ServiceError>)
      modifies store
      ensures State() == AfterMark(old(State()), commandId, Failed, TrimSpace(errorText))
      ensures r == MarkResult(old(State()), commandId)
    {
      r := Mark(commandId, Failed, TrimSpace(errorText));
    }
  }
}
