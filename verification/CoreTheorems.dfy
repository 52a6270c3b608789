/** What the core's RPC surface promises its adapters, whatever state it is in. */
module CoreTheorems {
  import opened Wrappers
  import opened GosterWy
  import opened Text
  import opened Commands
  import opened CommandQueue
  import opened CommandStore
  import opened DownlinkService
  import opened CoreIngress

  // ---------------------------------------------------------------- pulling

  /** An identity is found by its kind, whatever the capitals: the first of that kind, and nothing if there is none. */
  lemma {:induction false} FirstIdentityFound(items: seq<Identity>, kind: string, i: nat)
    requires i <= |items| && forall j :: 0 <= j < i ==> !SameWord(items[j].kind, kind)
    ensures i < |items| && SameWord(items[i].kind, kind) ==> IdentityValue(items, kind) == TrimSpace(items[i].value)
    ensures i == |items| ==> IdentityValue(items, kind) == ""
    decreases |items|
  {
    hide ToLower, SameWord, TrimSpace;
    if items != [] {
      LowerFolds(items[0].kind, kind);
      if i > 0 {
        FirstIdentityFound(items[1..], kind, i - 1);
      }
    }
  }

  /** The command tells an adapter all of the message, its device and the device's tenant. */
  predicate TellsOf(r: CanonicalCommand, tenants: Tenants, uuid: string, m: Message) {
    && r.commandId == m.commandId && r.protocolCode == m.cmdId && r.commandCodeOption == Some(m.cmdId)
    && RawBytes(r.payload) == m.payload
    && r.uuid == uuid && r.target == Some(Identity("uuid", uuid))
    && (TrimSpace(uuid) != "" && uuid in tenants ==> r.tenantId == NormalizeTenant(tenants[uuid]))
    && (uuid !in tenants ==> r.tenantId == DEFAULT_TENANT)
  }

  lemma {:induction false} PulledIsPrefix(c: Core, tenants: Tenants, uuid: string, n: nat)
    ensures var (c', r) := Pulled(c, tenants, uuid, n);
            var q := QueueOf(c.queues, uuid);
            && |r| == (if n <= |q| then n else |q|)
            && (forall i :: 0 <= i < |r| ==> TellsOf(r[i], tenants, uuid, q[i]))
            && QueueOf(c'.queues, uuid) == q[|r|..]
            && (forall u :: u != uuid ==> QueueOf(c'.queues, u) == QueueOf(c.queues, u))
            && c'.table == c.table && c'.capacity == c.capacity
    decreases n
  {
    hide AfterPop, ToCanonical, TellsOf, ResolveTenant, QueueOf;
    PopTakesHead(c, uuid);
    var q := QueueOf(c.queues, uuid);
    if n > 0 && q != [] {
      var c1 := AfterPop(c, uuid).0;
      HeadIsTold(tenants, uuid, q[0]);
      PulledIsPrefix(c1, tenants, uuid, n - 1);
      var first := ToCanonical(uuid, ResolveTenant(tenants, uuid), q[0]);
      var r, rest := Pulled(c, tenants, uuid, n).1, Pulled(c1, tenants, uuid, n - 1).1;
      assert r == [first] + rest;
      assert forall i :: 1 <= i < |r| ==> r[i] == rest[i - 1] && q[i] == q[1..][i - 1];
    }
  }

  lemma PopTakesHead(c: Core, uuid: string)
    ensures var (c', m) := AfterPop(c, uuid);
            var q := QueueOf(c.queues, uuid);
            && m == (if q == [] then None else Some(q[0]))
            && QueueOf(c'.queues, uuid) == (if q == [] then [] else q[1..])
            && (forall u :: u != uuid ==> QueueOf(c'.queues, u) == QueueOf(c.queues, u))
            && c'.table == c.table && c'.capacity == c.capacity
  {
  }

  lemma HeadIsTold(tenants: Tenants, uuid: string, m: Message)
    ensures TellsOf(ToCanonical(uuid, ResolveTenant(tenants, uuid), m), tenants, uuid, m)
  {
    hide TrimSpace;
  }

  /**
   * Pulling takes the oldest messages of one device, as many as asked for and at least one if there is
   * any, and tells all of each in order; what stays stays in order, and nothing else changes. It fails
   * exactly for a request that names no device.
   */
  lemma PullTakesPrefix(c: Core, tenants: Tenants, req: PullRequest)
    ensures var (c', answer) := AfterPull(c, tenants, req);
            var uuid := PullUuid(req);
            var q, n := QueueOf(c.queues, uuid), if req.maxCount <= 0 then 1 else req.maxCount;
            && (answer.Err? <==>
                  TrimSpace(req.uuid) == "" && req.primary == "" && IdentityValue(req.identities, "uuid") == "")
            && (TrimSpace(req.uuid) != "" ==> uuid == TrimSpace(req.uuid))
            && (answer.Err? ==> c' == c)
            && (answer.Ok? ==>
                  && |answer.value| == (if n <= |q| then n else |q|)
                  && (forall i :: 0 <= i < |answer.value| ==> TellsOf(answer.value[i], tenants, uuid, q[i]))
                  && QueueOf(c'.queues, uuid) == q[|answer.value|..]
                  && (forall u :: u != uuid ==> QueueOf(c'.queues, u) == QueueOf(c.queues, u))
                  && c'.table == c.table)
  {
    hide TrimSpace, TellsOf, Pulled, IdentityValue;
    PulledIsPrefix(c, tenants, PullUuid(req), if req.maxCount <= 0 then 1 else req.maxCount);
  }

  /** The operation's name alone gives its command code back; other codes have no name that a device knows. */
  lemma OperationNamesCode(cmd: CmdId)
    ensures CommandByOperation(OperationName(cmd)) == if IsDownlinkCommand(cmd) then Some(cmd) else None
  {
  }

  // ---------------------------------------------------------------- reporting

  /** The status that a report leaves, and the reason beside it. */
  function StatusAfter(req: StatusRequest): Option<(CommandStatus, string)> {
    match req.report
    case SentReport => Some((Sent, ""))
    case AckedReport => Some((Acked, ""))
    case FailedReport => Some((Failed, TrimSpace(req.errorText)))
    case ExpiredReport => Some((Failed, TrimSpace(req.errorText)))
    case _ => None
  }

  /** Only the status, the reason and the mark of execution of the row differ. */
  predicate Marked(row: CommandRow, row': CommandRow, status: CommandStatus, text: string) {
    && row' == row.(status := status, errorText := text, executed := row'.executed)
    && (row'.executed <==> row.executed || status == Acked || status == Failed)
  }

  lemma TrimmedText(text: string)
    ensures TrimSpace(TrimSpace(text)) == TrimSpace(text) && TrimSpace("") == ""
  {
    TrimIsTrimmed(text);
    TrimOfTrimmed("");
  }

  /**
   * A report of progress writes its status into the command's row, and nothing else, exactly if there is
   * such a command; otherwise it fails and changes nothing. An unknown report always fails.
   */
  lemma ReportWrites(c: Core, req: StatusRequest)
    requires req.report != RequeuedReport
    ensures var c', id, status := AfterReport(c, req), req.commandId, StatusAfter(req);
            && (ReportResult(c, req).Ok? <==> status.Some? && id > 0 && id in c.table.rows)
            && (ReportResult(c, req).Err? ==> c' == c)
            && (ReportResult(c, req).Ok? ==>
                  && c' == c.(table := c'.table) && c'.table.nextId == c.table.nextId
                  && c'.table.rows.Keys == c.table.rows.Keys
                  && (forall k :: k in c.table.rows && k != id ==> c'.table.rows[k] == c.table.rows[k])
                  && Marked(c.table.rows[id], c'.table.rows[id], status.value.0, status.value.1))
  {
    TrimmedText(req.errorText);
    hide TrimSpace;
  }

  /**
   * A report for requeueing that says device, code and payload puts the message back to the head of that
   * device's queue, at the cost of the newest message if the queue is full, and marks
   * the row queued. In a queue that is beyond its capacity it is refused, and the row failed. One that
   * lacks a part is refused and changes nothing.
   */
  lemma RequeueReturns(c: Core, req: StatusRequest)
    requires req.report == RequeuedReport && req.commandId > 0 && req.commandId in c.table.rows
    ensures var c', target, id := AfterReport(c, req), RequeueTarget(req), req.commandId;
            && (target.None? ==> c' == c && ReportResult(c, req).Err?)
            && (target.Some? && (c.capacity > 0 ==> |QueueOf(c.queues, target.value.0)| <= c.capacity) ==>
                  && ReportResult(c, req).Ok?
                  && target.value.1.commandId == id
                  && var uuid, q := target.value.0, QueueOf(c.queues, target.value.0);
                     && QueueOf(c'.queues, uuid) ==
                        [target.value.1] + (if c.capacity > 0 && |q| == c.capacity then q[..|q| - 1] else q)
                     && (forall u :: u != uuid ==> QueueOf(c'.queues, u) == QueueOf(c.queues, u))
                     && c'.table.rows.Keys == c.table.rows.Keys
                     && (forall k :: k in c.table.rows && k != id ==> c'.table.rows[k] == c.table.rows[k])
                     && Marked(c.table.rows[id], c'.table.rows[id], Queued, ""))
            && (target.Some? && 0 < c.capacity < |QueueOf(c.queues, target.value.0)| ==>
                  && ReportResult(c, req).Err?
                  && c'.queues == c.queues
                  && c'.table.rows.Keys == c.table.rows.Keys
                  && (forall k :: k in c.table.rows && k != id ==> c'.table.rows[k] == c.table.rows[k])
                  && Marked(c.table.rows[id], c'.table.rows[id], Failed, "downlink queue: full"))
  {
    TrimmedText("");
    TrimOfTrimmed("downlink queue: full");
    hide TrimSpace, RequeueUuid, RequeueCode, RequeuePayload;
  }
}
