/**
 * The words a run may spell. Read per connection, the log says that at most one command is ever in
 * flight; read per command, that every pop is answered by one of the four report sequences.
 */
module PipelineWords {
  import opened Wrappers
  import opened GosterWy
  import opened Text
  import opened Commands
  import opened CommandQueue
  import opened CommandStore
  import opened DownlinkService
  import opened CoreIngress
  import opened TcpSession
  import opened RequeueIdentity
  import opened Pipeline
  import opened PipelineInvariant

  // ---------------------------------------------------------------- one connection

  /** `last` is the highest sequence number a command was written with. */
  datatype Phase = Free(last: nat) | InHand(id: int, last: nat) | InFlight(id: int, last: nat) | Broken

  /** Pop, then either one report, or a write and one report; writes count upwards, an ack names the write. */
  function Advance(p: Phase, e: Event): Phase {
    match (p, e)
    case (Free(n), Popped(_, id)) => InHand(id, n)
    case (InHand(id, n), Wrote(_, id', _, s)) => if id' == id && s > n then InFlight(id, s) else Broken
    case (InHand(id, n), Refused(_, id', _)) => if id' == id then Free(n) else Broken
    case (InHand(id, n), Returned(_, id')) => if id' == id then Free(n) else Broken
    case (InFlight(id, s), Acknowledged(_, id', _, s')) => if id' == id && s' == s then Free(s) else Broken
    case (InFlight(id, s), Returned(_, id')) => if id' == id then Free(s) else Broken
    case _ => Broken
  }

  function PhaseOf(log: seq<Event>, c: ConnId): Phase
    decreases |log|
  {
    if log == [] then Free(0)
    else
      var before := PhaseOf(log[..|log| - 1], c);
      var e := log[|log| - 1];
      if e.conn == c then Advance(before, e) else before
  }

  /** What the connection really holds. */
  predicate PhaseTells(p: Phase, conn: Conn) {
    match p
    case Free(n) => HeldCommand(conn).None? && n <= conn.writeSeq
    case InHand(id, n) => conn.hand.Some? && conn.hand.value.commandId == id && n <= conn.writeSeq
    case InFlight(id, s) =>
      && conn.hand.None? && conn.session.inflight.Some?
      && conn.session.inflight.value.command.commandId == id && conn.session.inflight.value.sequence == s
      && s <= conn.writeSeq
    case Broken => false
  }

  ghost predicate PhasesOk(w: World) {
    forall c: ConnId :: if c in w.conns then PhaseTells(PhaseOf(w.log, c), w.conns[c]) else PhaseOf(w.log, c) == Free(0)
  }

  lemma PhaseSnoc(log: seq<Event>, e: Event, c: ConnId)
    ensures PhaseOf(log + [e], c) == if e.conn == c then Advance(PhaseOf(log, c), e) else PhaseOf(log, c)
  {
    assert (log + [e])[..|log|] == log;
  }

  // ---------------------------------------------------------------- one command

  datatype Life = Waiting | Handed(conn: ConnId) | Written(conn: ConnId, sequence: nat) | Over | Wrong

  /** What may be reported about a command: it is over after a refusal or an ack, and waits again after a return. */
  function Live(l: Life, e: Event): Life {
    match (l, e)
    case (Waiting, Popped(c, _)) => Handed(c)
    case (Handed(c), Wrote(c', _, _, s)) => if c' == c then Written(c, s) else Wrong
    case (Handed(c), Refused(c', _, _)) => if c' == c then Over else Wrong
    case (Handed(c), Returned(c', _)) => if c' == c then Waiting else Wrong
    case (Written(c, s), Acknowledged(c', _, _, s')) => if c' == c && s' == s then Over else Wrong
    case (Written(c, _), Returned(c', _)) => if c' == c then Waiting else Wrong
    case _ => Wrong
  }

  function LifeOf(log: seq<Event>, id: int): Life
    decreases |log|
  {
    if log == [] then Waiting
    else
      var before := LifeOf(log[..|log| - 1], id);
      var e := log[|log| - 1];
      if e.id == id then Live(before, e) else before
  }

  lemma LifeSnoc(log: seq<Event>, e: Event, id: int)
    ensures LifeOf(log + [e], id) == if e.id == id then Live(LifeOf(log, id), e) else LifeOf(log, id)
  {
    assert (log + [e])[..|log|] == log;
  }

  /** The life of a command as its place and its holder tell it. */
  function TrueLife(w: World, id: int): Life {
    if id !in w.place then Waiting
    else
      match w.place[id]
      case HeldBy(c) =>
        if c !in w.conns || HeldCommand(w.conns[c]).None? then Wrong
        else if w.conns[c].hand.Some? then Handed(c)
        else Written(c, w.conns[c].session.inflight.value.sequence)
      case Settled => Over
      case _ => Waiting
  }

  ghost predicate LivesOk(w: World) {
    forall id :: LifeOf(w.log, id) == TrueLife(w, id) && TrueLife(w, id) != Wrong
  }

  ghost predicate WordsOk(w: World) {
    PhasesOk(w) && LivesOk(w)
  }

  // ---------------------------------------------------------------- each kind of step

  lemma QuietKeepsWords(w: World, w': World, c: ConnId)
    requires WordsOk(w) && QuietMoves(w, w', c)
    ensures WordsOk(w')
  {
    hide PhaseOf, LifeOf;
    forall k: ConnId
      ensures if k in w'.conns then PhaseTells(PhaseOf(w'.log, k), w'.conns[k]) else PhaseOf(w'.log, k) == Free(0)
    {
      assert k in w.conns ==> PhaseTells(PhaseOf(w.log, k), w.conns[k]);
    }
    forall id ensures LifeOf(w'.log, id) == TrueLife(w', id) && TrueLife(w', id) != Wrong {
      assert TrueLife(w', id) == TrueLife(w, id);
    }
  }

  /** The two worlds differ in one connection, one place and one logged event. */
  ghost predicate OneEvent(w: World, w': World, c: ConnId, e: Event) {
    && c in w.conns && c in w'.conns && w'.conns == w.conns[c := w'.conns[c]]
    && w'.log == w.log + [e] && e.conn == c
    && e.id in w.place && e.id in w'.place
  }

  lemma {:induction false} EventKeepsWords(w: World, w': World, c: ConnId, e: Event)
    requires WordsOk(w) && OneEvent(w, w', c, e)
    requires PhaseTells(Advance(PhaseOf(w.log, c), e), w'.conns[c])
    requires Live(TrueLife(w, e.id), e) == TrueLife(w', e.id) != Wrong
    requires forall id :: id != e.id ==> TrueLife(w', id) == TrueLife(w, id)
    ensures WordsOk(w')
  {
    hide PhaseOf, LifeOf, Advance, Live, TrueLife, PhaseTells;
    forall k: ConnId
      ensures if k in w'.conns then PhaseTells(PhaseOf(w'.log, k), w'.conns[k]) else PhaseOf(w'.log, k) == Free(0)
    {
      PhaseSnoc(w.log, e, k);
    }
    forall id ensures LifeOf(w'.log, id) == TrueLife(w', id) && TrueLife(w', id) != Wrong {
      LifeSnoc(w.log, e, id);
    }
  }

  /** A command that c does not hold keeps its life, also when it is evicted. */
  lemma OtherLife(w: World, w': World, c: ConnId, id: int)
    requires Inv(w) && c in w.conns && c in w'.conns && w'.conns == w.conns[c := w'.conns[c]]
    requires id in w.place && id in w'.place
    requires w'.place[id] == w.place[id] || (w.place[id].InQueue? && w'.place[id] == Evicted)
    requires HeldCommand(w.conns[c]).Some? ==> HeldCommand(w.conns[c]).value.commandId != id
    ensures TrueLife(w', id) == TrueLife(w, id)
  {
    hide Image, TrimSpace, ResolveDownlinkCmd;
    assert LedgerOk(w, id);
  }

  lemma PlaceIsKept(w: World, w': World, c: ConnId, id: int, e: Event)
    requires Inv(w) && OneEvent(w, w', c, e) && id != e.id
    requires HeldCommand(w.conns[c]).Some? ==> HeldCommand(w.conns[c]).value.commandId == e.id
    requires id in w'.place <==> id in w.place
    requires id in w.place ==> w'.place[id] == w.place[id] || (w.place[id].InQueue? && w'.place[id] == Evicted)
    ensures TrueLife(w', id) == TrueLife(w, id)
  {
    hide Inv;
    if id in w.place {
      OtherLife(w, w', c, id);
    }
  }

  lemma EnqueueKeepsWords(w: World, w': World, uuid: string, m: Message, row: CommandRow)
    requires Inv(w) && WordsOk(w) && EnqueueMoves(w, w', uuid, m, row)
    ensures WordsOk(w')
  {
    hide TrimSpace, LedgerOk, ConnOk, PhaseOf, LifeOf, PhaseTells, Enqueued;
    QueuedIds(w, uuid);
    assert TableOk(w);
    forall id ensures LifeOf(w'.log, id) == TrueLife(w', id) && TrueLife(w', id) != Wrong {
      assert TrueLife(w', id) == TrueLife(w, id);
    }
  }

  lemma PopKeepsWords(w: World, w': World, c: ConnId, uuid: string, tenantId: string)
    requires Inv(w) && WordsOk(w) && PopMoves(w, w', c, uuid, tenantId)
    ensures WordsOk(w')
  {
    hide TrimSpace, PhaseOf, LifeOf;
    var m := QueueAt(w, uuid)[0];
    ImageId(uuid, tenantId, m);
    hide Image, Inv;
    QueuedIdsOf(w, uuid);
    var e := Popped(c, m.commandId);
    assert OneEvent(w, w', c, e);
    forall id | id != e.id ensures TrueLife(w', id) == TrueLife(w, id) {
      PlaceIsKept(w, w', c, id, e);
    }
    EventKeepsWords(w, w', c, e);
  }

  lemma QueuedIdsOf(w: World, uuid: string)
    requires Inv(w)
    ensures var q := QueueAt(w, uuid);
            forall i :: 0 <= i < |q| ==> q[i].commandId in w.place && w.place[q[i].commandId] == InQueue(uuid)
  {
    assert QueueOk(w, uuid);
    QueuedIds(w, uuid);
  }

  lemma SettleKeepsWords(w: World, w': World, c: ConnId, command: AdapterCommand, status: CommandStatus,
                         errorText: string)
    requires Inv(w) && WordsOk(w) && SettleMoves(w, w', c, command, status, errorText)
    ensures WordsOk(w')
  {
    hide TrimSpace, PhaseOf, LifeOf, Image, WithStatus, ResolveDownlinkCmd, Inv;
    HeldFacts(w, c);
    var e := w'.log[|w.log|];
    assert OneEvent(w, w', c, e) && e.id == command.commandId;
    forall id | id != e.id ensures TrueLife(w', id) == TrueLife(w, id) {
      PlaceIsKept(w, w', c, id, e);
    }
    EventKeepsWords(w, w', c, e);
  }

  lemma WriteKeepsWords(w: World, w': World, c: ConnId, command: AdapterCommand, sequence: nat)
    requires Inv(w) && WordsOk(w) && WriteMoves(w, w', c, command, sequence)
    ensures WordsOk(w')
  {
    hide TrimSpace, PhaseOf, LifeOf, Image, WithStatus, ResolveDownlinkCmd, Inv;
    HeldFacts(w, c);
    var e := Wrote(c, command.commandId, command.uuid, sequence);
    assert OneEvent(w, w', c, e);
    forall id | id != e.id ensures TrueLife(w', id) == TrueLife(w, id) {
      PlaceIsKept(w, w', c, id, e);
    }
    EventKeepsWords(w, w', c, e);
  }

  lemma ReturnKeepsWords(w: World, w': World, c: ConnId, command: AdapterCommand)
    requires Inv(w) && WordsOk(w) && ReturnMoves(w, w', c, command)
    ensures WordsOk(w')
  {
    hide TrimSpace, PhaseOf, LifeOf, Image, WithStatus, ResolveDownlinkCmd, Inv;
    HeldFacts(w, c);
    QueuedIdsOf(w, command.uuid);
    var e := Returned(c, command.commandId);
    assert OneEvent(w, w', c, e);
    forall id | id != e.id ensures TrueLife(w', id) == TrueLife(w, id) {
      PlaceIsKept(w, w', c, id, e);
    }
    EventKeepsWords(w, w', c, e);
  }

  // ---------------------------------------------------------------- every step, every run

  lemma StepKeepsWords(w: World, step: Step)
    requires Inv(w) && WordsOk(w) && Enabled(w, step)
    ensures WordsOk(Next(w, step))
  {
    StepKeepsInv(w, step);
    var w' := Next(w, step);
    hide Inv, WordsOk, Next, Moves, TrimSpace, CreateError;
    if step.Enqueue? {
      WordsOfEnqueueStep(w, step, w');
    } else if step.Connect? || step.Bind? || step.WriteOther? || step.PopDownlink? {
      WordsOfLightStep(w, step, w');
    } else if step.AckArrives? || step.Disconnect? {
      WordsOfInflightStep(w, step, w');
    } else {
      WordsOfHandStep(w, step, w');
    }
  }

  lemma WordsOfEnqueueStep(w: World, step: Step, w': World)
    requires step.Enqueue? && Inv(w) && WordsOk(w) && Moves(w, step, w')
    ensures WordsOk(w')
  {
    hide Inv, WordsOk, EnqueueMoves, TrimSpace, CreateError, NormalizeTenant, ToLower;
    if CreateError(step.tenantId, step.uuid, step.command, step.owner).None? {
      EnqueueKeepsWords(w, w', step.uuid, Message(w.core.table.nextId, step.cmdId, step.payload),
                        NewRow(step.tenantId, step.uuid, step.cmdId, step.command, step.payload));
    }
  }

  lemma WordsOfLightStep(w: World, step: Step, w': World)
    requires step.Connect? || step.Bind? || step.WriteOther? || step.PopDownlink?
    requires Inv(w) && WordsOk(w) && Enabled(w, step) && Moves(w, step, w')
    ensures WordsOk(w')
  {
    hide Inv, WordsOk, PopMoves, QuietMoves, PullUuid, ResolveTenant;
    if step.PopDownlink? {
      if w' != w {
        var uuid := PullUuid(PullRequestOf(w.conns[step.c].session));
        PopKeepsWords(w, w', step.c, uuid, ResolveTenant(step.tenants, uuid));
      }
    } else {
      QuietKeepsWords(w, w', step.c);
    }
  }

  lemma WordsOfHandStep(w: World, step: Step, w': World)
    requires step.FailUnmapped? || step.FailPack? || step.WriteOk? || step.WriteFail?
    requires Inv(w) && WordsOk(w) && Enabled(w, step) && Moves(w, step, w')
    ensures WordsOk(w')
  {
    hide Inv, WordsOk, SettleMoves, WriteMoves, ReturnMoves, TrimSpace, ResolveDownlinkCmd;
    var command := w.conns[step.c].hand.value;
    match step {
      case WriteOk(c) => WriteKeepsWords(w, w', c, command, w.conns[c].writeSeq + 1);
      case WriteFail(c, _) => ReturnKeepsWords(w, w', c, command);
      case _ => SettleKeepsWords(w, w', step.c, command, Failed, TrimSpace(step.errorText));
    }
  }

  lemma WordsOfInflightStep(w: World, step: Step, w': World)
    requires step.AckArrives? || step.Disconnect?
    requires Inv(w) && WordsOk(w) && Enabled(w, step) && Moves(w, step, w')
    ensures WordsOk(w')
  {
    hide Inv, WordsOk, SettleMoves, ReturnMoves, QuietMoves, TrimSpace, AckMatches;
    var session := w.conns[step.c].session;
    if step.AckArrives? {
      if AckMatches(session, step.cmd, step.sequence) {
        AckHasInflight(session, step.cmd, step.sequence);
        SettleKeepsWords(w, w', step.c, session.inflight.value.command, Acked, "");
      }
    } else if session.inflight.Some? {
      ReturnKeepsWords(w, w', step.c, session.inflight.value.command);
    } else {
      QuietKeepsWords(w, w', step.c);
    }
  }

  lemma {:induction false} RunKeepsWords(w: World, steps: seq<Step>)
    requires Inv(w) && WordsOk(w) && IsRun(w, steps)
    ensures WordsOk(Run(w, steps))
    decreases steps
  {
    hide Inv, WordsOk, Next, Enabled, Moves;
    if steps != [] {
      StepKeepsInv(w, steps[0]);
      StepKeepsWords(w, steps[0]);
      RunKeepsWords(Next(w, steps[0]), steps[1..]);
    }
  }

  /**
   * In every run each connection's events are a prefix of words POP REFUSED, POP RETURNED, POP WROTE ACKED and
   * POP WROTE RETURNED, one after the other, with increasing sequence numbers; an open word is the
   * command really held, and a closed connection has none.
   */
  lemma {:induction false} ConnectionWords(capacity: int, steps: seq<Step>, c: ConnId)
    requires IsRun(InitialWorld(capacity), steps)
    ensures var w := Run(InitialWorld(capacity), steps);
            && PhaseOf(w.log, c) != Broken
            && (c in w.conns ==> PhaseTells(PhaseOf(w.log, c), w.conns[c]))
            && (c in w.conns && !w.conns[c].open ==> PhaseOf(w.log, c).Free?)
  {
    InitialInv(capacity);
    RunKeepsInv(InitialWorld(capacity), steps);
    RunKeepsWords(InitialWorld(capacity), steps);
    var w := Run(InitialWorld(capacity), steps);
    hide Run, IsRun, PhaseOf, Image, TrimSpace, ResolveDownlinkCmd, LivesOk;
    if c in w.conns {
      assert ConnOk(w, c);
    }
  }

  lemma StatusOfLife(w: World, id: int)
    requires Inv(w)
    ensures TrueLife(w, id) == Over <==> id in w.core.table.rows && IsFinal(w.core.table.rows[id].status)
    ensures TrueLife(w, id).Handed? ==> id in w.core.table.rows && w.core.table.rows[id].status == Queued
    ensures TrueLife(w, id).Written? ==> id in w.core.table.rows && w.core.table.rows[id].status == Sent
  {
    hide Image, TrimSpace, ResolveDownlinkCmd;
    if id in w.place {
      assert LedgerOk(w, id);
      if w.place[id].HeldBy? {
        HeldFacts(w, w.place[id].conn);
      }
    }
  }

  /**
   * In every run each command's events are such words too, the last of them open or ending in REFUSED
   * or ACKED; after that nothing is reported about it any more. A command is written again only after
   * it was returned.
   */
  lemma {:induction false} CommandWords(capacity: int, steps: seq<Step>, id: int)
    requires IsRun(InitialWorld(capacity), steps)
    ensures var w := Run(InitialWorld(capacity), steps);
            var life := LifeOf(w.log, id);
            var rows := w.core.table.rows;
            && life == TrueLife(w, id) != Wrong
            && (life == Over <==> id in rows && IsFinal(rows[id].status))
            && (life.Handed? ==> id in rows && rows[id].status == Queued)
            && (life.Written? ==> id in rows && rows[id].status == Sent)
  {
    InitialInv(capacity);
    RunKeepsInv(InitialWorld(capacity), steps);
    RunKeepsWords(InitialWorld(capacity), steps);
    var w := Run(InitialWorld(capacity), steps);
    hide Run, IsRun, LifeOf, PhasesOk;
    StatusOfLife(w, id);
  }

  // ---------------------------------------------------------------- which write an ack answers

  predicate WritesOn(e: Event, c: ConnId) {
    e.Wrote? && e.conn == c
  }

  ghost predicate WritesIncrease(log: seq<Event>, c: ConnId) {
    forall i, j :: 0 <= i < j < |log| && WritesOn(log[i], c) && WritesOn(log[j], c) ==>
      log[i].sequence < log[j].sequence
  }

  ghost predicate WritesUpTo(log: seq<Event>, c: ConnId, last: nat) {
    forall i :: 0 <= i < |log| && WritesOn(log[i], c) ==> log[i].sequence <= last
  }

  ghost predicate WasWritten(log: seq<Event>, c: ConnId, id: int, sequence: nat) {
    exists i :: 0 <= i < |log| && WritesOn(log[i], c) && log[i].id == id && log[i].sequence == sequence
  }

  lemma {:induction false} PhaseSummary(log: seq<Event>, c: ConnId)
    requires PhaseOf(log, c) != Broken
    ensures WritesIncrease(log, c) && WritesUpTo(log, c, PhaseOf(log, c).last)
    ensures PhaseOf(log, c).InFlight? ==> WasWritten(log, c, PhaseOf(log, c).id, PhaseOf(log, c).last)
    decreases |log|
  {
    if log != [] {
      var before := log[..|log| - 1];
      PhaseSummary(before, c);
      assert log == before + [log[|log| - 1]];
      var p := PhaseOf(log, c);
      if p.InFlight? {
        if WritesOn(log[|log| - 1], c) {
          assert WasWritten(log, c, p.id, p.last);
        } else {
          var i :| 0 <= i < |before| && WritesOn(before[i], c) && before[i].id == p.id && before[i].sequence == p.last;
          assert log[i] == before[i];
        }
      }
    }
  }

  lemma {:induction false} PrefixUnbroken(log: seq<Event>, c: ConnId, n: nat)
    requires PhaseOf(log, c) != Broken && n <= |log|
    ensures PhaseOf(log[..n], c) != Broken
    decreases |log|
  {
    if n == |log| {
      assert log[..n] == log;
    } else {
      PrefixUnbroken(log[..|log| - 1], c, n);
      assert log[..|log| - 1][..n] == log[..n];
    }
  }

  /** An ack settles the command its connection wrote with that very number, and no other was. */
  lemma {:induction false} AckNamesItsWrite(capacity: int, steps: seq<Step>, j: nat)
    requires IsRun(InitialWorld(capacity), steps)
    requires j < |Run(InitialWorld(capacity), steps).log| && Run(InitialWorld(capacity), steps).log[j].Acknowledged?
    ensures var log := Run(InitialWorld(capacity), steps).log;
            var ack := log[j];
            && WasWritten(log[..j], ack.conn, ack.id, ack.sequence)
            && forall k :: 0 <= k < |log| && WritesOn(log[k], ack.conn) && log[k].sequence == ack.sequence ==>
                 k < j && log[k].id == ack.id
  {
    hide Run, IsRun, PhaseOf, PhaseTells, WasWritten;
    var log := Run(InitialWorld(capacity), steps).log;
    var c := log[j].conn;
    ConnectionWords(capacity, steps, c);
    AckMeans(log, j);
  }

  lemma {:induction false} AckMeans(log: seq<Event>, j: nat)
    requires j < |log| && log[j].Acknowledged? && PhaseOf(log, log[j].conn) != Broken
    ensures WasWritten(log[..j], log[j].conn, log[j].id, log[j].sequence)
    ensures forall k :: 0 <= k < |log| && WritesOn(log[k], log[j].conn) && log[k].sequence == log[j].sequence ==>
              k < j && log[k].id == log[j].id
  {
    var c := log[j].conn;
    PhaseSummary(log, c);
    PrefixUnbroken(log, c, j);
    PrefixUnbroken(log, c, j + 1);
    assert log[..j + 1][..j] == log[..j];
    PhaseSummary(log[..j], c);
    var i :| && 0 <= i < j && WritesOn(log[..j][i], c)
             && log[..j][i].id == log[j].id && log[..j][i].sequence == log[j].sequence;
    assert log[..j][i] == log[i];
  }
}
