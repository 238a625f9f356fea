/**
 What every action of every run keeps: the kernel holds exactly the SQEs the connections'
 flags say, each pointing where its connection's buffers are; every open socket belongs to
 exactly one connection; nothing is closed twice.
 */
module EventLoopInvariant {
  import opened Bytes
  import opened Connection
  import opened ConnectionInvariant
  import opened ConnectionFrame
  import opened EventLoop
  import U = UserData

  // ----- the invariant -----

  function RecvData(idx: nat, c: Conn): nat {
    U.Encode(U.Recv, idx, c.generation)
  }

  function WriteData(idx: nat, c: Conn): nat {
    U.Encode(U.Write, idx, c.generation)
  }

  /** The kernel's view of slot `idx` is what the flags and buffers of `c` say. */
  ghost predicate KernelOk(w: World, idx: nat, c: Conn) {
    var r, s := RecvData(idx, c), WriteData(idx, c);
    && idx < U.BIT_32 && c.generation < U.GENERATIONS
    && (r in w.inflight <==> c.recvPending) && (s in w.inflight <==> c.writePending)
    && (c.recvPending ==> c.recvTarget.Some? && w.inflight[r].RecvSqe? && w.inflight[r].target == c.recvTarget.value)
    && (c.writePending ==> w.inflight[s].SendSqe? && w.inflight[s].data == Tail(c.resp)[..SendLength(Tail(c.resp))])
    && (forall u :: u in w.inflight && U.SlotOf(u) == idx ==> u == r || u == s)
    && (forall fd :: fd in w.open && w.open[fd].idx == idx ==> fd == c.fd)
    && (0 <= c.fd ==> c.fd in w.open && w.open[c.fd].idx == idx)
  }

  /** A free slot: the kernel knows nothing of it. */
  ghost predicate SlotFree(w: World, idx: nat) {
    && (forall u :: u in w.inflight ==> U.SlotOf(u) != idx)
    && (forall fd :: fd in w.open ==> w.open[fd].idx != idx)
  }

  /** The tracked deadline is the connection's current one, and the heap knows it. */
  ghost predicate TimerOk(cfg: Config, w: World, idx: nat, c: Conn) {
    c.state != Closed ==>
      && c.clock.tracked == DeadlineOf(cfg, c)
      && (c.clock.tracked.Some? ==> Entry(c.clock.tracked.value, idx, c.clock.generation) in w.heap)
  }

  ghost predicate SeatCore(cfg: Config, w: World, idx: nat) {
    if idx in w.conns then
      Core(cfg, w.conns[idx]) && Armed(cfg, w.conns[idx]) && KernelOk(w, idx, w.conns[idx])
    else SlotFree(w, idx)
  }

  ghost predicate Seat(cfg: Config, w: World, idx: nat) {
    SeatCore(cfg, w, idx) && (idx in w.conns ==> TimerOk(cfg, w, idx, w.conns[idx]))
  }

  /** A connection that ended with its response has sent all its responses whole. */
  predicate EndedWell(e: Ended) {
    RepliesOk(e.log) && SentPart(e.log) && (e.why == ResponseEnded ==> SentWhole(e.log))
  }

  /**
   Every accepted socket is open and never closed, or not open and closed exactly once, in that
   case with its end recorded if it had a connection.
   */
  ghost predicate SocketsOk(w: World) {
    && (forall s :: s in w.live ==> w.live[s] in w.open && w.open[w.live[s]].serial == s)
    && (forall fd :: fd in w.open ==> 0 <= fd && w.open[fd].serial in w.live && w.live[w.open[fd].serial] == fd)
    && (forall s: nat :: s in w.closes <==> s < w.accepted)
    && (forall s :: s in w.live ==> s in w.closes)
    && (forall s :: s in w.closes ==> w.closes[s] == if s in w.live then 0 else 1)
    && (forall s :: s in w.ended ==> s in w.closes && s !in w.live && EndedWell(w.ended[s]))
  }

  ghost predicate Base(cfg: Config, w: World) {
    && (forall idx: nat :: Seat(cfg, w, idx))
    && SocketsOk(w) && w.nextGeneration < U.GENERATIONS && !w.fault
  }

  ghost predicate AllClosed(w: World) {
    w.open == map[] && forall idx :: idx in w.conns ==> w.conns[idx].state == Closed
  }

  ghost predicate Inv(cfg: Config, w: World) {
    && (w.phase == Finished ==> w.conns == map[] && Base(cfg, w.(conns := w.leaked)))
    && (w.phase != Finished ==> w.leaked == map[] && Base(cfg, w))
    && (w.phase == TearingDown ==> AllClosed(w))
    && (w.phase == Finished ==> AllClosed(w.(conns := w.leaked)))
  }

  // ----- framing: an action touches one slot -----

  /** `v` differs from `w` at most in slot `idx`. */
  ghost predicate SameOff(w: World, v: World, idx: nat) {
    && (forall j :: j != idx ==> (j in w.conns <==> j in v.conns))
    && (forall j :: j != idx && j in w.conns ==> v.conns[j] == w.conns[j])
    && (forall u :: U.SlotOf(u) != idx ==> (u in w.inflight <==> u in v.inflight))
    && (forall u :: U.SlotOf(u) != idx && u in w.inflight ==> v.inflight[u] == w.inflight[u])
    && (forall fd :: fd in w.open && w.open[fd].idx != idx ==> fd in v.open && v.open[fd] == w.open[fd])
    && (forall fd :: fd in v.open && v.open[fd].idx != idx ==> fd in w.open && v.open[fd] == w.open[fd])
    && (forall e :: e in w.heap ==> e in v.heap)
    && (w.nextGeneration < U.GENERATIONS ==> v.nextGeneration < U.GENERATIONS)
    && v.phase == w.phase && v.leaked == w.leaked
  }

  lemma SameOffThen(w: World, v: World, x: World, idx: nat)
    requires SameOff(w, v, idx) && SameOff(v, x, idx)
    ensures SameOff(w, x, idx)
  {
    hide U.SlotOf;
  }

  lemma KernelOff(w: World, v: World, idx: nat, j: nat, c: Conn)
    requires SameOff(w, v, idx) && j != idx && KernelOk(w, j, c)
    ensures KernelOk(v, j, c)
  {
    U.RoundTrip(U.Recv, U.Recv, j, c.generation);
    U.RoundTrip(U.Write, U.Write, j, c.generation);
    hide U.Encode, U.SlotOf, Tail;
  }

  lemma SeatOff(cfg: Config, w: World, v: World, idx: nat, j: nat)
    requires SameOff(w, v, idx) && j != idx && Seat(cfg, w, j)
    ensures Seat(cfg, v, j)
  {
    hide Core, Armed, KernelOk, U.SlotOf;
    if j in w.conns {
      KernelOff(w, v, idx, j, w.conns[j]);
    }
  }

  /** If only slot `idx` changed and is fine, all slots are. */
  lemma SeatsKeep(cfg: Config, w: World, v: World, idx: nat)
    requires (forall j: nat :: j != idx ==> Seat(cfg, w, j)) && SameOff(w, v, idx) && Seat(cfg, v, idx)
    ensures forall j: nat :: Seat(cfg, v, j)
  {
    hide Seat, SameOff;
    forall j: nat ensures Seat(cfg, v, j) {
      if j != idx {
        SeatOff(cfg, w, v, idx, j);
      }
    }
  }

  lemma KernelSame(w: World, idx: nat, c: Conn, d: Conn)
    requires KernelOk(w, idx, c) && SameKernel(c, d)
    ensures KernelOk(w, idx, d)
  {
    hide U.Encode, U.SlotOf;
  }

  // ----- primitive steps -----

  /** What is true around slot `idx` while its handler's operation is performed. */
  ghost predicate Around(w: World, idx: nat, c: Conn) {
    SocketsOk(w) && !w.fault && KernelOk(w, idx, c)
  }

  /** What is true of slot `idx` afterwards, up to its timer. */
  ghost predicate Settled(cfg: Config, w: World, v: World, idx: nat) {
    SameOff(w, v, idx) && SocketsOk(v) && !v.fault && SeatCore(cfg, v, idx)
  }

  /** Field by field, what closing a socket makes of the world. */
  lemma EndFdIs(w: World, fd: int, end: Ended)
    ensures EndFd(w, fd, end) ==
            if fd !in w.open then
              World(w.conns, w.inflight, w.open, w.live, w.closes, w.ended, w.accepted, w.nextGeneration, w.heap, w.phase,
                      w.leaked, true)
            else
              var s := w.open[fd].serial;
              World(w.conns, w.inflight, w.open - {fd}, w.live - {s},
                      w.closes[s := (if s in w.closes then w.closes[s] else 0) + 1], w.ended[s := end], w.accepted,
                      w.nextGeneration, w.heap, w.phase, w.leaked, w.fault || s in w.ended)
  {
  }

  lemma CloseFdKeeps(w: World, fd: int)
    requires SocketsOk(w) && fd in w.open
    ensures var v := CloseFd(w, fd);
            && SocketsOk(v) && v.open == w.open - {fd} && v.fault == w.fault
            && v.conns == w.conns && v.inflight == w.inflight && v.heap == w.heap
            && v.nextGeneration == w.nextGeneration && v.phase == w.phase && v.leaked == w.leaked
  {
    hide EndedWell;
  }

  /** Slots and timers do not matter to sockets, nor to what the kernel sees of a slot. */
  lemma SameSockets(w: World, v: World)
    requires w.open == v.open && w.live == v.live && w.closes == v.closes && w.accepted == v.accepted && w.ended == v.ended
    ensures SocketsOk(w) == SocketsOk(v)
    ensures w.inflight == v.inflight ==> forall idx, c :: KernelOk(w, idx, c) == KernelOk(v, idx, c)
  {
    hide U.SlotOf, U.Encode, Tail;
  }

  lemma PutKeeps(cfg: Config, w: World, idx: nat, c: Conn)
    requires Around(w, idx, c) && Core(cfg, c) && Armed(cfg, c)
    ensures Settled(cfg, w, Put(w, idx, c), idx)
  {
    hide Core, Armed, SocketsOk, KernelOk, SameOff;
    SameSockets(w, Put(w, idx, c));
    SameOffPut(w, idx, c);
  }

  lemma CloseKeeps(cfg: Config, w: World, idx: nat, c: Conn, why: CloseReason)
    requires Around(w, idx, c) && Owes(cfg, Outcome(c, Shut(why)))
    ensures Settled(cfg, w, CloseConn(Put(w, idx, c), idx, why), idx)
  {
    ClosableFacts(cfg, c, why);
    hide Core, Closable, SameOff, Owes, EndedWell;
    KernelFd(w, idx, c);
    var p := Put(w, idx, c);
    SameSockets(w, p);
    EndFdKeeps(p, c.fd, Ended(c.log, why));
    hide SocketsOk, KernelOk, EndFd, SlotFree;
    ClosedSettles(cfg, w, EndFd(p, c.fd, Ended(c.log, why)), idx, c);
  }

  /** The socket is closed; the slot goes, or stays for the kernel with a closed connection. */
  lemma ClosedSettles(cfg: Config, w: World, v: World, idx: nat, c: Conn)
    requires KernelOk(w, idx, c) && Core(cfg, MarkClosed(c.(fd := -1))) && 0 <= c.fd && SocketsOk(v) && !v.fault
    requires v.open == w.open - {c.fd} && v.inflight == w.inflight && v.heap == w.heap && v.conns == w.conns[idx := c]
    requires v.nextGeneration == w.nextGeneration && v.phase == w.phase && v.leaked == w.leaked
    ensures Settled(cfg, w, if c.recvPending || c.writePending then Put(v, idx, MarkClosed(c.(fd := -1))) else Remove(v, idx), idx)
  {
    hide Core, SameOff, SocketsOk, KernelOk, SlotFree;
    var d := MarkClosed(c.(fd := -1));
    ClosedOff(w, v, idx, c);
    SameSockets(v, Put(v, idx, d));
    SameSockets(v, Remove(v, idx));
    if c.recvPending || c.writePending {
      ClosedSlot(w, v, idx, c);
    } else {
      FreedSlot(w, v, idx, c);
    }
  }

  lemma ClosableFacts(cfg: Config, c: Conn, why: CloseReason)
    requires Owes(cfg, Outcome(c, Shut(why)))
    ensures 0 <= c.fd && c.state != Closed && EndedWell(Ended(c.log, why))
    ensures Core(cfg, MarkClosed(c.(fd := -1)))
  {
    MarkClosedKeeps(cfg, c);
    assert MarkClosed(c.(fd := -1)) == MarkClosed(c).(fd := -1);
    hide Core, SentWhole, Spoken, ReplyBytes, Tail;
    var all := Spoken(c.log.replies) + ReplyBytes(c.log.reply);
    assert c.log.sent == (c.log.sent + Tail(c.resp))[..|c.log.sent|] == all[..|c.log.sent|];
  }

  lemma EndFdKeeps(w: World, fd: int, end: Ended)
    requires SocketsOk(w) && fd in w.open && EndedWell(end)
    ensures var v := EndFd(w, fd, end);
            && SocketsOk(v) && v.open == w.open - {fd} && v.fault == w.fault
            && v.conns == w.conns && v.inflight == w.inflight && v.heap == w.heap
            && v.nextGeneration == w.nextGeneration && v.phase == w.phase && v.leaked == w.leaked
  {
    hide EndedWell;
  }

  lemma KernelFd(w: World, idx: nat, c: Conn)
    requires KernelOk(w, idx, c) && 0 <= c.fd
    ensures c.fd in w.open && w.open[c.fd].idx == idx
  {
  }

  lemma ClosedOff(w: World, v: World, idx: nat, c: Conn)
    requires KernelOk(w, idx, c) && 0 <= c.fd
    requires v.open == w.open - {c.fd} && v.inflight == w.inflight && v.heap == w.heap && v.conns == w.conns[idx := c]
    requires v.nextGeneration == w.nextGeneration && v.phase == w.phase && v.leaked == w.leaked
    ensures forall d :: SameOff(w, Put(v, idx, d), idx)
    ensures SameOff(w, Remove(v, idx), idx)
  {
    hide U.SlotOf, U.Encode;
  }

  lemma ClosedSlot(w: World, v: World, idx: nat, c: Conn)
    requires KernelOk(w, idx, c) && 0 <= c.fd
    requires v.open == w.open - {c.fd} && v.inflight == w.inflight
    ensures KernelOk(Put(v, idx, MarkClosed(c.(fd := -1))), idx, MarkClosed(c.(fd := -1)))
  {
    hide U.SlotOf, U.Encode;
  }

  lemma FreedSlot(w: World, v: World, idx: nat, c: Conn)
    requires KernelOk(w, idx, c) && 0 <= c.fd && !c.recvPending && !c.writePending
    requires v.open == w.open - {c.fd} && v.inflight == w.inflight
    ensures SlotFree(Remove(v, idx), idx)
  {
    hide U.SlotOf, U.Encode;
  }

  lemma SubmitKeeps(w: World, idx: nat, tag: U.Tag, c: Conn, sqe: Sqe)
    requires idx < U.BIT_32 && c.generation < U.GENERATIONS && U.Encode(tag, idx, c.generation) !in w.inflight
    requires SocketsOk(w) && !w.fault
    ensures var v := Submit(w, U.Encode(tag, idx, c.generation), sqe);
            SameOff(w, v, idx) && SocketsOk(v) && !v.fault
  {
    hide U.SlotOf, U.Encode;
    U.RoundTrip(tag, tag, idx, c.generation);
  }

  /** A slot whose connection is put back together with an SQE of its own. */
  lemma SubmittedSeat(cfg: Config, w: World, idx: nat, tag: U.Tag, d: Conn, sqe: Sqe)
    requires SocketsOk(w) && !w.fault && idx < U.BIT_32 && d.generation < U.GENERATIONS && Core(cfg, d) && Armed(cfg, d)
    requires var u := U.Encode(tag, idx, d.generation);
             u !in w.inflight && KernelOk(Submit(Put(w, idx, d), u, sqe), idx, d)
    ensures Settled(cfg, w, Submit(Put(w, idx, d), U.Encode(tag, idx, d.generation), sqe), idx)
  {
    hide Core, Armed, SocketsOk, KernelOk, SameOff, U.Encode;
    var p := Put(w, idx, d);
    SameSockets(w, p);
    SubmitKeeps(p, idx, tag, d, sqe);
    SameOffPut(w, idx, d);
    SameOffThen(w, p, Submit(p, U.Encode(tag, idx, d.generation), sqe), idx);
  }

  lemma SubmitRecvIs(w: World, idx: nat, c: Conn, push: Push)
    requires !c.recvPending && 0 <= c.fd
    ensures var d := PrepareRecv(c, push.base, push.extra);
            && d.recvTarget.Some? && d.generation == c.generation && d.recvPending == c.recvPending
            && SameKernel(c, d.(recvTarget := None))
            && SubmitRecv(w, idx, c, push) ==
               if push.room then
                 Submit(Put(w, idx, d.(recvPending := true)), U.Encode(U.Recv, idx, c.generation), RecvSqe(c.fd, d.recvTarget.value))
               else CloseConn(Put(w, idx, d.(recvTarget := None)), idx, IoError)
  {
    hide CloseConn, U.Encode;
  }

  lemma KernelSlots(w: World, idx: nat, c: Conn)
    requires KernelOk(w, idx, c)
    ensures idx < U.BIT_32 && c.generation < U.GENERATIONS
  {
  }

  lemma SubmitRecvKeeps(cfg: Config, w: World, idx: nat, c: Conn, push: Push)
    requires Around(w, idx, c) && Owes(cfg, Outcome(c, ArmRecv))
    ensures Settled(cfg, w, SubmitRecv(w, idx, c, push), idx)
  {
    hide Owes, Core, Armed, Closable, SocketsOk, KernelOk, SameKernel, Settled, SubmitRecv, PrepareRecv, CloseConn, U.Encode;
    ArmRecvKeeps(cfg, c, push.base, push.extra);
    SubmitRecvIs(w, idx, c, push);
    var d := PrepareRecv(c, push.base, push.extra);
    if push.room {
      RecvQueued(w, idx, c, d);
      KernelSlots(w, idx, c);
      SubmittedSeat(cfg, w, idx, U.Recv, d.(recvPending := true), RecvSqe(c.fd, d.recvTarget.value));
    } else {
      KernelSame(w, idx, c, d.(recvTarget := None));
      OwesShut(cfg, d.(recvTarget := None), IoError);
      CloseKeeps(cfg, w, idx, d.(recvTarget := None), IoError);
    }
  }

  lemma SameOffPut(w: World, idx: nat, c: Conn)
    ensures SameOff(w, Put(w, idx, c), idx)
  {
    hide U.SlotOf;
  }

  lemma RecvQueued(w: World, idx: nat, c: Conn, d: Conn)
    requires KernelOk(w, idx, c) && !c.recvPending && d.recvTarget.Some?
    requires SameKernel(c, d.(recvTarget := None)) && d.recvPending == c.recvPending
    ensures var e := d.(recvPending := true);
            var u := U.Encode(U.Recv, idx, c.generation);
            u !in w.inflight && KernelOk(Submit(Put(w, idx, e), u, RecvSqe(c.fd, d.recvTarget.value)), idx, e)
  {
    U.RoundTrip(U.Recv, U.Recv, idx, c.generation);
    if U.Encode(U.Recv, idx, c.generation) == U.Encode(U.Write, idx, c.generation) {
      U.Injective(U.Recv, idx, c.generation, U.Write, idx, c.generation);
    }
    hide U.SlotOf, U.Encode, Tail;
  }

  lemma SubmitWriteIs(w: World, idx: nat, c: Conn, push: Push)
    requires !c.writePending && 0 <= c.fd && Tail(c.resp) != []
    ensures SubmitWrite(w, idx, c, push) ==
            if push.room then
              Submit(Put(w, idx, c.(writePending := true)), U.Encode(U.Write, idx, c.generation),
                     SendSqe(c.fd, Tail(c.resp)[..SendLength(Tail(c.resp))]))
            else CloseConn(Put(w, idx, c), idx, IoError)
  {
    hide CloseConn, U.Encode, Tail;
  }

  lemma OwesSend(cfg: Config, c: Conn)
    requires Owes(cfg, Outcome(c, ArmSend))
    ensures Tail(c.resp) != []
  {
    hide Core, Tail;
  }

  lemma SubmitWriteKeeps(cfg: Config, w: World, idx: nat, c: Conn, push: Push)
    requires Around(w, idx, c) && Owes(cfg, Outcome(c, ArmSend))
    ensures Settled(cfg, w, SubmitWrite(w, idx, c, push), idx)
  {
    hide Owes, Core, Armed, Closable, SocketsOk, KernelOk, Settled, SubmitWrite, CloseConn, U.Encode, Tail;
    ArmSendKeeps(cfg, c);
    OwesSend(cfg, c);
    SubmitWriteIs(w, idx, c, push);
    if push.room {
      WriteQueued(w, idx, c);
      KernelSlots(w, idx, c);
      SubmittedSeat(cfg, w, idx, U.Write, c.(writePending := true), SendSqe(c.fd, Tail(c.resp)[..SendLength(Tail(c.resp))]));
    } else {
      OwesShut(cfg, c, IoError);
      CloseKeeps(cfg, w, idx, c, IoError);
    }
  }

  lemma WriteQueued(w: World, idx: nat, c: Conn)
    requires KernelOk(w, idx, c) && !c.writePending
    ensures var d := c.(writePending := true);
            var u := U.Encode(U.Write, idx, c.generation);
            u !in w.inflight
            && KernelOk(Submit(Put(w, idx, d), u, SendSqe(c.fd, Tail(c.resp)[..SendLength(Tail(c.resp))])), idx, d)
  {
    U.RoundTrip(U.Write, U.Write, idx, c.generation);
    if U.Encode(U.Recv, idx, c.generation) == U.Encode(U.Write, idx, c.generation) {
      U.Injective(U.Recv, idx, c.generation, U.Write, idx, c.generation);
    }
    hide U.SlotOf, U.Encode, Tail;
  }

  lemma ReleaseKeeps(cfg: Config, w: World, idx: nat, c: Conn)
    requires Around(w, idx, c) && Core(cfg, c) && c.state == Closed
    ensures Settled(cfg, w, ReleaseIfIdle(Put(w, idx, c), idx), idx)
  {
    assert c.fd == -1;
    hide Core, Armed, SameOff, SocketsOk, KernelOk, SlotFree;
    if c.recvPending || c.writePending {
      ClosedArmed(cfg, c);
      PutKeeps(cfg, w, idx, c);
    } else {
      GoneSlot(w, idx, c);
      SameSockets(w, Remove(Put(w, idx, c), idx));
      SameOffPut(w, idx, c);
      SameOffRemove(Put(w, idx, c), idx);
      SameOffThen(w, Put(w, idx, c), Remove(Put(w, idx, c), idx), idx);
    }
  }

  lemma ClosedArmed(cfg: Config, c: Conn)
    requires c.state == Closed && (c.recvPending || c.writePending)
    ensures Armed(cfg, c)
  {
  }

  lemma SameOffRemove(w: World, idx: nat)
    ensures SameOff(w, Remove(w, idx), idx)
  {
    hide U.SlotOf;
  }

  lemma GoneSlot(w: World, idx: nat, c: Conn)
    requires KernelOk(w, idx, c) && c.fd == -1 && !c.recvPending && !c.writePending
    requires SocketsOk(w)
    ensures SlotFree(Remove(Put(w, idx, c), idx), idx)
  {
    hide U.SlotOf, U.Encode;
    assert forall fd :: fd in w.open && w.open[fd].idx == idx ==> fd == -1;
  }

  lemma CancelCloses(cfg: Config, c: Conn)
    requires Owes(cfg, Outcome(c, CancelRecv))
    ensures Owes(cfg, Outcome(c, Shut(Timeout)))
  {
    CoreClosable(cfg, c);
    hide Core, Closable;
  }

  /** Performing what a handler owes settles its slot. */
  lemma PerformKeeps(cfg: Config, w: World, idx: nat, out: Outcome, push: Push)
    requires Around(w, idx, out.conn) && Owes(cfg, out)
    ensures Settled(cfg, w, Perform(w, idx, out, push), idx)
  {
    hide Core, Around, Settled, Closable, CloseConn, ReleaseIfIdle, SubmitRecv, SubmitWrite, Put, Armed;
    var c := out.conn;
    match out.op
    case Rest => PutKeeps(cfg, w, idx, c);
    case ArmRecv => SubmitRecvKeeps(cfg, w, idx, c, push);
    case ArmSend => SubmitWriteKeeps(cfg, w, idx, c, push);
    case CancelRecv =>
      PutKeeps(cfg, w, idx, c);
      CancelCloses(cfg, c);
      CloseKeeps(cfg, w, idx, c, Timeout);
    case Shut(why) => CloseKeeps(cfg, w, idx, c, why);
    case Release => ReleaseKeeps(cfg, w, idx, c);
  }

  // ----- refreshing the timer -----

  lemma RetimeCore(cfg: Config, c: Conn)
    ensures Core(cfg, Retime(cfg, c)) == Core(cfg, c)
  {
    hide MessageOk, BodyComplete, HeadParsed, Wire, Flatten, DeliveredOk, RepliesOk, Behind, Whole, DeadlineOf, ReplyBytes,
         RxBytes, Spoken, Ordered;
  }

  lemma RetimeKeeps(cfg: Config, c: Conn)
    ensures var d := Retime(cfg, c);
            && Core(cfg, d) == Core(cfg, c) && Armed(cfg, d) == Armed(cfg, c) && DeadlineOf(cfg, d) == DeadlineOf(cfg, c)
            && d.state == c.state && (d.state != Closed ==> d.clock.tracked == DeadlineOf(cfg, c))
            && forall w, idx :: KernelOk(w, idx, d) == KernelOk(w, idx, c)
  {
    RetimeCore(cfg, c);
    hide Core, U.Encode, U.SlotOf;
  }

  lemma RefreshKeeps(cfg: Config, w: World, idx: nat)
    requires SocketsOk(w) && !w.fault && SeatCore(cfg, w, idx)
    ensures var v := Refresh(cfg, w, idx);
            SameOff(w, v, idx) && SocketsOk(v) && !v.fault && Seat(cfg, v, idx)
  {
    hide SameOff, SocketsOk, DeadlineOf, Core, Armed, KernelOk, Enter, SlotFree;
    if idx in w.conns {
      RefreshSeat(cfg, w, idx);
      RefreshOff(w, idx, Retime(cfg, w.conns[idx]));
      SameSockets(w, Refresh(cfg, w, idx));
    } else {
      SameOffSelf(w, idx);
    }
  }

  lemma RefreshOff(w: World, idx: nat, c: Conn)
    ensures SameOff(w, Put(w, idx, c).(heap := Enter(w.heap, idx, c.clock)), idx)
  {
    hide U.SlotOf;
  }

  lemma RefreshSeat(cfg: Config, w: World, idx: nat)
    requires SeatCore(cfg, w, idx) && idx in w.conns
    ensures Seat(cfg, Refresh(cfg, w, idx), idx)
  {
    hide Core, Armed, KernelOk, DeadlineOf, SocketsOk, Retime;
    RetimeKeeps(cfg, w.conns[idx]);
    SameSockets(w, Refresh(cfg, w, idx));
  }

  lemma SameOffSelf(w: World, idx: nat)
    ensures SameOff(w, w, idx)
  {
  }

  /** A settled slot whose timer is refreshed leaves the whole worker in order. */
  lemma SettleAll(cfg: Config, w: World, v: World, idx: nat)
    requires (forall j: nat :: j != idx ==> Seat(cfg, w, j)) && w.nextGeneration < U.GENERATIONS
    requires Settled(cfg, w, v, idx)
    ensures Base(cfg, Refresh(cfg, v, idx))
    ensures Refresh(cfg, v, idx).phase == w.phase && Refresh(cfg, v, idx).leaked == w.leaked
  {
    RefreshKeeps(cfg, v, idx);
    SameOffThen(w, v, Refresh(cfg, v, idx), idx);
    hide Seat, SeatCore, SocketsOk, Refresh;
    SeatsKeep(cfg, w, Refresh(cfg, v, idx), idx);
  }

  /** A handler ran on the connection in `idx` and its operation is performed. */
  lemma TurnKeeps(cfg: Config, w: World, idx: nat, out: Outcome, push: Push)
    requires (forall j: nat :: j != idx ==> Seat(cfg, w, j)) && w.nextGeneration < U.GENERATIONS
    requires Around(w, idx, out.conn) && Owes(cfg, out)
    ensures var v := Refresh(cfg, Perform(w, idx, out, push), idx);
            Base(cfg, v) && v.phase == w.phase && v.leaked == w.leaked
  {
    hide Seat, Around, Owes, Perform, Settled, Refresh, Base;
    PerformKeeps(cfg, w, idx, out, push);
    SettleAll(cfg, w, Perform(w, idx, out, push), idx);
  }

  // ----- completions find their connection -----

  /** The connection an SQE in flight belongs to. */
  lemma Owner(cfg: Config, w: World, u: nat)
    requires Base(cfg, w) && u in w.inflight
    ensures u < U64
    ensures var idx := U.SlotOf(u);
            && idx in w.conns
            && var c := w.conns[idx];
               var tag := if w.inflight[u].RecvSqe? then U.Recv else U.Write;
               && u == U.Encode(tag, idx, c.generation)
               && U.Decode(u, tag) == Some(U.Token(idx, c.generation)) && Finds(w, U.Token(idx, c.generation))
               && (if tag == U.Recv then c.recvPending && c.recvTarget == Some(w.inflight[u].target)
                   else c.writePending && w.inflight[u].data == Tail(c.resp)[..SendLength(Tail(c.resp))])
  {
    var idx := U.SlotOf(u);
    assert Seat(cfg, w, idx);
    hide Core, Armed, TimerOk, Tail, SendLength;
    var c := w.conns[idx];
    U.RoundTrip(U.Recv, U.Recv, idx, c.generation);
    U.RoundTrip(U.Write, U.Write, idx, c.generation);
    hide U.Encode, U.Decode, U.SlotOf;
  }

  /** The kernel forgets a completed SQE; the flag of its connection is about to be cleared. */
  lemma Completed(cfg: Config, w: World, u: nat)
    requires Base(cfg, w) && u in w.inflight
    ensures var idx := U.SlotOf(u);
            var v := Forget(w, u);
            && idx in w.conns && SameOff(w, v, idx) && (forall j: nat :: j != idx ==> Seat(cfg, v, j))
            && var c := w.conns[idx];
               Around(v, idx, if w.inflight[u].RecvSqe? then c.(recvPending := false) else c.(writePending := false))
  {
    Owner(cfg, w, u);
    var idx := U.SlotOf(u);
    var v := Forget(w, u);
    SeatKernel(cfg, w, idx);
    ForgetOff(w, u);
    SameSockets(w, v);
    if w.inflight[u].RecvSqe? {
      ForgetRecv(w, idx, w.conns[idx]);
    } else {
      ForgetWrite(w, idx, w.conns[idx]);
    }
    hide SameOff, Seat, SocketsOk, KernelOk, U.SlotOf, U.Encode, U.Decode, Tail, SendLength;
    forall j: nat | j != idx ensures Seat(cfg, v, j) {
      SeatOff(cfg, w, v, idx, j);
    }
  }

  lemma SeatKernel(cfg: Config, w: World, idx: nat)
    requires Base(cfg, w) && idx in w.conns
    ensures KernelOk(w, idx, w.conns[idx]) && SocketsOk(w) && !w.fault
  {
    assert Seat(cfg, w, idx);
    hide Core, Armed, KernelOk, SocketsOk;
  }

  lemma ForgetOff(w: World, u: nat)
    ensures SameOff(w, Forget(w, u), U.SlotOf(u))
  {
    hide U.SlotOf;
  }

  /** The two SQEs a connection can have are told apart. */
  lemma TwoSqes(w: World, idx: nat, c: Conn)
    requires KernelOk(w, idx, c)
    ensures RecvData(idx, c) != WriteData(idx, c)
  {
    if RecvData(idx, c) == WriteData(idx, c) {
      U.Injective(U.Recv, idx, c.generation, U.Write, idx, c.generation);
    }
  }

  lemma ForgetRecv(w: World, idx: nat, c: Conn)
    requires KernelOk(w, idx, c) && c.recvPending
    ensures KernelOk(Forget(w, RecvData(idx, c)), idx, c.(recvPending := false))
  {
    TwoSqes(w, idx, c);
    hide U.SlotOf, U.Encode, Tail, SendLength;
  }

  lemma ForgetWrite(w: World, idx: nat, c: Conn)
    requires KernelOk(w, idx, c) && c.writePending
    ensures KernelOk(Forget(w, WriteData(idx, c)), idx, c.(writePending := false))
  {
    TwoSqes(w, idx, c);
    hide U.SlotOf, U.Encode, Tail, SendLength;
  }
}
