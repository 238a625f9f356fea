/** Every action of the event loop keeps the invariant. */
module EventLoopActions {
  import opened Bytes
  import opened BodyPump
  import opened Connection
  import opened ConnectionInvariant
  import opened ConnectionFrame
  import opened EventLoop
  import opened EventLoopInvariant
  import U = UserData

  /** `v` comes from `w` by an action that keeps the phase. */
  ghost predicate Kept(cfg: Config, w: World, v: World) {
    Base(cfg, v) && v.phase == w.phase && v.leaked == w.leaked
  }

  // ----- handlers -----

  lemma SeatOf(cfg: Config, w: World, idx: nat)
    requires Base(cfg, w) && idx in w.conns
    ensures Core(cfg, w.conns[idx]) && Armed(cfg, w.conns[idx]) && KernelOk(w, idx, w.conns[idx])
    ensures TimerOk(cfg, w, idx, w.conns[idx])
    ensures SocketsOk(w) && !w.fault
  {
    assert Seat(cfg, w, idx);
    hide Core, Armed, KernelOk, SocketsOk, TimerOk;
  }

  /** A handler that leaves the kernel's view alone and owes its operation. */
  lemma HandlerKeeps(cfg: Config, w: World, idx: nat, out: Outcome, push: Push)
    requires Base(cfg, w) && idx in w.conns
    requires SameKernel(w.conns[idx], out.conn) && Owes(cfg, out)
    ensures Kept(cfg, w, Refresh(cfg, Perform(w, idx, out, push), idx))
  {
    SeatOf(cfg, w, idx);
    KernelSame(w, idx, w.conns[idx], out.conn);
    hide Seat, Core, Armed, KernelOk, SocketsOk, TimerOk, Owes, SameKernel, Perform, Refresh;
    TurnKeeps(cfg, w, idx, out, push);
  }

  lemma SweepAction(cfg: Config, w: World, idx: nat, now: nat, push: Push)
    requires ValidConfig(cfg) && Base(cfg, w) && idx in w.conns && Expired(cfg, w.conns[idx], now)
    ensures Kept(cfg, w, Refresh(cfg, Perform(w, idx, SweepOne(cfg, w.conns[idx], now), push), idx))
  {
    SeatOf(cfg, w, idx);
    hide Base, Core, Armed, KernelOk, SocketsOk, TimerOk, Owes, SameKernel, Perform, Refresh, SweepOne, Kept;
    SweepKeeps(cfg, w.conns[idx], now);
    SweepFrame(cfg, w.conns[idx], now);
    HandlerKeeps(cfg, w, idx, SweepOne(cfg, w.conns[idx], now), push);
  }

  lemma DispatchAction(cfg: Config, w: World, idx: nat, env: Env, push: Push)
    requires EnvOk(env)
    requires ValidConfig(cfg) && Base(cfg, w) && idx in w.conns
    ensures Kept(cfg, w, Refresh(cfg, Perform(w, idx, AdvanceDispatching(cfg, w.conns[idx], env), push), idx))
  {
    SeatOf(cfg, w, idx);
    hide EnvOk, Base, Core, Armed, KernelOk, SocketsOk, TimerOk, Owes, SameKernel, Perform, Refresh, AdvanceDispatching, Kept;
    AdvanceDispatchingKeeps(cfg, w.conns[idx], env);
    AdvanceDispatchingFrame(cfg, w.conns[idx], env);
    HandlerKeeps(cfg, w, idx, AdvanceDispatching(cfg, w.conns[idx], env), push);
  }

  lemma WaitingResponse(cfg: Config, c: Conn)
    requires Core(cfg, c) && Armed(cfg, c) && c.state == Writing && !c.writePending
    ensures c.resp.rx.Some? && Tail(c.resp) == []
  {
  }

  lemma ResponseAction(cfg: Config, w: World, idx: nat, env: Env, push: Push)
    requires EnvOk(env)
    requires ValidConfig(cfg) && Base(cfg, w) && idx in w.conns
    requires w.conns[idx].state == Writing && !w.conns[idx].writePending
    ensures Kept(cfg, w, Refresh(cfg, Perform(w, idx, AdvanceResponse(cfg, w.conns[idx], env), push), idx))
  {
    SeatOf(cfg, w, idx);
    WaitingResponse(cfg, w.conns[idx]);
    hide EnvOk, Base, Core, Armed, KernelOk, SocketsOk, TimerOk, Owes, SameKernel, Perform, Refresh, AdvanceResponse, Kept, Tail;
    AdvanceResponseKeeps(cfg, w.conns[idx], env);
    AdvanceResponseFrame(cfg, w.conns[idx], env);
    HandlerKeeps(cfg, w, idx, AdvanceResponse(cfg, w.conns[idx], env), push);
  }

  // ----- completions -----

  lemma SameKernelThen(w: World, idx: nat, c: Conn, d: Conn)
    requires Around(w, idx, c) && SameKernel(c, d)
    ensures Around(w, idx, d)
  {
    KernelSame(w, idx, c, d);
    hide KernelOk, SocketsOk;
  }

  lemma RecvAction(cfg: Config, w: World, u: nat, r: Option<seq<byte>>, env: Env, push: Push)
    requires EnvOk(env)
    requires ValidConfig(cfg) && Base(cfg, w) && u in w.inflight && w.inflight[u].RecvSqe?
    requires r.Some? ==> |r.value| <= w.inflight[u].target.len
    ensures Kept(cfg, w, CompleteRecv(cfg, Forget(w, u), u, r, env, push))
  {
    Owner(cfg, w, u);
    Completed(cfg, w, u);
    var idx := U.SlotOf(u);
    var c := w.conns[idx];
    SeatOf(cfg, w, idx);
    NextGeneration(cfg, w);
    hide EnvOk, Base, Core, Armed, Seat, Around, KernelOk, SocketsOk, TimerOk, Owes, SameKernel, SameOff;
    hide U.Encode, U.Decode, U.SlotOf, Perform, Refresh, HandleRecv, CompleteRecv, ValidConfig;
    RecvFound(cfg, Forget(w, u), u, r, env, push);
    HandleRecvKeeps(cfg, c, r, env);
    HandleRecvFrame(cfg, c, r, env);
    var out := HandleRecv(cfg, c, r, env);
    SameKernelThen(Forget(w, u), idx, c.(recvPending := false), out.conn);
    TurnKeeps(cfg, Forget(w, u), idx, out, push);
  }

  lemma RecvFound(cfg: Config, w: World, u: nat, r: Option<seq<byte>>, env: Env, push: Push)
    requires ValidConfig(cfg) && U.Decode(u, U.Recv).Some? && Finds(w, U.Decode(u, U.Recv).value)
    requires w.conns[U.Decode(u, U.Recv).value.idx].recvPending
    ensures var idx := U.Decode(u, U.Recv).value.idx;
            CompleteRecv(cfg, w, u, r, env, push) == Refresh(cfg, Perform(w, idx, HandleRecv(cfg, w.conns[idx], r, env), push), idx)
  {
    hide ValidConfig, U.Decode, Perform, Refresh, HandleRecv;
  }

  lemma SendFound(cfg: Config, w: World, u: nat, data: seq<byte>, n: Option<nat>, env: Env, push: Push)
    requires ValidConfig(cfg) && U.Decode(u, U.Write).Some? && Finds(w, U.Decode(u, U.Write).value)
    requires w.conns[U.Decode(u, U.Write).value.idx].writePending && (n.Some? ==> n.value <= |data|)
    ensures var idx := U.Decode(u, U.Write).value.idx;
            var c := OnWire(w.conns[idx], if n.Some? then data[..n.value] else []);
            CompleteSend(cfg, w, u, data, n, env, push) == Refresh(cfg, Perform(w, idx, HandleSend(cfg, c, n, env), push), idx)
  {
    hide ValidConfig, U.Decode, Perform, Refresh, HandleSend, OnWire;
  }

  lemma NextGeneration(cfg: Config, w: World)
    requires Base(cfg, w)
    ensures w.nextGeneration < U.GENERATIONS
  {
  }

  lemma SendAction(cfg: Config, w: World, u: nat, n: Option<nat>, env: Env, push: Push)
    requires EnvOk(env)
    requires ValidConfig(cfg) && Base(cfg, w) && u in w.inflight && w.inflight[u].SendSqe?
    requires n.Some? ==> n.value <= |w.inflight[u].data|
    ensures Kept(cfg, w, CompleteSend(cfg, Forget(w, u), u, w.inflight[u].data, n, env, push))
  {
    Owner(cfg, w, u);
    Completed(cfg, w, u);
    var idx := U.SlotOf(u);
    var c := w.conns[idx];
    SeatOf(cfg, w, idx);
    NextGeneration(cfg, w);
    TakenOfTail(c, w.inflight[u].data, n);
    hide EnvOk, Base, Core, Armed, Seat, Around, KernelOk, SocketsOk, TimerOk, Owes, SameKernel, SameOff;
    hide U.Encode, U.Decode, U.SlotOf, Perform, Refresh, HandleSend, OnWire, Tail, SendLength, CompleteSend, ValidConfig;
    SendFound(cfg, Forget(w, u), u, w.inflight[u].data, n, env, push);
    HandleSendKeeps(cfg, c, n, env);
    HandleSendFrame(cfg, c, n, env);
    var d := OnWire(c, if n.Some? then w.inflight[u].data[..n.value] else []);
    var out := HandleSend(cfg, d, n, env);
    SameKernelThen(Forget(w, u), idx, c.(writePending := false), out.conn);
    TurnKeeps(cfg, Forget(w, u), idx, out, push);
  }

  lemma TakenOfTail(c: Conn, data: seq<byte>, n: Option<nat>)
    requires data == Tail(c.resp)[..SendLength(Tail(c.resp))] && (n.Some? ==> n.value <= |data|)
    ensures n.Some? ==> n.value <= |Tail(c.resp)| && data[..n.value] == Tail(c.resp)[..n.value]
    ensures Tail(c.resp)[..0] == []
  {
  }

  // ----- the handler's and the producer's moves -----

  /** What a move of the environment on one connection has to leave alone. */
  ghost predicate Quiet(cfg: Config, c: Conn, d: Conn) {
    && SameKernel(c.(draining := d.draining), d) && Core(cfg, d) && Armed(cfg, d)
    && d.clock == c.clock && d.state == c.state && DeadlineOf(cfg, d) == DeadlineOf(cfg, c)
  }

  lemma QuietSeat(cfg: Config, w: World, idx: nat, d: Conn)
    requires Base(cfg, w) && idx in w.conns && Quiet(cfg, w.conns[idx], d)
    ensures Seat(cfg, Put(w, idx, d), idx)
  {
    hide Base, Core, Armed, KernelOk, SocketsOk, DeadlineOf, SameKernel;
    SeatOf(cfg, w, idx);
    FlaggedKernel(w, idx, w.conns[idx], d.draining);
    KernelSame(w, idx, w.conns[idx].(draining := d.draining), d);
    SameSockets(w, Put(w, idx, d));
  }

  lemma FlaggedKernel(w: World, idx: nat, c: Conn, draining: bool)
    requires KernelOk(w, idx, c)
    ensures KernelOk(w, idx, c.(draining := draining))
  {
    hide U.Encode, U.SlotOf, Tail;
  }

  lemma QuietKeeps(cfg: Config, w: World, idx: nat, d: Conn)
    requires Base(cfg, w) && idx in w.conns && Quiet(cfg, w.conns[idx], d)
    ensures Kept(cfg, w, Put(w, idx, d))
  {
    var v := Put(w, idx, d);
    QuietSeat(cfg, w, idx, d);
    SameOffPut(w, idx, d);
    SameSockets(w, v);
    hide Seat, SameOff, SocketsOk, Quiet;
    SeatsKeep(cfg, w, v, idx);
  }

  lemma AnswerQuiet(cfg: Config, c: Conn, closes: bool)
    requires Core(cfg, c) && Armed(cfg, c) && c.req.dispatch == Running
    ensures Quiet(cfg, c, c.(req := c.req.(dispatch := Answered(closes))))
  {
    hide Core;
    AnswerKeeps(cfg, c, closes);
  }

  lemma TakeQuiet(cfg: Config, c: Conn)
    requires Core(cfg, c) && Armed(cfg, c) && c.req.payload.chunks != [] && c.state != Headers
    ensures Quiet(cfg, c, c.(req := c.req.(payload := Pop(c.req.payload))))
  {
    hide Core;
    TakeKeeps(cfg, c);
  }

  lemma DropQuiet(cfg: Config, c: Conn)
    requires Core(cfg, c) && Armed(cfg, c) && c.state != Headers
    ensures Quiet(cfg, c, c.(req := c.req.(payload := c.req.payload.(dropped := true))))
  {
    hide Core;
    DropKeeps(cfg, c);
  }

  lemma EmitQuiet(cfg: Config, c: Conn, ev: StreamEvent)
    requires Core(cfg, c) && Armed(cfg, c) && CanEmit(c)
    ensures Quiet(cfg, c, Emit(c, ev))
  {
    hide Core;
    EmitKeeps(cfg, c, ev);
  }

  lemma HangUpQuiet(cfg: Config, c: Conn)
    requires Core(cfg, c) && Armed(cfg, c) && c.resp.rx.Some?
    ensures Quiet(cfg, c, c.(resp := c.resp.(rx := Some(c.resp.rx.value.(open := false)))))
  {
    hide Core;
    HangUpKeeps(cfg, c);
  }

  lemma MoveQuiet(cfg: Config, c: Conn, a: Action)
    requires Core(cfg, c) && Armed(cfg, c) && CanMove(c, a)
    ensures Quiet(cfg, c, Moved(c, a))
  {
    hide Core, Armed, Quiet, CanEmit, Emit, Pop;
    match a
    case HandlerAnswers(_, closes) => AnswerQuiet(cfg, c, closes);
    case HandlerTakes(_) => TakeQuiet(cfg, c);
    case HandlerDropsBody(_) => DropQuiet(cfg, c);
    case ProducerEmits(_, ev) => EmitQuiet(cfg, c, ev);
    case ProducerEnds(_) => HangUpQuiet(cfg, c);
  }

  // ----- accepting -----

  lemma OpenFdSockets(w: World, fd: int, idx: nat)
    requires SocketsOk(w) && 0 <= fd && fd !in w.open
    ensures SocketsOk(OpenFd(w, fd, idx)) && w.accepted !in w.live
  {
  }

  lemma OpenFdOff(w: World, fd: int, idx: nat)
    requires fd !in w.open
    ensures SameOff(w, OpenFd(w, fd, idx), idx)
  {
    hide U.SlotOf;
  }

  lemma OpenFdKeeps(w: World, fd: int, idx: nat)
    requires SocketsOk(w) && 0 <= fd && fd !in w.open && SlotFree(w, idx)
    ensures var v := OpenFd(w, fd, idx);
            && SocketsOk(v) && SameOff(w, v, idx)
            && (forall f :: f in v.open && v.open[f].idx == idx ==> f == fd)
            && fd in v.open && v.open[fd].idx == idx
            && v.open - {fd} == w.open
  {
    OpenFdSockets(w, fd, idx);
    OpenFdOff(w, fd, idx);
    hide U.SlotOf, SocketsOk, SameOff;
  }

  /** Nobody takes the socket: it is closed again at once. */
  lemma TurnedAway(cfg: Config, w: World, fd: int, idx: nat)
    requires Base(cfg, w) && 0 <= fd && fd !in w.open && idx !in w.conns
    ensures Kept(cfg, w, CloseFd(OpenFd(w, fd, idx), fd))
    ensures CloseFd(OpenFd(w, fd, idx), fd).open == w.open
    ensures CloseFd(OpenFd(w, fd, idx), fd).conns == w.conns
  {
    assert Seat(cfg, w, idx);
    var v := OpenFd(w, fd, idx);
    OpenFdKeeps(w, fd, idx);
    CloseFdKeeps(v, fd);
    hide SocketsOk;
    SameSeats(cfg, w, CloseFd(v, fd));
  }

  /** Seats depend on slots, SQEs, sockets and timer entries alone. */
  lemma SameSeats(cfg: Config, w: World, v: World)
    requires (forall idx: nat :: Seat(cfg, w, idx)) && v.conns == w.conns && v.inflight == w.inflight && v.open == w.open && v.heap == w.heap
    ensures forall idx: nat :: Seat(cfg, v, idx)
  {
    forall idx: nat ensures Seat(cfg, v, idx) {
      SameSeat(cfg, w, v, idx);
    }
  }

  lemma SameSeat(cfg: Config, w: World, v: World, idx: nat)
    requires Seat(cfg, w, idx) && v.conns == w.conns && v.inflight == w.inflight && v.open == w.open && v.heap == w.heap
    ensures Seat(cfg, v, idx)
  {
    hide Core, Armed, U.SlotOf, U.Encode, Tail, DeadlineOf;
  }

  lemma FreshKernel(w: World, fd: int, idx: nat, generation: nat, now: nat, mem: Mem)
    requires SlotFree(w, idx) && 0 <= fd && fd !in w.open && idx < U.BIT_32 && generation < U.GENERATIONS
    ensures KernelOk(OpenFd(w, fd, idx), idx, NewConn(fd, generation, now, mem))
  {
    U.RoundTrip(U.Recv, U.Recv, idx, generation);
    U.RoundTrip(U.Write, U.Write, idx, generation);
    hide U.SlotOf, U.Encode;
  }

  lemma NextGenerationKeeps(w: World, v: World, idx: nat, c: Conn)
    requires SameOff(w, v, idx) && SocketsOk(v) && KernelOk(v, idx, c)
    ensures SameOff(w, NextGenerationOf(v), idx) && SocketsOk(NextGenerationOf(v)) && KernelOk(NextGenerationOf(v), idx, c)
  {
    SameSockets(v, NextGenerationOf(v));
    hide SocketsOk, KernelOk, U.SlotOf;
  }

  lemma SeatsOff(cfg: Config, w: World, v: World, idx: nat)
    requires (forall j: nat :: Seat(cfg, w, j)) && SameOff(w, v, idx)
    ensures forall j: nat :: j != idx ==> Seat(cfg, v, j)
  {
    hide Seat, SameOff;
    forall j: nat | j != idx ensures Seat(cfg, v, j) {
      SeatOff(cfg, w, v, idx, j);
    }
  }

  lemma Admitted(cfg: Config, w: World, fd: int, idx: nat, now: nat, mem: Mem, push: Push)
    requires Base(cfg, w) && 0 <= fd && fd !in w.open && idx !in w.conns && idx < U.BIT_32
    ensures var v := NextGenerationOf(OpenFd(w, fd, idx));
            Kept(cfg, w, Refresh(cfg, SubmitRecv(v, idx, NewConn(fd, w.nextGeneration, now, mem), push), idx))
  {
    assert Seat(cfg, w, idx);
    var c := NewConn(fd, w.nextGeneration, now, mem);
    FreshKernel(w, fd, idx, w.nextGeneration, now, mem);
    OpenFdKeeps(w, fd, idx);
    var v := OpenFd(w, fd, idx);
    hide Seat, SlotFree, SameOff, KernelOk, SocketsOk, Owes, NewConn, SubmitRecv, Refresh, Settled;
    NextGenerationKeeps(w, v, idx, c);
    NewConnOwes(cfg, fd, w.nextGeneration, now, mem);
    var x := NextGenerationOf(v);
    SubmitRecvKeeps(cfg, x, idx, c, push);
    SeatsOff(cfg, w, x, idx);
    SettleAll(cfg, x, SubmitRecv(x, idx, c, push), idx);
  }

  lemma AcceptAction(cfg: Config, w: World, fd: int, idx: nat, now: nat, mem: Mem, push: Push)
    requires Base(cfg, w) && 0 <= fd && fd !in w.open && idx !in w.conns && idx < U.BIT_32
    ensures Kept(cfg, w, AcceptConn(cfg, w, fd, idx, now, mem, push))
  {
    hide Base, Kept, Refresh, SubmitRecv, NewConn, CloseFd;
    if w.phase != Serving || |w.conns| >= cfg.maxConnections {
      TurnedAway(cfg, w, fd, idx);
    } else {
      Admitted(cfg, w, fd, idx, now, mem, push);
    }
  }

  // ----- closing -----

  /** Closing leaves at most a closed connection behind. */
  lemma ClosedAfter(w: World, idx: nat, why: CloseReason)
    ensures var v := CloseConn(w, idx, why);
            && (idx in v.conns ==> v.conns[idx].state == Closed)
            && (forall j :: j != idx ==> (j in v.conns <==> j in w.conns) && (j in w.conns ==> v.conns[j] == w.conns[j]))
            && (idx in v.conns ==> idx in w.conns)
  {
    if idx in w.conns {
      EndFdSlots(w, w.conns[idx].fd, Ended(w.conns[idx].log, why));
    }
    hide EndFd;
  }

  lemma EndFdSlots(w: World, fd: int, end: Ended)
    ensures EndFd(w, fd, end).conns == w.conns
  {
  }

  /** A connection that is closed already stays exactly as it is. */
  lemma CloseClosed(cfg: Config, w: World, idx: nat, why: CloseReason)
    requires idx in w.conns && w.conns[idx].state == Closed && Core(cfg, w.conns[idx]) && Armed(cfg, w.conns[idx])
    ensures CloseConn(w, idx, why) == w
  {
    ClosedFields(cfg, w.conns[idx]);
    hide Core, Armed;
    assert Put(w, idx, w.conns[idx]) == w;
  }

  lemma ClosedFields(cfg: Config, c: Conn)
    requires c.state == Closed && Core(cfg, c) && Armed(cfg, c)
    ensures c.fd == -1 && MarkClosed(c.(fd := -1)) == c && (c.recvPending || c.writePending)
  {
  }

  lemma CloseLive(cfg: Config, w: World, idx: nat)
    requires Base(cfg, w) && idx in w.conns && w.conns[idx].state != Closed
    ensures Kept(cfg, w, CloseConn(w, idx, Timeout))
  {
    hide Base, CloseConn, Core, Armed, Closable, KernelOk, SocketsOk, Settled, TimerOk, Owes;
    SeatOf(cfg, w, idx);
    var c := w.conns[idx];
    assert Put(w, idx, c) == w;
    CoreClosable(cfg, c);
    OwesShut(cfg, c, Timeout);
    CloseKeeps(cfg, w, idx, c, Timeout);
    ClosedAfter(w, idx, Timeout);
    SettledOff(cfg, w, CloseConn(w, idx, Timeout), idx);
  }

  /** A closed connection needs no timer. */
  lemma SettledOff(cfg: Config, w: World, v: World, idx: nat)
    requires Base(cfg, w) && Settled(cfg, w, v, idx) && (idx in v.conns ==> v.conns[idx].state == Closed)
    ensures Kept(cfg, w, v)
  {
    hide Base, Core, Armed, KernelOk, SocketsOk, SameOff, SlotFree;
    assert Seat(cfg, v, idx);
    hide Seat;
    OffKeeps(cfg, w, v, idx);
  }

  /** A change of one slot that leaves that slot in order. */
  lemma OffKeeps(cfg: Config, w: World, v: World, idx: nat)
    requires Base(cfg, w) && SameOff(w, v, idx) && SocketsOk(v) && !v.fault && Seat(cfg, v, idx)
    ensures Kept(cfg, w, v)
  {
    SameOffPhase(w, v, idx);
    hide Seat, SameOff, SocketsOk;
    SeatsKeep(cfg, w, v, idx);
  }

  lemma SameOffPhase(w: World, v: World, idx: nat)
    requires SameOff(w, v, idx)
    ensures v.phase == w.phase && v.leaked == w.leaked
    ensures w.nextGeneration < U.GENERATIONS ==> v.nextGeneration < U.GENERATIONS
  {
  }

  lemma CloseAction(cfg: Config, w: World, idx: nat)
    requires Base(cfg, w)
    ensures Kept(cfg, w, CloseConn(w, idx, Timeout))
  {
    hide Base, CloseConn;
    if idx in w.conns {
      if w.conns[idx].state == Closed {
        SeatOf(cfg, w, idx);
        CloseClosed(cfg, w, idx, Timeout);
      } else {
        CloseLive(cfg, w, idx);
      }
    } else {
      CloseNothing(w, idx);
    }
  }

  lemma CloseNothing(w: World, idx: nat)
    requires idx !in w.conns
    ensures CloseConn(w, idx, Timeout) == w
  {
  }

  lemma KeptThen(cfg: Config, w: World, v: World, x: World)
    requires Kept(cfg, w, v) && Kept(cfg, v, x)
    ensures Kept(cfg, w, x)
  {
    hide Base;
  }

  lemma {:induction false} CloseAllKeeps(cfg: Config, w: World, slots: seq<nat>)
    requires Base(cfg, w)
    ensures Kept(cfg, w, CloseAll(w, slots))
    ensures var v := CloseAll(w, slots);
            forall idx :: idx in v.conns ==>
              idx in w.conns && (idx in slots || w.conns[idx].state == Closed ==> v.conns[idx].state == Closed)
    decreases |slots|
  {
    hide Base, CloseConn;
    if slots != [] {
      var idx := slots[0];
      CloseAction(cfg, w, idx);
      ClosedAfter(w, idx, Timeout);
      var x := CloseConn(w, idx, Timeout);
      CloseAllKeeps(cfg, x, slots[1..]);
      KeptThen(cfg, w, x, CloseAll(w, slots));
      assert forall j :: j in slots ==> j == idx || j in slots[1..];
    }
  }

  /** When no connection is live, no socket is open. */
  lemma NothingOpen(cfg: Config, w: World)
    requires Base(cfg, w) && forall idx :: idx in w.conns ==> w.conns[idx].state == Closed
    ensures w.open == map[]
  {
    forall fd ensures fd !in w.open {
      if fd in w.open {
        var idx := w.open[fd].idx;
        assert Seat(cfg, w, idx);
        if idx in w.conns {
          ClosedFields(cfg, w.conns[idx]);
        }
        OpenIsClaimed(cfg, w, fd);
      }
    }
    assert w.open.Keys == {};
  }

  /** Every open socket belongs to a connection. */
  lemma OpenIsClaimed(cfg: Config, w: World, fd: int)
    requires Base(cfg, w) && fd in w.open
    ensures var idx := w.open[fd].idx; idx in w.conns && w.conns[idx].fd == fd && 0 <= fd
  {
    assert Seat(cfg, w, w.open[fd].idx);
    hide Core, Armed, TimerOk, U.SlotOf, U.Encode;
  }

  lemma TeardownAction(cfg: Config, w: World, slots: seq<nat>)
    requires Base(cfg, w) && Covers(w, slots)
    ensures var v := CloseAll(w, slots);
            Kept(cfg, w, v) && AllClosed(v)
  {
    hide Base, CloseAll;
    CloseAllKeeps(cfg, w, slots);
    NothingOpen(cfg, CloseAll(w, slots));
  }

  // ----- draining -----

  lemma DrainQuiet(cfg: Config, c: Conn)
    requires Core(cfg, c) && Armed(cfg, c) && c.state != Closed
    ensures Quiet(cfg, c, c.(draining := true, keepAlive := false))
  {
    hide Core, Armed, Closable;
    DrainKeeps(cfg, c);
  }

  lemma DrainAction(cfg: Config, w: World, idx: nat)
    requires Base(cfg, w)
    ensures Kept(cfg, w, DrainConn(w, idx))
  {
    hide Base, CloseConn, Quiet;
    if idx in w.conns && w.conns[idx].state != Closed {
      SeatOf(cfg, w, idx);
      var c := w.conns[idx].(draining := true, keepAlive := false);
      hide Core, Armed, KernelOk, TimerOk, SocketsOk;
      DrainQuiet(cfg, w.conns[idx]);
      QuietKeeps(cfg, w, idx, c);
      CloseAction(cfg, Put(w, idx, c), idx);
      KeptThen(cfg, w, Put(w, idx, c), DrainConn(w, idx));
    }
  }

  lemma {:induction false} DrainAllKeeps(cfg: Config, w: World, slots: seq<nat>)
    requires Base(cfg, w)
    ensures Kept(cfg, w, DrainAll(w, slots))
    decreases |slots|
  {
    hide Base, DrainConn;
    if slots != [] {
      DrainAction(cfg, w, slots[0]);
      var x := DrainConn(w, slots[0]);
      DrainAllKeeps(cfg, x, slots[1..]);
      KeptThen(cfg, w, x, DrainAll(w, slots));
    }
  }

  // ----- reaping, stale timers -----

  /** There is never anything to reap: a closed connection in its slot still waits for the kernel. */
  lemma NothingToReap(cfg: Config, w: World, idx: nat)
    requires Base(cfg, w)
    ensures ReleaseIfIdle(w, idx) == w
  {
    hide Base;
    if idx in w.conns {
      SeatOf(cfg, w, idx);
      hide Core, KernelOk, TimerOk, SocketsOk;
    }
  }

  lemma PopSeat(cfg: Config, w: World, e: Entry, idx: nat)
    requires Seat(cfg, w, idx) && !Current(w, e)
    ensures Seat(cfg, w.(heap := w.heap - multiset{e}), idx)
  {
    hide Core, Armed, U.SlotOf, U.Encode, DeadlineOf, Tail;
    SameSockets(w, w.(heap := w.heap - multiset{e}));
    hide KernelOk;
  }

  lemma PopKeeps(cfg: Config, w: World, e: Entry)
    requires Base(cfg, w) && !Current(w, e)
    ensures Kept(cfg, w, w.(heap := w.heap - multiset{e}))
  {
    var v := w.(heap := w.heap - multiset{e});
    SameSockets(w, v);
    hide Seat, SocketsOk;
    forall idx: nat ensures Seat(cfg, v, idx) {
      PopSeat(cfg, w, e, idx);
    }
  }

  // ----- completions during teardown -----

  lemma DiscardRecvAction(cfg: Config, w: World, u: nat, recvd: Option<seq<byte>>)
    requires Base(cfg, w) && AllClosed(w) && u in w.inflight && w.inflight[u].RecvSqe?
    ensures Kept(cfg, w, DiscardRecv(Forget(w, u), u, recvd)) && AllClosed(DiscardRecv(Forget(w, u), u, recvd))
  {
    Owner(cfg, w, u);
    Completed(cfg, w, u);
    var idx := U.SlotOf(u);
    var c := w.conns[idx];
    SeatOf(cfg, w, idx);
    ClosedFields(cfg, c);
    var d := LoseRecv(c.(recvPending := false), recvd);
    DiscardKeeps(cfg, c, recvd);
    NoTimeout(cfg, c);
    LoseParts(c.(recvPending := false), recvd);
    hide Base, Core, Armed, Seat, Around, KernelOk, SocketsOk, TimerOk, SameOff;
    hide U.Encode, U.Decode, U.SlotOf, ReleaseIfIdle;
    SameKernelThen(Forget(w, u), idx, c.(recvPending := false), d);
    hide LoseRecv;
    ReleasedKeeps(cfg, w, u, d);
    ReleasedClosed(w, Forget(w, u), idx, d);
  }

  lemma NoTimeout(cfg: Config, c: Conn)
    requires Core(cfg, c) && c.state == Closed
    ensures !c.timeoutError
  {
  }

  lemma ReleasedKeeps(cfg: Config, w: World, u: nat, d: Conn)
    requires Base(cfg, w) && u in w.inflight
    requires var idx := U.SlotOf(u); Around(Forget(w, u), idx, d) && Core(cfg, d) && d.state == Closed
    ensures Kept(cfg, w, ReleaseIfIdle(Put(Forget(w, u), U.SlotOf(u), d), U.SlotOf(u)))
  {
    var idx := U.SlotOf(u);
    var v := Forget(w, u);
    ReleaseKeeps(cfg, v, idx, d);
    ForgetOff(w, u);
    var x := ReleaseIfIdle(Put(v, idx, d), idx);
    SameOffThen(w, v, x, idx);
    hide Core, Armed, KernelOk, SocketsOk, SameOff, SlotFree, U.SlotOf, Base;
    assert Seat(cfg, x, idx);
    hide Seat;
    OffKeeps(cfg, w, x, idx);
  }

  lemma ReleasedClosed(w: World, v: World, idx: nat, d: Conn)
    requires AllClosed(w) && v.conns == w.conns && v.open == w.open && d.state == Closed
    ensures AllClosed(ReleaseIfIdle(Put(v, idx, d), idx))
  {
  }

  lemma DiscardSendAction(cfg: Config, w: World, u: nat, n: Option<nat>)
    requires Base(cfg, w) && AllClosed(w) && u in w.inflight && w.inflight[u].SendSqe?
    requires n.Some? ==> n.value <= |w.inflight[u].data|
    ensures var x := DiscardSend(Forget(w, u), u, if n.Some? then w.inflight[u].data[..n.value] else []);
            Kept(cfg, w, x) && AllClosed(x)
  {
    Owner(cfg, w, u);
    Completed(cfg, w, u);
    var idx := U.SlotOf(u);
    var c := w.conns[idx];
    SeatOf(cfg, w, idx);
    hide Base, Core, Armed, Seat, Around, KernelOk, SocketsOk, TimerOk, SameOff, Owes, SameKernel, Finds;
    hide U.Encode, U.Decode, U.SlotOf, ReleaseIfIdle, OnWire, Tail, SendLength, DiscardSend;
    TakenOfTail(c, w.inflight[u].data, n);
    var k := if n.Some? then n.value else 0;
    var d := OnWire(c, Tail(c.resp)[..k]).(writePending := false);
    LostSend(cfg, c, k);
    SameKernelThen(Forget(w, u), idx, c.(writePending := false), d);
    ReleasedKeeps(cfg, w, u, d);
    ReleasedClosed(w, Forget(w, u), idx, d);
    DiscardFound(Forget(w, u), u, if n.Some? then w.inflight[u].data[..n.value] else []);
  }

  lemma DiscardFound(w: World, u: nat, data: seq<byte>)
    requires U.Decode(u, U.Write).Some? && Finds(w, U.Decode(u, U.Write).value)
    ensures var idx := U.Decode(u, U.Write).value.idx;
            DiscardSend(w, u, data) == ReleaseIfIdle(Put(w, idx, OnWire(w.conns[idx], data).(writePending := false)), idx)
  {
    hide U.Decode, OnWire, ReleaseIfIdle;
  }

  lemma LostSend(cfg: Config, c: Conn, k: nat)
    requires Core(cfg, c) && c.state == Closed && c.writePending && k <= |Tail(c.resp)|
    ensures var d := OnWire(c, Tail(c.resp)[..k]).(writePending := false);
            Core(cfg, d) && d.state == Closed && SameKernel(c.(writePending := false), d)
  {
    ClosedSend(cfg, c, k);
    OwedRelease(cfg, OnWire(c, Tail(c.resp)[..k]).(writePending := false));
    hide Core, Owes, Tail;
  }

  lemma OwedRelease(cfg: Config, c: Conn)
    requires Owes(cfg, Outcome(c, Release))
    ensures Core(cfg, c) && c.state == Closed
  {
  }
}
