/** What the invariant means for every run of the worker, in the terms of its clients. */
module EventLoopTheorems {
  import opened Bytes
  import opened Connection
  import opened ConnectionInvariant
  import opened EventLoop
  import opened EventLoopInvariant
  import opened EventLoopRun
  import U = UserData

  /** The connections in memory: the slab, or what teardown left to the process exit. */
  function Slots(w: World): map<nat, Conn> {
    if w.phase == Finished then w.leaked else w.conns
  }

  function Settle(w: World): World {
    w.(conns := Slots(w))
  }

  lemma BaseOf(cfg: Config, w: World)
    requires Inv(cfg, w)
    ensures Base(cfg, Settle(w))
  {
    hide Base;
    assert w.phase != Finished ==> Settle(w) == w;
  }

  // ----- in-flight operations are exactly the pending flags -----

  /** The SQE with this `user_data` is one that the connection in its slot waits for. */
  predicate Awaited(conns: map<nat, Conn>, u: nat) {
    var idx := U.SlotOf(u);
    && idx in conns
    && ((conns[idx].recvPending && u == RecvData(idx, conns[idx]))
        || (conns[idx].writePending && u == WriteData(idx, conns[idx])))
  }

  lemma AwaitedIffInFlight(cfg: Config, w: World, u: nat)
    requires Base(cfg, w)
    ensures u in w.inflight <==> Awaited(w.conns, u)
    ensures Awaited(w.conns, u) ==>
              w.inflight[u].RecvSqe? == (u == RecvData(U.SlotOf(u), w.conns[U.SlotOf(u)]))
  {
    var idx := U.SlotOf(u);
    assert Seat(cfg, w, idx);
    if idx in w.conns {
      TwoSqes(w, idx, w.conns[idx]);
    }
    hide Core, Armed, TimerOk, U.Encode, U.SlotOf, Tail, SendLength;
  }

  /**
   In every reachable state the SQEs in flight are exactly the (operation, slot, generation)
   triples whose connection is in memory with that pending flag set: at most one RECV and one
   SEND per connection, and none for a slot that was freed or given to another connection.
   */
  lemma InFlightExactly(cfg: Config, run: Run, k: nat)
    requires ValidConfig(cfg) && Possible(cfg, run) && k < |run.worlds|
    ensures var w := run.worlds[k];
            && (forall u :: u in w.inflight <==> Awaited(Slots(w), u))
            && (forall u :: u in w.inflight ==>
                  w.inflight[u].RecvSqe? == (u == RecvData(U.SlotOf(u), Slots(w)[U.SlotOf(u)])))
  {
    RunKeeps(cfg, run, k);
    var w := run.worlds[k];
    BaseOf(cfg, w);
    hide Inv, Base, Awaited, Possible, ValidConfig, U.SlotOf, U.Encode;
    forall u
      ensures u in w.inflight <==> Awaited(Slots(w), u)
      ensures Awaited(Slots(w), u) ==>
                w.inflight[u].RecvSqe? == (u == RecvData(U.SlotOf(u), Slots(w)[U.SlotOf(u)]))
    {
      AwaitedIffInFlight(cfg, Settle(w), u);
    }
  }

  /** A completion reaches its own connection, whatever the generations have wrapped to. */
  lemma CompletionFinds(cfg: Config, run: Run, k: nat, u: nat)
    requires ValidConfig(cfg) && Possible(cfg, run) && k < |run.worlds| && u in run.worlds[k].inflight
    ensures var w := run.worlds[k];
            var tag := if w.inflight[u].RecvSqe? then U.Recv else U.Write;
            var t := U.Decode(u, tag);
            && t.Some? && Finds(Settle(w), t.value)
            && var c := Slots(w)[t.value.idx];
               if w.inflight[u].RecvSqe? then
                 // the kernel wrote exactly where the buffer ends, into its spare capacity
                 c.recvPending && c.mem.end == w.inflight[u].target.addr && w.inflight[u].target.len <= c.mem.spare
                 && 4096 <= w.inflight[u].target.len
               else
                 c.writePending && w.inflight[u].data != []
                 && w.inflight[u].data == Tail(c.resp)[..Min(|Tail(c.resp)|, 0xFFFF_FFFF)]
  {
    hide Inv, Base, Possible, ValidConfig, U.SlotOf, U.Encode, U.Decode;
    RunKeeps(cfg, run, k);
    var w := run.worlds[k];
    BaseOf(cfg, w);
    Owner(cfg, Settle(w), u);
    SlotCore(cfg, Settle(w), U.SlotOf(u));
    PendingTargets(cfg, Slots(w)[U.SlotOf(u)]);
  }

  lemma SlotCore(cfg: Config, w: World, idx: nat)
    requires Base(cfg, w) && idx in w.conns
    ensures Core(cfg, w.conns[idx]) && Armed(cfg, w.conns[idx])
  {
    assert Seat(cfg, w, idx);
    hide Core, Armed, KernelOk, SocketsOk, TimerOk;
  }

  lemma PendingTargets(cfg: Config, c: Conn)
    requires Core(cfg, c)
    ensures c.recvPending ==> CommitOk(c) && 4096 <= c.recvTarget.value.len
    ensures c.writePending ==> Tail(c.resp) != [] && Tail(c.resp)[..SendLength(Tail(c.resp))] != []
  {
  }

  // ----- sockets -----

  /**
   No accepted socket is ever closed twice; one is closed exactly when it is no longer open,
   and once teardown has begun every accepted socket has been closed exactly once.
   */
  lemma ClosedExactlyOnce(cfg: Config, run: Run, k: nat)
    requires ValidConfig(cfg) && Possible(cfg, run) && k < |run.worlds|
    ensures var w := run.worlds[k];
            && (forall s: nat :: s in w.closes <==> s < w.accepted)
            && (forall s :: s in w.closes ==> w.closes[s] <= 1 && (w.closes[s] == 0 <==> StillOpen(w, s)))
            && (w.phase == TearingDown || w.phase == Finished ==> forall s: nat :: s < w.accepted ==> s in w.closes && w.closes[s] == 1)
  {
    RunKeeps(cfg, run, k);
    var w := run.worlds[k];
    hide Inv, Possible, ValidConfig;
    InvSockets(cfg, w);
    hide SocketsOk, StillOpen;
    OpenOrClosed(w);
    if w.phase == TearingDown || w.phase == Finished {
      AllWereClosed(w);
    }
  }

  predicate StillOpen(w: World, s: nat) {
    exists fd: int :: fd in w.open && w.open[fd].serial == s
  }

  lemma OpenOrClosed(w: World)
    requires SocketsOk(w)
    ensures forall s: nat :: s in w.closes <==> s < w.accepted
    ensures forall s :: s in w.closes ==> w.closes[s] <= 1 && (w.closes[s] == 0 <==> StillOpen(w, s))
  {
    forall s | s in w.closes
      ensures w.closes[s] <= 1 && (w.closes[s] == 0 <==> StillOpen(w, s))
    {
      if s in w.live {
        var fd := w.live[s];
        assert fd in w.open && w.open[fd].serial == s;
      }
    }
  }

  lemma AllWereClosed(w: World)
    requires SocketsOk(w) && w.open == map[]
    ensures forall s: nat :: s < w.accepted ==> s in w.closes && w.closes[s] == 1
  {
  }

  lemma InvSockets(cfg: Config, w: World)
    requires Inv(cfg, w)
    ensures SocketsOk(w) && (w.phase == TearingDown || w.phase == Finished ==> w.open == map[])
  {
    BaseOf(cfg, w);
    SameSockets(w, Settle(w));
    hide Seat, SocketsOk;
  }

  /** An open socket is the one its connection holds, and no two connections hold the same. */
  lemma SocketsAreOwned(cfg: Config, run: Run, k: nat)
    requires ValidConfig(cfg) && Possible(cfg, run) && k < |run.worlds|
    ensures var w := run.worlds[k];
            && (forall fd :: fd in w.open ==> w.open[fd].idx in Slots(w) && Slots(w)[w.open[fd].idx].fd == fd)
            && (forall idx :: idx in Slots(w) && 0 <= Slots(w)[idx].fd ==>
                  Slots(w)[idx].fd in w.open && w.open[Slots(w)[idx].fd].idx == idx)
            && (forall idx :: idx in Slots(w) ==> (Slots(w)[idx].state == Closed <==> Slots(w)[idx].fd == -1))
  {
    RunKeeps(cfg, run, k);
    var w := run.worlds[k];
    BaseOf(cfg, w);
    hide Inv, Base, Possible, ValidConfig;
    forall idx | idx in Slots(w)
      ensures Slots(w)[idx].state == Closed <==> Slots(w)[idx].fd == -1
      ensures 0 <= Slots(w)[idx].fd ==> Slots(w)[idx].fd in w.open && w.open[Slots(w)[idx].fd].idx == idx
    {
      SeatFd(cfg, Settle(w), idx);
    }
    forall fd | fd in w.open
      ensures w.open[fd].idx in Slots(w) && Slots(w)[w.open[fd].idx].fd == fd
    {
      SocketSeat(cfg, Settle(w), fd);
    }
  }

  lemma SocketSeat(cfg: Config, w: World, fd: int)
    requires Base(cfg, w) && fd in w.open
    ensures w.open[fd].idx in w.conns && w.conns[w.open[fd].idx].fd == fd
  {
    assert Seat(cfg, w, w.open[fd].idx);
    hide Core, Armed, TimerOk, U.SlotOf, U.Encode;
  }

  lemma SeatFd(cfg: Config, w: World, idx: nat)
    requires Base(cfg, w) && idx in w.conns
    ensures var c := w.conns[idx];
            (c.state == Closed <==> c.fd == -1) && (0 <= c.fd ==> c.fd in w.open && w.open[c.fd].idx == idx)
  {
    assert Seat(cfg, w, idx);
    var c := w.conns[idx];
    assert FlagsOk(c);
    KernelFdOf(w, idx, c);
    hide Core, Armed, TimerOk, KernelOk;
  }

  lemma KernelFdOf(w: World, idx: nat, c: Conn)
    requires KernelOk(w, idx, c)
    ensures 0 <= c.fd ==> c.fd in w.open && w.open[c.fd].idx == idx
  {
  }

  // ----- assertions of the server -----

  /** No run reaches a failed debug assertion, a double close, or two SQEs of one name. */
  lemma NothingFaults(cfg: Config, run: Run, k: nat)
    requires ValidConfig(cfg) && Possible(cfg, run) && k < |run.worlds|
    ensures var w := run.worlds[k];
            !w.fault && forall idx :: idx in Slots(w) ==> !Slots(w)[idx].fault
  {
    RunKeeps(cfg, run, k);
    var w := run.worlds[k];
    BaseOf(cfg, w);
    NoFault(cfg, Settle(w));
    hide Inv, Base, Possible, ValidConfig;
    forall idx | idx in Slots(w) ensures !Slots(w)[idx].fault {
      SeatFault(cfg, Settle(w), idx);
    }
  }

  lemma NoFault(cfg: Config, w: World)
    requires Base(cfg, w)
    ensures !w.fault
  {
  }

  lemma SeatFault(cfg: Config, w: World, idx: nat)
    requires Base(cfg, w) && idx in w.conns
    ensures !w.conns[idx].fault
  {
    assert Seat(cfg, w, idx);
  }

  // ----- what the kernel may touch stays put -----

  /** Nothing in flight and no recorded end is lost or replaced, unless that is a fault. */
  ghost predicate Grows(w: World, v: World) {
    && (w.fault ==> v.fault)
    && (v.fault || forall u :: u in w.inflight ==> u in v.inflight && v.inflight[u] == w.inflight[u])
    && (v.fault || forall s :: s in w.ended ==> s in v.ended && v.ended[s] == w.ended[s])
  }

  lemma EndFdGrows(w: World, fd: int, end: Ended)
    ensures Grows(w, EndFd(w, fd, end))
  {
    EndFdIs(w, fd, end);
    hide EndFd;
  }

  lemma CloseGrows(w: World, idx: nat, why: CloseReason)
    ensures Grows(w, CloseConn(w, idx, why))
  {
    hide EndFd, MarkClosed, Grows, Put, Remove;
    GrowsSelf(w);
    if idx in w.conns {
      var c := w.conns[idx];
      EndFdGrows(w, c.fd, Ended(c.log, why));
      var v := if 0 <= c.fd then EndFd(w, c.fd, Ended(c.log, why)) else w;
      SlotGrows(w, v, idx, MarkClosed(c.(fd := -1)));
    }
  }

  lemma SlotGrows(w: World, v: World, idx: nat, c: Conn)
    requires Grows(w, v)
    ensures Grows(w, Put(v, idx, c)) && Grows(w, Remove(v, idx))
  {
  }

  lemma GrowsThen(w: World, v: World, x: World)
    requires Grows(w, v) && Grows(v, x)
    ensures Grows(w, x)
  {
  }

  lemma PutGrows(w: World, v: World, idx: nat, c: Conn)
    requires Grows(Put(w, idx, c), v)
    ensures Grows(w, v)
  {
  }

  lemma CloseWithGrows(w: World, idx: nat, c: Conn, why: CloseReason)
    ensures Grows(w, CloseConn(Put(w, idx, c), idx, why))
  {
    hide CloseConn, Grows, Put;
    CloseGrows(Put(w, idx, c), idx, why);
    PutGrows(w, CloseConn(Put(w, idx, c), idx, why), idx, c);
  }

  lemma SubmitGrows(w: World, idx: nat, c: Conn, u: nat, sqe: Sqe)
    ensures Grows(w, Submit(Put(w, idx, c), u, sqe))
  {
  }

  lemma SubmitRecvGrows(w: World, idx: nat, c: Conn, push: Push)
    ensures Grows(w, SubmitRecv(w, idx, c, push))
  {
    hide CloseConn, Put, Submit, PrepareRecv, U.Encode, Grows;
    if c.recvPending || c.fd < 0 {
      CloseWithGrows(w, idx, c.(fault := true), IoError);
    } else {
      var d := PrepareRecv(c, push.base, push.extra);
      CloseWithGrows(w, idx, d.(recvTarget := None), IoError);
      if push.room && d.recvTarget.Some? {
        SubmitGrows(w, idx, d.(recvPending := true), U.Encode(U.Recv, idx, c.generation), RecvSqe(c.fd, d.recvTarget.value));
      }
      PrepareTargets(c, push.base, push.extra);
    }
  }

  lemma PrepareTargets(c: Conn, base: nat, extra: nat)
    ensures PrepareRecv(c, base, extra).recvTarget.Some?
  {
  }

  lemma SubmitWriteGrows(w: World, idx: nat, c: Conn, push: Push)
    ensures Grows(w, SubmitWrite(w, idx, c, push))
  {
    hide CloseConn, Submit, U.Encode, Tail, SendLength;
    CloseWithGrows(w, idx, c.(fault := true), IoError);
    CloseWithGrows(w, idx, c, IoError);
    SubmitGrows(w, idx, c.(writePending := true), U.Encode(U.Write, idx, c.generation),
                SendSqe(c.fd, Tail(c.resp)[..SendLength(Tail(c.resp))])) by { SendFits(Tail(c.resp)); }
  }

  lemma SendFits(tail: seq<byte>)
    ensures SendLength(tail) <= |tail|
  {
  }

  lemma ReleaseGrows(w: World, idx: nat, c: Conn)
    ensures Grows(w, ReleaseIfIdle(Put(w, idx, c), idx))
    ensures Grows(w, ReleaseIfIdle(w, idx))
    ensures Grows(w, Put(w, idx, c))
  {
  }

  lemma PerformGrows(w: World, idx: nat, out: Outcome, push: Push)
    ensures Grows(w, Perform(w, idx, out, push))
  {
    hide CloseConn, SubmitRecv, SubmitWrite, ReleaseIfIdle, Put, Grows;
    SubmitRecvGrows(w, idx, out.conn, push);
    SubmitWriteGrows(w, idx, out.conn, push);
    CloseWithGrows(w, idx, out.conn, if out.op.Shut? then out.op.why else Timeout);
    ReleaseGrows(w, idx, out.conn);
  }

  lemma {:induction false} CloseAllGrows(w: World, slots: seq<nat>)
    ensures Grows(w, CloseAll(w, slots))
    decreases |slots|
  {
    hide CloseConn, Grows;
    if slots == [] {
      GrowsSelf(w);
    } else {
      CloseGrows(w, slots[0], Timeout);
      CloseAllGrows(CloseConn(w, slots[0], Timeout), slots[1..]);
      GrowsThen(w, CloseConn(w, slots[0], Timeout), CloseAll(w, slots));
    }
  }

  lemma GrowsSelf(w: World)
    ensures Grows(w, w)
  {
  }

  lemma DrainConnGrows(w: World, idx: nat)
    ensures Grows(w, DrainConn(w, idx))
  {
    hide CloseConn;
    if idx in w.conns {
      CloseGrows(Put(w, idx, w.conns[idx].(draining := true, keepAlive := false)), idx, Timeout);
    }
  }

  lemma {:induction false} DrainAllGrows(w: World, slots: seq<nat>)
    ensures Grows(w, DrainAll(w, slots))
    decreases |slots|
  {
    hide DrainConn, Grows;
    if slots == [] {
      GrowsSelf(w);
    } else {
      DrainConnGrows(w, slots[0]);
      DrainAllGrows(DrainConn(w, slots[0]), slots[1..]);
      GrowsThen(w, DrainConn(w, slots[0]), DrainAll(w, slots));
    }
  }

  /** The SQE that the action completes, if it is a completion. */
  function Before(w: World, a: Action): World {
    if a.RecvDone? || a.SendDone? then Forget(w, a.userData) else w
  }

  lemma RefreshGrows(cfg: Config, w: World, v: World, idx: nat)
    requires Grows(w, v)
    ensures Grows(w, Refresh(cfg, v, idx))
  {
    hide Retime, Enter;
  }

  lemma AcceptGrows(cfg: Config, w: World, fd: int, idx: nat, now: nat, mem: Mem, push: Push)
    ensures Grows(w, AcceptConn(cfg, w, fd, idx, now, mem, push))
  {
    var x := NextGenerationOf(OpenFd(w, fd, idx));
    var c := NewConn(fd, w.nextGeneration, now, mem);
    TurnedAwayGrows(w, fd, idx);
    hide NewConn, Refresh, OpenFd, CloseFd, SubmitRecv, Grows, NextGenerationOf;
    SubmitRecvGrows(x, idx, c, push);
    GrowsThen(w, x, SubmitRecv(x, idx, c, push));
    RefreshGrows(cfg, w, SubmitRecv(x, idx, c, push), idx);
  }

  lemma TurnedAwayGrows(w: World, fd: int, idx: nat)
    ensures Grows(w, CloseFd(OpenFd(w, fd, idx), fd))
    ensures Grows(w, NextGenerationOf(OpenFd(w, fd, idx)))
  {
  }

  lemma CompleteRecvGrows(cfg: Config, w: World, u: nat, r: Option<seq<byte>>, env: Env, push: Push)
    requires ValidConfig(cfg)
    ensures Grows(w, CompleteRecv(cfg, w, u, r, env, push))
  {
    hide ValidConfig, Perform, Refresh, HandleRecv, U.Decode;
    var t := U.Decode(u, U.Recv);
    if t.Some? {
      var idx := t.value.idx;
      if idx in w.conns {
        PerformGrows(w, idx, HandleRecv(cfg, w.conns[idx], r, env), push);
        RefreshGrows(cfg, w, Perform(w, idx, HandleRecv(cfg, w.conns[idx], r, env), push), idx);
      }
      RefreshGrows(cfg, w, w, idx);
    }
  }

  lemma CompleteSendGrows(cfg: Config, w: World, u: nat, data: seq<byte>, n: Option<nat>, env: Env, push: Push)
    requires ValidConfig(cfg) && (n.Some? ==> n.value <= |data|)
    ensures Grows(w, CompleteSend(cfg, w, u, data, n, env, push))
  {
    hide ValidConfig, Perform, Refresh, HandleSend, U.Decode, OnWire;
    var t := U.Decode(u, U.Write);
    if t.Some? {
      var idx := t.value.idx;
      if idx in w.conns {
        var c := OnWire(w.conns[idx], if n.Some? then data[..n.value] else []);
        PerformGrows(w, idx, HandleSend(cfg, c, n, env), push);
        RefreshGrows(cfg, w, Perform(w, idx, HandleSend(cfg, c, n, env), push), idx);
      }
      RefreshGrows(cfg, w, w, idx);
    }
  }

  lemma ApplyGrows(cfg: Config, w: World, a: Action)
    requires ValidConfig(cfg) && Enabled(w, a)
    ensures Grows(Before(w, a), Apply(cfg, w, a))
  {
    hide ValidConfig, Grows, Apply, Enabled;
    if a.Accept? {
      AcceptApplied(cfg, w, a);
      AcceptGrows(cfg, w, a.fd, a.idx, a.now, a.mem, a.push);
    } else if a.RecvDone? || a.SendDone? {
      CompletionGrows(cfg, w, a);
    } else if a.Sweep? || a.TurnDispatch? || a.TurnResponse? {
      TurnActionGrows(cfg, w, a);
    } else if a.BeginDrain? || a.BeginTeardown? {
      PhaseGrows(cfg, w, a);
    } else {
      QuietGrows(cfg, w, a);
    }
  }

  lemma AcceptApplied(cfg: Config, w: World, a: Action)
    requires ValidConfig(cfg) && Enabled(w, a) && a.Accept?
    ensures Apply(cfg, w, a) == AcceptConn(cfg, w, a.fd, a.idx, a.now, a.mem, a.push)
  {
    hide ValidConfig, AcceptConn;
  }

  lemma TurnActionGrows(cfg: Config, w: World, a: Action)
    requires ValidConfig(cfg) && Enabled(w, a) && (a.Sweep? || a.TurnDispatch? || a.TurnResponse?)
    ensures Grows(w, Apply(cfg, w, a))
  {
    hide ValidConfig, Perform, Refresh, SweepOne, AdvanceDispatching, AdvanceResponse, Expired, EnvOk, Grows;
    GrowsSelf(w);
    match a {
      case Sweep(idx, now, push) => TurnGrows(cfg, w, idx, SweepOne(cfg, w.conns[idx], now), push);
      case TurnDispatch(idx, env, push) => TurnGrows(cfg, w, idx, AdvanceDispatching(cfg, w.conns[idx], env), push);
      case TurnResponse(idx, env, push) => TurnGrows(cfg, w, idx, AdvanceResponse(cfg, w.conns[idx], env), push);
    }
  }

  lemma PhaseGrows(cfg: Config, w: World, a: Action)
    requires ValidConfig(cfg) && Enabled(w, a) && (a.BeginDrain? || a.BeginTeardown?)
    ensures Grows(w, Apply(cfg, w, a))
  {
    hide ValidConfig, DrainAll, CloseAll, Covers, Grows;
    DrainAllGrows(w, a.slots);
    CloseAllGrows(w, a.slots);
    SameGrows(w, if a.BeginDrain? then DrainAll(w, a.slots) else CloseAll(w, a.slots), Apply(cfg, w, a));
  }

  /** `v` has the kernel and the sockets of `w`. */
  predicate SameOutside(w: World, v: World) {
    v.inflight == w.inflight && v.ended == w.ended && v.fault == w.fault && v.live == w.live && v.open == w.open
  }

  /** Moves of the environment, stale timers, reaping and the exit leave kernel and sockets alone. */
  lemma QuietApplied(cfg: Config, w: World, a: Action)
    requires ValidConfig(cfg) && Enabled(w, a)
    requires EnvironmentMove(a) || a.PopStale? || a.Reap? || a.Finish?
    ensures SameOutside(w, Apply(cfg, w, a))
  {
    if EnvironmentMove(a) {
      MoveApplied(cfg, w, a);
      hide ValidConfig, Apply, Enabled, CanMove, Moved;
    } else {
      LoopApplied(cfg, w, a);
      hide ValidConfig, Apply, Enabled, Current;
    }
  }

  lemma QuietGrows(cfg: Config, w: World, a: Action)
    requires ValidConfig(cfg) && Enabled(w, a)
    requires EnvironmentMove(a) || a.PopStale? || a.Reap? || a.Finish?
    ensures Grows(w, Apply(cfg, w, a))
  {
    QuietApplied(cfg, w, a);
    hide ValidConfig, Apply, Enabled, Grows;
    GrowsSelf(w);
    SameGrows(w, w, Apply(cfg, w, a));
  }

  lemma SameGrows(w: World, v: World, x: World)
    requires Grows(w, v) && x.inflight == v.inflight && x.ended == v.ended && x.fault == v.fault
    ensures Grows(w, x)
  {
  }

  lemma TurnGrows(cfg: Config, w: World, idx: nat, out: Outcome, push: Push)
    ensures Grows(w, Refresh(cfg, Perform(w, idx, out, push), idx))
  {
    hide Perform, Refresh;
    PerformGrows(w, idx, out, push);
    RefreshGrows(cfg, w, Perform(w, idx, out, push), idx);
  }

  lemma DiscardRecvGrows(w: World, u: nat, recvd: Option<seq<byte>>)
    ensures Grows(w, DiscardRecv(w, u, recvd))
  {
    hide U.Decode, Grows, LoseRecv, ReleaseIfIdle, Put;
    GrowsSelf(w);
    var token := U.Decode(u, U.Recv);
    if token.Some? {
      var idx := token.value.idx;
      ReleaseGrows(w, idx, if idx in w.conns then LoseRecv(w.conns[idx].(recvPending := false), recvd) else NewConn(0, 0, 0, Mem(0, 0)));
    }
  }

  lemma DiscardSendGrows(w: World, u: nat, data: seq<byte>)
    ensures Grows(w, DiscardSend(w, u, data))
  {
    hide U.Decode, OnWire, Grows, ReleaseIfIdle, Put;
    GrowsSelf(w);
    var token := U.Decode(u, U.Write);
    if token.Some? {
      var idx := token.value.idx;
      ReleaseGrows(w, idx, if idx in w.conns then OnWire(w.conns[idx], data).(writePending := false) else NewConn(0, 0, 0, Mem(0, 0)));
    }
  }

  lemma CompletionGrows(cfg: Config, w: World, a: Action)
    requires ValidConfig(cfg) && Enabled(w, a) && (a.RecvDone? || a.SendDone?)
    ensures Grows(Before(w, a), Apply(cfg, w, a))
  {
    hide ValidConfig, CompleteRecv, CompleteSend, U.Decode, DiscardRecv, DiscardSend, Grows;
    var v := Forget(w, a.userData);
    if w.phase == TearingDown {
      if a.RecvDone? {
        DiscardRecvGrows(v, a.userData, a.recvd);
      } else {
        DiscardSendGrows(v, a.userData, if a.taken.Some? then w.inflight[a.userData].data[..a.taken.value] else []);
      }
    } else {
      if a.RecvDone? {
        CompleteRecvGrows(cfg, v, a.userData, a.recvd, a.env, a.push);
      } else {
        CompleteSendGrows(cfg, v, a.userData, w.inflight[a.userData].data, a.taken, a.env, a.push);
      }
    }
  }

  /** What the kernel was given is where it was: same slot, same connection, same bytes or place. */
  ghost predicate Pinned(w: World, v: World, u: nat)
  {
    var idx := U.SlotOf(u);
    && u in w.inflight && u in v.inflight && v.inflight[u] == w.inflight[u]
    && idx in Slots(w) && idx in Slots(v) && Slots(w)[idx].generation == Slots(v)[idx].generation
    && var c, d := Slots(w)[idx], Slots(v)[idx];
       match w.inflight[u]
       case RecvSqe(_, t) => c.recvPending && d.recvPending && c.mem.end == d.mem.end == t.addr && t.len <= c.mem.spare && t.len <= d.mem.spare
       case SendSqe(_, data) => c.writePending && d.writePending && data <= Tail(c.resp) && data <= Tail(d.resp)
  }

  lemma PinnedByOwner(cfg: Config, w: World, v: World, u: nat)
    requires Base(cfg, Settle(w)) && Base(cfg, Settle(v)) && u in w.inflight && u in v.inflight && v.inflight[u] == w.inflight[u]
    ensures Pinned(w, v, u)
  {
    hide Base, U.SlotOf, U.Encode, U.Decode;
    var idx := U.SlotOf(u);
    Owner(cfg, Settle(w), u);
    Owner(cfg, Settle(v), u);
    SlotCore(cfg, Settle(w), idx);
    SlotCore(cfg, Settle(v), idx);
    PendingTargets(cfg, Slots(w)[idx]);
    PendingTargets(cfg, Slots(v)[idx]);
  }

  /**
   While an operation is in flight, no step but its own completion frees or reuses its slot,
   moves the end of the read buffer under a RECV, or changes the bytes under a SEND.
   */
  lemma KernelBuffersPinned(cfg: Config, run: Run, k: nat, u: nat)
    requires ValidConfig(cfg) && Possible(cfg, run) && k < |run.actions| && u in run.worlds[k].inflight
    requires var a := run.actions[k]; !((a.RecvDone? || a.SendDone?) && a.userData == u)
    ensures Pinned(run.worlds[k], run.worlds[k + 1], u)
  {
    RunKeeps(cfg, run, k);
    RunKeeps(cfg, run, k + 1);
    assert Next(cfg, run, k);
    hide Possible, ValidConfig, Inv, Base, Enabled, Apply, Pinned;
    var w, v := run.worlds[k], run.worlds[k + 1];
    BaseOf(cfg, w);
    BaseOf(cfg, v);
    ApplyGrows(cfg, w, run.actions[k]);
    NoFault(cfg, Settle(v));
    PinnedByOwner(cfg, w, v, u);
  }

  // ----- deadlines -----

  /** The earliest deadline of all live connections, if any has one. */
  ghost predicate Earliest(cfg: Config, w: World, d: Option<nat>) {
    if d.None? then forall idx :: idx in w.conns && w.conns[idx].state != Closed ==> DeadlineOf(cfg, w.conns[idx]).None?
    else
      && (exists idx :: idx in w.conns && w.conns[idx].state != Closed && DeadlineOf(cfg, w.conns[idx]) == d)
      && (forall idx :: idx in w.conns && w.conns[idx].state != Closed && DeadlineOf(cfg, w.conns[idx]).Some? ==>
            d.value <= DeadlineOf(cfg, w.conns[idx]).value)
  }

  lemma TimerOf(cfg: Config, w: World, idx: nat)
    requires Base(cfg, w) && idx in w.conns && w.conns[idx].state != Closed
    ensures var c := w.conns[idx];
            && c.clock.tracked == DeadlineOf(cfg, c)
            && (c.clock.tracked.Some? ==> Entry(c.clock.tracked.value, idx, c.clock.generation) in w.heap)
  {
    assert Seat(cfg, w, idx);
    hide Core, Armed, KernelOk, DeadlineOf;
  }

  /** The least deadline among the entries that still speak for a connection. */
  ghost predicate LeastCurrent(w: World, d: Option<nat>) {
    if d.None? then forall e :: e in w.heap ==> !Current(w, e)
    else
      && (exists e :: e in w.heap && Current(w, e) && e.deadline == d.value)
      && (forall e :: e in w.heap && Current(w, e) ==> d.value <= e.deadline)
  }

  /**
   The lazily cleaned heap agrees with a plain minimum in every reachable state of every run:
   each live connection tracks its present deadline, and the least entry that is not stale is
   the earliest deadline of all live connections.
   */
  lemma HeapIsMinimum(cfg: Config, run: Run, k: nat, d: Option<nat>)
    requires ValidConfig(cfg) && Possible(cfg, run) && k < |run.worlds| && run.worlds[k].phase != Phase.Finished
    ensures var w := run.worlds[k];
            && (forall idx :: idx in w.conns && w.conns[idx].state != Closed ==>
                  w.conns[idx].clock.tracked == DeadlineOf(cfg, w.conns[idx]))
            && (LeastCurrent(w, d) <==> Earliest(cfg, w, d))
  {
    RunKeeps(cfg, run, k);
    var w := run.worlds[k];
    BaseNow(cfg, w);
    hide Possible, ValidConfig, Inv, Base, DeadlineOf, LeastCurrent, Earliest;
    forall idx | idx in w.conns && w.conns[idx].state != Closed
      ensures w.conns[idx].clock.tracked == DeadlineOf(cfg, w.conns[idx])
    {
      TimerOf(cfg, w, idx);
    }
    MinimumBothWays(cfg, w, d);
  }

  lemma MinimumBothWays(cfg: Config, w: World, d: Option<nat>)
    requires Base(cfg, w)
    ensures LeastCurrent(w, d) <==> Earliest(cfg, w, d)
  {
    hide Base, DeadlineOf;
    forall idx | idx in w.conns && w.conns[idx].state != Closed && DeadlineOf(cfg, w.conns[idx]).Some?
      ensures var e := Entry(DeadlineOf(cfg, w.conns[idx]).value, idx, w.conns[idx].clock.generation);
              e in w.heap && Current(w, e)
    {
      TimerOf(cfg, w, idx);
    }
    forall e | e in w.heap && Current(w, e)
      ensures w.conns[e.idx].state != Closed && DeadlineOf(cfg, w.conns[e.idx]) == Some(e.deadline)
    {
      TimerOf(cfg, w, e.idx);
    }
  }
}
