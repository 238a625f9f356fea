/**
 Who gets a connection and for how long: `handle_accept` takes a socket exactly while there is room,
 so there are never more connections than allowed, and a drain lets every connection finish the
 request it is at and no other.
 */
module Admission {
  import opened Bytes
  import opened BodyPump
  import opened Connection
  import opened ConnectionInvariant
  import opened EventLoop
  import opened EventLoopInvariant
  import opened EventLoopActions
  import opened EventLoopRun
  import opened EventLoopTheorems
  import A = Answers
  import U = UserData
  import W = Worker

  // ----- accepting -----

  /** `v` is `w` with a fresh connection for the socket in the slot, whose first RECV is in flight. */
  ghost predicate TakenIn(cfg: Config, w: World, v: World, fd: int, idx: nat, now: nat) {
    && idx in v.conns && v.conns == w.conns[idx := v.conns[idx]] && v.nextGeneration == (w.nextGeneration + 1) % 0x1000_0000
    && v.open == w.open[fd := Socket(w.accepted, idx)] && v.closes == w.closes[w.accepted := 0]
    && var c := v.conns[idx];
       && c.fd == fd && c.generation == w.nextGeneration && c.state == Headers && c.buf == [] && c.log.received == []
       && c.keepAlive && !c.draining && !c.writePending && c.recvPending && c.recvTarget.Some?
       && v.inflight == w.inflight[RecvData(idx, c) := RecvSqe(fd, c.recvTarget.value)]
       && c.clock.tracked == A.Earlier(A.Plus(now, cfg.connectionTimeout), A.Plus(now, cfg.headerTimeout))
  }

  /** `v` is `w` but for the record of one more socket that was accepted and closed at once. */
  predicate SentAway(w: World, v: World) {
    v.conns == w.conns && v.inflight == w.inflight && v.open == w.open && v.closes == w.closes[w.accepted := 1]
  }

  /**
   An accepted socket gets a connection of its own exactly if the server is serving, has fewer
   connections than it may, and can queue the first RECV. Otherwise it is closed at once.
   */
  lemma AcceptExact(cfg: Config, w: World, fd: int, idx: nat, now: nat, mem: Mem, push: Push)
    requires ValidConfig(cfg) && Inv(cfg, w) && Enabled(w, Accept(fd, idx, now, mem, push))
    ensures var v := Apply(cfg, w, Accept(fd, idx, now, mem, push));
            if w.phase == Serving && |w.conns| < cfg.maxConnections && push.room then TakenIn(cfg, w, v, fd, idx, now)
            else SentAway(w, v)
  {
    hide ValidConfig, Inv, TakenIn, SentAway, SubmitRecv, Refresh, NewConn, OpenFd, CloseFd;
    NextSerial(cfg, w);
    if w.phase != Serving || |w.conns| >= cfg.maxConnections {
      TurnedBack(w, fd, idx);
    } else if push.room {
      Welcomed(cfg, w, fd, idx, now, mem, push);
    } else {
      NoRoom(cfg, w, fd, idx, now, mem, push);
    }
  }

  lemma NextSerial(cfg: Config, w: World)
    requires Inv(cfg, w)
    ensures w.accepted !in w.closes && w.accepted !in w.ended
  {
    InvSockets(cfg, w);
    hide Inv, EndedWell;
  }

  lemma TurnedBack(w: World, fd: int, idx: nat)
    requires fd !in w.open
    ensures SentAway(w, CloseFd(OpenFd(w, fd, idx), fd))
  {
    assert w.open[fd := Socket(w.accepted, idx)] - {fd} == w.open;
    assert w.closes[w.accepted := 0][w.accepted := 1] == w.closes[w.accepted := 1];
  }

  lemma Welcomed(cfg: Config, w: World, fd: int, idx: nat, now: nat, mem: Mem, push: Push)
    requires 0 <= fd && idx !in w.conns && push.room
    ensures var v := NextGenerationOf(OpenFd(w, fd, idx));
            TakenIn(cfg, w, Refresh(cfg, SubmitRecv(v, idx, NewConn(fd, w.nextGeneration, now, mem), push), idx), fd, idx, now)
  {
    hide SubmitRecv, PrepareRecv, DeadlineOf, A.Earlier, A.Plus, CloseConn, Enter, U.Encode, NewConn;
    var c, v := NewConn(fd, w.nextGeneration, now, mem), NextGenerationOf(OpenFd(w, fd, idx));
    FreshParts(cfg, fd, w.nextGeneration, now, mem);
    SubmitRecvIs(v, idx, c, push);
    PreparedParts(cfg, c, push.base, push.extra);
  }

  lemma FreshParts(cfg: Config, fd: int, generation: nat, now: nat, mem: Mem)
    ensures var c := NewConn(fd, generation, now, mem);
            && c.fd == fd && c.generation == generation && c.state == Headers && c.buf == [] && c.log.received == []
            && c.keepAlive && !c.draining && !c.writePending && !c.recvPending
            && DeadlineOf(cfg, c) == A.Earlier(A.Plus(now, cfg.connectionTimeout), A.Plus(now, cfg.headerTimeout))
  {
    var c := NewConn(fd, generation, now, mem);
    A.DeadlinesExact(cfg, fd, generation, now, mem, c);
    hide A.Earlier, A.Plus, DeadlineOf;
  }

  lemma PreparedParts(cfg: Config, c: Conn, base: nat, extra: nat)
    ensures var d := PrepareRecv(c, base, extra).(recvPending := true);
            && d.fd == c.fd && d.generation == c.generation && d.state == c.state && d.buf == c.buf && d.log == c.log
            && d.keepAlive == c.keepAlive && d.draining == c.draining && d.writePending == c.writePending
            && DeadlineOf(cfg, d) == DeadlineOf(cfg, c) && d.clock == c.clock
  {
  }

  lemma NoRoom(cfg: Config, w: World, fd: int, idx: nat, now: nat, mem: Mem, push: Push)
    requires 0 <= fd && fd !in w.open && idx !in w.conns && !push.room
    ensures var v := NextGenerationOf(OpenFd(w, fd, idx));
            SentAway(w, Refresh(cfg, SubmitRecv(v, idx, NewConn(fd, w.nextGeneration, now, mem), push), idx))
  {
    hide SubmitRecv, PrepareRecv, MarkClosed, DeadlineOf, U.Encode, NewConn;
    var c, v := NewConn(fd, w.nextGeneration, now, mem), NextGenerationOf(OpenFd(w, fd, idx));
    FreshParts(cfg, fd, w.nextGeneration, now, mem);
    SubmitRecvIs(v, idx, c, push);
    PreparedParts(cfg, c, push.base, push.extra);
    var d := PrepareRecv(c, push.base, push.extra).(recvTarget := None);
    assert w.open[fd := Socket(w.accepted, idx)] - {fd} == w.open;
    assert w.closes[w.accepted := 0][w.accepted := 1] == w.closes[w.accepted := 1];
    assert w.conns[idx := d] - {idx} == w.conns;
  }

  // ----- what a drain leaves a connection -----

  /** It is closed, or has a request to finish and no other: it is not kept after its response. */
  predicate LastRequest(c: Conn) {
    c.state == Closed || (c.draining && !c.keepAlive && !(c.state == Headers && c.buf == []))
  }

  /** A connection at its last request stays there. */
  predicate Stays(c: Conn, d: Conn) {
    LastRequest(c) ==> LastRequest(d) && d.log.past == c.log.past
  }

  lemma ContinueStays(cfg: Config, c: Conn)
    requires c.state == Dispatching
    ensures Stays(c, ContinueBody(cfg, c).conn)
  {
    hide Pump;
  }

  lemma HeadStays(cfg: Config, c: Conn, env: Env)
    requires ValidConfig(cfg) && c.state == Headers
    ensures Stays(c, ProcessHead(cfg, c, env).conn)
  {
    hide AfterDispatch, ExceedsLimit, StartRequest, SetSerialized, ClearBuf, SendInterim, Stays;
    match cfg.parse(c.buf)
    case IncompleteHead => RefusedStays(c, c, []);
    case BadHead(e) => RefusedStays(c, c, cfg.wire(e));
    case Parsed(h) =>
      RefusedStays(c, c.(buf := c.buf[h.len..]), cfg.wire(PayloadTooLarge));
      StartStays(cfg, c, h, []);
      StartStays(cfg, c, h, env.interim);
  }

  lemma RefusedStays(c: Conn, d: Conn, bytes: seq<byte>)
    requires c.state == Headers && d.draining == c.draining && d.log == c.log
    ensures Stays(c, ClearBuf(SetSerialized(d, bytes))) && Stays(c, c)
  {
  }

  lemma StartStays(cfg: Config, c: Conn, h: Head, interim: seq<byte>)
    requires c.state == Headers && h.len <= |c.buf|
    ensures var d := StartRequest(c, h);
            var e := SendInterim(d, interim);
            && Stays(c, AfterDispatch(cfg, d).conn) && Stays(c, d.(req := d.req.(dispatch := Idle)))
            && Stays(c, AfterDispatch(cfg, e).conn) && Stays(c, e.(req := e.req.(dispatch := Idle)))
  {
    hide ContinueBody, FramingOf;
    DispatchedStays(cfg, StartRequest(c, h));
    DispatchedStays(cfg, SendInterim(StartRequest(c, h), interim));
  }

  lemma DispatchedStays(cfg: Config, c: Conn)
    requires c.state == Dispatching
    ensures Stays(c, AfterDispatch(cfg, c).conn)
  {
    hide ContinueBody, Tail;
    var quiet := !c.writePending && Tail(c.resp) == [] && c.resp.rx.None? && !c.resp.done && !c.resp.failed;
    ContinueStays(cfg, c.(fault := c.fault || !quiet));
  }

  lemma PollStays(c: Conn)
    requires c.state == Dispatching || c.state == Writing
    ensures Responding(c, PollResponse(c).0)
  {
    hide SkipEmpty, Tail, StartWriting, StreamBroken, Responding;
    BrokenStays(c);
    PolledStays(c, c.resp);
    if c.resp.rx.Some? {
      var ch := c.resp.rx.value;
      var queue := SkipEmpty(ch.queue);
      PolledStays(c, c.resp.(rx := Some(ch.(queue := []))));
      PolledStays(c, c.resp.(rx := None));
      PolledStays(c, c.resp.(rx := None, done := true));
      if queue != [] && queue[0].Data? {
        WritingStays(c, queue[0].bytes, ch.(queue := queue[1..]));
      }
    }
  }

  /** What looking at a response leaves of its connection. */
  predicate Responding(c: Conn, d: Conn) {
    && (d.state == Dispatching || d.state == Writing) && d.draining == c.draining && d.log == c.log
    && (!c.keepAlive ==> !d.keepAlive)
  }

  lemma PolledStays(c: Conn, r: Response)
    requires c.state == Dispatching || c.state == Writing
    ensures Responding(c, c.(resp := r)) && Responding(c, c)
  {
  }

  lemma BrokenStays(c: Conn)
    requires c.state == Dispatching || c.state == Writing
    ensures Responding(c, StreamBroken(c).0)
  {
  }

  lemma WritingStays(c: Conn, bytes: seq<byte>, rest: Channel)
    requires c.state == Dispatching || c.state == Writing
    ensures Responding(c, StartWriting(c, bytes, rest))
  {
    hide Tail;
  }

  lemma WriteStays(c: Conn, n: nat, now: nat)
    requires c.state == Closed ==> !c.keepAlive
    ensures var (d, w) := OnWrite(c, n, now);
            Stays(c, d) && (LastRequest(c) ==> w != RecvNext)
  {
    hide Reset;
  }

  lemma ResponseStays(cfg: Config, c: Conn, env: Env)
    requires ValidConfig(cfg) && (c.state == Dispatching || c.state == Writing)
    ensures Stays(c, AdvanceResponse(cfg, c, env).conn)
  {
    hide PollResponse, OnWrite, Resume, ValidConfig;
    if LastRequest(c) && !c.writePending {
      PollStays(c);
      var (d, p) := PollResponse(c);
      WriteStays(d, 0, env.now);
    }
  }

  lemma DispatchStays(cfg: Config, c: Conn, env: Env)
    requires ValidConfig(cfg)
    ensures Stays(c, AdvanceDispatching(cfg, c, env).conn)
  {
    hide AdvanceResponse, ContinueBody, ValidConfig;
    if c.state == Dispatching {
      var d := if c.req.dispatch.Answered? then StartResponse(c, c.req.dispatch.closes) else c;
      ResponseStays(cfg, d, env);
      var out := AdvanceResponse(cfg, d, env);
      if out.conn.state == Dispatching {
        ContinueStays(cfg, out.conn);
      }
    }
  }

  lemma RecvStays(cfg: Config, c: Conn, res: Option<seq<byte>>, env: Env)
    requires ValidConfig(cfg)
    ensures Stays(c, HandleRecv(cfg, c, res, env).conn)
  {
    hide ProcessHead, AdvanceDispatching, ValidConfig, CommitRecv, CommitOk, LoseRecv, LastRequest, SetSerialized;
    var e := c.(recvPending := false);
    LostStays(c, res, []);
    if c.state != Closed {
      TimedOutStays(c, LoseRecv(e, res), cfg.wire(RequestTimeout));
    }
    IgnoredStays(c);
    if res.Some? && CommitOk(e) {
      var d := CommitRecv(e, res.value);
      CommitStays(c, res.value);
      if c.state == Headers {
        HeadStays(cfg, d, env);
      } else {
        DispatchStays(cfg, d, env);
      }
    }
  }

  lemma TimedOutStays(c: Conn, d: Conn, bytes: seq<byte>)
    requires Stays(c, d) && d.state == c.state && d.draining == c.draining && c.state != Closed
    ensures Stays(c, d.(timeoutError := false, keepAlive := false))
    ensures Stays(c, SetSerialized(d.(timeoutError := false), bytes))
  {
  }

  lemma IgnoredStays(c: Conn)
    ensures var d := c.(recvPending := false, recvTarget := None);
            Stays(c, d) && Stays(c, d.(fault := true)) && Stays(c, d.(timeoutError := false))
  {
  }

  lemma CommitStays(c: Conn, bytes: seq<byte>)
    requires CommitOk(c.(recvPending := false))
    ensures var d := CommitRecv(c.(recvPending := false), bytes); Stays(c, d) && d.state == c.state
  {
  }

  lemma SendStays(cfg: Config, c: Conn, bytes: seq<byte>, res: Option<nat>, env: Env)
    requires ValidConfig(cfg) && (c.state == Writing || c.state == Closed)
    ensures Stays(c, HandleSend(cfg, OnWire(c, bytes), res, env).conn)
  {
    hide AdvanceResponse, OnWrite, Resume, ValidConfig;
    if LastRequest(c) && c.state != Closed && res.Some? {
      var e := OnWire(c, bytes).(writePending := false);
      WriteStays(e, res.value, env.now);
      var (d, w) := OnWrite(e, res.value, env.now);
      AwaitsInState(e, res.value, env.now);
      if w == AwaitResponse {
        ResponseStays(cfg, d, env);
      }
    }
  }

  lemma AwaitsInState(c: Conn, n: nat, now: nat)
    ensures var (d, w) := OnWrite(c, n, now); w != RecvNext ==> d.state == c.state
  {
  }

  lemma SweepStays(cfg: Config, c: Conn, now: nat)
    ensures Stays(c, SweepOne(cfg, c, now).conn)
  {
  }

  lemma MoveStays(c: Conn, a: Action)
    requires CanMove(c, a)
    ensures Stays(c, Moved(c, a))
  {
  }

  // ----- one step -----

  /** No connection comes in, and those at their last request stay there. */
  ghost predicate Calm(w: World, v: World) {
    forall idx :: idx in v.conns ==> idx in w.conns && Stays(w.conns[idx], v.conns[idx])
  }

  lemma CalmSelf(w: World, v: World)
    requires v.conns == w.conns
    ensures Calm(w, v)
  {
  }

  lemma CalmThen(w: World, v: World, x: World)
    requires Calm(w, v) && Calm(v, x)
    ensures Calm(w, x)
  {
    hide LastRequest;
    forall idx | idx in x.conns ensures idx in w.conns && Stays(w.conns[idx], x.conns[idx]) {
      assert Stays(v.conns[idx], x.conns[idx]) && Stays(w.conns[idx], v.conns[idx]);
    }
  }

  lemma ClosedSlotIs(w: World, idx: nat, why: CloseReason)
    ensures var v := CloseConn(w, idx, why);
            idx in v.conns ==> idx in w.conns && v.conns[idx].state == Closed && v.conns[idx].log == w.conns[idx].log
  {
    if idx in w.conns {
      EndFdSlots(w, w.conns[idx].fd, Ended(w.conns[idx].log, why));
    }
    hide EndFd;
  }

  lemma CloseCalm(w: World, idx: nat, why: CloseReason)
    ensures Calm(w, CloseConn(w, idx, why)) && CloseConn(w, idx, why).phase == w.phase
  {
    ClosedSlotIs(w, idx, why);
    W.CloseOnly(w, idx, why);
    hide CloseConn;
  }

  lemma PerformStays(w: World, idx: nat, c: Conn, out: Outcome, push: Push)
    requires Stays(c, out.conn)
    ensures var v := Perform(w, idx, out, push); idx in v.conns ==> Stays(c, v.conns[idx])
  {
    hide CloseConn, SubmitRecv, SubmitWrite, Stays;
    match out.op
    case ArmRecv => ArmRecvStays(w, idx, c, out.conn, push);
    case ArmSend => ArmSendStays(w, idx, c, out.conn, push);
    case CancelRecv => CloseStays(w, idx, c, out.conn, out.conn, Timeout);
    case Shut(why) => CloseStays(w, idx, c, out.conn, out.conn, why);
    case _ =>
  }

  lemma ArmRecvStays(w: World, idx: nat, c: Conn, o: Conn, push: Push)
    requires Stays(c, o)
    ensures var v := SubmitRecv(w, idx, o, push); idx in v.conns ==> Stays(c, v.conns[idx])
  {
    hide CloseConn, PrepareRecv, U.Encode, Stays;
    var d := PrepareRecv(o, push.base, push.extra);
    PreparedLog(o, push.base, push.extra);
    LikeStays(c, o, d.(recvPending := true));
    CloseStays(w, idx, c, o, o.(fault := true), IoError);
    CloseStays(w, idx, c, o, d.(recvTarget := None), IoError);
  }

  lemma ArmSendStays(w: World, idx: nat, c: Conn, o: Conn, push: Push)
    requires Stays(c, o)
    ensures var v := SubmitWrite(w, idx, o, push); idx in v.conns ==> Stays(c, v.conns[idx])
  {
    hide CloseConn, Tail, SendLength, U.Encode, Stays;
    SendFits(Tail(o.resp));
    LikeStays(c, o, o.(writePending := true));
    CloseStays(w, idx, c, o, o.(fault := true), IoError);
    CloseStays(w, idx, c, o, o, IoError);
  }

  lemma LikeStays(c: Conn, o: Conn, d: Conn)
    requires Stays(c, o) && d.state == o.state && d.buf == o.buf && d.log == o.log
    requires d.keepAlive == o.keepAlive && d.draining == o.draining
    ensures Stays(c, d)
  {
  }

  lemma CloseStays(w: World, idx: nat, c: Conn, o: Conn, d: Conn, why: CloseReason)
    requires Stays(c, o) && d.log == o.log
    ensures var v := CloseConn(Put(w, idx, d), idx, why); idx in v.conns ==> Stays(c, v.conns[idx])
  {
    hide CloseConn;
    ClosedSlotIs(Put(w, idx, d), idx, why);
  }

  lemma PreparedLog(c: Conn, base: nat, extra: nat)
    ensures var d := PrepareRecv(c, base, extra);
            && d.recvTarget.Some? && d.state == c.state && d.buf == c.buf && d.log == c.log
            && d.keepAlive == c.keepAlive && d.draining == c.draining
  {
  }

  lemma RetimedStays(cfg: Config, w: World, idx: nat, c: Conn)
    requires idx in w.conns ==> Stays(c, w.conns[idx])
    ensures var v := Refresh(cfg, w, idx); idx in v.conns ==> Stays(c, v.conns[idx])
  {
    hide DeadlineOf, Enter;
  }

  /** A handler ran on the connection in the slot, and its operation is performed. */
  lemma TurnCalm(cfg: Config, w: World, idx: nat, out: Outcome, push: Push)
    requires idx in w.conns && Stays(w.conns[idx], out.conn)
    ensures var v := Refresh(cfg, Perform(w, idx, out, push), idx); Calm(w, v) && v.phase == w.phase
  {
    hide Perform, Refresh;
    PerformStays(w, idx, w.conns[idx], out, push);
    RetimedStays(cfg, Perform(w, idx, out, push), idx, w.conns[idx]);
    W.TurnOnly(cfg, w, idx, out, push);
  }

  lemma TurnsCalm(cfg: Config, w: World, a: Action)
    requires ValidConfig(cfg) && Enabled(w, a) && (a.Sweep? || a.TurnDispatch? || a.TurnResponse?)
    ensures Calm(w, Apply(cfg, w, a)) && Apply(cfg, w, a).phase == w.phase
  {
    hide ValidConfig, Expired, Perform, Refresh, AdvanceDispatching, AdvanceResponse, SweepOne, Calm, Stays, Tail;
    CalmSelf(w, w);
    match a {
      case Sweep(idx, now, push) =>
        SweepStays(cfg, w.conns[idx], now);
        TurnCalm(cfg, w, idx, SweepOne(cfg, w.conns[idx], now), push);
      case TurnDispatch(idx, env, push) =>
        DispatchStays(cfg, w.conns[idx], env);
        TurnCalm(cfg, w, idx, AdvanceDispatching(cfg, w.conns[idx], env), push);
      case TurnResponse(idx, env, push) =>
        ResponseStays(cfg, w.conns[idx], env);
        TurnCalm(cfg, w, idx, AdvanceResponse(cfg, w.conns[idx], env), push);
    }
  }

  lemma MovesCalm(cfg: Config, w: World, a: Action)
    requires ValidConfig(cfg) && Enabled(w, a) && EnvironmentMove(a)
    ensures Calm(w, Apply(cfg, w, a)) && Apply(cfg, w, a).phase == w.phase
  {
    MoveApplied(cfg, w, a);
    hide ValidConfig, Enabled, Apply, CanMove, Moved, LastRequest;
    MoveStays(w.conns[a.idx], a);
  }

  lemma SendingState(cfg: Config, c: Conn)
    requires Core(cfg, c) && c.writePending
    ensures c.state == Writing || c.state == Closed
  {
  }

  lemma RecvCalm(cfg: Config, w: World, u: nat, r: Option<seq<byte>>, env: Env, push: Push)
    requires ValidConfig(cfg) && Base(cfg, w) && u in w.inflight && w.inflight[u].RecvSqe?
    ensures var v := CompleteRecv(cfg, Forget(w, u), u, r, env, push); Calm(w, v) && v.phase == w.phase
    ensures var v := DiscardRecv(Forget(w, u), u, r); Calm(w, v) && v.phase == w.phase
  {
    hide ValidConfig, Base, U.Encode, U.Decode, U.SlotOf, Perform, Refresh, HandleRecv, CompleteRecv, Tail, SendLength, Stays;
    Owner(cfg, w, u);
    var idx := U.SlotOf(u);
    RecvFound(cfg, Forget(w, u), u, r, env, push);
    RecvStays(cfg, w.conns[idx], r, env);
    TurnCalm(cfg, Forget(w, u), idx, HandleRecv(cfg, w.conns[idx], r, env), push);
    LostStays(w.conns[idx], r, []);
    SlotCalm(Forget(w, u), idx, LoseRecv(w.conns[idx].(recvPending := false), r));
  }

  lemma SendCalm(cfg: Config, w: World, u: nat, n: Option<nat>, env: Env, push: Push)
    requires ValidConfig(cfg) && Base(cfg, w) && u in w.inflight && w.inflight[u].SendSqe?
    requires n.Some? ==> n.value <= |w.inflight[u].data|
    ensures var v := CompleteSend(cfg, Forget(w, u), u, w.inflight[u].data, n, env, push); Calm(w, v) && v.phase == w.phase
    ensures var v := DiscardSend(Forget(w, u), u, if n.Some? then w.inflight[u].data[..n.value] else []);
            Calm(w, v) && v.phase == w.phase
  {
    hide ValidConfig, Base, U.Encode, U.Decode, U.SlotOf, Perform, Refresh, HandleSend, CompleteSend, Tail, SendLength;
    hide Core, Armed, KernelOk, TimerOk, SocketsOk, ReleaseIfIdle, Calm, DiscardSend, Stays, OnWire;
    Owner(cfg, w, u);
    var idx := U.SlotOf(u);
    SeatOf(cfg, w, idx);
    SendingState(cfg, w.conns[idx]);
    var bytes := if n.Some? then w.inflight[u].data[..n.value] else [];
    SendFound(cfg, Forget(w, u), u, w.inflight[u].data, n, env, push);
    SendStays(cfg, w.conns[idx], bytes, n, env);
    TurnCalm(cfg, Forget(w, u), idx, HandleSend(cfg, OnWire(w.conns[idx], bytes), n, env), push);
    LostStays(w.conns[idx], None, bytes);
    SlotCalm(Forget(w, u), idx, OnWire(w.conns[idx], bytes).(writePending := false));
    DiscardFound(Forget(w, u), u, bytes);
    SameCalm(w, Forget(w, u));
  }

  lemma SameCalm(w: World, v: World)
    requires v.conns == w.conns
    ensures forall x :: Calm(v, x) ==> Calm(w, x)
  {
    hide Stays;
  }

  lemma LostStays(c: Conn, res: Option<seq<byte>>, bytes: seq<byte>)
    ensures var d := LoseRecv(c.(recvPending := false), res); Stays(c, d) && d.state == c.state && d.draining == c.draining
    ensures Stays(c, OnWire(c, bytes).(writePending := false))
  {
  }

  lemma SlotCalm(w: World, idx: nat, d: Conn)
    requires idx in w.conns && Stays(w.conns[idx], d)
    ensures var v := ReleaseIfIdle(Put(w, idx, d), idx); Calm(w, v) && v.phase == w.phase
  {
    hide LastRequest;
  }

  lemma DrainCalm(w: World, idx: nat)
    ensures var v := DrainConn(w, idx);
            Calm(w, v) && v.phase == w.phase && (idx in v.conns ==> LastRequest(v.conns[idx]))
  {
    hide CloseConn, Calm;
    if idx in w.conns && w.conns[idx].state != Closed {
      var c := w.conns[idx].(draining := true, keepAlive := false);
      FlagCalm(w, idx);
      CloseCalm(Put(w, idx, c), idx, Timeout);
      ClosedAfter(Put(w, idx, c), idx, Timeout);
      CalmSelf(Put(w, idx, c), Put(w, idx, c));
      CalmThen(w, Put(w, idx, c), DrainConn(w, idx));
    } else {
      CalmSelf(w, w);
    }
  }

  lemma FlagCalm(w: World, idx: nat)
    requires idx in w.conns && w.conns[idx].state != Closed
    ensures Calm(w, Put(w, idx, w.conns[idx].(draining := true, keepAlive := false)))
  {
  }

  lemma {:induction false} DrainAllCalm(w: World, slots: seq<nat>)
    ensures var v := DrainAll(w, slots);
            && Calm(w, v) && v.phase == w.phase
            && forall idx :: idx in v.conns && idx in slots ==> LastRequest(v.conns[idx])
    decreases |slots|
  {
    if slots == [] {
      CalmSelf(w, w);
    } else {
      hide DrainConn, LastRequest;
      var x := DrainConn(w, slots[0]);
      DrainCalm(w, slots[0]);
      DrainAllCalm(x, slots[1..]);
      var v := DrainAll(x, slots[1..]);
      CalmThen(w, x, v);
      forall idx | idx in v.conns && idx in slots ensures LastRequest(v.conns[idx]) {
        if idx !in slots[1..] {
          assert idx == slots[0] && Stays(x.conns[idx], v.conns[idx]);
        }
      }
    }
  }

  lemma {:induction false} CloseAllCalm(w: World, slots: seq<nat>)
    ensures Calm(w, CloseAll(w, slots))
    decreases |slots|
  {
    if slots == [] {
      CalmSelf(w, w);
    } else {
      hide CloseConn, Calm;
      var x := CloseConn(w, slots[0], Timeout);
      CloseCalm(w, slots[0], Timeout);
      CloseAllCalm(x, slots[1..]);
      CalmThen(w, x, CloseAll(x, slots[1..]));
    }
  }

  /** The phase after an action. */
  function PhaseAfter(w: World, a: Action): Phase {
    match a
    case BeginDrain(_) => Draining
    case BeginTeardown(_) => TearingDown
    case Finish => Phase.Finished
    case _ => w.phase
  }

  lemma LoopCalm(cfg: Config, w: World, a: Action)
    requires ValidConfig(cfg) && Enabled(w, a)
    requires a.PopStale? || a.BeginDrain? || a.Reap? || a.BeginTeardown? || a.Finish?
    ensures Calm(w, Apply(cfg, w, a)) && Apply(cfg, w, a).phase == PhaseAfter(w, a)
  {
    LoopApplied(cfg, w, a);
    hide Apply, Enabled, ValidConfig, Current, CloseAll, DrainAll, Covers, Calm, ReleaseIfIdle;
    var v := Apply(cfg, w, a);
    if a.BeginDrain? {
      DrainAllCalm(w, a.slots);
      SameSlotsCalm(w, DrainAll(w, a.slots), v);
    } else if a.BeginTeardown? {
      CloseAllCalm(w, a.slots);
      SameSlotsCalm(w, CloseAll(w, a.slots), v);
    } else if a.Reap? {
      ReapCalm(w, a.idx);
    } else if a.Finish? {
      NobodyCalm(w, v);
    } else {
      CalmSelf(w, v);
    }
  }

  lemma SameSlotsCalm(w: World, v: World, x: World)
    requires Calm(w, v) && x.conns == v.conns
    ensures Calm(w, x)
  {
    hide Stays;
  }

  lemma ReapCalm(w: World, idx: nat)
    ensures Calm(w, ReleaseIfIdle(w, idx)) && ReleaseIfIdle(w, idx).phase == w.phase
  {
  }

  lemma NobodyCalm(w: World, v: World)
    requires v.conns == map[]
    ensures Calm(w, v)
  {
    hide Stays;
  }

  lemma CompletionCalm(cfg: Config, w: World, a: Action)
    requires ValidConfig(cfg) && Inv(cfg, w) && Enabled(w, a) && (a.RecvDone? || a.SendDone?)
    ensures Calm(w, Apply(cfg, w, a)) && Apply(cfg, w, a).phase == w.phase
  {
    BaseNow(cfg, w);
    hide Base, Inv, ValidConfig, Calm, CompleteRecv, CompleteSend, DiscardRecv, DiscardSend, Forget;
    match a {
      case RecvDone(u, r, env, push) => RecvCalm(cfg, w, u, r, env, push);
      case SendDone(u, n, env, push) => SendCalm(cfg, w, u, n, env, push);
      case _ =>
    }
  }

  /** Only an accept lets a connection in, and only while serving. */
  lemma StepCalm(cfg: Config, w: World, a: Action)
    requires ValidConfig(cfg) && Inv(cfg, w) && Enabled(w, a)
    ensures Apply(cfg, w, a).phase == PhaseAfter(w, a)
    ensures !(a.Accept? && w.phase == Serving) ==> Calm(w, Apply(cfg, w, a))
    ensures a.Accept? ==> |Apply(cfg, w, a).conns| <= |w.conns| || |Apply(cfg, w, a).conns| <= cfg.maxConnections
  {
    hide ValidConfig, Inv, Apply, Enabled, Calm;
    if a.Accept? {
      AcceptCalm(cfg, w, a.fd, a.idx, a.now, a.mem, a.push);
    } else if a.RecvDone? || a.SendDone? {
      CompletionCalm(cfg, w, a);
    } else if a.Sweep? || a.TurnDispatch? || a.TurnResponse? {
      TurnsCalm(cfg, w, a);
    } else if EnvironmentMove(a) {
      MovesCalm(cfg, w, a);
    } else {
      LoopCalm(cfg, w, a);
    }
  }

  lemma AcceptCalm(cfg: Config, w: World, fd: int, idx: nat, now: nat, mem: Mem, push: Push)
    requires ValidConfig(cfg) && Inv(cfg, w) && Enabled(w, Accept(fd, idx, now, mem, push))
    ensures var v := Apply(cfg, w, Accept(fd, idx, now, mem, push));
            && v.phase == w.phase && (w.phase != Serving ==> Calm(w, v))
            && (|v.conns| <= |w.conns| || |v.conns| <= cfg.maxConnections)
  {
    hide ValidConfig, Inv, Apply, Enabled, Calm, TakenIn, SentAway;
    AcceptExact(cfg, w, fd, idx, now, mem, push);
    AcceptPhase(cfg, w, fd, idx, now, mem, push);
    var v := Apply(cfg, w, Accept(fd, idx, now, mem, push));
    if w.phase == Serving && |w.conns| < cfg.maxConnections && push.room {
      OneMore(cfg, w, v, fd, idx, now);
    } else {
      NoMore(w, v);
      CalmSelf(w, v);
    }
  }

  lemma OneMore(cfg: Config, w: World, v: World, fd: int, idx: nat, now: nat)
    requires TakenIn(cfg, w, v, fd, idx, now)
    ensures |v.conns| <= |w.conns| + 1
  {
    hide U.Encode, A.Earlier, A.Plus;
    assert v.conns.Keys == w.conns.Keys + {idx};
  }

  lemma NoMore(w: World, v: World)
    requires SentAway(w, v)
    ensures v.conns == w.conns
  {
  }

  lemma AcceptPhase(cfg: Config, w: World, fd: int, idx: nat, now: nat, mem: Mem, push: Push)
    requires ValidConfig(cfg) && Inv(cfg, w) && Enabled(w, Accept(fd, idx, now, mem, push))
    ensures Apply(cfg, w, Accept(fd, idx, now, mem, push)).phase == w.phase
  {
    BaseNow(cfg, w);
    hide Base, Inv, AcceptConn, ValidConfig;
    AcceptAction(cfg, w, fd, idx, now, mem, push);
  }

  // ----- over runs -----

  lemma FewerKeys(w: World, v: World)
    requires Calm(w, v)
    ensures |v.conns| <= |w.conns|
  {
    hide Stays;
    Fewer(v.conns.Keys, w.conns.Keys);
  }

  lemma Fewer(a: set<nat>, b: set<nat>)
    requires a <= b
    ensures |a| <= |b|
  {
    assert b == a + (b - a);
  }

  /** In every reachable state there are at most as many connections as the configuration allows. */
  lemma {:induction false} AtMostMax(cfg: Config, run: Run, k: nat)
    requires ValidConfig(cfg) && Possible(cfg, run) && k < |run.worlds|
    ensures |run.worlds[k].conns| <= cfg.maxConnections
    decreases k
  {
    hide ValidConfig, Inv, Enabled, Apply, Calm;
    if k > 0 {
      AtMostMax(cfg, run, k - 1);
      RunKeeps(cfg, run, k - 1);
      assert Next(cfg, run, k - 1);
      StepCalm(cfg, run.worlds[k - 1], run.actions[k - 1]);
      if !run.actions[k - 1].Accept? {
        FewerKeys(run.worlds[k - 1], run.worlds[k]);
      }
    }
  }

  /**
   Once a drain has begun every connection is closed or at its last request, with nothing idle left
   among them; nobody new comes in, and no connection finishes that request to begin another.
   */
  lemma {:induction false} DrainedForGood(cfg: Config, run: Run, k: nat)
    requires ValidConfig(cfg) && Possible(cfg, run) && k < |run.worlds| && run.worlds[k].phase == Draining
    ensures forall idx :: idx in run.worlds[k].conns ==> LastRequest(run.worlds[k].conns[idx])
    ensures k < |run.actions| ==>
              forall idx :: idx in run.worlds[k + 1].conns ==>
                idx in run.worlds[k].conns && run.worlds[k + 1].conns[idx].log.past == run.worlds[k].conns[idx].log.past
    decreases k
  {
    hide ValidConfig, Inv, Enabled, Apply, LastRequest;
    if k > 0 {
      RunKeeps(cfg, run, k - 1);
      assert Next(cfg, run, k - 1);
      var w, a := run.worlds[k - 1], run.actions[k - 1];
      StepCalm(cfg, w, a);
      if a.BeginDrain? {
        DrainBegun(cfg, w, a.slots);
      } else {
        DrainedForGood(cfg, run, k - 1);
      }
    }
    if k < |run.actions| {
      RunKeeps(cfg, run, k);
      assert Next(cfg, run, k);
      StepCalm(cfg, run.worlds[k], run.actions[k]);
    }
  }

  lemma DrainBegun(cfg: Config, w: World, slots: seq<nat>)
    requires ValidConfig(cfg) && Enabled(w, BeginDrain(slots))
    ensures var v := Apply(cfg, w, BeginDrain(slots)); forall idx :: idx in v.conns ==> LastRequest(v.conns[idx])
  {
    LoopApplied(cfg, w, BeginDrain(slots));
    DrainCovers(w, slots);
    hide ValidConfig, Apply, Enabled, DrainAll, LastRequest;
    DrainAllCalm(w, slots);
    hide Stays;
  }

  lemma DrainCovers(w: World, slots: seq<nat>)
    requires Enabled(w, BeginDrain(slots))
    ensures forall idx :: idx in w.conns ==> idx in slots
  {
  }
}
