/**
 Nothing is left lying: what every connection waits for, and that every turn of the event loop does
 for a connection all there is to do.
 */
module Progress {
  import opened Bytes
  import opened BodyPump
  import opened Connection
  import opened ConnectionInvariant
  import opened ConnectionFrame
  import opened EventLoop
  import opened EventLoopInvariant
  import opened EventLoopActions
  import opened EventLoopRun
  import opened EventLoopTheorems
  import C = PayloadCodec
  import U = UserData

  // ----- what a turn leaves to be done -----

  /** The response channel has been emptied, and its producer may still add to it. */
  predicate Drained(c: Conn) {
    c.resp.rx.Some? ==> c.resp.rx.value == Channel([], true)
  }

  /**
   Nothing can be done for the connection before something arrives: head bytes, body bytes, room in
   the handler's queue, the handler's answer, the next event of its response, or a completion.
   */
  predicate Quiescent(cfg: Config, c: Conn) {
    match c.state
    case Headers => c.recvPending && (c.buf == [] || cfg.parse(c.buf).IncompleteHead?)
    case Dispatching =>
      && !c.req.dispatch.Answered? && Drained(c)
      && (c.req.body.Some? ==>
            if c.recvPending then c.buf == [] && c.req.body.value.pending == [] && !C.AtEof(c.req.body.value.decoder)
            else c.req.body.value.pending != [] && c.req.payload.buffered == 32768)
    case Writing => c.writePending || (c.resp.rx.Some? && Drained(c) && Tail(c.resp) == [])
    case Closed => true
  }

  /** The same once the operation that the handler asked for is queued. */
  predicate Settles(cfg: Config, out: Outcome) {
    match out.op
    case Rest => Quiescent(cfg, out.conn)
    case ArmRecv => Quiescent(cfg, out.conn.(recvPending := true))
    case _ => true
  }

  lemma ContinueSettles(cfg: Config, c: Conn)
    requires ValidConfig(cfg) && Core(cfg, c) && c.state == Dispatching && (c.recvPending ==> Armed(cfg, c))
    requires !c.req.dispatch.Answered? && Drained(c)
    ensures Settles(cfg, ContinueBody(cfg, c))
  {
    NotSending(cfg, c);
    if !c.recvPending && c.req.body.Some? {
      PumpSettles(cfg, c);
    }
    hide Core, PumpBody, Drained;
  }

  lemma PumpSettles(cfg: Config, c: Conn)
    requires ValidConfig(cfg) && Core(cfg, c) && c.state == Dispatching && !c.recvPending && c.req.body.Some?
    requires !c.req.dispatch.Answered? && Drained(c)
    ensures C.Sound(c.req.body.value.decoder) && Settles(cfg, PumpBody(cfg, c))
  {
    hide ValidConfig, Core, Pump, Pumped, Held, Drained, SetSerialized;
    HeldNow(cfg, c);
    var start, body := c.req.framing.value, c.req.body.value;
    HeldSound(start, cfg.maxBody, c.req.raw, PumpState(body, c.req.payload, c.buf));
    PumpHeld(start, cfg.maxBody, c.req.raw, PumpState(body, c.req.payload, c.buf));
    var (s, r) := Pump(PumpState(body, c.req.payload, c.buf), cfg.maxBody);
    PumpedWaits(start, cfg.maxBody, c.req.raw, PumpState(body, c.req.payload, c.buf), s, r);
    var d := AfterPump(c, s);
    assert d.resp == c.resp && d.state == c.state && d.req.dispatch == c.req.dispatch && d.recvPending == c.recvPending;
    assert d.req.body == Some(s.body) && d.buf == s.buf && d.req.payload == s.payload;
    var out := BodyResult(cfg, d, r);
    SameDrained(c, out.conn);
    SameDrained(c, out.conn.(recvPending := true));
    assert PumpBody(cfg, c) == out;
  }

  lemma SameDrained(c: Conn, d: Conn)
    ensures d.resp == c.resp ==> Drained(d) == Drained(c)
  {
  }

  lemma HeldNow(cfg: Config, c: Conn)
    requires Core(cfg, c) && c.state == Dispatching && c.req.body.Some?
    ensures c.req.framing.Some?
    ensures Held(c.req.framing.value, cfg.maxBody, c.req.raw, PumpState(c.req.body.value, c.req.payload, c.buf))
  {
    hide Held, StreamOk, ReplyOk, InputOk, MemOk, SendOk, QueueOk, DeliveredOk, BodyComplete;
    HeldAnyBuf(c.req.framing.value, cfg.maxBody, c.req.raw, PumpState(c.req.body.value, c.req.payload, []), c.buf);
  }

  lemma PumpedWaits(start: C.Kind, maxBody: nat, raw: seq<byte>, s: PumpState, t: PumpState, r: PumpResult)
    requires Pumped(start, maxBody, raw, s, t, r)
    ensures r == NeedRecv ==> t.buf == [] && t.body.pending == [] && !C.AtEof(t.body.decoder)
    ensures r == Blocked ==> t.payload.buffered == 32768 && t.body.pending != []
  {
    hide Conserved, Delivered, QueueOk;
  }

  lemma AfterDispatchSettles(cfg: Config, c: Conn)
    requires ValidConfig(cfg) && Core(cfg, c) && c.state == Dispatching && !c.recvPending && c.resp == NO_RESPONSE
    requires !c.req.dispatch.Answered?
    ensures Settles(cfg, AfterDispatch(cfg, c))
  {
    hide ValidConfig, Core, ContinueBody, Settles;
    NotSending(cfg, c);
    ContinueSettles(cfg, c);
    assert c.(fault := c.fault || false) == c;
  }

  lemma HeadSettles(cfg: Config, c: Conn, env: Env)
    requires ValidConfig(cfg) && EnvOk(env) && Core(cfg, c) && c.state == Headers && !c.recvPending && !c.writePending
    ensures Settles(cfg, ProcessHead(cfg, c, env))
  {
    hide Core, AfterDispatch, SetSerialized, ClearBuf, Drained;
    match cfg.parse(c.buf)
    case Parsed(h) =>
      StartRequestKeeps(cfg, c, h);
      var d := StartRequest(c, h);
      InterimKeeps(cfg, d, env.interim);
      AfterDispatchSettles(cfg, if h.expectContinue then SendInterim(d, env.interim) else d);
    case _ =>
  }

  lemma AfterResponseSettles(cfg: Config, c: Conn, w: WriteResult, env: Env)
    requires ValidConfig(cfg) && EnvOk(env) && (w == RecvNext || w == CloseNow)
    requires w == RecvNext ==> Core(cfg, c) && c.state == Headers && !c.recvPending && !c.writePending
    ensures Settles(cfg, AfterResponse(cfg, c, w, env))
  {
    hide ValidConfig, Core, ProcessHead;
    if w == RecvNext {
      HeadSettles(cfg, c, env);
    }
  }

  lemma AdvanceResponseSettles(cfg: Config, c: Conn, env: Env)
    requires ValidConfig(cfg) && EnvOk(env) && Core(cfg, c)
    requires c.state == Dispatching || (c.state == Writing && (c.writePending || (Tail(c.resp) == [] && c.resp.rx.Some?)))
    ensures var out := AdvanceResponse(cfg, c, env);
            if c.state == Dispatching && out.op == Rest then out.conn == c.(resp := out.conn.resp) && Drained(out.conn)
            else Settles(cfg, out)
  {
    hide EnvOk, Core, PollResponse, Owes, Pollable, ReplyReady, Closable, OnWrite, AfterResponse, SetSerialized, Tail;
    if c.state == Dispatching {
      TailOfIdle(cfg, c);
    }
    if !c.writePending {
      PollableNow(cfg, c);
      PollKeeps(cfg, c);
      PollState(c);
      var (d, p) := PollResponse(c);
      if p == Pending {
        PollableFacts(cfg, d);
        WaitsForMore(cfg, d);
      } else if p == Complete {
        CompleteSettles(cfg, d, env);
      }
    }
  }

  lemma WaitsForMore(cfg: Config, d: Conn)
    requires Pollable(cfg, d) && Drained(d)
    ensures d.state == Writing ==> Quiescent(cfg, d)
  {
    hide Core, Tail;
  }

  lemma CompleteSettles(cfg: Config, d: Conn, env: Env)
    requires ValidConfig(cfg) && EnvOk(env) && Core(cfg, d) && d.state == Writing && !d.writePending
    requires Tail(d.resp) == [] && d.resp.done
    ensures var (e, w) := OnWrite(d, 0, env.now); Settles(cfg, AfterResponse(cfg, e, w, env))
  {
    hide ValidConfig, Core, Closable, Owes, AfterResponse, Tail, Settles, Reset;
    AfterWrite(cfg, d, env.now);
    var (e, w) := OnWrite(d, 0, env.now);
    AfterResponseSettles(cfg, e, w, env);
  }

  /** A turn of a dispatching connection does all there is to do. */
  lemma DispatchSettles(cfg: Config, c: Conn, env: Env)
    requires ValidConfig(cfg) && EnvOk(env) && Core(cfg, c) && c.state == Dispatching && (c.recvPending ==> Armed(cfg, c))
    ensures Settles(cfg, AdvanceDispatching(cfg, c, env))
  {
    hide ValidConfig, EnvOk, Core, StartResponse, AdvanceResponse, ContinueBody, Starved, Settles, Drained;
    if c.req.dispatch.Answered? {
      StartResponseKeeps(cfg, c, c.req.dispatch.closes);
      StartResponseBody(c, c.req.dispatch.closes);
      StartResponseIdle(c, c.req.dispatch.closes);
    }
    var d := if c.req.dispatch.Answered? then StartResponse(c, c.req.dispatch.closes) else c;
    AdvanceResponseSettles(cfg, d, env);
    AdvanceResponseKeeps(cfg, d, env);
    var out := AdvanceResponse(cfg, d, env);
    if out.op == Rest && out.conn.state == Dispatching {
      SameStarved(c, out.conn);
      ContinueSettles(cfg, out.conn);
    }
  }

  lemma StartResponseIdle(c: Conn, closes: bool)
    ensures StartResponse(c, closes).req.dispatch == Idle && StartResponse(c, closes).state == c.state
  {
  }

  lemma SendSettles(cfg: Config, c: Conn, res: Option<nat>, env: Env)
    requires ValidConfig(cfg) && EnvOk(env) && Core(cfg, c) && Armed(cfg, c) && c.writePending
    requires res.Some? ==> res.value <= |Tail(c.resp)|
    ensures var n := if res.Some? then res.value else 0;
            var out := HandleSend(cfg, OnWire(c, Tail(c.resp)[..n]), res, env);
            Settles(cfg, out) && out.op != CancelRecv
  {
    hide ValidConfig, Core, Armed, OnWire, OnWrite, AdvanceResponse, AfterResponse, Tail, Settles;
    SendIdle(cfg, c);
    var e := c.(writePending := false);
    var n := if res.Some? then res.value else 0;
    OnWireWaiting(c, Tail(c.resp)[..n]);
    if c.state == Writing && res.Some? {
      OnWriteKeeps(cfg, e, n, env.now);
      var (d, w) := OnWrite(OnWire(e, Tail(e.resp)[..n]), n, env.now);
      if w == AwaitResponse {
        AdvanceResponseSettles(cfg, d, env);
        NoCancel(cfg, d, env);
      } else if w != WriteMore {
        AfterResponseSettles(cfg, d, w, env);
        NoCancelAfter(cfg, d, w, env);
      }
    }
    OtherSettles(cfg, HandleSend(cfg, OnWire(c, Tail(c.resp)[..n]), res, env));
  }

  lemma OtherSettles(cfg: Config, out: Outcome)
    ensures out.op != Rest && out.op != ArmRecv ==> Settles(cfg, out)
  {
    hide Quiescent;
  }

  lemma NoCancelAfter(cfg: Config, c: Conn, w: WriteResult, env: Env)
    requires ValidConfig(cfg)
    ensures AfterResponse(cfg, c, w, env).op != CancelRecv
  {
    hide Pump, ValidConfig, SetSerialized, ClearBuf, SendInterim, StartRequest, ExceedsLimit, AfterPump;
  }

  lemma NoCancel(cfg: Config, c: Conn, env: Env)
    requires ValidConfig(cfg)
    ensures AdvanceResponse(cfg, c, env).op != CancelRecv
  {
    hide PollResponse, OnWrite, AfterResponse, ValidConfig, SetSerialized;
    var (d, p) := PollResponse(c);
    var (e, w) := OnWrite(d, 0, env.now);
    NoCancelAfter(cfg, e, w, env);
  }

  lemma NoCancelDispatch(cfg: Config, c: Conn, env: Env)
    requires ValidConfig(cfg)
    ensures AdvanceDispatching(cfg, c, env).op != CancelRecv
  {
    hide AdvanceResponse, ValidConfig, StartResponse, Pump, SetSerialized, AfterPump;
    NoCancel(cfg, if c.req.dispatch.Answered? then StartResponse(c, c.req.dispatch.closes) else c, env);
  }

  /** Bytes for a head or a body are acted on at once. */
  lemma RecvSettles(cfg: Config, c: Conn, res: Option<seq<byte>>, env: Env)
    requires ValidConfig(cfg) && EnvOk(env) && Core(cfg, c) && Armed(cfg, c) && c.recvPending && c.state != Writing
    requires res.Some? ==> |res.value| <= c.recvTarget.value.len
    ensures var out := HandleRecv(cfg, c, res, env); Settles(cfg, out) && out.op != CancelRecv
  {
    hide ValidConfig, EnvOk, Core, Armed, CommitRecv, CommitOk, ProcessHead, AdvanceDispatching, SetSerialized, LoseRecv, Quiescent;
    RecvFlags(cfg, c);
    if c.state == Dispatching {
      TailOfIdle(cfg, c);
    }
    if c.state != Closed && !c.timeoutError && res.Some? {
      CommitKeeps(cfg, c, res.value);
      var d := CommitRecv(c.(recvPending := false), res.value);
      if c.state == Headers {
        NoSend(cfg, c);
        HeadSettles(cfg, d, env);
        NoCancelHead(cfg, d, env);
      } else if c.state == Dispatching {
        DispatchSettles(cfg, d, env);
        NoCancelDispatch(cfg, d, env);
      }
    }
  }

  lemma NoCancelHead(cfg: Config, c: Conn, env: Env)
    requires ValidConfig(cfg)
    ensures ProcessHead(cfg, c, env).op != CancelRecv
  {
    hide Pump, ValidConfig, SetSerialized, ClearBuf, SendInterim, StartRequest, ExceedsLimit, AfterPump;
  }

  // ----- over runs -----

  lemma SameQuiescent(cfg: Config, c: Conn, d: Conn)
    requires d.state == c.state && d.req == c.req && d.resp == c.resp && d.buf == c.buf
    requires d.recvPending == c.recvPending && d.writePending == c.writePending
    ensures Quiescent(cfg, d) == Quiescent(cfg, c)
  {
    hide Tail;
  }

  lemma PreparedSame(c: Conn, base: nat, extra: nat)
    ensures var d := PrepareRecv(c, base, extra);
            && d.state == c.state && d.req == c.req && d.resp == c.resp && d.buf == c.buf && d.writePending == c.writePending
            && d.recvTarget.Some?
  {
  }

  lemma PerformSettles(cfg: Config, w: World, idx: nat, out: Outcome, push: Push)
    requires Owes(cfg, out) && Settles(cfg, out) && out.op != CancelRecv
    ensures var v := Perform(w, idx, out, push); idx in v.conns ==> Quiescent(cfg, v.conns[idx])
  {
    hide Core, Closable, CloseConn, Quiescent, Unfinished, Starved, U.Encode, Tail, SendLength, PrepareRecv, SentWhole;
    var c := out.conn;
    var d := PrepareRecv(c, push.base, push.extra);
    PreparedSame(c, push.base, push.extra);
    SameQuiescent(cfg, c.(recvPending := true), d.(recvPending := true));
    ClosedAfter(Put(w, idx, c), idx, if out.op.Shut? then out.op.why else IoError);
    ClosedAfter(Put(w, idx, c.(fault := true)), idx, IoError);
    ClosedAfter(Put(w, idx, d.(recvTarget := None)), idx, IoError);
    ClosedIsQuiescent(cfg);
    SendingIsQuiescent(cfg, c.(writePending := true));
  }

  lemma ClosedIsQuiescent(cfg: Config)
    ensures forall c: Conn :: c.state == Closed ==> Quiescent(cfg, c)
  {
    hide Tail;
  }

  lemma SendingIsQuiescent(cfg: Config, c: Conn)
    ensures c.state == Writing && c.writePending ==> Quiescent(cfg, c)
  {
    hide Tail;
  }

  lemma RefreshSettles(cfg: Config, w: World, idx: nat)
    ensures var v := Refresh(cfg, w, idx);
            idx in v.conns ==> idx in w.conns && Quiescent(cfg, v.conns[idx]) == Quiescent(cfg, w.conns[idx])
  {
    hide DeadlineOf, Enter, Quiescent;
    if idx in w.conns {
      SameQuiescent(cfg, w.conns[idx], Retime(cfg, w.conns[idx]));
    }
  }

  lemma TurnSettled(cfg: Config, w: World, idx: nat, out: Outcome, push: Push)
    requires Owes(cfg, out) && Settles(cfg, out) && out.op != CancelRecv
    ensures var v := Refresh(cfg, Perform(w, idx, out, push), idx); idx in v.conns ==> Quiescent(cfg, v.conns[idx])
  {
    hide Owes, Settles, Perform, Refresh, Quiescent;
    PerformSettles(cfg, w, idx, out, push);
    RefreshSettles(cfg, Perform(w, idx, out, push), idx);
  }

  /** The action looks at the connection in the slot and does for it what can be done. */
  predicate LooksAt(w: World, a: Action, idx: nat)
    requires idx in w.conns
  {
    match a
    case TurnDispatch(i, _, _) => i == idx && w.conns[idx].state == Dispatching
    case TurnResponse(i, _, _) => i == idx
    case SendDone(u, _, _, _) => U.SlotOf(u) == idx
    case RecvDone(u, _, _, _) => U.SlotOf(u) == idx && w.conns[idx].state != Writing
    case _ => false
  }

  lemma LookedAt(cfg: Config, w: World, a: Action, idx: nat)
    requires ValidConfig(cfg) && Inv(cfg, w) && Enabled(w, a) && Handling(w) && idx in w.conns && LooksAt(w, a, idx)
    ensures var v := Apply(cfg, w, a); idx in v.conns ==> Quiescent(cfg, v.conns[idx])
  {
    hide ValidConfig, Inv, Base, Quiescent, Enabled, Apply, U.SlotOf;
    BaseNow(cfg, w);
    match a {
      case TurnDispatch(_, env, push) => DispatchLooked(cfg, w, idx, env, push);
      case TurnResponse(_, env, push) => ResponseLooked(cfg, w, idx, env, push);
      case SendDone(u, n, env, push) => SendLooked(cfg, w, u, n, env, push);
      case RecvDone(u, r, env, push) => RecvLooked(cfg, w, u, r, env, push);
      case _ =>
    }
  }

  lemma DispatchLooked(cfg: Config, w: World, idx: nat, env: Env, push: Push)
    requires ValidConfig(cfg) && Base(cfg, w) && Enabled(w, TurnDispatch(idx, env, push)) && w.conns[idx].state == Dispatching
    ensures var v := Apply(cfg, w, TurnDispatch(idx, env, push)); idx in v.conns ==> Quiescent(cfg, v.conns[idx])
  {
    SeatOf(cfg, w, idx);
    hide ValidConfig, EnvOk, Base, Core, Armed, KernelOk, SocketsOk, TimerOk, Owes, Settles, Perform, Refresh, AdvanceDispatching,
         Quiescent;
    DispatchSettles(cfg, w.conns[idx], env);
    AdvanceDispatchingKeeps(cfg, w.conns[idx], env);
    NoCancelDispatch(cfg, w.conns[idx], env);
    TurnSettled(cfg, w, idx, AdvanceDispatching(cfg, w.conns[idx], env), push);
  }

  lemma ResponseLooked(cfg: Config, w: World, idx: nat, env: Env, push: Push)
    requires ValidConfig(cfg) && Base(cfg, w) && Enabled(w, TurnResponse(idx, env, push))
    ensures var v := Apply(cfg, w, TurnResponse(idx, env, push)); idx in v.conns ==> Quiescent(cfg, v.conns[idx])
  {
    SeatOf(cfg, w, idx);
    WritingWaits(cfg, w.conns[idx]);
    hide ValidConfig, EnvOk, Base, Core, Armed, KernelOk, SocketsOk, TimerOk, Owes, Settles, Perform, Refresh, AdvanceResponse,
         Quiescent, Tail;
    AdvanceResponseSettles(cfg, w.conns[idx], env);
    AdvanceResponseKeeps(cfg, w.conns[idx], env);
    NoCancel(cfg, w.conns[idx], env);
    TurnSettled(cfg, w, idx, AdvanceResponse(cfg, w.conns[idx], env), push);
  }

  lemma WritingWaits(cfg: Config, c: Conn)
    requires Armed(cfg, c) && c.state == Writing && !c.writePending
    ensures Tail(c.resp) == []
  {
    hide Tail;
  }

  lemma SendLooked(cfg: Config, w: World, u: nat, n: Option<nat>, env: Env, push: Push)
    requires ValidConfig(cfg) && Base(cfg, w) && Handling(w) && Enabled(w, SendDone(u, n, env, push))
    ensures var v := Apply(cfg, w, SendDone(u, n, env, push));
            U.SlotOf(u) in v.conns ==> Quiescent(cfg, v.conns[U.SlotOf(u)])
  {
    hide ValidConfig, EnvOk, Base, Core, Armed, KernelOk, SocketsOk, TimerOk, Owes, Settles, Quiescent;
    hide U.Encode, U.Decode, U.SlotOf, Perform, Refresh, HandleSend, CompleteSend, OnWire, Tail, SendLength;
    Owner(cfg, w, u);
    var idx := U.SlotOf(u);
    var c := w.conns[idx];
    SeatOf(cfg, w, idx);
    SendingOf(w, u, c);
    TakenOfTail(c, w.inflight[u].data, n);
    SendFound(cfg, Forget(w, u), u, w.inflight[u].data, n, env, push);
    HandleSendKeeps(cfg, c, n, env);
    SendSettles(cfg, c, n, env);
    var out := HandleSend(cfg, OnWire(c, if n.Some? then w.inflight[u].data[..n.value] else []), n, env);
    TurnSettled(cfg, Forget(w, u), idx, out, push);
  }

  lemma SendingOf(w: World, u: nat, c: Conn)
    requires u in w.inflight && w.inflight[u].SendSqe? && KernelOk(w, U.SlotOf(u), c)
    ensures w.inflight[u].data == Tail(c.resp)[..SendLength(Tail(c.resp))]
  {
    hide U.Encode, U.SlotOf, Tail, SendLength;
  }

  lemma RecvLooked(cfg: Config, w: World, u: nat, r: Option<seq<byte>>, env: Env, push: Push)
    requires ValidConfig(cfg) && Base(cfg, w) && Handling(w) && Enabled(w, RecvDone(u, r, env, push))
    requires U.SlotOf(u) in w.conns && w.conns[U.SlotOf(u)].state != Writing
    ensures var v := Apply(cfg, w, RecvDone(u, r, env, push));
            U.SlotOf(u) in v.conns ==> Quiescent(cfg, v.conns[U.SlotOf(u)])
  {
    hide ValidConfig, EnvOk, Base, Core, Armed, KernelOk, SocketsOk, TimerOk, Owes, Settles, Quiescent;
    hide U.Encode, U.Decode, U.SlotOf, Perform, Refresh, HandleRecv, CompleteRecv;
    Owner(cfg, w, u);
    var idx := U.SlotOf(u);
    var c := w.conns[idx];
    SeatOf(cfg, w, idx);
    ReceivingOf(w, u, c);
    RecvFound(cfg, Forget(w, u), u, r, env, push);
    HandleRecvKeeps(cfg, c, r, env);
    RecvSettles(cfg, c, r, env);
    TurnSettled(cfg, Forget(w, u), idx, HandleRecv(cfg, c, r, env), push);
  }

  lemma ReceivingOf(w: World, u: nat, c: Conn)
    requires u in w.inflight && w.inflight[u].RecvSqe? && KernelOk(w, U.SlotOf(u), c)
    ensures c.recvTarget.Some? && w.inflight[u].target == c.recvTarget.value
  {
    hide U.Encode, U.SlotOf, Tail, SendLength;
  }

  /**
   In every step of every run that looks at a connection, all is done for it that can be done: what
   is left of it afterwards waits for something to arrive, and has acted on all that has.
   */
  lemma TurnsSettle(cfg: Config, run: Run, k: nat, idx: nat)
    requires ValidConfig(cfg) && Possible(cfg, run) && k < |run.actions| && Handling(run.worlds[k])
    requires idx in run.worlds[k].conns && LooksAt(run.worlds[k], run.actions[k], idx)
    ensures var v := run.worlds[k + 1]; idx in v.conns ==> Quiescent(cfg, v.conns[idx])
  {
    RunKeeps(cfg, run, k);
    assert Next(cfg, run, k);
    hide Possible, ValidConfig, Inv, Enabled, Apply, LooksAt, Quiescent;
    LookedAt(cfg, run.worlds[k], run.actions[k], idx);
  }

  /**
   In every reachable state a connection that reads a head has a RECV in flight and no complete head
   in its buffer; one whose request body is still being read either has a RECV in flight, with all
   input decoded and passed on, or holds decoded bytes back for want of room. At most four events
   of a response are queued.
   */
  lemma EveryoneWaits(cfg: Config, run: Run, k: nat, idx: nat)
    requires ValidConfig(cfg) && Possible(cfg, run) && k < |run.worlds| && idx in Slots(run.worlds[k])
    ensures var c := Slots(run.worlds[k])[idx];
            && (c.state == Headers ==> c.recvPending && (c.buf == [] || cfg.parse(c.buf).IncompleteHead?))
            && (c.state == Dispatching && c.req.body.Some? ==>
                  if c.recvPending then c.buf == [] && c.req.body.value.pending == [] && !C.AtEof(c.req.body.value.decoder)
                  else c.req.body.value.pending != [])
            && (c.state == Writing ==> c.writePending || (c.resp.rx.Some? && Tail(c.resp) == []))
            && (c.resp.rx.Some? ==> |c.resp.rx.value.queue| <= 4)
  {
    hide Possible, ValidConfig, Inv, Base, Core, Tail;
    RunKeeps(cfg, run, k);
    BaseOf(cfg, run.worlds[k]);
    SlotCore(cfg, Settle(run.worlds[k]), idx);
    QueueBounded(cfg, Slots(run.worlds[k])[idx]);
  }

  lemma QueueBounded(cfg: Config, c: Conn)
    requires Core(cfg, c)
    ensures c.resp.rx.Some? ==> |c.resp.rx.value.queue| <= 4
  {
  }
}
