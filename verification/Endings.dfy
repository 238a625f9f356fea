/**
 How connections end. A socket is closed before its last response was sent whole only for a cause
 that lies with the peer, the kernel, the producer, a timeout or the end of the server; whatever
 else closes it comes after all its responses went out to their end.
 */
module Endings {
  import opened Bytes
  import opened BodyPump
  import opened Connection
  import opened ConnectionInvariant
  import opened ConnectionFrame
  import opened EventLoop
  import opened EventLoopInvariant
  import opened EventLoopActions
  import opened EventLoopRun
  import opened EventLoopTheorems
  import P = Replies
  import R = ResponseStream
  import U = UserData

  // ----- what may cut a response short -----

  function Events(c: Conn): seq<StreamEvent> {
    if c.log.reply.final.Streamed? then c.log.reply.final.events else []
  }

  /** The producer failed, or went away without finishing. */
  predicate Broke(c: Conn) {
    c.resp.rx.Some? && (StreamError in Events(c) || (!c.resp.rx.value.open && StreamDone !in Events(c)))
  }

  /** The action is a cause to close the connection in slot `idx` whatever became of its response. */
  predicate Excused(cfg: Config, w: World, a: Action, idx: nat)
    requires idx in w.conns
  {
    var c := w.conns[idx];
    match a
    case RecvDone(u, r, env, push) =>
      U.SlotOf(u) == idx && (r.None? || r.value == [] || !env.built || !push.room || Broke(c))
    case SendDone(u, n, env, push) => U.SlotOf(u) == idx && (n.None? || !env.built || !push.room || Broke(c))
    case Sweep(i, now, _) => i == idx && Expired(cfg, c, now)
    case TurnDispatch(i, env, push) => i == idx && (!env.built || !push.room || Broke(c))
    case TurnResponse(i, env, push) => i == idx && (!env.built || !push.room || Broke(c))
    case BeginDrain(_) => c.state == Headers && c.buf == []
    case BeginTeardown(_) => true
    case _ => false
  }

  // ----- handlers -----

  /** The connection is to be closed although its response did not end. */
  predicate Cuts(out: Outcome) {
    out.op.Shut? && out.op.why != ResponseEnded
  }

  lemma ContinueCuts(cfg: Config, c: Conn)
    ensures !Cuts(ContinueBody(cfg, c)) && !Cuts(AfterDispatch(cfg, c))
  {
    hide Pump;
  }

  lemma ProcessHeadCuts(cfg: Config, c: Conn, env: Env)
    requires ValidConfig(cfg)
    ensures Cuts(ProcessHead(cfg, c, env)) ==> !env.built
  {
    hide AfterDispatch, ClearBuf, SetSerialized, StartRequest, SendInterim;
    match cfg.parse(c.buf)
    case IncompleteHead =>
    case BadHead(e) =>
    case Parsed(h) =>
      if !ExceedsLimit(h, cfg.maxBody) {
        var d := StartRequest(c, h);
        ContinueCuts(cfg, if h.expectContinue then SendInterim(d, env.interim) else d);
      }
  }

  lemma AfterResponseCuts(cfg: Config, c: Conn, w: WriteResult, env: Env)
    requires ValidConfig(cfg)
    ensures Cuts(AfterResponse(cfg, c, w, env)) ==> !env.built
  {
    hide ProcessHead;
    ProcessHeadCuts(cfg, c, env);
  }

  /** A stream that fails is one whose producer failed or went away. */
  lemma PollCuts(c: Conn)
    requires ReplyOk(c) && !c.resp.failed
    ensures PollResponse(c).1 == StreamFailed ==> Broke(c)
  {
    if c.resp.rx.Some? {
      var events, ch := Events(c), c.resp.rx.value;
      SkipBehind(events, ch.queue);
      var q := SkipEmpty(ch.queue);
      hide SkipEmpty, StartWriting, RepliesOk, EndsWell;
      if q == [] {
        assert StreamDone !in events;
      } else {
        assert q[0] == events[|events| - |q|..][0] == events[|events| - |q|];
      }
    }
  }

  lemma NotFailed(cfg: Config, c: Conn)
    requires Core(cfg, c) && (c.state == Dispatching || c.state == Writing)
    ensures !c.resp.failed && ReplyOk(c)
  {
  }

  lemma AdvanceResponseCuts(cfg: Config, c: Conn, env: Env)
    requires ValidConfig(cfg) && ReplyOk(c) && !c.resp.failed
    ensures Cuts(AdvanceResponse(cfg, c, env)) ==> !env.built || Broke(c)
  {
    hide PollResponse, OnWrite, AfterResponse, SetSerialized, ValidConfig, Broke, ReplyOk;
    if !c.writePending {
      PollCuts(c);
      var (d, p) := PollResponse(c);
      if p == Complete {
        var (e, w) := OnWrite(d, 0, env.now);
        AfterResponseCuts(cfg, e, w, env);
      }
    }
  }

  /** A response that has just begun is not broken. */
  lemma StartsUnbroken(cfg: Config, c: Conn)
    requires Core(cfg, c) && c.state == Dispatching && c.req.dispatch.Answered?
    ensures var d := StartResponse(c, c.req.dispatch.closes);
            ReplyOk(d) && !d.resp.failed && !Broke(d)
  {
    StartResponseKeeps(cfg, c, c.req.dispatch.closes);
    NotFailed(cfg, StartResponse(c, c.req.dispatch.closes));
    NoEvents(cfg, c);
    hide Core, ReplyOk;
  }

  lemma NoEvents(cfg: Config, c: Conn)
    requires Core(cfg, c) && c.state == Dispatching && c.req.dispatch.Answered?
    ensures Events(c) == []
  {
  }

  lemma AdvanceDispatchingCuts(cfg: Config, c: Conn, env: Env)
    requires ValidConfig(cfg) && Core(cfg, c)
    ensures Cuts(AdvanceDispatching(cfg, c, env)) ==> !env.built || Broke(c)
  {
    hide Core, AdvanceResponse, ContinueBody, StartResponse, Broke, ReplyOk;
    if c.state == Dispatching {
      NotFailed(cfg, c);
      if c.req.dispatch.Answered? {
        StartsUnbroken(cfg, c);
      }
      var d := if c.req.dispatch.Answered? then StartResponse(c, c.req.dispatch.closes) else c;
      AdvanceResponseCuts(cfg, d, env);
      ContinueCuts(cfg, AdvanceResponse(cfg, d, env).conn);
    }
  }

  lemma HandleRecvCuts(cfg: Config, c: Conn, res: Option<seq<byte>>, env: Env)
    requires ValidConfig(cfg) && Core(cfg, c) && c.recvPending
    requires res.Some? ==> |res.value| <= c.recvTarget.value.len
    ensures Cuts(HandleRecv(cfg, c, res, env)) ==> res.None? || res.value == [] || !env.built || Broke(c)
  {
    hide Core, ProcessHead, AdvanceDispatching, SetSerialized, LoseRecv, ValidConfig, Broke;
    if c.state != Closed && !c.timeoutError && res.Some? {
      CommitKeeps(cfg, c, res.value);
      var d := CommitRecv(c.(recvPending := false), res.value);
      ProcessHeadCuts(cfg, d, env);
      AdvanceDispatchingCuts(cfg, d, env);
      SameBreak(c, d);
    }
  }

  lemma SameBreak(c: Conn, d: Conn)
    requires d.resp.rx == c.resp.rx && d.log.reply.final == c.log.reply.final
    ensures Broke(d) == Broke(c)
  {
  }

  lemma HandleSendCuts(cfg: Config, c: Conn, n: nat, taken: Option<nat>, env: Env)
    requires ValidConfig(cfg) && Core(cfg, c) && c.writePending && n == (if taken.Some? then taken.value else 0)
    requires n <= |Tail(c.resp)|
    ensures Cuts(HandleSend(cfg, OnWire(c, Tail(c.resp)[..n]), taken, env)) ==> taken.None? || !env.built || Broke(c)
  {
    if c.state != Closed && taken.Some? {
      SendIdle(cfg, c);
      var e := c.(writePending := false);
      OnWireWaiting(c, Tail(c.resp)[..n]);
      AwaitsUnbroken(cfg, e, n, env.now);
      hide Core, OnWrite, OnWire, AdvanceResponse, AfterResponse, ReplyOk, Broke, ValidConfig, Tail;
      SameBreak(c, e);
      var (d, w) := OnWrite(OnWire(e, Tail(c.resp)[..n]), n, env.now);
      if w == AwaitResponse {
        AdvanceResponseCuts(cfg, d, env);
      } else {
        AfterResponseCuts(cfg, d, w, env);
      }
    }
    hide Core, OnWrite, OnWire, AdvanceResponse, AfterResponse, ReplyOk, Broke, ValidConfig, Tail;
    OnWireWaiting(c, Tail(c.resp)[..n]);
  }

  lemma AwaitsUnbroken(cfg: Config, e: Conn, n: nat, now: nat)
    requires Core(cfg, e) && e.state == Writing && !e.writePending && n <= |Tail(e.resp)|
    ensures var (d, w) := OnWrite(OnWire(e, Tail(e.resp)[..n]), n, now);
            w == AwaitResponse ==> ReplyOk(d) && !d.resp.failed && Broke(d) == Broke(e)
  {
    OnWriteKeeps(cfg, e, n, now);
    var (d, w) := OnWrite(OnWire(e, Tail(e.resp)[..n]), n, now);
    if w == AwaitResponse {
      NotFailed(cfg, d);
      AwaitsSame(OnWire(e, Tail(e.resp)[..n]), n, now);
      SameBreak(e, d);
    }
    hide Core, OnWrite, Broke, ReplyOk;
  }

  lemma AwaitsSame(c: Conn, n: nat, now: nat)
    ensures var (d, w) := OnWrite(c, n, now);
            w == AwaitResponse ==> d.resp.rx == c.resp.rx && d.log == c.log
  {
  }

  // ----- the event loop -----

  /** Of the sockets that were open, those closed by now ended with their response or are excused. */
  ghost predicate Ends(w: World, v: World, excused: set<nat>) {
    || v.fault
    || forall s :: s in w.live && s !in v.live ==> s in v.ended && (v.ended[s].why == ResponseEnded || s in excused)
  }

  function SerialAt(w: World, fd: int): set<nat> {
    if fd in w.open then {w.open[fd].serial} else {}
  }

  lemma EndsSame(w: World, v: World, x: World, excused: set<nat>)
    requires Ends(w, v, excused) && x.live == v.live && x.ended == v.ended && x.fault == v.fault
    ensures Ends(w, x, excused)
  {
  }

  lemma EndsFrom(w: World, x: World, v: World, excused: set<nat>)
    requires Ends(w, v, excused) && (forall s :: s in x.live ==> s in w.live)
    ensures Ends(x, v, excused)
  {
  }

  lemma EndsMore(w: World, v: World, some: set<nat>, all: set<nat>)
    requires Ends(w, v, some) && some <= all
    ensures Ends(w, v, all)
  {
  }

  lemma EndsThen(w: World, v: World, x: World, excused: set<nat>)
    requires Ends(w, v, excused) && Ends(v, x, excused) && Grows(v, x)
    ensures Ends(w, x, excused)
  {
  }

  lemma EndFdEnds(w: World, fd: int, end: Ended)
    ensures Ends(w, EndFd(w, fd, end), if end.why == ResponseEnded then {} else SerialAt(w, fd))
  {
    EndFdIs(w, fd, end);
    hide EndFd;
  }

  lemma EndsSelf(w: World)
    ensures Ends(w, w, {})
  {
  }

  function Claimed(w: World, fd: int, cut: bool): set<nat> {
    if cut then SerialAt(w, fd) else {}
  }

  lemma CloseEnds(w: World, idx: nat, why: CloseReason)
    requires idx in w.conns
    ensures Ends(w, CloseConn(w, idx, why), Claimed(w, w.conns[idx].fd, why != ResponseEnded))
  {
    hide EndFd, MarkClosed, Ends, SerialAt;
    var c := w.conns[idx];
    EndFdEnds(w, c.fd, Ended(c.log, why));
    EndsSelf(w);
    EndsMore(w, w, {}, Claimed(w, c.fd, why != ResponseEnded));
    var v := if 0 <= c.fd then EndFd(w, c.fd, Ended(c.log, why)) else w;
    EndsSame(w, v, CloseConn(w, idx, why), Claimed(w, c.fd, why != ResponseEnded));
  }

  lemma CloseWithEnds(w: World, idx: nat, c: Conn, why: CloseReason)
    ensures Ends(w, CloseConn(Put(w, idx, c), idx, why), Claimed(w, c.fd, why != ResponseEnded))
  {
    CloseEnds(Put(w, idx, c), idx, why);
    hide CloseConn, Ends;
    EndsFrom(Put(w, idx, c), w, CloseConn(Put(w, idx, c), idx, why), Claimed(w, c.fd, why != ResponseEnded));
  }

  lemma SlotEnds(w: World, idx: nat, c: Conn, u: nat, sqe: Sqe)
    ensures Ends(w, Put(w, idx, c), {}) && Ends(w, Submit(Put(w, idx, c), u, sqe), {})
    ensures Ends(w, ReleaseIfIdle(Put(w, idx, c), idx), {})
  {
  }

  /** What performing an operation may cut short. */
  function CutBy(w: World, out: Outcome, push: Push): set<nat> {
    Claimed(w, out.conn.fd, Cuts(out) || !push.room)
  }

  lemma SubmitRecvEnds(w: World, idx: nat, c: Conn, push: Push)
    requires !c.recvPending && 0 <= c.fd
    ensures Ends(w, SubmitRecv(w, idx, c, push), Claimed(w, c.fd, !push.room))
  {
    hide CloseConn, Put, Submit, U.Encode, Ends, SerialAt;
    PrepareTargets(c, push.base, push.extra);
    var d := PrepareRecv(c, push.base, push.extra);
    CloseWithEnds(w, idx, d.(recvTarget := None), IoError);
    SlotEnds(w, idx, d.(recvPending := true), U.Encode(U.Recv, idx, c.generation), RecvSqe(c.fd, d.recvTarget.value));
  }

  lemma SubmitWriteEnds(w: World, idx: nat, c: Conn, push: Push)
    requires !c.writePending && 0 <= c.fd && Tail(c.resp) != []
    ensures Ends(w, SubmitWrite(w, idx, c, push), Claimed(w, c.fd, !push.room))
  {
    hide CloseConn, Put, Submit, U.Encode, Ends, SerialAt, Tail, SendLength;
    SendFits(Tail(c.resp));
    CloseWithEnds(w, idx, c, IoError);
    SlotEnds(w, idx, c.(writePending := true), U.Encode(U.Write, idx, c.generation),
             SendSqe(c.fd, Tail(c.resp)[..SendLength(Tail(c.resp))]));
  }

  lemma OwesQueue(cfg: Config, out: Outcome)
    requires Owes(cfg, out)
    ensures out.op == ArmRecv ==> !out.conn.recvPending && 0 <= out.conn.fd
    ensures out.op == ArmSend ==> !out.conn.writePending && 0 <= out.conn.fd && Tail(out.conn.resp) != []
  {
  }

  lemma PerformEnds(cfg: Config, w: World, idx: nat, out: Outcome, push: Push)
    requires Owes(cfg, out)
    ensures Ends(w, Perform(w, idx, out, push), CutBy(w, out, push))
  {
    hide CloseConn, SubmitRecv, SubmitWrite, ReleaseIfIdle, Put, Ends, Owes, Tail, SerialAt;
    OwesQueue(cfg, out);
    var c := out.conn;
    SlotEnds(w, idx, c, 0, SendSqe(0, []));
    match out.op
    case ArmRecv =>
      SubmitRecvEnds(w, idx, c, push);
    case ArmSend =>
      SubmitWriteEnds(w, idx, c, push);
    case CancelRecv =>
      CloseWithEnds(w, idx, c, Timeout);
    case Shut(why) =>
      CloseWithEnds(w, idx, c, why);
      EndsMore(w, CloseConn(Put(w, idx, c), idx, why), Claimed(w, c.fd, why != ResponseEnded), CutBy(w, out, push));
    case _ =>
      EndsMore(w, Perform(w, idx, out, push), {}, CutBy(w, out, push));
  }

  lemma TurnEnds(cfg: Config, w: World, idx: nat, out: Outcome, push: Push)
    requires Owes(cfg, out)
    ensures Ends(w, Refresh(cfg, Perform(w, idx, out, push), idx), CutBy(w, out, push))
  {
    PerformEnds(cfg, w, idx, out, push);
    hide Perform, Ends, Owes, CutBy, Retime, Enter;
    var v := Perform(w, idx, out, push);
    EndsSame(w, v, Refresh(cfg, v, idx), CutBy(w, out, push));
  }

  // ----- the actions -----

  /** The action is a cause to close the socket's connection. */
  predicate Explained(cfg: Config, w: World, a: Action, s: nat) {
    && s in w.live && w.live[s] in w.open && w.open[w.live[s]].idx in w.conns
    && Excused(cfg, w, a, w.open[w.live[s]].idx)
  }

  lemma OpenSerial(w: World, fd: int)
    requires SocketsOk(w) && fd in w.open
    ensures w.open[fd].serial in w.live && w.live[w.open[fd].serial] == fd && 0 <= fd
  {
    hide EndedWell;
  }

  lemma ClaimExplained(cfg: Config, w: World, a: Action, idx: nat, cut: bool)
    requires Base(cfg, w) && idx in w.conns && (cut ==> Excused(cfg, w, a, idx))
    ensures forall s :: s in Claimed(w, w.conns[idx].fd, cut) ==> Explained(cfg, w, a, s)
  {
    SeatOf(cfg, w, idx);
    hide Base, Core, Armed, SocketsOk, TimerOk, Excused;
    var fd := w.conns[idx].fd;
    if cut && fd in w.open {
      OpenSerial(w, fd);
    }
  }

  /** One handler ran on the connection in `idx`. */
  lemma HandlerEnds(cfg: Config, w: World, x: World, a: Action, idx: nat, out: Outcome, push: Push)
    requires Base(cfg, w) && idx in w.conns && x.open == w.open && x.live == w.live
    requires Owes(cfg, out) && out.conn.fd == w.conns[idx].fd
    requires Cuts(out) || !push.room ==> Excused(cfg, w, a, idx)
    ensures EndsAs(cfg, w, a, Refresh(cfg, Perform(x, idx, out, push), idx))
  {
    TurnEnds(cfg, x, idx, out, push);
    hide Base, Owes, Perform, Refresh, Ends, Excused, Explained, Cuts;
    var ex := Claimed(w, w.conns[idx].fd, Cuts(out) || !push.room);
    ClaimExplained(cfg, w, a, idx, Cuts(out) || !push.room);
    assert CutBy(x, out, push) == ex;
    var v := Refresh(cfg, Perform(x, idx, out, push), idx);
    EndsFrom(x, w, v, ex);
    EndsIs(cfg, w, a, v, ex);
  }

  /** Every socket that was open and is closed in `v` ended with its response or is explained. */
  ghost predicate EndsAs(cfg: Config, w: World, a: Action, v: World) {
    || v.fault
    || forall s :: s in w.live && s !in v.live ==>
         s in v.ended && (v.ended[s].why == ResponseEnded || Explained(cfg, w, a, s))
  }

  lemma EndsIs(cfg: Config, w: World, a: Action, v: World, ex: set<nat>)
    requires Ends(w, v, ex) && forall s :: s in ex ==> Explained(cfg, w, a, s)
    ensures EndsAs(cfg, w, a, v)
  {
    hide Explained;
  }

  lemma StillOpenEnds(cfg: Config, w: World, a: Action, v: World)
    requires v.live == w.live
    ensures EndsAs(cfg, w, a, v)
  {
    hide Explained;
  }

  lemma SameFd(c: Conn, d: Conn)
    requires SameKernel(c, d)
    ensures d.fd == c.fd
  {
  }

  lemma RecvEnds(cfg: Config, w: World, u: nat, r: Option<seq<byte>>, env: Env, push: Push)
    requires ValidConfig(cfg) && EnvOk(env) && Base(cfg, w) && u in w.inflight && w.inflight[u].RecvSqe?
    requires r.Some? ==> |r.value| <= w.inflight[u].target.len
    ensures EndsAs(cfg, w, RecvDone(u, r, env, push), CompleteRecv(cfg, Forget(w, u), u, r, env, push))
  {
    Owner(cfg, w, u);
    var idx := U.SlotOf(u);
    var c := w.conns[idx];
    SeatOf(cfg, w, idx);
    hide EnvOk, Base, Core, Armed, KernelOk, SocketsOk, TimerOk, Owes, SameKernel, ValidConfig, Cuts, Broke, EndsAs;
    hide U.Encode, U.Decode, U.SlotOf, Perform, Refresh, HandleRecv, CompleteRecv, Excused;
    RecvFound(cfg, Forget(w, u), u, r, env, push);
    HandleRecvKeeps(cfg, c, r, env);
    HandleRecvFrame(cfg, c, r, env);
    HandleRecvCuts(cfg, c, r, env);
    var out := HandleRecv(cfg, c, r, env);
    SameFd(c.(recvPending := false), out.conn);
    if Cuts(out) || !push.room {
      RecvExcused(cfg, w, u, r, env, push);
    }
    HandlerEnds(cfg, w, Forget(w, u), RecvDone(u, r, env, push), idx, out, push);
  }

  lemma SendEnds(cfg: Config, w: World, u: nat, n: Option<nat>, env: Env, push: Push)
    requires ValidConfig(cfg) && EnvOk(env) && Base(cfg, w) && u in w.inflight && w.inflight[u].SendSqe?
    requires n.Some? ==> n.value <= |w.inflight[u].data|
    ensures EndsAs(cfg, w, SendDone(u, n, env, push), CompleteSend(cfg, Forget(w, u), u, w.inflight[u].data, n, env, push))
  {
    hide EnvOk, Base, Core, Armed, KernelOk, SocketsOk, TimerOk, Owes, SameKernel, ValidConfig, Cuts, Broke, EndsAs;
    hide U.Encode, U.Decode, U.SlotOf, Perform, Refresh, HandleSend, CompleteSend, OnWire, Tail, SendLength, Excused;
    Owner(cfg, w, u);
    var idx := U.SlotOf(u);
    var c := w.conns[idx];
    SeatOf(cfg, w, idx);
    TakenOfTail(c, w.inflight[u].data, n);
    SendFound(cfg, Forget(w, u), u, w.inflight[u].data, n, env, push);
    HandleSendKeeps(cfg, c, n, env);
    HandleSendFrame(cfg, c, n, env);
    HandleSendCuts(cfg, c, if n.Some? then n.value else 0, n, env);
    var out := HandleSend(cfg, OnWire(c, if n.Some? then w.inflight[u].data[..n.value] else []), n, env);
    SameFd(c.(writePending := false), out.conn);
    if Cuts(out) || !push.room {
      SendExcused(cfg, w, u, n, env, push);
    }
    HandlerEnds(cfg, w, Forget(w, u), SendDone(u, n, env, push), idx, out, push);
  }

  lemma CompletionEnds(cfg: Config, w: World, a: Action)
    requires ValidConfig(cfg) && Inv(cfg, w) && Enabled(w, a) && (a.RecvDone? || a.SendDone?)
    ensures EndsAs(cfg, w, a, Apply(cfg, w, a))
  {
    BaseNow(cfg, w);
    hide Base, Inv, DiscardRecv, DiscardSend, CompleteRecv, CompleteSend, ValidConfig, Forget, EndsAs;
    if w.phase == TearingDown {
      DiscardsNothing(cfg, w, a);
      StillOpenEnds(cfg, w, a, Apply(cfg, w, a));
    } else if a.RecvDone? {
      RecvEnds(cfg, w, a.userData, a.recvd, a.env, a.push);
    } else {
      SendEnds(cfg, w, a.userData, a.taken, a.env, a.push);
    }
  }

  lemma DiscardsNothing(cfg: Config, w: World, a: Action)
    requires ValidConfig(cfg) && Enabled(w, a) && (a.RecvDone? || a.SendDone?) && w.phase == TearingDown
    ensures Apply(cfg, w, a).live == w.live
  {
    hide ValidConfig, CompleteRecv, CompleteSend, DiscardRecv, DiscardSend;
    var v := Forget(w, a.userData);
    if a.RecvDone? {
      DiscardRecvSockets(v, a.userData, a.recvd);
    } else {
      DiscardSendSockets(v, a.userData, if a.taken.Some? then w.inflight[a.userData].data[..a.taken.value] else []);
    }
  }

  lemma DiscardRecvSockets(w: World, u: nat, recvd: Option<seq<byte>>)
    ensures DiscardRecv(w, u, recvd).live == w.live
  {
    hide U.Decode, LoseRecv, ReleaseIfIdle, Put;
    var token := U.Decode(u, U.Recv);
    if token.Some? {
      var idx := token.value.idx;
      ReleasedLive(w, idx, if idx in w.conns then LoseRecv(w.conns[idx].(recvPending := false), recvd) else NewConn(0, 0, 0, Mem(0, 0)));
    }
  }

  lemma DiscardSendSockets(w: World, u: nat, data: seq<byte>)
    ensures DiscardSend(w, u, data).live == w.live
  {
    hide U.Decode, OnWire, ReleaseIfIdle, Put;
    var token := U.Decode(u, U.Write);
    if token.Some? {
      var idx := token.value.idx;
      ReleasedLive(w, idx, if idx in w.conns then OnWire(w.conns[idx], data).(writePending := false) else NewConn(0, 0, 0, Mem(0, 0)));
    }
  }

  lemma ReleasedLive(w: World, idx: nat, c: Conn)
    ensures ReleaseIfIdle(Put(w, idx, c), idx).live == w.live && ReleaseIfIdle(w, idx).live == w.live
  {
  }

  lemma SweepExcused(cfg: Config, w: World, idx: nat, now: nat, push: Push)
    requires idx in w.conns && Expired(cfg, w.conns[idx], now)
    ensures Excused(cfg, w, Sweep(idx, now, push), idx)
  {
  }

  lemma RecvExcused(cfg: Config, w: World, u: nat, r: Option<seq<byte>>, env: Env, push: Push)
    requires U.SlotOf(u) in w.conns && (r.None? || r.value == [] || !env.built || !push.room || Broke(w.conns[U.SlotOf(u)]))
    ensures Excused(cfg, w, RecvDone(u, r, env, push), U.SlotOf(u))
  {
    hide Broke, U.SlotOf;
  }

  lemma SendExcused(cfg: Config, w: World, u: nat, n: Option<nat>, env: Env, push: Push)
    requires U.SlotOf(u) in w.conns && (n.None? || !env.built || !push.room || Broke(w.conns[U.SlotOf(u)]))
    ensures Excused(cfg, w, SendDone(u, n, env, push), U.SlotOf(u))
  {
    hide Broke, U.SlotOf;
  }

  lemma TurnExcused(cfg: Config, w: World, idx: nat, env: Env, push: Push)
    requires idx in w.conns && (!env.built || !push.room || Broke(w.conns[idx]))
    ensures Excused(cfg, w, TurnDispatch(idx, env, push), idx) && Excused(cfg, w, TurnResponse(idx, env, push), idx)
  {
  }

  /** A turn of a connection, given what its handler does. */
  lemma OneTurnEnds(cfg: Config, w: World, a: Action, idx: nat, out: Outcome, env: Env, push: Push)
    requires Base(cfg, w) && idx in w.conns && (a == TurnDispatch(idx, env, push) || a == TurnResponse(idx, env, push))
    requires Owes(cfg, out) && SameKernel(w.conns[idx], out.conn)
    requires Cuts(out) ==> !env.built || Broke(w.conns[idx])
    ensures EndsAs(cfg, w, a, Refresh(cfg, Perform(w, idx, out, push), idx))
  {
    SameFd(w.conns[idx], out.conn);
    hide Base, Owes, SameKernel, Perform, Refresh, EndsAs, Excused, Broke, Cuts;
    if Cuts(out) || !push.room {
      TurnExcused(cfg, w, idx, env, push);
    }
    HandlerEnds(cfg, w, w, a, idx, out, push);
  }

  lemma TurnActionEnds(cfg: Config, w: World, a: Action)
    requires ValidConfig(cfg) && Inv(cfg, w) && Enabled(w, a) && (a.Sweep? || a.TurnDispatch? || a.TurnResponse?)
    ensures EndsAs(cfg, w, a, Apply(cfg, w, a))
  {
    hide Base, Inv, ValidConfig, Expired, Perform, Refresh, AdvanceDispatching, AdvanceResponse, SweepOne, EnvOk, EndsAs;
    BaseNow(cfg, w);
    StillOpenEnds(cfg, w, a, w);
    match a {
      case Sweep(idx, now, push) =>
        if Expired(cfg, w.conns[idx], now) {
          SweepEnds(cfg, w, idx, now, push);
        }
      case TurnDispatch(idx, env, push) =>
        if w.conns[idx].state == Dispatching {
          DispatchTurnEnds(cfg, w, idx, env, push);
        }
      case TurnResponse(idx, env, push) =>
        ResponseTurnEnds(cfg, w, idx, env, push);
    }
  }

  lemma NotClosed(cfg: Config, c: Conn, now: nat)
    requires Expired(cfg, c, now)
    ensures c.state != Closed
  {
  }

  lemma SweepEnds(cfg: Config, w: World, idx: nat, now: nat, push: Push)
    requires ValidConfig(cfg) && Base(cfg, w) && idx in w.conns && Expired(cfg, w.conns[idx], now)
    ensures EndsAs(cfg, w, Sweep(idx, now, push), Refresh(cfg, Perform(w, idx, SweepOne(cfg, w.conns[idx], now), push), idx))
  {
    SeatOf(cfg, w, idx);
    var c := w.conns[idx];
    NotClosed(cfg, c, now);
    hide Base, Core, Armed, KernelOk, SocketsOk, TimerOk, ValidConfig, Perform, Refresh, Owes, SameKernel, SweepOne;
    hide Expired, EndsAs, Cuts, Excused;
    SweepExcused(cfg, w, idx, now, push);
    SweepKeeps(cfg, c, now);
    SweepFrame(cfg, c, now);
    SameFd(c, SweepOne(cfg, c, now).conn);
    HandlerEnds(cfg, w, w, Sweep(idx, now, push), idx, SweepOne(cfg, c, now), push);
  }

  lemma DispatchTurnEnds(cfg: Config, w: World, idx: nat, env: Env, push: Push)
    requires ValidConfig(cfg) && Base(cfg, w) && idx in w.conns && EnvOk(env)
    ensures EndsAs(cfg, w, TurnDispatch(idx, env, push),
                   Refresh(cfg, Perform(w, idx, AdvanceDispatching(cfg, w.conns[idx], env), push), idx))
  {
    SeatOf(cfg, w, idx);
    hide Base, Core, Armed, KernelOk, SocketsOk, TimerOk, ValidConfig, Perform, Refresh, Owes, SameKernel;
    hide AdvanceDispatching, EnvOk, EndsAs, Cuts, Broke;
    var c := w.conns[idx];
    AdvanceDispatchingKeeps(cfg, c, env);
    AdvanceDispatchingFrame(cfg, c, env);
    AdvanceDispatchingCuts(cfg, c, env);
    OneTurnEnds(cfg, w, TurnDispatch(idx, env, push), idx, AdvanceDispatching(cfg, c, env), env, push);
  }

  lemma ResponseTurnEnds(cfg: Config, w: World, idx: nat, env: Env, push: Push)
    requires ValidConfig(cfg) && Base(cfg, w) && idx in w.conns && EnvOk(env)
    requires w.conns[idx].state == Writing && !w.conns[idx].writePending
    ensures EndsAs(cfg, w, TurnResponse(idx, env, push),
                   Refresh(cfg, Perform(w, idx, AdvanceResponse(cfg, w.conns[idx], env), push), idx))
  {
    SeatOf(cfg, w, idx);
    var c := w.conns[idx];
    WaitingResponse(cfg, c);
    NotFailed(cfg, c);
    hide Base, Core, Armed, KernelOk, SocketsOk, TimerOk, ValidConfig, Perform, Refresh, Owes, SameKernel, ReplyOk, Tail;
    hide AdvanceResponse, EnvOk, EndsAs, Cuts, Broke;
    AdvanceResponseKeeps(cfg, c, env);
    AdvanceResponseFrame(cfg, c, env);
    AdvanceResponseCuts(cfg, c, env);
    OneTurnEnds(cfg, w, TurnResponse(idx, env, push), idx, AdvanceResponse(cfg, c, env), env, push);
  }

  // ----- accepting -----

  lemma EndsWithout(w: World, v: World, s: nat)
    requires Ends(w, v, {s}) && s !in w.live
    ensures Ends(w, v, {})
  {
  }

  lemma AcceptEnds(cfg: Config, w: World, a: Action)
    requires ValidConfig(cfg) && Inv(cfg, w) && Enabled(w, a) && a.Accept?
    ensures EndsAs(cfg, w, a, Apply(cfg, w, a))
  {
    BaseNow(cfg, w);
    AcceptApplied(cfg, w, a);
    FreshSerial(cfg, w);
    hide Base, Inv, ValidConfig, Ends, EndsAs, Apply, Enabled, SubmitRecv, Refresh, NewConn;
    if w.phase != Serving || |w.conns| >= cfg.maxConnections {
      TurnedAwayEnds(w, a.fd, a.idx);
    } else {
      AdmittedEnds(cfg, w, a.fd, a.idx, a.now, a.mem, a.push);
    }
    EndsIs(cfg, w, a, Apply(cfg, w, a), {});
  }

  lemma FreshSerial(cfg: Config, w: World)
    requires Base(cfg, w)
    ensures w.accepted !in w.live
  {
    hide Seat, EndedWell;
  }

  lemma TurnedAwayEnds(w: World, fd: int, idx: nat)
    requires w.accepted !in w.live
    ensures Ends(w, CloseFd(OpenFd(w, fd, idx), fd), {})
  {
  }

  lemma OpenedFd(w: World, fd: int, idx: nat)
    ensures var x := NextGenerationOf(OpenFd(w, fd, idx));
            SerialAt(x, fd) == {w.accepted} && forall s :: s in w.live ==> s in x.live
  {
  }

  lemma AdmittedEnds(cfg: Config, w: World, fd: int, idx: nat, now: nat, mem: Mem, push: Push)
    requires w.accepted !in w.live && 0 <= fd
    ensures var x := NextGenerationOf(OpenFd(w, fd, idx));
            Ends(w, Refresh(cfg, SubmitRecv(x, idx, NewConn(fd, w.nextGeneration, now, mem), push), idx), {})
  {
    var x := NextGenerationOf(OpenFd(w, fd, idx));
    var c := NewConn(fd, w.nextGeneration, now, mem);
    OpenedFd(w, fd, idx);
    assert !c.recvPending && c.fd == fd;
    SubmitRecvEnds(x, idx, c, push);
    hide Ends, SubmitRecv, Refresh, NewConn, SerialAt, OpenFd, NextGenerationOf;
    var v := SubmitRecv(x, idx, c, push);
    var out := Refresh(cfg, v, idx);
    RefreshOutside(cfg, v, idx);
    EndsMore(x, v, Claimed(x, fd, !push.room), {w.accepted});
    EndsSame(x, v, out, {w.accepted});
    EndsFrom(x, w, out, {w.accepted});
    EndsWithout(w, out, w.accepted);
  }

  lemma RefreshOutside(cfg: Config, v: World, idx: nat)
    ensures SameOutside(v, Refresh(cfg, v, idx))
  {
    hide Retime, Enter;
  }

  // ----- draining and tearing down -----

  predicate IdleHere(w: World, idx: nat) {
    idx in w.conns && w.conns[idx].state == Headers && w.conns[idx].buf == []
  }

  /** The sockets of all connections, or of the idle ones. */
  ghost function Serials(w: World, idleOnly: bool): set<nat> {
    set fd | fd in w.open && (idleOnly ==> IdleHere(w, w.open[fd].idx)) :: w.open[fd].serial
  }

  /** From `w` to `v` sockets only close, and connections only stop being idle. */
  ghost predicate Shrinks(w: World, v: World) {
    && (forall fd :: fd in v.open ==> fd in w.open && v.open[fd] == w.open[fd])
    && (forall idx :: IdleHere(v, idx) ==> IdleHere(w, idx))
  }

  lemma FewerSerials(w: World, v: World, idleOnly: bool)
    requires Shrinks(w, v)
    ensures Serials(v, idleOnly) <= Serials(w, idleOnly)
  {
    hide IdleHere;
  }

  lemma EndFdShrinks(w: World, fd: int, end: Ended)
    ensures Shrinks(w, EndFd(w, fd, end))
  {
    EndFdIs(w, fd, end);
    hide EndFd;
  }

  lemma CloseShrinks(w: World, idx: nat, why: CloseReason)
    ensures Shrinks(w, CloseConn(w, idx, why))
  {
    hide EndFd;
    if idx in w.conns {
      EndFdShrinks(w, w.conns[idx].fd, Ended(w.conns[idx].log, why));
    }
  }

  lemma FlagShrinks(w: World, idx: nat, c: Conn)
    requires idx in w.conns && c.state == w.conns[idx].state && c.buf == w.conns[idx].buf
    ensures Shrinks(w, Put(w, idx, c))
  {
  }

  lemma ShrinksThen(w: World, v: World, x: World)
    requires Shrinks(w, v) && Shrinks(v, x)
    ensures Shrinks(w, x)
  {
    hide IdleHere;
  }

  lemma InSerials(w: World, fd: int, idleOnly: bool)
    requires fd in w.open && (idleOnly ==> IdleHere(w, w.open[fd].idx))
    ensures SerialAt(w, fd) <= Serials(w, idleOnly)
  {
  }

  lemma {:induction false} CloseAllEnds(w: World, slots: seq<nat>)
    ensures Ends(w, CloseAll(w, slots), Serials(w, false))
    decreases |slots|
  {
    hide CloseConn, Ends, Serials, Shrinks, SerialAt;
    if slots == [] {
      EndsSelf(w);
      EndsMore(w, w, {}, Serials(w, false));
    } else {
      var idx := slots[0];
      var x := CloseConn(w, idx, Timeout);
      CloseEndsHere(w, idx);
      CloseShrinks(w, idx, Timeout);
      FewerSerials(w, x, false);
      CloseAllEnds(x, slots[1..]);
      CloseAllGrows(x, slots[1..]);
      EndsMore(x, CloseAll(w, slots), Serials(x, false), Serials(w, false));
      EndsThen(w, x, CloseAll(w, slots), Serials(w, false));
    }
  }

  lemma CloseEndsHere(w: World, idx: nat)
    ensures Ends(w, CloseConn(w, idx, Timeout), Serials(w, false))
  {
    hide CloseConn, Ends, Serials, SerialAt;
    if idx in w.conns {
      var fd := w.conns[idx].fd;
      CloseEnds(w, idx, Timeout);
      if fd in w.open {
        InSerials(w, fd, false);
      } else {
        NoSerial(w, fd);
      }
      EndsMore(w, CloseConn(w, idx, Timeout), SerialAt(w, fd), Serials(w, false));
    } else {
      CloseNothing(w, idx);
      EndsSelf(w);
      EndsMore(w, w, {}, Serials(w, false));
    }
  }

  lemma NoSerial(w: World, fd: int)
    requires fd !in w.open
    ensures SerialAt(w, fd) == {}
  {
  }

  lemma DrainConnEnds(cfg: Config, w: World, idx: nat)
    requires Base(cfg, w)
    ensures Ends(w, DrainConn(w, idx), Serials(w, true)) && Shrinks(w, DrainConn(w, idx))
  {
    hide Base, CloseConn, Ends, Serials, SerialAt, Shrinks;
    EndsSelf(w);
    EndsMore(w, w, {}, Serials(w, true));
    ShrinksSelf(w);
    if idx in w.conns && w.conns[idx].state != Closed {
      var c := w.conns[idx].(draining := true, keepAlive := false);
      FlagShrinks(w, idx, c);
      SlotEnds(w, idx, c, 0, SendSqe(0, []));
      EndsMore(w, Put(w, idx, c), {}, Serials(w, true));
      if c.state == Headers && c.buf == [] {
        IdleOwns(cfg, w, idx);
        InSerials(w, c.fd, true);
        CloseWithEnds(w, idx, c, Timeout);
        EndsMore(w, CloseConn(Put(w, idx, c), idx, Timeout), SerialAt(w, c.fd), Serials(w, true));
        CloseShrinks(Put(w, idx, c), idx, Timeout);
        ShrinksThen(w, Put(w, idx, c), DrainConn(w, idx));
      }
    }
  }

  lemma ShrinksSelf(w: World)
    ensures Shrinks(w, w)
  {
  }

  lemma IdleOwns(cfg: Config, w: World, idx: nat)
    requires Base(cfg, w) && idx in w.conns && w.conns[idx].state != Closed
    ensures w.conns[idx].fd in w.open && w.open[w.conns[idx].fd].idx == idx
  {
    SeatFd(cfg, w, idx);
    SeatOf(cfg, w, idx);
    hide Base, KernelOk, SocketsOk, TimerOk;
    var c := w.conns[idx];
    assert FlagsOk(c);
  }

  lemma {:induction false} DrainAllEnds(cfg: Config, w: World, slots: seq<nat>)
    requires Base(cfg, w)
    ensures Ends(w, DrainAll(w, slots), Serials(w, true))
    decreases |slots|
  {
    hide Base, DrainConn, Ends, Serials, Shrinks, Kept;
    if slots == [] {
      EndsSelf(w);
      EndsMore(w, w, {}, Serials(w, true));
    } else {
      var x := DrainConn(w, slots[0]);
      DrainConnEnds(cfg, w, slots[0]);
      DrainAction(cfg, w, slots[0]);
      KeptFields(cfg, w, x);
      FewerSerials(w, x, true);
      DrainAllEnds(cfg, x, slots[1..]);
      DrainAllGrows(x, slots[1..]);
      EndsMore(x, DrainAll(w, slots), Serials(x, true), Serials(w, true));
      EndsThen(w, x, DrainAll(w, slots), Serials(w, true));
    }
  }

  lemma SerialsExplained(cfg: Config, w: World, a: Action)
    requires Base(cfg, w) && (a.BeginDrain? || a.BeginTeardown?)
    ensures forall s :: s in Serials(w, a.BeginDrain?) ==> Explained(cfg, w, a, s)
  {
    hide Base;
    forall s | s in Serials(w, a.BeginDrain?) ensures Explained(cfg, w, a, s) {
      var fd :| fd in w.open && (a.BeginDrain? ==> IdleHere(w, w.open[fd].idx)) && w.open[fd].serial == s;
      OpenIsClaimed(cfg, w, fd);
      BaseSockets(cfg, w);
      OpenSerial(w, fd);
    }
  }

  lemma BaseSockets(cfg: Config, w: World)
    requires Base(cfg, w)
    ensures SocketsOk(w)
  {
    hide SocketsOk, Seat;
  }

  lemma PhaseEnds(cfg: Config, w: World, a: Action)
    requires ValidConfig(cfg) && Inv(cfg, w) && Enabled(w, a) && (a.BeginDrain? || a.BeginTeardown?)
    ensures EndsAs(cfg, w, a, Apply(cfg, w, a))
  {
    LoopApplied(cfg, w, a);
    HandlingNow(w, a);
    BaseNow(cfg, w);
    hide Base, Inv, ValidConfig, Ends, EndsAs, Apply, Enabled, DrainAll, CloseAll, Serials, Explained, Covers;
    SerialsExplained(cfg, w, a);
    var v := if a.BeginDrain? then DrainAll(w, a.slots) else CloseAll(w, a.slots);
    if a.BeginDrain? {
      DrainAllEnds(cfg, w, a.slots);
    } else {
      CloseAllEnds(w, a.slots);
    }
    EndsSame(w, v, Apply(cfg, w, a), Serials(w, a.BeginDrain?));
    EndsIs(cfg, w, a, Apply(cfg, w, a), Serials(w, a.BeginDrain?));
  }

  lemma HandlingNow(w: World, a: Action)
    requires Enabled(w, a) && (a.BeginDrain? || a.BeginTeardown?)
    ensures w.phase != Phase.Finished
  {
    hide Covers;
  }

  /** Whatever the action, every socket it closes ended with its response or is explained by it. */
  lemma ApplyEnds(cfg: Config, w: World, a: Action)
    requires ValidConfig(cfg) && Inv(cfg, w) && Enabled(w, a)
    ensures EndsAs(cfg, w, a, Apply(cfg, w, a))
  {
    hide ValidConfig, Inv, Apply, Enabled, EndsAs;
    if a.Accept? {
      AcceptEnds(cfg, w, a);
    } else if a.RecvDone? || a.SendDone? {
      CompletionEnds(cfg, w, a);
    } else if a.Sweep? || a.TurnDispatch? || a.TurnResponse? {
      TurnActionEnds(cfg, w, a);
    } else if a.BeginDrain? || a.BeginTeardown? {
      PhaseEnds(cfg, w, a);
    } else {
      QuietApplied(cfg, w, a);
      StillOpenEnds(cfg, w, a, Apply(cfg, w, a));
    }
  }

  // ----- over runs -----

  /**
   In any step of any run, a connection whose socket is closed has sent all its responses whole,
   the last one included, unless that step is a cause to cut it short: the peer left, an operation
   or its queue failed, the next request could not be built, the producer failed, a timeout ran
   out, or the server drained an idle connection or was torn down.
   */
  lemma EndingsExplained(cfg: Config, run: Run, k: nat, s: nat)
    requires ValidConfig(cfg) && Possible(cfg, run) && k < |run.actions|
    requires s in run.worlds[k].live && s !in run.worlds[k + 1].live
    ensures s in run.worlds[k + 1].ended
    ensures var end := run.worlds[k + 1].ended[s];
            (end.why == ResponseEnded && SentWhole(end.log)) || Explained(cfg, run.worlds[k], run.actions[k], s)
  {
    RunKeeps(cfg, run, k);
    RunKeeps(cfg, run, k + 1);
    assert Next(cfg, run, k);
    var w, v := run.worlds[k], run.worlds[k + 1];
    hide Possible, ValidConfig, Inv, Enabled, Apply, Explained, SentWhole;
    ApplyEnds(cfg, w, run.actions[k]);
    BaseOf(cfg, v);
    NoFault(cfg, Settle(v));
    EndsAreWell(cfg, v);
  }

  /** What is recorded of closed connections. */
  lemma EndsAreWell(cfg: Config, w: World)
    requires Inv(cfg, w)
    ensures forall s :: s in w.ended ==> s !in w.live && EndedWell(w.ended[s])
  {
    InvSockets(cfg, w);
    hide Inv, EndedWell;
  }

  /** The record of a closed connection never changes. */
  lemma EndingStays(cfg: Config, run: Run, k: nat, s: nat)
    requires ValidConfig(cfg) && Possible(cfg, run) && k < |run.actions| && s in run.worlds[k].ended
    ensures s in run.worlds[k + 1].ended && run.worlds[k + 1].ended[s] == run.worlds[k].ended[s]
  {
    RunKeeps(cfg, run, k + 1);
    assert Next(cfg, run, k);
    var w, v := run.worlds[k], run.worlds[k + 1];
    hide Possible, ValidConfig, Inv, Enabled, Apply, Base;
    ApplyGrows(cfg, w, run.actions[k]);
    BaseOf(cfg, v);
    NoFault(cfg, Settle(v));
  }

  /**
   Whatever closed a connection, its finished responses had been sent to their end and ended well,
   and of the last one no more was sent than there is.
   */
  lemma FinishedWereSent(cfg: Config, run: Run, k: nat, s: nat)
    requires ValidConfig(cfg) && Possible(cfg, run) && k < |run.worlds| && s in run.worlds[k].ended
    ensures var end := run.worlds[k].ended[s];
            && s !in run.worlds[k].live && SentPart(end.log) && end.log.reply.interim <= CONTINUE_100
            && (forall r :: r in end.log.replies ==> ReplyDone(r))
            && (end.why == ResponseEnded ==> SentWhole(end.log))
  {
    RunKeeps(cfg, run, k);
    hide Possible, ValidConfig, Inv, ReplyDone, SentPart, SentWhole;
    EndsAreWell(cfg, run.worlds[k]);
    assert EndedWell(run.worlds[k].ended[s]);
  }

  /**
   A connection that was closed because its response ended has sent all of its responses whole, the
   last one included, and each carries its handler's data: chunked, fixed, or delimited by just this
   end of the connection. An error response was sent in full.
   */
  lemma EndedCarriesData(cfg: Config, run: Run, k: nat, s: nat, i: nat, p: R.Prepared, frames: seq<R.Frame>,
                         segments: seq<seq<byte>>)
    requires ValidConfig(cfg) && Possible(cfg, run) && k < |run.worlds|
    requires s in run.worlds[k].ended && run.worlds[k].ended[s].why == ResponseEnded
    requires i <= |run.worlds[k].ended[s].log.replies|
    ensures var log := run.worlds[k].ended[s].log;
            var all := log.replies + [log.reply];
            && log.sent == Spoken(all)
            && (all[i].final.Serialized? ==> ReplyBytes(all[i]) == all[i].interim + all[i].final.bytes)
            && (P.Produces(all[i], p, frames) && P.Sized(frames) ==> P.CarriesData(all[i], p, frames, segments))
  {
    FinishedWereSent(cfg, run, k, s);
    var log := run.worlds[k].ended[s].log;
    var all := log.replies + [log.reply];
    hide Possible, ValidConfig, P.Produces, P.Sized, P.CarriesData, EndsWell, Spoken;
    SpokenPush(log.replies, log.reply);
    assert i < |log.replies| ==> all[i] in log.replies && ReplyDone(all[i]);
    assert Whole(all[i].final) && all[i].interim <= CONTINUE_100;
    if P.Produces(all[i], p, frames) && P.Sized(frames) {
      P.WholeCarries(all[i], p, frames, segments);
    }
  }
}
