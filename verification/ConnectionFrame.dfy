/**
 What a handler may not touch: while a RECV is in flight the end of the read buffer stays
 put, while a SEND is in flight the response buffer stays as it is, and no handler changes
 which operations are in flight. Only the event loop does.
 */
module ConnectionFrame {
  import opened Bytes
  import C = PayloadCodec
  import opened BodyPump
  import opened Connection
  import opened ConnectionInvariant

  /** `d` differs from `c` in nothing the kernel can see, nor in whether it is drained. */
  predicate SameKernel(c: Conn, d: Conn) {
    && d.fd == c.fd && d.generation == c.generation && d.draining == c.draining
    && d.recvPending == c.recvPending && d.writePending == c.writePending
    && (c.recvPending ==> d.mem == c.mem && d.recvTarget == c.recvTarget)
    && (c.writePending ==> d.resp.buf == c.resp.buf && d.resp.written == c.resp.written)
    && d.clock.generation == c.clock.generation && d.clock.tracked == c.clock.tracked
  }

  lemma ContinueBodyFrame(cfg: Config, c: Conn)
    ensures SameKernel(c, ContinueBody(cfg, c).conn)
  {
    hide Pump, AfterPump, BodyResult, SameKernel;
    SameSelf(c);
    FaultFrame(c);
    if !c.recvPending && !c.writePending && c.req.body.Some? && C.Sound(c.req.body.value.decoder) {
      var (s, r) := Pump(PumpState(c.req.body.value, c.req.payload, c.buf), cfg.maxBody);
      PumpFrame(c, s);
      BodyResultFrame(cfg, c, AfterPump(c, s), r);
    }
  }

  lemma FaultFrame(c: Conn)
    ensures SameKernel(c, c.(fault := true))
  {
  }

  lemma PumpFrame(c: Conn, s: PumpState)
    ensures SameKernel(c, AfterPump(c, s))
  {
  }

  lemma BodyResultFrame(cfg: Config, c: Conn, d: Conn, r: PumpResult)
    requires SameKernel(c, d) && !c.recvPending && !c.writePending
    ensures SameKernel(c, BodyResult(cfg, d, r).conn)
  {
  }

  lemma SameThen(c: Conn, d: Conn, e: Conn)
    requires SameKernel(c, d) && SameKernel(d, e)
    ensures SameKernel(c, e)
  {
  }

  lemma RejectFrame(c: Conn, skip: nat, bytes: seq<byte>)
    requires !c.recvPending && !c.writePending && skip <= |c.buf|
    ensures SameKernel(c, ClearBuf(SetSerialized(c.(buf := c.buf[skip..]), bytes)))
  {
  }

  lemma StartFrame(c: Conn, h: Head, interim: seq<byte>)
    requires !c.recvPending && !c.writePending && h.len <= |c.buf|
    ensures var d := StartRequest(c, h);
            && SameKernel(c, d) && SameKernel(c, SendInterim(d, interim))
            && SameKernel(c, d.(req := d.req.(dispatch := Idle)))
            && SameKernel(c, SendInterim(d, interim).(req := d.req.(dispatch := Idle)))
  {
  }

  lemma AfterDispatchFrame(cfg: Config, c: Conn)
    ensures SameKernel(c, AfterDispatch(cfg, c).conn)
  {
    hide ContinueBody;
    var quiet := !c.writePending && Tail(c.resp) == [] && c.resp.rx.None? && !c.resp.done && !c.resp.failed;
    ContinueBodyFrame(cfg, c.(fault := c.fault || !quiet));
  }

  lemma ProcessHeadFrame(cfg: Config, c: Conn, env: Env)
    requires ValidConfig(cfg) && !c.recvPending && !c.writePending
    ensures SameKernel(c, ProcessHead(cfg, c, env).conn)
  {
    hide SameKernel, AfterDispatch, ClearBuf, SetSerialized, StartRequest, SendInterim;
    match cfg.parse(c.buf)
    case IncompleteHead => SameSelf(c);
    case BadHead(e) =>
      RejectFrame(c, 0, cfg.wire(e));
      assert c.(buf := c.buf[0..]) == c;
    case Parsed(h) =>
      RejectFrame(c, h.len, cfg.wire(PayloadTooLarge));
      StartFrame(c, h, env.interim);
      var d := StartRequest(c, h);
      var e := if h.expectContinue then SendInterim(d, env.interim) else d;
      assert e.req == d.req by { InterimKeepsRequest(d, env.interim); }
      AfterDispatchFrame(cfg, e);
      SameThen(c, e, AfterDispatch(cfg, e).conn);
  }

  lemma InterimKeepsRequest(c: Conn, bytes: seq<byte>)
    ensures SendInterim(c, bytes).req == c.req
  {
  }

  lemma SameSelf(c: Conn)
    ensures SameKernel(c, c)
  {
  }

  lemma StartWritingFrame(c: Conn, bytes: seq<byte>, rest: Channel)
    requires !c.writePending
    ensures SameKernel(c, StartWriting(c, bytes, rest))
  {
  }

  lemma BrokenFrame(c: Conn)
    ensures SameKernel(c, StreamBroken(c).0)
  {
  }

  lemma PollFrame(c: Conn)
    requires !c.writePending
    ensures SameKernel(c, PollResponse(c).0)
  {
    hide SkipEmpty, StartWriting, StreamBroken;
    BrokenFrame(c);
    if c.resp.rx.Some? {
      var q := SkipEmpty(c.resp.rx.value.queue);
      if q != [] && q[0].Data? {
        StartWritingFrame(c, q[0].bytes, c.resp.rx.value.(queue := q[1..]));
      }
    }
  }

  lemma AfterResponseFrame(cfg: Config, c: Conn, w: WriteResult, env: Env)
    requires ValidConfig(cfg) && (w == RecvNext ==> !c.recvPending) && !c.writePending
    ensures SameKernel(c, AfterResponse(cfg, c, w, env).conn)
  {
    hide ProcessHead;
    if w == RecvNext {
      ProcessHeadFrame(cfg, c, env);
    }
  }

  lemma OnWriteFrame(cfg: Config, c: Conn, n: nat, now: nat)
    requires !c.writePending
    ensures var (d, w) := OnWrite(c, n, now);
            SameKernel(c, d) && (w == RecvNext ==> c.keepAlive && c.resp.done)
  {
  }

  lemma AdvanceResponseFrame(cfg: Config, c: Conn, env: Env)
    requires ValidConfig(cfg) && Core(cfg, c)
    requires c.state == Dispatching || c.state == Writing
    ensures SameKernel(c, AdvanceResponse(cfg, c, env).conn)
  {
    hide Core, PollResponse, OnWrite, AfterResponse, SameKernel, SetSerialized, ValidConfig;
    if c.writePending {
      SameSelf(c);
    } else {
      PollFrame(c);
      var (d, p) := PollResponse(c);
      SerializedFrame(c, d, cfg.wire(InternalError));
      if p == Complete {
        PollKeepsRecv(cfg, c);
        CompleteFrame(cfg, c, d, env);
      }
    }
  }

  lemma SerializedFrame(c: Conn, d: Conn, bytes: seq<byte>)
    requires SameKernel(c, d) && !c.writePending
    ensures SameKernel(c, SetSerialized(d, bytes))
  {
  }

  lemma CompleteFrame(cfg: Config, c: Conn, d: Conn, env: Env)
    requires ValidConfig(cfg) && SameKernel(c, d) && !c.writePending && (d.keepAlive ==> !d.recvPending)
    ensures var (e, w) := OnWrite(d, 0, env.now); SameKernel(c, AfterResponse(cfg, e, w, env).conn)
  {
    hide OnWrite, AfterResponse, ValidConfig;
    OnWriteFrame(cfg, d, 0, env.now);
    var (e, w) := OnWrite(d, 0, env.now);
    AfterResponseFrame(cfg, e, w, env);
  }

  /** A response that completes on a kept connection does so with no RECV in flight. */
  lemma PollKeepsRecv(cfg: Config, c: Conn)
    requires Core(cfg, c) && (c.state == Dispatching || c.state == Writing)
    ensures var (d, p) := PollResponse(c); p == Complete && d.keepAlive ==> !d.recvPending
  {
    hide Wire, Flatten, C.Run, Held, MessageOk, Ordered, QueueBytes, SkipEmpty;
  }

  lemma AdvanceDispatchingFrame(cfg: Config, c: Conn, env: Env)
    requires ValidConfig(cfg) && Core(cfg, c)
    ensures SameKernel(c, AdvanceDispatching(cfg, c, env).conn)
  {
    hide Core, AdvanceResponse, ContinueBody, StartResponse;
    if c.state == Dispatching {
      if c.req.dispatch.Answered? {
        StartResponseKeeps(cfg, c, c.req.dispatch.closes);
        StartResponseFrame(c, c.req.dispatch.closes);
      }
      var d := if c.req.dispatch.Answered? then StartResponse(c, c.req.dispatch.closes) else c;
      NotSending(cfg, d);
      AdvanceResponseFrame(cfg, d, env);
      ContinueBodyFrame(cfg, AdvanceResponse(cfg, d, env).conn);
    }
  }

  lemma StartResponseFrame(c: Conn, closes: bool)
    ensures SameKernel(c, StartResponse(c, closes))
  {
  }

  lemma NotSending(cfg: Config, c: Conn)
    requires Core(cfg, c) && (c.state == Dispatching || c.state == Headers)
    ensures !c.writePending
  {
  }

  lemma HandleRecvFrame(cfg: Config, c: Conn, res: Option<seq<byte>>, env: Env)
    requires ValidConfig(cfg) && Core(cfg, c) && Armed(cfg, c) && c.recvPending
    requires res.Some? ==> |res.value| <= c.recvTarget.value.len
    ensures SameKernel(c.(recvPending := false), HandleRecv(cfg, c, res, env).conn)
  {
    hide ValidConfig, Core, ProcessHead, AdvanceDispatching, CommitRecv, CommitOk, SetSerialized, LoseRecv, SameKernel;
    var e := c.(recvPending := false);
    LoseFrame(e, res);
    if c.state == Headers || c.state == Dispatching {
      NotSending(cfg, c);
      SerializedFrame(e, LoseRecv(e, res).(timeoutError := false), cfg.wire(RequestTimeout));
    }
    if c.state != Closed && !c.timeoutError && res.Some? {
      CommitKeeps(cfg, c, res.value);
      CommitFrame(e, res.value);
      var d := CommitRecv(e, res.value);
      if c.state == Headers {
        ProcessHeadFrame(cfg, d, env);
        SameThen(e, d, ProcessHead(cfg, d, env).conn);
      } else if c.state == Dispatching {
        AdvanceDispatchingFrame(cfg, d, env);
        SameThen(e, d, AdvanceDispatching(cfg, d, env).conn);
      }
    }
  }

  lemma LoseFrame(c: Conn, res: Option<seq<byte>>)
    requires !c.recvPending
    ensures SameKernel(c, LoseRecv(c, res)) && SameKernel(c, c.(recvTarget := None)) && SameKernel(c, c.(recvTarget := None, fault := true))
    ensures SameKernel(c, LoseRecv(c, res).(timeoutError := false))
    ensures SameKernel(c, LoseRecv(c, res).(timeoutError := false, keepAlive := false))
    ensures LoseRecv(c, res).state == c.state
  {
  }

  lemma CommitFrame(c: Conn, bytes: seq<byte>)
    requires !c.recvPending && CommitOk(c)
    ensures SameKernel(c, CommitRecv(c, bytes)) && CommitRecv(c, bytes).state == c.state
  {
  }

  lemma LiveSendFrame(cfg: Config, e: Conn, n: nat, env: Env)
    requires ValidConfig(cfg) && Core(cfg, e) && e.state == Writing && !e.writePending && n <= |Tail(e.resp)|
    ensures var (d, w) := OnWrite(OnWire(e, Tail(e.resp)[..n]), n, env.now);
            && SameKernel(e, d)
            && (w == AwaitResponse ==> SameKernel(d, AdvanceResponse(cfg, d, env).conn))
            && (w == RecvNext || w == CloseNow ==> SameKernel(d, AfterResponse(cfg, d, w, env).conn))
  {
    hide ValidConfig, Core, OnWrite, AdvanceResponse, AfterResponse, Tail;
    var f := OnWire(e, Tail(e.resp)[..n]);
    if e.keepAlive {
      KeptMeansIdle(cfg, e);
    }
    OnWriteFrame(cfg, f, n, env.now);
    OnWriteKeeps(cfg, e, n, env.now);
    var (d, w) := OnWrite(f, n, env.now);
    if w == AwaitResponse {
      AdvanceResponseFrame(cfg, d, env);
    } else if w != WriteMore {
      AfterResponseFrame(cfg, d, w, env);
    }
  }

  lemma HandleSendFrame(cfg: Config, c: Conn, res: Option<nat>, env: Env)
    requires ValidConfig(cfg) && Core(cfg, c) && Armed(cfg, c) && c.writePending
    requires res.Some? ==> res.value <= |Tail(c.resp)|
    ensures var n := if res.Some? then res.value else 0;
            SameKernel(c.(writePending := false), HandleSend(cfg, OnWire(c, Tail(c.resp)[..n]), res, env).conn)
  {
    hide ValidConfig, Core, OnWrite, AdvanceResponse, AfterResponse, SameKernel, Tail;
    SendIdle(cfg, c);
    var e := c.(writePending := false);
    SameSelf(e);
    var n := if res.Some? then res.value else 0;
    OnWireWaiting(c, Tail(c.resp)[..n]);
    OnWireFrame(e, Tail(c.resp)[..n]);
    if c.state == Writing && res.Some? {
      LiveSendFrame(cfg, e, n, env);
      var (d, w) := OnWrite(OnWire(e, Tail(e.resp)[..n]), n, env.now);
      if w == AwaitResponse {
        SameThen(e, d, AdvanceResponse(cfg, d, env).conn);
      } else if w != WriteMore {
        SameThen(e, d, AfterResponse(cfg, d, w, env).conn);
      }
    }
  }

  lemma OnWireFrame(c: Conn, bytes: seq<byte>)
    ensures SameKernel(c, OnWire(c, bytes))
  {
  }

  /** A finished response on a connection to be kept leaves no RECV in flight. */
  lemma KeptMeansIdle(cfg: Config, c: Conn)
    requires Core(cfg, c) && c.state == Writing && c.keepAlive
    ensures !c.recvPending
  {
  }

  lemma SweepFrame(cfg: Config, c: Conn, now: nat)
    requires Core(cfg, c)
    ensures SameKernel(c, SweepOne(cfg, c, now).conn)
  {
    if c.state == Dispatching {
      NotSending(cfg, c);
    }
    hide Core;
  }
}
