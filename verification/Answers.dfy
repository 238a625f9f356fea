/**
 What one connection answers, and when: which error response each refusal sends, when a connection
 is kept and when it is not, and from when on its timeouts count.
 */
module Answers {
  import opened Bytes
  import opened BodyPump
  import opened Connection
  import opened ConnectionInvariant
  import C = PayloadCodec
  import F = ConnectionFrame
  import P = Progress

  // ----- error responses -----

  /** The connection answers with just these bytes, and is not kept. */
  predicate Refuses(out: Outcome, bytes: seq<byte>) {
    && out.op == ArmSend && out.conn.state == Writing && !out.conn.keepAlive && out.conn.resp.done && out.conn.resp.rx.None?
    && Tail(out.conn.resp) == bytes && out.conn.log.reply.final == Serialized(bytes)
  }

  lemma SerializedRefuses(c: Conn, bytes: seq<byte>)
    ensures Refuses(Outcome(SetSerialized(c, bytes), ArmSend), bytes)
    ensures Refuses(Outcome(ClearBuf(SetSerialized(c, bytes)), ArmSend), bytes)
  {
  }

  /** A declared length over a limit that is not zero. */
  predicate TooLong(h: Head, maxBody: nat) {
    maxBody != 0 && h.contentLength.Some? && h.contentLength.value > maxBody
  }

  /** The request that begins with the head of this length. */
  predicate Begun(c: Conn, d: Conn, h: Head) {
    && h.len <= |c.buf| && d.req.head == c.buf[..h.len] && d.req.ahead == c.buf[h.len..]
    && d.log.past == c.log.past && d.log.replies == c.log.replies
  }

  /**
   What a head leads to. An incomplete one waits for more, a bad one is answered with its error, one
   whose declared body is over the limit with 413. Any other is consumed: it gets an interim response
   if it expects one, a handler, and is kept exactly if it asks for that and the server is not being
   drained; if it cannot be built the connection is closed.
   */
  lemma HeadExact(cfg: Config, c: Conn, env: Env)
    requires ValidConfig(cfg) && EnvOk(env) && Core(cfg, c) && c.state == Headers && !c.recvPending && !c.writePending
    ensures var out := ProcessHead(cfg, c, env);
            match cfg.parse(c.buf)
            case IncompleteHead => out == Outcome(c, ArmRecv)
            case BadHead(e) => Refuses(out, cfg.wire(e))
            case Parsed(h) =>
              if TooLong(h, cfg.maxBody) then Refuses(out, cfg.wire(PayloadTooLarge))
              else
                && Begun(c, out.conn, h)
                && out.conn.log.sent == c.log.sent + (if h.expectContinue then env.interim else [])
                && (!env.built ==> out.op == Shut(IoError))
                && (env.built && out.conn.state == Dispatching ==>
                      out.conn.req.dispatch == Running && out.conn.keepAlive == (h.keepAlive && !c.draining))
                && (env.built && out.conn.state != Dispatching ==>
                      Refuses(out, cfg.wire(PayloadTooLarge)) || Refuses(out, cfg.wire(BadRequest)))
                && (env.built && !h.chunked && (h.contentLength.None? || h.contentLength.value == 0) ==>
                      out.op == Rest && out.conn.state == Dispatching)
  {
    hide Core, AfterDispatch, SetSerialized, ClearBuf, StartRequest, Refuses, EnvOk, Begun;
    match cfg.parse(c.buf)
    case IncompleteHead =>
    case BadHead(e) => SerializedRefuses(c, cfg.wire(e));
    case Parsed(h) =>
      SerializedRefuses(c.(buf := c.buf[h.len..]), cfg.wire(PayloadTooLarge));
      if !TooLong(h, cfg.maxBody) {
        HeadTaken(cfg, c, h, env);
      }
  }

  lemma HeadTaken(cfg: Config, c: Conn, h: Head, env: Env)
    requires ValidConfig(cfg) && EnvOk(env) && Core(cfg, c) && c.state == Headers && !c.recvPending && !c.writePending
    requires cfg.parse(c.buf) == Parsed(h)
    ensures h.len <= |c.buf|
    ensures var d := StartRequest(c, h);
            var e := if h.expectContinue then SendInterim(d, env.interim) else d;
            var out := AfterDispatch(cfg, e);
            && Begun(c, e, h) && Begun(c, out.conn, h)
            && e.log.sent == out.conn.log.sent == c.log.sent + (if h.expectContinue then env.interim else [])
            && Begun(c, e.(req := e.req.(dispatch := Idle)), h)
            && (out.conn.state == Dispatching ==>
                  out.conn.req.dispatch == Running && out.conn.keepAlive == (h.keepAlive && !c.draining))
            && (out.conn.state != Dispatching ==>
                  Refuses(out, cfg.wire(PayloadTooLarge)) || Refuses(out, cfg.wire(BadRequest)))
            && (!h.chunked && (h.contentLength.None? || h.contentLength.value == 0) ==>
                  out.op == Rest && out.conn.state == Dispatching)
  {
    hide Core, Refuses, Begun, ContinueBody, SendInterim, StartRequest, TooLong, ValidConfig;
    StartRequestKeeps(cfg, c, h);
    var d := StartRequest(c, h);
    InterimKeeps(cfg, d, env.interim);
    var e := if h.expectContinue then SendInterim(d, env.interim) else d;
    StartedParts(c, h, env.interim);
    F.NotSending(cfg, e);
    BodyExact(cfg, e);
    assert e.(fault := e.fault || false) == e;
    BegunStays(c, e, ContinueBody(cfg, e).conn, h);
    BegunStays(c, e, e.(req := e.req.(dispatch := Idle)), h);
  }

  lemma BegunStays(c: Conn, d: Conn, e: Conn, h: Head)
    requires Begun(c, d, h) && e.req.head == d.req.head && e.req.ahead == d.req.ahead
    requires e.log.past == d.log.past && e.log.replies == d.log.replies
    ensures Begun(c, e, h)
  {
  }

  lemma StartedParts(c: Conn, h: Head, interim: seq<byte>)
    requires h.len <= |c.buf|
    ensures var d := StartRequest(c, h);
            var i := SendInterim(d, interim);
            && d.log == c.log && i == d.(log := i.log) && i.log.sent == c.log.sent + interim && c.log.sent + [] == c.log.sent
            && Begun(c, d, h) && Begun(c, i, h)
            && d.req.dispatch == Running && d.keepAlive == (h.keepAlive && !c.draining) && !d.req.payload.dropped
            && i.req == d.req && i.keepAlive == d.keepAlive && i.state == d.state && i.recvPending == d.recvPending
            && (d.req.body.Some? <==> h.chunked || (h.contentLength.Some? && 0 < h.contentLength.value))
  {
  }

  /** The payload decoder refuses what is in the buffer, with this error. */
  ghost predicate Unreadable(cfg: Config, c: Conn, e: C.CodecError) {
    && c.req.framing.Some? && C.Sound(c.req.framing.value)
    && C.Run(c.req.framing.value, Some(cfg.maxBody), c.req.raw + c.buf).verdict == C.Bad(e)
  }

  /**
   Reading on: nothing happens while an operation is in flight or no body is being read. Otherwise
   a body over the limit is answered with 413 and a malformed one with 400, either only if the input
   is; a body the handler let go of ends keep-alive; and the connection is kept as before if not.
   */
  lemma BodyExact(cfg: Config, c: Conn)
    requires ValidConfig(cfg) && Core(cfg, c) && c.state == Dispatching
    ensures var out := ContinueBody(cfg, c);
            && out.conn.log.sent == c.log.sent && out.conn.log.past == c.log.past && out.conn.log.replies == c.log.replies
            && out.conn.req.head == c.req.head && out.conn.req.ahead == c.req.ahead
            && (c.recvPending || c.req.body.None? ==> out == Outcome(c, Rest))
            && (!c.recvPending && c.req.body.Some? ==>
                  if out.conn.state == Dispatching then
                    && out.conn.req.dispatch == c.req.dispatch && (out.op == Rest || out.op == ArmRecv)
                    && out.conn.keepAlive == (c.keepAlive && !c.req.payload.dropped)
                    && (c.req.payload.dropped ==> out.conn.req.body.None?)
                  else
                    || (Unreadable(cfg, c, C.BodyTooLarge) && Refuses(out, cfg.wire(PayloadTooLarge)))
                    || (Unreadable(cfg, c, C.Invalid) && Refuses(out, cfg.wire(BadRequest))))
  {
    hide ValidConfig, Core, PumpBody, Refuses, Unreadable, Held;
    F.NotSending(cfg, c);
    if !c.recvPending && c.req.body.Some? {
      P.HeldNow(cfg, c);
      PumpExact(cfg, c);
    }
  }

  lemma PumpExact(cfg: Config, c: Conn)
    requires ValidConfig(cfg) && c.req.body.Some? && c.req.framing.Some? && c.state == Dispatching
    requires Held(c.req.framing.value, cfg.maxBody, c.req.raw, PumpState(c.req.body.value, c.req.payload, c.buf))
    ensures C.Sound(c.req.body.value.decoder)
    ensures var out := PumpBody(cfg, c);
            && out.conn.log.sent == c.log.sent && out.conn.log.past == c.log.past && out.conn.log.replies == c.log.replies
            && out.conn.req.head == c.req.head && out.conn.req.ahead == c.req.ahead
            && if out.conn.state == Dispatching then
                 && out.conn.req.dispatch == c.req.dispatch && (out.op == Rest || out.op == ArmRecv)
                 && out.conn.keepAlive == (c.keepAlive && !c.req.payload.dropped)
                 && (c.req.payload.dropped ==> out.conn.req.body.None?)
               else
                 || (Unreadable(cfg, c, C.BodyTooLarge) && Refuses(out, cfg.wire(PayloadTooLarge)))
                 || (Unreadable(cfg, c, C.Invalid) && Refuses(out, cfg.wire(BadRequest)))
  {
    hide ValidConfig, Pump, Pumped, Held, Refuses, C.Run;
    var start, body := c.req.framing.value, c.req.body.value;
    var state := PumpState(body, c.req.payload, c.buf);
    HeldSound(start, cfg.maxBody, c.req.raw, state);
    PumpHeld(start, cfg.maxBody, c.req.raw, state);
    var (s, r) := Pump(state, cfg.maxBody);
    PumpedEnds(start, cfg.maxBody, c.req.raw, state, s, r);
    var gone := AfterPump(c, s).(req := AfterPump(c, s).req.(body := None));
    SerializedRefuses(gone, cfg.wire(PayloadTooLarge));
    SerializedRefuses(gone, cfg.wire(BadRequest));
  }

  lemma PumpedEnds(start: C.Kind, maxBody: nat, raw: seq<byte>, s: PumpState, t: PumpState, r: PumpResult)
    requires Pumped(start, maxBody, raw, s, t, r)
    ensures r == ReceiverClosed <==> s.payload.dropped
    ensures r.Malformed? ==> C.Sound(start) && C.Run(start, Some(maxBody), raw + s.buf).verdict == C.Bad(r.error)
  {
    hide Conserved, Delivered, QueueOk, C.Run;
  }

  /** The producer ended or failed before it offered a byte. */
  predicate NothingProduced(ch: Channel) {
    var queue := SkipEmpty(ch.queue);
    if queue == [] then !ch.open else !queue[0].Data?
  }

  /** The next event ends the response well. */
  predicate EndsNext(ch: Channel) {
    var queue := SkipEmpty(ch.queue);
    queue != [] && queue[0] == StreamDone
  }

  /** A response that fails before its first byte is answered with 500, after it the connection is closed. */
  lemma FailureExact(cfg: Config, c: Conn, env: Env)
    requires ValidConfig(cfg) && Core(cfg, c) && !c.writePending && c.resp.rx.Some? && Tail(c.resp) == []
    requires c.state == Dispatching || c.state == Writing
    ensures var out, ch := AdvanceResponse(cfg, c, env), c.resp.rx.value;
            && (c.state == Dispatching && NothingProduced(ch) ==> Refuses(out, cfg.wire(InternalError)))
            && (c.state == Writing && NothingProduced(ch) && !EndsNext(ch) ==> out.op == Shut(IoError))
  {
    hide Core, PollResponse, NothingProduced, EndsNext, SetSerialized, OnWrite, AfterResponse, Refuses, Tail, ValidConfig;
    StartedExactly(cfg, c);
    if NothingProduced(c.resp.rx.value) {
      PollFails(c);
    }
    var (d, p) := PollResponse(c);
    SerializedRefuses(d, cfg.wire(InternalError));
  }

  lemma PollFails(c: Conn)
    requires c.resp.rx.Some? && Tail(c.resp) == [] && !c.resp.done && NothingProduced(c.resp.rx.value)
    ensures var (_, p) := PollResponse(c);
            && (!c.resp.started ==> p == StartFailed)
            && (c.resp.started && !EndsNext(c.resp.rx.value) ==> p == StreamFailed)
  {
    hide SkipEmpty, Tail;
  }

  lemma StartedExactly(cfg: Config, c: Conn)
    requires Core(cfg, c) && (c.state == Dispatching || c.state == Writing) && c.resp.rx.Some?
    ensures c.resp.started <==> c.state == Writing
    ensures !c.resp.done
  {
  }

  /** A body that came too late is answered with 408, whether its RECV was in flight or not. */
  lemma TimeoutExact(cfg: Config, c: Conn, now: nat, res: Option<seq<byte>>, env: Env)
    requires ValidConfig(cfg) && c.state == Dispatching && !c.writePending
    ensures BodyTimedOut(cfg, c, now) && !c.recvPending ==> Refuses(SweepOne(cfg, c, now), cfg.wire(RequestTimeout))
    ensures c.recvPending && c.timeoutError ==> Refuses(HandleRecv(cfg, c, res, env), cfg.wire(RequestTimeout))
  {
    hide SetSerialized, Refuses, AdvanceDispatching, ProcessHead, CommitRecv, LoseRecv;
    SerializedRefuses(c, cfg.wire(RequestTimeout));
    SerializedRefuses(LoseRecv(c.(recvPending := false), res).(timeoutError := false), cfg.wire(RequestTimeout));
    StillDispatching(c.(recvPending := false), res);
  }

  lemma StillDispatching(c: Conn, res: Option<seq<byte>>)
    ensures var d := LoseRecv(c, res); d.state == c.state && d.writePending == c.writePending
  {
  }

  /**
   A completion that ends a connection: an error always, the end of the input while a request is read.
   Input that comes while a response is written is kept for the request behind it.
   */
  lemma CompletionExact(cfg: Config, c: Conn, res: Option<seq<byte>>, env: Env)
    requires ValidConfig(cfg) && Core(cfg, c)
    requires c.recvPending && c.recvTarget.Some? && (res.Some? ==> |res.value| <= c.recvTarget.value.len)
    ensures c.state == Closed ==> HandleRecv(cfg, c, res, env).op == Release && HandleSend(cfg, c, None, env).op == Release
    ensures c.state != Closed ==> HandleSend(cfg, c, None, env).op == Shut(IoError)
    ensures c.state != Closed && !c.timeoutError ==>
              var out := HandleRecv(cfg, c, res, env);
              && (res.None? || (c.state != Writing && res.value == []) ==> out.op == Shut(IoError))
              && (c.state == Writing && res.Some? ==>
                    out.op == Rest && out.conn.buf == c.buf + res.value && out.conn.resp == c.resp && out.conn.req == c.req)
  {
    hide ProcessHead, AdvanceDispatching, SetSerialized, LoseRecv, ValidConfig, OnWrite, Tail;
    PendingOk(cfg, c);
    if res.Some? {
      assert res.value[..|res.value|] == res.value;
    }
  }

  lemma PendingOk(cfg: Config, c: Conn)
    requires Core(cfg, c) && c.recvPending
    ensures CommitOk(c.(recvPending := false))
  {
  }

  // ----- keeping a connection -----

  /** What a completed write leads to: nothing else closes a connection or takes it to its next request. */
  lemma WriteExact(cfg: Config, c: Conn, n: nat, now: nat)
    requires Core(cfg, c) && c.state == Writing && !c.writePending && n <= |Tail(c.resp)|
    ensures var (d, w) := OnWrite(OnWire(c, Tail(c.resp)[..n]), n, now);
            && (w == WriteMore <==> n < |Tail(c.resp)|)
            && (w == AwaitResponse <==> n == |Tail(c.resp)| && !c.resp.done)
            && (w == RecvNext <==> n == |Tail(c.resp)| && c.resp.done && c.keepAlive)
            && (w == CloseNow <==> n == |Tail(c.resp)| && c.resp.done && !c.keepAlive)
            && (w == RecvNext ==> d.keepAlive && |d.log.past| == |c.log.past| + 1 && d.buf == c.buf)
            && (w == WriteMore || w == AwaitResponse ==> d.keepAlive == c.keepAlive)
  {
    hide Core;
    WritingFlags(cfg, c);
  }

  lemma WritingFlags(cfg: Config, c: Conn)
    requires Core(cfg, c) && c.state == Writing
    ensures !c.resp.failed && c.resp.written <= |c.resp.buf|
  {
  }

  /** Looking at a response gives up keep-alive only with an unread body, or when the response fails. */
  lemma PollExact(c: Conn)
    ensures var (d, p) := PollResponse(c);
            p != StreamFailed ==>
              d.keepAlive == (c.keepAlive && !(p == WriteReady && d != c && c.state == Dispatching && c.req.body.Some?))
  {
    hide SkipEmpty, Tail, StartWriting;
    if c.resp.rx.Some? {
      var queue := SkipEmpty(c.resp.rx.value.queue);
      if queue != [] && queue[0].Data? {
        StartExact(c, queue[0].bytes, c.resp.rx.value.(queue := queue[1..]));
      }
    }
  }

  lemma StartExact(c: Conn, bytes: seq<byte>, rest: Channel)
    ensures var d := StartWriting(c, bytes, rest);
            d.keepAlive == (c.keepAlive && !(c.state == Dispatching && c.req.body.Some?)) && d.resp.rx == Some(rest)
  {
  }

  /** An answer gives up keep-alive exactly if it closes the connection or the body is not read to its end. */
  lemma AnswerExact(c: Conn, closes: bool)
    ensures var d := StartResponse(c, closes);
            && d.keepAlive == (c.keepAlive && !closes && c.req.body.None?)
            && d.req.body.None? && d.req.dispatch == Idle && d.resp.rx == Some(Channel([], true))
  {
  }

  // ----- timeouts -----

  function Plus(now: nat, timeout: Option<nat>): Option<nat> {
    if timeout.Some? then Some(now + timeout.value) else None
  }

  /** The earlier of two moments, if there are two. */
  function Earlier(a: Option<nat>, b: Option<nat>): Option<nat> {
    if a.Some? && b.Some? then Some(Min(a.value, b.value)) else if a.Some? then a else b
  }

  /**
   A connection's lifetime counts from its accept. The time for a head counts from the accept or
   from the end of the response before, the time for a body from the same moment as its head's.
   */
  lemma DeadlinesExact(cfg: Config, fd: int, generation: nat, now: nat, mem: Mem, c: Conn)
    ensures DeadlineOf(cfg, NewConn(fd, generation, now, mem)) ==
            Earlier(Plus(now, cfg.connectionTimeout), Plus(now, cfg.headerTimeout))
    ensures DeadlineOf(cfg, Reset(c, now)) ==
            Earlier(Plus(c.clock.acceptedAt, cfg.connectionTimeout), Plus(now, cfg.headerTimeout))
    ensures DeadlineOf(cfg, c) ==
            Earlier(Plus(c.clock.acceptedAt, cfg.connectionTimeout),
                    if c.state == Headers then Plus(c.clock.startedAt, cfg.headerTimeout)
                    else if c.state == Dispatching && c.req.body.Some? then Plus(c.clock.startedAt, cfg.bodyTimeout) else None)
  {
  }
}
