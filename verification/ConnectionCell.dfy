/** One connection as the worker updates it in place, method by method. */
module ConnectionCell {
  import opened Bytes
  import C = PayloadCodec
  import opened BodyPump
  import M = Connection

  /** A body that ended, whatever way, is no longer in progress. */
  function AfterBody(c: M.Conn, p: PumpResult): M.Conn {
    if p == NeedRecv || p == Blocked then c else c.(req := c.req.(body := None))
  }

  datatype ProcessResult = AwaitHead | Dispatch | WriteError(error: M.ErrorResponse)

  class Conn {
    var fd: int
    var state: M.State
    var generation: nat
    var keepAlive: bool
    var draining: bool
    var timeoutError: bool
    var buf: seq<byte>
    var mem: M.Mem
    var recvPending: bool
    var writePending: bool
    var recvTarget: Option<M.Target>
    var request: M.Request
    var response: M.Response
    var clock: M.Clock
    ghost var log: M.Log
    ghost var fault: bool

    ghost function View(): M.Conn
      reads this
    {
      M.Conn(fd, state, generation, keepAlive, draining, timeoutError, buf, mem, recvPending, writePending, recvTarget,
             request, response, clock, log, fault)
    }

    /** Field by field, this is `d`. */
    ghost predicate Is(d: M.Conn)
      reads this
    {
      && fd == d.fd && state == d.state && generation == d.generation && keepAlive == d.keepAlive && draining == d.draining
      && timeoutError == d.timeoutError && buf == d.buf && mem == d.mem && recvPending == d.recvPending
      && writePending == d.writePending && recvTarget == d.recvTarget && request == d.req && response == d.resp
      && clock == d.clock && log == d.log && fault == d.fault
    }

    lemma ViewIs(d: M.Conn)
      requires Is(d)
      ensures View() == d
    {
    }

    constructor (fd: int, generation: nat, now: nat, mem: M.Mem)
      ensures View() == M.NewConn(fd, generation, now, mem)
    {
      this.fd, this.state, this.generation := fd, M.Headers, generation;
      keepAlive, draining, timeoutError := true, false, false;
      buf, this.mem, recvPending, writePending, recvTarget := [], mem, false, false, None;
      request := M.NO_REQUEST;
      response := M.NO_RESPONSE;
      clock := M.Clock(now, now, 0, None);
      log := M.Log([], [], false, [], [], M.NO_REPLY);
      fault := false;
    }

    // ----- receiving -----

    /** Reserves spare capacity and says where a RECV may write. */
    method PrepareRecv(base: nat, extra: nat) returns (target: M.Target)
      modifies this
      ensures View() == M.PrepareRecv(old(View()), base, extra) && recvTarget == Some(target)
    {
      fault := fault || recvPending;
      if mem.spare < M.DEFAULT_BUFFER_SIZE {
        mem := M.Reserve(mem, |buf|, M.DEFAULT_BUFFER_SIZE - mem.spare, base, extra);
      }
      target := M.Target(mem.end, Min(mem.spare, M.U32_MAX));
      recvTarget := Some(target);
    }

    /** Takes in what the kernel wrote, unless the buffer moved under it. */
    method CommitRecv(received: seq<byte>) returns (ok: bool)
      modifies this
      ensures ok == M.CommitOk(old(View()))
      ensures View() == if ok then M.CommitRecv(old(View()), received) else old(View()).(recvTarget := None)
    {
      hide M.CommitRecv;
      ghost var c := View();
      if recvTarget.None? {
        return false;
      }
      var target := recvTarget.value;
      if mem.end != target.addr || mem.spare < target.len {
        recvTarget := None;
        return false;
      }
      TakeIn(received);
      return true;
    }

    /** The received bytes become part of the buffer. */
    method TakeIn(received: seq<byte>)
      requires M.CommitOk(View())
      modifies this
      ensures View() == M.CommitRecv(old(View()), received)
    {
      hide M.CommitRecv;
      ghost var c := View();
      var n := Min(|received|, recvTarget.value.len);
      CommittedIs(c, received);
      recvTarget, buf, mem, log :=
        None, buf + received[..n], M.Mem(mem.end + n, mem.spare - n), log.(received := log.received + received[..n]);
      ViewIs(M.CommitRecv(c, received));
    }

    method DiscardRecv()
      modifies this
      ensures View() == old(View()).(recvTarget := None)
    {
      recvTarget := None;
    }

    method DropPlumbing()
      modifies `state, `request, `response, `timeoutError, `keepAlive
      ensures state == M.Closed && !timeoutError && !keepAlive
      ensures request == old(request).(body := None, dispatch := M.Idle) && response == old(response).(rx := None)
    {
      state := M.Closed;
      request := request.(body := None, dispatch := M.Idle);
      response := response.(rx := None);
      timeoutError := false;
      keepAlive := false;
    }

    method MarkClosed()
      modifies this
      ensures View() == M.MarkClosed(old(View()))
    {
      DropPlumbing();
    }

    /** Reads a request head off the buffer. */
    method ProcessHeaders(cfg: M.Config) returns (r: ProcessResult)
      requires M.ValidConfig(cfg)
      modifies this
      ensures var c := old(View());
              match cfg.parse(c.buf)
              case IncompleteHead => r == AwaitHead && View() == c
              case BadHead(e) => r == WriteError(e) && View() == c
              case Parsed(h) =>
                if M.ExceedsLimit(h, cfg.maxBody) then r == WriteError(M.PayloadTooLarge) && View() == c.(buf := c.buf[h.len..])
                else
                  && r == Dispatch && View() == M.StartRequest(c, h)
                  && keepAlive == (h.keepAlive && !c.draining) && BodyAnnounced(h)
    {
      hide M.StartRequest;
      ghost var c := View();
      match cfg.parse(buf)
      case IncompleteHead => return AwaitHead;
      case BadHead(e) => return WriteError(e);
      case Parsed(h) =>
        if M.ExceedsLimit(h, cfg.maxBody) {
          buf := buf[h.len..];
          ViewIs(c.(buf := c.buf[h.len..]));
          return WriteError(M.PayloadTooLarge);
        }
        StartRequest(h);
        return Dispatch;
    }

    /** A body is in progress exactly if the head announces one, with the decoder it asks for. */
    ghost predicate BodyAnnounced(h: M.Head)
      reads `request
    {
      && (request.body.Some? <==> h.chunked || (h.contentLength.Some? && 0 < h.contentLength.value))
      && (h.chunked ==> request.body == Some(BodyState(C.START, [])))
      && (request.body.Some? && !h.chunked ==> request.body == Some(BodyState(C.Length(h.contentLength.value), [])))
    }

    method TakeHead(h: M.Head)
      requires h.len <= |buf|
      modifies `buf, `keepAlive, `request, `state
      ensures buf == old(buf)[h.len..] && keepAlive == (h.keepAlive && !draining) && state == M.Dispatching
      ensures var framing := M.FramingOf(h);
              request ==
              M.Request(old(buf)[..h.len], buf, framing, [], if framing.Some? then Some(BodyState(framing.value, [])) else None,
                        if framing.Some? then EMPTY_PAYLOAD else M.NO_BODY, M.Running)
    {
      var head, ahead := buf[..h.len], buf[h.len..];
      buf := ahead;
      keepAlive := h.keepAlive && !draining;
      var framing := M.FramingOf(h);
      var body: Option<BodyState> := None;
      var payload := M.NO_BODY;
      if framing.Some? {
        body := Some(BodyState(framing.value, []));
        payload := EMPTY_PAYLOAD;
      }
      request := M.Request(head, ahead, framing, [], body, payload, M.Running);
      state := M.Dispatching;
    }

    /** The head is consumed, and the request starts with its body framed as the head says. */
    method StartRequest(h: M.Head)
      requires h.len <= |buf|
      modifies this
      ensures View() == M.StartRequest(old(View()), h)
      ensures keepAlive == (h.keepAlive && !old(draining)) && BodyAnnounced(h)
    {
      TakeHead(h);
    }

    /** Decodes buffered body bytes into the handler's channel. */
    method PumpRequestBody(maxBody: nat) returns (r: PumpResult)
      requires request.body.Some? && C.Sound(request.body.value.decoder)
      modifies this
      ensures var c := old(View());
              var (s, p) := Pump(PumpState(c.req.body.value, c.req.payload, c.buf), maxBody);
              r == p && View() == AfterBody(M.AfterPump(c, s), p)
    {
      hide Pump, M.AfterPump;
      ghost var c := View();
      var (s, p) := Pump(PumpState(request.body.value, request.payload, buf), maxBody);
      TakeOff(s);
      if p == NeedRecv || p == Blocked {
        return p;
      }
      request := request.(body := None);
      ViewIs(AfterBody(M.AfterPump(c, s), p));
      return p;
    }

    /** What the pump took off the buffer belongs to the request. */
    method TakeOff(s: PumpState)
      modifies this
      ensures View() == M.AfterPump(old(View()), s)
    {
      hide M.AfterPump;
      ghost var c := View();
      PumpedIs(c, s);
      var used := if |s.buf| <= |buf| then buf[..|buf| - |s.buf|] else [];
      buf := s.buf;
      request := request.(body := Some(s.body), payload := s.payload, raw := request.raw + used);
      ViewIs(M.AfterPump(c, s));
    }

    // ----- responding -----

    method SetResponseReceiver(rx: M.Channel)
      modifies this
      ensures View() == old(View()).(resp := old(View()).resp.(started := false, done := false, failed := false, rx := Some(rx)))
    {
      response := response.(started := false, done := false, failed := false, rx := Some(rx));
    }

    /** Looks at the response channel; empty data events are skipped. */
    method PollResponseStream() returns (p: M.Progress)
      modifies this
      ensures (View(), p) == M.PollResponse(old(View()))
    {
      hide M.StartWriting, M.StreamBroken, M.PollResponse, With, Rx, M.SkipEmpty;
      ghost var c := View();
      PollIs(c);
      if response.buf != [] && response.written < |response.buf| {
        return M.WriteReady;
      }
      if response.rx.None? {
        return if response.done then M.Complete else if response.failed then M.StreamFailed else M.Pending;
      }
      var open := response.rx.value.open;
      var queue := response.rx.value.queue;
      while queue != [] && queue[0] == M.Data([])
        invariant View() == c && response == c.resp
        invariant M.SkipEmpty(queue) == M.SkipEmpty(c.resp.rx.value.queue)
        decreases |queue|
      {
        SkipOne(queue);
        queue := queue[1..];
      }
      SkipNone(queue);
      if queue == [] {
        if open {
          SetResponse(Rx(response, response.done, Some(M.Channel([], true))));
          return M.Pending;
        }
        if response.done {
          SetResponse(Rx(response, response.done, None));
          return M.Complete;
        }
        p := StreamBroke();
        return p;
      }
      match queue[0]
      case Data(bytes) =>
        StartWriting(bytes, M.Channel(queue[1..], open));
        return M.WriteReady;
      case StreamDone =>
        var started := response.started;
        SetResponse(Rx(response, true, None));
        return if started then M.Complete else M.StartFailed;
      case StreamError =>
        p := StreamBroke();
        return p;
    }

    method SetResponse(r: M.Response)
      modifies this
      ensures View() == With(old(View()), r) && response == r
    {
      response := r;
    }

    method TakePiece(bytes: seq<byte>, rest: M.Channel)
      modifies `state, `request, `response, `keepAlive, `fault
      ensures var drops := old(state) == M.Dispatching && old(request).body.Some?;
              keepAlive == (old(keepAlive) && !drops) && request == if drops then old(request).(body := None) else old(request)
      ensures state == M.Writing && fault == (old(fault) || writePending)
      ensures response == old(response).(buf := bytes, written := 0, started := true, rx := Some(rest))
    {
      if state == M.Dispatching && request.body.Some? {
        keepAlive, request := false, request.(body := None);
      }
      state, response, fault :=
        M.Writing, response.(buf := bytes, written := 0, started := true, rx := Some(rest)), fault || writePending;
    }

    /** The first bytes of a piece of the response: an unread request body is given up. */
    method StartWriting(bytes: seq<byte>, rest: M.Channel)
      modifies this
      ensures View() == M.StartWriting(old(View()), bytes, rest)
    {
      TakePiece(bytes, rest);
    }

    /** The producer failed: once bytes went out the response cannot be completed. */
    method StreamBroke() returns (p: M.Progress)
      modifies this
      ensures (View(), p) == M.StreamBroken(old(View()))
    {
      response := response.(rx := None);
      if response.started {
        response := response.(failed := true);
        keepAlive := false;
        return M.StreamFailed;
      }
      return M.StartFailed;
    }

    /** The unwritten part of the response, for a SEND of at most `u32::MAX` bytes. */
    method PrepareWrite() returns (bytes: Option<seq<byte>>)
      requires response.written <= |response.buf|
      ensures bytes.None? <==> M.Tail(response) == []
      ensures bytes.Some? ==> bytes.value == M.Tail(response)[..Min(|M.Tail(response)|, 0xFFFF_FFFF)]
    {
      var remaining := response.buf[response.written..];
      if remaining == [] {
        return None;
      }
      var len := Min(|remaining|, M.U32_MAX);
      return Some(remaining[..len]);
    }

    method TakeResponse(bytes: seq<byte>)
      modifies `state, `request, `response, `keepAlive, `timeoutError, `log, `fault
      ensures state == M.Writing && request == old(request).(body := None, dispatch := M.Idle) && !keepAlive && !timeoutError
      ensures response == M.Response(bytes, 0, true, true, false, None)
      ensures log == old(log).(reply := old(log).reply.(final := M.Serialized(bytes))) && fault == (old(fault) || writePending)
    {
      state, request, response := M.Writing, request.(body := None, dispatch := M.Idle), M.Response(bytes, 0, true, true, false, None);
      keepAlive, timeoutError, log := false, false, log.(reply := log.reply.(final := M.Serialized(bytes)));
      fault := fault || writePending;
    }

    method SetSerializedResponse(bytes: seq<byte>)
      modifies this
      ensures View() == M.SetSerialized(old(View()), bytes)
    {
      TakeResponse(bytes);
    }

    /** What a completed write leads to. */
    method OnWrite(n: nat, now: nat) returns (r: M.WriteResult)
      modifies this
      ensures (View(), r) == M.OnWrite(old(View()), n, now)
    {
      response := response.(written := response.written + n);
      if response.written < |response.buf| {
        return M.WriteMore;
      }
      response := response.(buf := [], written := 0);
      if response.done {
        r := FinishResponse(now);
        return r;
      }
      return if response.failed then M.CloseNow else M.AwaitResponse;
    }

    method FinishResponse(now: nat) returns (r: M.WriteResult)
      modifies this
      ensures r == if old(keepAlive) then M.RecvNext else M.CloseNow
      ensures View() == if old(keepAlive) then M.Reset(old(View()), now) else old(View())
    {
      if keepAlive {
        Reset(now);
        return M.RecvNext;
      }
      return M.CloseNow;
    }

    /** The request and its response become history. */
    method Restart(now: nat)
      modifies `state, `request, `response, `keepAlive, `timeoutError, `clock, `log, `fault
      ensures state == M.Headers && request == M.NO_REQUEST && response == M.NO_RESPONSE && keepAlive && !timeoutError
      ensures clock == old(clock).(startedAt := now) && log == Finished(old(log), old(request))
      ensures fault == (old(fault) || recvPending || writePending)
    {
      log := Finished(log, request);
      state, request, response, keepAlive, timeoutError := M.Headers, M.NO_REQUEST, M.NO_RESPONSE, true, false;
      clock, fault := clock.(startedAt := now), fault || recvPending || writePending;
    }

    /** Ready for the next request; pipelined bytes stay in the buffer. */
    method Reset(now: nat)
      modifies this
      ensures View() == M.Reset(old(View()), now)
    {
      Restart(now);
    }

    method TakeTimeoutError() returns (armed: bool)
      modifies this
      ensures armed == old(timeoutError) && View() == old(View()).(timeoutError := false)
    {
      armed := timeoutError;
      timeoutError := false;
    }
  }

  function Finished(log: M.Log, r: M.Request): M.Log {
    M.Log(log.received, log.past + [M.Message(r.head, r.ahead, r.framing, r.raw)], log.cut, log.sent, log.replies + [log.reply],
          M.NO_REPLY)
  }

  // ----- the specification functions, field by field -----

  lemma CommittedIs(c: M.Conn, received: seq<byte>)
    requires M.CommitOk(c)
    ensures var n := Min(|received|, c.recvTarget.value.len);
            M.CommitRecv(c, received) ==
            M.Conn(c.fd, c.state, c.generation, c.keepAlive, c.draining, c.timeoutError, c.buf + received[..n],
                   M.Mem(c.mem.end + n, c.mem.spare - n), c.recvPending, c.writePending, None, c.req, c.resp, c.clock,
                   M.Log(c.log.received + received[..n], c.log.past, c.log.cut, c.log.sent, c.log.replies, c.log.reply),
                   c.fault)
  {
  }

  lemma PumpedIs(c: M.Conn, s: PumpState)
    ensures var used := if |s.buf| <= |c.buf| then c.buf[..|c.buf| - |s.buf|] else [];
            M.AfterPump(c, s) ==
            M.Conn(c.fd, c.state, c.generation, c.keepAlive, c.draining, c.timeoutError, s.buf, c.mem, c.recvPending,
                   c.writePending, c.recvTarget,
                   M.Request(c.req.head, c.req.ahead, c.req.framing, c.req.raw + used, Some(s.body), s.payload, c.req.dispatch),
                   c.resp, c.clock, c.log, c.fault)
  {
  }

  /** A connection whose response changed, and nothing else. */
  function With(c: M.Conn, r: M.Response): M.Conn {
    M.Conn(c.fd, c.state, c.generation, c.keepAlive, c.draining, c.timeoutError, c.buf, c.mem, c.recvPending, c.writePending,
           c.recvTarget, c.req, r, c.clock, c.log, c.fault)
  }

  function Rx(r: M.Response, done: bool, rx: Option<M.Channel>): M.Response {
    M.Response(r.buf, r.written, r.started, done, r.failed, rx)
  }

  lemma PollIs(c: M.Conn)
    ensures M.PollResponse(c) ==
            if M.Tail(c.resp) != [] then (c, M.WriteReady)
            else if c.resp.rx.None? then
              (c, if c.resp.done then M.Complete else if c.resp.failed then M.StreamFailed else M.Pending)
            else
              var ch := c.resp.rx.value;
              var queue := M.SkipEmpty(ch.queue);
              if queue == [] then
                if ch.open then (With(c, Rx(c.resp, c.resp.done, Some(M.Channel([], true)))), M.Pending)
                else if c.resp.done then (With(c, Rx(c.resp, c.resp.done, None)), M.Complete)
                else M.StreamBroken(c)
              else if queue[0].Data? then (M.StartWriting(c, queue[0].bytes, M.Channel(queue[1..], ch.open)), M.WriteReady)
              else if queue[0].StreamDone? then
                (With(c, Rx(c.resp, true, None)), if c.resp.started then M.Complete else M.StartFailed)
              else M.StreamBroken(c)
  {
    hide M.StartWriting, M.StreamBroken, M.SkipEmpty;
  }

  lemma SkipOne(queue: seq<M.StreamEvent>)
    requires queue != [] && queue[0] == M.Data([])
    ensures M.SkipEmpty(queue) == M.SkipEmpty(queue[1..])
  {
  }

  lemma SkipNone(queue: seq<M.StreamEvent>)
    requires queue == [] || queue[0] != M.Data([])
    ensures M.SkipEmpty(queue) == queue
  {
  }
}
