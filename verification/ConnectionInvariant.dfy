/** What every event keeps true of a connection. */
module ConnectionInvariant {
  import opened Bytes
  import C = PayloadCodec
  import opened BodyPump
  import opened Connection

  // ----- the invariant, concern by concern -----

  /** An in-flight RECV writes exactly behind the buffer's end, into spare capacity. */
  predicate MemOk(c: Conn) {
    && |c.buf| <= c.mem.end
    && (c.recvTarget.Some? <==> c.recvPending)
    && (c.recvPending ==> CommitOk(c) && DEFAULT_BUFFER_SIZE / 2 <= c.recvTarget.value.len)
  }

  /** An in-flight SEND always has bytes to send, and only while writing or closed. */
  predicate SendOk(c: Conn) {
    && c.resp.written <= |c.resp.buf|
    && (c.writePending ==> (c.state == Writing || c.state == Closed) && Tail(c.resp) != [])
  }

  predicate FlagsOk(c: Conn) {
    && (c.fd == -1 <==> c.state == Closed) && -1 <= c.fd
    && (c.draining ==> !c.keepAlive)
    && (c.recvPending && (c.state == Dispatching || c.state == Writing) ==> c.req.body.Some? || !c.keepAlive)
    && (c.timeoutError ==> c.recvPending && (c.state == Dispatching || c.state == Writing))
  }

  predicate ShapeOk(c: Conn) {
    match c.state
    case Headers => c.req == NO_REQUEST && c.resp == NO_RESPONSE && !c.log.cut && c.log.reply == NO_REPLY
    case Dispatching =>
      && c.resp.buf == [] && c.resp.written == 0 && !c.resp.started && !c.resp.done && !c.resp.failed
      && !c.log.cut && (c.req.dispatch == Idle <==> c.resp.rx.Some?)
    case Writing =>
      && c.req.body.None? && c.req.dispatch == Idle
      && c.resp.started && !c.resp.failed && (c.resp.done <==> c.resp.rx.None?)
    case Closed =>
      && c.req.body.None? && c.req.dispatch == Idle && c.resp.rx.None? && !c.keepAlive
  }

  /** Only the last queued event may be a terminal one. */
  predicate Ordered(queue: seq<StreamEvent>) {
    forall i :: 0 <= i < |queue| - 1 ==> queue[i].Data?
  }

  /** The bytes sent, the unwritten tail and the queued events are the responses, in order. */
  predicate StreamOk(c: Conn) {
    var all := Spoken(c.log.replies) + ReplyBytes(c.log.reply);
    && |c.log.replies| == |c.log.past| && Spoken(c.log.replies) <= c.log.sent
    && (c.resp.rx.Some? ==> Ordered(c.resp.rx.value.queue))
    && match c.state
       case Closed => (if c.writePending then c.log.sent + Tail(c.resp) else c.log.sent) <= all
       case Writing => c.log.sent + Tail(c.resp) + RxBytes(c.resp.rx) == all
       case _ =>
         && c.log.sent == Spoken(c.log.replies) + c.log.reply.interim
         && ReplyBytes(c.log.reply) == c.log.reply.interim + RxBytes(c.resp.rx)
  }

  /** A stream that ended well. */
  predicate EndsWell(events: seq<StreamEvent>) {
    events != [] && events[|events| - 1] == StreamDone && Ordered(events)
  }

  /** A serialized response, or a stream that ended well: nothing more will be added to it. */
  predicate Whole(final: Final) {
    final.Streamed? ==> EndsWell(final.events)
  }

  /** All responses are sent to their end, the current one included. */
  predicate SentWhole(log: Log) {
    log.sent == Spoken(log.replies) + ReplyBytes(log.reply) && Whole(log.reply.final)
  }

  /** Finished responses are sent to their end, and of the current one no more than there is. */
  predicate SentPart(log: Log) {
    Spoken(log.replies) <= log.sent <= Spoken(log.replies) + ReplyBytes(log.reply)
  }

  /** `queue` is the end of what was emitted, and before it there was only data. */
  predicate Behind(events: seq<StreamEvent>, queue: seq<StreamEvent>) {
    && |queue| <= |events| && events[|events| - |queue|..] == queue
    && forall i :: 0 <= i < |events| - |queue| ==> events[i].Data?
  }

  /** A finished response: part of the interim one, then a stream that ended well. */
  predicate ReplyDone(r: Reply) {
    r.interim <= CONTINUE_100 && r.final.Streamed? && EndsWell(r.final.events)
  }

  predicate RepliesOk(log: Log) {
    && (forall r :: r in log.replies ==> ReplyDone(r))
    && log.reply.interim <= CONTINUE_100
    && (log.reply.final.Streamed? ==> Ordered(log.reply.final.events))
  }

  /** What is queued is what was emitted last, and a response that is done ended well. */
  predicate ReplyOk(c: Conn) {
    var final := c.log.reply.final;
    && RepliesOk(c.log)
    && (c.state == Dispatching && c.resp.rx.None? ==> final == Streamed([]))
    && (c.resp.rx.Some? ==>
          && final.Streamed? && Behind(final.events, c.resp.rx.value.queue)
          && |c.resp.rx.value.queue| <= RESPONSE_STREAM_CAPACITY)
    && (c.resp.done && c.state != Closed ==> Whole(final)) && (c.resp.done && c.keepAlive ==> final.Streamed?)
  }

  function Wire(past: seq<Message>): (bytes: seq<byte>)
  {
    if past == [] then [] else Wire(past[..|past| - 1]) + past[|past| - 1].head + past[|past| - 1].raw
  }

  ghost predicate HeadParsed(cfg: Config, head: seq<byte>, ahead: seq<byte>, framing: Option<C.Kind>) {
    && cfg.parse(head + ahead).Parsed?
    && cfg.parse(head + ahead).head.len == |head|
    && FramingOf(cfg.parse(head + ahead).head) == framing
  }

  /** `raw` is exactly one body of the framing: decoded to its end, and nothing behind it. */
  ghost predicate BodyComplete(cfg: Config, framing: Option<C.Kind>, raw: seq<byte>) {
    if framing.None? then raw == []
    else C.Sound(framing.value)
         && C.Run(framing.value, Some(cfg.maxBody), raw).verdict == C.Done
         && C.Run(framing.value, Some(cfg.maxBody), raw).consumed == |raw|
  }

  /** The head asks for the connection to be kept. */
  predicate AsksToStay(cfg: Config, head: seq<byte>, ahead: seq<byte>) {
    cfg.parse(head + ahead).Parsed? && cfg.parse(head + ahead).head.keepAlive
  }

  /** A finished request: a parsed head that asked for another, and one body read to its end. */
  ghost predicate MessageOk(cfg: Config, m: Message) {
    HeadParsed(cfg, m.head, m.ahead, m.framing) && BodyComplete(cfg, m.framing, m.raw) && AsksToStay(cfg, m.head, m.ahead)
  }

  /** Every byte received belongs to a finished request, the current one, or the buffer. */
  ghost predicate InputOk(cfg: Config, c: Conn) {
    && (!c.log.cut ==> c.log.received == Wire(c.log.past) + c.req.head + c.req.raw + c.buf)
    && Wire(c.log.past) <= c.log.received
    && (forall m :: m in c.log.past ==> MessageOk(cfg, m))
    && ((c.state == Dispatching || c.state == Writing) && !c.log.cut ==>
          HeadParsed(cfg, c.req.head, c.req.ahead, c.req.framing))
    && (c.keepAlive && (c.state == Dispatching || c.state == Writing) && c.req.body.None? ==>
          !c.log.cut && BodyComplete(cfg, c.req.framing, c.req.raw))
    && (c.keepAlive && (c.state == Dispatching || c.state == Writing) ==> AsksToStay(cfg, c.req.head, c.req.ahead))
  }

  /** The handler gets nothing but the body its head announced, decoded, in order and from its beginning. */
  ghost predicate DeliveredOk(cfg: Config, req: Request) {
    if req.framing.None? then
      && req.payload.taken == [] && req.payload.chunks == []
      && (req.payload.closed ==> HeadParsed(cfg, req.head, req.ahead, None))
    else
      && HeadParsed(cfg, req.head, req.ahead, req.framing)
      && Delivered(req.framing.value, cfg.maxBody, req.raw, req.payload)
  }

  /**
   The body channel conserves what was decoded; once closed it holds the whole body, and it is closed
   as soon as there is none to read any more.
   */
  ghost predicate PayloadOk(cfg: Config, c: Conn) {
    && QueueOk(c.req.payload) && DeliveredOk(cfg, c.req)
    && (c.req.body.Some? ==>
          && c.state == Dispatching && c.req.framing.Some? && !c.req.payload.closed
          && Held(c.req.framing.value, cfg.maxBody, c.req.raw, PumpState(c.req.body.value, c.req.payload, [])))
    && (c.state == Dispatching && c.req.dispatch != Idle && c.req.body.None? && !c.req.payload.dropped ==> c.req.payload.closed)
    && (c.req.payload.closed ==> BodyComplete(cfg, c.req.framing, c.req.raw))
    && (c.req.payload.closed && !c.req.payload.dropped && c.req.framing.Some? ==>
          c.req.payload.taken + Flatten(c.req.payload.chunks) ==
          C.Run(c.req.framing.value, Some(cfg.maxBody), c.req.raw).body)
  }

  ghost predicate Core(cfg: Config, c: Conn) {
    !c.fault && MemOk(c) && SendOk(c) && FlagsOk(c) && ShapeOk(c) && StreamOk(c) && ReplyOk(c) && InputOk(cfg, c) && PayloadOk(cfg, c)
  }

  /**
   Between events a live connection waits for something, and only for what it cannot do without: a
   head not yet complete, body bytes that are not there, a handler that has not made room.
   */
  predicate Armed(cfg: Config, c: Conn) {
    match c.state
    case Headers => c.recvPending && Unfinished(cfg, c.buf)
    case Dispatching =>
      c.req.body.Some? ==> if c.recvPending then Starved(c) else c.req.body.value.pending != []
    case Writing => c.writePending || (c.resp.rx.Some? && !c.resp.done && Tail(c.resp) == [])
    case Closed => c.recvPending || c.writePending
  }

  predicate Unfinished(cfg: Config, buf: seq<byte>) {
    buf == [] || cfg.parse(buf).IncompleteHead?
  }

  /** All input is decoded and passed on, and the body goes on. */
  predicate Starved(c: Conn) {
    c.req.body.Some? && c.buf == [] && c.req.body.value.pending == [] && !C.AtEof(c.req.body.value.decoder)
  }

  /** Enough to close the connection. */
  ghost predicate Closable(cfg: Config, c: Conn) {
    && !c.fault && MemOk(c) && c.state != Closed && 0 <= c.fd
    && c.resp.written <= |c.resp.buf| && (c.writePending ==> Tail(c.resp) != [])
    && |c.log.replies| == |c.log.past| && Spoken(c.log.replies) <= c.log.sent
    && c.log.sent + Tail(c.resp) <= Spoken(c.log.replies) + ReplyBytes(c.log.reply)
    && (!c.log.cut ==> c.log.received == Wire(c.log.past) + c.req.head + c.req.raw + c.buf)
    && Wire(c.log.past) <= c.log.received
    && (forall m :: m in c.log.past ==> MessageOk(cfg, m))
    && PayloadDone(cfg, c) && RepliesOk(c.log)
  }

  ghost predicate PayloadDone(cfg: Config, c: Conn) {
    && QueueOk(c.req.payload) && DeliveredOk(cfg, c.req)
    && (c.req.payload.closed ==> BodyComplete(cfg, c.req.framing, c.req.raw))
    && (c.req.payload.closed && !c.req.payload.dropped && c.req.framing.Some? ==>
          c.req.payload.taken + Flatten(c.req.payload.chunks) ==
          C.Run(c.req.framing.value, Some(cfg.maxBody), c.req.raw).body)
  }

  /** What a handler owes the event loop for each operation it asks for. */
  ghost predicate Owes(cfg: Config, out: Outcome) {
    var c := out.conn;
    match out.op
    case Rest => Core(cfg, c) && Armed(cfg, c)
    case ArmRecv =>
      && Core(cfg, c) && !c.recvPending
      && ((c.state == Headers && Unfinished(cfg, c.buf)) || (c.state == Dispatching && Starved(c)))
    case ArmSend => Core(cfg, c) && !c.writePending && c.state == Writing && Tail(c.resp) != []
    case CancelRecv => Core(cfg, c) && Armed(cfg, c) && c.recvPending && c.state != Closed
    case Shut(why) => Closable(cfg, c) && (why == ResponseEnded ==> SentWhole(c.log))
    case Release => Core(cfg, c) && c.state == Closed
  }

  /** A change that touches neither the response nor its log. */
  lemma SameResponse(c: Conn, d: Conn)
    requires StreamOk(c) && ReplyOk(c)
    requires d.log == c.log.(received := d.log.received, cut := d.log.cut) && d.resp == c.resp
    requires d.state == c.state && d.writePending == c.writePending && (d.keepAlive ==> c.keepAlive)
    ensures StreamOk(d) && ReplyOk(d)
  {
    hide Flatten, Spoken, ReplyBytes, QueueBytes, Behind, EndsWell;
  }

  /** A change that touches neither the request nor what was received of it. */
  lemma RequestStays(cfg: Config, c: Conn, d: Conn)
    requires InputOk(cfg, c) && PayloadOk(cfg, c)
    requires d.log == c.log && d.req == c.req && d.buf == c.buf && d.state == c.state && (d.keepAlive ==> c.keepAlive)
    ensures InputOk(cfg, d) && PayloadOk(cfg, d)
  {
    hide Wire, HeadParsed, BodyComplete, MessageOk, QueueOk, DeliveredOk, Held, C.Run, Flatten;
  }

  /** Nor does it matter to the input what became of the body channel. */
  lemma SameInput(cfg: Config, c: Conn, d: Conn)
    requires InputOk(cfg, c)
    requires d == c.(req := c.req.(payload := d.req.payload))
    ensures InputOk(cfg, d)
  {
    hide Wire, HeadParsed, BodyComplete, MessageOk;
  }

  // ----- closing -----

  lemma MarkClosedKeeps(cfg: Config, c: Conn)
    requires Closable(cfg, c)
    ensures Core(cfg, MarkClosed(c).(fd := -1))
  {
  }

  lemma CoreClosable(cfg: Config, c: Conn)
    requires Core(cfg, c) && c.state != Closed
    ensures Closable(cfg, c)
  {
    hide Wire, Flatten, Spoken, FinalBytes, Delivered, C.Run, Held, MessageOk;
    if c.state == Headers || c.state == Dispatching {
      assert Tail(c.resp) == [];
    }
  }

  // ----- responses -----

  /** An error response replaces a request nothing of whose response has gone out. */
  lemma SerializedKeeps(cfg: Config, c: Conn, bytes: seq<byte>)
    requires ReplyReady(cfg, c) && bytes != []
    ensures var d := SetSerialized(c, bytes);
            Owes(cfg, Outcome(d, ArmSend)) && d.keepAlive == false
  {
    hide Wire, Flatten, Spoken, FinalBytes, Delivered, C.Run, Held, MessageOk, ReplyOk, RepliesOk, HeadParsed, AsksToStay, BodyComplete,
         QueueOk;
    SerializedReply(c, bytes);
    SerializedBytes(bytes);
    var d := SetSerialized(c, bytes);
    assert Tail(d.resp) == bytes;
    assert c.log.sent + bytes + [] == Spoken(c.log.replies) + (c.log.reply.interim + bytes);
  }

  lemma SerializedBytes(bytes: seq<byte>)
    ensures FinalBytes(Serialized(bytes)) == bytes
  {
  }

  lemma SerializedReply(c: Conn, bytes: seq<byte>)
    requires RepliesOk(c.log)
    ensures ReplyOk(SetSerialized(c, bytes))
  {
  }

  /** Nothing of a response is out except the interim part. */
  ghost predicate ReplyReady(cfg: Config, c: Conn) {
    && !c.fault && MemOk(c) && !c.writePending && 0 <= c.fd
    && c.state == Dispatching && RepliesOk(c.log)
    && |c.log.replies| == |c.log.past|
    && c.log.sent == Spoken(c.log.replies) + c.log.reply.interim
    && (!c.log.cut ==> c.log.received == Wire(c.log.past) + c.req.head + c.req.raw + c.buf)
    && Wire(c.log.past) <= c.log.received
    && (forall m :: m in c.log.past ==> MessageOk(cfg, m))
    && (!c.log.cut ==> HeadParsed(cfg, c.req.head, c.req.ahead, c.req.framing))
    && PayloadDone(cfg, c)
  }

  lemma CoreReplyReady(cfg: Config, c: Conn)
    requires Core(cfg, c) && c.state == Dispatching && !c.writePending
    ensures ReplyReady(cfg, c)
  {
    hide Wire, Flatten, Spoken, FinalBytes, Delivered, C.Run, Held, MessageOk;
  }

  /** A head that is refused is answered, and buffered input is thrown away. */
  lemma RejectKeeps(cfg: Config, c: Conn, skip: nat, bytes: seq<byte>)
    requires Core(cfg, c) && c.state == Headers && !c.recvPending && !c.writePending && skip <= |c.buf|
    requires bytes != []
    ensures Owes(cfg, Outcome(ClearBuf(SetSerialized(c.(buf := c.buf[skip..]), bytes)), ArmSend))
  {
    hide Wire, Flatten, Spoken, FinalBytes, Delivered, C.Run, Held, MessageOk, ReplyOk;
    RejectedReply(c, skip, bytes);
    SerializedBytes(bytes);
    var d := ClearBuf(SetSerialized(c.(buf := c.buf[skip..]), bytes));
    assert Tail(d.resp) == bytes;
    assert c.log.sent + bytes + [] == Spoken(c.log.replies) + ([] + bytes);
  }

  lemma RejectedReply(c: Conn, skip: nat, bytes: seq<byte>)
    requires ReplyOk(c) && skip <= |c.buf|
    ensures ReplyOk(ClearBuf(SetSerialized(c.(buf := c.buf[skip..]), bytes)))
  {
  }

  // ----- requests -----

  lemma WirePush(past: seq<Message>, m: Message)
    ensures Wire(past + [m]) == Wire(past) + m.head + m.raw
  {
    assert (past + [m])[..|past|] == past;
  }

  lemma StartRequestKeeps(cfg: Config, c: Conn, h: Head)
    requires ValidConfig(cfg) && Core(cfg, c) && c.state == Headers && !c.recvPending && !c.writePending
    requires cfg.parse(c.buf) == Parsed(h)
    ensures h.len <= |c.buf|
    ensures var d := StartRequest(c, h);
            && Core(cfg, d) && d.state == Dispatching && !d.recvPending
            && d.resp == NO_RESPONSE && d.log.reply.interim == []
  {
    hide Wire, Flatten, Spoken, FinalBytes, InputOk, PayloadOk;
    StartedInput(cfg, c, h);
    StartedPayload(cfg, c, h);
  }

  lemma StartedInput(cfg: Config, c: Conn, h: Head)
    requires Core(cfg, c) && c.state == Headers && h.len <= |c.buf| && cfg.parse(c.buf) == Parsed(h)
    ensures InputOk(cfg, StartRequest(c, h))
  {
    hide Wire, Flatten, Spoken, FinalBytes, Delivered, C.Run, Held, MessageOk, PayloadOk, StreamOk, MemOk;
    var d := StartRequest(c, h);
    assert d.req.head + d.req.ahead == c.buf;
    assert d.req.head + d.req.raw + d.buf == c.buf;
    var before := Wire(c.log.past);
    assert before + c.req.head + c.req.raw + c.buf == before + c.buf;
    assert before + d.req.head + d.req.raw + d.buf == before + (d.req.head + d.req.raw + d.buf);
  }

  lemma StartedPayload(cfg: Config, c: Conn, h: Head)
    requires h.len <= |c.buf| && cfg.parse(c.buf) == Parsed(h)
    ensures PayloadOk(cfg, StartRequest(c, h))
  {
    hide Wire, C.Run, Held;
    var d := StartRequest(c, h);
    assert d.req.head + d.req.ahead == c.buf;
    if d.req.framing.Some? {
      StartHeld(d.req.framing.value, cfg.maxBody);
    }
  }

  lemma InterimKeeps(cfg: Config, c: Conn, bytes: seq<byte>)
    requires Core(cfg, c) && c.state == Dispatching && c.resp.rx.None? && c.log.reply.interim == [] && bytes <= CONTINUE_100
    ensures Core(cfg, SendInterim(c, bytes))
  {
    hide Wire, Flatten, Spoken, Delivered, C.Run, Held, MessageOk;
  }

  lemma PumpBodyKeeps(cfg: Config, c: Conn)
    requires ValidConfig(cfg) && Core(cfg, c) && c.state == Dispatching && !c.recvPending && c.req.body.Some?
    ensures C.Sound(c.req.body.value.decoder) && Owes(cfg, PumpBody(cfg, c))
  {
    hide Wire, Flatten, Spoken, FinalBytes, Delivered, C.Run, Held, MessageOk, Pump;
    var start, body := c.req.framing.value, c.req.body.value;
    HeldAnyBuf(start, cfg.maxBody, c.req.raw, PumpState(body, c.req.payload, []), c.buf);
    HeldSound(start, cfg.maxBody, c.req.raw, PumpState(body, c.req.payload, []));
    PumpHeld(start, cfg.maxBody, c.req.raw, PumpState(body, c.req.payload, c.buf));
    var (s, r) := Pump(PumpState(body, c.req.payload, c.buf), cfg.maxBody);
    PumpedKeeps(cfg, c, s, r);
  }

  lemma HeldSound(start: C.Kind, maxBody: nat, raw: seq<byte>, s: PumpState)
    requires Held(start, maxBody, raw, s)
    ensures C.Sound(s.body.decoder)
  {
  }

  /** Framed input moves from the buffer to the request; nothing else changes. */
  lemma PumpedInput(cfg: Config, c: Conn, s: PumpState)
    requires Core(cfg, c) && |s.buf| <= |c.buf| && s.buf == c.buf[|c.buf| - |s.buf|..]
    ensures var d := AfterPump(c, s);
            && MemOk(d) && (!c.log.cut ==> d.log.received == Wire(d.log.past) + d.req.head + d.req.raw + d.buf)
  {
    hide Wire, Flatten, Spoken, FinalBytes, Delivered, C.Run, Held, MessageOk;
    var used := c.buf[..|c.buf| - |s.buf|];
    assert c.buf == used + s.buf;
    var before := Wire(c.log.past) + c.req.head;
    assert before + c.req.raw + (used + s.buf) == before + (c.req.raw + used) + s.buf;
  }

  ghost predicate PumpedHere(cfg: Config, c: Conn, s: PumpState, r: PumpResult) {
    && ValidConfig(cfg) && Core(cfg, c) && c.state == Dispatching && !c.recvPending && c.req.body.Some?
    && Pumped(c.req.framing.value, cfg.maxBody, c.req.raw, PumpState(c.req.body.value, c.req.payload, c.buf), s, r)
  }

  lemma PumpedKeeps(cfg: Config, c: Conn, s: PumpState, r: PumpResult)
    requires PumpedHere(cfg, c, s, r)
    ensures Owes(cfg, BodyResult(cfg, AfterPump(c, s), r))
  {
    hide PumpedHere, Owes, BodyResult, AfterPump;
    match r
    case Malformed(_) => PumpMalformed(cfg, c, s, r);
    case AtEnd => PumpEnded(cfg, c, s);
    case ReceiverClosed => PumpClosed(cfg, c, s);
    case _ => PumpPaused(cfg, c, s, r);
  }

  /** What a pump leaves alone: it changes the request, the buffer, and perhaps ends keep-alive. */
  lemma PumpedRest(cfg: Config, c: Conn, d: Conn)
    requires Core(cfg, c) && c.state == Dispatching && !c.recvPending
    requires d == c.(buf := d.buf, keepAlive := d.keepAlive, req := d.req) && |d.buf| <= |c.buf|
    requires (d.keepAlive ==> c.keepAlive) && d.req.dispatch == c.req.dispatch
    ensures !d.fault && MemOk(d) && SendOk(d) && FlagsOk(d) && ShapeOk(d) && StreamOk(d) && ReplyOk(d)
  {
    SameResponse(c, d);
    hide StreamOk, ReplyOk, InputOk, PayloadOk;
  }

  lemma PumpMalformed(cfg: Config, c: Conn, s: PumpState, r: PumpResult)
    requires PumpedHere(cfg, c, s, r) && r.Malformed?
    ensures Owes(cfg, BodyResult(cfg, AfterPump(c, s), r))
  {
    MalformedReady(cfg, c, s, r);
    hide Core, Pumped, ReplyReady, Owes, SetSerialized, AfterPump;
    var d := AfterPump(c, s);
    SerializedKeeps(cfg, d.(req := d.req.(body := None)),
                    cfg.wire(if r.error == C.BodyTooLarge then PayloadTooLarge else BadRequest));
  }

  lemma MalformedReady(cfg: Config, c: Conn, s: PumpState, r: PumpResult)
    requires PumpedHere(cfg, c, s, r) && r.Malformed?
    ensures var d := AfterPump(c, s); ReplyReady(cfg, d.(req := d.req.(body := None)))
  {
    hide Wire, Flatten, Spoken, FinalBytes, Delivered, C.Run, Held, MessageOk, Conserved, ReplyOk, QueueBytes, HeadParsed,
         BodyComplete, ValidConfig, AsksToStay, CommitOk, Ordered;
    PumpedInput(cfg, c, s);
    RepliesOf(c);
  }

  lemma RepliesOf(c: Conn)
    requires ReplyOk(c)
    ensures RepliesOk(c.log)
  {
  }

  /** The buffer after a pump is a rest of the one before. */
  lemma PumpedBuf(cfg: Config, c: Conn, s: PumpState, r: PumpResult)
    requires PumpedHere(cfg, c, s, r)
    ensures Core(cfg, c) && |s.buf| <= |c.buf| && s.buf == c.buf[|c.buf| - |s.buf|..]
    ensures c.state == Dispatching && !c.recvPending && c.req.body.Some?
  {
    hide Core, Conserved, Delivered, QueueOk;
  }

  lemma PumpedInputOk(cfg: Config, c: Conn, s: PumpState, e: Conn)
    requires Core(cfg, c) && c.state == Dispatching && |s.buf| <= |c.buf| && s.buf == c.buf[|c.buf| - |s.buf|..]
    requires var d := AfterPump(c, s); e == d.(keepAlive := e.keepAlive, req := d.req.(body := e.req.body))
    requires (e.keepAlive ==> c.keepAlive) && (e.keepAlive && e.req.body.None? ==> BodyComplete(cfg, e.req.framing, e.req.raw))
    ensures InputOk(cfg, e)
  {
    PumpedInput(cfg, c, s);
    hide Wire, Flatten, BodyComplete, HeadParsed, MessageOk, MemOk, SendOk, StreamOk, ReplyOk, PayloadOk;
  }

  /** The request after a pump: what it read is added to `raw`. */
  ghost predicate PumpedRequest(cfg: Config, s: PumpState, r: PumpResult, d: Conn) {
    && d.state == Dispatching && d.req.framing.Some? && d.req.payload == s.payload
    && HeadParsed(cfg, d.req.head, d.req.ahead, d.req.framing)
    && QueueOk(s.payload) && Delivered(d.req.framing.value, cfg.maxBody, d.req.raw, s.payload)
    && (r != ReceiverClosed ==> Conserved(d.req.framing.value, cfg.maxBody, d.req.raw, s))
    && (r == AtEnd ==> s.payload.closed && s.body.pending == [] && C.AtEof(s.body.decoder) && !s.payload.dropped)
    && (r != AtEnd ==> !s.payload.closed) && (r == ReceiverClosed ==> s.payload.dropped)
    && (r == NeedRecv ==> s.buf == [] && s.body.pending == [] && !C.AtEof(s.body.decoder))
    && (r == Blocked ==> s.payload.buffered == MAX_BUFFERED && s.body.pending != [])
  }

  lemma PumpedToRequest(cfg: Config, c: Conn, s: PumpState, r: PumpResult)
    requires PumpedHere(cfg, c, s, r) && !r.Malformed?
    ensures PumpedRequest(cfg, s, r, AfterPump(c, s))
  {
    hide MemOk, SendOk, FlagsOk, ShapeOk, StreamOk, ReplyOk, InputOk, Conserved, Delivered, Held, BodyComplete, C.Run;
  }

  lemma PausedPayload(cfg: Config, s: PumpState, r: PumpResult, e: Conn)
    requires PumpedRequest(cfg, s, r, e) && (r == NeedRecv || r == Blocked) && e.req.body == Some(s.body)
    ensures PayloadOk(cfg, e)
  {
    hide Delivered, C.Run, Flatten;
    HeldAnyBuf(e.req.framing.value, cfg.maxBody, e.req.raw, s, []);
    ConservedSound(e.req.framing.value, cfg.maxBody, e.req.raw, s);
    hide Conserved, BodyComplete;
  }

  lemma ClosedPayload(cfg: Config, s: PumpState, e: Conn)
    requires PumpedRequest(cfg, s, ReceiverClosed, e) && e.req.body.None?
    ensures PayloadOk(cfg, e)
  {
    hide Delivered, Conserved, C.Run, Flatten, Held, BodyComplete;
  }

  lemma EndedPayload(cfg: Config, s: PumpState, e: Conn)
    requires PumpedRequest(cfg, s, AtEnd, e) && e.req.body.None?
    ensures PayloadOk(cfg, e) && BodyComplete(cfg, e.req.framing, e.req.raw)
  {
    BodyEnds(e.req.framing.value, cfg.maxBody, e.req.raw, s);
    hide Delivered, Conserved, C.Run, Flatten, Held;
  }

  lemma SameRequest(cfg: Config, s: PumpState, r: PumpResult, d: Conn, e: Conn)
    requires PumpedRequest(cfg, s, r, d) && e.state == d.state && e.req == d.req.(body := e.req.body)
    ensures PumpedRequest(cfg, s, r, e)
  {
    hide Delivered, Conserved, QueueOk;
  }

  /** The connection after a pump that did not fail. */
  lemma PumpedCore(cfg: Config, c: Conn, s: PumpState, e: Conn)
    requires Core(cfg, c) && c.state == Dispatching && !c.recvPending && |s.buf| <= |c.buf| && s.buf == c.buf[|c.buf| - |s.buf|..]
    requires var d := AfterPump(c, s); e == d.(keepAlive := e.keepAlive, req := d.req.(body := e.req.body))
    requires (e.keepAlive ==> c.keepAlive) && PayloadOk(cfg, e)
    requires e.keepAlive && e.req.body.None? ==> BodyComplete(cfg, e.req.framing, e.req.raw)
    ensures Core(cfg, e) && e.state == Dispatching && !e.recvPending
  {
    PumpedRest(cfg, c, e);
    PumpedInputOk(cfg, c, s, e);
    hide InputOk, PayloadOk, BodyComplete, MemOk, SendOk, FlagsOk, ShapeOk, StreamOk, ReplyOk;
  }

  lemma PumpEnded(cfg: Config, c: Conn, s: PumpState)
    requires PumpedHere(cfg, c, s, AtEnd)
    ensures Owes(cfg, BodyResult(cfg, AfterPump(c, s), AtEnd))
  {
    hide PumpedHere, Core, PayloadOk, BodyComplete, PumpedRequest;
    PumpedBuf(cfg, c, s, AtEnd);
    PumpedToRequest(cfg, c, s, AtEnd);
    var d := AfterPump(c, s);
    var e := d.(req := d.req.(body := None));
    SameRequest(cfg, s, AtEnd, d, e);
    EndedPayload(cfg, s, e);
    PumpedCore(cfg, c, s, e);
  }

  lemma PumpClosed(cfg: Config, c: Conn, s: PumpState)
    requires PumpedHere(cfg, c, s, ReceiverClosed)
    ensures Owes(cfg, BodyResult(cfg, AfterPump(c, s), ReceiverClosed))
  {
    hide PumpedHere, Core, PayloadOk, BodyComplete, PumpedRequest;
    PumpedBuf(cfg, c, s, ReceiverClosed);
    PumpedToRequest(cfg, c, s, ReceiverClosed);
    var d := AfterPump(c, s);
    var e := d.(req := d.req.(body := None), keepAlive := false);
    SameRequest(cfg, s, ReceiverClosed, d, e);
    ClosedPayload(cfg, s, e);
    PumpedCore(cfg, c, s, e);
  }

  lemma PumpPaused(cfg: Config, c: Conn, s: PumpState, r: PumpResult)
    requires PumpedHere(cfg, c, s, r) && (r == NeedRecv || r == Blocked)
    ensures Owes(cfg, BodyResult(cfg, AfterPump(c, s), r))
  {
    hide PumpedHere, Core, PayloadOk, BodyComplete, PumpedRequest;
    PumpedBuf(cfg, c, s, r);
    PumpedToRequest(cfg, c, s, r);
    var d := AfterPump(c, s);
    var e := d;
    SameRequest(cfg, s, r, d, e);
    PausedPayload(cfg, s, r, e);
    PausedWaits(cfg, s, r, e);
    PumpedCore(cfg, c, s, e);
  }

  /** A pump that pauses lacks input or room. */
  lemma PausedWaits(cfg: Config, s: PumpState, r: PumpResult, d: Conn)
    requires PumpedRequest(cfg, s, r, d) && d.req.body == Some(s.body) && d.buf == s.buf
    ensures r == NeedRecv ==> Starved(d)
    ensures r == Blocked ==> d.req.body.value.pending != [] && d.req.payload.buffered == 32768
  {
    hide Conserved, Delivered, QueueOk, HeadParsed;
  }

  lemma ConservedSound(start: C.Kind, maxBody: nat, raw: seq<byte>, s: PumpState)
    requires Conserved(start, maxBody, raw, s)
    ensures C.Sound(s.body.decoder) && QueueOk(s.payload)
  {
    hide C.Run;
  }

  lemma BodyEnds(start: C.Kind, maxBody: nat, raw: seq<byte>, s: PumpState)
    requires Conserved(start, maxBody, raw, s) && C.AtEof(s.body.decoder) && s.body.pending == [] && !s.payload.dropped
    ensures var run := C.Run(start, Some(maxBody), raw);
            && C.Sound(start) && run.verdict == C.Done && run.consumed == |raw|
            && s.payload.taken + Flatten(s.payload.chunks) == run.body
  {
    hide C.Run, Flatten;
    assert s.payload.taken + Flatten(s.payload.chunks) + [] == s.payload.taken + Flatten(s.payload.chunks);
  }

  lemma ContinueBodyKeeps(cfg: Config, c: Conn)
    requires ValidConfig(cfg) && Core(cfg, c) && c.state == Dispatching && (c.recvPending ==> Armed(cfg, c))
    ensures Owes(cfg, ContinueBody(cfg, c))
  {
    hide Wire, Flatten, Spoken, FinalBytes, Delivered, C.Run, Held, MessageOk, PumpBody;
    if !c.recvPending && c.req.body.Some? {
      PumpBodyKeeps(cfg, c);
    }
  }

  lemma AfterDispatchKeeps(cfg: Config, c: Conn)
    requires ValidConfig(cfg) && Core(cfg, c) && c.state == Dispatching && c.resp.rx.None? && !c.recvPending
    ensures Owes(cfg, AfterDispatch(cfg, c))
  {
    hide Wire, Flatten, Spoken, FinalBytes, Delivered, C.Run, Held, MessageOk, ContinueBody;
    ContinueBodyKeeps(cfg, c);
    assert c.(fault := c.fault || false) == c;
  }

  /** Parsing a head from an idle connection. */
  lemma ProcessHeadKeeps(cfg: Config, c: Conn, env: Env)
    requires EnvOk(env)
    requires ValidConfig(cfg) && Core(cfg, c) && c.state == Headers && !c.recvPending && !c.writePending
    ensures Owes(cfg, ProcessHead(cfg, c, env))
  {
    hide Core, AfterDispatch, SetSerialized, ClearBuf, StartRequest, Closable;
    match cfg.parse(c.buf)
    case IncompleteHead =>
    case BadHead(e) =>
      RejectKeeps(cfg, c, 0, cfg.wire(e));
      assert c.(buf := c.buf[0..]) == c;
    case Parsed(h) =>
      RejectKeeps(cfg, c, h.len, cfg.wire(PayloadTooLarge));
      StartRequestKeeps(cfg, c, h);
      var d := StartRequest(c, h);
      InterimKeeps(cfg, d, env.interim);
      var e := if h.expectContinue then SendInterim(d, env.interim) else d;
      hide Owes;
      AfterDispatchKeeps(cfg, e);
      UnbuiltClosable(cfg, e);
      OwesShut(cfg, e.(req := e.req.(dispatch := Idle)), IoError);
  }

  lemma OwesShut(cfg: Config, c: Conn, why: CloseReason)
    requires Closable(cfg, c) && (why == ResponseEnded ==> SentWhole(c.log))
    ensures Owes(cfg, Outcome(c, Shut(why)))
  {
  }

  lemma UnbuiltClosable(cfg: Config, c: Conn)
    requires Core(cfg, c) && c.state == Dispatching
    ensures Closable(cfg, c.(req := c.req.(dispatch := Idle)))
  {
    CoreClosable(cfg, c);
    hide Wire, Flatten, Spoken, FinalBytes, Delivered, C.Run, Held, MessageOk, Core;
  }

  // ----- writing -----

  /** The socket took `n` bytes of the tail. */
  lemma TailAdvances(r: Response, n: nat)
    requires r.written <= |r.buf| && n <= |Tail(r)|
    ensures var s := r.(written := r.written + n);
            Tail(r) == Tail(r)[..n] + Tail(s) && s.written <= |s.buf|
            && (Tail(s) == [] <==> s.written == |s.buf|)
  {
  }

  lemma OnWriteKeeps(cfg: Config, c: Conn, n: nat, now: nat)
    requires Core(cfg, c) && c.state == Writing && !c.writePending && n <= |Tail(c.resp)|
    ensures var (d, w) := OnWrite(OnWire(c, Tail(c.resp)[..n]), n, now);
            match w
            case WriteMore => Owes(cfg, Outcome(d, ArmSend))
            case AwaitResponse => Core(cfg, d) && d.state == Writing && !d.writePending && Tail(d.resp) == [] && d.resp.rx.Some?
            case RecvNext => Core(cfg, d) && d.state == Headers && !d.recvPending && !d.writePending
            case CloseNow => Closable(cfg, d) && SentWhole(d.log)
  {
    hide Wire, Flatten, Spoken, FinalBytes, Delivered, C.Run, Held, MessageOk, Reset, Core, Closable, Owes;
    var e := OnWire(c, Tail(c.resp)[..n]).(resp := c.resp.(written := c.resp.written + n));
    WrittenKeeps(cfg, c, n);
    AfterWrite(cfg, e, now);
  }

  /** A write completed: what is left decides what comes next. */
  lemma AfterWrite(cfg: Config, e: Conn, now: nat)
    requires Core(cfg, e) && e.state == Writing && !e.writePending
    ensures e.resp.written <= |e.resp.buf| && !e.resp.failed
    ensures var d := e.(resp := e.resp.(buf := [], written := 0));
            if Tail(e.resp) != [] then Owes(cfg, Outcome(e, ArmSend)) && e.resp.written < |e.resp.buf|
            else
              && e.resp.written == |e.resp.buf|
              && (e.resp.done && e.keepAlive ==>
                    var f := Reset(d, now);
                    Core(cfg, f) && f.state == Headers && !f.recvPending && !f.writePending)
              && (e.resp.done && !e.keepAlive ==> Closable(cfg, d) && SentWhole(d.log))
              && (!e.resp.done ==> Core(cfg, d) && Tail(d.resp) == [] && d.resp.rx.Some?)
  {
    hide Wire, Flatten, Spoken, FinalBytes, Delivered, C.Run, Held, MessageOk, Reset;
    if Tail(e.resp) == [] {
      EmptiedKeeps(cfg, e);
      var d := e.(resp := e.resp.(buf := [], written := 0));
      CoreClosable(cfg, d);
      if e.resp.done && e.keepAlive {
        ResetKeeps(cfg, d, now);
      }
    }
  }

  lemma WrittenKeeps(cfg: Config, c: Conn, n: nat)
    requires Core(cfg, c) && c.state == Writing && !c.writePending && n <= |Tail(c.resp)|
    ensures Core(cfg, OnWire(c, Tail(c.resp)[..n]).(resp := c.resp.(written := c.resp.written + n)))
  {
    hide Wire, Flatten, Spoken, FinalBytes, Delivered, C.Run, Held, MessageOk;
    TailAdvances(c.resp, n);
    var t := Tail(c.resp);
    var s := Tail(c.resp.(written := c.resp.written + n));
    assert c.log.sent + (t[..n] + s) + RxBytes(c.resp.rx) == c.log.sent + t[..n] + s + RxBytes(c.resp.rx);
  }

  lemma EmptiedKeeps(cfg: Config, c: Conn)
    requires Core(cfg, c) && c.state == Writing && !c.writePending && Tail(c.resp) == []
    ensures Core(cfg, c.(resp := c.resp.(buf := [], written := 0)))
  {
    hide Wire, Flatten, Spoken, FinalBytes, Delivered, C.Run, Held, MessageOk;
  }

  /** A response that ended on a connection to be kept: everything is at a message boundary. */
  lemma ResetKeeps(cfg: Config, c: Conn, now: nat)
    requires Core(cfg, c) && c.state == Writing && !c.writePending && Tail(c.resp) == [] && c.resp.done && c.keepAlive
    ensures var d := Reset(c, now);
            Core(cfg, d) && d.state == Headers && !d.recvPending && !d.writePending
  {
    ResetInput(cfg, c, now);
    ResetStream(c, now);
    ResetReply(c, now);
    NothingDelivered();
    hide InputOk, StreamOk, ReplyOk, QueueOk, BodyComplete, C.Run;
  }

  lemma ResetInput(cfg: Config, c: Conn, now: nat)
    requires InputOk(cfg, c) && c.state == Writing && c.keepAlive && c.req.body.None?
    ensures InputOk(cfg, Reset(c, now)) && !c.log.cut
  {
    var m := Message(c.req.head, c.req.ahead, c.req.framing, c.req.raw);
    WirePush(c.log.past, m);
    assert MessageOk(cfg, m);
    hide Wire, HeadParsed, BodyComplete, MessageOk;
    assert c.log.received == Wire(c.log.past + [m]) + [] + [] + c.buf;
  }

  lemma ResetStream(c: Conn, now: nat)
    requires StreamOk(c) && c.state == Writing && Tail(c.resp) == [] && c.resp.rx.None?
    ensures StreamOk(Reset(c, now))
  {
    SpokenPush(c.log.replies, c.log.reply);
    NoReplyBytes();
    hide Spoken, ReplyBytes;
    assert c.log.sent + [] + [] == c.log.sent;
  }

  lemma NothingDelivered()
    ensures QueueOk(EMPTY_PAYLOAD)
  {
    assert Flatten<byte>([]) == [] by { FlattenEmpty(); }
  }

  lemma NoReplyBytes()
    ensures ReplyBytes(NO_REPLY) == []
  {
  }

  /** A response that is done and kept is a finished one. */
  lemma ResetReply(c: Conn, now: nat)
    requires ReplyOk(c) && c.state == Writing && c.resp.done && c.keepAlive
    ensures ReplyOk(Reset(c, now))
  {
  }

  lemma SpokenPush(replies: seq<Reply>, r: Reply)
    ensures Spoken(replies + [r]) == Spoken(replies) + ReplyBytes(r)
  {
    assert (replies + [r])[..|replies|] == replies;
  }

  lemma FlattenEmpty()
    ensures Flatten<byte>([]) == []
  {
  }

  // ----- polling the response stream -----

  lemma {:induction false} SkipKeepsBytes(queue: seq<StreamEvent>)
    requires Ordered(queue)
    ensures Ordered(SkipEmpty(queue)) && QueueBytes(SkipEmpty(queue)) == QueueBytes(queue)
    ensures SkipEmpty(queue) != [] ==> SkipEmpty(queue)[0] != Data([])
  {
    if queue != [] && queue[0] == Data([]) {
      OrderedTail(queue);
      SkipKeepsBytes(queue[1..]);
      assert [] + QueueBytes(queue[1..]) == QueueBytes(queue[1..]);
    }
  }

  lemma OrderedTail(queue: seq<StreamEvent>)
    requires Ordered(queue) && queue != []
    ensures Ordered(queue[1..]) && (!queue[0].Data? ==> queue[1..] == [])
  {
    assert forall i :: 0 <= i < |queue[1..]| ==> queue[1..][i] == queue[i + 1];
  }

  /** What the first non-empty event says about the bytes still queued. */
  lemma QueueHead(queue: seq<StreamEvent>)
    requires Ordered(queue)
    ensures var q := SkipEmpty(queue);
            && (q == [] ==> QueueBytes(queue) == [])
            && (q != [] ==> Ordered(q[1..]))
            && (q != [] && q[0].Data? ==> QueueBytes(queue) == q[0].bytes + QueueBytes(q[1..]) && q[0].bytes != [])
            && (q != [] && !q[0].Data? ==> QueueBytes(queue) == [])
  {
    SkipKeepsBytes(queue);
    var q := SkipEmpty(queue);
    if q != [] {
      OrderedTail(q);
      if !q[0].Data? {
        assert q == [q[0]];
      }
    }
  }

  /** A connection whose response may be looked at. */
  ghost predicate Pollable(cfg: Config, c: Conn) {
    && Core(cfg, c) && !c.writePending && Tail(c.resp) == []
    && (c.state == Dispatching || (c.state == Writing && c.resp.rx.Some?))
  }

  /** What each outcome of polling means. */
  ghost predicate Polled(cfg: Config, c: Conn, d: Conn, p: Progress) {
    match p
    case Pending =>
      && Pollable(cfg, d) && d == c.(resp := d.resp)
      && (d.resp.rx.Some? ==> d.resp.rx.value == Channel([], true))
    case WriteReady => Owes(cfg, Outcome(d, ArmSend))
    case Complete => Core(cfg, d) && d.state == Writing && !d.writePending && Tail(d.resp) == [] && d.resp.done
    case StartFailed => ReplyReady(cfg, d)
    case StreamFailed => Closable(cfg, d)
  }

  lemma PollKeeps(cfg: Config, c: Conn)
    requires Pollable(cfg, c)
    ensures var (d, p) := PollResponse(c); Polled(cfg, c, d, p)
  {
    hide Polled, Pollable, Core;
    PollableFacts(cfg, c);
    if c.resp.rx.None? {
      PollSame(cfg, c);
    } else {
      var ch := c.resp.rx.value;
      QueueHead(ch.queue);
      SkipBehind(c.log.reply.final.events, ch.queue);
      var q := SkipEmpty(ch.queue);
      hide SkipEmpty, QueueBytes, Ordered;
      if q == [] {
        if ch.open {
          PollDrained(cfg, c);
        } else {
          BrokenPolled(cfg, c);
        }
      } else if q[0].Data? {
        BehindNext(c.log.reply.final.events, q);
        StartWritingKeeps(cfg, c, q[0].bytes, ch.(queue := q[1..]));
      } else if q[0].StreamDone? {
        DoneEnds(c.log.reply.final.events, q);
        DoneKeeps(cfg, c);
      } else {
        BrokenPolled(cfg, c);
      }
    }
  }

  lemma PollableFacts(cfg: Config, c: Conn)
    requires Pollable(cfg, c)
    ensures Tail(c.resp) == [] && !c.resp.failed && !c.writePending
    ensures c.resp.rx.None? ==> !c.resp.done
    ensures c.resp.rx.Some? ==>
              && Ordered(c.resp.rx.value.queue) && !c.resp.done
              && |c.resp.rx.value.queue| <= RESPONSE_STREAM_CAPACITY && c.log.reply.final.Streamed?
              && Behind(c.log.reply.final.events, c.resp.rx.value.queue) && Ordered(c.log.reply.final.events)
    ensures c.resp.started <==> c.state == Writing
  {
    hide Wire, Flatten, Spoken, FinalBytes, Delivered, C.Run, Held, MessageOk, Ordered;
  }

  lemma {:induction false} SkipBehind(events: seq<StreamEvent>, queue: seq<StreamEvent>)
    requires Behind(events, queue)
    ensures Behind(events, SkipEmpty(queue)) && |SkipEmpty(queue)| <= |queue|
    decreases |queue|
  {
    if queue != [] && queue[0] == Data([]) {
      BehindNext(events, queue);
      hide Behind;
      SkipBehind(events, queue[1..]);
    }
  }

  lemma BehindNext(events: seq<StreamEvent>, queue: seq<StreamEvent>)
    requires Behind(events, queue) && queue != [] && queue[0].Data?
    ensures Behind(events, queue[1..])
  {
    var n := |events| - |queue|;
    assert events[n] == events[n..][0] && events[n + 1..] == events[n..][1..];
  }

  /** The end of a stream is the last event emitted. */
  lemma DoneEnds(events: seq<StreamEvent>, queue: seq<StreamEvent>)
    requires Behind(events, queue) && Ordered(events) && queue != [] && queue[0] == StreamDone
    ensures EndsWell(events)
  {
    var n := |events| - |queue|;
    assert events[n] == events[n..][0];
  }

  lemma PollSame(cfg: Config, c: Conn)
    requires Pollable(cfg, c) && c.resp.rx.None?
    ensures Polled(cfg, c, c, Pending)
  {
    hide Pollable;
  }

  lemma PollDrained(cfg: Config, c: Conn)
    requires Pollable(cfg, c) && c.resp.rx.Some? && QueueBytes(c.resp.rx.value.queue) == [] && c.resp.rx.value.open
    requires Behind(c.log.reply.final.events, [])
    ensures Polled(cfg, c, c.(resp := c.resp.(rx := Some(c.resp.rx.value.(queue := [])))), Pending)
  {
    hide Wire, Flatten, Spoken, FinalBytes, Delivered, C.Run, Held, MessageOk, Behind, EndsWell, ReplyBytes, BodyComplete, HeadParsed,
         QueueOk, InputOk, PayloadOk;
    RequestStays(cfg, c, c.(resp := c.resp.(rx := Some(c.resp.rx.value.(queue := [])))));
  }

  lemma BrokenPolled(cfg: Config, c: Conn)
    requires Pollable(cfg, c) && c.resp.rx.Some?
    ensures var (d, p) := StreamBroken(c); Polled(cfg, c, d, p)
  {
    hide Wire, Flatten, Spoken, FinalBytes, Delivered, C.Run, Held, MessageOk, Ordered;
  }

  lemma DoneKeeps(cfg: Config, c: Conn)
    requires Pollable(cfg, c) && c.resp.rx.Some? && QueueBytes(c.resp.rx.value.queue) == []
    requires c.log.reply.final.Streamed? && EndsWell(c.log.reply.final.events)
    ensures Polled(cfg, c, c.(resp := c.resp.(rx := None, done := true)), if c.resp.started then Complete else StartFailed)
  {
    hide Core, ReplyReady, Pollable, QueueBytes, EndsWell, Tail;
    if c.resp.started {
      DoneStarted(cfg, c);
    } else {
      DoneUnstarted(cfg, c);
    }
  }

  lemma DoneStarted(cfg: Config, c: Conn)
    requires Pollable(cfg, c) && c.resp.rx.Some? && QueueBytes(c.resp.rx.value.queue) == [] && c.resp.started
    requires c.log.reply.final.Streamed? && EndsWell(c.log.reply.final.events)
    ensures var d := c.(resp := c.resp.(rx := None, done := true));
            Core(cfg, d) && d.state == Writing && !d.writePending && Tail(d.resp) == []
  {
    RequestStays(cfg, c, c.(resp := c.resp.(rx := None, done := true)));
    hide InputOk, PayloadOk, Flatten, Spoken, FinalBytes, Ordered, EndsWell, Behind;
  }

  /** The producer ended without a byte: nothing of the response is out. */
  lemma DoneUnstarted(cfg: Config, c: Conn)
    requires Pollable(cfg, c) && c.resp.rx.Some? && !c.resp.started
    ensures ReplyReady(cfg, c.(resp := c.resp.(rx := None, done := true)))
  {
    hide Wire, Flatten, Spoken, FinalBytes, Delivered, C.Run, Held, MessageOk, Ordered, EndsWell, Behind, QueueBytes;
  }

  lemma StartWritingKeeps(cfg: Config, c: Conn, bytes: seq<byte>, rest: Channel)
    requires Pollable(cfg, c) && c.resp.rx.Some? && bytes != [] && Ordered(rest.queue)
    requires QueueBytes(c.resp.rx.value.queue) == bytes + QueueBytes(rest.queue)
    requires c.log.reply.final.Streamed? && Behind(c.log.reply.final.events, rest.queue)
    requires |rest.queue| <= RESPONSE_STREAM_CAPACITY
    ensures Polled(cfg, c, StartWriting(c, bytes, rest), WriteReady)
  {
    hide Wire, Flatten, Spoken, FinalBytes, Delivered, C.Run, Held, MessageOk, Ordered, QueueBytes;
    var d := StartWriting(c, bytes, rest);
    var q := QueueBytes(rest.queue);
    assert Tail(d.resp) == bytes;
    assert c.log.sent + [] + (bytes + q) == c.log.sent + bytes + q;
    if c.state == Dispatching {
      var before := Spoken(c.log.replies);
      assert before + c.log.reply.interim + bytes + q == before + (c.log.reply.interim + (bytes + q));
    }
  }

  lemma AdvanceResponseKeeps(cfg: Config, c: Conn, env: Env)
    requires EnvOk(env)
    requires ValidConfig(cfg) && Core(cfg, c)
    requires c.state == Dispatching || (c.state == Writing && (c.writePending || (Tail(c.resp) == [] && c.resp.rx.Some?)))
    ensures var out := AdvanceResponse(cfg, c, env);
            if c.state == Dispatching && out.op == Rest then Core(cfg, out.conn) && out.conn == c.(resp := out.conn.resp)
            else Owes(cfg, out)
  {
    hide EnvOk, Core, PollResponse, Owes, Pollable, ReplyReady, Closable, OnWrite, AfterResponse, SetSerialized, Tail;
    if c.state == Dispatching {
      TailOfIdle(cfg, c);
    }
    if c.writePending {
      OwesRest(cfg, c);
    } else {
      PollableNow(cfg, c);
      PollKeeps(cfg, c);
      PollState(c);
      var (d, p) := PollResponse(c);
      match p
      case Pending => RestAfterPoll(cfg, d);
      case WriteReady =>
      case Complete => CompleteKeeps(cfg, d, env);
      case StartFailed => SerializedKeeps(cfg, d, cfg.wire(InternalError));
      case StreamFailed => OwesShut(cfg, d, IoError);
    }
  }

  lemma PollState(c: Conn)
    ensures var (d, p) := PollResponse(c); p != WriteReady ==> d.state == c.state
  {
    hide SkipEmpty, StartWriting, Tail;
  }

  lemma PollableNow(cfg: Config, c: Conn)
    requires Core(cfg, c) && !c.writePending && Tail(c.resp) == []
    requires c.state == Dispatching || (c.state == Writing && c.resp.rx.Some?)
    ensures Pollable(cfg, c)
  {
    hide Core, Tail;
  }

  lemma TailOfIdle(cfg: Config, c: Conn)
    requires Core(cfg, c) && c.state == Dispatching
    ensures Tail(c.resp) == [] && !c.writePending
  {
  }

  lemma RestAfterPoll(cfg: Config, d: Conn)
    requires Pollable(cfg, d)
    ensures Core(cfg, d) && (d.state == Writing ==> Owes(cfg, Outcome(d, Rest)))
  {
    PollableFacts(cfg, d);
    hide Core;
  }

  lemma CompleteKeeps(cfg: Config, d: Conn, env: Env)
    requires EnvOk(env)
    requires ValidConfig(cfg) && Core(cfg, d) && d.state == Writing && !d.writePending && Tail(d.resp) == [] && d.resp.done
    ensures var (e, w) := OnWrite(d, 0, env.now); Owes(cfg, AfterResponse(cfg, e, w, env))
  {
    hide Core, Closable, Reset, Owes, ProcessHead;
    AfterWrite(cfg, d, env.now);
    var f := d.(resp := d.resp.(buf := [], written := 0));
    if d.keepAlive {
      ResumeKeeps(cfg, Reset(f, env.now), env);
    } else {
      OwesShut(cfg, f, ResponseEnded);
    }
  }

  lemma ResumeKeeps(cfg: Config, c: Conn, env: Env)
    requires EnvOk(env)
    requires ValidConfig(cfg) && Core(cfg, c) && c.state == Headers && !c.recvPending && !c.writePending
    ensures Owes(cfg, Resume(cfg, c, env))
  {
    hide Core, ProcessHead;
    ProcessHeadKeeps(cfg, c, env);
  }

  // ----- dispatching -----

  lemma StartResponseKeeps(cfg: Config, c: Conn, closes: bool)
    requires Core(cfg, c) && c.state == Dispatching && c.req.dispatch.Answered?
    ensures Core(cfg, StartResponse(c, closes)) && StartResponse(c, closes).state == Dispatching
  {
    hide Wire, Flatten, Spoken, FinalBytes, Delivered, C.Run, Held, MessageOk;
  }

  lemma AdvanceDispatchingKeeps(cfg: Config, c: Conn, env: Env)
    requires EnvOk(env)
    requires ValidConfig(cfg) && Core(cfg, c) && (c.state != Dispatching || c.recvPending ==> Armed(cfg, c))
    ensures Owes(cfg, AdvanceDispatching(cfg, c, env))
  {
    hide Core, StartResponse, AdvanceResponse, ContinueBody, Unfinished, Starved;
    if c.state == Dispatching {
      if c.req.dispatch.Answered? {
        StartResponseKeeps(cfg, c, c.req.dispatch.closes);
        StartResponseBody(c, c.req.dispatch.closes);
      }
      var d := if c.req.dispatch.Answered? then StartResponse(c, c.req.dispatch.closes) else c;
      AdvanceResponseKeeps(cfg, d, env);
      var out := AdvanceResponse(cfg, d, env);
      if out.op == Rest && out.conn.state == Dispatching {
        SameStarved(c, out.conn);
        ContinueBodyKeeps(cfg, out.conn);
      }
    }
  }

  /** Once the handler has answered, no body is being read any more. */
  lemma StartResponseBody(c: Conn, closes: bool)
    ensures var d := StartResponse(c, closes);
            && d.req.body.None? && d.recvPending == c.recvPending && d.buf == c.buf
            && d.keepAlive == (c.keepAlive && !closes && c.req.body.None?)
  {
  }

  lemma SameStarved(c: Conn, d: Conn)
    requires d.buf == c.buf
    ensures d.req.body == c.req.body ==> Starved(d) == Starved(c)
  {
  }

  // ----- completions -----

  /** The received bytes land exactly behind the buffer. */
  lemma CommitKeeps(cfg: Config, c: Conn, bytes: seq<byte>)
    requires Core(cfg, c) && c.recvPending && c.state != Closed && |bytes| <= c.recvTarget.value.len
    ensures CommitOk(c.(recvPending := false))
    ensures var d := CommitRecv(c.(recvPending := false), bytes);
            && !d.timeoutError == !c.timeoutError && d.buf == c.buf + bytes
            && d.log.received == c.log.received + bytes && !d.recvPending && d.writePending == c.writePending
            && d.state == c.state && d.req == c.req && d.resp == c.resp
            && (!c.timeoutError ==> Core(cfg, d))
  {
    assert bytes[..|bytes|] == bytes;
    var d := CommitRecv(c.(recvPending := false), bytes);
    SameResponse(c, d);
    CommittedInput(cfg, c, d, bytes);
    hide InputOk, PayloadOk, StreamOk, ReplyOk;
    SamePayload(cfg, c, d);
  }

  lemma CommittedInput(cfg: Config, c: Conn, d: Conn, bytes: seq<byte>)
    requires InputOk(cfg, c) && d.buf == c.buf + bytes && d.log == c.log.(received := c.log.received + bytes)
    requires d.req == c.req && d.state == c.state && d.keepAlive == c.keepAlive
    ensures InputOk(cfg, d)
  {
    hide Wire, HeadParsed, BodyComplete, MessageOk;
    var before := Wire(c.log.past) + c.req.head + c.req.raw;
    assert before + c.buf + bytes == before + (c.buf + bytes);
  }

  lemma SamePayload(cfg: Config, c: Conn, d: Conn)
    requires PayloadOk(cfg, c) && d.req == c.req && d.state == c.state
    ensures PayloadOk(cfg, d)
  {
    hide QueueOk, DeliveredOk, Held, BodyComplete, C.Run, Flatten;
  }

  /** A RECV that failed or came too late leaves the buffer as it was. */
  lemma DiscardKeeps(cfg: Config, c: Conn, res: Option<seq<byte>>)
    requires Core(cfg, c) && c.recvPending
    requires c.timeoutError || c.state == Closed || res.None?
    ensures var d := LoseRecv(c.(recvPending := false), res).(timeoutError := false);
            && (c.timeoutError && c.state == Dispatching ==> ReplyReady(cfg, d))
            && (!(c.timeoutError && c.state == Dispatching) ==> Core(cfg, d))
            && (c.timeoutError && c.state == Writing ==> Core(cfg, d.(keepAlive := false)))
  {
    hide Wire, Flatten, Spoken, FinalBytes, Delivered, C.Run, Held, MessageOk, Ordered, QueueBytes, Behind, EndsWell;
    LostInput(c, res);
    var d := LoseRecv(c.(recvPending := false), res).(timeoutError := false);
    SameResponse(c, d);
    SameResponse(c, d.(keepAlive := false));
    if c.state == Dispatching {
      assert ReplyBytes(c.log.reply) == c.log.reply.interim + RxBytes(c.resp.rx);
    }
  }

  lemma LostInput(c: Conn, res: Option<seq<byte>>)
    requires Wire(c.log.past) <= c.log.received
    ensures var d := LoseRecv(c.(recvPending := false), res);
            Wire(d.log.past) <= d.log.received && (!d.log.cut ==> d.log == c.log) && d.log.past == c.log.past
  {
    hide Wire;
  }

  lemma HandleRecvKeeps(cfg: Config, c: Conn, res: Option<seq<byte>>, env: Env)
    requires EnvOk(env)
    requires ValidConfig(cfg) && Core(cfg, c) && Armed(cfg, c) && c.recvPending
    requires res.Some? ==> |res.value| <= c.recvTarget.value.len
    ensures Owes(cfg, HandleRecv(cfg, c, res, env))
  {
    RecvFlags(cfg, c);
    hide Core, CommitRecv, CommitOk, SetSerialized, ProcessHead, AdvanceDispatching, Closable, Owes, LoseRecv, ReplyReady;
    hide ValidConfig, EnvOk, Armed;
    var e := c.(recvPending := false);
    var late := LoseRecv(e, res);
    LoseParts(e, res);
    if c.state == Closed {
      DiscardKeeps(cfg, c, res);
      OwesRelease(cfg, late);
    } else if c.timeoutError {
      LateRecvKeeps(cfg, c, res);
    } else if res.None? {
      DiscardKeeps(cfg, c, res);
      CoreClosable(cfg, late);
      OwesShut(cfg, late, IoError);
    } else {
      CommitKeeps(cfg, c, res.value);
      ReceivedKeeps(cfg, c, res.value, env);
    }
  }

  lemma LoseParts(e: Conn, res: Option<seq<byte>>)
    ensures var d := LoseRecv(e, res);
            && d.state == e.state && d.timeoutError == e.timeoutError && (!e.timeoutError ==> d.(timeoutError := false) == d)
            && d.writePending == e.writePending && (res.None? ==> d == e.(recvTarget := None))
  {
  }

  lemma OwesRelease(cfg: Config, c: Conn)
    requires Core(cfg, c) && c.state == Closed
    ensures Owes(cfg, Outcome(c, Release))
  {
    hide Core;
  }

  /** A RECV that comes in after its request timed out is answered with the timeout. */
  lemma LateRecvKeeps(cfg: Config, c: Conn, res: Option<seq<byte>>)
    requires ValidConfig(cfg) && Core(cfg, c) && Armed(cfg, c) && c.recvPending && c.timeoutError
    requires c.state == Dispatching || c.state == Writing
    ensures var d := LoseRecv(c.(recvPending := false), res).(timeoutError := false);
            if c.writePending || c.state != Dispatching then Owes(cfg, Outcome(d.(keepAlive := false), Rest))
            else Owes(cfg, Outcome(SetSerialized(d, cfg.wire(RequestTimeout)), ArmSend))
  {
    DiscardKeeps(cfg, c, res);
    if c.state == Dispatching {
      TailOfIdle(cfg, c);
    }
    hide Core, ReplyReady, SetSerialized;
    if c.state == Dispatching {
      SerializedKeeps(cfg, LoseRecv(c.(recvPending := false), res).(timeoutError := false), cfg.wire(RequestTimeout));
    }
  }

  lemma ReceivedKeeps(cfg: Config, c: Conn, bytes: seq<byte>, env: Env)
    requires EnvOk(env)
    requires ValidConfig(cfg) && Core(cfg, c) && Armed(cfg, c) && c.recvPending && c.state != Closed
    requires |bytes| <= c.recvTarget.value.len && !c.timeoutError
    ensures CommitOk(c.(recvPending := false))
    ensures var d := CommitRecv(c.(recvPending := false), bytes);
            && Owes(cfg, Outcome(d, Shut(IoError)))
            && (c.state == Headers ==> Owes(cfg, ProcessHead(cfg, d, env)))
            && (c.state == Dispatching ==> Owes(cfg, AdvanceDispatching(cfg, d, env)))
            && (c.state == Writing ==> Owes(cfg, Outcome(d, Rest)))
  {
    CommitKeeps(cfg, c, bytes);
    hide Core, CommitRecv, CommitOk, ProcessHead, AdvanceDispatching, Closable, Owes, ValidConfig;
    var d := CommitRecv(c.(recvPending := false), bytes);
    CoreClosable(cfg, d);
    OwesShut(cfg, d, IoError);
    match c.state
    case Headers =>
      NoSend(cfg, d);
      ProcessHeadKeeps(cfg, d, env);
    case Dispatching => AdvanceDispatchingKeeps(cfg, d, env);
    case Writing => OwesRest(cfg, d);
  }

  lemma OwesRest(cfg: Config, c: Conn)
    requires Core(cfg, c) && Armed(cfg, c)
    ensures Owes(cfg, Outcome(c, Rest))
  {
    hide Core;
  }

  lemma NoSend(cfg: Config, c: Conn)
    requires Core(cfg, c) && c.state == Headers
    ensures !c.writePending
  {
  }

  lemma RecvFlags(cfg: Config, c: Conn)
    requires Core(cfg, c)
    ensures c.timeoutError ==> c.state == Dispatching || c.state == Writing
  {
  }

  lemma SendIdle(cfg: Config, c: Conn)
    requires Core(cfg, c)
    ensures Core(cfg, c.(writePending := false))
    ensures c.writePending ==> c.state == Writing || c.state == Closed
  {
    hide Wire, Flatten, Spoken, FinalBytes, Delivered, C.Run, Held, MessageOk, Ordered;
  }

  lemma HandleSendKeeps(cfg: Config, c: Conn, res: Option<nat>, env: Env)
    requires EnvOk(env)
    requires ValidConfig(cfg) && Core(cfg, c) && Armed(cfg, c) && c.writePending
    requires res.Some? ==> res.value <= |Tail(c.resp)|
    ensures var n := if res.Some? then res.value else 0;
            Owes(cfg, HandleSend(cfg, OnWire(c, Tail(c.resp)[..n]), res, env))
  {
    SendIdle(cfg, c);
    hide Core, Owes, OnWire;
    var e := c.(writePending := false);
    var n := if res.Some? then res.value else 0;
    OnWireWaiting(c, Tail(c.resp)[..n]);
    if c.state == Closed {
      ClosedSend(cfg, c, n);
    } else if res.None? {
      CoreClosable(cfg, e);
      OwesShut(cfg, e, IoError);
    } else {
      LiveSendKeeps(cfg, e, n, env);
    }
  }

  lemma OnWireWaiting(c: Conn, bytes: seq<byte>)
    ensures OnWire(c, bytes).(writePending := false) == OnWire(c.(writePending := false), bytes)
    ensures bytes == [] ==> OnWire(c, bytes) == c
    ensures OnWire(c, bytes).state == c.state
  {
    assert c.log.sent + [] == c.log.sent;
  }

  lemma LiveSendKeeps(cfg: Config, e: Conn, n: nat, env: Env)
    requires EnvOk(env)
    requires ValidConfig(cfg) && Core(cfg, e) && e.state == Writing && !e.writePending && n <= |Tail(e.resp)|
    ensures var (d, w) := OnWrite(OnWire(e, Tail(e.resp)[..n]), n, env.now);
            match w
            case WriteMore => Owes(cfg, Outcome(d, ArmSend))
            case AwaitResponse => Owes(cfg, AdvanceResponse(cfg, d, env))
            case _ => Owes(cfg, AfterResponse(cfg, d, w, env))
  {
    OnWriteKeeps(cfg, e, n, env.now);
    hide Core, OnWrite, OnWire, Closable, Owes, AdvanceResponse, Resume;
    var (d, w) := OnWrite(OnWire(e, Tail(e.resp)[..n]), n, env.now);
    match w
    case WriteMore =>
    case AwaitResponse => AdvanceResponseKeeps(cfg, d, env);
    case RecvNext => ResumeKeeps(cfg, d, env);
    case CloseNow => OwesShut(cfg, d, ResponseEnded);
  }

  /** After the close the socket may still take part of the tail. */
  lemma ClosedSend(cfg: Config, c: Conn, n: nat)
    requires Core(cfg, c) && c.state == Closed && c.writePending && n <= |Tail(c.resp)|
    ensures Owes(cfg, Outcome(OnWire(c, Tail(c.resp)[..n]).(writePending := false), Release))
  {
    hide Wire, Flatten, Spoken, FinalBytes, Delivered, C.Run, Held, MessageOk, Ordered;
  }

  lemma SweepKeeps(cfg: Config, c: Conn, now: nat)
    requires ValidConfig(cfg) && Core(cfg, c) && Armed(cfg, c) && c.state != Closed
    ensures Owes(cfg, SweepOne(cfg, c, now))
  {
    CoreClosable(cfg, c);
    OwesShut(cfg, c, Timeout);
    if BodyTimedOut(cfg, c, now) {
      if c.recvPending {
        TimeoutKeeps(cfg, c);
        OwesCancel(cfg, c.(timeoutError := true));
      } else {
        TailOfIdle(cfg, c);
        CoreReplyReady(cfg, c);
        hide Core, ReplyReady, Closable, SetSerialized;
        SerializedKeeps(cfg, c, cfg.wire(RequestTimeout));
      }
    }
    hide Core, Owes, Closable, SetSerialized, ReplyReady;
  }

  lemma OwesCancel(cfg: Config, c: Conn)
    requires Core(cfg, c) && Armed(cfg, c) && c.recvPending && c.state != Closed
    ensures Owes(cfg, Outcome(c, CancelRecv))
  {
    hide Core;
  }

  lemma TimeoutKeeps(cfg: Config, c: Conn)
    requires Core(cfg, c) && c.state == Dispatching && c.recvPending
    ensures Core(cfg, c.(timeoutError := true))
  {
    hide Wire, Flatten, Spoken, FinalBytes, Delivered, C.Run, Held, MessageOk, Ordered;
  }

  // ----- arming, accepting, draining -----

  /** A fresh RECV gets at least half of the default buffer, and never nothing. */
  lemma PrepareRecvGives(c: Conn, base: nat, extra: nat)
    requires !c.recvPending && |c.buf| <= c.mem.end
    ensures var d := PrepareRecv(c, base, extra);
            && |d.buf| <= d.mem.end && CommitOk(d) && d.fault == c.fault
            && 4096 <= d.recvTarget.value.len == Min(d.mem.spare, 0xFFFF_FFFF)
  {
  }

  /**
   A full default buffer is promised, whatever the allocator does, exactly when there was no
   spare capacity at all or already enough; in between, `reserve` asks for the difference only.
   */
  lemma FullBufferExactly(c: Conn)
    requires !c.recvPending && |c.buf| <= c.mem.end
    ensures (forall base, extra :: 8192 <= PrepareRecv(c, base, extra).recvTarget.value.len) <==>
            c.mem.spare == 0 || 8192 <= c.mem.spare
  {
    var least := PrepareRecv(c, 0, 0);
    assert least.recvTarget.value.len ==
           if DEFAULT_BUFFER_SIZE <= c.mem.spare then Min(c.mem.spare, U32_MAX)
           else if DEFAULT_BUFFER_SIZE - c.mem.spare <= c.mem.spare then c.mem.spare
           else DEFAULT_BUFFER_SIZE - c.mem.spare;
  }

  /**
   A declared body that the head check lets through is refused by the pump from the start
   exactly when the limit is zero: the head check takes zero for "none", the pump does not.
   */
  lemma ZeroLimitExactly(h: Head, maxBody: nat, buf: seq<byte>)
    requires !h.chunked && h.contentLength.Some? && 0 < h.contentLength.value && !ExceedsLimit(h, maxBody)
    ensures FramingOf(h) == Some(C.Length(h.contentLength.value))
    ensures C.Decode(FramingOf(h).value, Some(maxBody), buf).item == C.Error(C.BodyTooLarge) <==> maxBody == 0
  {
  }

  /** With a limit of zero the pump refuses the five bytes `hello` that the head check let through. */
  lemma HelloRefused()
    ensures var h := Head(36, Some(5), false, true, false);
            var hello: seq<byte> := [104, 101, 108, 108, 111];
            && !ExceedsLimit(h, 0) && FramingOf(h) == Some(C.Length(5))
            && Pump(PumpState(BodyState(C.Length(5), []), EMPTY_PAYLOAD, hello), 0).1 == Malformed(C.BodyTooLarge)
  {
  }

  lemma ArmRecvKeeps(cfg: Config, c: Conn, base: nat, extra: nat)
    requires Owes(cfg, Outcome(c, ArmRecv))
    ensures var d := PrepareRecv(c, base, extra);
            && Core(cfg, d.(recvPending := true)) && Armed(cfg, d.(recvPending := true))
            && Closable(cfg, d.(recvTarget := None))
            && !c.recvPending && 0 <= c.fd && !d.fault && c.state != Closed
  {
    hide Wire, Flatten, Spoken, FinalBytes, Delivered, C.Run, Held, MessageOk, Ordered;
    PrepareRecvGives(c, base, extra);
    CoreClosable(cfg, c);
  }

  lemma ArmSendKeeps(cfg: Config, c: Conn)
    requires Owes(cfg, Outcome(c, ArmSend))
    ensures var d := c.(writePending := true);
            && Core(cfg, d) && Armed(cfg, d) && Closable(cfg, c)
            && !c.writePending && 0 <= c.fd && c.state == Writing
  {
    hide Wire, Flatten, Spoken, FinalBytes, Delivered, C.Run, Held, MessageOk, Ordered;
    CoreClosable(cfg, c);
  }

  lemma NewConnOwes(cfg: Config, fd: int, generation: nat, now: nat, mem: Mem)
    requires 0 <= fd
    ensures Owes(cfg, Outcome(NewConn(fd, generation, now, mem), ArmRecv))
  {
    FlattenEmpty();
    assert Flatten<seq<byte>>([]) == [];
  }

  lemma DrainKeeps(cfg: Config, c: Conn)
    requires Core(cfg, c) && Armed(cfg, c) && c.state != Closed
    ensures var d := c.(draining := true, keepAlive := false);
            Core(cfg, d) && Armed(cfg, d) && Closable(cfg, d)
  {
    hide Wire, Flatten, Spoken, FinalBytes, Delivered, C.Run, Held, MessageOk, Ordered;
    CoreClosable(cfg, c.(draining := true, keepAlive := false));
  }

  // ----- the handler's side -----

  lemma {:induction false} QueuePush(queue: seq<StreamEvent>, ev: StreamEvent)
    requires Ordered(queue) && !Terminated(queue)
    ensures Ordered(queue + [ev])
    ensures QueueBytes(queue + [ev]) == QueueBytes(queue) + (if ev.Data? then ev.bytes else [])
  {
    var more := queue + [ev];
    if queue == [] {
      assert more == [ev] && more[1..] == [];
    } else {
      var tail := queue[1..];
      assert more[0] == queue[0] && more[1..] == tail + [ev];
      StillOpen(queue);
      OrderedTail(queue);
      hide Terminated;
      QueuePush(tail, ev);
      var rest := if ev.Data? then ev.bytes else [];
      assert queue[0].bytes + QueueBytes(tail) + rest == queue[0].bytes + (QueueBytes(tail) + rest);
    }
  }

  lemma StillOpen(queue: seq<StreamEvent>)
    requires queue != [] && !Terminated(queue)
    ensures queue[0].Data? && !Terminated(queue[1..])
  {
    assert queue[0].Data?;
    forall i | 0 <= i < |queue| - 1 ensures queue[1..][i].Data? {
      assert queue[i + 1].Data?;
    }
  }

  /** One more event behind data events only. */
  lemma PushBehind(events: seq<StreamEvent>, queue: seq<StreamEvent>, ev: StreamEvent)
    requires Behind(events, queue) && !Terminated(queue)
    ensures Behind(events + [ev], queue + [ev]) && Ordered(events + [ev])
  {
    var n := |events| - |queue|;
    forall i | n <= i < |events| ensures events[i].Data? {
      assert events[i] == events[n..][i - n] == queue[i - n];
    }
    assert (events + [ev])[n..] == queue + [ev];
  }

  lemma EmittedReply(c: Conn, ev: StreamEvent)
    requires ReplyOk(c) && CanEmit(c) && !c.resp.done
    ensures ReplyOk(Emit(c, ev))
  {
    PushBehind(c.log.reply.final.events, c.resp.rx.value.queue, ev);
    hide Behind, Ordered, EndsWell, ReplyDone, Terminated;
  }

  lemma EmittedBytes(c: Conn, ev: StreamEvent)
    requires ReplyOk(c) && CanEmit(c)
    ensures ReplyBytes(Emit(c, ev).log.reply) == ReplyBytes(c.log.reply) + (if ev.Data? then ev.bytes else [])
  {
    hide Behind, EndsWell, Terminated, ReplyBytes;
    ReplyPush(c.log.reply.interim, c.log.reply.final.events, ev);
    assert c.log.reply == Reply(c.log.reply.interim, Streamed(c.log.reply.final.events));
  }

  lemma ReplyPush(interim: seq<byte>, events: seq<StreamEvent>, ev: StreamEvent)
    ensures ReplyBytes(Reply(interim, Streamed(events + [ev]))) ==
            ReplyBytes(Reply(interim, Streamed(events))) + (if ev.Data? then ev.bytes else [])
  {
    hide QueueBytes;
    QueueBytesPush(events, ev);
    var b := if ev.Data? then ev.bytes else [];
    assert interim + QueueBytes(events) + b == interim + (QueueBytes(events) + b);
  }

  lemma {:induction false} QueueBytesPush(queue: seq<StreamEvent>, ev: StreamEvent)
    ensures QueueBytes(queue + [ev]) == QueueBytes(queue) + (if ev.Data? then ev.bytes else [])
    decreases |queue|
  {
    var more := queue + [ev];
    if queue == [] {
      assert more[1..] == [];
    } else {
      assert more[0] == queue[0] && more[1..] == queue[1..] + [ev];
      QueueBytesPush(queue[1..], ev);
    }
  }

  lemma EmitStream(c: Conn, ev: StreamEvent)
    requires StreamOk(c) && ReplyOk(c) && CanEmit(c) && c.state != Closed
    requires c.state == Headers ==> c.resp.rx.None?
    ensures StreamOk(Emit(c, ev))
  {
    hide Flatten, Spoken, ReplyBytes, QueueBytes, Ordered, Terminated, ReplyOk, Behind, EndsWell, FinalBytes, Emitted;
    var q := c.resp.rx.value.queue;
    QueuePush(q, ev);
    EmittedBytes(c, ev);
    var b := if ev.Data? then ev.bytes else [];
    assert c.log.reply.interim + QueueBytes(q) + b == c.log.reply.interim + (QueueBytes(q) + b);
    var all := Spoken(c.log.replies);
    assert all + ReplyBytes(c.log.reply) + b == all + (ReplyBytes(c.log.reply) + b);
    var sent := c.log.sent + Tail(c.resp);
    assert sent + QueueBytes(q) + b == sent + (QueueBytes(q) + b);
  }

  lemma EmitKeeps(cfg: Config, c: Conn, ev: StreamEvent)
    requires Core(cfg, c) && Armed(cfg, c) && CanEmit(c)
    ensures Core(cfg, Emit(c, ev)) && Armed(cfg, Emit(c, ev))
  {
    assert !c.resp.done && c.state != Closed;
    EmittedReply(c, ev);
    EmitStream(c, ev);
    hide Wire, Flatten, Delivered, C.Run, Held, MessageOk, StreamOk, ReplyOk;
  }

  /** The producer ends and drops its sender. */
  lemma HangUpKeeps(cfg: Config, c: Conn)
    requires Core(cfg, c) && Armed(cfg, c) && c.resp.rx.Some?
    ensures var d := c.(resp := c.resp.(rx := Some(c.resp.rx.value.(open := false))));
            Core(cfg, d) && Armed(cfg, d)
  {
    hide Wire, Flatten, Spoken, FinalBytes, Delivered, C.Run, Held, MessageOk, Ordered, QueueBytes;
  }

  lemma AnswerKeeps(cfg: Config, c: Conn, closes: bool)
    requires Core(cfg, c) && Armed(cfg, c) && c.req.dispatch == Running
    ensures var d := c.(req := c.req.(dispatch := Answered(closes)));
            Core(cfg, d) && Armed(cfg, d)
  {
    hide Wire, Flatten, Spoken, FinalBytes, Delivered, C.Run, Held, MessageOk, Ordered, QueueBytes;
  }

  lemma TakeKeeps(cfg: Config, c: Conn)
    requires Core(cfg, c) && Armed(cfg, c) && c.req.payload.chunks != [] && c.state != Headers
    ensures var d := c.(req := c.req.(payload := Pop(c.req.payload)));
            Core(cfg, d) && Armed(cfg, d)
  {
    var d := c.(req := c.req.(payload := Pop(c.req.payload)));
    TakenPayload(cfg, c);
    SameResponse(c, d);
    hide Wire, C.Run, MessageOk, StreamOk, ReplyOk, PayloadOk, Pop;
  }

  lemma TakenPayload(cfg: Config, c: Conn)
    requires PayloadOk(cfg, c) && c.req.payload.chunks != []
    ensures PayloadOk(cfg, c.(req := c.req.(payload := Pop(c.req.payload))))
  {
    hide Flatten, C.Run, Held, BodyComplete, Pop, QueueOk, Delivered;
    var p := c.req.payload;
    PopSame(p);
    if c.req.framing.Some? {
      DeliveredPop(c.req.framing.value, cfg.maxBody, c.req.raw, p);
    }
    if c.req.body.Some? {
      HeldPop(c.req.framing.value, cfg.maxBody, c.req.raw, PumpState(c.req.body.value, p, []));
    }
  }

  lemma PopSame(p: Payload)
    requires QueueOk(p) && p.chunks != []
    ensures QueueOk(Pop(p)) && Pop(p).closed == p.closed && Pop(p).dropped == p.dropped
    ensures Pop(p).taken + Flatten(Pop(p).chunks) == p.taken + Flatten(p.chunks)
  {
    PopKeepsQueue(p);
  }

  lemma DeliveredPop(start: C.Kind, maxBody: nat, raw: seq<byte>, p: Payload)
    requires Delivered(start, maxBody, raw, p) && QueueOk(p) && p.chunks != []
    ensures Delivered(start, maxBody, raw, Pop(p))
  {
    PopSame(p);
    hide Pop, Flatten, C.Run;
  }

  lemma HeldPop(start: C.Kind, maxBody: nat, raw: seq<byte>, s: PumpState)
    requires Held(start, maxBody, raw, s) && s.payload.chunks != [] && QueueOk(s.payload)
    ensures Held(start, maxBody, raw, s.(payload := Pop(s.payload)))
  {
    PopKeepsQueue(s.payload);
    hide C.Run;
  }

  /** The handler drops the request body. */
  lemma DropKeeps(cfg: Config, c: Conn)
    requires Core(cfg, c) && Armed(cfg, c) && c.state != Headers
    ensures var d := c.(req := c.req.(payload := c.req.payload.(dropped := true)));
            Core(cfg, d) && Armed(cfg, d)
  {
    var d := c.(req := c.req.(payload := c.req.payload.(dropped := true)));
    SameResponse(c, d);
    SameInput(cfg, c, d);
    DroppedPayload(cfg, c);
    hide StreamOk, ReplyOk, InputOk, PayloadOk;
  }

  lemma DroppedPayload(cfg: Config, c: Conn)
    requires PayloadOk(cfg, c)
    ensures PayloadOk(cfg, c.(req := c.req.(payload := c.req.payload.(dropped := true))))
  {
    if c.req.body.Some? {
      HeldDrop(c.req.framing.value, cfg.maxBody, c.req.raw, PumpState(c.req.body.value, c.req.payload, []));
    }
    hide Flatten, C.Run, Held, BodyComplete;
  }

  lemma HeldDrop(start: C.Kind, maxBody: nat, raw: seq<byte>, s: PumpState)
    requires Held(start, maxBody, raw, s)
    ensures Held(start, maxBody, raw, s.(payload := s.payload.(dropped := true)))
  {
    hide C.Run;
  }
}
