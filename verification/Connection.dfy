/**
 One connection of the io_uring worker: its state, and what each event does to it.
 Every handler returns the new connection and the one operation the event loop is to
 perform on it. Debug assertions of the server become the `fault` flag, which the
 invariants show is never raised.

 The server owns each connection through its slab slot alone, so a value per slot loses
 nothing to aliasing. `log` records what the environment saw; no handler reads it.
 */
module Connection {
  import opened Bytes
  import C = PayloadCodec
  import opened BodyPump

  const DEFAULT_BUFFER_SIZE: nat := 8192
  const RESPONSE_STREAM_CAPACITY: nat := 4
  const U32_MAX: nat := 0xFFFF_FFFF

  /** `HTTP/1.1 100 Continue` and an empty line. */
  const CONTINUE_100: seq<byte> :=
    [72, 84, 84, 80, 47, 49, 46, 49, 32, 49, 48, 48, 32, 67, 111, 110, 116, 105, 110, 117, 101, CR, LF, CR, LF]

  datatype State = Headers | Dispatching | Writing | Closed

  /** The parts of a parsed request head the connection acts on. */
  datatype Head = Head(len: nat, contentLength: Option<nat>, chunked: bool, keepAlive: bool, expectContinue: bool)

  datatype ErrorResponse = BadRequest | HeadersTooLarge | RequestTimeout | PayloadTooLarge | ExpectationFailed | InternalError

  datatype HeadResult = Parsed(head: Head) | IncompleteHead | BadHead(error: ErrorResponse)

  /** `parse` is the head parser, `wire` the serialized error responses. */
  datatype Config = Config(
    parse: seq<byte> -> HeadResult,
    wire: ErrorResponse -> seq<byte>,
    maxBody: nat,
    maxConnections: nat,
    headerTimeout: Option<nat>,
    bodyTimeout: Option<nat>,
    connectionTimeout: Option<nat>)

  /** A parsed head lies within the buffer, and an error response is never empty. */
  ghost predicate ValidConfig(cfg: Config) {
    && (forall b :: cfg.parse(b).Parsed? ==> 0 < cfg.parse(b).head.len <= |b|)
    && (forall e :: cfg.wire(e) != [])
    && cfg.maxConnections <= 0x1_0000_0000
  }

  /** Where an in-flight RECV writes. */
  datatype Target = Target(addr: nat, len: nat)

  /** Where the read buffer ends in memory, and its spare capacity behind that. */
  datatype Mem = Mem(end: nat, spare: nat)

  datatype StreamEvent = Data(bytes: seq<byte>) | StreamDone | StreamError

  /** The response channel; `open` while the producer holds its sender. */
  datatype Channel = Channel(queue: seq<StreamEvent>, open: bool)

  /** No handler, a handler at work, or its response (`closes`: it must end the connection). */
  datatype Dispatch = Idle | Running | Answered(closes: bool)

  datatype Request = Request(
    head: seq<byte>, ahead: seq<byte>, framing: Option<C.Kind>, raw: seq<byte>,
    body: Option<BodyState>, payload: Payload, dispatch: Dispatch)

  datatype Response = Response(
    buf: seq<byte>, written: nat, started: bool, done: bool, failed: bool, rx: Option<Channel>)

  datatype Clock = Clock(acceptedAt: nat, startedAt: nat, generation: nat, tracked: Option<nat>)

  /** A finished request: its head, the bytes behind it when it was parsed, and its raw body. */
  datatype Message = Message(head: seq<byte>, ahead: seq<byte>, framing: Option<C.Kind>, raw: seq<byte>)

  /** The response itself: the events its producer emitted, or a serialized error. */
  datatype Final = Streamed(events: seq<StreamEvent>) | Serialized(bytes: seq<byte>)

  /** A response: what the socket took of an interim `100 Continue`, then the final one. */
  datatype Reply = Reply(interim: seq<byte>, final: Final)

  const NO_REPLY: Reply := Reply([], Streamed([]))

  /**
   What went over the wire: bytes received, finished requests, whether received bytes were
   thrown away (`cut`), bytes sent, finished responses, and the current response so far.
   */
  datatype Log = Log(
    received: seq<byte>, past: seq<Message>, cut: bool, sent: seq<byte>, replies: seq<Reply>, reply: Reply)

  datatype Conn = Conn(
    fd: int, state: State, generation: nat, keepAlive: bool, draining: bool, timeoutError: bool,
    buf: seq<byte>, mem: Mem, recvPending: bool, writePending: bool, recvTarget: Option<Target>,
    req: Request, resp: Response, clock: Clock, log: Log, fault: bool)

  /** The response ended, the peer or the queue failed, or the server stops waiting. */
  datatype CloseReason = ResponseEnded | IoError | Timeout

  /** What the event loop does next for the connection. */
  datatype Op = Rest | ArmRecv | ArmSend | CancelRecv | Shut(why: CloseReason) | Release

  datatype Outcome = Outcome(conn: Conn, op: Op)

  /** What the environment decides while a handler runs: the time, how much of an interim
      response the socket takes, and whether the request can be built. */
  datatype Env = Env(now: nat, interim: seq<byte>, built: bool)

  /** The socket takes a prefix of the interim response. */
  predicate EnvOk(env: Env) {
    env.interim <= CONTINUE_100
  }

  /** The body of a request without one: there is nothing in it, and its end has come. */
  const NO_BODY: Payload := Payload([], 0, true, false, [])

  const NO_REQUEST: Request := Request([], [], None, [], None, EMPTY_PAYLOAD, Idle)
  const NO_RESPONSE: Response := Response([], 0, false, false, false, None)

  function NewConn(fd: int, generation: nat, now: nat, mem: Mem): Conn {
    Conn(fd, Headers, generation, true, false, false, [], mem, false, false, None,
         NO_REQUEST, NO_RESPONSE, Clock(now, now, 0, None), Log([], [], false, [], [], NO_REPLY), false)
  }

  // ----- receive buffer -----

  /** `BytesMut::reserve`: nothing moves if there is room; otherwise the allocator decides where
      the buffer goes and how much it grows beyond what was asked for. */
  function Reserve(mem: Mem, len: nat, additional: nat, base: nat, extra: nat): Mem {
    if additional <= mem.spare then mem else Mem(base + len, additional + extra)
  }

  function PrepareRecv(c: Conn, base: nat, extra: nat): Conn {
    var mem := if c.mem.spare < DEFAULT_BUFFER_SIZE
               then Reserve(c.mem, |c.buf|, DEFAULT_BUFFER_SIZE - c.mem.spare, base, extra) else c.mem;
    c.(mem := mem, recvTarget := Some(Target(mem.end, Min(mem.spare, U32_MAX))), fault := c.fault || c.recvPending)
  }

  /** The buffer still ends where the RECV was told to write, with room for what it wrote. */
  predicate CommitOk(c: Conn) {
    c.recvTarget.Some? && c.mem.end == c.recvTarget.value.addr && c.recvTarget.value.len <= c.mem.spare
  }

  /** `commit_recv`: the bytes the kernel wrote, at most what the SQE allowed, become part of `buf`. */
  function CommitRecv(c: Conn, bytes: seq<byte>): Conn
    requires CommitOk(c)
  {
    var n := Min(|bytes|, c.recvTarget.value.len);
    c.(buf := c.buf + bytes[..n], mem := Mem(c.mem.end + n, c.mem.spare - n), recvTarget := None,
       log := c.log.(received := c.log.received + bytes[..n]))
  }

  /** `clear` moves the end of the buffer back to its start. */
  function ClearBuf(c: Conn): Conn {
    c.(buf := [], mem := Mem(if |c.buf| <= c.mem.end then c.mem.end - |c.buf| else 0, c.mem.spare + |c.buf|),
       log := c.log.(cut := true))
  }

  // ----- responses -----

  function Tail(r: Response): seq<byte> {
    if r.written <= |r.buf| then r.buf[r.written..] else []
  }

  function SetSerialized(c: Conn, bytes: seq<byte>): Conn {
    c.(resp := Response(bytes, 0, true, true, false, None), keepAlive := false, timeoutError := false,
       req := c.req.(body := None, dispatch := Idle), state := Writing,
       log := c.log.(reply := c.log.reply.(final := Serialized(bytes))), fault := c.fault || c.writePending)
  }

  function MarkClosed(c: Conn): Conn {
    c.(state := Closed, req := c.req.(body := None, dispatch := Idle), resp := c.resp.(rx := None),
       timeoutError := false, keepAlive := false)
  }

  datatype WriteResult = WriteMore | AwaitResponse | RecvNext | CloseNow

  /** Ready for the next request on the same connection; leftover input stays buffered. */
  function Reset(c: Conn, now: nat): Conn {
    c.(state := Headers, req := NO_REQUEST, resp := NO_RESPONSE, keepAlive := true, timeoutError := false,
       clock := c.clock.(startedAt := now), fault := c.fault || c.recvPending || c.writePending,
       log := c.log.(past := c.log.past + [Message(c.req.head, c.req.ahead, c.req.framing, c.req.raw)],
                     replies := c.log.replies + [c.log.reply], reply := NO_REPLY))
  }

  function OnWrite(c: Conn, n: nat, now: nat): (Conn, WriteResult) {
    var r := c.resp.(written := c.resp.written + n);
    if r.written < |r.buf| then (c.(resp := r), WriteMore)
    else
      var d := c.(resp := r.(buf := [], written := 0));
      if r.done then if c.keepAlive then (Reset(d, now), RecvNext) else (d, CloseNow)
      else if r.failed then (d, CloseNow)
      else (d, AwaitResponse)
  }

  datatype Progress = Pending | WriteReady | Complete | StartFailed | StreamFailed

  /** Empty data events are skipped. */
  function SkipEmpty(queue: seq<StreamEvent>): seq<StreamEvent> {
    if queue != [] && queue[0] == Data([]) then SkipEmpty(queue[1..]) else queue
  }

  /** A body still being read is given up: its connection cannot be reused. */
  function DropRequestBody(c: Conn): Conn {
    if c.req.body.Some? then c.(keepAlive := false, req := c.req.(body := None)) else c
  }

  function StartWriting(c: Conn, bytes: seq<byte>, rest: Channel): Conn {
    var d := if c.state == Dispatching then DropRequestBody(c) else c;
    d.(resp := Response(bytes, 0, true, c.resp.done, c.resp.failed, Some(rest)), state := Writing,
       fault := d.fault || d.writePending)
  }

  /** The producer is gone or failed: before any byte went out that is an error response. */
  function StreamBroken(c: Conn): (Conn, Progress) {
    var d := c.(resp := c.resp.(rx := None));
    if c.resp.started then (d.(resp := d.resp.(failed := true), keepAlive := false), StreamFailed) else (d, StartFailed)
  }

  function PollResponse(c: Conn): (Conn, Progress) {
    if Tail(c.resp) != [] then (c, WriteReady)
    else if c.resp.rx.None? then
      (c, if c.resp.done then Complete else if c.resp.failed then StreamFailed else Pending)
    else
      var ch := c.resp.rx.value;
      var queue := SkipEmpty(ch.queue);
      if queue == [] then
        if ch.open then (c.(resp := c.resp.(rx := Some(ch.(queue := [])))), Pending)
        else if c.resp.done then (c.(resp := c.resp.(rx := None)), Complete)
        else StreamBroken(c)
      else
        match queue[0]
        case Data(bytes) => (StartWriting(c, bytes, ch.(queue := queue[1..])), WriteReady)
        case StreamDone =>
          (c.(resp := c.resp.(rx := None, done := true)), if c.resp.started then Complete else StartFailed)
        case StreamError => StreamBroken(c)
  }

  // ----- requests -----

  function FramingOf(h: Head): Option<C.Kind> {
    if h.chunked then Some(C.START)
    else if h.contentLength.Some? && 0 < h.contentLength.value then Some(C.Length(h.contentLength.value))
    else None
  }

  /** A declared length over the limit is refused up front; a limit of zero means none here. */
  predicate ExceedsLimit(h: Head, maxBody: nat) {
    0 < maxBody && h.contentLength.Some? && maxBody < h.contentLength.value
  }

  /** The head is consumed and the handler gets the (possibly empty) body channel. */
  function StartRequest(c: Conn, h: Head): Conn
    requires h.len <= |c.buf|
  {
    var framing := FramingOf(h);
    c.(buf := c.buf[h.len..], state := Dispatching, keepAlive := h.keepAlive && !c.draining,
       req := Request(c.buf[..h.len], c.buf[h.len..], framing, [],
                      if framing.Some? then Some(BodyState(framing.value, [])) else None,
                      if framing.Some? then EMPTY_PAYLOAD else NO_BODY, Running))
  }

  /** What the buffer and the request are after a pump. */
  function AfterPump(c: Conn, s: PumpState): Conn {
    var used := if |s.buf| <= |c.buf| then c.buf[..|c.buf| - |s.buf|] else [];
    c.(buf := s.buf, req := c.req.(body := Some(s.body), payload := s.payload, raw := c.req.raw + used))
  }

  /** What the worker does with the result of a pump. */
  function BodyResult(cfg: Config, d: Conn, r: PumpResult): Outcome {
    var gone := d.(req := d.req.(body := None));
    match r
    case NeedRecv => Outcome(d, ArmRecv)
    case Blocked => Outcome(d, Rest)
    case AtEnd => Outcome(gone, Rest)
    case ReceiverClosed => Outcome(gone.(keepAlive := false), Rest)
    case Malformed(e) =>
      Outcome(SetSerialized(gone, cfg.wire(if e == C.BodyTooLarge then PayloadTooLarge else BadRequest)), ArmSend)
  }

  /** `pump_request_body`, then what the worker does with its result. */
  function PumpBody(cfg: Config, c: Conn): Outcome
    requires c.req.body.Some? && C.Sound(c.req.body.value.decoder)
  {
    var (s, r) := Pump(PumpState(c.req.body.value, c.req.payload, c.buf), cfg.maxBody);
    BodyResult(cfg, AfterPump(c, s), r)
  }

  /** Reads more body if there is any to read and nothing is in flight. */
  function ContinueBody(cfg: Config, c: Conn): Outcome {
    if c.recvPending || c.writePending || c.req.body.None? then Outcome(c, Rest)
    else if C.Sound(c.req.body.value.decoder) then PumpBody(cfg, c)
    else Outcome(c.(fault := true), Rest)
  }

  /** Right after dispatch the handler has not run: there is no response to look at yet. */
  function AfterDispatch(cfg: Config, c: Conn): Outcome {
    var quiet := !c.writePending && Tail(c.resp) == [] && c.resp.rx.None? && !c.resp.done && !c.resp.failed;
    ContinueBody(cfg, c.(fault := c.fault || !quiet))
  }

  /** `process_headers`, then what the worker does with its result. */
  function ProcessHead(cfg: Config, c: Conn, env: Env): Outcome
    requires ValidConfig(cfg)
  {
    match cfg.parse(c.buf)
    case IncompleteHead => Outcome(c, ArmRecv)
    case BadHead(e) => Outcome(ClearBuf(SetSerialized(c, cfg.wire(e))), ArmSend)
    case Parsed(h) =>
      if ExceedsLimit(h, cfg.maxBody) then
        Outcome(ClearBuf(SetSerialized(c.(buf := c.buf[h.len..]), cfg.wire(PayloadTooLarge))), ArmSend)
      else
        var d := StartRequest(c, h);
        var e := if h.expectContinue then SendInterim(d, env.interim) else d;
        if env.built then AfterDispatch(cfg, e) else Outcome(e.(req := e.req.(dispatch := Idle)), Shut(IoError))
  }

  /** A best-effort `100 Continue`: the socket takes a part of it, possibly none. */
  function SendInterim(c: Conn, bytes: seq<byte>): Conn {
    c.(log := c.log.(sent := c.log.sent + bytes, reply := c.log.reply.(interim := c.log.reply.interim + bytes)))
  }

  function Resume(cfg: Config, c: Conn, env: Env): Outcome
    requires ValidConfig(cfg)
  {
    if c.buf == [] then Outcome(c, ArmRecv) else ProcessHead(cfg, c, env)
  }

  /** The response ended: go on to the next request, or close. */
  function AfterResponse(cfg: Config, c: Conn, w: WriteResult, env: Env): Outcome
    requires ValidConfig(cfg)
  {
    match w
    case RecvNext => Resume(cfg, c, env)
    case CloseNow => Outcome(c, Shut(ResponseEnded))
    case _ => Outcome(c.(fault := true), Rest)
  }

  function AdvanceResponse(cfg: Config, c: Conn, env: Env): Outcome
    requires ValidConfig(cfg)
  {
    if c.writePending then Outcome(c, Rest)
    else
      var (d, p) := PollResponse(c);
      match p
      case Pending => Outcome(d, Rest)
      case WriteReady => Outcome(d, ArmSend)
      case Complete => var (e, w) := OnWrite(d, 0, env.now); AfterResponse(cfg, e, w, env)
      case StartFailed => Outcome(SetSerialized(d, cfg.wire(InternalError)), ArmSend)
      case StreamFailed => Outcome(d, Shut(IoError))
  }

  /** The handler answered: the response stream starts, and an unread body is given up. */
  function StartResponse(c: Conn, closes: bool): Conn {
    var d := DropRequestBody(c);
    d.(keepAlive := d.keepAlive && !closes,
       resp := d.resp.(started := false, done := false, failed := false, rx := Some(Channel([], true))),
       req := d.req.(dispatch := Idle))
  }

  function AdvanceDispatching(cfg: Config, c: Conn, env: Env): Outcome
    requires ValidConfig(cfg)
  {
    if c.state != Dispatching then Outcome(c, Rest)
    else
      var d := if c.req.dispatch.Answered? then StartResponse(c, c.req.dispatch.closes) else c;
      var out := AdvanceResponse(cfg, d, env);
      if out.op != Rest || out.conn.state != Dispatching then out else ContinueBody(cfg, out.conn)
  }

  // ----- completions -----

  /** `discard_recv`: bytes that come in too late are received and thrown away. */
  function LoseRecv(c: Conn, res: Option<seq<byte>>): Conn {
    c.(recvTarget := None,
       log := if res.Some? && res.value != [] then c.log.(received := c.log.received + res.value, cut := true) else c.log)
  }

  /** `handle_recv_completion`: `None` is an error result, `Some([])` the peer's end of file. */
  function HandleRecv(cfg: Config, c0: Conn, res: Option<seq<byte>>, env: Env): Outcome
    requires ValidConfig(cfg)
  {
    var c := c0.(recvPending := false);
    if c.state == Closed then Outcome(LoseRecv(c, res), Release)
    else if c.timeoutError then
      var d := LoseRecv(c, res).(timeoutError := false);
      if c.writePending || c.state != Dispatching then Outcome(d.(keepAlive := false), Rest)
      else Outcome(SetSerialized(d, cfg.wire(RequestTimeout)), ArmSend)
    else if res.None? then Outcome(c.(recvTarget := None), Shut(IoError))
    else if !CommitOk(c) then Outcome(c.(recvTarget := None, fault := true), Shut(IoError))
    else
      var d := CommitRecv(c, res.value);
      match c.state
      case Headers => if res.value == [] then Outcome(d, Shut(IoError)) else ProcessHead(cfg, d, env)
      case Dispatching => if res.value == [] then Outcome(d, Shut(IoError)) else AdvanceDispatching(cfg, d, env)
      case _ => Outcome(d, Rest)
  }

  /** `handle_write_completion`: `None` is an error result, otherwise the bytes the socket took. */
  function HandleSend(cfg: Config, c0: Conn, res: Option<nat>, env: Env): Outcome
    requires ValidConfig(cfg)
  {
    var c := c0.(writePending := false);
    if c.state == Closed then Outcome(c, Release)
    else if res.None? then Outcome(c, Shut(IoError))
    else
      var (d, w) := OnWrite(c, res.value, env.now);
      match w
      case WriteMore => Outcome(d, ArmSend)
      case AwaitResponse => AdvanceResponse(cfg, d, env)
      case _ => AfterResponse(cfg, d, w, env)
  }

  /** What the socket took is on the wire. */
  function OnWire(c: Conn, bytes: seq<byte>): Conn {
    c.(log := c.log.(sent := c.log.sent + bytes))
  }

  // ----- timeouts -----

  predicate Elapsed(since: nat, timeout: Option<nat>, now: nat) {
    timeout.Some? && since + timeout.value <= now
  }

  predicate BodyTimedOut(cfg: Config, c: Conn, now: nat) {
    c.state == Dispatching && c.req.body.Some? && Elapsed(c.clock.startedAt, cfg.bodyTimeout, now)
  }

  predicate Expired(cfg: Config, c: Conn, now: nat) {
    && c.state != Closed
    && (|| Elapsed(c.clock.acceptedAt, cfg.connectionTimeout, now)
        || (c.state == Headers && Elapsed(c.clock.startedAt, cfg.headerTimeout, now))
        || BodyTimedOut(cfg, c, now))
  }

  /** What the sweep does with one expired connection. */
  function SweepOne(cfg: Config, c: Conn, now: nat): Outcome {
    if !BodyTimedOut(cfg, c, now) then Outcome(c, Shut(Timeout))
    else if c.recvPending then Outcome(c.(timeoutError := true), CancelRecv)
    else if c.writePending then Outcome(c, Shut(Timeout))
    else Outcome(SetSerialized(c, cfg.wire(RequestTimeout)), ArmSend)
  }

  /** The moment the connection times out, if it ever does. */
  function DeadlineOf(cfg: Config, c: Conn): Option<nat> {
    var lifetime := if cfg.connectionTimeout.Some? then Some(c.clock.acceptedAt + cfg.connectionTimeout.value) else None;
    var phase :=
      if c.state == Headers && cfg.headerTimeout.Some? then Some(c.clock.startedAt + cfg.headerTimeout.value)
      else if c.state == Dispatching && c.req.body.Some? && cfg.bodyTimeout.Some? then Some(c.clock.startedAt + cfg.bodyTimeout.value)
      else None;
    if lifetime.Some? && phase.Some? then Some(Min(lifetime.value, phase.value))
    else if lifetime.Some? then lifetime else phase
  }

  // ----- the handler's side -----

  /** Nothing may follow a terminal event. */
  predicate Terminated(queue: seq<StreamEvent>) {
    exists i :: 0 <= i < |queue| && !queue[i].Data?
  }

  function QueueBytes(queue: seq<StreamEvent>): seq<byte> {
    if queue == [] then []
    else (if queue[0].Data? then queue[0].bytes else []) + QueueBytes(queue[1..])
  }

  function Emitted(final: Final, ev: StreamEvent): Final {
    Streamed((if final.Streamed? then final.events else []) + [ev])
  }

  function FinalBytes(final: Final): seq<byte> {
    if final.Streamed? then QueueBytes(final.events) else final.bytes
  }

  function ReplyBytes(r: Reply): seq<byte> {
    r.interim + FinalBytes(r.final)
  }

  /** The bytes of responses sent one after the other. */
  function Spoken(replies: seq<Reply>): seq<byte> {
    if replies == [] then [] else Spoken(replies[..|replies| - 1]) + ReplyBytes(replies[|replies| - 1])
  }

  function RxBytes(rx: Option<Channel>): seq<byte> {
    if rx.Some? then QueueBytes(rx.value.queue) else []
  }

  /** The producer waits while the channel is full. */
  predicate CanEmit(c: Conn) {
    && c.resp.rx.Some? && c.resp.rx.value.open
    && !Terminated(c.resp.rx.value.queue) && |c.resp.rx.value.queue| < RESPONSE_STREAM_CAPACITY
  }

  function Emit(c: Conn, ev: StreamEvent): Conn
    requires CanEmit(c)
  {
    var ch := c.resp.rx.value;
    c.(resp := c.resp.(rx := Some(ch.(queue := ch.queue + [ev]))),
       log := c.log.(reply := c.log.reply.(final := Emitted(c.log.reply.final, ev))))
  }
}
