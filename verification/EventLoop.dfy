/**
 The worker's event loop over all connections, with the kernel it talks to: the SQEs in
 flight, the open sockets, and how often each accepted socket was closed. One `Action` is
 one completion, one per-connection turn of a loop, or one move of the environment.
 Turns that the server takes for many connections in a row are one action each here, so
 the runs below contain every order in which the server could take them.
 */
module EventLoop {
  import opened Bytes
  import opened BodyPump
  import opened Connection
  import U = UserData

  /** What an SQE in flight lets the kernel do: write into a buffer, or read these bytes. */
  datatype Sqe = RecvSqe(fd: int, target: Target) | SendSqe(fd: int, data: seq<byte>)

  datatype Entry = Entry(deadline: nat, idx: nat, generation: nat)

  datatype Phase = Serving | Draining | TearingDown | Finished

  /** An open accepted socket: its serial number and the slot that owns it. */
  datatype Socket = Socket(serial: nat, idx: nat)

  /** What had gone over a connection when its socket was closed, and why it was. */
  datatype Ended = Ended(log: Log, why: CloseReason)

  /**
   `live` is the inverse of `open`; `closes` counts the `close` calls per accepted socket; `ended`
   keeps the end of those that had a connection.
   */
  datatype World = World(
    conns: map<nat, Conn>, inflight: map<nat, Sqe>,
    open: map<int, Socket>, live: map<nat, int>, closes: map<nat, nat>, ended: map<nat, Ended>, accepted: nat,
    nextGeneration: nat, heap: multiset<Entry>, phase: Phase, leaked: map<nat, Conn>, fault: bool)

  const INIT: World := World(map[], map[], map[], map[], map[], map[], 0, 0, multiset{}, Serving, map[], false)

  /** What the submission queue and the allocator decide. */
  datatype Push = Push(room: bool, base: nat, extra: nat)

  // ----- sockets -----

  function OpenFd(w: World, fd: int, idx: nat): World {
    w.(open := w.open[fd := Socket(w.accepted, idx)], live := w.live[w.accepted := fd],
       closes := w.closes[w.accepted := 0], accepted := w.accepted + 1)
  }

  /** `close(2)`: closing what is not open would be a fault. */
  function CloseFd(w: World, fd: int): World {
    if fd !in w.open then w.(fault := true)
    else
      var s := w.open[fd].serial;
      w.(open := w.open - {fd}, live := w.live - {s},
         closes := w.closes[s := (if s in w.closes then w.closes[s] else 0) + 1])
  }

  // ----- slots -----

  function Put(w: World, idx: nat, c: Conn): World {
    w.(conns := w.conns[idx := c])
  }

  function Remove(w: World, idx: nat): World {
    w.(conns := w.conns - {idx})
  }

  /** `close(2)` on a connection's socket; recording the end of a socket twice would be a fault. */
  function EndFd(w: World, fd: int, end: Ended): World {
    var v := CloseFd(w, fd);
    if fd !in w.open then v
    else
      var s := w.open[fd].serial;
      v.(ended := v.ended[s := end], fault := v.fault || s in v.ended)
  }

  /** `close_conn`: the slot stays while the kernel still points into it. */
  function CloseConn(w: World, idx: nat, why: CloseReason): World {
    if idx !in w.conns then w
    else
      var c := w.conns[idx];
      var v := if 0 <= c.fd then EndFd(w, c.fd, Ended(c.log, why)) else w;
      var d := c.(fd := -1);
      if c.recvPending || c.writePending then Put(v, idx, MarkClosed(d)) else Remove(v, idx)
  }

  function ReleaseIfIdle(w: World, idx: nat): World {
    if idx in w.conns && w.conns[idx].state == Closed && !w.conns[idx].recvPending && !w.conns[idx].writePending
    then Remove(w, idx) else w
  }

  /** Queues an SQE; two with the same `user_data` at once would be a fault. */
  function Submit(w: World, userData: nat, sqe: Sqe): World {
    w.(inflight := w.inflight[userData := sqe], fault := w.fault || userData in w.inflight)
  }

  function SubmitRecv(w: World, idx: nat, c: Conn, push: Push): World {
    if c.recvPending || c.fd < 0 then CloseConn(Put(w, idx, c.(fault := true)), idx, IoError)
    else
      var d := PrepareRecv(c, push.base, push.extra);
      if push.room then
        Submit(Put(w, idx, d.(recvPending := true)), U.Encode(U.Recv, idx, c.generation), RecvSqe(c.fd, d.recvTarget.value))
      else CloseConn(Put(w, idx, d.(recvTarget := None)), idx, IoError)
  }

  function SendLength(tail: seq<byte>): nat {
    Min(|tail|, U32_MAX)
  }

  function SubmitWrite(w: World, idx: nat, c: Conn, push: Push): World {
    if c.writePending || c.fd < 0 then CloseConn(Put(w, idx, c.(fault := true)), idx, IoError)
    else if Tail(c.resp) == [] then Put(w, idx, c)
    else if push.room then
      Submit(Put(w, idx, c.(writePending := true)), U.Encode(U.Write, idx, c.generation),
             SendSqe(c.fd, Tail(c.resp)[..SendLength(Tail(c.resp))]))
    else CloseConn(Put(w, idx, c), idx, IoError)
  }

  /** Performs the operation a handler asked for. */
  function Perform(w: World, idx: nat, out: Outcome, push: Push): World {
    match out.op
    case Rest => Put(w, idx, out.conn)
    case ArmRecv => SubmitRecv(w, idx, out.conn, push)
    case ArmSend => SubmitWrite(w, idx, out.conn, push)
    case CancelRecv => if push.room then Put(w, idx, out.conn) else CloseConn(Put(w, idx, out.conn), idx, Timeout)
    case Shut(why) => CloseConn(Put(w, idx, out.conn), idx, why)
    case Release => ReleaseIfIdle(Put(w, idx, out.conn), idx)
  }

  /** A completion takes its SQE off the kernel's hands. */
  function Forget(w: World, userData: nat): World {
    w.(inflight := w.inflight - {userData})
  }

  // ----- deadlines -----

  /** The connection with a fresh timer; a closed one has none. */
  function Retime(cfg: Config, c: Conn): Conn {
    c.(clock := c.clock.(generation := (c.clock.generation + 1) % U64,
                         tracked := if c.state == Closed then None else DeadlineOf(cfg, c)))
  }

  /** The heap with the entry of a refreshed timer, if there is a deadline. */
  function Enter(heap: multiset<Entry>, idx: nat, clock: Clock): multiset<Entry> {
    if clock.tracked.Some? then heap + multiset{Entry(clock.tracked.value, idx, clock.generation)} else heap
  }

  /** `refresh_timeout_deadline`: older heap entries of the slot become stale. */
  function Refresh(cfg: Config, w: World, idx: nat): World {
    if idx !in w.conns then w
    else
      var c := Retime(cfg, w.conns[idx]);
      Put(w, idx, c).(heap := Enter(w.heap, idx, c.clock))
  }

  /** Whether the entry still speaks for the connection in its slot. */
  predicate Current(w: World, e: Entry) {
    && e.idx in w.conns && w.conns[e.idx].state != Closed
    && w.conns[e.idx].clock.generation == e.generation && w.conns[e.idx].clock.tracked == Some(e.deadline)
  }

  // ----- actions -----

  datatype Action =
    | Accept(fd: int, idx: nat, now: nat, mem: Mem, push: Push)
    | RecvDone(userData: nat, recvd: Option<seq<byte>>, env: Env, push: Push)
    | SendDone(userData: nat, taken: Option<nat>, env: Env, push: Push)
    | Sweep(idx: nat, now: nat, push: Push)
    | TurnDispatch(idx: nat, env: Env, push: Push)
    | TurnResponse(idx: nat, env: Env, push: Push)
    | HandlerAnswers(idx: nat, closes: bool)
    | HandlerTakes(idx: nat)
    | HandlerDropsBody(idx: nat)
    | ProducerEmits(idx: nat, ev: StreamEvent)
    | ProducerEnds(idx: nat)
    | PopStale(entry: Entry)
    | BeginDrain(slots: seq<nat>)
    | Reap(idx: nat)
    | BeginTeardown(slots: seq<nat>)
    | Finish

  /** What the handler or the producer of a response may do with their end of a channel. */
  predicate CanMove(c: Conn, a: Action) {
    match a
    case HandlerAnswers(_, _) => c.req.dispatch == Running
    case HandlerTakes(_) => c.state != Headers && c.req.payload.chunks != []
    case HandlerDropsBody(_) => c.state != Headers
    case ProducerEmits(_, _) => CanEmit(c)
    case ProducerEnds(_) => c.resp.rx.Some?
    case _ => false
  }

  function Moved(c: Conn, a: Action): Conn
    requires CanMove(c, a)
  {
    match a
    case HandlerAnswers(_, closes) => c.(req := c.req.(dispatch := Answered(closes)))
    case HandlerTakes(_) => c.(req := c.req.(payload := Pop(c.req.payload)))
    case HandlerDropsBody(_) => c.(req := c.req.(payload := c.req.payload.(dropped := true)))
    case ProducerEmits(_, ev) => Emit(c, ev)
    case ProducerEnds(_) => c.(resp := c.resp.(rx := Some(c.resp.rx.value.(open := false))))
  }

  predicate Handling(w: World) {
    w.phase == Serving || w.phase == Draining
  }

  predicate Live(w: World, idx: nat) {
    Handling(w) && idx in w.conns
  }

  /** The slots a loop over the slab visits: all that are taken, in some order. */
  predicate Covers(w: World, slots: seq<nat>) {
    forall idx :: idx in w.conns ==> idx in slots
  }

  /** What the kernel, the slab, the producer and the handler may do. */
  predicate Enabled(w: World, a: Action) {
    match a
    case Accept(fd, idx, _, _, _) =>
      && w.phase != Finished && 0 <= fd && fd !in w.open
      && idx !in w.conns && idx < U.BIT_32
    case RecvDone(u, r, env, _) =>
      && w.phase != Finished && u in w.inflight && w.inflight[u].RecvSqe? && EnvOk(env)
      && (r.Some? ==> |r.value| <= w.inflight[u].target.len)
    case SendDone(u, n, env, _) =>
      && w.phase != Finished && u in w.inflight && w.inflight[u].SendSqe? && EnvOk(env)
      && (n.Some? ==> n.value <= |w.inflight[u].data|)
    case Sweep(idx, _, _) => Live(w, idx)
    case TurnDispatch(idx, env, _) => Live(w, idx) && EnvOk(env)
    case TurnResponse(idx, env, _) =>
      && Live(w, idx) && EnvOk(env) && w.conns[idx].state == Writing
      && w.conns[idx].resp.rx.Some? && !w.conns[idx].writePending
    case HandlerAnswers(idx, _) => Live(w, idx) && CanMove(w.conns[idx], a)
    case HandlerTakes(idx) => Live(w, idx) && CanMove(w.conns[idx], a)
    case HandlerDropsBody(idx) => Live(w, idx) && CanMove(w.conns[idx], a)
    case ProducerEmits(idx, _) => Live(w, idx) && CanMove(w.conns[idx], a)
    case ProducerEnds(idx) => Live(w, idx) && CanMove(w.conns[idx], a)
    case PopStale(e) => e in w.heap && !Current(w, e)
    case BeginDrain(slots) => w.phase == Serving && Covers(w, slots)
    case Reap(idx) => w.phase == Draining
    case BeginTeardown(slots) => Handling(w) && Covers(w, slots)
    case Finish => w.phase == TearingDown
  }

  /** The generation counter moves on and wraps. */
  function NextGenerationOf(v: World): World {
    v.(nextGeneration := (v.nextGeneration + 1) % U.GENERATIONS)
  }

  /** `handle_accept`; while draining or tearing down nobody takes the socket. */
  function AcceptConn(cfg: Config, w: World, fd: int, idx: nat, now: nat, mem: Mem, push: Push): World {
    var v := OpenFd(w, fd, idx);
    if w.phase != Serving || |w.conns| >= cfg.maxConnections then CloseFd(v, fd)
    else
      Refresh(cfg, SubmitRecv(NextGenerationOf(v), idx, NewConn(fd, w.nextGeneration, now, mem), push), idx)
  }

  /** The connection a completion is for, if it is still in its slot and waits for it. */
  predicate Finds(w: World, token: U.Token) {
    token.idx in w.conns && w.conns[token.idx].generation == token.generation
  }

  /** `handle_recv_completion`, from the CQE's `user_data` on. */
  function CompleteRecv(cfg: Config, w: World, userData: nat, recvd: Option<seq<byte>>, env: Env, push: Push): World
    requires ValidConfig(cfg)
  {
    var token := U.Decode(userData, U.Recv);
    if token.None? then w
    else
      var idx := token.value.idx;
      var v :=
        if !Finds(w, token.value) || !w.conns[idx].recvPending then w
        else Perform(w, idx, HandleRecv(cfg, w.conns[idx], recvd, env), push);
      Refresh(cfg, v, idx)
  }

  /** `handle_write_completion`; the bytes the socket took are on the wire by then. */
  function CompleteSend(cfg: Config, w: World, userData: nat, data: seq<byte>, taken: Option<nat>, env: Env, push: Push): World
    requires ValidConfig(cfg) && (taken.Some? ==> taken.value <= |data|)
  {
    var token := U.Decode(userData, U.Write);
    if token.None? then w
    else
      var idx := token.value.idx;
      var v :=
        if !Finds(w, token.value) || !w.conns[idx].writePending then w
        else
          var c := OnWire(w.conns[idx], if taken.Some? then data[..taken.value] else []);
          Perform(w, idx, HandleSend(cfg, c, taken, env), push);
      Refresh(cfg, v, idx)
  }

  /** At teardown a completion only clears its flag; nothing is handled any more. */
  function DiscardRecv(w: World, userData: nat, recvd: Option<seq<byte>>): World {
    var token := U.Decode(userData, U.Recv);
    if token.None? then w
    else
      var idx := token.value.idx;
      var v := if Finds(w, token.value) then Put(w, idx, LoseRecv(w.conns[idx].(recvPending := false), recvd)) else w;
      ReleaseIfIdle(v, idx)
  }

  function DiscardSend(w: World, userData: nat, data: seq<byte>): World {
    var token := U.Decode(userData, U.Write);
    if token.None? then w
    else
      var idx := token.value.idx;
      var v := if Finds(w, token.value) then Put(w, idx, OnWire(w.conns[idx], data).(writePending := false)) else w;
      ReleaseIfIdle(v, idx)
  }

  /** Idle connections are closed when the drain begins, the others finish without keep-alive. */
  function DrainConn(w: World, idx: nat): World {
    if idx !in w.conns || w.conns[idx].state == Closed then w
    else
      var c := w.conns[idx].(draining := true, keepAlive := false);
      var v := Put(w, idx, c);
      if c.state == Headers && c.buf == [] then CloseConn(v, idx, Timeout) else v
  }

  function DrainAll(w: World, slots: seq<nat>): World
    decreases |slots|
  {
    if slots == [] then w else DrainAll(DrainConn(w, slots[0]), slots[1..])
  }

  function CloseAll(w: World, slots: seq<nat>): World
    decreases |slots|
  {
    if slots == [] then w else CloseAll(CloseConn(w, slots[0], Timeout), slots[1..])
  }

  function Apply(cfg: Config, w: World, a: Action): World
    requires ValidConfig(cfg) && Enabled(w, a)
  {
    match a
    case Accept(fd, idx, now, mem, push) => AcceptConn(cfg, w, fd, idx, now, mem, push)
    case RecvDone(u, r, env, push) =>
      var v := Forget(w, u);
      if w.phase == TearingDown then DiscardRecv(v, u, r) else CompleteRecv(cfg, v, u, r, env, push)
    case SendDone(u, n, env, push) =>
      var data, v := w.inflight[u].data, Forget(w, u);
      if w.phase == TearingDown then DiscardSend(v, u, if n.Some? then data[..n.value] else [])
      else CompleteSend(cfg, v, u, data, n, env, push)
    case Sweep(idx, now, push) =>
      if Expired(cfg, w.conns[idx], now) then Refresh(cfg, Perform(w, idx, SweepOne(cfg, w.conns[idx], now), push), idx) else w
    case TurnDispatch(idx, env, push) =>
      if w.conns[idx].state == Dispatching
      then Refresh(cfg, Perform(w, idx, AdvanceDispatching(cfg, w.conns[idx], env), push), idx) else w
    case TurnResponse(idx, env, push) =>
      Refresh(cfg, Perform(w, idx, AdvanceResponse(cfg, w.conns[idx], env), push), idx)
    case HandlerAnswers(idx, _) => Put(w, idx, Moved(w.conns[idx], a))
    case HandlerTakes(idx) => Put(w, idx, Moved(w.conns[idx], a))
    case HandlerDropsBody(idx) => Put(w, idx, Moved(w.conns[idx], a))
    case ProducerEmits(idx, _) => Put(w, idx, Moved(w.conns[idx], a))
    case ProducerEnds(idx) => Put(w, idx, Moved(w.conns[idx], a))
    case PopStale(e) => w.(heap := w.heap - multiset{e})
    case BeginDrain(slots) => DrainAll(w, slots).(phase := Draining)
    case Reap(idx) => ReleaseIfIdle(w, idx)
    case BeginTeardown(slots) => CloseAll(w, slots).(phase := TearingDown)
    case Finish => w.(conns := map[], leaked := w.conns, phase := Finished)
  }
}
