/** Runs of two steps that reach the states where the code parts from its documentation. */
module ShortRuns {
  import opened Bytes
  import opened BodyPump
  import opened Connection
  import opened EventLoop
  import opened EventLoopRun
  import U = UserData
  import C = PayloadCodec

  const FD: int := 3
  const MEM: Mem := Mem(0, 8192)
  const ROOM: Push := Push(true, 0, 0)
  const FIRST: Action := Accept(FD, 0, 0, MEM, ROOM)

  /** The first connection, waiting for a head with a RECV of a whole default buffer in flight. */
  function Waiting(cfg: Config): Conn {
    Retime(cfg, PrepareRecv(NewConn(FD, 0, 0, MEM), 0, 0).(recvPending := true))
  }

  lemma WaitingParts(cfg: Config)
    ensures var c := Waiting(cfg);
            && c.recvPending && c.recvTarget == Some(Target(0, 8192)) && c.mem == MEM && c.buf == [] && c.fd == FD
            && c.state == Headers && c.generation == 0 && !c.timeoutError && !c.writePending
            && c.req == NO_REQUEST && c.resp == NO_RESPONSE
            && c.log == Log([], [], false, [], [], NO_REPLY)
  {
    hide DeadlineOf;
  }

  /** The kernel's part of accepting the first connection. */
  lemma FirstOpened()
    ensures var v := NextGenerationOf(OpenFd(INIT, FD, 0));
            v.phase == Serving && v.conns == map[] && v.inflight == map[]
  {
  }

  /** The first RECV may write a whole default buffer. */
  lemma FirstRecv(v: World)
    requires v.conns == map[] && v.inflight == map[]
    ensures var x := SubmitRecv(v, 0, NewConn(FD, 0, 0, MEM), ROOM);
            && x.phase == v.phase
            && x.conns == map[0 := PrepareRecv(NewConn(FD, 0, 0, MEM), 0, 0).(recvPending := true)]
            && x.inflight == map[U.Encode(U.Recv, 0, 0) := RecvSqe(FD, Target(0, 8192))]
  {
    hide U.Encode, CloseConn;
  }

  lemma RefreshPhase(cfg: Config, w: World, idx: nat)
    ensures var v := Refresh(cfg, w, idx); v.phase == w.phase && v.inflight == w.inflight
  {
    hide Retime;
  }

  /** A worker that accepts one connection. */
  lemma Accepted(cfg: Config) returns (w: World)
    requires ValidConfig(cfg) && 1 <= cfg.maxConnections
    ensures Enabled(INIT, FIRST) && w == Apply(cfg, INIT, FIRST)
    ensures Serves(cfg, w)
  {
    hide ValidConfig, DeadlineOf, U.Encode, SubmitRecv, Refresh, OpenFd, NextGenerationOf, PrepareRecv, Retime;
    w := AcceptConn(cfg, INIT, FD, 0, 0, MEM, ROOM);
    var v := NextGenerationOf(OpenFd(INIT, FD, 0));
    FirstOpened();
    FirstRecv(v);
    var x := SubmitRecv(v, 0, NewConn(FD, 0, 0, MEM), ROOM);
    RefreshOne(cfg, x);
    RefreshPhase(cfg, x, 0);
    assert x.conns[0 := Waiting(cfg)] == map[0 := Waiting(cfg)];
  }

  function Received(bytes: seq<byte>, env: Env): Action {
    RecvDone(U.Encode(U.Recv, 0, 0), Some(bytes), env, ROOM)
  }

  /** The connection once the operation a handler asked for is queued. */
  function Queued(out: Outcome): Conn {
    match out.op
    case ArmRecv => PrepareRecv(out.conn, 0, 0).(recvPending := true)
    case ArmSend => out.conn.(writePending := true)
    case _ => out.conn
  }

  /** What can be queued, and is, as there is room. */
  predicate Queues(out: Outcome) {
    && 0 <= out.conn.fd
    && match out.op
       case Rest => true
       case ArmRecv => !out.conn.recvPending
       case ArmSend => !out.conn.writePending && Tail(out.conn.resp) != []
       case _ => false
  }

  lemma PerformQueues(w: World, out: Outcome)
    requires Queues(out)
    ensures Perform(w, 0, out, ROOM).conns == w.conns[0 := Queued(out)]
  {
    hide U.Encode, Tail, SendLength, PrepareRecv, CloseConn, ReleaseIfIdle;
    if out.op == ArmRecv {
      TargetSet(out.conn);
    }
  }

  lemma TargetSet(c: Conn)
    ensures PrepareRecv(c, 0, 0).recvTarget.Some?
  {
  }

  lemma RefreshOne(cfg: Config, w: World)
    requires 0 in w.conns
    ensures Refresh(cfg, w, 0).conns == w.conns[0 := Retime(cfg, w.conns[0])]
  {
    hide Retime, Enter;
  }

  /** The worker after it accepted the first connection. */
  predicate Serves(cfg: Config, w: World) {
    && w.phase == Serving && w.conns == map[0 := Waiting(cfg)]
    && w.inflight == map[U.Encode(U.Recv, 0, 0) := RecvSqe(FD, Target(0, 8192))]
  }

  lemma CanReceive(cfg: Config, w: World, bytes: seq<byte>, env: Env)
    requires ValidConfig(cfg) && Serves(cfg, w) && |bytes| <= 8192 && EnvOk(env)
    ensures Enabled(w, Received(bytes, env))
    ensures Apply(cfg, w, Received(bytes, env)) ==
            CompleteRecv(cfg, Forget(w, U.Encode(U.Recv, 0, 0)), U.Encode(U.Recv, 0, 0), Some(bytes), env, ROOM)
  {
    hide ValidConfig, EnvOk, Waiting, CompleteRecv, U.Encode, CanMove, Moved, Covers, Current;
  }

  lemma Completes(cfg: Config, w: World, u: nat, c: Conn, bytes: seq<byte>, env: Env)
    requires ValidConfig(cfg) && w.conns == map[0 := c] && c.recvPending && Queues(HandleRecv(cfg, c, Some(bytes), env))
    requires U.Decode(u, U.Recv) == Some(U.Token(0, c.generation))
    ensures CompleteRecv(cfg, w, u, Some(bytes), env, ROOM).conns ==
            map[0 := Retime(cfg, Queued(HandleRecv(cfg, c, Some(bytes), env)))]
  {
    hide ValidConfig, HandleRecv, Queues, Queued, Perform, Refresh, U.Decode, Retime;
    var out := HandleRecv(cfg, c, Some(bytes), env);
    PerformQueues(w, out);
    RefreshOne(cfg, Perform(w, 0, out, ROOM));
    assert w.conns[0 := Queued(out)][0 := Retime(cfg, Queued(out))] == map[0 := Retime(cfg, Queued(out))];
  }

  lemma CompletesFirst(cfg: Config, w: World, bytes: seq<byte>, env: Env)
    requires ValidConfig(cfg) && w.conns == map[0 := Waiting(cfg)]
    requires Queues(HandleRecv(cfg, Waiting(cfg), Some(bytes), env))
    ensures CompleteRecv(cfg, w, U.Encode(U.Recv, 0, 0), Some(bytes), env, ROOM).conns ==
            map[0 := Retime(cfg, Queued(HandleRecv(cfg, Waiting(cfg), Some(bytes), env)))]
  {
    hide *;
    OwnToken();
    WaitingParts(cfg);
    Completes(cfg, w, U.Encode(U.Recv, 0, 0), Waiting(cfg), bytes, env);
  }

  lemma OwnToken()
    ensures U.Decode(U.Encode(U.Recv, 0, 0), U.Recv) == Some(U.Token(0, 0))
  {
    U.RoundTrip(U.Recv, U.Recv, 0, 0);
  }

  lemma Start(cfg: Config)
    requires ValidConfig(cfg)
    ensures Possible(cfg, Run([INIT], []))
  {
  }

  lemma Appended(cfg: Config, run: Run, a: Action) returns (on: Run)
    requires ValidConfig(cfg) && Possible(cfg, run) && Enabled(run.worlds[|run.actions|], a)
    ensures Possible(cfg, on) && |on.worlds| == |run.worlds| + 1 && |on.actions| == |run.actions| + 1
    ensures on.worlds[|run.worlds|] == Apply(cfg, run.worlds[|run.actions|], a)
    ensures forall k :: 0 <= k < |run.worlds| ==> on.worlds[k] == run.worlds[k]
  {
    RunGoesOn(cfg, run, a);
    hide ValidConfig, Possible, Enabled, Apply;
    on := Run(run.worlds + [Apply(cfg, run.worlds[|run.actions|], a)], run.actions + [a]);
    SameLength(cfg, run);
  }

  lemma SameLength(cfg: Config, run: Run)
    requires ValidConfig(cfg) && Possible(cfg, run)
    ensures |run.worlds| == |run.actions| + 1
  {
  }

  /** The run that accepts one connection and receives `bytes` on it. */
  lemma ReceivedRun(cfg: Config, bytes: seq<byte>, env: Env) returns (run: Run)
    requires ValidConfig(cfg) && 1 <= cfg.maxConnections
    requires |bytes| <= 8192 && EnvOk(env) && Queues(HandleRecv(cfg, Waiting(cfg), Some(bytes), env))
    ensures Possible(cfg, run) && |run.worlds| == 3
    ensures run.worlds[2].conns == map[0 := Retime(cfg, Queued(HandleRecv(cfg, Waiting(cfg), Some(bytes), env)))]
  {
    hide *;
    var w := Accepted(cfg);
    var u := U.Encode(U.Recv, 0, 0);
    Start(cfg);
    CanReceive(cfg, w, bytes, env);
    ServesParts(cfg, w);
    CompletesFirst(cfg, Forget(w, u), bytes, env);
    run := Appended(cfg, Run([INIT], []), FIRST);
    run := Appended(cfg, run, Received(bytes, env));
  }

  lemma ServesParts(cfg: Config, w: World)
    requires Serves(cfg, w)
    ensures forall u :: Forget(w, u).conns == map[0 := Waiting(cfg)]
  {
  }

  /** The outcome of receiving on the first connection is that of looking at its head. */
  lemma FirstHead(cfg: Config, bytes: seq<byte>, env: Env) returns (d: Conn)
    requires ValidConfig(cfg) && 0 < |bytes| <= 8192
    ensures HandleRecv(cfg, Waiting(cfg), Some(bytes), env) == ProcessHead(cfg, d, env)
    ensures d.buf == bytes && d.mem == Mem(|bytes|, 8192 - |bytes|) && d.fd == FD && !d.recvPending && !d.writePending
    ensures d.log == Log(bytes, [], false, [], [], NO_REPLY) && d.resp == NO_RESPONSE
  {
    WaitingParts(cfg);
    hide ValidConfig, Waiting, ProcessHead;
    assert [] + bytes[..|bytes|] == bytes;
    d := CommitRecv(Waiting(cfg).(recvPending := false), bytes);
  }

  /**
   After a part of a head the next RECV gets what spare capacity is left, and that is less than
   the documented default buffer.
   */
  lemma SmallRecv(cfg: Config, bytes: seq<byte>) returns (run: Run)
    requires ValidConfig(cfg) && 1 <= cfg.maxConnections
    requires 0 < |bytes| <= 4096 && cfg.parse(bytes).IncompleteHead?
    ensures Possible(cfg, run) && |run.worlds| == 3 && 0 in run.worlds[2].conns
    ensures var c := run.worlds[2].conns[0];
            c.recvPending && c.recvTarget == Some(Target(|bytes|, DEFAULT_BUFFER_SIZE - |bytes|))
  {
    var env := Env(0, [], true);
    var d := FirstHead(cfg, bytes, env);
    assert ProcessHead(cfg, d, env) == Outcome(d, ArmRecv);
    hide ValidConfig, HandleRecv, Waiting, Possible, DeadlineOf, ProcessHead;
    run := ReceivedRun(cfg, bytes, env);
  }

  /** What was sent, and with which interim part, is the same, and what comes next can be queued. */
  predicate SendsOn(c: Conn, out: Outcome) {
    && out.conn.log.sent == c.log.sent && out.conn.log.replies == c.log.replies
    && out.conn.log.reply.interim == c.log.reply.interim && Queues(out)
  }

  lemma BodyResultSends(cfg: Config, c: Conn, r: PumpResult)
    requires !c.recvPending && !c.writePending && 0 <= c.fd && ValidConfig(cfg)
    ensures SendsOn(c, BodyResult(cfg, c, r))
  {
  }

  /** Nothing a body pump does touches what was sent. */
  lemma ContinueSends(cfg: Config, c: Conn)
    requires !c.recvPending && !c.writePending && 0 <= c.fd && ValidConfig(cfg)
    ensures SendsOn(c, AfterDispatch(cfg, c))
  {
    hide BodyResult, Pump, ValidConfig;
    if c.req.body.Some? && C.Sound(c.req.body.value.decoder) {
      var (s, r) := Pump(PumpState(c.req.body.value, c.req.payload, c.buf), cfg.maxBody);
      var quiet := Tail(c.resp) == [] && c.resp.rx.None? && !c.resp.done && !c.resp.failed;
      BodyResultSends(cfg, AfterPump(c.(fault := c.fault || !quiet), s), r);
    }
  }

  /** The socket may take one byte of `100 Continue`; the request goes on, and the response will follow that byte. */
  lemma OneByteSent(cfg: Config, head: seq<byte>) returns (run: Run)
    requires ValidConfig(cfg) && 1 <= cfg.maxConnections
    requires |head| <= 8192 && cfg.parse(head).Parsed? && cfg.parse(head).head.expectContinue
    requires !ExceedsLimit(cfg.parse(head).head, cfg.maxBody)
    ensures Possible(cfg, run) && |run.worlds| == 3 && 0 in run.worlds[2].conns
    ensures var log := run.worlds[2].conns[0].log;
            log.sent == [72] && log.reply.interim == [72] && log.replies == []
  {
    var env := Env(0, [72], true);
    var d := FirstHead(cfg, head, env);
    var h := cfg.parse(head).head;
    var e := SendInterim(StartRequest(d, h), env.interim);
    assert e.log.sent == [72] && e.log.reply.interim == [72];
    ContinueSends(cfg, e);
    assert ProcessHead(cfg, d, env) == AfterDispatch(cfg, e);
    hide ValidConfig, HandleRecv, Waiting, Possible, DeadlineOf, ProcessHead, AfterDispatch;
    QueuedLog(cfg, AfterDispatch(cfg, e));
    run := ReceivedRun(cfg, head, env);
  }

  lemma QueuedLog(cfg: Config, out: Outcome)
    ensures Retime(cfg, Queued(out)).log == out.conn.log
  {
  }
}
