/** Whole runs of the worker, and what holds in every state one can reach. */
module EventLoopRun {
  import opened Connection
  import opened ConnectionInvariant
  import opened EventLoop
  import opened EventLoopInvariant
  import opened EventLoopActions

  // ----- one step -----

  lemma BaseNow(cfg: Config, w: World)
    requires Inv(cfg, w) && w.phase != Finished
    ensures Base(cfg, w)
  {
    hide Base;
  }

  /** A step that keeps the phase, outside teardown. */
  lemma HandlingKeeps(cfg: Config, w: World, v: World)
    requires Inv(cfg, w) && Handling(w) && Kept(cfg, w, v)
    ensures Inv(cfg, v)
  {
    hide Base;
  }

  lemma TearingKeeps(cfg: Config, w: World, v: World)
    requires Inv(cfg, w) && w.phase == TearingDown && Kept(cfg, w, v) && AllClosed(v)
    ensures Inv(cfg, v)
  {
    hide Base;
  }

  lemma ClosedNow(cfg: Config, w: World)
    requires Inv(cfg, w) && w.phase == TearingDown
    ensures AllClosed(w)
  {
    hide Base;
  }

  lemma AcceptKeeps(cfg: Config, w: World, fd: int, idx: nat, now: nat, mem: Mem, push: Push)
    requires Inv(cfg, w) && Enabled(w, Accept(fd, idx, now, mem, push))
    ensures Inv(cfg, AcceptConn(cfg, w, fd, idx, now, mem, push))
  {
    BaseNow(cfg, w);
    hide Base, Inv;
    AcceptAction(cfg, w, fd, idx, now, mem, push);
    var v := AcceptConn(cfg, w, fd, idx, now, mem, push);
    if w.phase == TearingDown {
      ClosedNow(cfg, w);
      TurnedAway(cfg, w, fd, idx);
      hide CloseFd, OpenFd, Kept;
      TearingKeeps(cfg, w, v);
    } else {
      hide AcceptConn, Kept;
      HandlingKeeps(cfg, w, v);
    }
  }

  lemma CompletionKeeps(cfg: Config, w: World, a: Action)
    requires ValidConfig(cfg) && Inv(cfg, w) && Enabled(w, a) && (a.RecvDone? || a.SendDone?)
    ensures Inv(cfg, Apply(cfg, w, a))
  {
    BaseNow(cfg, w);
    hide Base, Inv, Kept, AllClosed, DiscardRecv, DiscardSend, CompleteRecv, CompleteSend, ValidConfig, Forget;
    var v := Apply(cfg, w, a);
    if w.phase == TearingDown {
      ClosedNow(cfg, w);
      if a.RecvDone? { DiscardRecvAction(cfg, w, a.userData, a.recvd); } else { DiscardSendAction(cfg, w, a.userData, a.taken); }
      TearingKeeps(cfg, w, v);
    } else {
      if a.RecvDone? {
        RecvAction(cfg, w, a.userData, a.recvd, a.env, a.push);
      } else {
        SendAction(cfg, w, a.userData, a.taken, a.env, a.push);
      }
      HandlingKeeps(cfg, w, v);
    }
  }

  lemma KeptSelf(cfg: Config, w: World)
    requires Base(cfg, w)
    ensures Kept(cfg, w, w)
  {
  }

  lemma TurnActionKeeps(cfg: Config, w: World, a: Action)
    requires ValidConfig(cfg) && Inv(cfg, w) && Enabled(w, a) && (a.Sweep? || a.TurnDispatch? || a.TurnResponse?)
    ensures Inv(cfg, Apply(cfg, w, a))
  {
    hide Base, Inv, Kept, ValidConfig, Expired, Perform, Refresh, AdvanceDispatching, AdvanceResponse, SweepOne;
    BaseNow(cfg, w);
    KeptSelf(cfg, w);
    match a {
      case Sweep(idx, now, push) =>
        if Expired(cfg, w.conns[idx], now) { SweepAction(cfg, w, idx, now, push); }
      case TurnDispatch(idx, env, push) => DispatchAction(cfg, w, idx, env, push);
      case TurnResponse(idx, env, push) => ResponseAction(cfg, w, idx, env, push);
    }
    HandlingKeeps(cfg, w, Apply(cfg, w, a));
  }

  predicate EnvironmentMove(a: Action) {
    a.HandlerAnswers? || a.HandlerTakes? || a.HandlerDropsBody? || a.ProducerEmits? || a.ProducerEnds?
  }

  lemma EnvironmentKeeps(cfg: Config, w: World, a: Action)
    requires ValidConfig(cfg) && Inv(cfg, w) && Enabled(w, a) && EnvironmentMove(a)
    ensures Inv(cfg, Apply(cfg, w, a))
  {
    BaseNow(cfg, w);
    MoveApplied(cfg, w, a);
    hide Base, Inv, Kept, ValidConfig, Enabled, Apply, Moved;
    MoveKept(cfg, w, a);
    HandlingKeeps(cfg, w, Apply(cfg, w, a));
  }

  lemma MoveApplied(cfg: Config, w: World, a: Action)
    requires ValidConfig(cfg) && Enabled(w, a) && EnvironmentMove(a)
    ensures Handling(w) && a.idx in w.conns && CanMove(w.conns[a.idx], a)
    ensures Apply(cfg, w, a) == Put(w, a.idx, Moved(w.conns[a.idx], a))
  {
    hide CanMove, Moved, ValidConfig;
  }

  lemma MoveKept(cfg: Config, w: World, a: Action)
    requires Base(cfg, w) && EnvironmentMove(a) && a.idx in w.conns && CanMove(w.conns[a.idx], a)
    ensures Kept(cfg, w, Put(w, a.idx, Moved(w.conns[a.idx], a)))
  {
    SeatOf(cfg, w, a.idx);
    var c := w.conns[a.idx];
    hide Base, Kept, Core, Armed, KernelOk, TimerOk, SocketsOk, Quiet, CanMove, Moved;
    MoveQuiet(cfg, c, a);
    QuietKeeps(cfg, w, a.idx, Moved(c, a));
  }

  /** A new phase that makes no claim of its own. */
  lemma PhaseKeeps(cfg: Config, w: World, v: World, phase: Phase)
    requires Inv(cfg, w) && Handling(w) && Kept(cfg, w, v) && phase != Finished
    requires phase == TearingDown ==> AllClosed(v)
    ensures Inv(cfg, v.(phase := phase))
  {
    SameSockets(v, v.(phase := phase));
    hide Seat, SocketsOk;
    SameSeats(cfg, v, v.(phase := phase));
  }

  lemma FinishKeeps(cfg: Config, w: World)
    requires Inv(cfg, w) && w.phase == TearingDown
    ensures Inv(cfg, w.(conns := map[], leaked := w.conns, phase := Finished))
  {
    var v := w.(conns := map[], leaked := w.conns, phase := Finished);
    var x := v.(conns := v.leaked);
    SameSockets(w, x);
    hide Seat, SocketsOk;
    SameSeats(cfg, w, x);
  }

  lemma PopLeakedKeeps(cfg: Config, w: World, e: Entry)
    requires Inv(cfg, w) && w.phase == Finished
    ensures Inv(cfg, w.(heap := w.heap - multiset{e}))
  {
    var x := w.(conns := w.leaked);
    hide Base, Kept;
    LeakedStale(x, e);
    PopKeeps(cfg, x, e);
    KeptFields(cfg, x, x.(heap := x.heap - multiset{e}));
    var v := w.(heap := w.heap - multiset{e});
    assert v.(conns := v.leaked) == x.(heap := x.heap - multiset{e});
  }

  lemma LeakedStale(x: World, e: Entry)
    requires AllClosed(x)
    ensures !Current(x, e)
  {
  }

  lemma KeptFields(cfg: Config, w: World, v: World)
    requires Kept(cfg, w, v)
    ensures Base(cfg, v) && v.phase == w.phase && v.leaked == w.leaked
  {
    hide Base;
  }

  lemma TimerKeeps(cfg: Config, w: World, e: Entry)
    requires Inv(cfg, w) && e in w.heap && !Current(w, e)
    ensures Inv(cfg, w.(heap := w.heap - multiset{e}))
  {
    if w.phase == Finished {
      PopLeakedKeeps(cfg, w, e);
    } else {
      BaseNow(cfg, w);
      PopKeeps(cfg, w, e);
      hide Base, Kept, Current;
      KeptFields(cfg, w, w.(heap := w.heap - multiset{e}));
    }
  }

  /** Every action keeps the invariant. */
  lemma ApplyKeeps(cfg: Config, w: World, a: Action)
    requires ValidConfig(cfg) && Inv(cfg, w) && Enabled(w, a)
    ensures Inv(cfg, Apply(cfg, w, a))
  {
    if a.Accept? {
      hide Inv, ValidConfig, AcceptConn;
      AcceptKeeps(cfg, w, a.fd, a.idx, a.now, a.mem, a.push);
    } else if a.RecvDone? || a.SendDone? {
      CompletionKeeps(cfg, w, a);
    } else if a.Sweep? || a.TurnDispatch? || a.TurnResponse? {
      TurnActionKeeps(cfg, w, a);
    } else if EnvironmentMove(a) {
      EnvironmentKeeps(cfg, w, a);
    } else {
      LoopActionKeeps(cfg, w, a);
    }
  }

  lemma LoopActionKeeps(cfg: Config, w: World, a: Action)
    requires ValidConfig(cfg) && Inv(cfg, w) && Enabled(w, a)
    requires a.PopStale? || a.BeginDrain? || a.Reap? || a.BeginTeardown? || a.Finish?
    ensures Inv(cfg, Apply(cfg, w, a))
  {
    LoopApplied(cfg, w, a);
    hide Inv, Apply, Enabled, ValidConfig, Current, CloseAll, DrainAll, Covers, ReleaseIfIdle;
    if a.PopStale? {
      TimerKeeps(cfg, w, a.entry);
    } else if a.Finish? {
      FinishKeeps(cfg, w);
    } else if a.BeginDrain? {
      DrainStarts(cfg, w, a.slots);
    } else if a.BeginTeardown? {
      TeardownStarts(cfg, w, a.slots);
    } else {
      BaseNow(cfg, w);
      hide Base;
      NothingToReap(cfg, w, a.idx);
    }
  }

  /** What the actions of the loop itself need and do. */
  lemma LoopApplied(cfg: Config, w: World, a: Action)
    requires ValidConfig(cfg) && Enabled(w, a)
    requires a.PopStale? || a.BeginDrain? || a.Reap? || a.BeginTeardown? || a.Finish?
    ensures a.PopStale? ==>
              a.entry in w.heap && !Current(w, a.entry) && Apply(cfg, w, a) == w.(heap := w.heap - multiset{a.entry})
    ensures a.BeginDrain? ==> w.phase == Serving && Apply(cfg, w, a) == DrainAll(w, a.slots).(phase := Draining)
    ensures a.Reap? ==> w.phase == Draining && Apply(cfg, w, a) == ReleaseIfIdle(w, a.idx)
    ensures a.BeginTeardown? ==>
              Handling(w) && Covers(w, a.slots) && Apply(cfg, w, a) == CloseAll(w, a.slots).(phase := TearingDown)
    ensures a.Finish? ==>
              w.phase == TearingDown && Apply(cfg, w, a) == w.(conns := map[], leaked := w.conns, phase := Phase.Finished)
  {
    hide ValidConfig, Current, ReleaseIfIdle;
    hide AcceptConn, CompleteRecv, CompleteSend, DiscardRecv, DiscardSend, Perform, Refresh, DrainAll, CloseAll, Moved, CanMove,
         Forget, Expired, Covers;
  }

  lemma DrainStarts(cfg: Config, w: World, slots: seq<nat>)
    requires Inv(cfg, w) && w.phase == Serving
    ensures Inv(cfg, DrainAll(w, slots).(phase := Draining))
  {
    BaseNow(cfg, w);
    hide Inv, Base, Kept, DrainAll;
    DrainAllKeeps(cfg, w, slots);
    PhaseKeeps(cfg, w, DrainAll(w, slots), Draining);
  }

  lemma TeardownStarts(cfg: Config, w: World, slots: seq<nat>)
    requires Inv(cfg, w) && Handling(w) && Covers(w, slots)
    ensures Inv(cfg, CloseAll(w, slots).(phase := TearingDown))
  {
    BaseNow(cfg, w);
    hide Inv, Base, Kept, CloseAll, AllClosed, Covers;
    TeardownAction(cfg, w, slots);
    PhaseKeeps(cfg, w, CloseAll(w, slots), TearingDown);
  }

  // ----- runs -----

  /** The worlds a run goes through, and the action between each and the next. */
  datatype Run = Run(worlds: seq<World>, actions: seq<Action>)

  ghost predicate Next(cfg: Config, run: Run, k: nat)
    requires ValidConfig(cfg) && |run.worlds| == |run.actions| + 1 && k < |run.actions|
  {
    Enabled(run.worlds[k], run.actions[k]) && run.worlds[k + 1] == Apply(cfg, run.worlds[k], run.actions[k])
  }

  /** From nothing, each action can happen where it does and leads to the next world. */
  ghost predicate Possible(cfg: Config, run: Run)
    requires ValidConfig(cfg)
  {
    && |run.worlds| == |run.actions| + 1 && run.worlds[0] == INIT
    && forall k: nat :: k < |run.actions| ==> Next(cfg, run, k)
  }

  /** Any action that can happen continues a run. */
  lemma RunGoesOn(cfg: Config, run: Run, a: Action)
    requires ValidConfig(cfg) && Possible(cfg, run) && Enabled(run.worlds[|run.actions|], a)
    ensures Possible(cfg, Run(run.worlds + [Apply(cfg, run.worlds[|run.actions|], a)], run.actions + [a]))
  {
    hide ValidConfig, Enabled, Apply;
    var n := |run.actions|;
    var on := Run(run.worlds + [Apply(cfg, run.worlds[n], a)], run.actions + [a]);
    forall k: nat | k < |on.actions| ensures Next(cfg, on, k) {
      if k < n {
        assert Next(cfg, run, k);
      }
    }
  }

  lemma InitKeeps(cfg: Config)
    ensures Inv(cfg, INIT)
  {
  }

  lemma {:induction false} RunKeeps(cfg: Config, run: Run, k: nat)
    requires ValidConfig(cfg) && Possible(cfg, run) && k < |run.worlds|
    ensures Inv(cfg, run.worlds[k])
    decreases k
  {
    hide Inv, ValidConfig, Enabled, Apply, INIT;
    if k == 0 {
      InitKeeps(cfg);
    } else {
      RunKeeps(cfg, run, k - 1);
      assert Next(cfg, run, k - 1);
      ApplyKeeps(cfg, run.worlds[k - 1], run.actions[k - 1]);
    }
  }
}
