/** What the timeout sweep is for: the deadlines the heap keeps are exactly those it enforces. */
module Timeouts {
  import opened Connection
  import opened ConnectionInvariant
  import opened EventLoop
  import opened EventLoopInvariant
  import opened EventLoopActions
  import opened EventLoopRun
  import W = Worker

  predicate Due(cfg: Config, c: Conn, now: nat) {
    DeadlineOf(cfg, c).Some? && DeadlineOf(cfg, c).value <= now
  }

  /** The sweep handles a connection exactly when its deadline has come. */
  lemma ExpiredIsDue(cfg: Config, c: Conn, now: nat)
    requires c.state != Closed
    ensures Expired(cfg, c, now) <==> Due(cfg, c, now)
  {
  }

  /** The connection in the slot is live and its deadline has come. */
  predicate Overdue(cfg: Config, w: World, idx: nat, now: nat) {
    idx in w.conns && w.conns[idx].state != Closed && Due(cfg, w.conns[idx], now)
  }

  predicate LifetimeOver(cfg: Config, c: Conn, now: nat) {
    Elapsed(c.clock.acceptedAt, cfg.connectionTimeout, now)
  }

  /**
   What outlasts a sweep: a body that timed out while a RECV is in flight, which is cancelled first,
   or while the lifetime is over as well, as the answer is sent before the next sweep closes.
   */
  predicate Outlasts(cfg: Config, c: Conn, now: nat, room: bool) {
    c.state != Closed && room && BodyTimedOut(cfg, c, now) && (c.recvPending || LifetimeOver(cfg, c, now))
  }

  predicate CancelInFlight(c: Conn) {
    c.state == Dispatching && c.timeoutError && c.recvPending
  }

  predicate AnsweredLate(cfg: Config, c: Conn, now: nat) {
    && c.state == Writing && c.writePending && c.log.reply.final == Serialized(cfg.wire(RequestTimeout))
    && LifetimeOver(cfg, c, now)
  }

  // ----- one connection -----

  /** What the sweep makes of an expired connection, if its operation can be queued. */
  lemma SweepOneLeaves(cfg: Config, c: Conn, now: nat)
    requires ValidConfig(cfg) && Core(cfg, c) && Expired(cfg, c, now)
    ensures match SweepOne(cfg, c, now).op
            case Shut(_) => !BodyTimedOut(cfg, c, now)
            case CancelRecv =>
              var d := SweepOne(cfg, c, now).conn;
              BodyTimedOut(cfg, c, now) && c.recvPending && CancelInFlight(d) && Due(cfg, d, now)
            case ArmSend =>
              var d := SweepOne(cfg, c, now).conn;
              && BodyTimedOut(cfg, c, now) && !c.recvPending && d.state == Writing && !d.writePending && 0 <= d.fd
              && Tail(d.resp) != [] && d.log.reply.final == Serialized(cfg.wire(RequestTimeout))
              && (Due(cfg, d, now) <==> LifetimeOver(cfg, c, now)) && d.clock == c.clock
            case _ => false
  {
    hide InputOk, PayloadOk, StreamOk, ReplyOk, MemOk;
    if BodyTimedOut(cfg, c, now) && !c.recvPending {
      var d := SweepOne(cfg, c, now).conn;
      assert Tail(d.resp) == cfg.wire(RequestTimeout);
    }
  }

  // ----- one sweep action -----

  lemma RefreshedSlot(cfg: Config, v: World, idx: nat)
    ensures var x := Refresh(cfg, v, idx);
            && (idx in x.conns <==> idx in v.conns)
            && (idx in v.conns ==> x.conns[idx] == Retime(cfg, v.conns[idx]))
  {
    hide Retime, Enter;
  }

  lemma RetimedDue(cfg: Config, c: Conn, now: nat)
    ensures var d := Retime(cfg, c);
            && d.state == c.state && Due(cfg, d, now) == Due(cfg, c, now)
            && CancelInFlight(d) == CancelInFlight(c) && AnsweredLate(cfg, d, now) == AnsweredLate(cfg, c, now)
  {
  }

  /** The slot once a sweep's operation was performed. */
  lemma PerformedSlot(w: World, idx: nat, out: Outcome, push: Push)
    requires out.op.Shut? || out.op.CancelRecv? || out.op.ArmSend?
    requires out.op.ArmSend? ==> !out.conn.writePending && 0 <= out.conn.fd && Tail(out.conn.resp) != []
    ensures var v := Perform(w, idx, out, push);
            if out.op.Shut? || !push.room then idx in v.conns ==> v.conns[idx].state == Closed
            else
              && idx in v.conns
              && v.conns[idx] == if out.op.CancelRecv? then out.conn else out.conn.(writePending := true)
  {
    hide CloseConn, Tail, SendLength;
    var p := Put(w, idx, out.conn);
    ClosedAfter(p, idx, if out.op.Shut? then out.op.why else if out.op.CancelRecv? then Timeout else IoError);
  }

  /** Entering a deadline again changes neither whether the slot is overdue nor why. */
  lemma RefreshedOverdue(cfg: Config, x: World, idx: nat, now: nat)
    ensures var v := Refresh(cfg, x, idx);
            && (idx in v.conns <==> idx in x.conns) && Overdue(cfg, v, idx, now) == Overdue(cfg, x, idx, now)
            && (idx in x.conns ==> CancelInFlight(v.conns[idx]) == CancelInFlight(x.conns[idx]))
            && (idx in x.conns ==> AnsweredLate(cfg, v.conns[idx], now) == AnsweredLate(cfg, x.conns[idx], now))
  {
    RefreshedSlot(cfg, x, idx);
    hide Refresh, Retime, Due, CancelInFlight, AnsweredLate;
    if idx in x.conns {
      RetimedDue(cfg, x.conns[idx], now);
    }
  }

  /** The slot a sweep's operation leaves, given what the sweep made of the connection. */
  lemma SweptConn(cfg: Config, c: Conn, now: nat, room: bool, out: Outcome, x: World, idx: nat)
    requires out == SweepOne(cfg, c, now)
    requires ValidConfig(cfg) && Core(cfg, c) && Expired(cfg, c, now) && c.state != Closed
    requires if out.op.Shut? || !room then idx in x.conns ==> x.conns[idx].state == Closed
             else idx in x.conns && x.conns[idx] == if out.op.CancelRecv? then out.conn else out.conn.(writePending := true)
    ensures Overdue(cfg, x, idx, now) <==> Outlasts(cfg, c, now, room)
    ensures Overdue(cfg, x, idx, now) ==> CancelInFlight(x.conns[idx]) || AnsweredLate(cfg, x.conns[idx], now)
  {
    SweepOneLeaves(cfg, c, now);
    SameDue(cfg, out.conn, now);
    hide ValidConfig, Core, SweepOne, DeadlineOf, Due, Expired, BodyTimedOut, Tail, Elapsed;
  }

  /** After the sweep of a slot it is overdue exactly if what was there outlasts the sweep. */
  lemma SweptSlot(cfg: Config, w: World, idx: nat, now: nat, push: Push)
    requires ValidConfig(cfg) && idx in w.conns && w.conns[idx].state != Closed && Core(cfg, w.conns[idx])
    requires Expired(cfg, w.conns[idx], now)
    ensures var v := Refresh(cfg, Perform(w, idx, SweepOne(cfg, w.conns[idx], now), push), idx);
            && (Overdue(cfg, v, idx, now) <==> Outlasts(cfg, w.conns[idx], now, push.room))
            && (Overdue(cfg, v, idx, now) ==> CancelInFlight(v.conns[idx]) || AnsweredLate(cfg, v.conns[idx], now))
  {
    var c := w.conns[idx];
    SweepOneLeaves(cfg, c, now);
    hide ValidConfig, Core, SweepOne, Perform, Refresh, Expired, BodyTimedOut, Tail, LifetimeOver, Due, Overdue, Outlasts;
    hide CancelInFlight, AnsweredLate;
    var out := SweepOne(cfg, c, now);
    PerformedSlot(w, idx, out, push);
    var x := Perform(w, idx, out, push);
    SweptConn(cfg, c, now, push.room, out, x, idx);
    RefreshedOverdue(cfg, x, idx, now);
    InSlot(cfg, x, idx, now);
  }

  lemma InSlot(cfg: Config, w: World, idx: nat, now: nat)
    ensures Overdue(cfg, w, idx, now) ==> idx in w.conns
  {
    hide Due;
  }

  lemma SameDue(cfg: Config, c: Conn, now: nat)
    ensures Due(cfg, c.(writePending := true), now) == Due(cfg, c, now)
  {
  }

  lemma SweepLeaves(cfg: Config, w: World, idx: nat, now: nat, push: Push)
    requires ValidConfig(cfg) && Base(cfg, w) && Enabled(w, Sweep(idx, now, push))
    ensures var v := Apply(cfg, w, Sweep(idx, now, push));
            && (Overdue(cfg, v, idx, now) <==> Outlasts(cfg, w.conns[idx], now, push.room))
            && (Overdue(cfg, v, idx, now) ==> CancelInFlight(v.conns[idx]) || AnsweredLate(cfg, v.conns[idx], now))
            && W.Only(w, v, idx)
  {
    hide ValidConfig, Base, Core, Armed, KernelOk, SocketsOk, TimerOk, Perform, Refresh, Outlasts, CancelInFlight, AnsweredLate;
    hide SweepOne, Expired, Due, W.Only;
    SeatOf(cfg, w, idx);
    var c := w.conns[idx];
    NothingOutlasts(cfg, c, now, push.room);
    W.OnlySelf(w, idx);
    if Expired(cfg, c, now) {
      SweptSlot(cfg, w, idx, now, push);
      W.TurnOnly(cfg, w, idx, SweepOne(cfg, c, now), push);
    } else if c.state != Closed {
      ExpiredIsDue(cfg, c, now);
    }
  }

  lemma NothingOutlasts(cfg: Config, c: Conn, now: nat, room: bool)
    ensures Expired(cfg, c, now) ==> c.state != Closed
    ensures Outlasts(cfg, c, now, room) ==> Expired(cfg, c, now)
  {
  }

  // ----- a whole sweep -----

  /**
   A sweep over all connections at `now`. Afterwards a connection is overdue if and only if it was
   there and outlasts the sweep; then its RECV is being cancelled, or its answer to the timeout is
   on its way and its lifetime is over as well.
   */
  lemma {:induction false} SweepAll(cfg: Config, w: World, slots: seq<nat>, now: nat, push: nat -> Push)
    requires ValidConfig(cfg) && Inv(cfg, w) && Handling(w) && W.Distinct(slots) && forall idx :: idx in slots ==> idx in w.conns
    ensures var v := W.ApplyAll(cfg, w, W.Sweeps(slots, now, push));
            && (forall idx :: idx in slots ==>
                  && (Overdue(cfg, v, idx, now) <==> Outlasts(cfg, w.conns[idx], now, push(idx).room))
                  && (Overdue(cfg, v, idx, now) ==> CancelInFlight(v.conns[idx]) || AnsweredLate(cfg, v.conns[idx], now)))
            && (forall idx: nat :: idx !in slots ==>
                  (idx in v.conns <==> idx in w.conns) && (idx in w.conns ==> v.conns[idx] == w.conns[idx]))
    decreases |slots|
  {
    hide ValidConfig, Inv, Overdue, Outlasts, CancelInFlight, AnsweredLate, Enabled, Apply, W.ApplyAll, W.Sweeps;
    if slots == [] {
      W.NoSweep(cfg, w, slots, now, push);
      assert slots[|slots|..] == slots;
    } else {
      var idx, rest := slots[0], slots[1..];
      var a := Sweep(idx, now, push(idx));
      SweepEnabled(w, idx, now, push(idx));
      BaseWhileHandling(cfg, w);
      SweepLeaves(cfg, w, idx, now, push(idx));
      ApplyKeeps(cfg, w, a);
      var x := Apply(cfg, w, a);
      SweepNext(cfg, w, slots, now, push);
      assert W.Distinct(rest) && idx !in rest by {
        assert forall i :: 0 <= i < |rest| ==> rest[i] == slots[i + 1];
      }
      assert forall j :: j in slots <==> j == idx || j in rest;
      hide W.Distinct;
      SweepAll(cfg, x, rest, now, push);
      SameSlotOverdue(cfg, x, W.ApplyAll(cfg, w, W.Sweeps(slots, now, push)), idx, now);
    }
  }

  lemma SameSlotOverdue(cfg: Config, x: World, v: World, idx: nat, now: nat)
    requires (idx in v.conns <==> idx in x.conns) && (idx in x.conns ==> v.conns[idx] == x.conns[idx])
    ensures Overdue(cfg, v, idx, now) == Overdue(cfg, x, idx, now)
    ensures Overdue(cfg, v, idx, now) ==> idx in v.conns && idx in x.conns && v.conns[idx] == x.conns[idx]
  {
    hide Due;
  }

  lemma SweepEnabled(w: World, idx: nat, now: nat, push: Push)
    requires Handling(w) && idx in w.conns
    ensures Enabled(w, Sweep(idx, now, push))
  {
  }

  lemma BaseWhileHandling(cfg: Config, w: World)
    requires Inv(cfg, w) && Handling(w)
    ensures Base(cfg, w)
  {
    hide Base;
  }

  lemma SweepNext(cfg: Config, w: World, slots: seq<nat>, now: nat, push: nat -> Push)
    requires ValidConfig(cfg) && slots != [] && Handling(w) && slots[0] in w.conns
    ensures var a := Sweep(slots[0], now, push(slots[0]));
            && Enabled(w, a)
            && W.ApplyAll(cfg, w, W.Sweeps(slots, now, push)) == W.ApplyAll(cfg, Apply(cfg, w, a), W.Sweeps(slots[1..], now, push))
  {
    hide ValidConfig, Apply;
    var a, rest := Sweep(slots[0], now, push(slots[0])), W.Sweeps(slots[1..], now, push);
    SweepEnabled(w, slots[0], now, push(slots[0]));
    assert W.Sweeps(slots, now, push) == [a] + rest && ([a] + rest)[1..] == rest;
  }

  /** The same in every reachable state of every run, for a sweep that covers the slab. */
  lemma SweptRuns(cfg: Config, run: Run, k: nat, slots: seq<nat>, now: nat, push: nat -> Push, idx: nat)
    requires ValidConfig(cfg) && Possible(cfg, run) && k < |run.worlds| && Handling(run.worlds[k])
    requires W.Distinct(slots) && (forall j :: j in slots <==> j in run.worlds[k].conns)
    ensures var w := run.worlds[k];
            var v := W.ApplyAll(cfg, w, W.Sweeps(slots, now, push));
            && (Overdue(cfg, v, idx, now) <==> idx in w.conns && Outlasts(cfg, w.conns[idx], now, push(idx).room))
            && (Overdue(cfg, v, idx, now) ==> CancelInFlight(v.conns[idx]) || AnsweredLate(cfg, v.conns[idx], now))
  {
    RunKeeps(cfg, run, k);
    hide Possible, ValidConfig, Inv, Outlasts, CancelInFlight, AnsweredLate, Due, W.ApplyAll, W.Sweeps, W.Distinct;
    SweepAll(cfg, run.worlds[k], slots, now, push);
  }
}
