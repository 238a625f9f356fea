/**
 The worker as it runs: the slab, the deadline heap and the generation counter updated in
 place, and the loops over them. `kernel` is the other side of the system calls.
 */
module Worker {
  import opened Bytes
  import opened Connection
  import E = EventLoop
  import I = EventLoopInvariant
  import A = EventLoopActions
  import R = EventLoopRun
  import T = EventLoopTheorems
  import U = UserData

  class Worker {
    const cfg: Config
    var conns: map<nat, Conn>
    var nextGeneration: nat
    var deadlineHeap: multiset<E.Entry>
    var phase: E.Phase
    /** SQEs in flight, sockets and their history; of this world only those parts count. */
    ghost var kernel: E.World

    ghost function World(): E.World
      reads this
    {
      kernel.(conns := conns, nextGeneration := nextGeneration, heap := deadlineHeap, phase := phase)
    }

    constructor (cfg: Config)
      ensures this.cfg == cfg && World() == E.INIT
    {
      this.cfg := cfg;
      conns, nextGeneration, deadlineHeap, phase := map[], 0, multiset{}, E.Serving;
      kernel := E.INIT;
    }

    // ----- slots -----

    /** Closes the socket; the slot stays while the kernel still points into it. */
    method CloseConn(idx: nat, why: CloseReason)
      modifies this
      ensures World() == E.CloseConn(old(World()), idx, why)
    {
      hide E.EndFd, MarkClosed;
      ghost var w := World();
      if idx !in conns {
        return;
      }
      var c := conns[idx];
      if 0 <= c.fd {
        EndFdKernel(kernel, w, c.fd, E.Ended(c.log, why));
        kernel := E.EndFd(kernel, c.fd, E.Ended(c.log, why));
      }
      if c.recvPending || c.writePending {
        conns := conns[idx := MarkClosed(c.(fd := -1))];
      } else {
        conns := conns - {idx};
      }
    }

    method ReleaseIfIdle(idx: nat)
      modifies this
      ensures World() == E.ReleaseIfIdle(old(World()), idx)
    {
      if idx in conns && conns[idx].state == Closed && !conns[idx].recvPending && !conns[idx].writePending {
        conns := conns - {idx};
      }
    }

    // ----- submitting -----

    /** A RECV into the spare capacity of the connection's buffer. */
    method SubmitRecv(idx: nat, push: E.Push)
      requires idx in conns
      modifies this
      ensures World() == E.SubmitRecv(old(World()), idx, old(conns)[idx], push)
    {
      hide E.CloseConn, PrepareRecv, U.Encode;
      var c := conns[idx];
      ghost var w := World();
      if c.recvPending || c.fd < 0 {
        conns := conns[idx := c.(fault := true)];
        CloseConn(idx, IoError);
        return;
      }
      var d := PrepareRecv(c, push.base, push.extra);
      if push.room {
        T.PrepareTargets(c, push.base, push.extra);
        var target := d.recvTarget.value;
        conns := conns[idx := d.(recvPending := true)];
        kernel := E.Submit(kernel, U.Encode(U.Recv, idx, c.generation), E.RecvSqe(c.fd, target));
      } else {
        conns := conns[idx := d.(recvTarget := None)];
        CloseConn(idx, IoError);
      }
    }

    /** A SEND of the unwritten part of the response. */
    method SubmitWrite(idx: nat, push: E.Push)
      requires idx in conns
      modifies this
      ensures World() == E.SubmitWrite(old(World()), idx, old(conns)[idx], push)
    {
      hide E.CloseConn, U.Encode, Tail;
      var c := conns[idx];
      if c.writePending || c.fd < 0 {
        conns := conns[idx := c.(fault := true)];
        CloseConn(idx, IoError);
        return;
      }
      var tail := Tail(c.resp);
      ghost var w := World();
      assert w.(conns := w.conns[idx := c]) == w by { assert w.conns[idx := c] == w.conns; }
      if tail == [] {
        return;
      }
      if push.room {
        conns := conns[idx := c.(writePending := true)];
        kernel := E.Submit(kernel, U.Encode(U.Write, idx, c.generation), E.SendSqe(c.fd, tail[..E.SendLength(tail)]));
      } else {
        CloseConn(idx, IoError);
      }
    }

    /** Carries out what a handler decided for its connection. */
    method Perform(idx: nat, out: Outcome, push: E.Push)
      modifies this
      ensures World() == E.Perform(old(World()), idx, out, push)
    {
      hide E.CloseConn, E.SubmitRecv, E.SubmitWrite, E.ReleaseIfIdle;
      ghost var w := World();
      conns := conns[idx := out.conn];
      SubmitAnyway(w, idx, out.conn, push);
      match out.op
      case Rest =>
      case ArmRecv => SubmitRecv(idx, push);
      case ArmSend => SubmitWrite(idx, push);
      case CancelRecv =>
        if !push.room {
          CloseConn(idx, Timeout);
        }
      case Shut(why) => CloseConn(idx, why);
      case Release => ReleaseIfIdle(idx);
    }

    // ----- deadlines -----

    /** A fresh deadline for the connection; older heap entries of the slot become stale. */
    method RefreshTimeoutDeadline(idx: nat)
      modifies this
      ensures World() == E.Refresh(cfg, old(World()), idx)
    {
      hide E.Retime;
      if idx !in conns {
        return;
      }
      var c := E.Retime(cfg, conns[idx]);
      conns := conns[idx := c];
      if c.clock.tracked.Some? {
        deadlineHeap := deadlineHeap + multiset{E.Entry(c.clock.tracked.value, idx, c.clock.generation)};
      }
    }

    /** The earliest deadline: pops entries until the top one speaks for its connection. */
    method NextTimeoutDeadline() returns (deadline: Option<nat>)
      requires I.Base(cfg, World())
      modifies this`deadlineHeap
      ensures I.Base(cfg, World()) && T.Earliest(cfg, World(), deadline)
      ensures StaleGone(old(World()), deadlineHeap)
    {
      hide E.Current, I.Base, T.Earliest, StaleGone, Least;
      ghost var w := World();
      assert World() == w.(heap := deadlineHeap);
      NothingGone(w);
      while deadlineHeap != multiset{}
        invariant I.Base(cfg, World()) && World() == w.(heap := deadlineHeap) && StaleGone(w, deadlineHeap)
        decreases |deadlineHeap|
      {
        LeastEntry(deadlineHeap);
        var top :| Least(deadlineHeap, top);
        LeastIn(deadlineHeap, top);
        CurrentIs(World(), top);
        if top.idx in conns && conns[top.idx].state != Closed
           && conns[top.idx].clock.generation == top.generation && conns[top.idx].clock.tracked == Some(top.deadline)
        {
          TopIsEarliest(cfg, World(), top);
          return Some(top.deadline);
        }
        Popped(cfg, World(), top);
        PopStale(w, deadlineHeap, top);
        deadlineHeap := deadlineHeap - multiset{top};
      }
      EmptyIsNone(cfg, World());
      return None;
    }

    // ----- completions -----

    /** The kernel hands over a new socket. */
    method Accepted(fd: int, idx: nat)
      modifies this
      ensures World() == E.OpenFd(old(World()), fd, idx) && conns == old(conns) && phase == old(phase)
      ensures nextGeneration == old(nextGeneration)
    {
      kernel := E.OpenFd(World(), fd, idx);
    }

    method CloseAcceptedFd(fd: int)
      modifies this
      ensures World() == E.CloseFd(old(World()), fd)
    {
      CloseFdParts(World(), fd);
      kernel := E.CloseFd(World(), fd);
    }

    method TakeGeneration() returns (generation: nat)
      modifies this
      ensures generation == old(nextGeneration) && World() == E.NextGenerationOf(old(World()))
      ensures conns == old(conns)
    {
      generation := nextGeneration;
      nextGeneration := (nextGeneration + 1) % U.GENERATIONS;
    }

    method Insert(idx: nat, c: Conn)
      modifies this
      ensures World() == E.Put(old(World()), idx, c) && conns == old(conns)[idx := c]
    {
      conns := conns[idx := c];
    }

    /** An accepted socket: a connection of its own, or closed again at once. */
    method HandleAccept(fd: int, idx: nat, now: nat, mem: Mem, push: E.Push)
      requires idx !in conns
      modifies this
      ensures World() == E.AcceptConn(cfg, old(World()), fd, idx, now, mem, push)
    {
      hide E.CloseFd, E.OpenFd, E.SubmitRecv, E.Refresh, E.NextGenerationOf, E.Put, NewConn;
      Accepted(fd, idx);
      if phase != E.Serving || |conns| >= cfg.maxConnections {
        CloseAcceptedFd(fd);
        return;
      }
      var generation := TakeGeneration();
      ghost var x := World();
      var c := NewConn(fd, generation, now, mem);
      Insert(idx, c);
      SubmitAnyway(x, idx, c, push);
      SubmitRecv(idx, push);
      RefreshTimeoutDeadline(idx);
    }

    method HandleRecvCompletion(userData: nat, recvd: Option<seq<byte>>, env: Env, push: E.Push)
      requires ValidConfig(cfg)
      modifies this
      ensures World() == E.CompleteRecv(cfg, old(World()), userData, recvd, env, push)
    {
      hide U.Decode, HandleRecv, E.Perform, E.Refresh;
      var token := U.Decode(userData, U.Recv);
      if token.None? {
        return;
      }
      var idx := token.value.idx;
      if idx in conns && conns[idx].generation == token.value.generation && conns[idx].recvPending {
        Perform(idx, HandleRecv(cfg, conns[idx], recvd, env), push);
      }
      RefreshTimeoutDeadline(idx);
    }

    method HandleWriteCompletion(userData: nat, data: seq<byte>, taken: Option<nat>, env: Env, push: E.Push)
      requires ValidConfig(cfg) && (taken.Some? ==> taken.value <= |data|)
      modifies this
      ensures World() == E.CompleteSend(cfg, old(World()), userData, data, taken, env, push)
    {
      hide U.Decode, HandleSend, E.Perform, E.Refresh, OnWire;
      var token := U.Decode(userData, U.Write);
      if token.None? {
        return;
      }
      var idx := token.value.idx;
      if idx in conns && conns[idx].generation == token.value.generation && conns[idx].writePending {
        var c := OnWire(conns[idx], if taken.Some? then data[..taken.value] else []);
        Perform(idx, HandleSend(cfg, c, taken, env), push);
      }
      RefreshTimeoutDeadline(idx);
    }

    /** During teardown a completion only clears its flag; the last one frees the slot. */
    method DiscardRecvCompletion(userData: nat, recvd: Option<seq<byte>>)
      modifies this
      ensures World() == E.DiscardRecv(old(World()), userData, recvd)
    {
      hide U.Decode, E.ReleaseIfIdle, LoseRecv;
      var token := U.Decode(userData, U.Recv);
      if token.None? {
        return;
      }
      var idx := token.value.idx;
      if idx in conns && conns[idx].generation == token.value.generation {
        conns := conns[idx := LoseRecv(conns[idx].(recvPending := false), recvd)];
      }
      ReleaseIfIdle(idx);
    }

    method DiscardWriteCompletion(userData: nat, data: seq<byte>)
      modifies this
      ensures World() == E.DiscardSend(old(World()), userData, data)
    {
      hide U.Decode, E.ReleaseIfIdle, OnWire;
      var token := U.Decode(userData, U.Write);
      if token.None? {
        return;
      }
      var idx := token.value.idx;
      if idx in conns && conns[idx].generation == token.value.generation {
        Insert(idx, Sent(conns[idx], data));
      }
      ReleaseIfIdle(idx);
    }

    // ----- loops over the slab -----

    /** The connections that have timed out are picked first, then handled one by one. */
    method SweepTimedOutConnections(slots: seq<nat>, now: nat, push: nat -> E.Push)
      requires ValidConfig(cfg) && E.Handling(World()) && Distinct(slots) && (forall idx :: idx in slots ==> idx in conns)
      modifies this
      ensures World() == ApplyAll(cfg, old(World()), Sweeps(slots, now, push))
    {
      hide E.Perform, E.Refresh, Expired, SweepOne, ValidConfig, ApplyAll, Sweeps;
      assert slots[0..] == slots;
      ghost var w := World();
      var expired: set<nat> := set idx | idx in slots && Expired(cfg, conns[idx], now);
      var i := 0;
      while i < |slots|
        invariant 0 <= i <= |slots| && phase == w.phase
        invariant forall k :: i <= k < |slots| ==> slots[k] in conns && conns[slots[k]] == w.conns[slots[k]]
        invariant ApplyAll(cfg, World(), Sweeps(slots[i..], now, push)) == ApplyAll(cfg, w, Sweeps(slots, now, push))
      {
        var idx := slots[i];
        ghost var v := World();
        FirstSweep(cfg, v, slots, i, now, push);
        if idx in expired {
          TurnOnly(cfg, v, idx, SweepOne(cfg, conns[idx], now), push(idx));
          Perform(idx, SweepOne(cfg, conns[idx], now), push(idx));
          RefreshTimeoutDeadline(idx);
        }
        i := i + 1;
      }
      NoSweep(cfg, World(), slots, now, push);
    }

    /** Every dispatching connection gets one turn. */
    method AdvanceDispatchingConnections(slots: seq<nat>, env: nat -> Env, push: nat -> E.Push)
      requires ValidConfig(cfg) && E.Handling(World()) && Distinct(slots) && (forall idx :: idx in slots ==> idx in conns)
      requires forall idx :: EnvOk(env(idx))
      modifies this
      ensures World() == ApplyAll(cfg, old(World()), Dispatches(slots, env, push))
    {
      hide E.Perform, E.Refresh, AdvanceDispatching, ValidConfig, ApplyAll, Dispatches, EnvOk;
      assert slots[0..] == slots;
      ghost var w := World();
      var dispatching: set<nat> := set idx | idx in slots && conns[idx].state == Dispatching;
      var i := 0;
      while i < |slots|
        invariant 0 <= i <= |slots| && phase == w.phase
        invariant forall k :: i <= k < |slots| ==> slots[k] in conns && conns[slots[k]] == w.conns[slots[k]]
        invariant ApplyAll(cfg, World(), Dispatches(slots[i..], env, push)) == ApplyAll(cfg, w, Dispatches(slots, env, push))
      {
        var idx := slots[i];
        ghost var v := World();
        FirstDispatch(cfg, v, slots, i, env, push);
        if idx in dispatching {
          TurnOnly(cfg, v, idx, AdvanceDispatching(cfg, conns[idx], env(idx)), push(idx));
          Perform(idx, AdvanceDispatching(cfg, conns[idx], env(idx)), push(idx));
          RefreshTimeoutDeadline(idx);
        }
        i := i + 1;
      }
      NoDispatch(cfg, World(), slots, env, push);
    }

    /** The drain begins: every live connection is marked, then the idle ones are closed. */
    method BeginDrain(slots: seq<nat>)
      requires Distinct(slots) && (forall idx :: idx in slots ==> idx in conns)
      modifies this
      ensures World() == E.DrainAll(old(World()), slots)
    {
      hide E.CloseConn, E.CloseAll, E.DrainAll;
      ghost var w := World();
      var idle: seq<nat> := [];
      var i := 0;
      while i < |slots|
        invariant 0 <= i <= |slots|
        invariant World() == FlagAll(w, slots[..i]) && idle == IdleOf(w, slots[..i])
        invariant forall k :: i <= k < |slots| ==> slots[k] in conns && conns[slots[k]] == w.conns[slots[k]]
      {
        var idx := slots[i];
        NextFlag(w, slots, i);
        if conns[idx].state != Closed {
          var c := conns[idx].(draining := true, keepAlive := false);
          if c.state == Headers && c.buf == [] {
            idle := idle + [idx];
          }
          conns := conns[idx := c];
        }
        i := i + 1;
      }
      assert slots[..i] == slots;
      DrainIsTwoLoops(w, slots);
      CloseEach(idle);
    }

    method CloseEach(slots: seq<nat>)
      modifies this
      ensures World() == E.CloseAll(old(World()), slots)
    {
      hide E.CloseConn;
      var i := 0;
      assert slots[0..] == slots;
      while i < |slots|
        invariant 0 <= i <= |slots|
        invariant E.CloseAll(World(), slots[i..]) == E.CloseAll(old(World()), slots)
      {
        assert slots[i..][0] == slots[i] && slots[i..][1..] == slots[i + 1..];
        CloseConn(slots[i], Timeout);
        i := i + 1;
      }
      assert slots[i..] == [];
    }
  }

  /** Putting a connection into its slot first does not matter to submitting for it. */
  lemma SubmitAnyway(w: E.World, idx: nat, c: Conn, push: E.Push)
    ensures E.SubmitRecv(E.Put(w, idx, c), idx, c, push) == E.SubmitRecv(w, idx, c, push)
    ensures E.SubmitWrite(E.Put(w, idx, c), idx, c, push) == E.SubmitWrite(w, idx, c, push)
  {
    hide E.CloseConn, E.Submit, U.Encode, Tail, PrepareRecv;
    assert forall d: Conn :: E.Put(E.Put(w, idx, c), idx, d) == E.Put(w, idx, d) by {
      forall d: Conn ensures E.Put(E.Put(w, idx, c), idx, d) == E.Put(w, idx, d) {
        assert w.conns[idx := c][idx := d] == w.conns[idx := d];
      }
    }
  }

  lemma CloseFdParts(w: E.World, fd: int)
    ensures var v := E.CloseFd(w, fd);
            v.conns == w.conns && v.heap == w.heap && v.nextGeneration == w.nextGeneration && v.phase == w.phase
  {
    if fd in w.open {
      var s := w.open[fd].serial;
      assert E.CloseFd(w, fd) ==
             E.World(w.conns, w.inflight, w.open - {fd}, w.live - {s}, w.closes[s := (if s in w.closes then w.closes[s] else 0) + 1],
                     w.ended, w.accepted, w.nextGeneration, w.heap, w.phase, w.leaked, w.fault);
    }
  }

  /** Closing a socket concerns only what the kernel's side of the world holds. */
  lemma EndFdKernel(kernel: E.World, w: E.World, fd: int, end: E.Ended)
    requires w == kernel.(conns := w.conns, nextGeneration := w.nextGeneration, heap := w.heap, phase := w.phase)
    ensures E.EndFd(w, fd, end) ==
            E.EndFd(kernel, fd, end).(conns := w.conns, nextGeneration := w.nextGeneration, heap := w.heap, phase := w.phase)
  {
    I.EndFdIs(kernel, fd, end);
    I.EndFdIs(w, fd, end);
    hide E.EndFd;
  }

  lemma EndFdParts(w: E.World, fd: int, end: E.Ended)
    ensures var v := E.EndFd(w, fd, end);
            v.conns == w.conns && v.heap == w.heap && v.nextGeneration == w.nextGeneration && v.phase == w.phase
  {
    I.EndFdIs(w, fd, end);
    hide E.EndFd;
  }

  // ----- the deadline heap -----

  /** The entry is a least one of the heap. */
  predicate Least(heap: multiset<E.Entry>, top: E.Entry) {
    top in heap && forall e :: e in heap ==> top.deadline <= e.deadline
  }

  lemma LeastIn(heap: multiset<E.Entry>, top: E.Entry)
    requires Least(heap, top)
    ensures top in heap
  {
  }

  lemma {:induction false} LeastEntry(heap: multiset<E.Entry>)
    requires heap != multiset{}
    ensures exists top :: Least(heap, top)
    decreases |heap|
  {
    var one :| one in heap;
    var others := heap - multiset{one};
    if others == multiset{} {
      assert heap == multiset{one};
      assert Least(heap, one);
    } else {
      LeastEntry(others);
      var top :| Least(others, top);
      assert forall e :: e in heap ==> e == one || e in others;
      assert Least(heap, if one.deadline < top.deadline then one else top);
    }
  }

  /** Only entries that no longer speak for their connection are gone from the heap. */
  ghost predicate StaleGone(w: E.World, heap: multiset<E.Entry>) {
    heap <= w.heap && forall e :: e in w.heap && E.Current(w, e) ==> heap[e] == w.heap[e]
  }

  lemma NothingGone(w: E.World)
    ensures StaleGone(w, w.heap)
  {
  }

  lemma PopStale(w: E.World, heap: multiset<E.Entry>, top: E.Entry)
    requires StaleGone(w, heap) && top in heap && !E.Current(w.(heap := heap), top)
    ensures StaleGone(w, heap - multiset{top})
  {
    CurrentAnyHeap(w, heap, top);
    hide E.Current;
  }

  lemma CurrentAnyHeap(w: E.World, heap: multiset<E.Entry>, e: E.Entry)
    ensures E.Current(w.(heap := heap), e) == E.Current(w, e)
  {
  }

  lemma CurrentIs(w: E.World, e: E.Entry)
    ensures E.Current(w, e) <==>
              && e.idx in w.conns && w.conns[e.idx].state != Closed
              && w.conns[e.idx].clock.generation == e.generation && w.conns[e.idx].clock.tracked == Some(e.deadline)
  {
  }

  lemma TopIsEarliest(cfg: Config, w: E.World, top: E.Entry)
    requires I.Base(cfg, w) && E.Current(w, top) && Least(w.heap, top)
    ensures T.Earliest(cfg, w, Some(top.deadline))
  {
    hide I.Base, DeadlineOf;
    T.TimerOf(cfg, w, top.idx);
    forall idx | idx in w.conns && w.conns[idx].state != Closed && DeadlineOf(cfg, w.conns[idx]).Some?
      ensures top.deadline <= DeadlineOf(cfg, w.conns[idx]).value
    {
      T.TimerOf(cfg, w, idx);
    }
  }

  lemma EmptyIsNone(cfg: Config, w: E.World)
    requires I.Base(cfg, w) && w.heap == multiset{}
    ensures T.Earliest(cfg, w, None)
  {
    hide I.Base, DeadlineOf;
    forall idx | idx in w.conns && w.conns[idx].state != Closed
      ensures DeadlineOf(cfg, w.conns[idx]).None?
    {
      T.TimerOf(cfg, w, idx);
    }
  }

  lemma Popped(cfg: Config, w: E.World, top: E.Entry)
    requires I.Base(cfg, w) && !E.Current(w, top)
    ensures I.Base(cfg, w.(heap := w.heap - multiset{top}))
  {
    A.PopKeeps(cfg, w, top);
    hide I.Base;
    R.KeptFields(cfg, w, w.(heap := w.heap - multiset{top}));
  }

  // ----- loops as sequences of actions -----

  predicate Distinct(slots: seq<nat>) {
    forall i, j :: 0 <= i < j < |slots| ==> slots[i] != slots[j]
  }

  /** The actions one after the other; one that cannot happen is skipped. */
  ghost function ApplyAll(cfg: Config, w: E.World, actions: seq<E.Action>): E.World
    requires ValidConfig(cfg)
    decreases |actions|
  {
    if actions == [] then w
    else ApplyAll(cfg, if E.Enabled(w, actions[0]) then E.Apply(cfg, w, actions[0]) else w, actions[1..])
  }

  /** A loop that is a sequence of actions keeps the invariant. */
  lemma {:induction false} ApplyAllKeeps(cfg: Config, w: E.World, actions: seq<E.Action>)
    requires ValidConfig(cfg) && I.Inv(cfg, w)
    ensures I.Inv(cfg, ApplyAll(cfg, w, actions))
    decreases |actions|
  {
    hide I.Inv, E.Enabled, E.Apply, ValidConfig;
    if actions != [] {
      if E.Enabled(w, actions[0]) {
        R.ApplyKeeps(cfg, w, actions[0]);
      }
      ApplyAllKeeps(cfg, if E.Enabled(w, actions[0]) then E.Apply(cfg, w, actions[0]) else w, actions[1..]);
    }
  }

  function Sweeps(slots: seq<nat>, now: nat, push: nat -> E.Push): (sweeps: seq<E.Action>)
    ensures |sweeps| == |slots|
    decreases |slots|
  {
    if slots == [] then [] else [E.Sweep(slots[0], now, push(slots[0]))] + Sweeps(slots[1..], now, push)
  }

  lemma FirstSweep(cfg: Config, w: E.World, slots: seq<nat>, i: nat, now: nat, push: nat -> E.Push)
    requires ValidConfig(cfg) && i < |slots| && E.Handling(w) && slots[i] in w.conns
    ensures var idx := slots[i];
            var v := if Expired(cfg, w.conns[idx], now)
                     then E.Refresh(cfg, E.Perform(w, idx, SweepOne(cfg, w.conns[idx], now), push(idx)), idx) else w;
            ApplyAll(cfg, w, Sweeps(slots[i..], now, push)) == ApplyAll(cfg, v, Sweeps(slots[i + 1..], now, push))
  {
    hide ValidConfig, E.Perform, E.Refresh, Expired, SweepOne;
    var rest := Sweeps(slots[i + 1..], now, push);
    assert slots[i..][1..] == slots[i + 1..];
    assert Sweeps(slots[i..], now, push) == [E.Sweep(slots[i], now, push(slots[i]))] + rest;
    assert ([E.Sweep(slots[i], now, push(slots[i]))] + rest)[1..] == rest;
  }

  lemma NoSweep(cfg: Config, w: E.World, slots: seq<nat>, now: nat, push: nat -> E.Push)
    requires ValidConfig(cfg)
    ensures ApplyAll(cfg, w, Sweeps(slots[|slots|..], now, push)) == w
  {
    assert slots[|slots|..] == [];
  }

  function Dispatches(slots: seq<nat>, env: nat -> Env, push: nat -> E.Push): (turns: seq<E.Action>)
    ensures |turns| == |slots|
    decreases |slots|
  {
    if slots == [] then []
    else [E.TurnDispatch(slots[0], env(slots[0]), push(slots[0]))] + Dispatches(slots[1..], env, push)
  }

  lemma FirstDispatch(cfg: Config, w: E.World, slots: seq<nat>, i: nat, env: nat -> Env, push: nat -> E.Push)
    requires ValidConfig(cfg) && i < |slots| && E.Handling(w) && slots[i] in w.conns && EnvOk(env(slots[i]))
    ensures var idx := slots[i];
            var v := if w.conns[idx].state == Dispatching
                     then E.Refresh(cfg, E.Perform(w, idx, AdvanceDispatching(cfg, w.conns[idx], env(idx)), push(idx)), idx) else w;
            ApplyAll(cfg, w, Dispatches(slots[i..], env, push)) == ApplyAll(cfg, v, Dispatches(slots[i + 1..], env, push))
  {
    hide ValidConfig, E.Perform, E.Refresh, AdvanceDispatching, EnvOk;
    var turn, rest := E.TurnDispatch(slots[i], env(slots[i]), push(slots[i])), Dispatches(slots[i + 1..], env, push);
    assert slots[i..][1..] == slots[i + 1..];
    assert Dispatches(slots[i..], env, push) == [turn] + rest;
    assert ([turn] + rest)[1..] == rest;
  }

  lemma NoDispatch(cfg: Config, w: E.World, slots: seq<nat>, env: nat -> Env, push: nat -> E.Push)
    requires ValidConfig(cfg)
    ensures ApplyAll(cfg, w, Dispatches(slots[|slots|..], env, push)) == w
  {
    assert slots[|slots|..] == [];
  }

  /** The flag is cleared, and the log keeps what the socket took. */
  function Sent(c: Conn, data: seq<byte>): Conn {
    OnWire(c, data).(writePending := false)
  }

  /** At most slot `idx` changed, and the phase did not. */
  ghost predicate Only(w: E.World, v: E.World, idx: nat) {
    && v.phase == w.phase
    && forall j :: j != idx ==> (j in v.conns <==> j in w.conns) && (j in w.conns ==> v.conns[j] == w.conns[j])
  }

  lemma OnlySelf(w: E.World, idx: nat)
    ensures Only(w, w, idx)
  {
  }

  lemma CloseOnly(w: E.World, idx: nat, why: CloseReason)
    ensures Only(w, E.CloseConn(w, idx, why), idx)
  {
    A.ClosedAfter(w, idx, why);
    ClosePhase(w, idx, why);
    hide E.CloseConn;
  }

  lemma ClosePhase(w: E.World, idx: nat, why: CloseReason)
    ensures E.CloseConn(w, idx, why).phase == w.phase
  {
    if idx in w.conns {
      EndFdParts(w, w.conns[idx].fd, E.Ended(w.conns[idx].log, why));
    }
    hide E.EndFd, MarkClosed;
  }

  lemma PutOnly(w: E.World, v: E.World, idx: nat, c: Conn)
    requires Only(E.Put(w, idx, c), v, idx)
    ensures Only(w, v, idx)
  {
  }

  lemma CloseWithOnly(w: E.World, idx: nat, c: Conn, why: CloseReason)
    ensures Only(w, E.CloseConn(E.Put(w, idx, c), idx, why), idx)
  {
    CloseOnly(E.Put(w, idx, c), idx, why);
    PutOnly(w, E.CloseConn(E.Put(w, idx, c), idx, why), idx, c);
  }

  lemma SubmittedOnly(w: E.World, idx: nat, c: Conn, userData: nat, sqe: E.Sqe)
    ensures Only(w, E.Submit(E.Put(w, idx, c), userData, sqe), idx)
    ensures Only(w, E.Put(w, idx, c), idx)
  {
  }

  lemma ReleasedOnly(w: E.World, idx: nat, c: Conn)
    ensures Only(w, E.ReleaseIfIdle(E.Put(w, idx, c), idx), idx)
    ensures Only(w, E.Put(w, idx, c), idx)
  {
  }

  lemma SubmitRecvOnly(w: E.World, idx: nat, c: Conn, push: E.Push)
    ensures Only(w, E.SubmitRecv(w, idx, c, push), idx)
  {
    hide E.CloseConn, E.Put, E.Submit, U.Encode, PrepareRecv, Only;
    T.PrepareTargets(c, push.base, push.extra);
    var d := PrepareRecv(c, push.base, push.extra);
    CloseWithOnly(w, idx, c.(fault := true), IoError);
    CloseWithOnly(w, idx, d.(recvTarget := None), IoError);
    SubmittedOnly(w, idx, d.(recvPending := true), U.Encode(U.Recv, idx, c.generation), E.RecvSqe(c.fd, d.recvTarget.value));
  }

  lemma SubmitWriteOnly(w: E.World, idx: nat, c: Conn, push: E.Push)
    ensures Only(w, E.SubmitWrite(w, idx, c, push), idx)
  {
    hide E.CloseConn, E.Put, E.Submit, U.Encode, Tail, Only;
    CloseWithOnly(w, idx, c.(fault := true), IoError);
    CloseWithOnly(w, idx, c, IoError);
    T.SendFits(Tail(c.resp));
    SubmittedOnly(w, idx, c.(writePending := true), U.Encode(U.Write, idx, c.generation),
                  E.SendSqe(c.fd, Tail(c.resp)[..E.SendLength(Tail(c.resp))]));
    SubmittedOnly(w, idx, c, 0, E.SendSqe(c.fd, []));
  }

  lemma RefreshOnly(cfg: Config, w: E.World, v: E.World, idx: nat)
    requires Only(w, v, idx)
    ensures Only(w, E.Refresh(cfg, v, idx), idx)
  {
    hide E.Retime, E.Enter;
  }

  lemma TurnOnly(cfg: Config, w: E.World, idx: nat, out: Outcome, push: E.Push)
    ensures Only(w, E.Refresh(cfg, E.Perform(w, idx, out, push), idx), idx)
  {
    hide E.CloseConn, E.SubmitRecv, E.SubmitWrite, E.ReleaseIfIdle, E.Refresh, E.Put, Only;
    SubmitRecvOnly(w, idx, out.conn, push);
    SubmitWriteOnly(w, idx, out.conn, push);
    CloseWithOnly(w, idx, out.conn, if out.op.Shut? then out.op.why else Timeout);
    ReleasedOnly(w, idx, out.conn);
    RefreshOnly(cfg, w, E.Perform(w, idx, out, push), idx);
  }

  // ----- the two loops of a drain -----

  function Flag(w: E.World, idx: nat): E.World {
    if idx !in w.conns || w.conns[idx].state == Closed then w
    else E.Put(w, idx, w.conns[idx].(draining := true, keepAlive := false))
  }

  predicate IdleAt(w: E.World, idx: nat) {
    idx in w.conns && w.conns[idx].state == Headers && w.conns[idx].buf == []
  }

  function FlagAll(w: E.World, slots: seq<nat>): E.World
    decreases |slots|
  {
    if slots == [] then w else Flag(FlagAll(w, slots[..|slots| - 1]), slots[|slots| - 1])
  }

  function IdleOf(w: E.World, slots: seq<nat>): seq<nat>
    decreases |slots|
  {
    if slots == [] then []
    else IdleOf(w, slots[..|slots| - 1]) + (if IdleAt(w, slots[|slots| - 1]) then [slots[|slots| - 1]] else [])
  }

  lemma NextFlag(w: E.World, slots: seq<nat>, i: nat)
    requires i < |slots|
    ensures FlagAll(w, slots[..i + 1]) == Flag(FlagAll(w, slots[..i]), slots[i])
    ensures IdleOf(w, slots[..i + 1]) == IdleOf(w, slots[..i]) + (if IdleAt(w, slots[i]) then [slots[i]] else [])
  {
    assert slots[..i + 1][..i] == slots[..i];
  }

  lemma CloseCommutes(w: E.World, idx: nat, x: nat, c: Conn)
    requires idx != x
    ensures E.CloseConn(E.Put(w, x, c), idx, Timeout) == E.Put(E.CloseConn(w, idx, Timeout), x, c)
  {
    if idx in w.conns {
      var d := w.conns[idx];
      var end := E.Ended(d.log, Timeout);
      hide MarkClosed, E.EndFd;
      EndFdCommutes(w, d.fd, end, x, c);
      SlotsCommute(if 0 <= d.fd then E.EndFd(w, d.fd, end) else w, idx, MarkClosed(d.(fd := -1)), x, c);
    }
  }

  lemma SlotsCommute(w: E.World, idx: nat, d: Conn, x: nat, c: Conn)
    requires idx != x
    ensures E.Put(E.Put(w, x, c), idx, d) == E.Put(E.Put(w, idx, d), x, c)
    ensures E.Remove(E.Put(w, x, c), idx) == E.Put(E.Remove(w, idx), x, c)
  {
    assert w.conns[x := c][idx := d] == w.conns[idx := d][x := c];
    assert w.conns[x := c] - {idx} == (w.conns - {idx})[x := c];
  }

  lemma EndFdCommutes(w: E.World, fd: int, end: E.Ended, x: nat, c: Conn)
    ensures E.EndFd(E.Put(w, x, c), fd, end) == E.Put(E.EndFd(w, fd, end), x, c)
  {
    I.EndFdIs(w, fd, end);
    I.EndFdIs(E.Put(w, x, c), fd, end);
    hide E.EndFd;
  }

  lemma FlagCommutes(w: E.World, idx: nat, x: nat)
    requires idx != x
    ensures E.CloseConn(Flag(w, x), idx, Timeout) == Flag(E.CloseConn(w, idx, Timeout), x)
  {
    CloseOnly(w, idx, Timeout);
    hide E.CloseConn;
    if x in w.conns && w.conns[x].state != Closed {
      CloseCommutes(w, idx, x, w.conns[x].(draining := true, keepAlive := false));
    }
  }

  lemma {:induction false} CloseAllFlag(w: E.World, closing: seq<nat>, x: nat)
    requires x !in closing
    ensures E.CloseAll(Flag(w, x), closing) == Flag(E.CloseAll(w, closing), x)
    ensures (x in E.CloseAll(w, closing).conns <==> x in w.conns)
    ensures x in w.conns ==> E.CloseAll(w, closing).conns[x] == w.conns[x]
    decreases |closing|
  {
    hide E.CloseConn, Flag;
    if closing != [] {
      FlagCommutes(w, closing[0], x);
      CloseOnly(w, closing[0], Timeout);
      CloseAllFlag(E.CloseConn(w, closing[0], Timeout), closing[1..], x);
    }
  }

  lemma {:induction false} CloseAllPush(w: E.World, closing: seq<nat>, x: nat)
    ensures E.CloseAll(w, closing + [x]) == E.CloseConn(E.CloseAll(w, closing), x, Timeout)
    decreases |closing|
  {
    hide E.CloseConn;
    if closing == [] {
      assert ([] + [x])[1..] == [];
    } else {
      assert (closing + [x])[1..] == closing[1..] + [x];
      CloseAllPush(E.CloseConn(w, closing[0], Timeout), closing[1..], x);
    }
  }

  lemma {:induction false} DrainAllPush(w: E.World, slots: seq<nat>, x: nat)
    ensures E.DrainAll(w, slots + [x]) == E.DrainConn(E.DrainAll(w, slots), x)
    decreases |slots|
  {
    hide E.DrainConn;
    if slots == [] {
      assert ([] + [x])[1..] == [];
    } else {
      assert (slots + [x])[1..] == slots[1..] + [x];
      DrainAllPush(E.DrainConn(w, slots[0]), slots[1..], x);
    }
  }

  lemma {:induction false} IdleAreSlots(w: E.World, slots: seq<nat>, x: nat)
    requires x !in slots
    ensures x !in IdleOf(w, slots)
    decreases |slots|
  {
    if slots != [] {
      var n := |slots| - 1;
      assert x !in slots[..n];
      IdleAreSlots(w, slots[..n], x);
    }
  }

  lemma {:induction false} FlagAllKeeps(w: E.World, slots: seq<nat>, x: nat)
    requires x !in slots
    ensures (x in FlagAll(w, slots).conns <==> x in w.conns) && (x in w.conns ==> FlagAll(w, slots).conns[x] == w.conns[x])
    decreases |slots|
  {
    if slots != [] {
      var n := |slots| - 1;
      assert x !in slots[..n];
      FlagAllKeeps(w, slots[..n], x);
    }
  }

  /** Marking all and then closing the idle ones is the same as draining one after the other. */
  lemma {:induction false} DrainIsTwoLoops(w: E.World, slots: seq<nat>)
    requires Distinct(slots) && forall idx :: idx in slots ==> idx in w.conns
    ensures E.CloseAll(FlagAll(w, slots), IdleOf(w, slots)) == E.DrainAll(w, slots)
    decreases |slots|
  {
    hide E.CloseConn, E.CloseAll, E.DrainAll, FlagAll, IdleOf, Flag;
    if slots == [] {
      NoSlots(w);
    } else {
      var n := |slots| - 1;
      var init, x := slots[..n], slots[n];
      assert slots == init + [x] && x !in init;
      DrainIsTwoLoops(w, init);
      DrainAllPush(w, init, x);
      assert slots[..n + 1] == slots;
      NextFlag(w, slots, n);
      IdleAreSlots(w, init, x);
      FlagAllKeeps(w, init, x);
      var f, l := FlagAll(w, init), IdleOf(w, init);
      CloseAllFlag(f, l, x);
      CloseAllPush(Flag(f, x), l, x);
      assert l + [] == l;
      DrainOne(E.CloseAll(f, l), w, x);
    }
  }

  lemma NoSlots(w: E.World)
    ensures FlagAll(w, []) == w && IdleOf(w, []) == [] && E.CloseAll(w, []) == w && E.DrainAll(w, []) == w
  {
  }

  lemma DrainOne(v: E.World, w: E.World, x: nat)
    requires x in w.conns && x in v.conns && v.conns[x] == w.conns[x]
    ensures E.DrainConn(v, x) == if IdleAt(w, x) then E.CloseConn(Flag(v, x), x, Timeout) else Flag(v, x)
  {
    hide E.CloseConn;
  }
}
