/**
 The GCRA rate limiter: the decision for one request, its outcome, and the lock-free loop
 with any number of threads interleaving their loads and swaps on one key.
 */
module Gcra {
  import opened Bytes

  const SECOND: nat := 1_000_000_000
  const MINUTE: nat := 60_000_000_000

  /** `interval` is the emission interval, `tolerance` how far ahead of the clock a key may be. */
  datatype Limiter = Limiter(interval: nat, tolerance: nat, limit: nat, burst: nat)

  datatype Verdict = Verdict(allowed: bool, limit: nat, remaining: nat, resetAfter: nat, retryAfter: nat)

  // ----- constructors -----

  function Every(interval: nat, rate: nat): Limiter
    requires 1 <= rate
  {
    Limiter(interval, (rate - 1) * interval, rate, rate)
  }

  /** `None` is the division by zero of a rate of zero. */
  function PerPeriod(period: nat, rate: nat): Option<Limiter> {
    if rate == 0 then None else Some(Every(period / rate, rate))
  }

  function PerSecond(rate: nat): Option<Limiter> {
    PerPeriod(SECOND, rate)
  }

  function PerMinute(rate: nat): Option<Limiter> {
    PerPeriod(MINUTE, rate)
  }

  /** `burst`: the difference and the product are `u64`, which wrap around. */
  function WithBurst(p: Limiter, burst: nat): Limiter {
    p.(burst := burst, tolerance := ((burst + U64 - 1) % U64) * p.interval % U64)
  }

  /** A limiter whose arithmetic is defined: an interval of zero divides by zero when it allows. */
  predicate Sound(p: Limiter) {
    1 <= p.interval && 1 <= p.burst && p.tolerance == (p.burst - 1) * p.interval
  }

  /**
   A rate gives a sound limiter exactly when it is at least one and at most one per nanosecond
   of the period, whose tolerance then fits; a burst set on it leaves it sound exactly when it
   is at least one and the tolerance of all its requests fits into a `u64`.
   */
  lemma SoundRates(period: nat, rate: nat, burst: nat)
    requires period < U64 && burst < U64
    ensures (PerPeriod(period, rate).Some? && Sound(PerPeriod(period, rate).value)) <==> 1 <= rate <= period
    ensures 1 <= rate <= period ==>
              var p := PerPeriod(period, rate).value;
              && p.tolerance < 0x1_0000_0000_0000_0000
              && (Sound(WithBurst(p, burst)) <==> 1 <= burst && (burst - 1) * p.interval < 0x1_0000_0000_0000_0000)
  {
    if 1 <= rate <= period {
      Quotient(period, rate);
      var p := PerPeriod(period, rate).value;
      Monotone(rate - 1, rate, p.interval);
      if 1 <= burst {
        Wraps(burst);
        var product := (burst - 1) * p.interval;
        Quotient(product, U64);
        assert product % U64 == product <==> product < U64;
      }
    } else if rate > period {
      assert period / rate == 0;
    }
  }

  lemma Wraps(burst: nat)
    requires 1 <= burst < U64
    ensures (burst + U64 - 1) % U64 == burst - 1
  {
  }

  /** One request a second with a burst of 2^63: the tolerance wraps around. */
  lemma BurstTooLarge()
    ensures Sound(PerSecond(1).value)
    ensures WithBurst(PerSecond(1).value, 0x8000_0000_0000_0000).tolerance == 0x1_0000_0000_0000_0000 - 1_000_000_000
    ensures !Sound(WithBurst(PerSecond(1).value, 0x8000_0000_0000_0000))
  {
    SoundRates(SECOND, 1, 0x8000_0000_0000_0000);
  }

  lemma Quotient(n: nat, d: nat)
    requires 1 <= d
    ensures (n / d) * d <= n < (n / d + 1) * d
    ensures d <= n ==> 1 <= n / d
  {
    assert n == (n / d) * d + n % d;
  }

  // ----- one decision -----

  function Monus(a: nat, b: nat): nat {
    if b <= a then a - b else 0
  }

  /** A stored time of zero means the key was never used. */
  function Standing(tat: nat, now: nat): nat {
    if tat == 0 then now else tat
  }

  predicate Allows(p: Limiter, tat: nat, now: nat) {
    Monus(Standing(tat, now), p.tolerance) <= now
  }

  function Advance(p: Limiter, tat: nat, now: nat): nat {
    Max(Standing(tat, now), now) + p.interval
  }

  function Outcome(p: Limiter, tat: nat, now: nat): Verdict
    requires Sound(p)
  {
    var standing := Standing(tat, now);
    if !Allows(p, tat, now) then
      Verdict(false, p.limit, 0, Monus(standing, now), Monus(standing, p.tolerance) - now)
    else
      var next := Advance(p, tat, now);
      var remaining := Monus(now + p.tolerance + p.interval, next) / p.interval;
      Verdict(true, p.limit, Min(remaining, p.burst), Monus(next, now), 0)
  }

  /** The stored time after a request. */
  function Stored(p: Limiter, tat: nat, now: nat): nat {
    if Allows(p, tat, now) then Advance(p, tat, now) else tat
  }

  /** The sums of a decision that do not fit into a `u64`. */
  predicate Overflows(p: Limiter, tat: nat, now: nat) {
    && Allows(p, tat, now)
    && (0x1_0000_0000_0000_0000 <= Advance(p, tat, now) || 0x1_0000_0000_0000_0000 <= now + p.tolerance + p.interval)
  }

  lemma BurstTimes(p: Limiter)
    requires Sound(p)
    ensures p.tolerance + p.interval == p.burst * p.interval
  {
    assert (p.burst - 1) * p.interval + p.interval == p.burst * p.interval;
  }

  /** An allowed request overflows exactly when a full burst from now would pass the end of time. */
  lemma OverflowExactly(p: Limiter, tat: nat, now: nat)
    requires Sound(p) && Allows(p, tat, now)
    ensures Overflows(p, tat, now) <==> 0x1_0000_0000_0000_0000 <= now + p.burst * p.interval
    ensures Advance(p, tat, now) <= now + p.burst * p.interval
  {
    BurstTimes(p);
  }

  // ----- outcomes are exact -----

  /** How many requests in a row are allowed at the same instant. */
  function Further(p: Limiter, tat: nat, now: nat): nat
    requires Sound(p) && 1 <= tat
    decreases Monus(now + p.tolerance + p.interval, tat)
  {
    if Allows(p, tat, now) then 1 + Further(p, Advance(p, tat, now), now) else 0
  }

  lemma {:induction false} FurtherCount(p: Limiter, tat: nat, now: nat)
    requires Sound(p) && 1 <= tat && now <= tat
    ensures Further(p, tat, now) == Monus(now + p.tolerance + p.interval, tat) / p.interval
    decreases Monus(now + p.tolerance + p.interval, tat)
  {
    var room := Monus(now + p.tolerance + p.interval, tat);
    FurtherNext(p, tat, now);
    hide Sound, Further;
    if Allows(p, tat, now) {
      FurtherCount(p, tat + p.interval, now);
      OneLess(room, p.interval);
    } else {
      NoneLeft(room, p.interval);
    }
  }

  lemma FurtherNext(p: Limiter, tat: nat, now: nat)
    requires Sound(p) && 1 <= tat && now <= tat
    ensures 1 <= p.interval
    ensures Further(p, tat, now) == if Allows(p, tat, now) then 1 + Further(p, tat + p.interval, now) else 0
  {
  }

  lemma NoneLeft(n: nat, d: nat)
    requires n < d
    ensures n / d == 0
  {
  }

  lemma OneLess(n: nat, d: nat)
    requires 1 <= d <= n
    ensures n / d == 1 + (n - d) / d
  {
    var q := (n - d) / d;
    Quotient(n - d, d);
    assert (q + 1) * d <= n < (q + 2) * d;
    SameQuotient(n, d, q + 1);
  }

  lemma SameQuotient(n: nat, d: nat, q: nat)
    requires 1 <= d && q * d <= n < (q + 1) * d
    ensures n / d == q
  {
    Quotient(n, d);
    var r := n / d;
    if r < q {
      assert (r + 1) * d <= q * d by { Monotone(r + 1, q, d); }
    } else if q < r {
      assert (q + 1) * d <= r * d by { Monotone(q + 1, r, d); }
    }
  }

  lemma Monotone(a: nat, b: nat, d: nat)
    requires a <= b
    ensures a * d <= b * d
  {
    assert b * d == a * d + (b - a) * d;
  }

  /** `remaining` is the number of further requests at the same instant that are allowed. */
  lemma RemainingExact(p: Limiter, tat: nat, now: nat)
    requires Sound(p)
    ensures var next := Stored(p, tat, now);
            Outcome(p, tat, now).remaining == if next == 0 then 0 else Further(p, next, now)
  {
    var next := Stored(p, tat, now);
    if Allows(p, tat, now) {
      FurtherCount(p, next, now);
      BurstTimes(p);
      var room := Monus(now + p.tolerance + p.interval, next);
      AtMost(room, p.interval, p.burst);
    } else {
      assert next == tat != 0;
    }
  }

  lemma AtMost(n: nat, d: nat, q: nat)
    requires 1 <= d && n <= q * d
    ensures n / d <= q
  {
    Quotient(n, d);
    assert (q + 1) * d == q * d + d;
    if q < n / d {
      Monotone(q + 1, n / d, d);
    }
  }

  function NsToSecsCeil(ns: nat): nat {
    (ns + SECOND - 1) / SECOND
  }

  /**
   A denied request, with no other traffic: waiting is enough exactly from `retryAfter` on, so
   the whole seconds of the `Retry-After` header suffice, and one second less does not.
   */
  lemma RetryExact(p: Limiter, tat: nat, now: nat, wait: nat)
    requires Sound(p) && !Allows(p, tat, now)
    ensures var retry := Outcome(p, tat, now).retryAfter;
            && 1 <= retry
            && (Allows(p, tat, now + wait) <==> retry <= wait)
            && Allows(p, tat, now + NsToSecsCeil(retry) * 1_000_000_000)
            && !Allows(p, tat, now + (NsToSecsCeil(retry) - 1) * 1_000_000_000)
  {
    var retry := Outcome(p, tat, now).retryAfter;
    Quotient(retry + SECOND - 1, SECOND);
  }

  /** Any number of requests at one instant: at most a burst, and a full one only when caught up. */
  lemma FullBurst(p: Limiter, tat: nat, now: nat)
    requires Sound(p) && 1 <= tat
    ensures Further(p, tat, now) <= p.burst
    ensures Further(p, tat, now) == p.burst <==> tat <= now
  {
    BurstTimes(p);
    if now <= tat {
      FurtherCount(p, tat, now);
      var room := Monus(now + p.tolerance + p.interval, tat);
      AtMost(room, p.interval, p.burst);
      if tat == now {
        SameQuotient(room, p.interval, p.burst) by { assert (p.burst + 1) * p.interval == p.burst * p.interval + p.interval; }
      } else {
        BelowQuotient(room, p.interval, p.burst);
      }
    } else {
      assert Advance(p, tat, now) == now + p.interval;
      FurtherCount(p, now + p.interval, now);
      SameQuotient(p.tolerance, p.interval, p.burst - 1) by { assert p.tolerance == (p.burst - 1) * p.interval; }
    }
  }

  lemma BelowQuotient(n: nat, d: nat, q: nat)
    requires 1 <= d && n < q * d
    ensures n / d < q
  {
    Quotient(n, d);
    if q <= n / d {
      Monotone(q, n / d, d);
    }
  }

  /** With no other traffic a full burst is allowed exactly from `resetAfter` on. */
  lemma ResetExact(p: Limiter, tat: nat, now: nat, wait: nat)
    requires Sound(p) && Stored(p, tat, now) != 0
    ensures Further(p, Stored(p, tat, now), now + wait) == p.burst <==> Outcome(p, tat, now).resetAfter <= wait
  {
    FullBurst(p, Stored(p, tat, now), now + wait);
  }

  // ----- threads -----

  /** A thread between requests, about to load, or holding a loaded value it wants to swap. */
  datatype Thread = Idle | Loading(now: nat) | Loaded(now: nat, seen: nat)

  /** A successful swap: the request's clock and what the swap stored. */
  datatype Grant = Grant(now: nat, stored: nat)

  datatype Cell = Cell(tat: nat, threads: map<nat, Thread>, grants: seq<Grant>)

  datatype Move = Begin(id: nat, now: nat) | Load(id: nat) | Deny(id: nat) | Swap(id: nat, spurious: bool)

  const FRESH: Cell := Cell(0, map[], [])

  function ThreadOf(c: Cell, id: nat): Thread {
    if id in c.threads then c.threads[id] else Idle
  }

  predicate CanMove(p: Limiter, c: Cell, m: Move) {
    match m
    case Begin(id, _) => ThreadOf(c, id).Idle?
    case Load(id) => ThreadOf(c, id).Loading?
    case Deny(id) => var t := ThreadOf(c, id); t.Loaded? && !Allows(p, t.seen, t.now)
    case Swap(id, _) => var t := ThreadOf(c, id); t.Loaded? && Allows(p, t.seen, t.now)
  }

  function SetThread(c: Cell, id: nat, t: Thread): Cell {
    c.(threads := c.threads[id := t])
  }

  /** A weak swap may fail without reason; a failed one goes back to loading with the same clock. */
  function Apply(p: Limiter, c: Cell, m: Move): Cell
    requires CanMove(p, c, m)
  {
    match m
    case Begin(id, now) => SetThread(c, id, Loading(now))
    case Load(id) => SetThread(c, id, Loaded(ThreadOf(c, id).now, c.tat))
    case Deny(id) => SetThread(c, id, Idle)
    case Swap(id, spurious) =>
      var t := ThreadOf(c, id);
      if spurious || c.tat != t.seen then SetThread(c, id, Loading(t.now))
      else
        var next := Advance(p, t.seen, t.now);
        SetThread(c, id, Idle).(tat := next, grants := c.grants + [Grant(t.now, next)])
  }

  /** The states a run goes through, and the move between each and the next. */
  datatype Run = Run(cells: seq<Cell>, moves: seq<Move>)

  predicate Next(p: Limiter, run: Run, k: nat)
    requires |run.cells| == |run.moves| + 1 && k < |run.moves|
  {
    CanMove(p, run.cells[k], run.moves[k]) && run.cells[k + 1] == Apply(p, run.cells[k], run.moves[k])
  }

  predicate Possible(p: Limiter, run: Run) {
    && |run.cells| == |run.moves| + 1 && run.cells[0] == FRESH
    && forall k: nat :: k < |run.moves| ==> Next(p, run, k)
  }

  /** What the grants say about each other, in swap order. */
  predicate Spaced(p: Limiter, grants: seq<Grant>) {
    && (forall i :: 0 <= i < |grants| ==> grants[i].now + p.interval <= grants[i].stored)
    && (forall i :: 0 <= i < |grants| - 1 ==> grants[i].stored + p.interval <= grants[i + 1].stored)
    && (forall i :: 0 <= i < |grants| - 1 ==> grants[i].stored <= grants[i + 1].now + p.tolerance)
  }

  predicate CellOk(p: Limiter, c: Cell) {
    && Spaced(p, c.grants)
    && c.tat == (if c.grants == [] then 0 else c.grants[|c.grants| - 1].stored)
  }

  lemma MoveKeeps(p: Limiter, c: Cell, m: Move)
    requires Sound(p) && CellOk(p, c) && CanMove(p, c, m)
    ensures CellOk(p, Apply(p, c, m))
    ensures c.tat <= Apply(p, c, m).tat && (c.tat != Apply(p, c, m).tat ==> c.tat + p.interval <= Apply(p, c, m).tat)
  {
    hide Sound, Spaced, Allows;
    if m.Swap? && !m.spurious && c.tat == ThreadOf(c, m.id).seen {
      var t := ThreadOf(c, m.id);
      GrantSpaced(p, c, t.now, Advance(p, c.tat, t.now));
    }
  }

  /** A grant keeps the distance to the one before. */
  lemma GrantSpaced(p: Limiter, c: Cell, now: nat, next: nat)
    requires CellOk(p, c) && Allows(p, c.tat, now) && next == Advance(p, c.tat, now)
    ensures Spaced(p, c.grants + [Grant(now, next)]) && c.tat + p.interval <= next
  {
    var n := |c.grants|;
    var d := c.grants + [Grant(now, next)];
    assert d[..n] == c.grants && d[n] == Grant(now, next);
  }

  lemma {:induction false} RunKeeps(p: Limiter, run: Run, k: nat)
    requires Sound(p) && Possible(p, run) && k < |run.cells|
    ensures CellOk(p, run.cells[k])
    decreases k
  {
    hide CellOk, Apply, CanMove;
    if k == 0 {
      FreshOk(p);
    } else {
      RunKeeps(p, run, k - 1);
      assert Next(p, run, k - 1);
      MoveKeeps(p, run.cells[k - 1], run.moves[k - 1]);
    }
  }

  lemma FreshOk(p: Limiter)
    ensures CellOk(p, FRESH)
  {
  }

  lemma {:induction false} StoredGap(p: Limiter, grants: seq<Grant>, i: nat, j: nat)
    requires Spaced(p, grants) && i <= j < |grants|
    ensures grants[i].stored + (j - i) * p.interval <= grants[j].stored
    decreases j - i
  {
    if i < j {
      StoredGap(p, grants, i, j - 1);
      assert (j - 1 - i) * p.interval + p.interval == (j - i) * p.interval;
    }
  }

  /**
   The bound, for every interleaving and every window of grants: the requests `i..=j` in swap
   order, by whatever clocks the threads read, fit into the time between the first and the
   last of those clocks plus one burst.
   */
  lemma WindowBound(p: Limiter, run: Run, k: nat, i: nat, j: nat)
    requires Sound(p) && Possible(p, run) && k < |run.cells| && i <= j < |run.cells[k].grants|
    ensures var g := run.cells[k].grants;
            (j - i + 1) * p.interval <= g[j].now - g[i].now + p.burst * p.interval
  {
    RunKeeps(p, run, k);
    hide Possible;
    SpacedWindow(p, run.cells[k].grants, i, j);
  }

  lemma SpacedWindow(p: Limiter, g: seq<Grant>, i: nat, j: nat)
    requires Sound(p) && Spaced(p, g) && i <= j < |g|
    ensures (j - i + 1) * p.interval <= g[j].now - g[i].now + p.burst * p.interval
  {
    BurstTimes(p);
    if i < j {
      StoredGap(p, g, i, j - 1);
      assert g[j - 1].stored <= g[j].now + p.tolerance && g[i].now + p.interval <= g[i].stored;
      hide Spaced, Sound;
      TwoMore(j - 1 - i, p.interval);
    } else {
      Monotone(1, p.burst, p.interval);
    }
  }

  lemma TwoMore(n: nat, d: nat)
    ensures (n + 2) * d == n * d + d + d
  {
  }

  /** The stored time only grows, and the sentinel zero never comes back. */
  lemma StoredGrows(p: Limiter, run: Run, k: nat)
    requires Sound(p) && Possible(p, run) && k < |run.moves|
    ensures var c, d := run.cells[k], run.cells[k + 1];
            && c.tat <= d.tat && (c.tat != 0 ==> d.tat != 0)
            && (d.grants == c.grants || (|d.grants| == |c.grants| + 1 && c.tat < d.tat))
            && (d.tat == 0 <==> d.grants == [])
  {
    RunKeeps(p, run, k);
    RunKeeps(p, run, k + 1);
    assert Next(p, run, k);
    MoveKeeps(p, run.cells[k], run.moves[k]);
    hide Possible;
  }

  /** No decision of any run overflows while clocks stay a full burst below the end of time. */
  lemma NoOverflow(p: Limiter, run: Run, k: nat, latest: nat)
    requires Sound(p) && Possible(p, run) && k < |run.cells| && latest + p.burst * p.interval < 0x1_0000_0000_0000_0000
    requires forall m :: m in run.moves && m.Begin? ==> m.now <= latest
    ensures var c := run.cells[k];
            && c.tat <= latest + p.burst * p.interval
            && forall id :: id in c.threads && c.threads[id].Loaded? ==> !Overflows(p, c.threads[id].seen, c.threads[id].now)
  {
    Bounded(p, run, k, latest);
    var c := run.cells[k];
    hide Possible, Advance;
    forall id | id in c.threads && c.threads[id].Loaded?
      ensures !Overflows(p, c.threads[id].seen, c.threads[id].now)
    {
      var t := c.threads[id];
      if Allows(p, t.seen, t.now) {
        OverflowExactly(p, t.seen, t.now);
      }
    }
  }

  predicate ClocksWithin(c: Cell, latest: nat) {
    forall id :: id in c.threads && !c.threads[id].Idle? ==> c.threads[id].now <= latest
  }

  lemma {:induction false} Bounded(p: Limiter, run: Run, k: nat, latest: nat)
    requires Sound(p) && Possible(p, run) && k < |run.cells|
    requires forall m :: m in run.moves && m.Begin? ==> m.now <= latest
    ensures ClocksWithin(run.cells[k], latest) && run.cells[k].tat <= latest + p.burst * p.interval
    decreases k
  {
    hide Apply, CanMove, ClocksWithin;
    if k == 0 {
      FreshBounded(p, latest);
    } else {
      Bounded(p, run, k - 1, latest);
      assert Next(p, run, k - 1) && run.moves[k - 1] in run.moves;
      MoveBounded(p, run.cells[k - 1], run.moves[k - 1], latest);
    }
  }

  lemma FreshBounded(p: Limiter, latest: nat)
    requires Sound(p)
    ensures ClocksWithin(FRESH, latest) && FRESH.tat <= latest + p.burst * p.interval
  {
  }

  lemma MoveBounded(p: Limiter, c: Cell, m: Move, latest: nat)
    requires Sound(p) && CanMove(p, c, m) && ClocksWithin(c, latest) && c.tat <= latest + p.burst * p.interval
    requires m.Begin? ==> m.now <= latest
    ensures ClocksWithin(Apply(p, c, m), latest) && Apply(p, c, m).tat <= latest + p.burst * p.interval
  {
    if m.Swap? {
      var t := ThreadOf(c, m.id);
      OverflowExactly(p, t.seen, t.now);
      hide Advance;
    }
  }

  // ----- the long-run rate -----

  /** One more move continues a run. */
  lemma MoreMoves(p: Limiter, run: Run, m: Move) returns (on: Run)
    requires Possible(p, run) && CanMove(p, run.cells[|run.moves|], m)
    ensures Possible(p, on) && |on.moves| == |run.moves| + 1
    ensures on.cells[|on.moves|] == Apply(p, run.cells[|run.moves|], m)
  {
    hide CanMove, Apply;
    var n := |run.moves|;
    on := Run(run.cells + [Apply(p, run.cells[n], m)], run.moves + [m]);
    forall k: nat | k < |on.moves| ensures Next(p, on, k) {
      if k < n {
        assert Next(p, run, k);
      }
    }
  }

  /** Requests of one client at intervals of exactly the emission interval. */
  predicate Paced(p: Limiter, grants: seq<Grant>) {
    forall i :: 0 <= i < |grants| - 1 ==> grants[i + 1].now == grants[i].now + p.interval
  }

  /** A client that asks once per interval is allowed every time. */
  lemma {:induction false} PacedAllowed(p: Limiter, start: nat, n: nat) returns (run: Run)
    requires Sound(p)
    ensures Possible(p, run)
    ensures var c := run.cells[|run.moves|];
            && |c.grants| == n && Paced(p, c.grants) && ThreadOf(c, 0).Idle?
            && c.tat == (if n == 0 then 0 else start + n * p.interval)
            && (n > 0 ==> c.grants[n - 1].now == start + (n - 1) * p.interval)
    decreases n
  {
    if n == 0 {
      run := Run([FRESH], []);
    } else {
      var before := PacedAllowed(p, start, n - 1);
      var c := before.cells[|before.moves|];
      var now := start + (n - 1) * p.interval;
      assert n * p.interval == (n - 1) * p.interval + p.interval;
      run := MoreMoves(p, before, Begin(0, now));
      run := MoreMoves(p, run, Load(0));
      run := MoreMoves(p, run, Swap(0, false));
      var d := run.cells[|run.moves|];
      assert d.grants == c.grants + [Grant(now, now + p.interval)];
      if n > 1 {
        assert (n - 1) * p.interval == (n - 2) * p.interval + p.interval;
      }
    }
  }

  /** If the grants `i..=j` lie within less than `n` periods they are at most `n * rate + slack`. */
  predicate Within(g: seq<Grant>, i: nat, j: nat, n: nat, period: nat, rate: nat, slack: nat) {
    i <= j < |g| && g[j].now - g[i].now < n * period ==> j - i + 1 <= n * rate + slack
  }

  /** In any number of periods a client gets at most the configured requests and one burst. */
  ghost predicate KeepsRate(p: Limiter, period: nat, rate: nat) {
    forall run: Run, k: nat, i: nat, j: nat, n: nat ::
      Possible(p, run) && k < |run.cells| ==> Within(run.cells[k].grants, i, j, n, period, rate, p.burst)
  }

  /** A client that asks once per interval gets at most the configured requests. */
  ghost predicate KeepsPace(p: Limiter, period: nat, rate: nat) {
    forall run: Run, k: nat, i: nat, j: nat, n: nat ::
      Possible(p, run) && k < |run.cells| && Paced(p, run.cells[k].grants) ==>
        Within(run.cells[k].grants, i, j, n, period, rate, 0)
  }

  /**
   The interval is rounded down. Over all runs the configured rate is kept, both by a client
   that asks once per interval and, up to one burst, by any other, if and only if the rate
   divides the period, whatever the burst.
   */
  lemma SteadyRate(p: Limiter, period: nat, rate: nat)
    requires 1 <= rate <= period && Sound(p) && p.interval == PerPeriod(period, rate).value.interval
    ensures KeepsPace(p, period, rate) <==> period % rate == 0
    ensures KeepsRate(p, period, rate) <==> period % rate == 0
  {
    Quotient(period, rate);
    hide Possible, Paced, Within;
    if period % rate == 0 {
      forall run: Run, k: nat, i: nat, j: nat, n: nat | Possible(p, run) && k < |run.cells|
        ensures Within(run.cells[k].grants, i, j, n, period, rate, p.burst)
        ensures Paced(p, run.cells[k].grants) ==> Within(run.cells[k].grants, i, j, n, period, rate, 0)
      {
        RateKept(p, run, k, i, j, n, period, rate);
      }
    } else {
      PaceExceeded(p, period, rate);
      RateExceeded(p, period, rate);
    }
  }

  lemma {:induction false} PacedGap(p: Limiter, g: seq<Grant>, i: nat, j: nat)
    requires Paced(p, g) && i <= j < |g|
    ensures g[j].now == g[i].now + (j - i) * p.interval
    decreases j - i
  {
    if i < j {
      PacedGap(p, g, i, j - 1);
      assert (j - i) * p.interval == (j - 1 - i) * p.interval + p.interval;
    }
  }

  lemma RateKept(p: Limiter, run: Run, k: nat, i: nat, j: nat, n: nat, period: nat, rate: nat)
    requires Sound(p) && Possible(p, run) && k < |run.cells| && period == rate * p.interval
    ensures Within(run.cells[k].grants, i, j, n, period, rate, p.burst)
    ensures Paced(p, run.cells[k].grants) ==> Within(run.cells[k].grants, i, j, n, period, rate, 0)
  {
    hide Possible, Paced, Sound;
    var g := run.cells[k].grants;
    if i <= j < |g| && g[j].now - g[i].now < n * period {
      WindowBound(p, run, k, i, j);
      Times(n, rate, p.interval, p.burst);
      Cancel(j - i + 1, n * rate + p.burst, p.interval);
      if Paced(p, g) {
        PacedGap(p, g, i, j);
        Cancel(j - i, n * rate, p.interval);
      }
    }
  }

  lemma Times(n: nat, rate: nat, interval: nat, burst: nat)
    ensures n * (rate * interval) == (n * rate) * interval
    ensures (n * rate + burst) * interval == n * (rate * interval) + burst * interval
  {
  }

  lemma Cancel(a: nat, b: nat, d: nat)
    requires a * d < b * d
    ensures a < b
  {
    if b <= a {
      Monotone(b, a, d);
    }
  }

  /** Within one period a paced client already gets one request too many. */
  lemma PaceExceeded(p: Limiter, period: nat, rate: nat)
    requires Sound(p) && rate * p.interval < period
    ensures !KeepsPace(p, period, rate)
  {
    hide Possible, Paced, Sound;
    var run := PacedAllowed(p, 0, rate + 1);
    var k := |run.moves|;
    PossibleLength(p, run);
    PacedGap(p, run.cells[k].grants, 0, rate);
    assert !Within(run.cells[k].grants, 0, rate, 1, period, rate, 0);
  }

  lemma PossibleLength(p: Limiter, run: Run)
    requires Possible(p, run)
    ensures |run.cells| == |run.moves| + 1
  {
  }

  /** What a paced client gets too much grows without bound, past any burst. */
  lemma RateExceeded(p: Limiter, period: nat, rate: nat)
    requires Sound(p) && rate * p.interval < period
    ensures !KeepsRate(p, period, rate)
  {
    hide Possible, Paced, Sound;
    var n := p.burst * p.interval + 1;
    var last := n * rate + p.burst;
    var run := PacedAllowed(p, 0, last + 1);
    var k := |run.moves|;
    PossibleLength(p, run);
    PacedGap(p, run.cells[k].grants, 0, last);
    Times(n, rate, p.interval, p.burst);
    Monotone(rate * p.interval + 1, period, n);
    assert (rate * p.interval + 1) * n == n * (rate * p.interval) + n;
    assert n * period == period * n;
    assert !Within(run.cells[k].grants, 0, last, n, period, rate, p.burst);
  }

  /** A client that asks once per interval gets all of the configured requests, for ever. */
  ghost predicate ReachesRate(p: Limiter, period: nat, rate: nat) {
    forall n: nat :: Grants(p, n, period, rate)
  }

  ghost predicate Grants(p: Limiter, n: nat, period: nat, rate: nat) {
    exists run: Run :: Possible(p, run) && Reached(run, n, period, rate)
  }

  /** In the end the run has `n * rate` grants behind the first, the last of them `n` periods later. */
  ghost predicate Reached(run: Run, n: nat, period: nat, rate: nat) {
    && |run.cells| == |run.moves| + 1
    && var g := run.cells[|run.moves|].grants;
       |g| == n * rate + 1 && g[n * rate].now == g[0].now + n * period
  }

  lemma RateReached(p: Limiter, period: nat, rate: nat)
    requires Sound(p) && period == rate * p.interval
    ensures ReachesRate(p, period, rate)
  {
    hide Possible, Paced, Sound;
    forall n: nat ensures Grants(p, n, period, rate) {
      var run := PacedAllowed(p, 0, n * rate + 1);
      PossibleLength(p, run);
      PacedGap(p, run.cells[|run.moves|].grants, 0, n * rate);
      Times(n, rate, p.interval, p.burst);
      assert Possible(p, run) && Reached(run, n, period, rate);
    }
  }

  /** What a configuration promises: the rate, a burst for a client that has caught up, the limit it reports. */
  ghost predicate Configured(p: Limiter, period: nat, rate: nat, burst: nat)
    requires 1 <= rate
  {
    && Sound(p)
    && (KeepsPace(p, period, rate) <==> period % rate == 0)
    && (KeepsRate(p, period, rate) <==> period % rate == 0)
    && (period % rate == 0 ==> ReachesRate(p, period, rate))
    && (forall now: nat :: 1 <= now ==> Further(p, now, now) == burst)
    && (forall tat, now :: Outcome(p, tat, now).limit == rate)
  }

  lemma PeriodConfigured(p: Limiter, period: nat, rate: nat, burst: nat)
    requires 1 <= rate <= period && Sound(p) && p.interval == period / rate && p.burst == burst && p.limit == rate
    ensures Configured(p, period, rate, burst)
  {
    hide Sound, Possible, Further, KeepsPace, KeepsRate, ReachesRate;
    SteadyRate(p, period, rate);
    if period % rate == 0 {
      assert period == rate * p.interval by { Quotient(period, rate); Exact(period, rate); }
      RateReached(p, period, rate);
    }
    forall now: nat | 1 <= now ensures Further(p, now, now) == burst {
      FullBurst(p, now, now);
    }
  }

  lemma Exact(n: nat, d: nat)
    requires 1 <= d && n % d == 0
    ensures n == d * (n / d)
  {
  }

  /** A limiter built for so many requests a second, with a burst of its own. */
  lemma PerSecondMeans(rate: nat, burst: nat)
    requires 1 <= rate <= 1_000_000_000 && 1 <= burst < U64
    requires (burst - 1) * (1_000_000_000 / rate) < 0x1_0000_0000_0000_0000
    ensures Configured(PerSecond(rate).value, 1_000_000_000, rate, rate)
    ensures Configured(WithBurst(PerSecond(rate).value, burst), 1_000_000_000, rate, burst)
  {
    hide Configured, Sound;
    SoundRates(1_000_000_000, rate, burst);
    PeriodConfigured(PerSecond(rate).value, 1_000_000_000, rate, rate);
    PeriodConfigured(WithBurst(PerSecond(rate).value, burst), 1_000_000_000, rate, burst);
  }

  /** The same for requests a minute. */
  lemma PerMinuteMeans(rate: nat, burst: nat)
    requires 1 <= rate <= 60_000_000_000 && 1 <= burst < U64
    requires (burst - 1) * (60_000_000_000 / rate) < 0x1_0000_0000_0000_0000
    ensures Configured(PerMinute(rate).value, 60_000_000_000, rate, rate)
    ensures Configured(WithBurst(PerMinute(rate).value, burst), 60_000_000_000, rate, burst)
  {
    hide Configured, Sound;
    SoundRates(60_000_000_000, rate, burst);
    PeriodConfigured(PerMinute(rate).value, 60_000_000_000, rate, rate);
    PeriodConfigured(WithBurst(PerMinute(rate).value, burst), 60_000_000_000, rate, burst);
  }

  /** Seven requests a second: the interval is six sevenths of a nanosecond short. */
  lemma SevenPerSecond()
    ensures var p := PerSecond(7).value;
            Sound(p) && !KeepsPace(p, 1_000_000_000, 7) && !KeepsRate(p, 1_000_000_000, 7)
  {
    SteadyRate(PerSecond(7).value, 1_000_000_000, 7);
  }

  /** A request every two seconds on average is kept exactly. */
  lemma ThirtyPerMinute()
    ensures var p := PerMinute(30).value;
            Sound(p) && KeepsPace(p, 60_000_000_000, 30) && KeepsRate(p, 60_000_000_000, 30)
  {
    SteadyRate(PerMinute(30).value, 60_000_000_000, 30);
  }
}
