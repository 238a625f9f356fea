/** The in-memory rate-limit backend as it runs: one atomic cell per key, and the retry loop. */
module GcraBackend {
  import opened Bytes
  import G = Gcra

  class AtomicU64 {
    var value: nat

    constructor (initial: nat)
      ensures value == initial
    {
      value := initial;
    }

    method Load() returns (v: nat)
      ensures v == value
    {
      v := value;
    }

    /** A weak swap: it may fail although the value is the expected one. */
    method CompareExchangeWeak(expected: nat, next: nat, spurious: bool) returns (ok: bool)
      modifies this
      ensures ok == (old(value) == expected && !spurious)
      ensures value == if ok then next else old(value)
    {
      ok := value == expected && !spurious;
      if ok {
        value := next;
      }
    }
  }

  /** What happens between a load and the swap after it: another thread's store, or a weak failure. */
  datatype Turn = Turn(store: Option<nat>, spurious: bool)

  /** The values the cell goes through while the loop runs. */
  predicate Passes(initial: nat, others: seq<Turn>, v: nat) {
    v == initial || exists i :: 0 <= i < |others| && others[i].store == Some(v)
  }

  lemma PassesInitial(initial: nat, others: seq<Turn>)
    ensures Passes(initial, others, initial)
  {
  }

  /** A store between two loads is one of the values the cell goes through. */
  lemma PassesStore(initial: nat, others: seq<Turn>, i: nat)
    requires i < |others| && others[i].store.Some?
    ensures Passes(initial, others, others[i].store.value)
  {
  }

  /** The decision, as the code computes it. */
  lemma DecisionIs(p: G.Limiter, tat: nat, now: nat)
    requires G.Sound(p)
    ensures 1 <= p.interval
    ensures var standing := if tat == 0 then now else tat;
            var next := Max(standing, now) + p.interval;
            if now < G.Monus(standing, p.tolerance) then
              && !G.Allows(p, tat, now) && G.Stored(p, tat, now) == tat
              && G.Outcome(p, tat, now) ==
                 G.Verdict(false, p.limit, 0, G.Monus(standing, now), G.Monus(standing, p.tolerance) - now)
            else
              && G.Allows(p, tat, now) && G.Advance(p, tat, now) == next && G.Stored(p, tat, now) == next
              && G.Outcome(p, tat, now) ==
                 G.Verdict(true, p.limit, Min(G.Monus(now + p.tolerance + p.interval, next) / p.interval, p.burst),
                           G.Monus(next, now), 0)
  {
  }

  class InMemoryBackend {
    const limiter: G.Limiter
    var states: map<string, AtomicU64>

    constructor (p: G.Limiter)
      ensures limiter == p && states == map[]
    {
      limiter, states := p, map[];
    }

    ghost predicate Valid()
      reads this
    {
      && G.Sound(limiter)
      && forall a, b :: a in states && b in states && a != b ==> states[a] != states[b]
    }

    ghost function Cells(): set<AtomicU64>
      reads this
    {
      set key | key in states :: states[key]
    }

    /** The stored time of a key; a key never seen is like one with the sentinel zero. */
    ghost function Tat(key: string): nat
      reads this, Cells()
    {
      if key in states then (assert states[key] in Cells(); states[key].value) else 0
    }

    /**
     `gcra_check`. The verdict is the one for `at`, a value the cell passed through; an allowed
     request is counted on exactly that value, a denied one changes nothing.
     */
    method GcraCheck(cell: AtomicU64, now: nat, others: seq<Turn>) returns (v: G.Verdict, ghost at: nat)
      requires G.Sound(limiter)
      modifies cell
      ensures v == G.Outcome(limiter, at, now) && v.allowed == G.Allows(limiter, at, now)
      ensures Passes(old(cell.value), others, at)
      ensures v.allowed ==> cell.value == G.Advance(limiter, at, now)
      ensures !v.allowed ==> Passes(old(cell.value), others, cell.value)
      ensures others == [] ==> at == old(cell.value) && cell.value == G.Stored(limiter, at, now)
    {
      hide G.Sound, G.Allows, G.Advance, G.Stored, G.Outcome, Passes;
      var turns := 0;
      PassesInitial(cell.value, others);
      while true
        invariant 0 <= turns <= |others|
        invariant Passes(old(cell.value), others, cell.value)
        invariant turns == 0 ==> cell.value == old(cell.value)
        decreases |others| - turns
      {
        var oldTat := cell.Load();
        DecisionIs(limiter, oldTat, now);
        var standing := if oldTat == 0 then now else oldTat;
        if now < G.Monus(standing, limiter.tolerance) {
          at := oldTat;
          v := G.Verdict(false, limiter.limit, 0, G.Monus(standing, now), G.Monus(standing, limiter.tolerance) - now);
          return;
        }
        var spurious := false;
        if turns < |others| {
          spurious := others[turns].spurious;
          if others[turns].store.Some? {
            PassesStore(old(cell.value), others, turns);
            cell.value := others[turns].store.value;
          }
          turns := turns + 1;
        }
        var newTat := Max(standing, now) + limiter.interval;
        var swapped := cell.CompareExchangeWeak(oldTat, newTat, spurious);
        if swapped {
          at := oldTat;
          var maxTat := now + limiter.tolerance + limiter.interval;
          var remaining := G.Monus(maxTat, newTat) / limiter.interval;
          v := G.Verdict(true, limiter.limit, Min(remaining, limiter.burst), G.Monus(newTat, now), 0);
          return;
        }
      }
    }

    /**
     `check`, whatever other threads do to the key in between: the verdict is the exact one for a
     value the key passed through, an allowed request counts on just that value, and other keys
     are untouched. With no other thread that value is the one found.
     */
    method Check(key: string, now: nat, others: seq<Turn>) returns (v: G.Verdict, ghost at: nat)
      requires Valid()
      modifies this, Cells()
      ensures Valid() && v == G.Outcome(limiter, at, now) && Passes(old(Tat(key)), others, at)
      ensures v.allowed ==> Tat(key) == G.Advance(limiter, at, now)
      ensures !v.allowed ==> Passes(old(Tat(key)), others, Tat(key))
      ensures others == [] ==> at == old(Tat(key)) && Tat(key) == G.Stored(limiter, at, now)
      ensures forall other :: other != key ==> Tat(other) == old(Tat(other))
    {
      if key !in states {
        var cell := new AtomicU64(0);
        states := states[key := cell];
      }
      v, at := GcraCheck(states[key], now, others);
    }
  }
}
