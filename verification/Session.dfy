/**
 Sessions: the handler's session object, the store, the middleware around a handler, and what
 a client that replays its latest cookie sees over a whole run of visits.
 */
module Session {
  import opened Bytes
  import opened Cookie

  type Data = map<string, string>

  const NO_DATA: Data := map[]

  // ----- the handler's session -----

  datatype Op = Set(key: string, value: string) | Remove(key: string) | Clear | Destroy

  datatype State = State(data: Data, modified: bool, destroyed: bool)

  function Do(s: State, op: Op): State {
    match op
    case Set(key, value) => s.(data := s.data[key := value], modified := true)
    case Remove(key) => if key in s.data then s.(data := s.data - {key}, modified := true) else s
    case Clear => if s.data != NO_DATA then s.(data := NO_DATA, modified := true) else s
    case Destroy => s.(destroyed := true, modified := true)
  }

  function DoAll(s: State, ops: seq<Op>): State
    decreases |ops|
  {
    if ops == [] then s else DoAll(Do(s, ops[0]), ops[1..])
  }

  /** A session nobody marked as modified holds what it was loaded with. */
  lemma {:induction false} UnmodifiedUnchanged(s: State, ops: seq<Op>)
    ensures !DoAll(s, ops).modified ==> !s.modified && DoAll(s, ops) == s
    ensures !s.modified && !s.destroyed && DoAll(s, ops).destroyed ==> DoAll(s, ops).modified
    ensures s.modified ==> DoAll(s, ops).modified
    decreases |ops|
  {
    if ops != [] {
      UnmodifiedUnchanged(Do(s, ops[0]), ops[1..]);
    }
  }

  function Get(data: Data, key: string): Option<string> {
    if key in data then Some(data[key]) else None
  }

  /** What a key holds: the last operation that concerns it decides. */
  function Held(ops: seq<Op>, key: string, start: Option<string>): Option<string>
    decreases |ops|
  {
    if ops == [] then start
    else
      var n := |ops| - 1;
      match ops[n]
      case Set(k, value) => if k == key then Some(value) else Held(ops[..n], key, start)
      case Remove(k) => if k == key then None else Held(ops[..n], key, start)
      case Clear => None
      case Destroy => Held(ops[..n], key, start)
  }

  lemma {:induction false} DoLast(s: State, ops: seq<Op>, op: Op)
    ensures DoAll(s, ops + [op]) == Do(DoAll(s, ops), op)
    decreases |ops|
  {
    if ops == [] {
      assert (ops + [op])[1..] == [];
    } else {
      assert (ops + [op])[0] == ops[0] && (ops + [op])[1..] == ops[1..] + [op];
      DoLast(Do(s, ops[0]), ops[1..], op);
    }
  }

  /** After a handler's operations each key holds what the last of them that concerns it says. */
  lemma {:induction false} OpsMean(s: State, ops: seq<Op>, key: string)
    ensures Get(DoAll(s, ops).data, key) == Held(ops, key, Get(s.data, key))
    ensures DoAll(s, ops).destroyed <==> s.destroyed || Destroy in ops
    decreases |ops|
  {
    if ops != [] {
      var n := |ops| - 1;
      var init, op := ops[..n], ops[n];
      OpsMean(s, init, key);
      DoLast(s, init, op);
      assert ops == init + [op];
      hide DoAll;
    }
  }

  /** The operation sets a value, destroys, or changes the data. */
  predicate Marks(before: State, op: Op) {
    op.Set? || op.Destroy? || Do(before, op).data != before.data
  }

  /** A session is marked as modified exactly if some operation marks it. */
  lemma {:induction false} MarkedExactly(s: State, ops: seq<Op>)
    ensures DoAll(s, ops).modified <==> s.modified || exists i :: 0 <= i < |ops| && Marks(DoAll(s, ops[..i]), ops[i])
    decreases |ops|
  {
    if ops != [] {
      var n := |ops| - 1;
      var init := ops[..n];
      MarkedExactly(s, init);
      DoLast(s, init, ops[n]);
      assert ops == init + [ops[n]];
      MarksNow(DoAll(s, init), ops[n]);
      hide DoAll, Marks, Do;
      forall i | 0 <= i < n ensures Marks(DoAll(s, init[..i]), init[i]) == Marks(DoAll(s, ops[..i]), ops[i]) {
        assert init[..i] == ops[..i];
      }
    }
  }

  lemma MarksNow(before: State, op: Op)
    ensures Do(before, op).modified <==> before.modified || Marks(before, op)
  {
  }

  class Session {
    const id: Option<string>
    var data: Data
    var modified: bool
    var destroyed: bool

    ghost function View(): State
      reads this
    {
      State(data, modified, destroyed)
    }

    constructor (id: Option<string>, data: Data)
      ensures this.id == id && View() == State(data, false, false)
    {
      this.id, this.data, modified, destroyed := id, data, false, false;
    }

    method Insert(key: string, value: string)
      modifies this
      ensures View() == Do(old(View()), Set(key, value))
    {
      data := data[key := value];
      modified := true;
    }

    method Delete(key: string) returns (removed: Option<string>)
      modifies this
      ensures View() == Do(old(View()), Remove(key))
      ensures removed == if key in old(data) then Some(old(data)[key]) else None
    {
      removed := if key in data then Some(data[key]) else None;
      if removed.Some? {
        data := data - {key};
        modified := true;
      }
    }

    method Empty()
      modifies this
      ensures View() == Do(old(View()), Clear)
    {
      if data != NO_DATA {
        data := NO_DATA;
        modified := true;
      }
    }

    method MarkDestroyed()
      modifies this
      ensures View() == Do(old(View()), Destroy)
    {
      destroyed := true;
      modified := true;
    }

    /** One operation of a handler. */
    method Perform(op: Op)
      modifies this
      ensures View() == Do(old(View()), op)
    {
      match op
      case Set(key, value) => Insert(key, value);
      case Remove(key) => var _ := Delete(key);
      case Clear => Empty();
      case Destroy => MarkDestroyed();
    }
  }

  // ----- the store -----

  datatype Stored = Stored(data: Data, expiresAt: nat)

  type Entries = map<string, Stored>

  function Load(store: Entries, id: string, now: nat): Option<Data> {
    if id in store && now < store[id].expiresAt then Some(store[id].data) else None
  }

  class SessionStore {
    var sessions: Entries

    constructor ()
      ensures sessions == map[]
    {
      sessions := map[];
    }

    method LoadData(id: string, now: nat) returns (data: Option<Data>)
      ensures data == Load(sessions, id, now)
    {
      if id !in sessions {
        return None;
      }
      if sessions[id].expiresAt <= now {
        return None;
      }
      return Some(sessions[id].data);
    }

    method SaveData(id: string, data: Data, ttl: nat, now: nat)
      modifies this
      ensures sessions == old(sessions)[id := Stored(data, now + ttl)]
    {
      sessions := sessions[id := Stored(data, now + ttl)];
    }

    method RemoveData(id: string)
      modifies this
      ensures sessions == old(sessions) - {id}
    {
      sessions := sessions - {id};
    }
  }

  // ----- the middleware -----

  /** What the response does to the client's cookie. */
  datatype Reply = Keep | ClearCookie | SetCookie(text: string)

  /** The identifier of a cookie that is there and verifies. */
  function Identify(cfg: Config, headers: seq<Option<string>>): Option<string> {
    var found := ExtractCookie(cfg.name, headers);
    if found.None? then None
    else
      var id := VerifyCookie(cfg, found.value);
      if id.Ok? then Some(id.value) else None
  }

  /**
   A request is identified as a session's exactly if the first cookie of that name, as far as headers
   can be read, is a 32-character identifier with the hex of its own keyed hash.
   */
  lemma IdentifiedExactly(cfg: Config, headers: seq<Option<string>>, id: string)
    requires ValidConfig(cfg)
    ensures Identify(cfg, headers) == Some(id) <==>
            exists value, mac :: Signed(cfg, headers, id, value, mac)
  {
    hide ExtractCookie, VerifyCookie, HexDecode, ValidConfig;
    var found := ExtractCookie(cfg.name, headers);
    if found.Some? {
      VerifyExact(cfg, found.value, id);
      if Identify(cfg, headers) == Some(id) {
        var mac :| found.value == id + "." + mac && |mac| == 64 && HexDecode(mac) == Some(cfg.mac(id));
        assert Signed(cfg, headers, id, found.value, mac);
      }
    }
  }

  predicate Signed(cfg: Config, headers: seq<Option<string>>, id: string, value: string, mac: string) {
    && ExtractCookie(cfg.name, headers) == Some(value) && value == id + "." + mac && |id| == 32 && '.' !in id
    && |mac| == 64 && HexDecode(mac) == Some(cfg.mac(id))
  }

  function StartData(store: Entries, id: Option<string>, now: nat): Data {
    if id.Some? && Load(store, id.value, now).Some? then Load(store, id.value, now).value else NO_DATA
  }

  function Drop(store: Entries, id: Option<string>): Entries {
    if id.Some? then store - {id.value} else store
  }

  /** After the handler: persist, remove, or leave alone. */
  function Conclude(cfg: Config, store: Entries, id: Option<string>, s: State, freshId: string, now: nat): (Entries, Reply) {
    if s.destroyed then (Drop(store, id), ClearCookie)
    else if !s.modified then (store, Keep)
    else if s.data == NO_DATA then (Drop(store, id), if id.Some? then ClearCookie else Keep)
    else
      var key := if id.Some? then id.value else freshId;
      (store[key := Stored(s.data, now + cfg.ttl)], SetCookie(BuildSetCookie(cfg, key)))
  }

  /**
   One visit. While the handler runs other visits may be at work; `meanwhile` is the store as they
   left it by the time this handler ends.
   */
  method Call(cfg: Config, store: SessionStore, headers: seq<Option<string>>, ops: seq<Op>, freshId: string,
              loadedAt: nat, meanwhile: Entries, savedAt: nat)
    returns (reply: Reply, ghost start: Data)
    modifies store
    ensures var id := Identify(cfg, headers);
            && start == StartData(old(store.sessions), id, loadedAt)
            && (store.sessions, reply) ==
               Conclude(cfg, meanwhile, id, DoAll(State(start, false, false), ops), freshId, savedAt)
  {
    var found := ExtractCookie(cfg.name, headers);
    var id: Option<string> := None;
    if found.Some? {
      var verified := VerifyCookie(cfg, found.value);
      if verified.Ok? {
        id := Some(verified.value);
      }
    }
    var data := NO_DATA;
    if id.Some? {
      var loaded := store.LoadData(id.value, loadedAt);
      if loaded.Some? {
        data := loaded.value;
      }
    }
    start := data;
    var session := new Session(id, data);
    var i := 0;
    assert ops[0..] == ops;
    while i < |ops|
      invariant 0 <= i <= |ops| && unchanged(store)
      invariant DoAll(session.View(), ops[i..]) == DoAll(State(data, false, false), ops)
    {
      assert ops[i..][0] == ops[i] && ops[i..][1..] == ops[i + 1..];
      session.Perform(ops[i]);
      i := i + 1;
    }
    assert ops[i..] == [];
    store.sessions := meanwhile;
    if session.destroyed {
      if id.Some? {
        store.RemoveData(id.value);
      }
      return ClearCookie, start;
    }
    if !session.modified {
      return Keep, start;
    }
    if session.data == NO_DATA {
      if id.Some? {
        store.RemoveData(id.value);
        return ClearCookie, start;
      }
      return Keep, start;
    }
    var key := if id.Some? then id.value else freshId;
    store.SaveData(key, session.data, cfg.ttl, savedAt);
    return SetCookie(BuildSetCookie(cfg, key)), start;
  }

  /**
   Visits of one session that overlap: the last to end decides alone. What is kept under its
   identifier does not depend on what the others left there, and other entries stay.
   */
  lemma LastToEndDecides(cfg: Config, one: Entries, two: Entries, id: string, s: State, freshId: string, now: nat)
    ensures var (a, reply) := Conclude(cfg, one, Some(id), s, freshId, now);
            var (b, same) := Conclude(cfg, two, Some(id), s, freshId, now);
            && reply == same
            && (s.modified || s.destroyed ==>
                  && (id in a <==> id in b) && (id in a ==> a[id] == b[id])
                  && (id in a <==> !s.destroyed && s.data != NO_DATA)
                  && (id in a ==> a[id] == Stored(s.data, now + cfg.ttl)))
            && (!s.modified && !s.destroyed ==> a == one && b == two)
            && a - {id} == one - {id}
  {
    hide BuildSetCookie;
  }

  // ----- clients -----

  /** The store, and for each client the pair `name=value` of its latest cookie. */
  datatype System = System(store: Entries, jars: map<nat, string>)

  /** One visit: other pairs the client sends, what the handler does, and the clock. */
  datatype Visit = Visit(client: nat, before: seq<string>, after: seq<string>, ops: seq<Op>, freshId: string,
                         loadedAt: nat, savedAt: nat)

  function Headers(sys: System, v: Visit): seq<Option<string>> {
    if v.client in sys.jars then [Some(Join(v.before + [sys.jars[v.client]] + v.after))]
    else if v.before == [] then [] else [Some(Join(v.before))]
  }

  function Visited(cfg: Config, sys: System, v: Visit): System {
    var id := Identify(cfg, Headers(sys, v));
    var s := DoAll(State(StartData(sys.store, id, v.loadedAt), false, false), v.ops);
    var (store, reply) := Conclude(cfg, sys.store, id, s, v.freshId, v.savedAt);
    System(store,
           match reply
           case Keep => sys.jars
           case ClearCookie => sys.jars - {v.client}
           case SetCookie(text) => sys.jars[v.client := Kept(text)])
  }

  /** The other pairs are other cookies, and a fresh identifier is one nobody has. */
  ghost predicate Allowed(cfg: Config, sys: System, v: Visit) {
    && (forall p :: p in v.before ==> ';' !in p && Claim(cfg.name, p).None?)
    && (forall p :: p in v.after ==> ';' !in p)
    && IsId(v.freshId) && v.freshId !in sys.store
    && forall c :: c in sys.jars ==> sys.jars[c] != PairOf(cfg, v.freshId)
  }

  function PairOf(cfg: Config, id: string): string {
    cfg.name + "=" + CookieValue(cfg, id)
  }

  /** `client` holds the cookie of `id`. */
  ghost predicate Holds(cfg: Config, sys: System, client: nat, id: string) {
    IsId(id) && client in sys.jars && sys.jars[client] == PairOf(cfg, id)
  }

  /** Every jar holds a cookie of ours, and no two hold the same. */
  ghost predicate SystemOk(cfg: Config, sys: System) {
    && (forall c :: c in sys.jars ==> exists id :: Holds(cfg, sys, c, id))
    && (forall c, d, id :: Holds(cfg, sys, c, id) && Holds(cfg, sys, d, id) ==> c == d)
  }

  lemma PairInjective(cfg: Config, a: string, b: string)
    requires IsId(a) && IsId(b) && PairOf(cfg, a) == PairOf(cfg, b)
    ensures a == b
  {
    assert CookieValue(cfg, a) == PairOf(cfg, a)[|cfg.name| + 1..];
    assert CookieValue(cfg, b) == PairOf(cfg, b)[|cfg.name| + 1..];
    assert CookieValue(cfg, a)[..32] == a && CookieValue(cfg, b)[..32] == b;
  }

  lemma {:induction false} NoClaim(name: string, pairs: seq<string>)
    requires forall p :: p in pairs ==> Claim(name, p).None?
    ensures FirstClaim(name, pairs).None?
    decreases |pairs|
  {
    if pairs != [] {
      assert pairs[0] in pairs && forall p :: p in pairs[1..] ==> p in pairs;
      NoClaim(name, pairs[1..]);
    }
  }

  /** The server identifies a client by its jar, and one without a jar as nobody. */
  lemma IdentifiesByJar(cfg: Config, sys: System, v: Visit, id: string)
    requires ValidConfig(cfg) && Allowed(cfg, sys, v)
    ensures v.client !in sys.jars ==> Identify(cfg, Headers(sys, v)).None?
    ensures Holds(cfg, sys, v.client, id) ==> Identify(cfg, Headers(sys, v)) == Some(id)
  {
    hide Claim, CookieValue, Join, Split, VerifyCookie, FirstClaim;
    var headers := Headers(sys, v);
    if v.client !in sys.jars && v.before != [] {
      SplitJoin(v.before);
      NoClaim(cfg.name, v.before);
      assert headers == [Some(Join(v.before))] && headers[1..] == [];
      assert ExtractCookie(cfg.name, headers[1..]) == None;
      assert FirstClaim(cfg.name, Split(headers[0].value)) == None;
      assert ExtractCookie(cfg.name, headers) == None;
    }
    if Holds(cfg, sys, v.client, id) {
      ReplayVerifies(cfg, id, [], v.before, "", v.after, []);
      assert "" + PairOf(cfg, id) == PairOf(cfg, id);
      var ours := [Some(Join(v.before + [PairOf(cfg, id)] + v.after))];
      assert Visible([]) + ours + [] == ours;
    }
  }

  // ----- one persistent map per client -----

  /** The reference: each client's own map, and until when it lasts. */
  type Ref = map<nat, Stored>

  function Mine(ref: Ref, client: nat, now: nat): Data {
    if client in ref && now < ref[client].expiresAt then ref[client].data else NO_DATA
  }

  function RefVisited(cfg: Config, ref: Ref, v: Visit): Ref {
    var s := DoAll(State(Mine(ref, v.client, v.loadedAt), false, false), v.ops);
    if s.destroyed then ref - {v.client}
    else if !s.modified then ref
    else ref[v.client := Stored(s.data, v.savedAt + cfg.ttl)]
  }

  /** The system shows each client exactly its own map. */
  ghost predicate Agrees(cfg: Config, sys: System, ref: Ref) {
    forall c: nat, id, now: nat :: Holds(cfg, sys, c, id) ==> StartData(sys.store, Some(id), now) == Mine(ref, c, now)
  }

  ghost predicate NobodyElse(sys: System, ref: Ref) {
    forall c: nat, now: nat :: c !in sys.jars ==> Mine(ref, c, now) == NO_DATA
  }

  ghost predicate Refines(cfg: Config, sys: System, ref: Ref) {
    SystemOk(cfg, sys) && Agrees(cfg, sys, ref) && NobodyElse(sys, ref)
  }

  /** Only `client`'s jar and the entry under `key` changed. */
  ghost predicate Untouched(sys: System, next: System, client: nat, key: string) {
    && (forall c: nat :: c != client ==> (c in next.jars <==> c in sys.jars) && (c in sys.jars ==> next.jars[c] == sys.jars[c]))
    && (forall k :: k != key ==> (k in next.store <==> k in sys.store) && (k in sys.store ==> next.store[k] == sys.store[k]))
  }

  ghost predicate SameOthers(ref: Ref, next: Ref, client: nat) {
    forall c: nat :: c != client ==> (c in next <==> c in ref) && (c in ref ==> next[c] == ref[c])
  }

  /** The client's own view after its visit. */
  ghost predicate OwnView(cfg: Config, next: System, ref: Ref, client: nat, key: string) {
    if client in next.jars then
      Holds(cfg, next, client, key) && forall now :: StartData(next.store, Some(key), now) == Mine(ref, client, now)
    else forall now :: Mine(ref, client, now) == NO_DATA
  }

  lemma Rejoin(cfg: Config, sys: System, next: System, ref: Ref, refNext: Ref, client: nat, key: string)
    requires Refines(cfg, sys, ref) && Untouched(sys, next, client, key) && SameOthers(ref, refNext, client)
    requires forall c, id :: c != client && Holds(cfg, sys, c, id) ==> id != key
    requires OwnView(cfg, next, refNext, client, key)
    ensures Refines(cfg, next, refNext)
  {
    hide CookieValue, IsId;
    forall c, id | Holds(cfg, next, c, id)
      ensures c == client ==> id == key
      ensures c != client ==> Holds(cfg, sys, c, id) && id != key
    {
      if c == client {
        PairInjective(cfg, id, key);
      }
    }
    forall c | c in next.jars ensures exists id :: Holds(cfg, next, c, id) {
      if c == client {
        assert Holds(cfg, next, c, key);
      } else {
        var id :| Holds(cfg, sys, c, id);
        assert Holds(cfg, next, c, id);
      }
    }
    forall c: nat, id, now: nat | Holds(cfg, next, c, id)
      ensures StartData(next.store, Some(id), now) == Mine(refNext, c, now)
    {
      if c != client {
        assert StartData(sys.store, Some(id), now) == Mine(ref, c, now);
        MineSame(ref, refNext, client, c, now);
      }
    }
    forall c: nat, now: nat | c !in next.jars ensures Mine(refNext, c, now) == NO_DATA {
      if c != client {
        assert c !in sys.jars;
        assert Mine(ref, c, now) == NO_DATA;
        MineSame(ref, refNext, client, c, now);
      }
    }
  }

  lemma MineSame(ref: Ref, next: Ref, client: nat, c: nat, now: nat)
    requires SameOthers(ref, next, client) && c != client
    ensures Mine(next, c, now) == Mine(ref, c, now)
  {
  }

  lemma NotMine(cfg: Config, sys: System, client: nat, key: string)
    requires SystemOk(cfg, sys) && Holds(cfg, sys, client, key)
    ensures forall c, id :: c != client && Holds(cfg, sys, c, id) ==> id != key
  {
    hide CookieValue, IsId;
  }

  lemma NotFresh(cfg: Config, sys: System, v: Visit)
    requires Allowed(cfg, sys, v)
    ensures forall c, id :: Holds(cfg, sys, c, id) ==> id != v.freshId
  {
    forall c, id | Holds(cfg, sys, c, id) ensures id != v.freshId {
      assert sys.jars[c] != PairOf(cfg, v.freshId);
    }
  }

  lemma ForgetRefines(cfg: Config, sys: System, ref: Ref, refNext: Ref, client: nat, key: string)
    requires Refines(cfg, sys, ref) && SameOthers(ref, refNext, client) && Holds(cfg, sys, client, key)
    requires forall now :: Mine(refNext, client, now) == NO_DATA
    ensures Refines(cfg, System(sys.store - {key}, sys.jars - {client}), refNext)
  {
    NotMine(cfg, sys, client, key);
    hide Refines, Holds;
    Rejoin(cfg, sys, System(sys.store - {key}, sys.jars - {client}), ref, refNext, client, key);
  }

  lemma AbsentRefines(cfg: Config, sys: System, ref: Ref, refNext: Ref, client: nat)
    requires Refines(cfg, sys, ref) && SameOthers(ref, refNext, client) && client !in sys.jars
    requires forall now :: Mine(refNext, client, now) == NO_DATA
    ensures Refines(cfg, sys, refNext)
  {
    hide CookieValue, IsId;
    forall c: nat, id, now: nat | Holds(cfg, sys, c, id)
      ensures StartData(sys.store, Some(id), now) == Mine(refNext, c, now)
    {
      assert StartData(sys.store, Some(id), now) == Mine(ref, c, now);
      MineSame(ref, refNext, client, c, now);
    }
    forall c: nat, now: nat | c !in sys.jars ensures Mine(refNext, c, now) == NO_DATA {
      if c != client {
        assert Mine(ref, c, now) == NO_DATA;
        MineSame(ref, refNext, client, c, now);
      }
    }
  }

  lemma SaveRefines(cfg: Config, sys: System, ref: Ref, client: nat, key: string, stored: Stored)
    requires Refines(cfg, sys, ref) && IsId(key)
    requires forall c, id :: c != client && Holds(cfg, sys, c, id) ==> id != key
    ensures Refines(cfg, System(sys.store[key := stored], sys.jars[client := PairOf(cfg, key)]), ref[client := stored])
  {
    var next, refNext := System(sys.store[key := stored], sys.jars[client := PairOf(cfg, key)]), ref[client := stored];
    assert Holds(cfg, next, client, key);
    hide Refines, Holds, PairOf;
    Rejoin(cfg, sys, next, ref, refNext, client, key);
  }

  /** What is left of the system and of the reference, case by case. */
  lemma Cases(cfg: Config, sys: System, ref: Ref, v: Visit, id: Option<string>, s: State)
    requires id == Identify(cfg, Headers(sys, v))
    requires s == DoAll(State(StartData(sys.store, id, v.loadedAt), false, false), v.ops)
    requires StartData(sys.store, id, v.loadedAt) == Mine(ref, v.client, v.loadedAt)
    ensures var next, refNext := Visited(cfg, sys, v), RefVisited(cfg, ref, v);
            var key := if id.Some? then id.value else v.freshId;
            if s.destroyed then
              next == System(Drop(sys.store, id), sys.jars - {v.client}) && refNext == ref - {v.client}
            else if !s.modified then next == sys && refNext == ref
            else
              && refNext == ref[v.client := Stored(s.data, v.savedAt + cfg.ttl)]
              && (s.data == NO_DATA ==>
                    next == System(Drop(sys.store, id), if id.Some? then sys.jars - {v.client} else sys.jars))
              && (s.data != NO_DATA ==>
                    next == System(sys.store[key := Stored(s.data, v.savedAt + cfg.ttl)],
                                   sys.jars[v.client := Kept(BuildSetCookie(cfg, key))]))
  {
    hide Identify, Headers, DoAll, BuildSetCookie, Kept;
  }

  /** A visit of a client whose cookie is known. */
  lemma KnownVisit(cfg: Config, sys: System, ref: Ref, v: Visit, id: string)
    requires ValidConfig(cfg) && Refines(cfg, sys, ref) && Allowed(cfg, sys, v) && Holds(cfg, sys, v.client, id)
    ensures StartData(sys.store, Identify(cfg, Headers(sys, v)), v.loadedAt) == Mine(ref, v.client, v.loadedAt)
    ensures Refines(cfg, Visited(cfg, sys, v), RefVisited(cfg, ref, v))
  {
    IdentifiesByJar(cfg, sys, v, id);
    assert StartData(sys.store, Some(id), v.loadedAt) == Mine(ref, v.client, v.loadedAt);
    NotMine(cfg, sys, v.client, id);
    KeepsPair(cfg, id);
    assert IsId(id);
    var s := DoAll(State(Mine(ref, v.client, v.loadedAt), false, false), v.ops);
    Cases(cfg, sys, ref, v, Some(id), s);
    hide Identify, Headers, DoAll, BuildSetCookie, Kept, IsId, CookieValue, Refines, Holds, Visited, RefVisited, Allowed, ValidConfig, StartData;
    var stored := Stored(s.data, v.savedAt + cfg.ttl);
    if s.destroyed {
      ForgetRefines(cfg, sys, ref, ref - {v.client}, v.client, id);
    } else if s.modified && s.data == NO_DATA {
      ForgetRefines(cfg, sys, ref, ref[v.client := stored], v.client, id);
    } else if s.modified {
      SaveRefines(cfg, sys, ref, v.client, id, stored);
    }
  }

  /** A visit of a client without a cookie. */
  lemma NewVisit(cfg: Config, sys: System, ref: Ref, v: Visit)
    requires ValidConfig(cfg) && Refines(cfg, sys, ref) && Allowed(cfg, sys, v) && v.client !in sys.jars
    ensures StartData(sys.store, Identify(cfg, Headers(sys, v)), v.loadedAt) == Mine(ref, v.client, v.loadedAt)
    ensures Refines(cfg, Visited(cfg, sys, v), RefVisited(cfg, ref, v))
  {
    IdentifiesByJar(cfg, sys, v, v.freshId);
    assert Mine(ref, v.client, v.loadedAt) == NO_DATA;
    NotFresh(cfg, sys, v);
    KeepsPair(cfg, v.freshId);
    assert IsId(v.freshId);
    var s := DoAll(State(NO_DATA, false, false), v.ops);
    Cases(cfg, sys, ref, v, None, s);
    hide Identify, Headers, DoAll, BuildSetCookie, Kept, IsId, CookieValue, Refines, Holds, Visited, RefVisited, Allowed, ValidConfig, StartData;
    var stored := Stored(s.data, v.savedAt + cfg.ttl);
    assert sys.jars - {v.client} == sys.jars;
    if s.destroyed {
      AbsentRefines(cfg, sys, ref, ref - {v.client}, v.client);
    } else if s.modified && s.data == NO_DATA {
      AbsentRefines(cfg, sys, ref, ref[v.client := stored], v.client);
    } else if s.modified {
      SaveRefines(cfg, sys, ref, v.client, v.freshId, stored);
    }
  }

  /** Each visit starts with the client's own map, and leaves everybody's as the reference says. */
  lemma VisitRefines(cfg: Config, sys: System, ref: Ref, v: Visit)
    requires ValidConfig(cfg) && Refines(cfg, sys, ref) && Allowed(cfg, sys, v)
    ensures StartData(sys.store, Identify(cfg, Headers(sys, v)), v.loadedAt) == Mine(ref, v.client, v.loadedAt)
    ensures Refines(cfg, Visited(cfg, sys, v), RefVisited(cfg, ref, v))
  {
    if v.client in sys.jars {
      var id :| Holds(cfg, sys, v.client, id);
      KnownVisit(cfg, sys, ref, v, id);
    } else {
      NewVisit(cfg, sys, ref, v);
    }
  }

  /** A client has a cookie after its visit exactly if there is something to keep for it. */
  lemma JarExact(cfg: Config, sys: System, ref: Ref, v: Visit)
    requires ValidConfig(cfg) && Refines(cfg, sys, ref) && Allowed(cfg, sys, v)
    ensures var left := DoAll(State(Mine(ref, v.client, v.loadedAt), false, false), v.ops);
            v.client in Visited(cfg, sys, v).jars <==>
              !left.destroyed && (if left.modified then left.data != NO_DATA else v.client in sys.jars)
  {
    VisitRefines(cfg, sys, ref, v);
    if v.client in sys.jars {
      var id :| Holds(cfg, sys, v.client, id);
      IdentifiesByJar(cfg, sys, v, id);
    } else {
      IdentifiesByJar(cfg, sys, v, "");
    }
    hide Refines, Holds, Allowed, ValidConfig, Identify, Headers, StartData, Mine, DoAll, BuildSetCookie, Kept, Visited, RefVisited;
    var id := Identify(cfg, Headers(sys, v));
    Cases(cfg, sys, ref, v, id, DoAll(State(StartData(sys.store, id, v.loadedAt), false, false), v.ops));
  }

  // ----- runs -----

  const NOBODY: System := System(map[], map[])

  /** The states of the system and of the reference, and the visit between each and the next. */
  datatype Run = Run(systems: seq<System>, refs: seq<Ref>, visits: seq<Visit>)

  ghost predicate Next(cfg: Config, run: Run, k: nat)
    requires |run.systems| == |run.refs| == |run.visits| + 1 && k < |run.visits|
  {
    && Allowed(cfg, run.systems[k], run.visits[k])
    && run.systems[k + 1] == Visited(cfg, run.systems[k], run.visits[k])
    && run.refs[k + 1] == RefVisited(cfg, run.refs[k], run.visits[k])
  }

  ghost predicate Possible(cfg: Config, run: Run) {
    && |run.systems| == |run.refs| == |run.visits| + 1
    && run.systems[0] == NOBODY && run.refs[0] == map[]
    && forall k: nat :: k < |run.visits| ==> Next(cfg, run, k)
  }

  lemma {:induction false} RunRefines(cfg: Config, run: Run, k: nat)
    requires ValidConfig(cfg) && Possible(cfg, run) && k < |run.systems|
    ensures Refines(cfg, run.systems[k], run.refs[k])
    decreases k
  {
    hide Allowed, Visited, RefVisited, Refines, ValidConfig, NOBODY;
    if k == 0 {
      NobodyRefines(cfg);
    } else {
      RunRefines(cfg, run, k - 1);
      assert Next(cfg, run, k - 1);
      VisitRefines(cfg, run.systems[k - 1], run.refs[k - 1], run.visits[k - 1]);
    }
  }

  lemma NobodyRefines(cfg: Config)
    ensures Refines(cfg, NOBODY, map[])
  {
  }

  /**
   In every run of visits by any number of clients, each replaying its latest cookie, a
   handler starts with exactly its client's own map in the reference.
   */
  lemma EveryVisitSeesOwnMap(cfg: Config, run: Run, k: nat)
    requires ValidConfig(cfg) && Possible(cfg, run) && k < |run.visits|
    ensures var sys, v := run.systems[k], run.visits[k];
            StartData(sys.store, Identify(cfg, Headers(sys, v)), v.loadedAt) == Mine(run.refs[k], v.client, v.loadedAt)
  {
    RunRefines(cfg, run, k);
    assert Next(cfg, run, k);
    hide Allowed, Possible, Refines, ValidConfig, Identify, Headers, StartData, Mine;
    VisitRefines(cfg, run.systems[k], run.refs[k], run.visits[k]);
  }

  /**
   What the reference promises: until it expires, the next handler starts with the map this one
   left, or an empty one after `destroy`; other clients' maps are unchanged.
   */
  lemma ReferenceMeans(cfg: Config, ref: Ref, v: Visit, now: nat, other: nat)
    requires other != v.client
    ensures var start := Mine(ref, v.client, v.loadedAt);
            var left := DoAll(State(start, false, false), v.ops);
            var next := RefVisited(cfg, ref, v);
            && Mine(next, other, now) == Mine(ref, other, now)
            && (left.destroyed ==> Mine(next, v.client, now) == NO_DATA)
            && (!left.destroyed && left.modified && now < v.savedAt + cfg.ttl ==> Mine(next, v.client, now) == left.data)
            && (!left.modified && Mine(ref, v.client, now) == start ==> Mine(next, v.client, now) == left.data)
  {
    UnmodifiedUnchanged(State(Mine(ref, v.client, v.loadedAt), false, false), v.ops);
    hide DoAll;
  }
}
