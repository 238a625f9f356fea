/**
 Message boundaries: what the worker takes for the requests of a connection is fixed by the
 bytes received, not by how they were cut into receives, by timing, or by other connections.
 */
module Messages {
  import opened Bytes
  import opened BodyPump
  import opened Connection
  import opened ConnectionInvariant
  import opened EventLoopInvariant
  import opened EventLoopRun
  import opened EventLoopTheorems
  import C = PayloadCodec
  import G = ChunkedGrammar

  /** A head is recognised from its own bytes: what follows it does not matter. */
  ghost predicate SelfDelimiting(cfg: Config) {
    && (forall b: seq<byte> :: cfg.parse(b).Parsed? && cfg.parse(b).head.len <= |b| ==>
          cfg.parse(b[..cfg.parse(b).head.len]) == cfg.parse(b))
    && (forall b, x :: cfg.parse(b).Parsed? ==> cfg.parse(b + x) == cfg.parse(b))
  }

  /** The same request, whatever had been received behind its head when it was parsed. */
  predicate SameRequest(m: Message, n: Message) {
    m.head == n.head && m.framing == n.framing && m.raw == n.raw
  }

  lemma HeadAlone(cfg: Config, m: Message)
    requires SelfDelimiting(cfg) && MessageOk(cfg, m)
    ensures cfg.parse(m.head).Parsed? && cfg.parse(m.head).head.len == |m.head|
    ensures FramingOf(cfg.parse(m.head).head) == m.framing
  {
    assert (m.head + m.ahead)[..|m.head|] == m.head;
    hide BodyComplete;
  }

  lemma HeadsAgree(cfg: Config, m: Message, x: seq<byte>, n: Message, y: seq<byte>)
    requires SelfDelimiting(cfg) && MessageOk(cfg, m) && MessageOk(cfg, n)
    requires m.head + x == n.head + y && |m.head| <= |n.head|
    ensures m.head == n.head && m.framing == n.framing && x == y
  {
    HeadAlone(cfg, m);
    HeadAlone(cfg, n);
    var t := n.head[|m.head|..];
    assert n.head == m.head + t by {
      assert (m.head + x)[..|n.head|] == n.head;
    }
    assert cfg.parse(m.head + t) == cfg.parse(m.head);
    assert x == (m.head + x)[|m.head|..] && y == (n.head + y)[|n.head|..];
  }

  lemma BodiesAgree(cfg: Config, framing: Option<C.Kind>, r: seq<byte>, x: seq<byte>, s: seq<byte>, y: seq<byte>)
    requires BodyComplete(cfg, framing, r) && BodyComplete(cfg, framing, s)
    requires r + x == s + y && |r| <= |s|
    ensures r == s && x == y
  {
    var t := s[|r|..];
    assert s == r + t by {
      assert (r + x)[..|s|] == s;
    }
    if framing.Some? {
      C.RunAppend(framing.value, Some(cfg.maxBody), r, t);
    }
    assert x == (r + x)[|r|..] && y == (s + y)[|s|..];
  }

  lemma MessageAgrees(cfg: Config, m: Message, x: seq<byte>, n: Message, y: seq<byte>)
    requires SelfDelimiting(cfg) && MessageOk(cfg, m) && MessageOk(cfg, n)
    requires m.head + m.raw + x == n.head + n.raw + y
    ensures SameRequest(m, n) && x == y
  {
    hide SelfDelimiting, HeadParsed, BodyComplete;
    Associate(m.head, m.raw, x);
    Associate(n.head, n.raw, y);
    if |m.head| <= |n.head| {
      HeadsAgree(cfg, m, m.raw + x, n, n.raw + y);
    } else {
      HeadsAgree(cfg, n, n.raw + y, m, m.raw + x);
    }
    if |m.raw| <= |n.raw| {
      BodiesAgree(cfg, m.framing, m.raw, x, n.raw, y);
    } else {
      BodiesAgree(cfg, m.framing, n.raw, y, m.raw, x);
    }
  }

  lemma Associate(a: seq<byte>, b: seq<byte>, c: seq<byte>)
    ensures a + b + c == a + (b + c)
  {
  }

  lemma {:induction false} WireFront(past: seq<Message>)
    requires past != []
    ensures Wire(past) == past[0].head + past[0].raw + Wire(past[1..])
    decreases |past|
  {
    var k := |past| - 1;
    var init, last := past[..k], past[k];
    assert past == init + [last];
    WirePush(init, last);
    if k == 0 {
      assert init == [] && past[1..] == [];
    } else {
      WireFront(init);
      WirePush(init[1..], last);
      assert past[1..] == init[1..] + [last];
      hide Wire;
      Associate(init[0].head + init[0].raw, Wire(init[1..]), last.head + last.raw);
      Associate(Wire(init), last.head, last.raw);
      Associate(Wire(init[1..]), last.head, last.raw);
    }
  }

  /** Two lists of requests read from the same bytes agree as far as both go. */
  lemma {:induction false} BoundariesAgree(cfg: Config, ms: seq<Message>, x: seq<byte>, ns: seq<Message>, y: seq<byte>)
    requires SelfDelimiting(cfg) && (forall m :: m in ms ==> MessageOk(cfg, m)) && (forall n :: n in ns ==> MessageOk(cfg, n))
    requires Wire(ms) + x == Wire(ns) + y && |ms| <= |ns|
    ensures forall i :: 0 <= i < |ms| ==> SameRequest(ms[i], ns[i])
    decreases |ms|
  {
    hide SelfDelimiting, MessageOk, SameRequest, Wire;
    if ms != [] {
      WireFront(ms);
      WireFront(ns);
      var m, n := ms[0], ns[0];
      var p, q := Wire(ms[1..]) + x, Wire(ns[1..]) + y;
      assert m.head + m.raw + p == n.head + n.raw + q by {
        assert m.head + m.raw + p == Wire(ms) + x;
        assert n.head + n.raw + q == Wire(ns) + y;
      }
      MessageAgrees(cfg, m, p, n, q);
      BoundariesAgree(cfg, ms[1..], x, ns[1..], y);
      forall i | 0 <= i < |ms| ensures SameRequest(ms[i], ns[i]) {
        if i > 0 {
          assert ms[i] == ms[1..][i - 1] && ns[i] == ns[1..][i - 1];
        }
      }
    }
  }

  // ----- over runs -----

  lemma InputOf(cfg: Config, c: Conn)
    requires Core(cfg, c)
    ensures !c.log.cut ==> c.log.received == Wire(c.log.past) + c.req.head + c.req.raw + c.buf
    ensures Wire(c.log.past) <= c.log.received
    ensures forall m :: m in c.log.past ==> MessageOk(cfg, m)
    ensures c.state == Headers ==> c.req == NO_REQUEST && !c.log.cut
  {
  }

  lemma ReachedCore(cfg: Config, run: Run, k: nat, idx: nat)
    requires ValidConfig(cfg) && Possible(cfg, run) && k < |run.worlds| && idx in Slots(run.worlds[k])
    ensures Core(cfg, Slots(run.worlds[k])[idx])
  {
    RunKeeps(cfg, run, k);
    BaseOf(cfg, run.worlds[k]);
    hide Inv, Base, Possible, ValidConfig, Core;
    SlotCore(cfg, Settle(run.worlds[k]), idx);
  }

  /**
   The bytes received begin with the finished requests; until some are thrown away, behind them
   come just the current request and what is left in the buffer. A connection that waits for a head stands
   exactly at a message boundary: every request before was a head followed by one body,
   decoded to its end.
   */
  lemma EveryByteAccounted(cfg: Config, run: Run, k: nat, idx: nat)
    requires ValidConfig(cfg) && Possible(cfg, run) && k < |run.worlds| && idx in Slots(run.worlds[k])
    ensures var c := Slots(run.worlds[k])[idx];
            && Wire(c.log.past) <= c.log.received
            && (!c.log.cut ==> c.log.received == Wire(c.log.past) + c.req.head + c.req.raw + c.buf)
            && (forall m :: m in c.log.past ==> MessageOk(cfg, m))
            && (c.state == Headers ==> c.log.received == Wire(c.log.past) + c.buf)
  {
    hide Possible, ValidConfig, Core, MessageOk;
    ReachedCore(cfg, run, k, idx);
    var c := Slots(run.worlds[k])[idx];
    InputOf(cfg, c);
    if c.state == Headers {
      assert Wire(c.log.past) + [] + [] + c.buf == Wire(c.log.past) + c.buf;
    }
  }

  /**
   Two connections of any two runs that received the same bytes, or one of them a prefix of
   the other's, have read the same requests, as far as both have come.
   */
  lemma PipelinedAlike(cfg: Config, one: Run, j: nat, i: nat, two: Run, k: nat, n: nat)
    requires ValidConfig(cfg) && SelfDelimiting(cfg) && Possible(cfg, one) && Possible(cfg, two)
    requires j < |one.worlds| && i in Slots(one.worlds[j]) && k < |two.worlds| && n in Slots(two.worlds[k])
    requires var c, d := Slots(one.worlds[j])[i], Slots(two.worlds[k])[n];
             c.log.received <= d.log.received || d.log.received <= c.log.received
    ensures var ms, ns := Slots(one.worlds[j])[i].log.past, Slots(two.worlds[k])[n].log.past;
            forall m :: 0 <= m < |ms| && m < |ns| ==> SameRequest(ms[m], ns[m])
  {
    hide Possible, ValidConfig, Core, MessageOk, SelfDelimiting, SameRequest, Wire;
    ReachedCore(cfg, one, j, i);
    ReachedCore(cfg, two, k, n);
    var c, d := Slots(one.worlds[j])[i], Slots(two.worlds[k])[n];
    InputOf(cfg, c);
    InputOf(cfg, d);
    Alike(cfg, c, d);
    Alike(cfg, d, c);
    if |c.log.past| > |d.log.past| {
      forall m | 0 <= m < |c.log.past| && m < |d.log.past|
        ensures SameRequest(c.log.past[m], d.log.past[m])
      {
        assert SameRequest(d.log.past[m], c.log.past[m]);
        SameBack(d.log.past[m], c.log.past[m]);
      }
    }
  }

  lemma SameBack(m: Message, n: Message)
    requires SameRequest(m, n)
    ensures SameRequest(n, m)
  {
  }

  lemma Alike(cfg: Config, c: Conn, d: Conn)
    requires SelfDelimiting(cfg)
    requires (forall m :: m in c.log.past ==> MessageOk(cfg, m)) && (forall m :: m in d.log.past ==> MessageOk(cfg, m))
    requires Wire(c.log.past) <= c.log.received && Wire(d.log.past) <= d.log.received
    requires c.log.received <= d.log.received || d.log.received <= c.log.received
    ensures |c.log.past| <= |d.log.past| ==>
              forall k :: 0 <= k < |c.log.past| ==> SameRequest(c.log.past[k], d.log.past[k])
  {
    hide MessageOk, SelfDelimiting, SameRequest, Wire;
    var x := c.log.received[|Wire(c.log.past)|..];
    var y := d.log.received[|Wire(d.log.past)|..];
    assert c.log.received == Wire(c.log.past) + x && d.log.received == Wire(d.log.past) + y;
    if |c.log.past| <= |d.log.past| {
      if c.log.received <= d.log.received {
        var t := d.log.received[|c.log.received|..];
        Associate(Wire(c.log.past), x, t);
        assert c.log.received + t == d.log.received;
        BoundariesAgree(cfg, c.log.past, x + t, d.log.past, y);
      } else {
        var t := c.log.received[|d.log.received|..];
        Associate(Wire(d.log.past), y, t);
        assert d.log.received + t == c.log.received;
        BoundariesAgree(cfg, c.log.past, x, d.log.past, y + t);
      }
    }
  }

  /**
   The queue between pump and handler stays within 32 KiB and counts its bytes. What the handler
   took, then the queue, then the chunk that did not fit is what was decoded so far; once the
   body is given up or closed there is no such chunk, and closed means read to its end. Unless
   the handler let go of the body it gets nothing else, nothing twice, and nothing out of order.
   */
  lemma HandlerGetsBody(cfg: Config, run: Run, k: nat, idx: nat)
    requires ValidConfig(cfg) && Possible(cfg, run) && k < |run.worlds| && idx in Slots(run.worlds[k])
    ensures var c := Slots(run.worlds[k])[idx];
            && c.req.payload.buffered == |Flatten(c.req.payload.chunks)| <= 32768
            && (!c.req.payload.dropped ==> BodyFlows(cfg, c.req))
  {
    hide Possible, ValidConfig, Core, BodyFlows, Flatten;
    ReachedCore(cfg, run, k, idx);
    PayloadOf(cfg, Slots(run.worlds[k])[idx]);
  }

  /** What the handler took and can take, against what was decoded of the body so far. */
  ghost predicate BodyFlows(cfg: Config, req: Request) {
    var given := req.payload.taken + Flatten(req.payload.chunks);
    if req.framing.None? then given == []
    else
      && C.Sound(req.framing.value)
      && var decoded := C.Run(req.framing.value, Some(cfg.maxBody), req.raw).body;
         && given <= decoded
         && (req.body.Some? ==> given + req.body.value.pending == decoded)
         && (req.payload.closed ==> given == decoded && BodyComplete(cfg, req.framing, req.raw))
  }

  lemma PayloadOf(cfg: Config, c: Conn)
    requires Core(cfg, c)
    ensures c.req.payload.buffered == |Flatten(c.req.payload.chunks)| <= 32768
    ensures !c.req.payload.dropped ==> BodyFlows(cfg, c.req)
  {
    hide InputOk, StreamOk, ReplyOk, C.Run, BodyComplete;
    if c.req.framing.None? {
      assert Flatten<byte>([]) == [] by { FlattenEmpty(); }
    } else if c.req.body.Some? && !c.req.payload.dropped {
      HeldFlows(c.req.framing.value, cfg.maxBody, c.req.raw, PumpState(c.req.body.value, c.req.payload, []));
    }
  }

  lemma HeldFlows(start: C.Kind, maxBody: nat, raw: seq<byte>, s: PumpState)
    requires Held(start, maxBody, raw, s) && !s.payload.dropped
    ensures C.Sound(start)
    ensures s.payload.taken + Flatten(s.payload.chunks) + s.body.pending == C.Run(start, Some(maxBody), raw).body
  {
    if Refused(start, maxBody, raw, s) {
      assert Flatten<byte>([]) == [] by { FlattenEmpty(); }
    } else {
      hide C.Run;
    }
  }

  // ----- what a body is, in the words of its head -----

  /** A chunked body is a word of the grammar with this data; any other is as long as declared. */
  ghost predicate IsBody(h: Head, raw: seq<byte>, data: seq<byte>) {
    if h.chunked then G.InLanguage(raw, data)
    else data == raw && |raw| == if h.contentLength.Some? then h.contentLength.value else 0
  }

  /** What is decoded of a complete body. */
  function DecodedBody(cfg: Config, framing: Option<C.Kind>, raw: seq<byte>): seq<byte>
    requires framing.Some? ==> C.Sound(framing.value)
  {
    if framing.None? then [] else C.Run(framing.value, Some(cfg.maxBody), raw).body
  }

  lemma {:induction false} LengthRun(n: nat, limit: Option<nat>, s: seq<byte>)
    ensures C.Run(C.Length(n), limit, s).verdict == C.Done ==>
              n <= |s| && C.Run(C.Length(n), limit, s) == C.RunResult(C.Done, n, s[..n]) && (0 < n ==> C.Within(limit, n))
    decreases |s|
  {
    if 0 < n && s != [] && C.Within(limit, n) {
      LengthRun(n - 1, limit, s[1..]);
      if C.Run(C.Length(n), limit, s).verdict == C.Done {
        assert s[..n] == [s[0]] + s[1..][..n - 1];
      }
    }
  }

  lemma BodyMeans(cfg: Config, head: seq<byte>, ahead: seq<byte>, framing: Option<C.Kind>, raw: seq<byte>)
    requires HeadParsed(cfg, head, ahead, framing) && BodyComplete(cfg, framing, raw)
    ensures framing.Some? ==> C.Sound(framing.value)
    ensures var data := DecodedBody(cfg, framing, raw);
            IsBody(cfg.parse(head + ahead).head, raw, data) && |data| <= cfg.maxBody
  {
    hide C.Run, G.InLanguage;
    if framing.Some? {
      var run := C.Run(framing.value, Some(cfg.maxBody), raw);
      assert raw[..|raw|] == raw;
      if framing.value.Length? {
        LengthRun(framing.value.remaining, Some(cfg.maxBody), raw);
      } else {
        G.GrammarExact(raw, Some(cfg.maxBody), |raw|, run.body);
      }
    }
  }

  /**
   Every finished request of every connection is a head that asked for the connection to be kept,
   and exactly the body that head announced: a word of the chunked grammar within the limit if it
   says chunked, otherwise as many bytes as it declares, and none if it declares no length.
   */
  lemma RequestsFramed(cfg: Config, run: Run, k: nat, idx: nat, i: nat)
    requires ValidConfig(cfg) && Possible(cfg, run) && k < |run.worlds| && idx in Slots(run.worlds[k])
    requires i < |Slots(run.worlds[k])[idx].log.past|
    ensures var m := Slots(run.worlds[k])[idx].log.past[i];
            var p := cfg.parse(m.head + m.ahead);
            && p.Parsed? && p.head.len == |m.head| && p.head.keepAlive
            && exists data :: IsBody(p.head, m.raw, data) && |data| <= cfg.maxBody
  {
    hide Possible, ValidConfig, Core, IsBody, BodyComplete;
    ReachedCore(cfg, run, k, idx);
    InputOf(cfg, Slots(run.worlds[k])[idx]);
    var m := Slots(run.worlds[k])[idx].log.past[i];
    assert MessageOk(cfg, m);
    BodyMeans(cfg, m.head, m.ahead, m.framing, m.raw);
  }

  /**
   A handler that has got its body to the end, and did not let go of it, got exactly the body its
   head announced: the data of the chunked word, or the declared bytes themselves. It gets to the end
   as soon as the body is read to its own, at once if there is none.
   */
  lemma HandlerGetsWhole(cfg: Config, run: Run, k: nat, idx: nat)
    requires ValidConfig(cfg) && Possible(cfg, run) && k < |run.worlds| && idx in Slots(run.worlds[k])
    requires !Slots(run.worlds[k])[idx].req.payload.dropped
    ensures var req := Slots(run.worlds[k])[idx].req;
            var p := cfg.parse(req.head + req.ahead);
            req.payload.closed ==>
              p.Parsed? && p.head.len == |req.head| && IsBody(p.head, req.raw, req.payload.taken + Flatten(req.payload.chunks))
    ensures var c := Slots(run.worlds[k])[idx];
            c.state == Dispatching && c.req.dispatch != Idle && c.req.body.None? ==> c.req.payload.closed
  {
    hide Possible, ValidConfig, Core, IsBody, Flatten;
    ReachedCore(cfg, run, k, idx);
    var c := Slots(run.worlds[k])[idx];
    if c.state == Dispatching && c.req.dispatch != Idle && c.req.body.None? {
      EndsInTime(cfg, c);
    }
    if c.req.payload.closed {
      ClosedBody(cfg, c);
      BodyMeans(cfg, c.req.head, c.req.ahead, c.req.framing, c.req.raw);
    }
  }

  lemma EndsInTime(cfg: Config, c: Conn)
    requires Core(cfg, c) && c.state == Dispatching && c.req.dispatch != Idle && c.req.body.None? && !c.req.payload.dropped
    ensures c.req.payload.closed
  {
  }

  lemma ClosedBody(cfg: Config, c: Conn)
    requires Core(cfg, c) && c.req.payload.closed && !c.req.payload.dropped
    ensures HeadParsed(cfg, c.req.head, c.req.ahead, c.req.framing)
    ensures BodyComplete(cfg, c.req.framing, c.req.raw)
    ensures c.req.payload.taken + Flatten(c.req.payload.chunks) == DecodedBody(cfg, c.req.framing, c.req.raw)
  {
    assert Flatten<byte>([]) == [] by { FlattenEmpty(); }
    hide InputOk, StreamOk, ReplyOk, C.Run, Flatten, HeadParsed, Delivered, QueueOk;
  }
}
