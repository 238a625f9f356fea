/**
 The bounded request-body pump: decoder, one pending chunk, and the byte-bounded
 queue the handler reads from.
 */
module BodyPump {
  import opened Bytes
  import C = PayloadCodec

  const MAX_BUFFERED: nat := 32 * 1024

  /**
   The channel between pump and handler. `taken` is what the handler has read so far.
   */
  datatype Payload = Payload(chunks: seq<seq<byte>>, buffered: nat, closed: bool, dropped: bool, taken: seq<byte>)

  const EMPTY_PAYLOAD: Payload := Payload([], 0, false, false, [])

  /** The decoder and the decoded bytes that did not fit into the queue. */
  datatype BodyState = BodyState(decoder: C.Kind, pending: seq<byte>)

  datatype PumpState = PumpState(body: BodyState, payload: Payload, buf: seq<byte>)

  datatype PumpResult = NeedRecv | Blocked | AtEnd | ReceiverClosed | Malformed(error: C.CodecError)

  datatype Flushed = Ready | Full | Gone

  function Capacity(p: Payload): nat {
    if p.buffered <= MAX_BUFFERED then MAX_BUFFERED - p.buffered else 0
  }

  function Push(p: Payload, data: seq<byte>): Payload {
    if data == [] then p else p.(chunks := p.chunks + [data], buffered := p.buffered + |data|)
  }

  /** The handler takes the oldest chunk. */
  function Pop(p: Payload): Payload
    requires p.chunks != []
  {
    var c := p.chunks[0];
    p.(chunks := p.chunks[1..], buffered := if |c| <= p.buffered then p.buffered - |c| else 0, taken := p.taken + c)
  }

  /** Moves as much of the pending chunk into the queue as fits. */
  function Flush(s: PumpState): (PumpState, Flushed) {
    var pending, n := s.body.pending, Min(|s.body.pending|, Capacity(s.payload));
    if s.payload.dropped then (s, Gone)
    else if pending == [] then (s, Ready)
    else if n == 0 then (s, Full)
    else (s.(body := s.body.(pending := pending[n..]), payload := Push(s.payload, pending[..n])),
          if n == |pending| then Ready else Full)
  }

  lemma FlushKeepsDecoder(s: PumpState)
    ensures var (t, _) := Flush(s); t.body.decoder == s.body.decoder && t.buf == s.buf
  {
  }

  function Pump(s: PumpState, maxBody: nat): (r: (PumpState, PumpResult))
    requires C.Sound(s.body.decoder)
    decreases |s.buf|
  {
    FlushKeepsDecoder(s);
    var (t, f) := Flush(s);
    if f == Full then (t, Blocked)
    else if f == Gone then (t, ReceiverClosed)
    else
      var d := C.Decode(t.body.decoder, Some(maxBody), t.buf);
      var u := t.(body := t.body.(decoder := d.kind), buf := d.rest);
      match d.item
      case Error(e) => (u, Malformed(e))
      case Eof => (u.(payload := u.payload.(closed := true)), AtEnd)
      case NeedMore => (u, NeedRecv)
      case Chunk(data) => Pump(u.(body := u.body.(pending := data)), maxBody)
  }

  // ----- what the pump conserves -----

  /** The queue counts its bytes and stays within its bound. */
  predicate QueueOk(p: Payload) {
    p.buffered == |Flatten(p.chunks)| <= MAX_BUFFERED && (forall c :: c in p.chunks ==> c != [])
  }

  /**
   `raw` is what the body took off the connection so far: read by the reference from
   `start` it brings the decoder exactly where it stands, and the bytes it decodes to are
   what the handler took, then the queue, then the pending chunk.
   */
  ghost predicate Conserved(start: C.Kind, maxBody: nat, raw: seq<byte>, s: PumpState) {
    && C.Sound(start) && C.Sound(s.body.decoder) && QueueOk(s.payload)
    && var run := C.Run(start, Some(maxBody), raw);
       && run.consumed == |raw|
       && run.verdict == C.Standing(s.body.decoder)
       && (!s.payload.dropped ==> s.payload.taken + Flatten(s.payload.chunks) + s.body.pending == run.body)
  }

  /** What the handler took and what is queued for it come from what was decoded, in order. */
  ghost predicate Delivered(start: C.Kind, maxBody: nat, raw: seq<byte>, p: Payload) {
    !p.dropped ==> C.Sound(start) && p.taken + Flatten(p.chunks) <= C.Run(start, Some(maxBody), raw).body
  }

  lemma ConservedDelivers(start: C.Kind, maxBody: nat, raw: seq<byte>, s: PumpState)
    requires Conserved(start, maxBody, raw, s)
    ensures Delivered(start, maxBody, raw, s.payload)
  {
    hide C.Run, Flatten;
  }

  /** More input only adds to what is decoded. */
  lemma DeliveredStays(start: C.Kind, maxBody: nat, raw: seq<byte>, more: seq<byte>, p: Payload)
    requires Delivered(start, maxBody, raw, p)
    ensures Delivered(start, maxBody, raw + more, p)
  {
    hide C.Run, Flatten;
    if !p.dropped {
      C.RunAppend(start, Some(maxBody), raw, more);
    }
  }

  lemma PopKeepsQueue(p: Payload)
    requires QueueOk(p) && p.chunks != []
    ensures QueueOk(Pop(p)) && Pop(p).taken + Flatten(Pop(p).chunks) == p.taken + Flatten(p.chunks)
  {
    assert forall c :: c in p.chunks[1..] ==> c in p.chunks;
    assert |Flatten(p.chunks)| == |p.chunks[0]| + |Flatten(p.chunks[1..])|;
  }

  lemma PushKeepsQueue(p: Payload, data: seq<byte>)
    requires QueueOk(p) && |data| <= Capacity(p)
    ensures QueueOk(Push(p, data)) && Flatten(Push(p, data).chunks) == Flatten(p.chunks) + data
  {
    FlattenPush(p.chunks, data);
    assert Flatten(p.chunks) + [] == Flatten(p.chunks);
  }

  lemma FlushConserves(start: C.Kind, maxBody: nat, raw: seq<byte>, s: PumpState)
    requires Conserved(start, maxBody, raw, s)
    ensures var (t, f) := Flush(s);
            && Conserved(start, maxBody, raw, t)
            && (f == Gone <==> s.payload.dropped)
            && t.payload.dropped == s.payload.dropped && t.payload.closed == s.payload.closed
            && (f == Full ==> t.body.pending != [] && Capacity(t.payload) == 0)
            && (f == Ready ==> t.body.pending == [])
  {
    hide C.Run;
    var pending, n := s.body.pending, Min(|s.body.pending|, Capacity(s.payload));
    if !s.payload.dropped && n > 0 {
      PushKeepsQueue(s.payload, pending[..n]);
      assert pending[..n] + pending[n..] == pending;
    }
  }

  /** A decoded item moves both the buffer and the reference on. */
  lemma DecodeConserves(start: C.Kind, maxBody: nat, raw: seq<byte>, k: C.Kind, buf: seq<byte>)
    requires C.Sound(start) && C.Sound(k)
    requires var run := C.Run(start, Some(maxBody), raw);
             run.consumed == |raw| && run.verdict == C.Standing(k)
    ensures var run := C.Run(start, Some(maxBody), raw);
            var d := C.Decode(k, Some(maxBody), buf);
            var used := raw + buf[..|buf| - |d.rest|];
            var next := C.Run(start, Some(maxBody), used);
            && (!d.item.Error? ==> next.consumed == |used| && next.verdict == C.Standing(d.kind))
            && (d.item.Chunk? ==> next.body == run.body + d.item.data)
            && (d.item.NeedMore? || d.item.Eof? ==> next.body == run.body)
            && (d.item.Eof? ==> C.AtEof(d.kind))
            && (d.item.NeedMore? ==> d.rest == [] && !C.AtEof(d.kind))
            && (d.item.Error? ==> C.Run(start, Some(maxBody), raw + buf).verdict == C.Bad(d.item.error))
  {
    hide C.Run, C.Decode, C.Explains;
    C.DecodeExplained(k, Some(maxBody), buf);
    var d := C.Decode(k, Some(maxBody), buf);
    var body := C.Run(start, Some(maxBody), raw).body;
    assert body + [] == body;
    if C.AtEof(k) {
      DecodeAtEof(k, Some(maxBody), buf);
      assert raw + buf[..0] == raw;
    } else {
      RunOn(start, Some(maxBody), raw, k, buf, d);
      ExplainsEnds(k, Some(maxBody), buf, d);
      if d.item.Error? {
        RunFails(start, Some(maxBody), raw, k, buf, d);
      }
    }
  }

  lemma ExplainsEnds(k: C.Kind, limit: Option<nat>, buf: seq<byte>, d: C.Decoded)
    requires C.Sound(k) && |d.rest| <= |buf| && C.Explains(k, limit, buf, d)
    ensures d.item.Eof? ==> C.AtEof(d.kind)
    ensures d.item.NeedMore? ==> d.rest == [] && !C.AtEof(d.kind)
  {
    hide C.Run;
  }

  lemma DecodeAtEof(k: C.Kind, limit: Option<nat>, buf: seq<byte>)
    requires C.Sound(k) && C.AtEof(k)
    ensures C.Decode(k, limit, buf) == C.Decoded(C.Eof, k, buf)
  {
  }

  lemma RunOn(start: C.Kind, limit: Option<nat>, raw: seq<byte>, k: C.Kind, buf: seq<byte>, d: C.Decoded)
    requires C.Sound(start) && C.Sound(k) && !C.AtEof(k) && |d.rest| <= |buf| && C.Explains(k, limit, buf, d)
    requires var run := C.Run(start, limit, raw); run.consumed == |raw| && run.verdict == C.More(k)
    ensures var n := |buf| - |d.rest|;
            var next := C.Run(start, limit, raw + buf[..n]);
            !d.item.Error? ==>
              && next.consumed == |raw| + n && next.verdict == C.Standing(d.kind)
              && next.body == C.Run(start, limit, raw).body + (if d.item.Chunk? then d.item.data else [])
  {
    hide C.Run;
    var n := |buf| - |d.rest|;
    C.RunAppend(start, limit, raw, buf[..n]);
    assert n == |buf| ==> buf[..n] == buf;
  }

  /** What the decoder refuses, the reference refuses. */
  lemma RunFails(start: C.Kind, limit: Option<nat>, raw: seq<byte>, k: C.Kind, buf: seq<byte>, d: C.Decoded)
    requires C.Sound(start) && C.Sound(k) && |d.rest| <= |buf| && d.item.Error? && C.Explains(k, limit, buf, d)
    requires var run := C.Run(start, limit, raw); run.consumed == |raw| && run.verdict == C.More(k)
    ensures C.Run(start, limit, raw + buf).verdict == C.Bad(d.item.error)
  {
    hide C.Run;
    C.RunAppend(start, limit, raw, buf);
  }

  /**
   Conservation across a whole pump. It consumes a prefix of the buffer; with that prefix
   added to `raw` everything is conserved. At the end of the body the queue is closed, all
   of the body is taken or queued, and the consumed bytes are exactly one framed body.
   */
  lemma {:induction false} PumpConserves(start: C.Kind, maxBody: nat, raw: seq<byte>, s: PumpState)
    requires Conserved(start, maxBody, raw, s)
    ensures var (t, r) := Pump(s, maxBody); Pumped(start, maxBody, raw, s, t, r)
    decreases |s.buf|
  {
    hide Flush, C.Run, C.Decode, Conserved, Pumped, QueueOk;
    FlushConserves(start, maxBody, raw, s);
    FlushKeepsDecoder(s);
    var (t, f) := Flush(s);
    if f == Ready {
      DecoderSound(start, maxBody, raw, t);
      var d := C.Decode(t.body.decoder, Some(maxBody), s.buf);
      var n := |s.buf| - |d.rest|;
      PumpItem(start, maxBody, raw, s, t);
      if d.item.Chunk? {
        var u := t.(body := BodyState(d.kind, d.item.data), buf := d.rest);
        PumpConserves(start, maxBody, raw + s.buf[..n], u);
        var (v, r) := Pump(u, maxBody);
        PumpedJoin(start, maxBody, raw, s, n, u, v, r);
      }
    } else {
      PumpStops(start, maxBody, raw, s, t, f);
    }
  }

  lemma DecoderSound(start: C.Kind, maxBody: nat, raw: seq<byte>, s: PumpState)
    requires Conserved(start, maxBody, raw, s)
    ensures C.Sound(s.body.decoder)
  {
  }

  lemma PumpStops(start: C.Kind, maxBody: nat, raw: seq<byte>, s: PumpState, t: PumpState, f: Flushed)
    requires f != Ready && t.buf == s.buf && Conserved(start, maxBody, raw, t)
    requires (f == Gone <==> s.payload.dropped) && (f == Full ==> Capacity(t.payload) == 0 && t.body.pending != [])
    requires t.payload.dropped == s.payload.dropped && t.payload.closed == s.payload.closed
    ensures Pumped(start, maxBody, raw, s, t, if f == Full then Blocked else ReceiverClosed)
  {
    hide C.Run;
    ConservedDelivers(start, maxBody, raw, t);
    assert raw + s.buf[..0] == raw && s.buf[0..] == s.buf;
  }

  /** One decoded item: a chunk keeps the pump going, anything else ends it. */
  lemma PumpItem(start: C.Kind, maxBody: nat, raw: seq<byte>, s: PumpState, t: PumpState)
    requires Conserved(start, maxBody, raw, t) && t.buf == s.buf && t.body.pending == [] && !s.payload.dropped
    requires t.payload.dropped == s.payload.dropped && t.payload.closed == s.payload.closed
    ensures var d := C.Decode(t.body.decoder, Some(maxBody), s.buf);
            var n := |s.buf| - |d.rest|;
            var u := t.(body := t.body.(decoder := d.kind), buf := d.rest);
            match d.item
            case Chunk(data) => Conserved(start, maxBody, raw + s.buf[..n], u.(body := BodyState(d.kind, data)))
            case Error(e) => Pumped(start, maxBody, raw, s, u, Malformed(e))
            case Eof => Pumped(start, maxBody, raw, s, u.(payload := u.payload.(closed := true)), AtEnd)
            case NeedMore => Pumped(start, maxBody, raw, s, u, NeedRecv)
  {
    hide C.Run, C.Decode;
    DecodeConserves(start, maxBody, raw, t.body.decoder, s.buf);
    var d := C.Decode(t.body.decoder, Some(maxBody), s.buf);
    ConservedDelivers(start, maxBody, raw, t);
    DeliveredStays(start, maxBody, raw, s.buf[..|s.buf| - |d.rest|], t.payload);
    if d.item.Chunk? {
      ChunkConserves(start, maxBody, raw, t, d);
    }
  }

  /** What a pump leaves behind, whatever ended it. */
  ghost predicate Pumped(start: C.Kind, maxBody: nat, raw: seq<byte>, s: PumpState, t: PumpState, r: PumpResult) {
    && |t.buf| <= |s.buf| && t.buf == s.buf[|s.buf| - |t.buf|..]
    && t.payload.dropped == s.payload.dropped
    && QueueOk(t.payload) && Delivered(start, maxBody, raw + s.buf[..|s.buf| - |t.buf|], t.payload)
    && (!r.Malformed? && r != ReceiverClosed ==> Conserved(start, maxBody, raw + s.buf[..|s.buf| - |t.buf|], t))
    && (r == AtEnd ==> t.payload.closed && t.body.pending == [] && C.AtEof(t.body.decoder) && !t.payload.dropped)
    && (r != AtEnd ==> t.payload.closed == s.payload.closed)
    && (r == NeedRecv ==> t.buf == [] && t.body.pending == [] && !C.AtEof(t.body.decoder))
    && (r == Blocked ==> t.payload.buffered == MAX_BUFFERED && t.body.pending != [])
    && (r == ReceiverClosed <==> s.payload.dropped)
    && (r.Malformed? ==> C.Sound(start) && C.Run(start, Some(maxBody), raw + s.buf).verdict == C.Bad(r.error))
  }

  lemma PumpedJoin(start: C.Kind, maxBody: nat, raw: seq<byte>, s: PumpState, n: nat,
                   u: PumpState, v: PumpState, r: PumpResult)
    requires n <= |s.buf| && u.buf == s.buf[n..] && u.payload.dropped == s.payload.dropped
    requires u.payload.closed == s.payload.closed
    requires Pumped(start, maxBody, raw + s.buf[..n], u, v, r)
    ensures Pumped(start, maxBody, raw, s, v, r)
  {
    hide Conserved, Delivered;
    var m := |u.buf| - |v.buf|;
    assert raw + s.buf[..n] + u.buf[..m] == raw + s.buf[..n + m];
    assert s.buf[n + m..] == u.buf[m..];
    assert raw + s.buf[..n] + u.buf == raw + s.buf;
  }

  lemma ChunkConserves(start: C.Kind, maxBody: nat, raw: seq<byte>, t: PumpState, d: C.Decoded)
    requires Conserved(start, maxBody, raw, t) && t.body.pending == [] && C.Sound(d.kind) && |d.rest| <= |t.buf|
    requires d.item.Chunk?
    requires var used := raw + t.buf[..|t.buf| - |d.rest|];
             var next := C.Run(start, Some(maxBody), used);
             && next.consumed == |used| && next.verdict == C.Standing(d.kind)
             && next.body == C.Run(start, Some(maxBody), raw).body + d.item.data
    ensures Conserved(start, maxBody, raw + t.buf[..|t.buf| - |d.rest|],
                      t.(body := BodyState(d.kind, d.item.data), buf := d.rest))
  {
    hide C.Run;
  }

  // ----- a limit of zero -----

  /**
   The pump takes a limit of zero literally, the head check takes it as "no limit": a
   request with a declared length then starts a body that no pump can read.
   */
  ghost predicate Refused(start: C.Kind, maxBody: nat, raw: seq<byte>, s: PumpState) {
    start.Length? && maxBody < start.remaining && raw == [] && s.body == BodyState(start, []) && QueueOk(s.payload)
    && s.payload.taken == [] && s.payload.chunks == []
  }

  /** A body being read: conserved, or refused from the start. */
  ghost predicate Held(start: C.Kind, maxBody: nat, raw: seq<byte>, s: PumpState) {
    && C.Sound(s.body.decoder)
    && (Conserved(start, maxBody, raw, s) || Refused(start, maxBody, raw, s))
  }

  lemma RefusedPump(start: C.Kind, maxBody: nat, raw: seq<byte>, s: PumpState)
    requires Refused(start, maxBody, raw, s)
    ensures Pump(s, maxBody) == (s, if s.payload.dropped then ReceiverClosed else Malformed(C.BodyTooLarge))
    ensures Pumped(start, maxBody, raw, s, s, Pump(s, maxBody).1)
  {
    RefusedRun(start, maxBody, raw + s.buf);
    hide C.Run;
  }

  lemma RefusedRun(start: C.Kind, maxBody: nat, input: seq<byte>)
    requires start.Length? && maxBody < start.remaining
    ensures C.Run(start, Some(maxBody), input).verdict == C.Bad(C.BodyTooLarge)
  {
  }

  lemma PumpHeld(start: C.Kind, maxBody: nat, raw: seq<byte>, s: PumpState)
    requires Held(start, maxBody, raw, s)
    ensures var (t, r) := Pump(s, maxBody); Pumped(start, maxBody, raw, s, t, r)
  {
    hide C.Run, Pump, Pumped, Conserved, Refused;
    if Conserved(start, maxBody, raw, s) {
      PumpConserves(start, maxBody, raw, s);
    } else {
      RefusedPump(start, maxBody, raw, s);
    }
  }

  /** What is left in the socket buffer does not matter to what is conserved. */
  lemma HeldAnyBuf(start: C.Kind, maxBody: nat, raw: seq<byte>, s: PumpState, buf: seq<byte>)
    ensures Held(start, maxBody, raw, s) == Held(start, maxBody, raw, s.(buf := buf))
    ensures Conserved(start, maxBody, raw, s) == Conserved(start, maxBody, raw, s.(buf := buf))
  {
    hide C.Run;
  }

  lemma StartHeld(start: C.Kind, maxBody: nat)
    requires start == C.START || (start.Length? && 0 < start.remaining)
    ensures Held(start, maxBody, [], PumpState(BodyState(start, []), EMPTY_PAYLOAD, []))
  {
  }
}
