/** The request-body pump as it runs: the shared channel, and the loops that fill it. */
module RequestBody {
  import opened Bytes
  import C = PayloadCodec
  import opened BodyPump
  import PD = PayloadDecoder

  /** What polling the handler's end of the channel yields. */
  datatype Frame = DataFrame(chunk: seq<byte>) | EndOfBody | NotYet

  class PayloadChannel {
    var chunks: seq<seq<byte>>
    var bufferedBytes: nat
    var closed: bool
    var receiverDropped: bool
    ghost var taken: seq<byte>

    ghost function View(): Payload
      reads this
    {
      Payload(chunks, bufferedBytes, closed, receiverDropped, taken)
    }

    constructor ()
      ensures View() == EMPTY_PAYLOAD
    {
      chunks, bufferedBytes, closed, receiverDropped, taken := [], 0, false, false, [];
    }

    /** The room that is left: what is queued and the room make up the bound, and beyond it there is none. */
    method AvailableCapacity() returns (n: nat)
      ensures bufferedBytes <= 32768 ==> n + bufferedBytes == 32768
      ensures 32768 < bufferedBytes ==> n == 0
      ensures forall chunk :: 0 < |chunk| <= n ==> Push(View(), chunk).buffered <= 32768
    {
      n := if bufferedBytes <= MAX_BUFFERED then MAX_BUFFERED - bufferedBytes else 0;
    }

    method PushChunk(chunk: seq<byte>)
      modifies this
      ensures View() == Push(old(View()), chunk)
    {
      if chunk == [] {
        return;
      }
      bufferedBytes := bufferedBytes + |chunk|;
      chunks := chunks + [chunk];
    }

    method PopChunk() returns (chunk: Option<seq<byte>>)
      modifies this
      ensures if old(chunks) == [] then chunk == None && View() == old(View())
              else chunk == Some(old(chunks)[0]) && View() == Pop(old(View()))
    {
      if chunks == [] {
        return None;
      }
      var front := chunks[0];
      bufferedBytes := if |front| <= bufferedBytes then bufferedBytes - |front| else 0;
      chunks := chunks[1..];
      taken := taken + front;
      chunk := Some(front);
    }

    method FeedEof()
      modifies this
      ensures View() == old(View()).(closed := true)
    {
      closed := true;
    }

    /** The handler's side: the oldest chunk, and the end only when no chunk is left. */
    method PollFrame() returns (frame: Frame)
      modifies this
      ensures match frame
              case DataFrame(chunk) => old(chunks) != [] && chunk == old(chunks)[0] && View() == Pop(old(View()))
              case EndOfBody => old(chunks) == [] && old(closed) && View() == old(View())
              case NotYet => old(chunks) == [] && !old(closed) && View() == old(View())
    {
      var chunk := PopChunk();
      if chunk.Some? {
        return DataFrame(chunk.value);
      }
      return if closed then EndOfBody else NotYet;
    }
  }

  class RequestBodyState {
    const decoder: PD.Decoder
    const sender: PayloadChannel
    var pendingChunk: Option<seq<byte>>

    constructor (decoder: PD.Decoder, sender: PayloadChannel)
      ensures this.decoder == decoder && this.sender == sender && pendingChunk == None
    {
      this.decoder, this.sender, pendingChunk := decoder, sender, None;
    }

    /** No chunk and an empty one are the same to everyone. */
    ghost function View(): BodyState
      reads this, decoder
    {
      BodyState(decoder.kind, if pendingChunk.Some? then pendingChunk.value else [])
    }

    ghost function State(buf: PD.BytesMut): PumpState
      reads this, decoder, sender, buf
    {
      PumpState(View(), sender.View(), buf.data)
    }

    /** Feeds the channel until the chunk is gone, the channel is full, or nobody reads it. */
    method FlushPendingChunk(ghost buf: PD.BytesMut) returns (r: Flushed)
      modifies this, sender
      ensures (State(buf), r) == Flush(old(State(buf)))
    {
      ghost var start := State(buf);
      while pendingChunk.Some?
        invariant buf.data == old(buf.data) && decoder.kind == old(decoder.kind)
        invariant Flush(State(buf)).0 == Flush(start).0
        invariant Flush(State(buf)).1 == Flush(start).1
        invariant pendingChunk.None? ==> State(buf) == Flush(start).0
        decreases if pendingChunk.Some? then 1 + |pendingChunk.value| else 0
      {
        var chunk := pendingChunk.value;
        if chunk == [] {
          pendingChunk := None;
          continue;
        }
        if sender.receiverDropped {
          return Gone;
        }
        var capacity := sender.AvailableCapacity();
        if capacity == 0 {
          return Full;
        }
        var emitted := Min(|chunk|, capacity);
        var next := chunk[..emitted];
        if emitted == |chunk| {
          pendingChunk := None;
        } else {
          pendingChunk := Some(chunk[emitted..]);
        }
        sender.PushChunk(next);
      }
      return if sender.receiverDropped then Gone else Ready;
    }

    /** Decodes and feeds until more input is needed, the channel blocks, or the body ends. */
    method Pump(buf: PD.BytesMut, maxBody: nat) returns (r: PumpResult)
      requires C.Sound(decoder.kind)
      modifies this, sender, decoder, buf
      ensures (State(buf), r) == BodyPump.Pump(old(State(buf)), maxBody)
    {
      hide C.Decode, Flush, BodyPump.Pump;
      ghost var start := State(buf);
      while true
        invariant C.Sound(decoder.kind) && BodyPump.Pump(State(buf), maxBody) == BodyPump.Pump(start, maxBody)
        decreases |buf.data|
      {
        ghost var s := State(buf);
        FlushKeepsDecoder(s);
        PumpUnfold(s, maxBody);
        var flushed := FlushPendingChunk(buf);
        if flushed == Full {
          return Blocked;
        }
        if flushed == Gone {
          return ReceiverClosed;
        }
        DecodeShrinks(decoder.kind, maxBody, buf.data);
        var item := decoder.Decode(buf, Some(maxBody));
        match item
        case Error(e) => return Malformed(e);
        case Eof => sender.FeedEof(); return AtEnd;
        case NeedMore => return NeedRecv;
        case Chunk(data) => pendingChunk := Some(data);
      }
    }
  }

  lemma PumpUnfold(s: PumpState, maxBody: nat)
    requires C.Sound(s.body.decoder)
    ensures Flush(s).0.body.decoder == s.body.decoder && Flush(s).0.buf == s.buf
    ensures var (t, f) := Flush(s);
            var d := C.Decode(t.body.decoder, Some(maxBody), t.buf);
            var u := t.(body := t.body.(decoder := d.kind), buf := d.rest);
            BodyPump.Pump(s, maxBody) ==
              if f == Full then (t, Blocked)
              else if f == Gone then (t, ReceiverClosed)
              else if d.item.Error? then (u, Malformed(d.item.error))
              else if d.item.Eof? then (u.(payload := u.payload.(closed := true)), AtEnd)
              else if d.item.NeedMore? then (u, NeedRecv)
              else BodyPump.Pump(u.(body := u.body.(pending := d.item.data)), maxBody)
  {
    FlushKeepsDecoder(s);
    hide C.Decode, Flush;
  }

  lemma DecodeShrinks(k: C.Kind, maxBody: nat, buf: seq<byte>)
    requires C.Sound(k)
    ensures var d := C.Decode(k, Some(maxBody), buf);
            C.Sound(d.kind) && (d.item.Chunk? ==> |d.rest| < |buf|)
  {
    hide C.Decode;
    C.DecodeExplained(k, Some(maxBody), buf);
  }
}
