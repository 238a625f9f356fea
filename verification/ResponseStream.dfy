/**
 The producer that turns a handler's response into stream events: the head, then each body frame
 as the framing mode asks, cut into pieces for the channel, then one terminal event.
 */
module ResponseStream {
  import opened Bytes
  import opened PayloadCodec
  import opened PayloadDriving
  import opened ChunkedGrammar
  import opened ChunkEncoder
  import opened Connection
  import opened ConnectionInvariant

  const STREAM_CHUNK_SIZE: nat := 8 * 1024

  /** What polling the body yields; `Broken` is an error instead of a frame. */
  datatype Frame = DataFrame(data: seq<byte>) | Trailers | Broken

  datatype Mode = NoBody | Fixed(expected: nat) | ChunkedMode | CloseDelimited

  datatype Prepared = Prepared(head: seq<byte>, mode: Mode)

  // ----- what is produced -----

  function Pieces(data: seq<byte>): seq<seq<byte>>
    decreases |data|
  {
    if data == [] then []
    else if |data| <= STREAM_CHUNK_SIZE then [data]
    else [data[..STREAM_CHUNK_SIZE]] + Pieces(data[STREAM_CHUNK_SIZE..])
  }

  function Events(pieces: seq<seq<byte>>): (events: seq<StreamEvent>)
    ensures |events| == |pieces| && forall i :: 0 <= i < |pieces| ==> events[i] == Data(pieces[i])
  {
    seq(|pieces|, i requires 0 <= i < |pieces| => Data(pieces[i]))
  }

  function Framed(mode: Mode, data: seq<byte>): seq<byte> {
    if mode.ChunkedMode? then EncodeChunk(data) else data
  }

  predicate Exceeds(mode: Mode, written: nat) {
    mode.Fixed? && mode.expected < written
  }

  /** The data events of the body frames; `Broken` and an excess of a fixed body end them. */
  function BodyData(mode: Mode, frames: seq<Frame>, written: nat): seq<StreamEvent>
    decreases |frames|
  {
    if frames == [] then (if mode.ChunkedMode? then Events(Pieces(CHUNK_TERMINATOR)) else [])
    else
      match frames[0]
      case Broken => []
      case Trailers => BodyData(mode, frames[1..], written)
      case DataFrame(data) =>
        if data == [] then BodyData(mode, frames[1..], written)
        else if Exceeds(mode, written + |data|) then []
        else Events(Pieces(Framed(mode, data))) + BodyData(mode, frames[1..], written + |data|)
  }

  /** Whether the body ends well: no frame broke, and a fixed body has its declared length. */
  predicate Completes(mode: Mode, frames: seq<Frame>, written: nat)
    decreases |frames|
  {
    if frames == [] then mode.Fixed? ==> written == mode.expected
    else
      match frames[0]
      case Broken => false
      case Trailers => Completes(mode, frames[1..], written)
      case DataFrame(data) =>
        !Exceeds(mode, written + |data|) && Completes(mode, frames[1..], written + |data|)
  }

  function Terminal(completed: bool): StreamEvent {
    if completed then StreamDone else StreamError
  }

  /** All events of a response, if the connection reads them to the end. */
  function Produced(p: Option<Prepared>, frames: seq<Frame>): seq<StreamEvent> {
    if p.None? then [StreamError]
    else
      var mode := p.value.mode;
      Events(Pieces(p.value.head)) + (if mode.NoBody? then [] else BodyData(mode, frames, 0))
        + [Terminal(mode.NoBody? || Completes(mode, frames, 0))]
  }

  // ----- the producer as it runs -----

  /** The channel's sender; the receiver takes `room` more events before it goes away, if ever. */
  class EventSender {
    var events: seq<StreamEvent>
    var room: Option<nat>

    constructor (limit: Option<nat>)
      ensures events == [] && room == limit
    {
      events, room := [], limit;
    }

    method Send(ev: StreamEvent) returns (ok: bool)
      modifies this
      ensures ok == (old(room) != Some(0))
      ensures events == old(events) + (if ok then [ev] else [])
      ensures room == if old(room).Some? && old(room).value > 0 then Some(old(room).value - 1) else old(room)
    {
      ok := room != Some(0);
      if ok {
        events := events + [ev];
        if room.Some? {
          room := Some(room.value - 1);
        }
      }
    }
  }

  /** What of `events` goes through while the receiver is there. */
  function Through(events: seq<StreamEvent>, room: Option<nat>): seq<StreamEvent> {
    if room.Some? && room.value < |events| then events[..room.value] else events
  }

  function Left(events: seq<StreamEvent>, room: Option<nat>): Option<nat> {
    if room.None? then None else if room.value < |events| then Some(0) else Some(room.value - |events|)
  }

  /** Every event went through. */
  predicate Fits(events: seq<StreamEvent>, room: Option<nat>) {
    room.Some? ==> |events| <= room.value
  }

  /** `tx` was offered these events, one by one, until the first that was refused. */
  twostate predicate Offered(tx: EventSender, events: seq<StreamEvent>)
    reads tx
  {
    tx.events == old(tx.events) + Through(events, old(tx.room)) && tx.room == Left(events, old(tx.room))
  }

  lemma ThroughAppend(a: seq<StreamEvent>, b: seq<StreamEvent>, room: Option<nat>)
    requires Fits(a, room)
    ensures Through(a + b, room) == a + Through(b, Left(a, room))
    ensures Left(a + b, room) == Left(b, Left(a, room))
    ensures Fits(a + b, room) == Fits(b, Left(a, room))
    ensures Through(a, room) == a
    ensures forall before :: before + (a + Through(b, Left(a, room))) == before + a + Through(b, Left(a, room))
  {
    if room.Some? && room.value < |a + b| {
      assert (a + b)[..room.value] == a + b[..room.value - |a|];
    }
  }

  /** Nothing more goes through once an event was refused. */
  lemma ThroughFull(a: seq<StreamEvent>, b: seq<StreamEvent>, room: Option<nat>)
    requires !Fits(a, room)
    ensures Through(a + b, room) == Through(a, room) && Left(a + b, room) == Left(a, room) == Some(0)
    ensures Through(b, Some(0)) == [] && !Fits(a + b, room)
  {
    assert (a + b)[..room.value] == a[..room.value];
  }

  lemma EventsCons(piece: seq<byte>, pieces: seq<seq<byte>>)
    ensures Events([piece] + pieces) == [Data(piece)] + Events(pieces)
  {
  }

  lemma EventsOfFirst(data: seq<byte>)
    requires data != []
    ensures var n := Min(|data|, STREAM_CHUNK_SIZE);
            Events(Pieces(data)) == [Data(data[..n])] + Events(Pieces(data[n..]))
  {
    var n := Min(|data|, STREAM_CHUNK_SIZE);
    if n == |data| {
      assert data[n..] == [] && data[..n] == data;
      assert [data] + [] == [data];
    }
    assert Pieces(data) == [data[..n]] + Pieces(data[n..]);
    hide Pieces, Events;
    EventsCons(data[..n], Pieces(data[n..]));
  }

  lemma NoEvents(room: Option<nat>)
    ensures Through([], room) == [] && Fits([], room) && Left([], room) == room && Events(Pieces([])) == []
  {
  }

  /** Bytes go out in pieces of at most 8 KiB, until the receiver is gone. */
  method SendResponseBytes(tx: EventSender, data: seq<byte>) returns (ok: bool)
    modifies tx
    ensures ok == Fits(Events(Pieces(data)), old(tx.room))
    ensures Offered(tx, Events(Pieces(data)))
  {
    hide Pieces, Events;
    var rest := data;
    ghost var all := Events(Pieces(data));
    NoEvents(old(tx.room));
    assert [] + all == all;
    ghost var sent: seq<StreamEvent> := [];
    while rest != []
      invariant all == sent + Events(Pieces(rest)) && Fits(sent, old(tx.room))
      invariant Offered(tx, sent)
      decreases |rest|
    {
      EventsOfFirst(rest);
      var n := Min(|rest|, STREAM_CHUNK_SIZE);
      var next := rest[..n];
      ghost var tail := Events(Pieces(rest[n..]));
      ghost var one := [Data(next)];
      assert all == (sent + one) + tail;
      ThroughAppend(sent, one, old(tx.room));
      var delivered := tx.Send(Data(next));
      if !delivered {
        ThroughFull(sent + one, tail, old(tx.room));
        return false;
      }
      sent := sent + one;
      rest := rest[n..];
    }
    assert sent + [] == sent;
    return true;
  }

  /** A loop over frames: `done` went through, and `rest` is what the remaining frames give. */
  lemma Onward(done: seq<StreamEvent>, next: seq<StreamEvent>, rest: seq<StreamEvent>, room: Option<nat>)
    requires Fits(done, room)
    ensures Through(done, room) == done
    ensures forall before :: before + (done + Through(next, Left(done, room))) == before + done + Through(next, Left(done, room))
    ensures done + (next + rest) == (done + next) + rest
    ensures Through(done + next, room) == done + Through(next, Left(done, room))
    ensures Left(done + next, room) == Left(next, Left(done, room))
    ensures Fits(done + next, room) == Fits(next, Left(done, room))
    ensures !Fits(done + next, room) ==>
              Through(done + (next + rest), room) == Through(done + next, room) && !Fits(done + (next + rest), room)
              && Left(done + (next + rest), room) == Left(done + next, room)
  {
    ThroughAppend(done, next, room);
    assert done + (next + rest) == (done + next) + rest;
    if !Fits(done + next, room) {
      ThroughFull(done + next, rest, room);
    }
  }

  lemma FitsNothing(room: Option<nat>)
    ensures Fits([], room) && Through([], room) == [] && Left([], room) == room
    ensures forall events :: events + Through([], room) == events
  {
  }

  lemma Unfold(mode: Mode, frames: seq<Frame>, i: nat, written: nat)
    requires i <= |frames|
    ensures var rest := frames[i..];
            if i == |frames| then
              && BodyData(mode, rest, written) == (if mode.ChunkedMode? then Events(Pieces(CHUNK_TERMINATOR)) else [])
              && Completes(mode, rest, written) == (mode.Fixed? ==> written == mode.expected)
            else if frames[i].Broken? then BodyData(mode, rest, written) == [] && !Completes(mode, rest, written)
            else if frames[i].Trailers? || frames[i].data == [] then
              && BodyData(mode, rest, written) == BodyData(mode, frames[i + 1..], written)
              && (!Exceeds(mode, written) ==> Completes(mode, rest, written) == Completes(mode, frames[i + 1..], written))
            else
              var data := frames[i].data;
              if Exceeds(mode, written + |data|) then BodyData(mode, rest, written) == [] && !Completes(mode, rest, written)
              else
                && BodyData(mode, rest, written) == Events(Pieces(Framed(mode, data))) + BodyData(mode, frames[i + 1..], written + |data|)
                && Completes(mode, rest, written) == Completes(mode, frames[i + 1..], written + |data|)
  {
    hide Pieces, Events, Framed;
    if i < |frames| {
      assert frames[i..][1..] == frames[i + 1..];
    }
  }

  /** The chunked body: each non-empty frame is one chunk, and the terminator ends it. */
  method SendChunked(tx: EventSender, frames: seq<Frame>) returns (ok: bool)
    modifies tx
    ensures Offered(tx, BodyData(ChunkedMode, frames, 0))
    ensures ok == (Fits(BodyData(ChunkedMode, frames, 0), old(tx.room)) ==> Completes(ChunkedMode, frames, 0))
  {
    hide BodyData, Completes, Pieces, Events, Through, Left, Fits;
    var i := 0;
    ghost var written: nat := 0;
    ghost var done: seq<StreamEvent> := [];
    ghost var all := BodyData(ChunkedMode, frames, 0);
    assert frames[0..] == frames;
    FitsNothing(old(tx.room));
    assert [] + all == all;
    while i < |frames|
      invariant 0 <= i <= |frames| && Fits(done, old(tx.room)) && Offered(tx, done)
      invariant all == done + BodyData(ChunkedMode, frames[i..], written)
      invariant Completes(ChunkedMode, frames, 0) == Completes(ChunkedMode, frames[i..], written)
    {
      Unfold(ChunkedMode, frames, i, written);
      if frames[i].Broken? {
        assert done + [] == done;
        return false;
      }
      if frames[i].DataFrame? && frames[i].data != [] {
        var data := frames[i].data;
        ghost var next := Events(Pieces(EncodeChunk(data)));
        Onward(done, next, BodyData(ChunkedMode, frames[i + 1..], written + |data|), old(tx.room));
        var sent := SendResponseBytes(tx, EncodeChunk(data));
        if !sent {
          return true;
        }
        done, written := done + next, written + |data|;
      }
      i := i + 1;
    }
    Unfold(ChunkedMode, frames, i, written);
    ghost var last := Events(Pieces(CHUNK_TERMINATOR));
    Onward(done, last, [], old(tx.room));
    assert last + [] == last;
    var _ := SendResponseBytes(tx, CHUNK_TERMINATOR);
    return true;
  }

  /** A fixed body: bytes beyond the declared length are an error before they are sent. */
  method SendFixed(tx: EventSender, frames: seq<Frame>, expected: nat) returns (ok: bool)
    modifies tx
    ensures Offered(tx, BodyData(Fixed(expected), frames, 0))
    ensures ok == (Fits(BodyData(Fixed(expected), frames, 0), old(tx.room)) ==> Completes(Fixed(expected), frames, 0))
  {
    hide BodyData, Completes, Pieces, Events, Through, Left, Fits;
    var i, written: nat := 0, 0;
    ghost var done: seq<StreamEvent> := [];
    ghost var mode := Fixed(expected);
    ghost var all := BodyData(mode, frames, 0);
    assert frames[0..] == frames;
    FitsNothing(old(tx.room));
    assert [] + all == all;
    while i < |frames|
      invariant 0 <= i <= |frames| && Fits(done, old(tx.room)) && Offered(tx, done)
      invariant all == done + BodyData(mode, frames[i..], written)
      invariant Completes(mode, frames, 0) == Completes(mode, frames[i..], written)
      invariant written <= expected
    {
      Unfold(mode, frames, i, written);
      if frames[i].Broken? {
        assert done + [] == done;
        return false;
      }
      if frames[i].DataFrame? && frames[i].data != [] {
        var data := frames[i].data;
        if expected < written + |data| {
          assert done + [] == done;
          return false;
        }
        ghost var next := Events(Pieces(data));
        Onward(done, next, BodyData(mode, frames[i + 1..], written + |data|), old(tx.room));
        var sent := SendResponseBytes(tx, data);
        written := written + |data|;
        if !sent {
          return true;
        }
        done := done + next;
      }
      i := i + 1;
    }
    Unfold(mode, frames, i, written);
    assert done + [] == done;
    return written == expected;
  }

  /** Raw bytes; closing the connection ends the body. */
  method SendRaw(tx: EventSender, frames: seq<Frame>) returns (ok: bool)
    modifies tx
    ensures Offered(tx, BodyData(CloseDelimited, frames, 0))
    ensures ok == (Fits(BodyData(CloseDelimited, frames, 0), old(tx.room)) ==> Completes(CloseDelimited, frames, 0))
  {
    hide BodyData, Completes, Pieces, Events, Through, Left, Fits;
    var i := 0;
    ghost var written: nat := 0;
    ghost var done: seq<StreamEvent> := [];
    ghost var all := BodyData(CloseDelimited, frames, 0);
    assert frames[0..] == frames;
    FitsNothing(old(tx.room));
    assert [] + all == all;
    while i < |frames|
      invariant 0 <= i <= |frames| && Fits(done, old(tx.room)) && Offered(tx, done)
      invariant all == done + BodyData(CloseDelimited, frames[i..], written)
      invariant Completes(CloseDelimited, frames, 0) == Completes(CloseDelimited, frames[i..], written)
    {
      Unfold(CloseDelimited, frames, i, written);
      if frames[i].Broken? {
        assert done + [] == done;
        return false;
      }
      if frames[i].DataFrame? && frames[i].data != [] {
        var data := frames[i].data;
        ghost var next := Events(Pieces(data));
        Onward(done, next, BodyData(CloseDelimited, frames[i + 1..], written + |data|), old(tx.room));
        var sent := SendResponseBytes(tx, data);
        if !sent {
          return true;
        }
        done, written := done + next, written + |data|;
      }
      i := i + 1;
    }
    Unfold(CloseDelimited, frames, i, written);
    assert done + [] == done;
    return true;
  }

  method StreamResponseInner(tx: EventSender, p: Option<Prepared>, frames: seq<Frame>) returns (ok: bool)
    modifies tx
    ensures var all := Produced(p, frames);
            var data := all[..|all| - 1];
            && Offered(tx, data)
            && ok == (Fits(data, old(tx.room)) ==> all[|all| - 1] == StreamDone)
  {
    hide BodyData, Completes, Pieces, Events, Through, Left, Fits;
    if p.None? {
      FitsNothing(tx.room);
      assert tx.events + [] == tx.events && [StreamError][..0] == [];
      return false;
    }
    ghost var head := Events(Pieces(p.value.head));
    ghost var body := if p.value.mode.NoBody? then [] else BodyData(p.value.mode, frames, 0);
    ghost var all := Produced(p, frames);
    assert all[..|all| - 1] == head + body;
    ok := SendResponseBytes(tx, p.value.head);
    if !ok {
      ThroughFull(head, body, old(tx.room));
      return true;
    }
    ThroughAppend(head, body, old(tx.room));
    FitsNothing(tx.room);
    match p.value.mode {
      case NoBody => ok := true; assert tx.events + [] == tx.events;
      case Fixed(expected) => ok := SendFixed(tx, frames, expected);
      case ChunkedMode => ok := SendChunked(tx, frames);
      case CloseDelimited => ok := SendRaw(tx, frames);
    }
  }

  /** The whole producer: whatever the receiver still takes is a prefix of what is produced. */
  method StreamResponse(tx: EventSender, p: Option<Prepared>, frames: seq<Frame>)
    modifies tx
    ensures tx.events == old(tx.events) + Through(Produced(p, frames), old(tx.room))
  {
    ghost var all := Produced(p, frames);
    ghost var data, last := all[..|all| - 1], [all[|all| - 1]];
    assert all == data + last;
    var completed := StreamResponseInner(tx, p, frames);
    ghost var room := tx.room;
    if Fits(data, old(tx.room)) {
      ThroughAppend(data, last, old(tx.room));
    } else {
      ThroughFull(data, last, old(tx.room));
    }
    var _ := tx.Send(Terminal(completed));
  }

  // ----- what a client sees -----

  lemma {:induction false} PiecesWhole(data: seq<byte>)
    ensures Flatten(Pieces(data)) == data
    ensures forall i :: 0 <= i < |Pieces(data)| ==> if i < |Pieces(data)| - 1 then |Pieces(data)[i]| == 8192 else 0 < |Pieces(data)[i]| <= 8192
    decreases |data|
  {
    if |data| > STREAM_CHUNK_SIZE {
      PiecesWhole(data[STREAM_CHUNK_SIZE..]);
      var rest := Pieces(data[STREAM_CHUNK_SIZE..]);
      assert Pieces(data)[1..] == rest && rest != [];
      assert forall i :: 0 < i < |Pieces(data)| ==> Pieces(data)[i] == rest[i - 1];
      assert data[..STREAM_CHUNK_SIZE] + data[STREAM_CHUNK_SIZE..] == data;
    } else if data != [] {
      assert Flatten([data]) == data + Flatten<byte>([]);
    }
  }

  lemma {:induction false} QueueOfEvents(pieces: seq<seq<byte>>)
    ensures QueueBytes(Events(pieces)) == Flatten(pieces)
    decreases |pieces|
  {
    if pieces != [] {
      assert Events(pieces)[1..] == Events(pieces[1..]);
      QueueOfEvents(pieces[1..]);
    }
  }

  lemma {:induction false} QueueAppend(a: seq<StreamEvent>, b: seq<StreamEvent>)
    ensures QueueBytes(a + b) == QueueBytes(a) + QueueBytes(b)
    decreases |a|
  {
    if a == [] {
      assert a + b == b;
    } else {
      assert (a + b)[0] == a[0] && (a + b)[1..] == a[1..] + b;
      QueueAppend(a[1..], b);
    }
  }

  lemma QueueOfBytes(data: seq<byte>)
    ensures QueueBytes(Events(Pieces(data))) == data
  {
    hide Pieces, Events;
    PiecesWhole(data);
    QueueOfEvents(Pieces(data));
  }

  /** The non-empty data before the body breaks, if it does. */
  function DataOf(frames: seq<Frame>): seq<seq<byte>>
    decreases |frames|
  {
    if frames == [] || frames[0].Broken? then []
    else (if frames[0].DataFrame? && frames[0].data != [] then [frames[0].data] else []) + DataOf(frames[1..])
  }

  predicate Unbroken(frames: seq<Frame>) {
    forall f :: f in frames ==> !f.Broken?
  }

  lemma UnbrokenFirst(frames: seq<Frame>)
    requires frames != []
    ensures Unbroken(frames) <==> !frames[0].Broken? && Unbroken(frames[1..])
  {
    assert frames == [frames[0]] + frames[1..];
  }

  lemma {:induction false} ChunkedBytes(frames: seq<Frame>, written: nat)
    ensures Completes(ChunkedMode, frames, written) == Unbroken(frames)
    ensures QueueBytes(BodyData(ChunkedMode, frames, written)) ==
            EncodeAll(DataOf(frames)) + (if Unbroken(frames) then CHUNK_TERMINATOR else [])
    decreases |frames|
  {
    hide Pieces, Events, EncodeChunk;
    if frames == [] {
      QueueOfBytes(CHUNK_TERMINATOR);
      assert [] + CHUNK_TERMINATOR == CHUNK_TERMINATOR;
    } else if !frames[0].Broken? {
      var n := if frames[0].DataFrame? then |frames[0].data| else 0;
      ChunkedBytes(frames[1..], written + n);
      ChunkedBytes(frames[1..], written);
      assert Unbroken(frames) == Unbroken(frames[1..]) by {
        assert frames == [frames[0]] + frames[1..];
      }
      if n > 0 {
        ChunkStep(frames, written);
      } else {
        assert [] + DataOf(frames[1..]) == DataOf(frames[1..]);
      }
    }
  }

  lemma ChunkStep(frames: seq<Frame>, written: nat)
    requires frames != [] && frames[0].DataFrame? && frames[0].data != []
    requires QueueBytes(BodyData(ChunkedMode, frames[1..], written + |frames[0].data|)) ==
             EncodeAll(DataOf(frames[1..])) + (if Unbroken(frames[1..]) then CHUNK_TERMINATOR else [])
    ensures QueueBytes(BodyData(ChunkedMode, frames, written)) ==
            EncodeAll(DataOf(frames)) + (if Unbroken(frames[1..]) then CHUNK_TERMINATOR else [])
  {
    hide BodyData, QueueBytes, DataOf, EncodeAll, EncodeChunk, Unbroken;
    var data := frames[0].data;
    ChunkNext(frames, written);
    DataFirst(frames);
    EncodeFirst(data, DataOf(frames[1..]));
  }

  lemma ChunkNext(frames: seq<Frame>, written: nat)
    requires frames != [] && frames[0].DataFrame? && frames[0].data != []
    ensures var data := frames[0].data;
            QueueBytes(BodyData(ChunkedMode, frames, written)) ==
            EncodeChunk(data) + QueueBytes(BodyData(ChunkedMode, frames[1..], written + |data|))
  {
    hide Pieces, Events, EncodeChunk, QueueBytes;
    var data := frames[0].data;
    QueueOfBytes(EncodeChunk(data));
    QueueAppend(Events(Pieces(EncodeChunk(data))), BodyData(ChunkedMode, frames[1..], written + |data|));
  }

  lemma DataFirst(frames: seq<Frame>)
    requires frames != [] && frames[0].DataFrame? && frames[0].data != []
    ensures DataOf(frames) == [frames[0].data] + DataOf(frames[1..])
  {
  }

  lemma EncodeFirst(data: seq<byte>, parts: seq<seq<byte>>)
    ensures EncodeAll([data] + parts) == EncodeChunk(data) + EncodeAll(parts)
  {
    hide EncodeChunk;
    assert ([data] + parts)[1..] == parts;
  }

  lemma ProducedBytes(p: Prepared, frames: seq<Frame>)
    ensures var all := Produced(Some(p), frames);
            QueueBytes(all) == p.head + QueueBytes(if p.mode.NoBody? then [] else BodyData(p.mode, frames, 0))
  {
    hide Pieces, Events, BodyData, Completes;
    var head := Events(Pieces(p.head));
    var body := if p.mode.NoBody? then [] else BodyData(p.mode, frames, 0);
    var last := [Terminal(p.mode.NoBody? || Completes(p.mode, frames, 0))];
    QueueOfBytes(p.head);
    QueueAppend(head + body, last);
    QueueAppend(head, body);
    assert QueueBytes(last) == [];
  }

  /**
   A chunked response that ends well decodes, on the client's side and however it is cut into
   segments, to the concatenation of the handler's frames, and leaves nothing.
   */
  lemma ChunkedResponseDecodes(p: Prepared, frames: seq<Frame>, segments: seq<seq<byte>>)
    requires p.mode == ChunkedMode && Unbroken(frames)
    requires forall f :: f in frames && f.DataFrame? ==> |f.data| < U64
    requires p.head + Flatten(segments) == QueueBytes(Produced(Some(p), frames))
    ensures var all := Produced(Some(p), frames);
            && all[|all| - 1] == StreamDone
            && var r := DriveSegments(START, None, [], segments);
               r.end == Eof && r.body == Flatten(DataOf(frames)) && r.rest == []
  {
    hide Pieces, Events, EncodeAll, Flatten, BodyData, Completes, DriveSegments, QueueBytes, Unbroken;
    ProducedBytes(p, frames);
    ChunkedBytes(frames, 0);
    DataSizes(frames);
    var wire := EncodeAll(DataOf(frames)) + CHUNK_TERMINATOR;
    assert Flatten(segments) == (p.head + Flatten(segments))[|p.head|..] == (p.head + wire)[|p.head|..] == wire;
    assert wire + [] == wire;
    DecodeUndoesEncode(DataOf(frames), None, [], segments);
  }

  lemma {:induction false} DataSizes(frames: seq<Frame>)
    requires forall f :: f in frames && f.DataFrame? ==> |f.data| < U64
    ensures forall d :: d in DataOf(frames) ==> |d| < U64
    decreases |frames|
  {
    if frames != [] && !frames[0].Broken? {
      assert frames[0] in frames && forall f :: f in frames[1..] ==> f in frames;
      DataSizes(frames[1..]);
    }
  }

  /**
   A chunked response that breaks ends in an error event, and nothing a client can have
   received of it looks complete: any part of the bytes leaves the decoder wanting more.
   */
  lemma BrokenResponseIncomplete(p: Prepared, frames: seq<Frame>, segments: seq<seq<byte>>)
    requires p.mode == ChunkedMode && !Unbroken(frames)
    requires forall f :: f in frames && f.DataFrame? ==> |f.data| < U64
    requires p.head + Flatten(segments) <= QueueBytes(Produced(Some(p), frames))
    ensures var all := Produced(Some(p), frames);
            all[|all| - 1] == StreamError && DriveSegments(START, None, [], segments).end == NeedMore
  {
    hide Pieces, Events, EncodeAll, Flatten, BodyData, Completes, DriveSegments, QueueBytes, Unbroken;
    ProducedBytes(p, frames);
    ChunkedBytes(frames, 0);
    DataSizes(frames);
    var part := EncodeAll(DataOf(frames));
    assert p.head + (part + []) == p.head + part;
    assert Flatten(segments) <= part by {
      assert Flatten(segments) == (p.head + Flatten(segments))[|p.head|..];
      assert part == (p.head + part)[|p.head|..];
    }
    PrefixWantsMore(DataOf(frames), segments);
  }

  /** Short of its terminator a chunked body wants more. */
  lemma PartWantsMore(parts: seq<seq<byte>>, segments: seq<seq<byte>>)
    requires forall d :: d in parts ==> |d| < U64
    requires var whole := EncodeAll(parts) + CHUNK_TERMINATOR; Flatten(segments) <= whole && Flatten(segments) != whole
    ensures DriveSegments(START, None, [], segments).end == NeedMore
  {
    EncodedInLanguage(parts);
    var whole := EncodeAll(parts) + CHUNK_TERMINATOR;
    hide *;
    WholeRuns(whole, Flatten(parts));
    PrefixRuns(whole, Flatten(parts), Flatten(segments));
    SplitInvariance(START, None, segments);
  }

  lemma PrefixWantsMore(parts: seq<seq<byte>>, segments: seq<seq<byte>>)
    requires forall d :: d in parts ==> |d| < U64
    requires Flatten(segments) <= EncodeAll(parts)
    ensures DriveSegments(START, None, [], segments).end == NeedMore
  {
    hide EncodeAll, Flatten, DriveSegments;
    PartWantsMore(parts, segments);
  }

  /** Before its end a chunked body always wants more. */
  lemma PrefixRuns(whole: seq<byte>, data: seq<byte>, cut: seq<byte>)
    requires Run(START, None, whole) == RunResult(Done, |whole|, data) && cut <= whole && |cut| < |whole|
    ensures DriveAll(START, None, cut).end == NeedMore
  {
    hide Run, DriveAll;
    var rest := whole[|cut|..];
    assert cut + rest == whole;
    RunsOn(cut, rest, RunResult(Done, |whole|, data));
    CutDriveMore(cut, rest, data);
  }

  lemma RunsOn(cut: seq<byte>, rest: seq<byte>, whole: RunResult)
    requires Run(START, None, cut + rest) == whole
    ensures Run(START, None, cut).verdict.More? || Run(START, None, cut) == whole
  {
    hide Run;
    RunAppend(START, None, cut, rest);
  }

  lemma WholeRuns(whole: seq<byte>, data: seq<byte>)
    requires InLanguage(whole, data)
    ensures Run(START, None, whole) == RunResult(Done, |whole|, data)
  {
    hide InLanguage, Run;
    assert whole[..|whole|] == whole;
    GrammarExact(whole, None, |whole|, data);
  }

  lemma CutDriveMore(cut: seq<byte>, rest: seq<byte>, data: seq<byte>)
    requires var run := Run(START, None, cut);
             run.verdict.More? || run == RunResult(Done, |cut + rest|, data)
    requires rest != []
    ensures DriveAll(START, None, cut).end == NeedMore
  {
    hide DriveAll, Run;
    DriveExplained(START, None, cut);
  }

  // ----- a fixed body -----

  function Total(parts: seq<seq<byte>>): nat {
    |Flatten(parts)|
  }

  lemma TotalFirst(data: seq<byte>, parts: seq<seq<byte>>)
    ensures Flatten([data] + parts) == data + Flatten(parts) && Total([data] + parts) == |data| + Total(parts)
  {
    assert ([data] + parts)[1..] == parts;
  }

  /** A frame without data changes nothing. */
  lemma SkipNext(mode: Mode, frames: seq<Frame>, written: nat)
    requires frames != [] && !frames[0].Broken? && !(frames[0].DataFrame? && frames[0].data != []) && !Exceeds(mode, written)
    ensures BodyData(mode, frames, written) == BodyData(mode, frames[1..], written)
    ensures Completes(mode, frames, written) == Completes(mode, frames[1..], written)
    ensures DataOf(frames) == DataOf(frames[1..])
  {
    hide Pieces, Events;
  }

  lemma DataNext(frames: seq<Frame>)
    requires frames != [] && frames[0].DataFrame? && frames[0].data != []
    ensures Flatten(DataOf(frames)) == frames[0].data + Flatten(DataOf(frames[1..]))
    ensures Total(DataOf(frames)) == |frames[0].data| + Total(DataOf(frames[1..]))
  {
    TotalFirst(frames[0].data, DataOf(frames[1..]));
    hide Flatten;
  }

  /** A body that breaks at its first frame has no data, one without frames is complete as it is. */
  lemma NothingNext(mode: Mode, frames: seq<Frame>, written: nat)
    requires (frames == [] || frames[0].Broken?) && !mode.ChunkedMode?
    ensures QueueBytes(BodyData(mode, frames, written)) == [] && Flatten(DataOf(frames)) == []
    ensures Completes(mode, frames, written) <==> Unbroken(frames) && (mode.Fixed? ==> written == mode.expected)
    ensures Unbroken(frames) <==> frames == []
  {
    hide Pieces, Events;
    if frames != [] {
      UnbrokenFirst(frames);
    }
  }

  lemma RawNext(frames: seq<Frame>, written: nat)
    requires frames != [] && frames[0].DataFrame? && frames[0].data != []
    ensures var data, m := frames[0].data, CloseDelimited;
            && QueueBytes(BodyData(m, frames, written)) == data + QueueBytes(BodyData(m, frames[1..], written + |data|))
            && Completes(m, frames, written) == Completes(m, frames[1..], written + |data|)
  {
    hide Pieces, Events, QueueBytes;
    var data := frames[0].data;
    QueueOfBytes(data);
    QueueAppend(Events(Pieces(data)), BodyData(CloseDelimited, frames[1..], written + |data|));
  }

  /** One frame of data: offered if it fits, and then followed by the rest. */
  lemma FixedNext(expected: nat, frames: seq<Frame>, written: nat)
    requires frames != [] && frames[0].DataFrame? && frames[0].data != []
    ensures var data, m := frames[0].data, Fixed(expected);
            if written + |data| <= expected then
              && QueueBytes(BodyData(m, frames, written)) == data + QueueBytes(BodyData(m, frames[1..], written + |data|))
              && Completes(m, frames, written) == Completes(m, frames[1..], written + |data|)
            else QueueBytes(BodyData(m, frames, written)) == [] && !Completes(m, frames, written)
  {
    hide Pieces, Events;
    var data := frames[0].data;
    if written + |data| <= expected {
      QueueOfBytes(data);
      QueueAppend(Events(Pieces(data)), BodyData(Fixed(expected), frames[1..], written + |data|));
    }
  }

  /**
   A fixed body never sends a byte beyond its declared length, and it ends well exactly when
   no frame breaks and the data is as long as declared.
   */
  lemma {:induction false} FixedBodyExact(expected: nat, frames: seq<Frame>, written: nat)
    requires written <= expected
    ensures |QueueBytes(BodyData(Fixed(expected), frames, written))| <= expected - written
    ensures Completes(Fixed(expected), frames, written) <==>
              Unbroken(frames) && written + Total(DataOf(frames)) == expected
    ensures Completes(Fixed(expected), frames, written) ==>
              QueueBytes(BodyData(Fixed(expected), frames, written)) == Flatten(DataOf(frames))
    decreases |frames|
  {
    hide BodyData, Completes, DataOf, QueueBytes, Flatten, Unbroken;
    if frames == [] || frames[0].Broken? {
      NothingNext(Fixed(expected), frames, written);
    } else {
      UnbrokenFirst(frames);
      if frames[0].DataFrame? && frames[0].data != [] {
        DataNext(frames);
        FixedNext(expected, frames, written);
        if written + |frames[0].data| <= expected {
          FixedBodyExact(expected, frames[1..], written + |frames[0].data|);
        }
      } else {
        SkipNext(Fixed(expected), frames, written);
        FixedBodyExact(expected, frames[1..], written);
      }
    }
  }

  /** A close-delimited body is its data as it is, up to where it breaks. */
  lemma {:induction false} RawBytes(frames: seq<Frame>, written: nat)
    ensures Completes(CloseDelimited, frames, written) == Unbroken(frames)
    ensures QueueBytes(BodyData(CloseDelimited, frames, written)) == Flatten(DataOf(frames))
    decreases |frames|
  {
    hide BodyData, Completes, DataOf, QueueBytes, Flatten, Unbroken;
    if frames == [] || frames[0].Broken? {
      NothingNext(CloseDelimited, frames, written);
    } else {
      UnbrokenFirst(frames);
      if frames[0].DataFrame? && frames[0].data != [] {
        DataNext(frames);
        RawNext(frames, written);
        RawBytes(frames[1..], written + |frames[0].data|);
      } else {
        SkipNext(CloseDelimited, frames, written);
        RawBytes(frames[1..], written);
      }
    }
  }

  /**
   What goes out for a response that ends well: its head, and then no body, the data in chunks with
   the last chunk behind them, or the data as it is. It ends well exactly if it has no body, or if the
   body does not break and is as long as declared if it declares a length.
   */
  lemma ProducedExact(p: Prepared, frames: seq<Frame>)
    ensures var all, data := Produced(Some(p), frames), DataOf(frames);
            && all != []
            && (all[|all| - 1] == StreamDone <==>
                  p.mode.NoBody? || (Unbroken(frames) && (p.mode.Fixed? ==> |Flatten(data)| == p.mode.expected)))
            && (all[|all| - 1] == StreamDone ==>
                  QueueBytes(all) == p.head + match p.mode
                                              case NoBody => []
                                              case ChunkedMode => EncodeAll(data) + [48, 13, 10, 13, 10]
                                              case _ => Flatten(data))
  {
    ProducedBytes(p, frames);
    match p.mode
    case NoBody =>
    case Fixed(expected) => FixedBodyExact(expected, frames, 0);
    case ChunkedMode => ChunkedBytes(frames, 0);
    case CloseDelimited => RawBytes(frames, 0);
    hide Pieces, Events, BodyData, Completes, EncodeAll, QueueBytes, DataOf, Unbroken, Flatten;
  }

  /** Only the last event of a response is terminal, and no data event is empty or over 8 KiB. */
  lemma ProducedShape(p: Option<Prepared>, frames: seq<Frame>)
    ensures var all := Produced(p, frames);
            && all != [] && !all[|all| - 1].Data?
            && forall i :: 0 <= i < |all| - 1 ==> all[i].Data? && 0 < |all[i].bytes| <= 8192
  {
    if p.Some? {
      var head := Events(Pieces(p.value.head));
      var body := if p.value.mode.NoBody? then [] else BodyData(p.value.mode, frames, 0);
      PiecesShape(p.value.head);
      if !p.value.mode.NoBody? {
        BodyShape(p.value.mode, frames, 0);
      }
      hide Pieces, Events, BodyData, Completes;
      var all := Produced(p, frames);
      assert all[..|all| - 1] == head + body;
    }
  }

  predicate SmallData(events: seq<StreamEvent>) {
    forall e :: e in events ==> e.Data? && 0 < |e.bytes| <= 8192
  }

  lemma PiecesShape(data: seq<byte>)
    ensures SmallData(Events(Pieces(data)))
  {
    PiecesWhole(data);
    hide Pieces;
  }

  lemma {:induction false} BodyShape(mode: Mode, frames: seq<Frame>, written: nat)
    ensures SmallData(BodyData(mode, frames, written))
    decreases |frames|
  {
    hide Pieces, Events, Framed;
    PiecesShape(CHUNK_TERMINATOR);
    if frames != [] {
      if frames[0].DataFrame? && frames[0].data != [] {
        PiecesShape(Framed(mode, frames[0].data));
        BodyShape(mode, frames[1..], written + |frames[0].data|);
      } else {
        BodyShape(mode, frames[1..], written);
      }
    }
  }
}
