/**
 Responses: what a client gets over one connection, whatever the interleaving of response events,
 short sends, completions and other connections.
 */
module Replies {
  import opened Bytes
  import opened Connection
  import opened ConnectionInvariant
  import opened EventLoopRun
  import opened EventLoopTheorems
  import opened Messages
  import R = ResponseStream
  import C = PayloadCodec
  import T = Text

  // ----- in order -----

  /**
   The socket has sent a prefix of the responses in request order, one after the other, the
   finished ones to their end: while a response is written, what was sent, the unwritten tail, and the queued data are all of it;
   between requests everything was sent. Every finished response is a beginning of the interim
   one followed by the events of a stream that ended well.
   */
  lemma ResponsesInOrder(cfg: Config, run: Run, k: nat, idx: nat)
    requires ValidConfig(cfg) && Possible(cfg, run) && k < |run.worlds| && idx in Slots(run.worlds[k])
    ensures var c := Slots(run.worlds[k])[idx];
            && |c.log.replies| == |c.log.past|
            && Spoken(c.log.replies) <= c.log.sent <= Spoken(c.log.replies) + ReplyBytes(c.log.reply)
            && (c.state == Writing ==>
                  c.log.sent + Tail(c.resp) + RxBytes(c.resp.rx) == Spoken(c.log.replies) + ReplyBytes(c.log.reply))
            && (c.state == Headers ==> c.log.sent == Spoken(c.log.replies))
            && (forall r :: r in c.log.replies ==> ReplyDone(r))
            && c.log.reply.interim <= CONTINUE_100
  {
    hide Possible, ValidConfig, Core, ReplyDone, Spoken, ReplyBytes;
    ReachedCore(cfg, run, k, idx);
    StreamOf(cfg, Slots(run.worlds[k])[idx]);
  }

  lemma StreamOf(cfg: Config, c: Conn)
    requires Core(cfg, c)
    ensures |c.log.replies| == |c.log.past|
    ensures Spoken(c.log.replies) <= c.log.sent <= Spoken(c.log.replies) + ReplyBytes(c.log.reply)
    ensures c.state == Writing ==>
              c.log.sent + Tail(c.resp) + RxBytes(c.resp.rx) == Spoken(c.log.replies) + ReplyBytes(c.log.reply)
    ensures c.state == Headers ==> c.log.sent == Spoken(c.log.replies)
    ensures (forall r :: r in c.log.replies ==> ReplyDone(r)) && c.log.reply.interim <= CONTINUE_100
  {
    hide Spoken, ReplyBytes, Tail, RxBytes, InputOk, PayloadOk, MemOk, ReplyDone;
    var all := Spoken(c.log.replies) + ReplyBytes(c.log.reply);
    match c.state {
      case Closed => assert (if c.writePending then c.log.sent + Tail(c.resp) else c.log.sent) <= all;
      case Writing =>
        assert c.log.sent + Tail(c.resp) + RxBytes(c.resp.rx) == all;
        assert c.log.sent == all[..|c.log.sent|];
      case Headers => assert c.log.sent + [] == c.log.sent;
      case Dispatching =>
        assert all == c.log.sent + RxBytes(c.resp.rx);
    }
  }

  // ----- the handler's data -----

  /** The bytes of a response body as its mode frames them. */
  function BodyBytes(p: R.Prepared, frames: seq<R.Frame>): seq<byte> {
    QueueBytes(if p.mode.NoBody? then [] else R.BodyData(p.mode, frames, 0))
  }

  /** A response whose events are those the producer makes of these frames. */
  predicate Produces(r: Reply, p: R.Prepared, frames: seq<R.Frame>) {
    r.final == Streamed(R.Produced(Some(p), frames))
  }

  /** Frames of a length that fits into 64 bits. */
  predicate Sized(frames: seq<R.Frame>) {
    forall f :: f in frames && f.DataFrame? ==> |f.data| < U64
  }

  /**
   The response is a beginning of the interim one, the head, and a body that carries exactly the
   handler's data: unbroken and decoding to it if chunked, cut into these segments; the data itself,
   at the declared length, if fixed; the data itself if the end of the connection ends it.
   */
  ghost predicate CarriesData(r: Reply, p: R.Prepared, frames: seq<R.Frame>, segments: seq<seq<byte>>) {
    var body := BodyBytes(p, frames);
    && r.interim <= CONTINUE_100 && ReplyBytes(r) == r.interim + p.head + body
    && (p.mode.ChunkedMode? && Flatten(segments) == body ==>
          var d := C.DriveSegments(C.START, None, [], segments);
          d.end == C.Eof && d.body == Flatten(R.DataOf(frames)) && d.rest == [])
    && (p.mode.Fixed? ==> body == Flatten(R.DataOf(frames)) && |body| == p.mode.expected)
    && (p.mode.CloseDelimited? ==> body == Flatten(R.DataOf(frames)))
    && (!p.mode.NoBody? ==> R.Unbroken(frames))
  }

  /** Every finished response on a connection, in every reachable state, carries its handler's data. */
  lemma FinishedCarriesData(cfg: Config, run: Run, k: nat, idx: nat, i: nat, p: R.Prepared, frames: seq<R.Frame>,
                            segments: seq<seq<byte>>)
    requires ValidConfig(cfg) && Possible(cfg, run) && k < |run.worlds| && idx in Slots(run.worlds[k])
    requires i < |Slots(run.worlds[k])[idx].log.replies|
    requires Produces(Slots(run.worlds[k])[idx].log.replies[i], p, frames) && Sized(frames)
    ensures CarriesData(Slots(run.worlds[k])[idx].log.replies[i], p, frames, segments)
  {
    hide Possible, ValidConfig, Spoken, Produces, ReplyBytes, CarriesData, Sized, EndsWell;
    ResponsesInOrder(cfg, run, k, idx);
    var r := Slots(run.worlds[k])[idx].log.replies[i];
    assert r in Slots(run.worlds[k])[idx].log.replies;
    assert ReplyDone(r);
    WholeCarries(r, p, frames, segments);
  }

  /** A response that was sent whole carries its handler's data. */
  lemma WholeCarries(r: Reply, p: R.Prepared, frames: seq<R.Frame>, segments: seq<seq<byte>>)
    requires r.interim <= CONTINUE_100 && Whole(r.final) && Produces(r, p, frames) && Sized(frames)
    ensures CarriesData(r, p, frames, segments)
  {
    ReplyParts(r, p, frames);
    WholeBody(r, p, frames);
    hide ReplyBytes, BodyBytes, Sized, Produces, Flatten, R.DataOf, R.Unbroken, C.DriveSegments;
    if p.mode.ChunkedMode? && Flatten(segments) == BodyBytes(p, frames) {
      ChunkedBody(p, frames, segments);
    }
  }

  lemma ReplyParts(r: Reply, p: R.Prepared, frames: seq<R.Frame>)
    requires Produces(r, p, frames)
    ensures ReplyBytes(r) == r.interim + p.head + BodyBytes(p, frames)
    ensures QueueBytes(R.Produced(Some(p), frames)) == p.head + BodyBytes(p, frames)
  {
    R.ProducedBytes(p, frames);
    hide R.Produced, R.BodyData, QueueBytes;
    assert r.interim + (p.head + BodyBytes(p, frames)) == r.interim + p.head + BodyBytes(p, frames);
  }

  /** Only a body that completes ends in the event that ends a stream well. */
  lemma WholeBody(r: Reply, p: R.Prepared, frames: seq<R.Frame>)
    requires Whole(r.final) && Produces(r, p, frames)
    ensures !p.mode.NoBody? ==> R.Unbroken(frames)
    ensures p.mode.Fixed? ==> BodyBytes(p, frames) == Flatten(R.DataOf(frames)) && |BodyBytes(p, frames)| == p.mode.expected
    ensures p.mode.CloseDelimited? ==> BodyBytes(p, frames) == Flatten(R.DataOf(frames))
  {
    WellMeansComplete(p, frames);
    match p.mode {
      case NoBody =>
      case Fixed(expected) => R.FixedBodyExact(expected, frames, 0);
      case ChunkedMode => R.ChunkedBytes(frames, 0);
      case CloseDelimited => RawBody(frames, 0);
    }
    hide R.BodyData, R.Completes, R.DataOf, R.Produced, QueueBytes, Flatten;
  }

  lemma WellMeansComplete(p: R.Prepared, frames: seq<R.Frame>)
    requires EndsWell(R.Produced(Some(p), frames))
    ensures p.mode.NoBody? || R.Completes(p.mode, frames, 0)
  {
    hide R.BodyData, R.Completes, R.Events, R.Pieces;
  }

  /** Bytes that the end of the connection delimits are the data itself. */
  lemma {:induction false} RawBody(frames: seq<R.Frame>, written: nat)
    ensures R.Completes(R.CloseDelimited, frames, written) == R.Unbroken(frames)
    ensures QueueBytes(R.BodyData(R.CloseDelimited, frames, written)) == Flatten(R.DataOf(frames))
    decreases |frames|
  {
    hide R.Pieces, R.Events, Flatten;
    if frames == [] {
      assert Flatten<byte>([]) == [] by { FlattenEmpty(); }
    } else {
      R.UnbrokenFirst(frames);
      hide R.Unbroken;
      if frames[0].DataFrame? && frames[0].data != [] {
        var data := frames[0].data;
        RawBody(frames[1..], written + |data|);
        R.TotalFirst(data, R.DataOf(frames[1..]));
        R.QueueOfBytes(data);
        R.QueueAppend(R.Events(R.Pieces(data)), R.BodyData(R.CloseDelimited, frames[1..], written + |data|));
      } else if !frames[0].Broken? {
        RawBody(frames[1..], written);
        assert [] + R.DataOf(frames[1..]) == R.DataOf(frames[1..]);
      } else {
        assert Flatten<byte>([]) == [] by { FlattenEmpty(); }
      }
    }
  }

  lemma ChunkedBody(p: R.Prepared, frames: seq<R.Frame>, segments: seq<seq<byte>>)
    requires p.mode.ChunkedMode? && R.Unbroken(frames) && Sized(frames) && Flatten(segments) == BodyBytes(p, frames)
    ensures var d := C.DriveSegments(C.START, None, [], segments);
            d.end == C.Eof && d.body == Flatten(R.DataOf(frames)) && d.rest == []
  {
    R.ProducedBytes(p, frames);
    hide R.Produced, R.BodyData, QueueBytes, Flatten, R.DataOf, C.DriveSegments, R.Unbroken;
    R.ChunkedResponseDecodes(p, frames, segments);
  }

  /**
   At any moment of any run: if the events emitted so far are a beginning of what the producer
   makes of these frames, the client has received a beginning of the whole responses so far,
   the interim one, the head and the body. As far as it decodes a chunked body it wants more or
   has exactly the handler's data; if the handler's body broke, it always wants more.
   */
  lemma ClientSeesBeginning(cfg: Config, run: Run, k: nat, idx: nat, p: R.Prepared, frames: seq<R.Frame>,
                            segments: seq<seq<byte>>)
    requires ValidConfig(cfg) && Possible(cfg, run) && k < |run.worlds| && idx in Slots(run.worlds[k])
    requires Slots(run.worlds[k])[idx].log.reply.final.Streamed?
    requires Slots(run.worlds[k])[idx].log.reply.final.events <= R.Produced(Some(p), frames) && Sized(frames)
    ensures var log := Slots(run.worlds[k])[idx].log;
            var before := Spoken(log.replies) + log.reply.interim + p.head;
            && log.sent <= before + BodyBytes(p, frames)
            && (p.mode.ChunkedMode? && log.sent == before + Flatten(segments) ==>
                  var d := C.DriveSegments(C.START, None, [], segments);
                  || d.end == C.NeedMore
                  || (R.Unbroken(frames) && d.end == C.Eof && d.body == Flatten(R.DataOf(frames)) && d.rest == []))
  {
    hide Possible, ValidConfig, Spoken, ReplyDone, ReplyBytes, BodyBytes, Sized, R.Produced, R.Unbroken, R.DataOf, Flatten,
         C.DriveSegments;
    ResponsesInOrder(cfg, run, k, idx);
    var log := Slots(run.worlds[k])[idx].log;
    var before, body := Spoken(log.replies) + log.reply.interim + p.head, BodyBytes(p, frames);
    SoFar(log.reply, p, frames);
    Longer(log.sent, Spoken(log.replies), ReplyBytes(log.reply), log.reply.interim + p.head + body);
    assert Spoken(log.replies) + (log.reply.interim + p.head + body) == before + body;
    if p.mode.ChunkedMode? && log.sent == before + Flatten(segments) {
      assert Flatten(segments) <= body by {
        assert (before + body)[|before|..] == body;
        assert (before + Flatten(segments))[|before|..] == Flatten(segments);
      }
      PartOfChunked(p, frames, segments);
    }
  }

  lemma Longer(sent: seq<byte>, before: seq<byte>, part: seq<byte>, whole: seq<byte>)
    requires sent <= before + part && part <= whole
    ensures sent <= before + whole
  {
    assert before + part <= before + whole;
  }

  lemma SoFar(r: Reply, p: R.Prepared, frames: seq<R.Frame>)
    requires r.final.Streamed? && r.final.events <= R.Produced(Some(p), frames)
    ensures ReplyBytes(r) <= r.interim + p.head + BodyBytes(p, frames)
  {
    hide R.Produced, R.BodyData, QueueBytes;
    var all := R.Produced(Some(p), frames);
    var rest := all[|r.final.events|..];
    assert all == r.final.events + rest;
    R.QueueAppend(r.final.events, rest);
    ReplyParts(Reply(r.interim, Streamed(all)), p, frames);
    assert r.interim + QueueBytes(r.final.events) <= r.interim + QueueBytes(all);
  }

  /** A beginning of a chunked body never decodes to anything but the whole. */
  lemma PartOfChunked(p: R.Prepared, frames: seq<R.Frame>, segments: seq<seq<byte>>)
    requires p.mode.ChunkedMode? && Sized(frames) && Flatten(segments) <= BodyBytes(p, frames)
    ensures var d := C.DriveSegments(C.START, None, [], segments);
            || d.end == C.NeedMore
            || (R.Unbroken(frames) && d.end == C.Eof && d.body == Flatten(R.DataOf(frames)) && d.rest == [])
  {
    hide R.BodyData, QueueBytes, Flatten, R.DataOf, C.DriveSegments, R.Unbroken, R.Produced;
    R.ProducedBytes(p, frames);
    if !R.Unbroken(frames) {
      assert p.head + Flatten(segments) <= p.head + BodyBytes(p, frames);
      R.BrokenResponseIncomplete(p, frames, segments);
    } else if Flatten(segments) == BodyBytes(p, frames) {
      ChunkedBody(p, frames, segments);
    } else {
      R.ChunkedBytes(frames, 0);
      R.DataSizes(frames);
      R.PartWantsMore(R.DataOf(frames), segments);
    }
  }

  // ----- whole messages -----

  /** A status line of HTTP/1.1 with any status but 100. */
  predicate IsFinal(bytes: seq<byte>) {
    && 12 <= |bytes| && bytes[..9] == CONTINUE_100[..9]
    && (forall i :: 9 <= i < 12 ==> 48 <= bytes[i] <= 57) && bytes[9..12] != CONTINUE_100[9..12]
  }

  predicate WholeInterim(interim: seq<byte>) {
    interim == [] || interim == CONTINUE_100
  }

  function Finals(replies: seq<Reply>): seq<seq<byte>> {
    if replies == [] then [] else [FinalBytes(replies[0].final)] + Finals(replies[1..])
  }

  /** For each final response the client reads at most one whole interim one and then it, and nothing is left. */
  predicate SplitsWhole(bytes: seq<byte>, finals: seq<seq<byte>>)
    decreases |finals|
  {
    if finals == [] then bytes == []
    else
      || (finals[0] <= bytes && SplitsWhole(bytes[|finals[0]|..], finals[1..]))
      || (CONTINUE_100 + finals[0] <= bytes && SplitsWhole(bytes[|CONTINUE_100 + finals[0]|..], finals[1..]))
  }

  /** The interim response, as text (section 15.2.1 of RFC 9110). */
  lemma InterimText()
    ensures CONTINUE_100 == T.Ascii("HTTP/1.1 100 Continue\r\n\r\n")
  {
  }

  /** In `100 Continue` there is one `H`, at the beginning. */
  lemma OneH()
    ensures CONTINUE_100[0] == 72 && |CONTINUE_100| == 25
    ensures forall i :: 0 < i < |CONTINUE_100| ==> CONTINUE_100[i] != 72
  {
  }

  lemma SameCode(a: seq<byte>, b: seq<byte>)
    requires a <= b && 12 <= |a|
    ensures a[9..12] == b[9..12]
  {
  }

  /** Behind a part of an interim response a final one does not read as its own beginning. */
  lemma Differs(interim: seq<byte>, final: seq<byte>, rest: seq<byte>)
    requires interim <= CONTINUE_100 && interim != [] && IsFinal(final)
    ensures !(final <= interim + final + rest)
  {
    OneH();
    var n, x := |interim|, interim + final + rest;
    assert x[n] == final[0] == final[..9][0] == 72;
    if n < 9 {
      assert final[n] == final[..9][n] == CONTINUE_100[n];
    } else if n >= 12 {
      assert x[9..12] == interim[9..12] == CONTINUE_100[9..12];
      if final <= x {
        SameCode(final, x);
        assert false;
      }
    }
  }

  /** The final response begins right away exactly if nothing of an interim one was sent. */
  lemma FinalFirst(interim: seq<byte>, final: seq<byte>, rest: seq<byte>)
    requires interim <= CONTINUE_100 && IsFinal(final)
    ensures final <= interim + final + rest <==> interim == []
  {
    if interim == [] {
      assert interim + final + rest == final + rest;
    } else {
      Differs(interim, final, rest);
    }
  }

  lemma InterimFirst(interim: seq<byte>, final: seq<byte>, rest: seq<byte>)
    requires interim <= CONTINUE_100 && IsFinal(final)
    ensures CONTINUE_100 + final <= interim + final + rest <==> interim == CONTINUE_100
  {
    OneH();
    var n, x, whole := |interim|, interim + final + rest, CONTINUE_100 + final;
    if n == 0 {
      assert x == final + rest && final[9..12] == x[9..12] && whole[9..12] == CONTINUE_100[9..12];
      if whole <= x {
        SameCode(whole, x);
        assert false;
      }
    } else if n < |CONTINUE_100| {
      assert x[n] == final[0] == final[..9][0] == 72 && whole[n] == CONTINUE_100[n];
    }
  }

  lemma {:induction false} SpokenFront(replies: seq<Reply>)
    requires replies != []
    ensures Spoken(replies) == ReplyBytes(replies[0]) + Spoken(replies[1..])
    decreases |replies|
  {
    hide ReplyBytes;
    var n := |replies| - 1;
    var init, last := replies[..n], replies[n];
    if n == 0 {
      assert init == [] && replies[1..] == [];
    } else {
      SpokenFront(init);
      assert replies[1..] == init[1..] + [last] && init[0] == replies[0];
      SpokenPush(init[1..], last);
      hide Spoken;
    }
  }

  /** All of the bytes are whole messages if and only if every interim response is there whole or not at all. */
  lemma {:induction false} WholeExactly(replies: seq<Reply>)
    requires forall r :: r in replies ==> r.interim <= CONTINUE_100 && IsFinal(FinalBytes(r.final))
    ensures SplitsWhole(Spoken(replies), Finals(replies)) <==> forall r :: r in replies ==> WholeInterim(r.interim)
    decreases |replies|
  {
    hide IsFinal, FinalBytes, Spoken;
    if replies == [] {
      NothingSpoken();
    } else {
      var r, tail := replies[0], replies[1..];
      assert r in replies && forall s :: s in replies <==> s == r || s in tail;
      SpokenFront(replies);
      WholeExactly(tail);
      var final, rest := FinalBytes(r.final), Spoken(tail);
      assert Spoken(replies) == r.interim + final + rest;
      OneWhole(r.interim, final, rest, Finals(tail));
      assert Finals(replies)[1..] == Finals(tail);
    }
  }

  lemma NothingSpoken()
    ensures Spoken([]) == []
  {
  }

  lemma OneWhole(interim: seq<byte>, final: seq<byte>, rest: seq<byte>, finals: seq<seq<byte>>)
    requires interim <= CONTINUE_100 && IsFinal(final)
    ensures SplitsWhole(interim + final + rest, [final] + finals) <==> WholeInterim(interim) && SplitsWhole(rest, finals)
  {
    FinalFirst(interim, final, rest);
    InterimFirst(interim, final, rest);
    hide IsFinal;
    var x, all := interim + final + rest, [final] + finals;
    assert all[1..] == finals;
    if interim == [] {
      assert x[|final|..] == rest;
    }
    if interim == CONTINUE_100 {
      assert x[|CONTINUE_100 + final|..] == rest;
    }
  }

  /**
   What a connection has sent, whenever it has sent all of its responses (with the current one or
   without): whole messages, if and only if every interim `100 Continue` was taken whole or not
   at all. The server does not finish one that the socket took in part.
   */
  lemma MessagesWhole(cfg: Config, run: Run, k: nat, idx: nat, replies: seq<Reply>)
    requires ValidConfig(cfg) && Possible(cfg, run) && k < |run.worlds| && idx in Slots(run.worlds[k])
    requires var log := Slots(run.worlds[k])[idx].log;
             && (replies == log.replies || replies == log.replies + [log.reply]) && log.sent == Spoken(replies)
    requires forall r :: r in replies ==> IsFinal(FinalBytes(r.final))
    ensures SplitsWhole(Slots(run.worlds[k])[idx].log.sent, Finals(replies)) <==>
            forall r :: r in replies ==> WholeInterim(r.interim)
  {
    hide Possible, ValidConfig, Spoken, ReplyBytes, FinalBytes, IsFinal, SplitsWhole, Finals;
    ResponsesInOrder(cfg, run, k, idx);
    var log := Slots(run.worlds[k])[idx].log;
    forall r | r in replies ensures r.interim <= CONTINUE_100 {
      if r in log.replies {
        assert ReplyDone(r);
      }
    }
    WholeExactly(replies);
  }

  /** After one byte of `100 Continue` no final response makes a whole message. */
  lemma OneByteInterim(final: seq<byte>)
    requires IsFinal(final)
    ensures !SplitsWhole([72] + final, [final])
  {
    var one: seq<byte> := [72];
    OneH();
    assert one <= CONTINUE_100;
    hide IsFinal;
    OneWhole(one, final, [], []);
    assert one + final + [] == one + final;
    assert [final] + [] == [final];
  }
}
