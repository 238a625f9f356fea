/** The decoder as the codec writes it: a mutable state over a consumable buffer. */
module PayloadDecoder {
  import opened Bytes
  import C = PayloadCodec

  /** The readable bytes of a receive buffer; consuming takes them off the front. */
  class BytesMut {
    var data: seq<byte>

    constructor (data: seq<byte>)
      ensures this.data == data
    {
      this.data := data;
    }

    method Advance(n: nat)
      requires n <= |data|
      modifies this
      ensures data == old(data)[n..]
    {
      data := data[n..];
    }

    method SplitTo(n: nat) returns (front: seq<byte>)
      requires n <= |data|
      modifies this
      ensures front == old(data)[..n] && data == old(data)[n..]
    {
      front := data[..n];
      data := data[n..];
    }
  }

  datatype Poll = Pending | Rejected | Advanced

  class Decoder {
    var kind: C.Kind

    constructor Length(len: nat)
      ensures kind == C.Length(len)
    {
      kind := C.Length(len);
    }

    constructor Chunked()
      ensures kind == C.START
    {
      kind := C.START;
    }

    /** The decoder for a parsed head, or none if the request has no body. */
    static method FromParsed(chunked: bool, contentLength: Option<nat>) returns (d: Decoder?)
      ensures d == null <==> !chunked && (contentLength.None? || contentLength.value == 0)
      ensures d != null ==> fresh(d) && d.kind == if chunked then C.START else C.Length(contentLength.value)
    {
      d := null;
      if chunked {
        d := new Decoder.Chunked();
      } else if contentLength.Some? && 0 < contentLength.value {
        d := new Decoder.Length(contentLength.value);
      }
    }

    /** One transition: reads the byte or the chunk body the state asks for. */
    method Step(src: BytesMut) returns (poll: Poll, chunk: Option<seq<byte>>)
      requires kind.Chunked?
      modifies this, src
      ensures match C.Step(old(kind), old(src.data))
              case Pending => poll == Pending && kind == old(kind) && src.data == old(src.data)
              case Reject(rest) => poll == Rejected && kind == old(kind) && src.data == rest
              case Ready(next, rest, c) => poll == Advanced && kind == next && src.data == rest && chunk == c
    {
      chunk := None;
      if kind.state == C.End {
        return Advanced, None;
      }
      if src.data == [] {
        return Pending, None;
      }
      if kind.state == C.Body {
        var n := if kind.size > |src.data| then |src.data| else kind.size;
        var slice := src.SplitTo(n);
        kind := kind.(size := kind.size - n, state := if n < kind.size then C.Body else C.BodyCr);
        return Advanced, Some(slice);
      }
      var b := src.data[0];
      if kind.state == C.SizeStart && !C.IsHex(b) {
        return Rejected, None;
      }
      src.Advance(1);
      poll := ReadFraming(b);
    }

    /** What one byte outside the chunk data does to the state. */
    method ReadFraming(b: byte) returns (poll: Poll)
      requires kind.Chunked? && kind.state != C.Body && kind.state != C.End
      requires kind.state == C.SizeStart ==> C.IsHex(b)
      modifies this
      ensures match C.Step(old(kind), [b])
              case Ready(next, _, _) => poll == Advanced && kind == next
              case _ => poll == Rejected && kind == old(kind)
    {
      var next: C.ChunkedState;
      match kind.state {
      case SizeStart =>
        kind := kind.(state := C.Size, size := C.HexVal(b));
        return Advanced;
      case Size =>
        if C.IsHex(b) {
          var n := kind.size * 16 + C.HexVal(b);
          if n >= U64 {
            return Rejected;
          }
          kind := kind.(size := n);
          return Advanced;
        }
        if b == TAB || b == SP { next := C.SizeLws; }
        else if b == SEMI { next := C.Extension; }
        else if b == CR { next := C.SizeLf; }
        else { return Rejected; }
      case SizeLws =>
        if b == TAB || b == SP { next := C.SizeLws; }
        else if b == SEMI { next := C.Extension; }
        else if b == CR { next := C.SizeLf; }
        else { return Rejected; }
      case Extension =>
        if b == CR { next := C.SizeLf; }
        else if C.IsControl(b) { return Rejected; }
        else { next := C.Extension; }
      case SizeLf =>
        if b != LF { return Rejected; }
        next := if 0 < kind.size then C.Body else C.EndCr;
      case BodyCr =>
        if b != CR { return Rejected; }
        next := C.BodyLf;
      case BodyLf =>
        if b != LF { return Rejected; }
        next := C.SizeStart;
      case EndCr =>
        if b != CR { return Rejected; }
        next := C.EndLf;
      case EndLf =>
        if b != LF { return Rejected; }
        next := C.End;
      }
      kind := kind.(state := next);
      poll := Advanced;
    }

    /** The next payload item, taken off the front of `src`. */
    method Decode(src: BytesMut, maxBody: Option<nat>) returns (item: C.Item)
      requires C.Sound(kind)
      modifies this, src
      ensures var d := C.Decode(old(kind), maxBody, old(src.data));
              item == d.item && src.data == d.rest && kind == d.kind
    {
      if kind.Length? {
        if kind.remaining == 0 {
          return C.Eof;
        }
        if maxBody.Some? && kind.remaining > maxBody.value {
          return C.Error(C.BodyTooLarge);
        }
        if src.data == [] {
          return C.NeedMore;
        }
        var n := if kind.remaining > |src.data| then |src.data| else kind.remaining;
        var chunk := src.SplitTo(n);
        kind := C.Length(kind.remaining - n);
        return C.Chunk(chunk);
      }
      hide C.Step, C.Decode;
      while true
        invariant kind.Chunked? && C.Sound(kind)
        invariant C.Decode(kind, maxBody, src.data) == C.Decode(old(kind), maxBody, old(src.data))
        decreases |src.data|
      {
        C.DecodeUnfold(kind, maxBody, src.data);
        var poll, chunk := Step(src);
        if poll.Pending? {
          return C.NeedMore;
        }
        if poll.Rejected? {
          return C.Error(C.Invalid);
        }
        if kind.state == C.End {
          return C.Eof;
        }
        if chunk.Some? {
          kind := kind.(total := kind.total + |chunk.value|);
          if maxBody.Some? && kind.total > maxBody.value {
            return C.Error(C.BodyTooLarge);
          }
          return C.Chunk(chunk.value);
        }
        if src.data == [] {
          return C.NeedMore;
        }
      }
    }
  }

  lemma OneShotOf(buf: seq<byte>, maxBody: Option<nat>)
    ensures var whole := C.DriveAll(C.START, maxBody, buf);
            C.DecodeOneShot(buf, maxBody) ==
            match whole.end
            case Eof => C.Complete(whole.body, |buf| - |whole.rest|)
            case Error(e) => C.Failed(e)
            case _ => C.Incomplete
  {
    hide C.DriveAll;
  }

  /** Decodes a complete chunked body held in one buffer. */
  method DecodeChunkedWithLimit(buf: seq<byte>, maxBody: Option<nat>) returns (r: C.OneShot)
    ensures r == C.DecodeOneShot(buf, maxBody)
  {
    var decoder := new Decoder.Chunked();
    var src := new BytesMut(buf);
    var decoded: seq<byte> := [];
    hide C.Decode, C.DriveAll, C.DecodeOneShot, C.Iterations;
    OneShotOf(buf, maxBody);
    ghost var whole := C.DriveAll(C.START, maxBody, buf);
    while true
      invariant C.Sound(decoder.kind) && |src.data| <= |buf|
      invariant var left := C.DriveAll(decoder.kind, maxBody, src.data);
                whole.end == left.end && whole.body == decoded + left.body && whole.rest == left.rest
      decreases |src.data|
    {
      C.DriveUnfold(decoder.kind, maxBody, src.data);
      var item := decoder.Decode(src, maxBody);
      match item
      case Chunk(chunk) => decoded := decoded + chunk;
      case Eof =>
        return C.Complete(decoded, |buf| - |src.data|);
      case NeedMore =>
        return C.Incomplete;
      case Error(e) =>
        return C.Failed(e);
    }
  }
}
