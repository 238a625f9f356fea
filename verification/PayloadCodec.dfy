/**
 The request-payload decoder of the HTTP/1.1 codec: its state, one state-machine
 step, one `decode` call, and the loop a caller drives it with. Beside them stands
 `Run`, a reference that reads one byte at a time and knows nothing of buffers;
 the lemmas show that every `decode` call agrees with `Run`.
 */
module PayloadCodec {
  import opened Bytes

  datatype ChunkedState =
    | SizeStart | Size | SizeLws | Extension | SizeLf
    | Body | BodyCr | BodyLf | EndCr | EndLf | End

  /** `Chunked` holds the state, what is left of the current chunk, and the bytes decoded so far. */
  datatype Kind =
    | Length(remaining: nat)
    | Chunked(state: ChunkedState, size: nat, total: nat)

  datatype CodecError = Invalid | BodyTooLarge

  const START: Kind := Chunked(SizeStart, 0, 0)

  /** What every decoder built by the constructors and by `decode` satisfies. */
  predicate Sound(k: Kind) {
    k.Chunked? && k.state == Body ==> 0 < k.size
  }

  predicate AtEof(k: Kind) {
    k == Length(0) || (k.Chunked? && k.state == End)
  }

  predicate Within(limit: Option<nat>, n: nat) {
    limit.None? || n <= limit.value
  }

  predicate IsDigit(b: byte) {
    48 <= b <= 57
  }

  predicate IsHex(b: byte) {
    IsDigit(b) || 97 <= b <= 102 || 65 <= b <= 70
  }

  function HexVal(b: byte): (v: nat)
    requires IsHex(b)
    ensures v < 16
  {
    if b <= 57 then b - 48 else if 97 <= b then b - 87 else b - 55
  }

  predicate IsControl(b: byte) {
    b <= 8 || 10 <= b <= 31 || b == 127
  }

  // ----- one transition of the state machine -----

  datatype StepResult =
    | Pending
    | Reject(rest: seq<byte>)
    | Ready(kind: Kind, rest: seq<byte>, chunk: Option<seq<byte>>)

  /** A hex digit extends the size unless that would overflow a `u64`. */
  function SizeDigit(k: Kind, b: byte, rest: seq<byte>): StepResult
    requires k.Chunked? && IsHex(b)
  {
    var n := k.size * 16 + HexVal(b);
    if n < U64 then Ready(k.(state := Size, size := n), rest, None) else Reject(rest)
  }

  function Expect(k: Kind, src: seq<byte>, b: byte, next: ChunkedState): StepResult
    requires k.Chunked? && src != []
  {
    if src[0] == b then Ready(k.(state := next), src[1..], None) else Reject(src[1..])
  }

  /** `ChunkedState::step`: reads at most one byte, or all it can of a chunk body. */
  function Step(k: Kind, src: seq<byte>): StepResult
    requires k.Chunked?
  {
    if k.state == End then Ready(k, src, None)
    else if src == [] then Pending
    else
      var b, rest := src[0], src[1..];
      match k.state
      case SizeStart => if IsHex(b) then SizeDigit(k.(size := 0), b, rest) else Reject(src)
      case Size =>
        if IsHex(b) then SizeDigit(k, b, rest)
        else if b == TAB || b == SP then Ready(k.(state := SizeLws), rest, None)
        else if b == SEMI then Ready(k.(state := Extension), rest, None)
        else if b == CR then Ready(k.(state := SizeLf), rest, None)
        else Reject(rest)
      case SizeLws =>
        if b == TAB || b == SP then Ready(k, rest, None)
        else if b == SEMI then Ready(k.(state := Extension), rest, None)
        else if b == CR then Ready(k.(state := SizeLf), rest, None)
        else Reject(rest)
      case Extension =>
        if b == CR then Ready(k.(state := SizeLf), rest, None)
        else if IsControl(b) then Reject(rest)
        else Ready(k, rest, None)
      case SizeLf =>
        if b == LF then Ready(k.(state := if 0 < k.size then Body else EndCr), rest, None) else Reject(rest)
      case Body =>
        var n := Min(k.size, |src|);
        Ready(k.(state := if n < k.size then Body else BodyCr, size := k.size - n), src[n..], Some(src[..n]))
      case BodyCr => Expect(k, src, CR, BodyLf)
      case BodyLf => Expect(k, src, LF, SizeStart)
      case EndCr => Expect(k, src, CR, EndLf)
      case EndLf => Expect(k, src, LF, End)
      case End => Pending
  }

  /** A step takes bytes off the front only; one that makes no progress ends a call. */
  lemma StepShape(k: Kind, src: seq<byte>)
    requires k.Chunked? && Sound(k)
    ensures var r := Step(k, src);
            && (r.Reject? ==> |r.rest| <= |src| && r.rest == src[|src| - |r.rest|..])
            && (r.Ready? ==> r.kind.Chunked? && Sound(r.kind) && |r.rest| <= |src| && r.rest == src[|src| - |r.rest|..])
            && (r.Ready? && r.kind.state != End ==> |r.rest| < |src|)
            && (r.Ready? && r.chunk.Some? ==> r.chunk.value != [])
  {
  }

  // ----- one call of `decode` -----

  datatype Item =
    | Chunk(data: seq<byte>)
    | Eof
    | NeedMore
    | Error(error: CodecError)

  datatype Decoded = Decoded(item: Item, kind: Kind, rest: seq<byte>)

  function DecodeLength(k: Kind, limit: Option<nat>, src: seq<byte>): Decoded
    requires k.Length?
  {
    if k.remaining == 0 then Decoded(Eof, k, src)
    else if !Within(limit, k.remaining) then Decoded(Error(BodyTooLarge), k, src)
    else if src == [] then Decoded(NeedMore, k, src)
    else
      var n := Min(k.remaining, |src|);
      Decoded(Chunk(src[..n]), Length(k.remaining - n), src[n..])
  }

  /** `PayloadDecoder::decode` as a function of the decoder and the buffer. */
  function Decode(k: Kind, limit: Option<nat>, src: seq<byte>): (d: Decoded)
    requires Sound(k)
    ensures Sound(d.kind) && |d.rest| <= |src| && d.rest == src[|src| - |d.rest|..]
    ensures d.item.Chunk? ==> d.item.data != [] && |d.rest| < |src|
    decreases |src|
  {
    if k.Length? then DecodeLength(k, limit, src)
    else
      StepShape(k, src);
      match Step(k, src)
      case Pending => Decoded(NeedMore, k, src)
      case Reject(rest) => Decoded(Error(Invalid), k, rest)
      case Ready(next, rest, chunk) =>
        if next.state == End then Decoded(Eof, next, rest)
        else if chunk.Some? then
          var counted := next.(total := next.total + |chunk.value|);
          if Within(limit, counted.total) then Decoded(Chunk(chunk.value), counted, rest)
          else Decoded(Error(BodyTooLarge), counted, rest)
        else if rest == [] then Decoded(NeedMore, next, rest)
        else Decode(next, limit, rest)
  }

  /** How often the loop inside one `decode` call goes round. */
  function Iterations(k: Kind, limit: Option<nat>, src: seq<byte>): (n: nat)
    requires Sound(k)
    ensures n <= |src| - |Decode(k, limit, src).rest| + 1
    decreases |src|
  {
    if k.Length? then 1
    else
      match Step(k, src)
      case Ready(next, rest, chunk) =>
        if next.state == End || chunk.Some? || rest == [] then 1 else 1 + Iterations(next, limit, rest)
      case _ => 1
  }

  // ----- a caller's loop -----

  /** How a drive ended, what it delivered, and where decoder and buffer stand. */
  datatype Drive = Drive(end: Item, body: seq<byte>, kind: Kind, rest: seq<byte>, calls: nat, iterations: nat)

  lemma SuffixThen(s: seq<byte>, t: seq<byte>, u: seq<byte>)
    requires |t| <= |s| && t == s[|s| - |t|..] && |u| <= |t| && u == t[|t| - |u|..]
    ensures u == s[|s| - |u|..]
  {
  }

  /** Calls `decode` until it returns something other than a chunk. */
  function DriveAll(k: Kind, limit: Option<nat>, src: seq<byte>): (r: Drive)
    requires Sound(k)
    ensures !r.end.Chunk? && Sound(r.kind) && |r.rest| <= |src| && r.rest == src[|src| - |r.rest|..]
    ensures r.iterations <= |src| - |r.rest| + r.calls
    decreases |src|
  {
    var d := Decode(k, limit, src);
    var n := Iterations(k, limit, src);
    if d.item.Chunk? then
      var r := DriveAll(d.kind, limit, d.rest);
      SuffixThen(src, d.rest, r.rest);
      Drive(r.end, d.item.data + r.body, r.kind, r.rest, 1 + r.calls, n + r.iterations)
    else Drive(d.item, [], d.kind, d.rest, 1, n)
  }

  /** Feeds receive segments one by one, driving the decoder dry after each. */
  function DriveSegments(k: Kind, limit: Option<nat>, kept: seq<byte>, segments: seq<seq<byte>>): (r: Drive)
    requires Sound(k)
    decreases |segments|
  {
    var first := DriveAll(k, limit, kept);
    if first.end.NeedMore? && segments != [] then
      var r := DriveSegments(first.kind, limit, first.rest + segments[0], segments[1..]);
      r.(body := first.body + r.body, calls := first.calls + r.calls, iterations := first.iterations + r.iterations)
    else first.(rest := first.rest + Flatten(segments))
  }

  /** `decode_chunked_with_limit`: `Ok(Some(body, consumed))`, `Ok(None)` or an error. */
  datatype OneShot = Complete(body: seq<byte>, consumed: nat) | Incomplete | Failed(error: CodecError)

  function DecodeOneShot(buf: seq<byte>, limit: Option<nat>): OneShot {
    var r := DriveAll(START, limit, buf);
    match r.end
    case Eof => Complete(r.body, |buf| - |r.rest|)
    case Error(e) => Failed(e)
    case _ => Incomplete
  }

  /** One turn of the loop inside `decode`. */
  lemma DecodeUnfold(k: Kind, limit: Option<nat>, src: seq<byte>)
    requires k.Chunked? && Sound(k)
    ensures Step(k, src).Pending? ==> Decode(k, limit, src) == Decoded(NeedMore, k, src)
    ensures Step(k, src).Reject? ==> Decode(k, limit, src) == Decoded(Error(Invalid), k, Step(k, src).rest)
    ensures Step(k, src).Ready? ==>
      var step, d := Step(k, src), Decode(k, limit, src);
      && step.kind.Chunked? && Sound(step.kind)
      && (step.kind.state == End ==> d == Decoded(Eof, step.kind, step.rest))
      && (step.kind.state != End && step.chunk.Some? ==>
            var total := step.kind.total + |step.chunk.value|;
            && d.item == (if Within(limit, total) then Chunk(step.chunk.value) else Error(BodyTooLarge))
            && d.kind == step.kind.(total := total) && d.rest == step.rest)
      && (step.kind.state != End && step.chunk.None? && step.rest == [] ==> d == Decoded(NeedMore, step.kind, []))
      && (step.kind.state != End && step.chunk.None? && step.rest != [] ==>
            |step.rest| < |src| && d == Decode(step.kind, limit, step.rest))
  {
  }

  /** One turn of a caller's loop. */
  lemma DriveUnfold(k: Kind, limit: Option<nat>, src: seq<byte>)
    requires Sound(k)
    ensures var d, r := Decode(k, limit, src), DriveAll(k, limit, src);
            if d.item.Chunk? then
              var next := DriveAll(d.kind, limit, d.rest);
              r.end == next.end && r.rest == next.rest && r.body == d.item.data + next.body && r.kind == next.kind
            else r.end == d.item && r.rest == d.rest && r.body == [] && r.kind == d.kind
  {
    hide Decode, Iterations;
  }

  // ----- the byte-at-a-time reference -----

  datatype Verdict = Done | More(kind: Kind) | Bad(error: CodecError)
  datatype RunResult = RunResult(verdict: Verdict, consumed: nat, body: seq<byte>)

  datatype ByteStep = Next(kind: Kind, out: seq<byte>) | Fail(error: CodecError, eaten: nat)

  function ReadByte(k: Kind, limit: Option<nat>, b: byte): (r: ByteStep)
    requires Sound(k) && !AtEof(k)
    ensures if r.Next? then Sound(r.kind) && |r.out| <= 1 else r.eaten <= 1
  {
    if k.Length? then Next(Length(k.remaining - 1), [b])
    else if k.state == Body then
      if Within(limit, k.total + 1) then
        Next(Chunked(if k.size == 1 then BodyCr else Body, k.size - 1, k.total + 1), [b])
      else Fail(BodyTooLarge, 1)
    else
      match Step(k, [b])
      case Ready(next, _, _) => Next(next, [])
      case Reject(rest) => Fail(Invalid, 1 - |rest|)
      case Pending => Fail(Invalid, 0)
  }

  function Run(k: Kind, limit: Option<nat>, s: seq<byte>): (r: RunResult)
    requires Sound(k)
    ensures r.consumed <= |s|
    ensures r.verdict.More? ==> r.consumed == |s| && Sound(r.verdict.kind) && !AtEof(r.verdict.kind)
    decreases |s|
  {
    if AtEof(k) then RunResult(Done, 0, [])
    else if k.Length? && !Within(limit, k.remaining) then RunResult(Bad(BodyTooLarge), 0, [])
    else if s == [] then RunResult(More(k), 0, [])
    else
      match ReadByte(k, limit, s[0])
      case Fail(e, n) => RunResult(Bad(e), n, [])
      case Next(next, out) => After(1, out, Run(next, limit, s[1..]))
  }

  function After(n: nat, out: seq<byte>, r: RunResult): RunResult {
    RunResult(r.verdict, n + r.consumed, out + r.body)
  }

  lemma {:induction false} RunAppend(k: Kind, limit: Option<nat>, s: seq<byte>, t: seq<byte>)
    requires Sound(k)
    ensures var r := Run(k, limit, s);
            Run(k, limit, s + t) == if r.verdict.More? then After(|s|, r.body, Run(r.verdict.kind, limit, t)) else r
    decreases |s|
  {
    hide ReadByte;
    if s == [] {
      assert s + t == t;
      var r := Run(k, limit, t);
      assert After(0, [], r) == r by { assert [] + r.body == r.body; }
    } else if AtEof(k) || (k.Length? && !Within(limit, k.remaining)) {
    } else {
      assert (s + t)[0] == s[0] && (s + t)[1..] == s[1..] + t;
      match ReadByte(k, limit, s[0])
      case Fail(_, _) =>
      case Next(next, out) =>
        RunAppend(next, limit, s[1..], t);
        var r := Run(next, limit, s[1..]);
        if r.verdict.More? {
          var u := Run(r.verdict.kind, limit, t);
          assert out + (r.body + u.body) == (out + r.body) + u.body;
        }
    }
  }

  /** The bytes of a chunk body or of a fixed-length body, read one at a time. */
  lemma {:induction false} RunData(k: Kind, limit: Option<nat>, data: seq<byte>)
    requires Sound(k) && !AtEof(k) && 0 < |data|
    requires k.Length? ==> |data| <= k.remaining && Within(limit, k.remaining)
    requires k.Chunked? ==> k.state == Body && |data| <= k.size
    ensures k.Length? && |data| < k.remaining ==>
      Run(k, limit, data) == RunResult(More(Length(k.remaining - |data|)), |data|, data)
    ensures k.Length? && |data| == k.remaining ==> Run(k, limit, data) == RunResult(Done, |data|, data)
    ensures k.Chunked? && Within(limit, k.total + |data|) ==>
      var next := Chunked(if |data| < k.size then Body else BodyCr, k.size - |data|, k.total + |data|);
      Run(k, limit, data) == RunResult(More(next), |data|, data)
    ensures k.Chunked? && !Within(limit, k.total + |data|) ==> Run(k, limit, data).verdict == Bad(BodyTooLarge)
    decreases |data|
  {
    assert data == [data[0]] + data[1..];
    match ReadByte(k, limit, data[0])
    case Fail(_, _) =>
    case Next(next, out) =>
      if |data| > 1 {
        RunData(next, limit, data[1..]);
      }
  }

  // ----- `decode` against the reference -----

  /** The reference's verdict for a decoder that has read everything so far. */
  function Standing(k: Kind): Verdict {
    if AtEof(k) then Done else More(k)
  }

  /** What one `decode` call did, in the reference's terms. */
  ghost predicate Explains(k: Kind, limit: Option<nat>, src: seq<byte>, d: Decoded)
    requires Sound(k) && |d.rest| <= |src|
  {
    var n := |src| - |d.rest|;
    match d.item
    case Error(Invalid) => Run(k, limit, src) == RunResult(Bad(Invalid), n, [])
    case Error(BodyTooLarge) => Run(k, limit, src).verdict == Bad(BodyTooLarge) && Run(k, limit, src).consumed <= n
    case Chunk(data) => Run(k, limit, src[..n]) == RunResult(Standing(d.kind), n, data)
    case Eof => AtEof(d.kind) && Run(k, limit, src[..n]) == RunResult(Done, n, [])
    case NeedMore => n == |src| && !AtEof(d.kind) && Run(k, limit, src) == RunResult(More(d.kind), n, [])
  }

  lemma RunDone(k: Kind, limit: Option<nat>, s: seq<byte>)
    requires AtEof(k)
    ensures Sound(k) && Run(k, limit, s) == RunResult(Done, 0, [])
  {
  }

  lemma LengthExplained(k: Kind, limit: Option<nat>, src: seq<byte>)
    requires k.Length? && !AtEof(k) && src != [] && Within(limit, k.remaining)
    ensures Explains(k, limit, src, Decode(k, limit, src))
  {
    var n := Min(k.remaining, |src|);
    assert Decode(k, limit, src) == Decoded(Chunk(src[..n]), Length(k.remaining - n), src[n..]);
    RunData(k, limit, src[..n]);
    hide Run, Decode;
  }

  /** Chunk data taken in one piece is what the reference reads byte by byte. */
  lemma BodyExplained(k: Kind, limit: Option<nat>, src: seq<byte>)
    requires Sound(k) && k.Chunked? && k.state == Body && src != []
    ensures Explains(k, limit, src, Decode(k, limit, src))
  {
    var n := Min(k.size, |src|);
    var next := Chunked(if n < k.size then Body else BodyCr, k.size - n, k.total + n);
    assert Decode(k, limit, src) ==
           Decoded(if Within(limit, k.total + n) then Chunk(src[..n]) else Error(BodyTooLarge), next, src[n..]);
    BodyRun(k, limit, src, n, next);
    hide Run, Decode, Step;
  }

  lemma BodyRun(k: Kind, limit: Option<nat>, src: seq<byte>, n: nat, next: Kind)
    requires Sound(k) && k.Chunked? && k.state == Body && 0 < n <= Min(k.size, |src|)
    requires next == Chunked(if n < k.size then Body else BodyCr, k.size - n, k.total + n)
    ensures if Within(limit, k.total + n) then Run(k, limit, src[..n]) == RunResult(More(next), n, src[..n])
            else Run(k, limit, src).verdict == Bad(BodyTooLarge) && Run(k, limit, src).consumed <= n
  {
    hide Run;
    RunData(k, limit, src[..n]);
    RunAppend(k, limit, src[..n], src[n..]);
    assert src == src[..n] + src[n..];
  }

  /** A framing byte is read alike by `Step` on the buffer and by the reference. */
  lemma ControlByte(k: Kind, limit: Option<nat>, src: seq<byte>)
    requires k.Chunked? && k.state != Body && k.state != End && src != []
    ensures var step := Step(k, src);
            match ReadByte(k, limit, src[0])
            case Next(next, out) => out == [] && next.Chunked? && step == Ready(next, src[1..], None)
            case Fail(e, n) => e == Invalid && step == Reject(src[n..])
  {
    assert [src[0]][1..] == [];
    assert src[0..] == src;
  }

  lemma {:induction false} DecodeExplained(k: Kind, limit: Option<nat>, src: seq<byte>)
    requires Sound(k)
    ensures Explains(k, limit, src, Decode(k, limit, src))
    decreases |src|
  {
    if AtEof(k) || (k.Length? && !Within(limit, k.remaining)) || src == [] {
    } else if k.Length? {
      LengthExplained(k, limit, src);
    } else if k.state == Body {
      BodyExplained(k, limit, src);
    } else {
      ControlExplained(k, limit, src);
    }
  }

  lemma {:induction false} ControlExplained(k: Kind, limit: Option<nat>, src: seq<byte>)
    requires k.Chunked? && k.state != Body && k.state != End && src != []
    ensures Explains(k, limit, src, Decode(k, limit, src))
    decreases |src|, 0
  {
    ControlByte(k, limit, src);
    DecodeUnfold(k, limit, src);
    hide Step, ReadByte, Explains, Run, Decode;
    match ReadByte(k, limit, src[0])
    case Fail(e, n) => ControlEnds(k, limit, src, Decoded(Error(e), k, src[n..]));
    case Next(next, _) =>
      var rest := src[1..];
      if next.state == End {
        ControlEnds(k, limit, src, Decoded(Eof, next, rest));
      } else if rest == [] {
        ControlEnds(k, limit, src, Decoded(NeedMore, next, rest));
      } else {
        DecodeExplained(next, limit, rest);
        StepForward(k, limit, src, next, Decode(next, limit, rest));
      }
  }

  lemma ControlEnds(k: Kind, limit: Option<nat>, src: seq<byte>, d: Decoded)
    requires k.Chunked? && k.state != Body && k.state != End && src != []
    requires match ReadByte(k, limit, src[0])
             case Fail(e, n) => e == Invalid && d == Decoded(Error(e), k, src[n..])
             case Next(next, out) =>
               && out == [] && next.Chunked?
               && (next.state == End || src[1..] == [])
               && d == Decoded(if next.state == End then Eof else NeedMore, next, src[1..])
    ensures |d.rest| <= |src| && Explains(k, limit, src, d)
  {
    hide ReadByte;
    match ReadByte(k, limit, src[0])
    case Fail(_, _) =>
    case Next(next, _) =>
      assert src[..1][1..] == [] && src[..1][0] == src[0];
      assert src[1..] == [] ==> src[..1] == src;
      assert Run(k, limit, src[..1]) == After(1, [], Run(next, limit, []));
  }

  /** Prefixing a framing byte to an explained call explains the longer call. */
  lemma StepForward(k: Kind, limit: Option<nat>, src: seq<byte>, next: Kind, d: Decoded)
    requires k.Chunked? && k.state != Body && k.state != End && src != []
    requires ReadByte(k, limit, src[0]) == Next(next, []) && next.Chunked?
    requires |d.rest| < |src| && Explains(next, limit, src[1..], d)
    ensures Explains(k, limit, src, d)
  {
    hide ReadByte;
    var n := |src| - 1 - |d.rest|;
    assert src[..n + 1][1..] == src[1..][..n];
    assert src[..n + 1][0] == src[0];
    assert Run(k, limit, src) == After(1, [], Run(next, limit, src[1..]));
    assert Run(k, limit, src[..n + 1]) == After(1, [], Run(next, limit, src[1..][..n]));
  }
}
