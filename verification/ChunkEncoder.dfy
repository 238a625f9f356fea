/** The chunk encoder, and the proof that the decoder undoes it. */
module ChunkEncoder {
  import opened Bytes
  import opened PayloadCodec
  import opened PayloadDriving
  import opened ChunkedGrammar
  import T = Text

  /** The last chunk of a body and its final line end: `0 CR LF CR LF`. */
  const CHUNK_TERMINATOR: seq<byte> := [48, CR, LF, CR, LF]

  function HexDigit(v: nat): (b: byte)
    requires v < 16
    ensures IsHex(b) && HexVal(b) == v
  {
    if v < 10 then 48 + v else 87 + v
  }

  /** Lower-case hex without leading zeros. */
  function HexPrint(n: nat): (digits: seq<byte>)
    ensures digits != [] && forall d :: d in digits ==> IsHex(d)
  {
    if n < 16 then [HexDigit(n)] else HexPrint(n / 16) + [HexDigit(n % 16)]
  }

  /** The alphabet the encoder writes. */
  lemma DigitExact(v: nat)
    requires v < 16
    ensures HexDigit(v) == T.Ascii("0123456789abcdef")[v]
  {
  }

  /** The alphabet the decoder reads: either case, and nothing else. */
  lemma HexExact(b: byte, v: nat)
    requires v < 16
    ensures (IsHex(b) && HexVal(b) == v) <==> b == T.Ascii("0123456789abcdef")[v] || b == T.Ascii("0123456789ABCDEF")[v]
  {
    assert T.Ascii("0123456789abcdef")[v] == if v < 10 then 48 + v else 87 + v;
    assert T.Ascii("0123456789ABCDEF")[v] == if v < 10 then 48 + v else 55 + v;
    hide T.Ascii;
  }

  /** The bytes that frame a body, as text, and what an extension may hold. */
  lemma FramingText()
    ensures CRLF == T.Ascii("\r\n") && [TAB, SP, SEMI] == T.Ascii("\t ;") && CHUNK_TERMINATOR == T.Ascii("0\r\n\r\n")
    ensures forall ext :: Printable(ext) <==> forall b :: b in ext ==> b == 9 || (32 <= b && b != 127)
  {
  }

  lemma {:induction false} NoLeadingZero(n: nat)
    ensures 0 < n ==> HexPrint(n)[0] != 48
    ensures n == 0 ==> HexPrint(n) == [48]
  {
    if 16 <= n {
      NoLeadingZero(n / 16);
    }
  }

  lemma {:induction false} HexFoldPush(v: nat, digits: seq<byte>, d: byte)
    requires (forall e :: e in digits ==> IsHex(e)) && IsHex(d)
    ensures HexFold(v, digits + [d]) == HexFold(v, digits) * 16 + HexVal(d)
    decreases |digits|
  {
    if digits != [] {
      assert (digits + [d])[0] == digits[0] && (digits + [d])[1..] == digits[1..] + [d];
      HexFoldPush(v * 16 + HexVal(digits[0]), digits[1..], d);
    } else {
      assert ([] + [d])[1..] == [];
    }
  }

  /** Printing a number in hex and reading it back gives the number. */
  lemma {:induction false} HexRoundTrip(n: nat)
    ensures HexFold(0, HexPrint(n)) == n
  {
    if n < 16 {
      assert [HexDigit(n)][1..] == [];
    } else {
      HexRoundTrip(n / 16);
      HexFoldPush(0, HexPrint(n / 16), HexDigit(n % 16));
    }
  }

  /** `encode_chunk`: empty data writes nothing, since a zero-size chunk would end the body. */
  function EncodeChunk(data: seq<byte>): (out: seq<byte>)
    ensures out == [] <==> data == []
  {
    if data == [] then [] else HexPrint(|data|) + CRLF + data + CRLF
  }

  function EncodeAll(parts: seq<seq<byte>>): (out: seq<byte>)
  {
    if parts == [] then [] else EncodeChunk(parts[0]) + EncodeAll(parts[1..])
  }

  /** Appends one encoded chunk to a caller's buffer. */
  class ByteVec {
    var data: seq<byte>

    method ExtendFromSlice(s: seq<byte>)
      modifies this
      ensures data == old(data) + s
    {
      data := data + s;
    }
  }

  method EncodeChunkInto(data: seq<byte>, buf: ByteVec)
    modifies buf
    ensures buf.data == old(buf.data) + EncodeChunk(data)
  {
    if data == [] {
      return;
    }
    ghost var before := buf.data;
    buf.ExtendFromSlice(HexPrint(|data|));
    buf.ExtendFromSlice(CRLF);
    buf.ExtendFromSlice(data);
    buf.ExtendFromSlice(CRLF);
    assert buf.data == before + (HexPrint(|data|) + CRLF + data + CRLF);
  }

  function LineFor(n: nat): SizeLine {
    SizeLine(HexPrint(n), [], None)
  }

  /** The derivation of an encoded body; empty parts leave no chunk. */
  function TreeFor(parts: seq<seq<byte>>): (g: ChunkedBody)
    requires forall p :: p in parts ==> |p| < U64
  {
    if parts == [] then ChunkedBody([], LineFor(0))
    else
      var rest := TreeFor(parts[1..]);
      if parts[0] == [] then rest
      else rest.(chunks := [DataChunk(LineFor(|parts[0]|), parts[0])] + rest.chunks)
  }

  lemma {:induction false} TreeForSpells(parts: seq<seq<byte>>)
    requires forall p :: p in parts ==> |p| < U64
    ensures var g := TreeFor(parts);
            && ValidBody(g) && g.last == LineFor(0)
            && Render(g) == EncodeAll(parts) + CHUNK_TERMINATOR
            && Payload(g) == Flatten(parts)
  {
    hide Render, Payload, ValidBody, LineFor, EncodeChunk;
    if parts == [] {
      TerminatorSpells();
      assert [] + CHUNK_TERMINATOR == CHUNK_TERMINATOR;
    } else {
      var rest := TreeFor(parts[1..]);
      TreeForSpells(parts[1..]);
      if parts[0] != [] {
        ChunkSpells(parts[0], rest);
      }
      assert EncodeAll(parts) + CHUNK_TERMINATOR == EncodeChunk(parts[0]) + (EncodeAll(parts[1..]) + CHUNK_TERMINATOR);
    }
  }

  lemma TerminatorSpells()
    ensures ValidBody(ChunkedBody([], LineFor(0)))
    ensures Render(ChunkedBody([], LineFor(0))) == CHUNK_TERMINATOR && Payload(ChunkedBody([], LineFor(0))) == []
  {
    HexRoundTrip(0);
  }

  lemma ChunkSpells(data: seq<byte>, rest: ChunkedBody)
    requires 0 < |data| < U64 && ValidBody(rest)
    ensures var g := rest.(chunks := [DataChunk(LineFor(|data|), data)] + rest.chunks);
            ValidBody(g) && Render(g) == EncodeChunk(data) + Render(rest) && Payload(g) == data + Payload(rest)
  {
    HexRoundTrip(|data|);
    var c := DataChunk(LineFor(|data|), data);
    var g := rest.(chunks := [c] + rest.chunks);
    assert RenderChunk(c) == EncodeChunk(data);
    assert ValidChunk(c);
    hide RenderChunk, EncodeChunk, ValidLine, ValidChunk, LineFor;
    assert g.chunks[0] == c && g.(chunks := g.chunks[1..]) == rest;
  }

  /**
   Encoding then decoding. For any list of byte strings (a Rust slice is shorter than 2^64) and
   any bytes behind them, decoding the encoded chunks, the terminator and those bytes yields the
   concatenation and leaves exactly the bytes behind, whatever the receive segments were.
   */
  lemma DecodeUndoesEncode(parts: seq<seq<byte>>, limit: Option<nat>, trailing: seq<byte>, segments: seq<seq<byte>>)
    requires forall p :: p in parts ==> |p| < U64
    requires Within(limit, |Flatten(parts)|)
    requires Flatten(segments) == EncodeAll(parts) + CHUNK_TERMINATOR + trailing
    ensures var r := DriveSegments(START, limit, [], segments);
            r.end == Eof && r.body == Flatten(parts) && r.rest == trailing
  {
    var wire, data := EncodeAll(parts) + CHUNK_TERMINATOR, Flatten(parts);
    var s := wire + trailing;
    EncodedInLanguage(parts);
    hide *;
    assert s[..|wire|] == wire && s[|wire|..] == trailing;
    GrammarExact(s, limit, |wire|, data);
    SplitInvariance(START, limit, segments);
    DriveExplained(START, limit, s);
    CompleteDrive(DriveAll(START, limit, s), Run(START, limit, s), s, |wire|, data);
  }

  lemma EncodedInLanguage(parts: seq<seq<byte>>)
    requires forall p :: p in parts ==> |p| < U64
    ensures InLanguage(EncodeAll(parts) + CHUNK_TERMINATOR, Flatten(parts))
  {
    TreeForSpells(parts);
    var g := TreeFor(parts);
    hide TreeFor, Render, Payload, ValidBody, EncodeAll, Flatten;
    assert ValidBody(g);
  }

  lemma CompleteDrive(r: Drive, run: RunResult, s: seq<byte>, n: nat, data: seq<byte>)
    requires n <= |s| && |r.rest| <= |s| && r.rest == s[|s| - |r.rest|..]
    requires Agrees(r, run, |s|) && run == RunResult(Done, n, data)
    ensures r.end == Eof && r.body == data && r.rest == s[n..]
  {
  }
}
