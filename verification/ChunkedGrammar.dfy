/**
 The language of chunked bodies, written down as a grammar, and the encoder.
 A body is a derivation tree; `Render` spells it out. The theorems say the decoder
 accepts exactly this language, with exactly the data the tree holds, and that it
 undoes the encoder.
 */
module ChunkedGrammar {
  import opened Bytes
  import opened PayloadCodec

  // ----- section 7.1 of RFC 9112 as the decoder reads it: no trailers -----

  /** chunk-size, then optional whitespace, then an optional extension. */
  datatype SizeLine = SizeLine(digits: seq<byte>, ws: seq<byte>, ext: Option<seq<byte>>)
  datatype DataChunk = DataChunk(line: SizeLine, data: seq<byte>)
  datatype ChunkedBody = ChunkedBody(chunks: seq<DataChunk>, last: SizeLine)

  /** The value of hex digits read after a value `v`. */
  function HexFold(v: nat, digits: seq<byte>): (n: nat)
    requires forall d :: d in digits ==> IsHex(d)
    decreases |digits|
  {
    if digits == [] then v else HexFold(v * 16 + HexVal(digits[0]), digits[1..])
  }

  predicate Blank(ws: seq<byte>) {
    forall b :: b in ws ==> b == TAB || b == SP
  }

  predicate Printable(ext: seq<byte>) {
    forall b :: b in ext ==> !IsControl(b)
  }

  predicate ValidLine(l: SizeLine) {
    && l.digits != [] && (forall d :: d in l.digits ==> IsHex(d)) && HexFold(0, l.digits) < 0x1_0000_0000_0000_0000
    && Blank(l.ws)
    && (l.ext.Some? ==> Printable(l.ext.value))
  }

  function LineTail(l: SizeLine): seq<byte> {
    l.ws + (if l.ext.Some? then [SEMI] + l.ext.value else []) + CRLF
  }

  function RenderLine(l: SizeLine): seq<byte> {
    l.digits + LineTail(l)
  }

  predicate ValidChunk(c: DataChunk) {
    ValidLine(c.line) && 0 < |c.data| == HexFold(0, c.line.digits)
  }

  function RenderChunk(c: DataChunk): seq<byte> {
    RenderLine(c.line) + c.data + CRLF
  }

  predicate ValidBody(g: ChunkedBody) {
    (forall c :: c in g.chunks ==> ValidChunk(c)) && ValidLine(g.last) && HexFold(0, g.last.digits) == 0
  }

  function Render(g: ChunkedBody): (s: seq<byte>)
    decreases |g.chunks|
  {
    if g.chunks == [] then RenderLine(g.last) + CRLF
    else RenderChunk(g.chunks[0]) + Render(g.(chunks := g.chunks[1..]))
  }

  function Payload(g: ChunkedBody): (data: seq<byte>)
    decreases |g.chunks|
  {
    if g.chunks == [] then [] else g.chunks[0].data + Payload(g.(chunks := g.chunks[1..]))
  }

  ghost predicate InLanguage(s: seq<byte>, data: seq<byte>) {
    exists g :: ValidBody(g) && Render(g) == s && Payload(g) == data
  }

  // ----- every derivation is accepted -----

  lemma {:induction false} HexFoldGrows(v: nat, digits: seq<byte>)
    requires forall d :: d in digits ==> IsHex(d)
    ensures v <= HexFold(v, digits)
    decreases |digits|
  {
    if digits != [] {
      HexFoldGrows(v * 16 + HexVal(digits[0]), digits[1..]);
    }
  }

  /** Reading `s` takes the decoder from `k` to `next` and delivers `data`. */
  ghost predicate Reads(k: Kind, limit: Option<nat>, s: seq<byte>, data: seq<byte>, next: Kind) {
    Sound(k) && Run(k, limit, s) == RunResult(More(next), |s|, data)
  }

  /** A framing byte, then what follows it. */
  lemma ReadsOn(k: Kind, limit: Option<nat>, s: seq<byte>, mid: Kind, next: Kind)
    requires s != [] && Sound(k) && !AtEof(k) && k.Chunked? && ReadByte(k, limit, s[0]) == Next(mid, [])
    requires Reads(mid, limit, s[1..], [], next)
    ensures Reads(k, limit, s, [], next)
  {
    hide ReadByte;
  }

  lemma ReadsNothing(k: Kind, limit: Option<nat>)
    requires Sound(k) && k.Chunked? && k.state != End
    ensures Reads(k, limit, [], [], k)
  {
    hide ReadByte;
  }

  lemma {:induction false} ReadsDigits(v: nat, total: nat, limit: Option<nat>, digits: seq<byte>)
    requires (forall d :: d in digits ==> IsHex(d)) && HexFold(v, digits) < U64
    ensures Reads(Chunked(Size, v, total), limit, digits, [], Chunked(Size, HexFold(v, digits), total))
    decreases |digits|
  {
    hide Run, Reads;
    var k := Chunked(Size, v, total);
    if digits == [] {
      ReadsNothing(k, limit);
    } else {
      var w := v * 16 + HexVal(digits[0]);
      HexFoldGrows(w, digits[1..]);
      ReadsDigits(w, total, limit, digits[1..]);
      ReadsOn(k, limit, digits, Chunked(Size, w, total), Chunked(Size, HexFold(v, digits), total));
    }
  }

  lemma {:induction false} ReadsBlank(k: Kind, limit: Option<nat>, ws: seq<byte>)
    requires k.Chunked? && (k.state == Size || k.state == SizeLws) && Blank(ws)
    ensures Reads(k, limit, ws, [], if ws == [] then k else k.(state := SizeLws))
    decreases |ws|
  {
    hide Run, Reads;
    if ws == [] {
      ReadsNothing(k, limit);
    } else {
      var next := k.(state := SizeLws);
      assert ws[0] in ws && forall b :: b in ws[1..] ==> b in ws;
      ReadsBlank(next, limit, ws[1..]);
      ReadsOn(k, limit, ws, next, next);
    }
  }

  lemma {:induction false} ReadsPrintable(k: Kind, limit: Option<nat>, ext: seq<byte>)
    requires k.Chunked? && k.state == Extension && Printable(ext)
    ensures Reads(k, limit, ext, [], k)
    decreases |ext|
  {
    hide Run, Reads;
    if ext == [] {
      ReadsNothing(k, limit);
    } else {
      assert ext[0] in ext && forall b :: b in ext[1..] ==> b in ext;
      ReadsPrintable(k, limit, ext[1..]);
      ReadsOn(k, limit, ext, k, k);
    }
  }

  lemma RunPair(k: Kind, limit: Option<nat>, a: byte, b: byte, mid: Kind, end: Kind)
    requires Sound(k) && !AtEof(k) && k.Chunked? && k.state != Body
    requires Sound(mid) && !AtEof(mid) && mid.Chunked? && mid.state != Body
    requires ReadByte(k, limit, a) == Next(mid, []) && ReadByte(mid, limit, b) == Next(end, []) && Sound(end)
    ensures Run(k, limit, [a, b]) ==
            if AtEof(end) then RunResult(Done, 2, []) else if end.Chunked? then RunResult(More(end), 2, []) else Run(k, limit, [a, b])
  {
    hide ReadByte;
    assert [a, b][1..] == [b] && [b][1..] == [];
    var r := Run(end, limit, []);
    if end.Chunked? {
      assert Run(mid, limit, [b]) == After(1, [], r);
      assert Run(k, limit, [a, b]) == After(1, [], Run(mid, limit, [b]));
    }
  }

  lemma ReadsThen(k: Kind, limit: Option<nat>, s: seq<byte>, data: seq<byte>, mid: Kind, t: seq<byte>)
    requires Reads(k, limit, s, data, mid)
    ensures Sound(mid) && Run(k, limit, s + t) == After(|s|, data, Run(mid, limit, t))
  {
    hide Run;
    RunAppend(k, limit, s, t);
  }

  lemma ReadsBoth(k: Kind, limit: Option<nat>, s: seq<byte>, a: seq<byte>, mid: Kind, t: seq<byte>, b: seq<byte>, next: Kind)
    requires Reads(k, limit, s, a, mid) && Reads(mid, limit, t, b, next)
    ensures Reads(k, limit, s + t, a + b, next)
  {
    hide Run;
    ReadsThen(k, limit, s, a, mid, t);
  }

  function AfterLine(size: nat, total: nat): Kind {
    Chunked(if 0 < size then Body else EndCr, size, total)
  }

  /** A line end, read in two steps. */
  lemma RunCrlf(k: Kind, limit: Option<nat>, mid: Kind, next: Kind)
    requires Sound(k) && !AtEof(k) && k.Chunked? && k.state != Body
    requires Sound(mid) && !AtEof(mid) && mid.Chunked? && mid.state != Body
    requires ReadByte(k, limit, CR) == Next(mid, []) && ReadByte(mid, limit, LF) == Next(next, [])
    requires Sound(next) && !AtEof(next) && next.Chunked?
    ensures Reads(k, limit, CRLF, [], next)
  {
    RunPair(k, limit, CR, LF, mid, next);
    hide Run, ReadByte, AtEof, Sound;
  }

  /** The line end behind the digits, whatever is between. */
  lemma RunLineEnd(k: Kind, limit: Option<nat>, size: nat, total: nat)
    requires k in [Chunked(Size, size, total), Chunked(SizeLws, size, total), Chunked(Extension, size, total)]
    ensures Reads(k, limit, CRLF, [], AfterLine(size, total))
  {
    RunCrlf(k, limit, Chunked(SizeLf, size, total), AfterLine(size, total));
    hide Reads;
  }

  lemma RunLineTail(l: SizeLine, size: nat, total: nat, limit: Option<nat>)
    requires Blank(l.ws) && (l.ext.Some? ==> Printable(l.ext.value))
    ensures Reads(Chunked(Size, size, total), limit, LineTail(l), [], AfterLine(size, total))
  {
    hide Run, ReadByte, Reads, AfterLine, Blank, Printable;
    var k := Chunked(Size, size, total);
    var none: seq<byte> := [];
    assert none + none == none;
    var k1, next := if l.ws == [] then k else k.(state := SizeLws), AfterLine(size, total);
    ReadsBlank(k, limit, l.ws);
    if l.ext.Some? {
      var e := k.(state := Extension);
      RunLineEnd(e, limit, size, total);
      ReadsPrintable(e, limit, l.ext.value);
      RunSemi(k1, limit);
      ReadsBoth(e, limit, l.ext.value, [], e, CRLF, [], next);
      ReadsBoth(k1, limit, [SEMI], [], e, l.ext.value + CRLF, [], next);
      ReadsBoth(k, limit, l.ws, [], k1, [SEMI] + (l.ext.value + CRLF), [], next);
      assert LineTail(l) == l.ws + ([SEMI] + (l.ext.value + CRLF));
    } else {
      RunLineEnd(k1, limit, size, total);
      ReadsBoth(k, limit, l.ws, [], k1, CRLF, [], next);
      assert LineTail(l) == l.ws + CRLF;
    }
  }

  lemma RunSemi(k: Kind, limit: Option<nat>)
    requires k.Chunked? && (k.state == Size || k.state == SizeLws)
    ensures Reads(k, limit, [SEMI], [], k.(state := Extension))
  {
    assert [SEMI][1..] == [] && [SEMI][0] == SEMI;
    RunMore(k.(state := Extension), limit);
    assert ReadByte(k, limit, SEMI) == Next(k.(state := Extension), []);
    hide ReadByte;
  }

  lemma RunMore(k: Kind, limit: Option<nat>)
    requires Sound(k) && k.Chunked? && k.state != End
    ensures Run(k, limit, []) == RunResult(More(k), 0, [])
  {
  }

  lemma RunLine(l: SizeLine, size: nat, total: nat, limit: Option<nat>)
    requires ValidLine(l)
    ensures Reads(Chunked(SizeStart, size, total), limit, RenderLine(l), [], AfterLine(HexFold(0, l.digits), total))
  {
    hide Run, Reads, AfterLine, Blank, Printable, LineTail;
    var k, v := Chunked(SizeStart, size, total), HexFold(0, l.digits);
    var none: seq<byte> := [];
    assert none + none == none;
    ReadsSize(k, limit, l.digits);
    RunLineTail(l, v, total, limit);
    hide HexFold;
    ReadsBoth(k, limit, l.digits, none, Chunked(Size, v, total), LineTail(l), none, AfterLine(v, total));
  }

  /** The first digit starts a size, whatever size was left over. */
  lemma ReadsSize(k: Kind, limit: Option<nat>, digits: seq<byte>)
    requires k.Chunked? && k.state == SizeStart
    requires digits != [] && (forall d :: d in digits ==> IsHex(d)) && HexFold(0, digits) < U64
    ensures Reads(k, limit, digits, [], Chunked(Size, HexFold(0, digits), k.total))
  {
    hide Run, Reads;
    var w, v := HexVal(digits[0]), HexFold(0, digits);
    assert v == HexFold(w, digits[1..]);
    ReadsDigits(w, k.total, limit, digits[1..]);
    ReadsOn(k, limit, digits, Chunked(Size, w, k.total), Chunked(Size, v, k.total));
  }

  lemma RunChunk(c: DataChunk, size: nat, total: nat, limit: Option<nat>)
    requires ValidChunk(c) && Within(limit, total + |c.data|)
    ensures Reads(Chunked(SizeStart, size, total), limit, RenderChunk(c), c.data, Chunked(SizeStart, 0, total + |c.data|))
  {
    var k, body := Chunked(SizeStart, size, total), Chunked(Body, |c.data|, total);
    var next := Chunked(SizeStart, 0, total + |c.data|);
    RunLine(c.line, size, total, limit);
    RunDataCrlf(c.data, total, limit);
    hide Reads, RenderLine, ValidLine, HexFold;
    ReadsBoth(k, limit, RenderLine(c.line), [], body, c.data + CRLF, c.data, next);
    assert RenderChunk(c) == RenderLine(c.line) + (c.data + CRLF);
    assert [] + c.data == c.data;
  }

  lemma RunDataCrlf(data: seq<byte>, total: nat, limit: Option<nat>)
    requires data != [] && Within(limit, total + |data|)
    ensures Reads(Chunked(Body, |data|, total), limit, data + CRLF, data, Chunked(SizeStart, 0, total + |data|))
  {
    var body, cr := Chunked(Body, |data|, total), Chunked(BodyCr, 0, total + |data|);
    var next := Chunked(SizeStart, 0, total + |data|);
    ReadsData(body, limit, data, cr);
    ReadsDataEnd(cr, limit, next);
    hide Reads;
    ReadsBoth(body, limit, data, data, cr, CRLF, [], next);
    assert data + [] == data;
  }

  lemma ReadsData(k: Kind, limit: Option<nat>, data: seq<byte>, cr: Kind)
    requires data != [] && k.Chunked? && k == Chunked(Body, |data|, k.total) && Within(limit, k.total + |data|)
    requires cr == Chunked(BodyCr, 0, k.total + |data|)
    ensures Reads(k, limit, data, data, cr)
  {
    hide Run, ReadByte;
    RunData(k, limit, data);
  }

  lemma ReadsDataEnd(cr: Kind, limit: Option<nat>, next: Kind)
    requires cr.Chunked? && cr == Chunked(BodyCr, 0, cr.total) && next == cr.(state := SizeStart)
    ensures Reads(cr, limit, CRLF, [], next)
  {
    RunCrlf(cr, limit, cr.(state := BodyLf), next);
    hide Reads;
  }

  lemma {:induction false} RunRendered(g: ChunkedBody, size: nat, total: nat, limit: Option<nat>)
    requires ValidBody(g) && Within(limit, total + |Payload(g)|)
    ensures Run(Chunked(SizeStart, size, total), limit, Render(g)) == RunResult(Done, |Render(g)|, Payload(g))
    decreases |g.chunks|
  {
    hide Run, RenderChunk, RenderLine, ValidLine, HexFold;
    if g.chunks == [] {
      RunLast(g.last, size, total, limit);
    } else {
      var c, rest := g.chunks[0], g.(chunks := g.chunks[1..]);
      assert Payload(g) == c.data + Payload(rest);
      RunRendered(rest, 0, total + |c.data|, limit);
      RunChunkThen(c, size, total, limit, Render(rest), Payload(rest));
    }
  }

  lemma RunChunkThen(c: DataChunk, size: nat, total: nat, limit: Option<nat>, t: seq<byte>, data: seq<byte>)
    requires ValidChunk(c) && Within(limit, total + |c.data|)
    requires Run(Chunked(SizeStart, 0, total + |c.data|), limit, t) == RunResult(Done, |t|, data)
    ensures Run(Chunked(SizeStart, size, total), limit, RenderChunk(c) + t) ==
            RunResult(Done, |RenderChunk(c)| + |t|, c.data + data)
  {
    hide Run, RenderChunk, ValidChunk;
    RunChunk(c, size, total, limit);
    ReadsThen(Chunked(SizeStart, size, total), limit, RenderChunk(c), c.data, Chunked(SizeStart, 0, total + |c.data|), t);
  }

  lemma RunLast(l: SizeLine, size: nat, total: nat, limit: Option<nat>)
    requires ValidLine(l) && HexFold(0, l.digits) == 0
    ensures Run(Chunked(SizeStart, size, total), limit, RenderLine(l) + CRLF) == RunResult(Done, |RenderLine(l)| + 2, [])
  {
    var k, end := Chunked(SizeStart, size, total), AfterLine(0, total);
    RunLine(l, size, total, limit);
    RunPair(end, limit, CR, LF, end.(state := EndLf), end.(state := End));
    hide Run, ReadByte, RenderLine;
    ReadsThen(k, limit, RenderLine(l), [], end, CRLF);
  }

  // ----- every accepted body has a derivation -----

  /** Where a framing byte can lead, state by state. */
  predicate Leads(k: Kind, b: byte, next: Kind) {
    && k.Chunked? && next.Chunked?
    && match k.state
       case SizeStart => IsHex(b) && next == k.(state := Size, size := HexVal(b))
       case Size =>
         if IsHex(b) then next == k.(size := k.size * 16 + HexVal(b)) && next.size < U64 else LeadsOn(k, b, next)
       case SizeLws => LeadsOn(k, b, next)
       case Extension => if b == CR then next == k.(state := SizeLf) else !IsControl(b) && next == k
       case SizeLf => b == LF && next == AfterLine(k.size, k.total)
       case BodyCr => b == CR && next == k.(state := BodyLf)
       case BodyLf => b == LF && next == k.(state := SizeStart)
       case EndCr => b == CR && next == k.(state := EndLf)
       case EndLf => b == LF && next == k.(state := End)
       case _ => false
  }

  predicate LeadsOn(k: Kind, b: byte, next: Kind)
    requires k.Chunked?
  {
    || (b == CR && next == k.(state := SizeLf))
    || (b == SEMI && next == k.(state := Extension))
    || ((b == TAB || b == SP) && next == k.(state := SizeLws))
  }

  lemma LeadsExact(k: Kind, limit: Option<nat>, b: byte, next: Kind)
    requires Sound(k) && k.Chunked? && k.state != Body && k.state != End
    ensures ReadByte(k, limit, b).Next? && ReadByte(k, limit, b).kind == next <==> Leads(k, b, next)
    ensures ReadByte(k, limit, b).Next? ==> ReadByte(k, limit, b).out == []
  {
  }

  /** A framing byte of a run that completes is read without error. */
  lemma DoneStep(k: Kind, limit: Option<nat>, s: seq<byte>) returns (next: Kind)
    requires Sound(k) && k.Chunked? && k.state != Body && k.state != End
    requires Run(k, limit, s).verdict == Done
    ensures s != [] && Leads(k, s[0], next) && Sound(next)
    ensures Run(next, limit, s[1..]).verdict == Done
    ensures Run(k, limit, s) == After(1, [], Run(next, limit, s[1..]))
  {
    hide ReadByte, Leads;
    assert s != [];
    assert ReadByte(k, limit, s[0]).Next?;
    next := ReadByte(k, limit, s[0]).kind;
    LeadsExact(k, limit, s[0], next);
  }

  /** The run on `s` starts by reading `part` without data and goes on from `next`. */
  ghost predicate Opens(k: Kind, limit: Option<nat>, s: seq<byte>, part: seq<byte>, next: Kind) {
    && Sound(k) && Sound(next) && part <= s
    && Run(next, limit, s[|part|..]).verdict == Done
    && Run(k, limit, s) == After(|part|, [], Run(next, limit, s[|part|..]))
  }

  lemma OpensMore(k: Kind, limit: Option<nat>, s: seq<byte>, mid: Kind, part: seq<byte>, next: Kind)
    requires Sound(k) && s != [] && Sound(mid) && Run(k, limit, s) == After(1, [], Run(mid, limit, s[1..]))
    requires Opens(mid, limit, s[1..], part, next)
    ensures Opens(k, limit, s, [s[0]] + part, next)
  {
    hide Run;
    assert s == [s[0]] + s[1..];
    assert s[|part| + 1..] == s[1..][|part|..];
  }

  lemma ScanLf(k: Kind, limit: Option<nat>, s: seq<byte>)
    requires k.Chunked? && k.state == SizeLf && Run(k, limit, s).verdict == Done
    ensures Opens(k, limit, s, [LF], AfterLine(k.size, k.total))
  {
    hide Run;
    var next := DoneStep(k, limit, s);
    assert s == [LF] + s[1..];
  }

  lemma {:induction false} ScanExtension(k: Kind, limit: Option<nat>, s: seq<byte>) returns (e: seq<byte>)
    requires k.Chunked? && k.state == Extension && Run(k, limit, s).verdict == Done
    ensures Printable(e) && Opens(k, limit, s, e + CRLF, AfterLine(k.size, k.total))
    decreases |s|
  {
    hide Run, Opens;
    var next := DoneStep(k, limit, s);
    var end := AfterLine(k.size, k.total);
    if s[0] == CR {
      e := [];
      ScanLf(next, limit, s[1..]);
      assert [s[0]] + [LF] == e + CRLF;
      OpensMore(k, limit, s, next, [LF], end);
    } else {
      var rest := ScanExtension(k, limit, s[1..]);
      e := [s[0]] + rest;
      assert [s[0]] + (rest + CRLF) == e + CRLF;
      OpensMore(k, limit, s, k, rest + CRLF, end);
    }
  }

  /** What may follow the digits: blanks, then the end of the line or an extension. */
  lemma {:induction false} ScanTail(k: Kind, limit: Option<nat>, s: seq<byte>) returns (ws: seq<byte>, ext: Option<seq<byte>>)
    requires k.Chunked? && (k.state == SizeLws || (k.state == Size && s != [] && !IsHex(s[0])))
    requires Run(k, limit, s).verdict == Done
    ensures Blank(ws) && (ext.Some? ==> Printable(ext.value))
    ensures Opens(k, limit, s, LineTail(SizeLine([], ws, ext)), AfterLine(k.size, k.total))
    decreases |s|
  {
    hide Run, Opens;
    var next := DoneStep(k, limit, s);
    assert LeadsOn(k, s[0], next);
    var end := AfterLine(k.size, k.total);
    ws, ext := [], None;
    if s[0] == CR {
      ScanLf(next, limit, s[1..]);
      assert [s[0]] + [LF] == LineTail(SizeLine([], [], None));
      OpensMore(k, limit, s, next, [LF], end);
    } else if s[0] == SEMI {
      var e := ScanExtension(next, limit, s[1..]);
      ext := Some(e);
      assert [s[0]] + (e + CRLF) == LineTail(SizeLine([], [], ext));
      OpensMore(k, limit, s, next, e + CRLF, end);
    } else {
      var blanks, e := ScanTail(next, limit, s[1..]);
      ws, ext := [s[0]] + blanks, e;
      var rest := LineTail(SizeLine([], blanks, ext));
      assert [s[0]] + rest == LineTail(SizeLine([], ws, ext));
      OpensMore(k, limit, s, next, rest, end);
    }
  }

  lemma {:induction false} ScanSize(k: Kind, limit: Option<nat>, s: seq<byte>) returns (l: SizeLine)
    requires k.Chunked? && k.state == Size && k.size < U64 && Run(k, limit, s).verdict == Done
    ensures (forall d :: d in l.digits ==> IsHex(d)) && HexFold(k.size, l.digits) < U64
    ensures Blank(l.ws) && (l.ext.Some? ==> Printable(l.ext.value))
    ensures Opens(k, limit, s, RenderLine(l), AfterLine(HexFold(k.size, l.digits), k.total))
    decreases |s|
  {
    hide Run, Opens, LineTail;
    if s != [] && !IsHex(s[0]) {
      var ws, ext := ScanTail(k, limit, s);
      l := SizeLine([], ws, ext);
      assert RenderLine(l) == LineTail(l);
    } else {
      var next := DoneStep(k, limit, s);
      var rest := ScanSize(next, limit, s[1..]);
      l := MoreDigits(s[0], rest);
      OpensMore(k, limit, s, next, RenderLine(rest), AfterLine(HexFold(k.size, l.digits), k.total));
    }
  }

  lemma MoreDigits(d: byte, rest: SizeLine) returns (l: SizeLine)
    requires IsHex(d) && forall d :: d in rest.digits ==> IsHex(d)
    ensures l == rest.(digits := [d] + rest.digits) && l.digits[0] == d && l.digits[1..] == rest.digits
    ensures RenderLine(l) == [d] + RenderLine(rest)
    ensures forall d :: d in l.digits ==> IsHex(d)
  {
    l := rest.(digits := [d] + rest.digits);
    assert LineTail(l) == LineTail(rest);
    hide LineTail;
  }

  lemma ScanLine(k: Kind, limit: Option<nat>, s: seq<byte>) returns (l: SizeLine)
    requires k.Chunked? && k.state == SizeStart && Run(k, limit, s).verdict == Done
    ensures ValidLine(l) && Opens(k, limit, s, RenderLine(l), AfterLine(HexFold(0, l.digits), k.total))
  {
    hide Run, Opens, RenderLine;
    var next := DoneStep(k, limit, s);
    var rest := ScanSize(next, limit, s[1..]);
    l := MoreDigits(s[0], rest);
    OpensMore(k, limit, s, next, RenderLine(rest), AfterLine(HexFold(0, l.digits), k.total));
  }

  /** The data of a chunk and the line end behind it. */
  lemma ScanData(k: Kind, limit: Option<nat>, s: seq<byte>)
    requires Sound(k) && k.Chunked? && k.state == Body && Run(k, limit, s).verdict == Done
    ensures k.size + 2 <= |s| && s[k.size..k.size + 2] == CRLF && Within(limit, k.total + k.size)
    ensures var next := Chunked(SizeStart, 0, k.total + k.size);
            && Run(next, limit, s[k.size + 2..]).verdict == Done
            && Run(k, limit, s) == After(k.size + 2, s[..k.size], Run(next, limit, s[k.size + 2..]))
  {
    hide Run, After;
    ScanChunkData(k, limit, s);
    var cr, next, rest := Chunked(BodyCr, 0, k.total + k.size), Chunked(SizeStart, 0, k.total + k.size), s[k.size..];
    ScanCrlf(cr, limit, rest);
    SlicedTwice(s, k.size);
    AfterTwice(k.size, s[..k.size], 2, Run(next, limit, rest[2..]));
  }

  lemma SlicedTwice(s: seq<byte>, n: nat)
    requires n + 2 <= |s|
    ensures s[n..n + 2] == s[n..][..2] && s[n..][2..] == s[n + 2..]
  {
  }

  lemma AfterTwice(n: nat, out: seq<byte>, m: nat, run: RunResult)
    ensures After(n, out, After(m, [], run)) == After(n + m, out, run)
  {
    assert [] + run.body == run.body;
  }

  /** The line end behind the data. */
  lemma ScanCrlf(cr: Kind, limit: Option<nat>, rest: seq<byte>)
    requires cr.Chunked? && cr.state == BodyCr && Run(cr, limit, rest).verdict == Done
    ensures 2 <= |rest| && rest[..2] == CRLF
    ensures var next := cr.(state := SizeStart);
            && Run(next, limit, rest[2..]).verdict == Done
            && Run(cr, limit, rest) == After(2, [], Run(next, limit, rest[2..]))
  {
    hide Run;
    var lf := DoneStep(cr, limit, rest);
    var next := DoneStep(lf, limit, rest[1..]);
    assert rest[..2] == [rest[0], rest[1]] && rest[1..][1..] == rest[2..];
    var run := Run(next, limit, rest[2..]);
    assert [] + ([] + run.body) == [] + run.body;
  }

  lemma ScanChunkData(k: Kind, limit: Option<nat>, s: seq<byte>)
    requires Sound(k) && k.Chunked? && k.state == Body && Run(k, limit, s).verdict == Done
    ensures k.size <= |s| && Within(limit, k.total + k.size)
    ensures var cr := Chunked(BodyCr, 0, k.total + k.size);
            && Run(cr, limit, s[k.size..]).verdict == Done
            && Run(k, limit, s) == After(k.size, s[..k.size], Run(cr, limit, s[k.size..]))
  {
    hide Run;
    if s == [] {
      RunMore(k, limit);
    }
    var n := Min(k.size, |s|);
    RunData(k, limit, s[..n]);
    RunAppend(k, limit, s[..n], s[n..]);
    assert s == s[..n] + s[n..];
    if n < k.size {
      RunMore(Chunked(Body, k.size - n, k.total + n), limit);
    }
  }

  /** Rebuilds the derivation of an accepted body. */
  lemma {:induction false} Derive(k: Kind, limit: Option<nat>, s: seq<byte>) returns (g: ChunkedBody)
    requires k.Chunked? && k.state == SizeStart && Run(k, limit, s).verdict == Done
    ensures Derives(g, Run(k, limit, s), s)
    ensures |Payload(g)| > 0 ==> Within(limit, k.total + |Payload(g)|)
    decreases |s|
  {
    hide Run, RenderLine, HexFold, Derives, Opens;
    var line := ScanLine(k, limit, s);
    var n, size := |RenderLine(line)|, HexFold(0, line.digits);
    if size == 0 {
      DeriveLast(k, limit, s, line);
      g := ChunkedBody([], line);
    } else {
      ScanChunk(k, limit, s, line);
      var next, tail := Chunked(SizeStart, 0, k.total + size), s[n..][size + 2..];
      var more := Derive(next, limit, tail);
      g := DeriveMore(s, line, more, Run(next, limit, tail));
    }
  }

  /** A size line above zero, the data it announces, and the line end. */
  lemma ScanChunk(k: Kind, limit: Option<nat>, s: seq<byte>, line: SizeLine)
    requires k.Chunked? && ValidLine(line) && 0 < HexFold(0, line.digits)
    requires Opens(k, limit, s, RenderLine(line), AfterLine(HexFold(0, line.digits), k.total))
    ensures var n, size := |RenderLine(line)|, HexFold(0, line.digits);
            var next := Chunked(SizeStart, 0, k.total + size);
            && RenderLine(line) <= s && n + size + 2 <= |s| && s[n..][size..size + 2] == CRLF
            && Within(limit, k.total + size)
            && Run(next, limit, s[n..][size + 2..]).verdict == Done
            && Run(k, limit, s) == After(n + size + 2, s[n..][..size], Run(next, limit, s[n..][size + 2..]))
  {
    hide Run, RenderLine, HexFold;
    var n, size := |RenderLine(line)|, HexFold(0, line.digits);
    ScanData(AfterLine(size, k.total), limit, s[n..]);
    var data, run := s[n..][..size], Run(Chunked(SizeStart, 0, k.total + size), limit, s[n..][size + 2..]);
    assert [] + (data + run.body) == data + run.body;
  }

  ghost predicate Derives(g: ChunkedBody, run: RunResult, s: seq<byte>) {
    && run.consumed <= |s| && run.verdict == Done
    && ValidBody(g) && Render(g) == s[..run.consumed] && Payload(g) == run.body
  }

  /** Puts one chunk in front of a derivation. */
  lemma DeriveMore(s: seq<byte>, line: SizeLine, more: ChunkedBody, run: RunResult) returns (g: ChunkedBody)
    requires ValidLine(line) && RenderLine(line) <= s
    requires var n, size := |RenderLine(line)|, HexFold(0, line.digits);
             && 0 < size && n + size + 2 <= |s| && s[n..][size..size + 2] == CRLF
             && Derives(more, run, s[n..][size + 2..])
    ensures var n, size := |RenderLine(line)|, HexFold(0, line.digits);
            Derives(g, After(n + size + 2, s[n..][..size], run), s) && |Payload(g)| == size + |Payload(more)|
  {
    var n, size := |RenderLine(line)|, HexFold(0, line.digits);
    var rest := s[n..];
    hide RenderLine, ValidLine, HexFold;
    var c := DataChunk(line, rest[..size]);
    g := ChunkedBody([c] + more.chunks, more.last);
    assert g.chunks[0] == c && g.(chunks := g.chunks[1..]) == more;
    SlicesJoin(s, n, size, run.consumed, line);
    assert RenderChunk(c) == RenderLine(line) + rest[..size] + CRLF;
  }

  lemma SlicesJoin(s: seq<byte>, n: nat, size: nat, used: nat, line: SizeLine)
    requires n + size + 2 + used <= |s| && RenderLine(line) == s[..n]
    requires s[n..][size..size + 2] == CRLF
    ensures RenderLine(line) + s[n..][..size] + CRLF + s[n..][size + 2..][..used] == s[..n + size + 2 + used]
  {
    hide RenderLine;
    assert s[..n + size + 2 + used] == s[..n] + s[n..][..size] + s[n..][size..size + 2] + s[n..][size + 2..][..used];
  }

  lemma DeriveLast(k: Kind, limit: Option<nat>, s: seq<byte>, line: SizeLine)
    requires k.Chunked? && ValidLine(line) && HexFold(0, line.digits) == 0
    requires Opens(k, limit, s, RenderLine(line), AfterLine(0, k.total))
    ensures Derives(ChunkedBody([], line), Run(k, limit, s), s)
  {
    hide Run, ValidLine, HexFold;
    var n := |RenderLine(line)|;
    var rest := s[n..];
    RunEnd(AfterLine(0, k.total), limit, rest);
    hide RenderLine;
    assert s[..n + 2] == s[..n] + rest[..2];
  }

  lemma RunEnd(k: Kind, limit: Option<nat>, s: seq<byte>)
    requires k.Chunked? && k.state == EndCr && Run(k, limit, s).verdict == Done
    ensures Run(k, limit, s) == RunResult(Done, 2, []) && |s| >= 2 && s[..2] == CRLF
  {
    hide Run;
    var lf := DoneStep(k, limit, s);
    var done := DoneStep(lf, limit, s[1..]);
    RunDone(done, limit, s[1..][1..]);
    assert s[..2] == [s[0], s[1..][0]];
  }

  // ----- the theorems -----

  /**
   The decoder completes with body `data` after exactly `n` bytes if and only if those
   `n` bytes are a chunked body of the grammar whose data is `data` and fits the limit.
   */
  lemma GrammarExact(s: seq<byte>, limit: Option<nat>, n: nat, data: seq<byte>)
    requires n <= |s|
    ensures Run(START, limit, s) == RunResult(Done, n, data) <==>
            InLanguage(s[..n], data) && Within(limit, |data|)
  {
    hide Run, ValidBody, Render, Payload;
    if Run(START, limit, s) == RunResult(Done, n, data) {
      var g := Derive(START, limit, s);
      assert ValidBody(g) && Render(g) == s[..n] && Payload(g) == data;
    }
    if InLanguage(s[..n], data) && Within(limit, |data|) {
      var g :| ValidBody(g) && Render(g) == s[..n] && Payload(g) == data;
      RunRendered(g, 0, 0, limit);
      RunAppend(START, limit, s[..n], s[n..]);
      assert s == s[..n] + s[n..];
    }
  }

  /** No proper prefix of an accepted body is accepted, and bytes behind it never change the answer. */
  lemma PrefixFree(s: seq<byte>, limit: Option<nat>, n: nat, data: seq<byte>, t: seq<byte>)
    requires n <= |s| && Run(START, limit, s) == RunResult(Done, n, data)
    ensures Run(START, limit, s[..n] + t) == RunResult(Done, n, data)
    ensures forall m, other :: 0 <= m < n ==> !InLanguage(s[..m], other)
    ensures forall other :: InLanguage(s[..n], other) ==> other == data
  {
    hide Run;
    GrammarExact(s, limit, n, data);
    GrammarExact(s[..n], limit, n, data);
    GrammarExact(s[..n] + t, limit, n, data);
    assert (s[..n] + t)[..n] == s[..n] && s[..n][..n] == s[..n];
    forall m, other | 0 <= m <= n && InLanguage(s[..m], other)
      ensures m == n && other == data
    {
      GrammarExact(s, None, m, other);
      GrammarExact(s, None, n, data);
    }
  }
}
