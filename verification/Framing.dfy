/**
 How the request head's fields decide body framing, keep-alive and `Expect`: the fold over
 the fields as the parser runs it, and what it accepts, stated field by field.
 */
module Framing {
  import opened Bytes
  import opened Text

  datatype Version = Http10 | Http11

  datatype Name = ContentLength | TransferEncoding | Connection | Expect | Other(name: seq<byte>)

  datatype Field = Field(name: Name, value: seq<byte>)

  datatype Error = Invalid | ExpectationFailed

  datatype Framed = Framed(contentLength: Option<nat>, chunked: bool, keepAlive: bool, expectContinue: bool)

  datatype Result<+T> = Ok(value: T) | Err(error: Error)

  /** `chunked`, `close`, `keep-alive`, `100-continue`. */
  const CHUNKED: seq<byte> := [99, 104, 117, 110, 107, 101, 100]
  const CLOSE: seq<byte> := [99, 108, 111, 115, 101]
  const KEEP_ALIVE: seq<byte> := [107, 101, 101, 112, 45, 97, 108, 105, 118, 101]
  const CONTINUE: seq<byte> := [49, 48, 48, 45, 99, 111, 110, 116, 105, 110, 117, 101]
  const COMMA: byte := 44

  // ----- one value -----

  predicate IsDigits(s: seq<byte>) {
    forall i :: 0 <= i < |s| ==> 48 <= s[i] <= 57
  }

  function Decimal(s: seq<byte>): nat
    requires IsDigits(s)
    decreases |s|
  {
    if s == [] then 0
    else Decimal(s[..|s| - 1]) * 10 + (s[|s| - 1] - 48)
  }

  /** `u64` in decimal digits with optional whitespace around, or an error. */
  function ParseLength(value: seq<byte>): Result<nat> {
    var s := TrimOws(value);
    if !IsUtf8(value) || s == [] || !IsDigits(s) || U64 <= Decimal(s) then Err(Invalid) else Ok(Decimal(s))
  }

  function ParseTransferEncoding(value: seq<byte>, version: Version): Result<bool> {
    if version != Http11 || !IsUtf8(value) then Err(Invalid)
    else
      var tokens := Split(value, COMMA);
      if |tokens| == 1 && SameIgnoringCase(TrimOws(tokens[0]), CHUNKED) then Ok(true) else Err(Invalid)
  }

  /** Whether a token of the list is this one; a value that is not UTF-8 has no tokens. */
  predicate HasToken(value: seq<byte>, token: seq<byte>) {
    IsUtf8(value) && exists t :: t in Split(value, COMMA) && SameIgnoringCase(Trim(t), token)
  }

  predicate IsExpectByte(b: byte) {
    b == SP || b == TAB || 33 <= b <= 126
  }

  function ExpectMembers(tokens: seq<seq<byte>>): Result<bool>
    decreases |tokens|
  {
    if tokens == [] then Ok(false)
    else
      var member := Trim(tokens[0]);
      if member == [] then ExpectMembers(tokens[1..])
      else if SameIgnoringCase(member, CONTINUE) then
        var rest := ExpectMembers(tokens[1..]);
        if rest.Ok? then Ok(true) else rest
      else Err(ExpectationFailed)
  }

  function ParseExpect(value: seq<byte>): Result<bool> {
    if forall b :: b in value ==> IsExpectByte(b) then ExpectMembers(Split(value, COMMA)) else Err(Invalid)
  }

  function ShouldKeepAlive(version: Version, close: bool, keepAlive: bool): bool {
    !close && (keepAlive || version == Http11)
  }

  // ----- the fold -----

  datatype Scan = Scan(contentLength: Option<nat>, chunked: bool, seenTe: bool, close: bool, keepAlive: bool, expects: bool)

  const NOTHING: Scan := Scan(None, false, false, false, false, false)

  function ScanField(s: Scan, f: Field, version: Version): Result<Scan> {
    match f.name
    case ContentLength =>
      var len := ParseLength(f.value);
      if len.Err? then Err(len.error)
      else if s.contentLength.Some? && s.contentLength.value != len.value then Err(Invalid)
      else Ok(s.(contentLength := Some(len.value)))
    case TransferEncoding =>
      if s.seenTe then Err(Invalid)
      else
        var te := ParseTransferEncoding(f.value, version);
        if te.Err? then Err(te.error) else Ok(s.(seenTe := true, chunked := te.value))
    case Connection =>
      Ok(s.(close := s.close || HasToken(f.value, CLOSE), keepAlive := s.keepAlive || HasToken(f.value, KEEP_ALIVE)))
    case Expect =>
      var e := ParseExpect(f.value);
      if e.Err? then Err(e.error) else Ok(s.(expects := s.expects || e.value))
    case Other(_) => Ok(s)
  }

  function ScanAll(s: Scan, fields: seq<Field>, version: Version): Result<Scan>
    decreases |fields|
  {
    if fields == [] then Ok(s)
    else
      var next := ScanField(s, fields[0], version);
      if next.Err? then next else ScanAll(next.value, fields[1..], version)
  }

  /** `sized` says that the method is POST or PUT. */
  function Finish(s: Scan, version: Version, sized: bool): Result<Framed> {
    if s.contentLength.Some? && s.seenTe then Err(Invalid)
    else if version == Http10 && sized && s.contentLength.None? then Err(Invalid)
    else Ok(Framed(s.contentLength, s.chunked, ShouldKeepAlive(version, s.close, s.keepAlive), version == Http11 && s.expects))
  }

  function Frame(version: Version, sized: bool, fields: seq<Field>): Result<Framed> {
    var s := ScanAll(NOTHING, fields, version);
    if s.Err? then Err(s.error) else Finish(s.value, version, sized)
  }

  lemma ScanSplit(s: Scan, fields: seq<Field>, i: nat, version: Version)
    requires i < |fields|
    ensures ScanAll(s, fields[i..], version) ==
            var next := ScanField(s, fields[i], version);
            if next.Err? then next else ScanAll(next.value, fields[i + 1..], version)
  {
    assert fields[i..][1..] == fields[i + 1..];
  }

  /** The fields of a parsed head, one after the other. */
  method ParseFraming(version: Version, sized: bool, fields: seq<Field>) returns (r: Result<Framed>)
    ensures r == Frame(version, sized, fields)
  {
    hide ScanAll, HasToken, ParseLength, ParseTransferEncoding, ParseExpect;
    var contentLength: Option<nat> := None;
    var chunked, seenTe, connClose, connKeepAlive, expectContinue := false, false, false, false, false;
    assert fields[0..] == fields;
    var i := 0;
    while i < |fields|
      invariant 0 <= i <= |fields|
      invariant ScanAll(NOTHING, fields, version) ==
                ScanAll(Scan(contentLength, chunked, seenTe, connClose, connKeepAlive, expectContinue), fields[i..], version)
    {
      var f := fields[i];
      ScanSplit(Scan(contentLength, chunked, seenTe, connClose, connKeepAlive, expectContinue), fields, i, version);
      match f.name {
        case ContentLength =>
          var len := ParseLength(f.value);
          if len.Err? {
            return Err(len.error);
          }
          if contentLength.Some? && contentLength.value != len.value {
            return Err(Invalid);
          }
          contentLength := Some(len.value);
        case TransferEncoding =>
          if seenTe {
            return Err(Invalid);
          }
          seenTe := true;
          var te := ParseTransferEncoding(f.value, version);
          if te.Err? {
            return Err(te.error);
          }
          chunked := te.value;
        case Connection =>
          connClose := connClose || HasToken(f.value, CLOSE);
          connKeepAlive := connKeepAlive || HasToken(f.value, KEEP_ALIVE);
        case Expect =>
          var e := ParseExpect(f.value);
          if e.Err? {
            return Err(e.error);
          }
          expectContinue := expectContinue || e.value;
        case Other(_) =>
      }
      i := i + 1;
    }
    assert fields[i..] == [];
    ScanNothing(Scan(contentLength, chunked, seenTe, connClose, connKeepAlive, expectContinue), version);
    var keepAlive := ShouldKeepAlive(version, connClose, connKeepAlive);
    if version == Http10 {
      expectContinue := false;
    }
    if contentLength.Some? && seenTe {
      return Err(Invalid);
    }
    if version == Http10 && sized && contentLength.None? {
      return Err(Invalid);
    }
    return Ok(Framed(contentLength, chunked, keepAlive, expectContinue));
  }

  lemma ScanNothing(s: Scan, version: Version)
    ensures ScanAll(s, [], version) == Ok(s)
  {
  }

  // ----- what a single value may be -----

  /** Section 8.6 of RFC 9110: digits below 2^64, with optional whitespace around. */
  lemma LengthExact(value: seq<byte>, n: nat)
    ensures ParseLength(value) == Ok(n) <==>
            exists before, digits, after ::
              && AllOws(before) && AllOws(after) && value == before + digits + after
              && digits != [] && IsDigits(digits) && Decimal(digits) == n < 0x1_0000_0000_0000_0000
  {
    TrimOwsExact(value);
    if ParseLength(value) == Ok(n) {
      var before, after :| AllOws(before) && AllOws(after) && value == before + TrimOws(value) + after;
      assert AllOws(before) && AllOws(after) && value == before + TrimOws(value) + after;
    }
    if before, digits, after :|
      && AllOws(before) && AllOws(after) && value == before + digits + after
      && digits != [] && IsDigits(digits) && Decimal(digits) == n < U64
    {
      TrimOwsOf(before, digits, after);
      AsciiIsUtf8(value);
    }
  }

  lemma {:induction false} AsciiIsUtf8(s: seq<byte>)
    requires forall i :: 0 <= i < |s| ==> s[i] < 0x80
    ensures IsUtf8(s)
    decreases |s|
  {
    if s != [] {
      assert CharLen(s) == 1;
      AsciiIsUtf8(s[1..]);
    }
  }

  /** Section 6.1 of RFC 9112: the single coding `chunked`, in any case, only in HTTP/1.1. */
  lemma TransferEncodingExact(value: seq<byte>, version: Version)
    ensures ParseTransferEncoding(value, version) != Ok(false)
    ensures ParseTransferEncoding(value, version) == Ok(true) <==>
            && version == Http11
            && exists before, word, after ::
                 AllOws(before) && AllOws(after) && value == before + word + after && SameIgnoringCase(word, CHUNKED)
  {
    hide TrimOws, Split, IsUtf8;
    SplitWhole(value, COMMA);
    TrimOwsExact(value);
    if ParseTransferEncoding(value, version) == Ok(true) {
      var before, after :| AllOws(before) && AllOws(after) && value == before + TrimOws(value) + after;
      assert AllOws(before) && AllOws(after) && value == before + TrimOws(value) + after;
    }
    if version == Http11 {
      if before, word, after :|
        AllOws(before) && AllOws(after) && value == before + word + after && SameIgnoringCase(word, CHUNKED)
      {
        ChunkedWord(word);
        TrimOwsOf(before, word, after);
        assert forall i :: 0 <= i < |value| ==> value[i] < 0x80 && value[i] != COMMA;
        AsciiIsUtf8(value);
      }
    }
  }

  lemma ChunkedWord(word: seq<byte>)
    requires SameIgnoringCase(word, CHUNKED)
    ensures word != [] && !IsOws(word[0]) && !IsOws(word[|word| - 1])
    ensures forall i :: 0 <= i < |word| ==> word[i] < 0x80 && word[i] != COMMA
  {
    forall i | 0 <= i < |word| ensures word[i] < 0x80 && word[i] != COMMA && !IsOws(word[i]) {
      assert Lower(word[i]) == Lower(CHUNKED[i]);
    }
  }

  predicate Supported(t: seq<byte>) {
    Trim(t) == [] || SameIgnoringCase(Trim(t), CONTINUE)
  }

  /** Every member that is not empty is `100-continue`; there is one exactly when it is asked for. */
  lemma {:induction false} ExpectExact(tokens: seq<seq<byte>>, asked: bool)
    ensures ExpectMembers(tokens) == Ok(asked) <==>
            && (forall t :: t in tokens ==> Supported(t))
            && (asked <==> exists t :: t in tokens && Trim(t) != [])
    decreases |tokens|
  {
    hide Trim, SameIgnoringCase;
    if tokens == [] {
      return;
    }
    var head, rest := tokens[0], tokens[1..];
    ExpectExact(rest, true);
    ExpectExact(rest, false);
    assert forall t :: t in tokens <==> t == head || t in rest;
    assert head in tokens;
    if !Supported(head) {
      assert ExpectMembers(tokens).Err?;
    } else if Trim(head) == [] {
      assert ExpectMembers(tokens) == ExpectMembers(rest);
      assert (exists t :: t in tokens && Trim(t) != []) == (exists t :: t in rest && Trim(t) != []);
    } else {
      assert exists t :: t in tokens && Trim(t) != [];
      assert ExpectMembers(tokens) == (if ExpectMembers(rest).Ok? then Ok(true) else ExpectMembers(rest));
      var r := ExpectMembers(rest);
      if r.Ok? && r.value { assert r == Ok(true); } else if r.Ok? { assert r == Ok(false); }
      assert r.Ok? <==> forall t :: t in rest ==> Supported(t);
    }
  }

  /** The words the code compares with, as text. */
  lemma WordsExact()
    ensures CHUNKED == Ascii("chunked") && CLOSE == Ascii("close") && KEEP_ALIVE == Ascii("keep-alive")
    ensures CONTINUE == Ascii("100-continue") && [COMMA] == Ascii(",")
  {
  }

  /** Section 7.6.1 of RFC 9110: a token stands between commas, in any case, with whitespace around. */
  lemma TokenExact(value: seq<byte>, token: seq<byte>)
    ensures HasToken(value, token) <==>
            IsUtf8(value) && exists t :: PartOf(value, COMMA, t) && SameIgnoringCase(Trim(t), token)
  {
    hide Split, PartOf, Trim, IsUtf8, SameIgnoringCase;
    forall t: seq<byte> ensures t in Split(value, COMMA) <==> PartOf(value, COMMA, t) {
      PartExact(value, COMMA, t);
    }
  }

  /** Section 10.1.1 of RFC 9110: visible text, in which each member that is there is `100-continue`. */
  lemma ExpectValueExact(value: seq<byte>, asked: bool)
    ensures ParseExpect(value) == Ok(asked) <==>
            && (forall b :: b in value ==> b == 9 || 32 <= b <= 126)
            && (forall t :: PartOf(value, COMMA, t) ==> Supported(t))
            && (asked <==> exists t :: PartOf(value, COMMA, t) && Trim(t) != [])
    ensures ParseExpect(value) == Err(Invalid) <==> exists b :: b in value && b != 9 && !(32 <= b <= 126)
  {
    ExpectExact(Split(value, COMMA), asked);
    NotInvalid(Split(value, COMMA));
    hide Split, PartOf, Trim, Supported, ExpectMembers;
    forall t: seq<byte> ensures t in Split(value, COMMA) <==> PartOf(value, COMMA, t) {
      PartExact(value, COMMA, t);
    }
  }

  lemma {:induction false} NotInvalid(tokens: seq<seq<byte>>)
    ensures ExpectMembers(tokens) != Err(Invalid)
    decreases |tokens|
  {
    hide Trim, SameIgnoringCase;
    if tokens != [] {
      NotInvalid(tokens[1..]);
    }
  }

  /** A number in decimal digits. */
  function DigitsOf(n: nat): (s: seq<byte>)
    ensures s != [] && IsDigits(s)
  {
    if n < 10 then [48 + n] else DigitsOf(n / 10) + [48 + n % 10]
  }

  lemma {:induction false} DecimalRoundTrip(n: nat)
    ensures Decimal(DigitsOf(n)) == n
  {
    if 10 <= n {
      DecimalRoundTrip(n / 10);
      var s := DigitsOf(n);
      assert s[..|s| - 1] == DigitsOf(n / 10);
    } else {
      assert DigitsOf(n)[..0] == [];
    }
  }

  // ----- what the fold accepts -----

  ghost predicate Has(fields: seq<Field>, name: Name) {
    exists f :: f in fields && f.name == name
  }

  function Count(fields: seq<Field>, name: Name): nat
    decreases |fields|
  {
    if fields == [] then 0 else (if fields[0].name == name then 1 else 0) + Count(fields[1..], name)
  }

  /** Each field in itself, and all lengths the same. */
  ghost predicate FieldsOk(version: Version, fields: seq<Field>) {
    && (forall f :: f in fields && f.name == ContentLength ==> ParseLength(f.value).Ok?)
    && (forall f, g :: f in fields && g in fields && f.name == ContentLength && g.name == ContentLength ==>
          ParseLength(f.value) == ParseLength(g.value))
    && (forall f :: f in fields && f.name == TransferEncoding ==> ParseTransferEncoding(f.value, version).Ok?)
    && (forall f :: f in fields && f.name == Expect ==> ParseExpect(f.value).Ok?)
  }

  ghost predicate Acceptable(version: Version, sized: bool, fields: seq<Field>) {
    && FieldsOk(version, fields)
    && Count(fields, TransferEncoding) <= 1
    && !(Has(fields, ContentLength) && Has(fields, TransferEncoding))
    && (version == Http10 && sized ==> Has(fields, ContentLength))
  }

  /** What the fields say, in no particular order. */
  ghost predicate Says(version: Version, fields: seq<Field>, r: Framed) {
    && (r.contentLength.Some? <==> Has(fields, ContentLength))
    && (forall f :: f in fields && f.name == ContentLength ==> ParseLength(f.value) == Ok(r.contentLength.value))
    && (r.chunked <==> Has(fields, TransferEncoding))
    && (r.keepAlive <==> !AnyToken(fields, CLOSE) && (version == Http11 || AnyToken(fields, KEEP_ALIVE)))
    && (r.expectContinue <==> version == Http11 && AnyExpects(fields))
  }

  ghost predicate AnyToken(fields: seq<Field>, token: seq<byte>) {
    exists f :: f in fields && f.name == Connection && HasToken(f.value, token)
  }

  ghost predicate AnyExpects(fields: seq<Field>) {
    exists f :: f in fields && f.name == Expect && ParseExpect(f.value) == Ok(true)
  }

  // ----- the fold, as a reading of all fields at once -----

  /** What a scan knows after `fields`, whatever came before. */
  ghost predicate Scanned(version: Version, s: Scan, fields: seq<Field>, t: Scan) {
    && FieldsOk(version, fields)
    && (forall f :: f in fields && f.name == ContentLength && s.contentLength.Some? ==>
          ParseLength(f.value) == Ok(s.contentLength.value))
    && Count(fields, TransferEncoding) <= (if s.seenTe then 0 else 1)
    && (t.contentLength.Some? <==> s.contentLength.Some? || Has(fields, ContentLength))
    && (s.contentLength.Some? ==> t.contentLength == s.contentLength)
    && (forall f :: f in fields && f.name == ContentLength ==> ParseLength(f.value) == Ok(t.contentLength.value))
    && (t.seenTe <==> s.seenTe || Has(fields, TransferEncoding))
    && (t.chunked <==> s.chunked || Has(fields, TransferEncoding))
    && (t.close <==> s.close || AnyToken(fields, CLOSE))
    && (t.keepAlive <==> s.keepAlive || AnyToken(fields, KEEP_ALIVE))
    && (t.expects <==> s.expects || AnyExpects(fields))
  }

  lemma {:induction false} CountHas(fields: seq<Field>, name: Name)
    ensures Count(fields, name) == 0 <==> !Has(fields, name)
    decreases |fields|
  {
    if fields != [] {
      CountHas(fields[1..], name);
      assert fields[0] in fields && forall f :: f in fields <==> f == fields[0] || f in fields[1..];
    }
  }

  /** The first field and the rest, in each of the claims about all fields. */
  lemma HeadAndRest(version: Version, f: Field, rest: seq<Field>, name: Name, token: seq<byte>)
    ensures var fields := [f] + rest;
            && (Has(fields, name) <==> f.name == name || Has(rest, name))
            && (AnyToken(fields, token) <==> (f.name == Connection && HasToken(f.value, token)) || AnyToken(rest, token))
            && (AnyExpects(fields) <==> (f.name == Expect && ParseExpect(f.value) == Ok(true)) || AnyExpects(rest))
            && Count(fields, name) == (if f.name == name then 1 else 0) + Count(rest, name)
  {
    hide HasToken, ParseExpect;
    var fields := [f] + rest;
    assert fields[1..] == rest && f in fields;
    assert forall g :: g in fields <==> g == f || g in rest;
  }

  lemma FieldsOkSplit(version: Version, f: Field, rest: seq<Field>)
    ensures var fields := [f] + rest;
            FieldsOk(version, fields) <==>
              && FieldsOk(version, rest)
              && (f.name == ContentLength ==> ParseLength(f.value).Ok?)
              && (f.name == ContentLength ==>
                    forall g :: g in rest && g.name == ContentLength ==> ParseLength(g.value) == ParseLength(f.value))
              && (f.name == TransferEncoding ==> ParseTransferEncoding(f.value, version).Ok?)
              && (f.name == Expect ==> ParseExpect(f.value).Ok?)
  {
    hide ParseLength, ParseTransferEncoding, ParseExpect;
    assert forall g :: g in [f] + rest <==> g == f || g in rest;
  }

  lemma ScanTransferEncoding(version: Version, s: Scan, f: Field, rest: seq<Field>, t: Scan)
    requires f.name == TransferEncoding
    ensures var u := ScanField(s, f, version);
            Scanned(version, s, [f] + rest, t) <==> u.Ok? && Scanned(version, u.value, rest, t)
  {
    hide ParseLength, ParseTransferEncoding, HasToken, ParseExpect, FieldsOk, AnyToken, AnyExpects, Has, Count;
    FieldsOkSplit(version, f, rest);
    HeadAndRest(version, f, rest, ContentLength, CLOSE);
    HeadAndRest(version, f, rest, TransferEncoding, KEEP_ALIVE);
    CountHas(rest, TransferEncoding);
    assert forall g :: g in [f] + rest <==> g == f || g in rest;
    TransferEncodingExact(f.value, version);
  }

  lemma ScanContentLength(version: Version, s: Scan, f: Field, rest: seq<Field>, t: Scan)
    requires f.name == ContentLength
    ensures var u := ScanField(s, f, version);
            Scanned(version, s, [f] + rest, t) <==> u.Ok? && Scanned(version, u.value, rest, t)
  {
    hide ParseLength, ParseTransferEncoding, HasToken, ParseExpect, FieldsOk, AnyToken, AnyExpects, Has, Count;
    FieldsOkSplit(version, f, rest);
    HeadAndRest(version, f, rest, ContentLength, CLOSE);
    HeadAndRest(version, f, rest, TransferEncoding, KEEP_ALIVE);
    CountHas(rest, ContentLength);
    assert forall g :: g in [f] + rest <==> g == f || g in rest;
  }

  lemma ScanStep(version: Version, s: Scan, f: Field, rest: seq<Field>, t: Scan)
    ensures var u := ScanField(s, f, version);
            Scanned(version, s, [f] + rest, t) <==> u.Ok? && Scanned(version, u.value, rest, t)
  {
    hide ParseLength, ParseTransferEncoding, HasToken, ParseExpect, FieldsOk, AnyToken, AnyExpects, Has, Count;
    if f.name == TransferEncoding {
      ScanTransferEncoding(version, s, f, rest, t);
    } else if f.name == ContentLength {
      ScanContentLength(version, s, f, rest, t);
    } else {
      FieldsOkSplit(version, f, rest);
      HeadAndRest(version, f, rest, ContentLength, CLOSE);
      HeadAndRest(version, f, rest, TransferEncoding, KEEP_ALIVE);
      assert forall g :: g in [f] + rest <==> g == f || g in rest;
    }
  }

  lemma ScanNone(version: Version, s: Scan, t: Scan)
    ensures Scanned(version, s, [], t) <==> s == t
  {
    hide ParseLength, HasToken, ParseExpect, ParseTransferEncoding;
  }

  /** The fold reads each list of fields as a whole: both what it accepts and what it finds. */
  lemma {:induction false} ScanExact(version: Version, s: Scan, fields: seq<Field>, t: Scan)
    ensures ScanAll(s, fields, version) == Ok(t) <==> Scanned(version, s, fields, t)
    decreases |fields|
  {
    hide ScanField, Scanned;
    if fields == [] {
      ScanNone(version, s, t);
    } else {
      var u := ScanField(s, fields[0], version);
      assert fields == [fields[0]] + fields[1..];
      ScanStep(version, s, fields[0], fields[1..], t);
      if u.Ok? {
        ScanExact(version, u.value, fields[1..], t);
      }
    }
  }

  /** The scan of an acceptable list. */
  ghost function Found(version: Version, fields: seq<Field>, r: Framed): Scan {
    Scan(r.contentLength, r.chunked, Has(fields, TransferEncoding), AnyToken(fields, CLOSE), AnyToken(fields, KEEP_ALIVE),
         AnyExpects(fields))
  }

  /**
   The fold accepts exactly the acceptable lists of fields, and then says exactly what the
   fields say (section 6.3 of RFC 9112, sections 8.6 and 10.1.1 of RFC 9110).
   */
  lemma FramingExact(version: Version, sized: bool, fields: seq<Field>, r: Framed)
    ensures Frame(version, sized, fields) == Ok(r) <==> Acceptable(version, sized, fields) && Says(version, fields, r)
  {
    hide ParseLength, HasToken, ParseExpect, ParseTransferEncoding, ScanAll;
    if Frame(version, sized, fields) == Ok(r) {
      ScanExact(version, NOTHING, fields, ScanAll(NOTHING, fields, version).value);
    }
    if Acceptable(version, sized, fields) && Says(version, fields, r) {
      var t := Found(version, fields, r);
      ScanExact(version, NOTHING, fields, t);
    }
  }

  // ----- permutations -----

  lemma {:induction false} CountSplit(a: seq<Field>, b: seq<Field>, name: Name)
    ensures Count(a + b, name) == Count(a, name) + Count(b, name)
    decreases |a|
  {
    if a == [] {
      assert a + b == b;
    } else {
      assert (a + b)[0] == a[0] && (a + b)[1..] == a[1..] + b;
      CountSplit(a[1..], b, name);
    }
  }

  lemma WithoutOne(a: seq<Field>, b: seq<Field>, i: nat)
    requires multiset(a) == multiset(b) && a != [] && i < |b| && b[i] == a[0]
    ensures multiset(a[1..]) == multiset(b[..i] + b[i + 1..])
  {
    ToFront(a, 0);
    ToFront(b, i);
    assert a[..0] + a[1..] == a[1..];
    SameRest(a[0], a[1..], b[..i] + b[i + 1..]);
  }

  lemma SameRest(f: Field, s: seq<Field>, t: seq<Field>)
    requires multiset([f] + s) == multiset([f] + t)
    ensures multiset(s) == multiset(t)
  {
    assert multiset([f] + s) - multiset{f} == multiset(s);
    assert multiset([f] + t) - multiset{f} == multiset(t);
  }

  lemma {:induction false} CountPermuted(a: seq<Field>, b: seq<Field>, name: Name)
    requires multiset(a) == multiset(b)
    ensures Count(a, name) == Count(b, name)
    decreases |a|
  {
    if a == [] {
      assert |multiset(b)| == 0;
    } else {
      assert a[0] in multiset(a) && a[0] in multiset(b);
      var i :| 0 <= i < |b| && b[i] == a[0];
      var rest := b[..i] + b[i + 1..];
      assert a == [a[0]] + a[1..] && b == b[..i] + ([b[i]] + b[i + 1..]);
      WithoutOne(a, b, i);
      CountPermuted(a[1..], rest, name);
      CountSplit(b[..i], b[i + 1..], name);
      CountSplit(b[..i], [b[i]] + b[i + 1..], name);
      CountSplit([b[i]], b[i + 1..], name);
      CountSplit([a[0]], a[1..], name);
    }
  }

  lemma SameMembers(a: seq<Field>, b: seq<Field>)
    requires multiset(a) == multiset(b)
    ensures forall f :: f in a <==> f in b
  {
    forall f ensures f in a <==> f in b {
      assert f in a <==> f in multiset(a);
      assert f in b <==> f in multiset(b);
    }
  }

  lemma ClaimsPermuted(version: Version, sized: bool, a: seq<Field>, b: seq<Field>, r: Framed)
    requires multiset(a) == multiset(b)
    ensures Acceptable(version, sized, a) == Acceptable(version, sized, b)
    ensures Says(version, a, r) == Says(version, b, r)
  {
    SameMembers(a, b);
    CountPermuted(a, b, TransferEncoding);
    hide Count, ParseLength, HasToken, ParseExpect, ParseTransferEncoding;
  }

  /** Acceptance and everything that is read do not depend on the order of the fields. */
  lemma OrderDoesNotMatter(version: Version, sized: bool, a: seq<Field>, b: seq<Field>)
    requires multiset(a) == multiset(b)
    ensures Frame(version, sized, a).Ok? <==> Frame(version, sized, b).Ok?
    ensures Frame(version, sized, a).Ok? ==> Frame(version, sized, a) == Frame(version, sized, b)
  {
    hide Frame, Acceptable, Says;
    if Frame(version, sized, a).Ok? {
      var r := Frame(version, sized, a).value;
      ClaimsPermuted(version, sized, a, b, r);
      FramingExact(version, sized, a, r);
      FramingExact(version, sized, b, r);
    }
    if Frame(version, sized, b).Ok? {
      var r := Frame(version, sized, b).value;
      ClaimsPermuted(version, sized, a, b, r);
      FramingExact(version, sized, a, r);
      FramingExact(version, sized, b, r);
    }
  }

  /** Which error is reported may depend on it: here the first bad field decides. */
  lemma ErrorDependsOnOrder()
    ensures var length, demand := Field(ContentLength, [120]), Field(Expect, [120]);
            && Frame(Http11, false, [length, demand]) == Err(Invalid)
            && Frame(Http11, false, [demand, length]) == Err(ExpectationFailed)
  {
    var x: seq<byte> := [120];
    var length, demand := Field(ContentLength, x), Field(Expect, x);
    assert TrimOws(x) == x && !IsDigits(x);
    assert Split(x, COMMA) == [x] by { SplitWhole(x, COMMA); }
    assert WhiteStart(x) == 0 && WhiteEnd(x) == 0;
    assert ParseExpect(x) == Err(ExpectationFailed);
    assert [length, demand][1..] == [demand] && [demand, length][1..] == [length];
  }

  // ----- which error is reported -----

  /** Some field asks for an expectation that is not supported. */
  ghost predicate Demanding(fields: seq<Field>) {
    exists f :: f in fields && f.name == Expect && ParseExpect(f.value) == Err(ExpectationFailed)
  }

  /** The field is invalid in itself. */
  predicate Bad(version: Version, f: Field) {
    || (f.name == ContentLength && ParseLength(f.value).Err?)
    || (f.name == TransferEncoding && ParseTransferEncoding(f.value, version).Err?)
    || (f.name == Expect && ParseExpect(f.value) == Err(Invalid))
  }

  predicate Conflict(f: Field, g: Field) {
    f.name == ContentLength && g.name == ContentLength && ParseLength(f.value) != ParseLength(g.value)
  }

  /** An invalid field, two lengths that differ, or two transfer encodings. */
  ghost predicate Malformed(version: Version, fields: seq<Field>) {
    || (exists f :: f in fields && Bad(version, f))
    || (exists f, g :: f in fields && g in fields && Conflict(f, g))
    || 1 < Count(fields, TransferEncoding)
  }

  /** Nothing the scan rejects as invalid, coming from `s`. */
  ghost predicate Untroubled(version: Version, s: Scan, fields: seq<Field>) {
    && !Malformed(version, fields)
    && (s.seenTe ==> Count(fields, TransferEncoding) == 0)
    && (s.contentLength.Some? ==>
          forall f :: f in fields && f.name == ContentLength ==> ParseLength(f.value) == Ok(s.contentLength.value))
  }

  lemma UntroubledStep(version: Version, s: Scan, fields: seq<Field>)
    requires fields != [] && Untroubled(version, s, fields)
    ensures var f := fields[0];
            if f.name == Expect && ParseExpect(f.value) == Err(ExpectationFailed)
            then ScanField(s, f, version) == Err(ExpectationFailed)
            else ScanField(s, f, version).Ok? && Untroubled(version, ScanField(s, f, version).value, fields[1..])
  {
    hide ParseLength, ParseTransferEncoding, ParseExpect, HasToken;
    var f, rest := fields[0], fields[1..];
    assert f in fields && forall g :: g in rest ==> g in fields;
    assert !Bad(version, f);
    if f.name == ContentLength {
      forall g | g in rest && g.name == ContentLength ensures ParseLength(g.value) == ParseLength(f.value) {
        assert !Conflict(f, g);
      }
    }
    ExpectErrors(f.value);
  }

  lemma ExpectErrors(value: seq<byte>)
    ensures ParseExpect(value).Err? ==> ParseExpect(value) == Err(Invalid) || ParseExpect(value) == Err(ExpectationFailed)
  {
    hide ParseExpect;
    var e := ParseExpect(value);
    assert e.Err? ==> e.error.Invalid? || e.error.ExpectationFailed?;
  }

  /** Without anything else to reject, an unsupported expectation is what is reported. */
  lemma {:induction false} ScanDemand(version: Version, s: Scan, fields: seq<Field>)
    requires Untroubled(version, s, fields) && Demanding(fields)
    ensures ScanAll(s, fields, version) == Err(ExpectationFailed)
    decreases |fields|
  {
    hide Untroubled, ScanField, ParseExpect;
    var f :| f in fields && f.name == Expect && ParseExpect(f.value) == Err(ExpectationFailed);
    UntroubledStep(version, s, fields);
    var next := ScanField(s, fields[0], version);
    if next.Ok? {
      assert f in fields[1..];
      ScanDemand(version, next.value, fields[1..]);
    }
  }

  lemma {:induction false} ScanInvalid(version: Version, s: Scan, fields: seq<Field>)
    requires !Demanding(fields) && ScanAll(s, fields, version).Err?
    ensures ScanAll(s, fields, version) == Err(Invalid)
    decreases |fields|
  {
    hide ParseLength, ParseTransferEncoding, ParseExpect, HasToken;
    var next := ScanField(s, fields[0], version);
    assert fields[0] in fields && forall g :: g in fields[1..] ==> g in fields;
    if next.Ok? {
      ScanInvalid(version, next.value, fields[1..]);
    } else if fields[0].name == ContentLength {
      LengthError(fields[0].value);
    } else if fields[0].name == TransferEncoding {
      EncodingError(fields[0].value, version);
    } else {
      ExpectErrors(fields[0].value);
    }
  }

  lemma LengthError(value: seq<byte>)
    ensures ParseLength(value).Err? ==> ParseLength(value) == Err(Invalid)
  {
  }

  lemma EncodingError(value: seq<byte>, version: Version)
    ensures ParseTransferEncoding(value, version).Err? ==> ParseTransferEncoding(value, version) == Err(Invalid)
  {
  }

  /** What a rejected head reports when only one of the two errors is there to report. */
  lemma OneError(version: Version, sized: bool, fields: seq<Field>)
    requires Frame(version, sized, fields).Err?
    ensures !Demanding(fields) ==> Frame(version, sized, fields) == Err(Invalid)
    ensures Demanding(fields) && !Malformed(version, fields) ==> Frame(version, sized, fields) == Err(ExpectationFailed)
  {
    hide ScanAll, Demanding, Malformed;
    var s := ScanAll(NOTHING, fields, version);
    if !Demanding(fields) && s.Err? {
      ScanInvalid(version, NOTHING, fields);
    }
    if Demanding(fields) && !Malformed(version, fields) {
      ScanDemand(version, NOTHING, fields);
    }
  }

  lemma ToFront(a: seq<Field>, i: nat)
    requires i < |a|
    ensures multiset([a[i]] + (a[..i] + a[i + 1..])) == multiset(a)
  {
    assert a == a[..i] + [a[i]] + a[i + 1..];
  }

  lemma TakeOut(a: seq<Field>, i: nat, j: nat) returns (rest: seq<Field>)
    requires i < |a|
    ensures multiset([a[i]] + rest) == multiset(a) && |rest| == |a| - 1 && (i < j < |a| ==> rest[j - 1] == a[j])
  {
    rest := a[..i] + a[i + 1..];
    ToFront(a, i);
  }

  lemma PairToFront(a: seq<Field>, i: nat, j: nat) returns (b: seq<Field>)
    requires i < j < |a|
    ensures multiset(b) == multiset(a) && 2 <= |b| && b[0] == a[i] && b[1] == a[j]
  {
    var rest := TakeOut(a, i, j);
    var more := TakeOut(rest, j - 1, j);
    SameBehind(a[i], [a[j]] + more, rest);
    b := [a[i]] + ([a[j]] + more);
  }

  lemma SameBehind(f: Field, s: seq<Field>, t: seq<Field>)
    requires multiset(s) == multiset(t)
    ensures multiset([f] + s) == multiset([f] + t)
  {
  }

  lemma {:induction false} TwoOf(fields: seq<Field>, name: Name) returns (i: nat, j: nat)
    requires 1 < Count(fields, name)
    ensures i < j < |fields| && fields[i].name == name && fields[j].name == name
    decreases |fields|
  {
    if fields[0].name == name {
      CountHas(fields[1..], name);
      var f :| f in fields[1..] && f.name == name;
      var k :| 0 <= k < |fields[1..]| && fields[1..][k] == f;
      i, j := 0, k + 1;
    } else {
      i, j := TwoOf(fields[1..], name);
      i, j := i + 1, j + 1;
    }
  }

  /** The first two fields are enough to be rejected as invalid. */
  predicate BadStart(version: Version, fields: seq<Field>) {
    || (fields != [] && Bad(version, fields[0]))
    || (1 < |fields| && Conflict(fields[0], fields[1]))
    || (1 < |fields| && fields[0].name == TransferEncoding && fields[1].name == TransferEncoding)
  }

  lemma BadStartInvalid(version: Version, sized: bool, fields: seq<Field>)
    requires BadStart(version, fields)
    ensures Frame(version, sized, fields) == Err(Invalid)
  {
    hide ParseLength, ParseTransferEncoding, ParseExpect, HasToken;
    LengthError(fields[0].value);
    EncodingError(fields[0].value, version);
    var next := ScanField(NOTHING, fields[0], version);
    if next.Ok? {
      LengthError(fields[1].value);
      assert fields[1..][0] == fields[1];
      assert ScanField(next.value, fields[1], version) == Err(Invalid);
      assert ScanAll(next.value, fields[1..], version) == Err(Invalid);
      assert ScanAll(NOTHING, fields, version) == Err(Invalid);
    } else {
      assert ScanAll(NOTHING, fields, version) == Err(Invalid);
    }
  }

  lemma MalformedToFront(version: Version, a: seq<Field>) returns (b: seq<Field>)
    requires Malformed(version, a)
    ensures multiset(b) == multiset(a) && BadStart(version, b)
  {
    hide Bad, Conflict, Count;
    if f :| f in a && Bad(version, f) {
      var i :| 0 <= i < |a| && a[i] == f;
      ToFront(a, i);
      b := [a[i]] + (a[..i] + a[i + 1..]);
    } else if f, g :| f in a && g in a && Conflict(f, g) {
      Different(f, g);
      var i :| 0 <= i < |a| && a[i] == f;
      var j :| 0 <= j < |a| && a[j] == g;
      b := PairToFront(a, Min(i, j), Max(i, j));
    } else {
      var i, j := TwoOf(a, TransferEncoding);
      b := PairToFront(a, i, j);
    }
  }

  lemma Different(f: Field, g: Field)
    requires Conflict(f, g)
    ensures f != g && Conflict(g, f)
  {
  }

  lemma DemandToFront(version: Version, sized: bool, a: seq<Field>) returns (b: seq<Field>)
    requires Demanding(a)
    ensures multiset(b) == multiset(a) && Frame(version, sized, b) == Err(ExpectationFailed)
  {
    hide ParseExpect;
    var f :| f in a && f.name == Expect && ParseExpect(f.value) == Err(ExpectationFailed);
    var i :| 0 <= i < |a| && a[i] == f;
    ToFront(a, i);
    b := [a[i]] + (a[..i] + a[i + 1..]);
    assert ScanField(NOTHING, b[0], version) == Err(ExpectationFailed);
  }

  lemma TroublePermuted(version: Version, a: seq<Field>, b: seq<Field>)
    requires multiset(a) == multiset(b)
    ensures Demanding(a) == Demanding(b) && Malformed(version, a) == Malformed(version, b)
  {
    SameMembers(a, b);
    CountPermuted(a, b, TransferEncoding);
    hide Count, ParseExpect, Bad, Conflict;
  }

  /**
   A rejected head is rejected in every order of its fields. All orders report the same error
   if and only if the head does not both ask for an unsupported expectation and hold something
   the scan rejects as invalid; then it is the one of the two that is there.
   */
  lemma ErrorOrderExact(version: Version, sized: bool, a: seq<Field>)
    requires Frame(version, sized, a).Err?
    ensures (forall b: seq<Field> :: multiset(b) == multiset(a) ==> Frame(version, sized, b) == Frame(version, sized, a)) <==>
            !(Demanding(a) && Malformed(version, a))
  {
    hide Frame, Demanding, Malformed;
    if Demanding(a) && Malformed(version, a) {
      var b := DemandToFront(version, sized, a);
      var c := MalformedToFront(version, a);
      BadStartInvalid(version, sized, c);
    } else {
      OneError(version, sized, a);
      forall b: seq<Field> | multiset(b) == multiset(a) ensures Frame(version, sized, b) == Frame(version, sized, a) {
        OrderDoesNotMatter(version, sized, a, b);
        TroublePermuted(version, a, b);
        OneError(version, sized, b);
      }
    }
  }

  /** A head that is accepted never leaves two framings of its body to choose from. */
  lemma OneFraming(version: Version, sized: bool, fields: seq<Field>)
    requires Frame(version, sized, fields).Ok?
    ensures var r := Frame(version, sized, fields).value;
            && !(r.chunked && r.contentLength.Some?)
            && (r.chunked ==> version == Http11)
            && (version == Http10 && sized ==> r.contentLength.Some?)
  {
    var r := Frame(version, sized, fields).value;
    FramingExact(version, sized, fields, r);
    hide Frame, ParseLength, HasToken, ParseExpect;
    if r.chunked {
      var f :| f in fields && f.name == TransferEncoding;
    }
  }
}
