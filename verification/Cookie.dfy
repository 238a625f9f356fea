/** The session cookie: how the server writes it, and how it finds and verifies it again. */
module Cookie {
  import opened Bytes

  /** `mac` is the keyed hash, 32 bytes; `attributes` is what follows the value in `Set-Cookie`. */
  datatype Config = Config(name: string, mac: string -> seq<byte>, ttl: nat, attributes: string)

  /** The name has no `;` and no leading blank; the attributes begin with `;`. */
  ghost predicate ValidConfig(cfg: Config) {
    && (forall id :: |cfg.mac(id)| == 32)
    && ';' !in cfg.name && (cfg.name != "" ==> !IsBlank(cfg.name[0]))
    && (cfg.attributes != "" ==> cfg.attributes[0] == ';')
  }

  datatype SessionError = MalformedCookie | InvalidIdLength | InvalidMacLength | InvalidMacEncoding | MacMismatch

  datatype Result<+T> = Ok(value: T) | Err(error: SessionError)

  // ----- hex -----

  function HexChar(v: nat): char
    requires v < 16
  {
    if v < 10 then (48 + v) as char else (87 + v) as char
  }

  function HexVal(c: char): Option<nat> {
    if '0' <= c <= '9' then Some(c as int - 48)
    else if 'a' <= c <= 'f' then Some(c as int - 87)
    else if 'A' <= c <= 'F' then Some(c as int - 55)
    else None
  }

  function HexEncode(bytes: seq<byte>): (s: string)
    ensures |s| == 2 * |bytes|
    decreases |bytes|
  {
    if bytes == [] then "" else HexEncode(bytes[..|bytes| - 1]) + HexPair(bytes[|bytes| - 1])
  }

  function HexPair(b: byte): string {
    [HexChar(b / 16), HexChar(b % 16)]
  }

  /** Either case, two digits a byte. */
  function HexDecode(s: string): Option<seq<byte>>
    decreases |s|
  {
    if s == "" then Some([])
    else if |s| == 1 then None
    else
      var n := |s| - 2;
      var before, high, low := HexDecode(s[..n]), HexVal(s[n]), HexVal(s[n + 1]);
      if before.None? || high.None? || low.None? then None
      else
        assert high.value < 16 && low.value < 16;
        Some(before.value + [high.value * 16 + low.value])
  }

  /** The loop over the bytes. */
  method EncodeHex(bytes: seq<byte>) returns (s: string)
    ensures s == HexEncode(bytes)
  {
    s := "";
    var i := 0;
    while i < |bytes|
      invariant 0 <= i <= |bytes| && s == HexEncode(bytes[..i])
    {
      assert bytes[..i + 1][..i] == bytes[..i];
      s := s + [HexChar(bytes[i] / 16)] + [HexChar(bytes[i] % 16)];
      i := i + 1;
    }
    assert bytes[..i] == bytes;
  }

  /** No character that separates a cookie from anything. */
  predicate Plain(s: string) {
    forall c :: c in s ==> c != '.' && c != ';' && !IsBlank(c)
  }

  lemma {:induction false} HexRoundTrip(bytes: seq<byte>)
    ensures HexDecode(HexEncode(bytes)) == Some(bytes)
    ensures Plain(HexEncode(bytes))
    decreases |bytes|
  {
    hide HexDecode, HexPair, Plain;
    if bytes == [] {
      HexNothing();
    } else {
      var n := |bytes| - 1;
      HexRoundTrip(bytes[..n]);
      HexLast(HexEncode(bytes[..n]), bytes[..n], bytes[n]);
      assert bytes[..n] + [bytes[n]] == bytes;
    }
  }

  lemma HexNothing()
    ensures HexDecode("") == Some([]) && Plain("")
  {
  }

  /** The two digits of one more byte. */
  lemma HexLast(s: string, bytes: seq<byte>, b: byte)
    requires HexDecode(s) == Some(bytes) && Plain(s)
    ensures HexDecode(s + HexPair(b)) == Some(bytes + [b])
    ensures Plain(s + HexPair(b))
  {
    hide HexChar, HexVal, IsBlank;
    var high, low, t := b / 16, b % 16, s + HexPair(b);
    DigitPlain(high);
    DigitPlain(low);
    assert t[..|t| - 2] == s && t[|t| - 2] == HexChar(high) && t[|t| - 1] == HexChar(low);
    assert high * 16 + low == b;
    assert forall c :: c in t ==> c in s || c == HexChar(high) || c == HexChar(low);
  }

  lemma DigitPlain(v: nat)
    requires v < 16
    ensures var c := HexChar(v); HexVal(c) == Some(v) && c != '.' && c != ';' && !IsBlank(c)
  {
  }

  // ----- text -----

  predicate IsBlank(c: char) {
    c == ' ' || c == '\t'
  }

  function TrimStart(s: string): string
    decreases |s|
  {
    if s != "" && IsBlank(s[0]) then TrimStart(s[1..]) else s
  }

  function TrimEnd(s: string): string
    decreases |s|
  {
    if s != "" && IsBlank(s[|s| - 1]) then TrimEnd(s[..|s| - 1]) else s
  }

  function Trim(s: string): string {
    TrimEnd(TrimStart(s))
  }

  function Split(s: string): (parts: seq<string>)
    ensures parts != []
    decreases |s|
  {
    if s == "" then [""]
    else
      var rest := Split(s[1..]);
      if s[0] == ';' then [""] + rest else [[s[0]] + rest[0]] + rest[1..]
  }

  function StripPrefix(s: string, prefix: string): Option<string> {
    if prefix <= s then Some(s[|prefix|..]) else None
  }

  // ----- what hex reads -----

  function LowerHex(c: char): char {
    if 'A' <= c <= 'F' then (c as int + 32) as char else c
  }

  function LowerAll(s: string): (t: string)
    ensures |t| == |s| && forall i :: 0 <= i < |s| ==> t[i] == LowerHex(s[i])
  {
    seq(|s|, i requires 0 <= i < |s| => LowerHex(s[i]))
  }

  /** Hex of either case decodes to the bytes that encode to it in lower case, and nothing else does. */
  lemma {:induction false} HexDecodeExact(s: string, bytes: seq<byte>)
    ensures HexDecode(s) == Some(bytes) <==> LowerAll(s) == HexEncode(bytes)
    decreases |s|
  {
    hide HexDecode, HexEncode, LowerAll;
    if |s| <= 1 || bytes == [] {
      HexShort(s, bytes);
    } else {
      HexDecodeExact(s[..|s| - 2], bytes[..|bytes| - 1]);
      HexLonger(s, bytes);
    }
  }

  lemma HexShort(s: string, bytes: seq<byte>)
    requires |s| <= 1 || bytes == []
    ensures HexDecode(s) == Some(bytes) <==> LowerAll(s) == HexEncode(bytes)
  {
    HexDecodeLength(s);
    hide LowerHex, HexVal, HexPair;
    if s == "" && bytes == [] {
      assert LowerAll(s) == "";
    }
  }

  lemma HexLonger(s: string, bytes: seq<byte>)
    requires |s| >= 2 && bytes != []
    requires HexDecode(s[..|s| - 2]) == Some(bytes[..|bytes| - 1]) <==> LowerAll(s[..|s| - 2]) == HexEncode(bytes[..|bytes| - 1])
    ensures HexDecode(s) == Some(bytes) <==> LowerAll(s) == HexEncode(bytes)
  {
    hide HexDecode, HexEncode, HexChar, HexVal, LowerHex, LowerAll, HexPair;
    var n, m := |s| - 2, |bytes| - 1;
    DigitExact(s[n], bytes[m] / 16);
    DigitExact(s[n + 1], bytes[m] % 16);
    HexDecodeLast(s, bytes);
    LowerLast(s);
    HexEncodeLast(bytes);
    PairExact(LowerHex(s[n]), LowerHex(s[n + 1]), bytes[m]);
    SameEnds(LowerAll(s[..n]), [LowerHex(s[n]), LowerHex(s[n + 1])], HexEncode(bytes[..m]), HexPair(bytes[m]));
  }

  lemma LowerLast(s: string)
    requires |s| >= 2
    ensures LowerAll(s) == LowerAll(s[..|s| - 2]) + [LowerHex(s[|s| - 2]), LowerHex(s[|s| - 1])]
  {
    hide LowerHex;
  }

  lemma HexEncodeLast(bytes: seq<byte>)
    requires bytes != []
    ensures HexEncode(bytes) == HexEncode(bytes[..|bytes| - 1]) + HexPair(bytes[|bytes| - 1])
    ensures |HexPair(bytes[|bytes| - 1])| == 2
  {
  }

  lemma PairExact(a: char, b: char, x: byte)
    ensures [a, b] == HexPair(x) <==> a == HexChar(x / 16) && b == HexChar(x % 16)
  {
    hide HexChar;
    if [a, b] == HexPair(x) {
      assert [a, b][0] == HexPair(x)[0] && [a, b][1] == HexPair(x)[1];
    }
  }

  lemma SameEnds(a: string, b: string, c: string, d: string)
    requires |b| == |d|
    ensures a + b == c + d <==> a == c && b == d
  {
    if a + b == c + d {
      assert |a| == |c|;
      assert a == (a + b)[..|a|] && c == (c + d)[..|a|];
      assert b == (a + b)[|a|..] && d == (c + d)[|a|..];
    }
  }

  lemma {:induction false} HexDecodeLength(s: string)
    ensures HexDecode(s).Some? ==> |s| == 2 * |HexDecode(s).value|
    decreases |s|
  {
    if |s| > 1 {
      HexDecodeLength(s[..|s| - 2]);
    }
  }

  lemma HexDecodeLast(s: string, bytes: seq<byte>)
    requires |s| >= 2 && bytes != []
    ensures var n, m := |s| - 2, |bytes| - 1;
            HexDecode(s) == Some(bytes) <==>
              && HexDecode(s[..n]) == Some(bytes[..m])
              && HexVal(s[n]) == Some(bytes[m] / 16) && HexVal(s[n + 1]) == Some(bytes[m] % 16)
  {
    HexDecodeStep(s);
    hide HexVal, HexDecode;
    var n, m := |s| - 2, |bytes| - 1;
    HexDigits(s[n]);
    HexDigits(s[n + 1]);
    var before, high, low := HexDecode(s[..n]), HexVal(s[n]), HexVal(s[n + 1]);
    if before.Some? && high.Some? && low.Some? {
      var b: byte := high.value * 16 + low.value;
      SameLast(before.value, b, bytes);
      Nibbles(b, high.value, low.value);
      Nibbles(bytes[m], bytes[m] / 16, bytes[m] % 16);
    }
  }

  lemma HexDecodeStep(s: string)
    requires |s| >= 2
    ensures var n := |s| - 2;
            var before, high, low := HexDecode(s[..n]), HexVal(s[n]), HexVal(s[n + 1]);
            (high.Some? ==> high.value < 16) && (low.Some? ==> low.value < 16)
            && HexDecode(s) == if before.None? || high.None? || low.None? then None
                               else Some(before.value + [high.value * 16 + low.value])
  {
  }

  lemma SameLast(before: seq<byte>, b: byte, bytes: seq<byte>)
    requires bytes != []
    ensures before + [b] == bytes <==> before == bytes[..|bytes| - 1] && b == bytes[|bytes| - 1]
  {
    assert bytes == bytes[..|bytes| - 1] + [bytes[|bytes| - 1]];
    if before + [b] == bytes {
      assert before == (before + [b])[..|before|];
    }
  }

  lemma Nibbles(b: byte, high: nat, low: nat)
    requires low < 16
    ensures b == high * 16 + low <==> b / 16 == high && b % 16 == low
  {
  }

  lemma HexDigits(c: char)
    ensures HexVal(c).Some? ==> HexVal(c).value < 16
  {
  }

  /** The alphabet of the encoder. */
  lemma HexAlphabet(v: nat)
    requires v < 16
    ensures HexChar(v) == "0123456789abcdef"[v]
  {
  }

  lemma DigitExact(c: char, v: nat)
    requires v < 16
    ensures HexVal(c) == Some(v) <==> LowerHex(c) == HexChar(v)
  {
  }

  // ----- writing the cookie -----

  function CookieValue(cfg: Config, id: string): string {
    id + "." + HexEncode(cfg.mac(id))
  }

  function BuildSetCookie(cfg: Config, id: string): string {
    cfg.name + "=" + CookieValue(cfg, id) + cfg.attributes
  }

  // ----- reading it -----

  /** The value, if this pair of a `Cookie` header is ours. */
  function Claim(name: string, pair: string): Option<string> {
    var rest := StripPrefix(Trim(pair), name);
    if rest.None? then None
    else
      var value := StripPrefix(TrimStart(rest.value), "=");
      if value.None? then None else Some(Trim(value.value))
  }

  predicate Blanks(s: string) {
    forall c :: c in s ==> IsBlank(c)
  }

  predicate NoBlankEnds(s: string) {
    s != "" ==> !IsBlank(s[0]) && !IsBlank(s[|s| - 1])
  }

  /** A pair of ours: the name, `=`, and the value, with blanks around each. */
  predicate IsPair(name: string, pair: string, value: string, b1: string, b2: string, b3: string, b4: string) {
    && Blanks(b1) && Blanks(b2) && Blanks(b3) && Blanks(b4) && NoBlankEnds(value)
    && pair == b1 + name + b2 + "=" + b3 + value + b4
  }

  /** A pair is claimed for a name exactly if it is that name, `=`, and the value. */
  lemma ClaimExact(name: string, pair: string, value: string)
    requires name != "" ==> !IsBlank(name[0])
    ensures Claim(name, pair) == Some(value) <==> exists b1, b2, b3, b4 :: IsPair(name, pair, value, b1, b2, b3, b4)
  {
    hide IsBlank, Blanks, NoBlankEnds, TrimStart, TrimEnd;
    if Claim(name, pair) == Some(value) {
      var t := Trim(pair);
      var b1, b4 := TrimParts(pair);
      var rest := t[|name|..];
      var u := TrimStart(rest);
      var b2 := StartParts(rest);
      var v := u[1..];
      var b3, b5 := TrimParts(v);
      assert t == name + rest && u == "=" + v;
      BlanksJoin(b5, b4);
      assert pair == b1 + (name + (b2 + ("=" + (b3 + value + b5)))) + b4;
      assert pair == b1 + name + b2 + "=" + b3 + value + (b5 + b4);
      assert IsPair(name, pair, value, b1, b2, b3, b5 + b4);
    }
    if b1, b2, b3, b4 :| IsPair(name, pair, value, b1, b2, b3, b4) {
      PairClaimed(name, pair, value, b1, b2, b3, b4);
    }
  }

  lemma BlanksJoin(a: string, b: string)
    requires Blanks(a) && Blanks(b)
    ensures Blanks(a + b)
  {
  }

  lemma {:induction false} StartParts(s: string) returns (blanks: string)
    ensures Blanks(blanks) && s == blanks + TrimStart(s) && (TrimStart(s) != "" ==> !IsBlank(TrimStart(s)[0]))
    decreases |s|
  {
    blanks := "";
    if s != "" && IsBlank(s[0]) {
      var rest := StartParts(s[1..]);
      blanks := [s[0]] + rest;
      assert s == [s[0]] + s[1..];
    }
  }

  lemma {:induction false} EndParts(s: string) returns (blanks: string)
    ensures Blanks(blanks) && s == TrimEnd(s) + blanks && TrimEnd(s) <= s
    ensures TrimEnd(s) != "" ==> !IsBlank(TrimEnd(s)[|TrimEnd(s)| - 1])
    decreases |s|
  {
    blanks := "";
    if s != "" && IsBlank(s[|s| - 1]) {
      var n := |s| - 1;
      var t := TrimEnd(s);
      assert t == TrimEnd(s[..n]);
      hide TrimEnd, IsBlank;
      var rest := EndParts(s[..n]);
      blanks := rest + [s[n]];
      assert s == s[..n] + [s[n]];
    }
  }

  lemma TrimParts(s: string) returns (before: string, after: string)
    ensures Blanks(before) && Blanks(after) && s == before + Trim(s) + after && NoBlankEnds(Trim(s))
  {
    hide TrimStart, TrimEnd, Blanks, IsBlank;
    before := StartParts(s);
    after := EndParts(TrimStart(s));
  }

  lemma {:induction false} TrimStartOf(blanks: string, s: string)
    requires Blanks(blanks) && (s != "" ==> !IsBlank(s[0]))
    ensures TrimStart(blanks + s) == s
    decreases |blanks|
  {
    if blanks == "" {
      assert blanks + s == s;
    } else {
      assert blanks[0] in blanks && (blanks + s)[1..] == blanks[1..] + s;
      TrimStartOf(blanks[1..], s);
    }
  }

  lemma {:induction false} TrimEndOf(s: string, blanks: string)
    requires Blanks(blanks) && (s != "" ==> !IsBlank(s[|s| - 1]))
    ensures TrimEnd(s + blanks) == s
    decreases |blanks|
  {
    if blanks == "" {
      assert s + blanks == s;
    } else {
      var n := |blanks| - 1;
      assert blanks[n] in blanks && (s + blanks)[..|s + blanks| - 1] == s + blanks[..n];
      TrimEndOf(s, blanks[..n]);
    }
  }

  lemma TrimOf(before: string, s: string, after: string)
    requires Blanks(before) && Blanks(after) && NoBlankEnds(s) && s != ""
    ensures Trim(before + s + after) == s
  {
    hide TrimStart, TrimEnd, Blanks;
    TrimStartOf(before, s + after);
    assert before + s + after == before + (s + after);
    TrimEndOf(s, after);
  }

  lemma PairClaimed(name: string, pair: string, value: string, b1: string, b2: string, b3: string, b4: string)
    requires (name != "" ==> !IsBlank(name[0])) && IsPair(name, pair, value, b1, b2, b3, b4)
    ensures Claim(name, pair) == Some(value)
  {
    hide TrimStart, TrimEnd, Blanks, Claim;
    NoBlanks();
    BlanksJoin(b1, b2);
    BlanksJoin(b3, b4);
    if name == "" && value == "" {
      assert pair == (b1 + b2) + (name + "" + "=" + "" + value) + (b3 + b4);
      CoreClaimed(name, pair, value, b1 + b2, "", "", b3 + b4);
    } else if name == "" {
      assert pair == (b1 + b2) + (name + "" + "=" + b3 + value) + b4;
      CoreClaimed(name, pair, value, b1 + b2, "", b3, b4);
    } else if value == "" {
      assert pair == b1 + (name + b2 + "=" + "" + value) + (b3 + b4);
      CoreClaimed(name, pair, value, b1, b2, "", b3 + b4);
    } else {
      assert pair == b1 + (name + b2 + "=" + b3 + value) + b4;
      CoreClaimed(name, pair, value, b1, b2, b3, b4);
    }
  }

  /** The same when the blanks at both ends are all that trimming takes. */
  lemma CoreClaimed(name: string, pair: string, value: string, lead: string, gap: string, sep: string, tail: string)
    requires Blanks(lead) && Blanks(gap) && Blanks(sep) && Blanks(tail) && NoBlankEnds(value)
    requires pair == lead + (name + gap + "=" + sep + value) + tail
    requires if name == "" then gap == "" else !IsBlank(name[0])
    requires value == "" ==> sep == ""
    ensures Claim(name, pair) == Some(value)
  {
    hide TrimStart, TrimEnd, Trim, Blanks, Claim;
    var core, text := name + gap + "=" + sep + value, sep + value;
    CoreEnds(name, gap, sep, value);
    TrimOf(lead, core, tail);
    TrimStartOf(gap, "=" + text);
    ValueTrimmed(sep, value);
    assert core == name + (gap + ("=" + text));
    ClaimOf(name, pair, gap + ("=" + text), text);
  }

  lemma CoreEnds(name: string, gap: string, sep: string, value: string)
    requires (if name == "" then gap == "" else !IsBlank(name[0])) && NoBlankEnds(value) && (value == "" ==> sep == "")
    ensures NoBlankEnds(name + gap + "=" + sep + value)
  {
    var core := name + gap + "=" + sep + value;
    assert core[|core| - 1] == (if value == "" then '=' else value[|value| - 1]);
    assert core[0] == (if name == "" then '=' else name[0]);
  }

  lemma ClaimOf(name: string, pair: string, rest: string, text: string)
    requires Trim(pair) == name + rest && TrimStart(rest) == "=" + text
    ensures Claim(name, pair) == Some(Trim(text))
  {
    hide Trim, TrimStart;
    assert (name + rest)[..|name|] == name && (name + rest)[|name|..] == rest;
    assert ("=" + text)[..1] == "=" && ("=" + text)[1..] == text;
  }

  lemma ValueTrimmed(sep: string, value: string)
    requires Blanks(sep) && NoBlankEnds(value) && (value == "" ==> sep == "")
    ensures Trim(sep + value) == value
  {
    hide TrimStart, TrimEnd, Blanks;
    NoBlanks();
    if value == "" {
      assert sep + value == "" && "" + "" == "";
      TrimStartOf("", "");
      TrimEndOf("", "");
    } else {
      TrimOf(sep, value, "");
      assert sep + value + "" == sep + value;
    }
  }

  lemma NoBlanks()
    ensures Blanks("")
  {
  }

  function FirstClaim(name: string, pairs: seq<string>): Option<string>
    decreases |pairs|
  {
    if pairs == [] then None
    else if Claim(name, pairs[0]).Some? then Claim(name, pairs[0]) else FirstClaim(name, pairs[1..])
  }

  /** The headers in order; one that is not visible ASCII (`None`) ends the search. */
  function ExtractCookie(name: string, headers: seq<Option<string>>): Option<string>
    decreases |headers|
  {
    if headers == [] || headers[0].None? then None
    else
      var found := FirstClaim(name, Split(headers[0].value));
      if found.Some? then found else ExtractCookie(name, headers[1..])
  }

  /** Some pair of the header claims the name. */
  predicate Claims(name: string, header: Option<string>) {
    header.Some? && FirstClaim(name, Split(header.value)).Some?
  }

  /** The headers that are visible ASCII. */
  function Readable(headers: seq<Option<string>>): seq<Option<string>>
    decreases |headers|
  {
    if headers == [] then []
    else (if headers[0].Some? then [headers[0]] else []) + Readable(headers[1..])
  }

  /** An unreadable header at `i` stands before `j`, the first one to claim the name. */
  predicate Shadows(name: string, headers: seq<Option<string>>, i: nat, j: nat) {
    && i < j < |headers| && headers[i].None? && Claims(name, headers[j])
    && forall k :: 0 <= k < j ==> !Claims(name, headers[k])
  }

  ghost predicate Shadowed(name: string, headers: seq<Option<string>>) {
    exists i: nat, j: nat :: Shadows(name, headers, i, j)
  }

  /**
   The search finds what it would find among the readable headers alone, if and only if no
   unreadable header stands before the first one that claims the name.
   */
  lemma {:induction false} ExtractExact(name: string, headers: seq<Option<string>>)
    ensures ExtractCookie(name, headers) == ExtractCookie(name, Readable(headers)) <==> !Shadowed(name, headers)
    decreases |headers|
  {
    hide FirstClaim, Split;
    if headers == [] {
      return;
    }
    var rest := headers[1..];
    if headers[0].None? {
      UnreadableFirst(name, headers);
    } else {
      ReadableFirst(name, headers);
      if !Claims(name, headers[0]) {
        ExtractExact(name, rest);
        ShadowedBehind(name, headers);
      } else {
        forall i: nat, j: nat ensures !Shadows(name, headers, i, j) {
        }
      }
    }
  }

  lemma ReadableFirst(name: string, headers: seq<Option<string>>)
    requires headers != [] && headers[0].Some?
    ensures var all := Readable(headers);
            ExtractCookie(name, all) ==
            if Claims(name, headers[0]) then FirstClaim(name, Split(headers[0].value))
            else ExtractCookie(name, Readable(headers[1..]))
  {
    hide FirstClaim, Split;
    assert ([headers[0]] + Readable(headers[1..]))[1..] == Readable(headers[1..]);
  }

  /** Behind an unreadable header nothing is found, though a claim there would be. */
  lemma UnreadableFirst(name: string, headers: seq<Option<string>>)
    requires headers != [] && headers[0].None?
    ensures ExtractCookie(name, headers) == ExtractCookie(name, Readable(headers)) <==> !Shadowed(name, headers)
  {
    hide FirstClaim, Split, Claims;
    FoundIffClaimed(name, headers);
    if j: nat :| j < |headers| && Claims(name, headers[j]) {
      var first := FirstClaimer(name, headers, j);
      NotUnreadable(name, headers[first]);
      assert Shadows(name, headers, 0, first);
    }
  }

  lemma NotUnreadable(name: string, header: Option<string>)
    requires Claims(name, header)
    ensures header.Some?
  {
  }

  lemma {:induction false} FoundIffClaimed(name: string, headers: seq<Option<string>>)
    ensures ExtractCookie(name, Readable(headers)).Some? <==> exists j :: 0 <= j < |headers| && Claims(name, headers[j])
    decreases |headers|
  {
    if headers != [] {
      var rest := headers[1..];
      FoundIffClaimed(name, rest);
      assert forall j :: 0 <= j < |rest| ==> headers[j + 1] == rest[j];
      assert (exists j :: 0 <= j < |headers| && Claims(name, headers[j])) <==>
             Claims(name, headers[0]) || exists j :: 0 <= j < |rest| && Claims(name, rest[j]) by {
        if j :| 0 <= j < |headers| && Claims(name, headers[j]) {
          assert j > 0 ==> Claims(name, rest[j - 1]);
        }
      }
      if headers[0].Some? {
        ReadableFirst(name, headers);
      } else {
        assert [] + Readable(rest) == Readable(rest);
      }
      hide FirstClaim, Split;
    }
  }

  lemma {:induction false} FirstClaimer(name: string, headers: seq<Option<string>>, j: nat) returns (first: nat)
    requires j < |headers| && Claims(name, headers[j])
    ensures first <= j && Claims(name, headers[first]) && forall k :: 0 <= k < first ==> !Claims(name, headers[k])
    decreases j
  {
    hide Claims;
    if k: nat :| k < j && Claims(name, headers[k]) {
      first := FirstClaimer(name, headers, k);
    } else {
      first := j;
    }
  }

  lemma ShadowedBehind(name: string, headers: seq<Option<string>>)
    requires headers != [] && headers[0].Some? && !Claims(name, headers[0])
    ensures Shadowed(name, headers) <==> Shadowed(name, headers[1..])
  {
    hide Claims;
    var rest := headers[1..];
    if i: nat, j: nat :| Shadows(name, headers, i, j) {
      assert forall k :: 0 <= k < j - 1 ==> rest[k] == headers[k + 1];
      assert Shadows(name, rest, i - 1, j - 1);
    }
    if i: nat, j: nat :| Shadows(name, rest, i, j) {
      assert forall k :: 0 < k < j + 1 ==> headers[k] == rest[k - 1];
      assert Shadows(name, headers, i + 1, j + 1);
    }
  }

  /** A session cookie behind one unreadable header is not found; without that header it is. */
  lemma UnreadableHides(cfg: Config, id: string)
    requires ValidConfig(cfg) && IsId(id)
    ensures var ours := Some(cfg.name + "=" + CookieValue(cfg, id));
            && ExtractCookie(cfg.name, [None, ours]) == None
            && ExtractCookie(cfg.name, [ours]) == Some(CookieValue(cfg, id))
  {
    var pair := cfg.name + "=" + CookieValue(cfg, id);
    OwnPair(cfg, "", id);
    assert "" + pair == pair;
    hide Claim, Split, HexEncode, CookieValue;
    SplitFirst(pair, "");
    assert FirstClaim(cfg.name, [pair]) == Claim(cfg.name, pair);
  }

  function Find(s: string): Option<nat>
    decreases |s|
  {
    if s == "" then None
    else if s[0] == '.' then Some(0)
    else if Find(s[1..]).None? then None else Some(1 + Find(s[1..]).value)
  }

  lemma {:induction false} FindIn(s: string)
    ensures Find(s).Some? ==> Find(s).value < |s|
    decreases |s|
  {
    if s != "" {
      FindIn(s[1..]);
    }
  }

  function VerifyCookie(cfg: Config, value: string): Result<string> {
    FindIn(value);
    var dot := Find(value);
    if dot.None? then Err(MalformedCookie)
    else
      var id, mac := value[..dot.value], value[dot.value + 1..];
      if |id| != 32 then Err(InvalidIdLength)
      else if |mac| != 64 then Err(InvalidMacLength)
      else if HexDecode(mac).None? then Err(InvalidMacEncoding)
      else if HexDecode(mac).value != cfg.mac(id) then Err(MacMismatch)
      else Ok(id)
  }

  // ----- reading undoes writing -----

  predicate IsId(id: string) {
    |id| == 32 && forall c :: c in id ==> c != '.' && c != ';' && !IsBlank(c)
  }

  lemma {:induction false} FindAfter(id: string, rest: string)
    requires '.' !in id
    ensures Find(id + "." + rest) == Some(|id|)
    decreases |id|
  {
    var s := id + "." + rest;
    if id != "" {
      assert s[1..] == id[1..] + "." + rest;
      FindAfter(id[1..], rest);
    }
  }

  lemma VerifiesOwn(cfg: Config, id: string)
    requires ValidConfig(cfg) && IsId(id)
    ensures VerifyCookie(cfg, CookieValue(cfg, id)) == Ok(id)
  {
    var mac := HexEncode(cfg.mac(id));
    HexRoundTrip(cfg.mac(id));
    FindAfter(id, mac);
    var value := CookieValue(cfg, id);
    assert value[..32] == id && value[33..] == mac;
  }

  /** Whatever verifies carries its own identifier's keyed hash: nothing else is accepted. */
  lemma VerifyExact(cfg: Config, value: string, id: string)
    requires ValidConfig(cfg)
    ensures VerifyCookie(cfg, value) == Ok(id) <==>
            && |id| == 32 && '.' !in id
            && exists mac :: value == id + "." + mac && |mac| == 64 && HexDecode(mac) == Some(cfg.mac(id))
  {
    if VerifyCookie(cfg, value) == Ok(id) {
      FindFirst(value);
      var mac := value[33..];
      assert value == id + "." + mac;
    }
    if |id| == 32 && '.' !in id {
      if mac :| value == id + "." + mac && |mac| == 64 && HexDecode(mac) == Some(cfg.mac(id)) {
        FindAfter(id, mac);
        assert value[..32] == id && value[33..] == mac;
      }
    }
  }

  /** Why a value is refused: the first of these checks that it fails. */
  lemma RefusedExact(cfg: Config, value: string, id: string, mac: string)
    ensures VerifyCookie(cfg, value) == Err(MalformedCookie) <==> '.' !in value
    ensures value == id + "." + mac && '.' !in id ==>
              VerifyCookie(cfg, value) ==
              if |id| != 32 then Err(InvalidIdLength)
              else if |mac| != 64 then Err(InvalidMacLength)
              else if HexDecode(mac).None? then Err(InvalidMacEncoding)
              else if HexDecode(mac).value != cfg.mac(id) then Err(MacMismatch)
              else Ok(id)
  {
    FindFirst(value);
    FindNone(value);
    if value == id + "." + mac && '.' !in id {
      FindAfter(id, mac);
      assert value[..|id|] == id && value[|id| + 1..] == mac;
    }
  }

  lemma {:induction false} FindNone(s: string)
    ensures Find(s).None? <==> '.' !in s
    decreases |s|
  {
    if s != "" {
      FindNone(s[1..]);
    }
  }

  lemma {:induction false} FindFirst(s: string)
    ensures Find(s).Some? ==> Find(s).value < |s| && s[Find(s).value] == '.' && '.' !in s[..Find(s).value]
    decreases |s|
  {
    if s != "" {
      FindFirst(s[1..]);
      if Find(s).Some? && s[0] != '.' {
        assert s[..Find(s).value] == [s[0]] + s[1..][..Find(s[1..]).value];
      }
    }
  }

  lemma {:induction false} TrimBlank(blanks: string, s: string)
    requires (forall c :: c in blanks ==> IsBlank(c)) && NoBlankEnds(s) && s != ""
    ensures Trim(blanks + s) == s && TrimStart(s) == s && Trim(s) == s
    decreases |blanks|
  {
    if blanks == "" {
      assert blanks + s == s;
    } else {
      assert blanks[0] in blanks && (blanks + s)[1..] == blanks[1..] + s;
      TrimBlank(blanks[1..], s);
    }
  }

  lemma ValueEnds(cfg: Config, id: string)
    requires ValidConfig(cfg) && IsId(id)
    ensures CookieValue(cfg, id) != "" && NoBlankEnds(CookieValue(cfg, id))
  {
    HexRoundTrip(cfg.mac(id));
    var value, mac := CookieValue(cfg, id), HexEncode(cfg.mac(id));
    hide HexEncode;
    assert value[0] == id[0] && id[0] in id;
    assert value[|value| - 1] == mac[63] && mac[63] in mac;
  }

  lemma StripsOff(a: string, b: string)
    ensures StripPrefix(a + b, a) == Some(b)
  {
  }

  lemma PairEnds(name: string, value: string)
    requires (name != "" ==> !IsBlank(name[0])) && value != "" && NoBlankEnds(value)
    ensures name + ("=" + value) != "" && NoBlankEnds(name + ("=" + value)) && NoBlankEnds("=" + value)
  {
    var tail := "=" + value;
    assert tail[|tail| - 1] == value[|value| - 1];
    assert (name + tail)[0] == if name == "" then '=' else name[0];
  }

  lemma ClaimsPair(name: string, blanks: string, value: string)
    requires (name != "" ==> !IsBlank(name[0])) && value != "" && NoBlankEnds(value) && forall c :: c in blanks ==> IsBlank(c)
    ensures Claim(name, blanks + (name + "=" + value)) == Some(value)
  {
    var tail := "=" + value;
    var pair := name + tail;
    assert name + "=" + value == pair;
    PairEnds(name, value);
    StripsOff(name, tail);
    StripsOff("=", value);
    hide StripPrefix, NoBlankEnds, IsBlank;
    TrimBlank(blanks, pair);
    TrimBlank("", value);
    TrimBlank("", tail);
    hide Trim, TrimStart;
  }

  /** A pair `name=value`, with blanks in front, is ours. */
  lemma ClaimsOwn(cfg: Config, blanks: string, id: string)
    requires ValidConfig(cfg) && IsId(id) && forall c :: c in blanks ==> IsBlank(c)
    ensures Claim(cfg.name, blanks + (cfg.name + "=" + CookieValue(cfg, id))) == Some(CookieValue(cfg, id))
  {
    ValueEnds(cfg, id);
    hide CookieValue, Claim, NoBlankEnds;
    ClaimsPair(cfg.name, blanks, CookieValue(cfg, id));
  }

  lemma {:induction false} ClaimAmong(name: string, before: seq<string>, ours: string, after: seq<string>)
    requires (forall p :: p in before ==> Claim(name, p).None?) && Claim(name, ours).Some?
    ensures FirstClaim(name, before + [ours] + after) == Claim(name, ours)
    decreases |before|
  {
    var pairs := before + [ours] + after;
    if before != [] {
      assert before[0] in before && pairs[0] == before[0] && pairs[1..] == before[1..] + [ours] + after;
      ClaimAmong(name, before[1..], ours, after);
    }
  }

  function Join(parts: seq<string>): string
    requires parts != []
    decreases |parts|
  {
    if |parts| == 1 then parts[0] else parts[0] + ";" + Join(parts[1..])
  }

  lemma {:induction false} SplitFirst(part: string, rest: string)
    requires ';' !in part
    ensures Split(part + ";" + rest) == [part] + Split(rest)
    ensures Split(part) == [part]
    decreases |part|
  {
    var s := part + ";" + rest;
    if part == "" {
      assert s[1..] == rest;
    } else {
      assert s[1..] == part[1..] + ";" + rest;
      SplitFirst(part[1..], rest);
      assert [part[0]] + part[1..] == part;
    }
  }

  lemma {:induction false} SplitJoin(parts: seq<string>)
    requires parts != [] && forall p :: p in parts ==> ';' !in p
    ensures Split(Join(parts)) == parts
    decreases |parts|
  {
    assert parts[0] in parts;
    if |parts| == 1 {
      SplitFirst(parts[0], "");
    } else {
      assert forall p :: p in parts[1..] ==> p in parts;
      SplitJoin(parts[1..]);
      SplitFirst(parts[0], Join(parts[1..]));
      assert [parts[0]] + parts[1..] == parts;
    }
  }

  /**
   The client sends the cookie back among any other pairs and headers, none of which before it
   claims its name or is unreadable: extracting and verifying gives exactly the identifier the
   cookie was written for.
   */
  lemma ReplayVerifies(cfg: Config, id: string, front: seq<string>, before: seq<string>, blanks: string,
                       after: seq<string>, later: seq<Option<string>>)
    requires ValidConfig(cfg) && IsId(id) && forall c :: c in blanks ==> IsBlank(c)
    requires forall h :: h in front ==> !Claims(cfg.name, Some(h))
    requires forall p :: p in before ==> ';' !in p && Claim(cfg.name, p).None?
    requires forall p :: p in after ==> ';' !in p
    ensures var ours := blanks + (cfg.name + "=" + CookieValue(cfg, id));
            var found := ExtractCookie(cfg.name, Visible(front) + [Some(Join(before + [ours] + after))] + later);
            found == Some(CookieValue(cfg, id)) && VerifyCookie(cfg, found.value) == Ok(id)
  {
    hide *;
    var ours := blanks + (cfg.name + "=" + CookieValue(cfg, id));
    OwnPair(cfg, blanks, id);
    FoundAmong(cfg.name, before, ours, after, later);
    var header := [Some(Join(before + [ours] + after))];
    PassedOver(cfg.name, front, header + later);
    assert Visible(front) + (header + later) == Visible(front) + header + later;
  }

  lemma OwnPair(cfg: Config, blanks: string, id: string)
    requires ValidConfig(cfg) && IsId(id) && forall c :: c in blanks ==> IsBlank(c)
    ensures var ours := blanks + (cfg.name + "=" + CookieValue(cfg, id));
            && ';' !in ours && Claim(cfg.name, ours) == Some(CookieValue(cfg, id))
            && VerifyCookie(cfg, CookieValue(cfg, id)) == Ok(id)
  {
    VerifiesOwn(cfg, id);
    ClaimsOwn(cfg, blanks, id);
    HexRoundTrip(cfg.mac(id));
    hide Claim, VerifyCookie, HexEncode;
  }

  lemma FoundAmong(name: string, before: seq<string>, ours: string, after: seq<string>, later: seq<Option<string>>)
    requires ';' !in ours && Claim(name, ours).Some?
    requires forall p :: p in before ==> ';' !in p && Claim(name, p).None?
    requires forall p :: p in after ==> ';' !in p
    ensures ExtractCookie(name, [Some(Join(before + [ours] + after))] + later) == Claim(name, ours)
  {
    hide Split, Join, Claim, FirstClaim;
    SplitJoin(before + [ours] + after);
    ClaimAmong(name, before, ours, after);
  }

  /** Readable headers that do not claim the name do not end the search. */
  lemma {:induction false} PassedOver(name: string, front: seq<string>, rest: seq<Option<string>>)
    requires forall h :: h in front ==> !Claims(name, Some(h))
    ensures ExtractCookie(name, Visible(front) + rest) == ExtractCookie(name, rest)
    decreases |front|
  {
    hide Split, FirstClaim;
    var headers := Visible(front) + rest;
    if front == [] {
      assert headers == rest;
    } else {
      assert front[0] in front && forall h :: h in front[1..] ==> h in front;
      PassedOver(name, front[1..], rest);
      assert headers[0] == Some(front[0]) && headers[1..] == Visible(front[1..]) + rest;
      assert !Claims(name, Some(front[0]));
    }
  }

  function Visible(values: seq<string>): (headers: seq<Option<string>>)
    ensures |headers| == |values|
  {
    if values == [] then [] else [Some(values[0])] + Visible(values[1..])
  }

  /** What a client keeps of a `Set-Cookie`: everything up to the first `;`. */
  function Kept(setCookie: string): string
    decreases |setCookie|
  {
    if setCookie == "" || setCookie[0] == ';' then "" else [setCookie[0]] + Kept(setCookie[1..])
  }

  lemma {:induction false} KeptUpTo(part: string, rest: string)
    requires ';' !in part && (rest != "" ==> rest[0] == ';')
    ensures Kept(part + rest) == part
    decreases |part|
  {
    var s := part + rest;
    if part == "" {
      assert s == rest;
    } else {
      assert s[1..] == part[1..] + rest;
      KeptUpTo(part[1..], rest);
      assert [part[0]] + part[1..] == part;
    }
  }

  lemma KeepsPair(cfg: Config, id: string)
    requires ValidConfig(cfg) && IsId(id)
    ensures Kept(BuildSetCookie(cfg, id)) == cfg.name + "=" + CookieValue(cfg, id)
  {
    HexRoundTrip(cfg.mac(id));
    var pair := cfg.name + "=" + CookieValue(cfg, id);
    assert ';' !in pair;
    KeptUpTo(pair, cfg.attributes);
  }
}
