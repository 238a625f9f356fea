/** Byte strings as text: UTF-8 validity, whitespace, splitting, and case. */
module Text {
  import opened Bytes

  // ----- UTF-8 (section 4 of RFC 3629) -----

  predicate Tail(b: byte) {
    0x80 <= b <= 0xBF
  }

  /** The length of the well-formed character `s` starts with, or zero. */
  function CharLen(s: seq<byte>): (n: nat)
    ensures n <= |s|
  {
    if s == [] then 0
    else if s[0] < 0x80 then 1
    else if |s| >= 2 && 0xC2 <= s[0] <= 0xDF && Tail(s[1]) then 2
    else if |s| >= 3 && Tail(s[1]) && Tail(s[2])
         && ((s[0] == 0xE0 && 0xA0 <= s[1]) || (0xE1 <= s[0] <= 0xEC) || (s[0] == 0xED && s[1] <= 0x9F) || (0xEE <= s[0] <= 0xEF)) then 3
    else if |s| >= 4 && Tail(s[1]) && Tail(s[2]) && Tail(s[3])
         && ((s[0] == 0xF0 && 0x90 <= s[1]) || (0xF1 <= s[0] <= 0xF3) || (s[0] == 0xF4 && s[1] <= 0x8F)) then 4
    else 0
  }

  predicate IsUtf8(s: seq<byte>)
    decreases |s|
  {
    s == [] || (CharLen(s) > 0 && IsUtf8(s[CharLen(s)..]))
  }

  // ----- whitespace -----

  predicate IsOws(b: byte) {
    b == SP || b == TAB
  }

  predicate AllOws(s: seq<byte>) {
    forall i :: 0 <= i < |s| ==> IsOws(s[i])
  }

  function TrimOwsStart(s: seq<byte>): seq<byte>
    decreases |s|
  {
    if s != [] && IsOws(s[0]) then TrimOwsStart(s[1..]) else s
  }

  function TrimOwsEnd(s: seq<byte>): seq<byte>
    decreases |s|
  {
    if s != [] && IsOws(s[|s| - 1]) then TrimOwsEnd(s[..|s| - 1]) else s
  }

  /** Spaces and tabs at both ends, and nothing else. */
  function TrimOws(s: seq<byte>): seq<byte> {
    TrimOwsEnd(TrimOwsStart(s))
  }

  /** A character with the Unicode property White_Space, in UTF-8. */
  predicate IsWhite(c: seq<byte>) {
    || (|c| == 1 && (9 <= c[0] <= 13 || c[0] == 32))
    || c == [0xC2, 0x85] || c == [0xC2, 0xA0] || c == [0xE1, 0x9A, 0x80]
    || (|c| == 3 && c[0] == 0xE2 && c[1] == 0x80 && (0x80 <= c[2] <= 0x8A || c[2] == 0xA8 || c[2] == 0xA9 || c[2] == 0xAF))
    || c == [0xE2, 0x81, 0x9F] || c == [0xE3, 0x80, 0x80]
  }

  /** The length of the whitespace character at the start, or zero. */
  function WhiteStart(s: seq<byte>): (n: nat)
    ensures n <= |s| && n <= 3
  {
    if |s| >= 1 && IsWhite(s[..1]) then 1
    else if |s| >= 2 && IsWhite(s[..2]) then 2
    else if |s| >= 3 && IsWhite(s[..3]) then 3
    else 0
  }

  function WhiteEnd(s: seq<byte>): (n: nat)
    ensures n <= |s| && n <= 3
  {
    if |s| >= 1 && IsWhite(s[|s| - 1..]) then 1
    else if |s| >= 2 && IsWhite(s[|s| - 2..]) then 2
    else if |s| >= 3 && IsWhite(s[|s| - 3..]) then 3
    else 0
  }

  function TrimStart(s: seq<byte>): seq<byte>
    decreases |s|
  {
    if WhiteStart(s) > 0 then TrimStart(s[WhiteStart(s)..]) else s
  }

  function TrimEnd(s: seq<byte>): seq<byte>
    decreases |s|
  {
    if WhiteEnd(s) > 0 then TrimEnd(s[..|s| - WhiteEnd(s)]) else s
  }

  /** `str::trim`: whitespace characters at both ends. */
  function Trim(s: seq<byte>): seq<byte> {
    TrimEnd(TrimStart(s))
  }

  // ----- splitting and case -----

  /** The parts between separators; always at least one. */
  function Split(s: seq<byte>, sep: byte): (parts: seq<seq<byte>>)
    ensures parts != []
    decreases |s|
  {
    if s == [] then [[]]
    else
      var rest := Split(s[1..], sep);
      if s[0] == sep then [[]] + rest else [[s[0]] + rest[0]] + rest[1..]
  }

  function Lower(b: byte): byte {
    if 65 <= b <= 90 then b + 32 else b
  }

  predicate SameIgnoringCase(a: seq<byte>, b: seq<byte>) {
    |a| == |b| && forall i :: 0 <= i < |a| ==> Lower(a[i]) == Lower(b[i])
  }

  // ----- facts -----

  lemma {:induction false} TrimOwsStartSplits(s: seq<byte>)
    ensures var t := TrimOwsStart(s);
            && |t| <= |s| && t == s[|s| - |t|..] && AllOws(s[..|s| - |t|]) && (t != [] ==> !IsOws(t[0]))
    decreases |s|
  {
    if s != [] && IsOws(s[0]) {
      TrimOwsStartSplits(s[1..]);
      var t := TrimOwsStart(s);
      assert s[..|s| - |t|] == [s[0]] + s[1..][..|s| - 1 - |t|];
    }
  }

  lemma {:induction false} TrimOwsEndSplits(s: seq<byte>)
    ensures var t := TrimOwsEnd(s);
            && |t| <= |s| && t == s[..|t|] && AllOws(s[|t|..]) && (t != [] ==> !IsOws(t[|t| - 1]))
    decreases |s|
  {
    if s != [] && IsOws(s[|s| - 1]) {
      TrimOwsEndSplits(s[..|s| - 1]);
      var t := TrimOwsEnd(s);
      assert s[|t|..] == s[..|s| - 1][|t|..] + [s[|s| - 1]];
    }
  }

  lemma Sliced(s: seq<byte>, t: seq<byte>, core: seq<byte>)
    requires |t| <= |s| && t == s[|s| - |t|..] && |core| <= |t| && core == t[..|core|]
    ensures s == s[..|s| - |t|] + core + t[|core|..]
  {
  }

  /** Trimming finds the one core that does not start or end with a space or tab. */
  lemma TrimOwsExact(s: seq<byte>)
    ensures exists before, after ::
              AllOws(before) && AllOws(after) && s == before + TrimOws(s) + after
    ensures TrimOws(s) != [] ==> !IsOws(TrimOws(s)[0]) && !IsOws(TrimOws(s)[|TrimOws(s)| - 1])
  {
    hide TrimOwsStart, TrimOwsEnd, AllOws, IsOws;
    TrimOwsStartSplits(s);
    var t := TrimOwsStart(s);
    TrimOwsEndSplits(t);
    var core := TrimOwsEnd(t);
    var before, after := s[..|s| - |t|], t[|core|..];
    Sliced(s, t, core);
    if core != [] {
      assert core[0] == t[0];
    }
  }

  lemma {:induction false} TrimOwsOf(before: seq<byte>, core: seq<byte>, after: seq<byte>)
    requires AllOws(before) && AllOws(after) && core != [] && !IsOws(core[0]) && !IsOws(core[|core| - 1])
    ensures TrimOws(before + core + after) == core
  {
    TrimOwsStartOf(before, core + after);
    assert before + core + after == before + (core + after);
    TrimOwsEndOf(core, after);
  }

  lemma {:induction false} TrimOwsStartOf(before: seq<byte>, rest: seq<byte>)
    requires AllOws(before) && rest != [] && !IsOws(rest[0])
    ensures TrimOwsStart(before + rest) == rest
    decreases |before|
  {
    if before == [] {
      assert before + rest == rest;
    } else {
      assert (before + rest)[1..] == before[1..] + rest;
      TrimOwsStartOf(before[1..], rest);
    }
  }

  lemma {:induction false} TrimOwsEndOf(core: seq<byte>, after: seq<byte>)
    requires AllOws(after) && core != [] && !IsOws(core[|core| - 1])
    ensures TrimOwsEnd(core + after) == core
    decreases |after|
  {
    if after == [] {
      assert core + after == core;
    } else {
      var n := |after| - 1;
      assert (core + after)[..|core + after| - 1] == core + after[..n];
      TrimOwsEndOf(core, after[..n]);
    }
  }

  /** Without a separator there is one part: the whole. */
  lemma {:induction false} SplitWhole(s: seq<byte>, sep: byte)
    ensures |Split(s, sep)| == 1 <==> sep !in s
    ensures sep !in s ==> Split(s, sep) == [s]
    decreases |s|
  {
    if s != [] {
      SplitWhole(s[1..], sep);
      if sep !in s {
        assert sep !in s[1..];
        assert [s[0]] + s[1..] == s;
        assert Split(s, sep) == [[s[0]] + s[1..]] + [s[1..]][1..];
      } else if s[0] != sep {
        assert sep in s[1..];
      }
    }
  }

  // ----- splitting, said without recursion -----

  /** The parts with a separator between each and the next. */
  function Joined(parts: seq<seq<byte>>, sep: byte): seq<byte>
    decreases |parts|
  {
    if parts == [] then [] else if |parts| == 1 then parts[0] else parts[0] + [sep] + Joined(parts[1..], sep)
  }

  /** Splitting gives the one list of parts without a separator in them that joins to the whole. */
  lemma {:induction false} SplitExact(s: seq<byte>, sep: byte, parts: seq<seq<byte>>)
    ensures Split(s, sep) == parts <==> parts != [] && (forall p :: p in parts ==> sep !in p) && Joined(parts, sep) == s
    decreases |s|
  {
    SplitJoins(s, sep);
    if parts != [] && (forall p :: p in parts ==> sep !in p) && Joined(parts, sep) == s {
      JoinSplits(parts, sep);
    }
  }

  lemma {:induction false} SplitJoins(s: seq<byte>, sep: byte)
    ensures forall p :: p in Split(s, sep) ==> sep !in p
    ensures Joined(Split(s, sep), sep) == s
    decreases |s|
  {
    hide Joined;
    if s == [] {
      JoinedOne([], sep);
    } else {
      SplitJoins(s[1..], sep);
      var rest := Split(s[1..], sep);
      JoinedSeparated(rest, sep);
      JoinedLonger(s[0], rest, sep);
      assert forall p :: p in rest[1..] ==> p in rest;
      assert rest[0] in rest && s == [s[0]] + s[1..];
    }
  }

  lemma JoinedOne(part: seq<byte>, sep: byte)
    ensures Joined([part], sep) == part
  {
  }

  lemma JoinedSeparated(parts: seq<seq<byte>>, sep: byte)
    requires parts != []
    ensures Joined([[]] + parts, sep) == [sep] + Joined(parts, sep)
  {
    assert ([[]] + parts)[1..] == parts;
  }

  lemma JoinedLonger(x: byte, parts: seq<seq<byte>>, sep: byte)
    requires parts != []
    ensures Joined([[x] + parts[0]] + parts[1..], sep) == [x] + Joined(parts, sep)
  {
    assert ([[x] + parts[0]] + parts[1..])[1..] == parts[1..];
  }

  lemma {:induction false} JoinSplits(parts: seq<seq<byte>>, sep: byte)
    requires parts != [] && forall p :: p in parts ==> sep !in p
    ensures Split(Joined(parts, sep), sep) == parts
    decreases |parts|
  {
    hide Split;
    assert parts[0] in parts;
    if |parts| == 1 {
      SplitWhole(parts[0], sep);
      assert parts == [parts[0]];
    } else {
      var rest := parts[1..];
      assert forall p :: p in rest ==> p in parts;
      JoinSplits(rest, sep);
      SplitFirst(parts[0], sep, Joined(rest, sep));
      assert parts == [parts[0]] + rest;
    }
  }

  lemma {:induction false} SplitFirst(part: seq<byte>, sep: byte, rest: seq<byte>)
    requires sep !in part
    ensures Split(part + [sep] + rest, sep) == [part] + Split(rest, sep)
    decreases |part|
  {
    var s := part + [sep] + rest;
    if part == [] {
      assert s[0] == sep && s[1..] == rest;
    } else {
      SplitFirst(part[1..], sep, rest);
      assert s[0] == part[0] && s[1..] == part[1..] + [sep] + rest;
      assert [part[0]] + part[1..] == part;
    }
  }

  /** `t` stands between separators, or between one and an end. */
  predicate Stands(a: seq<byte>, t: seq<byte>, b: seq<byte>, sep: byte) {
    sep !in t && (a == [] || a[|a| - 1] == sep) && (b == [] || b[0] == sep)
  }

  ghost predicate PartOf(s: seq<byte>, sep: byte, t: seq<byte>) {
    exists a, b :: Stands(a, t, b, sep) && s == a + t + b
  }

  /** The parts are what stands between separators. */
  lemma PartExact(s: seq<byte>, sep: byte, t: seq<byte>)
    ensures t in Split(s, sep) <==> PartOf(s, sep, t)
  {
    hide Split, Joined, Stands;
    if t in Split(s, sep) {
      var parts := Split(s, sep);
      var i :| 0 <= i < |parts| && parts[i] == t;
      SplitJoins(s, sep);
      PartAt(parts, sep, i);
    }
    if a, b :| Stands(a, t, b, sep) && s == a + t + b {
      StandsIs(a, t, b, sep);
      PartFound(a, t, b, sep);
    }
  }

  lemma StandsIs(a: seq<byte>, t: seq<byte>, b: seq<byte>, sep: byte)
    ensures Stands(a, t, b, sep) <==> sep !in t && (a == [] || a[|a| - 1] == sep) && (b == [] || b[0] == sep)
  {
  }

  lemma {:induction false} PartAt(parts: seq<seq<byte>>, sep: byte, i: nat)
    requires i < |parts| && forall p :: p in parts ==> sep !in p
    ensures PartOf(Joined(parts, sep), sep, parts[i])
    decreases |parts|
  {
    hide PartOf;
    var t, rest := parts[i], parts[1..];
    assert sep !in parts[0] by { assert parts[0] in parts; }
    if |parts| == 1 {
      PartBetween([], t, [], sep);
      assert [] + t + [] == Joined(parts, sep);
    } else if i == 0 {
      var after := [sep] + Joined(rest, sep);
      PartBetween([], t, after, sep);
      assert [] + t + after == Joined(parts, sep);
    } else {
      assert forall p :: p in rest ==> p in parts;
      PartAt(rest, sep, i - 1);
      PartFurther(parts[0], sep, Joined(rest, sep), t);
    }
  }

  lemma PartBetween(a: seq<byte>, t: seq<byte>, b: seq<byte>, sep: byte)
    requires sep !in t && (a == [] || a[|a| - 1] == sep) && (b == [] || b[0] == sep)
    ensures PartOf(a + t + b, sep, t)
  {
    assert Stands(a, t, b, sep);
  }

  lemma PartFurther(first: seq<byte>, sep: byte, rest: seq<byte>, t: seq<byte>)
    requires PartOf(rest, sep, t)
    ensures PartOf(first + [sep] + rest, sep, t)
  {
    var a, b :| Stands(a, t, b, sep) && rest == a + t + b;
    hide PartOf;
    PartBetween(first + [sep] + a, t, b, sep);
    assert first + [sep] + a + t + b == first + [sep] + rest;
  }

  lemma {:induction false} PartFound(a: seq<byte>, t: seq<byte>, b: seq<byte>, sep: byte)
    requires sep !in t && (a == [] || a[|a| - 1] == sep) && (b == [] || b[0] == sep)
    ensures t in Split(a + t + b, sep)
    decreases |a|
  {
    var s := a + t + b;
    if a == [] {
      if b == [] {
        assert s == t;
        SplitWhole(t, sep);
      } else {
        assert s == t + [sep] + b[1..];
        SplitFirst(t, sep, b[1..]);
      }
    } else {
      assert s[0] == a[0] && s[1..] == a[1..] + t + b;
      PartFound(a[1..], t, b, sep);
      var rest := Split(s[1..], sep);
      var i :| 0 <= i < |rest| && rest[i] == t;
      if a[0] == sep {
        assert Split(s, sep)[i + 1] == t;
      } else {
        assert |a| > 1;
        PartLater(a[1..], t, b, sep);
      }
    }
  }

  /** Behind a separator a part is not the first one. */
  lemma {:induction false} PartLater(a: seq<byte>, t: seq<byte>, b: seq<byte>, sep: byte)
    requires sep !in t && a != [] && a[|a| - 1] == sep && (b == [] || b[0] == sep)
    ensures t in Split(a + t + b, sep)[1..]
    decreases |a|
  {
    var s := a + t + b;
    assert s[0] == a[0] && s[1..] == a[1..] + t + b;
    var rest := Split(s[1..], sep);
    if a[0] == sep {
      PartFound(a[1..], t, b, sep);
      assert Split(s, sep)[1..] == rest;
    } else {
      PartLater(a[1..], t, b, sep);
      assert Split(s, sep)[1..] == rest[1..];
    }
  }

  // ----- characters -----

  /** A Unicode scalar value. */
  predicate IsScalar(c: nat) {
    c < 0xD800 || 0xE000 <= c < 0x11_0000
  }

  /** The low six bits, in a byte that continues a character. */
  function Low(n: nat): byte {
    assert 0 <= n % 0x40 < 0x40;
    0x80 + n % 0x40
  }

  /** Table 3 of RFC 3629: one to four bytes of seven, eleven, sixteen, or twenty-one bits. */
  function EncodeChar(c: nat): (s: seq<byte>)
    requires IsScalar(c)
  {
    if c < 0x80 then [c]
    else if c < 0x800 then (assert c / 0x40 < 0x20; [0xC0 + c / 0x40, Low(c)])
    else if c < 0x1_0000 then (assert c / 0x40 / 0x40 < 0x10; [0xE0 + c / 0x40 / 0x40, Low(c / 0x40), Low(c)])
    else (assert c / 0x40 / 0x40 / 0x40 < 5; [0xF0 + c / 0x40 / 0x40 / 0x40, Low(c / 0x40 / 0x40), Low(c / 0x40), Low(c)])
  }

  /** A byte string starts with a character exactly as far as that is the encoding of one. */
  lemma CharExact(s: seq<byte>)
    ensures CharLen(s) > 0 ==> exists c :: IsScalar(c) && EncodeChar(c) == s[..CharLen(s)]
    ensures forall c :: IsScalar(c) && EncodeChar(c) <= s ==> CharLen(s) == |EncodeChar(c)|
  {
    if CharLen(s) > 0 {
      var c := DecodeChar(s);
      assert IsScalar(c) && EncodeChar(c) == s[..CharLen(s)];
    }
    forall c | IsScalar(c) && EncodeChar(c) <= s ensures CharLen(s) == |EncodeChar(c)| {
      EncodedLen(c, s);
    }
  }

  /** A byte that continues a character, behind the bits before. */
  function Continue(n: nat, b: byte): (m: nat)
    requires Tail(b)
    ensures m / 0x40 == n && Low(m) == b && m == n * 0x40 + (b as int - 0x80)
  {
    n * 0x40 + (b as int - 0x80)
  }

  lemma DecodeChar(s: seq<byte>) returns (c: nat)
    requires CharLen(s) > 0
    ensures IsScalar(c) && EncodeChar(c) == s[..CharLen(s)]
  {
    hide Low;
    var n := CharLen(s);
    if n == 1 {
      c := s[0];
    } else if n == 2 {
      c := Continue(s[0] as int - 0xC0, s[1]);
    } else if n == 3 {
      c := Continue(Continue(s[0] as int - 0xE0, s[1]), s[2]);
    } else {
      c := Continue(Continue(Continue(s[0] as int - 0xF0, s[1]), s[2]), s[3]);
    }
    assert EncodeChar(c) == s[..n];
  }

  lemma EncodedLen(c: nat, s: seq<byte>)
    requires IsScalar(c) && EncodeChar(c) <= s
    ensures CharLen(s) == |EncodeChar(c)|
  {
    var e := EncodeChar(c);
    assert forall i :: 0 <= i < |e| ==> e[i] == s[i];
  }

  predicate Scalars(text: seq<nat>) {
    forall c :: c in text ==> IsScalar(c)
  }

  function EncodeText(text: seq<nat>): seq<byte>
    requires Scalars(text)
    decreases |text|
  {
    if text == [] then []
    else
      assert text[0] in text && Scalars(text[1..]);
      EncodeChar(text[0]) + EncodeText(text[1..])
  }

  /** Section 4 of RFC 3629: valid is what encodes a text, and nothing else. */
  lemma Utf8Exact(s: seq<byte>)
    ensures IsUtf8(s) <==> exists text :: Scalars(text) && EncodeText(text) == s
  {
    hide Scalars, EncodeText, IsUtf8;
    if IsUtf8(s) {
      var text := TextOf(s);
    }
    if text: seq<nat> :| Scalars(text) && EncodeText(text) == s {
      TextValid(text);
    }
  }

  lemma EncodeNothing()
    ensures Scalars([]) && EncodeText([]) == [] && IsUtf8([])
  {
  }

  lemma EncodeMore(c: nat, rest: seq<nat>)
    requires IsScalar(c) && Scalars(rest)
    ensures Scalars([c] + rest) && EncodeText([c] + rest) == EncodeChar(c) + EncodeText(rest)
  {
    hide EncodeChar;
    assert ([c] + rest)[1..] == rest;
  }

  lemma Utf8Step(s: seq<byte>)
    requires s != []
    ensures IsUtf8(s) <==> CharLen(s) > 0 && IsUtf8(s[CharLen(s)..])
  {
    hide CharLen;
  }

  lemma {:induction false} TextOf(s: seq<byte>) returns (text: seq<nat>)
    requires IsUtf8(s)
    ensures Scalars(text) && EncodeText(text) == s
    decreases |s|
  {
    hide IsScalar, EncodeChar, Scalars, EncodeText, CharLen, IsUtf8;
    if s == [] {
      EncodeNothing();
      text := [];
    } else {
      Utf8Step(s);
      var c := DecodeChar(s);
      var n := CharLen(s);
      var rest := TextOf(s[n..]);
      EncodeMore(c, rest);
      text := [c] + rest;
      assert s[..n] + s[n..] == s;
    }
  }

  lemma {:induction false} TextValid(text: seq<nat>)
    requires Scalars(text)
    ensures IsUtf8(EncodeText(text))
    decreases |text|
  {
    hide IsScalar, EncodeChar, EncodeText, CharLen, IsUtf8;
    if text == [] {
      EncodeNothing();
    } else {
      var c, rest := text[0], text[1..];
      assert c in text && text == [c] + rest;
      TextValid(rest);
      EncodeMore(c, rest);
      var s, n := EncodeText(text), |EncodeChar(c)|;
      EncodedLen(c, s);
      EncodedSome(c);
      assert s[n..] == EncodeText(rest);
      Utf8Step(s);
    }
  }

  lemma EncodedSome(c: nat)
    requires IsScalar(c)
    ensures EncodeChar(c) != []
  {
  }

  /** The code points with the property White_Space. */
  predicate IsSpace(c: nat) {
    || 0x9 <= c <= 0xD || c == 0x20 || c == 0x85 || c == 0xA0 || c == 0x1680 || 0x2000 <= c <= 0x200A
    || c == 0x2028 || c == 0x2029 || c == 0x202F || c == 0x205F || c == 0x3000
  }

  lemma WhiteExact(s: seq<byte>)
    ensures IsWhite(s) <==> exists c :: IsScalar(c) && IsSpace(c) && EncodeChar(c) == s
  {
    if IsWhite(s) {
      WhiteIsChar(s);
      var c := DecodeChar(s);
      assert s[..CharLen(s)] == s;
      assert IsScalar(c) && IsSpace(c) && EncodeChar(c) == s;
    }
  }

  lemma WhiteIsChar(s: seq<byte>)
    requires IsWhite(s)
    ensures CharLen(s) == |s|
  {
  }

  /** No whitespace character at either end. */
  predicate Bare(s: seq<byte>) {
    forall n :: 0 <= n <= |s| ==> !IsWhite(s[..n]) && !IsWhite(s[n..])
  }

  ghost predicate Whites(s: seq<byte>) {
    exists chars: seq<seq<byte>> :: (forall c :: c in chars ==> IsWhite(c)) && Flatten(chars) == s
  }

  /** Trimming takes whitespace characters off both ends, as long as there are any. */
  lemma TrimExact(s: seq<byte>)
    ensures exists before, after :: Whites(before) && Whites(after) && s == before + Trim(s) + after
    ensures Bare(Trim(s))
  {
    hide TrimStart, TrimEnd, Whites, IsWhite;
    TrimStartSplits(s);
    var t := TrimStart(s);
    TrimEndSplits(t);
    var core := TrimEnd(t);
    var before, after := s[..|s| - |t|], t[|core|..];
    Sliced(s, t, core);
    assert Whites(before) && Whites(after) && s == before + Trim(s) + after;
    forall n | 0 <= n <= |core| ensures !IsWhite(core[..n]) {
      assert core[..n] == t[..n];
    }
  }

  lemma {:induction false} TrimStartSplits(s: seq<byte>)
    ensures var t := TrimStart(s);
            && |t| <= |s| && t == s[|s| - |t|..] && Whites(s[..|s| - |t|])
            && forall n :: 0 <= n <= |t| ==> !IsWhite(t[..n])
    decreases |s|
  {
    var k := WhiteStart(s);
    if k > 0 {
      TrimStartSplits(s[k..]);
      var t := TrimStart(s);
      hide IsWhite, TrimStart;
      WhitesMore(s[..k], s[k..][..|s| - k - |t|]);
      assert s[..|s| - |t|] == s[..k] + s[k..][..|s| - k - |t|];
    } else {
      WhitesNone();
      assert s[..0] == [];
      forall n | 0 <= n <= |s| ensures !IsWhite(s[..n]) {
        WhiteShort(s[..n]);
      }
    }
  }

  lemma {:induction false} TrimEndSplits(s: seq<byte>)
    ensures var t := TrimEnd(s);
            && |t| <= |s| && t == s[..|t|] && Whites(s[|t|..])
            && forall n :: 0 <= n <= |t| ==> !IsWhite(t[n..])
    decreases |s|
  {
    EndWhite(s);
    TrimEndStep(s);
    hide IsWhite, TrimEnd, WhiteEnd, Whites;
    var k := WhiteEnd(s);
    if k > 0 {
      var init, t := s[..|s| - k], TrimEnd(s);
      TrimEndSplits(init);
      WhitesLast(init[|t|..], s[|s| - k..]);
      assert s[|t|..] == init[|t|..] + s[|s| - k..];
    } else {
      WhitesNone();
      assert s[|s|..] == [];
    }
  }

  lemma TrimEndStep(s: seq<byte>)
    ensures TrimEnd(s) == if WhiteEnd(s) > 0 then TrimEnd(s[..|s| - WhiteEnd(s)]) else s
  {
  }

  lemma EndWhite(s: seq<byte>)
    ensures WhiteEnd(s) > 0 ==> IsWhite(s[|s| - WhiteEnd(s)..])
    ensures WhiteEnd(s) == 0 ==> forall n :: 0 <= n <= |s| ==> !IsWhite(s[n..])
  {
    hide IsWhite;
    if WhiteEnd(s) == 0 {
      forall n | 0 <= n <= |s| ensures !IsWhite(s[n..]) {
        WhiteShort(s[n..]);
        var m := |s| - n;
        assert s[n..] == s[|s| - m..];
      }
    }
  }

  lemma WhiteShort(s: seq<byte>)
    ensures IsWhite(s) ==> 1 <= |s| <= 3
  {
  }

  lemma WhitesNone()
    ensures Whites([])
  {
    var none: seq<seq<byte>> := [];
    assert Flatten(none) == [];
  }

  lemma WhitesMore(c: seq<byte>, s: seq<byte>)
    requires IsWhite(c) && Whites(s)
    ensures Whites(c + s)
  {
    var chars: seq<seq<byte>> :| (forall d :: d in chars ==> IsWhite(d)) && Flatten(chars) == s;
    hide IsWhite;
    var more := [c] + chars;
    assert more[1..] == chars;
    assert (forall d :: d in more ==> IsWhite(d)) && Flatten(more) == c + s;
  }

  lemma WhitesLast(s: seq<byte>, c: seq<byte>)
    requires IsWhite(c) && Whites(s)
    ensures Whites(s + c)
  {
    var chars: seq<seq<byte>> :| (forall d :: d in chars ==> IsWhite(d)) && Flatten(chars) == s;
    hide IsWhite;
    FlattenPush(chars, c);
    var more := chars + [c];
    assert (forall d :: d in more ==> IsWhite(d)) && Flatten(more) == s + c;
  }

  // ----- ASCII -----

  predicate IsAscii(s: string) {
    forall i :: 0 <= i < |s| ==> s[i] as int < 0x80
  }

  function Ascii(s: string): (bytes: seq<byte>)
    requires IsAscii(s)
  {
    seq(|s|, i requires 0 <= i < |s| => s[i] as int)
  }

  predicate IsLetter(b: byte) {
    'A' as int <= b <= 'Z' as int || 'a' as int <= b <= 'z' as int
  }

  /** Two words are the same without regard to case if their bytes are, or differ in the case of a letter. */
  lemma CaseExact(a: seq<byte>, b: seq<byte>)
    ensures SameIgnoringCase(a, b) <==>
            |a| == |b| && forall i :: 0 <= i < |a| ==>
                            a[i] == b[i] || (IsLetter(a[i]) && IsLetter(b[i]) && (a[i] == b[i] + 32 || b[i] == a[i] + 32))
  {
  }
}
