/**
 Problem details as JSON: the printer the server has, character by character, and a JSON
 reader written from section 7 of RFC 8259 that knows nothing of the printer.
 */
module ProblemJson {
  import opened Bytes

  /** `title` and `kind` fall back to defaults; extensions come in key order. */
  datatype Problem = Problem(
    status: nat, kind: Option<string>, title: Option<string>, detail: Option<string>, instance: Option<string>,
    extensions: seq<(string, string)>)

  datatype Value = Text(text: string) | Number(number: nat)

  datatype Member = Member(key: string, value: Value)

  const QUOTE: char := '\"'
  const BACKSLASH: char := '\\'
  const BACKSPACE: char := '\U{08}'
  const FORM_FEED: char := '\U{0C}'

  // ----- the printer -----

  /** The control characters of Unicode: C0, DEL and C1. */
  predicate IsControl(c: char) {
    c as int < 0x20 || 0x7F <= c as int <= 0x9F
  }

  function HexChar(v: nat): char
    requires v < 16
  {
    if v < 10 then (48 + v) as char else (87 + v) as char
  }

  /** Four lower-case hex digits. */
  function Hex4(n: nat): string
    requires n < 0x10000
  {
    [HexChar(n / 0x1000), HexChar(n / 0x100 % 16), HexChar(n / 16 % 16), HexChar(n % 16)]
  }

  function Escape(c: char): string {
    if c == QUOTE then [BACKSLASH, QUOTE]
    else if c == BACKSLASH then [BACKSLASH, BACKSLASH]
    else if c == BACKSPACE then [BACKSLASH, 'b']
    else if c == FORM_FEED then [BACKSLASH, 'f']
    else if c == '\n' then [BACKSLASH, 'n']
    else if c == '\r' then [BACKSLASH, 'r']
    else if c == '\t' then [BACKSLASH, 't']
    else if IsControl(c) then [BACKSLASH, 'u'] + Hex4(c as int)
    else [c]
  }

  function EscapeAll(s: string): string
    decreases |s|
  {
    if s == [] then [] else Escape(s[0]) + EscapeAll(s[1..])
  }

  function Quoted(s: string): string {
    [QUOTE] + EscapeAll(s) + [QUOTE]
  }

  function Digits(n: nat): string {
    if n < 10 then [(48 + n) as char] else Digits(n / 10) + [(48 + n % 10) as char]
  }

  function PrintValue(v: Value): string {
    if v.Text? then Quoted(v.text) else Digits(v.number)
  }

  function PrintMember(m: Member): string {
    Quoted(m.key) + [':'] + PrintValue(m.value)
  }

  function PrintMembers(ms: seq<Member>): string
    decreases |ms|
  {
    if ms == [] then [] else (if |ms| == 1 then [] else PrintMembers(ms[..|ms| - 1]) + [',']) + PrintMember(ms[|ms| - 1])
  }

  function PrintObject(ms: seq<Member>): string {
    ['{'] + PrintMembers(ms) + ['}']
  }

  // ----- the members of a problem -----

  const TYPE: string := "type"
  const TITLE: string := "title"
  const STATUS: string := "status"
  const DETAIL: string := "detail"
  const INSTANCE: string := "instance"
  const ABOUT_BLANK: string := "about:blank"

  predicate IsReserved(key: string) {
    key == TYPE || key == TITLE || key == STATUS || key == DETAIL || key == INSTANCE
  }

  function Extensions(extensions: seq<(string, string)>): seq<Member>
    decreases |extensions|
  {
    if extensions == [] then []
    else
      var n := |extensions| - 1;
      Extensions(extensions[..n]) +
      (if IsReserved(extensions[n].0) then [] else [Member(extensions[n].0, Text(extensions[n].1))])
  }

  function Optional(key: string, value: Option<string>): seq<Member> {
    if value.Some? then [Member(key, Text(value.value))] else []
  }

  /** `reason` is the canonical reason phrase of a status. */
  function TitleOf(p: Problem, reason: nat -> Option<string>): string {
    if p.title.Some? then p.title.value
    else if reason(p.status).Some? then reason(p.status).value else "Unknown Status"
  }

  function Members(p: Problem, reason: nat -> Option<string>): seq<Member> {
    [Member(TYPE, Text(if p.kind.Some? then p.kind.value else ABOUT_BLANK)),
     Member(TITLE, Text(TitleOf(p, reason))), Member(STATUS, Number(p.status))]
      + Optional(DETAIL, p.detail) + Optional(INSTANCE, p.instance) + Extensions(p.extensions)
  }

  // ----- the printer as it runs -----

  class StringBuilder {
    var out: string
    var first: bool

    constructor (start: string)
      ensures out == start && first
    {
      out, first := start, true;
    }

    method PushStr(s: string)
      modifies this
      ensures out == old(out) + s && first == old(first)
    {
      out := out + s;
    }

    method PushJsonString(value: string)
      modifies this
      ensures out == old(out) + Quoted(value) && first == old(first)
    {
      ghost var start := out;
      QuotedParts(start, value);
      hide Escape, EscapeAll, Quoted;
      PushStr([QUOTE]);
      var i := 0;
      while i < |value|
        invariant 0 <= i <= |value| && first == old(first)
        invariant out == start + [QUOTE] + EscapeAll(value[..i])
      {
        EscapePush(value, i);
        Associate(start + [QUOTE], EscapeAll(value[..i]), Escape(value[i]));
        PushStr(Escape(value[i]));
        i := i + 1;
      }
      assert value[..i] == value;
      PushStr([QUOTE]);
    }

    /** The comma between members. */
    method Separate()
      modifies this
      ensures !first && out == old(out) + (if old(first) then [] else [','])
    {
      if !first {
        PushStr([',']);
      }
      first := false;
    }

    method AppendJsonField(key: string, value: string)
      modifies this
      ensures !first && out == old(out) + (if old(first) then [] else [',']) + PrintMember(Member(key, Text(value)))
    {
      ghost var start := out + if first then [] else [','];
      Separate();
      PushJsonString(key);
      PushStr([':']);
      PushJsonString(value);
      assert out == start + (Quoted(key) + [':'] + Quoted(value));
    }

    method AppendJsonNumber(key: string, value: nat)
      modifies this
      ensures !first && out == old(out) + (if old(first) then [] else [',']) + PrintMember(Member(key, Number(value)))
    {
      ghost var start := out + if first then [] else [','];
      Separate();
      PushJsonString(key);
      PushStr([':']);
      PushStr(Digits(value));
      assert out == start + (Quoted(key) + [':'] + Digits(value));
    }
  }

  lemma Associate(a: string, b: string, c: string)
    ensures a + b + c == a + (b + c)
  {
  }

  lemma QuotedParts(start: string, value: string)
    ensures start + [QUOTE] + EscapeAll(value) + [QUOTE] == start + Quoted(value)
    ensures start + [QUOTE] == start + [QUOTE] + EscapeAll(value[..0])
  {
    assert value[..0] == [];
  }

  lemma {:induction false} EscapeAppend(a: string, b: string)
    ensures EscapeAll(a + b) == EscapeAll(a) + EscapeAll(b)
    decreases |a|
  {
    hide Escape;
    if a == [] {
      assert a + b == b;
    } else {
      assert (a + b)[0] == a[0] && (a + b)[1..] == a[1..] + b;
      EscapeAppend(a[1..], b);
    }
  }

  lemma EscapePush(value: string, i: nat)
    requires i < |value|
    ensures EscapeAll(value[..i + 1]) == EscapeAll(value[..i]) + Escape(value[i])
  {
    hide Escape;
    assert value[..i + 1] == value[..i] + [value[i]];
    EscapeAppend(value[..i], [value[i]]);
    assert [value[i]][1..] == [];
    assert EscapeAll([value[i]]) == Escape(value[i]) + [];
  }

  /** One more member at the end. */
  lemma PrintPush(ms: seq<Member>, m: Member)
    ensures PrintMembers(ms + [m]) == PrintMembers(ms) + (if ms == [] then [] else [',']) + PrintMember(m)
  {
    hide PrintMember;
    assert (ms + [m])[..|ms|] == ms;
  }

  /** One more member in front of the closing brace. */
  lemma ObjectPush(out: string, ms: seq<Member>, m: Member)
    requires out == ['{'] + PrintMembers(ms)
    ensures out + (if ms == [] then [] else [',']) + PrintMember(m) == ['{'] + PrintMembers(ms + [m])
  {
    PrintPush(ms, m);
    hide PrintMember, PrintMembers;
  }

  /** Appends a text field and keeps count of the members printed so far. */
  method Field(b: StringBuilder, ghost ms: seq<Member>, key: string, value: string)
    requires b.out == ['{'] + PrintMembers(ms) && b.first == (ms == [])
    modifies b
    ensures b.out == ['{'] + PrintMembers(ms + [Member(key, Text(value))]) && !b.first
  {
    hide PrintMember, PrintMembers;
    ObjectPush(b.out, ms, Member(key, Text(value)));
    b.AppendJsonField(key, value);
  }

  method NumberField(b: StringBuilder, ghost ms: seq<Member>, key: string, value: nat)
    requires b.out == ['{'] + PrintMembers(ms) && b.first == (ms == [])
    modifies b
    ensures b.out == ['{'] + PrintMembers(ms + [Member(key, Number(value))]) && !b.first
  {
    hide PrintMember, PrintMembers;
    ObjectPush(b.out, ms, Member(key, Number(value)));
    b.AppendJsonNumber(key, value);
  }

  method OptionalField(b: StringBuilder, ghost ms: seq<Member>, key: string, value: Option<string>)
    requires b.out == ['{'] + PrintMembers(ms) && b.first == (ms == []) && ms != []
    modifies b
    ensures b.out == ['{'] + PrintMembers(ms + Optional(key, value)) && !b.first
  {
    hide PrintMember, PrintMembers;
    if value.Some? {
      Field(b, ms, key, value.value);
    } else {
      assert ms + [] == ms;
    }
  }

  method ExtensionFields(b: StringBuilder, ghost ms: seq<Member>, extensions: seq<(string, string)>)
    requires b.out == ['{'] + PrintMembers(ms) && b.first == (ms == []) && ms != []
    modifies b
    ensures b.out == ['{'] + PrintMembers(ms + Extensions(extensions))
  {
    hide PrintMember, PrintMembers;
    var i := 0;
    assert extensions[..0] == [] && ms + [] == ms;
    while i < |extensions|
      invariant 0 <= i <= |extensions| && !b.first
      invariant b.out == ['{'] + PrintMembers(ms + Extensions(extensions[..i]))
    {
      var (key, value) := extensions[i];
      assert extensions[..i + 1][..i] == extensions[..i];
      ghost var before := Extensions(extensions[..i]);
      if !IsReserved(key) {
        Field(b, ms + before, key, value);
        assert ms + before + [Member(key, Text(value))] == ms + (before + [Member(key, Text(value))]);
      } else {
        assert before + [] == before;
      }
      i := i + 1;
    }
    assert extensions[..i] == extensions;
  }

  /** The body of a problem response, written field by field. */
  method BodyJson(p: Problem, reason: nat -> Option<string>) returns (out: string)
    ensures out == PrintObject(Members(p, reason))
  {
    hide PrintMember, PrintMembers, Extensions, Optional;
    NothingPrinted();
    var b := new StringBuilder("{");
    var kind := if p.kind.Some? then p.kind.value else ABOUT_BLANK;
    var title := TitleOf(p, reason);
    ghost var m0, m1, m2 := Member(TYPE, Text(kind)), Member(TITLE, Text(title)), Member(STATUS, Number(p.status));
    Field(b, [], TYPE, kind);
    assert [] + [m0] == [m0];
    Field(b, [m0], TITLE, title);
    assert [m0] + [m1] == [m0, m1];
    NumberField(b, [m0, m1], STATUS, p.status);
    ghost var ms := [m0, m1, m2];
    assert [m0, m1] + [m2] == ms;
    OptionalField(b, ms, DETAIL, p.detail);
    ghost var ms1 := ms + Optional(DETAIL, p.detail);
    OptionalField(b, ms1, INSTANCE, p.instance);
    ghost var ms2 := ms1 + Optional(INSTANCE, p.instance);
    ExtensionFields(b, ms2, p.extensions);
    b.PushStr("}");
    return b.out;
  }

  lemma NothingPrinted()
    ensures PrintMembers([]) == []
  {
  }

  // ----- a JSON reader -----

  datatype Read<+T> = Got(value: T, rest: string) | Bad

  function HexOf(c: char): Option<nat> {
    if '0' <= c <= '9' then Some(c as int - 48)
    else if 'a' <= c <= 'f' then Some(c as int - 87)
    else if 'A' <= c <= 'F' then Some(c as int - 55)
    else None
  }

  /** Four hex digits, either case. */
  function ReadHex4(s: string): (r: Read<nat>)
    ensures r.Got? ==> r.value < 0x10000
  {
    if |s| < 4 || HexOf(s[0]).None? || HexOf(s[1]).None? || HexOf(s[2]).None? || HexOf(s[3]).None? then Bad
    else Got(HexOf(s[0]).value * 0x1000 + HexOf(s[1]).value * 0x100 + HexOf(s[2]).value * 16 + HexOf(s[3]).value, s[4..])
  }

  /** The escape after a backslash; a surrogate pair is one character. */
  function ReadEscape(s: string): Read<char> {
    if s == [] then Bad
    else if s[0] == QUOTE || s[0] == BACKSLASH || s[0] == '/' then Got(s[0], s[1..])
    else if s[0] == 'b' then Got(BACKSPACE, s[1..])
    else if s[0] == 'f' then Got(FORM_FEED, s[1..])
    else if s[0] == 'n' then Got('\n', s[1..])
    else if s[0] == 'r' then Got('\r', s[1..])
    else if s[0] == 't' then Got('\t', s[1..])
    else if s[0] == 'u' then
      var high := ReadHex4(s[1..]);
      if high.Bad? then Bad
      else if high.value < 0xD800 || 0xE000 <= high.value then Got(high.value as char, high.rest)
      else if 0xDC00 <= high.value || |high.rest| < 2 || high.rest[0] != BACKSLASH || high.rest[1] != 'u' then Bad
      else
        var low := ReadHex4(high.rest[2..]);
        if low.Bad? || low.value < 0xDC00 || 0xE000 <= low.value then Bad
        else Got((0x10000 + (high.value - 0xD800) * 0x400 + (low.value - 0xDC00)) as char, low.rest)
    else Bad
  }

  /** The rest of a string, behind its opening quote. */
  function ReadChars(s: string): Read<string>
    decreases |s|
  {
    if s == [] || s[0] as int < 0x20 then Bad
    else if s[0] == QUOTE then Got([], s[1..])
    else if s[0] != BACKSLASH then
      var more := ReadChars(s[1..]);
      if more.Bad? then Bad else Got([s[0]] + more.value, more.rest)
    else
      var e := ReadEscape(s[1..]);
      if e.Bad? || |e.rest| >= |s| then Bad
      else
        var more := ReadChars(e.rest);
        if more.Bad? then Bad else Got([e.value] + more.value, more.rest)
  }

  predicate IsSpace(c: char) {
    c == ' ' || c == '\t' || c == '\n' || c == '\r'
  }

  function SkipSpace(s: string): (t: string)
    ensures |t| <= |s|
    decreases |s|
  {
    if s != [] && IsSpace(s[0]) then SkipSpace(s[1..]) else s
  }

  predicate IsDigit(c: char) {
    '0' <= c <= '9'
  }

  /** The digits in front, read onto `n`. */
  function ReadDigits(n: nat, s: string): (nat, string)
    decreases |s|
  {
    if s == [] || !IsDigit(s[0]) then (n, s) else ReadDigits(n * 10 + (s[0] as int - 48), s[1..])
  }

  /** A string, or a whole number without leading zeros. */
  function ReadValue(s: string): Read<Value> {
    if s == [] then Bad
    else if s[0] == QUOTE then
      var t := ReadChars(s[1..]);
      if t.Bad? then Bad else Got(Text(t.value), t.rest)
    else if !IsDigit(s[0]) || (s[0] == '0' && |s| > 1 && IsDigit(s[1])) then Bad
    else var (n, rest) := ReadDigits(0, s); Got(Number(n), rest)
  }

  function ReadMember(s: string): Read<Member> {
    if s == [] || s[0] != QUOTE then Bad
    else
      var key := ReadChars(s[1..]);
      if key.Bad? then Bad
      else
        var colon := SkipSpace(key.rest);
        if colon == [] || colon[0] != ':' then Bad
        else
          var value := ReadValue(SkipSpace(colon[1..]));
          if value.Bad? then Bad else Got(Member(key.value, value.value), value.rest)
  }

  /** Members up to the closing brace. */
  function ReadMembers(s: string): Read<seq<Member>>
    decreases |s|
  {
    var m := ReadMember(SkipSpace(s));
    if m.Bad? then Bad
    else
      var next := SkipSpace(m.rest);
      if next == [] || |next| > |s| then Bad
      else if next[0] == '}' then Got([m.value], next[1..])
      else if next[0] != ',' then Bad
      else
        var more := ReadMembers(next[1..]);
        if more.Bad? then Bad else Got([m.value] + more.value, more.rest)
  }

  /** A whole JSON object, with nothing behind it. */
  function ReadObject(s: string): Option<seq<Member>> {
    var t := SkipSpace(s);
    if t == [] || t[0] != '{' then None
    else
      var inner := SkipSpace(t[1..]);
      if inner != [] && inner[0] == '}' then (if SkipSpace(inner[1..]) == [] then Some([]) else None)
      else
        var ms := ReadMembers(t[1..]);
        if ms.Bad? || SkipSpace(ms.rest) != [] then None else Some(ms.value)
  }

  // ----- reading undoes printing -----

  lemma HexRoundTrip(v: nat)
    requires v < 16
    ensures HexOf(HexChar(v)) == Some(v)
  {
  }

  lemma Hex4RoundTrip(n: nat, rest: string)
    requires n < 0x10000
    ensures ReadHex4(Hex4(n) + rest) == Got(n, rest)
  {
    HexRoundTrip(n / 0x1000);
    HexRoundTrip(n / 0x100 % 16);
    HexRoundTrip(n / 16 % 16);
    HexRoundTrip(n % 16);
    var s := Hex4(n) + rest;
    assert s[4..] == rest;
    assert s[0] == Hex4(n)[0] && s[1] == Hex4(n)[1] && s[2] == Hex4(n)[2] && s[3] == Hex4(n)[3];
    FourDigits(n);
    hide HexOf, HexChar;
  }

  lemma FourDigits(n: nat)
    requires n < 0x10000
    ensures (n / 0x1000) * 0x1000 + (n / 0x100 % 16) * 0x100 + (n / 16 % 16) * 16 + n % 16 == n
  {
    assert n == (n / 16) * 16 + n % 16;
    assert n / 16 == (n / 0x100) * 16 + n / 16 % 16;
    assert n / 0x100 == (n / 0x1000) * 16 + n / 0x100 % 16;
  }

  /** What a character read in front of `rest` gives. */
  function Before(c: char, rest: string): Read<string> {
    var more := ReadChars(rest);
    if more.Bad? then Bad else Got([c] + more.value, more.rest)
  }

  /** Reading an escape goes on behind it. */
  lemma EscapedRead(s: string, c: char, rest: string)
    requires s != [] && s[0] == BACKSLASH && ReadEscape(s[1..]) == Got(c, rest) && |rest| < |s|
    ensures ReadChars(s) == Before(c, rest)
  {
    hide ReadEscape;
  }

  lemma PlainRead(c: char, rest: string)
    requires 0x20 <= c as int && c != QUOTE && c != BACKSLASH
    ensures ReadChars([c] + rest) == Before(c, rest)
  {
    assert ([c] + rest)[1..] == rest;
  }

  lemma ShortEscape(e: char, c: char, rest: string)
    requires Escape(c) == [BACKSLASH, e] && e != 'u'
    ensures ReadChars(Escape(c) + rest) == Before(c, rest)
  {
    var s := [BACKSLASH, e] + rest;
    assert s[1..] == [e] + rest && ([e] + rest)[1..] == rest;
    EscapeRead(e, c, rest);
    hide ReadEscape, ReadChars, Escape, Before;
    EscapedRead(s, c, rest);
  }

  lemma EscapeRead(e: char, c: char, rest: string)
    requires Escape(c) == [BACKSLASH, e] && e != 'u'
    ensures ReadEscape([e] + rest) == Got(c, rest)
  {
    assert ([e] + rest)[1..] == rest;
    assert Escape(c)[1] == e;
    hide ReadHex4;
  }

  lemma LongEscape(c: char, rest: string)
    requires c as int < 0xD800 && Escape(c) == [BACKSLASH, 'u'] + Hex4(c as int)
    ensures ReadChars(Escape(c) + rest) == Before(c, rest)
  {
    var n := c as int;
    Hex4RoundTrip(n, rest);
    hide Hex4, ReadHex4, ReadChars, Escape, Before;
    var tail := Hex4(n) + rest;
    var s := [BACKSLASH, 'u'] + Hex4(n) + rest;
    assert s[1..] == ['u'] + tail && (['u'] + tail)[1..] == tail;
    UnicodeRead(tail, n, rest);
    hide ReadEscape;
    EscapedRead(s, c, rest);
  }

  lemma UnicodeRead(tail: string, n: nat, rest: string)
    requires ReadHex4(tail) == Got(n, rest) && n < 0xD800
    ensures ReadEscape(['u'] + tail) == Got(n as char, rest)
  {
    hide ReadHex4;
    assert (['u'] + tail)[1..] == tail;
  }

  /** One printed character, read back with what follows it. */
  lemma CharRoundTrip(c: char, rest: string)
    ensures ReadChars(Escape(c) + rest) == Before(c, rest)
  {
    EscapeShape(c);
    hide Escape, ReadChars, Before, Hex4;
    if Escape(c) == [c] {
      PlainRead(c, rest);
    } else if |Escape(c)| == 2 {
      ShortEscape(Escape(c)[1], c, rest);
    } else {
      LongEscape(c, rest);
    }
  }

  lemma EscapeShape(c: char)
    ensures || (Escape(c) == [c] && 0x20 <= c as int && c != QUOTE && c != BACKSLASH)
            || (|Escape(c)| == 2 && Escape(c) == [BACKSLASH, Escape(c)[1]] && Escape(c)[1] != 'u')
            || (|Escape(c)| == 6 && c as int < 0xD800 && Escape(c) == [BACKSLASH, 'u'] + Hex4(c as int))
  {
  }

  lemma {:induction false} CharsRoundTrip(value: string, rest: string)
    ensures ReadChars(EscapeAll(value) + [QUOTE] + rest) == Got(value, rest)
    decreases |value|
  {
    if value == [] {
      var s := EscapeAll(value) + [QUOTE] + rest;
      assert s[0] == QUOTE && s[1..] == rest;
    } else {
      var tail := EscapeAll(value[1..]) + [QUOTE] + rest;
      CharsRoundTrip(value[1..], rest);
      assert EscapeAll(value) + [QUOTE] + rest == Escape(value[0]) + tail;
      hide Escape, ReadChars;
      CharRoundTrip(value[0], tail);
      assert [value[0]] + value[1..] == value;
    }
  }

  lemma QuotedRoundTrip(value: string, rest: string)
    ensures var s := Quoted(value) + rest;
            s != [] && s[0] == QUOTE && ReadChars(s[1..]) == Got(value, rest)
  {
    CharsRoundTrip(value, rest);
    hide ReadChars, EscapeAll;
    assert (Quoted(value) + rest)[1..] == EscapeAll(value) + [QUOTE] + rest;
  }

  predicate NotDigit(s: string) {
    s == [] || !IsDigit(s[0])
  }

  lemma {:induction false} DigitsRoundTrip(n: nat, rest: string)
    requires NotDigit(rest)
    ensures ReadDigits(0, Digits(n) + rest) == (n, rest)
    ensures Digits(n) != [] && IsDigit(Digits(n)[0]) && (Digits(n)[0] == '0' ==> |Digits(n)| == 1)
    decreases n
  {
    DigitsRead(n, rest);
    FirstDigit(n);
    if rest != [] {
      assert !IsDigit(rest[0]);
    }
  }

  lemma {:induction false} FirstDigit(n: nat)
    ensures Digits(n) != [] && IsDigit(Digits(n)[0]) && (Digits(n)[0] == '0' ==> n == 0)
    decreases n
  {
    if n >= 10 {
      FirstDigit(n / 10);
    }
  }

  lemma {:induction false} DigitsRead(n: nat, rest: string)
    ensures ReadDigits(0, Digits(n) + rest) == ReadDigits(n, rest)
    decreases n
  {
    if n < 10 {
      assert (Digits(n) + rest)[1..] == rest;
    } else {
      var last := [(48 + n % 10) as char];
      assert Digits(n) + rest == Digits(n / 10) + (last + rest);
      DigitsRead(n / 10, last + rest);
      assert (last + rest)[1..] == rest;
    }
  }

  lemma ValueRoundTrip(v: Value, rest: string)
    requires NotDigit(rest)
    ensures ReadValue(PrintValue(v) + rest) == Got(v, rest)
    ensures PrintValue(v) != [] && !IsSpace(PrintValue(v)[0])
  {
    if v.Text? {
      QuotedRoundTrip(v.text, rest);
    } else {
      DigitsRoundTrip(v.number, rest);
      var s := Digits(v.number) + rest;
      if |Digits(v.number)| == 1 && rest != [] {
        assert s[1] == rest[0];
      }
    }
  }

  lemma NoSkip(s: string)
    requires s == [] || !IsSpace(s[0])
    ensures SkipSpace(s) == s
  {
  }

  lemma ReadMemberParts(s: string, key: string, colon: string, value: Value, rest: string)
    requires s != [] && s[0] == QUOTE && ReadChars(s[1..]) == Got(key, colon)
    requires |colon| > 1 && colon[0] == ':' && !IsSpace(colon[1]) && ReadValue(colon[1..]) == Got(value, rest)
    ensures ReadMember(s) == Got(Member(key, value), rest)
  {
    hide ReadChars, ReadValue;
    NoSkip(colon);
    NoSkip(colon[1..]);
    hide SkipSpace;
  }

  lemma MemberRoundTrip(m: Member, rest: string)
    requires NotDigit(rest)
    ensures ReadMember(PrintMember(m) + rest) == Got(m, rest)
    ensures PrintMember(m) != [] && PrintMember(m)[0] == QUOTE
  {
    var value := PrintValue(m.value);
    var colon := [':'] + (value + rest);
    QuotedRoundTrip(m.key, colon);
    ValueRoundTrip(m.value, rest);
    hide ReadChars, ReadValue, PrintValue, Quoted, ReadMember, IsSpace, NotDigit;
    var s := Quoted(m.key) + colon;
    assert PrintMember(m) + rest == s by {
      Associate(Quoted(m.key) + [':'], value, rest);
      Associate(Quoted(m.key), [':'], value + rest);
    }
    assert colon[1..] == value + rest && colon[1] == value[0];
    ReadMemberParts(s, m.key, colon, m.value, rest);
    StartsQuoted(m.key);
  }

  lemma StartsQuoted(key: string)
    ensures Quoted(key) != [] && Quoted(key)[0] == QUOTE
  {
  }

  /** Printing from the front: the first member, and the others behind a comma. */
  lemma {:induction false} PrintFront(ms: seq<Member>)
    requires ms != []
    ensures PrintMembers(ms) == PrintMember(ms[0]) + (if |ms| == 1 then [] else [','] + PrintMembers(ms[1..]))
    decreases |ms|
  {
    hide PrintMember;
    var n := |ms| - 1;
    if n == 0 {
      assert [] + PrintMember(ms[0]) == PrintMember(ms[0]) + [];
    } else {
      var init, last := ms[..n], ms[n];
      PrintFront(init);
      PrintPush(init, last);
      PrintPush(init[1..], last);
      assert ms == init + [last] && ms[1..] == init[1..] + [last];
      if n == 1 {
        assert init[1..] == [];
        assert PrintMembers([]) == [];
      }
    }
  }

  lemma ReadLastMember(s: string, m: Member, tail: string)
    requires s != [] && !IsSpace(s[0]) && ReadMember(s) == Got(m, tail)
    requires 0 < |tail| <= |s| && tail[0] == '}'
    ensures ReadMembers(s) == Got([m], tail[1..])
  {
    hide ReadMember;
    NoSkip(s);
    NoSkip(tail);
    hide SkipSpace;
  }

  lemma ReadMoreMembers(s: string, m: Member, tail: string, ms: seq<Member>, rest: string)
    requires s != [] && !IsSpace(s[0]) && ReadMember(s) == Got(m, tail)
    requires 0 < |tail| <= |s| && tail[0] == ',' && ReadMembers(tail[1..]) == Got(ms, rest)
    ensures ReadMembers(s) == Got([m] + ms, rest)
  {
    hide ReadMember;
    NoSkip(s);
    NoSkip(tail);
    hide SkipSpace;
  }

  lemma {:induction false} MembersRoundTrip(ms: seq<Member>, rest: string)
    requires ms != []
    ensures ReadMembers(PrintMembers(ms) + ['}'] + rest) == Got(ms, rest)
    decreases |ms|
  {
    hide ReadMember, ReadMembers, PrintMember, PrintMembers, IsDigit;
    PrintFront(ms);
    var first, more := PrintMember(ms[0]), PrintMembers(ms[1..]);
    var tail := if |ms| == 1 then ['}'] + rest else [','] + (more + ['}'] + rest);
    Plain(tail);
    MemberRoundTrip(ms[0], tail);
    var s := first + tail;
    assert s[0] == QUOTE;
    if |ms| == 1 {
      assert PrintMembers(ms) + ['}'] + rest == s && tail[1..] == rest && ms == [ms[0]];
      ReadLastMember(s, ms[0], tail);
    } else {
      MembersRoundTrip(ms[1..], rest);
      assert PrintMembers(ms) + ['}'] + rest == s && tail[1..] == more + ['}'] + rest;
      assert [ms[0]] + ms[1..] == ms;
      ReadMoreMembers(s, ms[0], tail, ms[1..], rest);
    }
  }

  lemma Plain(tail: string)
    requires tail != [] && (tail[0] == '}' || tail[0] == ',')
    ensures NotDigit(tail)
  {
  }

  /** Reading the printed object gives its members, in order. */
  lemma ObjectRoundTrip(ms: seq<Member>)
    requires ms != []
    ensures ReadObject(PrintObject(ms)) == Some(ms)
  {
    var printed, none: string := PrintMembers(ms), [];
    MembersRoundTrip(ms, none);
    PrintFront(ms);
    MemberRoundTrip(ms[0], none);
    hide ReadMembers, PrintMembers, PrintMember, ReadMember;
    assert printed[0] == PrintMember(ms[0])[0] == QUOTE;
    var t, inner := PrintObject(ms), printed + ['}'] + none;
    assert t == ['{'] + inner && t[1..] == inner && inner[0] == QUOTE;
    hide PrintObject;
    ReadBraced(t, inner, ms);
  }

  lemma ReadBraced(t: string, inner: string, ms: seq<Member>)
    requires t == ['{'] + inner && inner != [] && inner[0] == QUOTE && ReadMembers(inner) == Got(ms, [])
    ensures ReadObject(t) == Some(ms)
  {
    hide ReadMembers;
    assert t[1..] == inner;
    NoSkip(t);
    NoSkip(inner);
    NoSkip([]);
    hide SkipSpace;
  }

  // ----- keys -----

  predicate DistinctKeys(ms: seq<Member>) {
    forall i, j :: 0 <= i < j < |ms| ==> ms[i].key != ms[j].key
  }

  /** The keys of an ordered map: no two are the same. */
  predicate DistinctExtensions(extensions: seq<(string, string)>) {
    forall i, j :: 0 <= i < j < |extensions| ==> extensions[i].0 != extensions[j].0
  }

  lemma {:induction false} ExtensionKeys(extensions: seq<(string, string)>)
    requires DistinctExtensions(extensions)
    ensures DistinctKeys(Extensions(extensions))
    ensures forall m :: m in Extensions(extensions) ==>
              !IsReserved(m.key) && m.value.Text? && (m.key, m.value.text) in extensions
    ensures forall e :: e in extensions && !IsReserved(e.0) ==> Member(e.0, Text(e.1)) in Extensions(extensions)
    decreases |extensions|
  {
    if extensions != [] {
      var n := |extensions| - 1;
      var init := extensions[..n];
      ExtensionKeys(init);
      assert forall e :: e in extensions <==> e in init || e == extensions[n];
      forall m | m in Extensions(init) ensures m.key != extensions[n].0 {
        var i :| 0 <= i < n && init[i] == (m.key, m.value.text);
        assert extensions[i].0 == m.key;
      }
    }
  }

  /**
   Every problem, for all texts in it: reading its body gives exactly the three fixed members,
   the optional ones, and the extensions that are not reserved, in order and without a
   duplicate key.
   */
  lemma ProblemRoundTrip(p: Problem, reason: nat -> Option<string>)
    requires DistinctExtensions(p.extensions)
    ensures ReadObject(PrintObject(Members(p, reason))) == Some(Members(p, reason))
    ensures DistinctKeys(Members(p, reason))
  {
    var ms := Members(p, reason);
    ObjectRoundTrip(ms);
    ExtensionKeys(p.extensions);
    var more := Extensions(p.extensions);
    FixedKeys(p, reason);
    hide Members, Extensions, ReadObject, PrintObject, IsReserved, DistinctExtensions;
    KeysJoin(Fixed(p, reason), more);
  }

  /** Section 3.1 of RFC 9457: which members a problem has, and with what. */
  lemma MembersExact(p: Problem, reason: nat -> Option<string>, m: Member)
    requires DistinctExtensions(p.extensions)
    ensures m in Members(p, reason) <==>
            || m == Member("type", Text(if p.kind.Some? then p.kind.value else "about:blank"))
            || m == Member("title", Text(if p.title.Some? then p.title.value
                                         else if reason(p.status).Some? then reason(p.status).value else "Unknown Status"))
            || m == Member("status", Number(p.status))
            || (p.detail.Some? && m == Member("detail", Text(p.detail.value)))
            || (p.instance.Some? && m == Member("instance", Text(p.instance.value)))
            || (m.value.Text? && m.key !in ["type", "title", "status", "detail", "instance"]
                && (m.key, m.value.text) in p.extensions)
  {
    ExtensionKeys(p.extensions);
    hide Extensions, DistinctExtensions, DistinctKeys;
    if m.value.Text? && (m.key, m.value.text) in p.extensions && !IsReserved(m.key) {
      assert Member((m.key, m.value.text).0, Text((m.key, m.value.text).1)) in Extensions(p.extensions);
    }
  }

  /** The members that every problem has, and the optional ones. */
  function Fixed(p: Problem, reason: nat -> Option<string>): seq<Member> {
    [Member(TYPE, Text(if p.kind.Some? then p.kind.value else ABOUT_BLANK)),
     Member(TITLE, Text(TitleOf(p, reason))), Member(STATUS, Number(p.status))]
      + Optional(DETAIL, p.detail) + Optional(INSTANCE, p.instance)
  }

  lemma FixedKeys(p: Problem, reason: nat -> Option<string>)
    ensures DistinctKeys(Fixed(p, reason)) && Members(p, reason) == Fixed(p, reason) + Extensions(p.extensions)
    ensures forall m :: m in Fixed(p, reason) ==> IsReserved(m.key)
  {
    hide Extensions, TitleOf;
    KeysDiffer();
    var f := Fixed(p, reason);
    forall m | m in f ensures IsReserved(m.key) {
    }
  }

  lemma KeysDiffer()
    ensures TYPE != TITLE && TYPE != STATUS && TYPE != DETAIL && TYPE != INSTANCE && TITLE != STATUS
    ensures TITLE != DETAIL && TITLE != INSTANCE && STATUS != DETAIL && STATUS != INSTANCE && DETAIL != INSTANCE
  {
    assert TYPE[1] == 'y' && TITLE[1] == 'i' && STATUS[1] == 't' && DETAIL[1] == 'e' && INSTANCE[1] == 'n';
  }

  lemma KeysJoin(a: seq<Member>, b: seq<Member>)
    requires DistinctKeys(a) && DistinctKeys(b)
    requires (forall m :: m in a ==> IsReserved(m.key)) && (forall m :: m in b ==> !IsReserved(m.key))
    ensures DistinctKeys(a + b)
  {
    hide IsReserved;
    var ms := a + b;
    forall i, j | 0 <= i < j < |ms| ensures ms[i].key != ms[j].key {
      if |a| <= j {
        assert ms[j] in b;
        if i < |a| {
          assert ms[i] in a;
        } else {
          assert ms[i] == b[i - |a|] && ms[j] == b[j - |a|];
        }
      }
    }
  }
}
