/** Path patterns: literal segments, named parameters, and a glob that takes the rest. */
module Path {
  import opened Bytes

  datatype Segment = Literal(text: string) | Param(name: string) | Glob(name: string)

  /** A captured name and its value. */
  datatype Capture = Capture(name: string, value: string)

  const SLASH: char := '/'

  // ----- the segments of a path -----

  /** The non-empty parts between slashes; leading, trailing and repeated slashes do not count. */
  function Parts(path: string): seq<string>
    decreases |path|, 0
  {
    PartsAfter("", path)
  }

  /** The parts of `open + path`, where `open` is the beginning of a part. */
  function PartsAfter(open: string, path: string): seq<string>
    decreases |path|
  {
    if path == "" then (if open == "" then [] else [open])
    else if path[0] == SLASH then (if open == "" then [] else [open]) + PartsAfter("", path[1..])
    else PartsAfter(open + [path[0]], path[1..])
  }

  predicate IsPart(s: string) {
    s != "" && SLASH !in s
  }

  function Join(parts: seq<string>): string
    decreases |parts|
  {
    if parts == [] then "" else if |parts| == 1 then parts[0] else parts[0] + [SLASH] + Join(parts[1..])
  }

  function SegmentOf(s: string): Option<Segment> {
    if s == "" then None
    else if s[0] == ':' then Some(Param(s[1..]))
    else if s[0] == '*' then Some(Glob(s[1..]))
    else Some(Literal(s))
  }

  predicate NoneEmpty(parts: seq<string>) {
    forall i :: 0 <= i < |parts| ==> parts[i] != ""
  }

  function Segments(parts: seq<string>): seq<Segment>
    requires NoneEmpty(parts)
    decreases |parts|
  {
    if parts == [] then []
    else
      [SegmentOf(parts[0]).value] + Segments(parts[1..])
  }

  // ----- matching -----

  function MatchParts(segments: seq<Segment>, parts: seq<string>): Option<seq<Capture>>
    decreases |segments|
  {
    if segments == [] then (if parts == [] then Some([]) else None)
    else
      match segments[0]
      case Literal(text) =>
        if parts != [] && parts[0] == text then MatchParts(segments[1..], parts[1..]) else None
      case Param(name) =>
        if parts == [] then None
        else
          var rest := MatchParts(segments[1..], parts[1..]);
          if rest.None? then None else Some([Capture(name, parts[0])] + rest.value)
      case Glob(name) => Some([Capture(name, Join(parts))])
  }

  predicate MatchesParts(segments: seq<Segment>, parts: seq<string>)
    decreases |segments|
  {
    if segments == [] then parts == []
    else
      match segments[0]
      case Literal(text) => parts != [] && parts[0] == text && MatchesParts(segments[1..], parts[1..])
      case Param(_) => parts != [] && MatchesParts(segments[1..], parts[1..])
      case Glob(_) => true
  }

  lemma MatchStep(segments: seq<Segment>, i: nat, parts: seq<string>, j: nat)
    requires i < |segments| && j <= |parts|
    ensures var m := MatchParts(segments[i..], parts[j..]);
            match segments[i]
            case Literal(text) =>
              m == (if j < |parts| && parts[j] == text then MatchParts(segments[i + 1..], parts[j + 1..]) else None)
            case Param(name) =>
              m == if j == |parts| then None
                   else var rest := MatchParts(segments[i + 1..], parts[j + 1..]);
                        if rest.None? then None else Some([Capture(name, parts[j])] + rest.value)
            case Glob(name) => m == Some([Capture(name, Join(parts[j..]))])
    ensures var b := MatchesParts(segments[i..], parts[j..]);
            match segments[i]
            case Literal(text) => b == (j < |parts| && parts[j] == text && MatchesParts(segments[i + 1..], parts[j + 1..]))
            case Param(name) => b == (j < |parts| && MatchesParts(segments[i + 1..], parts[j + 1..]))
            case Glob(name) => b
  {
    assert segments[i..][1..] == segments[i + 1..];
    if j < |parts| {
      assert parts[j..][0] == parts[j] && parts[j..][1..] == parts[j + 1..];
    }
  }

  /** With what was captured so far in front. */
  function Prepend(captures: seq<Capture>, rest: Option<seq<Capture>>): Option<seq<Capture>> {
    if rest.None? then None else Some(captures + rest.value)
  }

  class PathPattern {
    const raw: string
    const segments: seq<Segment>

    constructor (pattern: string)
      ensures raw == pattern && NoneEmpty(Parts(pattern)) && segments == Segments(Parts(pattern))
    {
      PartsAreParts("", pattern);
      raw := pattern;
      segments := Segments(Parts(pattern));
    }

    /** Walks both lists of segments at once, capturing as it goes. */
    method MatchPath(path: string) returns (r: Option<seq<Capture>>)
      ensures r == MatchParts(segments, Parts(path))
    {
      hide MatchParts, Join;
      var parts := Parts(path);
      var params: seq<Capture> := [];
      var i, next := 0, 0;
      assert segments[0..] == segments && parts[0..] == parts;
      assert Prepend([], MatchParts(segments, parts)) == MatchParts(segments, parts) by { NothingPrepended(segments, parts); }
      while i < |segments|
        invariant 0 <= i <= |segments| && 0 <= next <= |parts|
        invariant MatchParts(segments, parts) == Prepend(params, MatchParts(segments[i..], parts[next..]))
      {
        MatchStep(segments, i, parts, next);
        match segments[i] {
        case Literal(text) =>
          if next == |parts| || parts[next] != text {
            return None;
          }
          next := next + 1;
        case Param(name) =>
          if next == |parts| {
            return None;
          }
          var rest := MatchParts(segments[i + 1..], parts[next + 1..]);
          assert rest.Some? ==> params + ([Capture(name, parts[next])] + rest.value) == params + [Capture(name, parts[next])] + rest.value;
          params := params + [Capture(name, parts[next])];
          next := next + 1;
        case Glob(name) =>
          return Some(params + [Capture(name, Join(parts[next..]))]);
        }
        i := i + 1;
      }
      NoSegments(segments, parts[next..]);
      if next < |parts| {
        return None;
      }
      assert params + [] == params;
      return Some(params);
    }

    /** The same walk without capturing. */
    method Matches(path: string) returns (r: bool)
      ensures r == MatchesParts(segments, Parts(path))
    {
      hide MatchesParts;
      var parts := Parts(path);
      var i, next := 0, 0;
      assert segments[0..] == segments && parts[0..] == parts;
      while i < |segments|
        invariant 0 <= i <= |segments| && 0 <= next <= |parts|
        invariant MatchesParts(segments, parts) == MatchesParts(segments[i..], parts[next..])
      {
        MatchStep(segments, i, parts, next);
        match segments[i] {
        case Literal(text) =>
          if next == |parts| || parts[next] != text {
            return false;
          }
          next := next + 1;
        case Param(_) =>
          if next == |parts| {
            return false;
          }
          next := next + 1;
        case Glob(_) =>
          return true;
        }
        i := i + 1;
      }
      NoSegments(segments, parts[next..]);
      return next == |parts|;
    }
  }

  lemma NothingPrepended(segments: seq<Segment>, parts: seq<string>)
    ensures Prepend([], MatchParts(segments, parts)) == MatchParts(segments, parts)
  {
    var m := MatchParts(segments, parts);
    if m.Some? {
      assert [] + m.value == m.value;
    }
  }

  lemma NoSegments(segments: seq<Segment>, parts: seq<string>)
    ensures MatchParts(segments[|segments|..], parts) == (if parts == [] then Some([]) else None)
    ensures MatchesParts(segments[|segments|..], parts) == (parts == [])
  {
    assert segments[|segments|..] == [];
  }

  // ----- matching with and without capturing agree -----

  lemma {:induction false} MatchIffMatches(segments: seq<Segment>, parts: seq<string>)
    ensures MatchParts(segments, parts).Some? <==> MatchesParts(segments, parts)
    decreases |segments|
  {
    if segments != [] && parts != [] {
      MatchIffMatches(segments[1..], parts[1..]);
    }
  }

  // ----- substituting the captures -----

  predicate GlobLast(segments: seq<Segment>) {
    forall i :: 0 <= i < |segments| - 1 ==> !segments[i].Glob?
  }

  predicate AllParts(parts: seq<string>) {
    forall i :: 0 <= i < |parts| ==> IsPart(parts[i])
  }

  /** How many segments capture something. */
  function Captures(segments: seq<Segment>): nat
    decreases |segments|
  {
    if segments == [] then 0 else (if segments[0].Literal? then 0 else 1) + Captures(segments[1..])
  }

  /** The pattern with its captures in place, as the list of texts between slashes. */
  function Substitute(segments: seq<Segment>, captures: seq<Capture>): seq<string>
    requires |captures| == Captures(segments)
    decreases |segments|
  {
    if segments == [] then []
    else if segments[0].Literal? then [segments[0].text] + Substitute(segments[1..], captures)
    else [captures[0].value] + Substitute(segments[1..], captures[1..])
  }

  lemma {:induction false} PartsAreParts(open: string, path: string)
    requires SLASH !in open
    ensures AllParts(PartsAfter(open, path))
    ensures NoneEmpty(PartsAfter(open, path))
    decreases |path|
  {
    if path != "" {
      if path[0] == SLASH {
        PartsAreParts("", path[1..]);
      } else {
        PartsAreParts(open + [path[0]], path[1..]);
      }
    }
  }

  /** Reading on in the middle of a part. */
  lemma {:induction false} PartsOfPart(open: string, part: string, rest: string)
    requires SLASH !in part
    ensures PartsAfter(open, part + rest) == PartsAfter(open + part, rest)
    decreases |part|
  {
    if part == "" {
      assert part + rest == rest && open + part == open;
    } else {
      assert (part + rest)[0] == part[0] && (part + rest)[1..] == part[1..] + rest;
      assert open + [part[0]] + part[1..] == open + part;
      PartsOfPart(open + [part[0]], part[1..], rest);
    }
  }

  lemma PartsOfFirst(part: string, rest: string)
    requires IsPart(part)
    ensures Parts(part + [SLASH] + rest) == [part] + Parts(rest)
    ensures Parts(part) == [part]
  {
    PartsOfPart("", part, [SLASH] + rest);
    assert part + ([SLASH] + rest) == part + [SLASH] + rest;
    assert "" + part == part && ([SLASH] + rest)[1..] == rest;
    PartsOfPart("", part, "");
    assert part + "" == part;
  }

  /** Joining parts and splitting them again. */
  lemma {:induction false} JoinSplits(parts: seq<string>)
    requires AllParts(parts)
    ensures Parts(Join(parts)) == parts
    decreases |parts|
  {
    if parts != [] {
      PartsOfFirst(parts[0], if |parts| == 1 then "" else Join(parts[1..]));
      if |parts| > 1 {
        JoinSplits(parts[1..]);
        assert [parts[0]] + parts[1..] == parts;
      } else {
        assert parts == [parts[0]];
      }
    }
  }

  /** The parts of several texts joined with slashes are the parts of each, in order. */
  lemma {:induction false} JoinParts(texts: seq<string>, last: string)
    requires AllParts(texts)
    ensures Parts(Join(texts + [last])) == texts + Parts(last)
    decreases |texts|
  {
    if texts == [] {
      assert texts + [last] == [last];
      assert Join([last]) == last && [] + Parts(last) == Parts(last);
    } else {
      var all := texts + [last];
      assert all[0] == texts[0] && all[1..] == texts[1..] + [last] && |all| > 1;
      JoinParts(texts[1..], last);
      PartsOfFirst(texts[0], Join(all[1..]));
      assert [texts[0]] + (texts[1..] + Parts(last)) == texts + Parts(last);
    }
  }

  lemma {:induction false} CaptureCount(segments: seq<Segment>, parts: seq<string>)
    requires GlobLast(segments) && MatchParts(segments, parts).Some?
    ensures |MatchParts(segments, parts).value| == Captures(segments)
    decreases |segments|
  {
    if segments != [] {
      if segments[0].Glob? {
        assert segments[1..] == [];
      } else {
        assert forall i :: 0 <= i < |segments[1..]| ==> segments[1..][i] == segments[i + 1];
        CaptureCount(segments[1..], parts[1..]);
      }
    }
  }

  /** A segment that is no glob gives the first part. */
  lemma FirstText(segments: seq<Segment>, parts: seq<string>)
    requires segments != [] && !segments[0].Glob? && MatchParts(segments, parts).Some?
    requires |MatchParts(segments, parts).value| == Captures(segments)
    ensures parts != [] && MatchParts(segments[1..], parts[1..]).Some?
    ensures var tail := MatchParts(segments[1..], parts[1..]).value;
            && |tail| == Captures(segments[1..])
            && Substitute(segments, MatchParts(segments, parts).value) == [parts[0]] + Substitute(segments[1..], tail)
  {
    if segments[0].Param? {
      assert MatchParts(segments, parts).value[1..] == MatchParts(segments[1..], parts[1..]).value;
    }
  }

  /** A glob at the end gives what is left in one text. */
  lemma GlobText(segments: seq<Segment>, parts: seq<string>)
    requires |segments| == 1 && segments[0].Glob?
    ensures MatchParts(segments, parts).Some? && |MatchParts(segments, parts).value| == Captures(segments)
    ensures Substitute(segments, MatchParts(segments, parts).value) == [Join(parts)]
  {
    assert segments[1..] == [];
  }

  /** The parts of the path, those a glob at the end took in one text. */
  predicate Gives(segments: seq<Segment>, parts: seq<string>, texts: seq<string>) {
    if segments != [] && segments[|segments| - 1].Glob? then
      && |texts| == |segments| && |segments| - 1 <= |parts|
      && texts == parts[..|segments| - 1] + [Join(parts[|segments| - 1..])]
    else texts == parts
  }

  lemma GivesFirst(segments: seq<Segment>, parts: seq<string>, texts: seq<string>)
    requires segments != [] && !segments[0].Glob? && parts != [] && Gives(segments[1..], parts[1..], texts)
    ensures Gives(segments, parts, [parts[0]] + texts)
  {
    hide Join;
    var n := |segments| - 1;
    var more := parts[1..];
    assert n > 0 ==> segments[1..][n - 1] == segments[n];
    assert [parts[0]] + more == parts;
    if n > 0 && segments[n].Glob? {
      OneSooner(parts[0], more, parts, n, Join(more[n - 1..]));
    }
  }

  lemma OneSooner(first: string, more: seq<string>, parts: seq<string>, n: nat, last: string)
    requires parts == [first] + more && 1 <= n <= |more| + 1
    ensures [first] + (more[..n - 1] + [last]) == parts[..n] + [last] && more[n - 1..] == parts[n..]
  {
  }

  lemma GlobLastRest(segments: seq<Segment>)
    requires GlobLast(segments) && segments != []
    ensures GlobLast(segments[1..]) && (segments[0].Glob? ==> |segments| == 1)
  {
    assert forall i :: 0 <= i < |segments[1..]| ==> segments[1..][i] == segments[i + 1];
  }

  /** What substituting the captured values into a pattern gives. */
  lemma {:induction false} SubstituteGives(segments: seq<Segment>, parts: seq<string>)
    requires GlobLast(segments) && MatchParts(segments, parts).Some?
    requires |MatchParts(segments, parts).value| == Captures(segments)
    ensures Gives(segments, parts, Substitute(segments, MatchParts(segments, parts).value))
    decreases |segments|
  {
    if segments == [] {
      assert parts == [];
    } else {
      hide MatchParts, Substitute, Captures, Join, GlobLast;
      GlobLastRest(segments);
      if segments[0].Glob? {
        GlobText(segments, parts);
        assert parts[0..] == parts && parts[..0] == [];
      } else {
        hide Gives;
        FirstText(segments, parts);
        SubstituteGives(segments[1..], parts[1..]);
        GivesFirst(segments, parts, Substitute(segments[1..], MatchParts(segments[1..], parts[1..]).value));
      }
    }
  }

  /**
   Substituting the captured values into the pattern gives the request path back, up to
   slashes that do not count: the same non-empty segments, the glob's included.
   */
  lemma SubstituteRoundTrip(segments: seq<Segment>, path: string)
    requires GlobLast(segments) && MatchParts(segments, Parts(path)).Some?
    ensures |MatchParts(segments, Parts(path)).value| == Captures(segments)
    ensures Parts(Join(Substitute(segments, MatchParts(segments, Parts(path)).value))) == Parts(path)
  {
    var parts := Parts(path);
    PartsAreParts("", path);
    CaptureCount(segments, parts);
    SubstituteGives(segments, parts);
    var n := |segments| - 1;
    if segments != [] && segments[n].Glob? {
      JoinParts(parts[..n], Join(parts[n..]));
      JoinSplits(parts[n..]);
      assert parts[..n] + parts[n..] == parts;
    } else {
      JoinSplits(parts);
    }
  }

  /** What stands behind a glob plays no part: a pattern is as good as its beginning up to it. */
  lemma {:induction false} NothingAfterGlob(segments: seq<Segment>, i: nat, parts: seq<string>)
    requires i < |segments| && segments[i].Glob?
    ensures MatchParts(segments, parts) == MatchParts(segments[..i + 1], parts)
    decreases i
  {
    var cut := segments[..i + 1];
    if i == 0 {
      assert cut[0] == segments[0];
    } else {
      assert cut[0] == segments[0] && cut[1..] == segments[1..][..i];
      if parts != [] {
        NothingAfterGlob(segments[1..], i - 1, parts[1..]);
      }
    }
  }

  // ----- what a pattern matches, said in its own text -----

  /** Slashes separate; at the ends or repeated they do not count. */
  lemma PartsExact(a: string, b: string)
    ensures Parts("") == []
    ensures IsPart(a) ==> Parts(a) == [a]
    ensures Parts(a + "/" + b) == Parts(a) + Parts(b)
  {
    PartsJoin("", a, b);
    if IsPart(a) {
      PartsOfPart("", a, "");
      assert a + "" == a && "" + a == a;
    }
  }

  lemma {:induction false} PartsJoin(open: string, a: string, b: string)
    ensures PartsAfter(open, a + "/" + b) == PartsAfter(open, a) + Parts(b)
    decreases |a|
  {
    var s := a + "/" + b;
    if a == "" {
      assert s[0] == SLASH && s[1..] == b;
    } else {
      assert s[0] == a[0] && s[1..] == a[1..] + "/" + b;
      if a[0] == SLASH {
        PartsJoin("", a[1..], b);
      } else {
        PartsJoin(open + [a[0]], a[1..], b);
      }
    }
  }

  /** The parts that `:` names in a pattern, with what stands there in a path. */
  function Named(pattern: seq<string>, parts: seq<string>): seq<Capture>
    requires NoneEmpty(pattern) && |pattern| <= |parts|
    decreases |pattern|
  {
    if pattern == [] then []
    else
      (if pattern[0][0] == ':' then [Capture(pattern[0][1..], parts[0])] else []) + Named(pattern[1..], parts[1..])
  }

  /** Up to the first glob, at `g`, each part of the pattern is a parameter or the part of the path. */
  predicate Fits(pattern: seq<string>, parts: seq<string>, g: nat)
    requires NoneEmpty(pattern) && g <= |pattern|
  {
    && (if g == |pattern| then |parts| == g else g <= |parts|)
    && forall i :: 0 <= i < g && i < |parts| ==> pattern[i][0] == ':' || pattern[i] == parts[i]
  }

  /**
   A pattern matches exactly the paths that agree with it part by part up to its glob, where a part
   that begins with `:` agrees with any; captured are these, in order, and what the glob takes.
   */
  lemma {:induction false} MatchExact(pattern: seq<string>, parts: seq<string>, g: nat)
    requires NoneEmpty(pattern) && g <= |pattern|
    requires forall i :: 0 <= i < g ==> pattern[i][0] != '*'
    requires g < |pattern| ==> pattern[g][0] == '*'
    ensures MatchParts(Segments(pattern), parts).Some? <==> Fits(pattern, parts, g)
    ensures Fits(pattern, parts, g) ==>
              MatchParts(Segments(pattern), parts).value ==
              Named(pattern[..g], parts) +
              (if g == |pattern| then [] else [Capture(pattern[g][1..], Join(parts[g..]))])
    decreases |pattern|
  {
    hide Join, MatchParts, Segments, Named, Fits;
    if g == 0 || parts == [] {
      MatchNone(pattern, parts, g);
    } else {
      var rest := pattern[1..];
      assert forall i :: 0 <= i < |rest| ==> rest[i] == pattern[i + 1];
      MatchExact(rest, parts[1..], g - 1);
      FitsFirst(pattern, parts, g);
      MatchFirst(pattern, parts);
      if Fits(pattern, parts, g) {
        FitsLength(pattern, parts, g);
        assert pattern[..g][1..] == rest[..g - 1] && parts[1..][g - 1..] == parts[g..];
        NamedFirst(pattern[..g], parts);
      }
    }
  }

  lemma FitsLength(pattern: seq<string>, parts: seq<string>, g: nat)
    requires NoneEmpty(pattern) && g <= |pattern| && Fits(pattern, parts, g)
    ensures g <= |parts|
  {
  }

  lemma NamedFirst(pattern: seq<string>, parts: seq<string>)
    requires NoneEmpty(pattern) && pattern != [] && |pattern| <= |parts|
    ensures Named(pattern, parts) ==
            (if pattern[0][0] == ':' then [Capture(pattern[0][1..], parts[0])] else []) + Named(pattern[1..], parts[1..])
  {
  }

  /** Nothing to agree on: the glob comes first, or one of the two is at its end. */
  lemma MatchNone(pattern: seq<string>, parts: seq<string>, g: nat)
    requires NoneEmpty(pattern) && g <= |pattern| && (g == 0 || parts == [])
    requires forall i :: 0 <= i < g ==> pattern[i][0] != '*'
    requires g < |pattern| ==> pattern[g][0] == '*'
    ensures MatchParts(Segments(pattern), parts).Some? <==> Fits(pattern, parts, g)
    ensures Fits(pattern, parts, g) ==>
              MatchParts(Segments(pattern), parts).value ==
              Named(pattern[..g], parts) +
              (if g == |pattern| then [] else [Capture(pattern[g][1..], Join(parts[g..]))])
  {
    hide Join;
    if g == 0 && pattern != [] {
      assert parts[0..] == parts && pattern[..0] == [];
    }
  }

  lemma MatchFirst(pattern: seq<string>, parts: seq<string>)
    requires NoneEmpty(pattern) && pattern != [] && parts != [] && pattern[0][0] != '*'
    ensures var p, rest := pattern[0], MatchParts(Segments(pattern[1..]), parts[1..]);
            MatchParts(Segments(pattern), parts) ==
            if p[0] == ':' then (if rest.None? then None else Some([Capture(p[1..], parts[0])] + rest.value))
            else if p == parts[0] then rest else None
  {
    assert Segments(pattern)[1..] == Segments(pattern[1..]);
  }

  lemma FitsFirst(pattern: seq<string>, parts: seq<string>, g: nat)
    requires NoneEmpty(pattern) && 0 < g <= |pattern| && parts != [] && NoneEmpty(pattern[1..])
    ensures Fits(pattern, parts, g) <==>
              (pattern[0][0] == ':' || pattern[0] == parts[0]) && Fits(pattern[1..], parts[1..], g - 1)
  {
    forall i | 0 < i < g && i < |parts| ensures pattern[1..][i - 1] == pattern[i] && parts[1..][i - 1] == parts[i] {
    }
  }
}
