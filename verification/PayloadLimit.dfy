/**
 Exactly when the body limit makes the outcome depend on the receive segments. The decoder
 counts a piece of chunk data as a whole, so what it took and handed out when the limit is
 exceeded depends on how large that piece was.
 */
module PayloadLimit {
  import opened Bytes
  import opened PayloadCodec
  import opened PayloadDriving

  /** The piece of `n` data bytes at `p` is the one that exceeds the limit. */
  ghost predicate FailsAt(k: Kind, limit: Option<nat>, s: seq<byte>, p: nat, n: nat, used: nat, body: seq<byte>)
    requires Sound(k)
  {
    && 0 < n && p + n <= |s| && used == p + n
    && var run := Run(k, limit, s[..p]);
       && run.verdict.More? && run.body == body
       && var kp := run.verdict.kind;
          && kp.Chunked? && kp.state == Body && n <= kp.size
          && limit.Some? && kp.total <= limit.value < kp.total + n
  }

  function Total(k: Kind, limit: Option<nat>, s: seq<byte>, p: nat): nat
    requires Sound(k) && p <= |s|
  {
    var run := Run(k, limit, s[..p]);
    if run.verdict.More? && run.verdict.kind.Chunked? then run.verdict.kind.total else 0
  }

  /** The byte at `q` is read in the middle of chunk data. */
  ghost predicate InBody(k: Kind, limit: Option<nat>, s: seq<byte>, q: nat)
    requires Sound(k) && q <= |s|
  {
    var run := Run(k, limit, s[..q]);
    run.verdict.More? && run.verdict.kind.Chunked? && run.verdict.kind.state == Body
  }

  /** The piece starts where the data starts and takes all of it that is there. */
  ghost predicate Greedy(k: Kind, limit: Option<nat>, s: seq<byte>, p: nat, n: nat)
    requires Sound(k)
  {
    && p <= |s| && (p > 0 ==> !InBody(k, limit, s, p - 1))
    && var run := Run(k, limit, s[..p]);
       run.verdict.More? && run.verdict.kind.Chunked? && n == Min(run.verdict.kind.size, |s| - p)
  }

  /** A decoder that has not failed is within the limit. */
  predicate Fresh(k: Kind, limit: Option<nat>) {
    k.Chunked? ==> Within(limit, k.total)
  }

  // ----- what the reference does there -----

  lemma RunAtFail(k: Kind, limit: Option<nat>, s: seq<byte>, p: nat, n: nat, used: nat, body: seq<byte>)
    requires Sound(k) && FailsAt(k, limit, s, p, n, used, body)
    ensures var j := limit.value - Total(k, limit, s, p);
            && j < n && Run(k, limit, s) == RunResult(Bad(BodyTooLarge), p + j + 1, body + s[p..p + j])
  {
    hide Run;
    var kp := Run(k, limit, s[..p]).verdict.kind;
    var j := limit.value - kp.total;
    BodyFails(kp, limit, s[p..], j);
    assert s == s[..p] + s[p..] && s[p..][..j] == s[p..p + j];
    RunAppend(k, limit, s[..p], s[p..]);
  }

  /** Data bytes up to the limit are read, the next one fails. */
  lemma BodyFails(k: Kind, limit: Option<nat>, t: seq<byte>, j: nat)
    requires Sound(k) && k.Chunked? && k.state == Body && limit.Some? && k.total + j == limit.value
    requires j < k.size && j < |t|
    ensures Run(k, limit, t) == RunResult(Bad(BodyTooLarge), j + 1, t[..j])
  {
    hide Run;
    DataRead(k, limit, t[..j]);
    OneTooMany(Chunked(Body, k.size - j, k.total + j), limit, t[j..]);
    assert t == t[..j] + t[j..] && t[..j] + [] == t[..j];
    RunAppend(k, limit, t[..j], t[j..]);
  }

  /** Data bytes within the limit, short of the end of the chunk. */
  lemma DataRead(k: Kind, limit: Option<nat>, data: seq<byte>)
    requires Sound(k) && k.Chunked? && k.state == Body && |data| < k.size && Within(limit, k.total + |data|)
    ensures Run(k, limit, data) == RunResult(More(Chunked(Body, k.size - |data|, k.total + |data|)), |data|, data)
  {
    if data != [] {
      hide Run;
      RunData(k, limit, data);
    }
  }

  lemma OneTooMany(k: Kind, limit: Option<nat>, t: seq<byte>)
    requires Sound(k) && k.Chunked? && k.state == Body && limit == Some(k.total) && t != []
    ensures Run(k, limit, t) == RunResult(Bad(BodyTooLarge), 1, [])
  {
  }

  // ----- shifting -----

  /** Bytes read before only shift the failing piece. */
  lemma Shifted(k: Kind, limit: Option<nat>, a: seq<byte>, next: Kind, b: seq<byte>, p: nat, n: nat, used: nat, body: seq<byte>)
    requires Sound(k) && Sound(next) && Run(k, limit, a).verdict == More(next) && FailsAt(next, limit, b, p, n, used, body)
    ensures FailsAt(k, limit, a + b, |a| + p, n, |a| + used, Run(k, limit, a).body + body)
  {
    hide Run;
    assert (a + b)[..|a| + p] == a + b[..p];
    RunAppend(k, limit, a, b[..p]);
  }

  lemma ShiftedGreedy(k: Kind, limit: Option<nat>, a: seq<byte>, next: Kind, b: seq<byte>, p: nat, n: nat)
    requires Sound(k) && Sound(next) && Run(k, limit, a).verdict == More(next) && p <= |b| && Greedy(next, limit, b, p, n)
    requires p == 0 && a != [] ==> !InBody(k, limit, a, |a| - 1)
    ensures Greedy(k, limit, a + b, |a| + p, n)
  {
    hide Run;
    var s := a + b;
    assert s[..|a| + p] == a + b[..p];
    RunAppend(k, limit, a, b[..p]);
    if p > 0 {
      assert s[..|a| + p - 1] == a + b[..p - 1];
      RunAppend(k, limit, a, b[..p - 1]);
    } else if a != [] {
      assert s[..|a| - 1] == a[..|a| - 1];
    }
  }

  lemma Longer(k: Kind, limit: Option<nat>, s: seq<byte>, more: seq<byte>, p: nat, n: nat, used: nat, body: seq<byte>)
    requires Sound(k) && FailsAt(k, limit, s, p, n, used, body)
    ensures FailsAt(k, limit, s + more, p, n, used, body)
  {
    hide Run;
    assert (s + more)[..p] == s[..p];
  }

  // ----- where one call, one drive, and a drive over segments fail -----

  lemma {:induction false} DecodeFails(k: Kind, limit: Option<nat>, s: seq<byte>) returns (p: nat, n: nat)
    requires Sound(k) && k.Chunked? && Fresh(k, limit) && Decode(k, limit, s).item == Error(BodyTooLarge)
    ensures FailsAt(k, limit, s, p, n, |s| - |Decode(k, limit, s).rest|, []) && Greedy(k, limit, s, p, n)
    decreases |s|
  {
    hide Decode;
    if k.state == Body {
      p, n := BodyDecodeFails(k, limit, s);
    } else {
      hide Decode, Run, Greedy, FailsAt, InBody;
      NotAtEnd(k, limit, s);
      var next := StepTo(k, limit, s);
      p, n := DecodeFails(next, limit, s[1..]);
      Prepended(k, limit, s, next, p, n, |s[1..]| - |Decode(next, limit, s[1..]).rest|);
      p := p + 1;
    }
  }

  /** A framing byte in front. */
  lemma Prepended(k: Kind, limit: Option<nat>, s: seq<byte>, next: Kind, p: nat, n: nat, used: nat)
    requires Sound(k) && k.Chunked? && k.state != Body && k.state != End && s != [] && Sound(next)
    requires Run(k, limit, [s[0]]) == RunResult(More(next), 1, [])
    requires FailsAt(next, limit, s[1..], p, n, used, []) && p <= |s[1..]| && Greedy(next, limit, s[1..], p, n)
    ensures FailsAt(k, limit, s, p + 1, n, used + 1, []) && Greedy(k, limit, s, p + 1, n)
  {
    hide Run, Greedy, FailsAt, InBody;
    var one: seq<byte>, rest: seq<byte>, none: seq<byte> := [s[0]], s[1..], [];
    assert s == one + rest && none + none == none;
    Shifted(k, limit, one, next, rest, p, n, used, none);
    NotBodyYet(k, limit, one);
    ShiftedGreedy(k, limit, one, next, rest, p, n);
    assert |one| + p == p + 1 && |one| + used == used + 1 && Run(k, limit, one).body == none;
  }

  lemma NotAtEnd(k: Kind, limit: Option<nat>, s: seq<byte>)
    requires Sound(k) && k.Chunked? && k.state != Body && Decode(k, limit, s).item == Error(BodyTooLarge)
    ensures k.state != End && s != []
  {
    DecodeUnfold(k, limit, s);
    hide Decode;
  }

  lemma NotBodyYet(k: Kind, limit: Option<nat>, one: seq<byte>)
    requires Sound(k) && k.Chunked? && k.state != Body && k.state != End && |one| == 1
    ensures !InBody(k, limit, one, 0)
  {
  }

  /** A framing byte that leads on to the failing data. */
  lemma StepTo(k: Kind, limit: Option<nat>, s: seq<byte>) returns (next: Kind)
    requires Sound(k) && k.Chunked? && k.state != Body && Fresh(k, limit) && Decode(k, limit, s).item == Error(BodyTooLarge)
    ensures s != [] && Sound(next) && next.Chunked? && Fresh(next, limit)
    ensures Run(k, limit, [s[0]]) == RunResult(More(next), 1, [])
    ensures Decode(k, limit, s) == Decode(next, limit, s[1..])
  {
    NotAtEnd(k, limit, s);
    ControlByte(k, limit, s);
    DecodeUnfold(k, limit, s);
    hide Decode, Step, ReadByte, Run;
    next := ReadByte(k, limit, s[0]).kind;
    TotalKept(k, limit, s[0]);
    OneByteRun(k, limit, s[0], next);
  }

  lemma TotalKept(k: Kind, limit: Option<nat>, b: byte)
    requires Sound(k) && k.Chunked? && k.state != Body && k.state != End
    ensures ReadByte(k, limit, b).Next? ==> ReadByte(k, limit, b).kind.Chunked? && ReadByte(k, limit, b).kind.total == k.total
  {
  }

  lemma OneByteRun(k: Kind, limit: Option<nat>, b: byte, next: Kind)
    requires Sound(k) && !AtEof(k) && k.Chunked? && ReadByte(k, limit, b) == Next(next, []) && next.Chunked? && !AtEof(next)
    ensures Run(k, limit, [b]) == RunResult(More(next), 1, [])
  {
    assert [b][1..] == [];
    hide ReadByte;
  }

  lemma BodyDecodeFails(k: Kind, limit: Option<nat>, s: seq<byte>) returns (p: nat, n: nat)
    requires Sound(k) && k.Chunked? && k.state == Body && Fresh(k, limit) && Decode(k, limit, s).item == Error(BodyTooLarge)
    ensures FailsAt(k, limit, s, p, n, |s| - |Decode(k, limit, s).rest|, []) && Greedy(k, limit, s, p, n)
  {
    p, n := 0, Min(k.size, |s|);
    assert s[..0] == [];
    assert Run(k, limit, []) == RunResult(More(k), 0, []);
  }

  /** After a piece of chunk data with more bytes behind it the chunk is complete. */
  lemma {:induction false} ChunkComplete(k: Kind, limit: Option<nat>, s: seq<byte>)
    requires Sound(k) && k.Chunked? && Decode(k, limit, s).item.Chunk?
    ensures var d := Decode(k, limit, s);
            d.kind.Chunked? && Within(limit, d.kind.total) && (d.rest != [] ==> d.kind.state == BodyCr)
    decreases |s|
  {
    DecodeUnfold(k, limit, s);
    BodyStep(k, s);
    hide Decode, Step;
    var step := Step(k, s);
    if step.Ready? && step.kind.state != End && step.chunk.None? && step.rest != [] {
      ChunkComplete(step.kind, limit, step.rest);
    }
  }

  lemma BodyStep(k: Kind, s: seq<byte>)
    requires Sound(k) && k.Chunked?
    ensures var step := Step(k, s);
            step.Ready? && step.chunk.Some? ==> (step.rest != [] ==> step.kind.state == BodyCr)
  {
  }

  /** A whole drive fails on a piece that is all the data there is of its chunk. */
  lemma {:induction false} DriveFails(k: Kind, limit: Option<nat>, s: seq<byte>) returns (p: nat, n: nat)
    requires Sound(k) && k.Chunked? && Fresh(k, limit) && DriveAll(k, limit, s).end == Error(BodyTooLarge)
    ensures var r := DriveAll(k, limit, s);
            FailsAt(k, limit, s, p, n, |s| - |r.rest|, r.body) && Greedy(k, limit, s, p, n)
    decreases |s|
  {
    hide Decode, Run, DriveAll, Greedy, FailsAt, InBody, Explains;
    DriveUnfold(k, limit, s);
    var d := Decode(k, limit, s);
    if d.item.Chunk? {
      DecodeExplained(k, limit, s);
      ChunkComplete(k, limit, s);
      var a := s[..|s| - |d.rest|];
      NotYetDone(d.kind, limit, d.rest);
      AfterChunk(k, limit, s, d);
      assert s == a + d.rest;
      p, n := DriveFails(d.kind, limit, d.rest);
      var r := DriveAll(d.kind, limit, d.rest);
      Shifted(k, limit, a, d.kind, d.rest, p, n, |d.rest| - |r.rest|, r.body);
      SomeLeft(d.kind, limit, d.rest, p, n, |d.rest| - |r.rest|, r.body);
      NotAtStart(d.kind, limit, d.rest, p, n, |d.rest| - |r.rest|, r.body);
      ShiftedGreedy(k, limit, a, d.kind, d.rest, p, n);
      p := |a| + p;
    } else {
      p, n := DecodeFails(k, limit, s);
    }
  }

  lemma NotYetDone(k: Kind, limit: Option<nat>, s: seq<byte>)
    requires Sound(k) && DriveAll(k, limit, s).end == Error(BodyTooLarge)
    ensures !AtEof(k)
  {
    hide Decode, DriveAll;
    DriveUnfold(k, limit, s);
    EofFirst(k, limit, s);
  }

  lemma EofFirst(k: Kind, limit: Option<nat>, s: seq<byte>)
    requires Sound(k)
    ensures AtEof(k) ==> Decode(k, limit, s).item == Eof
  {
  }

  lemma AfterChunk(k: Kind, limit: Option<nat>, s: seq<byte>, d: Decoded)
    requires Sound(k) && |d.rest| <= |s| && Explains(k, limit, s, d) && d.item.Chunk? && !AtEof(d.kind)
    ensures Run(k, limit, s[..|s| - |d.rest|]) == RunResult(More(d.kind), |s| - |d.rest|, d.item.data)
  {
    hide Run;
  }

  lemma SomeLeft(k: Kind, limit: Option<nat>, s: seq<byte>, p: nat, n: nat, used: nat, body: seq<byte>)
    requires Sound(k) && FailsAt(k, limit, s, p, n, used, body)
    ensures s != []
  {
    hide Run;
  }

  /** Where line ends are still to be read, no data fails. */
  lemma NotAtStart(k: Kind, limit: Option<nat>, s: seq<byte>, p: nat, n: nat, used: nat, body: seq<byte>)
    requires Sound(k) && k.Chunked? && k.state == BodyCr && FailsAt(k, limit, s, p, n, used, body)
    ensures 0 < p <= |s|
  {
    var none := s[..0];
    assert none == [];
    NothingRead(k, limit, none);
    hide Run;
  }

  lemma NothingRead(k: Kind, limit: Option<nat>, none: seq<byte>)
    requires Sound(k) && k.Chunked? && k.state == BodyCr && none == []
    ensures Run(k, limit, none).verdict == More(k)
  {
  }

  /** A drive over segments fails on a piece that lies within one segment. */
  lemma {:induction false} SegmentsFail(k: Kind, limit: Option<nat>, kept: seq<byte>, segments: seq<seq<byte>>, bound: nat)
    returns (p: nat, n: nat)
    requires Sound(k) && k.Chunked? && Fresh(k, limit) && DriveSegments(k, limit, kept, segments).end == Error(BodyTooLarge)
    ensures var r, s := DriveSegments(k, limit, kept, segments), kept + Flatten(segments);
            |r.rest| <= |s| && FailsAt(k, limit, s, p, n, |s| - |r.rest|, r.body)
    ensures |kept| <= bound && (forall i :: 0 <= i < |segments| ==> |segments[i]| <= bound) ==> n <= bound
    decreases |segments|
  {
    hide Decode, Run, DriveAll, DriveSegments, Greedy, FailsAt, InBody, Flatten, Agrees;
    SegmentsStep(k, limit, kept, segments);
    var first := DriveAll(k, limit, kept);
    var more := Flatten(segments);
    if first.end.NeedMore? && segments != [] {
      DriveExplained(k, limit, kept);
      StandsAt(first, Run(k, limit, kept), kept);
      StaysFresh(k, limit, kept);
      var seg, tail := segments[0], segments[1..];
      p, n := SegmentsFail(first.kind, limit, seg, tail, bound);
      var r := DriveSegments(first.kind, limit, seg, tail);
      var b := seg + Flatten(tail);
      Shifted(k, limit, kept, first.kind, b, p, n, |b| - |r.rest|, r.body);
      p := |kept| + p;
    } else {
      p, n := DriveFails(k, limit, kept);
      Longer(k, limit, kept, more, p, n, |kept| - |first.rest|, first.body);
      PieceFits(k, limit, kept, p, n, |kept| - |first.rest|, first.body);
    }
  }

  lemma PieceFits(k: Kind, limit: Option<nat>, s: seq<byte>, p: nat, n: nat, used: nat, body: seq<byte>)
    requires Sound(k) && FailsAt(k, limit, s, p, n, used, body)
    ensures n <= |s|
  {
    hide Run;
  }

  lemma SegmentsStep(k: Kind, limit: Option<nat>, kept: seq<byte>, segments: seq<seq<byte>>)
    requires Sound(k)
    ensures var first, r := DriveAll(k, limit, kept), DriveSegments(k, limit, kept, segments);
            if first.end.NeedMore? && segments != [] then
              var next := DriveSegments(first.kind, limit, first.rest + segments[0], segments[1..]);
              && Flatten(segments) == segments[0] + Flatten(segments[1..])
              && r.end == next.end && r.rest == next.rest && r.body == first.body + next.body
            else r.end == first.end && r.rest == first.rest + Flatten(segments) && r.body == first.body
  {
    hide DriveAll;
  }

  lemma StandsAt(first: Drive, run: RunResult, kept: seq<byte>)
    requires |first.rest| <= |kept| && Agrees(first, run, |kept|) && first.end.NeedMore?
    ensures first.rest == [] && run.verdict == More(first.kind) && run.body == first.body
    ensures forall seg: seq<byte> :: first.rest + seg == seg
  {
  }

  lemma {:induction false} StaysFresh(k: Kind, limit: Option<nat>, s: seq<byte>)
    requires Sound(k) && k.Chunked? && Fresh(k, limit)
    ensures var r := DriveAll(k, limit, s); r.kind.Chunked? && (r.end.NeedMore? ==> Fresh(r.kind, limit))
    decreases |s|
  {
    DriveKind(k, limit, s);
    hide Decode, DriveAll;
    var d := Decode(k, limit, s);
    if d.item.Chunk? {
      ChunkComplete(k, limit, s);
      StaysFresh(d.kind, limit, d.rest);
    } else {
      DecodeFresh(k, limit, s);
    }
  }

  lemma DriveKind(k: Kind, limit: Option<nat>, s: seq<byte>)
    requires Sound(k)
    ensures var d, r := Decode(k, limit, s), DriveAll(k, limit, s);
            r.kind == (if d.item.Chunk? then DriveAll(d.kind, limit, d.rest).kind else d.kind)
            && r.end == (if d.item.Chunk? then DriveAll(d.kind, limit, d.rest).end else d.item)
  {
    hide Decode, Iterations;
  }

  lemma {:induction false} DecodeFresh(k: Kind, limit: Option<nat>, s: seq<byte>)
    requires Sound(k) && k.Chunked? && Fresh(k, limit)
    ensures var d := Decode(k, limit, s); d.kind.Chunked? && (d.item.NeedMore? ==> Fresh(d.kind, limit))
    decreases |s|
  {
    DecodeUnfold(k, limit, s);
    StepTotal(k, s);
    hide Decode, Step;
    var step := Step(k, s);
    if step.Ready? && step.kind.state != End && step.chunk.None? && step.rest != [] {
      DecodeFresh(step.kind, limit, step.rest);
    }
  }

  lemma StepTotal(k: Kind, s: seq<byte>)
    requires Sound(k) && k.Chunked?
    ensures Step(k, s).Ready? ==> Step(k, s).kind.Chunked? && Step(k, s).kind.total == k.total
  {
  }

  // ----- the exact condition -----

  /** Driving over these segments ends, hands out and leaves the same as one drive. */
  ghost predicate SameAsWhole(k: Kind, limit: Option<nat>, s: seq<byte>, segments: seq<seq<byte>>)
    requires Sound(k)
  {
    var whole, parts := DriveAll(k, limit, s), DriveSegments(k, limit, [], segments);
    parts.end == whole.end && parts.body == whole.body && parts.rest == whole.rest
  }

  function Singles(s: seq<byte>): (segments: seq<seq<byte>>)
    ensures |segments| == |s| && forall i :: 0 <= i < |s| ==> segments[i] == [s[i]]
  {
    if s == [] then [] else [[s[0]]] + Singles(s[1..])
  }

  lemma {:induction false} SinglesWhole(s: seq<byte>)
    ensures Flatten(Singles(s)) == s
    decreases |s|
  {
    if s != [] {
      assert Singles(s)[0] == [s[0]] && Singles(s)[1..] == Singles(s[1..]);
      SinglesWhole(s[1..]);
    }
  }

  /** A piece of a single byte leaves nothing to differ about. */
  lemma SingleByte(k: Kind, limit: Option<nat>, s: seq<byte>, p: nat, used: nat, body: seq<byte>)
    requires Sound(k) && FailsAt(k, limit, s, p, 1, used, body)
    ensures Run(k, limit, s) == RunResult(Bad(BodyTooLarge), used, body)
  {
    RunAtFail(k, limit, s, p, 1, used, body);
    assert s[p..p] == [] && body + [] == body;
    hide Run;
  }

  /** The position where the reference fails, seen from two pieces that fail. */
  lemma SameSpot(k: Kind, limit: Option<nat>, s: seq<byte>, p: nat, n: nat, used: nat, body: seq<byte>,
                 q: nat, m: nat, used': nat, body': seq<byte>)
    requires Sound(k) && FailsAt(k, limit, s, p, 1, used, body) && n == 1 && Greedy(k, limit, s, p, 1)
    requires FailsAt(k, limit, s, q, m, used', body')
    ensures used == used' && body == body'
  {
    SingleByte(k, limit, s, p, used, body);
    RunAtFail(k, limit, s, q, m, used', body');
    var j := limit.value - Total(k, limit, s, q);
    hide Run;
    assert q + j == p;
    if j > 0 {
      DataInside(k, limit, s, q, m, used', body', j - 1);
    }
    SamePiece(k, limit, s, p, m, used', body');
    assert s[p..p] == [] && body' + [] == body';
  }

  /** Every byte of a piece up to the limit is read in the middle of chunk data. */
  lemma DataInside(k: Kind, limit: Option<nat>, s: seq<byte>, q: nat, m: nat, used: nat, body: seq<byte>, i: nat)
    requires Sound(k) && FailsAt(k, limit, s, q, m, used, body) && i < limit.value - Total(k, limit, s, q)
    ensures InBody(k, limit, s, q + i)
  {
    hide Run;
    var kq := Run(k, limit, s[..q]).verdict.kind;
    DataRead(kq, limit, s[q..q + i]);
    assert s[..q + i] == s[..q] + s[q..q + i];
    RunAppend(k, limit, s[..q], s[q..q + i]);
    if i == 0 {
      assert s[..q + i] == s[..q];
    }
  }

  /** A greedy piece of one byte leaves no other size for a piece at the same place. */
  lemma SamePiece(k: Kind, limit: Option<nat>, s: seq<byte>, p: nat, m: nat, used: nat, body: seq<byte>)
    requires Sound(k) && FailsAt(k, limit, s, p, m, used, body) && Greedy(k, limit, s, p, 1)
    ensures m == 1
  {
    hide Run;
  }

  // ----- the limit, said of the data -----

  /** The data of the stream, read without a limit, is more than the limit leaves room for. */
  predicate OverLimit(k: Kind, limit: Option<nat>, s: seq<byte>)
    requires Sound(k) && k.Chunked?
  {
    limit.Some? && limit.value < k.total + |Run(k, None, s).body|
  }

  /** The limit changes nothing as long as the data stays within it, and then ends the reading. */
  lemma {:induction false} LimitedRun(k: Kind, limit: Option<nat>, s: seq<byte>)
    requires Sound(k) && k.Chunked? && Fresh(k, limit)
    ensures var free := Run(k, None, s);
            && free.verdict != Bad(BodyTooLarge)
            && (free.verdict.More? ==> free.verdict.kind.Chunked? && free.verdict.kind.total == k.total + |free.body|)
            && (if OverLimit(k, limit, s) then Run(k, limit, s).verdict == Bad(BodyTooLarge) else Run(k, limit, s) == free)
    decreases |s|
  {
    if s != [] && !AtEof(k) {
      FreeByte(k, limit, s[0]);
      hide ReadByte;
      var free, bound := ReadByte(k, None, s[0]), ReadByte(k, limit, s[0]);
      if free.Next? {
        LimitedRun(free.kind, if bound == free then limit else None, s[1..]);
      }
    }
  }

  /** One byte, without and with the limit. */
  lemma FreeByte(k: Kind, limit: Option<nat>, b: byte)
    requires Sound(k) && k.Chunked? && !AtEof(k) && Fresh(k, limit)
    ensures var free, bound := ReadByte(k, None, b), ReadByte(k, limit, b);
            && (free.Fail? ==> free.error == Invalid && bound == free)
            && (free.Next? ==>
                  && free.kind.Chunked? && free.kind.total == k.total + |free.out|
                  && (if Within(limit, free.kind.total) then bound == free && Fresh(free.kind, limit)
                      else bound == Fail(BodyTooLarge, 1) && limit.Some? && limit.value < free.kind.total))
  {
  }

  /** The data of a chunk at hand starts at `p`, is a single byte, and the limit is already used up. */
  ghost predicate LoneByteAt(k: Kind, limit: Option<nat>, s: seq<byte>, p: nat)
    requires Sound(k)
  {
    && p < |s|
    && Greedy(k, None, s, p, 1)
    && var kp := Run(k, None, s[..p]).verdict.kind;
       kp.state == Body && limit == Some(kp.total)
  }

  /** Up to a place where the limit is not exceeded, reading with it is reading without. */
  lemma SameUpTo(k: Kind, limit: Option<nat>, s: seq<byte>, p: nat)
    requires Sound(k) && k.Chunked? && Fresh(k, limit) && p <= |s| && !OverLimit(k, limit, s[..p])
    ensures Run(k, limit, s[..p]) == Run(k, None, s[..p])
    ensures 0 < p ==> InBody(k, limit, s, p - 1) == InBody(k, None, s, p - 1)
    ensures Greedy(k, limit, s, p, 1) == Greedy(k, None, s, p, 1)
  {
    hide Run;
    LimitedRun(k, limit, s[..p]);
    if 0 < p {
      var last := s[p - 1..p];
      assert s[..p] == s[..p - 1] + last;
      RunAppend(k, None, s[..p - 1], last);
      assert !OverLimit(k, limit, s[..p - 1]);
      LimitedRun(k, limit, s[..p - 1]);
    }
  }

  /**
   For every stream: all divisions into segments give what one drive gives, if and only if its
   data is within the limit, or the data at hand that goes over it is a single byte.
   */
  lemma SplitExact(k: Kind, limit: Option<nat>, s: seq<byte>)
    requires Sound(k) && k.Chunked? && Fresh(k, limit)
    ensures (forall segments: seq<seq<byte>> :: Flatten(segments) == s ==> SameAsWhole(k, limit, s, segments)) <==>
              (OverLimit(k, limit, s) ==> exists p: nat :: LoneByteAt(k, limit, s, p))
  {
    hide Run, DriveAll, DriveSegments, Flatten, SameAsWhole, Fresh, LoneByteAt, Agrees, OverLimit;
    EndsOver(k, limit, s);
    if OverLimit(k, limit, s) {
      if p: nat :| LoneByteAt(k, limit, s, p) {
        forall segments: seq<seq<byte>> | Flatten(segments) == s ensures SameAsWhole(k, limit, s, segments) {
          AllSameOver(k, limit, s, segments, p);
        }
      } else {
        SinglesWhole(s);
        SinglesDiffer(k, limit, s);
      }
    } else {
      forall segments: seq<seq<byte>> | Flatten(segments) == s ensures SameAsWhole(k, limit, s, segments) {
        AllSameWithin(k, limit, s, segments);
      }
    }
  }

  /** A drive is refused for its size exactly when the data is over the limit. */
  lemma EndsOver(k: Kind, limit: Option<nat>, s: seq<byte>)
    requires Sound(k) && k.Chunked? && Fresh(k, limit)
    ensures DriveAll(k, limit, s).end == Error(BodyTooLarge) <==> OverLimit(k, limit, s)
    ensures Run(k, limit, s).verdict == Bad(BodyTooLarge) <==> OverLimit(k, limit, s)
  {
    hide Run, DriveAll, OverLimit;
    DriveExplained(k, limit, s);
    LimitedRun(k, limit, s);
  }

  lemma AllSameWithin(k: Kind, limit: Option<nat>, s: seq<byte>, segments: seq<seq<byte>>)
    requires Sound(k) && k.Chunked? && Fresh(k, limit) && Flatten(segments) == s && !OverLimit(k, limit, s)
    ensures SameAsWhole(k, limit, s, segments)
  {
    hide Run, DriveAll, DriveSegments, Flatten, OverLimit;
    EndsOver(k, limit, s);
    SplitInvariance(k, limit, segments);
  }

  lemma LoneByteFails(k: Kind, limit: Option<nat>, s: seq<byte>, p: nat)
    requires Sound(k) && k.Chunked? && Fresh(k, limit) && LoneByteAt(k, limit, s, p)
    ensures p < |s| && FailsAt(k, limit, s, p, 1, p + 1, Run(k, limit, s[..p]).body) && Greedy(k, limit, s, p, 1)
  {
    hide Run;
    LimitedRun(k, None, s[..p]);
    SameUpTo(k, limit, s, p);
  }

  lemma FailsAlone(k: Kind, limit: Option<nat>, s: seq<byte>, p: nat, used: nat, body: seq<byte>)
    requires Sound(k) && k.Chunked? && Fresh(k, limit)
    requires FailsAt(k, limit, s, p, 1, used, body) && Greedy(k, limit, s, p, 1)
    ensures LoneByteAt(k, limit, s, p)
  {
    hide Run;
    LimitedRun(k, limit, s[..p]);
    SameUpTo(k, limit, s, p);
  }

  /** A single byte over the limit is where every drive fails. */
  lemma AllSameOver(k: Kind, limit: Option<nat>, s: seq<byte>, segments: seq<seq<byte>>, p: nat)
    requires Sound(k) && k.Chunked? && Fresh(k, limit) && Flatten(segments) == s
    requires OverLimit(k, limit, s) && LoneByteAt(k, limit, s, p)
    ensures SameAsWhole(k, limit, s, segments)
  {
    hide Run, DriveAll, DriveSegments, Flatten, Fresh, FailsAt, Greedy, LoneByteAt, InBody, OverLimit;
    EndsOver(k, limit, s);
    SplitInvariance(k, limit, segments);
    LoneByteFails(k, limit, s, p);
    var body := Run(k, limit, s[..p]).body;
    var whole, parts := DriveAll(k, limit, s), DriveSegments(k, limit, [], segments);
    var none: seq<byte> := [];
    assert none + s == s;
    var p', n := DriveFails(k, limit, s);
    SameSpot(k, limit, s, p, 1, p + 1, body, p', n, |s| - |whole.rest|, whole.body);
    var q, m := SegmentsFail(k, limit, none, segments, |s|);
    SameSpot(k, limit, s, p, 1, p + 1, body, q, m, |s| - |parts.rest|, parts.body);
    SegmentsRest(k, limit, none, segments);
    SameSuffix(s, parts.rest, whole.rest);
  }

  lemma SameSuffix(s: seq<byte>, a: seq<byte>, b: seq<byte>)
    requires |a| <= |s| && |b| <= |s| && a == s[|s| - |a|..] && b == s[|s| - |b|..] && |s| - |a| == |s| - |b|
    ensures a == b
  {
  }

  /** Only a piece of one byte hands out and uses what the reference does. */
  lemma OneByteOnly(k: Kind, limit: Option<nat>, s: seq<byte>, p: nat, n: nat, used: nat, body: seq<byte>)
    requires Sound(k) && FailsAt(k, limit, s, p, n, used, body)
    requires var run := Run(k, limit, s); body == run.body && used == run.consumed
    ensures n == 1
  {
    RunAtFail(k, limit, s, p, n, used, body);
    hide Run;
  }

  /** The verdict does not depend on the segments. */
  lemma EndsAlike(k: Kind, limit: Option<nat>, s: seq<byte>, segments: seq<seq<byte>>)
    requires Sound(k) && Flatten(segments) == s
    ensures DriveSegments(k, limit, [], segments).end == DriveAll(k, limit, s).end
  {
    hide Run, DriveAll, DriveSegments, Flatten;
    SplitInvariance(k, limit, segments);
  }

  /** Read byte by byte, a stream over the limit stops where the reference does. */
  lemma SinglesStop(k: Kind, limit: Option<nat>, s: seq<byte>)
    requires Sound(k) && k.Chunked? && Fresh(k, limit) && OverLimit(k, limit, s)
    ensures var parts := DriveSegments(k, limit, [], Singles(s));
            |parts.rest| <= |s| && Run(k, limit, s) == RunResult(Bad(BodyTooLarge), |s| - |parts.rest|, parts.body)
  {
    hide Run, DriveAll, DriveSegments, Flatten, Fresh, FailsAt, OverLimit, Singles;
    var none: seq<byte> := [];
    var parts := DriveSegments(k, limit, none, Singles(s));
    EndsOver(k, limit, s);
    SinglesWhole(s);
    EndsAlike(k, limit, s, Singles(s));
    assert none + s == s;
    var q, m := SegmentsFail(k, limit, none, Singles(s), 1);
    PieceNotEmpty(k, limit, s, q, m, |s| - |parts.rest|, parts.body);
    SingleByte(k, limit, s, q, |s| - |parts.rest|, parts.body);
  }

  /** Where more than one byte is at hand, reading byte by byte stops earlier than one drive. */
  lemma SinglesDiffer(k: Kind, limit: Option<nat>, s: seq<byte>)
    requires Sound(k) && k.Chunked? && Fresh(k, limit)
    requires OverLimit(k, limit, s) && forall p: nat :: !LoneByteAt(k, limit, s, p)
    ensures !SameAsWhole(k, limit, s, Singles(s))
  {
    hide Run, DriveAll, DriveSegments, Singles, Fresh, FailsAt, Greedy, LoneByteAt, OverLimit;
    EndsOver(k, limit, s);
    SinglesStop(k, limit, s);
    var whole := DriveAll(k, limit, s);
    var p, n := DriveFails(k, limit, s);
    if SameAsWhole(k, limit, s, Singles(s)) {
      OneByteOnly(k, limit, s, p, n, |s| - |whole.rest|, whole.body);
      FailsAlone(k, limit, s, p, |s| - |whole.rest|, whole.body);
      assert false;
    }
  }

  lemma PieceNotEmpty(k: Kind, limit: Option<nat>, s: seq<byte>, p: nat, n: nat, used: nat, body: seq<byte>)
    requires Sound(k) && FailsAt(k, limit, s, p, n, used, body)
    ensures 0 < n
  {
    hide Run;
  }

  /** A declared length over the limit is refused at once, whatever the segments. */
  lemma LengthSplitExact(n: nat, limit: Option<nat>, s: seq<byte>, segments: seq<seq<byte>>)
    requires Flatten(segments) == s
    ensures SameAsWhole(Length(n), limit, s, segments)
  {
    hide Run, DriveAll, DriveSegments, Flatten;
    var k, none: seq<byte> := Length(n), [];
    SplitInvariance(k, limit, segments);
    if n > 0 && !Within(limit, n) {
      LengthRefused(n, limit, s);
      LengthRefused(n, limit, none);
      SegmentsStep(k, limit, none, segments);
      assert none + s == s;
    } else {
      LengthWithin(k, limit, s);
    }
  }

  /** A length within the limit is never refused later. */
  lemma {:induction false} LengthWithin(k: Kind, limit: Option<nat>, s: seq<byte>)
    requires Sound(k) && k.Length? && LengthFits(k, limit)
    ensures DriveAll(k, limit, s).end != Error(BodyTooLarge)
    decreases |s|
  {
    hide Decode, DriveAll, LengthFits;
    DriveKind(k, limit, s);
    LengthStep(k, limit, s);
    var d := Decode(k, limit, s);
    if d.item.Chunk? {
      LengthWithin(d.kind, limit, d.rest);
    }
  }

  predicate LengthFits(k: Kind, limit: Option<nat>)
    requires k.Length?
  {
    k.remaining == 0 || Within(limit, k.remaining)
  }

  lemma LengthStep(k: Kind, limit: Option<nat>, s: seq<byte>)
    requires Sound(k) && k.Length? && LengthFits(k, limit)
    ensures var d := Decode(k, limit, s);
            d.item != Error(BodyTooLarge) && d.kind.Length? && LengthFits(d.kind, limit)
            && (d.item.Chunk? ==> |d.rest| < |s|)
  {
  }

  lemma LengthRefused(n: nat, limit: Option<nat>, s: seq<byte>)
    requires n > 0 && !Within(limit, n)
    ensures DriveAll(Length(n), limit, s).end == Error(BodyTooLarge)
    ensures DriveAll(Length(n), limit, s).rest == s && DriveAll(Length(n), limit, s).body == []
  {
    DriveUnfold(Length(n), limit, s);
    hide DriveAll;
  }
}
