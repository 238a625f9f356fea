/**
 Driving the decoder over whole streams: however a stream is cut into receive segments, the
 result is the one the byte-at-a-time reference gives.
 */
module PayloadDriving {
  import opened Bytes
  import opened PayloadCodec

  /** What a whole drive did, in the reference's terms. */
  ghost predicate Agrees(r: Drive, run: RunResult, supplied: nat)
    requires |r.rest| <= supplied
  {
    && (if r.end.Eof? then run.verdict == Done
        else if r.end.NeedMore? then run.verdict == More(r.kind) && r.rest == []
        else r.end.Error? && run.verdict == Bad(r.end.error))
    && (r.end != Error(BodyTooLarge) ==> run.body == r.body && run.consumed == supplied - |r.rest|)
    && (r.end == Error(BodyTooLarge) ==> r.body <= run.body && run.consumed <= supplied - |r.rest|)
  }

  lemma {:induction false} DriveExplained(k: Kind, limit: Option<nat>, src: seq<byte>)
    requires Sound(k)
    ensures Agrees(DriveAll(k, limit, src), Run(k, limit, src), |src|)
    decreases |src|
  {
    hide Decode, Run, Iterations, Explains, Agrees, DriveAll;
    DecodeExplained(k, limit, src);
    DriveUnfold(k, limit, src);
    var d, r := Decode(k, limit, src), DriveAll(k, limit, src);
    if d.item.Chunk? {
      DriveExplained(d.kind, limit, d.rest);
      ChunkThenDrive(k, limit, src, d, DriveAll(d.kind, limit, d.rest), r);
    } else {
      LastCall(k, limit, src, d, r);
    }
  }

  lemma LastCall(k: Kind, limit: Option<nat>, src: seq<byte>, d: Decoded, r: Drive)
    requires Sound(k) && |d.rest| <= |src| && Explains(k, limit, src, d) && !d.item.Chunk?
    requires r.end == d.item && r.rest == d.rest && r.body == [] && r.kind == d.kind
    ensures Agrees(r, Run(k, limit, src), |src|)
  {
    hide Run;
    var n := |src| - |d.rest|;
    var a, b := src[..n], src[n..];
    assert src == a + b;
    RunAppend(k, limit, a, b);
  }

  /** The reference reads the first item and goes on from there. */
  lemma RunOnward(k: Kind, limit: Option<nat>, src: seq<byte>, d: Decoded)
    requires Sound(k) && Sound(d.kind) && |d.rest| <= |src| && d.rest == src[|src| - |d.rest|..]
    requires d.item.Chunk? && Explains(k, limit, src, d)
    ensures Run(k, limit, src) == After(|src| - |d.rest|, d.item.data, Run(d.kind, limit, d.rest))
  {
    hide Run;
    var n := |src| - |d.rest|;
    var a, b := src[..n], src[n..];
    assert src == a + b;
    RunAppend(k, limit, a, b);
    if AtEof(d.kind) {
      RunDone(d.kind, limit, d.rest);
      assert d.item.data + [] == d.item.data;
    }
  }

  lemma ChunkThenDrive(k: Kind, limit: Option<nat>, src: seq<byte>, d: Decoded, next: Drive, r: Drive)
    requires Sound(k) && Sound(d.kind) && |next.rest| <= |d.rest| <= |src| && d.rest == src[|src| - |d.rest|..]
    requires d.item.Chunk? && Explains(k, limit, src, d)
    requires Agrees(next, Run(d.kind, limit, d.rest), |d.rest|)
    requires r.end == next.end && r.rest == next.rest && r.body == d.item.data + next.body && r.kind == next.kind
    ensures Agrees(r, Run(k, limit, src), |src|)
  {
    hide Run, Explains;
    RunOnward(k, limit, src, d);
  }

  lemma {:induction false} SegmentsExplained(k: Kind, limit: Option<nat>, kept: seq<byte>, segments: seq<seq<byte>>)
    requires Sound(k)
    ensures var r := DriveSegments(k, limit, kept, segments);
            var s := kept + Flatten(segments);
            |r.rest| <= |s| && Agrees(r, Run(k, limit, s), |s|) && r.iterations <= |s| - |r.rest| + r.calls
    decreases |segments|
  {
    hide Run, DriveAll;
    DriveExplained(k, limit, kept);
    RunAppend(k, limit, kept, Flatten(segments));
    var first := DriveAll(k, limit, kept);
    if segments == [] {
      assert kept + Flatten(segments) == kept;
    } else if first.end.NeedMore? {
      assert first.rest + segments[0] == segments[0];
      SegmentsExplained(first.kind, limit, first.rest + segments[0], segments[1..]);
    }
  }

  /**
   Split invariance. However a stream is cut into receive segments, driving the decoder
   segment by segment ends with the verdict of decoding the whole stream at once. The
   delivered body and the number of bytes used agree too, unless the verdict is
   `BodyTooLarge`: then either has handed out a beginning of the body up to the limit, and
   has read at least up to the byte that exceeds it. The decode loop goes round at most once per byte used plus once per call.
   */
  lemma SplitInvariance(k: Kind, limit: Option<nat>, segments: seq<seq<byte>>)
    requires Sound(k)
    ensures var parts := DriveSegments(k, limit, [], segments);
            var whole := DriveAll(k, limit, Flatten(segments));
            && parts.end == whole.end
            && (parts.end.NeedMore? ==> parts.kind == whole.kind)
            && (parts.end != Error(BodyTooLarge) ==> parts.body == whole.body && parts.rest == whole.rest)
            && (parts.end == Error(BodyTooLarge) ==>
                  var run := Run(k, limit, Flatten(segments));
                  && parts.body <= run.body && whole.body <= run.body
                  && run.consumed <= |Flatten(segments)| - |parts.rest| && run.consumed <= |Flatten(segments)| - |whole.rest|)
            && parts.iterations <= |Flatten(segments)| - |parts.rest| + parts.calls
  {
    hide Run, DriveAll, DriveSegments, Flatten, Agrees;
    var s := Flatten(segments);
    assert [] + s == s;
    SegmentsExplained(k, limit, [], segments);
    DriveExplained(k, limit, s);
    SegmentsRest(k, limit, [], segments);
    AgreeAlike(DriveSegments(k, limit, [], segments), DriveAll(k, limit, s), Run(k, limit, s), s);
  }

  lemma AgreeAlike(a: Drive, b: Drive, run: RunResult, s: seq<byte>)
    requires |a.rest| <= |s| && |b.rest| <= |s|
    requires a.rest == s[|s| - |a.rest|..] && b.rest == s[|s| - |b.rest|..]
    requires Agrees(a, run, |s|) && Agrees(b, run, |s|)
    ensures a.end == b.end && (a.end.NeedMore? ==> a.kind == b.kind)
    ensures a.end != Error(BodyTooLarge) ==> a.body == b.body && a.rest == b.rest
    ensures a.end == Error(BodyTooLarge) ==>
              && a.body <= run.body && b.body <= run.body
              && run.consumed <= |s| - |a.rest| && run.consumed <= |s| - |b.rest|
  {
  }

  lemma {:induction false} SegmentsRest(k: Kind, limit: Option<nat>, kept: seq<byte>, segments: seq<seq<byte>>)
    requires Sound(k)
    ensures var r := DriveSegments(k, limit, kept, segments);
            var s := kept + Flatten(segments);
            |r.rest| <= |s| && r.rest == s[|s| - |r.rest|..]
    decreases |segments|
  {
    hide DriveAll, Flatten, DriveSegments;
    var first := DriveAll(k, limit, kept);
    SegmentsUnfold(k, limit, kept, segments);
    if first.end.NeedMore? && segments != [] {
      var next := first.rest + segments[0];
      var tail := segments[1..];
      SegmentsRest(first.kind, limit, next, tail);
      SuffixOfBoth(kept, first.rest, segments[0], Flatten(segments[1..]), DriveSegments(k, limit, kept, segments).rest);
    }
  }

  lemma SegmentsUnfold(k: Kind, limit: Option<nat>, kept: seq<byte>, segments: seq<seq<byte>>)
    requires Sound(k)
    ensures var first := DriveAll(k, limit, kept);
            if first.end.NeedMore? && segments != [] then
              && Flatten(segments) == segments[0] + Flatten(segments[1..])
              && DriveSegments(k, limit, kept, segments).rest ==
                 DriveSegments(first.kind, limit, first.rest + segments[0], segments[1..]).rest
              && DriveSegments(k, limit, kept, segments).end ==
                 DriveSegments(first.kind, limit, first.rest + segments[0], segments[1..]).end
            else
              DriveSegments(k, limit, kept, segments).rest == first.rest + Flatten(segments)
              && DriveSegments(k, limit, kept, segments).end == first.end
  {
    hide DriveAll;
  }

  /** A suffix of a suffix, with more behind both. */
  lemma SuffixOfBoth(kept: seq<byte>, rest: seq<byte>, next: seq<byte>, more: seq<byte>, r: seq<byte>)
    requires |rest| <= |kept| && rest == kept[|kept| - |rest|..]
    requires var s := rest + next + more; |r| <= |s| && r == s[|s| - |r|..]
    ensures var s := kept + (next + more); |r| <= |s| && r == s[|s| - |r|..]
  {
    var s, t := rest + next + more, kept + (next + more);
    assert t[|kept| - |rest|..] == s;
    assert t[|t| - |r|..] == t[|kept| - |rest|..][|s| - |r|..];
  }

  /** The one-shot decoder is the special case of one segment: it reports exactly what `Run` does. */
  lemma OneShotExact(buf: seq<byte>, limit: Option<nat>)
    ensures var run := Run(START, limit, buf);
            DecodeOneShot(buf, limit) ==
              if run.verdict.Done? then Complete(run.body, run.consumed)
              else if run.verdict.More? then Incomplete
              else Failed(run.verdict.error)
  {
    DriveExplained(START, limit, buf);
  }

  /**
   Under `BodyTooLarge` the bytes used do depend on the split: a chunk of five bytes against a
   limit of two fails after eight bytes in one segment, and after six when fed byte by byte.
   */
  lemma TooLargeDependsOnSplit()
    ensures var s: seq<byte> := [53, CR, LF, 104, 101, 108, 108, 111];
            && DriveAll(START, Some(2), s).end == DriveSegments(START, Some(2), [], [s[..6], s[6..]]).end == Error(BodyTooLarge)
            && DriveAll(START, Some(2), s).rest == []
            && DriveSegments(START, Some(2), [], [s[..6], s[6..]]).rest == s[6..]
  {
    var s: seq<byte> := [53, CR, LF, 104, 101, 108, 108, 111];
    SizeFive(s);
    assert s[..6][..3] == s[..3];
    SizeFive(s[..6]);
    CutDrive(START, Some(2), s[..6], s[6..]);
  }

  /** A decoder that failed in the first segment leaves the second one unread. */
  lemma CutDrive(k: Kind, limit: Option<nat>, a: seq<byte>, b: seq<byte>)
    requires Sound(k) && k.Chunked? && k.state != End
    requires Decode(k, limit, a).item.Error?
    ensures var r := DriveSegments(k, limit, [], [a, b]);
            var d := Decode(k, limit, a);
            r.end == d.item && r.rest == d.rest + b
  {
    hide Decode, DriveAll, DriveSegments, Flatten, Iterations;
    var segments := [a, b];
    var empty: seq<byte> := [];
    EmptyDrive(k, limit);
    FailedDrive(k, limit, a);
    assert segments[1..] == [b] && empty + a == a;
    SegmentsUnfold(k, limit, empty, segments);
    SegmentsUnfold(k, limit, a, [b]);
    OnePart(b);
  }

  lemma OnePart(b: seq<byte>)
    ensures Flatten([b]) == b
  {
    assert Flatten([b]) == b + Flatten<byte>([]);
  }

  lemma EmptyDrive(k: Kind, limit: Option<nat>)
    requires Sound(k) && k.Chunked? && k.state != End
    ensures DriveAll(k, limit, []) == Drive(NeedMore, [], k, [], 1, 1)
  {
  }

  lemma FailedDrive(k: Kind, limit: Option<nat>, a: seq<byte>)
    requires Sound(k) && Decode(k, limit, a).item.Error?
    ensures DriveAll(k, limit, a).end == Decode(k, limit, a).item && DriveAll(k, limit, a).rest == Decode(k, limit, a).rest
  {
    hide Decode, Iterations;
  }

  /** After the size line `5 CR LF` the decoder sits in the chunk body with five bytes to go. */
  lemma SizeFive(s: seq<byte>)
    requires 5 < |s| <= 8 && s[..3] == [53, CR, LF]
    ensures Decode(START, Some(2), s) == Decoded(Error(BodyTooLarge),
      Chunked(if |s| < 8 then Body else BodyCr, 8 - |s|, |s| - 3), [])
  {
    assert s[0] == s[..3][0] && s[1] == s[..3][1] && s[2] == s[..3][2];
    var s1, s2, s3 := s[1..], s[2..], s[3..];
    assert s1[1..] == s2 && s2[1..] == s3;
    LineStep(START, s, Chunked(Size, 5, 0));
    LineStep(Chunked(Size, 5, 0), s1, Chunked(SizeLf, 5, 0));
    LineStep(Chunked(SizeLf, 5, 0), s2, Chunked(Body, 5, 0));
    hide Decode;
    BodyFive(Chunked(Body, 5, 0), s3, Some(2));
  }

  lemma LineStep(k: Kind, s: seq<byte>, next: Kind)
    requires k.Chunked? && next.Chunked? && |s| > 1 && next.total == k.total && Sound(next)
    requires || (k.state == SizeStart && s[0] == 53 && next.state == Size && next.size == 5)
             || (k.state == Size && s[0] == CR && next.state == SizeLf && next.size == k.size)
             || (k.state == SizeLf && s[0] == LF && next.state == Body && next.size == k.size)
    ensures Decode(k, Some(2), s) == Decode(next, Some(2), s[1..])
  {
    hide Decode;
    FramingByte(k, s, next);
  }

  /** The body bytes of a chunk that is over the limit. */
  lemma BodyFive(k: Kind, s: seq<byte>, limit: Option<nat>)
    requires k.Chunked? && k.state == Body && 0 < |s| <= k.size && !Within(limit, k.total + |s|)
    ensures Decode(k, limit, s) ==
            Decoded(Error(BodyTooLarge), Chunked(if |s| < k.size then Body else BodyCr, k.size - |s|, k.total + |s|), [])
  {
    var n := |s|;
    assert s[..n] == s && s[n..] == [];
    assert Step(k, s) == Ready(Chunked(if n < k.size then Body else BodyCr, k.size - n, k.total), [], Some(s));
    hide Step;
  }

  lemma FramingByte(k: Kind, s: seq<byte>, next: Kind)
    requires Sound(k) && Sound(next) && k.Chunked? && |s| > 1
    requires Step(k, s) == Ready(next, s[1..], None) && next.Chunked? && next.state != End
    ensures Decode(k, Some(2), s) == Decode(next, Some(2), s[1..])
  {
    hide Step;
  }

  /** The running total never exceeds the bytes read, so it cannot overflow before 2^64 bytes have arrived. */
  lemma {:induction false} TotalBoundedByInput(k: Kind, limit: Option<nat>, s: seq<byte>)
    requires Sound(k) && k.Chunked? && k.size < 0x1_0000_0000_0000_0000
    ensures var r := Run(k, limit, s);
            r.verdict.More? ==>
              && r.verdict.kind.Chunked?
              && r.verdict.kind.total == k.total + |r.body| <= k.total + r.consumed
              && r.verdict.kind.size < 0x1_0000_0000_0000_0000
    decreases |s|
  {
    if !AtEof(k) && s != [] {
      match ReadByte(k, limit, s[0])
      case Fail(_, _) =>
      case Next(next, _) => TotalBoundedByInput(next, limit, s[1..]);
    }
  }
}
