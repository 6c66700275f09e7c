/** Why splitting the stream does not matter to the frame auditor, and what it counts on well-formed streams. */
module WireTheorems {
  import opened Wire

  // ---- Chunking ----

  lemma SliceExtends(b: seq<byte>, more: seq<byte>, i: nat, j: nat)
    requires i <= j <= |b|
    ensures (b + more)[i..j] == b[i..j]
  {
  }

  /** A frame that can be judged is judged the same whatever follows it. */
  lemma FirstFrameExtends(b: seq<byte>, more: seq<byte>)
    requires !FirstFrame(b).Wait?
    ensures FirstFrame(b + more) == FirstFrame(b)
  {
    var c := b + more;
    assert c[0] == b[0] && c[1] == b[1];
    if !BadFirstBytes(b[0], b[1]) {
      var header := 2 + Width(b[1]);
      SliceExtends(b, more, 2, header);
      assert BodyLength(c) == BodyLength(b);
      var length := BodyLength(b);
      if !TooLong(b[0] & 15, length) {
        SliceExtends(b, more, header, header + 4);
        SliceExtends(b, more, header + 4, header + 4 + length);
      }
    }
  }

  /** What `more` does after `v`: nothing once it raised. */
  function Then(reader: Reader, v: Verdict, more: seq<byte>): Verdict {
    if v.Raised? then v else Absorb(reader, v.progress, more)
  }

  lemma {:induction false} FramesSplit(reader: Reader, b: seq<byte>, more: seq<byte>, sends: nat)
    ensures Frames(reader, b + more, sends) == Then(reader, Frames(reader, b, sends), more)
    decreases |b|
  {
    var scan := FirstFrame(b);
    if !scan.Wait? {
      FirstFrameExtends(b, more);
      if scan.Frame? {
        FramesStep(reader, b, sends, scan);
        FramesStep(reader, b + more, sends, scan);
        assert (b + more)[scan.end..] == b[scan.end..] + more;
        if !BodyRaises(reader, scan.opcode, scan.body) {
          FramesSplit(reader, b[scan.end..], more, sends + Sends(reader, scan.opcode, scan.body));
        }
      }
    }
  }

  lemma BlankLineFirst(s: seq<byte>, at: nat)
    requires BlankLineAt(s, at) && forall k: nat :: k < at ==> !BlankLineAt(s, k)
    ensures FindBlankLine(s, 0) == at
  {
    var found := FindBlankLine(s, 0);
    assert BlankLineAt(s, at) && (found >= 0 ==> BlankLineAt(s, found));
  }

  lemma BlankLineExtends(s: seq<byte>, more: seq<byte>)
    requires FindBlankLine(s, 0) != -1
    ensures FindBlankLine(s + more, 0) == FindBlankLine(s, 0)
  {
    var at := FindBlankLine(s, 0);
    assert BlankLineAt(s + more, at);
    forall k: nat | k < at ensures !BlankLineAt(s + more, k) {
      assert BlankLineAt(s + more, k) ==> BlankLineAt(s, k);
    }
    BlankLineFirst(s + more, at);
  }

  /** Two pieces of input are one. */
  lemma AbsorbSplit(reader: Reader, p: Progress, a: seq<byte>, b: seq<byte>)
    ensures Absorb(reader, p, a + b) == Then(reader, Absorb(reader, p, a), b)
  {
    var s := p.buffer + a;
    assert p.buffer + (a + b) == s + b;
    if p.upgraded {
      FramesSplit(reader, s, b, p.sends);
    } else {
      var end := FindBlankLine(s, 0);
      if end != -1 {
        BlankLineExtends(s, b);
        assert GET <= s + b <==> GET <= s;
        if GET <= s {
          assert (s + b)[end + 4..] == s[end + 4..] + b;
          FramesSplit(reader, s[end + 4..], b, p.sends);
        }
      }
    }
  }

  /**
   * Chunking does not matter: a chunked run of the parser is the one-shot parse of the concatenation,
   * in upgraded flag, leftover, count and raise, exactly up to the size guard.
   */
  lemma {:induction false} ChunkingDoesNotMatter(reader: Reader, chunks: seq<seq<byte>>)
    requires !GuardFires(reader, chunks)
    ensures FeedAll(reader, chunks) == Parse(reader, Concat(chunks))
  {
    if chunks == [] {
    } else {
      var init, last := chunks[..|chunks| - 1], chunks[|chunks| - 1];
      ChunkingDoesNotMatter(reader, init);
      AbsorbSplit(reader, Progress(false, [], 0), Concat(init), last);
    }
  }

  /** The guard is the only other way to raise: a run raises iff the whole stream does or the guard fires. */
  lemma {:induction false} RaisesIff(reader: Reader, chunks: seq<seq<byte>>)
    ensures FeedAll(reader, chunks).Raised?
       <==> Parse(reader, Concat(chunks)).Raised? || GuardFires(reader, chunks)
  {
    if GuardFires(reader, chunks) {
      GuardMeansRaised(reader, chunks);
    } else {
      ChunkingDoesNotMatter(reader, chunks);
    }
  }

  lemma {:induction false} GuardMeansRaised(reader: Reader, chunks: seq<seq<byte>>)
    requires GuardFires(reader, chunks)
    ensures FeedAll(reader, chunks).Raised?
  {
    if GuardFires(reader, chunks[..|chunks| - 1]) {
      GuardMeansRaised(reader, chunks[..|chunks| - 1]);
    }
  }

  // ---- Leftover bound ----

  /** An upgraded parser never keeps more than one incomplete frame. */
  lemma LeftoverBound(reader: Reader, chunks: seq<seq<byte>>)
    requires FeedAll(reader, chunks).Kept? && FeedAll(reader, chunks).progress.upgraded
    ensures |FeedAll(reader, chunks).progress.buffer| <= MAX_LEFTOVER
  {
  }

  /** Once upgraded, chunks of up to 5523 bytes never reach the guard, for as long as the audit lasts. */
  lemma {:induction false} SmallChunksNeverGuarded(reader: Reader, chunks: seq<seq<byte>>, more: seq<seq<byte>>)
    requires !GuardFires(reader, chunks)
    requires FeedAll(reader, chunks).Kept? ==> FeedAll(reader, chunks).progress.upgraded
    requires forall c :: c in more ==> |c| <= 5523
    ensures !GuardFires(reader, chunks + more)
    ensures FeedAll(reader, chunks + more).Kept? ==> FeedAll(reader, chunks + more).progress.upgraded
    ensures FeedAll(reader, chunks + more) == Parse(reader, Concat(chunks + more))
  {
    if more == [] {
      assert chunks + more == chunks;
    } else {
      var init, last := more[..|more| - 1], more[|more| - 1];
      SmallChunksNeverGuarded(reader, chunks, init);
      assert (chunks + more)[..|chunks + more| - 1] == chunks + init;
      if FeedAll(reader, chunks + init).Kept? {
        LeftoverBound(reader, chunks + init);
      }
    }
    ChunkingDoesNotMatter(reader, chunks + more);
  }

  lemma BigEndianStep(s: seq<byte>, x: byte)
    ensures BigEndian(s + [x]) == BigEndian(s) * 256 + x as int
  {
    assert (s + [x])[..|s|] == s;
  }

  lemma Zeros(s: seq<byte>)
    requires forall i :: 0 <= i < |s| ==> s[i] == 0
    ensures BigEndian(s) == 0
  {
  }

  /** The bound is tight: 60013 bytes can be left, and then a chunk of 5524 bytes is refused. */
  lemma LeftoverBoundTight(reader: Reader, b: seq<byte>, chunk: seq<byte>)
    requires |b| == MAX_LEFTOVER && |chunk| == 5524
    requires b[..10] == [0x81, 0xFF, 0, 0, 0, 0, 0, 0, 0xEA, 0x60]
    ensures Frames(reader, b, 0) == Kept(Progress(true, b, 0))
    ensures FeedOnce(reader, Progress(true, b, 0), chunk).Raised?
  {
    assert b[0] == b[..10][0] == 0x81 && b[1] == b[..10][1] == 0xFF;
    var len := b[2..10];
    assert len == b[..10][2..] == [0, 0, 0, 0, 0, 0, 0xEA, 0x60];
    Zeros([0, 0, 0, 0, 0, 0]);
    BigEndianStep([0, 0, 0, 0, 0, 0], 0xEA);
    BigEndianStep([0, 0, 0, 0, 0, 0] + [0xEA], 0x60);
    assert len == [0, 0, 0, 0, 0, 0] + [0xEA] + [0x60];
    assert len[..7] == [0, 0, 0, 0, 0, 0] + [0xEA];
    assert BigEndian(len) == 60000;
    assert Width(b[1]) == 8;
    assert BodyLength(b) == 60000;
  }
}
