/** Encoding of masked client frames (section 5.2 of RFC 6455) and its round trip through the auditor. */
module WireFrames {
  import opened Wire
  import opened WireTheorems

  /** A frame to be sent; `width` is the number of extended length bytes, not necessarily the fewest. */
  datatype Plain = Plain(opcode: byte, mask: seq<byte>, width: nat, body: seq<byte>)

  ghost predicate Sendable(f: Plain) {
    && f.opcode in [1, 8, 9, 10]
    && |f.mask| == 4
    && (f.width == 0 || f.width == 2 || f.width == 8)
    && (f.width == 0 ==> |f.body| <= 125)
    && |f.body| <= 60000 && (f.opcode >= 8 ==> |f.body| <= 125)
  }

  function ToBytes(n: nat, width: nat): (r: seq<byte>)
    ensures |r| == width
  {
    if width == 0 then [] else ToBytes(n / 256, width - 1) + [(n % 256) as byte]
  }

  function Pow256(width: nat): nat {
    if width == 0 then 1 else 256 * Pow256(width - 1)
  }

  function SizeBytes(length: nat, width: nat): seq<byte>
    requires width == 0 ==> length <= 125
  {
    if width == 0 then [0x80 | length as byte]
    else if width == 2 then [0xFE] + ToBytes(length, 2)
    else [0xFF] + ToBytes(length, 8)
  }

  /** Masking as a sender does it (section 5.3 of RFC 6455): octet by octet, the mask turning by one each time. */
  function Cloaked(mask: seq<byte>, body: seq<byte>): seq<byte>
    requires |mask| == 4
    decreases |body|
  {
    if body == [] then [] else [body[0] ^ mask[0]] + Cloaked(mask[1..] + [mask[0]], body[1..])
  }

  function Encode(f: Plain): seq<byte>
    requires f.width == 0 ==> |f.body| <= 125
    requires |f.mask| == 4
  {
    [0x80 | f.opcode] + SizeBytes(|f.body|, f.width) + f.mask + Cloaked(f.mask, f.body)
  }

  // ---- Bytes ----

  lemma FirstByte(opcode: byte)
    requires opcode in [1, 8, 9, 10]
    ensures (0x80 | opcode) & 0x70 == 0 && (0x80 | opcode) & 0x80 != 0 && (0x80 | opcode) & 15 == opcode
  {
  }

  lemma FirstByteInverse(first: byte)
    requires first & 0x70 == 0 && first & 0x80 != 0
    ensures 0x80 | (first & 15) == first
  {
  }

  lemma SecondByteInverse(second: byte)
    requires second & 0x80 != 0
    ensures 0x80 | (second & 127) == second
  {
  }

  lemma LowBits(b: byte)
    requires b <= 125
    ensures (0x80 | b) & 127 == b && (0x80 | b) & 0x80 != 0 && b != 126 && b != 127
  {
  }

  lemma LongMarkers()
    ensures 0xFE as byte & 127 == 126 && 0xFE as byte & 0x80 != 0
    ensures 0xFF as byte & 127 == 127 && 0xFF as byte & 0x80 != 0
  {
  }

  lemma {:induction false} ByteOfInt(k: nat)
    requires k < 256
    ensures (k as byte) as int == k
  {
    if k > 0 {
      ByteOfInt(k - 1);
      var before := (k - 1) as byte;
      assert (before + 1) as int == k;
    }
  }

  lemma ByteOrder(b: byte)
    ensures b <= 125 <==> b as int <= 125
  {
  }

  lemma LengthByte(length: nat)
    requires length <= 125
    ensures length as byte <= 125 && (length as byte) as int == length
  {
    ByteOfInt(length);
    ByteOrder(length as byte);
  }

  lemma XorTwice(a: byte, b: byte)
    ensures (a ^ b) ^ b == a
  {
  }

  /** The turning mask and the auditor's indexed one are the same. */
  lemma {:induction false} CloakedIsMasked(mask: seq<byte>, body: seq<byte>)
    requires |mask| == 4
    ensures Cloaked(mask, body) == Masked(mask, body)
    decreases |body|
  {
    if body != [] {
      var turned := mask[1..] + [mask[0]];
      CloakedIsMasked(turned, body[1..]);
      forall i | 0 < i < |body| ensures turned[(i - 1) % 4] == mask[i % 4] {
        Turn(i);
      }
      forall i | 0 <= i < |body| ensures Cloaked(mask, body)[i] == Masked(mask, body)[i] {
        if i > 0 {
          assert Cloaked(mask, body)[i] == Masked(turned, body[1..])[i - 1];
        }
      }
    }
  }

  lemma Turn(i: nat)
    requires i > 0
    ensures i % 4 == if (i - 1) % 4 == 3 then 0 else (i - 1) % 4 + 1
  {
  }

  /** The auditor's unmasking undoes a sender's masking. */
  lemma Uncloaked(mask: seq<byte>, body: seq<byte>)
    requires |mask| == 4
    ensures Masked(mask, Cloaked(mask, body)) == body
  {
    CloakedIsMasked(mask, body);
    forall i | 0 <= i < |body| ensures Masked(mask, Cloaked(mask, body))[i] == body[i] {
      XorTwice(body[i], mask[i % 4]);
    }
  }

  /** And a sender's masking of what was read gives the bytes on the wire. */
  lemma Recloaked(mask: seq<byte>, wire: seq<byte>)
    requires |mask| == 4
    ensures Cloaked(mask, Masked(mask, wire)) == wire
  {
    CloakedIsMasked(mask, Masked(mask, wire));
    forall i | 0 <= i < |wire| ensures Masked(mask, Masked(mask, wire))[i] == wire[i] {
      XorTwice(wire[i], mask[i % 4]);
    }
  }

  /** The masked "Hello" of section 5.7 of RFC 6455. */
  lemma MaskedHello()
    ensures Masked([0x37, 0xfa, 0x21, 0x3d], [0x7f, 0x9f, 0x4d, 0x51, 0x58]) == [0x48, 0x65, 0x6c, 0x6c, 0x6f]
  {
  }

  lemma {:induction false} BytesRoundTrip(n: nat, width: nat)
    requires n < Pow256(width)
    ensures BigEndian(ToBytes(n, width)) == n
  {
    if width > 0 {
      BytesRoundTrip(n / 256, width - 1);
      ByteOfInt(n % 256);
      BigEndianStep(ToBytes(n / 256, width - 1), (n % 256) as byte);
    }
  }

  lemma {:induction false} BytesInverse(s: seq<byte>)
    ensures ToBytes(BigEndian(s), |s|) == s
  {
    if s != [] {
      BytesInverse(s[..|s| - 1]);
      var high, low := BigEndian(s[..|s| - 1]), s[|s| - 1];
      assert (high * 256 + low as int) / 256 == high;
      assert (high * 256 + low as int) % 256 == low as int;
    }
  }

  lemma Pow256Values()
    ensures Pow256(2) == 65536 && Pow256(8) > 65536
  {
    assert Pow256(2) == 65536;
    assert Pow256(5) == 0x100_0000_0000;
  }

  // ---- One frame ----

  lemma EncodedShape(f: Plain, rest: seq<byte>)
    requires Sendable(f)
    ensures var b, header := Encode(f) + rest, 2 + f.width;
            && |Encode(f)| == header + 4 + |f.body|
            && b[0] == 0x80 | f.opcode
            && b[1..header] == SizeBytes(|f.body|, f.width)
            && b[header..header + 4] == f.mask
            && b[header + 4..header + 4 + |f.body|] == Cloaked(f.mask, f.body)
            && b[header + 4 + |f.body|..] == rest
  {
    hide ToBytes, Cloaked;
    CloakedIsMasked(f.mask, f.body);
    var size := SizeBytes(|f.body|, f.width);
    assert |size| == 1 + f.width;
    Pieces(0x80 | f.opcode, size, f.mask, Cloaked(f.mask, f.body), rest);
  }

  lemma Pieces(first: byte, size: seq<byte>, mask: seq<byte>, body: seq<byte>, rest: seq<byte>)
    ensures var b, i, j := [first] + size + mask + body + rest, 1 + |size|, 1 + |size| + |mask|;
            && b[0] == first && b[1..i] == size && b[i..j] == mask && b[j..j + |body|] == body && b[j + |body|..] == rest
  {
  }

  lemma EncodedLength(f: Plain, b: seq<byte>)
    requires Sendable(f) && |b| >= 2 + f.width
    requires b[1..2 + f.width] == SizeBytes(|f.body|, f.width)
    ensures b[1] & 0x80 != 0 && Width(b[1]) == f.width && BodyLength(b) == |f.body|
  {
    var size := SizeBytes(|f.body|, f.width);
    assert b[1] == b[1..2 + f.width][0] == size[0];
    if f.width == 0 {
      LengthByte(|f.body|);
      LowBits(|f.body| as byte);
      assert b[1] & 127 == |f.body| as byte;
    } else {
      LongMarkers();
      assert b[1] == if f.width == 2 then 0xFE else 0xFF;
      Pow256Values();
      BytesRoundTrip(|f.body|, f.width);
      assert b[2..2 + f.width] == b[1..2 + f.width][1..] == size[1..] == ToBytes(|f.body|, f.width);
    }
  }

  /** The auditor reads back an encoded frame, whatever follows it. */
  lemma FrameRoundTrip(f: Plain, rest: seq<byte>)
    requires Sendable(f)
    ensures FirstFrame(Encode(f) + rest) == Frame(f.opcode, |Encode(f)|, f.body)
    ensures (Encode(f) + rest)[|Encode(f)|..] == rest
  {
    var b := Encode(f) + rest;
    EncodedShape(f, rest);
    FirstByte(f.opcode);
    EncodedLength(f, b);
    Uncloaked(f.mask, f.body);
  }

  /** The frame the auditor read, as it was sent. */
  function Read(b: seq<byte>): Plain
    requires FirstFrame(b).Frame?
  {
    var header := 2 + Width(b[1]);
    Plain(b[0] & 15, b[header..header + 4], Width(b[1]), FirstFrame(b).body)
  }

  lemma SizeReadBack(b: seq<byte>)
    requires 2 <= |b| && 2 + Width(b[1]) <= |b| && b[1] & 0x80 != 0
    requires Width(b[1]) == 0 ==> BodyLength(b) <= 125
    ensures b[1..2 + Width(b[1])] == SizeBytes(BodyLength(b), Width(b[1]))
  {
    var header := 2 + Width(b[1]);
    SecondByteInverse(b[1]);
    if header == 2 {
      ShortLength(b[1]);
    } else {
      BytesInverse(b[2..header]);
      assert b[1..header] == [b[1]] + b[2..header];
    }
  }

  lemma Cut(b: seq<byte>, i: nat, j: nat, k: nat)
    requires 1 <= i <= j <= k <= |b|
    ensures b == [b[0]] + b[1..i] + b[i..j] + b[j..k] + b[k..]
  {
  }

  lemma ReadSendable(b: seq<byte>)
    requires FirstFrame(b).Frame?
    ensures Sendable(Read(b))
    ensures Read(b).opcode == FirstFrame(b).opcode && Read(b).body == FirstFrame(b).body
  {
    if Width(b[1]) == 0 {
      ShortLength(b[1]);
    }
  }

  /** The parts of a frame that was read, as its sender made them. */
  lemma ReadParts(b: seq<byte>)
    requires FirstFrame(b).Frame?
    ensures var f, header, end := Read(b), 2 + Width(b[1]), FirstFrame(b).end;
            && header + 4 <= end <= |b| && |f.mask| == 4
            && 0x80 | f.opcode == b[0] && f.mask == b[header..header + 4] && f.width == Width(b[1])
            && |f.body| == BodyLength(b) && Cloaked(f.mask, f.body) == b[header + 4..end]
  {
    hide ToBytes, SizeBytes, BodyLength;
    var header, end := 2 + Width(b[1]), FirstFrame(b).end;
    FirstByteInverse(b[0]);
    Recloaked(b[header..header + 4], b[header + 4..end]);
  }

  /** Conversely the auditor accepts nothing but encodings: what it consumes is the encoding of what it read. */
  lemma FrameReadBack(b: seq<byte>)
    requires FirstFrame(b).Frame?
    ensures Sendable(Read(b)) && b == Encode(Read(b)) + b[FirstFrame(b).end..]
    ensures Read(b).opcode == FirstFrame(b).opcode && Read(b).body == FirstFrame(b).body
  {
    ReadSendable(b);
    ReadParts(b);
    var header, end := 2 + Width(b[1]), FirstFrame(b).end;
    assert b[1..header] == SizeBytes(BodyLength(b), Width(b[1])) by {
      SecondMasked(b);
      SizeReadBack(b);
    }
    Cut(b, header, header + 4, end);
    hide FirstFrame, Read, Sendable, Cloaked, SizeBytes, BodyLength, Width;
  }

  lemma SecondMasked(b: seq<byte>)
    requires FirstFrame(b).Frame?
    ensures 2 <= |b| && 2 + Width(b[1]) <= |b| && b[1] & 0x80 != 0 && (Width(b[1]) == 0 ==> BodyLength(b) <= 125)
  {
    if Width(b[1]) == 0 {
      ShortLength(b[1]);
    }
  }

  lemma ShortLength(second: byte)
    requires second & 127 != 126 && second & 127 != 127
    ensures (second & 127) as int <= 125 && ((second & 127) as int) as byte == second & 127
  {
    assert second & 127 <= 125;
  }

  // ---- Whole streams ----

  function EncodeAll(frames: seq<Plain>): seq<byte>
    requires forall f :: f in frames ==> |f.mask| == 4 && (f.width == 0 ==> |f.body| <= 125)
  {
    if frames == [] then [] else Encode(frames[0]) + EncodeAll(frames[1..])
  }

  /** A frame that counts: a text whose body is a JSON-RPC request for `send`. */
  function Counted(reader: Reader, f: Plain): nat {
    if f.opcode == 1 && reader(f.body) == SendRequest then 1 else 0
  }

  function CountSends(reader: Reader, frames: seq<Plain>): nat {
    if frames == [] then 0 else Counted(reader, frames[0]) + CountSends(reader, frames[1..])
  }

  /** Texts hold JSON objects; other frames may hold anything. */
  predicate Acceptable(reader: Reader, f: Plain) {
    f.opcode == 1 ==> reader(f.body) == SendRequest || reader(f.body) == OtherRequest
  }

  lemma BodyMeaning(reader: Reader, f: Plain)
    ensures Sends(reader, f.opcode, f.body) == Counted(reader, f)
    ensures BodyRaises(reader, f.opcode, f.body) <==> !Acceptable(reader, f)
  {
  }

  ghost predicate Clean(reader: Reader, frames: seq<Plain>) {
    forall f :: f in frames ==> Sendable(f) && Acceptable(reader, f)
  }

  lemma NoFrame() returns (scan: Scan)
    ensures scan == FirstFrame([]) && scan.Wait?
  {
    scan := Wait;
  }

  lemma {:induction false} FramesRoundTrip(reader: Reader, frames: seq<Plain>, sends: nat)
    requires Clean(reader, frames)
    ensures Frames(reader, EncodeAll(frames), sends)
         == Kept(Progress(true, [], sends + CountSends(reader, frames)))
    decreases |frames|
  {
    hide FirstFrame, Encode, Frames, BodyRaises, Sends, Counted, Acceptable;
    if frames == [] {
      var scan := NoFrame();
      FramesStep(reader, [], sends, scan);
    } else {
      assert forall f :: f in frames[1..] ==> f in frames;
      var f, rest := frames[0], EncodeAll(frames[1..]);
      assert f in frames;
      FrameRoundTrip(f, rest);
      FramesStep(reader, Encode(f) + rest, sends, FirstFrame(Encode(f) + rest));
      BodyMeaning(reader, f);
      FramesRoundTrip(reader, frames[1..], sends + Counted(reader, f));
    }
  }

  ghost predicate UpgradeRequest(header: seq<byte>) {
    GET <= header && |header| >= 4 && FindBlankLine(header, 0) == |header| - 4
  }

  /**
   * The framing round trip: an upgrade request and any sequence of clean frames, cut into chunks in any way
   * that does not trip the guard, leave an empty buffer and count exactly the send bodies.
   */
  lemma StreamRoundTrip(reader: Reader, header: seq<byte>, frames: seq<Plain>, chunks: seq<seq<byte>>)
    requires UpgradeRequest(header) && Clean(reader, frames)
    requires Concat(chunks) == header + EncodeAll(frames) && !GuardFires(reader, chunks)
    ensures FeedAll(reader, chunks) == Kept(Progress(true, [], CountSends(reader, frames)))
  {
    hide Frames, FirstFrame, Encode, GuardFires, CountSends;
    var stream := header + EncodeAll(frames);
    ChunkingDoesNotMatter(reader, chunks);
    BlankLineExtends(header, EncodeAll(frames));
    assert stream[|header|..] == EncodeAll(frames);
    assert GET <= stream;
    FramesRoundTrip(reader, frames, 0);
    assert [] + stream == stream;
  }

  /** `frames` explains what the auditor consumed of `b` and counted. */
  ghost predicate Explains(reader: Reader, frames: seq<Plain>, b: seq<byte>, left: seq<byte>, count: int) {
    Clean(reader, frames) && b == EncodeAll(frames) + left && count == CountSends(reader, frames)
  }

  /** Everything the auditor accepts is such a stream: what it consumed encodes the frames it counted. */
  lemma {:induction false} AcceptedIsEncoded(reader: Reader, b: seq<byte>, sends: nat) returns (frames: seq<Plain>)
    requires Frames(reader, b, sends).Kept?
    ensures var p := Frames(reader, b, sends).progress;
            Explains(reader, frames, b, p.buffer, p.sends - sends)
    decreases |b|
  {
    var done, f, rest := Peel(reader, b, sends);
    if done {
      frames := [];
      ExplainNothing(reader, b);
    } else {
      var p := Frames(reader, b, sends).progress;
      var tail := AcceptedIsEncoded(reader, rest, sends + Counted(reader, f));
      frames := [f] + tail;
      ExplainMore(reader, f, tail, b, rest, p.buffer, p.sends - sends - Counted(reader, f));
    }
  }

  /** The first frame of an accepted stream, or the news that there is none. */
  lemma Peel(reader: Reader, b: seq<byte>, sends: nat) returns (done: bool, f: Plain, rest: seq<byte>)
    requires Frames(reader, b, sends).Kept?
    ensures done ==> Frames(reader, b, sends) == Kept(Progress(true, b, sends))
    ensures !done ==>
      && |rest| < |b|
      && Sendable(f) && Acceptable(reader, f) && b == Encode(f) + rest
      && Frames(reader, b, sends) == Frames(reader, rest, sends + Counted(reader, f))
  {
    hide FirstFrame, Encode, Frames, BodyRaises, Sends, Counted, Acceptable;
    var scan := FirstFrame(b);
    FramesStep(reader, b, sends, scan);
    if scan.Wait? {
      done, f, rest := true, Plain(1, [], 0, []), b;
    } else {
      FrameReadBack(b);
      done, f, rest := false, Read(b), b[scan.end..];
      BodyMeaning(reader, f);
    }
  }

  lemma ExplainNothing(reader: Reader, b: seq<byte>)
    ensures Explains(reader, [], b, b, 0)
  {
    assert b == [] + b;
  }

  lemma ExplainMore(reader: Reader, f: Plain, tail: seq<Plain>, b: seq<byte>, rest: seq<byte>, left: seq<byte>, count: int)
    requires Sendable(f) && Acceptable(reader, f)
    requires Explains(reader, tail, rest, left, count)
    requires b == Encode(f) + rest
    ensures Explains(reader, [f] + tail, b, left, count + Counted(reader, f))
  {
    PrependFrame(reader, f, tail);
    assert b == Encode(f) + EncodeAll(tail) + left;
  }

  lemma PrependFrame(reader: Reader, f: Plain, tail: seq<Plain>)
    requires Sendable(f) && Acceptable(reader, f) && Clean(reader, tail)
    ensures Clean(reader, [f] + tail)
    ensures EncodeAll([f] + tail) == Encode(f) + EncodeAll(tail)
    ensures CountSends(reader, [f] + tail) == Counted(reader, f) + CountSends(reader, tail)
  {
    assert ([f] + tail)[1..] == tail;
  }

  /** What a whole accepted stream is: an upgrade request, frames, and what is still incomplete. */
  ghost predicate Audited(reader: Reader, stream: seq<byte>, header: seq<byte>, frames: seq<Plain>, p: Progress) {
    UpgradeRequest(header) && Clean(reader, frames) && stream == header + EncodeAll(frames) + p.buffer
    && p.sends == CountSends(reader, frames)
  }

  lemma UpgradedParse(reader: Reader, stream: seq<byte>)
    requires Parse(reader, stream).Kept? && Parse(reader, stream).progress.upgraded
    ensures var end := FindBlankLine(stream, 0);
            0 <= end && GET <= stream && end + 4 <= |stream| && Parse(reader, stream) == Frames(reader, stream[end + 4..], 0)
  {
    hide Frames, FindBlankLine, FirstFrame, Encode, Masked;
    var empty := Progress(false, [], 0);
    assert empty.buffer + stream == stream;
    assert Parse(reader, stream) == Absorb(reader, empty, stream);
  }

  lemma ParsedIsEncoded(reader: Reader, stream: seq<byte>) returns (header: seq<byte>, frames: seq<Plain>)
    requires Parse(reader, stream).Kept? && Parse(reader, stream).progress.upgraded
    ensures Audited(reader, stream, header, frames, Parse(reader, stream).progress)
  {
    hide Parse, Frames, UpgradeRequest, CountSends, EncodeAll;
    UpgradedParse(reader, stream);
    var end: nat := FindBlankLine(stream, 0);
    header := stream[..end + 4];
    HeaderEnds(stream, end);
    frames := AcceptedIsEncoded(reader, stream[end + 4..], 0);
    assert stream == header + stream[end + 4..];
  }

  /** Every upgraded stream that does not raise, in whatever chunks, is a request and an encoding of the frames counted. */
  lemma AcceptedStreamIsEncoded(reader: Reader, chunks: seq<seq<byte>>) returns (header: seq<byte>, frames: seq<Plain>)
    requires FeedAll(reader, chunks).Kept? && FeedAll(reader, chunks).progress.upgraded
    ensures Audited(reader, Concat(chunks), header, frames, FeedAll(reader, chunks).progress)
  {
    hide Parse, Audited, FeedAll, GuardFires, Concat;
    RaisesIff(reader, chunks);
    ChunkingDoesNotMatter(reader, chunks);
    header, frames := ParsedIsEncoded(reader, Concat(chunks));
  }

  lemma HeaderEnds(stream: seq<byte>, end: nat)
    requires FindBlankLine(stream, 0) == end && GET <= stream
    ensures end + 4 <= |stream| && UpgradeRequest(stream[..end + 4])
  {
    var header := stream[..end + 4];
    assert forall k: nat :: BlankLineAt(header, k) ==> BlankLineAt(stream, k);
    BlankLineFirst(header, end);
    GetFirst(stream, end);
  }

  /** A blank line does not begin inside the word GET. */
  lemma GetFirst(stream: seq<byte>, end: nat)
    requires BlankLineAt(stream, end) && GET <= stream
    ensures end >= 4 && GET <= stream[..end + 4]
  {
    assert stream[..4] == GET;
    assert stream[0] == GET[0] && stream[1] == GET[1] && stream[2] == GET[2] && stream[3] == GET[3];
  }

  // ---- Length encodings ----

  /** The shortest of the three widths (section 5.2 of RFC 6455). */
  function ShortestWidth(length: nat): nat {
    if length <= 125 then 0 else if length < 65536 then 2 else 8
  }

  /** Header bytes that spend more bytes on the length than it needs. */
  predicate Overlong(b: seq<byte>) {
    |b| >= 4 && (b[1] & 127 == 127 || (b[1] & 127 == 126 && b[2] == 0 && b[3] < 126))
  }

  lemma TwoBytes(s: seq<byte>)
    requires |s| == 2
    ensures BigEndian(s) == s[0] as int * 256 + s[1] as int
    ensures BigEndian(s) <= 125 <==> s[0] == 0 && s[1] < 126
  {
    assert s[..1][..0] == [] && s[..1][0] == s[0];
    assert BigEndian(s[..1]) == s[0] as int;
    ByteOrder(s[1]);
    assert s[1] <= 125 <==> s[1] < 126;
    assert s[0] == 0 <==> s[0] as int == 0;
  }

  /** The auditor goes beyond the standard exactly on the overlong frames: it reads them like any other. */
  lemma BeyondStandardIff(b: seq<byte>)
    requires FirstFrame(b).Frame?
    ensures Read(b).width == ShortestWidth(|Read(b).body|) <==> !Overlong(b)
  {
    if Width(b[1]) == 2 {
      TwoBytes(b[2..4]);
    } else if Width(b[1]) == 0 {
      ShortLength(b[1]);
    }
  }

  /** For every short body there is such a frame, and it is accepted. */
  lemma OverlongAccepted(mask: seq<byte>, body: seq<byte>, rest: seq<byte>)
    requires |mask| == 4 && |body| <= 125
    ensures var f := Plain(1, mask, 2, body);
            FirstFrame(Encode(f) + rest) == Frame(1, |Encode(f)|, body) && Overlong(Encode(f) + rest)
  {
    var f := Plain(1, mask, 2, body);
    FrameRoundTrip(f, rest);
    BeyondStandardIff(Encode(f) + rest);
    EncodedShape(f, rest);
    EncodedLength(f, Encode(f) + rest);
  }

  // ---- Raising and waiting ----

  /** `b` begins with an encoding of a sendable frame. */
  ghost predicate BeginsWithFrame(b: seq<byte>) {
    exists f, rest :: Sendable(f) && b == Encode(f) + rest
  }

  /** A frame is read exactly where an encoding begins. */
  lemma FrameIff(b: seq<byte>)
    ensures FirstFrame(b).Frame? <==> BeginsWithFrame(b)
  {
    if FirstFrame(b).Frame? {
      FrameReadBack(b);
    }
    if BeginsWithFrame(b) {
      var f, rest :| Sendable(f) && b == Encode(f) + rest;
      FrameRoundTrip(f, rest);
    }
  }

  /** The auditor refuses only bytes that no continuation makes a frame. */
  lemma BadNeverCompletes(b: seq<byte>, more: seq<byte>)
    requires FirstFrame(b).Bad?
    ensures !BeginsWithFrame(b + more)
  {
    FirstFrameExtends(b, more);
    FrameIff(b + more);
  }

  /** Once the length is there it waits only for bytes that can complete a frame. */
  lemma WaitCompletes(b: seq<byte>) returns (more: seq<byte>)
    requires FirstFrame(b).Wait? && |b| >= 2 && |b| >= 2 + Width(b[1])
    ensures BeginsWithFrame(b + more)
  {
    var header, length := 2 + Width(b[1]), BodyLength(b);
    more := seq(header + 4 + length - |b|, i => 0 as byte);
    var c := b + more;
    assert c[0] == b[0] && c[1] == b[1];
    SliceExtends(b, more, 2, header);
    assert BodyLength(c) == length;
    FrameIff(c);
  }
}
