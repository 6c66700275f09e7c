/**
 * The incremental auditor of client WebSocket frames (tests/acceptance/wire.py): masked, unfragmented
 * frames of section 5.2 of RFC 6455, unmasked as in section 5.3, behind an HTTP Upgrade request.
 */
module Wire {

  type byte = bv8

  /** What `json.loads` and the method test make of a text body. */
  datatype Body = Unreadable | NotObject | SendRequest | OtherRequest

  type Reader = seq<byte> -> Body

  const GUARD: nat := 65536
  const MAX_BODY: nat := 60000
  const MAX_CONTROL: nat := 125
  /** The longest incomplete frame: 14 bytes of header and mask and a maximal body, less one byte. */
  const MAX_LEFTOVER: nat := 60013

  const GET: seq<byte> := [71, 69, 84, 32]

  /** What the parser keeps between two calls. */
  datatype Progress = Progress(upgraded: bool, buffer: seq<byte>, sends: nat)

  /** A raise is terminal; `Raised` remembers what was observable before it. */
  datatype Verdict = Raised(upgraded: bool, sends: nat) | Kept(progress: Progress)

  predicate BlankLineAt(s: seq<byte>, i: nat) {
    i + 4 <= |s| && s[i] == 13 && s[i + 1] == 10 && s[i + 2] == 13 && s[i + 3] == 10
  }

  /** `bytearray.find` for the blank line, from `i` on: its first position, or -1. */
  function FindBlankLine(s: seq<byte>, i: nat): (at: int)
    ensures at == -1 || (i <= at && BlankLineAt(s, at))
    ensures forall k: nat :: i <= k && (at == -1 || k < at) ==> !BlankLineAt(s, k)
    decreases |s| - i
  {
    if i + 4 > |s| then -1
    else if BlankLineAt(s, i) then i
    else FindBlankLine(s, i + 1)
  }

  /** `int.from_bytes(…, "big")`. */
  function BigEndian(s: seq<byte>): nat {
    if s == [] then 0 else BigEndian(s[..|s| - 1]) * 256 + s[|s| - 1] as int
  }

  function Masked(mask: seq<byte>, data: seq<byte>): (r: seq<byte>)
    requires |mask| == 4
    ensures |r| == |data|
  {
    seq(|data|, i requires 0 <= i < |data| => data[i] ^ mask[i % 4])
  }

  datatype Scan = Wait | Bad | Frame(opcode: byte, end: nat, body: seq<byte>)

  predicate BadFirstBytes(first: byte, second: byte) {
    first & 0x70 != 0 || first & 0x80 == 0 || second & 0x80 == 0 || (first & 15) !in [1, 8, 9, 10]
  }

  /** Number of extended length bytes announced by the second byte. */
  function Width(second: byte): nat {
    if second & 127 == 126 then 2 else if second & 127 == 127 then 8 else 0
  }

  function BodyLength(b: seq<byte>): nat
    requires 2 <= |b| && 2 + Width(b[1]) <= |b|
  {
    if Width(b[1]) == 0 then (b[1] & 127) as int else BigEndian(b[2..2 + Width(b[1])])
  }

  predicate TooLong(opcode: byte, length: nat) {
    length > MAX_BODY || (opcode >= 8 && length > MAX_CONTROL)
  }

  /** The first frame of a buffer, as the specification reads it. */
  function FirstFrame(b: seq<byte>): (s: Scan)
    ensures s.Frame? ==> 6 <= s.end <= |b|
    ensures s.Wait? ==> |b| <= MAX_LEFTOVER
  {
    if |b| < 2 then Wait
    else if BadFirstBytes(b[0], b[1]) then Bad
    else if |b| < 2 + Width(b[1]) then Wait
    else
      var opcode := b[0] & 15;
      var length := BodyLength(b);
      var header := 2 + Width(b[1]);
      if TooLong(opcode, length) then Bad
      else if |b| < header + 4 + length then Wait
      else Frame(opcode, header + 4 + length, Masked(b[header..header + 4], b[header + 4..header + 4 + length]))
  }

  /** Whether a complete frame ends the audit. */
  predicate BodyRaises(reader: Reader, opcode: byte, body: seq<byte>) {
    opcode == 1 && (reader(body).Unreadable? || reader(body).NotObject?)
  }

  function Sends(reader: Reader, opcode: byte, body: seq<byte>): nat {
    if opcode == 1 && reader(body).SendRequest? then 1 else 0
  }

  /** All frames of an upgraded stream. */
  function Frames(reader: Reader, b: seq<byte>, sends: nat): (v: Verdict)
    ensures if v.Raised? then v.upgraded else v.progress.upgraded && |v.progress.buffer| <= MAX_LEFTOVER
    decreases |b|
  {
    match FirstFrame(b)
    case Wait => Kept(Progress(true, b, sends))
    case Bad => Raised(true, sends)
    case Frame(opcode, end, body) =>
      if BodyRaises(reader, opcode, body) then Raised(true, sends)
      else Frames(reader, b[end..], sends + Sends(reader, opcode, body))
  }

  /** A whole stream, parsed at once. */
  function Parse(reader: Reader, stream: seq<byte>): Verdict {
    Absorb(reader, Progress(false, [], 0), stream)
  }

  /** More input for a parser that keeps `p`, without the size guard. */
  function Absorb(reader: Reader, p: Progress, data: seq<byte>): Verdict {
    var b := p.buffer + data;
    if p.upgraded then Frames(reader, b, p.sends)
    else
      var end := FindBlankLine(b, 0);
      if end < 0 then Kept(Progress(false, b, p.sends))
      else if !(GET <= b) then Raised(false, p.sends)
      else Frames(reader, b[end + 4..], p.sends)
  }

  predicate Guarded(p: Progress, data: seq<byte>) {
    |p.buffer| + |data| > GUARD
  }

  /** One `feed` call. */
  function FeedOnce(reader: Reader, p: Progress, data: seq<byte>): Verdict {
    if Guarded(p, data) then Raised(p.upgraded, p.sends) else Absorb(reader, p, data)
  }

  /** The chunked parser: `feed` on each chunk until one raises. */
  function FeedAll(reader: Reader, chunks: seq<seq<byte>>): Verdict {
    if chunks == [] then Kept(Progress(false, [], 0))
    else
      var before := FeedAll(reader, chunks[..|chunks| - 1]);
      if before.Raised? then before else FeedOnce(reader, before.progress, chunks[|chunks| - 1])
  }

  function Concat(chunks: seq<seq<byte>>): seq<byte> {
    if chunks == [] then [] else Concat(chunks[..|chunks| - 1]) + chunks[|chunks| - 1]
  }

  /** The size guard fires on some chunk that is reached. */
  predicate GuardFires(reader: Reader, chunks: seq<seq<byte>>) {
    chunks != [] &&
    var init := chunks[..|chunks| - 1];
    || GuardFires(reader, init)
    || (FeedAll(reader, init).Kept? && Guarded(FeedAll(reader, init).progress, chunks[|chunks| - 1]))
  }

  lemma FramesStep(reader: Reader, b: seq<byte>, sends: nat, scan: Scan)
    requires scan == FirstFrame(b)
    ensures scan.Wait? ==> Frames(reader, b, sends) == Kept(Progress(true, b, sends))
    ensures scan.Bad? ==> Frames(reader, b, sends) == Raised(true, sends)
    ensures scan.Frame? && BodyRaises(reader, scan.opcode, scan.body) ==> Frames(reader, b, sends) == Raised(true, sends)
    ensures scan.Frame? && !BodyRaises(reader, scan.opcode, scan.body) ==>
              Frames(reader, b, sends) == Frames(reader, b[scan.end..], sends + Sends(reader, scan.opcode, scan.body))
  {
  }

  class SendCounter {
    var buffer: seq<byte>
    var upgraded: bool
    var sends: nat
    const reader: Reader

    function View(): Progress
      reads this
    {
      Progress(upgraded, buffer, sends)
    }

    constructor (reader: Reader)
      ensures View() == Progress(false, [], 0) && this.reader == reader
    {
      this.buffer := [];
      this.upgraded := false;
      this.sends := 0;
      this.reader := reader;
    }

    /** One pass of the frame loop up to the deletion of a complete frame: header checks, bounds, unmasking. */
    method NextFrame() returns (scan: Scan)
      ensures scan == FirstFrame(buffer)
    {
      if |buffer| < 2 {
        return Wait;
      }
      var first, second := buffer[0], buffer[1];
      if first & 0x70 != 0 || first & 0x80 == 0 || second & 0x80 == 0 {
        return Bad;
      }
      var opcode := first & 15;
      if opcode !in [1, 8, 9, 10] {
        return Bad;
      }
      assert !BadFirstBytes(first, second);
      var length := (second & 127) as int;
      var header := 2;
      if second & 127 == 126 || second & 127 == 127 {
        var width := if second & 127 == 126 then 2 else 8;
        if |buffer| < 2 + width {
          return Wait;
        }
        length := BigEndian(buffer[2..2 + width]);
        header := header + width;
      }
      assert header == 2 + Width(second) && length == BodyLength(buffer);
      if length > 60000 || (opcode >= 8 && length > 125) {
        return Bad;
      }
      var end := header + 4 + length;
      if |buffer| < end {
        return Wait;
      }
      var mask := buffer[header..header + 4];
      return Frame(opcode, end, Masked(mask, buffer[header + 4..end]));
    }

    /** The frame loop: it ends because every pass that goes on removes at least six bytes. */
    method AuditFrames() returns (raised: bool)
      requires upgraded
      modifies this
      ensures var v := Frames(reader, old(buffer), old(sends));
              upgraded && if v.Kept? then !raised && View() == v.progress else raised && sends == v.sends
    {
      ghost var verdict := Frames(reader, buffer, sends);
      while |buffer| >= 2
        invariant upgraded && Frames(reader, buffer, sends) == verdict
        decreases |buffer|
      {
        var scan := NextFrame();
        if scan.Wait? {
          return false;
        }
        if scan.Bad? {
          return true;
        }
        FramesStep(reader, buffer, sends, scan);
        buffer := buffer[scan.end..];
        if scan.opcode == 1 {
          var request := reader(scan.body);
          if request.Unreadable? || request.NotObject? {
            return true;
          }
          if request.SendRequest? {
            sends := sends + 1;
          }
        }
      }
      return false;
    }

    method Feed(data: seq<byte>) returns (raised: bool)
      modifies this
      ensures var v := FeedOnce(reader, old(View()), data);
              if v.Kept? then !raised && View() == v.progress
              else raised && upgraded == v.upgraded && sends == v.sends
    {
      buffer := buffer + data;
      if |buffer| > 65536 {
        return true;
      }
      if !upgraded {
        var end := FindBlankLine(buffer, 0);
        if end < 0 {
          return false;
        }
        if !(GET <= buffer) {
          return true;
        }
        buffer := buffer[end + 4..];
        upgraded := true;
      }
      raised := AuditFrames();
    }
  }
}
