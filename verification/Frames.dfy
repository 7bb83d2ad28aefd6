/** Relay frames (internal/protocol/frame.go): validation, the 16-byte header and
    self-delimiting decoding of a byte stream. */
module Frames {
  import opened Bytes
  import opened SelfDelimiting
  import opened Sequences

  const VERSION: byte := 1
  const HEADER_SIZE := 16
  const MAX_PAYLOAD_SIZE := 0x10_0000
  const MAX_TARGET_SIZE := 4096
  const MAX_ERROR_SIZE := 4096
  const MAX_DATA_SIZE := 0x8000
  const MAX_DATAGRAM_SIZE := 2 + MAX_TARGET_SIZE + 65535
  const INITIAL_STREAM_WINDOW := 0x4_0000
  const MAGIC: seq<byte> := [0x57, 0x57, 0x52, 0x31]

  const OPEN: byte := 1
  const OPEN_OK: byte := 2
  const OPEN_ERROR: byte := 3
  const DATA: byte := 4
  const HALF_CLOSE: byte := 5
  const CLOSE: byte := 6
  const RESET: byte := 7
  const LISTEN_OPEN: byte := 8
  const LISTEN_OK: byte := 9
  const LISTEN_ERROR: byte := 10
  const INBOUND_OPEN: byte := 11
  const LISTEN_CLOSE: byte := 12
  const LISTEN_COMMIT: byte := 13
  const DATAGRAM_OPEN: byte := 14
  const DATAGRAM_OK: byte := 15
  const DATAGRAM_ERROR: byte := 16
  const DATAGRAM_DATA: byte := 17
  const DATAGRAM_CLOSE: byte := 18
  const WINDOW_UPDATE: byte := 19
  const HELLO: byte := 20
  const HELLO_OK: byte := 21
  const LISTEN_DATAGRAM_OPEN: byte := 22
  const LISTEN_DATAGRAM_OK: byte := 23
  const LISTEN_DATAGRAM_ERROR: byte := 24
  const LISTEN_DATAGRAM_DATA: byte := 25
  const LISTEN_DATAGRAM_CLOSE: byte := 26

  datatype Frame = Frame(kind: byte, streamId: uint32, payload: seq<byte>)

  predicate IsErrorType(kind: byte) {
    kind == OPEN_ERROR || kind == RESET || kind == LISTEN_ERROR || kind == DATAGRAM_ERROR || kind == LISTEN_DATAGRAM_ERROR
  }

  predicate IsEmptyType(kind: byte) {
    || kind == OPEN_OK || kind == HALF_CLOSE || kind == CLOSE || kind == LISTEN_CLOSE || kind == LISTEN_COMMIT
    || kind == DATAGRAM_OPEN || kind == DATAGRAM_OK || kind == DATAGRAM_CLOSE || kind == LISTEN_DATAGRAM_CLOSE
  }

  predicate KnownType(kind: byte) { OPEN <= kind <= LISTEN_DATAGRAM_CLOSE }

  /** validateFrameMetadata accepts exactly these headers. */
  predicate ValidMetadata(kind: byte, streamId: uint32, length: nat) {
    && (streamId == 0 <==> (kind == HELLO || kind == HELLO_OK))
    && KnownType(kind)
    && length <= MAX_PAYLOAD_SIZE
    && (IsEmptyType(kind) ==> length == 0)
    && (kind == LISTEN_OK || kind == LISTEN_DATAGRAM_OK ==> length <= MAX_TARGET_SIZE)
    && (IsErrorType(kind) ==> length <= MAX_ERROR_SIZE)
    && (kind == OPEN || kind == LISTEN_OPEN || kind == LISTEN_DATAGRAM_OPEN ==> 1 <= length <= MAX_TARGET_SIZE)
    && (kind == INBOUND_OPEN ==> length == 4)
    && (kind == DATAGRAM_DATA || kind == LISTEN_DATAGRAM_DATA ==> 3 <= length <= MAX_DATAGRAM_SIZE)
    && (kind == DATA ==> 1 <= length <= MAX_DATA_SIZE)
    && (kind == WINDOW_UPDATE ==> length == 4)
    && (kind == HELLO ==> length == 8)
    && (kind == HELLO_OK ==> length == 8 || length == 16)
  }

  predicate Valid(f: Frame) { ValidMetadata(f.kind, f.streamId, |f.payload|) }

  /** A header with the two reserved octets left open. */
  function Header(kind: byte, streamId: uint32, length: nat, reserved: seq<byte>): (s: seq<byte>)
    requires |reserved| == 2
    ensures |s| == HEADER_SIZE
  {
    MAGIC + [VERSION, kind] + reserved + BE(streamId, 4) + BE(length, 4)
  }

  /** The length field holds the low 32 bits of the payload's length. */
  function EncodeWith(f: Frame, reserved: seq<byte>): (s: seq<byte>)
    requires |reserved| == 2
    ensures |s| == HEADER_SIZE + |f.payload|
  {
    Header(f.kind, f.streamId, |f.payload|, reserved) + f.payload
  }

  /** Write leaves the reserved octets zero. */
  function Encode(f: Frame): (s: seq<byte>)
    ensures |s| == HEADER_SIZE + |f.payload|
  {
    EncodeWith(f, [0, 0])
  }

  datatype Metadata = Metadata(kind: byte, streamId: uint32, length: nat)

  function ParseHeader(h: seq<byte>): Option<Metadata>
    requires |h| == HEADER_SIZE
  {
    if h[..4] != MAGIC || h[4] != VERSION then None
    else
      Fixed(0, h[8..12]);
      var m := Metadata(h[5], FromBE(h[8..12]), FromBE(h[12..16]));
      if ValidMetadata(m.kind, m.streamId, m.length) then Some(m) else None
  }

  /** Read, as a function of the bytes the reader delivers before it ends. */
  function ReadFrame(s: seq<byte>): ReadResult<Frame> {
    if s == [] then Failed(EndOfStream)
    else if |s| < HEADER_SIZE then Failed(UnexpectedEnd)
    else
      match ParseHeader(s[..HEADER_SIZE])
      case None => Failed(Malformed)
      case Some(m) =>
        var end := HEADER_SIZE + m.length;
        if |s| < end then Failed(CutError(HEADER_SIZE, |s|))
        else Got(Frame(m.kind, m.streamId, s[HEADER_SIZE..end]), s[end..])
  }

  /** Where everything is in a written frame. */
  lemma Layout(f: Frame)
    requires Valid(f)
    ensures var s := Encode(f);
            && |s| == 16 + |f.payload| && s[..4] == [0x57, 0x57, 0x52, 0x31] && s[4] == 1 && s[5] == f.kind && s[6..8] == [0, 0]
            && FromBE(s[8..12]) == f.streamId && FromBE(s[12..16]) == |f.payload| && s[16..] == f.payload
  {
    var h := Header(f.kind, f.streamId, |f.payload|, [0, 0]);
    var head := MAGIC + [VERSION, f.kind] + [0, 0];
    assert h == head + BE(f.streamId, 4) + BE(|f.payload|, 4);
    Slices(head, BE(f.streamId, 4), BE(|f.payload|, 4) + f.payload);
    assert Encode(f) == head + BE(f.streamId, 4) + (BE(|f.payload|, 4) + f.payload);
    Fixed(f.streamId, []);
    Fixed(|f.payload|, []);
    Slices(head + BE(f.streamId, 4), BE(|f.payload|, 4), f.payload);
    assert Encode(f) == head + BE(f.streamId, 4) + BE(|f.payload|, 4) + f.payload;
  }

  lemma ParseAfterHeader(m: Metadata, reserved: seq<byte>)
    requires |reserved| == 2 && ValidMetadata(m.kind, m.streamId, m.length)
    ensures ParseHeader(Header(m.kind, m.streamId, m.length, reserved)) == Some(m)
  {
    var head := MAGIC + [VERSION, m.kind] + reserved;
    var h := Header(m.kind, m.streamId, m.length, reserved);
    assert h == head + BE(m.streamId, 4) + BE(m.length, 4);
    assert h[8..12] == BE(m.streamId, 4);
    assert h[12..16] == BE(m.length, 4);
    Fixed(m.streamId, []);
    Fixed(m.length, []);
  }

  lemma SplitHeader<T>(h: seq<T>)
    requires |h| == HEADER_SIZE
    ensures h == h[..4] + [h[4], h[5]] + h[6..8] + h[8..12] + h[12..16]
  {
  }

  lemma HeaderAfterParse(h: seq<byte>)
    requires |h| == HEADER_SIZE && ParseHeader(h).Some?
    ensures var m := ParseHeader(h).value; h == Header(m.kind, m.streamId, m.length, h[6..8])
  {
    Fixed(0, h[8..12]);
    Fixed(0, h[12..16]);
    SplitHeader(h);
  }

  /** Decoding after encoding is the identity and consumes exactly the frame, whatever the reserved octets. */
  lemma ReadAfterEncode(f: Frame, reserved: seq<byte>, rest: seq<byte>)
    requires Valid(f) && |reserved| == 2
    ensures ReadFrame(EncodeWith(f, reserved) + rest) == Got(f, rest)
  {
    var h := Header(f.kind, f.streamId, |f.payload|, reserved);
    ParseAfterHeader(Metadata(f.kind, f.streamId, |f.payload|), reserved);
    Slices(h, f.payload, rest);
  }

  /** Whatever decodes is the encoding of what it decodes to, up to the two reserved octets. */
  lemma EncodeAfterRead(s: seq<byte>)
    requires ReadFrame(s).Got?
    ensures Valid(ReadFrame(s).item) && s == EncodeWith(ReadFrame(s).item, s[6..8]) + ReadFrame(s).rest
  {
    var f, rest := ReadFrame(s).item, ReadFrame(s).rest;
    var h := s[..HEADER_SIZE];
    assert h[6..8] == s[6..8];
    HeaderAfterParse(h);
    assert s == h + f.payload + rest;
  }

  /** A frame cut anywhere inside is never mistaken for a frame. */
  lemma ReadCutFrame(f: Frame, k: nat)
    requires Valid(f) && k < |Encode(f)|
    ensures ReadFrame(Encode(f)[..k]) == Failed(CutError(HEADER_SIZE, k))
  {
    if k >= HEADER_SIZE {
      var h := Header(f.kind, f.streamId, |f.payload|, [0, 0]);
      ParseAfterHeader(Metadata(f.kind, f.streamId, |f.payload|), [0, 0]);
      CutFirst(h, f.payload, k);
      assert (h + f.payload[..k - HEADER_SIZE])[..HEADER_SIZE] == h;
    }
  }

  lemma FrameCodec()
    ensures Codec(Valid, Encode, ReadFrame, HEADER_SIZE)
  {
    forall f: Frame, rest: seq<byte> | Valid(f) ensures ReadFrame(Encode(f) + rest) == Got(f, rest) {
      ReadAfterEncode(f, [0, 0], rest);
    }
    forall f: Frame, k: nat | Valid(f) && k < |Encode(f)| ensures ReadFrame(Encode(f)[..k]) == Failed(CutError(HEADER_SIZE, k)) {
      ReadCutFrame(f, k);
    }
  }

  /** For any list of valid frames, repeated Read over its bytes returns exactly the list; cutting the
      bytes anywhere returns the frames before the cut and then an error: the end of the stream at a boundary, and
      also right after a header whose payload is missing altogether. */
  lemma ReadAllFrames(fs: seq<Frame>, k: nat)
    requires AllValid(Valid, fs) && k <= |EncodeAll(Encode, fs)|
    ensures ReadAll(ReadFrame, EncodeAll(Encode, fs)) == (fs, EndOfStream)
    ensures exists n :: 0 <= n <= |fs| && |EncodeAll(Encode, fs[..n])| <= k
                     && ReadAll(ReadFrame, EncodeAll(Encode, fs)[..k])
                        == (fs[..n], if n == |fs| then EndOfStream else CutError(HEADER_SIZE, k - |EncodeAll(Encode, fs[..n])|))
  {
    FrameCodec();
    ReadAllRoundTrip(Valid, Encode, ReadFrame, HEADER_SIZE, fs);
    ReadAllOfCut(Valid, Encode, ReadFrame, HEADER_SIZE, fs, k);
  }

  /** One answer of an io.Writer: how much it took, and whether it reported an error. */
  datatype WriteAnswer = WriteAnswer(count: nat, failed: bool)

  /** An io.Writer with an arbitrary partial-write schedule. */
  class Sink {
    var accepted: seq<byte>
    var answers: seq<WriteAnswer>

    constructor (answers: seq<WriteAnswer>)
      ensures accepted == [] && this.answers == answers
    {
      accepted, this.answers := [], answers;
    }

    /** Takes some prefix of p; a writer out of answers fails. */
    method Write(p: seq<byte>) returns (n: nat, failed: bool)
      modifies this
      ensures n <= |p| && accepted == old(accepted) + p[..n]
      ensures old(answers) == [] ==> n == 0 && failed && answers == []
      ensures old(answers) != [] ==>
                && failed == old(answers)[0].failed && answers == old(answers)[1..]
                && n == if old(answers)[0].count <= |p| then old(answers)[0].count else |p|
    {
      if answers == [] { return 0, true; }
      n, failed := if answers[0].count <= |p| then answers[0].count else |p|, answers[0].failed;
      accepted, answers := accepted + p[..n], answers[1..];
    }
  }

  /** From one schedule to the other every answer moved something on. */
  ghost predicate WentWell(before: seq<WriteAnswer>, after: seq<WriteAnswer>) {
    after == before || (before != [] && before[0].count > 0 && !before[0].failed && WentWell(before[1..], after))
  }

  /** The answers ran out, or the last one used was the first to fail or to take nothing. */
  ghost predicate GaveUp(before: seq<WriteAnswer>, after: seq<WriteAnswer>) {
    if before == [] then after == []
    else if before[0].count > 0 && !before[0].failed then GaveUp(before[1..], after)
    else after == before[1..]
  }

  lemma {:induction false} WellThen(a: seq<WriteAnswer>, b: seq<WriteAnswer>, c: seq<WriteAnswer>)
    requires WentWell(a, b)
    ensures WentWell(b, c) ==> WentWell(a, c)
    ensures GaveUp(b, c) ==> GaveUp(a, c)
  {
    if a != b { WellThen(a[1..], b, c); }
  }

  /** writeFull: all the bytes or a prefix, and it stops early at the first error or empty write and for no other reason. */
  method WriteFull(w: Sink, p: seq<byte>) returns (ok: bool)
    modifies w
    ensures old(w.accepted) <= w.accepted <= old(w.accepted) + p
    ensures ok ==> w.accepted == old(w.accepted) + p
    ensures if ok then WentWell(old(w.answers), w.answers) else GaveUp(old(w.answers), w.answers)
  {
    var rest := p;
    ghost var done, all := 0, w.answers;
    while |rest| > 0
      invariant 0 <= done <= |p| && rest == p[done..]
      invariant w.accepted == old(w.accepted) + p[..done]
      invariant WentWell(all, w.answers)
      decreases |rest|
    {
      ghost var was := w.answers;
      var n, failed := w.Write(rest);
      assert p[..done] + p[done..][..n] == p[..done + n];
      done := done + n;
      if !failed && n > 0 { assert WentWell(was[1..], w.answers) && WentWell(was, w.answers); }
      WellThen(all, was, w.answers);
      if failed { return false; }
      if n == 0 { return false; }
      rest := rest[n..];
    }
    return true;
  }

  /** Write: an invalid frame writes nothing; otherwise the sink receives the encoding, or a prefix
      of it when the writer fails. */
  method Write(w: Sink, f: Frame) returns (ok: bool)
    modifies w
    ensures !Valid(f) ==> !ok && w.accepted == old(w.accepted)
    ensures old(w.accepted) <= w.accepted <= old(w.accepted) + Encode(f)
    ensures ok ==> w.accepted == old(w.accepted) + Encode(f)
    ensures Valid(f) ==> if ok then WentWell(old(w.answers), w.answers) else GaveUp(old(w.answers), w.answers)
  {
    if !Valid(f) { return false; }
    ghost var all := w.answers;
    ok := WriteFull(w, Header(f.kind, f.streamId, |f.payload|, [0, 0]));
    if !ok { return; }
    ghost var mid := w.answers;
    ok := WriteFull(w, f.payload);
    WellThen(all, mid, w.answers);
  }

  lemma BetweenFrames(fs: seq<Frame>, i: nat, bytes: seq<byte>)
    requires AllValid(Valid, fs) && i < |fs|
    requires EncodeAll(Encode, fs[..i]) <= bytes <= EncodeAll(Encode, fs[..i]) + Encode(fs[i])
    ensures exists n :: 0 <= n <= |fs| && ReadAll(ReadFrame, bytes).0 == fs[..n]
  {
    var cut := fs[..i + 1];
    assert cut == fs[..i] + [fs[i]];
    EncodeAllSnoc(Encode, fs[..i], fs[i]);
    assert bytes == EncodeAll(Encode, cut)[..|bytes|];
    FrameCodec();
    ReadAllOfCut(Valid, Encode, ReadFrame, HEADER_SIZE, cut, |bytes|);
    var n := Whole(Encode, cut, |bytes|);
    assert cut[..n] == fs[..n];
  }

  /** For any partial-write schedule: if every write succeeds the bytes read back as exactly the list,
      and if one fails they read back as a prefix of it. */
  method WriteAll(w: Sink, fs: seq<Frame>) returns (ok: bool)
    requires AllValid(Valid, fs) && w.accepted == []
    modifies w
    ensures ok ==> ReadAll(ReadFrame, w.accepted) == (fs, EndOfStream)
    ensures !ok ==> exists n :: 0 <= n <= |fs| && ReadAll(ReadFrame, w.accepted).0 == fs[..n]
    ensures if ok then WentWell(old(w.answers), w.answers) else GaveUp(old(w.answers), w.answers)
  {
    var i := 0;
    ghost var all := w.answers;
    while i < |fs|
      invariant 0 <= i <= |fs| && w.accepted == EncodeAll(Encode, fs[..i]) && WentWell(all, w.answers)
    {
      ghost var was := w.answers;
      var sent := Write(w, fs[i]);
      WellThen(all, was, w.answers);
      if !sent {
        BetweenFrames(fs, i, w.accepted);
        return false;
      }
      assert fs[..i + 1] == fs[..i] + [fs[i]];
      EncodeAllSnoc(Encode, fs[..i], fs[i]);
      i := i + 1;
    }
    assert fs[..i] == fs;
    ReadAllFrames(fs, 0);
    return true;
  }
}
