/** The framing of the replication stream: a kind byte, the position the payload
    leads to, an eight-byte little-endian length, and the payload.

    The engine's encoding of a position is not in the repository.  It appears
    here as a `Codec`: what is written reads back if the codec gives back its
    positions (`ReadsBack`), and what is read was written if the codec decodes
    nothing else (`Canonical`). */
module Frames {
  import opened Base

  const SNAPSHOT: byte := 83 // 'S'
  const BATCH: byte := 66 // 'B'
  const HEARTBEAT: byte := 72 // 'H'

  const MAX_INT64 := 0x7FFF_FFFF_FFFF_FFFF
  const CHUNK := 0x1_0000

  datatype Codec = Codec(size: nat, marshal: Position -> bytes, unmarshal: bytes -> Option<Position>)
  {
    function HeaderSize(): nat {
      1 + size + 8
    }
  }

  /** A position the codec gives back: of its fixed size, and decoding to itself. */
  predicate ReadsBack(c: Codec, p: Position) {
    |c.marshal(p)| == c.size && c.unmarshal(c.marshal(p)) == Some(p)
  }

  /** A codec that decodes nothing but what it encodes. */
  ghost predicate Canonical(c: Codec) {
    forall b :: c.unmarshal(b).Some? ==> c.marshal(c.unmarshal(b).value) == b
  }

  datatype Frame = Frame(kind: byte, at: Position, payload: bytes)

  /** How a reader ends: `Eof` cleanly between frames, `Torn` inside one,
      `Broken` with an error of the connection's own. */
  datatype Error = Eof | Torn | Broken | BadPosition | TooLarge

  /** How the connection underneath ends once its bytes run out. */
  datatype Tail = Closed | Failed

  // ----- eight little-endian bytes

  function Pow256(k: nat): nat {
    if k == 0 then 1 else 256 * Pow256(k - 1)
  }

  lemma Pow256Of8()
    ensures Pow256(8) == 0x1_0000_0000_0000_0000
  {
  }

  function LittleEndian(n: nat, k: nat): (b: bytes)
    ensures |b| == k
  {
    if k == 0 then [] else [n % 256] + LittleEndian(n / 256, k - 1)
  }

  function FromLittleEndian(b: bytes): nat {
    if b == [] then 0 else b[0] + 256 * FromLittleEndian(b[1..])
  }

  lemma {:induction false} LittleEndianRoundTrip(n: nat, k: nat)
    requires n < Pow256(k)
    ensures FromLittleEndian(LittleEndian(n, k)) == n
  {
    if k > 0 {
      LittleEndianRoundTrip(n / 256, k - 1);
      assert LittleEndian(n, k)[1..] == LittleEndian(n / 256, k - 1);
    }
  }

  lemma {:induction false} FromLittleEndianRoundTrip(b: bytes)
    ensures FromLittleEndian(b) < Pow256(|b|)
    ensures LittleEndian(FromLittleEndian(b), |b|) == b
  {
    if b != [] {
      FromLittleEndianRoundTrip(b[1..]);
      LowByte(b[0], FromLittleEndian(b[1..]));
      assert b == [b[0]] + b[1..];
    }
  }

  lemma LowByte(low: byte, high: nat)
    ensures (low + 256 * high) % 256 == low && (low + 256 * high) / 256 == high
  {
  }

  // ----- what is written

  function Header(c: Codec, kind: byte, at: Position, length: nat): bytes {
    [kind] + c.marshal(at) + LittleEndian(length, 8)
  }

  function Encode(c: Codec, f: Frame): bytes {
    Header(c, f.kind, f.at, |f.payload|) + f.payload
  }

  function EncodeAll(c: Codec, fs: seq<Frame>): bytes {
    if fs == [] then [] else Encode(c, fs[0]) + EncodeAll(c, fs[1..])
  }

  // ----- what is read

  datatype HeaderRead = GotHeader(kind: byte, at: Position, length: nat) | NoHeader(error: Error)

  /** What a full read of more than there is reports. */
  function Short(have: nat, tail: Tail): Error {
    if tail == Failed then Broken else if have == 0 then Eof else Torn
  }

  function ReadHeader(c: Codec, most: int, b: bytes, tail: Tail): HeaderRead {
    if |b| < c.HeaderSize() then NoHeader(Short(|b|, tail))
    else
      match c.unmarshal(b[1..1 + c.size])
      case None => NoHeader(BadPosition)
      case Some(at) =>
        var length := FromLittleEndian(b[1 + c.size..c.HeaderSize()]);
        if most < 0 || length > most || length > MAX_INT64 then NoHeader(TooLarge)
        else GotHeader(b[0], at, length)
  }

  datatype FrameRead = GotFrame(frame: Frame, rest: bytes) | NoFrame(error: Error)

  function ReadFrame(c: Codec, most: int, b: bytes, tail: Tail): FrameRead {
    match ReadHeader(c, most, b, tail)
    case NoHeader(e) => NoFrame(e)
    case GotHeader(kind, at, length) =>
      var body := b[c.HeaderSize()..];
      if |body| < length then NoFrame(if tail == Failed then Broken else Torn)
      else GotFrame(Frame(kind, at, body[..length]), body[length..])
  }

  datatype StreamRead = StreamRead(frames: seq<Frame>, error: Error)

  function ReadAll(c: Codec, most: int, b: bytes, tail: Tail): StreamRead
    decreases |b|
  {
    match ReadFrame(c, most, b, tail)
    case NoFrame(e) => StreamRead([], e)
    case GotFrame(f, rest) =>
      var more := ReadAll(c, most, rest, tail);
      StreamRead([f] + more.frames, more.error)
  }

  /** The frames a reader bounded by `most` will take at all. */
  predicate Fits(c: Codec, f: Frame, most: int) {
    |f.payload| <= most && |f.payload| <= MAX_INT64 && ReadsBack(c, f.at)
  }

  // ----- the bytes themselves

  /** The least significant byte comes first. */
  lemma LittleEndianIs(n: nat)
    ensures var b := LittleEndian(n, 8);
      && b[0] == n % 256 && b[1] == n / 0x100 % 256 && b[2] == n / 0x1_0000 % 256 && b[3] == n / 0x100_0000 % 256
      && b[4] == n / 0x1_0000_0000 % 256 && b[5] == n / 0x100_0000_0000 % 256
      && b[6] == n / 0x1_0000_0000_0000 % 256 && b[7] == n / 0x100_0000_0000_0000 % 256
  {
    var n2 := n / 0x1_0000;
    var n4 := n / 0x1_0000_0000;
    var n6 := n / 0x1_0000_0000_0000;
    TwoAtATime(n, 8);
    TwoAtATime(n2, 6);
    TwoAtATime(n4, 4);
    TwoAtATime(n6, 2);
    assert n2 / 0x1_0000 == n4 && n4 / 0x1_0000 == n6;
    assert n2 / 256 == n / 0x100_0000 && n4 / 256 == n / 0x100_0000_0000 && n6 / 256 == n / 0x100_0000_0000_0000;
    hide LittleEndian;
  }

  lemma TwoAtATime(n: nat, k: nat)
    requires k >= 2
    ensures LittleEndian(n, k) == [n % 256, n / 256 % 256] + LittleEndian(n / 0x1_0000, k - 2)
  {
    assert n / 256 / 256 == n / 0x1_0000;
    assert LittleEndian(n, k) == [n % 256] + LittleEndian(n / 256, k - 1);
    assert LittleEndian(n / 256, k - 1) == [n / 256 % 256] + LittleEndian(n / 0x1_0000, k - 2);
  }

  /** A header is the kind, the position as the engine writes it, and the length in
      eight bytes. */
  lemma HeaderIs(c: Codec, kind: byte, at: Position, length: nat)
    requires ReadsBack(c, at)
    ensures var h := Header(c, kind, at, length);
      && |h| == c.size + 9 && h[0] == kind && h[1..1 + c.size] == c.marshal(at)
      && h[1 + c.size..] == LittleEndian(length, 8)
    ensures SNAPSHOT == 'S' as int && BATCH == 'B' as int && HEARTBEAT == 'H' as int
  {
  }

  /** What is refused, and as what: a connection that ends first, cleanly only between
      frames; a position the engine does not know; a length over the reader's bound or
      past 63 bits; a payload that does not all arrive. */
  lemma RefusedFor(c: Codec, most: int, b: bytes, tail: Tail)
    ensures var r := ReadFrame(c, most, b, tail);
      var short := |b| < 1 + c.size + 8;
      && (r == NoFrame(Eof) <==> b == [] && tail == Closed)
      && (r == NoFrame(BadPosition) <==> !short && c.unmarshal(b[1..1 + c.size]).None?)
      && (r == NoFrame(TooLarge) <==>
            && !short && c.unmarshal(b[1..1 + c.size]).Some?
            && (FromLittleEndian(b[1 + c.size..9 + c.size]) > most || FromLittleEndian(b[1 + c.size..9 + c.size]) > 0x7FFF_FFFF_FFFF_FFFF))
      && (r.NoFrame? && r.error != BadPosition && r.error != TooLarge && b != [] ==>
            r.error == if tail == Failed then Broken else Torn)
      && (r.GotFrame? <==>
            && !short && c.unmarshal(b[1..1 + c.size]).Some?
            && FromLittleEndian(b[1 + c.size..9 + c.size]) <= most
            && FromLittleEndian(b[1 + c.size..9 + c.size]) <= 0x7FFF_FFFF_FFFF_FFFF
            && FromLittleEndian(b[1 + c.size..9 + c.size]) <= |b| - (9 + c.size))
  {
    hide FromLittleEndian;
  }

  // ----- reading undoes writing

  lemma HeaderReadsBack(c: Codec, most: int, kind: byte, at: Position, length: nat, rest: bytes, tail: Tail)
    requires ReadsBack(c, at)
    requires length <= MAX_INT64
    ensures var b := Header(c, kind, at, length) + rest;
      && |Header(c, kind, at, length)| == c.HeaderSize()
      && b[c.HeaderSize()..] == rest
      && ReadHeader(c, most, b, tail) ==
         if length <= most then GotHeader(kind, at, length) else NoHeader(TooLarge)
  {
    var b := Header(c, kind, at, length) + rest;
    Pow256Of8();
    LittleEndianRoundTrip(length, 8);
    assert b[1..1 + c.size] == c.marshal(at);
    assert b[1 + c.size..c.HeaderSize()] == LittleEndian(length, 8);
  }

  lemma FrameReadsBack(c: Codec, most: int, f: Frame, rest: bytes, tail: Tail)
    requires Fits(c, f, most)
    ensures ReadFrame(c, most, Encode(c, f) + rest, tail) == GotFrame(f, rest)
  {
    assert Encode(c, f) + rest == Header(c, f.kind, f.at, |f.payload|) + (f.payload + rest);
    HeaderReadsBack(c, most, f.kind, f.at, |f.payload|, f.payload + rest, tail);
    assert (f.payload + rest)[..|f.payload|] == f.payload;
    assert (f.payload + rest)[|f.payload|..] == rest;
  }

  lemma ReadAllTakesOne(c: Codec, most: int, f: Frame, rest: bytes, tail: Tail)
    requires Fits(c, f, most)
    ensures var more := ReadAll(c, most, rest, tail);
      ReadAll(c, most, Encode(c, f) + rest, tail) == StreamRead([f] + more.frames, more.error)
  {
    FrameReadsBack(c, most, f, rest, tail);
  }

  lemma EncodeAllOfPrefix(c: Codec, fs: seq<Frame>, k: nat)
    requires k < |fs|
    ensures EncodeAll(c, fs[..k + 1]) == Encode(c, fs[0]) + EncodeAll(c, fs[1..][..k])
  {
    assert fs[..k + 1][1..] == fs[1..][..k];
  }

  /** A frame cut short yields nothing: a clean end if nothing of it arrived and
      a torn one otherwise. */
  lemma CutFrameIsTorn(c: Codec, most: int, f: Frame, n: nat)
    requires Fits(c, f, most)
    requires n < |Encode(c, f)|
    ensures ReadFrame(c, most, Encode(c, f)[..n], Closed) == NoFrame(if n == 0 then Eof else Torn)
  {
    var h := Header(c, f.kind, f.at, |f.payload|);
    HeaderReadsBack(c, most, f.kind, f.at, |f.payload|, f.payload, Closed);
    if n >= |h| {
      assert Encode(c, f)[..n] == h + f.payload[..n - |h|];
      HeaderReadsBack(c, most, f.kind, f.at, |f.payload|, f.payload[..n - |h|], Closed);
    }
  }

  lemma ReadNothing(c: Codec, most: int)
    ensures ReadAll(c, most, [], Closed) == StreamRead([], Eof)
  {
  }

  lemma ReadAllOfCutFrame(c: Codec, most: int, f: Frame, n: nat)
    requires Fits(c, f, most)
    requires n < |Encode(c, f)|
    ensures ReadAll(c, most, Encode(c, f)[..n], Closed) == StreamRead([], if n == 0 then Eof else Torn)
  {
    CutFrameIsTorn(c, most, f, n);
  }

  /** How many whole frames the first `n` bytes of a stream hold. */
  ghost function WholeFrames(c: Codec, fs: seq<Frame>, n: nat): (k: nat)
    ensures k <= |fs|
  {
    if fs == [] || n < |Encode(c, fs[0])| then 0
    else 1 + WholeFrames(c, fs[1..], n - |Encode(c, fs[0])|)
  }

  /** `WholeFrames` is what its name says: the frames it counts fit in the first
      `n` bytes, and one more does not. */
  lemma {:induction false} WholeFramesIsTheMost(c: Codec, fs: seq<Frame>, n: nat)
    requires n <= |EncodeAll(c, fs)|
    ensures var k := WholeFrames(c, fs, n);
      && |EncodeAll(c, fs[..k])| <= n
      && EncodeAll(c, fs)[..|EncodeAll(c, fs[..k])|] == EncodeAll(c, fs[..k])
      && (k < |fs| ==> n < |EncodeAll(c, fs[..k + 1])|)
      && (k == |fs| ==> n == |EncodeAll(c, fs)|)
  {
    hide Encode;
    var k := WholeFrames(c, fs, n);
    if fs == [] {
    } else if n < |Encode(c, fs[0])| {
      EncodeAllOfPrefix(c, fs, 0);
    } else {
      WholeFramesIsTheMost(c, fs[1..], n - |Encode(c, fs[0])|);
      EncodeAllOfPrefix(c, fs, k - 1);
      if k < |fs| {
        EncodeAllOfPrefix(c, fs, k);
      }
      EncodeAllSplits(c, fs, k);
    }
  }

  lemma CutSplits(c: Codec, fs: seq<Frame>, n: nat)
    requires fs != [] && n <= |EncodeAll(c, fs)|
    ensures n < |Encode(c, fs[0])| ==> EncodeAll(c, fs)[..n] == Encode(c, fs[0])[..n]
    ensures n >= |Encode(c, fs[0])| ==>
      EncodeAll(c, fs)[..n] == Encode(c, fs[0]) + EncodeAll(c, fs[1..])[..n - |Encode(c, fs[0])|]
  {
  }

  /** What a reader makes of the first `n` bytes of these frames. */
  ghost function CutRead(c: Codec, fs: seq<Frame>, n: nat): StreamRead {
    if fs == [] then StreamRead([], Eof)
    else if n < |Encode(c, fs[0])| then StreamRead([], if n == 0 then Eof else Torn)
    else
      var more := CutRead(c, fs[1..], n - |Encode(c, fs[0])|);
      StreamRead([fs[0]] + more.frames, more.error)
  }

  lemma {:induction false} CutStreamReads(c: Codec, most: int, fs: seq<Frame>, n: nat)
    requires forall i :: 0 <= i < |fs| ==> Fits(c, fs[i], most)
    requires n <= |EncodeAll(c, fs)|
    ensures ReadAll(c, most, EncodeAll(c, fs)[..n], Closed) == CutRead(c, fs, n)
    decreases |fs|
  {
    hide ReadHeader, ReadFrame;
    if fs == [] {
      assert EncodeAll(c, fs)[..n] == [];
      ReadNothing(c, most);
    } else {
      CutSplits(c, fs, n);
      var w := |Encode(c, fs[0])|;
      if n < w {
        ReadAllOfCutFrame(c, most, fs[0], n);
      } else {
        ReadAllTakesOne(c, most, fs[0], EncodeAll(c, fs[1..])[..n - w], Closed);
        CutStreamReads(c, most, fs[1..], n - w);
      }
    }
  }

  lemma {:induction false} CutReadIsWholeFrames(c: Codec, fs: seq<Frame>, n: nat)
    requires n <= |EncodeAll(c, fs)|
    ensures var k := WholeFrames(c, fs, n);
      CutRead(c, fs, n) == StreamRead(fs[..k], if n == |EncodeAll(c, fs[..k])| then Eof else Torn)
    decreases |fs|
  {
    if fs != [] && n >= |Encode(c, fs[0])| {
      var w := |Encode(c, fs[0])|;
      CutReadIsWholeFrames(c, fs[1..], n - w);
      var k := WholeFrames(c, fs[1..], n - w);
      EncodeAllOfPrefix(c, fs, k);
      assert [fs[0]] + fs[1..][..k] == fs[..k + 1];
    }
  }

  /** Any prefix of a stream of written frames, cut at any byte, reads as exactly
      the whole frames it holds; it ends cleanly on a frame boundary and torn
      anywhere else.  The whole stream is the case where `n` is its length. */
  lemma CutStreamReadsItsWholeFrames(c: Codec, most: int, fs: seq<Frame>, n: nat)
    requires forall i :: 0 <= i < |fs| ==> Fits(c, fs[i], most)
    requires n <= |EncodeAll(c, fs)|
    ensures var k := WholeFrames(c, fs, n);
      ReadAll(c, most, EncodeAll(c, fs)[..n], Closed) ==
        StreamRead(fs[..k], if n == |EncodeAll(c, fs[..k])| then Eof else Torn)
  {
    CutStreamReads(c, most, fs, n);
    CutReadIsWholeFrames(c, fs, n);
  }

  /** Reading back the concatenation of any written frames returns those frames,
      consumes every byte and ends as the connection does. */
  lemma {:induction false} WrittenFramesReadBack(c: Codec, most: int, fs: seq<Frame>)
    requires forall i :: 0 <= i < |fs| ==> Fits(c, fs[i], most)
    ensures ReadAll(c, most, EncodeAll(c, fs), Closed) == StreamRead(fs, Eof)
  {
    var all := EncodeAll(c, fs);
    WholeFramesIsTheMost(c, fs, |all|);
    CutStreamReadsItsWholeFrames(c, most, fs, |all|);
    var k := WholeFrames(c, fs, |all|);
    if k < |fs| {
      EncodeAllSplits(c, fs, k + 1);
    }
    assert all[..|all|] == all && fs[..|fs|] == fs;
  }

  lemma {:induction false} EncodeAllSplits(c: Codec, fs: seq<Frame>, k: nat)
    requires k <= |fs|
    ensures EncodeAll(c, fs) == EncodeAll(c, fs[..k]) + EncodeAll(c, fs[k..])
  {
    hide Encode;
    if k == 0 {
      assert fs[..0] == [] && fs[0..] == fs;
    } else {
      EncodeAllSplits(c, fs[1..], k - 1);
      assert fs[..k][1..] == fs[1..][..k - 1];
      assert fs[1..][k - 1..] == fs[k..];
    }
  }

  lemma AcceptedHeaderReencodes(c: Codec, most: int, b: bytes, tail: Tail)
    requires Canonical(c)
    ensures match ReadHeader(c, most, b, tail)
      case NoHeader(_) => true
      case GotHeader(kind, at, length) =>
        length <= most && length <= MAX_INT64 && b[..c.HeaderSize()] == Header(c, kind, at, length)
  {
    if ReadHeader(c, most, b, tail).GotHeader? {
      var h := c.HeaderSize();
      FromLittleEndianRoundTrip(b[1 + c.size..h]);
      assert b[..h] == [b[0]] + b[1..1 + c.size] + b[1 + c.size..h];
    }
  }

  /** Every frame a reader accepts re-encodes to exactly the bytes it consumed,
      so no two byte strings are read as the same frame. */
  lemma AcceptedFrameReencodes(c: Codec, most: int, b: bytes, tail: Tail)
    requires Canonical(c)
    ensures match ReadFrame(c, most, b, tail)
      case NoFrame(_) => true
      case GotFrame(f, rest) => |f.payload| <= most && |f.payload| <= MAX_INT64 && b == Encode(c, f) + rest
  {
    var got := ReadFrame(c, most, b, tail);
    if got.GotFrame? {
      AcceptedHeaderReencodes(c, most, b, tail);
      var h := c.HeaderSize();
      var length := |got.frame.payload|;
      assert b == b[..h] + b[h..];
      assert b[h..] == b[h..][..length] + b[h..][length..];
    }
  }

  /** Whatever bytes arrive, the frames read out of them account for a prefix of
      them exactly. */
  lemma {:induction false} AcceptedStreamReencodes(c: Codec, most: int, b: bytes, tail: Tail)
    requires Canonical(c)
    ensures EncodeAll(c, ReadAll(c, most, b, tail).frames) <= b
    ensures ReadAll(c, most, b, tail).error == Eof ==>
      EncodeAll(c, ReadAll(c, most, b, tail).frames) == b
    decreases |b|
  {
    AcceptedFrameReencodes(c, most, b, tail);
    match ReadFrame(c, most, b, tail)
    case NoFrame(_) =>
    case GotFrame(f, rest) =>
      AcceptedStreamReencodes(c, most, rest, tail);
      var more := ReadAll(c, most, rest, tail);
      assert ([f] + more.frames)[1..] == more.frames;
  }
}
