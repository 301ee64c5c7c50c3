/** The frame reader and writer as the programs run them: over a connection that
    gives up its bytes in order and may fail part way, a chunk at a time. */
module FrameIO {
  import opened Base
  import opened Frames

  /** A connection being written to.  It takes `room` more bytes and then fails,
      having sent as much of the last write as fitted. */
  class Writer {
    var sent: bytes
    var room: nat

    constructor (room: nat)
      ensures sent == [] && this.room == room
    {
      sent := [];
      this.room := room;
    }

    method Write(p: bytes) returns (ok: bool)
      modifies this
      ensures ok <==> |p| <= old(room)
      ensures ok ==> sent == old(sent) + p && room == old(room) - |p|
      ensures !ok ==> sent == old(sent) + p[..old(room)] && room == 0
    {
      ok := |p| <= room;
      if ok {
        sent := sent + p;
        room := room - |p|;
      } else {
        sent := sent + p[..room];
        room := 0;
      }
    }

    /** One frame, header first.  It succeeds exactly when the whole frame went
        out; otherwise what went out is a proper prefix of it, which is what
        leaves a reader torn rather than out of step. */
    method WriteFrame(c: Codec, kind: byte, at: Position, payload: bytes) returns (ok: bool)
      modifies this
      ensures ok <==> |Encode(c, Frame(kind, at, payload))| <= old(room)
      ensures ok ==> sent == old(sent) + Encode(c, Frame(kind, at, payload))
      ensures !ok ==> sent == old(sent) + Encode(c, Frame(kind, at, payload))[..old(room)]
      ensures room == if ok then old(room) - |Encode(c, Frame(kind, at, payload))| else 0
    {
      var header := Header(c, kind, at, |payload|);
      ghost var whole := header + payload;
      ok := Write(header);
      if !ok {
        assert whole[..old(room)] == header[..old(room)];
        return;
      }
      label headed:
      ok := Write(payload);
      if ok {
        assert old(sent) + header + payload == old(sent) + whole;
      } else {
        assert old(sent) + header + payload[..old@headed(room)] == old(sent) + whole[..old(room)];
      }
    }

    /** The one frame whose payload comes off a reader: a spooled snapshot.  Its
        length is promised before it is copied, so success means the promise was
        kept; a spool that is not the promised length is reported instead. */
    method WriteFrameFrom(c: Codec, kind: byte, at: Position, length: nat, spool: bytes) returns (ok: bool)
      modifies this
      ensures ok <==> |spool| == length && |Header(c, kind, at, length)| + length <= old(room)
      ensures ok ==> sent == old(sent) + Encode(c, Frame(kind, at, spool))
      ensures old(sent) <= sent <= old(sent) + Header(c, kind, at, length) + spool
    {
      var header := Header(c, kind, at, length);
      ok := Write(header);
      if !ok {
        return;
      }
      ok := Write(spool);
      if ok {
        ok := |spool| == length;
        assert old(sent) + header + spool == old(sent) + (header + spool);
      }
    }
  }

  /** A connection being read: the bytes still to come, and how it ends. */
  class Reader {
    var rest: bytes
    const tail: Tail

    constructor (rest: bytes, tail: Tail)
      ensures this.rest == rest && this.tail == tail
    {
      this.rest := rest;
      this.tail := tail;
    }

    /** All `n` bytes or none of them; a connection that ends first is consumed. */
    method ReadFull(n: nat) returns (r: Result<bytes, Error>)
      modifies this
      ensures r == if |old(rest)| >= n then Ok(old(rest)[..n]) else Err(Short(|old(rest)|, tail))
      ensures rest == if |old(rest)| >= n then old(rest)[n..] else []
    {
      if |rest| >= n {
        r := Ok(rest[..n]);
        rest := rest[n..];
      } else {
        r := Err(Short(|rest|, tail));
        rest := [];
      }
    }

    method TakeHeader(c: Codec, most: int) returns (r: HeaderRead)
      modifies this
      ensures r == ReadHeader(c, most, old(rest), tail)
      ensures rest == if |old(rest)| >= c.HeaderSize() then old(rest)[c.HeaderSize()..] else []
    {
      ghost var was := rest;
      var got := ReadFull(c.HeaderSize());
      match got
      case Err(e) => return NoHeader(e);
      case Ok(header) =>
        assert header[1..1 + c.size] == was[1..1 + c.size];
        match c.unmarshal(header[1..1 + c.size]) {
          case None => return NoHeader(BadPosition);
          case Some(at) =>
            var length := FromLittleEndian(header[1 + c.size..]);
            assert header[1 + c.size..] == was[1 + c.size..c.HeaderSize()];
            if most < 0 || length > most || length > MAX_INT64 {
              return NoHeader(TooLarge);
            }
            return GotHeader(header[0], at, length);
        }
    }

    /** The payload a header promised, grown into a chunk at a time.  However
        many chunks it takes the answer is the next `length` bytes, or an error
        that is never the clean end of a stream.  `asked` is the most room it
        ever asked for, which a header cannot talk up: it stays within a chunk of
        what really arrived. */
    method TakePayload(length: nat) returns (r: Result<bytes, Error>, asked: nat)
      modifies this
      ensures r == if |old(rest)| >= length then Ok(old(rest)[..length])
                   else Err(if tail == Failed then Broken else Torn)
      ensures rest == if |old(rest)| >= length then old(rest)[length..] else []
      ensures asked <= length && asked <= |old(rest)| + 0x1_0000
    {
      ghost var was := rest;
      var payload: bytes := [];
      asked := 0;
      while |payload| < length
        invariant |payload| <= length && |payload| <= |was|
        invariant payload == was[..|payload|]
        invariant rest == was[|payload|..]
        invariant asked <= |payload|
        decreases length - |payload|
      {
        var room := if length - |payload| < CHUNK then length - |payload| else CHUNK;
        asked := |payload| + room;
        var got := ReadFull(room);
        match got
        case Err(e) => return Err(if e == Eof then Torn else e), asked;
        case Ok(chunk) =>
          payload := payload + chunk;
      }
      return Ok(payload), asked;
    }

    method TakeFrame(c: Codec, most: int) returns (r: FrameRead)
      modifies this
      ensures r == ReadFrame(c, most, old(rest), tail)
      ensures r.GotFrame? ==> rest == r.rest
    {
      var header := TakeHeader(c, most);
      match header
      case NoHeader(e) => return NoFrame(e);
      case GotHeader(kind, at, length) =>
        var payload, _ := TakePayload(length);
        match payload {
          case Err(e) => return NoFrame(e);
          case Ok(p) => return GotFrame(Frame(kind, at, p), rest);
        }
    }
  }
}
