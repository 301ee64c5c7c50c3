/** The follower's half of replication: one connection's frames applied to a
    store, and the positions told back to the leader. */
module Following {
  import opened Base
  import opened Frames
  import opened FrameIO
  import opened Engine

  datatype State = State(store: Store, told: seq<Position>)

  /** Why a connection stopped being read. */
  datatype End = Ended(error: Error) | Refused(why: Refusal) | LoadedHeartbeat | UnknownKind

  datatype Outcome = Outcome(state: State, end: Option<End>)

  function Told(s: State, store: Store): State {
    State(store, s.told + [store.applied])
  }

  /** A snapshot taken straight off the connection, whole or cut short.  An error
      of the connection's own comes before whatever the store made of it. */
  function Take(e: Engine, s: State, at: Position, body: bytes, length: nat, tail: Tail): Outcome {
    var whole := length <= |body|;
    var took := ApplySnapshot(e, s.store, at, if whole then body[..length] else body, whole);
    if !whole && tail == Failed then Outcome(s.(store := took.store), Some(Ended(Broken)))
    else
      match took.refused
      case Some(why) => Outcome(s.(store := took.store), Some(Refused(why)))
      case None => Outcome(Told(s, took.store), None)
  }

  function TakeBatch(e: Engine, s: State, next: Position, payload: bytes): Outcome {
    match Apply(e, s.store, s.store.applied, next, payload)
    case Err(why) => Outcome(s, Some(Refused(why)))
    case Ok(store) => Outcome(Told(s, store), None)
  }

  /** One whole frame. */
  function Deliver(e: Engine, s: State, f: Frame): Outcome {
    if f.kind == HEARTBEAT then
      Outcome(s, if f.payload != [] then Some(LoadedHeartbeat) else None)
    else if f.kind == SNAPSHOT then Take(e, s, f.at, f.payload, |f.payload|, Closed)
    else if f.kind == BATCH then TakeBatch(e, s, f.at, f.payload)
    else Outcome(s, Some(UnknownKind))
  }

  function DeliverAll(e: Engine, s: State, fs: seq<Frame>): Outcome
    decreases |fs|
  {
    if fs == [] then Outcome(s, None)
    else
      var first := Deliver(e, s, fs[0]);
      if first.end.Some? then first else DeliverAll(e, first.state, fs[1..])
  }

  datatype Handled = Handled(out: Outcome, rest: bytes)

  /** What follows a header: its payload, as much of it as there is. */
  function Handle(e: Engine, s: State, kind: byte, at: Position, length: nat, body: bytes, tail: Tail): (r: Handled)
    ensures |r.rest| <= |body|
  {
    var whole := length <= |body|;
    var rest := if whole then body[length..] else [];
    if kind == HEARTBEAT then
      if length != 0 then Handled(Outcome(s, Some(LoadedHeartbeat)), body) else Handled(Outcome(s, None), body)
    else if kind == SNAPSHOT then Handled(Take(e, s, at, body, length, tail), rest)
    else if kind == BATCH then
      if whole then Handled(TakeBatch(e, s, at, body[..length]), rest)
      else Handled(Outcome(s, Some(Ended(if tail == Failed then Broken else Torn))), rest)
    else Handled(Outcome(s, Some(UnknownKind)), body)
  }

  /** A whole connection, byte for byte. */
  function Connection(e: Engine, c: Codec, most: int, b: bytes, tail: Tail, s: State): Outcome
    decreases |b|
  {
    match ReadHeader(c, most, b, tail)
    case NoHeader(error) => Outcome(s, Some(Ended(error)))
    case GotHeader(kind, at, length) =>
      var h := Handle(e, s, kind, at, length, b[c.HeaderSize()..], tail);
      if h.out.end.Some? then h.out else Connection(e, c, most, h.rest, tail, h.out.state)
  }

  /** A snapshot cut short: nothing is told, and the store is emptied unless it has
      heard of a newer leader, which it would not have listened to this one for; the
      connection's own failure is what is reported, if it had one. */
  lemma TornSnapshot(e: Engine, s: State, at: Position, body: bytes, length: nat, tail: Tail)
    requires |body| < length
    ensures var out := Take(e, s, at, body, length, tail);
      && out.state.told == s.told
      && out.state.store == (if at.term < s.store.term then s.store else Store(map[], ZERO, s.store.term, ZERO, []))
      && out.end == Some(if tail == Failed then Ended(Broken) else Refused(if at.term < s.store.term then Fenced else Corrupt))
  {
  }

  /** A batch is taken or it is not: one the store refuses changes nothing, is not told
      of and ends the stream, and one it takes is told of at once. */
  lemma BatchesAreTakenWhole(e: Engine, s: State, f: Frame)
    requires f.kind == 'B' as int
    ensures var applied := Apply(e, s.store, s.store.applied, f.at, f.payload);
      Deliver(e, s, f) == match applied
        case Err(why) => Outcome(s, Some(Refused(why)))
        case Ok(store) => Outcome(State(store, s.told + [f.at]), None)
  {
  }

  /** The three kinds there are; any other ends the stream and changes nothing. */
  lemma OtherKindsEndTheStream(e: Engine, s: State, f: Frame)
    requires f.kind != 'S' as int && f.kind != 'B' as int && f.kind != 'H' as int
    ensures Deliver(e, s, f) == Outcome(s, Some(UnknownKind))
  {
  }

  /** The follower as it runs: a store updated in place, frame by frame, off a
      connection consumed as it is read. */
  class Follower {
    var store: Store
    var told: seq<Position>
    const engine: Engine
    const codec: Codec
    const most: int

    constructor (engine: Engine, codec: Codec, most: int, store: Store)
      ensures this.engine == engine && this.codec == codec && this.most == most
      ensures this.store == store && told == []
    {
      this.engine, this.codec, this.most := engine, codec, most;
      this.store, told := store, [];
    }

    function Now(): State
      reads this
    {
      State(store, told)
    }

    method Tell(at: Position)
      modifies this`told
      ensures told == old(told) + [at]
    {
      told := told + [at];
    }

    /** Reads the connection to its end.  The store and what was told are exactly
        what `Connection` says of the bytes that were there. */
    method Stream(r: Reader) returns (end: End)
      modifies this, r
      ensures Connection(engine, codec, most, old(r.rest), r.tail, old(Now())) == Outcome(Now(), Some(end))
    {
      ghost var all := Connection(engine, codec, most, r.rest, r.tail, Now());
      while true
        invariant Connection(engine, codec, most, r.rest, r.tail, Now()) == all
        decreases |r.rest|
      {
        ghost var body := if |r.rest| >= codec.HeaderSize() then r.rest[codec.HeaderSize()..] else [];
        var header := r.TakeHeader(codec, most);
        if header.NoHeader? {
          return Ended(header.error);
        }
        var GotHeader(kind, next, length) := header;
        if kind == HEARTBEAT {
          if length != 0 {
            return LoadedHeartbeat;
          }
        } else if kind == SNAPSHOT {
          var taken := TakeSnapshot(r, next, length);
          if taken.Some? {
            return taken.value;
          }
        } else if kind == BATCH {
          var read, _ := r.TakePayload(length);
          if read.Err? {
            return Ended(read.error);
          }
          var from := store.applied;
          var applied := Apply(engine, store, from, next, read.value);
          if applied.Err? {
            return Refused(applied.error);
          }
          store := applied.value;
          Tell(store.applied);
        } else {
          return UnknownKind;
        }
      }
    }

    /** The snapshot's own read: the store is given what there is, the rest is
        drained, and a connection error outranks the store's. */
    method TakeSnapshot(r: Reader, at: Position, length: nat) returns (end: Option<End>)
      modifies this, r
      ensures Take(engine, old(Now()), at, old(r.rest), length, r.tail) == Outcome(Now(), end)
      ensures end.None? ==> |old(r.rest)| >= length && r.rest == old(r.rest)[length..]
    {
      var whole := length <= |r.rest|;
      var payload := if whole then r.rest[..length] else r.rest;
      r.rest := if whole then r.rest[length..] else [];
      var took := ApplySnapshot(engine, store, at, payload, whole);
      store := took.store;
      if !whole && r.tail == Failed {
        return Some(Ended(Broken));
      }
      if took.refused.Some? {
        return Some(Refused(took.refused.value));
      }
      Tell(store.applied);
      return None;
    }
  }

  // ----- bytes and frames say the same thing

  /** The effect of a frame of which only the first `m` bytes arrived: none at
      all, unless the header of a snapshot was among them, which empties the
      store. */
  function Cut(e: Engine, c: Codec, s: State, f: Frame, m: nat, tail: Tail): Outcome
    requires m < |Encode(c, f)|
  {
    if m < c.HeaderSize() then Outcome(s, Some(Ended(Short(m, tail))))
    else if f.kind == HEARTBEAT then Outcome(s, Some(LoadedHeartbeat))
    else if f.kind == SNAPSHOT then
      var took := ApplySnapshot(e, s.store, f.at, [], false);
      Outcome(s.(store := took.store), Some(if tail == Failed then Ended(Broken) else Refused(took.refused.value)))
    else if f.kind == BATCH then Outcome(s, Some(Ended(if tail == Failed then Broken else Torn)))
    else Outcome(s, Some(UnknownKind))
  }

  /** Whole frames, and then the beginning of one more or the end. */
  function DeliverCut(e: Engine, c: Codec, s: State, fs: seq<Frame>, n: nat, tail: Tail): Outcome
    requires n <= |EncodeAll(c, fs)|
    decreases |fs|
  {
    if fs == [] then Outcome(s, Some(Ended(Short(0, tail))))
    else if n < |Encode(c, fs[0])| then Cut(e, c, s, fs[0], n, tail)
    else
      var first := Deliver(e, s, fs[0]);
      if first.end.Some? then first
      else DeliverCut(e, c, first.state, fs[1..], n - |Encode(c, fs[0])|, tail)
  }

  lemma WholeFrameHandled(e: Engine, s: State, f: Frame, body: bytes, rest: bytes, tail: Tail)
    requires body == f.payload + rest
    ensures Handle(e, s, f.kind, f.at, |f.payload|, body, tail).out == Deliver(e, s, f)
    ensures Deliver(e, s, f).end.None? ==> Handle(e, s, f.kind, f.at, |f.payload|, body, tail).rest == rest
  {
    assert body[..|f.payload|] == f.payload && body[|f.payload|..] == rest;
    assert f.payload[..|f.payload|] == f.payload;
    if f.payload == [] {
      assert body == rest;
    }
  }

  lemma ConnectionTakesOne(e: Engine, c: Codec, most: int, f: Frame, rest: bytes, tail: Tail, s: State)
    requires Fits(c, f, most)
    ensures var first := Deliver(e, s, f);
      Connection(e, c, most, Encode(c, f) + rest, tail, s) ==
        if first.end.Some? then first else Connection(e, c, most, rest, tail, first.state)
  {
    var b := Encode(c, f) + rest;
    assert b == Header(c, f.kind, f.at, |f.payload|) + (f.payload + rest);
    HeaderReadsBack(c, most, f.kind, f.at, |f.payload|, f.payload + rest, tail);
    WholeFrameHandled(e, s, f, f.payload + rest, rest, tail);
  }

  lemma ConnectionCutInsideAFrame(e: Engine, c: Codec, most: int, f: Frame, m: nat, tail: Tail, s: State)
    requires Fits(c, f, most)
    requires m < |Encode(c, f)|
    ensures Connection(e, c, most, Encode(c, f)[..m], tail, s) == Cut(e, c, s, f, m, tail)
  {
    var h := Header(c, f.kind, f.at, |f.payload|);
    HeaderReadsBack(c, most, f.kind, f.at, |f.payload|, f.payload, tail);
    if m >= |h| {
      assert Encode(c, f)[..m] == h + f.payload[..m - |h|];
      HeaderReadsBack(c, most, f.kind, f.at, |f.payload|, f.payload[..m - |h|], tail);
    }
  }

  lemma NothingArrives(e: Engine, c: Codec, most: int, tail: Tail, s: State)
    ensures Connection(e, c, most, [], tail, s) == Outcome(s, Some(Ended(Short(0, tail))))
  {
  }

  lemma CutConnectionStarts(e: Engine, c: Codec, most: int, fs: seq<Frame>, n: nat, tail: Tail, s: State)
    requires fs != [] && Fits(c, fs[0], most)
    requires n <= |EncodeAll(c, fs)|
    ensures var w := |Encode(c, fs[0])|;
      var first := Deliver(e, s, fs[0]);
      Connection(e, c, most, EncodeAll(c, fs)[..n], tail, s) ==
        if n < w then Cut(e, c, s, fs[0], n, tail)
        else if first.end.Some? then first
        else Connection(e, c, most, EncodeAll(c, fs[1..])[..n - w], tail, first.state)
  {
    CutSplits(c, fs, n);
    if n < |Encode(c, fs[0])| {
      ConnectionCutInsideAFrame(e, c, most, fs[0], n, tail, s);
    } else {
      ConnectionTakesOne(e, c, most, fs[0], EncodeAll(c, fs[1..])[..n - |Encode(c, fs[0])|], tail, s);
    }
  }

  /** A connection cut at any byte does what the whole frames before the cut do,
      and then what the cut frame does: nothing, or an emptied store. */
  lemma {:induction false} ConnectionDeliversFrames(e: Engine, c: Codec, most: int, fs: seq<Frame>, n: nat, tail: Tail,
                                  s: State)
    requires forall i :: 0 <= i < |fs| ==> Fits(c, fs[i], most)
    requires n <= |EncodeAll(c, fs)|
    ensures Connection(e, c, most, EncodeAll(c, fs)[..n], tail, s) == DeliverCut(e, c, s, fs, n, tail)
    decreases |fs|
  {
    hide ReadHeader, Handle, Deliver, Cut;
    if fs == [] {
      assert EncodeAll(c, fs)[..n] == [];
      NothingArrives(e, c, most, tail, s);
      return;
    }
    CutConnectionStarts(e, c, most, fs, n, tail, s);
    if n < |Encode(c, fs[0])| {
      return;
    }
    var first := Deliver(e, s, fs[0]);
    if first.end.Some? {
      return;
    }
    ConnectionDeliversFrames(e, c, most, fs[1..], n - |Encode(c, fs[0])|, tail, first.state);
  }

  /** An uncut connection does what its frames do. */
  lemma {:induction false} WholeConnectionDeliversAll(e: Engine, c: Codec, most: int, fs: seq<Frame>, rest: bytes, tail: Tail,
                                                      s: State)
    requires forall i :: 0 <= i < |fs| ==> Fits(c, fs[i], most)
    ensures var ran := DeliverAll(e, s, fs);
      Connection(e, c, most, EncodeAll(c, fs) + rest, tail, s) ==
        if ran.end.Some? then ran else Connection(e, c, most, rest, tail, ran.state)
    decreases |fs|
  {
    if fs == [] {
      assert EncodeAll(c, fs) + rest == rest;
    } else {
      var more := EncodeAll(c, fs[1..]) + rest;
      assert EncodeAll(c, fs) + rest == Encode(c, fs[0]) + more;
      ConnectionTakesOne(e, c, most, fs[0], more, tail, s);
      var first := Deliver(e, s, fs[0]);
      if first.end.None? {
        WholeConnectionDeliversAll(e, c, most, fs[1..], rest, tail, first.state);
      }
    }
  }

  // ----- heartbeats

  predicate Beat(f: Frame) {
    f.kind == HEARTBEAT && f.payload == []
  }

  function Beatless(fs: seq<Frame>): (r: seq<Frame>)
    ensures forall f :: f in r ==> f in fs
  {
    if fs == [] then []
    else if Beat(fs[0]) then Beatless(fs[1..])
    else [fs[0]] + Beatless(fs[1..])
  }

  /** Where a stream cut at `n` is cut once its heartbeats are taken out: after the
      same bytes of everything else. */
  function CutWithout(c: Codec, fs: seq<Frame>, n: nat): nat {
    if fs == [] then 0
    else
      var w := |Encode(c, fs[0])|;
      if n < w then (if Beat(fs[0]) then 0 else n)
      else (if Beat(fs[0]) then 0 else w) + CutWithout(c, fs[1..], n - w)
  }

  /** Whether the cut is inside a heartbeat, with some of it there. */
  predicate InsideABeat(c: Codec, fs: seq<Frame>, n: nat) {
    fs != [] &&
    var w := |Encode(c, fs[0])|;
    if n < w then Beat(fs[0]) && n > 0 else InsideABeat(c, fs[1..], n - w)
  }

  lemma {:induction false} CutsAreWithin(c: Codec, fs: seq<Frame>, n: nat)
    requires n <= |EncodeAll(c, fs)|
    ensures CutWithout(c, fs, n) <= |EncodeAll(c, Beatless(fs))|
    ensures n == |EncodeAll(c, fs)| && (forall f :: f in fs ==> Encode(c, f) != []) ==>
      CutWithout(c, fs, n) == |EncodeAll(c, Beatless(fs))| && !InsideABeat(c, fs, n)
  {
    if fs != [] && n >= |Encode(c, fs[0])| {
      CutsAreWithin(c, fs[1..], n - |Encode(c, fs[0])|);
    } else if fs != [] && !Beat(fs[0]) {
      assert Beatless(fs)[0] == fs[0];
    }
  }

  /** The same state; and the same end, but that a stream torn inside a heartbeat
      would have ended cleanly without it. */
  predicate SameButForABeat(with: Outcome, without: Outcome, inside: bool) {
    && with.state == without.state
    && (with.end == without.end || (inside && with.end == Some(Ended(Torn)) && without.end == Some(Ended(Eof))))
  }

  lemma NothingOfTheNext(e: Engine, c: Codec, s: State, fs: seq<Frame>, tail: Tail)
    requires forall i :: 0 <= i < |fs| ==> |Encode(c, fs[i])| > 0
    ensures DeliverCut(e, c, s, fs, 0, tail) == Outcome(s, Some(Ended(Short(0, tail))))
  {
    if fs != [] {
      assert |Encode(c, fs[0])| > 0;
    }
  }

  lemma PastTheFirst(e: Engine, c: Codec, s: State, fs: seq<Frame>, n: nat, tail: Tail)
    requires fs != [] && |Encode(c, fs[0])| <= n <= |EncodeAll(c, fs)|
    ensures n - |Encode(c, fs[0])| <= |EncodeAll(c, fs[1..])|
    ensures var first := Deliver(e, s, fs[0]);
      DeliverCut(e, c, s, fs, n, tail) ==
        if first.end.Some? then first else DeliverCut(e, c, first.state, fs[1..], n - |Encode(c, fs[0])|, tail)
  {
    hide Deliver, Cut, Encode;
  }

  lemma CutInTheFirst(e: Engine, c: Codec, most: int, s: State, fs: seq<Frame>, n: nat, tail: Tail)
    requires forall i :: 0 <= i < |fs| ==> Fits(c, fs[i], most)
    requires fs != [] && n < |Encode(c, fs[0])| && CutWithout(c, fs, n) <= |EncodeAll(c, Beatless(fs))|
    ensures n <= |EncodeAll(c, fs)|
    ensures SameButForABeat(DeliverCut(e, c, s, fs, n, tail), DeliverCut(e, c, s, Beatless(fs), CutWithout(c, fs, n), tail),
                            InsideABeat(c, fs, n))
  {
    hide Deliver;
    if Beat(fs[0]) {
      forall i | 0 <= i < |Beatless(fs)| ensures |Encode(c, Beatless(fs)[i])| > 0 {
        assert Beatless(fs)[i] in fs;
      }
      NothingOfTheNext(e, c, s, Beatless(fs), tail);
    } else {
      assert Beatless(fs)[0] == fs[0];
      hide Cut;
    }
  }

  /** What one frame more does to the stream and to the stream without heartbeats. */
  lemma OneFrameMore(e: Engine, c: Codec, s: State, fs: seq<Frame>, n: nat, tail: Tail)
    requires fs != [] && |Encode(c, fs[0])| <= n <= |EncodeAll(c, fs)|
    requires CutWithout(c, fs, n) <= |EncodeAll(c, Beatless(fs))|
    ensures var first, rest, m := Deliver(e, s, fs[0]), fs[1..], n - |Encode(c, fs[0])|;
      && m <= |EncodeAll(c, rest)| && CutWithout(c, rest, m) <= |EncodeAll(c, Beatless(rest))|
      && InsideABeat(c, fs, n) == InsideABeat(c, rest, m)
      && (Beat(fs[0]) ==> first == Outcome(s, None))
      && DeliverCut(e, c, s, Beatless(fs), CutWithout(c, fs, n), tail) ==
           if first.end.Some? then first else DeliverCut(e, c, first.state, Beatless(rest), CutWithout(c, rest, m), tail)
  {
    hide Cut, Encode, DeliverCut;
    var rest := fs[1..];
    if Beat(fs[0]) {
      BeatIsNothing(e, s, fs[0]);
      hide Deliver;
      assert Beatless(fs) == Beatless(rest);
    } else {
      hide Deliver;
      assert Beatless(fs)[0] == fs[0] && Beatless(fs)[1..] == Beatless(rest);
      PastTheFirst(e, c, s, Beatless(fs), CutWithout(c, fs, n), tail);
    }
  }

  lemma {:induction false} BeatsDeliverNothing(e: Engine, c: Codec, most: int, s: State, fs: seq<Frame>, n: nat, tail: Tail)
    requires forall i :: 0 <= i < |fs| ==> Fits(c, fs[i], most)
    requires n <= |EncodeAll(c, fs)| && CutWithout(c, fs, n) <= |EncodeAll(c, Beatless(fs))|
    ensures SameButForABeat(DeliverCut(e, c, s, fs, n, tail), DeliverCut(e, c, s, Beatless(fs), CutWithout(c, fs, n), tail),
                            InsideABeat(c, fs, n))
    decreases |fs|
  {
    hide Deliver, Cut, Fits, DeliverCut, Encode, EncodeAll, Beatless, CutWithout, InsideABeat, SameButForABeat;
    if fs == [] {
      NoFramesAtAll(e, c, s, n, tail);
      return;
    }
    var w := |Encode(c, fs[0])|;
    if n < w {
      CutInTheFirst(e, c, most, s, fs, n, tail);
    } else {
      PastTheFirst(e, c, s, fs, n, tail);
      OneFrameMore(e, c, s, fs, n, tail);
      var first := Deliver(e, s, fs[0]);
      if first.end.Some? {
        SameIsSame(first, InsideABeat(c, fs, n));
      } else {
        BeatsDeliverNothing(e, c, most, first.state, fs[1..], n - w, tail);
      }
    }
  }

  lemma NoFramesAtAll(e: Engine, c: Codec, s: State, n: nat, tail: Tail)
    requires n <= |EncodeAll(c, [])| && CutWithout(c, [], n) <= |EncodeAll(c, Beatless([]))|
    ensures SameButForABeat(DeliverCut(e, c, s, [], n, tail), DeliverCut(e, c, s, Beatless([]), CutWithout(c, [], n), tail),
                            InsideABeat(c, [], n))
  {
  }

  lemma SameIsSame(o: Outcome, inside: bool)
    ensures SameButForABeat(o, o, inside)
  {
  }

  lemma BeatIsNothing(e: Engine, s: State, f: Frame)
    requires Beat(f)
    ensures Deliver(e, s, f) == Outcome(s, None)
  {
  }

  /** A follower's whole result - contents, applied position, what it told and why it
      stopped - is that of the stream with every heartbeat taken out, however many
      the leader sent and wherever, and at whatever byte and however it is cut; only
      a cut inside a heartbeat is a torn stream where there would have been a clean
      end. */
  lemma HeartbeatsChangeNothing(e: Engine, c: Codec, most: int, fs: seq<Frame>, n: nat, tail: Tail, s: State)
    requires forall i :: 0 <= i < |fs| ==> Fits(c, fs[i], most)
    requires n <= |EncodeAll(c, fs)|
    ensures CutWithout(c, fs, n) <= |EncodeAll(c, Beatless(fs))|
    ensures SameButForABeat(Connection(e, c, most, EncodeAll(c, fs)[..n], tail, s),
                            Connection(e, c, most, EncodeAll(c, Beatless(fs))[..CutWithout(c, fs, n)], tail, s),
                            InsideABeat(c, fs, n))
    ensures n == |EncodeAll(c, fs)| ==> CutWithout(c, fs, n) == |EncodeAll(c, Beatless(fs))| && !InsideABeat(c, fs, n)
  {
    forall i | 0 <= i < |Beatless(fs)| ensures Fits(c, Beatless(fs)[i], most) {
      assert Beatless(fs)[i] in fs;
    }
    CutsAreWithin(c, fs, n);
    hide Connection, DeliverCut, Beatless, CutWithout, InsideABeat, EncodeAll, SameButForABeat;
    BeatsDeliverNothing(e, c, most, s, fs, n, tail);
    ConnectionDeliversFrames(e, c, most, fs, n, tail, s);
    ConnectionDeliversFrames(e, c, most, Beatless(fs), CutWithout(c, fs, n), tail, s);
  }

  /** A heartbeat claiming bytes ends the connection with the state of the frames
      before it, whatever those bytes are and whether or not they arrive. */
  lemma LoadedHeartbeatEndsTheStream(e: Engine, c: Codec, most: int, fs: seq<Frame>, at: Position,
                                     length: nat, junk: bytes, tail: Tail, s: State)
    requires forall i :: 0 <= i < |fs| ==> Fits(c, fs[i], most)
    requires 0 < length <= most && length <= MAX_INT64 && ReadsBack(c, at)
    requires DeliverAll(e, s, fs).end.None?
    ensures Connection(e, c, most, EncodeAll(c, fs) + (Header(c, HEARTBEAT, at, length) + junk), tail, s) ==
            Outcome(DeliverAll(e, s, fs).state, Some(LoadedHeartbeat))
  {
    WholeConnectionDeliversAll(e, c, most, fs, Header(c, HEARTBEAT, at, length) + junk, tail, s);
    HeaderReadsBack(c, most, HEARTBEAT, at, length, junk, tail);
  }
}
