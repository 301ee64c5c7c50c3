/** The replication stream as a state machine: leaders, one follower and the
    connection between them, over every interleaving of writes, compaction,
    promotions, batches, snapshots, heartbeats, cuts at any byte and restarts.

    One leader is assumed to a term, which is what `Failover` is about.  A
    leader's log is kept whole here; `floor` is how much of it compaction has
    made unreadable. */
module Replication {
  import opened Base
  import opened Frames
  import opened Engine
  import opened Following

  datatype Leader = Leader(log: seq<Op>, floor: nat)

  type Leaders = map<nat, Leader>

  /** The leader's end of a stream: a snapshot spooled and not yet sent, or the
      position it will read from next. */
  datatype Cursor = Spooled(at: Position, payload: bytes) | Sent(upto: Position)

  datatype Link = Down | Up(term: nat, cursor: Cursor, wire: seq<Frame>)

  /** `orphan` is what the follower's store held before it ever followed. */
  datatype World = World(leaders: Leaders, me: State, link: Link, orphan: Contents)

  /** The engine's formats, the position's, and the largest frame taken. */
  datatype Setting = Setting(engine: Engine, codec: Codec, most: int)

  /** Where a leader on this term is once it holds `n` records. */
  function After(term: nat, n: nat): Position {
    Position(term, n + 1)
  }

  ghost predicate Holds(ls: Leaders, p: Position) {
    p.term in ls && 1 <= p.next && p.next - 1 <= |ls[p.term].log|
  }

  /** What a position stands for: that many of its leader's operations. */
  function Prefix(ls: Leaders, p: Position): seq<Op>
    requires Holds(ls, p)
  {
    ls[p.term].log[..p.next - 1]
  }

  /** A position that is on the history of the leader of `term`, whichever leader
      it was first reached under. */
  ghost predicate OnHistory(ls: Leaders, term: nat, p: Position) {
    && Holds(ls, p) && p.term <= term && term in ls
    && p.next - 1 <= |ls[term].log|
    && ls[term].log[..p.next - 1] == Prefix(ls, p)
  }

  ghost predicate Usable(ls: Leaders, term: nat, p: Position) {
    OnHistory(ls, term, p) && ls[term].floor <= p.next - 1
  }

  /** A snapshot's payload: live records that replay to the same map as the log.
      Which records, and how many, is the engine's business. */
  ghost predicate SnapshotOf(e: Engine, log: seq<Op>, payload: bytes) {
    e.snapshot(payload).Some? && Replay(map[], e.snapshot(payload).value) == Replay(map[], log)
  }

  datatype Event =
    | Promoted(term: nat, log: seq<Op>) // a new leader, with whatever log it has
    | Written(term: nat, op: Op)
    | Compacted(term: nat, floor: nat)
    | Dialled(term: nat, payload: bytes) // whichever leader the address named
    | SnapshotSent
    | BatchSent(n: nat, payload: bytes)
    | BeatSent
    | Stranded(payload: bytes) // divergence, answered by another snapshot
    | Received
    | CutAfter(n: nat, tail: Tail) // any number of bytes arrive and no more
    | Restarted

  function Spool(w: World, term: nat, payload: bytes): Cursor
    requires term in w.leaders
  {
    Spooled(After(term, |w.leaders[term].log|), payload)
  }

  ghost predicate Enabled(x: Setting, w: World, ev: Event) {
    match ev
    case Promoted(t, log) => forall u :: u in w.leaders ==> u < t
    case Written(t, op) => t in w.leaders
    case Compacted(t, floor) => t in w.leaders && floor <= |w.leaders[t].log|
    case Dialled(t, payload) =>
      && w.link.Down? && t in w.leaders
      && w.me.store.applied.term <= t
      && (w.me.store.applied == ZERO ==> SnapshotOf(x.engine, w.leaders[t].log, payload))
    case SnapshotSent =>
      && w.link.Up? && w.link.cursor.Spooled?
      && Fits(x.codec, Frame(SNAPSHOT, w.link.cursor.at, w.link.cursor.payload), x.most)
    case BatchSent(n, payload) =>
      && w.link.Up? && w.link.cursor.Sent? && w.link.term in w.leaders
      && Usable(w.leaders, w.link.term, w.link.cursor.upto)
      && (var log := w.leaders[w.link.term].log;
          var from := w.link.cursor.upto;
          && from.next - 1 <= n <= |log|
          && x.engine.batch(payload) == Some(Numbered(log[from.next - 1..n], from.next))
          && Fits(x.codec, Frame(BATCH, After(w.link.term, n), payload), x.most))
    case BeatSent =>
      && w.link.Up? && w.link.term in w.leaders
      && Fits(x.codec, Frame(HEARTBEAT, After(w.link.term, |w.leaders[w.link.term].log|), []), x.most)
    case Stranded(payload) =>
      && w.link.Up? && w.link.cursor.Sent? && w.link.term in w.leaders
      && !Usable(w.leaders, w.link.term, w.link.cursor.upto)
      && SnapshotOf(x.engine, w.leaders[w.link.term].log, payload)
    case Received => w.link.Up? && w.link.wire != []
    case CutAfter(n, tail) => w.link.Up? && n <= |EncodeAll(x.codec, w.link.wire)|
    case Restarted => true
  }

  function Send(w: World, f: Frame, cursor: Cursor): World
    requires w.link.Up?
  {
    w.(link := w.link.(wire := w.link.wire + [f], cursor := cursor))
  }

  ghost function Step(x: Setting, w: World, ev: Event): World
    requires Enabled(x, w, ev)
  {
    match ev
    case Promoted(t, log) => w.(leaders := w.leaders[t := Leader(log, 0)])
    case Written(t, op) =>
      w.(leaders := w.leaders[t := w.leaders[t].(log := w.leaders[t].log + [op])])
    case Compacted(t, floor) => w.(leaders := w.leaders[t := w.leaders[t].(floor := floor)])
    case Dialled(t, payload) =>
      var from := w.me.store.applied;
      w.(link := Up(t, if from == ZERO then Spool(w, t, payload) else Sent(from), []))
    case SnapshotSent =>
      var Spooled(at, payload) := w.link.cursor;
      Send(w, Frame(SNAPSHOT, at, payload), Sent(at))
    case BatchSent(n, payload) =>
      var next := After(w.link.term, n);
      Send(w, Frame(BATCH, next, payload), Sent(next))
    case BeatSent =>
      var at := After(w.link.term, |w.leaders[w.link.term].log|);
      Send(w, Frame(HEARTBEAT, at, []), w.link.cursor)
    case Stranded(payload) => w.(link := w.link.(cursor := Spool(w, w.link.term, payload)))
    case Received =>
      var out := Deliver(x.engine, w.me, w.link.wire[0]);
      w.(me := out.state, link := if out.end.Some? then Down else w.link.(wire := w.link.wire[1..]))
    case CutAfter(n, tail) =>
      var came := EncodeAll(x.codec, w.link.wire)[..n];
      w.(me := Connection(x.engine, x.codec, x.most, came, tail, w.me).state, link := Down)
    case Restarted => w.(link := Down)
  }

  /** Any sequence of events, those that cannot happen being skipped. */
  ghost function Run(x: Setting, w: World, evs: seq<Event>): World
    decreases |evs|
  {
    if evs == [] then w
    else Run(x, if Enabled(x, w, evs[0]) then Step(x, w, evs[0]) else w, evs[1..])
  }

  // ----- what every step keeps

  /** What a store that has taken something holds: exactly its leader's records up
      to where it says it is, each taken once since its last snapshot. */
  ghost predicate Faithful(ls: Leaders, st: Store) {
    && Holds(ls, st.applied)
    && st.contents == Replay(map[], Prefix(ls, st.applied))
    && 1 <= st.base.next <= st.applied.next
    && st.tail == Prefix(ls, st.applied)[st.base.next - 1..]
  }

  ghost predicate StoreOk(w: World) {
    var st := w.me.store;
    if st.applied == ZERO then
      st.contents == map[] || (w.me.told == [] && st.contents == w.orphan)
    else Faithful(w.leaders, st)
  }

  function Newest(told: seq<Position>): Position {
    if told == [] then ZERO else told[|told| - 1]
  }

  /** The positions told to leaders only go up, and each was really held. */
  ghost predicate ToldOk(ls: Leaders, me: State) {
    && (forall i, j :: 0 <= i <= j < |me.told| ==> Reaches(me.told[j], me.told[i]))
    && (forall i :: 0 <= i < |me.told| ==> Holds(ls, me.told[i]))
    && Newest(me.told).term <= me.store.term
    && (me.store.applied != ZERO ==> me.told != [] && me.store.applied == Newest(me.told))
  }

  ghost predicate FrameOk(x: Setting, ls: Leaders, term: nat, cur: Position, f: Frame) {
    if f.kind == HEARTBEAT then f.payload == []
    else if f.kind == SNAPSHOT then
      && f.at.term == term && Holds(ls, f.at) && Reaches(f.at, cur)
      && SnapshotOf(x.engine, Prefix(ls, f.at), f.payload)
    else
      && f.kind == BATCH && f.at.term == term && Holds(ls, f.at)
      && OnHistory(ls, term, cur) && cur.next <= f.at.next
      && x.engine.batch(f.payload) == Some(Numbered(ls[term].log[cur.next - 1..f.at.next - 1], cur.next))
  }

  /** Where a frame leaves the follower, if it is taken. */
  function Leads(cur: Position, f: Frame): Position {
    if f.kind == HEARTBEAT then cur else f.at
  }

  function LeadsAll(cur: Position, fs: seq<Frame>): Position
    decreases |fs|
  {
    if fs == [] then cur else LeadsAll(Leads(cur, fs[0]), fs[1..])
  }

  /** The frames on the wire carry on from `cur`, or from an empty store: `torn`
      says it has nothing, and then a snapshot must come first. */
  ghost predicate WireOk(x: Setting, ls: Leaders, term: nat, cur: Position, torn: bool, fs: seq<Frame>)
    decreases |fs|
  {
    fs == [] ||
    (&& Fits(x.codec, fs[0], x.most)
     && FrameOk(x, ls, term, cur, fs[0])
     && (torn ==> fs[0].kind != BATCH)
     && WireOk(x, ls, term, Leads(cur, fs[0]), torn && fs[0].kind == HEARTBEAT, fs[1..]))
  }

  function TornAfter(torn: bool, fs: seq<Frame>): bool {
    if fs == [] then torn else TornAfter(torn && fs[0].kind == HEARTBEAT, fs[1..])
  }

  ghost predicate CursorOk(x: Setting, ls: Leaders, term: nat, cur: Position, torn: bool, cursor: Cursor) {
    match cursor
    case Sent(upto) => !torn && upto == cur && Holds(ls, cur) && cur.term <= term
    case Spooled(at, payload) =>
      at.term == term && Holds(ls, at) && Reaches(at, cur) && SnapshotOf(x.engine, Prefix(ls, at), payload)
  }

  /** A stream from a leader the follower's store has not been fenced against. */
  ghost predicate LinkOk(x: Setting, w: World) {
    w.link.Up? && w.me.store.term <= w.link.term ==>
      var cur := Newest(w.me.told);
      var torn := w.me.store.applied == ZERO;
      && w.link.term in w.leaders
      && WireOk(x, w.leaders, w.link.term, cur, torn, w.link.wire)
      && CursorOk(x, w.leaders, w.link.term, LeadsAll(cur, w.link.wire), TornAfter(torn, w.link.wire), w.link.cursor)
  }

  /** Everything on the wire is a frame a leader makes and a follower takes. */
  ghost predicate Plain(x: Setting, term: nat, fs: seq<Frame>) {
    forall i :: 0 <= i < |fs| ==>
      && Fits(x.codec, fs[i], x.most) && fs[i].at.term == term
      && (fs[i].kind == SNAPSHOT || fs[i].kind == BATCH || Beat(fs[i]))
  }

  ghost predicate Inv(x: Setting, w: World) {
    && StoreOk(w) && ToldOk(w.leaders, w.me) && LinkOk(x, w)
    && (w.link.Up? ==>
          && Plain(x, w.link.term, w.link.wire)
          && (w.link.cursor.Spooled? ==> w.link.cursor.at.term == w.link.term))
  }

  // ----- logs only grow, so nothing said of them is unsaid

  ghost predicate Grew(a: Leaders, b: Leaders) {
    forall t :: t in a ==> t in b && a[t].log <= b[t].log
  }

  lemma PrefixSurvives(a: Leaders, b: Leaders, p: Position)
    requires Grew(a, b) && Holds(a, p)
    ensures Holds(b, p) && Prefix(b, p) == Prefix(a, p)
  {
  }

  lemma FrameSurvives(x: Setting, a: Leaders, b: Leaders, term: nat, cur: Position, f: Frame)
    requires Grew(a, b) && FrameOk(x, a, term, cur, f)
    ensures FrameOk(x, b, term, cur, f)
  {
    if f.kind == SNAPSHOT {
      PrefixSurvives(a, b, f.at);
    } else if f.kind == BATCH {
      PrefixSurvives(a, b, f.at);
      PrefixSurvives(a, b, cur);
      PrefixSurvives(a, b, Position(term, cur.next));
      assert Prefix(b, f.at)[cur.next - 1..] == b[term].log[cur.next - 1..f.at.next - 1];
      assert Prefix(a, f.at)[cur.next - 1..] == a[term].log[cur.next - 1..f.at.next - 1];
    }
  }

  lemma {:induction false} WireSurvives(x: Setting, a: Leaders, b: Leaders, term: nat, cur: Position, torn: bool, fs: seq<Frame>)
    requires Grew(a, b) && WireOk(x, a, term, cur, torn, fs)
    ensures WireOk(x, b, term, cur, torn, fs)
    decreases |fs|
  {
    if fs != [] {
      FrameSurvives(x, a, b, term, cur, fs[0]);
      WireSurvives(x, a, b, term, Leads(cur, fs[0]), torn && fs[0].kind == HEARTBEAT, fs[1..]);
    }
  }

  lemma InvSurvives(x: Setting, w: World, ls: Leaders)
    requires Inv(x, w) && Grew(w.leaders, ls)
    ensures Inv(x, w.(leaders := ls))
  {
    forall p | Holds(w.leaders, p) ensures Holds(ls, p) && Prefix(ls, p) == Prefix(w.leaders, p) {
      PrefixSurvives(w.leaders, ls, p);
    }
    if w.link.Up? && w.me.store.term <= w.link.term {
      WireSurvives(x, w.leaders, ls, w.link.term, Newest(w.me.told), w.me.store.applied == ZERO, w.link.wire);
    }
  }

  // ----- the leader's end

  lemma {:induction false} WireAppends(x: Setting, ls: Leaders, term: nat, cur: Position, torn: bool, fs: seq<Frame>, f: Frame)
    requires WireOk(x, ls, term, cur, torn, fs)
    requires Fits(x.codec, f, x.most) && FrameOk(x, ls, term, LeadsAll(cur, fs), f)
    requires TornAfter(torn, fs) ==> f.kind != BATCH
    ensures WireOk(x, ls, term, cur, torn, fs + [f])
    ensures LeadsAll(cur, fs + [f]) == Leads(LeadsAll(cur, fs), f)
    ensures TornAfter(torn, fs + [f]) == (TornAfter(torn, fs) && f.kind == HEARTBEAT)
    decreases |fs|
  {
    if fs == [] {
      assert (fs + [f])[1..] == [];
    } else {
      WireAppends(x, ls, term, Leads(cur, fs[0]), torn && fs[0].kind == HEARTBEAT, fs[1..], f);
      assert (fs + [f])[1..] == fs[1..] + [f];
    }
  }

  lemma SendingKeeps(x: Setting, w: World, f: Frame, cursor: Cursor)
    requires Inv(x, w) && w.link.Up?
    requires Plain(x, w.link.term, [f]) && (cursor.Spooled? ==> cursor.at.term == w.link.term)
    requires w.me.store.term <= w.link.term ==>
      var cur := LeadsAll(Newest(w.me.told), w.link.wire);
      var torn := TornAfter(w.me.store.applied == ZERO, w.link.wire);
      && FrameOk(x, w.leaders, w.link.term, cur, f)
      && (torn ==> f.kind != BATCH)
      && CursorOk(x, w.leaders, w.link.term, Leads(cur, f), torn && f.kind == HEARTBEAT, cursor)
    ensures Inv(x, Send(w, f, cursor))
  {
    assert Fits(x.codec, [f][0], x.most);
    if w.me.store.term <= w.link.term {
      WireAppends(x, w.leaders, w.link.term, Newest(w.me.told), w.me.store.applied == ZERO, w.link.wire, f);
    }
  }

  // ----- the follower's end

  lemma SnapshotDelivers(x: Setting, ls: Leaders, term: nat, me: State, f: Frame)
    requires ToldOk(ls, me) && me.store.term <= term
    requires f.kind == SNAPSHOT && FrameOk(x, ls, term, Newest(me.told), f)
    ensures var out := Deliver(x.engine, me, f);
      && out.end.None? && out.state.told == me.told + [f.at]
      && Faithful(ls, out.state.store)
      && out.state.store.applied == f.at && out.state.store.term == term
  {
    assert f.payload[..|f.payload|] == f.payload;
    var st := Deliver(x.engine, me, f).state.store;
    assert Prefix(ls, f.at)[f.at.next - 1..] == [];
  }

  lemma LogExtends(log: seq<Op>, base: nat, from: nat, upto: nat)
    requires base <= from <= upto <= |log|
    ensures log[..upto][base..] == log[..from][base..] + log[from..upto]
    ensures Replay(map[], log[..upto]) == Replay(Replay(map[], log[..from]), log[from..upto])
  {
    assert log[..upto] == log[..from] + log[from..upto];
    ReplayConcat(map[], log[..from], log[from..upto]);
  }

  lemma BatchExtends(e: Engine, st: Store, log: seq<Op>, next: Position, payload: bytes)
    requires 1 <= st.base.next <= st.applied.next <= next.next && next.next - 1 <= |log|
    requires st.contents == Replay(map[], log[..st.applied.next - 1])
    requires st.tail == log[..st.applied.next - 1][st.base.next - 1..]
    requires st.term <= next.term
    requires e.batch(payload) == Some(Numbered(log[st.applied.next - 1..next.next - 1], st.applied.next))
    ensures Apply(e, st, st.applied, next, payload) ==
      Ok(Store(Replay(map[], log[..next.next - 1]), next, next.term, st.base, log[..next.next - 1][st.base.next - 1..]))
  {
    var from := st.applied.next - 1;
    NumberedCarriesOn(log[from..next.next - 1], from + 1);
    LogExtends(log, st.base.next - 1, from, next.next - 1);
  }

  lemma BatchDelivers(x: Setting, ls: Leaders, term: nat, me: State, f: Frame)
    requires Faithful(ls, me.store) && me.store.term <= term
    requires f.kind == BATCH && FrameOk(x, ls, term, me.store.applied, f)
    ensures var out := Deliver(x.engine, me, f);
      && out.end.None? && out.state.told == me.told + [f.at]
      && Faithful(ls, out.state.store)
      && out.state.store.applied == f.at && out.state.store.term == term
  {
    assert Prefix(ls, me.store.applied) == ls[term].log[..me.store.applied.next - 1];
    assert Prefix(ls, f.at) == ls[term].log[..f.at.next - 1];
    BatchExtends(x.engine, me.store, ls[term].log, f.at, f.payload);
  }

  /** Taking a frame that carries on leaves the follower faithful, and carrying on
      from where the frame leads. */
  lemma DeliveringKeeps(x: Setting, ls: Leaders, term: nat, me: State, orphan: Contents, f: Frame)
    requires StoreOk(World(ls, me, Down, orphan)) && ToldOk(ls, me)
    requires me.store.term <= term
    requires FrameOk(x, ls, term, Newest(me.told), f)
    requires me.store.applied == ZERO ==> f.kind != BATCH
    ensures var out := Deliver(x.engine, me, f);
      && out.end.None?
      && StoreOk(World(ls, out.state, Down, orphan)) && ToldOk(ls, out.state)
      && out.state.store.term <= term
      && Newest(out.state.told) == Leads(Newest(me.told), f)
      && (out.state.store.applied == ZERO <==> me.store.applied == ZERO && f.kind == HEARTBEAT)
  {
    if f.kind == SNAPSHOT {
      SnapshotDelivers(x, ls, term, me, f);
      TellingKeeps(ls, me, f.at);
    } else if f.kind == BATCH {
      BatchDelivers(x, ls, term, me, f);
      TellingKeeps(ls, me, f.at);
    }
  }

  lemma TellingKeeps(ls: Leaders, me: State, at: Position)
    requires ToldOk(ls, me) && Holds(ls, at) && Reaches(at, Newest(me.told))
    ensures var told := me.told + [at];
      && (forall i, j :: 0 <= i <= j < |told| ==> Reaches(told[j], told[i]))
      && (forall i :: 0 <= i < |told| ==> Holds(ls, told[i]))
      && Newest(told) == at
  {
  }

  /** A follower whose store has heard of a newer leader takes nothing from this
      one, whole or cut. */
  lemma {:induction false} FencedTakesNothing(x: Setting, me: State, term: nat, fs: seq<Frame>, n: nat, tail: Tail)
    requires Plain(x, term, fs) && term < me.store.term
    requires n <= |EncodeAll(x.codec, fs)|
    ensures fs != [] ==> Deliver(x.engine, me, fs[0]).state == me
    ensures DeliverCut(x.engine, x.codec, me, fs, n, tail).state == me
    decreases |fs|
  {
    if fs != [] {
      assert Deliver(x.engine, me, fs[0]).state == me;
      if |Encode(x.codec, fs[0])| <= n {
        FencedTakesNothing(x, me, term, fs[1..], n - |Encode(x.codec, fs[0])|, tail);
      }
    }
  }

  lemma CuttingKeeps(x: Setting, ls: Leaders, me: State, orphan: Contents, f: Frame, m: nat, tail: Tail)
    requires StoreOk(World(ls, me, Down, orphan)) && ToldOk(ls, me)
    requires m < |Encode(x.codec, f)|
    ensures var out := Cut(x.engine, x.codec, me, f, m, tail).state;
      StoreOk(World(ls, out, Down, orphan)) && ToldOk(ls, out)
  {
  }

  lemma {:induction false} CutStreamKeeps(x: Setting, ls: Leaders, term: nat, me: State, orphan: Contents,
                                          fs: seq<Frame>, n: nat, tail: Tail)
    requires StoreOk(World(ls, me, Down, orphan)) && ToldOk(ls, me)
    requires me.store.term <= term
    requires WireOk(x, ls, term, Newest(me.told), me.store.applied == ZERO, fs)
    requires n <= |EncodeAll(x.codec, fs)|
    ensures var out := DeliverCut(x.engine, x.codec, me, fs, n, tail).state;
      StoreOk(World(ls, out, Down, orphan)) && ToldOk(ls, out)
    decreases |fs|
  {
    hide StoreOk, FrameOk, Deliver, Cut;
    if fs == [] {
    } else if n < |Encode(x.codec, fs[0])| {
      CuttingKeeps(x, ls, me, orphan, fs[0], n, tail);
    } else {
      DeliveringKeeps(x, ls, term, me, orphan, fs[0]);
      var first := Deliver(x.engine, me, fs[0]);
      CutStreamKeeps(x, ls, term, first.state, orphan, fs[1..], n - |Encode(x.codec, fs[0])|, tail);
    }
  }

  // ----- every step, every run

  lemma LeaderStepKeeps(x: Setting, w: World, ev: Event)
    requires Inv(x, w) && Enabled(x, w, ev)
    requires ev.Promoted? || ev.Written? || ev.Compacted?
    ensures Inv(x, Step(x, w, ev))
  {
    InvSurvives(x, w, Step(x, w, ev).leaders);
  }

  lemma SnapshotSendKeeps(x: Setting, w: World)
    requires Inv(x, w) && Enabled(x, w, SnapshotSent)
    ensures Inv(x, Step(x, w, SnapshotSent))
  {
    var Spooled(at, payload) := w.link.cursor;
    var f := Frame(SNAPSHOT, at, payload);
    ReachesIsATotalOrder(at, at, at);
    SendingKeeps(x, w, f, Sent(at));
  }

  lemma BatchSendKeeps(x: Setting, w: World, n: nat, payload: bytes)
    requires Inv(x, w) && Enabled(x, w, BatchSent(n, payload))
    ensures Inv(x, Step(x, w, BatchSent(n, payload)))
  {
    var next := After(w.link.term, n);
    SendingKeeps(x, w, Frame(BATCH, next, payload), Sent(next));
  }

  lemma StreamStepKeeps(x: Setting, w: World, ev: Event)
    requires Inv(x, w) && Enabled(x, w, ev)
    requires ev.Dialled? || ev.SnapshotSent? || ev.BatchSent? || ev.BeatSent? || ev.Stranded?
    ensures Inv(x, Step(x, w, ev))
  {
    match ev
    case Dialled(t, payload) =>
      var log := w.leaders[t].log;
      assert Prefix(w.leaders, After(t, |log|)) == log;
    case SnapshotSent =>
      var Spooled(at, payload) := w.link.cursor;
      SnapshotSendKeeps(x, w);
    case BatchSent(n, payload) =>
      BatchSendKeeps(x, w, n, payload);
    case BeatSent =>
      var at := After(w.link.term, |w.leaders[w.link.term].log|);
      SendingKeeps(x, w, Frame(HEARTBEAT, at, []), w.link.cursor);
    case Stranded(payload) =>
      var log := w.leaders[w.link.term].log;
      assert Prefix(w.leaders, After(w.link.term, |log|)) == log;
  }

  lemma FollowerStepKeeps(x: Setting, w: World, ev: Event)
    requires Inv(x, w) && Enabled(x, w, ev)
    requires ev.Received? || ev.CutAfter? || ev.Restarted?
    ensures Inv(x, Step(x, w, ev))
  {
    if ev.Restarted? {
      return;
    }
    var Up(term, cursor, wire) := w.link;
    assert StoreOk(World(w.leaders, w.me, Down, w.orphan));
    if ev.CutAfter? {
      ConnectionDeliversFrames(x.engine, x.codec, x.most, wire, ev.n, ev.tail, w.me);
      if w.me.store.term <= term {
        CutStreamKeeps(x, w.leaders, term, w.me, w.orphan, wire, ev.n, ev.tail);
      } else {
        FencedTakesNothing(x, w.me, term, wire, ev.n, ev.tail);
      }
    } else if w.me.store.term <= term {
      DeliveringKeeps(x, w.leaders, term, w.me, w.orphan, wire[0]);
    } else {
      FencedTakesNothing(x, w.me, term, wire, 0, Closed);
    }
  }

  lemma StepKeeps(x: Setting, w: World, ev: Event)
    requires Inv(x, w) && Enabled(x, w, ev)
    ensures Inv(x, Step(x, w, ev)) && Step(x, w, ev).orphan == w.orphan
  {
    if ev.Promoted? || ev.Written? || ev.Compacted? {
      LeaderStepKeeps(x, w, ev);
    } else if ev.Received? || ev.CutAfter? || ev.Restarted? {
      FollowerStepKeeps(x, w, ev);
    } else {
      StreamStepKeeps(x, w, ev);
    }
  }

  lemma {:induction false} RunKeeps(x: Setting, w: World, evs: seq<Event>)
    requires Inv(x, w)
    ensures Inv(x, Run(x, w, evs)) && Run(x, w, evs).orphan == w.orphan
    decreases |evs|
  {
    if evs != [] {
      if Enabled(x, w, evs[0]) {
        StepKeeps(x, w, evs[0]);
        RunKeeps(x, Step(x, w, evs[0]), evs[1..]);
      } else {
        RunKeeps(x, w, evs[1..]);
      }
    }
  }

  /** Any leaders, and a store that has never followed anybody, holding anything. */
  ghost predicate Init(w: World) {
    && w.link == Down && w.me.told == []
    && w.me.store.applied == ZERO && w.me.store.contents == w.orphan
  }

  /** In every reachable state the follower holds exactly a replay of its
      leader's log up to its applied position, with no record skipped or taken
      twice; or it is at position zero, holding nothing (a snapshot is under way
      or was torn) or what it held before it first followed. */
  lemma FollowerHoldsAPrefix(x: Setting, w: World, evs: seq<Event>)
    requires Init(w)
    ensures var v := Run(x, w, evs);
      if v.me.store.applied == ZERO then
        v.me.store.contents == map[] || (v.me.told == [] && v.me.store.contents == w.orphan)
      else Faithful(v.leaders, v.me.store)
  {
    RunKeeps(x, w, evs);
  }

  /** A follower that has taken everything its leader had to send holds what the
      leader does. */
  lemma CaughtUpIsEqual(x: Setting, w: World, evs: seq<Event>)
    requires Init(w)
    requires var v := Run(x, w, evs);
      && v.link.Up? && v.link.wire == [] && v.me.store.term <= v.link.term && v.link.term in v.leaders
      && v.link.cursor == Sent(After(v.link.term, |v.leaders[v.link.term].log|))
    ensures var v := Run(x, w, evs);
      v.me.store.contents == Replay(map[], v.leaders[v.link.term].log)
  {
    RunKeeps(x, w, evs);
    var v := Run(x, w, evs);
    var log := v.leaders[v.link.term].log;
    assert Prefix(v.leaders, After(v.link.term, |log|)) == log;
  }

  /** What a follower tells its leaders never goes backwards, whatever is torn,
      restarted or re-pointed in between, and each position told names records
      that leader really has. */
  lemma AcknowledgementsNeverGoBack(x: Setting, w: World, evs: seq<Event>, i: nat, j: nat)
    requires Init(w)
    requires i <= j < |Run(x, w, evs).me.told|
    ensures var v := Run(x, w, evs);
      && Reaches(v.me.told[j], v.me.told[i]) && Holds(v.leaders, v.me.told[i])
      && (v.me.store.applied != ZERO ==> Reaches(v.me.store.applied, v.me.told[i]))
  {
    RunKeeps(x, w, evs);
    var told := Run(x, w, evs).me.told;
    assert Reaches(told[|told| - 1], told[i]);
  }

  /** To have reached a write's position on its own term is to hold it: what the
      leader had then is the beginning of what the follower replayed. */
  lemma ReachedWritesAreHeld(x: Setting, w: World, evs: seq<Event>, at: Position)
    requires Init(w)
    requires var v := Run(x, w, evs);
      && v.me.store.applied.term == at.term && Reaches(v.me.store.applied, at) && Holds(v.leaders, at)
      && v.me.store.applied != ZERO
    ensures var v := Run(x, w, evs);
      && Holds(v.leaders, v.me.store.applied)
      && Prefix(v.leaders, at) <= Prefix(v.leaders, v.me.store.applied)
      && v.me.store.contents ==
           Replay(Replay(map[], Prefix(v.leaders, at)), Prefix(v.leaders, v.me.store.applied)[at.next - 1..])
  {
    RunKeeps(x, w, evs);
    var v := Run(x, w, evs);
    var mine, theirs := Prefix(v.leaders, v.me.store.applied), Prefix(v.leaders, at);
    assert mine == theirs + mine[at.next - 1..];
    ReplayConcat(map[], theirs, mine[at.next - 1..]);
  }
}
