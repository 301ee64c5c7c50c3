/** The replicas that promises are made about are the followers of the replication
    stream: whatever a follower does is something a replica there may do, and what a
    replica has applied is what a follower's store holds. */
module Replicas {
  import opened Base
  import opened Engine
  import opened Frames
  import opened Following
  import Replication
  import SemiSync

  function AsReplica(me: State): SemiSync.Replica {
    SemiSync.Replica(me.store.applied, Replication.Newest(me.told))
  }

  /** `pod` is this follower, in the stint of the newest leader there is. */
  ghost predicate Mirrors(w: Replication.World, z: SemiSync.World, pod: SemiSync.Pod, term: nat) {
    && pod in z.replicas && z.replicas[pod] == AsReplica(w.me)
    && term in w.leaders && (forall t :: t in w.leaders ==> t <= term)
    && z.leader == Replication.After(term, |w.leaders[term].log|)
  }

  /** The same world but for the leader's position and this replica. */
  predicate OnlyMoved(z: SemiSync.World, y: SemiSync.World, pod: SemiSync.Pod) {
    pod in z.replicas && pod in y.replicas && y == z.(leader := y.leader, replicas := z.replicas[pod := y.replicas[pod]])
  }

  // ----- what is told is only added to

  lemma HandlingAddsToTold(e: Engine, s: State, kind: byte, at: Position, length: nat, body: bytes, tail: Tail)
    ensures s.told <= Handle(e, s, kind, at, length, body, tail).out.state.told
  {
  }

  lemma {:induction false} ConnectionAddsToTold(e: Engine, c: Codec, most: int, b: bytes, tail: Tail, s: State)
    ensures s.told <= Connection(e, c, most, b, tail, s).state.told
    decreases |b|
  {
    hide Handle;
    match ReadHeader(c, most, b, tail)
    case NoHeader(_) =>
    case GotHeader(kind, at, length) =>
      HandlingAddsToTold(e, s, kind, at, length, b[c.HeaderSize()..], tail);
      var h := Handle(e, s, kind, at, length, b[c.HeaderSize()..], tail);
      if h.out.end.None? {
        ConnectionAddsToTold(e, c, most, h.rest, tail, h.out.state);
      }
  }

  lemma StepAddsToTold(x: Replication.Setting, w: Replication.World, ev: Replication.Event)
    requires Replication.Enabled(x, w, ev)
    ensures w.me.told <= Replication.Step(x, w, ev).me.told
  {
    if ev.CutAfter? {
      ConnectionAddsToTold(x.engine, x.codec, x.most, EncodeAll(x.codec, w.link.wire)[..ev.n], ev.tail, w.me);
    }
  }

  // ----- a follower's step is a replica's

  /** Anything that does not go back can be done in at most three steps: being emptied,
      and taking a snapshot. */
  lemma MovesInSteps(z: SemiSync.World, pod: SemiSync.Pod, r: SemiSync.Replica) returns (evs: seq<SemiSync.Event>)
    requires SemiSync.Inv(z) && pod in z.replicas
    requires Reaches(r.peak, z.replicas[pod].peak) && Reaches(z.leader, r.peak) && (r.applied == ZERO || r.applied == r.peak)
    ensures |evs| <= 3 && SemiSync.Run(z, evs) == z.(replicas := z.replicas[pod := r])
  {
    var was := z.replicas[pod];
    var emptied := z.(replicas := z.replicas[pod := SemiSync.Replica(ZERO, was.peak)]);
    var snapped := z.(replicas := z.replicas[pod := SemiSync.Replica(r.peak, r.peak)]);
    if r.applied == ZERO && r.peak == was.peak {
      evs := [SemiSync.Empties(pod)];
      OneStep(z, SemiSync.Empties(pod), emptied);
    } else if r.peak == ZERO {
      ReachesIsATotalOrder(was.peak, ZERO, ZERO);
      assert false;
    } else {
      var first := [SemiSync.Empties(pod), SemiSync.Snapshots(pod, r.peak)];
      assert first == [SemiSync.Empties(pod)] + [SemiSync.Snapshots(pod, r.peak)];
      OneStep(z, SemiSync.Empties(pod), emptied);
      OneStep(emptied, SemiSync.Snapshots(pod, r.peak), snapped);
      SemiSync.RunConcat(z, [SemiSync.Empties(pod)], [SemiSync.Snapshots(pod, r.peak)]);
      evs := first;
      if r.applied == ZERO {
        var back := z.(replicas := z.replicas[pod := r]);
        OneStep(snapped, SemiSync.Empties(pod), back);
        SemiSync.RunConcat(z, first, [SemiSync.Empties(pod)]);
        evs := first + [SemiSync.Empties(pod)];
      }
    }
  }

  lemma OneStep(z: SemiSync.World, ev: SemiSync.Event, v: SemiSync.World)
    requires SemiSync.Inv(z) && SemiSync.Enabled(z, ev) && SemiSync.Step(z, ev) == v
    ensures SemiSync.Inv(v) && SemiSync.Run(z, [ev]) == v
  {
    SemiSync.RunsOne(z, [ev]);
  }

  /** The positions a follower has told are within its leader's log. */
  lemma NewestIsWithin(x: Replication.Setting, w: Replication.World, term: nat)
    requires Replication.Inv(x, w) && term in w.leaders && forall t :: t in w.leaders ==> t <= term
    ensures Reaches(Replication.After(term, |w.leaders[term].log|), Replication.Newest(w.me.told))
    ensures w.me.store.applied == ZERO || w.me.store.applied == Replication.Newest(w.me.told)
  {
    if w.me.told != [] {
      assert Replication.Holds(w.leaders, w.me.told[|w.me.told| - 1]);
    }
  }

  lemma NewestGrows(x: Replication.Setting, w: Replication.World, v: Replication.World)
    requires Replication.Inv(x, v) && w.me.told <= v.me.told
    ensures Reaches(Replication.Newest(v.me.told), Replication.Newest(w.me.told))
  {
    if w.me.told != [] {
      assert v.me.told[|w.me.told| - 1] == w.me.told[|w.me.told| - 1];
    }
  }

  /** How a replica's leader follows its log. */
  function Logged(ev: Replication.Event, term: nat): seq<SemiSync.Event> {
    if ev.Written? && ev.term == term then [SemiSync.Writes(1)] else []
  }

  lemma LogsMirror(x: Replication.Setting, w: Replication.World, ev: Replication.Event, z: SemiSync.World,
                   pod: SemiSync.Pod, term: nat)
    requires Replication.Enabled(x, w, ev) && !ev.Promoted? && SemiSync.Inv(z) && Mirrors(w, z, pod, term)
    ensures var v, y := Replication.Step(x, w, ev), SemiSync.Run(z, Logged(ev, term));
      && SemiSync.Inv(y) && y == z.(leader := y.leader) && v.leaders.Keys == w.leaders.Keys
      && y.leader == Replication.After(term, |v.leaders[term].log|)
  {
    if ev.Written? && ev.term == term {
      OneStep(z, SemiSync.Writes(1), z.(leader := Position(z.leader.term, z.leader.next + 1)));
    }
  }

  /** Whatever happens to the follower, its leader's log and the connection between
      them, some steps of the replica come to the same. */
  lemma FollowersAreReplicas(x: Replication.Setting, w: Replication.World, ev: Replication.Event, z: SemiSync.World,
                             pod: SemiSync.Pod, term: nat)
    returns (evs: seq<SemiSync.Event>)
    requires Replication.Inv(x, w) && Replication.Enabled(x, w, ev) && !ev.Promoted?
    requires SemiSync.Inv(z) && Mirrors(w, z, pod, term)
    ensures Mirrors(Replication.Step(x, w, ev), SemiSync.Run(z, evs), pod, term)
    ensures OnlyMoved(z, SemiSync.Run(z, evs), pod)
  {
    hide Replication.Step, Replication.Enabled, Replication.Inv, Replication.Newest, SemiSync.Run, SemiSync.Inv, Logged;
    var v := Replication.Step(x, w, ev);
    LogsMirror(x, w, ev, z, pod, term);
    StepAddsToTold(x, w, ev);
    Replication.StepKeeps(x, w, ev);
    NewestIsWithin(x, v, term);
    NewestGrows(x, w, v);
    var y := SemiSync.Run(z, Logged(ev, term));
    evs := MovesInSteps(y, pod, AsReplica(v.me));
    SemiSync.RunConcat(z, Logged(ev, term), evs);
    evs := Logged(ev, term) + evs;
  }

  /** So every run of a follower under one leader is a run of a replica. */
  lemma {:induction false} RunsMirror(x: Replication.Setting, w: Replication.World, evs: seq<Replication.Event>,
                                      z: SemiSync.World, pod: SemiSync.Pod, term: nat)
    returns (zs: seq<SemiSync.Event>)
    requires Replication.Inv(x, w) && (forall i :: 0 <= i < |evs| ==> !evs[i].Promoted?)
    requires SemiSync.Inv(z) && Mirrors(w, z, pod, term)
    ensures Mirrors(Replication.Run(x, w, evs), SemiSync.Run(z, zs), pod, term)
    ensures OnlyMoved(z, SemiSync.Run(z, zs), pod)
    decreases |evs|
  {
    hide Replication.Step, Replication.Enabled, Replication.Inv, SemiSync.Inv;
    zs := [];
    assert z.replicas[pod := z.replicas[pod]] == z.replicas;
    if evs != [] {
      var first: seq<SemiSync.Event> := [];
      if Replication.Enabled(x, w, evs[0]) {
        first := FollowersAreReplicas(x, w, evs[0], z, pod, term);
        Replication.StepKeeps(x, w, evs[0]);
      }
      var next := if Replication.Enabled(x, w, evs[0]) then Replication.Step(x, w, evs[0]) else w;
      var rest := RunsMirror(x, next, evs[1..], SemiSync.Run(z, first), pod, term);
      SemiSync.RunConcat(z, first, rest);
      zs := first + rest;
    }
  }

  /** And to have applied a write there is to hold it here: the store is a replay of the
      leader's log up to the write, and then of some of what came after. */
  lemma AppliedIsHeld(x: Replication.Setting, w: Replication.World, z: SemiSync.World, pod: SemiSync.Pod, term: nat, at: Position)
    requires Replication.Inv(x, w) && Mirrors(w, z, pod, term)
    requires at.term == term && 1 <= at.next && Reaches(z.replicas[pod].applied, at)
    ensures Replication.Holds(w.leaders, at) && Replication.Holds(w.leaders, w.me.store.applied)
    ensures var mine := Replication.Prefix(w.leaders, w.me.store.applied);
      && Replication.Prefix(w.leaders, at) <= mine
      && w.me.store.contents == Replay(Replay(map[], Replication.Prefix(w.leaders, at)), mine[at.next - 1..])
  {
    assert Replication.Faithful(w.leaders, w.me.store);
    var mine, theirs := Replication.Prefix(w.leaders, w.me.store.applied), Replication.Prefix(w.leaders, at);
    assert mine == theirs + mine[at.next - 1..];
    ReplayConcat(map[], theirs, mine[at.next - 1..]);
  }
}
