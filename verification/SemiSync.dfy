/** "A 204 survives a failover": what a semi-synchronous write was promised, put
    together with the pod a controller would choose, over every run of a leader's
    stint.

    A replica tells its leader only positions it has reached, and each it reaches
    is at least as far as those it told before, whatever it is torn by or restarted
    from: that is `Replication.AcknowledgementsNeverGoBack`, and it is how a replica
    moves here.  `peak` is the furthest it has got. */
module SemiSync {
  import opened Base
  import opened Registry
  import opened Controller

  type Pod = string

  /** `applied` is zero while a snapshot is under way, or after one was torn. */
  datatype Replica = Replica(applied: Position, peak: Position)

  /** A write answered 204: where the leader's store was, how many it waited for,
      and the registered followers that had reached it when it was answered. */
  datatype Promise = Promise(at: Position, need: nat, counted: set<Id>, hollow: set<Id>)

  /** `owner` says whose each id is; `mail` is acknowledgements on their way, which
      may be late, lost or repeated; `hollow` is the ids registered at a snapshot's
      position that their follower has yet to receive. */
  datatype World = World(leader: Position, replicas: map<Pod, Replica>, owner: map<Id, Pod>,
                         acks: Acks, mail: set<(Id, Position)>, hollow: set<Id>, promises: seq<Promise>)

  datatype Event =
    | Writes(n: nat)
    | Applies(pod: Pod, upto: Position)
    | Empties(pod: Pod)
    | Snapshots(pod: Pod, at: Position)
    | Names(pod: Pod, id: Id) // a follower started, with a name of its own
    | Opens(id: Id, from: Position, at: Position)
    | Closes(id: Id)
    | Tells(id: Id)
    | Hears(id: Id, at: Position)
    | Answers204(at: Position, need: nat)

  predicate Enabled(w: World, ev: Event)
    requires WellFormed(w)
  {
    match ev
    case Writes(n) => true
    case Applies(pod, upto) =>
      && pod in w.replicas && w.replicas[pod].applied != ZERO && upto != ZERO
      && Reaches(upto, w.replicas[pod].peak) && Reaches(w.leader, upto)
    case Empties(pod) => pod in w.replicas
    case Snapshots(pod, at) =>
      && pod in w.replicas && w.replicas[pod].applied == ZERO && at != ZERO
      && Reaches(at, w.replicas[pod].peak) && Reaches(w.leader, at)
    case Names(pod, id) => pod in w.replicas && id !in w.owner && id != ""
    case Opens(id, from, at) =>
      // asked from a position it had reached; registered there, or at a snapshot's
      && id in w.owner && Reaches(w.replicas[w.owner[id]].peak, from)
      && (if from == ZERO then Reaches(w.leader, at) else at == from)
    case Closes(id) => id in w.owner
    case Tells(id) => id in w.owner && w.replicas[w.owner[id]].applied != ZERO
    case Hears(id, at) => (id, at) in w.mail
    case Answers204(at, need) =>
      && 0 < need <= |Reaching(w.acks, at)|
      && at.term == w.leader.term && 1 <= at.next <= w.leader.next
  }

  function Step(w: World, ev: Event): World
    requires WellFormed(w) && Enabled(w, ev)
  {
    match ev
    case Writes(n) => w.(leader := Position(w.leader.term, w.leader.next + n))
    case Applies(pod, upto) => w.(replicas := w.replicas[pod := Replica(upto, upto)])
    case Empties(pod) => w.(replicas := w.replicas[pod := Replica(ZERO, w.replicas[pod].peak)])
    case Snapshots(pod, at) => w.(replicas := w.replicas[pod := Replica(at, at)])
    case Names(pod, id) => w.(owner := w.owner[id := pod])
    case Opens(id, from, at) =>
      var moved := Wakes(w.acks, Attach(id, at));
      w.(acks := Changed(w.acks, Attach(id, at)),
         hollow := if !moved then w.hollow else if from == ZERO then w.hollow + {id} else w.hollow - {id})
    case Closes(id) => w.(acks := Changed(w.acks, Detach(id)), hollow := w.hollow - {id})
    case Tells(id) => w.(mail := w.mail + {(id, w.replicas[w.owner[id]].applied)})
    case Hears(id, at) =>
      w.(acks := Changed(w.acks, Ack(id, at)), hollow := if id in w.acks && Reaches(at, w.acks[id]) then w.hollow - {id} else w.hollow)
    case Answers204(at, need) =>
      w.(promises := w.promises + [Promise(at, need, Reaching(w.acks, at), w.hollow * Reaching(w.acks, at))])
  }

  predicate WellFormed(w: World) {
    && (forall id :: id in w.owner ==> w.owner[id] in w.replicas)
    && (forall id :: id in w.acks ==> id in w.owner)
    && "" !in w.owner
  }

  function Run(w: World, evs: seq<Event>): (v: World)
    requires Inv(w)
    ensures Inv(v)
    decreases |evs|
  {
    if evs == [] then w
    else if Enabled(w, evs[0]) then
      assert Inv(Step(w, evs[0])) by { StepKeeps(w, evs[0]); }
      Run(Step(w, evs[0]), evs[1..])
    else Run(w, evs[1..])
  }

  // ----- what is claimed was reached

  predicate Reached(w: World, id: Id, p: Position) {
    id in w.owner && w.owner[id] in w.replicas && Reaches(w.replicas[w.owner[id]].peak, p)
  }

  predicate Inv(w: World) {
    && WellFormed(w)
    && (forall pod :: pod in w.replicas ==>
          && (w.replicas[pod].applied == ZERO || w.replicas[pod].applied == w.replicas[pod].peak)
          && Reaches(w.leader, w.replicas[pod].peak))
    && (forall m :: m in w.mail ==> Reached(w, m.0, m.1))
    && (forall id :: id in w.acks && id !in w.hollow ==> Reached(w, id, w.acks[id]))
    && (forall k, id :: 0 <= k < |w.promises| && id in w.promises[k].counted - w.promises[k].hollow ==>
          Reached(w, id, w.promises[k].at))
    && (forall k :: 0 <= k < |w.promises| ==>
          && w.promises[k].hollow <= w.promises[k].counted && 0 < w.promises[k].need <= |w.promises[k].counted|
          && w.promises[k].counted <= w.owner.Keys
          && w.promises[k].at.term == w.leader.term && 1 <= w.promises[k].at.next)
  }

  /** What was reached once is reached still. */
  lemma ReachedStays(w: World, v: World, id: Id, p: Position)
    requires Reached(w, id, p)
    requires id in v.owner && v.owner[id] == w.owner[id] && v.owner[id] in v.replicas
    requires Reaches(v.replicas[v.owner[id]].peak, w.replicas[w.owner[id]].peak)
    ensures Reached(v, id, p)
  {
  }

  /** A replica moving on, or being emptied, unsays nothing. */
  lemma MovingKeeps(w: World, pod: Pod, r: Replica)
    requires Inv(w) && pod in w.replicas
    requires Reaches(r.peak, w.replicas[pod].peak) && Reaches(w.leader, r.peak) && (r.applied == ZERO || r.applied == r.peak)
    ensures Inv(w.(replicas := w.replicas[pod := r]))
  {
    var v := w.(replicas := w.replicas[pod := r]);
    forall id, p | Reached(w, id, p) ensures Reached(v, id, p) {
      ReachesIsATotalOrder(w.replicas[w.owner[id]].peak, w.replicas[w.owner[id]].peak, p);
      ReachedStays(w, v, id, p);
    }
  }

  /** A registry change keeps the invariant if what it registers was reached, or is
      marked as not. */
  lemma RegisteringKeeps(w: World, acks: Acks, hollow: set<Id>)
    requires Inv(w)
    requires forall id :: id in acks ==> id in w.owner
    requires forall id :: id in acks && id !in hollow ==> Reached(w, id, acks[id])
    ensures Inv(w.(acks := acks, hollow := hollow))
  {
  }

  lemma ListeningKeeps(w: World, ev: Event)
    requires Inv(w) && Enabled(w, ev)
    requires ev.Opens? || ev.Closes? || ev.Hears?
    ensures Inv(Step(w, ev))
  {
    var v := Step(w, ev);
    if ev.Hears? {
      assert Reached(w, ev.id, ev.at);
      if ev.id in w.acks && Reaches(ev.at, w.acks[ev.id]) {
        ReachesIsATotalOrder(w.replicas[w.owner[ev.id]].peak, ev.at, w.acks[ev.id]);
      }
    }
    RegisteringKeeps(w, v.acks, v.hollow);
  }

  lemma LeadingKeeps(w: World, ev: Event)
    requires Inv(w) && Enabled(w, ev)
    requires ev.Writes? || ev.Names? || ev.Answers204?
    ensures Inv(Step(w, ev))
  {
    var v := Step(w, ev);
    assert forall i, p :: Reached(w, i, p) ==> Reached(v, i, p);
    if ev.Answers204? {
      forall id | id in Reaching(w.acks, ev.at) - w.hollow ensures Reached(v, id, ev.at) {
        assert Reached(w, id, w.acks[id]);
        ReachesIsATotalOrder(w.replicas[w.owner[id]].peak, w.acks[id], ev.at);
      }
    }
  }

  lemma StepKeeps(w: World, ev: Event)
    requires Inv(w) && Enabled(w, ev)
    ensures Inv(Step(w, ev))
  {
    var v := Step(w, ev);
    match ev
    case Applies(pod, upto) => MovingKeeps(w, pod, Replica(upto, upto));
    case Empties(pod) =>
      ReachesIsATotalOrder(w.replicas[pod].peak, ZERO, ZERO);
      MovingKeeps(w, pod, Replica(ZERO, w.replicas[pod].peak));
    case Snapshots(pod, at) => MovingKeeps(w, pod, Replica(at, at));
    case Opens(_, _, _) => ListeningKeeps(w, ev);
    case Closes(_) => ListeningKeeps(w, ev);
    case Hears(_, _) => ListeningKeeps(w, ev);
    case Tells(id) =>
      assert forall i, p :: Reached(w, i, p) ==> Reached(v, i, p);
      ReachesIsATotalOrder(w.replicas[w.owner[id]].peak, ZERO, ZERO);
    case _ => LeadingKeeps(w, ev);
  }

  // ----- what a promise is worth

  /** The replicas that really had the write when it was answered. */
  function Holders(w: World, p: Promise): set<Pod>
    requires p.counted <= w.owner.Keys
  {
    set id | id in p.counted - p.hollow :: w.owner[id]
  }

  /** Promises and owners are for good, and so is what each holder reached. */
  lemma {:induction false} PromisesStand(w: World, evs: seq<Event>)
    requires Inv(w)
    ensures var v := Run(w, evs);
      && w.promises <= v.promises && v.leader.term == w.leader.term
      && (forall id :: id in w.owner ==> id in v.owner && v.owner[id] == w.owner[id])
    decreases |evs|
  {
    if evs != [] {
      if Enabled(w, evs[0]) {
        StepKeeps(w, evs[0]);
        PromisesStand(Step(w, evs[0]), evs[1..]);
      } else {
        PromisesStand(w, evs[1..]);
      }
    }
  }

  /** What a replica may say of itself: the store's term is the position's, and a store
      mid-snapshot has applied nothing, on no newer a term than the leader's. */
  predicate Describes(s: Status, r: Replica, term: nat) {
    if r.applied == ZERO then s.appliedSeq == 0 && s.term <= term
    else s.term == r.applied.term && s.appliedSeq == r.applied.next
  }

  /** A candidate says what it is.  Of a node that may not be chosen nothing is asked:
      an old leader may answer too. */
  predicate Agrees(w: World, n: Node, leader: string) {
    Eligible(n, leader) ==> n.name in w.replicas && Describes(n.status.value, w.replicas[n.name], w.leader.term)
  }

  /** Each node was asked at a moment of its own in this run. */
  ghost predicate AskedDuring(w: World, evs: seq<Event>, nodes: seq<Node>, when: seq<nat>, leader: string)
    requires Inv(w)
  {
    |when| == |nodes| && forall j :: 0 <= j < |nodes| ==> when[j] <= |evs| && Agrees(Run(w, evs[..when[j]]), nodes[j], leader)
  }

  /** Whether a pod held a write when it was asked, and may be chosen. */
  ghost predicate AskedHolding(w: World, evs: seq<Event>, nodes: seq<Node>, when: seq<nat>, leader: string, pod: Pod, at: Position)
    requires Inv(w) && AskedDuring(w, evs, nodes, when, leader)
  {
    exists j :: 0 <= j < |nodes| && nodes[j].name == pod && Eligible(nodes[j], leader) &&
      Reaches(Run(w, evs[..when[j]]).replicas[pod].applied, at)
  }

  /** Whether a pod answered, may be chosen, and holds anything. */
  predicate Available(nodes: seq<Node>, leader: string, pod: Pod) {
    exists j :: 0 <= j < |nodes| && nodes[j].name == pod && Eligible(nodes[j], leader) &&
      nodes[j].status.value.appliedSeq > 0
  }

  function Said(n: Node): Position
    requires n.status.Some?
  {
    Position(n.status.value.term, n.status.value.appliedSeq)
  }

  /** Choosing by `Further` finds the node that `Reaches` the most. */
  lemma BestReachesTheRest(nodes: seq<Node>, leader: string, i: nat, j: nat)
    requires IsBest(nodes, leader, i) && j < |nodes| && Eligible(nodes[j], leader)
    ensures Reaches(Said(nodes[i]), Said(nodes[j]))
  {
  }

  lemma {:induction false} RunConcat(w: World, a: seq<Event>, b: seq<Event>)
    requires Inv(w)
    ensures Run(w, a + b) == Run(Run(w, a), b)
    decreases |a|
  {
    if a == [] {
      assert a + b == b;
    } else {
      assert (a + b)[1..] == a[1..] + b;
      if Enabled(w, a[0]) {
        StepKeeps(w, a[0]);
      }
      hide Inv, Step, Enabled;
      RunConcat(if Enabled(w, a[0]) then Step(w, a[0]) else w, a[1..], b);
    }
  }

  lemma StepOnlyRaises(w: World, ev: Event)
    requires Inv(w) && Enabled(w, ev)
    ensures var v := Step(w, ev);
      v.replicas.Keys == w.replicas.Keys && v.leader.term == w.leader.term &&
      forall pod :: pod in w.replicas ==> Reaches(v.replicas[pod].peak, w.replicas[pod].peak)
  {
  }

  /** The furthest a replica has got only goes up. */
  lemma {:induction false} PeaksOnlyRise(w: World, evs: seq<Event>)
    requires Inv(w)
    ensures var v := Run(w, evs);
      v.replicas.Keys == w.replicas.Keys && v.leader.term == w.leader.term &&
      forall pod :: pod in w.replicas ==> Reaches(v.replicas[pod].peak, w.replicas[pod].peak)
    decreases |evs|
  {
    if evs != [] {
      if Enabled(w, evs[0]) {
        StepOnlyRaises(w, evs[0]);
        StepKeeps(w, evs[0]);
      }
      var next := if Enabled(w, evs[0]) then Step(w, evs[0]) else w;
      PeaksOnlyRise(next, evs[1..]);
      hide Inv, Step, Enabled;
      forall pod | pod in w.replicas ensures Reaches(Run(w, evs).replicas[pod].peak, w.replicas[pod].peak) {
        ReachesIsATotalOrder(Run(next, evs[1..]).replicas[pod].peak, next.replicas[pod].peak, w.replicas[pod].peak);
      }
    }
  }

  /** What a replica held at one moment of a run it holds at any later one, unless a
      snapshot has emptied it. */
  lemma HeldIsHeldStill(w: World, evs: seq<Event>, n: nat, pod: Pod, at: Position)
    requires Inv(w) && n <= |evs| && pod in w.replicas && pod in Run(w, evs[..n]).replicas
    requires Reaches(Run(w, evs[..n]).replicas[pod].applied, at)
    ensures pod in Run(w, evs).replicas
    ensures var now := Run(w, evs).replicas[pod].applied; now == ZERO || Reaches(now, at)
  {
    assert evs[..n] + evs[n..] == evs;
    RunConcat(w, evs[..n], evs[n..]);
    var u, v := Run(w, evs[..n]), Run(w, evs);
    PeaksOnlyRise(u, evs[n..]);
    hide Run;
    ReachesIsATotalOrder(u.replicas[pod].peak, u.replicas[pod].applied, at);
    ReachesIsATotalOrder(u.replicas[pod].peak, ZERO, at);
    ReachesIsATotalOrder(v.replicas[pod].peak, u.replicas[pod].peak, at);
  }

  /** The guarantee, for a write at `at` and nodes each asked at a moment of its own.
      If fewer pods are unavailable than held the write when they were asked, whichever
      is chosen held it too, and holds it to the end of the run unless a snapshot has
      emptied it since. */
  lemma AcknowledgedWriteSurvives(c: Config, w: World, evs: seq<Event>, nodes: seq<Node>, when: seq<nat>, leader: string,
                                  since: Option<int>, at: Position, holders: set<Pod>, missing: set<Pod>)
    requires Inv(w) && at.term == w.leader.term && 1 <= at.next
    requires AskedDuring(w, evs, nodes, when, leader)
    requires |missing| < |holders|
    requires forall pod :: pod in holders - missing ==> AskedHolding(w, evs, nodes, when, leader, pod, at)
    requires Chosen(c, nodes, leader, since).Pick?
    ensures var i := Chosen(c, nodes, leader, since).i;
      var u, v := Run(w, evs[..when[i]]), Run(w, evs);
      && nodes[i].name in u.replicas && nodes[i].name in v.replicas
      && u.replicas[nodes[i].name].applied.term == at.term && Reaches(u.replicas[nodes[i].name].applied, at)
      && (v.replicas[nodes[i].name].applied == ZERO || Reaches(v.replicas[nodes[i].name].applied, at))
  {
    var pod := SomebodyIsLeft(holders, missing);
    assert AskedHolding(w, evs, nodes, when, leader, pod, at);
    var i := Chosen(c, nodes, leader, since).i;
    var j :| 0 <= j < |nodes| && nodes[j].name == pod && Eligible(nodes[j], leader) &&
      Reaches(Run(w, evs[..when[j]]).replicas[pod].applied, at);
    assert Agrees(Run(w, evs[..when[j]]), nodes[j], leader) && Agrees(Run(w, evs[..when[i]]), nodes[i], leader);
    BestReachesTheRest(nodes, leader, i, j);
    PeaksOnlyRise(w, evs[..when[i]]);
    ChosenReaches(Run(w, evs[..when[i]]), nodes[i], nodes[j], leader, Run(w, evs[..when[j]]).replicas[pod], at);
    HeldIsHeldStill(w, evs, when[i], nodes[i].name, at);
  }

  lemma ChosenReaches(u: World, best: Node, other: Node, leader: string, r: Replica, at: Position)
    requires Inv(u) && at.term == u.leader.term && 1 <= at.next
    requires Agrees(u, best, leader) && Eligible(best, leader) && other.status.Some?
    requires Describes(other.status.value, r, u.leader.term) && Reaches(r.applied, at) && Reaches(Said(best), Said(other))
    ensures u.replicas[best.name].applied.term == at.term && Reaches(u.replicas[best.name].applied, at)
  {
    ReachesIsATotalOrder(Said(best), Said(other), at);
  }

  /** Asking after the answer is enough: a pod that had the write when it was answered,
      and holds anything when it is asked, holds it. */
  lemma AskedAfterItsAnswer(w: World, k: nat, evs: seq<Event>, nodes: seq<Node>, when: seq<nat>, leader: string, pod: Pod)
    requires Inv(w) && k < |w.promises| && pod in Holders(w, w.promises[k])
    requires AskedDuring(w, evs, nodes, when, leader) && Available(nodes, leader, pod)
    ensures AskedHolding(w, evs, nodes, when, leader, pod, w.promises[k].at)
  {
    var id :| id in w.promises[k].counted - w.promises[k].hollow && w.owner[id] == pod;
    var j :| 0 <= j < |nodes| && nodes[j].name == pod && Eligible(nodes[j], leader) && nodes[j].status.value.appliedSeq > 0;
    assert Agrees(Run(w, evs[..when[j]]), nodes[j], leader);
    HolderStillHas(w, k, evs[..when[j]], id);
  }

  lemma SomebodyIsLeft(all: set<Pod>, missing: set<Pod>) returns (pod: Pod)
    requires |missing| < |all|
    ensures pod in all - missing
  {
    if all <= missing {
      SubsetIsNoLarger(all, missing);
    }
    assert exists p :: p in all && p !in missing;
    pod :| pod in all && pod !in missing;
  }

  lemma HolderStillHas(w: World, k: nat, evs: seq<Event>, id: Id)
    requires Inv(w) && k < |w.promises| && id in w.promises[k].counted - w.promises[k].hollow
    ensures var v := Run(w, evs);
      && w.owner[id] in v.replicas
      && (v.replicas[w.owner[id]].applied == ZERO || Reaches(v.replicas[w.owner[id]].applied, w.promises[k].at))
  {
    PromisesStand(w, evs);
    var v := Run(w, evs);
    assert v.promises[k] == w.promises[k];
    assert Reached(v, id, v.promises[k].at);
  }

  // ----- and when it is worth what it says

  function Image<A(!new), B>(s: set<A>, f: map<A, B>): set<B>
    requires s <= f.Keys
  {
    set a | a in s :: f[a]
  }

  predicate InjectiveOn<A(!new), B(==)>(s: set<A>, f: map<A, B>)
    requires s <= f.Keys
  {
    forall a, b :: a in s && b in s && f[a] == f[b] ==> a == b
  }

  /** The pigeonhole: an image is never larger, and as large only if nothing is hit
      twice. */
  lemma {:induction false} ImageSize<A(!new), B>(s: set<A>, f: map<A, B>)
    requires s <= f.Keys
    ensures |Image(s, f)| <= |s|
    ensures |Image(s, f)| == |s| <==> InjectiveOn(s, f)
    decreases s
  {
    if s != {} {
      var a :| a in s;
      var rest := s - {a};
      ImageSize(rest, f);
      assert Image(s, f) == Image(rest, f) + {f[a]};
      if f[a] in Image(rest, f) {
        assert Image(s, f) == Image(rest, f);
        var b :| b in rest && f[b] == f[a];
        assert !InjectiveOn(s, f);
      } else {
        assert |Image(s, f)| == |Image(rest, f)| + 1;
        assert InjectiveOn(rest, f) <==> InjectiveOn(s, f);
      }
    }
  }

  /** A 204 counted as many replicas as it says exactly when no name it counted was
      hollow and no two were the same replica's. */
  lemma CountsReplicasIff(w: World, p: Promise)
    requires p.counted <= w.owner.Keys && p.hollow <= p.counted
    ensures |Holders(w, p)| <= |p.counted|
    ensures |Holders(w, p)| == |p.counted| <==> p.hollow == {} && InjectiveOn(p.counted, w.owner)
  {
    var solid := p.counted - p.hollow;
    assert Holders(w, p) == Image(solid, w.owner);
    ImageSize(solid, w.owner);
    assert p.counted == solid + p.hollow;
    assert |p.counted| == |solid| + |p.hollow|;
    if p.hollow == {} {
      assert solid == p.counted;
    }
  }

  /** So with every counted name solid and its own replica's, a 204 answered at any
      moment of the run survives the loss of fewer replicas than it waited for, if the
      others were asked when they held the write already. */
  lemma Survives204(c: Config, w: World, evs: seq<Event>, k: nat, nodes: seq<Node>, when: seq<nat>, leader: string,
                    since: Option<int>, missing: set<Pod>)
    requires Inv(w) && k < |Run(w, evs).promises|
    requires var v := Run(w, evs); v.promises[k].hollow == {} && InjectiveOn(v.promises[k].counted, v.owner)
    requires AskedDuring(w, evs, nodes, when, leader)
    requires |missing| < Run(w, evs).promises[k].need
    requires var v := Run(w, evs); forall pod :: pod in Holders(v, v.promises[k]) - missing ==>
      AskedHolding(w, evs, nodes, when, leader, pod, v.promises[k].at)
    requires Chosen(c, nodes, leader, since).Pick?
    ensures var i, at := Chosen(c, nodes, leader, since).i, Run(w, evs).promises[k].at;
      var u, v := Run(w, evs[..when[i]]), Run(w, evs);
      && nodes[i].name in u.replicas && nodes[i].name in v.replicas
      && u.replicas[nodes[i].name].applied.term == at.term && Reaches(u.replicas[nodes[i].name].applied, at)
      && (v.replicas[nodes[i].name].applied == ZERO || Reaches(v.replicas[nodes[i].name].applied, at))
  {
    var v := Run(w, evs);
    PeaksOnlyRise(w, evs);
    CountsReplicasIff(v, v.promises[k]);
    AcknowledgedWriteSurvives(c, w, evs, nodes, when, leader, since, v.promises[k].at, Holders(v, v.promises[k]), missing);
  }

  lemma RunsOne(w: World, evs: seq<Event>)
    requires Inv(w) && evs != [] && Enabled(w, evs[0])
    ensures Inv(Step(w, evs[0])) && Run(w, evs) == Run(Step(w, evs[0]), evs[1..])
  {
    StepKeeps(w, evs[0]);
  }

  /** What a world is after a follower names itself and opens a stream. */
  function Registered(w: World, pod: Pod, id: Id, from: Position, at: Position): World {
    w.(owner := w.owner[id := pod], acks := w.acks[id := at],
       hollow := if from == ZERO then w.hollow + {id} else w.hollow - {id})
  }

  lemma Registers(w: World, pod: Pod, id: Id, from: Position, at: Position, rest: seq<Event>)
    requires Inv(w) && pod in w.replicas && id !in w.owner && id != ""
    requires Reaches(w.replicas[pod].peak, from)
    requires if from == ZERO then Reaches(w.leader, at) else at == from
    ensures Inv(Registered(w, pod, id, from, at))
    ensures Run(w, [Names(pod, id), Opens(id, from, at)] + rest) == Run(Registered(w, pod, id, from, at), rest)
  {
    hide Run, Inv;
    var evs := [Names(pod, id), Opens(id, from, at)] + rest;
    InvIsWellFormed(w);
    RunsOne(w, evs);
    var w1 := w.(owner := w.owner[id := pod]);
    InvIsWellFormed(w1);
    RunsOne(w1, evs[1..]);
    assert evs[1..][1..] == rest;
  }

  lemma Promises(w: World, at: Position, need: nat)
    requires Inv(w) && Enabled(w, Answers204(at, need))
    ensures Run(w, [Answers204(at, need)]) == Step(w, Answers204(at, need))
  {
    RunsOne(w, [Answers204(at, need)]);
  }

  lemma InvIsWellFormed(w: World)
    requires Inv(w)
    ensures WellFormed(w)
  {
  }

  /** Registering a stream claims no more than its follower holds exactly when it
      carries on from somewhere, or the snapshot it is registered at is of nothing:
      a follower asks from where it is, and one that has nothing is sent a snapshot. */
  lemma OpeningIsHonestIff(w: World, id: Id, from: Position, at: Position)
    requires Inv(w) && Enabled(w, Opens(id, from, at)) && Wakes(w.acks, Attach(id, at))
    requires w.replicas[w.owner[id]].applied == from
    ensures var v := Step(w, Opens(id, from, at));
      && id in v.acks && id in v.owner && v.owner[id] in v.replicas
      && (Reaches(v.replicas[v.owner[id]].applied, v.acks[id]) <==> from != ZERO || at == ZERO)
  {
  }
}
