/** When a 204 survives a failover, exactly, and four ways in which it does not.

    A controller asks first and acts later.  What each replica was when it was asked,
    at a moment of its own, decides who is promoted; what counts is who holds the
    write by the time they are. */
module Survival {
  import opened Base
  import opened Registry
  import opened Controller
  import opened SemiSync

  /** Each replica as it was when it was asked. */
  type Asked = map<Pod, Replica>

  function HadIt(asked: Asked, at: Position): set<Pod> {
    set pod | pod in asked && Reaches(asked[pod].applied, at)
  }

  /** The replicas that hold a write now. */
  function Have(w: World, at: Position): set<Pod> {
    HadIt(w.replicas, at)
  }

  predicate Answers(nodes: seq<Node>, leader: string, pod: Pod) {
    exists j :: 0 <= j < |nodes| && nodes[j].name == pod && Eligible(nodes[j], leader)
  }

  /** A poll in which the candidates are the replicas that are not missing, each
      answering as it was.  Anybody else may answer too. */
  predicate Polls(asked: Asked, term: nat, nodes: seq<Node>, leader: string, missing: set<Pod>) {
    && (forall j :: 0 <= j < |nodes| && Eligible(nodes[j], leader) ==>
          nodes[j].name in asked && nodes[j].name !in missing && Describes(nodes[j].status.value, asked[nodes[j].name], term))
    && (forall pod :: pod in asked && pod !in missing ==> Answers(nodes, leader, pod))
  }

  /** Whichever replicas are missing, fewer than were waited for, whatever the others
      are asked in whatever order, the one promoted is among those that have the
      write. */
  ghost predicate Survives(c: Config, asked: Asked, term: nat, have: set<Pod>, leader: string, need: nat) {
    forall nodes: seq<Node>, since, missing: set<Pod> ::
      |missing| < need && Polls(asked, term, nodes, leader, missing) && Chosen(c, nodes, leader, since).Pick? ==>
        nodes[Chosen(c, nodes, leader, since).i].name in have
  }

  /** The most a replica could say of itself. */
  function Most(r: Replica, term: nat): Position {
    if r.applied == ZERO then Position(term, 0) else r.applied
  }

  /** The replicas that were further than this one for certain. */
  function Ahead(asked: Asked, term: nat, pod: Pod): set<Pod>
    requires pod in asked
  {
    set q | q in asked && asked[q].applied != ZERO && !Reaches(Most(asked[pod], term), asked[q].applied)
  }

  lemma SaidAtMost(n: Node, r: Replica, term: nat)
    requires n.status.Some? && Describes(n.status.value, r, term)
    ensures Reaches(Most(r, term), Said(n)) && (r.applied != ZERO ==> Said(n) == r.applied)
  {
  }

  /** Nobody is promoted past somebody who was further and is there. */
  lemma OneAheadIsLeft(c: Config, asked: Asked, term: nat, leader: string, nodes: seq<Node>, since: Option<int>,
                       missing: set<Pod>)
    requires Polls(asked, term, nodes, leader, missing) && Chosen(c, nodes, leader, since).Pick?
    requires nodes[Chosen(c, nodes, leader, since).i].name in asked
    ensures Ahead(asked, term, nodes[Chosen(c, nodes, leader, since).i].name) <= missing
  {
    var i := Chosen(c, nodes, leader, since).i;
    var pod := nodes[i].name;
    forall q | q in Ahead(asked, term, pod) ensures q in missing {
      if q !in missing {
        assert Answers(nodes, leader, q);
        var j :| 0 <= j < |nodes| && nodes[j].name == q && Eligible(nodes[j], leader);
        BestReachesTheRest(nodes, leader, i, j);
        SaidAtMost(nodes[i], asked[pod], term);
        SaidAtMost(nodes[j], asked[q], term);
        ReachesIsATotalOrder(Most(asked[pod], term), Said(nodes[i]), Said(nodes[j]));
      }
    }
  }

  /** A replica answering as it was; `term` is the store's if it is mid-snapshot. */
  function AnswerOf(pod: Pod, r: Replica, term: nat): Node {
    Node(pod, true, true, Some(Status(Follows, if r.applied == ZERO then term else r.applied.term, false, r.applied.next, 1)))
  }

  function Silent(pod: Pod): Node {
    Node(pod, false, true, None)
  }

  lemma {:induction false} PollOf(asked: Asked, pods: set<Pod>, leader: string) returns (nodes: seq<Node>)
    requires pods <= asked.Keys && leader !in pods
    ensures |nodes| == |pods|
    ensures forall j :: 0 <= j < |nodes| ==> nodes[j].name in pods && nodes[j] == AnswerOf(nodes[j].name, asked[nodes[j].name], 0)
    ensures forall pod :: pod in pods ==> Answers(nodes, leader, pod)
    decreases pods
  {
    nodes := [];
    if pods != {} {
      var pod :| pod in pods;
      var rest := PollOf(asked, pods - {pod}, leader);
      nodes := [AnswerOf(pod, asked[pod], 0)] + rest;
      MoreAnswer(AnswerOf(pod, asked[pod], 0), rest, leader, pods);
    }
  }

  lemma MoreAnswer(first: Node, rest: seq<Node>, leader: string, pods: set<Pod>)
    requires Eligible(first, leader) && first.name in pods
    requires forall pod :: pod in pods - {first.name} ==> Answers(rest, leader, pod)
    ensures forall pod :: pod in pods ==> Answers([first] + rest, leader, pod)
  {
    var nodes := [first] + rest;
    forall p | p in pods ensures Answers(nodes, leader, p) {
      if p == first.name {
        assert nodes[0].name == p && Eligible(nodes[0], leader);
      } else {
        assert Answers(rest, leader, p);
        var j :| 0 <= j < |rest| && rest[j].name == p && Eligible(rest[j], leader);
        assert nodes[j + 1] == rest[j];
      }
    }
  }

  lemma NotFurther(asked: Asked, term: nat, pod: Pod, q: Pod)
    requires pod in asked && q in asked && q !in Ahead(asked, term, pod)
    ensures Describes(AnswerOf(q, asked[q], 0).status.value, asked[q], term)
    ensures Describes(AnswerOf(pod, asked[pod], term).status.value, asked[pod], term)
    ensures !Further(AnswerOf(q, asked[q], 0).status.value, AnswerOf(pod, asked[pod], term).status.value)
  {
  }

  /** A poll of one replica first and then of others that are no further. */
  lemma FrontRunner(c: Config, asked: Asked, term: nat, leader: string, pod: Pod, rest: seq<Node>, missing: set<Pod>)
    requires pod in asked && leader !in asked && pod !in missing && missing == Ahead(asked, term, pod)
    requires forall j :: 0 <= j < |rest| ==>
      rest[j].name in asked && rest[j].name !in missing && rest[j] == AnswerOf(rest[j].name, asked[rest[j].name], 0)
    requires forall q :: q in asked.Keys - missing - {pod} ==> Answers(rest, leader, q)
    ensures var nodes := [AnswerOf(pod, asked[pod], term)] + rest;
      Polls(asked, term, nodes, leader, missing) && Chosen(c, nodes, leader, Some(0)) == Pick(0)
  {
    var first := AnswerOf(pod, asked[pod], term);
    var nodes := [first] + rest;
    assert Eligible(first, leader) && first.name == pod && first.status.value.waitFor > 0 && !Further(first.status.value, first.status.value);
    hide Chosen, IsBest, Ahead, Describes, Further, Answers, AnswerOf, Eligible;
    MoreAnswer(first, rest, leader, asked.Keys - missing);
    NotFurther(asked, term, pod, pod);
    forall j | 0 <= j < |rest|
      ensures Describes(rest[j].status.value, asked[rest[j].name], term) && !Further(rest[j].status.value, first.status.value)
    {
      NotFurther(asked, term, pod, rest[j].name);
    }
    assert forall j :: 0 < j < |nodes| ==> nodes[j] == rest[j - 1];
    FirstIsChosen(c, nodes, leader);
  }

  /** With everybody further than it lost, and only them, a replica can be promoted. */
  lemma PutForward(c: Config, asked: Asked, term: nat, leader: string, pod: Pod) returns (nodes: seq<Node>)
    requires pod in asked && leader !in asked
    ensures Polls(asked, term, nodes, leader, Ahead(asked, term, pod))
    ensures Chosen(c, nodes, leader, Some(0)) == Pick(0) && nodes != [] && nodes[0].name == pod
  {
    assert pod !in Ahead(asked, term, pod);
    hide Chosen, Ahead, Polls, Answers;
    var rest := PollOf(asked, asked.Keys - Ahead(asked, term, pod) - {pod}, leader);
    FrontRunner(c, asked, term, leader, pod, rest, Ahead(asked, term, pod));
    nodes := [AnswerOf(pod, asked[pod], term)] + rest;
  }

  lemma FirstIsChosen(c: Config, nodes: seq<Node>, leader: string)
    requires nodes != [] && Eligible(nodes[0], leader) && nodes[0].status.value.waitFor > 0
    requires forall j :: 0 <= j < |nodes| && Eligible(nodes[j], leader) ==> !Further(nodes[j].status.value, nodes[0].status.value)
    ensures Chosen(c, nodes, leader, Some(0)) == Pick(0)
  {
    assert IsBest(nodes, leader, 0);
  }

  lemma LostWith(c: Config, asked: Asked, term: nat, have: set<Pod>, leader: string, need: nat, nodes: seq<Node>, missing: set<Pod>)
    requires |missing| < need && Polls(asked, term, nodes, leader, missing) && Chosen(c, nodes, leader, Some(0)).Pick?
    requires nodes[Chosen(c, nodes, leader, Some(0)).i].name !in have
    ensures !Survives(c, asked, term, have, leader, need)
  {
  }

  /** Exactly when a write survives, for replicas asked at any moments and any holding
      it by the time one is promoted: when each replica that does not have it was,
      when it was asked, behind at least as many others as were waited for. */
  lemma SurvivesIff(c: Config, asked: Asked, term: nat, have: set<Pod>, leader: string, need: nat)
    requires leader !in asked
    ensures Survives(c, asked, term, have, leader, need) <==>
      forall pod :: pod in asked && pod !in have ==> need <= |Ahead(asked, term, pod)|
  {
    if pod :| pod in asked && pod !in have && need > |Ahead(asked, term, pod)| {
      var nodes := PutForward(c, asked, term, leader, pod);
      LostWith(c, asked, term, have, leader, need, nodes, Ahead(asked, term, pod));
    } else {
      forall nodes: seq<Node>, since, missing: set<Pod> |
        |missing| < need && Polls(asked, term, nodes, leader, missing) && Chosen(c, nodes, leader, since).Pick?
        ensures nodes[Chosen(c, nodes, leader, since).i].name in have
      {
        var pod := nodes[Chosen(c, nodes, leader, since).i].name;
        OneAheadIsLeft(c, asked, term, leader, nodes, since, missing);
        SubsetIsNoLarger(Ahead(asked, term, pod), missing);
      }
    }
  }

  // ----- as far as asking goes

  lemma HoldersAreAhead(asked: Asked, term: nat, at: Position, pod: Pod)
    requires at.term == term && 1 <= at.next && pod in asked && pod !in HadIt(asked, at)
    ensures HadIt(asked, at) <= Ahead(asked, term, pod)
  {
    forall q | q in HadIt(asked, at) ensures q in Ahead(asked, term, pod) {
      ReachesIsATotalOrder(Most(asked[pod], term), asked[q].applied, at);
    }
  }

  /** Of those without it, the furthest is behind nobody but those with it. */
  lemma FurthestWithout(asked: Asked, term: nat, at: Position) returns (pod: Pod)
    requires at.term == term && 1 <= at.next && HadIt(asked, at) != asked.Keys
    requires forall q :: q in asked ==> asked[q].applied.term <= term
    ensures pod in asked && pod !in HadIt(asked, at) && Ahead(asked, term, pod) <= HadIt(asked, at)
  {
    assert HadIt(asked, at) <= asked.Keys;
    var without := asked.Keys - HadIt(asked, at);
    assert without != {} by {
      assert HadIt(asked, at) + without == asked.Keys;
    }
    pod := FurthestOf(asked, term, without);
  }

  lemma {:induction false} FurthestOf(asked: Asked, term: nat, pods: set<Pod>) returns (pod: Pod)
    requires pods <= asked.Keys && pods != {}
    ensures pod in pods && forall q :: q in pods ==> q !in Ahead(asked, term, pod)
    decreases pods
  {
    pod :| pod in pods;
    if pods != {pod} {
      var best := FurthestOf(asked, term, pods - {pod});
      if pod in Ahead(asked, term, best) {
        forall q | q in pods ensures q !in Ahead(asked, term, pod) {
          if q != pod && asked[q].applied != ZERO {
            assert q !in Ahead(asked, term, best);
            ReachesIsATotalOrder(asked[pod].applied, Most(asked[best], term), asked[q].applied);
          }
        }
      } else {
        pod := best;
      }
    }
  }

  /** If nothing changes hands between asking and promoting: the loss of any fewer
      replicas than were waited for is survived exactly if as many as that held the
      write when they were asked, or every replica did. */
  lemma HeldWhenAskedIff(c: Config, asked: Asked, term: nat, at: Position, leader: string, need: nat)
    requires leader !in asked && at.term == term && 1 <= at.next
    requires forall q :: q in asked ==> asked[q].applied.term <= term
    ensures Survives(c, asked, term, HadIt(asked, at), leader, need) <==>
      need <= |HadIt(asked, at)| || HadIt(asked, at) == asked.Keys
  {
    var had := HadIt(asked, at);
    SurvivesIff(c, asked, term, had, leader, need);
    if had != asked.Keys {
      var pod := FurthestWithout(asked, term, at);
      SubsetIsNoLarger(Ahead(asked, term, pod), had);
      forall p | p in asked && p !in had ensures |had| <= |Ahead(asked, term, p)| {
        HoldersAreAhead(asked, term, at, p);
        SubsetIsNoLarger(had, Ahead(asked, term, p));
      }
    }
  }

  /** And what comes in between can only hurt by emptying: if nobody who held the write
      when it was asked has lost it, enough of them are enough. */
  lemma EnoughAreEnough(c: Config, asked: Asked, term: nat, at: Position, have: set<Pod>, leader: string, need: nat)
    requires leader !in asked && at.term == term && 1 <= at.next
    requires HadIt(asked, at) <= have && need <= |HadIt(asked, at)|
    ensures Survives(c, asked, term, have, leader, need)
  {
    SurvivesIff(c, asked, term, have, leader, need);
    forall p | p in asked && p !in have ensures need <= |Ahead(asked, term, p)| {
      HoldersAreAhead(asked, term, at, p);
      SubsetIsNoLarger(HadIt(asked, at), Ahead(asked, term, p));
    }
  }

  /** Everybody was asked during this run, each at a moment of its own. */
  ghost predicate AskedIn(w: World, evs: seq<Event>, when: map<Pod, nat>, asked: Asked)
    requires Inv(w)
  {
    && when.Keys == asked.Keys == w.replicas.Keys
    && (forall pod :: pod in asked ==> when[pod] <= |evs|)
    && (forall pod :: pod in asked ==> var u := Run(w, evs[..when[pod]]); pod in u.replicas && asked[pod] == u.replicas[pod])
  }

  /** Nobody has gone back on what it had reached in this world. */
  predicate AskedLater(w: World, asked: Asked) {
    && asked.Keys == w.replicas.Keys
    && forall pod :: pod in asked ==>
      && Reaches(asked[pod].peak, w.replicas[pod].peak)
      && (asked[pod].applied == ZERO || asked[pod].applied == asked[pod].peak)
  }

  lemma AskedInIsLater(w: World, evs: seq<Event>, when: map<Pod, nat>, asked: Asked)
    requires Inv(w) && AskedIn(w, evs, when, asked)
    ensures AskedLater(w, asked)
  {
    forall pod | pod in asked
      ensures Reaches(asked[pod].peak, w.replicas[pod].peak) && (asked[pod].applied == ZERO || asked[pod].applied == asked[pod].peak)
    {
      PeaksOnlyRise(w, evs[..when[pod]]);
      assert Inv(Run(w, evs[..when[pod]]));
    }
  }

  /** What was held when asked is held at the end of the run by whoever is not empty. */
  lemma AskedInIsHeld(w: World, evs: seq<Event>, when: map<Pod, nat>, asked: Asked, at: Position)
    requires Inv(w) && AskedIn(w, evs, when, asked)
    ensures forall pod :: pod in HadIt(asked, at) && pod in Run(w, evs).replicas && Run(w, evs).replicas[pod].applied != ZERO ==>
      pod in Have(Run(w, evs), at)
  {
    forall pod | pod in HadIt(asked, at) && pod in Run(w, evs).replicas && Run(w, evs).replicas[pod].applied != ZERO
      ensures pod in Have(Run(w, evs), at)
    {
      HeldIsHeldStill(w, evs, when[pod], pod, at);
    }
  }

  /** What the leader can see is enough: a promise counted out of solid ids, each its own
      replica's, and answered before anybody is asked, survives unless a snapshot
      empties somebody before it is asked or, having been asked, before one is
      promoted. */
  lemma CountedWellSurvives(c: Config, w: World, k: nat, asked: Asked, have: set<Pod>, leader: string)
    requires Inv(w) && leader !in w.replicas && k < |w.promises|
    requires w.promises[k].hollow == {} && InjectiveOn(w.promises[k].counted, w.owner)
    requires AskedLater(w, asked)
    requires forall pod :: pod in Holders(w, w.promises[k]) ==> pod in asked && asked[pod].applied != ZERO
    requires HadIt(asked, w.promises[k].at) <= have
    ensures Survives(c, asked, w.leader.term, have, leader, w.promises[k].need)
  {
    var p := w.promises[k];
    CountsReplicasIff(w, p);
    forall pod | pod in Holders(w, p) ensures pod in HadIt(asked, p.at) {
      var id :| id in p.counted - p.hollow && w.owner[id] == pod;
      assert Reached(w, id, p.at);
      ReachesIsATotalOrder(asked[pod].peak, w.replicas[pod].peak, p.at);
    }
    SubsetIsNoLarger(Holders(w, p), HadIt(asked, p.at));
    EnoughAreEnough(c, asked, w.leader.term, p.at, have, leader, p.need);
  }

  // ----- and four ways in which it does not

  /** A write not yet made when the replicas were asked is lost to any that was behind
      nobody and has not taken it since. */
  lemma BeyondThePoll(c: Config, asked: Asked, term: nat, at: Position, leader: string, need: nat)
    requires leader !in asked && asked != map[] && need >= 1 && at.term == term && 1 <= at.next
    requires forall q :: q in asked ==> asked[q].applied.term <= term && !Reaches(asked[q].applied, at)
    ensures !Survives(c, asked, term, HadIt(asked, at), leader, need)
  {
    HeldWhenAskedIff(c, asked, term, at, leader, need);
    assert HadIt(asked, at) == {};
    var pod :| pod in asked;
  }

  /** A write acknowledged by one replica after both were asked, while the leader that
      could not be reached went on leading: nobody is missing, the id counted is solid
      and its own replica's, and the other is promoted. */
  function Later(b: Pod, at: Position): seq<Event> {
    [Writes(1), Applies(b, at), Tells("y")] + [Hears("y", at), Answers204(at, 1)]
  }

  lemma AnsweredAfterThePoll(c: Config, w: World, leader: string, a: Pod, b: Pod)
    requires Inv(w) && w.replicas.Keys == {a, b} && a != b && leader !in w.replicas && w.promises == []
    requires w.leader != ZERO && w.replicas[a] == w.replicas[b] == Replica(w.leader, w.leader)
    requires w.owner == map["y" := b] && w.acks == map["y" := w.leader] && w.hollow == {}
    ensures var at := Position(w.leader.term, w.leader.next + 1);
      var v := Run(w, Later(b, at));
      var nodes := [AnswerOf(a, w.replicas[a], 0), AnswerOf(b, w.replicas[b], 0)];
      && |v.promises| == 1 && v.promises[0] == Promise(at, 1, {"y"}, {}) && v.owner == w.owner
      && Have(v, at) == {b}
      && Polls(w.replicas, w.leader.term, nodes, leader, {}) && Chosen(c, nodes, leader, Some(0)) == Pick(0)
      && !Survives(c, w.replicas, w.leader.term, Have(v, at), leader, 1)
  {
    var at := Position(w.leader.term, w.leader.next + 1);
    var nodes := [AnswerOf(a, w.replicas[a], 0), AnswerOf(b, w.replicas[b], 0)];
    OneIsAnswered(w, a, b);
    hide Run, Inv, Survives;
    BothAnswer(c, w.replicas, w.leader.term, leader, a, b);
    LostWith(c, w.replicas, w.leader.term, {b}, leader, 1, nodes, {});
  }

  lemma BothAnswer(c: Config, asked: Asked, term: nat, leader: string, a: Pod, b: Pod)
    requires asked.Keys == {a, b} && a != b && leader !in asked && asked[a] == asked[b] && asked[a].applied != ZERO
    ensures var nodes := [AnswerOf(a, asked[a], 0), AnswerOf(b, asked[b], 0)];
      Polls(asked, term, nodes, leader, {}) && Chosen(c, nodes, leader, Some(0)) == Pick(0)
  {
    var nodes := [AnswerOf(a, asked[a], 0), AnswerOf(b, asked[b], 0)];
    assert Eligible(nodes[0], leader) && Eligible(nodes[1], leader);
    assert Answers(nodes, leader, a) && Answers(nodes, leader, b);
    FirstIsChosen(c, nodes, leader);
  }

  lemma OneIsAnswered(w: World, a: Pod, b: Pod)
    requires Inv(w) && w.replicas.Keys == {a, b} && a != b && w.promises == []
    requires w.leader != ZERO && w.replicas[a] == w.replicas[b] == Replica(w.leader, w.leader)
    requires w.owner == map["y" := b] && w.acks == map["y" := w.leader] && w.hollow == {}
    ensures var at := Position(w.leader.term, w.leader.next + 1);
      var v := Run(w, Later(b, at));
      && v.promises == [Promise(at, 1, {"y"}, {})] && v.owner == w.owner && Have(v, at) == {b}
  {
    hide Run, Inv;
    var at := Position(w.leader.term, w.leader.next + 1);
    var w3 := w.(leader := at, replicas := w.replicas[b := Replica(at, at)], mail := w.mail + {("y", at)});
    WrittenAndTold(w, b);
    HeardAndAnswered(w3, at);
    InvIsWellFormed(w);
    RunConcat(w, [Writes(1), Applies(b, at), Tells("y")], [Hears("y", at), Answers204(at, 1)]);
    assert Have(w3, at) == {b};
  }

  lemma WrittenAndTold(w: World, b: Pod)
    requires Inv(w) && b in w.replicas && w.owner == map["y" := b]
    requires w.leader != ZERO && w.replicas[b] == Replica(w.leader, w.leader)
    ensures var at := Position(w.leader.term, w.leader.next + 1);
      var v := w.(leader := at, replicas := w.replicas[b := Replica(at, at)], mail := w.mail + {("y", at)});
      Inv(v) && Run(w, [Writes(1), Applies(b, at), Tells("y")]) == v
  {
    hide Run, Inv;
    var at := Position(w.leader.term, w.leader.next + 1);
    var evs := [Writes(1), Applies(b, at), Tells("y")];
    InvIsWellFormed(w);
    RunsOne(w, evs);
    var w1 := w.(leader := at);
    InvIsWellFormed(w1);
    assert evs[1..] == [Applies(b, at), Tells("y")];
    RunsOne(w1, evs[1..]);
    var w2 := w1.(replicas := w.replicas[b := Replica(at, at)]);
    InvIsWellFormed(w2);
    assert evs[1..][1..] == [Tells("y")];
    RunsOne(w2, evs[1..][1..]);
    RunsNone(Step(w2, Tells("y")));
    assert evs[1..][1..][1..] == [];
  }

  lemma Heard(w: World, at: Position)
    requires Inv(w) && ("y", at) in w.mail && w.hollow == {} && w.acks.Keys == {"y"} && !Reaches(w.acks["y"], at)
    ensures var v := w.(acks := map["y" := at]);
      Inv(v) && Run(w, [Hears("y", at)]) == v && Reaching(v.acks, at) == {"y"}
  {
    var v := w.(acks := map["y" := at]);
    assert Step(w, Hears("y", at)) == v by {
      assert Changed(w.acks, Ack("y", at)) == map["y" := at] && {} - {"y"} == w.hollow;
    }
    assert Reaching(v.acks, at) == {"y"} by { ReachesIsATotalOrder(at, at, at); }
    hide Inv, Step, Reaches;
    RunsOne(w, [Hears("y", at)]);
  }

  lemma HeardAndAnswered(w: World, at: Position)
    requires Inv(w) && w.leader == at && 1 <= at.next && ("y", at) in w.mail && w.promises == [] && w.hollow == {}
    requires w.acks.Keys == {"y"} && !Reaches(w.acks["y"], at)
    ensures var v := w.(acks := map["y" := at], promises := [Promise(at, 1, {"y"}, {})]);
      Run(w, [Hears("y", at), Answers204(at, 1)]) == v
  {
    hide Run, Inv;
    var w1 := w.(acks := map["y" := at]);
    Heard(w, at);
    InvIsWellFormed(w1);
    assert w1.hollow * {"y"} == {};
    Promises(w1, at, 1);
    assert [Hears("y", at)] + [Answers204(at, 1)] == [Hears("y", at), Answers204(at, 1)];
    RunConcat(w, [Hears("y", at)], [Answers204(at, 1)]);
  }

  lemma RunsNone(w: World)
    requires Inv(w)
    ensures Run(w, []) == w
  {
  }

  /** A replica that was foremost when it was asked and is emptied before it is promoted:
      its own leader answered divergence with a snapshot, and promotion cut it off. */
  lemma EmptiedAfterThePoll(c: Config, w: World, leader: string, pod: Pod, at: Position, need: nat)
    requires Inv(w) && pod in w.replicas && leader !in w.replicas && need >= 1 && 1 <= at.next
    requires Ahead(w.replicas, w.leader.term, pod) == {}
    ensures var v := Run(w, [Empties(pod)]);
      !Survives(c, w.replicas, w.leader.term, Have(v, at), leader, need)
  {
    RunsOne(w, [Empties(pod)]);
    var v := Step(w, Empties(pod));
    assert Run(w, [Empties(pod)]) == v;
    hide Run, Inv, Survives;
    assert pod !in Have(v, at);
    SurvivesIff(c, w.replicas, w.leader.term, Have(v, at), leader, need);
  }

  /** A leader that has answered nothing yet and has nobody registered. */
  predicate Untold(w: World) {
    w.acks == map[] && w.owner == map[] && w.hollow == {} && w.promises == []
  }

  /** One replica, registered under two names, and a 204 for two. */
  function Twice(pod: Pod, at: Position): seq<Event> {
    [Names(pod, "x"), Opens("x", at, at)] + ([Names(pod, "y"), Opens("y", at, at)] + [Answers204(at, 2)])
  }

  lemma TwiceCounts(w: World, pod: Pod)
    requires Inv(w) && Untold(w) && pod in w.replicas && w.replicas[pod].peak == w.leader && w.leader.next >= 1
    ensures var v := Run(w, Twice(pod, w.leader));
      v.replicas == w.replicas && v.leader == w.leader &&
      |v.promises| == 1 && v.promises[0].at == w.leader && v.promises[0].need == 2 && Holders(v, v.promises[0]) == {pod}
  {
    hide Run, Inv;
    var at := w.leader;
    var w1 := Registered(w, pod, "x", at, at);
    var w2 := Registered(w1, pod, "y", at, at);
    Registers(w, pod, "x", at, at, [Names(pod, "y"), Opens("y", at, at)] + [Answers204(at, 2)]);
    Registers(w1, pod, "y", at, at, [Answers204(at, 2)]);
    InvIsWellFormed(w2);
    assert w2.acks == map["x" := at, "y" := at] && Reaching(w2.acks, at) == {"x", "y"};
    Promises(w2, at, 2);
  }

  /** One replica that restarted while its old stream lingers answers for two
      followers.  It is lost, one where two were waited for, and what is promoted
      does not have the write. */
  lemma OneReplicaCountsTwice(c: Config, w: World, leader: string, pod: Pod, other: Pod)
    requires Inv(w) && Untold(w) && w.leader.next >= 1
    requires w.replicas.Keys == {pod, other} && pod != other && leader !in w.replicas
    requires w.replicas[pod].peak == w.leader && !Reaches(w.replicas[other].applied, w.leader)
    ensures var v := Run(w, Twice(pod, w.leader));
      && v.replicas == w.replicas
      && |v.promises| == 1 && v.promises[0].at == w.leader && v.promises[0].need == 2 && Holders(v, v.promises[0]) == {pod}
      && var nodes := [Silent(pod), AnswerOf(other, v.replicas[other], 0)];
      && Polls(v.replicas, v.leader.term, nodes, leader, {pod}) && Chosen(c, nodes, leader, Some(0)) == Pick(1)
      && !Reaches(v.replicas[other].applied, w.leader) && !Survives(c, v.replicas, v.leader.term, Have(v, w.leader), leader, 2)
  {
    var v := Run(w, Twice(pod, w.leader));
    hide Run, Inv, Survives;
    TwiceCounts(w, pod);
    OnlyOneLeft(c, v.replicas, v.leader.term, leader, pod, other);
    LostWith(c, v.replicas, v.leader.term, Have(v, w.leader), leader, 2, [Silent(pod), AnswerOf(other, v.replicas[other], 0)], {pod});
  }

  lemma OnlyOneLeft(c: Config, asked: Asked, term: nat, leader: string, pod: Pod, other: Pod)
    requires asked.Keys == {pod, other} && pod != other && leader !in asked
    ensures var nodes := [Silent(pod), AnswerOf(other, asked[other], 0)];
      Polls(asked, term, nodes, leader, {pod}) && Chosen(c, nodes, leader, Some(0)) == Pick(1)
  {
    var nodes := [Silent(pod), AnswerOf(other, asked[other], 0)];
    assert Eligible(nodes[1], leader) && nodes[1].status.value.waitFor > 0;
    assert Answers(nodes, leader, other);
  }

  /** A follower with nothing to carry on from, and a 204 for one. */
  function Empty(pod: Pod, at: Position): seq<Event> {
    [Names(pod, "x"), Opens("x", ZERO, at)] + [Answers204(at, 1)]
  }

  lemma EmptyCounts(w: World, pod: Pod)
    requires Inv(w) && Untold(w) && pod in w.replicas && w.leader.next >= 1
    ensures var v := Run(w, Empty(pod, w.leader));
      v.replicas == w.replicas && v.leader == w.leader &&
      |v.promises| == 1 && v.promises[0].at == w.leader && v.promises[0].need == 1 && Holders(v, v.promises[0]) == {}
  {
    hide Run, Inv;
    var at := w.leader;
    var w1 := Registered(w, pod, "x", ZERO, at);
    ReachesIsATotalOrder(w.replicas[pod].peak, at, at);
    Registers(w, pod, "x", ZERO, at, [Answers204(at, 1)]);
    InvIsWellFormed(w1);
    assert w1.acks == map["x" := at] && Reaching(w1.acks, at) == {"x"};
    Promises(w1, at, 1);
  }

  /** A replica that has nothing, and has only just opened its stream, answers for a
      follower that holds the write.  Nothing but the leader is lost, and it is
      promoted. */
  lemma AnEmptyReplicaCounts(c: Config, w: World, leader: string, pod: Pod)
    requires Inv(w) && Untold(w) && w.leader.next >= 1
    requires w.replicas.Keys == {pod} && leader != pod && w.replicas[pod].applied == ZERO
    ensures var v := Run(w, Empty(pod, w.leader));
      && v.replicas == w.replicas
      && |v.promises| == 1 && v.promises[0].at == w.leader && v.promises[0].need == 1 && Holders(v, v.promises[0]) == {}
      && var nodes := [AnswerOf(pod, v.replicas[pod], 0)];
      && Polls(v.replicas, v.leader.term, nodes, leader, {}) && Chosen(c, nodes, leader, Some(0)) == Pick(0)
      && v.replicas[pod].applied == ZERO && !Survives(c, v.replicas, v.leader.term, Have(v, w.leader), leader, 1)
  {
    var v := Run(w, Empty(pod, w.leader));
    hide Run, Inv, Survives;
    EmptyCounts(w, pod);
    OnlyOneAtAll(c, v.replicas, v.leader.term, leader, pod);
    LostWith(c, v.replicas, v.leader.term, Have(v, w.leader), leader, 1, [AnswerOf(pod, v.replicas[pod], 0)], {});
  }

  lemma OnlyOneAtAll(c: Config, asked: Asked, term: nat, leader: string, pod: Pod)
    requires asked.Keys == {pod} && leader != pod
    ensures var nodes := [AnswerOf(pod, asked[pod], 0)];
      Polls(asked, term, nodes, leader, {}) && Chosen(c, nodes, leader, Some(0)) == Pick(0)
  {
    var nodes := [AnswerOf(pod, asked[pod], 0)];
    assert Eligible(nodes[0], leader) && Answers(nodes, leader, pod);
    FirstIsChosen(c, nodes, leader);
  }
}
