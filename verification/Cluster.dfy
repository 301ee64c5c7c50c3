/** Nodes following, promoting and restarting, the replication streams between
    them, and the terms those carry. */
module Cluster {
  import opened Base
  import Roles

  type Id = string

  /** Where a node's follower dials: one node, or the write Service, which may name
      any node at any moment. */
  datatype Address = Direct(id: Id) | Service

  /** `since` is when the following began; `asked` is the node whose term was
      checked, when it began through POST /v1/follow. */
  datatype Following = Following(address: Address, since: nat, asked: Option<Id>)

  datatype Stream = Stream(source: Id, began: nat)

  /** `term` is the store's and `applied` that of the position it asks from. */
  datatype Node = Node(term: nat, applied: nat, following: Option<Following>, stream: Option<Stream>)

  datatype World = World(clock: nat, nodes: map<Id, Node>)

  datatype Event =
    | Starts(id: Id, address: Address) // a node brought up behind another
    | Enlists(id: Id, address: Address, asked: Id, theirs: nat) // the route
    | Promotes(id: Id, term: nat)
    | Restarts(id: Id, behind: Option<Address>)
    | Opens(id: Id, source: Id)
    | Closes(id: Id)
    | Takes(id: Id) // a frame of whoever it streams from
    | Fences(id: Id, source: Id, term: nat) // asking on a newer term

  predicate Dials(f: Following, source: Id) {
    f.address == Direct(source) || f.address == Service
  }

  predicate Enabled(w: World, ev: Event) {
    && ev.id in w.nodes
    && var n := w.nodes[ev.id];
       match ev
       case Starts(_, _) => n.following.None?
       case Enlists(_, address, asked, theirs) =>
         && n.following.None? && asked in w.nodes
         && (address == Direct(asked) || address == Service)
         && theirs <= w.nodes[asked].term && n.term <= theirs // asked a moment ago
       case Promotes(_, term) => n.term < term
       case Restarts(_, _) => true
       case Opens(_, source) =>
         && n.following.Some? && n.stream.None? && source in w.nodes && Dials(n.following.value, source)
         && w.nodes[source].following.None? // a node that is following does not serve
         && n.applied <= w.nodes[source].term
       case Closes(_) => true
       case Takes(_) => n.stream.Some? && n.stream.value.source in w.nodes
       case Fences(_, source, term) =>
         && n.following.Some? && n.stream.None? && source in w.nodes && Dials(n.following.value, source)
         && w.nodes[source].following.None?
         && w.nodes[source].term < n.applied && w.nodes[source].term <= term <= n.applied
  }

  function Step(w: World, ev: Event): (v: World)
    requires Enabled(w, ev)
    ensures v.nodes.Keys == w.nodes.Keys
  {
    var n := w.nodes[ev.id];
    var t := w.clock + 1;
    match ev
    case Starts(id, address) =>
      World(t, w.nodes[id := n.(following := Some(Following(address, t, None)))])
    case Enlists(id, address, asked, _) =>
      World(t, w.nodes[id := n.(following := Some(Following(address, t, Some(asked))))])
    case Promotes(id, term) => World(t, w.nodes[id := n.(term := term, following := None, stream := None)])
    case Restarts(id, behind) =>
      var following := if behind.None? then None else Some(Following(behind.value, t, None));
      World(t, w.nodes[id := n.(following := following, stream := None)])
    case Opens(id, source) => World(t, w.nodes[id := n.(stream := Some(Stream(source, t)))])
    case Closes(id) => World(t, w.nodes[id := n.(stream := None)])
    case Takes(id) =>
      var theirs := w.nodes[n.stream.value.source].term;
      World(t, w.nodes[id := if theirs < n.term then n else n.(term := theirs, applied := theirs)])
    case Fences(_, source, term) => World(t, w.nodes[source := w.nodes[source].(term := term)])
  }

  function Run(w: World, evs: seq<Event>): (v: World)
    ensures v.nodes.Keys == w.nodes.Keys
    decreases |evs|
  {
    if evs == [] then w else Run(if Enabled(w, evs[0]) then Step(w, evs[0]) else w, evs[1..])
  }

  /** Nodes on any terms, none of them following anybody yet. */
  predicate Init(w: World) {
    forall id :: id in w.nodes ==> w.nodes[id].following.None? && w.nodes[id].stream.None? && w.nodes[id].applied <= w.nodes[id].term
  }

  // ----- who streams from whom

  /** A node streams only while it follows, and its source, if it too is following,
      began after the stream did. */
  predicate StreamOk(w: World, id: Id)
    requires id in w.nodes
  {
    var n := w.nodes[id];
    && (n.following.Some? ==> n.following.value.since <= w.clock)
    && (n.stream.Some? ==>
          && n.following.Some? && n.following.value.since < n.stream.value.began <= w.clock
          && n.stream.value.source in w.nodes
          && Dials(n.following.value, n.stream.value.source)
          && var source := w.nodes[n.stream.value.source];
             source.following.Some? ==> n.stream.value.began < source.following.value.since)
  }

  /** A node that joined by the route is on no newer a term than the node asked,
      while it dials that node and nothing else. */
  predicate JoinOk(w: World, id: Id)
    requires id in w.nodes
  {
    var n := w.nodes[id];
    && n.applied <= n.term
    && (n.following.Some? && n.following.value.asked.Some? ==>
          var asked := n.following.value.asked.value;
          && asked in w.nodes
          && (n.following.value.address == Direct(asked) ==> n.term <= w.nodes[asked].term))
  }

  predicate Inv(w: World) {
    forall id :: id in w.nodes ==> StreamOk(w, id) && JoinOk(w, id)
  }

  /** A step that changes one node is judged on that node alone. */
  lemma NodeKeeps(w: World, id: Id, n: Node)
    requires Inv(w) && id in w.nodes && n.term >= w.nodes[id].term
    requires n.following.Some? ==> n.following == w.nodes[id].following || n.following.value.since == w.clock + 1
    requires var v := World(w.clock + 1, w.nodes[id := n]); StreamOk(v, id) && JoinOk(v, id)
    ensures Inv(World(w.clock + 1, w.nodes[id := n]))
  {
    var v := World(w.clock + 1, w.nodes[id := n]);
    forall j | j in v.nodes && j != id ensures StreamOk(v, j) && JoinOk(v, j) {
      assert StreamOk(w, j) && JoinOk(w, j) && StreamOk(w, id);
    }
  }

  lemma RoleStepKeeps(w: World, ev: Event)
    requires Inv(w) && Enabled(w, ev)
    requires ev.Starts? || ev.Enlists? || ev.Promotes? || ev.Restarts?
    ensures Inv(Step(w, ev))
  {
    assert StreamOk(w, ev.id) && JoinOk(w, ev.id);
    NodeKeeps(w, ev.id, Step(w, ev).nodes[ev.id]);
  }

  lemma StreamStepKeeps(w: World, ev: Event)
    requires Inv(w) && Enabled(w, ev)
    requires ev.Opens? || ev.Closes?
    ensures Inv(Step(w, ev))
  {
    assert StreamOk(w, ev.id) && JoinOk(w, ev.id);
    NodeKeeps(w, ev.id, Step(w, ev).nodes[ev.id]);
  }

  lemma TakingKeeps(w: World, id: Id)
    requires Inv(w) && Enabled(w, Takes(id))
    ensures Inv(Step(w, Takes(id)))
  {
    assert StreamOk(w, id) && JoinOk(w, id);
    NodeKeeps(w, id, Step(w, Takes(id)).nodes[id]);
  }

  lemma FencingKeeps(w: World, id: Id, source: Id, term: nat)
    requires Inv(w) && Enabled(w, Fences(id, source, term))
    ensures Inv(Step(w, Fences(id, source, term)))
  {
    assert StreamOk(w, source) && JoinOk(w, source);
    NodeKeeps(w, source, w.nodes[source].(term := term));
  }

  lemma StepKeeps(w: World, ev: Event)
    requires Inv(w) && Enabled(w, ev)
    ensures Inv(Step(w, ev))
  {
    hide Inv, Step;
    match ev
    case Takes(id) => TakingKeeps(w, id);
    case Fences(id, source, term) => FencingKeeps(w, id, source, term);
    case Opens(_, _) => StreamStepKeeps(w, ev);
    case Closes(_) => StreamStepKeeps(w, ev);
    case _ => RoleStepKeeps(w, ev);
  }

  lemma {:induction false} RunKeeps(w: World, evs: seq<Event>)
    requires Inv(w)
    ensures Inv(Run(w, evs))
    decreases |evs|
  {
    if evs != [] {
      if Enabled(w, evs[0]) {
        StepKeeps(w, evs[0]);
      }
      RunKeeps(if Enabled(w, evs[0]) then Step(w, evs[0]) else w, evs[1..]);
    }
  }

  predicate StreamsFrom(w: World, a: Id, b: Id) {
    a in w.nodes && w.nodes[a].stream.Some? && w.nodes[a].stream.value.source == b
  }

  /** Each node of a chain streams from the next. */
  predicate Chain(w: World, p: seq<Id>) {
    forall i :: 0 <= i < |p| - 1 ==> StreamsFrom(w, p[i], p[i + 1])
  }

  lemma {:induction false} OpenedLaterUpstream(w: World, p: seq<Id>)
    requires Inv(w) && Chain(w, p) && |p| >= 3
    ensures StreamsFrom(w, p[0], p[1]) && StreamsFrom(w, p[|p| - 2], p[|p| - 1])
    ensures w.nodes[p[0]].stream.value.began < w.nodes[p[|p| - 2]].stream.value.began
    decreases |p|
  {
    assert StreamsFrom(w, p[0], p[1]) && StreamsFrom(w, p[1], p[2]);
    assert StreamOk(w, p[0]) && StreamOk(w, p[1]);
    if |p| > 3 {
      OpenedLaterUpstream(w, p[1..]);
    }
  }

  /** However addresses resolve and nodes follow, promote and restart, no chain of
      open streams ever comes back to where it began: no node applies what is being
      copied from itself. */
  lemma StreamsNeverCycle(w: World, evs: seq<Event>, p: seq<Id>)
    requires Init(w)
    requires Chain(Run(w, evs), p) && |p| >= 2
    ensures p[0] != p[|p| - 1]
  {
    RunKeeps(w, evs);
    var v := Run(w, evs);
    if p[0] == p[|p| - 1] {
      assert StreamsFrom(v, p[0], p[1]) && StreamOk(v, p[0]);
      var round := p + [p[1]];
      assert forall i :: 0 <= i < |round| - 1 ==> StreamsFrom(v, round[i], round[i + 1]) by {
        forall i | 0 <= i < |round| - 1 ensures StreamsFrom(v, round[i], round[i + 1]) {
          if i < |p| - 1 {
            assert StreamsFrom(v, p[i], p[i + 1]);
          }
        }
      }
      OpenedLaterUpstream(v, round);
    }
  }

  // ----- who may fence whom

  /** A node that joined a leader by the route, and dials it and nothing else, never
      asks anybody anything on a newer term than theirs. */
  lemma JoiningNeverFences(w: World, evs: seq<Event>, id: Id, source: Id, term: nat)
    requires Init(w)
    requires id in Run(w, evs).nodes
    requires var f := Run(w, evs).nodes[id].following;
      f.Some? && f.value.asked.Some? && f.value.address == Direct(f.value.asked.value)
    ensures !Enabled(Run(w, evs), Fences(id, source, term))
  {
    RunKeeps(w, evs);
    var v := Run(w, evs);
    assert JoinOk(v, id);
  }

  /** Nothing is done to this node by anybody. */
  predicate Leaves(ev: Event, id: Id) {
    !((ev.Promotes? && ev.id == id) || (ev.Fences? && ev.source == id) ||
      ((ev.Starts? || ev.Enlists? || ev.Restarts?) && ev.id == id))
  }

  lemma {:induction false} RunConcat(w: World, a: seq<Event>, b: seq<Event>)
    ensures Run(w, a + b) == Run(Run(w, a), b)
    decreases |a|
  {
    hide Step, Enabled;
    if a == [] {
      assert a + b == b;
    } else {
      assert (a + b)[1..] == a[1..] + b;
      RunConcat(if Enabled(w, a[0]) then Step(w, a[0]) else w, a[1..], b);
    }
  }

  lemma {:induction false} TermsNeverFall(w: World, evs: seq<Event>, id: Id)
    requires id in w.nodes
    ensures Run(w, evs).nodes[id].term >= w.nodes[id].term
    decreases |evs|
  {
    if evs != [] {
      TermsNeverFall(if Enabled(w, evs[0]) then Step(w, evs[0]) else w, evs[1..], id);
    }
  }

  lemma LeftAfter(w: World, ev: Event, id: Id)
    requires Inv(w) && Enabled(w, ev) && id in w.nodes && w.nodes[id].following.None? && Leaves(ev, id)
    ensures Step(w, ev).nodes[id].following.None? && Step(w, ev).nodes[id].term == w.nodes[id].term
  {
    assert StreamOk(w, id);
  }

  lemma {:induction false} LeftAlone(w: World, evs: seq<Event>, id: Id)
    requires Inv(w) && id in w.nodes && w.nodes[id].following.None?
    requires forall i :: 0 <= i < |evs| ==> Leaves(evs[i], id)
    ensures Run(w, evs).nodes[id].following.None? && Run(w, evs).nodes[id].term == w.nodes[id].term
    decreases |evs|
  {
    if evs != [] {
      assert Leaves(evs[0], id);
      if Enabled(w, evs[0]) {
        LeftAfter(w, evs[0], id);
        StepKeeps(w, evs[0]);
      }
      hide Inv, Step, Enabled;
      LeftAlone(if Enabled(w, evs[0]) then Step(w, evs[0]) else w, evs[1..], id);
    }
  }

  /** What the controller saw is enough for the route.  It asked the node at one
      moment and the leader at another, in either order; the node was leading, on an
      older term than the leader's.  If nothing was done to the node since it was
      asked, it is still not ahead of the leader when it is told to follow, by that
      leader's own address or by the Service's if that still leads there, whatever
      else went on. */
  lemma PolledTestImpliesTheRoutes(w: World, evs: seq<Event>, id: Id, leader: Id, polled: nat, polledLeader: nat)
    requires Inv(w) && id in w.nodes && leader in w.nodes && polled <= |evs| && polledLeader <= |evs|
    requires Run(w, evs[..polled]).nodes[id].following.None?
    requires Run(w, evs[..polled]).nodes[id].term < Run(w, evs[..polledLeader]).nodes[leader].term
    requires forall i :: polled <= i < |evs| ==> Leaves(evs[i], id)
    ensures var v := Run(w, evs);
      && Enabled(v, Enlists(id, Service, leader, v.nodes[leader].term))
      && Enabled(v, Enlists(id, Direct(leader), leader, v.nodes[leader].term))
  {
    assert evs[..polled] + evs[polled..] == evs && evs[..polledLeader] + evs[polledLeader..] == evs;
    RunConcat(w, evs[..polled], evs[polled..]);
    RunConcat(w, evs[..polledLeader], evs[polledLeader..]);
    RunKeeps(w, evs[..polled]);
    hide Run, Inv, Leaves, Enabled;
    LeftAlone(Run(w, evs[..polled]), evs[polled..], id);
    TermsNeverFall(Run(w, evs[..polledLeader]), evs[polledLeader..], leader);
    MayJoin(Run(w, evs), id, leader);
  }

  lemma MayJoin(w: World, id: Id, leader: Id)
    requires id in w.nodes && leader in w.nodes
    requires w.nodes[id].following.None? && w.nodes[id].term <= w.nodes[leader].term
    ensures Enabled(w, Enlists(id, Service, leader, w.nodes[leader].term))
    ensures Enabled(w, Enlists(id, Direct(leader), leader, w.nodes[leader].term))
  {
  }

  // ----- joining, exactly

  /** The node goes on with the following it began with. */
  predicate Stays(evs: seq<Event>, id: Id) {
    forall i :: 0 <= i < |evs| ==> !((evs[i].Promotes? || evs[i].Restarts?) && evs[i].id == id)
  }

  lemma {:induction false} FollowingStays(w: World, evs: seq<Event>, id: Id)
    requires id in w.nodes && w.nodes[id].following.Some? && Stays(evs, id)
    ensures Run(w, evs).nodes[id].following == w.nodes[id].following
    decreases |evs|
  {
    if evs != [] {
      var ev := evs[0];
      assert !((ev.Promotes? || ev.Restarts?) && ev.id == id);
      FollowingStays(if Enabled(w, ev) then Step(w, ev) else w, evs[1..], id);
    }
  }

  /** With nobody else there, a follower is never ahead of whom it asked. */
  predicate Trails(w: World, id: Id, asked: Id) {
    && id in w.nodes && asked in w.nodes && id != asked && w.nodes.Keys == {id, asked}
    && w.nodes[id].following.Some? && w.nodes[id].applied <= w.nodes[asked].term
  }

  lemma TrailsAfter(w: World, ev: Event, id: Id, asked: Id)
    requires Inv(w) && Trails(w, id, asked) && Enabled(w, ev)
    requires !((ev.Promotes? || ev.Restarts?) && ev.id == id)
    ensures Trails(Step(w, ev), id, asked)
  {
    assert StreamOk(w, id) && JoinOk(w, asked) && StreamOk(w, asked);
  }

  lemma {:induction false} TrailsStill(w: World, evs: seq<Event>, id: Id, asked: Id)
    requires Inv(w) && Trails(w, id, asked) && Stays(evs, id)
    ensures Trails(Run(w, evs), id, asked)
    decreases |evs|
  {
    if evs != [] {
      var ev := evs[0];
      assert !((ev.Promotes? || ev.Restarts?) && ev.id == id);
      if Enabled(w, ev) {
        TrailsAfter(w, ev, id, asked);
        StepKeeps(w, ev);
      }
      hide Inv, Trails, Enabled, Step;
      TrailsStill(if Enabled(w, ev) then Step(w, ev) else w, evs[1..], id, asked);
    }
  }

  function Most(a: nat, b: nat): (m: nat)
    ensures m >= a && m >= b && (m == a || m == b)
  {
    if a >= b then a else b
  }

  /** The follower's stream ends, and a third node is promoted, twice. */
  function Overtaking(id: Id, third: Id, top: nat): seq<Event> {
    [Closes(id), Promotes(third, top + 1), Promotes(third, top + 2)]
  }

  /** The follower, dialling the Service, finds that node and takes something. */
  function CatchingUp(id: Id, third: Id): seq<Event> {
    [Opens(id, third), Takes(id), Closes(id)]
  }

  /** The Service moves to a third node, which was promoted twice, and then back to
      the one that was asked, promoted once; the follower keeps dialling it. */
  function MovesAway(w: World, id: Id, asked: Id, third: Id): seq<Event>
    requires id in w.nodes && asked in w.nodes && third in w.nodes
  {
    var top := Most(w.nodes[id].term, Most(w.nodes[asked].term, w.nodes[third].term));
    Overtaking(id, third, top) + (CatchingUp(id, third) + [Promotes(asked, top + 1)])
  }

  lemma Overtakes(w: World, id: Id, asked: Id, third: Id, top: nat)
    requires id in w.nodes && asked in w.nodes && third in w.nodes && third != id && asked != id && asked != third
    requires top >= w.nodes[third].term
    ensures var v := Run(w, Overtaking(id, third, top));
      && v.nodes[id] == w.nodes[id].(stream := None) && v.nodes[asked] == w.nodes[asked]
      && v.nodes[third].following.None? && v.nodes[third].term == top + 2
  {
    hide Run;
    var t := w.clock;
    var ahead := w.nodes[third].(following := None, stream := None);
    var w1 := World(t + 1, w.nodes[id := w.nodes[id].(stream := None)]);
    var w2 := World(t + 2, w1.nodes[third := ahead.(term := top + 1)]);
    RunsThree(w, Closes(id), Promotes(third, top + 1), Promotes(third, top + 2), w1, w2);
  }

  lemma CatchesUp(w: World, id: Id, asked: Id, third: Id)
    requires id in w.nodes && asked in w.nodes && third in w.nodes && third != id && asked != id && asked != third
    requires var n := w.nodes[id];
      && n.following.Some? && n.following.value.address == Service && n.stream.None?
      && n.applied <= n.term < w.nodes[third].term
    requires w.nodes[third].following.None?
    ensures var v := Run(w, CatchingUp(id, third));
      && v.nodes[id] == w.nodes[id].(term := w.nodes[third].term, applied := w.nodes[third].term)
      && v.nodes[asked] == w.nodes[asked]
  {
    hide Run;
    var t := w.clock;
    var top := w.nodes[third].term;
    var streaming := w.nodes[id].(stream := Some(Stream(third, t + 1)));
    var w1 := World(t + 1, w.nodes[id := streaming]);
    var w2 := World(t + 2, w1.nodes[id := streaming.(term := top, applied := top)]);
    RunsThree(w, Opens(id, third), Takes(id), Closes(id), w1, w2);
  }

  /** Dialling the Service is not dialling the leader that was asked.  Whenever there
      is a third node to lead in between, there is a run from here, every move of the
      Service in it to a node just promoted, that ends with the leader asked being
      fenced by the node that joined it. */
  lemma ServiceFollowerCanFence(w: World, id: Id, asked: Id, third: Id) returns (term: nat)
    requires Inv(w) && id in w.nodes && asked in w.nodes && third in w.nodes
    requires id != asked && third != id && third != asked
    requires w.nodes[id].following.Some? && w.nodes[id].following.value.address == Service
    ensures Stays(MovesAway(w, id, asked, third), id)
    ensures Enabled(Run(w, MovesAway(w, id, asked, third)), Fences(id, asked, term))
  {
    hide Run, Inv, Enabled, Step, Overtaking, CatchingUp, Stays, Most;
    var top := Most(w.nodes[id].term, Most(w.nodes[asked].term, w.nodes[third].term));
    term := top + 1;
    AppliedIsNotAhead(w, id);
    var first, second, last := Overtaking(id, third, top), CatchingUp(id, third), [Promotes(asked, top + 1)];
    StaysThroughout(w, id, asked, third);
    var u := Run(w, first);
    Overtakes(w, id, asked, third, top);
    var v := Run(u, second);
    CatchesUp(u, id, asked, third);
    IsPromotedAgain(v, id, asked, top);
    RunConcat(w, first, second + last);
    RunConcat(u, second, last);
  }

  lemma AppliedIsNotAhead(w: World, id: Id)
    requires Inv(w) && id in w.nodes
    ensures w.nodes[id].applied <= w.nodes[id].term
  {
    assert JoinOk(w, id);
  }

  lemma StaysThroughout(w: World, id: Id, asked: Id, third: Id)
    requires id in w.nodes && asked in w.nodes && third in w.nodes && third != id && asked != id
    ensures Stays(MovesAway(w, id, asked, third), id)
  {
  }

  lemma IsPromotedAgain(w: World, id: Id, asked: Id, top: nat)
    requires id in w.nodes && asked in w.nodes && asked != id && w.nodes[asked].term <= top
    requires var n := w.nodes[id];
      n.following.Some? && n.following.value.address == Service && n.stream.None? && n.applied == top + 2
    ensures Enabled(Run(w, [Promotes(asked, top + 1)]), Fences(id, asked, top + 1))
  {
    assert Run(w, [Promotes(asked, top + 1)]) == Step(w, Promotes(asked, top + 1));
  }

  lemma RunsThree(w: World, a: Event, b: Event, c: Event, w1: World, w2: World)
    requires Enabled(w, a) && Step(w, a) == w1
    requires Enabled(w1, b) && Step(w1, b) == w2
    requires Enabled(w2, c)
    ensures Run(w, [a, b, c]) == Step(w2, c)
  {
    hide Step, Enabled;
    assert [a, b, c][1..] == [b, c] && [b, c][1..] == [c] && [c][1..] == [];
    assert Run(w, [a, b, c]) == Run(w1, [b, c]);
    assert Run(w1, [b, c]) == Run(w2, [c]);
  }

  ghost predicate NeverFences(w: World, id: Id, asked: Id) {
    forall evs: seq<Event>, term: nat :: Stays(evs, id) ==> !Enabled(Run(w, evs), Fences(id, asked, term))
  }

  /** A node told to follow a leader by the route will never fence it, for as long as
      it goes on following, exactly if it dials that leader itself, or there is no
      third node, or it was told to follow itself. */
  lemma JoinedNeverFencesIff(w: World, id: Id, address: Address, asked: Id, theirs: nat)
    requires Inv(w) && Enabled(w, Enlists(id, address, asked, theirs))
    ensures NeverFences(Step(w, Enlists(id, address, asked, theirs)), id, asked) <==>
      address == Direct(asked) || w.nodes.Keys <= {id, asked} || id == asked
  {
    var v := Step(w, Enlists(id, address, asked, theirs));
    var f := v.nodes[id].following;
    assert JoinOk(w, id);
    StepKeeps(w, Enlists(id, address, asked, theirs));
    if address == Direct(asked) || w.nodes.Keys <= {id, asked} || id == asked {
      forall evs: seq<Event>, term: nat | Stays(evs, id) ensures !Enabled(Run(v, evs), Fences(id, asked, term)) {
        FollowingStays(v, evs, id);
        RunKeeps(v, evs);
        assert JoinOk(Run(v, evs), id);
        if id != asked && address != Direct(asked) {
          TrailsStill(v, evs, id, asked);
        }
      }
    } else {
      var third :| third in w.nodes && third !in {id, asked};
      var term := ServiceFollowerCanFence(v, id, asked, third);
    }
  }

  // ----- the server's own calls

  /** A node's role, and what it is in a cluster where `names` says where each
      address leads. */
  predicate Mirrors(n: Node, s: Roles.State, names: string -> Address) {
    && n.term == s.term
    && (n.following.Some? <==> s.leader != "")
    && (n.following.Some? ==> n.following.value.address == names(s.leader))
  }

  /** Whatever is asked of a server, what it does is nothing or one of these steps:
      the guards in its handlers are the guards here.  `asked` is whom the address
      led to when the route asked it for its term. */
  lemma CallsAreSteps(w: World, id: Id, s: Roles.State, call: Roles.Call, asked: Id, names: string -> Address)
    returns (evs: seq<Event>)
    requires id in w.nodes && Mirrors(w.nodes[id], s, names)
    requires call.ToEnlist? && call.theirs.Some? ==>
      && asked in w.nodes && call.theirs.value <= w.nodes[asked].term
      && (names(call.address) == Direct(asked) || names(call.address) == Service)
    ensures |evs| <= 1 && (evs != [] ==> evs[0].id == id && Enabled(w, evs[0]))
    ensures Mirrors(Run(w, evs).nodes[id], Roles.After(s, call), names)
    ensures evs == [] ==> Roles.After(s, call) == s
  {
    var after := Roles.After(s, call);
    if after == s {
      evs := [];
    } else {
      var ev := match call
        case ToFollow(address, _) => Starts(id, names(address))
        case ToStop => Restarts(id, None)
        case ToPromote(_, _) => if after.term == s.term then Restarts(id, None) else Promotes(id, after.term)
        case ToEnlist(address, _, theirs) => Enlists(id, names(address), asked, theirs.value);
      evs := [ev];
      assert Run(w, evs) == Step(w, ev);
    }
  }
}
