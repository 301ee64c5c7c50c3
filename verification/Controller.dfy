/** The controller's policy: which node to promote, when, and what is done about
    it, call by call, with any call allowed to fail. */
module Controller {
  import opened Base

  datatype Role = Leads | Follows

  datatype Status = Status(role: Role, term: nat, fenced: bool, appliedSeq: nat, waitFor: int)

  /** A pod and what it said of itself, if it answered.  `serving` is the label the
      read Service selects on. */
  datatype Node = Node(name: string, ready: bool, serving: bool, status: Option<Status>)

  datatype Config = Config(grace: nat, requireWaitFor: bool, dryRun: bool, leaseDuration: nat)

  // ----- choosing

  /** Whether `a` got further through the leader's records than `b`. */
  predicate Further(a: Status, b: Status) {
    if a.term != b.term then a.term > b.term else a.appliedSeq > b.appliedSeq
  }

  predicate Eligible(n: Node, leader: string) {
    n.status.Some? && n.name != leader && n.ready && !n.status.value.fenced
  }

  predicate NobodyEligible(nodes: seq<Node>, leader: string) {
    forall j :: 0 <= j < |nodes| ==> !Eligible(nodes[j], leader)
  }

  /** The node nobody eligible is further than, and the first such. */
  predicate IsBest(nodes: seq<Node>, leader: string, i: nat) {
    && i < |nodes| && Eligible(nodes[i], leader)
    && (forall j :: 0 <= j < |nodes| && Eligible(nodes[j], leader) ==>
          !Further(nodes[j].status.value, nodes[i].status.value))
    && (forall j :: 0 <= j < i && Eligible(nodes[j], leader) ==>
          Further(nodes[i].status.value, nodes[j].status.value))
  }

  predicate SomebodyWaits(nodes: seq<Node>) {
    exists j :: 0 <= j < |nodes| && nodes[j].status.Some? && nodes[j].status.value.waitFor > 0
  }

  datatype Why = NobodyAnswered | Asynchronous | LeaseTooOld
  datatype Choice = Pick(i: nat) | Refuse(why: Why)

  lemma BestExtends(nodes: seq<Node>, leader: string, i: nat, was: Option<nat>)
    requires i < |nodes|
    requires if was.None? then NobodyEligible(nodes[..i], leader) else IsBest(nodes[..i], leader, was.value)
    ensures var better := Eligible(nodes[i], leader) &&
        (was.None? || Further(nodes[i].status.value, nodes[was.value].status.value));
      var best := if better then Some(i) else was;
      if best.None? then NobodyEligible(nodes[..i + 1], leader) else IsBest(nodes[..i + 1], leader, best.value)
  {
  }

  lemma {:induction false} BestExists(nodes: seq<Node>, leader: string, n: nat)
    requires n <= |nodes|
    ensures NobodyEligible(nodes[..n], leader) || exists i :: IsBest(nodes[..n], leader, i)
  {
    if n > 0 {
      BestExists(nodes, leader, n - 1);
      if NobodyEligible(nodes[..n - 1], leader) {
        BestExtends(nodes, leader, n - 1, None);
      } else {
        var i :| IsBest(nodes[..n - 1], leader, i);
        BestExtends(nodes, leader, n - 1, Some(i));
      }
    }
  }

  /** The decision.  `since` is how long ago this controller last knew it held the
      Lease, if it ever did. */
  ghost function Chosen(c: Config, nodes: seq<Node>, leader: string, since: Option<int>): (r: Choice)
    ensures r.Pick? ==> IsBest(nodes, leader, r.i)
  {
    if NobodyEligible(nodes, leader) then Refuse(NobodyAnswered)
    else if c.requireWaitFor && !SomebodyWaits(nodes) then Refuse(Asynchronous)
    else if since.None? || since.value > c.leaseDuration / 2 then Refuse(LeaseTooOld)
    else
      assert exists i :: IsBest(nodes, leader, i) by {
        BestExists(nodes, leader, |nodes|);
        assert nodes[..|nodes|] == nodes;
      }
      var i: nat :| IsBest(nodes, leader, i);
      Pick(i)
  }

  /** Some pod answered, is ready, is not fenced and is not the one being replaced. */
  predicate MayBeChosen(nodes: seq<Node>, leader: string) {
    exists j :: 0 <= j < |nodes| &&
      nodes[j].status.Some? && nodes[j].name != leader && nodes[j].ready && !nodes[j].status.value.fenced
  }

  /** When there is a choice, and which: a pod that may be chosen, such that none that
      may be is on a newer term, or on its term and further, and none before it in the
      list has got as far. */
  lemma PicksIff(c: Config, nodes: seq<Node>, leader: string, since: Option<int>)
    ensures Chosen(c, nodes, leader, since).Pick? <==>
      && MayBeChosen(nodes, leader)
      && (c.requireWaitFor ==> exists j :: 0 <= j < |nodes| && nodes[j].status.Some? && nodes[j].status.value.waitFor > 0)
      && since.Some? && since.value <= c.leaseDuration / 2
    ensures Chosen(c, nodes, leader, since) == Refuse(NobodyAnswered) <==> !MayBeChosen(nodes, leader)
    ensures Chosen(c, nodes, leader, since) == Refuse(Asynchronous) <==>
      && MayBeChosen(nodes, leader) && c.requireWaitFor
      && forall j :: 0 <= j < |nodes| && nodes[j].status.Some? ==> nodes[j].status.value.waitFor <= 0
    ensures Chosen(c, nodes, leader, since).Pick? ==>
      var i := Chosen(c, nodes, leader, since).i;
      && i < |nodes| && nodes[i].status.Some? && nodes[i].name != leader && nodes[i].ready && !nodes[i].status.value.fenced
      && forall j :: 0 <= j < |nodes| && nodes[j].status.Some? && nodes[j].name != leader && nodes[j].ready && !nodes[j].status.value.fenced ==>
           var a, b := nodes[i].status.value, nodes[j].status.value;
           && (a.term > b.term || (a.term == b.term && a.appliedSeq >= b.appliedSeq))
           && (j < i ==> a.term > b.term || a.appliedSeq > b.appliedSeq)
  {
    if MayBeChosen(nodes, leader) {
      var j :| 0 <= j < |nodes| &&
        nodes[j].status.Some? && nodes[j].name != leader && nodes[j].ready && !nodes[j].status.value.fenced;
      assert Eligible(nodes[j], leader);
    }
    var choice := Chosen(c, nodes, leader, since);
    if choice.Pick? {
      assert Eligible(nodes[choice.i], leader);
      forall j | 0 <= j < |nodes| && nodes[j].status.Some? && nodes[j].name != leader && nodes[j].ready && !nodes[j].status.value.fenced
        ensures Eligible(nodes[j], leader)
      {
      }
    }
  }

  method SawSemiSync(nodes: seq<Node>) returns (saw: bool)
    ensures saw == SomebodyWaits(nodes)
  {
    for i := 0 to |nodes|
      invariant forall j :: 0 <= j < i ==> !(nodes[j].status.Some? && nodes[j].status.value.waitFor > 0)
    {
      if nodes[i].status.Some? && nodes[i].status.value.waitFor > 0 {
        return true;
      }
    }
    return false;
  }

  /** One pass over the nodes, keeping the best so far. */
  method Choose(c: Config, nodes: seq<Node>, leader: string, since: Option<int>) returns (choice: Choice)
    ensures choice == Chosen(c, nodes, leader, since)
    ensures choice.Pick? <==>
      && MayBeChosen(nodes, leader)
      && (c.requireWaitFor ==> exists j :: 0 <= j < |nodes| && nodes[j].status.Some? && nodes[j].status.value.waitFor > 0)
      && since.Some? && since.value <= c.leaseDuration / 2
    ensures choice == Refuse(NobodyAnswered) <==> !MayBeChosen(nodes, leader)
    ensures choice == Refuse(Asynchronous) <==>
      && MayBeChosen(nodes, leader) && c.requireWaitFor
      && forall j :: 0 <= j < |nodes| && nodes[j].status.Some? ==> nodes[j].status.value.waitFor <= 0
  {
    PicksIff(c, nodes, leader, since);
    var best: Option<nat> := None;
    for i := 0 to |nodes|
      invariant if best.None? then NobodyEligible(nodes[..i], leader) else IsBest(nodes[..i], leader, best.value)
    {
      BestExtends(nodes, leader, i, best);
      if Eligible(nodes[i], leader) {
        if best.None? || Further(nodes[i].status.value, nodes[best.value].status.value) {
          best := Some(i);
        }
      }
    }
    assert nodes[..|nodes|] == nodes;
    if best.None? {
      return Refuse(NobodyAnswered);
    }
    if c.requireWaitFor {
      var saw := SawSemiSync(nodes);
      if !saw {
        return Refuse(Asynchronous);
      }
    }
    if since.None? || since.value > c.leaseDuration / 2 {
      return Refuse(LeaseTooOld);
    }
    return Pick(best.value);
  }

  // ----- acting

  /** What becomes of a call.  `Lost` is a call that took effect and whose answer
      never came back. */
  datatype Reply = Done | Lost | Failed

  datatype Act =
    | Promote(pod: string, got: Reply)
    | Point(pod: string, got: Reply)
    | Label(pod: string, serving: bool, got: Reply)
    | Enlist(pod: string, got: Reply)

  /** `net` says what becomes of the n-th call ever made. */
  type Net = nat -> Reply

  datatype State = State(unreachableSince: Option<int>, acts: seq<Act>)

  function Calls(s: State, act: Act): State {
    s.(acts := s.acts + [act])
  }

  /** Promote, then move the traffic, then take the old leader out of the reads. */
  ghost function FailedOver(c: Config, net: Net, s: State, nodes: seq<Node>, leader: string, since: Option<int>): State {
    match Chosen(c, nodes, leader, since)
    case Refuse(_) => s
    case Pick(i) =>
      if c.dryRun then s
      else
        var pod := nodes[i].name;
        var s1 := Calls(s, Promote(pod, net(|s.acts|)));
        if net(|s.acts|) != Done then s1
        else
          var s2 := Calls(s1, Point(pod, net(|s1.acts|)));
          if net(|s1.acts|) != Done then s2
          else Calls(s2, Label(leader, false, net(|s2.acts|))).(unreachableSince := None)
  }

  /** A node to be put back to work: leading, and strictly behind the leader. */
  predicate Stranded(n: Node, leader: Node) {
    && n.name != leader.name && n.status.Some? && n.ready && n.status.value.role == Leads
    && leader.status.Some? && leader.status.value.role == Leads
    && n.status.value.term < leader.status.value.term
  }

  function Enlisted(c: Config, net: Net, s: State, nodes: seq<Node>, leader: Node): State {
    if nodes == [] then s
    else
      var last := nodes[|nodes| - 1];
      var before := Enlisted(c, net, s, nodes[..|nodes| - 1], leader);
      if !c.dryRun && Stranded(last, leader) then Calls(before, Enlist(last.name, net(|before.acts|))) else before
  }

  /** Whether a node belongs in the read Service. */
  predicate Should(n: Node, leader: string) {
    n.name == leader || (n.status.Some? && n.status.value.role == Follows)
  }

  predicate Mislabelled(n: Node, leader: string) {
    n.status.Some? && n.ready && Should(n, leader) != n.serving
  }

  /** Stops at the first label that could not be changed. */
  function Tidied(c: Config, net: Net, s: State, nodes: seq<Node>, leader: string): State
    decreases |nodes|
  {
    if nodes == [] then s
    else if c.dryRun || !Mislabelled(nodes[0], leader) then Tidied(c, net, s, nodes[1..], leader)
    else
      var got := net(|s.acts|);
      var after := Calls(s, Label(nodes[0].name, Should(nodes[0], leader), got));
      if got != Done then after else Tidied(c, net, after, nodes[1..], leader)
  }

  /** The node of that name, or one that is gone. */
  function Named(nodes: seq<Node>, name: string): Node {
    if nodes == [] then Node(name, false, false, None)
    else if nodes[|nodes| - 1].name == name then nodes[|nodes| - 1]
    else Named(nodes[..|nodes| - 1], name)
  }

  datatype Round = Round(nodes: seq<Node>, pointedAt: string, now: int, since: Option<int>)

  datatype Seen = Following | Healthy | Silent | Fenced

  /** What a round makes of the node the write Service names. */
  function Sees(r: Round): Seen {
    match Named(r.nodes, r.pointedAt).status
    case None => Silent
    case Some(s) => if s.role != Leads then Following else if !s.fenced then Healthy else Fenced
  }

  /** Whether this round's turn has come to fail over. */
  predicate TimeIsUp(c: Config, s: State, r: Round) {
    && (Sees(r) == Silent || Sees(r) == Fenced) && s.unreachableSince.Some?
    && (r.now - s.unreachableSince.value >= c.grace || Sees(r) == Fenced)
  }

  /** The whole of the policy. */
  ghost function Decided(c: Config, net: Net, s: State, r: Round): State {
    var leader := Named(r.nodes, r.pointedAt);
    match Sees(r)
    case Following =>
      var s1 := s.(unreachableSince := None);
      if c.dryRun then s1 else Calls(s1, Promote(leader.name, net(|s.acts|)))
    case Healthy =>
      var s1 := Enlisted(c, net, s.(unreachableSince := None), r.nodes, leader);
      Tidied(c, net, s1, r.nodes, r.pointedAt)
    case _ =>
      if s.unreachableSince.None? then s.(unreachableSince := Some(r.now))
      else if !TimeIsUp(c, s, r) then s
      else FailedOver(c, net, s, r.nodes, leader.name, r.since)
  }

  /** The controller as it runs. */
  class Controller {
    const config: Config
    const net: Net
    var unreachableSince: Option<int>
    var acts: seq<Act>

    constructor (config: Config, net: Net)
      ensures this.config == config && this.net == net && Now() == State(None, [])
    {
      this.config, this.net := config, net;
      unreachableSince, acts := None, [];
    }

    function Now(): State
      reads this
    {
      State(unreachableSince, acts)
    }

    method Failover(nodes: seq<Node>, leader: string, since: Option<int>)
      modifies this
      ensures Now() == FailedOver(config, net, old(Now()), nodes, leader, since)
    {
      var choice := Choose(config, nodes, leader, since);
      if choice.Refuse? || config.dryRun {
        return;
      }
      var best := nodes[choice.i];
      var got := net(|acts|);
      acts := acts + [Promote(best.name, got)];
      if got != Done {
        return;
      }
      got := net(|acts|);
      acts := acts + [Point(best.name, got)];
      if got != Done {
        return;
      }
      got := net(|acts|);
      acts := acts + [Label(leader, false, got)];
      unreachableSince := None;
    }

    method DoEnlist(nodes: seq<Node>, leader: Node)
      modifies this`acts
      ensures Now() == Enlisted(config, net, old(Now()), nodes, leader)
    {
      if leader.status.None? || leader.status.value.role != Leads {
        NoneStranded(config, net, Now(), nodes, leader);
        return;
      }
      for i := 0 to |nodes|
        invariant Now() == Enlisted(config, net, old(Now()), nodes[..i], leader)
      {
        assert nodes[..i + 1][..i] == nodes[..i];
        var n := nodes[i];
        if n.name == leader.name || n.status.None? || !n.ready || n.status.value.role != Leads {
          continue;
        }
        if n.status.value.term >= leader.status.value.term || config.dryRun {
          continue;
        }
        acts := acts + [Enlist(n.name, net(|acts|))];
      }
      assert nodes[..|nodes|] == nodes;
    }

    method Tidy(nodes: seq<Node>, leader: string)
      modifies this`acts
      ensures Now() == Tidied(config, net, old(Now()), nodes, leader)
    {
      for i := 0 to |nodes|
        invariant Tidied(config, net, old(Now()), nodes, leader) == Tidied(config, net, Now(), nodes[i..], leader)
      {
        assert nodes[i..][1..] == nodes[i + 1..];
        var n := nodes[i];
        if n.status.None? || !n.ready {
          continue;
        }
        var should := n.name == leader || n.status.value.role == Follows;
        if should == n.serving || config.dryRun {
          continue;
        }
        var got := net(|acts|);
        acts := acts + [Label(n.name, should, got)];
        if got != Done {
          return;
        }
      }
    }

    method Decide(r: Round)
      modifies this
      ensures Now() == Decided(config, net, old(Now()), r)
    {
      var leader := Node(r.pointedAt, false, false, None);
      for i := 0 to |r.nodes|
        invariant leader == Named(r.nodes[..i], r.pointedAt)
      {
        assert r.nodes[..i + 1][..i] == r.nodes[..i];
        if r.nodes[i].name == r.pointedAt {
          leader := r.nodes[i];
        }
      }
      assert r.nodes[..|r.nodes|] == r.nodes;

      if leader.status.Some? && leader.status.value.role != Leads {
        unreachableSince := None;
        if !config.dryRun {
          acts := acts + [Promote(leader.name, net(|acts|))];
        }
        return;
      }
      if leader.status.Some? && !leader.status.value.fenced {
        unreachableSince := None;
        DoEnlist(r.nodes, leader);
        Tidy(r.nodes, r.pointedAt);
        return;
      }
      if unreachableSince.None? {
        unreachableSince := Some(r.now);
        return;
      }
      if r.now - unreachableSince.value < config.grace && leader.status.None? {
        return;
      }
      Failover(r.nodes, leader.name, r.since);
    }
  }

  lemma {:induction false} NoneStranded(c: Config, net: Net, s: State, nodes: seq<Node>, leader: Node)
    requires leader.status.None? || leader.status.value.role != Leads
    ensures Enlisted(c, net, s, nodes, leader) == s
  {
    if nodes != [] {
      NoneStranded(c, net, s, nodes[..|nodes| - 1], leader);
    }
  }
}
