/** What a round of the controller's policy does, case by case and from what the nodes
    said, whatever becomes of its calls. */
module Rounds {
  import opened Base
  import opened Controller
  import opened Failover
  import opened Stints

  /** The i-th node is the one the write Service names. */
  predicate Names(r: Round, i: nat) {
    LastNamed(r.nodes, r.pointedAt, i)
  }

  predicate LastNamed(nodes: seq<Node>, name: string, i: nat) {
    i < |nodes| && nodes[i].name == name && forall j :: i < j < |nodes| ==> nodes[j].name != name
  }

  predicate IsHealthy(n: Node) {
    n.status.Some? && n.status.value.role == Leads && !n.status.value.fenced
  }

  /** The pods that are to be told to follow: ready, leading, and on an older term than
      the leader. */
  function ToEnlist(nodes: seq<Node>, leader: string, term: nat): seq<string> {
    if nodes == [] then []
    else
      var n := nodes[|nodes| - 1];
      var before := ToEnlist(nodes[..|nodes| - 1], leader, term);
      if n.name != leader && n.ready && n.status.Some? && n.status.value.role == Leads && n.status.value.term < term
      then before + [n.name] else before
  }

  /** The pods told to follow in some calls. */
  function EnlistedBy(acts: seq<Act>): seq<string> {
    if acts == [] then []
    else
      var before, last := EnlistedBy(acts[..|acts| - 1]), acts[|acts| - 1];
      if last.Enlist? then before + [last.pod] else before
  }

  lemma OneMoreAct(acts: seq<Act>, act: Act)
    ensures EnlistedBy(acts + [act]) == if act.Enlist? then EnlistedBy(acts) + [act.pod] else EnlistedBy(acts)
  {
    assert (acts + [act])[..|acts|] == acts;
  }

  lemma {:induction false} EnlistingEnlists(c: Config, net: Net, s: State, nodes: seq<Node>, leader: Node)
    requires !c.dryRun && leader.status.Some? && leader.status.value.role == Leads
    ensures EnlistedBy(Enlisted(c, net, s, nodes, leader).acts) ==
      EnlistedBy(s.acts) + ToEnlist(nodes, leader.name, leader.status.value.term)
  {
    if nodes != [] {
      var n := |nodes| - 1;
      EnlistingEnlists(c, net, s, nodes[..n], leader);
      var before := Enlisted(c, net, s, nodes[..n], leader);
      OneMoreAct(before.acts, Enlist(nodes[n].name, net(|before.acts|)));
      hide EnlistedBy, Enlisted, ToEnlist;
    }
  }

  lemma {:induction false} LabelsDoNotEnlist(before: seq<Act>, acts: seq<Act>)
    requires before <= acts && forall i :: |before| <= i < |acts| ==> acts[i].Label?
    ensures EnlistedBy(acts) == EnlistedBy(before)
    decreases |acts|
  {
    if |acts| > |before| {
      LabelsDoNotEnlist(before, acts[..|acts| - 1]);
      assert acts == acts[..|acts| - 1] + [acts[|acts| - 1]];
    } else {
      assert acts == before;
    }
  }

  /** The calls of a healthy round come in two parts: enlisting, and then labelling. */
  lemma HealthyRound(c: Config, net: Net, s: State, r: Round, i: nat)
    requires Names(r, i) && IsHealthy(r.nodes[i])
    ensures var s1 := Enlisted(c, net, s.(unreachableSince := None), r.nodes, r.nodes[i]);
      Decided(c, net, s, r) == Tidied(c, net, s1, r.nodes, r.pointedAt)
  {
    NamedIs(r.nodes, r.pointedAt, i);
  }

  /** When the named pod leads and is well, exactly the others that lead on older terms
      and are ready are told to follow, each once and in order, whatever becomes of
      the telling; nothing is promoted and the Service stays. */
  lemma HealthyRoundsEnlist(c: Config, net: Net, s: State, r: Round, i: nat)
    requires !c.dryRun && Names(r, i) && IsHealthy(r.nodes[i])
    ensures var t := Decided(c, net, s, r);
      && s.acts <= t.acts && t.unreachableSince == None
      && EnlistedBy(t.acts) == EnlistedBy(s.acts) + ToEnlist(r.nodes, r.pointedAt, r.nodes[i].status.value.term)
      && forall k :: |s.acts| <= k < |t.acts| ==> t.acts[k].Enlist? || t.acts[k].Label?
  {
    var s0 := s.(unreachableSince := None);
    var s1 := Enlisted(c, net, s0, r.nodes, r.nodes[i]);
    HealthyRound(c, net, s, r, i);
    EnlistingEnlists(c, net, s0, r.nodes, r.nodes[i]);
    EnlistingOnlyEnlists(c, net, s0, r.nodes, r.nodes[i]);
    TidyingOnlyLabels(c, net, s1, r.nodes, r.pointedAt);
    Untouched(c, net, s0, r.nodes, r.nodes[i]);
    UntouchedByTidying(c, net, s1, r.nodes, r.pointedAt);
    hide Decided, Enlisted, Tidied, EnlistedBy;
    LabelsDoNotEnlist(s1.acts, Decided(c, net, s, r).acts);
  }

  lemma {:induction false} LabelAfterBoth(pod: string, serving: bool, a: seq<Act>, b: seq<Act>)
    ensures LabelAfter(pod, serving, a + b) == LabelAfter(pod, LabelAfter(pod, serving, a), b)
    decreases |a|
  {
    if a == [] {
      assert a + b == b;
    } else {
      assert (a + b)[1..] == a[1..] + b;
      var first := a[0];
      LabelAfterBoth(pod, if first.Label? && first.pod == pod && first.got != Failed then first.serving else serving, a[1..], b);
    }
  }

  lemma {:induction false} EnlistingLabelsNobody(pod: string, serving: bool, acts: seq<Act>)
    requires forall k :: 0 <= k < |acts| ==> acts[k].Enlist?
    ensures LabelAfter(pod, serving, acts) == serving
    decreases |acts|
  {
    if acts != [] {
      assert acts[0].Enlist?;
      EnlistingLabelsNobody(pod, serving, acts[1..]);
    }
  }

  /** And when its calls go through, each ready pod that answered is left serving reads
      exactly if it is the named one or follows; the others are left as they were. */
  lemma HealthyRoundsLabel(c: Config, net: Net, s: State, r: Round, i: nat, j: nat)
    requires !c.dryRun && Names(r, i) && IsHealthy(r.nodes[i]) && j < |r.nodes|
    requires (forall a, b :: 0 <= a < b < |r.nodes| ==> r.nodes[a].name != r.nodes[b].name)
    requires forall n: nat :: net(n) == Done
    ensures var t, n := Decided(c, net, s, r), r.nodes[j];
      && s.acts <= t.acts
      && LabelAfter(n.name, n.serving, t.acts[|s.acts|..]) ==
           if n.ready && n.status.Some? then n.name == r.pointedAt || n.status.value.role == Follows else n.serving
  {
    var s0 := s.(unreachableSince := None);
    var s1 := Enlisted(c, net, s0, r.nodes, r.nodes[i]);
    HealthyRound(c, net, s, r, i);
    EnlistingOnlyEnlists(c, net, s0, r.nodes, r.nodes[i]);
    var t := Decided(c, net, s, r);
    var n := r.nodes[j];
    if n.ready && n.status.Some? {
      TidyingMakesItSo(c, net, s1, r.nodes, r.pointedAt, j);
    } else {
      TidyingLeavesTheUnready(c, net, s1, r.nodes, r.pointedAt, j);
    }
    hide Decided, Enlisted, Tidied;
    assert t.acts[|s.acts|..] == s1.acts[|s.acts|..] + t.acts[|s1.acts|..];
    LabelAfterBoth(n.name, n.serving, s1.acts[|s.acts|..], t.acts[|s1.acts|..]);
    EnlistingLabelsNobody(n.name, n.serving, s1.acts[|s.acts|..]);
  }

  lemma {:induction false} TidyingLeavesTheUnready(c: Config, net: Net, s: State, nodes: seq<Node>, leader: string, j: nat)
    requires Distinct(nodes) && j < |nodes| && (nodes[j].status.None? || !nodes[j].ready)
    ensures var t := Tidied(c, net, s, nodes, leader);
      s.acts <= t.acts && LabelAfter(nodes[j].name, nodes[j].serving, t.acts[|s.acts|..]) == nodes[j].serving
    decreases |nodes|
  {
    var t := Tidied(c, net, s, nodes, leader);
    if c.dryRun || !Mislabelled(nodes[0], leader) {
      if j == 0 {
        TidyingLeavesOthers(c, net, s, nodes[1..], leader, nodes[j].name, nodes[j].serving);
      } else {
        TidyingLeavesTheUnready(c, net, s, nodes[1..], leader, j - 1);
      }
    } else {
      var after := Calls(s, Label(nodes[0].name, Should(nodes[0], leader), net(|s.acts|)));
      if net(|s.acts|) == Done {
        TidyingLeavesTheUnready(c, net, after, nodes[1..], leader, j - 1);
      } else {
        assert after.acts[|after.acts|..] == [];
      }
      assert t.acts[|s.acts|..][1..] == t.acts[|after.acts|..];
      assert t.acts[|s.acts|..][0] == after.acts[|s.acts|];
    }
  }

  /** A label that could not be changed is the last thing a round tries. */
  lemma {:induction false} TidyingStops(c: Config, net: Net, s: State, nodes: seq<Node>, leader: string)
    ensures var t := Tidied(c, net, s, nodes, leader);
      s.acts <= t.acts && forall k :: |s.acts| <= k < |t.acts| - 1 ==> t.acts[k].Label? && t.acts[k].got == Done
    decreases |nodes|
  {
    if nodes != [] {
      if c.dryRun || !Mislabelled(nodes[0], leader) {
        TidyingStops(c, net, s, nodes[1..], leader);
      } else if net(|s.acts|) == Done {
        TidyingStops(c, net, Calls(s, Label(nodes[0].name, Should(nodes[0], leader), Done)), nodes[1..], leader);
      }
    }
  }

  lemma FailedLabelsEndTheRound(c: Config, net: Net, s: State, r: Round, i: nat, k: nat)
    requires Names(r, i) && IsHealthy(r.nodes[i])
    requires |s.acts| <= k < |Decided(c, net, s, r).acts|
    requires Decided(c, net, s, r).acts[k].Label? && Decided(c, net, s, r).acts[k].got != Done
    ensures k == |Decided(c, net, s, r).acts| - 1
  {
    var s0 := s.(unreachableSince := None);
    HealthyRound(c, net, s, r, i);
    EnlistingOnlyEnlists(c, net, s0, r.nodes, r.nodes[i]);
    TidyingStops(c, net, Enlisted(c, net, s0, r.nodes, r.nodes[i]), r.nodes, r.pointedAt);
  }

  /** A named pod that follows somebody is promoted, at once. */
  lemma FollowingIsPromoted(c: Config, net: Net, s: State, r: Round, i: nat)
    requires Names(r, i) && r.nodes[i].status.Some? && r.nodes[i].status.value.role == Follows
    ensures Decided(c, net, s, r) ==
      State(None, if c.dryRun then s.acts else s.acts + [Promote(r.pointedAt, net(|s.acts|))])
  {
    NamedIs(r.nodes, r.pointedAt, i);
  }

  /** The named pod did not answer, or is not among those there are. */
  predicate IsSilent(r: Round) {
    forall i :: 0 <= i < |r.nodes| && Names(r, i) ==> r.nodes[i].status.None?
  }

  predicate IsFenced(r: Round) {
    exists i :: 0 <= i < |r.nodes| && Names(r, i)
      && r.nodes[i].status.Some? && r.nodes[i].status.value.role == Leads && r.nodes[i].status.value.fenced
  }

  lemma {:induction false} SomebodyIsNamed(nodes: seq<Node>, name: string) returns (i: nat)
    ensures Named(nodes, name) == Node(name, false, false, None) || (LastNamed(nodes, name, i) && Named(nodes, name) == nodes[i])
  {
    i := 0;
    if nodes != [] {
      var n := |nodes| - 1;
      if nodes[n].name == name {
        i := n;
      } else {
        i := SomebodyIsNamed(nodes[..n], name);
      }
    }
  }

  lemma SeesIff(r: Round)
    ensures Sees(r) == Silent <==> IsSilent(r)
    ensures Sees(r) == Fenced <==> IsFenced(r)
  {
    var i := SomebodyIsNamed(r.nodes, r.pointedAt);
    forall j | 0 <= j < |r.nodes| && Names(r, j) ensures Named(r.nodes, r.pointedAt) == r.nodes[j] {
      NamedIs(r.nodes, r.pointedAt, j);
    }
    hide Named;
  }

  /** A named pod that is silent or fenced is failed away from in this round exactly if
      an earlier one started the clock, and it is fenced or the clock has run for a
      grace period, and somebody may be chosen; the first such round only starts the
      clock. */
  lemma SilentAndFencedRounds(c: Config, net: Net, s: State, r: Round)
    requires IsSilent(r) || IsFenced(r)
    ensures var t := Decided(c, net, s, r);
      && (s.unreachableSince.None? ==> t == State(Some(r.now), s.acts))
      && (t.acts != s.acts <==>
            && !c.dryRun && s.unreachableSince.Some?
            && (IsFenced(r) || r.now - s.unreachableSince.value >= c.grace)
            && Chosen(c, r.nodes, r.pointedAt, r.since).Pick?)
      && (t.acts != s.acts ==>
            var pod := r.nodes[Chosen(c, r.nodes, r.pointedAt, r.since).i].name;
            var acts := s.acts + [Promote(pod, net(|s.acts|))];
            if net(|s.acts|) != Done then t == State(s.unreachableSince, acts)
            else
              var more := acts + [Point(pod, net(|acts|))];
              if net(|acts|) != Done then t == State(s.unreachableSince, more)
              else t == State(None, more + [Label(r.pointedAt, false, net(|more|))]))
  {
    SeesIff(r);
    NamedIsNamed(r.nodes, r.pointedAt);
  }
}
