/** Stints of leadership: the terms of the pods the write Service names, over any
    run of failovers; and what a healthy round does about everybody else. */
module Stints {
  import opened Base
  import opened Controller

  /** One pod's time as the one the Service names, by its first and last term. */
  datatype Stint = Stint(first: nat, last: nat)

  datatype Cluster = Cluster(terms: map<string, nat>, service: string, began: nat, past: seq<Stint>)

  /** Terms rise for any reason at any time; a failover promotes what was chosen. */
  datatype Event =
    | Rises(pod: string, term: nat)
    | FailsOver(nodes: seq<Node>, since: Option<int>, term: nat)

  /** Statuses are what the pods were on when asked, and terms only rise. */
  predicate Honest(terms: map<string, nat>, nodes: seq<Node>) {
    forall i :: 0 <= i < |nodes| && nodes[i].status.Some? ==>
      nodes[i].name in terms && nodes[i].status.value.term <= terms[nodes[i].name]
  }

  ghost predicate Enabled(c: Config, w: Cluster, ev: Event) {
    && w.service in w.terms
    && match ev
       case Rises(pod, term) => pod in w.terms && w.terms[pod] <= term
       case FailsOver(nodes, since, term) =>
         var choice := Chosen(c, nodes, w.service, since);
         Honest(w.terms, nodes) && choice.Pick? && w.terms[nodes[choice.i].name] < term
  }

  ghost function Step(c: Config, w: Cluster, ev: Event): Cluster
    requires Enabled(c, w, ev)
  {
    match ev
    case Rises(pod, term) => w.(terms := w.terms[pod := term])
    case FailsOver(nodes, since, term) =>
      var pod := nodes[Chosen(c, nodes, w.service, since).i].name;
      Cluster(w.terms[pod := term], pod, term, w.past + [Stint(w.began, w.terms[w.service])])
  }

  /** The hypothesis: whenever a leader is failed away from, some eligible candidate
      has got as far as its term. */
  ghost predicate SomebodyKeptUp(w: Cluster, ev: Event) {
    ev.FailsOver? && w.service in w.terms ==>
      exists j :: 0 <= j < |ev.nodes| && Eligible(ev.nodes[j], w.service) &&
        ev.nodes[j].status.value.term >= w.terms[w.service]
  }

  ghost predicate RunIs(c: Config, w: Cluster, evs: seq<Event>, v: Cluster)
    decreases |evs|
  {
    if evs == [] then v == w
    else Enabled(c, w, evs[0]) && SomebodyKeptUp(w, evs[0]) && RunIs(c, Step(c, w, evs[0]), evs[1..], v)
  }

  predicate Increasing(past: seq<Stint>) {
    && (forall i :: 0 <= i < |past| ==> past[i].first <= past[i].last)
    && (forall i, j :: 0 <= i < j < |past| ==> past[i].last < past[j].first)
  }

  ghost predicate Inv(w: Cluster) {
    && w.service in w.terms && w.began <= w.terms[w.service]
    && Increasing(w.past + [Stint(w.began, w.terms[w.service])])
  }

  /** A chosen pod is on at least the term of everybody eligible, so promotion takes
      it past the leader it replaces exactly when some candidate had kept up. */
  lemma PromotionOvertakesIff(c: Config, nodes: seq<Node>, leader: string, since: Option<int>, term: nat)
    requires Chosen(c, nodes, leader, since).Pick?
    ensures nodes[Chosen(c, nodes, leader, since).i].status.value.term + 1 > term <==>
      exists j :: 0 <= j < |nodes| && Eligible(nodes[j], leader) && nodes[j].status.value.term >= term
  {
  }

  lemma FailoverKeeps(c: Config, w: Cluster, ev: Event)
    requires Inv(w) && ev.FailsOver? && Enabled(c, w, ev) && SomebodyKeptUp(w, ev)
    ensures Inv(Step(c, w, ev)) && Step(c, w, ev).began > w.terms[w.service]
  {
    var v := Step(c, w, ev);
    PromotionOvertakesIff(c, ev.nodes, w.service, ev.since, w.terms[w.service]);
    var now := Stint(w.began, w.terms[w.service]);
    var stints := v.past + [Stint(v.began, v.terms[v.service])];
    forall i, j | 0 <= i < j < |stints| ensures stints[i].last < stints[j].first {
      assert stints[i] == (w.past + [now])[i];
      if j < |w.past| + 1 {
        assert stints[j] == (w.past + [now])[j];
      } else if i < |w.past| {
        assert (w.past + [now])[i].last < (w.past + [now])[|w.past|].first;
      }
    }
    assert forall i :: 0 <= i < |w.past| + 1 ==> stints[i] == (w.past + [now])[i];
  }

  lemma RiseKeeps(c: Config, w: Cluster, ev: Event)
    requires Inv(w) && ev.Rises? && Enabled(c, w, ev)
    ensures Inv(Step(c, w, ev))
  {
    var a := w.past + [Stint(w.began, w.terms[w.service])];
    var v := Step(c, w, ev);
    var b := v.past + [Stint(v.began, v.terms[v.service])];
    assert forall i :: 0 <= i < |w.past| ==> a[i] == b[i];
    assert a[|w.past|].first == b[|w.past|].first;
  }

  /** Over any such run the terms of the pods the Service names strictly increase
      from stint to stint, so no two stints share one. */
  lemma {:induction false} NoTwoStintsShareATerm(c: Config, w: Cluster, evs: seq<Event>, v: Cluster)
    requires Inv(w) && RunIs(c, w, evs, v)
    ensures v.service in v.terms && Increasing(v.past + [Stint(v.began, v.terms[v.service])])
    decreases |evs|
  {
    if evs != [] {
      if evs[0].Rises? {
        RiseKeeps(c, w, evs[0]);
      } else {
        FailoverKeeps(c, w, evs[0]);
      }
      NoTwoStintsShareATerm(c, Step(c, w, evs[0]), evs[1..], v);
    }
  }

  /** Without the hypothesis they can: a leader promoted to term 2 that dies before
      any replica has heard from it is followed by another on term 2. */
  lemma StintsCanShareATerm(c: Config, since: int)
    requires since <= c.leaseDuration / 2
    ensures var b := Node("b", true, true, Some(Status(Follows, 1, false, 4, 1)));
      var w := Cluster(map["a" := 2, "b" := 1], "a", 2, []);
      var ev := FailsOver([b], Some(since), 2);
      Enabled(c, w, ev) && Step(c, w, ev).service == "b" && Step(c, w, ev).terms["b"] == w.terms["a"]
  {
    var b := Node("b", true, true, Some(Status(Follows, 1, false, 4, 1)));
    assert IsBest([b], "a", 0) && Eligible([b][0], "a");
    assert [b][0].status.value.waitFor > 0;
  }

  // ----- the healthy round

  function StrandedNames(nodes: seq<Node>, leader: Node): seq<string> {
    if nodes == [] then []
    else
      var last := nodes[|nodes| - 1];
      StrandedNames(nodes[..|nodes| - 1], leader) + (if Stranded(last, leader) then [last.name] else [])
  }

  function PodsOf(acts: seq<Act>): seq<string> {
    if acts == [] then [] else PodsOf(acts[..|acts| - 1]) + [acts[|acts| - 1].pod]
  }

  lemma PodsOfOneMore(acts: seq<Act>, act: Act)
    ensures PodsOf(acts + [act]) == PodsOf(acts) + [act.pod]
  {
  }

  /** Every stranded node is told to follow, once, in order, whatever becomes of the
      telling; nobody else is. */
  lemma {:induction false} EnlistsExactlyTheStranded(c: Config, net: Net, s: State, nodes: seq<Node>, leader: Node)
    requires !c.dryRun
    ensures var t := Enlisted(c, net, s, nodes, leader);
      && s.acts <= t.acts && PodsOf(t.acts) == PodsOf(s.acts) + StrandedNames(nodes, leader)
      && (forall i :: |s.acts| <= i < |t.acts| ==> t.acts[i].Enlist?)
  {
    hide PodsOf, Stranded;
    if nodes != [] {
      var n := |nodes| - 1;
      EnlistsExactlyTheStranded(c, net, s, nodes[..n], leader);
      var before := Enlisted(c, net, s, nodes[..n], leader);
      PodsOfOneMore(before.acts, Enlist(nodes[n].name, net(|before.acts|)));
    }
  }

  /** The labels after some calls, by pod. */
  function LabelAfter(pod: string, serving: bool, acts: seq<Act>): bool
    decreases |acts|
  {
    if acts == [] then serving
    else
      var first := acts[0];
      LabelAfter(pod, if first.Label? && first.pod == pod && first.got != Failed then first.serving else serving, acts[1..])
  }

  predicate Distinct(nodes: seq<Node>) {
    forall i, j :: 0 <= i < j < |nodes| ==> nodes[i].name != nodes[j].name
  }

  lemma {:induction false} TidyingLeavesOthers(c: Config, net: Net, s: State, nodes: seq<Node>, leader: string,
                                               pod: string, serving: bool)
    requires forall i :: 0 <= i < |nodes| ==> nodes[i].name != pod
    ensures s.acts <= Tidied(c, net, s, nodes, leader).acts
    ensures LabelAfter(pod, serving, Tidied(c, net, s, nodes, leader).acts[|s.acts|..]) == serving
    decreases |nodes|
  {
    var t := Tidied(c, net, s, nodes, leader);
    if nodes == [] {
    } else if c.dryRun || !Mislabelled(nodes[0], leader) {
      TidyingLeavesOthers(c, net, s, nodes[1..], leader, pod, serving);
    } else {
      var after := Calls(s, Label(nodes[0].name, Should(nodes[0], leader), net(|s.acts|)));
      if net(|s.acts|) == Done {
        TidyingLeavesOthers(c, net, after, nodes[1..], leader, pod, serving);
      } else {
        assert after.acts[|after.acts|..] == [];
      }
      assert t.acts[|s.acts|..][1..] == t.acts[|after.acts|..];
      assert t.acts[|s.acts|..][0] == after.acts[|s.acts|];
    }
  }

  /** A round whose calls all go through leaves every node that answered and is
      ready serving reads exactly if it is the pod the Service names or is
      following. */
  lemma {:induction false} TidyingMakesItSo(c: Config, net: Net, s: State, nodes: seq<Node>, leader: string, i: nat)
    requires !c.dryRun && Distinct(nodes) && forall n: nat :: net(n) == Done
    requires i < |nodes| && nodes[i].status.Some? && nodes[i].ready
    ensures var t := Tidied(c, net, s, nodes, leader);
      s.acts <= t.acts && LabelAfter(nodes[i].name, nodes[i].serving, t.acts[|s.acts|..]) == Should(nodes[i], leader)
    decreases |nodes|
  {
    var t := Tidied(c, net, s, nodes, leader);
    var pod := nodes[i].name;
    if !Mislabelled(nodes[0], leader) {
      if i == 0 {
        TidyingLeavesOthers(c, net, s, nodes[1..], leader, pod, nodes[i].serving);
      } else {
        TidyingMakesItSo(c, net, s, nodes[1..], leader, i - 1);
      }
    } else {
      var after := Calls(s, Label(nodes[0].name, Should(nodes[0], leader), Done));
      if i == 0 {
        TidyingLeavesOthers(c, net, after, nodes[1..], leader, pod, Should(nodes[0], leader));
      } else {
        TidyingMakesItSo(c, net, after, nodes[1..], leader, i - 1);
      }
      assert t.acts[|s.acts|..][1..] == t.acts[|after.acts|..];
      assert t.acts[|s.acts|..][0] == after.acts[|s.acts|];
    }
  }
}
