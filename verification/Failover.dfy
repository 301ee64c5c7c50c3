/** What the controller's policy guarantees over whole runs of rounds. */
module Failover {
  import opened Base
  import opened Controller

  ghost function RunRounds(c: Config, net: Net, s: State, rs: seq<Round>): State {
    if rs == [] then s else Decided(c, net, RunRounds(c, net, s, rs[..|rs| - 1]), rs[|rs| - 1])
  }

  // ----- when: an unbroken run of rounds

  predicate Bad(r: Round) {
    Sees(r) == Silent || Sees(r) == Fenced
  }

  /** Rounds `j` up to `k` all found the node then named silent or fenced, and the
      clock was started by the first of them. */
  predicate BadSince(rs: seq<Round>, j: nat, k: nat, started: int) {
    j < k <= |rs| && rs[j].now == started && forall i :: j <= i < k ==> Bad(rs[i])
  }

  lemma {:induction false} Untouched(c: Config, net: Net, s: State, nodes: seq<Node>, leader: Node)
    ensures Enlisted(c, net, s, nodes, leader).unreachableSince == s.unreachableSince
  {
    if nodes != [] {
      Untouched(c, net, s, nodes[..|nodes| - 1], leader);
    }
  }

  lemma {:induction false} UntouchedByTidying(c: Config, net: Net, s: State, nodes: seq<Node>, leader: string)
    ensures Tidied(c, net, s, nodes, leader).unreachableSince == s.unreachableSince
    decreases |nodes|
  {
    if nodes != [] {
      if c.dryRun || !Mislabelled(nodes[0], leader) {
        UntouchedByTidying(c, net, s, nodes[1..], leader);
      } else if net(|s.acts|) == Done {
        UntouchedByTidying(c, net, Calls(s, Label(nodes[0].name, Should(nodes[0], leader), Done)), nodes[1..], leader);
      }
    }
  }

  /** A round that finds the leader healthy or following stops the clock; one that
      does not either starts it, leaves it, or has just failed over. */
  lemma ClockAfter(c: Config, net: Net, s: State, r: Round)
    ensures var after := Decided(c, net, s, r).unreachableSince;
      if !Bad(r) then after == None
      else if s.unreachableSince.None? then after == Some(r.now)
      else after == s.unreachableSince || (after == None && TimeIsUp(c, s, r))
  {
    if Sees(r) == Healthy {
      var leader := Named(r.nodes, r.pointedAt);
      Untouched(c, net, s.(unreachableSince := None), r.nodes, leader);
      UntouchedByTidying(c, net, Enlisted(c, net, s.(unreachableSince := None), r.nodes, leader), r.nodes, r.pointedAt);
    }
  }

  lemma {:induction false} ClockIsARun(c: Config, net: Net, s: State, rs: seq<Round>) returns (j: nat)
    requires s.unreachableSince.None?
    requires RunRounds(c, net, s, rs).unreachableSince.Some?
    ensures BadSince(rs, j, |rs|, RunRounds(c, net, s, rs).unreachableSince.value)
    decreases |rs|
  {
    var n := |rs| - 1;
    var before := RunRounds(c, net, s, rs[..n]);
    ClockAfter(c, net, before, rs[n]);
    if before.unreachableSince.None? {
      j := n;
    } else {
      j := ClockIsARun(c, net, s, rs[..n]);
      forall i | j <= i < |rs| ensures Bad(rs[i]) {
        if i < n {
          assert rs[..n][i] == rs[i];
        }
      }
    }
  }

  /** An unbroken run of rounds, the first at `j` and the last `r`, that is a grace
      period long or ends with the leader fenced. */
  predicate RunBehind(c: Config, rs: seq<Round>, r: Round, started: int, j: nat) {
    && j < |rs| && BadSince(rs + [r], j, |rs| + 1, started)
    && (r.now - started >= c.grace || Sees(r) == Fenced)
  }

  /** The round in which a failover comes: an earlier round started the clock, every
      round from it on found the node then named silent or fenced, and either the
      run is a whole grace period long or the leader is fenced now. */
  lemma FailoverIsPrecededByARun(c: Config, net: Net, s: State, rs: seq<Round>, r: Round)
    requires s.unreachableSince.None?
    requires TimeIsUp(c, RunRounds(c, net, s, rs), r)
    ensures exists j: nat :: RunBehind(c, rs, r, RunRounds(c, net, s, rs).unreachableSince.value, j)
  {
    var j := ClockIsARun(c, net, s, rs);
    forall i | j <= i < |rs| + 1 ensures Bad((rs + [r])[i]) {
    }
    assert RunBehind(c, rs, r, RunRounds(c, net, s, rs).unreachableSince.value, j);
  }

  lemma {:induction false} EnlistingOnlyEnlists(c: Config, net: Net, s: State, nodes: seq<Node>, leader: Node)
    ensures var t := Enlisted(c, net, s, nodes, leader);
      s.acts <= t.acts && forall i :: |s.acts| <= i < |t.acts| ==> t.acts[i].Enlist?
  {
    if nodes != [] {
      EnlistingOnlyEnlists(c, net, s, nodes[..|nodes| - 1], leader);
    }
  }

  lemma {:induction false} TidyingOnlyLabels(c: Config, net: Net, s: State, nodes: seq<Node>, leader: string)
    ensures var t := Tidied(c, net, s, nodes, leader);
      s.acts <= t.acts && forall i :: |s.acts| <= i < |t.acts| ==> t.acts[i].Label?
    decreases |nodes|
  {
    if nodes != [] {
      if c.dryRun || !Mislabelled(nodes[0], leader) {
        TidyingOnlyLabels(c, net, s, nodes[1..], leader);
      } else if net(|s.acts|) == Done {
        TidyingOnlyLabels(c, net, Calls(s, Label(nodes[0].name, Should(nodes[0], leader), Done)), nodes[1..], leader);
      }
    }
  }

  /** What a round may do: promote the node the Service names because it is
      following, or, when its time is up, promote the node chosen and then point the
      Service at it; never both, and nothing at all in a dry run. */
  lemma RoundActs(c: Config, net: Net, s: State, r: Round)
    ensures var t := Decided(c, net, s, r);
      && s.acts <= t.acts
      && (c.dryRun ==> t.acts == s.acts)
      && (forall i :: |s.acts| <= i < |t.acts| && t.acts[i].Promote? ==>
            || (Sees(r) == Following && t.acts[i].pod == r.pointedAt)
            || (TimeIsUp(c, s, r) && Chosen(c, r.nodes, r.pointedAt, r.since).Pick? &&
                t.acts[i].pod == r.nodes[Chosen(c, r.nodes, r.pointedAt, r.since).i].name))
      && (forall i :: |s.acts| <= i < |t.acts| && t.acts[i].Point? ==>
            |s.acts| < i && t.acts[i - 1] == Promote(t.acts[i].pod, Done))
  {
    NamedIsNamed(r.nodes, r.pointedAt);
    if Sees(r) == Healthy {
      var leader := Named(r.nodes, r.pointedAt);
      var s0 := s.(unreachableSince := None);
      var s1 := Enlisted(c, net, s0, r.nodes, leader);
      EnlistingOnlyEnlists(c, net, s0, r.nodes, leader);
      TidyingOnlyLabels(c, net, s1, r.nodes, r.pointedAt);
      DryRunsDoNothing(c, net, s0, r.nodes, leader);
    } else if TimeIsUp(c, s, r) {
      FailoverActs(c, net, s, r.nodes, r.pointedAt, r.since);
    }
  }

  lemma FailoverActs(c: Config, net: Net, s: State, nodes: seq<Node>, leader: string, since: Option<int>)
    ensures var t := FailedOver(c, net, s, nodes, leader, since);
      var n := |s.acts|;
      && s.acts <= t.acts
      && (c.dryRun || Chosen(c, nodes, leader, since).Refuse? ==> t == s)
      && (!c.dryRun && Chosen(c, nodes, leader, since).Pick? ==>
            var pod := nodes[Chosen(c, nodes, leader, since).i].name;
            && n < |t.acts| <= n + 3 && t.acts[n] == Promote(pod, net(n))
            && (|t.acts| > n + 1 <==> net(n) == Done)
            && (|t.acts| > n + 1 ==> t.acts[n + 1] == Point(pod, net(n + 1)))
            && (|t.acts| > n + 2 <==> net(n) == Done && net(n + 1) == Done)
            && (|t.acts| > n + 2 ==> t.acts[n + 2] == Label(leader, false, net(n + 2)))
            && t.unreachableSince == if |t.acts| > n + 2 then None else s.unreachableSince)
  {
  }

  lemma {:induction false} DryRunsDoNothing(c: Config, net: Net, s: State, nodes: seq<Node>, leader: Node)
    ensures c.dryRun ==> Enlisted(c, net, s, nodes, leader) == s
    ensures c.dryRun ==> Tidied(c, net, s, nodes, leader.name) == s
    decreases |nodes|
  {
    if nodes != [] {
      DryRunsDoNothing(c, net, s, nodes[..|nodes| - 1], leader);
      DryRunsDoNothing(c, net, s, nodes[1..], leader);
    }
  }

  lemma {:induction false} NamedIsNamed(nodes: seq<Node>, name: string)
    ensures Named(nodes, name).name == name
    ensures Named(nodes, name) in nodes || Named(nodes, name) == Node(name, false, false, None)
  {
    if nodes != [] {
      NamedIsNamed(nodes[..|nodes| - 1], name);
    }
  }

  const START := State(None, [])

  lemma ActsGrow(c: Config, net: Net, rs: seq<Round>, n: nat)
    requires n <= |rs|
    ensures RunRounds(c, net, START, rs[..n]).acts <= RunRounds(c, net, START, rs).acts
    decreases |rs| - n
  {
    if n < |rs| {
      ActsGrow(c, net, rs, n + 1);
      assert rs[..n + 1][..n] == rs[..n];
      RoundActs(c, net, RunRounds(c, net, START, rs[..n]), rs[n]);
    } else {
      assert rs[..n] == rs;
    }
  }

  /** Why a promotion was made in round `k`: the node named was up and following, or
      the node named had been silent or fenced in every round since `j`. */
  ghost predicate Warranted(c: Config, net: Net, rs: seq<Round>, k: nat, j: nat, pod: string) {
    && j <= k < |rs|
    && (|| (Sees(rs[k]) == Following && pod == rs[k].pointedAt)
        || (var s := RunRounds(c, net, START, rs[..k]);
            var choice := Chosen(c, rs[k].nodes, rs[k].pointedAt, rs[k].since);
            && choice.Pick? && pod == rs[k].nodes[choice.i].name
            && s.unreachableSince.Some? && BadSince(rs, j, k + 1, s.unreachableSince.value) && j < k
            && (rs[k].now - rs[j].now >= c.grace || Sees(rs[k]) == Fenced)))
  }

  /** Over any run of rounds and whatever becomes of the calls, nothing is promoted
      without a warrant. */
  lemma {:induction false} PromotionsAreWarranted(c: Config, net: Net, rs: seq<Round>, i: nat) returns (k: nat, j: nat)
    requires i < |RunRounds(c, net, START, rs).acts| && RunRounds(c, net, START, rs).acts[i].Promote?
    ensures Warranted(c, net, rs, k, j, RunRounds(c, net, START, rs).acts[i].pod)
    decreases |rs|
  {
    hide Decided, IsBest, Eligible, Named;
    var n := |rs| - 1;
    var before := RunRounds(c, net, START, rs[..n]);
    RoundActs(c, net, before, rs[n]);
    if i < |before.acts| {
      k, j := PromotionsAreWarranted(c, net, rs[..n], i);
      assert rs[..n][..k] == rs[..k];
      assert rs[..n][k] == rs[k] && rs[..n][j] == rs[j];
      assert forall m :: j <= m < k + 1 ==> rs[..n][m] == rs[m];
    } else {
      k, j := n, n;
      if TimeIsUp(c, before, rs[n]) {
        FailoverIsPrecededByARun(c, net, START, rs[..n], rs[n]);
        j :| RunBehind(c, rs[..n], rs[n], before.unreachableSince.value, j);
        assert rs[..n] + [rs[n]] == rs;
      }
    }
  }

  /** While the Service names the same pod throughout, a run is about that pod: it was
      found silent or fenced in every round for the whole of the grace period. */
  lemma GraceWhileTheServiceStands(c: Config, net: Net, rs: seq<Round>, k: nat, j: nat, pod: string)
    requires Warranted(c, net, rs, k, j, pod) && Sees(rs[k]) != Following
    requires forall i :: j <= i <= k ==> rs[i].pointedAt == rs[k].pointedAt
    ensures forall i :: j <= i <= k ==>
      var st := Named(rs[i].nodes, rs[k].pointedAt).status;
      st.None? || (st.value.role == Leads && st.value.fenced)
    ensures rs[k].now - rs[j].now >= c.grace || Named(rs[k].nodes, rs[k].pointedAt).status.Some?
  {
  }

  // ----- what: the Service only ever names a pod that was promoted

  /** Where the write Service points once these calls have been made. */
  function ServiceAfter(service: string, acts: seq<Act>): string {
    if acts == [] then service
    else
      var last := acts[|acts| - 1];
      if last.Point? && last.got != Failed then last.pod else ServiceAfter(service, acts[..|acts| - 1])
  }

  lemma {:induction false} PointsFollowPromotions(c: Config, net: Net, rs: seq<Round>, i: nat)
    requires i < |RunRounds(c, net, START, rs).acts| && RunRounds(c, net, START, rs).acts[i].Point?
    ensures 0 < i
    ensures var acts := RunRounds(c, net, START, rs).acts; acts[i - 1] == Promote(acts[i].pod, Done)
    decreases |rs|
  {
    var n := |rs| - 1;
    var before := RunRounds(c, net, START, rs[..n]);
    RoundActs(c, net, before, rs[n]);
    if i < |before.acts| {
      PointsFollowPromotions(c, net, rs[..n], i);
    }
  }

  lemma {:induction false} ServiceWasPointed(service: string, acts: seq<Act>)
    ensures ServiceAfter(service, acts) == service ||
      exists i :: 0 <= i < |acts| && acts[i].Point? && acts[i].pod == ServiceAfter(service, acts)
  {
    if acts != [] {
      var n := |acts| - 1;
      var last := acts[n];
      if !(last.Point? && last.got != Failed) {
        ServiceWasPointed(service, acts[..n]);
        if ServiceAfter(service, acts[..n]) != service {
          var i :| 0 <= i < n && acts[..n][i].Point? && acts[..n][i].pod == ServiceAfter(service, acts[..n]);
          assert acts[i] == acts[..n][i];
        }
      }
    }
  }

  /** With any call failing anywhere, the write Service names the pod it named to
      begin with or one already known to have been promoted. */
  lemma ServiceNamesAPromotedPod(c: Config, net: Net, rs: seq<Round>, service: string)
    ensures var acts := RunRounds(c, net, START, rs).acts;
      ServiceAfter(service, acts) == service || Promote(ServiceAfter(service, acts), Done) in acts
  {
    var acts := RunRounds(c, net, START, rs).acts;
    ServiceWasPointed(service, acts);
    if ServiceAfter(service, acts) != service {
      var i :| 0 <= i < |acts| && acts[i].Point? && acts[i].pod == ServiceAfter(service, acts);
      PointsFollowPromotions(c, net, rs, i);
      assert acts[i - 1] in acts;
    }
  }

  // ----- again: a failover stopped half way

  /** The same nodes, asked again after the i-th was promoted. */
  predicate AskedAgain(before: seq<Node>, after: seq<Node>, i: nat) {
    && i < |before| == |after| && before[i].status.Some?
    && (forall j :: 0 <= j < |before| && j != i ==> after[j] == before[j])
    && after[i].name == before[i].name
    && (after[i].status.Some? ==> after[i].status.value.term > before[i].status.value.term)
  }

  /** A failover stopped after its promotion goes on with the same pod, exactly as
      long as that pod is still there to be chosen.  If it has gone silent, is not
      ready or has been fenced, another pod is promoted beside it. */
  lemma ResumesIffStillEligible(c: Config, before: seq<Node>, after: seq<Node>, leader: string,
                                since: Option<int>, again: Option<int>)
    requires Chosen(c, before, leader, since).Pick?
    requires AskedAgain(before, after, Chosen(c, before, leader, since).i)
    ensures var i := Chosen(c, before, leader, since).i;
      var next := Chosen(c, after, leader, again);
      && (Eligible(after[i], leader) ==> next == Pick(i) || next.Refuse?)
      && (next.Pick? ==> (next.i == i <==> Eligible(after[i], leader)))
  {
  }

  function Replica(name: string, term: nat, appliedSeq: nat): Node {
    Node(name, true, true, Some(Status(Follows, term, false, appliedSeq, 1)))
  }

  function Absent(name: string): Node {
    Node(name, true, true, None)
  }

  /** What promotion makes of a node's term: one more. */
  function PromotedTo(n: Node): nat
    requires n.status.Some?
  {
    n.status.value.term + 1
  }

  function Before(): seq<Node> {
    [Absent("l"), Replica("a", 1, 5), Replica("b", 1, 4)]
  }

  function After(): seq<Node> {
    [Absent("l"), Absent("a"), Replica("b", 1, 4)]
  }

  lemma ChosenOfThree(c: Config)
    ensures Chosen(c, Before(), "l", Some(0)) == Pick(1) && Named(Before(), "l") == Before()[0]
    ensures Chosen(c, After(), "l", Some(0)) == Pick(2) && Named(After(), "l") == After()[0]
    ensures Before()[0].status.None? && Before()[1].name == "a" && After()[0].status.None? && After()[2].name == "b"
  {
    assert IsBest(Before(), "l", 1) && Eligible(Before()[1], "l") && Before()[1].status.value.waitFor > 0;
    assert IsBest(After(), "l", 2) && Eligible(After()[2], "l") && After()[2].status.value.waitFor > 0;
    NamedIs(Before(), "l", 0);
    NamedIs(After(), "l", 0);
  }

  /** A round whose time is up and whose promotion goes through. */
  lemma PromotesAndPoints(c: Config, net: Net, s: State, r: Round, i: nat)
    requires !c.dryRun && TimeIsUp(c, s, r) && Chosen(c, r.nodes, r.pointedAt, r.since) == Pick(i)
    requires net(|s.acts|) == Done
    ensures i < |r.nodes|
    ensures var pod := r.nodes[i].name;
      var acts := s.acts + [Promote(pod, Done), Point(pod, net(|s.acts| + 1))];
      && acts <= Decided(c, net, s, r).acts
      && (net(|s.acts| + 1) != Done ==> Decided(c, net, s, r) == State(s.unreachableSince, acts))
  {
    NamedIsNamed(r.nodes, r.pointedAt);
  }

  lemma SilenceStartsTheClock(c: Config, net: Net, r: Round)
    requires Named(r.nodes, r.pointedAt).status.None?
    ensures Decided(c, net, START, r) == State(Some(r.now), [])
  {
  }

  lemma SilenceTimesOut(c: Config, s: State, r: Round)
    requires Named(r.nodes, r.pointedAt).status.None?
    requires s.unreachableSince.Some? && r.now - s.unreachableSince.value >= c.grace
    ensures TimeIsUp(c, s, r)
  {
  }

  /** And then the two share a term.  "a" is promoted off term 1 and goes silent before
      the Service is moved; a round later "b", which was on term 1 too and has heard
      nothing, is promoted beside it. */
  lemma SilentPromotedPodIsReplaced(c: Config, net: Net, t: int)
    requires !c.dryRun && net(0) == Done && net(1) == Failed && net(2) == Done
    ensures var first := Round(Before(), "l", t, None);
      var second := Round(Before(), "l", t + c.grace, Some(0));
      var third := Round(After(), "l", t + c.grace, Some(0));
      [Promote("a", Done), Point("a", Failed), Promote("b", Done)] <= RunRounds(c, net, START, [] + [first] + [second] + [third]).acts
    ensures PromotedTo(Before()[1]) == PromotedTo(After()[2])
  {
    assert PromotedTo(Before()[1]) == PromotedTo(After()[2]);
    hide Chosen, Named, RunRounds, Decided, Before, After, TimeIsUp, Sees, PromotedTo;
    var first, second, third := Round(Before(), "l", t, None), Round(Before(), "l", t + c.grace, Some(0)), Round(After(), "l", t + c.grace, Some(0));
    ChosenOfThree(c);
    OneRound(c, net, [], first);
    OneRound(c, net, [] + [first], second);
    OneRound(c, net, [] + [first] + [second], third);
    NoRounds(c, net);
    var s1 := State(Some(t), []);
    SilenceStartsTheClock(c, net, first);
    SilenceTimesOut(c, s1, second);
    PromotesAndPoints(c, net, s1, second, 1);
    var s2 := Decided(c, net, s1, second);
    assert s2.acts == [Promote("a", Done), Point("a", Failed)] && s2.unreachableSince == Some(t);
    SilenceTimesOut(c, s2, third);
    PromotesAndPoints(c, net, s2, third, 2);
  }

  lemma NoRounds(c: Config, net: Net)
    ensures RunRounds(c, net, START, []) == START
  {
  }

  lemma {:induction false} NamedIs(nodes: seq<Node>, name: string, i: nat)
    requires i < |nodes| && nodes[i].name == name
    requires forall j :: i < j < |nodes| ==> nodes[j].name != name
    ensures Named(nodes, name) == nodes[i]
  {
    if i < |nodes| - 1 {
      NamedIs(nodes[..|nodes| - 1], name, i);
    }
  }

  lemma OneRound(c: Config, net: Net, rs: seq<Round>, r: Round)
    ensures RunRounds(c, net, START, rs + [r]) == Decided(c, net, RunRounds(c, net, START, rs), r)
  {
    assert (rs + [r])[..|rs|] == rs;
  }

  /** A round that still names the old leader, finds it no better, and hears the same
      from everybody else. */
  predicate Retry(before: seq<Node>, leader: string, i: nat, r: Round) {
    r.pointedAt == leader && AskedAgain(before, r.nodes, i) && Eligible(r.nodes[i], leader) && Bad(r)
  }

  lemma RetryKeepsToThePod(c: Config, net: Net, s: State, before: seq<Node>, leader: string, since: Option<int>,
                           r: Round, m: nat)
    requires Chosen(c, before, leader, since).Pick?
    requires Retry(before, leader, Chosen(c, before, leader, since).i, r)
    requires |s.acts| <= m < |Decided(c, net, s, r).acts|
    ensures var act := Decided(c, net, s, r).acts[m];
      act.Promote? || act.Point? ==> act.pod == before[Chosen(c, before, leader, since).i].name
  {
    RoundActs(c, net, s, r);
    ResumesIffStillEligible(c, before, r.nodes, leader, since, r.since);
    hide Decided, IsBest, Eligible, Sees;
    var t := Decided(c, net, s, r);
    if t.acts[m].Point? {
      assert t.acts[m - 1].Promote?;
    }
  }

  /** However many rounds it takes and whatever fails in them, no second pod is
      promoted. */
  lemma {:induction false} NoSecondPodIsPromoted(c: Config, net: Net, s: State, before: seq<Node>, leader: string,
                                                 since: Option<int>, rs: seq<Round>, m: nat)
    requires Chosen(c, before, leader, since).Pick?
    requires forall k :: 0 <= k < |rs| ==> Retry(before, leader, Chosen(c, before, leader, since).i, rs[k])
    requires |s.acts| <= m < |RunRounds(c, net, s, rs).acts|
    ensures var act := RunRounds(c, net, s, rs).acts[m];
      act.Promote? || act.Point? ==> act.pod == before[Chosen(c, before, leader, since).i].name
    decreases |rs|
  {
    hide Decided, Chosen, Retry, IsBest;
    if rs != [] {
      var n := |rs| - 1;
      var t := RunRounds(c, net, s, rs[..n]);
      RoundActs(c, net, t, rs[n]);
      if m < |t.acts| {
        NoSecondPodIsPromoted(c, net, s, before, leader, since, rs[..n], m);
      } else {
        RetryKeepsToThePod(c, net, t, before, leader, since, rs[n], m);
      }
    }
  }
}
