/** Whose grace period it is.  A controller's clock is started by a silent leader and
    knows nothing of which one, so a leader may be failed away from on another's
    time; and exactly when it cannot be. */
module Grace {
  import opened Base
  import opened Controller
  import opened Failover

  /** One pod is named and silent, and the Service moved while this controller stood
      by.  A grace period later the new one is found silent for the first time, and
      failed away from at once. */
  lemma GraceIsNotPerLeader(c: Config, net: Net, t: int)
    requires !c.dryRun
    ensures var first := Round([Absent("a"), Replica("c", 1, 5)], "a", t, Some(0));
      var second := Round([Absent("b"), Replica("c", 1, 5)], "b", t + c.grace, Some(0));
      var acts := RunRounds(c, net, START, [first, second]).acts;
      acts != [] && acts[0] == Promote("c", net(0))
  {
    var first := Round([Absent("a"), Replica("c", 1, 5)], "a", t, Some(0));
    var second := Round([Absent("b"), Replica("c", 1, 5)], "b", t + c.grace, Some(0));
    OneRound(c, net, [], first);
    OneRound(c, net, [first], second);
    assert [first] + [second] == [first, second] && [] + [first] == [first];
    NamedIs(first.nodes, "a", 0);
    NamedIs(second.nodes, "b", 0);
    PicksTheReplica(c, "b", "c");
  }

  lemma PicksTheReplica(c: Config, leader: string, pod: string)
    requires leader != pod
    ensures var nodes := [Absent(leader), Replica(pod, 1, 5)];
      Chosen(c, nodes, leader, Some(0)) == Pick(1)
  {
    var nodes := [Absent(leader), Replica(pod, 1, 5)];
    assert IsBest(nodes, leader, 1) && Eligible(nodes[1], leader) && nodes[1].status.value.waitFor > 0;
  }

  // ----- exactly when

  /** Rounds made at these times, with the Service naming these pods. */
  predicate Scheduled(rs: seq<Round>, names: seq<string>, times: seq<int>) {
    && |rs| == |names| == |times|
    && forall i :: 0 <= i < |rs| ==> rs[i].pointedAt == names[i] && rs[i].now == times[i]
  }

  /** The Service has named the pod it names last since the m-th of these rounds. */
  predicate NamedSince(names: seq<string>, m: nat) {
    && m < |names| && (forall i :: m <= i < |names| ==> names[i] == names[|names| - 1])
    && (m > 0 ==> names[m - 1] != names[|names| - 1])
  }

  /** The last of these rounds does something about a leader that does not answer. */
  ghost predicate ActsOnSilence(c: Config, net: Net, rs: seq<Round>) {
    && rs != [] && Sees(rs[|rs| - 1]) == Silent
    && |RunRounds(c, net, START, rs[..|rs| - 1]).acts| < |RunRounds(c, net, START, rs).acts|
  }

  /** The leader of the last round has itself been silent or fenced for a whole grace
      period, since the j-th round. */
  predicate OwnGrace(c: Config, rs: seq<Round>, m: nat, j: nat) {
    m <= j < |rs| && BadSince(rs, j, |rs|, rs[j].now) && rs[|rs| - 1].now - rs[j].now >= c.grace
  }

  /** Whatever anybody answers in rounds made at these times. */
  ghost predicate EachHasItsGrace(c: Config, net: Net, names: seq<string>, times: seq<int>, m: nat) {
    forall rs :: Scheduled(rs, names, times) && ActsOnSilence(c, net, rs) ==> exists j: nat :: OwnGrace(c, rs, m, j)
  }

  lemma SilenceTakesTime(c: Config, net: Net, names: seq<string>, times: seq<int>, m: nat, rs: seq<Round>)
    requires NamedSince(names, m) && Scheduled(rs, names, times) && ActsOnSilence(c, net, rs)
    requires forall i, j :: 0 <= i <= j < |times| ==> times[i] <= times[j]
    requires m == 0 || times[|times| - 1] - times[m] >= c.grace || times[|times| - 1] - times[0] < c.grace
    ensures !c.dryRun && exists j: nat :: OwnGrace(c, rs, m, j)
  {
    var n := |rs| - 1;
    var s := RunRounds(c, net, START, rs[..n]);
    assert rs[..n] + [rs[n]] == rs;
    OneRound(c, net, rs[..n], rs[n]);
    RoundActs(c, net, s, rs[n]);
    FailoverIsPrecededByARun(c, net, START, rs[..n], rs[n]);
    var j: nat :| RunBehind(c, rs[..n], rs[n], s.unreachableSince.value, j);
    assert BadSince(rs, j, |rs|, rs[j].now) && rs[n].now - rs[j].now >= c.grace;
    assert OwnGrace(c, rs, m, if j < m then m else j);
  }

  /** Nobody answers in any of these rounds, and only in the last is there anybody to
      promote. */
  function AllSilent(names: seq<string>, times: seq<int>): (rs: seq<Round>)
    requires |names| == |times| > 0
    ensures Scheduled(rs, names, times)
  {
    var n := |names| - 1;
    seq(n, i requires 0 <= i < n => Round([Absent(names[i])], names[i], times[i], None))
    + [Round([Absent(names[n]), Replica(names[n] + "x", 1, 5)], names[n], times[n], Some(0))]
  }

  lemma {:induction false} TheClockRunsOn(c: Config, net: Net, names: seq<string>, times: seq<int>, k: nat)
    requires |names| == |times| > k > 0
    ensures RunRounds(c, net, START, AllSilent(names, times)[..k]) == State(Some(times[0]), [])
  {
    var rs := AllSilent(names, times);
    assert rs[..k] == rs[..k - 1] + [rs[k - 1]];
    OneRound(c, net, rs[..k - 1], rs[k - 1]);
    assert rs[k - 1] == Round([Absent(names[k - 1])], names[k - 1], times[k - 1], None);
    if k > 1 {
      TheClockRunsOn(c, net, names, times, k - 1);
    }
  }

  lemma SilenceIsActedOn(c: Config, net: Net, names: seq<string>, times: seq<int>)
    requires |names| == |times| > 1 && !c.dryRun && times[|times| - 1] - times[0] >= c.grace
    ensures ActsOnSilence(c, net, AllSilent(names, times))
  {
    var rs, n := AllSilent(names, times), |names| - 1;
    TheClockRunsOn(c, net, names, times, n);
    assert rs == rs[..n] + [rs[n]];
    OneRound(c, net, rs[..n], rs[n]);
    var pod := names[n] + "x";
    assert |pod| == |names[n]| + 1;
    assert rs[n] == Round([Absent(names[n]), Replica(pod, 1, 5)], names[n], times[n], Some(0));
    PicksTheReplica(c, names[n], pod);
    NamedIs(rs[n].nodes, names[n], 0);
    hide Chosen, Named, RunRounds, AllSilent;
    assert Sees(rs[n]) == Silent;
    assert TimeIsUp(c, State(Some(times[0]), []), rs[n]);
  }

  /** A leader that does not answer is sure of its own grace period exactly if no other
      was named before it, or it has been named for that long already, or the
      controller has not been at it for that long; or nothing is ever done. */
  lemma GraceIsPerLeaderIff(c: Config, net: Net, names: seq<string>, times: seq<int>, m: nat)
    requires |names| == |times| && NamedSince(names, m)
    requires forall i, j :: 0 <= i <= j < |times| ==> times[i] <= times[j]
    ensures var now := times[|times| - 1];
      EachHasItsGrace(c, net, names, times, m) <==>
        c.dryRun || m == 0 || now - times[m] >= c.grace || now - times[0] < c.grace
  {
    var now := times[|times| - 1];
    if m == 0 || now - times[m] >= c.grace || now - times[0] < c.grace {
      forall rs | Scheduled(rs, names, times) && ActsOnSilence(c, net, rs) ensures exists j: nat :: OwnGrace(c, rs, m, j) {
        SilenceTakesTime(c, net, names, times, m, rs);
      }
    } else if c.dryRun {
      forall rs | Scheduled(rs, names, times) ensures !ActsOnSilence(c, net, rs) {
        DryRunsDoNotAct(c, net, rs);
      }
    } else {
      var rs := AllSilent(names, times);
      SilenceIsActedOn(c, net, names, times);
      assert forall j: nat :: !OwnGrace(c, rs, m, j);
    }
  }

  lemma DryRunsDoNotAct(c: Config, net: Net, rs: seq<Round>)
    requires c.dryRun
    ensures !ActsOnSilence(c, net, rs)
  {
    if rs != [] {
      RoundActs(c, net, RunRounds(c, net, START, rs[..|rs| - 1]), rs[|rs| - 1]);
    }
  }
}
