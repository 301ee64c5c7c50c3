/** A pod is only ever chosen while the Lease is held freshly enough, so no two
    controllers choose at one instant. */
module Choosing {
  import opened Base
  import opened Controller
  import Lease

  /** How long ago a controller last knew it held the Lease, on its own clock. */
  function HeldFor(m: Lease.Memory, now: int): Option<int> {
    if m.held.None? then None else Some(now - m.held.value)
  }

  /** Exactly when a controller that remembers this picks a pod. */
  lemma ChoosesIff(c: Config, nodes: seq<Node>, leader: string, m: Lease.Memory, now: int)
    ensures Chosen(c, nodes, leader, HeldFor(m, now)).Pick? <==>
      && (exists j :: 0 <= j < |nodes| &&
            nodes[j].status.Some? && nodes[j].name != leader && nodes[j].ready && !nodes[j].status.value.fenced)
      && (c.requireWaitFor ==> exists j :: 0 <= j < |nodes| && nodes[j].status.Some? && nodes[j].status.value.waitFor > 0)
      && Lease.FreshAt(m, c.leaseDuration, now)
  {
    PicksIff(c, nodes, leader, HeldFor(m, now));
  }

  /** Whatever each of them was told of the pods: over every run of the Lease within its
      bound, two controllers that choose at one instant are one. */
  lemma AtMostOneChooses(x: Lease.Setting, w: Lease.World, evs: seq<Lease.Event>, a: Lease.Id, b: Lease.Id,
                         ca: Config, cb: Config, na: seq<Node>, nb: seq<Node>, la: string, lb: string)
    requires Lease.Init(x, w) && Lease.Bounded(x) && a in x.config && b in x.config
    requires ca.leaseDuration == x.config[a].duration && cb.leaseDuration == x.config[b].duration
    requires var v := Lease.Run(x, w, evs);
      && Chosen(ca, na, la, HeldFor(v.memory[a], v.now + x.config[a].offset)).Pick?
      && Chosen(cb, nb, lb, HeldFor(v.memory[b], v.now + x.config[b].offset)).Pick?
    ensures a == b
  {
    var v := Lease.Run(x, w, evs);
    ChoosesIff(ca, na, la, v.memory[a], v.now + x.config[a].offset);
    ChoosesIff(cb, nb, lb, v.memory[b], v.now + x.config[b].offset);
    Lease.AtMostOneActs(x, w, evs, a, b);
  }
}
