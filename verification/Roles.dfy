/** What a node is doing: leading, or following somebody.  The store has no notion
    of it, so the server keeps one and guards its routes with it. */
module Roles {
  import opened Base

  /** What becomes of the follower and of the store's term, in order.  A term is
      `Heard` when it comes from another node: in a frame taken, or as a fence. */
  datatype Effect = Started(leader: string) | Stopped | Raised(term: nat) | Heard(term: nat)

  datatype FollowError = AlreadyFollowing | BadAddress
  datatype Answer = BadRequest | AlreadyThere | FollowingAnother | NoLeaderThere | Ahead(mine: nat) | Joined

  /** Whom a node is following after all this, or nobody. */
  function Whom(effects: seq<Effect>): string {
    if effects == [] then ""
    else
      match effects[|effects| - 1]
      case Started(leader) => leader
      case Stopped => ""
      case _ => Whom(effects[..|effects| - 1])
  }

  /** The term a store born on `born` is on after all this. */
  function TermOf(born: nat, effects: seq<Effect>): nat {
    if effects == [] then born
    else
      match effects[|effects| - 1]
      case Raised(term) => term
      case Heard(term) => term
      case _ => TermOf(born, effects[..|effects| - 1])
  }

  predicate InOrder(born: nat, before: seq<Effect>, e: Effect) {
    match e
    case Started(leader) => leader != "" && Whom(before) == ""
    case Stopped => Whom(before) != ""
    case Raised(term) => Whom(before) == "" && TermOf(born, before) < term
    case Heard(term) => TermOf(born, before) < term
  }

  /** Each effect comes when it may: one follower at a time, no promotion under a
      follower, and terms that only rise. */
  predicate Orderly(born: nat, effects: seq<Effect>) {
    forall i :: 0 <= i < |effects| ==> InOrder(born, effects[..i], effects[i])
  }

  lemma OneMore(born: nat, effects: seq<Effect>, e: Effect)
    requires Orderly(born, effects) && InOrder(born, effects, e)
    ensures Orderly(born, effects + [e])
    ensures Whom(effects + [e]) == match e case Started(leader) => leader case Stopped => "" case _ => Whom(effects)
    ensures TermOf(born, effects + [e]) == match e case Raised(t) => t case Heard(t) => t case _ => TermOf(born, effects)
  {
    var all := effects + [e];
    assert all[..|effects|] == effects;
    hide InOrder;
    forall i | 0 <= i < |all| ensures InOrder(born, all[..i], all[i]) {
      if i < |effects| {
        assert all[..i] == effects[..i];
      }
    }
  }

  class Server {
    const born: nat
    var leader: string // empty if it leads
    var stop: bool // whether there is a follower to stop
    var term: nat // the store's
    ghost var effects: seq<Effect>

    constructor (term: nat)
      ensures Valid() && born == this.term == term && effects == []
    {
      born, leader, stop, this.term, effects := term, "", false, term, [];
    }

    /** The two halves of the role agree, with each other and with what was done. */
    ghost predicate Valid()
      reads this
    {
      && (stop <==> leader != "")
      && leader == Whom(effects) && term == TermOf(born, effects) && Orderly(born, effects)
    }

    ghost method Note(e: Effect)
      requires Orderly(born, effects) && InOrder(born, effects, e)
      modifies this`effects
      ensures effects == old(effects) + [e] && Orderly(born, effects)
      ensures Whom(effects) == match e case Started(a) => a case Stopped => "" case _ => Whom(old(effects))
      ensures TermOf(born, effects) == match e case Raised(t) => t case Heard(t) => t case _ => TermOf(born, old(effects))
    {
      OneMore(born, effects, e);
      effects := effects + [e];
    }

    /** Whether this node takes writes, and serves replication: only while no
        follower that was started is still to be stopped.  Otherwise it says whose
        business the write is. */
    method MayWrite() returns (yes: bool, instead: string)
      requires Valid()
      ensures yes <==> forall i :: 0 <= i < |effects| && effects[i].Started? ==>
        exists j :: i < j < |effects| && effects[j].Stopped?
      ensures !yes ==> exists i: nat :: Running(effects, i) && effects[i] == Started(instead)
    {
      yes, instead := leader == "", leader;
      NobodyIff(born, effects);
      if !yes {
        var i := Since(effects);
        assert Running(effects, i) && effects[i] == Started(instead);
      }
    }

    /** The store learns of a newer term from another node. */
    method Hear(newer: nat)
      requires Valid() && newer > term
      modifies this
      ensures Valid() && leader == old(leader) && term == newer && effects == old(effects) + [Heard(newer)]
    {
      hide Orderly, Whom, TermOf;
      term := newer;
      Note(Heard(newer));
    }

    /** `dialable` is whether the address is one that could ever be dialled. */
    method Follow(address: string, dialable: bool) returns (error: Option<FollowError>)
      requires Valid()
      modifies this
      ensures Valid() && Now() == After(old(Now()), ToFollow(address, dialable))
      ensures error ==
        if old(leader) != "" then Some(AlreadyFollowing)
        else if address == "" || !dialable then Some(BadAddress)
        else None
      ensures effects == if error.None? then old(effects) + [Started(address)] else old(effects)
    {
      hide Orderly, Whom, TermOf;
      if stop {
        return Some(AlreadyFollowing);
      }
      if address == "" || !dialable {
        return Some(BadAddress);
      }
      leader, stop := address, true;
      Note(Started(address));
      return None;
    }

    /** `closes` is whether stopping the follower reported no error. */
    method StopFollowing(closes: bool) returns (ok: bool)
      requires Valid()
      modifies this
      ensures Valid() && Now() == After(old(Now()), ToStop)
      ensures ok <==> closes || old(leader) == ""
      ensures effects == if old(leader) != "" then old(effects) + [Stopped] else old(effects)
    {
      hide Orderly, Whom, TermOf;
      var running := stop;
      leader, stop := "", false;
      if !running {
        return true;
      }
      Note(Stopped);
      return closes;
    }

    /** Following stops before the term rises, so no record of the old leader's is
        applied on the new term; and a node that could not stop does not rise. */
    method Promote(closes: bool, raised: Option<nat>) returns (ok: bool)
      requires Valid() && (raised.Some? ==> raised.value > term)
      modifies this
      ensures Valid() && Now() == After(old(Now()), ToPromote(closes, raised))
      ensures ok <==> (closes || old(leader) == "") && raised.Some?
      ensures var stopped := if old(leader) != "" then old(effects) + [Stopped] else old(effects);
        effects == if ok then stopped + [Raised(raised.value)] else stopped
    {
      hide Orderly, Whom, TermOf;
      ok := StopFollowing(closes);
      if !ok || raised.None? {
        return false;
      }
      term := raised.value;
      Note(Raised(term));
    }

    /** POST /v1/follow.  `theirs` is the term the leader named was found to be on,
        if it could be asked.  A node joins only if it is not following, and only a
        leader it could not fence. */
    method Enlist(address: string, wellFormed: bool, theirs: Option<nat>) returns (answer: Answer)
      requires Valid()
      modifies this
      ensures Valid() && Now() == After(old(Now()), ToEnlist(address, wellFormed, theirs))
      ensures answer == BadRequest <==> address == "" || !wellFormed
      ensures answer == AlreadyThere <==> answer != BadRequest && old(leader) == address
      ensures answer == FollowingAnother <==> answer != BadRequest && old(leader) != "" && old(leader) != address
      ensures answer == NoLeaderThere <==> answer != BadRequest && old(leader) == "" && theirs.None?
      ensures answer == Joined <==>
        answer != BadRequest && old(leader) == "" && theirs.Some? && old(term) <= theirs.value
      ensures answer.Ahead? ==> answer.mine == old(term)
      ensures effects == if answer == Joined then old(effects) + [Started(address)] else old(effects)
    {
      hide Orderly, Whom, TermOf;
      if address == "" || !wellFormed {
        return BadRequest;
      }
      if leader != "" {
        return if leader == address then AlreadyThere else FollowingAnother;
      }
      if theirs.None? {
        return NoLeaderThere;
      }
      if term > theirs.value {
        return Ahead(term);
      }
      var error := Follow(address, wellFormed);
      assert error.None?;
      return Joined;
    }

    function Now(): State
      reads this
    {
      State(leader, term)
    }
  }

  // ----- a node's role as a value

  datatype State = State(leader: string, term: nat)

  datatype Call =
    | ToFollow(address: string, dialable: bool)
    | ToStop
    | ToPromote(closes: bool, raised: Option<nat>)
    | ToEnlist(address: string, dialable: bool, theirs: Option<nat>)

  /** What each call leaves a node as. */
  function After(s: State, call: Call): State {
    match call
    case ToFollow(address, dialable) =>
      if s.leader == "" && address != "" && dialable then s.(leader := address) else s
    case ToStop => s.(leader := "")
    case ToPromote(closes, raised) =>
      State("", if (closes || s.leader == "") && raised.Some? && raised.value > s.term then raised.value else s.term)
    case ToEnlist(address, dialable, theirs) =>
      if s.leader == "" && address != "" && dialable && theirs.Some? && s.term <= theirs.value then s.(leader := address)
      else s
  }

  // ----- what an orderly history comes to

  /** The follower that is running was started by the i-th effect. */
  predicate Running(effects: seq<Effect>, i: nat) {
    i < |effects| && effects[i].Started? && forall j :: i < j < |effects| ==> !effects[j].Started? && !effects[j].Stopped?
  }

  lemma {:induction false} Since(effects: seq<Effect>) returns (i: nat)
    requires Whom(effects) != ""
    ensures Running(effects, i) && effects[i] == Started(Whom(effects))
  {
    var n := |effects| - 1;
    i := n;
    if !effects[n].Started? {
      i := Since(effects[..n]);
    }
  }

  /** Exactly if every follower that was started has been stopped, the node follows
      nobody. */
  lemma {:induction false} NobodyIff(born: nat, effects: seq<Effect>)
    requires Orderly(born, effects)
    ensures Whom(effects) == "" <==> forall i :: 0 <= i < |effects| && effects[i].Started? ==>
      exists j :: i < j < |effects| && effects[j].Stopped?
  {
    if Whom(effects) != "" {
      var i := Since(effects);
      assert effects[i].Started?;
    } else {
      forall i | 0 <= i < |effects| && effects[i].Started? ensures exists j :: i < j < |effects| && effects[j].Stopped? {
        var j := StoppedSince(born, effects, i);
      }
    }
  }

  lemma {:induction false} StoppedSince(born: nat, effects: seq<Effect>, i: nat) returns (j: nat)
    requires Orderly(born, effects) && i < |effects| && effects[i].Started? && Whom(effects) == ""
    ensures i < j < |effects| && effects[j].Stopped?
    decreases |effects|
  {
    var n := |effects| - 1;
    assert InOrder(born, effects[..n], effects[n]);
    j := n;
    if !effects[n].Stopped? {
      assert Orderly(born, effects[..n]) by { Shorter(born, effects, n); }
      j := StoppedSince(born, effects[..n], i);
    }
  }

  lemma Shorter(born: nat, effects: seq<Effect>, n: nat)
    requires Orderly(born, effects) && n <= |effects|
    ensures Orderly(born, effects[..n])
  {
    forall i | 0 <= i < n ensures InOrder(born, effects[..n][..i], effects[..n][i]) {
      assert effects[..n][..i] == effects[..i];
    }
  }

  /** Between one follower's start and the next, and before any promotion, it is
      stopped: no record of an old leader's is ever applied under a raised term. */
  lemma StopsComeBetween(born: nat, effects: seq<Effect>, i: nat, m: nat) returns (j: nat)
    requires Orderly(born, effects) && i < m < |effects|
    requires effects[i].Started? && (effects[m].Started? || effects[m].Raised?)
    ensures i < j < m && effects[j].Stopped?
  {
    assert InOrder(born, effects[..m], effects[m]);
    Shorter(born, effects, m);
    j := StoppedSince(born, effects[..m], i);
  }

  /** And nothing is stopped that was not started. */
  lemma StartsComeBefore(born: nat, effects: seq<Effect>, m: nat) returns (j: nat)
    requires Orderly(born, effects) && m < |effects| && effects[m].Stopped?
    ensures j < m && effects[j].Started? && forall k :: j < k < m ==> !effects[k].Stopped?
  {
    assert InOrder(born, effects[..m], effects[m]);
    j := Since(effects[..m]);
  }

  predicate Rises(e: Effect) {
    e.Raised? || e.Heard?
  }

  lemma {:induction false} TermIsTheLast(born: nat, effects: seq<Effect>, i: nat)
    requires Orderly(born, effects) && i < |effects| && Rises(effects[i])
    ensures effects[i].term <= TermOf(born, effects)
    decreases |effects|
  {
    var n := |effects| - 1;
    assert InOrder(born, effects[..n], effects[n]);
    if i < n {
      Shorter(born, effects, n);
      TermIsTheLast(born, effects[..n], i);
    }
  }

  /** A node's terms strictly increase, its own promotions and what it hears alike. */
  lemma TermsOnlyRise(born: nat, effects: seq<Effect>, i: nat, m: nat)
    requires Orderly(born, effects) && i < m < |effects| && Rises(effects[i]) && Rises(effects[m])
    ensures effects[i].term < effects[m].term
  {
    assert InOrder(born, effects[..m], effects[m]);
    Shorter(born, effects, m);
    TermIsTheLast(born, effects[..m], i);
  }
}
