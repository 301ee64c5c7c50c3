/** What a leader knows of its followers: who is streaming and how far each has
    said it has got, and the write that waits for enough of them. */
module Registry {
  import opened Base

  type Id = string
  type Acks = map<Id, Position>

  datatype Change = Attach(id: Id, from: Position) | Detach(id: Id) | Ack(id: Id, at: Position)

  /** Whether a change moves anybody, or at least says so: a `Detach` always does. */
  predicate Wakes(m: Acks, c: Change) {
    match c
    case Attach(id, from) => id != "" && !(id in m && Reaches(m[id], from))
    case Detach(id) => id != ""
    case Ack(id, at) => id in m && !Reaches(m[id], at)
  }

  function Changed(m: Acks, c: Change): Acks {
    if !Wakes(m, c) then m
    else
      match c
      case Attach(id, from) => m[id := from]
      case Detach(id) => m - {id}
      case Ack(id, at) => m[id := at]
  }

  function ChangedAll(m: Acks, cs: seq<Change>): Acks
    decreases |cs|
  {
    if cs == [] then m else ChangedAll(Changed(m, cs[0]), cs[1..])
  }

  function Reaching(m: Acks, want: Position): set<Id> {
    set id | id in m && Reaches(m[id], want)
  }

  datatype Why = Enough | TimedOut | Gone

  /** Some changes made while a write waits, and what its waiting sees at the end of
      them: its channel, if it has been closed; its timer; or its client leaving. */
  datatype Ending = Told | Expired | ClientLeft
  datatype Turn = Turn(changes: seq<Change>, ending: Ending)

  function Happened(turns: seq<Turn>): seq<Change> {
    if turns == [] then [] else Happened(turns[..|turns| - 1]) + turns[|turns| - 1].changes
  }

  /** A channel that is closed to tell everybody waiting on it. */
  class Channel {
    var closed: bool

    constructor ()
      ensures !closed
    {
      closed := false;
    }
  }

  /** The registry as it runs, each method under its lock. */
  class Followers {
    var at: Acks
    var changed: Channel

    constructor ()
      ensures at == map[] && fresh(changed) && Valid()
    {
      at := map[];
      changed := new Channel();
    }

    predicate Valid()
      reads this, changed
    {
      !changed.closed
    }

    /** Whoever holds the old channel has been told; whoever asks next gets one
        that has not been closed. */
    method Wake()
      requires Valid()
      modifies this`changed, changed
      ensures Valid() && old(changed).closed && fresh(changed)
    {
      changed.closed := true;
      changed := new Channel();
    }

    method DoAttach(id: Id, from: Position)
      requires Valid()
      modifies this, changed
      ensures Valid() && at == Changed(old(at), Attach(id, from))
      ensures if Wakes(old(at), Attach(id, from)) then old(changed).closed && fresh(changed) else changed == old(changed)
    {
      if id == "" {
        return;
      }
      if id in at && Reaches(at[id], from) {
        return;
      }
      at := at[id := from];
      Wake();
    }

    method DoDetach(id: Id)
      requires Valid()
      modifies this, changed
      ensures Valid() && at == Changed(old(at), Detach(id))
      ensures if Wakes(old(at), Detach(id)) then old(changed).closed && fresh(changed) else changed == old(changed)
    {
      if id == "" {
        return;
      }
      at := at - {id};
      Wake();
    }

    method DoAck(id: Id, to: Position) returns (streaming: bool)
      requires Valid()
      modifies this, changed
      ensures Valid() && at == Changed(old(at), Ack(id, to))
      ensures streaming <==> id in old(at)
      ensures if Wakes(old(at), Ack(id, to)) then old(changed).closed && fresh(changed) else changed == old(changed)
    {
      if id !in at {
        return false;
      }
      if Reaches(at[id], to) {
        return true;
      }
      at := at[id := to];
      Wake();
      return true;
    }

    /** How many have reached `want`, and the channel to wait on, read together:
        any change after this closes that channel. */
    method Count(want: Position) returns (got: nat, channel: Channel)
      requires Valid()
      ensures got == |Reaching(at, want)|
      ensures channel == changed && !channel.closed
    {
      got := 0;
      var left := at.Keys;
      ghost var counted: set<Id> := {};
      while left != {}
        invariant left <= at.Keys
        invariant counted == (set id | id in at.Keys - left && Reaches(at[id], want))
        invariant got == |counted|
        decreases left
      {
        var id :| id in left;
        left := left - {id};
        if Reaches(at[id], want) {
          got := got + 1;
          counted := counted + {id};
        }
      }
      assert counted == Reaching(at, want);
      channel := changed;
    }

    method Do(c: Change)
      requires Valid()
      modifies this, changed
      ensures Valid() && at == Changed(old(at), c)
      ensures if Wakes(old(at), c) then old(changed).closed && fresh(changed) else changed == old(changed)
    {
      match c
      case Attach(id, from) => DoAttach(id, from);
      case Detach(id) => DoDetach(id);
      case Ack(id, to) => var _ := DoAck(id, to);
    }

    /** Whatever other requests do while one waits: nothing, or it is told. */
    method DoAll(cs: seq<Change>)
      requires Valid()
      modifies this, changed
      ensures Valid() && at == ChangedAll(old(at), cs)
      ensures old(changed).closed || (changed == old(changed) && at == old(at))
      ensures changed == old(changed) || fresh(changed)
    {
      for i := 0 to |cs|
        invariant Valid() && ChangedAll(old(at), cs) == ChangedAll(at, cs[i..])
        invariant old(changed).closed || (changed == old(changed) && at == old(at))
        invariant changed == old(changed) || fresh(changed)
      {
        Do(cs[i]);
        assert cs[i..][1..] == cs[i + 1..];
      }
    }

    /** At the start of each of the first `k` turns there were fewer than needed. */
    ghost predicate ShortUntil(start: Acks, turns: seq<Turn>, want: Position, need: nat, k: nat)
      requires k <= |turns|
    {
      forall j :: 0 <= j < k ==> |Reaching(ChangedAll(start, Happened(turns[..j])), want)| < need
    }

    /** Blocks on the channel that came with a short count until it is closed, or the
        timer fires, or the client goes. */
    method WaitOn(want: Position, need: nat, turns: seq<Turn>, ghost start: Acks, from: nat, channel: Channel)
      returns (ending: Ending, k: nat)
      requires Valid() && channel == changed && from <= |turns|
      requires at == ChangedAll(start, Happened(turns[..from])) && |Reaching(at, want)| < need
      requires ShortUntil(start, turns, want, need, from)
      modifies this, changed
      ensures Valid() && (changed == old(changed) || fresh(changed))
      ensures from <= k <= |turns| && at == ChangedAll(start, Happened(turns[..k]))
      ensures ShortUntil(start, turns, want, need, k)
      ensures ending == if k == from then Told else turns[k - 1].ending
      ensures channel.closed ==> from < k
      ensures !channel.closed ==> |Reaching(at, want)| < need && (ending == Told ==> k == |turns|)
    {
      hide Changed, Reaching, Reaches, ChangedAll, Happened;
      k, ending := from, Told;
      while k < |turns| && ending == Told && !channel.closed
        invariant from <= k <= |turns| && Valid() && (changed == old(changed) || fresh(changed))
        invariant at == ChangedAll(start, Happened(turns[..k])) && ending == (if k == from then Told else turns[k - 1].ending)
        invariant ShortUntil(start, turns, want, need, k)
        invariant channel.closed || (channel == changed && |Reaching(at, want)| < need)
        invariant channel.closed ==> from < k
        decreases |turns| - k
      {
        HappenedNext(start, turns, k);
        DoAll(turns[k].changes);
        ending := turns[k].ending;
        k := k + 1;
      }
    }

    /** Waits for enough followers, counting again whenever the channel it read with
        its count is closed, until time runs out or the client goes.  What it
        returns is the count at that moment, and at no turn's end before had there
        been enough. */
    method Await(want: Position, need: nat, turns: seq<Turn>) returns (got: nat, why: Why, ghost used: nat)
      requires Valid()
      modifies this, changed
      ensures Valid() && (changed == old(changed) || fresh(changed))
      ensures used <= |turns| && at == ChangedAll(old(at), Happened(turns[..used]))
      ensures got == |Reaching(at, want)| && (why == Enough <==> got >= need && (used == 0 || turns[used - 1].ending == Told))
      ensures why == Gone ==> used > 0 && turns[used - 1].ending == ClientLeft
      ensures why == TimedOut ==> used == |turns| || (used > 0 && turns[used - 1].ending == Expired)
      ensures ShortUntil(old(at), turns, want, need, used)
    {
      var k: nat := 0;
      assert at == ChangedAll(old(at), Happened(turns[..k]));
      assert ShortUntil(old(at), turns, want, need, k);
      hide Changed, Reaching, Reaches, ChangedAll, Happened, ShortUntil;
      while true
        invariant k <= |turns| && Valid() && (changed == old(changed) || fresh(changed))
        invariant at == ChangedAll(old(at), Happened(turns[..k])) && (k == 0 || turns[k - 1].ending == Told)
        invariant ShortUntil(old(at), turns, want, need, k)
        decreases |turns| - k
      {
        var channel;
        got, channel := Count(want);
        if got >= need {
          return got, Enough, k;
        }
        var ending;
        ending, k := WaitOn(want, need, turns, old(at), k, channel);
        if ending == ClientLeft {
          got, channel := Count(want);
          return got, Gone, k;
        }
        if ending == Expired || !channel.closed {
          got, channel := Count(want);
          return got, TimedOut, k;
        }
      }
    }

    /** What to answer for a write that is stored: 204 exactly if as many followers
        as were asked for have reached `want` by then, or none were asked for. */
    method Wrote(want: Position, waitFor: int, turns: seq<Turn>) returns (status: int)
      requires Valid()
      modifies this, changed
      ensures Valid() && (changed == old(changed) || fresh(changed))
      ensures status == if |Reaching(at, want)| >= waitFor then 204 else 202
      ensures exists used :: 0 <= used <= |turns| && at == ChangedAll(old(at), Happened(turns[..used]))
    {
      if waitFor <= 0 {
        assert at == ChangedAll(old(at), Happened(turns[..0]));
        return 204;
      }
      var got, _, used := Await(want, waitFor, turns);
      return if got >= waitFor then 204 else 202;
    }
  }

  lemma {:induction false} ChangedAllConcat(m: Acks, a: seq<Change>, b: seq<Change>)
    ensures ChangedAll(m, a + b) == ChangedAll(ChangedAll(m, a), b)
    decreases |a|
  {
    if a == [] {
      assert a + b == b;
    } else {
      assert (a + b)[1..] == a[1..] + b;
      ChangedAllConcat(Changed(m, a[0]), a[1..], b);
    }
  }

  lemma HappenedNext(m: Acks, turns: seq<Turn>, k: nat)
    requires k < |turns|
    ensures ChangedAll(m, Happened(turns[..k + 1])) == ChangedAll(ChangedAll(m, Happened(turns[..k])), turns[k].changes)
  {
    assert turns[..k + 1][..k] == turns[..k];
    ChangedAllConcat(m, Happened(turns[..k]), turns[k].changes);
  }

  // ----- what any interleaving of the three keeps

  /** A follower that stays registered only moves forward, whatever arrives and in
      whatever order. */
  lemma {:induction false} PositionsNeverGoBack(m: Acks, cs: seq<Change>, id: Id)
    requires id in m && Detach(id) !in cs
    ensures id in ChangedAll(m, cs) && Reaches(ChangedAll(m, cs)[id], m[id])
    decreases |cs|
  {
    if cs != [] {
      var next := Changed(m, cs[0]);
      assert cs[0] in cs;
      assert id in next && Reaches(next[id], m[id]);
      PositionsNeverGoBack(next, cs[1..], id);
      ReachesIsATotalOrder(ChangedAll(next, cs[1..])[id], next[id], m[id]);
    }
  }

  /** Every position in the registry was claimed: it is in it from the start, or
      some stream was opened there, or somebody acknowledged it. */
  lemma {:induction false} PositionsWereClaimed(m: Acks, cs: seq<Change>, id: Id)
    requires id in ChangedAll(m, cs)
    ensures var p := ChangedAll(m, cs)[id];
      (id in m && m[id] == p) || Attach(id, p) in cs || Ack(id, p) in cs
    decreases |cs|
  {
    if cs != [] {
      PositionsWereClaimed(Changed(m, cs[0]), cs[1..], id);
      var p := ChangedAll(m, cs)[id];
      assert Attach(id, p) in cs[1..] ==> Attach(id, p) in cs;
      assert Ack(id, p) in cs[1..] ==> Ack(id, p) in cs;
      assert cs[0] in cs;
    }
  }

  /** Whoever waits is told exactly when the registry changes, and when a stream of a
      follower with a name ends. */
  lemma ToldIff(m: Acks, c: Change)
    ensures Wakes(m, c) <==> Changed(m, c) != m || (c.Detach? && c.id != "")
  {
    if c.Attach? {
      ReachesIsATotalOrder(c.from, c.from, c.from);
    } else if c.Ack? {
      ReachesIsATotalOrder(c.at, c.at, c.at);
    }
  }

  /** What a follower claims: where its stream was opened, if it has a name, or what it
      acknowledges while it is registered. */
  predicate Claims(m: Acks, c: Change, id: Id, p: Position) {
    (c == Attach(id, p) && id != "") || (c == Ack(id, p) && id in m)
  }

  /** And the furthest of its claims since it was last forgotten is what it is registered
      at: none of them is lost, and there is no other. */
  lemma FurthestClaimStands(m: Acks, cs: seq<Change>, k: nat, id: Id, p: Position)
    requires k < |cs| && Claims(ChangedAll(m, cs[..k]), cs[k], id, p)
    requires Detach(id) !in cs[k + 1..]
    ensures id in ChangedAll(m, cs) && Reaches(ChangedAll(m, cs)[id], p)
  {
    var before := ChangedAll(m, cs[..k]);
    var now := Changed(before, cs[k]);
    assert cs == cs[..k] + ([cs[k]] + cs[k + 1..]);
    ChangedAllConcat(m, cs[..k], [cs[k]] + cs[k + 1..]);
    assert ([cs[k]] + cs[k + 1..])[1..] == cs[k + 1..];
    ReachesIsATotalOrder(p, p, p);
    assert id in now && Reaches(now[id], p);
    PositionsNeverGoBack(now, cs[k + 1..], id);
    ReachesIsATotalOrder(ChangedAll(m, cs)[id], now[id], p);
  }

  /** Nobody else's claims touch it. */
  lemma {:induction false} OthersDoNotMove(m: Acks, cs: seq<Change>, id: Id)
    requires forall i :: 0 <= i < |cs| ==> cs[i].id != id
    ensures (id in ChangedAll(m, cs) <==> id in m) && (id in m ==> ChangedAll(m, cs)[id] == m[id])
    decreases |cs|
  {
    if cs != [] {
      assert cs[0].id != id;
      OthersDoNotMove(Changed(m, cs[0]), cs[1..], id);
    }
  }

  /** Acknowledgements may overtake one another: any two, swapped, come to the same
      registry. */
  lemma AcksCommute(m: Acks, a: Change, b: Change)
    requires a.Ack? && b.Ack?
    ensures Changed(Changed(m, a), b) == Changed(Changed(m, b), a)
  {
  }

  lemma ReachingIsAntitone(m: Acks, less: Position, more: Position)
    requires Reaches(more, less)
    ensures Reaching(m, more) <= Reaching(m, less)
    ensures |Reaching(m, more)| <= |Reaching(m, less)|
  {
    forall id | id in Reaching(m, more) ensures id in Reaching(m, less) {
      ReachesIsATotalOrder(m[id], more, less);
    }
    SubsetIsNoLarger(Reaching(m, more), Reaching(m, less));
  }

  lemma {:induction false} SubsetIsNoLarger<T>(a: set<T>, b: set<T>)
    requires a <= b
    ensures |a| <= |b|
  {
    assert b == a + (b - a);
    assert |a + (b - a)| == |a| + |b - a|;
  }

  /** The last registering or forgetting of an id, if any. */
  function LastSay(cs: seq<Change>, id: Id): Option<Change> {
    if cs == [] then None
    else
      var last := cs[|cs| - 1];
      if (last.Attach? || last.Detach?) && last.id == id then Some(last) else LastSay(cs[..|cs| - 1], id)
  }

  lemma {:induction false} ChangedAllSplits(m: Acks, cs: seq<Change>)
    requires cs != []
    ensures ChangedAll(m, cs) == Changed(ChangedAll(m, cs[..|cs| - 1]), cs[|cs| - 1])
    decreases |cs|
  {
    if |cs| > 1 {
      ChangedAllSplits(Changed(m, cs[0]), cs[1..]);
      assert cs[1..][..|cs| - 2] == cs[..|cs| - 1][1..];
    } else {
      assert cs[1..] == [] && cs[..0] == [];
    }
  }

  /** Exactly when a follower's stream counts: when its registering came after any
      forgetting of the same id. */
  lemma {:induction false} RegisteredIffAttachedLast(m: Acks, cs: seq<Change>, id: Id)
    requires id != ""
    ensures id in ChangedAll(m, cs) <==>
      match LastSay(cs, id) case None => id in m case Some(c) => c.Attach?
    decreases |cs|
  {
    if cs != [] {
      ChangedAllSplits(m, cs);
      RegisteredIffAttachedLast(m, cs[..|cs| - 1], id);
    }
  }

  /** Registration is not one to a stream.  A follower keeps its id when it
      redials, so the old stream's end, arriving late, forgets the new stream: the
      follower is still connected, and nothing it says counts any more. */
  lemma LateDetachForgetsALiveStream(m: Acks, id: Id, first: Position, again: Position, at: Position)
    requires id != ""
    ensures var after := ChangedAll(m, [Attach(id, first), Attach(id, again), Detach(id)]);
      id !in after && Changed(after, Ack(id, at)) == after
  {
    var cs := [Attach(id, first), Attach(id, again), Detach(id)];
    RegisteredIffAttachedLast(m, cs, id);
    assert cs[|cs| - 1] == Detach(id);
  }

  // ----- a write waiting

  /** Where the waiting handler is: about to count, waiting on a channel with what
      it counted, or done. */
  datatype Waiter = Counting | Waiting(got: nat, channel: nat) | Finished(got: nat, why: Why)

  /** Channels are numbered: those before `channel` are closed.  `moments` is every
      state the registry has been in since the call began. */
  datatype Wait = Wait(want: Position, need: nat, acks: Acks, channel: nat, waiter: Waiter, moments: seq<Acks>)

  datatype Tick = Moved(change: Change) | Counts | Wakens | Expires | Hangs

  predicate Can(w: Wait, t: Tick) {
    match t
    case Moved(_) => true
    case Counts => w.waiter.Counting?
    case Wakens => w.waiter.Waiting? && w.waiter.channel < w.channel
    case Expires => w.waiter.Waiting?
    case Hangs => w.waiter.Waiting?
  }

  function Next(w: Wait, t: Tick): Wait
    requires Can(w, t)
  {
    match t
    case Moved(c) =>
      var acks := Changed(w.acks, c);
      w.(acks := acks, moments := w.moments + [acks], channel := if Wakes(w.acks, c) then w.channel + 1 else w.channel)
    case Counts =>
      var got := |Reaching(w.acks, w.want)|;
      w.(waiter := if got >= w.need then Finished(got, Enough) else Waiting(got, w.channel))
    case Wakens => w.(waiter := Counting)
    case Expires => w.(waiter := Finished(|Reaching(w.acks, w.want)|, TimedOut))
    case Hangs => w.(waiter := Finished(|Reaching(w.acks, w.want)|, Gone))
  }

  function RunWait(w: Wait, ts: seq<Tick>): Wait
    decreases |ts|
  {
    if ts == [] then w else RunWait(if Can(w, ts[0]) then Next(w, ts[0]) else w, ts[1..])
  }

  ghost predicate WasCount(w: Wait, got: nat) {
    exists i :: 0 <= i < |w.moments| && |Reaching(w.moments[i], w.want)| == got
  }

  ghost predicate WaitInv(w: Wait) {
    && w.moments != [] && w.moments[|w.moments| - 1] == w.acks
    && (w.waiter.Waiting? ==>
          && w.waiter.got < w.need && w.waiter.channel <= w.channel && WasCount(w, w.waiter.got)
          && (w.waiter.channel == w.channel ==> w.waiter.got == |Reaching(w.acks, w.want)|))
    && (w.waiter.Finished? ==> WasCount(w, w.waiter.got) && (w.waiter.why == Enough ==> w.waiter.got >= w.need))
  }

  lemma TickKeeps(w: Wait, t: Tick)
    requires WaitInv(w) && Can(w, t)
    ensures WaitInv(Next(w, t))
  {
    var v := Next(w, t);
    assert |Reaching(v.moments[|v.moments| - 1], v.want)| == |Reaching(v.acks, v.want)|;
    assert WasCount(v, |Reaching(v.acks, v.want)|);
    forall got | WasCount(w, got) ensures WasCount(v, got) {
      var i :| 0 <= i < |w.moments| && |Reaching(w.moments[i], w.want)| == got;
      assert v.moments[i] == w.moments[i];
    }
  }

  lemma {:induction false} WaitingKeepsSound(w: Wait, ts: seq<Tick>)
    requires WaitInv(w)
    ensures var v := RunWait(w, ts);
      && (v.waiter.Finished? ==>
            WasCount(v, v.waiter.got) && (v.waiter.got < v.need ==> v.waiter.why != Enough))
      && (v.waiter.Waiting? && !Can(v, Wakens) ==> |Reaching(v.acks, v.want)| == v.waiter.got < v.need)
    decreases |ts|
  {
    if ts != [] {
      if Can(w, ts[0]) {
        TickKeeps(w, ts[0]);
      }
      WaitingKeepsSound(if Can(w, ts[0]) then Next(w, ts[0]) else w, ts[1..]);
    }
  }

  /** A wait that has just been called. */
  lemma ACallStartsWell(want: Position, need: nat, acks: Acks, channel: nat)
    ensures WaitInv(Wait(want, need, acks, channel, Counting, [acks]))
  {
  }

  /** Over every interleaving from the call on: whatever the wait returns was the true
      count at some moment during it, less than was needed only if time ran out or the
      client went; and no wake-up is lost, so while it waits and could not be woken
      nothing has changed the count it is waiting on. */
  lemma WaitingIsSound(want: Position, need: nat, acks: Acks, channel: nat, ts: seq<Tick>)
    ensures var v := RunWait(Wait(want, need, acks, channel, Counting, [acks]), ts);
      && (v.waiter.Finished? ==>
            WasCount(v, v.waiter.got) && (v.waiter.got < v.need ==> v.waiter.why != Enough))
      && (v.waiter.Waiting? && !Can(v, Wakens) ==> |Reaching(v.acks, v.want)| == v.waiter.got < v.need)
  {
    ACallStartsWell(want, need, acks, channel);
    WaitingKeepsSound(Wait(want, need, acks, channel, Counting, [acks]), ts);
  }

  // ----- the follower's nudge

  datatype Teller = Idle | Stored
  datatype Sender = Listening | Nudged | Sending(at: Position)

  /** One slot for the newest position and a channel one message deep.  `unread`
      says the newest position has not been loaded since it was stored; `tried` is
      what the last request carried and `heard` what the last to arrive did. */
  datatype Nudge = Nudge(latest: Option<Position>, slot: bool, teller: Teller, sender: Sender,
                         unread: bool, loaded: Option<Position>, tried: Option<Position>, heard: Option<Position>)

  /** A request that fails is not made again. */
  datatype Beat = Stores(at: Position) | Pokes | Receives | Loads | Sends(arrives: bool)

  predicate May(n: Nudge, b: Beat) {
    match b
    case Stores(_) => n.teller == Idle
    case Pokes => n.teller == Stored
    case Receives => n.sender == Listening && n.slot
    case Loads => n.sender == Nudged
    case Sends(_) => n.sender.Sending?
  }

  function Moves(n: Nudge, b: Beat): Nudge
    requires May(n, b)
  {
    match b
    case Stores(at) => n.(latest := Some(at), teller := Stored, unread := true)
    case Pokes => n.(slot := true, teller := Idle) // a full slot is left as it is
    case Receives => n.(slot := false, sender := Nudged)
    case Loads =>
      if n.latest.None? then n.(sender := Listening)
      else n.(sender := Sending(n.latest.value), unread := false, loaded := n.latest)
    case Sends(arrives) =>
      n.(sender := Listening, tried := Some(n.sender.at), heard := if arrives then Some(n.sender.at) else n.heard)
  }

  function RunNudge(n: Nudge, bs: seq<Beat>): Nudge
    decreases |bs|
  {
    if bs == [] then n else RunNudge(if May(n, bs[0]) then Moves(n, bs[0]) else n, bs[1..])
  }

  predicate NudgeInv(n: Nudge) {
    && (n.unread ==> n.latest.Some? && (n.slot || n.teller == Stored || n.sender == Nudged))
    && (!n.unread ==> n.loaded == n.latest)
    && (if n.sender.Sending? then n.loaded == Some(n.sender.at) else n.tried == n.loaded)
  }

  predicate Still(n: Nudge) {
    n.teller == Idle && n.sender == Listening && !n.slot
  }

  /** No position is left untold: one that has been stored and not loaded has a
      nudge waiting, a sender on its way to it, or a teller about to nudge; and once
      everything is still, the newest is what the last request carried. */
  lemma {:induction false} NoNudgeIsLost(n: Nudge, bs: seq<Beat>)
    requires NudgeInv(n)
    ensures var v := RunNudge(n, bs);
      && (v.unread ==> v.slot || v.teller == Stored || v.sender == Nudged)
      && (Still(v) ==> v.tried == v.latest)
    decreases |bs|
  {
    if bs != [] {
      NoNudgeIsLost(if May(n, bs[0]) then Moves(n, bs[0]) else n, bs[1..]);
    }
  }

  /** Tried, and not told: if that request fails nothing more is sent, and the leader
      does not hear of the position until there is a newer one. */
  lemma AFailedRequestIsNotRetried(at: Position)
    ensures var v := RunNudge(START, [Stores(at), Pokes, Receives, Loads, Sends(false)]);
      Still(v) && v.latest == v.tried == Some(at) && v.heard == None
  {
    var n0 := START;
    var n1 := Moves(n0, Stores(at));
    var n2 := Moves(n1, Pokes);
    var n3 := Moves(n2, Receives);
    var n4 := Moves(n3, Loads);
    var bs := [Stores(at), Pokes, Receives, Loads, Sends(false)];
    assert RunNudge(n0, bs) == RunNudge(n1, bs[1..]);
    assert RunNudge(n1, bs[1..]) == RunNudge(n2, bs[2..]);
    assert RunNudge(n2, bs[2..]) == RunNudge(n3, bs[3..]);
    assert RunNudge(n3, bs[3..]) == RunNudge(n4, bs[4..]);
    assert RunNudge(n4, bs[4..]) == RunNudge(Moves(n4, Sends(false)), []);
  }

  // ----- and exactly when the leader has heard

  const START := Nudge(None, false, Idle, Listening, false, None, None, None)

  /** Positions are stored in an order that never goes back: a follower's are told so
      (`Replication.AcknowledgementsNeverGoBack`). */
  predicate NeverBack(bs: seq<Beat>) {
    forall i, j :: 0 <= i < j < |bs| && bs[i].Stores? && bs[j].Stores? ==> Reaches(bs[j].at, bs[i].at)
  }

  /** Some request that carried this position arrived. */
  ghost predicate Carried(bs: seq<Beat>, at: Position) {
    exists i :: 0 <= i < |bs| && bs[i] == Sends(true) && RunNudge(START, bs[..i]).sender == Sending(at)
  }

  lemma {:induction false} RunNudgeSplits(n: Nudge, bs: seq<Beat>)
    requires bs != []
    ensures var before := RunNudge(n, bs[..|bs| - 1]);
      RunNudge(n, bs) == if May(before, bs[|bs| - 1]) then Moves(before, bs[|bs| - 1]) else before
    decreases |bs|
  {
    hide May, Moves;
    if |bs| == 1 {
      assert bs[1..] == [] && bs[..0] == [];
    } else {
      RunNudgeSplits(if May(n, bs[0]) then Moves(n, bs[0]) else n, bs[1..]);
      assert bs[1..][..|bs| - 2] == bs[..|bs| - 1][1..];
    }
  }

  lemma CarriedSplits(bs: seq<Beat>, b: Beat, at: Position)
    ensures Carried(bs + [b], at) <==> Carried(bs, at) || (b == Sends(true) && RunNudge(START, bs).sender == Sending(at))
  {
    hide RunNudge;
    var all := bs + [b];
    assert forall i :: 0 <= i <= |bs| ==> all[..i] == bs[..i];
    assert bs[..|bs|] == bs;
    if Carried(bs, at) {
      var i :| 0 <= i < |bs| && bs[i] == Sends(true) && RunNudge(START, bs[..i]).sender == Sending(at);
      assert all[i] == Sends(true);
    }
    if b == Sends(true) && RunNudge(START, bs).sender == Sending(at) {
      assert all[|bs|] == Sends(true);
    }
  }

  /** What is carried, heard and stored comes in that order, each reaching the last. */
  ghost predicate HeardInv(bs: seq<Beat>, n: Nudge) {
    && (n.latest.Some? ==> exists i :: 0 <= i < |bs| && bs[i] == Stores(n.latest.value))
    && (n.heard.Some? ==> n.latest.Some? && Reaches(n.latest.value, n.heard.value) && Carried(bs, n.heard.value))
    && (n.sender.Sending? ==>
          && n.latest.Some? && Reaches(n.latest.value, n.sender.at)
          && (n.heard.Some? ==> Reaches(n.sender.at, n.heard.value)))
    && (forall p :: Carried(bs, p) ==> n.heard.Some? && Reaches(n.heard.value, p))
  }

  lemma BeatKeepsHeard(bs: seq<Beat>, b: Beat, n: Nudge)
    requires HeardInv(bs, n) && n == RunNudge(START, bs) && NeverBack(bs + [b])
    ensures HeardInv(bs + [b], if May(n, b) then Moves(n, b) else n)
  {
    var all := bs + [b];
    var v := if May(n, b) then Moves(n, b) else n;
    forall p ensures Carried(all, p) <==> Carried(bs, p) || (b == Sends(true) && n.sender == Sending(p)) {
      CarriedSplits(bs, b, p);
    }
    if n.latest.Some? {
      var i :| 0 <= i < |bs| && bs[i] == Stores(n.latest.value);
      assert all[i] == Stores(n.latest.value);
      if b.Stores? {
        assert all[|bs|] == b;
        assert Reaches(b.at, n.latest.value);
      }
    }
    if v.latest != n.latest {
      assert all[|bs|] == Stores(v.latest.value);
    }
    hide Carried, RunNudge, NeverBack;
    forall p, q, r ensures Reaches(p, p) && (Reaches(p, q) && Reaches(q, r) ==> Reaches(p, r)) {
      ReachesIsATotalOrder(p, q, r);
    }
  }

  lemma {:induction false} RunKeepsHeard(bs: seq<Beat>)
    requires NeverBack(bs)
    ensures HeardInv(bs, RunNudge(START, bs))
    decreases |bs|
  {
    if bs != [] {
      var before, b := bs[..|bs| - 1], bs[|bs| - 1];
      assert bs == before + [b];
      RunKeepsHeard(before);
      RunNudgeSplits(START, bs);
      BeatKeepsHeard(before, b, RunNudge(START, before));
    }
  }

  /** The last the leader heard is the newest stored exactly if some request that
      carried it arrived, whichever others failed: the one that was nudged for, or one
      more out of a nudge left over. */
  lemma HeardIffCarried(bs: seq<Beat>)
    requires NeverBack(bs)
    ensures var v := RunNudge(START, bs);
      v.latest.Some? ==> (v.heard == v.latest <==> Carried(bs, v.latest.value))
  {
    RunKeepsHeard(bs);
    var v := RunNudge(START, bs);
    if v.latest.Some? && Carried(bs, v.latest.value) {
      ReachesIsATotalOrder(v.latest.value, v.heard.value, v.latest.value);
    }
  }

  /** So once all is still, and the newest was last tried, the leader can only have
      missed it if every request that carried it failed. */
  lemma MissedIffAllFailed(bs: seq<Beat>)
    requires NeverBack(bs) && Still(RunNudge(START, bs)) && RunNudge(START, bs).latest.Some?
    ensures var v := RunNudge(START, bs);
      && v.tried == v.latest
      && (v.heard != v.latest <==>
            forall i :: 0 <= i < |bs| && bs[i].Sends? && RunNudge(START, bs[..i]).sender == Sending(v.latest.value) ==> !bs[i].arrives)
  {
    NoNudgeIsLost(START, bs);
    HeardIffCarried(bs);
  }

  /** A nudge left over carries the same position again, and can make a failure good. */
  lemma ALeftOverNudgeTriesAgain(p: Position, q: Position)
    requires Reaches(q, p)
    ensures var failed := [Stores(p), Pokes, Receives, Stores(q), Loads, Pokes, Sends(false)];
      && RunNudge(START, failed).heard == None && RunNudge(START, failed).tried == Some(q)
      && RunNudge(START, failed + [Receives, Loads, Sends(true)]).heard == Some(q)
      && Still(RunNudge(START, failed + [Receives, Loads, Sends(true)]))
  {
    var n3 := Nudge(Some(p), false, Idle, Nudged, true, None, None, None);
    assert RunNudge(START, [Stores(p), Pokes, Receives]) == n3 by {
      NudgeRunsThree(START, Stores(p), Pokes, Receives);
    }
    var n6 := Nudge(Some(q), true, Idle, Sending(q), false, Some(q), None, None);
    assert RunNudge(n3, [Stores(q), Loads, Pokes]) == n6 by {
      NudgeRunsThree(n3, Stores(q), Loads, Pokes);
    }
    var n7 := Nudge(Some(q), true, Idle, Listening, false, Some(q), Some(q), None);
    assert RunNudge(n6, [Sends(false)]) == n7;
    assert RunNudge(n7, [Receives, Loads, Sends(true)]) == Nudge(Some(q), false, Idle, Listening, false, Some(q), Some(q), Some(q)) by {
      NudgeRunsThree(n7, Receives, Loads, Sends(true));
    }
    var failed := [Stores(p), Pokes, Receives, Stores(q), Loads, Pokes, Sends(false)];
    assert failed == [Stores(p), Pokes, Receives] + ([Stores(q), Loads, Pokes] + [Sends(false)]);
    hide RunNudge, May, Moves;
    RunNudgeConcat(START, [Stores(p), Pokes, Receives], [Stores(q), Loads, Pokes] + [Sends(false)]);
    RunNudgeConcat(n3, [Stores(q), Loads, Pokes], [Sends(false)]);
    RunNudgeConcat(START, failed, [Receives, Loads, Sends(true)]);
  }

  lemma {:induction false} RunNudgeConcat(n: Nudge, a: seq<Beat>, b: seq<Beat>)
    ensures RunNudge(n, a + b) == RunNudge(RunNudge(n, a), b)
    decreases |a|
  {
    hide May, Moves;
    if a == [] {
      assert a + b == b;
    } else {
      assert (a + b)[1..] == a[1..] + b;
      RunNudgeConcat(if May(n, a[0]) then Moves(n, a[0]) else n, a[1..], b);
    }
  }

  lemma NudgeRunsThree(n: Nudge, a: Beat, b: Beat, c: Beat)
    requires May(n, a) && May(Moves(n, a), b) && May(Moves(Moves(n, a), b), c)
    ensures RunNudge(n, [a, b, c]) == Moves(Moves(Moves(n, a), b), c)
  {
    hide May, Moves;
    assert [a, b, c][1..] == [b, c] && [b, c][1..] == [c] && [c][1..] == [];
    assert RunNudge(n, [a, b, c]) == RunNudge(Moves(n, a), [b, c]);
    assert RunNudge(Moves(n, a), [b, c]) == RunNudge(Moves(Moves(n, a), b), [c]);
  }
}
