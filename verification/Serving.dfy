/** One request for a replication stream, from the leader's side: who is turned
    away and why, and what becomes of every spool file and every hold on the log
    that it takes, over any number of rounds of divergence. */
module Serving {
  import opened Base

  /** What the handler does with a resource.  `Handed` is a hold given to the
      store's own streaming, which lets it go itself. */
  datatype Event =
    | Opened(file: nat) | Closed(file: nat)
    | Took(hold: nat) | Released(hold: nat) | Handed(hold: nat)
    | Attached | Detached

  /** What is open, held and registered after some events, every name used, and
      how often the follower was registered. */
  datatype Ledger = Ledger(open: set<nat>, held: set<nat>, attached: bool, files: set<nat>, holds: set<nat>, joined: nat)

  const NOTHING := Ledger({}, {}, false, {}, {}, 0)

  predicate Allowed(l: Ledger, e: Event) {
    match e
    case Opened(f) => f !in l.files
    case Closed(f) => f in l.open
    case Took(h) => h !in l.holds
    case Released(h) => h in l.held
    case Handed(h) => h in l.held
    case Attached => !l.attached
    case Detached => l.attached
  }

  function Post(l: Ledger, e: Event): Ledger {
    match e
    case Opened(f) => l.(open := l.open + {f}, files := l.files + {f})
    case Closed(f) => l.(open := l.open - {f})
    case Took(h) => l.(held := l.held + {h}, holds := l.holds + {h})
    case Released(h) => l.(held := l.held - {h})
    case Handed(h) => l.(held := l.held - {h})
    case Attached => l.(attached := true, joined := l.joined + 1)
    case Detached => l.(attached := false)
  }

  function After(trace: seq<Event>): Ledger {
    if trace == [] then NOTHING else Post(After(trace[..|trace| - 1]), trace[|trace| - 1])
  }

  /** Nothing is closed or let go of that is not open or held at that moment. */
  predicate Legal(trace: seq<Event>) {
    trace == [] ||
    (Legal(trace[..|trace| - 1]) && Allowed(After(trace[..|trace| - 1]), trace[|trace| - 1]))
  }

  /** Never more than one file open and one hold held at a time. */
  predicate Sparing(trace: seq<Event>) {
    Spare(After(trace)) && (trace == [] || Sparing(trace[..|trace| - 1]))
  }

  predicate Spare(l: Ledger) {
    && (forall a, b :: a in l.open && b in l.open ==> a == b)
    && (forall a, b :: a in l.held && b in l.held ==> a == b)
  }

  lemma OneAtMost(s: set<nat>)
    requires forall a, b :: a in s && b in s ==> a == b
    ensures |s| <= 1
  {
    if s != {} {
      var a :| a in s;
      assert s == {a};
    }
  }

  lemma {:induction false} SparingThroughout(trace: seq<Event>, n: nat)
    requires Sparing(trace) && n <= |trace|
    ensures |After(trace[..n]).open| <= 1 && |After(trace[..n]).held| <= 1
    decreases |trace|
  {
    if n == |trace| {
      assert trace[..n] == trace;
      OneAtMost(After(trace).open);
      OneAtMost(After(trace).held);
    } else {
      SparingThroughout(trace[..|trace| - 1], n);
      assert trace[..|trace| - 1][..n] == trace[..n];
    }
  }

  function Count(trace: seq<Event>, e: Event): nat {
    multiset(trace)[e]
  }

  lemma {:induction false} LegalTracesBalance(trace: seq<Event>, id: nat)
    requires Legal(trace)
    ensures var l := After(trace);
      && Count(trace, Opened(id)) == (if id in l.files then 1 else 0)
      && Count(trace, Opened(id)) == Count(trace, Closed(id)) + (if id in l.open then 1 else 0)
      && Count(trace, Took(id)) == (if id in l.holds then 1 else 0)
      && Count(trace, Took(id)) ==
         Count(trace, Released(id)) + Count(trace, Handed(id)) + (if id in l.held then 1 else 0)
      && (id in l.open ==> id in l.files) && (id in l.held ==> id in l.holds)
  {
    if trace != [] {
      var n := |trace| - 1;
      LegalTracesBalance(trace[..n], id);
      assert trace == trace[..n] + [trace[n]];
    }
  }

  lemma NamesUsed(trace: seq<Event>)
    requires Legal(trace)
    ensures After(trace).open <= After(trace).files && After(trace).held <= After(trace).holds
  {
  }

  lemma Extend(trace: seq<Event>, e: Event)
    requires Legal(trace) && Allowed(After(trace), e)
    ensures Legal(trace + [e]) && After(trace + [e]) == Post(After(trace), e)
    ensures Sparing(trace) && Spare(Post(After(trace), e)) ==> Sparing(trace + [e])
  {
    assert (trace + [e])[..|trace|] == trace;
  }

  // ----- the environment's answers

  datatype SpoolResult = NoFile | NotRemoved | SnapshotRefused | NotRewound | Spooled

  /** One turn of the stream: whether the snapshot (if there is one) reached the
      follower, how streaming ended, whether the client had gone by then, and how
      the next snapshot went. */
  datatype Turn = Turn(sent: bool, diverged: bool, gone: bool, next: SpoolResult)

  datatype Request = Request(following: bool, from: Option<Position>, flushes: bool, closing: bool, term: nat)

  datatype Answer = IsFollowing | BadPosition | CannotStream | GoingDown | Fenced | SpoolFailed | Streamed

  /** Takes a snapshot into a file.  Every way of failing gives back what it took. */
  method Spool(how: SpoolResult, trace: seq<Event>, id: nat) returns (ok: bool, after: seq<Event>)
    requires Legal(trace) && id !in After(trace).files && id !in After(trace).holds
    ensures ok <==> how == Spooled
    ensures after == trace + Spooling(how, id)
    ensures Legal(after)
    ensures Sparing(trace) && NothingOut(After(trace)) ==> Sparing(after)
    ensures After(after).attached == After(trace).attached && After(after).joined == After(trace).joined
    ensures After(after).files <= After(trace).files + {id} && After(after).holds <= After(trace).holds + {id}
    ensures ok ==> After(after).open == After(trace).open + {id} && After(after).held == After(trace).held + {id}
    ensures !ok ==> After(after).open == After(trace).open && After(after).held == After(trace).held
  {
    hide After, Legal, Sparing;
    FileOpened(trace, id);
    HoldTaken(trace, id);
    after, ok := trace, false;
    if how == NoFile {
      return;
    }
    after := after + [Opened(id)];
    if how == NotRemoved || how == SnapshotRefused {
      after := after + [Closed(id)];
      return;
    }
    after := after + [Took(id)];
    if how == NotRewound {
      after := after + [Released(id)];
      after := after + [Closed(id)];
      return;
    }
    ok := true;
  }

  predicate NothingOut(l: Ledger) {
    l.open == {} && l.held == {}
  }

  lemma FileOpened(trace: seq<Event>, id: nat)
    requires Legal(trace) && id !in After(trace).files
    ensures var was, opening := After(trace), trace + [Opened(id)];
      && Legal(opening) && After(opening) == was.(open := was.open + {id}, files := was.files + {id})
      && Legal(opening + [Closed(id)]) && After(opening + [Closed(id)]) == was.(files := was.files + {id})
    ensures Sparing(trace) && NothingOut(After(trace)) ==>
      Sparing(trace + [Opened(id)]) && Sparing(trace + [Opened(id)] + [Closed(id)])
  {
    hide After, Legal, Sparing;
    NamesUsed(trace);
    var was := After(trace);
    assert was.open + {id} - {id} == was.open;
    Extend(trace, Opened(id));
    Extend(trace + [Opened(id)], Closed(id));
  }

  lemma HoldTaken(trace: seq<Event>, id: nat)
    requires Legal(trace) && id !in After(trace).files && id !in After(trace).holds
    ensures var was, both := After(trace), trace + [Opened(id)] + [Took(id)];
      var now := was.(files := was.files + {id}, holds := was.holds + {id});
      && Legal(both) && After(both) == now.(open := was.open + {id}, held := was.held + {id})
      && Legal(both + [Released(id)] + [Closed(id)]) && After(both + [Released(id)] + [Closed(id)]) == now
    ensures var both := trace + [Opened(id)] + [Took(id)];
      Sparing(trace) && NothingOut(After(trace)) ==> Sparing(both) && Sparing(both + [Released(id)] + [Closed(id)])
  {
    hide After, Legal, Sparing;
    NamesUsed(trace);
    FileOpened(trace, id);
    var was := After(trace);
    assert was.open + {id} - {id} == was.open && was.held + {id} - {id} == was.held;
    var opening := trace + [Opened(id)];
    Extend(opening, Took(id));
    Extend(opening + [Took(id)], Released(id));
    Extend(opening + [Took(id)] + [Released(id)], Closed(id));
  }

  // ----- which way each hold goes

  /** The turn that ends every stream in the end: the client goes away. */
  const LAST := Turn(true, false, true, NoFile)

  function At(turns: seq<Turn>, i: nat): Turn {
    if i < |turns| then turns[i] else LAST
  }

  /** Whether the i-th turn begins with a snapshot to send: all but perhaps the first,
      which does if the follower had nowhere to carry on from. */
  predicate Sends(first: bool, i: nat) {
    i > 0 || first
  }

  /** The i-th turn ends in a divergence and the client is still there for another
      snapshot. */
  predicate Stranded(turns: seq<Turn>, first: bool, i: nat) {
    (Sends(first, i) ==> At(turns, i).sent) && At(turns, i).diverged && !At(turns, i).gone
  }

  /** The stream gets as far as the i-th turn. */
  predicate Reached(turns: seq<Turn>, first: bool, i: nat) {
    forall j :: 0 <= j < i ==> Stranded(turns, first, j) && At(turns, j).next == Spooled
  }

  /** What is done with the k-th file and hold. */
  datatype Fate = Fate(made: bool, took: bool, handed: bool, released: bool)

  const NOTHING_DONE := Fate(false, false, false, false)

  function FateOf(trace: seq<Event>, k: nat): Fate {
    Fate(Opened(k) in trace, Took(k) in trace, Handed(k) in trace, Released(k) in trace)
  }

  /** What should be.  A divergence is answered by another snapshot; its hold is taken
      once the store has given one; the hold of a snapshot that was sent is handed to
      the store's streaming, and only one that was not sent, or could not be, is
      released. */
  ghost function Due(turns: seq<Turn>, first: bool, k: nat): Fate {
    var sent := Reached(turns, first, k) && Sends(first, k);
    if k == 0 then Fate(first, first, sent && At(turns, k).sent, sent && !At(turns, k).sent)
    else
      var answered := Reached(turns, first, k - 1) && Stranded(turns, first, k - 1);
      var how := At(turns, k - 1).next;
      Fate(answered && how != NoFile, answered && (how == Spooled || how == NotRewound),
           sent && At(turns, k).sent, (sent && !At(turns, k).sent) || (answered && how == NotRewound))
  }

  ghost predicate Accounts(trace: seq<Event>, turns: seq<Turn>, first: bool) {
    ClosedFirst(trace) && forall k: nat :: FateOf(trace, k) == Due(turns, first, k)
  }

  /** The file of a snapshot is closed just before its hold goes to the store. */
  predicate ClosedFirst(trace: seq<Event>) {
    forall m :: 0 <= m < |trace| && trace[m].Handed? ==> m > 0 && trace[m - 1] == Closed(trace[m].hold)
  }

  /** What has been done at the beginning of the i-th turn. */
  function Done(first: bool, i: nat, k: nat): Fate {
    if Sends(first, k) && k <= i then Fate(true, true, k < i, false) else NOTHING_DONE
  }

  ghost predicate AccountsUntil(trace: seq<Event>, first: bool, i: nat) {
    ClosedFirst(trace) && forall k: nat :: FateOf(trace, k) == Done(first, i, k)
  }

  function Both(a: Fate, b: Fate): Fate {
    Fate(a.made || b.made, a.took || b.took, a.handed || b.handed, a.released || b.released)
  }

  lemma FatesAdd(a: seq<Event>, b: seq<Event>, k: nat)
    ensures FateOf(a + b, k) == Both(FateOf(a, k), FateOf(b, k))
  {
  }

  lemma ClosedFirstStill(trace: seq<Event>, es: seq<Event>)
    requires ClosedFirst(trace) && (forall m :: 0 <= m < |es| ==> !es[m].Handed?)
    ensures ClosedFirst(trace + es)
  {
  }

  lemma ClosedThenHanded(trace: seq<Event>, i: nat)
    requires ClosedFirst(trace)
    ensures ClosedFirst(trace + [Closed(i), Handed(i)])
  {
  }

  lemma EarlierTurns(turns: seq<Turn>, first: bool, i: nat)
    requires Reached(turns, first, i)
    ensures forall j: nat :: j < i ==> Reached(turns, first, j) && Stranded(turns, first, j) && At(turns, j).next == Spooled
    ensures forall j: nat :: j < i && Sends(first, j) ==> At(turns, j).sent
  {
  }

  lemma ReachedNoFurther(turns: seq<Turn>, first: bool, i: nat, k: nat)
    requires Reached(turns, first, i) && !(Stranded(turns, first, i) && At(turns, i).next == Spooled) && k > i
    ensures !Reached(turns, first, k)
  {
  }

  /** What is due if the i-th turn is the last. */
  lemma DueByTheEnd(turns: seq<Turn>, first: bool, i: nat, k: nat)
    requires Reached(turns, first, i) && !(Stranded(turns, first, i) && At(turns, i).next == Spooled)
    ensures Due(turns, first, k) ==
      if k < i then Fate(Sends(first, k), Sends(first, k), Sends(first, k), false)
      else if k == i then
        Fate(Sends(first, i), Sends(first, i), Sends(first, i) && At(turns, i).sent, Sends(first, i) && !At(turns, i).sent)
      else if k == i + 1 && Stranded(turns, first, i) then
        var how := At(turns, i).next;
        Fate(how != NoFile, how == NotRewound, false, how == NotRewound)
      else NOTHING_DONE
  {
    EarlierTurns(turns, first, i);
    if k > i {
      ReachedNoFurther(turns, first, i, k);
      if k > i + 1 {
        ReachedNoFurther(turns, first, i, k - 1);
      }
    }
    hide Reached, Stranded, At;
  }

  /** What a turn that is the last does itself. */
  function InTheLast(turns: seq<Turn>, first: bool, i: nat, k: nat): Fate {
    if k == i then Fate(false, false, Sends(first, i) && At(turns, i).sent, Sends(first, i) && !At(turns, i).sent)
    else if k == i + 1 && Stranded(turns, first, i) then
      Fate(At(turns, i).next != NoFile, At(turns, i).next == NotRewound, false, At(turns, i).next == NotRewound)
    else NOTHING_DONE
  }

  /** A stream that ends in its i-th turn, having done this in it. */
  lemma EndsHere(trace: seq<Event>, turns: seq<Turn>, first: bool, i: nat, es: seq<Event>)
    requires AccountsUntil(trace, first, i) && Reached(turns, first, i) && ClosedFirst(trace + es)
    requires !(Stranded(turns, first, i) && At(turns, i).next == Spooled)
    requires forall k: nat :: FateOf(es, k) == InTheLast(turns, first, i, k)
    ensures Accounts(trace + es, turns, first)
  {
    forall k: nat ensures FateOf(trace + es, k) == Due(turns, first, k) {
      FatesAdd(trace, es, k);
      DueByTheEnd(turns, first, i, k);
      hide FateOf, Due, Reached, Stranded, At;
    }
  }

  /** What a turn does with the snapshot it begins with. */
  function Opening(first: bool, i: nat): seq<Event> {
    if Sends(first, i) then [Closed(i), Handed(i)] else []
  }

  lemma EndsUnsent(trace: seq<Event>, turns: seq<Turn>, first: bool, i: nat)
    requires AccountsUntil(trace, first, i) && Reached(turns, first, i) && Sends(first, i) && !At(turns, i).sent
    ensures Accounts(trace + [Closed(i)] + [Released(i)], turns, first)
  {
    var es := [Closed(i), Released(i)];
    assert trace + [Closed(i)] + [Released(i)] == trace + es;
    ClosedFirstStill(trace, es);
    EndsHere(trace, turns, first, i, es);
  }

  lemma EndsSent(trace: seq<Event>, turns: seq<Turn>, first: bool, i: nat)
    requires AccountsUntil(trace, first, i) && Reached(turns, first, i) && (Sends(first, i) ==> At(turns, i).sent)
    requires !Stranded(turns, first, i)
    ensures Accounts(trace + Opening(first, i), turns, first)
  {
    ClosedThenHanded(trace, i);
    assert trace + [] == trace;
    EndsHere(trace, turns, first, i, Opening(first, i));
  }

  /** What an attempt at another snapshot does; if it fails nothing is left out. */
  function Spooling(how: SpoolResult, id: nat): seq<Event> {
    match how
    case NoFile => []
    case NotRemoved => [Opened(id), Closed(id)]
    case SnapshotRefused => [Opened(id), Closed(id)]
    case NotRewound => [Opened(id), Took(id), Released(id), Closed(id)]
    case Spooled => [Opened(id), Took(id)]
  }

  lemma EndsUnspooled(trace: seq<Event>, turns: seq<Turn>, first: bool, i: nat)
    requires AccountsUntil(trace, first, i) && Reached(turns, first, i) && (Sends(first, i) ==> At(turns, i).sent)
    requires Stranded(turns, first, i) && At(turns, i).next != Spooled
    ensures Accounts(trace + Opening(first, i) + Spooling(At(turns, i).next, i + 1), turns, first)
  {
    var how := At(turns, i).next;
    var a, b := Opening(first, i), Spooling(how, i + 1);
    assert trace + a + b == trace + (a + b) && trace + [] == trace;
    ClosedThenHanded(trace, i);
    ClosedFirstStill(trace + a, b);
    forall k: nat ensures FateOf(a + b, k) ==
      if k == i then Fate(false, false, Sends(first, i), false)
      else if k == i + 1 then Fate(how != NoFile, how == NotRewound, false, how == NotRewound)
      else NOTHING_DONE
    {
      FatesAdd(a, b, k);
    }
    hide Accounts, AccountsUntil, ClosedFirst, FateOf, Reached, Stranded, Opening, Spooling;
    EndsHere(trace, turns, first, i, a + b);
  }

  lemma GoesOn(trace: seq<Event>, turns: seq<Turn>, first: bool, i: nat)
    requires AccountsUntil(trace, first, i) && Reached(turns, first, i) && Stranded(turns, first, i) && At(turns, i).next == Spooled
    ensures AccountsUntil(trace + Opening(first, i) + Spooling(Spooled, i + 1), first, i + 1) && Reached(turns, first, i + 1)
  {
    var a, b := Opening(first, i), Spooling(Spooled, i + 1);
    assert trace + [] == trace;
    ClosedThenHanded(trace, i);
    ClosedFirstStill(trace + a, b);
    forall k: nat ensures FateOf(trace + a + b, k) == Done(first, i + 1, k) {
      FatesAdd(trace + a, b, k);
      FatesAdd(trace, a, k);
    }
  }

  /** The handler.  Refusals come in this order and before anything is sent; only
      a follower with nowhere to carry on from is spooled for beforehand.  Over
      every run, each file opened has been closed and each hold taken has been
      released or handed on by the time it returns, and nothing twice. */
  method StreamReplica(r: Request, first: SpoolResult, turns: seq<Turn>)
    returns (answer: Answer, noted: bool, trace: seq<Event>)
    ensures answer ==
      if r.following then IsFollowing
      else if r.from.None? then BadPosition
      else if !r.flushes then CannotStream
      else if r.closing then GoingDown
      else if r.from.value.term > r.term then Fenced
      else if r.from.value == ZERO && first != Spooled then SpoolFailed
      else Streamed
    ensures noted <==> answer == Fenced
    ensures Legal(trace) && Sparing(trace)
    ensures After(trace).open == {} && After(trace).held == {} && !After(trace).attached
    ensures After(trace).joined == if answer == Streamed then 1 else 0
    ensures answer == Streamed ==> Accounts(trace, turns, r.from == Some(ZERO))
    ensures answer == SpoolFailed ==> trace == match first
      case NotRewound => [Opened(0), Took(0), Released(0), Closed(0)]
      case NoFile => []
      case _ => [Opened(0), Closed(0)]
    ensures answer != Streamed && answer != SpoolFailed ==> trace == []
  {
    trace, noted := [], false;
    assert Legal(trace) && After(trace) == NOTHING && Sparing(trace);
    hide After, Legal, Sparing;
    if r.following {
      return IsFollowing, false, trace;
    }
    if r.from.None? {
      return BadPosition, false, trace;
    }
    if !r.flushes {
      return CannotStream, false, trace;
    }
    if r.closing {
      return GoingDown, false, trace;
    }
    if r.from.value.term > r.term {
      return Fenced, true, trace;
    }

    var snapshot: Option<nat> := None;
    if r.from.value == ZERO {
      var ok;
      ok, trace := Spool(first, trace, 0);
      if !ok {
        return SpoolFailed, false, trace;
      }
      snapshot := Some(0);
    }
    trace := Streaming(turns, trace, snapshot);
    return Streamed, false, trace;
  }

  /** What follows once nothing can be refused any more. */
  method Streaming(turns: seq<Turn>, before: seq<Event>, file: Option<nat>) returns (trace: seq<Event>)
    requires Legal(before) && Sparing(before) && Owns(After(before), file, file) && !After(before).attached
    requires After(before).files <= {0} && After(before).holds <= {0}
    requires if file == None then before == [] else file == Some(0) && before == [Opened(0), Took(0)]
    ensures Legal(trace) && Sparing(trace) && Owns(After(trace), None, None) && !After(trace).attached
    ensures Accounts(trace, turns, file.Some?)
    ensures After(trace).joined == After(before).joined + 1
  {
    hide After, Legal, Sparing, Accounts, AccountsUntil;
    Extend(before, Attached);
    trace := before + [Attached];
    NothingHandedYet(file);
    var snapshot;
    trace, snapshot := Turns(turns, trace, file, file);

    // what the handler left to be done on its way out
    OnTheWayOut(trace, turns, file.Some?, Detached);
    Extend(trace, Detached);
    trace := trace + [Detached];
    if snapshot.Some? {
      OnTheWayOut(trace, turns, file.Some?, Closed(snapshot.value));
      Extend(trace, Closed(snapshot.value));
      trace := trace + [Closed(snapshot.value)];
    }
  }

  lemma NothingHandedYet(file: Option<nat>)
    requires file.Some? ==> file == Some(0)
    ensures AccountsUntil((if file == None then [] else [Opened(0), Took(0)]) + [Attached], file.Some?, 0)
  {
  }

  lemma OnTheWayOut(trace: seq<Event>, turns: seq<Turn>, first: bool, e: Event)
    requires Accounts(trace, turns, first) && (e == Detached || e.Closed?)
    ensures Accounts(trace + [e], turns, first)
  {
    ClosedFirstStill(trace, [e]);
    forall k: nat ensures FateOf(trace + [e], k) == FateOf(trace, k) {
      FatesAdd(trace, [e], k);
    }
    hide Due;
  }

  predicate Owns(l: Ledger, snapshot: Option<nat>, holding: Option<nat>) {
    && l.open == (if snapshot.Some? then {snapshot.value} else {})
    && l.held == (if holding.Some? then {holding.value} else {})
  }

  /** The loop.  `snapshot` is whatever file is still open when it stops. */
  method Turns(turns: seq<Turn>, before: seq<Event>, file: Option<nat>, hold: Option<nat>)
    returns (trace: seq<Event>, snapshot: Option<nat>)
    requires Legal(before) && Sparing(before) && Owns(After(before), file, hold) && After(before).attached
    requires file == hold
    requires After(before).files <= {0} && After(before).holds <= {0}
    requires (file.Some? ==> file == Some(0)) && AccountsUntil(before, file.Some?, 0)
    ensures Legal(trace) && Sparing(trace) && Owns(After(trace), snapshot, None) && After(trace).attached
    ensures Accounts(trace, turns, file.Some?)
    ensures After(trace).joined == After(before).joined
  {
    hide After, Legal, Sparing, Accounts, AccountsUntil, Reached, Stranded;
    trace, snapshot := before, file;
    var holding: Option<nat> := hold;
    var i: nat := 0;
    ghost var first := file.Some?;
    NobodyYet(turns, first);
    while true
      invariant Legal(trace) && Sparing(trace) && Owns(After(trace), snapshot, holding) && After(trace).attached
      invariant snapshot == holding == if Sends(first, i) then Some(i) else None
      invariant forall id :: id in After(trace).files || id in After(trace).holds ==> id <= i
      invariant After(trace).joined == After(before).joined
      invariant AccountsUntil(trace, first, i) && Reached(turns, first, i)
      invariant i <= |turns|
      decreases |turns| - i
    {
      ghost var was := trace;
      var turn := At(turns, i);
      if holding.Some? {
        Extend(trace, Closed(snapshot.value));
        trace := trace + [Closed(snapshot.value)];
        snapshot := None;
        if !turn.sent {
          EndsUnsent(was, turns, first, i);
          Extend(trace, Released(holding.value));
          trace := trace + [Released(holding.value)];
          return;
        }
        Extend(trace, Handed(holding.value));
        trace := trace + [Handed(holding.value)];
      }
      holding := None;
      assert trace == was + Opening(first, i);
      StrandedIs(turns, first, i);
      if !turn.diverged || turn.gone {
        EndsSent(was, turns, first, i);
        return;
      }
      if turn.next == Spooled {
        GoesOn(was, turns, first, i);
      } else {
        EndsUnspooled(was, turns, first, i);
      }
      i := i + 1;
      var ok;
      ok, trace := Spool(turn.next, trace, i);
      if !ok {
        return;
      }
      snapshot, holding := Some(i), Some(i);
    }
  }

  lemma NobodyYet(turns: seq<Turn>, first: bool)
    ensures Reached(turns, first, 0)
  {
  }

  lemma StrandedIs(turns: seq<Turn>, first: bool, i: nat)
    ensures Stranded(turns, first, i) <==>
      (Sends(first, i) ==> At(turns, i).sent) && At(turns, i).diverged && !At(turns, i).gone
  {
  }

  /** What the account of a stream says, turn by turn, of the turns it got to: a hold is
      handed on exactly if its snapshot was sent and released exactly if it was not; a
      divergence whose client is still there is answered by a file and a hold, as far
      as those could be had, and a hold that came with a file that could not be used is
      released. */
  lemma HoldsGoTheRightWay(trace: seq<Event>, turns: seq<Turn>, first: bool, k: nat)
    requires Accounts(trace, turns, first) && Reached(turns, first, k) && k < |turns|
    ensures k > 0 || first ==>
      (Handed(k) in trace <==> turns[k].sent) && (Released(k) in trace <==> !turns[k].sent) &&
      Opened(k) in trace && Took(k) in trace
    ensures (k > 0 || first ==> turns[k].sent) && turns[k].diverged && !turns[k].gone ==>
      && (Opened(k + 1) in trace <==> turns[k].next != NoFile)
      && (Took(k + 1) in trace <==> turns[k].next == Spooled || turns[k].next == NotRewound)
      && (turns[k].next != Spooled ==> (Released(k + 1) in trace <==> turns[k].next == NotRewound) && Handed(k + 1) !in trace)
    ensures !turns[k].diverged || turns[k].gone ==> Opened(k + 1) !in trace && Took(k + 1) !in trace
  {
    assert FateOf(trace, k) == Due(turns, first, k) && FateOf(trace, k + 1) == Due(turns, first, k + 1);
    EarlierTurns(turns, first, k);
    assert Reached(turns, first, k + 1) ==> Stranded(turns, first, k) && At(turns, k).next == Spooled;
    hide Accounts, Reached;
  }

  /** What the handler's contract comes to, resource by resource. */
  lemma EachIsLetGoOfOnce(trace: seq<Event>, id: nat)
    requires Legal(trace) && After(trace).open == {} && After(trace).held == {}
    ensures Count(trace, Opened(id)) == Count(trace, Closed(id)) <= 1
    ensures Count(trace, Took(id)) == Count(trace, Released(id)) + Count(trace, Handed(id)) <= 1
  {
    LegalTracesBalance(trace, id);
  }
}
