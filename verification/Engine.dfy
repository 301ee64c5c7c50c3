/** What replication asks of the storage engine, which is not in the repository.

    A store is a map, the position it has taken from its leader, and its term.
    The record formats are the engine's own and stay abstract: `batch` and
    `snapshot` say which records a payload holds, or that it holds none.  What is
    assumed is written out in `Apply` and `ApplySnapshot`: both refuse a leader
    on an older term, a batch is taken whole and only if its records carry on
    from where the store is, and a snapshot empties the store before it reads. */
module Engine {
  import opened Base

  datatype Op = Put(key: bytes, value: bytes) | Delete(key: bytes)

  /** A record in a batch.  Every record carries its number. */
  datatype Record = Record(number: nat, op: Op)

  type Contents = map<bytes, bytes>

  function Perform(m: Contents, op: Op): Contents {
    match op
    case Put(k, v) => m[k := v]
    case Delete(k) => m - {k}
  }

  function Replay(m: Contents, ops: seq<Op>): Contents {
    if ops == [] then m else Perform(Replay(m, ops[..|ops| - 1]), ops[|ops| - 1])
  }

  lemma {:induction false} ReplayConcat(m: Contents, a: seq<Op>, b: seq<Op>)
    ensures Replay(m, a + b) == Replay(Replay(m, a), b)
  {
    if b == [] {
      assert a + b == a;
    } else {
      ReplayConcat(m, a, b[..|b| - 1]);
      assert (a + b)[..|a + b| - 1] == a + b[..|b| - 1];
    }
  }

  function OpsOf(rs: seq<Record>): (ops: seq<Op>)
    ensures |ops| == |rs|
  {
    if rs == [] then [] else [rs[0].op] + OpsOf(rs[1..])
  }

  function Numbered(ops: seq<Op>, first: nat): (rs: seq<Record>)
    ensures |rs| == |ops|
  {
    if ops == [] then [] else [Record(first, ops[0])] + Numbered(ops[1..], first + 1)
  }

  /** Whether these records are exactly the ones numbered from `first` up to but
      not including `next`, in order. */
  predicate CarriesOn(rs: seq<Record>, first: nat, next: nat) {
    first + |rs| == next && rs == Numbered(OpsOf(rs), first)
  }

  lemma {:induction false} NumberedCarriesOn(ops: seq<Op>, first: nat)
    ensures OpsOf(Numbered(ops, first)) == ops
    ensures CarriesOn(Numbered(ops, first), first, first + |ops|)
  {
    if ops != [] {
      NumberedCarriesOn(ops[1..], first + 1);
    }
  }

  datatype Engine = Engine(batch: bytes -> Option<seq<Record>>, snapshot: bytes -> Option<seq<Op>>)

  datatype Refusal = Fenced | Diverged | Corrupt

  /** `base` is where the last snapshot put this store and `tail` the operations
      it has applied one at a time since; they record what was taken, so that a
      record skipped or applied twice shows. */
  datatype Store = Store(contents: Contents, applied: Position, term: nat, base: Position, tail: seq<Op>)

  function Apply(e: Engine, s: Store, from: Position, next: Position, payload: bytes): Result<Store, Refusal> {
    if next.term < s.term then Err(Fenced)
    else if from != s.applied then Err(Diverged)
    else
      match e.batch(payload)
      case None => Err(Corrupt)
      case Some(rs) =>
        if !CarriesOn(rs, from.next, next.next) then Err(Diverged)
        else Ok(Store(Replay(s.contents, OpsOf(rs)), next, next.term, s.base, s.tail + OpsOf(rs)))
  }

  /** A store with nothing in it, as a snapshot leaves it until it has all
      arrived. */
  function Emptied(s: Store): Store {
    Store(map[], ZERO, s.term, ZERO, [])
  }

  datatype Snapped = Snapped(store: Store, refused: Option<Refusal>)

  /** `whole` says whether everything the frame promised could be read. */
  function ApplySnapshot(e: Engine, s: Store, at: Position, payload: bytes, whole: bool): Snapped {
    if at.term < s.term then Snapped(s, Some(Fenced))
    else if !whole then Snapped(Emptied(s), Some(Corrupt))
    else
      match e.snapshot(payload)
      case None => Snapped(Emptied(s), Some(Corrupt))
      case Some(live) => Snapped(Store(Replay(map[], live), at, at.term, at, []), None)
  }
}
