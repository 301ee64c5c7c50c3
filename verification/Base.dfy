/** Bytes, results and log positions: the vocabulary every other module shares. */
module Base {
  type byte = x: int | 0 <= x < 256
  type bytes = seq<byte>

  datatype Option<+T> = None | Some(value: T)

  datatype Result<+T, +E> = Ok(value: T) | Err(error: E)

  /** A place in a leader's log: the term it was reached under and the number of
      the record that comes next.  The engine's position also carries a segment
      and an offset; nothing here compares them, so they are not part of it. */
  datatype Position = Position(term: nat, next: nat)

  /** The zero position: a store that has taken nothing from anybody. */
  const ZERO := Position(0, 0)

  /** Whether a follower at `acked` holds everything up to `want`. */
  predicate Reaches(acked: Position, want: Position) {
    if acked.term != want.term then acked.term > want.term else acked.next >= want.next
  }

  /** `Reaches` is a total preorder whose two-way ties are equalities, so "never
      goes backwards" and "has got at least this far" compose along any run. */
  lemma ReachesIsATotalOrder(a: Position, b: Position, c: Position)
    ensures Reaches(a, a)
    ensures Reaches(a, b) || Reaches(b, a)
    ensures Reaches(a, b) && Reaches(b, c) ==> Reaches(a, c)
    ensures Reaches(a, b) && Reaches(b, a) ==> a == b
    ensures Reaches(a, ZERO)
  {
  }
}
