/** Ranges and prefixes over the store's keys, a page at a time. */
module Scan {
  import opened Base
  import opened Numbers
  import Wire

  datatype Entry = Entry(key: bytes, value: bytes)

  // ----- the order of keys

  predicate Less(a: bytes, b: bytes) {
    b != [] && (a == [] || a[0] < b[0] || (a[0] == b[0] && Less(a[1..], b[1..])))
  }

  lemma {:induction false} LessIsStrict(a: bytes)
    ensures !Less(a, a)
  {
    if a != [] {
      LessIsStrict(a[1..]);
    }
  }

  lemma {:induction false} LessIsTransitive(a: bytes, b: bytes, c: bytes)
    requires Less(a, b) && Less(b, c)
    ensures Less(a, c)
  {
    if a != [] && a[0] == b[0] == c[0] {
      LessIsTransitive(a[1..], b[1..], c[1..]);
    }
  }

  lemma {:induction false} LessIsTotal(a: bytes, b: bytes)
    ensures Less(a, b) || a == b || Less(b, a)
  {
    if a != [] && b != [] && a[0] == b[0] {
      LessIsTotal(a[1..], b[1..]);
      assert a == [a[0]] + a[1..] && b == [b[0]] + b[1..];
    }
  }

  /** The order is that of the first place where two keys differ, a key coming before
      any it begins. */
  lemma {:induction false} LessIff(a: bytes, b: bytes)
    ensures Less(a, b) <==> exists i :: 0 <= i <= |a| && i < |b| && a[..i] == b[..i] && (i == |a| || a[i] < b[i])
  {
    if a != [] && b != [] && a[0] == b[0] {
      LessIff(a[1..], b[1..]);
      if Less(a, b) {
        var i :| 0 <= i <= |a| - 1 && i < |b| - 1 && a[1..][..i] == b[1..][..i] && (i == |a| - 1 || a[1..][i] < b[1..][i]);
        assert a[..i + 1] == [a[0]] + a[1..][..i] && b[..i + 1] == [b[0]] + b[1..][..i];
        assert a[..i + 1] == b[..i + 1];
      }
      if i :| 0 <= i <= |a| && i < |b| && a[..i] == b[..i] && (i == |a| || a[i] < b[i]) {
        assert i > 0;
        assert a[1..][..i - 1] == a[..i][1..] && b[1..][..i - 1] == b[..i][1..];
        assert a[1..][..i - 1] == b[1..][..i - 1];
      }
    } else if Less(a, b) {
      assert a[..0] == b[..0];
    } else if i :| 0 <= i <= |a| && i < |b| && a[..i] == b[..i] && (i == |a| || a[i] < b[i]) {
      if i > 0 {
        FirstsAgree(a, b, i);
      }
    }
  }

  lemma FirstsAgree(a: bytes, b: bytes, i: nat)
    requires 0 < i <= |a| && i <= |b| && a[..i] == b[..i]
    ensures a[0] == b[0]
  {
    assert a[..i][0] == b[..i][0];
  }

  /** Where the page after one that ended with this key starts. */
  function After(key: bytes): bytes {
    key + [0]
  }

  /** Nothing lies strictly between a key and itself with a zero byte after it. */
  lemma {:induction false} NothingBetween(key: bytes, x: bytes)
    ensures Less(key, x) <==> !Less(x, After(key))
  {
    if key != [] && x != [] && key[0] == x[0] {
      NothingBetween(key[1..], x[1..]);
      assert After(key)[1..] == After(key[1..]);
    }
  }

  // ----- the engine's ranges, over what it lists in order

  predicate Ordered(db: seq<Entry>) {
    forall i, j :: 0 <= i < j < |db| ==> Less(db[i].key, db[j].key)
  }

  /** `db` lists exactly what the store holds, in key order. */
  ghost predicate Lists(db: seq<Entry>, held: map<bytes, bytes>) {
    && Ordered(db)
    && (forall i :: 0 <= i < |db| ==> db[i].key in held && held[db[i].key] == db[i].value)
    && (forall k :: k in held ==> exists i :: 0 <= i < |db| && db[i].key == k)
  }

  datatype Want = ByPrefix(prefix: bytes) | ByRange(from: bytes, to: bytes)

  /** From is included and to is not; an empty bound is none. */
  predicate Matches(want: Want, key: bytes) {
    match want
    case ByPrefix(p) => p <= key
    case ByRange(from, to) => !Less(key, from) && (to == [] || Less(key, to))
  }

  function Over(want: Want, db: seq<Entry>): seq<Entry> {
    if db == [] then []
    else if Matches(want, db[0].key) then [db[0]] + Over(want, db[1..])
    else Over(want, db[1..])
  }

  lemma {:induction false} OverIsTheMatching(want: Want, db: seq<Entry>)
    requires Ordered(db)
    ensures Ordered(Over(want, db))
    ensures forall e :: e in Over(want, db) <==> e in db && Matches(want, e.key)
  {
    if db != [] {
      var rest := Over(want, db[1..]);
      OverIsTheMatching(want, db[1..]);
      forall i | 0 <= i < |rest| ensures Less(db[0].key, rest[i].key) {
        assert rest[i] in db[1..];
        var k :| 0 <= k < |db| - 1 && db[1..][k] == rest[i];
        assert Less(db[0].key, db[k + 1].key);
      }
    }
  }

  // ----- the query

  /** The parameters that were there, decoded. */
  datatype Query = Query(prefix: Option<bytes>, from: Option<bytes>, to: Option<bytes>, limit: Option<string>)

  datatype Scanned = Scanned(want: Want, limit: nat)
  datatype BadQuery = TwoRanges | BadLimit | OverTheMaximum

  function Read(q: Query, most: nat): Result<Scanned, BadQuery> {
    if q.prefix.Some? && (q.from.Some? || q.to.Some?) then Err(TwoRanges)
    else
      var n := if q.limit.None? then Some(most) else Integer(q.limit.value);
      if q.limit.Some? && (n.None? || n.value < 1) then Err(BadLimit)
      else if n.value > most then Err(OverTheMaximum)
      else
        var bound := (b: Option<bytes>) => if b.None? then [] else b.value;
        Ok(Scanned(if q.prefix.Some? then ByPrefix(q.prefix.value) else ByRange(bound(q.from), bound(q.to)), n.value))
  }

  /** A limit is what was asked for or, unasked, the most there is: never lowered.
      And a query names one range. */
  lemma LimitsAreHonest(q: Query, most: nat)
    requires most >= 1
    ensures Read(q, most).Ok? <==>
      && (q.prefix.None? || (q.from.None? && q.to.None?))
      && (q.limit.Some? ==> Integer(q.limit.value).Some? && 1 <= Integer(q.limit.value).value <= most)
    ensures Read(q, most).Ok? ==>
      var got := Read(q, most).value;
      && 1 <= got.limit <= most && (q.limit.Some? ==> Some(got.limit as int) == Integer(q.limit.value))
      && forall k: bytes ::
        Matches(got.want, k) <==>
          && (q.prefix.Some? ==> q.prefix.value <= k)
          && (q.from.Some? ==> !Less(k, q.from.value))
          && (q.to.Some? && q.to.value != [] ==> Less(k, q.to.value))
  {
  }

  // ----- what number a limit is

  /** What is made of a query that names one range: its limit is taken if it spells a
      number from one to the most there is; over that it is refused as such, and
      anything else that is there is refused as no limit. */
  lemma LimitsAreRead(q: Query, most: nat, s: string, v: int)
    requires most >= 1 && q.limit == Some(s) && Spells(s, v)
    requires q.prefix.None? || (q.from.None? && q.to.None?)
    ensures Read(q, most).Ok? <==> 1 <= v <= most && v <= 0x7FFF_FFFF_FFFF_FFFF
    ensures Read(q, most).Ok? ==> Read(q, most).value.limit == v
    ensures Read(q, most) == Err(OverTheMaximum) <==> most < v <= 0x7FFF_FFFF_FFFF_FFFF
    ensures Read(q, most) == Err(BadLimit) <==> v < 1 || v > 0x7FFF_FFFF_FFFF_FFFF
  {
    SpellingIsRead(s, v);
    hide Spells, Integer;
  }

  lemma OthersAreRefused(q: Query, most: nat)
    ensures q.prefix.Some? && (q.from.Some? || q.to.Some?) <==> Read(q, most) == Err(TwoRanges)
    ensures q.limit.Some? && (forall v: int :: !Spells(q.limit.value, v)) && Read(q, most) != Err(TwoRanges) ==>
      Read(q, most) == Err(BadLimit)
  {
    hide Spells, Integer;
    if q.limit.Some? && Integer(q.limit.value).Some? {
      IntegerIff(q.limit.value, Integer(q.limit.value).value);
    }
  }

  // ----- an answer

  function Line(e: Entry): Wire.Pair {
    Wire.EncodePair(e.key, e.value)
  }

  function ReadLine(l: Wire.Pair): Option<Entry> {
    var key, value := Wire.FromTheWire(l.key, l.keyB64), Wire.FromTheWire(l.value, l.valueB64);
    if key.Ok? && value.Ok? then Some(Entry(key.value, value.value)) else None
  }

  lemma LineReadsBack(e: Entry)
    ensures ReadLine(Line(e)) == Some(e)
  {
    Wire.PairsReadBack(e.key, e.value);
  }

  function Lines(es: seq<Entry>): (ls: seq<Wire.Pair>)
    ensures |ls| == |es|
  {
    if es == [] then [] else Lines(es[..|es| - 1]) + [Line(es[|es| - 1])]
  }

  /** What a client reads in them. */
  function ReadLines(ls: seq<Wire.Pair>): Option<seq<Entry>> {
    if ls == [] then Some([])
    else
      var before, last := ReadLines(ls[..|ls| - 1]), ReadLine(ls[|ls| - 1]);
      if before.Some? && last.Some? then Some(before.value + [last.value]) else None
  }

  lemma {:induction false} AnswersReadBack(es: seq<Entry>)
    ensures ReadLines(Lines(es)) == Some(es)
  {
    hide Line, ReadLine;
    if es != [] {
      var n := |es| - 1;
      AnswersReadBack(es[..n]);
      LineReadsBack(es[n]);
      assert Lines(es)[..n] == Lines(es[..n]);
      assert es == es[..n] + [es[n]];
    }
  }

  function Least(a: nat, b: nat): nat {
    if a <= b then a else b
  }

  function Page(want: Want, db: seq<Entry>, limit: nat): (es: seq<Entry>)
    ensures |es| == Least(limit, |Over(want, db)|)
  {
    Over(want, db)[..Least(limit, |Over(want, db)|)]
  }

  /** The engine hands over one entry at a time until it is told to stop, which is
      after the entry that fills the page. */
  method Fill(found: seq<Entry>, limit: nat) returns (body: seq<Wire.Pair>)
    requires limit >= 1
    ensures body == Lines(found[..Least(limit, |found|)])
  {
    hide Line;
    body := [];
    var sent, more := 0, true;
    while sent < |found| && more
      invariant sent <= |found| && sent <= limit && (more <==> sent < limit)
      invariant body == Lines(found[..sent])
    {
      assert found[..sent + 1][..sent] == found[..sent];
      body := body + [Line(found[sent])];
      sent := sent + 1;
      more := sent < limit;
    }
  }

  method ScanKeys(db: seq<Entry>, q: Query, most: nat) returns (answer: Result<seq<Wire.Pair>, BadQuery>)
    requires most >= 1
    ensures answer.Ok? <==> Read(q, most).Ok?
    ensures answer.Err? ==> answer == Err(Read(q, most).error)
    ensures answer.Ok? ==>
      var got := Read(q, most).value;
      && |answer.value| <= got.limit
      && ReadLines(answer.value) == Some(Page(got.want, db, got.limit))
  {
    LimitsAreHonest(q, most);
    hide Line, ReadLines, Lines, Over, Read;
    var read := Read(q, most);
    if read.Err? {
      return Err(read.error);
    }
    var found := Over(read.value.want, db);
    var body := Fill(found, read.value.limit);
    AnswersReadBack(Page(read.value.want, db, read.value.limit));
    return Ok(body);
  }

  /** Why the limit is refused and not lowered: counting the lines against the limit
      it asked for, a client knows whether there was more to have. */
  lemma ShortAnswersAreComplete(db: seq<Entry>, q: Query, most: nat, s: string, n: int)
    requires most >= 1 && q.limit == Some(s) && Spells(s, n) && Read(q, most).Ok?
    ensures var got := Read(q, most).value;
      var page := Page(got.want, db, got.limit);
      && |page| <= n
      && (|page| < n ==> page == Over(got.want, db))
      && (page == Over(got.want, db) || |page| == n)
  {
    OthersAreRefused(q, most);
    LimitsAreRead(q, most, s, n);
    hide Over, Integer, Read, Spells;
    var got := Read(q, most).value;
    assert Over(got.want, db)[..|Over(got.want, db)|] == Over(got.want, db);
  }

  // ----- one page after another

  lemma {:induction false} OverSplits(want: Want, a: seq<Entry>, b: seq<Entry>)
    ensures Over(want, a + b) == Over(want, a) + Over(want, b)
  {
    hide Matches;
    if a == [] {
      assert a + b == b;
    } else {
      assert (a + b)[1..] == a[1..] + b;
      OverSplits(want, a[1..], b);
    }
  }

  lemma {:induction false} OverSame(want: Want, other: Want, db: seq<Entry>)
    requires forall e :: e in db ==> (Matches(want, e.key) <==> Matches(other, e.key))
    ensures Over(want, db) == Over(other, db)
  {
    if db != [] {
      assert db[0] in db;
      OverSame(want, other, db[1..]);
    }
  }

  lemma {:induction false} OverNone(want: Want, db: seq<Entry>)
    requires forall e :: e in db ==> !Matches(want, e.key)
    ensures Over(want, db) == []
  {
    if db != [] {
      assert db[0] in db;
      OverNone(want, db[1..]);
    }
  }

  /** Asking again from after a match gives what comes after it. */
  lemma AfterAMatch(from: bytes, to: bytes, db: seq<Entry>, k: nat)
    requires Ordered(db) && k < |db| && Matches(ByRange(from, to), db[k].key)
    ensures Over(ByRange(After(db[k].key), to), db) == Over(ByRange(from, to), db[k + 1..])
  {
    var last := db[k].key;
    var want, next := ByRange(from, to), ByRange(After(last), to);
    var a, b := db[..k + 1], db[k + 1..];
    assert db == a + b;
    OverSplits(next, a, b);
    LessIsStrict(last);
    forall e | e in a ensures !Matches(next, e.key) {
      var i :| 0 <= i <= k && db[i] == e;
      if i < k && Less(last, e.key) {
        LessIsTransitive(last, e.key, last);
      }
      NothingBetween(last, e.key);
    }
    OverNone(next, a);
    forall e | e in b ensures Matches(want, e.key) <==> Matches(next, e.key) {
      var i :| k < i < |db| && db[i] == e;
      NothingBetween(last, e.key);
      if Less(e.key, from) {
        LessIsTransitive(last, e.key, from);
      }
    }
    OverSame(want, next, b);
  }

  /** Asking again from after the n-th match gives the matches from there on. */
  lemma RestOfTheRange(from: bytes, to: bytes, db: seq<Entry>, n: nat)
    requires Ordered(db) && 0 < n <= |Over(ByRange(from, to), db)|
    ensures var all := Over(ByRange(from, to), db);
      Over(ByRange(After(all[n - 1].key), to), db) == all[n..]
  {
    hide Over, Matches, After, Less;
    var want := ByRange(from, to);
    var all := Over(want, db);
    var last := all[n - 1];
    OverIsTheMatching(want, db);
    assert last in all;
    var k :| 0 <= k < |db| && db[k] == last;
    AfterAMatch(from, to, db, k);
    var a, b := db[..k + 1], db[k + 1..];
    assert db == a + b;
    OverSplits(want, a, b);
    EndsWithMatch(want, db, k);
    SamePlace(all, |Over(want, a)| - 1, n - 1);
  }

  lemma SamePlace(es: seq<Entry>, i: nat, j: nat)
    requires Ordered(es) && i < |es| && j < |es| && es[i] == es[j]
    ensures i == j
  {
    LessIsStrict(es[i].key);
  }

  lemma EndsWithMatch(want: Want, db: seq<Entry>, k: nat)
    requires k < |db| && Matches(want, db[k].key)
    ensures Over(want, db[..k + 1]) == Over(want, db[..k]) + [db[k]]
  {
    assert db[..k + 1] == db[..k] + [db[k]];
    OverSplits(want, db[..k], [db[k]]);
  }

  /** What a client gets that goes on asking, from after the last key it was given,
      until a page is short. */
  function Paged(db: seq<Entry>, from: bytes, to: bytes, limit: nat): (got: seq<Entry>)
    requires Ordered(db) && limit >= 1
    decreases |Over(ByRange(from, to), db)|
  {
    var page := Page(ByRange(from, to), db, limit);
    if |page| < limit then page
    else
      var next := After(page[|page| - 1].key);
      assert |Over(ByRange(next, to), db)| < |Over(ByRange(from, to), db)| by {
        RestOfTheRange(from, to, db, limit);
      }
      page + Paged(db, next, to, limit)
  }

  /** Page after page is the whole range, in order and with nothing twice. */
  lemma {:induction false} PagingIsComplete(db: seq<Entry>, from: bytes, to: bytes, limit: nat)
    requires Ordered(db) && limit >= 1
    ensures Paged(db, from, to, limit) == Over(ByRange(from, to), db)
    decreases |Over(ByRange(from, to), db)|
  {
    var all := Over(ByRange(from, to), db);
    var page := Page(ByRange(from, to), db, limit);
    if |page| == limit {
      RestOfTheRange(from, to, db, limit);
      PagingIsComplete(db, After(page[|page| - 1].key), to, limit);
      assert all == all[..limit] + all[limit..];
    }
  }

  function Requests(db: seq<Entry>, from: bytes, to: bytes, limit: nat): nat
    requires Ordered(db) && limit >= 1
    decreases |Over(ByRange(from, to), db)|
  {
    var page := Page(ByRange(from, to), db, limit);
    if |page| < limit then 1
    else
      var next := After(page[|page| - 1].key);
      assert |Over(ByRange(next, to), db)| < |Over(ByRange(from, to), db)| by {
        RestOfTheRange(from, to, db, limit);
      }
      1 + Requests(db, next, to, limit)
  }

  /** In one request more than the whole pages there are. */
  lemma {:induction false} PagingTakes(db: seq<Entry>, from: bytes, to: bytes, limit: nat)
    requires Ordered(db) && limit >= 1
    ensures var all, n := |Over(ByRange(from, to), db)|, Requests(db, from, to, limit);
      (n - 1) * limit <= all < n * limit
    decreases |Over(ByRange(from, to), db)|
  {
    var page := Page(ByRange(from, to), db, limit);
    if |page| == limit {
      RestOfTheRange(from, to, db, limit);
      PagingTakes(db, After(page[|page| - 1].key), to, limit);
    }
  }

  /** A client that pages through the store with no bounds reads back everything it
      holds, and nothing else. */
  lemma PagingReadsTheStore(db: seq<Entry>, held: map<bytes, bytes>, limit: nat)
    requires Lists(db, held) && limit >= 1
    ensures Paged(db, [], [], limit) == db
    ensures forall k, v :: Entry(k, v) in Paged(db, [], [], limit) <==> k in held && held[k] == v
  {
    PagingIsComplete(db, [], [], limit);
    EveryKeyMatches(db);
    forall k, v ensures Entry(k, v) in db <==> k in held && held[k] == v {
      if k in held && held[k] == v {
        var i :| 0 <= i < |db| && db[i].key == k;
        assert db[i] == Entry(k, v);
      }
    }
  }

  lemma {:induction false} EveryKeyMatches(db: seq<Entry>)
    ensures Over(ByRange([], []), db) == db
  {
    if db != [] {
      EveryKeyMatches(db[1..]);
    }
  }
}
