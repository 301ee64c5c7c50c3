/** Many operations in one body, all of them or none: the parser reads a line at a
    time through one buffer, and what it builds holds on to none of it. */
module Batch {
  import opened Base
  import Engine
  import Wire

  /** What this code asks of its libraries: the JSON decoder, which takes a strict
      object or nothing, the trimming of white space, and the reading of a time. */
  datatype Lib = Lib(json: bytes -> Option<Wire.Pair>, trim: bytes -> bytes, instant: string -> Option<int>)

  /** Why a body could not be read to its end. */
  datatype Fault = TooLarge | Unreadable

  datatype LineError =
    | NotText | NotJson
    | Key(why: Wire.FieldError) | Value(why: Wire.FieldError)
    | BadExpiry | DeleteWithValue | DeleteWithExpiry | NoSuchOp

  datatype Refusal = Line(n: nat, why: LineError) | Whole(fault: Fault)

  /** One operation, as values. */
  datatype Meant = Meant(op: Engine.Op, expires: Option<int>)

  // ----- one line

  predicate Blank(lib: Lib, line: bytes) {
    lib.trim(line) == []
  }

  function DecodePair(lib: Lib, line: bytes): Result<Wire.Pair, LineError> {
    if !Wire.Utf8(line) then Err(NotText)
    else
      var p := lib.json(line);
      if p.None? then Err(NotJson) else Ok(p.value)
  }

  /** What a line that is not blank says. */
  function Says(lib: Lib, line: bytes): Result<Meant, LineError> {
    var decoded := DecodePair(lib, lib.trim(line));
    if decoded.Err? then Err(decoded.error)
    else
      var p := decoded.value;
      var key, value := Wire.FromTheWire(p.key, p.keyB64), Wire.FromTheWire(p.value, p.valueB64);
      if key.Err? then Err(Key(key.error))
      else if p.op == "write" then
        if value.Err? then Err(Value(value.error))
        else if p.expires == "" then Ok(Meant(Engine.Put(key.value, value.value), None))
        else
          var at := lib.instant(p.expires);
          if at.None? then Err(BadExpiry) else Ok(Meant(Engine.Put(key.value, value.value), at))
      else if p.op == "delete" then
        if p.value.Some? || p.valueB64.Some? then Err(DeleteWithValue)
        else if p.expires != "" then Err(DeleteWithExpiry)
        else Ok(Meant(Engine.Delete(key.value), None))
      else Err(NoSuchOp)
  }

  predicate Fine(lib: Lib, line: bytes) {
    Blank(lib, line) || Says(lib, line).Ok?
  }

  // ----- a body

  /** A body as it is read: its lines, and how reading it ends.  An error is known
      from the line `known` on, which may be before the last: lines read along with
      the error are handed over after it. */
  datatype Body = Body(lines: seq<bytes>, fault: Option<Fault>, known: nat)

  /** How many lines there are before the first that cannot be read. */
  function FineLines(lib: Lib, lines: seq<bytes>): (n: nat)
    ensures n <= |lines|
    ensures forall i :: 0 <= i < n ==> Fine(lib, lines[i])
    ensures n < |lines| ==> !Fine(lib, lines[n])
  {
    if lines == [] || !Fine(lib, lines[0]) then 0 else 1 + FineLines(lib, lines[1..])
  }

  /** What the lines say, in order. */
  function Operations(lib: Lib, lines: seq<bytes>): seq<Meant> {
    if lines == [] then []
    else
      var before, last := Operations(lib, lines[..|lines| - 1]), lines[|lines| - 1];
      if Blank(lib, last) || Says(lib, last).Err? then before else before + [Says(lib, last).value]
  }

  /** What becomes of a body: a line that cannot be read is only blamed if nothing
      is known to be wrong with the body itself. */
  function Outcome(lib: Lib, body: Body): Result<seq<Meant>, Refusal> {
    var n := FineLines(lib, body.lines);
    if n < |body.lines| && (body.fault.None? || n < body.known) then Err(Line(n + 1, Says(lib, body.lines[n]).error))
    else if body.fault.Some? then Err(Whole(body.fault.value))
    else Ok(Operations(lib, body.lines))
  }

  // ----- the heap

  /** An operation as the batch holds it: the arrays themselves and not copies. */
  datatype Held = Write(key: array<byte>, value: array<byte>, expires: Option<int>) | Delete(key: array<byte>)

  function Footprint(op: Held): set<array<byte>> {
    if op.Write? then {op.key, op.value} else {op.key}
  }

  function Footprints(ops: seq<Held>): set<array<byte>> {
    set i, a | 0 <= i < |ops| && a in Footprint(ops[i]) :: a
  }

  function MeantBy(op: Held): Meant
    reads Footprint(op)
  {
    match op
    case Write(k, v, expires) => Meant(Engine.Put(k[..], v[..]), expires)
    case Delete(k) => Meant(Engine.Delete(k[..]), None)
  }

  ghost predicate AllMean(ops: seq<Held>, ms: seq<Meant>)
    reads Footprints(ops)
  {
    |ops| == |ms| && forall i :: 0 <= i < |ops| ==> MeantBy(ops[i]) == ms[i]
  }

  /** No two operations, and no key and value, share an array. */
  ghost predicate Apart(ops: seq<Held>) {
    && (forall i :: 0 <= i < |ops| && ops[i].Write? ==> ops[i].key != ops[i].value)
    && (forall i, j :: 0 <= i < j < |ops| ==> Footprint(ops[i]) !! Footprint(ops[j]))
  }

  /** The line reader.  It has one buffer and writes every line over the last. */
  class Scanner {
    const body: Body
    var buffer: array<byte>
    var at: nat
    var done: bool

    constructor (body: Body, room: nat)
      ensures this.body == body && at == 0 && !done && fresh(buffer)
    {
      this.body := body;
      buffer := new byte[room](_ => 0);
      at, done := 0, false;
    }

    /** The next line is the first `n` bytes of the buffer, which only grows. */
    method Scan() returns (more: bool, n: nat)
      requires at <= |body.lines|
      modifies this, buffer
      ensures buffer == old(buffer) || fresh(buffer)
      ensures buffer.Length >= old(buffer).Length
      ensures more <==> old(at) < |body.lines|
      ensures at == old(at) + (if more then 1 else 0) && done == (old(done) || !more)
      ensures more ==> n <= buffer.Length && buffer[..n] == body.lines[old(at)]
    {
      if at == |body.lines| {
        done := true;
        return false, 0;
      }
      var line := body.lines[at];
      if buffer.Length < |line| {
        buffer := new byte[2 * |line|](_ => 0);
      }
      for i := 0 to |line|
        invariant |line| <= buffer.Length && buffer.Length >= old(buffer).Length && buffer[..i] == line[..i]
        invariant buffer == old(buffer) || fresh(buffer)
        modifies buffer
      {
        buffer[i] := line[i];
      }
      at := at + 1;
      return true, |line|;
    }

    function Err(): Option<Fault>
      reads this
    {
      if done || at > body.known then body.fault else None
    }
  }

  /** A field's bytes, as this call's own allocation. */
  method Allocated(b: bytes) returns (a: array<byte>)
    ensures fresh(a) && a[..] == b
  {
    a := new byte[|b|](i requires 0 <= i < |b| => b[i]);
  }

  method AddTo(lib: Lib, buffer: array<byte>, n: nat) returns (op: Result<Held, LineError>)
    requires n <= buffer.Length
    ensures var says := Says(lib, buffer[..n]);
      if says.Err? then op == Err(says.error)
      else op.Ok? && fresh(Footprint(op.value)) && MeantBy(op.value) == says.value
    ensures op.Ok? && op.value.Write? ==> op.value.key != op.value.value
  {
    var decoded := DecodePair(lib, lib.trim(buffer[..n]));
    if decoded.Err? {
      return Err(decoded.error);
    }
    var p := decoded.value;
    var keyBytes := Wire.FromTheWire(p.key, p.keyB64);
    if keyBytes.Err? {
      return Err(Key(keyBytes.error));
    }
    var key := Allocated(keyBytes.value);
    if p.op == "write" {
      var valueBytes := Wire.FromTheWire(p.value, p.valueB64);
      if valueBytes.Err? {
        return Err(Value(valueBytes.error));
      }
      var value := Allocated(valueBytes.value);
      if p.expires == "" {
        return Ok(Write(key, value, None));
      }
      var instant := lib.instant(p.expires);
      if instant.None? {
        return Err(BadExpiry);
      }
      return Ok(Write(key, value, instant));
    }
    if p.op == "delete" {
      if p.value.Some? || p.valueB64.Some? {
        return Err(DeleteWithValue);
      }
      if p.expires != "" {
        return Err(DeleteWithExpiry);
      }
      return Ok(Delete(key));
    }
    return Err(NoSuchOp);
  }

  /** All of them or none: what is returned is what the whole body comes to, held in
      arrays of the batch's own, whatever the buffer has been through since. */
  method ParseBatch(lib: Lib, lines: Scanner) returns (batch: Result<seq<Held>, Refusal>)
    requires lines.at == 0 && !lines.done
    modifies lines, lines.buffer
    ensures lines.buffer == old(lines.buffer) || fresh(lines.buffer)
    ensures Outcome(lib, lines.body).Err? ==> batch == Err(Outcome(lib, lines.body).error)
    ensures Outcome(lib, lines.body).Ok? ==>
      && batch.Ok? && AllMean(batch.value, Outcome(lib, lines.body).value)
      && Apart(batch.value) && fresh(Footprints(batch.value)) && lines.buffer !in Footprints(batch.value)
  {
    hide Says, DecodePair, MeantBy, Operations, FineLines, AllMean, Apart, Footprints;
    var ops: seq<Held> := [];
    ghost var seen: seq<bytes>, mine: set<array<byte>> := [], {};
    var more: bool, n: nat := false, 0;
    NothingYet(lib);
    more, n := lines.Scan();
    while more
      invariant lines.buffer == old(lines.buffer) || fresh(lines.buffer)
      invariant lines.done == !more && lines.at <= |lines.body.lines|
      invariant seen <= lines.body.lines && |seen| == if more then lines.at - 1 else |lines.body.lines|
      invariant more ==> n <= lines.buffer.Length && lines.buffer[..n] == lines.body.lines[|seen|]
      invariant forall i :: 0 <= i < |seen| ==> Fine(lib, seen[i])
      invariant AllMean(ops, Operations(lib, seen))
      invariant Apart(ops) && mine == Footprints(ops) && fresh(mine) && lines.buffer !in mine
      decreases |lines.body.lines| - lines.at, more
    {
      ghost var line := lines.buffer[..n];
      OneMore(lib, seen, line);
      if lib.trim(lines.buffer[..n]) != [] {
        var op := AddTo(lib, lines.buffer, n);
        if op.Err? {
          StopsAt(lib, lines.body.lines, |seen|);
          if lines.Err().Some? {
            break;
          }
          return Err(Line(lines.at, op.error));
        }
        AddedOne(ops, op.value, Operations(lib, seen), Says(lib, line).value);
        ops := ops + [op.value];
        mine := mine + Footprint(op.value);
      }
      seen := seen + [line];
      more, n := lines.Scan();
    }
    if !more {
      assert seen == lines.body.lines;
      StopsAt(lib, lines.body.lines, |seen|);
    }
    var fault := lines.Err();
    if fault.Some? {
      return Err(Whole(fault.value));
    }
    return Ok(ops);
  }

  lemma NothingYet(lib: Lib)
    ensures AllMean([], Operations(lib, [])) && Apart([]) && Footprints([]) == {}
  {
  }

  lemma AddedOne(ops: seq<Held>, op: Held, ms: seq<Meant>, m: Meant)
    requires AllMean(ops, ms) && Apart(ops) && MeantBy(op) == m
    requires (op.Write? ==> op.key != op.value) && Footprint(op) !! Footprints(ops)
    ensures AllMean(ops + [op], ms + [m]) && Apart(ops + [op])
    ensures Footprints(ops + [op]) == Footprints(ops) + Footprint(op)
  {
    hide MeantBy, Footprint;
    var all := ops + [op];
    assert all[|ops|] == op && forall i :: 0 <= i < |ops| ==> all[i] == ops[i];
    forall i | 0 <= i < |ops| ensures Footprint(ops[i]) <= Footprints(ops) {
    }
    forall a ensures a in Footprints(all) <==> a in Footprints(ops) + Footprint(op) {
      if a in Footprint(op) {
        assert a in Footprint(all[|ops|]);
      }
      if a in Footprints(ops) {
        var i :| 0 <= i < |ops| && a in Footprint(ops[i]);
        assert a in Footprint(all[i]);
      }
    }
  }

  lemma OneMore(lib: Lib, seen: seq<bytes>, line: bytes)
    ensures Operations(lib, seen + [line]) ==
      if Blank(lib, line) || Says(lib, line).Err? then Operations(lib, seen)
      else Operations(lib, seen) + [Says(lib, line).value]
  {
  }

  lemma StopsAt(lib: Lib, lines: seq<bytes>, n: nat)
    requires n <= |lines| && (forall i :: 0 <= i < n ==> Fine(lib, lines[i]))
    requires n < |lines| ==> !Fine(lib, lines[n])
    ensures FineLines(lib, lines) == n
  {
  }

  // ----- which lines are taken, and what for the others are refused

  /** A field is not sent both ways at once, and its coded form decodes. */
  predicate FieldFine(plain: Option<bytes>, coded: Option<bytes>) {
    !(plain.Some? && coded.Some?) && (coded.Some? ==> Wire.Unbase64(coded.value).Some?)
  }

  function FieldBytes(plain: Option<bytes>, coded: Option<bytes>): bytes
    requires FieldFine(plain, coded)
  {
    if plain.Some? then plain.value else if coded.Some? then Wire.Unbase64(coded.value).value else []
  }

  /** A line is taken exactly if it is text and one JSON object, of a key and a value
      each sent one way, that either writes, for good or until some time, or deletes,
      with neither a value nor an expiry; and then it means what it says. */
  lemma TakenIff(lib: Lib, line: bytes)
    ensures Says(lib, line).Ok? <==>
      && Wire.Utf8(lib.trim(line)) && lib.json(lib.trim(line)).Some?
      && var p := lib.json(lib.trim(line)).value;
         && FieldFine(p.key, p.keyB64)
         && (|| (p.op == "write" && FieldFine(p.value, p.valueB64) && (p.expires == "" || lib.instant(p.expires).Some?))
             || (p.op == "delete" && p.value.None? && p.valueB64.None? && p.expires == ""))
    ensures Says(lib, line).Ok? ==>
      var p, m := lib.json(lib.trim(line)).value, Says(lib, line).value;
      var key := FieldBytes(p.key, p.keyB64);
      if p.op == "write" then
        m == Meant(Engine.Put(key, FieldBytes(p.value, p.valueB64)), if p.expires == "" then None else lib.instant(p.expires))
      else m == Meant(Engine.Delete(key), None)
  {
  }

  /** And refused for the first thing that is wrong with it. */
  lemma RefusedFor(lib: Lib, line: bytes)
    ensures Says(lib, line) == Err(NotText) <==> !Wire.Utf8(lib.trim(line))
    ensures Says(lib, line) == Err(NotJson) <==> Wire.Utf8(lib.trim(line)) && lib.json(lib.trim(line)).None?
    ensures Wire.Utf8(lib.trim(line)) && lib.json(lib.trim(line)).Some? ==>
      var p := lib.json(lib.trim(line)).value;
      var keyed := FieldFine(p.key, p.keyB64);
      var valued := FieldFine(p.value, p.valueB64);
      && (Says(lib, line) == Err(Key(Wire.BothForms)) <==> p.key.Some? && p.keyB64.Some?)
      && (Says(lib, line) == Err(Key(Wire.NotBase64)) <==> p.key.None? && !keyed)
      && (Says(lib, line) == Err(Value(Wire.BothForms)) <==> keyed && p.op == "write" && p.value.Some? && p.valueB64.Some?)
      && (Says(lib, line) == Err(Value(Wire.NotBase64)) <==> keyed && p.op == "write" && p.value.None? && !valued)
      && (Says(lib, line) == Err(BadExpiry) <==>
            keyed && p.op == "write" && valued && p.expires != "" && lib.instant(p.expires).None?)
      && (Says(lib, line) == Err(DeleteWithValue) <==> keyed && p.op == "delete" && (p.value.Some? || p.valueB64.Some?))
      && (Says(lib, line) == Err(DeleteWithExpiry) <==>
            keyed && p.op == "delete" && p.value.None? && p.valueB64.None? && p.expires != "")
      && (Says(lib, line) == Err(NoSuchOp) <==> keyed && p.op != "write" && p.op != "delete")
  {
  }

  /** Who is to blame for a body that comes to nothing: the first line that cannot be
      read, unless by then the reader is known to have failed; or else the reader, if
      it did. */
  lemma BlamedIff(lib: Lib, body: Body, n: nat, why: LineError, fault: Fault)
    ensures Outcome(lib, body) == Err(Line(n, why)) <==>
      && 1 <= n <= |body.lines| && (body.fault.None? || n - 1 < body.known)
      && (forall i :: 0 <= i < n - 1 ==> lib.trim(body.lines[i]) == [] || Says(lib, body.lines[i]).Ok?)
      && lib.trim(body.lines[n - 1]) != [] && Says(lib, body.lines[n - 1]) == Err(why)
    ensures Outcome(lib, body) == Err(Whole(fault)) <==>
      && body.fault == Some(fault)
      && forall i :: 0 <= i < |body.lines| && i < body.known ==> lib.trim(body.lines[i]) == [] || Says(lib, body.lines[i]).Ok?
  {
    hide Says, Operations, FineLines;
    var m := FineLines(lib, body.lines);
    if 1 <= n <= |body.lines| && AllFine(lib, body.lines[..n - 1]) && !Fine(lib, body.lines[n - 1]) {
      forall i | 0 <= i < n - 1 ensures Fine(lib, body.lines[i]) {
        assert body.lines[i] == body.lines[..n - 1][i];
      }
      StopsAt(lib, body.lines, n - 1);
    }
    if m < |body.lines| {
      assert !Fine(lib, body.lines[m]);
    }
  }

  // ----- what a batch comes to

  lemma {:induction false} OperationsConcat(lib: Lib, a: seq<bytes>, b: seq<bytes>)
    ensures Operations(lib, a + b) == Operations(lib, a) + Operations(lib, b)
  {
    if b == [] {
      assert a + b == a;
    } else {
      var n := |b| - 1;
      assert a + b == (a + b[..n]) + [b[n]] && b == b[..n] + [b[n]];
      OneMore(lib, a + b[..n], b[n]);
      OneMore(lib, b[..n], b[n]);
      OperationsConcat(lib, a, b[..n]);
    }
  }

  /** The lines that are not blank. */
  function Spoken(lib: Lib, lines: seq<bytes>): seq<bytes> {
    if lines == [] then []
    else
      var before, last := Spoken(lib, lines[..|lines| - 1]), lines[|lines| - 1];
      if Blank(lib, last) then before else before + [last]
  }

  predicate AllFine(lib: Lib, lines: seq<bytes>) {
    forall i :: 0 <= i < |lines| ==> Fine(lib, lines[i])
  }

  lemma {:induction false} OneOperationALine(lib: Lib, lines: seq<bytes>)
    requires AllFine(lib, lines)
    ensures |Operations(lib, lines)| == |Spoken(lib, lines)|
    ensures forall i :: 0 <= i < |Spoken(lib, lines)| ==>
      Says(lib, Spoken(lib, lines)[i]) == Ok(Operations(lib, lines)[i])
  {
    hide Says, Blank;
    if lines != [] {
      assert Fine(lib, lines[|lines| - 1]);
      OneOperationALine(lib, lines[..|lines| - 1]);
    }
  }

  /** A body comes to a batch exactly if it was read to its end and every line that
      is not blank says something; the batch then has one operation for each such
      line, in order. */
  lemma AllOrNothing(lib: Lib, body: Body)
    ensures Outcome(lib, body).Ok? <==>
      body.fault.None? && forall i :: 0 <= i < |body.lines| ==> Blank(lib, body.lines[i]) || Says(lib, body.lines[i]).Ok?
    ensures Outcome(lib, body).Ok? ==>
      var ms, spoken := Outcome(lib, body).value, Spoken(lib, body.lines);
      |ms| == |spoken| && forall i :: 0 <= i < |ms| ==> Says(lib, spoken[i]) == Ok(ms[i])
  {
    hide Says, Blank, Operations;
    if Outcome(lib, body).Ok? {
      assert AllFine(lib, body.lines);
      OneOperationALine(lib, body.lines);
    }
  }

  /** A line between two parts of a body. */
  function Around(a: seq<bytes>, line: bytes, b: seq<bytes>): seq<bytes> {
    a + [line] + b
  }

  /** A blank line anywhere changes nothing but the numbers of the lines after it. */
  lemma BlankLinesNeverMatter(lib: Lib, a: seq<bytes>, blank: bytes, b: seq<bytes>, fault: Option<Fault>, known: nat)
    requires Blank(lib, blank)
    ensures var without := Outcome(lib, Body(a + b, fault, known));
      var with := Outcome(lib, Body(Around(a, blank, b), fault, if known <= |a| then known else known + 1));
      if without.Ok? || without.error.Whole? then with == without
      else with == Err(Line(if without.error.n <= |a| then without.error.n else without.error.n + 1, without.error.why))
  {
    var all, fewer := Around(a, blank, b), a + b;
    var n := FineLines(lib, fewer);
    OneMore(lib, a, blank);
    OperationsConcat(lib, a + [blank], b);
    OperationsConcat(lib, a, b);
    hide Says, Blank, Operations, FineLines;
    assert Fine(lib, blank);
    assert forall i :: 0 <= i < |a| ==> all[i] == fewer[i];
    assert forall i :: |a| <= i < |fewer| ==> all[i + 1] == fewer[i];
    var m := if n < |a| then n else n + 1;
    forall i | 0 <= i < m ensures Fine(lib, all[i]) {
      if i < |a| {
        assert all[i] == fewer[i];
      } else if i == |a| {
        assert all[i] == blank;
      } else {
        assert all[i] == fewer[i - 1];
      }
    }
    StopsAt(lib, all, m);
  }

  // ----- what a batch does

  function Ops(ms: seq<Meant>): (ops: seq<Engine.Op>)
    ensures |ops| == |ms| && forall i :: 0 <= i < |ms| ==> ops[i] == ms[i].op
  {
    seq(|ms|, i requires 0 <= i < |ms| => ms[i].op)
  }

  predicate LastOn(ops: seq<Engine.Op>, key: bytes, i: nat) {
    i < |ops| && ops[i].key == key && forall j :: i < j < |ops| ==> ops[j].key != key
  }

  /** Of several operations on one key the last is the one that stands, and a key no
      operation names is left alone. */
  lemma {:induction false} LaterOperationsWin(m: Engine.Contents, ops: seq<Engine.Op>, key: bytes)
    ensures var after := Engine.Replay(m, ops);
      && (forall i: nat :: LastOn(ops, key, i) ==>
            if ops[i].Put? then key in after && after[key] == ops[i].value else key !in after)
      && ((forall i :: 0 <= i < |ops| ==> ops[i].key != key) ==>
            (key in after <==> key in m) && (key in m ==> after[key] == m[key]))
  {
    if ops != [] {
      var n := |ops| - 1;
      var before := ops[..n];
      assert Engine.Replay(m, ops) == Engine.Perform(Engine.Replay(m, before), ops[n]);
      hide Engine.Replay;
      LaterOperationsWin(m, before, key);
      assert forall i :: 0 <= i < n ==> before[i] == ops[i];
      forall i: nat | LastOn(ops, key, i) && i < n ensures LastOn(before, key, i) {
        assert ops[n].key != key;
      }
    }
  }

  /** Whether a line speaks of a key. */
  predicate SpeaksOf(lib: Lib, line: bytes, key: bytes) {
    !Blank(lib, line) && Says(lib, line).Ok? && Says(lib, line).value.op.key == key
  }

  lemma OneMoreOp(m: Engine.Contents, before: seq<Meant>, last: Meant)
    ensures Engine.Replay(m, Ops(before + [last])) == Engine.Perform(Engine.Replay(m, Ops(before)), last.op)
  {
    assert Ops(before + [last])[..|before|] == Ops(before);
  }

  lemma {:induction false} LastLineDecides(lib: Lib, lines: seq<bytes>, m: Engine.Contents, key: bytes, i: nat)
    requires AllFine(lib, lines) && i < |lines| && SpeaksOf(lib, lines[i], key)
    requires forall j :: i < j < |lines| ==> !SpeaksOf(lib, lines[j], key)
    ensures var after := Engine.Replay(m, Ops(Operations(lib, lines)));
      var op := Says(lib, lines[i]).value.op;
      if op.Put? then key in after && after[key] == op.value else key !in after
    decreases |lines|
  {
    hide Says, Blank;
    var n := |lines| - 1;
    assert Fine(lib, lines[n]) && lines == lines[..n] + [lines[n]];
    OneMore(lib, lines[..n], lines[n]);
    var before := Operations(lib, lines[..n]);
    if !Blank(lib, lines[n]) {
      OneMoreOp(m, before, Says(lib, lines[n]).value);
    }
    hide Ops, Operations, Engine.Replay;
    if i < n {
      LastLineDecides(lib, lines[..n], m, key, i);
    }
  }

  /** What that means for a body: of the lines that speak of a key the last decides,
      once the whole batch is written, whatever lines are blank. */
  lemma LaterLinesWin(lib: Lib, body: Body, m: Engine.Contents, key: bytes, i: nat)
    requires Outcome(lib, body).Ok?
    requires i < |body.lines| && SpeaksOf(lib, body.lines[i], key)
    requires forall j :: i < j < |body.lines| ==> !SpeaksOf(lib, body.lines[j], key)
    ensures var after := Engine.Replay(m, Ops(Outcome(lib, body).value));
      var op := Says(lib, body.lines[i]).value.op;
      if op.Put? then key in after && after[key] == op.value else key !in after
  {
    hide Says, Blank;
    assert AllFine(lib, body.lines);
    LastLineDecides(lib, body.lines, m, key, i);
  }

  // ----- from one end to the other

  /** The line a client sends for an operation; `when` spells its expiry. */
  function PairOf(m: Meant, when: string): Wire.Pair {
    var (k, kB64) := Wire.OnTheWire(m.op.key);
    match m.op
    case Put(_, v) =>
      var (plain, coded) := Wire.OnTheWire(v);
      Wire.Pair("write", k, kB64, plain, coded, when)
    case Delete(_) => Wire.Pair("delete", k, kB64, None, None, "")
  }

  predicate Spells(lib: Lib, m: Meant, when: string) {
    match m.expires
    case None => when == ""
    case Some(at) => m.op.Put? && when != "" && lib.instant(when) == Some(at)
  }

  /** A line the library prints for a pair is one it reads: text, not blank, with
      nothing to trim. */
  predicate Prints(lib: Lib, line: bytes, p: Wire.Pair) {
    Wire.Utf8(line) && line != [] && lib.trim(line) == line && lib.json(line) == Some(p)
  }

  lemma FieldReadsBack(b: bytes)
    ensures Wire.FromTheWire(Wire.OnTheWire(b).0, Wire.OnTheWire(b).1) == Ok(b)
  {
    Wire.FieldsLoseNothing(b);
  }

  lemma LineReadsBack(lib: Lib, line: bytes, m: Meant, when: string)
    requires Spells(lib, m, when)
    ensures Prints(lib, line, PairOf(m, when)) ==> !Blank(lib, line) && Says(lib, line) == Ok(m)
  {
    hide Wire.OnTheWire, Wire.FromTheWire, Wire.Utf8;
    FieldReadsBack(m.op.key);
    if m.op.Put? {
      FieldReadsBack(m.op.value);
    }
  }

  lemma {:induction false} AllSpoken(lib: Lib, lines: seq<bytes>)
    requires forall i :: 0 <= i < |lines| ==> !Blank(lib, lines[i])
    ensures Spoken(lib, lines) == lines
  {
    if lines != [] {
      AllSpoken(lib, lines[..|lines| - 1]);
      assert lines == lines[..|lines| - 1] + [lines[|lines| - 1]];
    }
  }

  /** Operations of any bytes at all, one to a line, come out as they went in. */
  lemma WrittenBatchReadsBack(lib: Lib, lines: seq<bytes>, ms: seq<Meant>, whens: seq<string>, known: nat)
    requires |lines| == |ms| == |whens|
    requires forall i :: 0 <= i < |ms| ==> Spells(lib, ms[i], whens[i]) && Prints(lib, lines[i], PairOf(ms[i], whens[i]))
    ensures Outcome(lib, Body(lines, None, known)) == Ok(ms)
  {
    forall i | 0 <= i < |lines| ensures !Blank(lib, lines[i]) && Says(lib, lines[i]) == Ok(ms[i]) {
      LineReadsBack(lib, lines[i], ms[i], whens[i]);
    }
    AllOrNothing(lib, Body(lines, None, known));
    hide Says, Blank, Outcome;
    AllSpoken(lib, lines);
    assert Outcome(lib, Body(lines, None, known)).value == ms;
  }
}
