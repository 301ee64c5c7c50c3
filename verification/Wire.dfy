/** How bytes travel in text: a field is a plain string when it is UTF-8 and
    unpadded base64url when it is not. */
module Wire {
  import opened Base
  import Frames

  // ----- UTF-8, section 4 of RFC 3629

  predicate Within(x: byte, lo: int, hi: int) {
    lo <= x <= hi
  }

  predicate Follows(x: byte) {
    Within(x, 0x80, 0xBF)
  }

  /** How many bytes the well-formed character at the front takes; none if what is
      there is not one. */
  function Front(b: bytes): (n: nat)
    ensures n <= |b| && n <= 4
  {
    if |b| >= 1 && b[0] < 0x80 then 1
    else if |b| >= 2 && Within(b[0], 0xC2, 0xDF) && Follows(b[1]) then 2
    else if |b| >= 3 && Follows(b[2]) && Second3(b[0], b[1]) then 3
    else if |b| >= 4 && Follows(b[2]) && Follows(b[3]) && Second4(b[0], b[1]) then 4
    else 0
  }

  /** The second byte of three: no overlong forms and no surrogates. */
  predicate Second3(first: byte, second: byte) {
    if first == 0xE0 then Within(second, 0xA0, 0xBF)
    else if first == 0xED then Within(second, 0x80, 0x9F)
    else Within(first, 0xE1, 0xEF) && Follows(second)
  }

  /** The second byte of four: no overlong forms and nothing past U+10FFFF. */
  predicate Second4(first: byte, second: byte) {
    if first == 0xF0 then Within(second, 0x90, 0xBF)
    else if first == 0xF4 then Within(second, 0x80, 0x8F)
    else Within(first, 0xF1, 0xF3) && Follows(second)
  }

  predicate Utf8(b: bytes) {
    b == [] || (Front(b) > 0 && Utf8(b[Front(b)..]))
  }

  type Scalar = c: int | 0 <= c < 0xD800 || 0xE000 <= c < 0x11_0000

  function Character(c: Scalar): bytes {
    if c < 0x80 then [c]
    else if c < 0x800 then [0xC0 + c / 64, 0x80 + c % 64]
    else if c < 0x1_0000 then [0xE0 + c / 4096, 0x80 + c / 64 % 64, 0x80 + c % 64]
    else [0xF0 + c / 262144, 0x80 + c / 4096 % 64, 0x80 + c / 64 % 64, 0x80 + c % 64]
  }

  function Text(cs: seq<Scalar>): bytes {
    if cs == [] then [] else Character(cs[0]) + Text(cs[1..])
  }

  lemma CharacterIsFront(c: Scalar, rest: bytes)
    ensures Front(Character(c) + rest) == |Character(c)|
    ensures (Character(c) + rest)[|Character(c)|..] == rest
  {
  }

  lemma ThreeDigits(a: int, b: int, d: int)
    requires 0 <= a && 0 <= b < 64 && 0 <= d < 64
    ensures var c := a * 4096 + b * 64 + d; c / 4096 == a && c / 64 % 64 == b && c % 64 == d
  {
    var c := a * 4096 + b * 64 + d;
    assert c / 64 == a * 64 + b;
  }

  lemma FrontIsCharacter(b: bytes) returns (c: Scalar)
    requires Front(b) > 0
    ensures Character(c) == b[..Front(b)]
  {
    var n := Front(b);
    if n == 1 {
      c := b[0];
    } else if n == 2 {
      var b0: int, b1: int := b[0], b[1];
      c := (b0 - 0xC0) * 64 + (b1 - 0x80);
    } else if n == 3 {
      c := LongFront3(b);
    } else {
      c := LongFront4(b);
    }
  }

  lemma LongFront3(b: bytes) returns (c: Scalar)
    requires Front(b) == 3
    ensures Character(c) == b[..3]
  {
    var b0: int, b1: int, b2: int := b[0], b[1], b[2];
    ThreeDigits(b0 - 0xE0, b1 - 0x80, b2 - 0x80);
    c := (b0 - 0xE0) * 4096 + (b1 - 0x80) * 64 + (b2 - 0x80);
  }

  lemma LongFront4(b: bytes) returns (c: Scalar)
    requires Front(b) == 4
    ensures Character(c) == b[..4]
  {
    var b0: int, b1: int, b2: int, b3: int := b[0], b[1], b[2], b[3];
    ThreeDigits((b0 - 0xF0) * 64 + (b1 - 0x80), b2 - 0x80, b3 - 0x80);
    c := (b0 - 0xF0) * 262144 + (b1 - 0x80) * 4096 + (b2 - 0x80) * 64 + (b3 - 0x80);
    assert c / 262144 == b0 - 0xF0;
  }

  lemma {:induction false} TextIsUtf8(cs: seq<Scalar>)
    ensures Utf8(Text(cs))
  {
    if cs != [] {
      TextIsUtf8(cs[1..]);
      CharacterIsFront(cs[0], Text(cs[1..]));
    }
  }

  lemma {:induction false} Utf8IsText(b: bytes) returns (cs: seq<Scalar>)
    requires Utf8(b)
    ensures Text(cs) == b
    decreases |b|
  {
    cs := [];
    if b != [] {
      var c := FrontIsCharacter(b);
      var rest := Utf8IsText(b[Front(b)..]);
      cs := [c] + rest;
      assert cs[1..] == rest;
    }
  }

  /** What the table of byte ranges accepts is exactly the encodings of characters. */
  lemma Utf8IffText(b: bytes)
    ensures Utf8(b) <==> exists cs: seq<Scalar> :: Text(cs) == b
  {
    if Utf8(b) {
      var cs := Utf8IsText(b);
      assert Text(cs) == b;
    }
    if cs: seq<Scalar> :| Text(cs) == b {
      TextIsUtf8(cs);
    }
  }

  // ----- base64url without padding, section 5 of RFC 4648

  function Letter(v: nat): (c: byte)
    requires v < 64
    ensures Value(c) == v && c != 10 && c != 13
  {
    if v < 26 then 65 + v
    else if v < 52 then 97 + (v - 26)
    else if v < 62 then 48 + (v - 52)
    else if v == 62 then 45
    else 95
  }

  /** What a letter stands for; 64 for a byte that is not one. */
  function Value(c: byte): (v: nat)
    ensures v <= 64
  {
    if 65 <= c <= 90 then c - 65
    else if 97 <= c <= 122 then c - 97 + 26
    else if 48 <= c <= 57 then c - 48 + 52
    else if c == 45 then 62
    else if c == 95 then 63
    else 64
  }

  predicate Letters(s: bytes) {
    forall i :: 0 <= i < |s| ==> Value(s[i]) < 64
  }

  /** Three bytes as four times six bits ... */
  function Six0(p: byte): (v: nat)
    ensures v < 64
  {
    p / 4
  }

  function Six1(p: byte, q: byte): (v: nat)
    ensures v < 64
  {
    p % 4 * 16 + q / 16
  }

  function Six2(q: byte, r: byte): (v: nat)
    ensures v < 64
  {
    q % 16 * 4 + r / 64
  }

  function Six3(r: byte): (v: nat)
    ensures v < 64
  {
    r % 64
  }

  /** ... and back. */
  function Eight0(v: nat, w: nat): byte
    requires v < 64 && w < 64
  {
    v * 4 + w / 16
  }

  function Eight1(w: nat, x: nat): byte
    requires w < 64 && x < 64
  {
    w % 16 * 16 + x / 4
  }

  function Eight2(x: nat, y: nat): byte
    requires x < 64 && y < 64
  {
    x % 4 * 64 + y
  }

  lemma BytesRegrouped(p: byte, q: byte, r: byte)
    ensures Eight0(Six0(p), Six1(p, q)) == p
    ensures Eight1(Six1(p, q), Six2(q, r)) == q
    ensures Eight2(Six2(q, r), Six3(r)) == r
  {
  }

  lemma SextetsRegrouped(v: nat, w: nat, x: nat, y: nat)
    requires v < 64 && w < 64 && x < 64 && y < 64
    ensures Six0(Eight0(v, w)) == v
    ensures Six1(Eight0(v, w), Eight1(w, x)) == w
    ensures Six2(Eight1(w, x), Eight2(x, y)) == x
    ensures Six3(Eight2(x, y)) == y
    ensures Six1(Eight0(v, w), 0) == w - w % 16
    ensures Six2(Eight1(w, x), 0) == x - x % 4
  {
  }

  /** The letters of up to three bytes. */
  function Group(b: bytes): (s: bytes)
    requires 1 <= |b| <= 3
    ensures |s| == |b| + 1 && Letters(s)
  {
    if |b| == 1 then [Letter(Six0(b[0])), Letter(Six1(b[0], 0))]
    else if |b| == 2 then [Letter(Six0(b[0])), Letter(Six1(b[0], b[1])), Letter(Six2(b[1], 0))]
    else [Letter(Six0(b[0])), Letter(Six1(b[0], b[1])), Letter(Six2(b[1], b[2])), Letter(Six3(b[2]))]
  }

  function Base64(b: bytes): bytes {
    if b == [] then [] else if |b| <= 3 then Group(b) else Group(b[..3]) + Base64(b[3..])
  }

  /** The bytes of two to four letters.  Bits left over are dropped and not looked
      at. */
  function Ungroup(s: bytes): (b: bytes)
    requires 2 <= |s| <= 4 && Letters(s)
    ensures |b| == |s| - 1
  {
    var v, w := Value(s[0]), Value(s[1]);
    if |s| == 2 then [Eight0(v, w)]
    else if |s| == 3 then [Eight0(v, w), Eight1(w, Value(s[2]))]
    else [Eight0(v, w), Eight1(w, Value(s[2])), Eight2(Value(s[2]), Value(s[3]))]
  }

  /** Not one letter over, which would be less than a byte. */
  predicate WholeBytes(s: bytes) {
    |s| % 4 != 1
  }

  lemma FourMore(a: bytes, rest: bytes)
    requires |a| == 4
    ensures WholeBytes(a + rest) <==> WholeBytes(rest)
  {
  }

  function Quanta(s: bytes): bytes
    requires Letters(s) && WholeBytes(s)
  {
    if s == [] then [] else if |s| <= 4 then Ungroup(s) else Ungroup(s[..4]) + Quanta(s[4..])
  }

  /** Line ends are passed over wherever they are. */
  function Unwrapped(s: bytes): bytes {
    if s == [] then []
    else if s[0] == 10 || s[0] == 13 then Unwrapped(s[1..])
    else [s[0]] + Unwrapped(s[1..])
  }

  function Unbase64(s: bytes): Option<bytes> {
    var letters := Unwrapped(s);
    if Letters(letters) && WholeBytes(letters) then Some(Quanta(letters)) else None
  }

  lemma {:induction false} LettersStay(s: bytes)
    requires Letters(s)
    ensures Unwrapped(s) == s
  {
    if s != [] {
      assert Value(s[0]) < 64;
      LettersStay(s[1..]);
    }
  }

  lemma GroupComesBack(b: bytes)
    requires 1 <= |b| <= 3
    ensures Ungroup(Group(b)) == b
  {
    hide Letter, Value, Six0, Six1, Six2, Six3, Eight0, Eight1, Eight2;
    if |b| == 1 {
      BytesRegrouped(b[0], 0, 0);
    } else if |b| == 2 {
      BytesRegrouped(b[0], b[1], 0);
    } else {
      BytesRegrouped(b[0], b[1], b[2]);
    }
  }

  /** The bits the last letter carries beyond a whole byte are zero. */
  predicate NothingLeftOver(s: bytes) {
    && (|s| % 4 == 2 ==> Value(s[|s| - 1]) % 16 == 0)
    && (|s| % 4 == 3 ==> Value(s[|s| - 1]) % 4 == 0)
  }

  lemma LettersDiffer(v: nat, c: byte)
    requires v < 64 && Value(c) < 64
    ensures Letter(v) == c <==> v == Value(c)
  {
  }

  lemma UngroupReencodes2(s: bytes)
    requires |s| == 2 && Letters(s)
    ensures Group(Ungroup(s)) == s <==> Value(s[1]) % 16 == 0
  {
    var v, w := Value(s[0]), Value(s[1]);
    hide Value, Letter, Six0, Six1, Six2, Six3, Eight0, Eight1, Eight2;
    SextetsRegrouped(v, w, 0, 0);
    LettersDiffer(v, s[0]);
    LettersDiffer(w - w % 16, s[1]);
    assert Group(Ungroup(s)) == [Letter(v), Letter(w - w % 16)];
  }

  lemma UngroupReencodes3(s: bytes)
    requires |s| == 3 && Letters(s)
    ensures Group(Ungroup(s)) == s <==> Value(s[2]) % 4 == 0
  {
    var v, w, x := Value(s[0]), Value(s[1]), Value(s[2]);
    hide Value, Letter, Six0, Six1, Six2, Six3, Eight0, Eight1, Eight2;
    SextetsRegrouped(v, w, x, 0);
    LettersDiffer(v, s[0]);
    LettersDiffer(w, s[1]);
    LettersDiffer(x - x % 4, s[2]);
    assert Group(Ungroup(s)) == [Letter(v), Letter(w), Letter(x - x % 4)];
  }

  lemma UngroupReencodes4(s: bytes)
    requires |s| == 4 && Letters(s)
    ensures Group(Ungroup(s)) == s
  {
    var v, w, x, y := Value(s[0]), Value(s[1]), Value(s[2]), Value(s[3]);
    hide Value, Letter, Six0, Six1, Six2, Six3, Eight0, Eight1, Eight2;
    SextetsRegrouped(v, w, x, y);
    LettersDiffer(v, s[0]);
    LettersDiffer(w, s[1]);
    LettersDiffer(x, s[2]);
    LettersDiffer(y, s[3]);
    assert Group(Ungroup(s)) == [Letter(v), Letter(w), Letter(x), Letter(y)];
  }

  lemma UngroupReencodes(s: bytes)
    requires 2 <= |s| <= 4 && Letters(s)
    ensures Group(Ungroup(s)) == s <==> NothingLeftOver(s)
  {
    hide Group, Ungroup, Value, Letter;
    if |s| == 2 {
      UngroupReencodes2(s);
    } else if |s| == 3 {
      UngroupReencodes3(s);
    } else {
      UngroupReencodes4(s);
    }
  }

  lemma LettersSplit(a: bytes, b: bytes)
    ensures Letters(a + b) <==> Letters(a) && Letters(b)
  {
    if Letters(a + b) {
      forall i | 0 <= i < |a| ensures Value(a[i]) < 64 {
        assert (a + b)[i] == a[i];
      }
      forall i | 0 <= i < |b| ensures Value(b[i]) < 64 {
        assert (a + b)[|a| + i] == b[i];
      }
    }
  }

  lemma Base64Unfolds(a: bytes, rest: bytes)
    requires |a| == 3
    ensures Base64(a + rest) == Group(a) + Base64(rest)
  {
  }

  lemma QuantaUnfolds(a: bytes, rest: bytes)
    requires |a| == 4 && Letters(a) && Letters(rest) && WholeBytes(rest)
    ensures Letters(a + rest) && Quanta(a + rest) == Ungroup(a) + Quanta(rest)
  {
  }

  lemma {:induction false} EncodingIsLetters(b: bytes)
    ensures Letters(Base64(b)) && WholeBytes(Base64(b))
    ensures b != [] ==> Base64(b) != []
  {
    assert Letters([]);
    hide Group, Letters;
    if |b| > 3 {
      hide Base64, WholeBytes;
      var a, rest := b[..3], b[3..];
      assert b == a + rest;
      EncodingIsLetters(rest);
      Base64Unfolds(a, rest);
      LettersSplit(Group(a), Base64(rest));
      FourMore(Group(a), Base64(rest));
    }
  }

  lemma {:induction false} QuantaOfEncoding(b: bytes)
    requires Letters(Base64(b)) && WholeBytes(Base64(b))
    ensures Quanta(Base64(b)) == b
  {
    hide Group, Ungroup, Letters;
    if b == [] {
    } else if |b| <= 3 {
      GroupComesBack(b);
      assert Base64(b) == Group(b);
      assert Quanta(Group(b)) == Ungroup(Group(b));
    } else {
      hide Quanta, Base64, WholeBytes;
      var a, rest := b[..3], b[3..];
      assert b == a + rest;
      GroupComesBack(a);
      EncodingIsLetters(rest);
      QuantaOfEncoding(rest);
      Base64Unfolds(a, rest);
      QuantaUnfolds(Group(a), Base64(rest));
    }
  }

  /** Every string of bytes, whatever its length leaves over, comes back. */
  lemma Base64RoundTrip(b: bytes)
    ensures Letters(Base64(b)) && Unwrapped(Base64(b)) == Base64(b)
    ensures Unbase64(Base64(b)) == Some(b)
  {
    EncodingIsLetters(b);
    QuantaOfEncoding(b);
    LettersStay(Base64(b));
  }

  lemma {:induction false} QuantaReencode(s: bytes)
    requires Letters(s) && WholeBytes(s)
    ensures Base64(Quanta(s)) == s <==> NothingLeftOver(s)
  {
    if s == [] {
    } else if |s| <= 4 {
      UngroupReencodes(s);
      hide Group, Ungroup, Letters, Value;
      assert Base64(Quanta(s)) == Group(Ungroup(s));
    } else {
      var a, rest := s[..4], s[4..];
      assert s == a + rest;
      LettersSplit(a, rest);
      SameEnd(a, rest);
      FourMore(a, rest);
      hide Group, Ungroup, Letters, Quanta, Base64, NothingLeftOver, WholeBytes;
      UngroupReencodes(a);
      QuantaReencode(rest);
      QuantaUnfolds(a, rest);
      Base64Unfolds(Ungroup(a), Quanta(rest));
      var t := Base64(Quanta(s));
      assert t == a + Base64(Quanta(rest));
      assert t[4..] == Base64(Quanta(rest));
    }
  }

  lemma SameEnd(first: bytes, rest: bytes)
    requires |first| == 4 && rest != []
    ensures NothingLeftOver(first)
    ensures NothingLeftOver(first + rest) <==> NothingLeftOver(rest)
  {
  }

  /** Decoding accepts more than one spelling of the same bytes.  The one that
      encoding would choose is the one with no line ends in it and no bits left
      over. */
  lemma ReencodesIff(s: bytes)
    requires Unbase64(s).Some?
    ensures Base64(Unbase64(s).value) == s <==> Unwrapped(s) == s && NothingLeftOver(s)
  {
    QuantaReencode(Unwrapped(s));
    Base64RoundTrip(Unbase64(s).value);
  }

  /** "_w" and "_x" both name the byte 0xFF. */
  lemma TwoSpellingsOfAByte()
    ensures Unbase64([95, 119]) == Unbase64([95, 120]) == Some([0xFF])
    ensures Unbase64([95, 10, 119]) == Some([0xFF])
  {
  }

  // ----- which base64 it is

  /** The letters are those of section 5 of RFC 4648, in its order: capitals, small
      letters, digits, a hyphen and an underscore. */
  lemma AlphabetIs(v: nat)
    requires v < 64
    ensures v < 26 ==> Letter(v) - 'A' as int == v
    ensures 26 <= v < 52 ==> Letter(v) - 'a' as int == v - 26
    ensures 52 <= v < 62 ==> Letter(v) - '0' as int == v - 52
    ensures Letter(62) == '-' as int && Letter(63) == '_' as int
  {
  }

  /** A group's letters are its bytes' number, most significant first, in base 64, with
      zeros for what is missing at the end. */
  lemma GroupIsTheNumber(b: bytes)
    requires 1 <= |b| <= 3
    ensures var p: int, q: int, r: int := b[0], if |b| > 1 then b[1] else 0, if |b| > 2 then b[2] else 0;
      var s := Group(b);
      var x, y := if |s| > 2 then Value(s[2]) else 0, if |s| > 3 then Value(s[3]) else 0;
      Value(s[0]) * 262144 + Value(s[1]) * 4096 + x * 64 + y == p * 65536 + q * 256 + r
  {
    hide Group, Letters, Six0, Six1, Six2, Six3, Letter, Value;
    GroupValues(b);
    SixesAreTheNumber(b[0], if |b| > 1 then b[1] else 0, if |b| > 2 then b[2] else 0);
    assert Six2(0, 0) == 0 && Six3(0) == 0 by { SixesAreTheNumber(0, 0, 0); }
  }

  lemma GroupValues(b: bytes)
    requires 1 <= |b| <= 3
    ensures Value(Group(b)[0]) == Six0(b[0]) && Value(Group(b)[1]) == Six1(b[0], if |b| > 1 then b[1] else 0)
    ensures |b| > 1 ==> Value(Group(b)[2]) == Six2(b[1], if |b| > 2 then b[2] else 0)
    ensures |b| > 2 ==> Value(Group(b)[3]) == Six3(b[2])
  {
    hide Letters, Six0, Six1, Six2, Six3, Letter, Value;
  }

  lemma SixesAreTheNumber(a: byte, b: byte, c: byte)
    ensures var p: int, q: int, r: int := a, b, c;
      Six0(a) * 262144 + Six1(a, b) * 4096 + Six2(b, c) * 64 + Six3(c) == p * 65536 + q * 256 + r
    ensures Six3(0) == 0 && Six2(0, 0) == 0
  {
  }

  predicate InAlphabet(c: byte) {
    65 <= c <= 90 || 97 <= c <= 122 || 48 <= c <= 57 || c == 45 || c == 95
  }

  /** How many of these bytes are not line ends. */
  function Counted(s: bytes): nat {
    if s == [] then 0 else Counted(s[1..]) + if s[0] == 10 || s[0] == 13 then 0 else 1
  }

  lemma {:induction false} UnwrappedIs(s: bytes)
    ensures |Unwrapped(s)| == Counted(s)
    ensures Letters(Unwrapped(s)) <==> forall i :: 0 <= i < |s| ==> InAlphabet(s[i]) || s[i] == 10 || s[i] == 13
  {
    if s != [] {
      var rest := s[1..];
      UnwrappedIs(rest);
      LettersSplit([s[0]], Unwrapped(rest));
      assert Letters([s[0]]) <==> InAlphabet(s[0]) by {
        assert [s[0]][0] == s[0];
      }
      if forall i :: 0 <= i < |rest| ==> InAlphabet(rest[i]) || rest[i] == 10 || rest[i] == 13 {
        forall i | 1 <= i < |s| ensures InAlphabet(s[i]) || s[i] == 10 || s[i] == 13 {
          assert s[i] == rest[i - 1];
        }
      } else {
        var i :| 0 <= i < |rest| && !(InAlphabet(rest[i]) || rest[i] == 10 || rest[i] == 13);
        assert s[i + 1] == rest[i];
      }
      hide Letters;
    }
  }

  /** What decodes: letters of the alphabet and line ends, and nothing else, padding
      included; and not one letter over. */
  lemma DecodesIff(s: bytes)
    ensures Unbase64(s).Some? <==>
      && (forall i :: 0 <= i < |s| ==> InAlphabet(s[i]) || s[i] == 10 || s[i] == 13)
      && Counted(s) % 4 != 1
  {
    UnwrappedIs(s);
  }

  // ----- the two forms of a field

  /** A record on the wire.  A field that is there and empty is not one that is
      absent. */
  datatype Pair = Pair(op: string, key: Option<bytes>, keyB64: Option<bytes>,
                       value: Option<bytes>, valueB64: Option<bytes>, expires: string)

  datatype FieldError = BothForms | NotBase64

  function OnTheWire(b: bytes): (Option<bytes>, Option<bytes>) {
    if Utf8(b) then (Some(b), None) else (None, Some(Base64(b)))
  }

  function FromTheWire(plain: Option<bytes>, coded: Option<bytes>): Result<bytes, FieldError> {
    if plain.Some? && coded.Some? then Err(BothForms)
    else if coded.Some? then
      var b := Unbase64(coded.value);
      if b.None? then Err(NotBase64) else Ok(b.value)
    else if plain.Some? then Ok(plain.value)
    else Ok([])
  }

  /** What a field comes to: an error if it is there both ways or its coded form does
      not decode, and otherwise whichever form is there, or nothing. */
  lemma FieldIs(plain: Option<bytes>, coded: Option<bytes>)
    ensures FromTheWire(plain, coded) == Err(BothForms) <==> plain.Some? && coded.Some?
    ensures FromTheWire(plain, coded) == Err(NotBase64) <==> plain.None? && coded.Some? && Unbase64(coded.value).None?
    ensures forall b :: FromTheWire(plain, coded) == Ok(b) <==>
      || (plain == Some(b) && coded.None?)
      || (plain.None? && coded.Some? && Unbase64(coded.value) == Some(b))
      || (plain.None? && coded.None? && b == [])
  {
    hide Unbase64;
  }

  function EncodePair(key: bytes, value: bytes): Pair {
    var (k, kB64) := OnTheWire(key);
    var (v, vB64) := OnTheWire(value);
    Pair("", k, kB64, v, vB64, "")
  }

  /** Nothing is lost: every field comes back, and exactly one of its forms is
      there, carrying text either way. */
  lemma FieldsLoseNothing(b: bytes)
    ensures var (plain, coded) := OnTheWire(b);
      && FromTheWire(plain, coded) == Ok(b)
      && (plain.Some? <==> coded.None?)
      && (plain.Some? <==> exists cs: seq<Scalar> :: Text(cs) == b)
      && Utf8(if plain.Some? then plain.value else coded.value)
  {
    Base64RoundTrip(b);
    Utf8IffText(b);
    LettersAreText(Base64(b));
  }

  lemma {:induction false} LettersAreText(s: bytes)
    requires Letters(s)
    ensures Utf8(s)
  {
    if s != [] {
      assert Value(s[0]) < 64;
      LettersAreText(s[1..]);
    }
  }

  /** What was read is what would be written for it only if the form is the right
      one for the bytes, spelled the one way. */
  lemma FieldsAreWrittenBackIff(plain: Option<bytes>, coded: Option<bytes>)
    requires FromTheWire(plain, coded).Ok?
    ensures var b := FromTheWire(plain, coded).value;
      OnTheWire(b) == (plain, coded) <==>
        || (plain.Some? && Utf8(plain.value))
        || (coded.Some? && !Utf8(b) && Unwrapped(coded.value) == coded.value && NothingLeftOver(coded.value))
  {
    if coded.Some? {
      ReencodesIff(coded.value);
    }
  }

  lemma PairsReadBack(key: bytes, value: bytes)
    ensures var p := EncodePair(key, value);
      FromTheWire(p.key, p.keyB64) == Ok(key) && FromTheWire(p.value, p.valueB64) == Ok(value)
  {
    FieldsLoseNothing(key);
    FieldsLoseNothing(value);
  }

  // ----- a position in a query

  /** No parameter at all is a follower with nowhere to carry on from. */
  function PositionOf(c: Frames.Codec, raw: bytes): Option<Position> {
    if raw == [] then Some(ZERO)
    else
      var encoded := Unbase64(raw);
      if encoded.None? then None else c.unmarshal(encoded.value)
  }

  function PositionParam(c: Frames.Codec, p: Position): bytes {
    Base64(c.marshal(p))
  }

  /** A follower's place survives the query: any position the engine's own encoding
      gives back, the zero one it would rather leave out included. */
  lemma PositionsReadBack(c: Frames.Codec, p: Position)
    requires c.size > 0 && Frames.ReadsBack(c, p)
    ensures PositionOf(c, PositionParam(c, p)) == Some(p)
    ensures PositionParam(c, p) != [] && Letters(PositionParam(c, p))
    ensures PositionOf(c, []) == Some(ZERO)
  {
    Base64RoundTrip(c.marshal(p));
    EncodingIsLetters(c.marshal(p));
  }
}
