/** Whole numbers in decimal: what a query's limit is read as, and what spells it. */
module Numbers {
  import opened Base

  predicate IsDigit(c: char) {
    '0' <= c <= '9'
  }

  predicate AllDigits(s: string) {
    forall i :: 0 <= i < |s| ==> IsDigit(s[i])
  }

  predicate Digits(s: string) {
    s != [] && AllDigits(s)
  }

  function DigitOf(c: char): (d: nat)
    requires IsDigit(c)
    ensures d < 10
  {
    (c - '0') as nat
  }

  function Number(s: string): nat
    requires AllDigits(s)
  {
    if s == [] then 0 else 10 * Number(s[..|s| - 1]) + DigitOf(s[|s| - 1])
  }

  /** A whole number with at most one sign, in 64 bits. */
  function Integer(s: string): Option<int> {
    var signed := s != [] && (s[0] == '-' || s[0] == '+');
    var digits := if signed then s[1..] else s;
    if !Digits(digits) then None
    else
      var size: int := Number(digits);
      Fitting(if signed && s[0] == '-' then -size else size)
  }

  function Fitting(n: int): Option<int> {
    if -0x8000_0000_0000_0000 <= n <= 0x7FFF_FFFF_FFFF_FFFF then Some(n) else None
  }

  // ----- what spells a number

  function Digit(d: nat): (c: char)
    requires d < 10
    ensures IsDigit(c) && DigitOf(c) == d
  {
    "0123456789"[d]
  }

  /** The usual spelling of a number. */
  function Printed(n: nat): string {
    if n < 10 then [Digit(n)] else Printed(n / 10) + [Digit(n % 10)]
  }

  function Zeros(k: nat): (s: string)
    ensures |s| == k && forall i :: 0 <= i < k ==> s[i] == '0'
  {
    seq(k, _ => '0')
  }

  datatype Sign = Plain | Plus | Minus

  function Signed(sign: Sign): string {
    match sign case Plain => "" case Plus => "+" case Minus => "-"
  }

  function Size(v: int): nat {
    if v < 0 then -v else v
  }

  /** A sign or none, any zeros, and the number as it is printed. */
  predicate SpellsAs(s: string, v: int, sign: Sign, k: nat) {
    && s == Signed(sign) + (Zeros(k) + Printed(Size(v)))
    && (if sign == Minus then v <= 0 else v >= 0)
  }

  ghost predicate Spells(s: string, v: int) {
    exists sign: Sign, k: nat :: SpellsAs(s, v, sign, k)
  }

  // ----- digits

  lemma DigitsDiffer(c: char)
    requires IsDigit(c)
    ensures Digit(DigitOf(c)) == c
  {
  }

  lemma OneDigitMore(s: string, c: char)
    requires AllDigits(s) && IsDigit(c)
    ensures Digits(s + [c]) && Number(s + [c]) == 10 * Number(s) + DigitOf(c)
  {
    assert (s + [c])[..|s|] == s;
  }

  lemma {:induction false} PrintedIsRead(n: nat)
    ensures Digits(Printed(n)) && Number(Printed(n)) == n
  {
    if n < 10 {
      OneDigitMore("", Digit(n));
      assert "" + [Digit(n)] == [Digit(n)];
    } else {
      PrintedIsRead(n / 10);
      OneDigitMore(Printed(n / 10), Digit(n % 10));
    }
  }

  lemma {:induction false} ZerosCountForNothing(k: nat, s: string)
    requires AllDigits(s)
    ensures AllDigits(Zeros(k) + s) && Number(Zeros(k) + s) == Number(s)
    decreases k + |s|
  {
    hide Number;
    if s != [] {
      var n := |s| - 1;
      assert s == s[..n] + [s[n]] && Zeros(k) + s == Zeros(k) + s[..n] + [s[n]];
      ZerosCountForNothing(k, s[..n]);
      OneDigitMore(Zeros(k) + s[..n], s[n]);
      OneDigitMore(s[..n], s[n]);
    } else if k > 0 {
      assert Zeros(k) + s == Zeros(k - 1) + s + ['0'];
      ZerosCountForNothing(k - 1, s);
      OneDigitMore(Zeros(k - 1) + s, '0');
      NothingIsZero();
    } else {
      assert Zeros(k) + s == s;
    }
  }

  lemma NothingIsZero()
    ensures Number("") == 0
  {
  }

  lemma PrintedWithOneMore(high: nat, d: nat)
    requires d < 10
    ensures Printed(10 * high + d) == if high == 0 then [Digit(d)] else Printed(high) + [Digit(d)]
  {
    assert (10 * high + d) / 10 == high && (10 * high + d) % 10 == d;
  }

  /** Any digits are some zeros and then a number as it is printed. */
  lemma {:induction false} DigitsSpell(s: string) returns (k: nat)
    requires Digits(s)
    ensures s == Zeros(k) + Printed(Number(s))
  {
    hide Number, Printed;
    var n := |s| - 1;
    var d := DigitOf(s[n]);
    assert s == s[..n] + [s[n]];
    DigitsDiffer(s[n]);
    OneDigitMore(s[..n], s[n]);
    NothingIsZero();
    if n == 0 {
      k := 0;
      assert s[..0] == "";
      PrintedWithOneMore(0, d);
      assert s == Zeros(0) + [Digit(d)];
    } else {
      k := DigitsSpell(s[..n]);
      var high := Number(s[..n]);
      PrintedWithOneMore(high, d);
      if high == 0 {
        PrintedWithOneMore(0, 0);
        assert Zeros(k) + ['0'] == Zeros(k + 1);
        k := k + 1;
      } else {
        assert s == Zeros(k - 0) + (Printed(high) + [Digit(d)]);
      }
    }
  }

  // ----- signs

  lemma SignedDigitsAreRead(sign: Sign, digits: string)
    requires Digits(digits)
    ensures Integer(Signed(sign) + digits) == Fitting(if sign == Minus then -(Number(digits) as int) else Number(digits))
  {
    hide Number, Fitting;
    var s := Signed(sign) + digits;
    assert IsDigit(digits[0]);
    if sign == Plain {
      assert s == digits;
    } else {
      assert s[1..] == digits;
    }
  }

  lemma OnlySignedDigitsAreRead(s: string) returns (sign: Sign, digits: string)
    requires Integer(s).Some?
    ensures Digits(digits) && s == Signed(sign) + digits
  {
    hide Number, Fitting;
    sign := if s[0] == '-' then Minus else if s[0] == '+' then Plus else Plain;
    digits := if sign == Plain then s else s[1..];
  }

  lemma DigitsAreDigits(s: string)
    requires Digits(s)
    ensures AllDigits(s)
  {
  }

  lemma FittingIs(v: int)
    ensures Fitting(v) == if -0x8000_0000_0000_0000 <= v <= 0x7FFF_FFFF_FFFF_FFFF then Some(v) else None
  {
  }

  /** A spelling is read as its number, if that fits in 64 bits. */
  lemma SpellingIsRead(s: string, v: int)
    requires Spells(s, v)
    ensures Integer(s) == if -0x8000_0000_0000_0000 <= v <= 0x7FFF_FFFF_FFFF_FFFF then Some(v) else None
  {
    hide Number, Printed, Integer, Fitting, AllDigits, Signed;
    var sign: Sign, k: nat :| SpellsAs(s, v, sign, k);
    PrintedIsRead(Size(v));
    DigitsAreDigits(Printed(Size(v)));
    ZerosCountForNothing(k, Printed(Size(v)));
    FittingIs(v);
    SignedDigitsAreRead(sign, Zeros(k) + Printed(Size(v)));
  }

  /** A string is read as a number exactly if it spells it and it fits in 64 bits, and
      nothing else is read as one at all. */
  lemma IntegerIff(s: string, v: int)
    ensures Integer(s) == Some(v) <==> Spells(s, v) && -0x8000_0000_0000_0000 <= v <= 0x7FFF_FFFF_FFFF_FFFF
  {
    hide Number, Printed, Integer, SpellsAs, Digits, Signed;
    if Spells(s, v) {
      SpellingIsRead(s, v);
    }
    if Integer(s) == Some(v) {
      var sign, digits := OnlySignedDigitsAreRead(s);
      SignedDigitsAreRead(sign, digits);
      var k := DigitsSpell(digits);
      SpellsSo(s, v, sign, k, digits);
    }
  }

  lemma SpellsSo(s: string, v: int, sign: Sign, k: nat, digits: string)
    requires Digits(digits) && s == Signed(sign) + digits && digits == Zeros(k) + Printed(Number(digits))
    requires v == if sign == Minus then -(Number(digits) as int) else Number(digits)
    ensures SpellsAs(s, v, sign, k)
  {
    hide Number, Printed;
  }

  /** Every number is read back from how it is printed, whatever zeros are put before
      it and with a plus or without. */
  lemma PrintedNumbersReadBack(n: nat, k: nat)
    requires n <= 0x7FFF_FFFF_FFFF_FFFF
    ensures Integer(Printed(n)) == Integer(Zeros(k) + Printed(n)) == Integer("+" + Zeros(k) + Printed(n)) == Some(n)
    ensures Integer("-" + Zeros(k) + Printed(n)) == Some(-(n as int))
  {
    hide Number, Printed, Integer;
    PrintedIsRead(n);
    ZerosCountForNothing(k, Printed(n));
    var digits := Zeros(k) + Printed(n);
    assert "+" + Zeros(k) + Printed(n) == "+" + digits && "-" + Zeros(k) + Printed(n) == "-" + digits;
    assert Signed(Plain) + digits == digits && Signed(Plain) + Printed(n) == Printed(n);
    SignedDigitsAreRead(Plain, Printed(n));
    SignedDigitsAreRead(Plain, digits);
    SignedDigitsAreRead(Plus, digits);
    SignedDigitsAreRead(Minus, digits);
  }
}
