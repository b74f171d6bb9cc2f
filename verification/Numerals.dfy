/**
 The integers and booleans of a profile: which texts the parser reads, as what, and that it
 reads no others.
*/
module Numerals {
  import opened Common
  import opened Tokens
  import opened ParseConfig

  // ----- writing numbers down

  function DigitChar(d: nat, upper: bool): char
    requires d < 16
  {
    if d < 10 then ('0' as int + d) as char
    else if upper then ('A' as int + d - 10) as char
    else ('a' as int + d - 10) as char
  }

  /** The digits of a number, without leading zeroes. */
  function Numeral(base: nat, upper: bool, n: nat): string
    requires base in {8, 10, 16}
  {
    if n < base then [DigitChar(n, upper)]
    else Numeral(base, upper, n / base) + [DigitChar(n % base, upper)]
  }

  function Zeros(n: nat): string {
    seq(n, _ => '0')
  }

  datatype Notation = InDecimal | InOctal | InHex(upperX: bool, upper: bool)

  function Base(notation: Notation): nat {
    match notation
    case InDecimal => 10
    case InOctal => 8
    case InHex(_, _) => 16
  }

  function Prefix(notation: Notation): string {
    match notation
    case InDecimal => ""
    case InOctal => "0"
    case InHex(upperX, _) => if upperX then "0X" else "0x"
  }

  /** A number in one of the notations, padded with zeroes where they do not change the notation. */
  function Spelled(notation: Notation, zeros: nat, n: nat): string {
    Prefix(notation) + (if notation.InDecimal? then "" else Zeros(zeros)) +
    Numeral(Base(notation), notation.InHex? && notation.upper, n)
  }

  // ----- digits

  /** The digits of a base are the characters that write its numbers below the base. */
  lemma DigitsInWords(base: nat, c: char)
    requires base <= 16
    ensures IsDigit(base, c) <==> exists d: nat, upper: bool :: d < base && c == DigitChar(d, upper)
    ensures forall d: nat, upper: bool :: d < 16 ==> DigitOf(DigitChar(d, upper)) == Some(d)
  {
    if IsDigit(base, c) {
      var d, upper := DigitOf(c).value, 'A' <= c <= 'F';
      assert d < base && c == DigitChar(d, upper);
    }
  }

  /** A string denotes a number exactly when it is a nonempty string of digits. */
  lemma {:induction false} OnlyDigitsDenote(base: nat, s: string)
    ensures ValueIn(base, s).Some? <==> s != "" && forall c <- s :: IsDigit(base, c)
  {
    if |s| > 1 {
      OnlyDigitsDenote(base, s[..|s|-1]);
      assert s == s[..|s|-1] + [s[|s|-1]];
    }
  }

  lemma DigitCharDenotes(base: nat, d: nat, upper: bool)
    requires base <= 16 && d < base
    ensures IsDigit(base, DigitChar(d, upper)) && DigitOf(DigitChar(d, upper)) == Some(d)
    ensures ValueIn(base, [DigitChar(d, upper)]) == Some(d) && (d > 0 ==> DigitChar(d, upper) != '0')
  {
  }

  lemma Divides(n: nat, base: nat)
    requires base in {8, 10, 16}
    ensures n / base * base + n % base == n
  {
  }

  lemma OneDigitMore(base: nat, s: string, c: char)
    requires ValueIn(base, s).Some? && IsDigit(base, c)
    ensures ValueIn(base, s + [c]) == Some(ValueIn(base, s).value * base + DigitOf(c).value)
  {
    assert (s + [c])[..|s|] == s;
  }

  lemma {:induction false} NumeralDenotes(base: nat, upper: bool, n: nat)
    requires base in {8, 10, 16}
    ensures var s := Numeral(base, upper, n);
            && s != "" && ValueIn(base, s) == Some(n) && IsDigit(base, s[0]) && (n > 0 ==> s[0] != '0')
  {
    hide ValueIn, IsDigit, DigitChar, DigitOf;
    DigitCharDenotes(base, n % base, upper);
    if n >= base {
      NumeralDenotes(base, upper, n / base);
      OneDigitMore(base, Numeral(base, upper, n / base), DigitChar(n % base, upper));
      Divides(n, base);
    }
  }

  lemma {:induction false} ZerosAddNothing(base: nat, zeros: nat, s: string)
    requires 1 < base && s != ""
    ensures ValueIn(base, Zeros(zeros) + s) == ValueIn(base, s)
    decreases |s|
  {
    var t := Zeros(zeros) + s;
    if |s| > 1 {
      assert t[..|t|-1] == Zeros(zeros) + s[..|s|-1];
      ZerosAddNothing(base, zeros, s[..|s|-1]);
    } else if zeros > 0 {
      assert t[..|t|-1] == Zeros(zeros);
      ZerosAreZero(base, zeros);
    } else {
      assert t == s;
    }
  }

  lemma {:induction false} ZerosAreZero(base: nat, zeros: nat)
    requires 1 < base && zeros > 0
    ensures ValueIn(base, Zeros(zeros)) == Some(0)
  {
    if zeros > 1 {
      assert Zeros(zeros)[..zeros - 1] == Zeros(zeros - 1);
      ZerosAreZero(base, zeros - 1);
    }
  }

  lemma {:induction false} SpaceIsSkipped(space: string, rest: string)
    requires AllSpace(space) && (rest != "" ==> !IsSpace(rest[0]))
    ensures SkipSpace(space + rest) == rest
  {
    if space == "" {
      assert space + rest == rest;
    } else {
      assert (space + rest)[1..] == space[1..] + rest;
      SpaceIsSkipped(space[1..], rest);
    }
  }

  // ----- what is read

  lemma DecimalMagnitude(n: nat)
    ensures Magnitude(Numeral(10, false, n)) == Some(n)
  {
    NumeralDenotes(10, false, n);
    if n == 0 {
      assert Numeral(10, false, 0) == "0" && ValueIn(8, "0") == Some(0);
    } else {
      hide Numeral, ValueIn;
    }
  }

  lemma OctalMagnitude(zeros: nat, n: nat)
    ensures Magnitude("0" + Zeros(zeros) + Numeral(8, false, n)) == Some(n)
  {
    hide Numeral, ValueIn;
    var digits := Numeral(8, false, n);
    NumeralDenotes(8, false, n);
    var s := "0" + Zeros(zeros) + digits;
    assert s == Zeros(zeros + 1) + digits;
    ZerosAddNothing(8, zeros + 1, digits);
    if zeros == 0 { assert s[1] == digits[0]; } else { assert s[1] == '0'; }
  }

  lemma HexMagnitude(prefix: string, upper: bool, zeros: nat, n: nat)
    requires prefix in {"0x", "0X"}
    ensures Magnitude(prefix + Zeros(zeros) + Numeral(16, upper, n)) == Some(n)
  {
    hide Numeral, ValueIn;
    var digits := Numeral(16, upper, n);
    NumeralDenotes(16, upper, n);
    var s := prefix + Zeros(zeros) + digits;
    assert s[2..] == Zeros(zeros) + digits;
    ZerosAddNothing(16, zeros, digits);
    if zeros == 0 { assert s[2] == digits[0]; } else { assert s[2] == '0'; }
  }

  lemma SpelledHasMagnitude(notation: Notation, zeros: nat, n: nat)
    ensures var s := Spelled(notation, zeros, n);
            s != "" && IsDigit(10, s[0]) && Magnitude(s) == Some(n)
  {
    hide Numeral, Magnitude;
    match notation
    case InDecimal =>
      NumeralDenotes(10, false, n);
      DecimalMagnitude(n);
      assert Spelled(notation, zeros, n) == Numeral(10, false, n);
    case InOctal => OctalMagnitude(zeros, n);
    case InHex(_, upper) => HexMagnitude(Prefix(notation), upper, zeros, n);
  }

  /**
   White space, a sign, and a number in decimal, octal or hexadecimal, in either case, is read as
   that number if an int32 holds it, and refused otherwise.
  */
  lemma IntegersReadBack(space: string, sign: string, notation: Notation, zeros: nat, n: nat)
    requires AllSpace(space) && sign in {"", "+", "-"}
    ensures var v := if sign == "-" then 0 - n else n;
            ParseInt32(space + sign + Spelled(notation, zeros, n)) ==
              if -0x8000_0000 <= v <= 0x7fff_ffff then Some(v) else None
  {
    hide ParseInt32, Spelled;
    SpelledHasMagnitude(notation, zeros, n);
    SignedIsRead(space, sign, Spelled(notation, zeros, n), n);
  }

  lemma SignedIsRead(space: string, sign: string, s: string, n: nat)
    requires AllSpace(space) && sign in {"", "+", "-"}
    requires s != "" && IsDigit(10, s[0]) && Magnitude(s) == Some(n)
    ensures var v := if sign == "-" then 0 - n else n;
            ParseInt32(space + sign + s) == if -0x8000_0000 <= v <= 0x7fff_ffff then Some(v) else None
  {
    hide Magnitude;
    var t := sign + s;
    assert space + sign + s == space + t;
    assert t[0] == if sign == "" then s[0] else sign[0];
    SpaceIsSkipped(space, t);
    hide SkipSpace;
    assert t[|sign|..] == s;
  }

  lemma DecimalIsANumeral(n: nat)
    ensures Decimal(n) == Numeral(10, false, n) == Spelled(InDecimal, 0, n)
  {
  }

  /** In particular a minus sign negates. */
  lemma MinusNegates(n: nat)
    ensures ParseInt32("-" + Decimal(n)) == if n <= 0x8000_0000 then Some(0 - n) else None
    ensures ParseInt32("+" + Decimal(n)) == if n <= 0x7fff_ffff then Some(n) else None
  {
    hide ParseInt32, Decimal, Numeral;
    DecimalIsANumeral(n);
    IntegersReadBack("", "-", InDecimal, 0, n);
    IntegersReadBack("", "+", InDecimal, 0, n);
    assert "" + "-" + Decimal(n) == "-" + Decimal(n) && "" + "+" + Decimal(n) == "+" + Decimal(n);
  }

  /** A prefix and the digits of its base. */
  ghost predicate Notated(prefix: string, digits: string, base: nat) {
    || (base == 16 && prefix in {"0x", "0X"})
    || (base == 8 && prefix == "" && digits != "" && digits[0] == '0')
    || (base == 10 && prefix == "" && digits != "" && digits[0] != '0')
  }

  lemma MagnitudeIsNotated(u: string) returns (prefix: string, digits: string, base: nat)
    requires Magnitude(u).Some?
    ensures u == prefix + digits && Notated(prefix, digits, base) && ValueIn(base, digits) == Magnitude(u)
  {
    assert ValueIn(10, "").None? by { OnlyDigitsDenote(10, ""); }
    hide ValueIn;
    if |u| >= 3 && u[0] == '0' && (u[1] == 'x' || u[1] == 'X') && IsDigit(16, u[2]) {
      prefix, digits, base := u[..2], u[2..], 16;
      assert prefix == [u[0], u[1]];
    } else {
      prefix, digits, base := "", u, if u != "" && u[0] == '0' then 8 else 10;
    }
  }

  /** Nothing else is read: white space, at most one sign, a prefix and digits of its base, to the end. */
  lemma OnlyIntegersAreRead(s: string)
    returns (space: string, sign: string, prefix: string, digits: string, base: nat)
    requires ParseInt32(s).Some?
    ensures s == space + sign + prefix + digits && AllSpace(space) && sign in {"", "+", "-"}
    ensures Notated(prefix, digits, base) && ValueIn(base, digits).Some?
    ensures var m := ValueIn(base, digits).value; ParseInt32(s).value == if sign == "-" then 0 - m else m
  {
    hide ValueIn, Magnitude, Notated;
    space := SkippedSpace(s);
    var t := SkipSpace(s);
    sign := if t != "" && (t[0] == '-' || t[0] == '+') then t[..1] else "";
    assert sign == "" || sign == [t[0]];
    var u := t[|sign|..];
    prefix, digits, base := MagnitudeIsNotated(u);
    assert t == sign + u;
    hide ParseInt32, SkipSpace, AllSpace;
    Regroup(space, sign, prefix, digits);
  }

  lemma Regroup(a: string, b: string, c: string, d: string)
    ensures a + (b + (c + d)) == a + b + c + d
  {
  }

  lemma {:induction false} SkippedSpace(s: string) returns (space: string)
    ensures s == space + SkipSpace(s) && AllSpace(space)
  {
    if s != "" && IsSpace(s[0]) {
      space := SkippedSpace(s[1..]);
      space := [s[0]] + space;
    } else {
      space := "";
    }
  }

  /** Which words are booleans. */
  lemma BooleansInWords(s: string)
    ensures ParseBool(s) == Some(true) <==> s == "true" || s == "True" || s == "TRUE" || s == "1"
    ensures ParseBool(s) == Some(false) <==> s == "false" || s == "False" || s == "FALSE" || s == "0"
  {
    assert "true"[0] != "false"[0] && "True"[0] != "False"[0] && "1"[0] != "0"[0];
  }

  /** A profile with a negative port identity is refused. */
  lemma NegativeIdIsRefused(k: Kvp, i: nat, n: nat)
    requires i < Count(k, PORTS) && n > 0
    requires TextAt(k, Under(Item(PORTS, i), "id")) == "-" + Decimal(n)
    ensures ProfileFault(k).Some? && !(Complete(k) && Accepted(ConfigAt(k)))
  {
    hide ProfileFault, PortAccepted, ParseInt32, Decimal;
    MinusNegates(n);
    AcceptsExactlyTheValid(k);
    if Complete(k) && Accepted(ConfigAt(k)) {
      assert HasPort(k, Item(PORTS, i)) && PortsAt(k)[i] in ConfigAt(k).ports;
      AcceptedIdIsNatural(PortsAt(k)[i]);
      assert false;
    }
  }

  lemma AcceptedIdIsNatural(port: PortConfig)
    requires PortAccepted(port)
    ensures port.id >= 0
  {
  }
}
