/** Decimal numbers as the source prints and parses them: std::to_string, std::stoi, std::stol. */
module Numbers {
  import opened Words

  const NANOS: int := 1_000_000_000

  predicate IsDigit(c: char) { '0' <= c <= '9' }

  /** isspace in the C locale. */
  predicate IsSpace(c: char) { c == ' ' || '\t' <= c <= '\r' }

  predicate AllDigits(s: string)
  {
    forall i :: 0 <= i < |s| ==> IsDigit(s[i])
  }

  function Magnitude(s: string): nat
    requires AllDigits(s)
  {
    if s == "" then 0 else 10 * Magnitude(s[..|s| - 1]) + (s[|s| - 1] as int - '0' as int)
  }

  function ToString(n: nat): string
  {
    if n < 10 then [(n + '0' as int) as char] else ToString(n / 10) + [(n % 10 + '0' as int) as char]
  }

  /** The length of the leading run of digits. */
  function DigitRun(s: string): (k: nat)
    ensures k <= |s| && AllDigits(s[..k]) && (k < |s| ==> !IsDigit(s[k]))
  {
    if s == "" || !IsDigit(s[0]) then 0
    else
      var k := DigitRun(s[1..]);
      assert s[..k + 1] == [s[0]] + s[1..][..k];
      k + 1
  }

  function SkipSpaces(s: string): string
  {
    if s != "" && IsSpace(s[0]) then SkipSpaces(s[1..]) else s
  }

  /** strtol: blanks, an optional sign, then digits; anything after the digits is ignored. */
  function ParseInteger(s: string): Option<int>
  {
    var t := SkipSpaces(s);
    var signed := t != "" && (t[0] == '-' || t[0] == '+');
    var u := if signed then t[1..] else t;
    var k := DigitRun(u);
    if k == 0 then None
    else if signed && t[0] == '-' then Some(0 - Magnitude(u[..k]) as int)
    else Some(Magnitude(u[..k]))
  }

  /** std::stoi; None stands for either of its exceptions. */
  function Stoi(s: string): Option<int>
  {
    var r := ParseInteger(s);
    if r.Some? && -0x8000_0000 <= r.value < 0x8000_0000 then r else None
  }

  /** std::stol on a 64-bit long. */
  function Stol(s: string): Option<int>
  {
    var r := ParseInteger(s);
    if r.Some? && -0x8000_0000_0000_0000 <= r.value < 0x8000_0000_0000_0000 then r else None
  }

  lemma {:induction false} ToStringDigits(n: nat)
    ensures ToString(n) != "" && AllDigits(ToString(n)) && Magnitude(ToString(n)) == n
  {
    var s := ToString(n);
    if n < 10 {
      assert s[..0] == "";
    } else {
      ToStringDigits(n / 10);
      assert s[..|s| - 1] == ToString(n / 10);
    }
  }

  lemma ParsePrinted(n: nat)
    ensures ParseInteger(ToString(n)) == Some(n)
    ensures n < 0x8000_0000 ==> Stoi(ToString(n)) == Some(n)
  {
    ToStringDigits(n);
    var s := ToString(n);
    assert IsDigit(s[0]);
    assert s[..|s|] == s;
  }

  /** No leading zeros. */
  lemma {:induction false} ToStringPlain(n: nat)
    ensures |ToString(n)| >= 1 && (ToString(n)[0] == '0' <==> n == 0) && (n < 10 <==> |ToString(n)| == 1)
  {
    if n >= 10 { ToStringPlain(n / 10); }
  }

  // ----- the parsers on every text

  /** The digits, and the six characters isspace accepts. */
  lemma CharacterClasses(c: char)
    ensures IsDigit(c) <==> c in "0123456789"
    ensures IsSpace(c) <==> c in [' ', '\t', '\n', '\U{0B}', '\U{0C}', '\r']
  {
    var ds := "0123456789";
    if IsDigit(c) { assert ds[c as int - 48] == c; }
  }

  function Power(n: nat): nat { if n == 0 then 1 else 10 * Power(n - 1) }

  lemma MagnitudeSnoc(s: string, c: char)
    requires AllDigits(s) && IsDigit(c)
    ensures AllDigits(s + [c]) && Magnitude(s + [c]) == 10 * Magnitude(s) + (c as int - '0' as int)
  {
    assert (s + [c])[..|s|] == s;
  }

  lemma ShiftLeft(m: nat, p: nat)
    ensures m * (10 * p) == 10 * (m * p)
  {
  }

  /** Positional value: leading zeros add nothing. */
  lemma {:induction false} MagnitudeAppend(a: string, b: string)
    requires AllDigits(a) && AllDigits(b)
    ensures AllDigits(a + b) && Magnitude(a + b) == Magnitude(a) * Power(|b|) + Magnitude(b)
    decreases |b|
  {
    if b == "" {
      assert a + b == a;
    } else {
      hide Magnitude, IsDigit;
      var q, c := b[..|b| - 1], b[|b| - 1];
      assert b == q + [c] && a + b == a + q + [c];
      MagnitudeAppend(a, q);
      MagnitudeSnoc(q, c);
      MagnitudeSnoc(a + q, c);
      ShiftLeft(Magnitude(a), Power(|q|));
    }
  }

  lemma MagnitudeOfDigit(n: nat)
    requires n < 10
    ensures AllDigits(["0123456789"[n]]) && Magnitude(["0123456789"[n]]) == n
  {
    assert ["0123456789"[n]][..0] == "";
  }

  /** Text strtol accepts: blanks, at most one sign, at least one digit, and then no further digit. */
  ghost predicate Numeral(s: string, blanks: string, sign: string, digits: string, rest: string)
  {
    s == blanks + sign + digits + rest && (forall i :: 0 <= i < |blanks| ==> IsSpace(blanks[i]))
    && (sign == "" || sign == "+" || sign == "-")
    && digits != "" && AllDigits(digits) && (rest == "" || !IsDigit(rest[0]))
  }

  lemma {:induction false} SkipBlanks(blanks: string, t: string)
    requires (forall i :: 0 <= i < |blanks| ==> IsSpace(blanks[i])) && (t == "" || !IsSpace(t[0]))
    ensures SkipSpaces(blanks + t) == t
  {
    if blanks == "" {
      assert blanks + t == t;
    } else {
      SkipBlanks(blanks[1..], t);
      assert (blanks + t)[1..] == blanks[1..] + t;
    }
  }

  lemma {:induction false} RunOf(digits: string, rest: string)
    requires AllDigits(digits) && (rest == "" || !IsDigit(rest[0]))
    ensures DigitRun(digits + rest) == |digits|
  {
    if digits == "" {
      assert digits + rest == rest;
    } else {
      RunOf(digits[1..], rest);
      assert (digits + rest)[1..] == digits[1..] + rest;
    }
  }

  /** The value of a numeral, whatever surrounds its digits. */
  lemma NumeralValue(s: string, blanks: string, sign: string, digits: string, rest: string)
    requires Numeral(s, blanks, sign, digits, rest)
    ensures ParseInteger(s) == Some(if sign == "-" then 0 - Magnitude(digits) as int else Magnitude(digits) as int)
  {
    hide Magnitude, DigitRun, SkipSpaces;
    var u := digits + rest;
    var t := sign + u;
    assert u[0] == digits[0] && s == blanks + t;
    SkipBlanks(blanks, t);
    RunOf(digits, rest);
    assert u[..|digits|] == digits;
    assert sign != "" ==> t[0] == sign[0] && t[1..] == u;
    assert sign == "" ==> t == u;
  }

  lemma {:induction false} SkippedBlanks(s: string) returns (blanks: string)
    ensures s == blanks + SkipSpaces(s) && forall i :: 0 <= i < |blanks| ==> IsSpace(blanks[i])
  {
    if s != "" && IsSpace(s[0]) {
      var more := SkippedBlanks(s[1..]);
      blanks := [s[0]] + more;
    } else {
      blanks := "";
    }
  }

  lemma SignAndDigits(t: string) returns (sign: string, digits: string, rest: string)
    requires DigitRun(if t != "" && (t[0] == '-' || t[0] == '+') then t[1..] else t) > 0
    ensures t == sign + (digits + rest) && (sign == "" || sign == "+" || sign == "-")
    ensures digits != "" && AllDigits(digits) && (rest == "" || !IsDigit(rest[0]))
  {
    hide DigitRun, IsDigit;
    var signed := t != "" && (t[0] == '-' || t[0] == '+');
    sign := if signed then [t[0]] else "";
    var u := if signed then t[1..] else t;
    var k := DigitRun(u);
    digits, rest := u[..k], u[k..];
    assert u == digits + rest;
  }

  lemma NumeralOf(s: string) returns (blanks: string, sign: string, digits: string, rest: string)
    requires ParseInteger(s).Some?
    ensures Numeral(s, blanks, sign, digits, rest)
  {
    hide Magnitude, SkipSpaces, DigitRun, IsDigit, AllDigits, IsSpace;
    blanks := SkippedBlanks(s);
    sign, digits, rest := SignAndDigits(SkipSpaces(s));
    assert blanks + (sign + (digits + rest)) == blanks + sign + digits + rest;
  }

  /** Everything else is no number. */
  lemma ParsesIffNumeral(s: string)
    ensures ParseInteger(s).Some? <==> exists blanks, sign, digits, rest :: Numeral(s, blanks, sign, digits, rest)
  {
    hide ParseInteger, Numeral;
    if ParseInteger(s).Some? {
      var blanks, sign, digits, rest := NumeralOf(s);
    }
    forall blanks, sign, digits, rest | Numeral(s, blanks, sign, digits, rest) ensures ParseInteger(s).Some? {
      NumeralValue(s, blanks, sign, digits, rest);
    }
  }

  /** stoi and stol give the number if it fits an int, or a long of 64 bits. */
  lemma ParserBounds(s: string)
    ensures Stoi(s) == match ParseInteger(s)
                       case None => None
                       case Some(x) => if -2147483648 <= x <= 2147483647 then Some(x) else None
    ensures Stol(s) == match ParseInteger(s)
                       case None => None
                       case Some(x) =>
                         if -9223372036854775808 <= x <= 9223372036854775807 then Some(x) else None
  {
  }

  /** std::to_string of a signed number. */
  function Printed(x: int): string
  {
    if x < 0 then "-" + ToString(-x) else ToString(x)
  }

  /** Reading a printed number gives it back exactly when it fits. */
  lemma ParsePrintedSigned(x: int)
    ensures ParseInteger(Printed(x)) == Some(x)
    ensures Stoi(Printed(x)) == if -2147483648 <= x <= 2147483647 then Some(x) else None
    ensures Stol(Printed(x)) == if -9223372036854775808 <= x <= 9223372036854775807 then Some(x) else None
  {
    hide ToString, Magnitude, ParseInteger;
    var digits := ToString(if x < 0 then -x else x);
    var sign := if x < 0 then "-" else "";
    ToStringDigits(if x < 0 then -x else x);
    assert Printed(x) == "" + sign + digits + "";
    NumeralValue(Printed(x), "", sign, digits, "");
  }

  lemma DigitsContainNo(s: string, d: string)
    requires AllDigits(s) && d != "" && !IsDigit(d[0])
    ensures !Contains(s, d)
  {
    forall i ensures !At(s, d, i) {
      if 0 <= i && i + |d| <= |s| { assert s[i..i + |d|][0] == s[i]; }
    }
  }

  // ----- time values

  /** Seconds(s) + NanoSeconds(n) as a number of nanoseconds. */
  function Stamp(s: int, n: int): int { s * NANOS + n }

  /** The documented range: signed 32-bit seconds, and nanoseconds in [0, 10e9). */
  predicate WireTime(s: int, n: int)
  {
    -0x8000_0000 <= s < 0x8000_0000 && 0 <= n < 10 * NANOS
  }

  predicate FitsInt64(x: int) { -0x8000_0000_0000_0000 <= x < 0x8000_0000_0000_0000 }

  predicate Before(s0: int, n0: int, s1: int, n1: int) { s0 < s1 || (s0 == s1 && n0 < n1) }

  /** On the documented range nothing overflows. Order is lexicographic once whole seconds have been
      carried over; a stamp is the terminate signal iff its nanoseconds do not make up for negative seconds. */
  lemma StampArithmetic(s0: int, n0: int, s1: int, n1: int)
    requires WireTime(s0, n0) && WireTime(s1, n1)
    ensures FitsInt64(Stamp(s1, n1)) && (Stamp(s0, n0) >= 0 ==> FitsInt64(Stamp(s1, n1) - Stamp(s0, n0)))
    ensures Stamp(s0, n0) < Stamp(s1, n1)
       <==> Before(s0 + n0 / NANOS, n0 % NANOS, s1 + n1 / NANOS, n1 % NANOS)
    ensures Stamp(s1, n1) < 0 <==> s1 < 0 && n1 < -s1 * NANOS
  {
    var d := (s1 + n1 / NANOS) - (s0 + n0 / NANOS);
    assert Stamp(s1, n1) - Stamp(s0, n0) == d * NANOS + (n1 % NANOS - n0 % NANOS);
  }

  /** With less than a second of nanoseconds, as in ROS 2, the pairs themselves compare, and the
      seconds alone decide. */
  lemma SplitSeconds(s0: int, n0: int, s1: int, n1: int)
    requires WireTime(s0, n0) && WireTime(s1, n1) && n0 < NANOS && n1 < NANOS
    ensures Stamp(s0, n0) < Stamp(s1, n1) <==> Before(s0, n0, s1, n1)
    ensures Stamp(s0, n0) == Stamp(s1, n1) <==> s0 == s1 && n0 == n1
    ensures Stamp(s1, n1) < 0 <==> s1 < 0
  {
    StampArithmetic(s0, n0, s1, n1);
  }

  /** Minus one second and a billion nanoseconds is inside the documented range and terminates nothing. */
  lemma NegativeSecondsMayContinue()
    ensures WireTime(-1, NANOS) && Stamp(-1, NANOS) == 0
  {
  }
}
