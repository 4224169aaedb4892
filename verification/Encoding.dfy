/** Messages as the simple server prints them: a stamp of whole seconds, then decimal fields. */
module Encoding {
  import opened Words
  import opened Numbers
  import opened Framing
  import opened GatewayEffects
  import opened GatewayRuns

  const SP := " "
  const CRLF := "\r\n"
  const C := Delimiters(SP, CRLF)

  ghost predicate DigitFields(fields: seq<string>)
  {
    forall v :: v in fields ==> AllDigits(v)
  }

  lemma DigitsAreClean(v: string)
    requires AllDigits(v)
    ensures Clean(v, SP, CRLF)
  {
    DigitsContainNo(v, SP);
    DigitsContainNo(v, CRLF);
  }

  lemma FieldsAreClean(fields: seq<string>)
    requires DigitFields(fields)
    ensures forall v :: v in fields ==> Clean(v, SP, CRLF)
  {
    forall v | v in fields ensures Clean(v, SP, CRLF) { DigitsAreClean(v); }
  }

  /** Any message: the whole header, both numbers and all fields, comes through; the header is valid
      exactly when the seconds fit an int and the nanoseconds a long. */
  lemma ParseHeader(seconds: int, nanoseconds: int, fields: seq<string>)
    requires forall v :: v in fields ==> !Contains(v, SP)
    ensures Parse(Join([Printed(seconds), Printed(nanoseconds)] + fields, SP), SP)
         == if -2147483648 <= seconds <= 2147483647
               && -9223372036854775808 <= nanoseconds <= 9223372036854775807
            then Some(Header(seconds * 1_000_000_000 + nanoseconds, fields)) else None
  {
    hide Split, Join, Printed, Stoi, Stol, Contains;
    var all := [Printed(seconds), Printed(nanoseconds)] + fields;
    PrintedContainsNo(seconds, SP);
    PrintedContainsNo(nanoseconds, SP);
    SplitJoin(all, SP);
    ParsePrintedSigned(seconds);
    ParsePrintedSigned(nanoseconds);
    assert all[2..] == fields;
  }

  lemma PrintedContainsNo(x: int, d: string)
    requires d != "" && !IsDigit(d[0]) && d[0] != '-'
    ensures !Contains(Printed(x), d)
  {
    hide ToString;
    var v := Printed(x);
    ToStringDigits(if x < 0 then -x else x);
    forall i ensures !At(v, d, i) {
      if 0 <= i && i + |d| <= |v| { assert v[i..i + |d|][0] == v[i]; }
    }
  }

  lemma PrintedSmall()
    ensures Printed(0) == "0" && Printed(-1) == "-1"
  {
  }

  /** A message of whole seconds is parsed to its stamp and its remaining fields exactly when the
      seconds fit a 32-bit int; beyond that its header is invalid. */
  lemma ParseSeconds(seconds: nat, fields: seq<string>)
    requires DigitFields(fields)
    ensures Parse(Join([ToString(seconds), "0"] + fields, SP), SP)
         == if seconds < 0x8000_0000 then Some(Header(seconds * NANOS, fields)) else None
  {
    hide Split, Join, ToString, Contains, Parse;
    PrintedSmall();
    FieldsAreClean(fields);
    assert forall v :: v in fields ==> Clean(v, SP, CRLF) ==> !Contains(v, SP);
    ParseHeader(seconds, 0, fields);
  }

  /** The server's terminate message. */
  lemma ParseTerminate()
    ensures Parse(Join(["-1", "0"], SP), SP) == Some(Header(-NANOS, []))
    ensures Clean("-1", SP, CRLF) && Clean("0", SP, CRLF)
  {
    hide Split, Join, Contains, Parse, ToString;
    PrintedSmall();
    PrintedContainsNo(-1, SP);
    PrintedContainsNo(-1, CRLF);
    PrintedContainsNo(0, SP);
    PrintedContainsNo(0, CRLF);
    ParseHeader(-1, 0, []);
    assert ["-1", "0"] + [] == ["-1", "0"];
  }
}
