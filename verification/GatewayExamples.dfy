/** The exact rules at concrete streams, in the format of the example server: messages of whole seconds
    without values. */
module GatewayExamples {
  import opened Words
  import opened Numbers
  import opened Framing
  import opened Events
  import opened GatewayEffects
  import opened GatewayRuns
  import opened GatewayTheorems
  import opened GatewayOrder
  import opened GatewayProgress
  import opened GatewayBurst
  import opened GatewayExact
  import opened GatewayFreeze
  import opened Encoding

  function Stamps(ns: seq<nat>): seq<seq<string>>
  {
    if ns == [] then [] else [[ToString(ns[0]), "0"]] + Stamps(ns[1..])
  }

  /** The bytes of messages with these stamps, in seconds. */
  function Wire(ns: seq<nat>): string
  {
    Print(Stamps(ns), SP, CRLF)
  }

  function Seconds(ns: seq<nat>): (r: seq<Header>)
    ensures |r| == |ns| && forall i :: 0 <= i < |ns| ==> r[i] == Header(ns[i] * NANOS, [])
  {
    seq(|ns|, i requires 0 <= i < |ns| => Header(ns[i] * NANOS, []))
  }

  lemma {:induction false} StampsAt(ns: seq<nat>, i: nat)
    requires i < |ns|
    ensures |Stamps(ns)| == |ns| && Stamps(ns)[i] == [ToString(ns[i]), "0"]
  {
    hide ToString;
    if |ns| > 1 { StampsAt(ns[1..], if i > 0 then i - 1 else 0); }
  }

  lemma {:induction false} JoinedStamps(ns: seq<nat>, i: nat)
    requires i < |ns|
    ensures |Joined(Stamps(ns), SP)| == |ns| && Joined(Stamps(ns), SP)[i] == Join([ToString(ns[i]), "0"], SP)
  {
    hide ToString, Join;
    if |ns| > 1 { JoinedStamps(ns[1..], if i > 0 then i - 1 else 0); }
  }

  lemma OneStamp(n: nat)
    requires n < 0x8000_0000
    ensures Parse(Join([ToString(n), "0"], SP), SP) == Some(Header(n * NANOS, []))
    ensures forall v :: v in [ToString(n), "0"] ==> Clean(v, SP, CRLF)
  {
    ParseSeconds(n, []);
    assert [ToString(n), "0"] + [] == [ToString(n), "0"];
    ToStringDigits(n);
    FieldsAreClean([ToString(n), "0"]);
  }

  /** What the gateway reads from such a stream. */
  lemma WireFacts(ns: seq<nat>)
    requires forall n :: n in ns ==> n < 0x8000_0000
    ensures AllAccepted(SP, Messages(Wire(ns), CRLF)) && ServedMessages(C, Wire(ns)) == Messages(Wire(ns), CRLF)
    ensures StreamHeaders(C, Wire(ns)) == Seconds(ns) && Remainder(Wire(ns), CRLF) == ""
  {
    hide Split, Join, Accepted, Parse, ToString, Contains, Served;
    var rs := Stamps(ns);
    forall r | r in rs ensures r != [] && forall v :: v in r ==> Clean(v, SP, CRLF) {
      StampsLength(ns);
      var i :| 0 <= i < |rs| && rs[i] == r;
      StampsAt(ns, i);
      assert ns[i] in ns;
      OneStamp(ns[i]);
    }
    DefaultsQualify();
    MessagesOfPrint(rs, SP, CRLF);
    var ms := Messages(Wire(ns), CRLF);
    StampsLength(ns);
    forall i | 0 <= i < |ns| ensures Parse(ms[i], SP) == Some(Header(ns[i] * NANOS, [])) {
      JoinedStamps(ns, i);
      assert ns[i] in ns;
      OneStamp(ns[i]);
    }
    assert AllAccepted(SP, ms) by { forall i | 0 <= i < |ms| ensures AcceptedOne(SP, ms[i]) {} }
    AcceptedAll(SP, ms);
    ServedWhole(SP, ms);
  }

  lemma {:induction false} StampsLength(ns: seq<nat>)
    ensures |Stamps(ns)| == |ns| && |Joined(Stamps(ns), SP)| == |ns|
  {
    hide ToString, Join;
    if ns != [] { StampsLength(ns[1..]); }
  }

  /** The terminate message and whatever is sent after it change nothing: a server that ends its stream as
      it should is judged by the messages before. */
  lemma TerminateEndsStream(ns: seq<nat>, tail: string)
    requires forall n :: n in ns ==> n < 0x8000_0000
    ensures var w := Wire(ns) + (Join(["-1", "0"], SP) + CRLF + tail);
            ServedMessages(C, w) == Messages(Wire(ns), CRLF) && StreamHeaders(C, w) == Seconds(ns)
  {
    hide Split, Join, Accepted, Parse, ToString, Contains, Served, Wire, AllAccepted, Clean;
    var last := ["-1", "0"];
    var z := Join(last, SP) + CRLF + tail;
    WireFacts(ns);
    ParseTerminate();
    DefaultsQualify();
    SplitPrinted(last, SP, CRLF, tail);
    MessagesAppend(Wire(ns), z, CRLF);
    assert "" + z == z;
    ServedAppend(SP, Messages(Wire(ns), CRLF), Messages(z, CRLF));
    ServedFacts(SP, Messages(z, CRLF));
    assert !AcceptedOne(SP, Messages(z, CRLF)[0]);
    NothingServed(SP, Messages(z, CRLF));
    assert Messages(Wire(ns), CRLF) + [] == Messages(Wire(ns), CRLF);
  }

  lemma NothingServed(f: string, ms: seq<string>)
    requires f != "" && ms != [] && !AcceptedOne(f, ms[0])
    ensures Served(f, ms) == []
  {
  }

  /** A stream is good if its stamps never decrease and no grant is before Connect. */
  lemma WireIsGood(ns: seq<nat>, start: int)
    requires forall n :: n in ns ==> n < 0x8000_0000
    requires forall i, j :: 0 <= i < j < |ns| ==> ns[i] <= ns[j]
    requires forall i :: 1 <= i < |ns| ==> (ns[i] - ns[0]) * NANOS >= start
    ensures GoodStream(C, Wire(ns), start)
  {
    hide Accepted, Split, AllAccepted, Wire;
    WireFacts(ns);
    forall i, j ensures LaterStamp(Seconds(ns), i, j) {}
  }

  // ----- README.md of the repository: Connect at 5 s, then stamps 10 s and 11 s

  /** The documentation has the simulation advance to 6 s. In truth the second message asks for 1 s:
      some run ends in the error, and no run at all processes that message. */
  lemma DocumentedExample(s0: System)
    requires Initial(s0) && s0.start == 5 * NANOS
    ensures exists run, s ::
              Reached(C, s0, run, s) && s.received == Wire([10, 11]) && s.fatal == Some(TimestampsNotIncreasing)
    ensures !exists run, s :: Reached(C, s0, run, s) && s.fatal.None? && s.popped == Messages(Wire([10, 11]), CRLF)
  {
    hide Accepted, Split, Initial, Wire, AllAccepted, Feasible, End;
    var w, hs := Wire([10, 11]), Seconds([10, 11]);
    WireFacts([10, 11]);
    assert hs[1].stamp - hs[0].stamp == NANOS;
    assert InTimeFrom(hs[..1], s0.start);
    var run, s := LateRun(C, s0, w, 1);
    assert Reached(C, s0, run, s);
    AcceptableIff(C, s0, w);
    assert !InTimeFrom(hs, s0.start);
  }

  /** With Connect at 1 s and stamps 10 s and 15 s the update runs at 5 s; relative to Connect it would
      be 6 s. */
  lemma AbsoluteTimes(s0: System) returns (run: seq<Action>, s: System)
    requires Initial(s0) && s0.start == NANOS
    ensures Reached(C, s0, run, s) && s.fatal.None? && s.popped == Messages(Wire([10, 15]), CRLF)
    ensures s.delivered == [Delivery(true, NANOS, []), Delivery(false, 5 * NANOS, [])]
  {
    hide Accepted, Split, Initial, Wire, AllAccepted, Due, GoodStream, Seconds, Feasible, End, ServedMessages,
         StreamHeaders;
    WireFacts([10, 15]);
    WireIsGood([10, 15], NANOS);
    run, s := EverythingIsDelivered(C, s0, Wire([10, 15]));
    TwoDue(s0.start);
  }

  lemma TwoDue(start: int)
    ensures Due(start, Seconds([10, 15])) == [Delivery(true, start, []), Delivery(false, 5 * NANOS, [])]
  {
    hide Due;
    var hs := Seconds([10, 15]);
    DueAt(start, hs, 0);
    DueAt(start, hs, 1);
  }

  /** Stamps 0, 2 and 1 s: all three messages are processed in some run, and the error is raised in
      another. */
  lemma DecreasingStamps(s0: System)
    requires Initial(s0) && s0.start == 0
    ensures exists run, s :: Reached(C, s0, run, s) && s.fatal.None? && s.popped == Messages(Wire([0, 2, 1]), CRLF)
    ensures exists run, s ::
              Reached(C, s0, run, s) && s.received <= Wire([0, 2, 1]) && s.fatal == Some(TimestampsNotIncreasing)
  {
    hide Accepted, Split, Initial, Wire, AllAccepted, Feasible, End;
    var w, hs := Wire([0, 2, 1]), Seconds([0, 2, 1]);
    WireFacts([0, 2, 1]);
    assert InTimeFrom(hs, 0);
    AcceptableIff(C, s0, w);
    assert !LaterStamp(hs, 1, 2);
    AlarmUnreachableIff(C, s0, w);
  }

  /** Stamps 0, 0, 0 and 1 s: the clock stays at 0 although 1 s has been granted. */
  lemma RepeatedStamps(s0: System) returns (run: seq<Action>, s: System)
    requires Initial(s0) && s0.start == 0
    ensures Reached(C, s0, run, s) && s.popped == Messages(Wire([0, 0, 0, 1]), CRLF)
    ensures Stuck(C, s) && s.g.timePause == NANOS
  {
    hide Accepted, Split, Initial, Wire, Served, GoodStream;
    WireFacts([0, 0, 0, 1]);
    WireIsGood([0, 0, 0, 1], 0);
    assert RepeatedAt(Seconds([0, 0, 0, 1]), 1);
    run, s := StuckRun(C, s0, Wire([0, 0, 0, 1]), 1);
  }

  /** Stamps 0, 0, 1 and 2 s are harmless: the first message schedules no update. */
  lemma FirstStampTwice(s0: System, run: seq<Action>, s: System)
    requires Initial(s0) && s0.start == 0
    requires Reached(C, s0, run, s) && s.received <= Wire([0, 0, 1, 2]) && s.fatal.None? && s.g.state == CONNECTED
    ensures |Of(s, Wait)| <= 1
  {
    hide Accepted, Split, Initial, Wire, Served, GoodStream, Feasible, End, Select;
    var hs := Seconds([0, 0, 1, 2]);
    WireFacts([0, 0, 1, 2]);
    WireIsGood([0, 0, 1, 2], 0);
    forall i, j ensures LaterStamp(hs, i, j) && EarlierStamp(hs, i, j) {}
    OneWaitIff(C, s0, Wire([0, 0, 1, 2]));
  }
}
