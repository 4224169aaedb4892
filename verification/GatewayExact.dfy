/** What a server may send, exactly: for every stream, which rule on its stamps keeps the error away,
    keeps a second wait event away, and lets every grant release the clock. */
module GatewayExact {
  import opened Words
  import opened Framing
  import opened Events
  import opened GatewayEffects
  import opened GatewayRuns
  import opened GatewayThread
  import opened GatewayInvariants
  import opened GatewayTheorems
  import opened GatewayOrder
  import opened GatewayProgress
  import opened GatewaySteering
  import opened GatewayBurst
  import opened GatewayWaits

  /** The messages of a stream that the gateway processes, and their headers. */
  function ServedMessages(c: Delimiters, w: string): seq<string>
    requires GoodDelimiters(c)
  {
    Served(c.f, Messages(w, c.m))
  }

  function StreamHeaders(c: Delimiters, w: string): seq<Header>
    requires GoodDelimiters(c)
  {
    Accepted(c.f, ServedMessages(c, w))
  }

  // ----- prefixes of a stream

  lemma {:induction false} ReceivedGrowsAlong(c: Delimiters, s: System, run: seq<Action>)
    requires GoodDelimiters(c)
    ensures s.received <= End(c, s, run).received
    decreases |run|
  {
    hide Apply;
    if run != [] {
      ReceivedGrows(c, s, run[0]);
      ReceivedGrowsAlong(c, Apply(c, s, run[0]), run[1..]);
    }
  }

  lemma {:induction false} StartIsFixedAlong(c: Delimiters, s: System, run: seq<Action>)
    requires GoodDelimiters(c)
    ensures End(c, s, run).start == s.start
    decreases |run|
  {
    hide Apply;
    if run != [] {
      StartIsFixed(c, s, run[0]);
      StartIsFixedAlong(c, Apply(c, s, run[0]), run[1..]);
    }
  }

  lemma AcceptedPrefix(f: string, a: seq<string>, b: seq<string>)
    requires f != "" && a <= b
    ensures Accepted(f, a) <= Accepted(f, b)
  {
    hide Accepted;
    assert b == a + b[|a|..];
    AcceptedConcat(f, a, b[|a|..]);
  }

  lemma PrefixStream(c: Delimiters, x: string, w: string)
    requires GoodDelimiters(c) && x <= w
    ensures ServedMessages(c, x) <= ServedMessages(c, w) && StreamHeaders(c, x) <= StreamHeaders(c, w)
  {
    hide Accepted, Split, Served;
    var y := w[|x|..];
    assert w == x + y;
    MessagesAppend(x, y, c.m);
    ServedAppend(c.f, Messages(x, c.m), Messages(Remainder(x, c.m) + y, c.m));
    AcceptedPrefix(c.f, ServedMessages(c, x), ServedMessages(c, w));
  }

  /** Message by message: the headers of a stream. */
  lemma ServedHeaders(c: Delimiters, w: string)
    requires GoodDelimiters(c)
    ensures ServedMessages(c, w) <= Messages(w, c.m) && |StreamHeaders(c, w)| == |ServedMessages(c, w)|
    ensures forall i :: 0 <= i < |StreamHeaders(c, w)| ==>
              AcceptedOne(c.f, Messages(w, c.m)[i]) && Parse(Messages(w, c.m)[i], c.f) == Some(StreamHeaders(c, w)[i])
  {
    hide Accepted, Split, Parse, Served;
    var served := ServedMessages(c, w);
    ServedFacts(c.f, Messages(w, c.m));
    AcceptedAll(c.f, served);
    assert forall i :: 0 <= i < |served| ==> AcceptedOne(c.f, served[i]) && served[i] == Messages(w, c.m)[i];
  }

  // ----- what a run processes

  /** No terminate message was processed, unless it was the last one. */
  ghost predicate OnlyServed(c: Delimiters, s: System)
    requires GoodDelimiters(c)
  {
    match s.fatal
    case Some(_) => true
    case None =>
      AllAccepted(c.f, s.popped)
      || (s.g.halted && s.popped != [] && AllAccepted(c.f, Init(s.popped))
          && Accepted(c.f, s.popped) == Accepted(c.f, Init(s.popped)))
  }

  lemma AllAcceptedSnoc(f: string, ms: seq<string>, msg: string)
    requires f != "" && AllAccepted(f, ms) && AcceptedOne(f, msg)
    ensures AllAccepted(f, ms + [msg])
  {
    forall i | 0 <= i < |ms| + 1 ensures AcceptedOne(f, (ms + [msg])[i]) {
      if i < |ms| { assert AcceptedOne(f, ms[i]); }
    }
  }

  lemma OnlyServedStep(c: Delimiters, s: System, a: Action)
    requires GoodDelimiters(c) && Inv(c, s) && OnlyServed(c, s) && Enabled(c, s, a)
    ensures OnlyServed(c, Apply(c, s, a))
  {
    hide Split, Select, Without, Parse, Accepted, Find, Core, AllAccepted;
    if a.Execute? && a.e.event.ForwardUp? {
      CoreOf(c, s);
      ForwardCases(c, s, a.e);
      if Apply(c, s, a).fatal.None? { ForwardServes(c, s, a.e, NextHeader(c, s).value); }
    } else {
      SamePopped(c, s, a);
    }
  }

  lemma ForwardServes(c: Delimiters, s: System, e: Entry, h: Header)
    requires GoodDelimiters(c) && OnlyServed(c, s) && Enabled(c, s, Execute(e)) && e.event.ForwardUp?
    requires s.g.queue != [] && NextHeader(c, s) == Some(h) && Apply(c, s, Execute(e)).fatal.None?
    requires AllAccepted(c.f, s.popped) || s.g.halted
    ensures OnlyServed(c, Apply(c, s, Execute(e)))
  {
    hide Split, Select, Without, Parse, Accepted, AllAccepted;
    var msg := s.g.queue[0];
    ForwardApplies(c, s, e, h);
    AcceptedAppend(c.f, s.popped, msg);
    assert Init(s.popped + [msg]) == s.popped;
    if h.stamp >= 0 { AllAcceptedSnoc(c.f, s.popped, msg); }
  }

  lemma SamePopped(c: Delimiters, s: System, a: Action)
    requires GoodDelimiters(c) && !(a.Execute? && a.e.event.ForwardUp?)
    ensures Apply(c, s, a).popped == s.popped && Apply(c, s, a).fatal == s.fatal
    ensures s.g.halted ==> Apply(c, s, a).g.halted
  {
    hide Split, Select, Without, Parse, Find;
  }

  lemma {:induction false} OnlyServedAlong(c: Delimiters, s: System, run: seq<Action>)
    requires GoodDelimiters(c) && Inv(c, s) && OnlyServed(c, s) && Feasible(c, s, run)
    ensures OnlyServed(c, End(c, s, run))
    decreases |run|
  {
    hide Inv, Apply, OnlyServed, Enabled;
    if run != [] {
      StepKeeps(c, s, run[0]);
      OnlyServedStep(c, s, run[0]);
      OnlyServedAlong(c, Apply(c, s, run[0]), run[1..]);
    }
  }

  lemma InitialServes(c: Delimiters, s0: System)
    requires GoodDelimiters(c) && Initial(s0)
    ensures Inv(c, s0) && OnlyServed(c, s0) && s0.fatal.None? && Headers(c, s0) == []
  {
    hide Inv;
    InitialInv(c, s0);
  }

  lemma TakenServed(c: Delimiters, s: System, ms: seq<string>, rest: seq<string>, w: string)
    requires GoodDelimiters(c) && Inv(c, s) && s.fatal.None? && s.received <= w && s.popped + s.g.queue == ms + rest
    requires AllAccepted(c.f, ms)
    ensures ms <= ServedMessages(c, w) && Accepted(c.f, ms) <= StreamHeaders(c, w)
  {
    hide Accepted, Split, Core, Served, AllAccepted;
    FramedMessages(c.m, s.popped + s.g.queue, Unframed(s), s.received);
    assert Messages(s.received, c.m) == ms + (rest + Messages(Unframed(s), c.m));
    ServedAppend(c.f, ms, rest + Messages(Unframed(s), c.m));
    PrefixStream(c, s.received, w);
    AcceptedPrefix(c.f, ms, ServedMessages(c, w));
  }

  /** The headers processed are the first headers of the stream. */
  lemma HeadersOfStream(c: Delimiters, s: System, w: string)
    requires GoodDelimiters(c) && Inv(c, s) && OnlyServed(c, s) && s.fatal.None? && s.received <= w
    ensures Headers(c, s) <= StreamHeaders(c, w)
  {
    hide Accepted, Inv, ServedMessages, StreamHeaders, AllAccepted;
    if AllAccepted(c.f, s.popped) {
      TakenServed(c, s, s.popped, s.g.queue, w);
    } else {
      assert s.popped == Init(s.popped) + [Last(s.popped)];
      assert s.popped + s.g.queue == Init(s.popped) + ([Last(s.popped)] + s.g.queue);
      TakenServed(c, s, Init(s.popped), [Last(s.popped)] + s.g.queue, w);
    }
  }

  /** So is the next one. */
  lemma NextOfStream(c: Delimiters, s: System, w: string)
    requires GoodDelimiters(c) && Inv(c, s) && OnlyServed(c, s) && s.fatal.None? && !s.g.halted && s.received <= w
    requires NextHeader(c, s).Some? && NextHeader(c, s).value.stamp >= 0
    ensures Headers(c, s) + [NextHeader(c, s).value] <= StreamHeaders(c, w)
  {
    hide Accepted, Inv, ServedMessages, StreamHeaders, AllAccepted, Parse;
    var msg := s.g.queue[0];
    assert s.popped + s.g.queue == (s.popped + [msg]) + s.g.queue[1..];
    AllAcceptedSnoc(c.f, s.popped, msg);
    TakenServed(c, s, s.popped + [msg], s.g.queue[1..], w);
    AcceptedAppend(c.f, s.popped, msg);
  }

  // ----- the "not increasing" error

  lemma AlarmStep(c: Delimiters, s: System, a: Action, w: string)
    requires GoodDelimiters(c) && Inv(c, s) && OnlyServed(c, s) && Enabled(c, s, a) && s.received <= w
    requires GoodStream(c, w, s.start)
    ensures Apply(c, s, a).fatal != Some(TimestampsNotIncreasing) && Apply(c, s, a).start == s.start
  {
    hide Split, Select, Without, Parse, Accepted, Core, StreamHeaders, Nondecreasing, OnlyServed;
    StartIsFixed(c, s, a);
    if a.Execute? && a.e.event.ForwardUp? {
      CoreOf(c, s);
      ForwardCases(c, s, a.e);
      if NextHeader(c, s).Some? && NextHeader(c, s).value.stamp >= 0 {
        var hs, h := Headers(c, s), NextHeader(c, s).value;
        NextOfStream(c, s, w);
        NondecreasingBefore(hs + [h], StreamHeaders(c, w));
        AlarmIffBeforeConnect(c, s, a.e);
        SecondOf(hs, h, StreamHeaders(c, w));
      }
    } else {
      OthersDoNotFail(c, s, a);
    }
  }

  lemma SecondOf(hs: seq<Header>, h: Header, all: seq<Header>)
    requires hs + [h] <= all
    ensures |hs| == 1 ==> |all| >= 2 && all[0] == hs[0] && all[1] == h
  {
    if |hs| == 1 { assert (hs + [h])[0] == hs[0] && (hs + [h])[1] == h; }
  }

  lemma {:induction false} NoAlarmAlong(c: Delimiters, s: System, run: seq<Action>, w: string)
    requires GoodDelimiters(c) && Inv(c, s) && OnlyServed(c, s) && Feasible(c, s, run)
    requires s.fatal != Some(TimestampsNotIncreasing) && End(c, s, run).received <= w && GoodStream(c, w, s.start)
    ensures End(c, s, run).fatal != Some(TimestampsNotIncreasing)
    decreases |run|
  {
    hide Inv, Apply, GoodStream, OnlyServed;
    if run != [] {
      ReceivedGrowsAlong(c, s, run);
      StepKeeps(c, s, run[0]);
      OnlyServedStep(c, s, run[0]);
      AlarmStep(c, s, run[0], w);
      NoAlarmAlong(c, Apply(c, s, run[0]), run[1..], w);
    }
  }

  /** Stamps that never decrease, and no grant before Connect. */
  ghost predicate GoodStream(c: Delimiters, w: string, start: int)
    requires GoodDelimiters(c)
  {
    Nondecreasing(StreamHeaders(c, w)) && InTimeFrom(StreamHeaders(c, w), start)
  }

  // ----- which streams are accepted

  /** In every reached state, no message processed asked for a time before Connect. */
  lemma InTimeStep(c: Delimiters, s: System, a: Action)
    requires GoodDelimiters(c) && Inv(c, s) && Enabled(c, s, a) && Apply(c, s, a).fatal.None?
    requires InTimeFrom(Headers(c, s), s.start)
    ensures InTimeFrom(Headers(c, Apply(c, s, a)), Apply(c, s, a).start)
  {
    hide Split, Select, Without, Parse, Accepted, Find;
    StartIsFixed(c, s, a);
    if a.Execute? && a.e.event.ForwardUp? {
      CoreOf(c, s);
      ForwardCases(c, s, a.e);
      Begin(c, s, a.e);
      StartedIff(c, s);
      ForwardFacts(c, s, a.e, NextHeader(c, s).value);
    } else {
      SamePopped(c, s, a);
    }
  }

  lemma {:induction false} InTimeAlong(c: Delimiters, s: System, run: seq<Action>)
    requires GoodDelimiters(c) && Inv(c, s) && s.fatal.None? && Feasible(c, s, run) && End(c, s, run).fatal.None?
    requires InTimeFrom(Headers(c, s), s.start)
    ensures InTimeFrom(Headers(c, End(c, s, run)), s.start)
    decreases |run|
  {
    hide Inv, Apply, InTimeFrom, Headers;
    if run != [] {
      var t := Apply(c, s, run[0]);
      StepKeeps(c, s, run[0]);
      StartIsFixed(c, s, run[0]);
      if t.fatal.Some? {
        FatalIsFinal(c, t, run[1..]);
      } else {
        InTimeStep(c, s, run[0]);
        InTimeAlong(c, t, run[1..]);
      }
    }
  }

  /** Messages in any order: some run processes all of them iff no grant is before Connect. The error
      never compares two stamps, so a stream may well decrease. */
  lemma AcceptableIff(c: Delimiters, s0: System, w: string)
    requires GoodDelimiters(c) && Initial(s0)
    ensures (exists run, s :: Reached(c, s0, run, s) && s.fatal.None? && s.popped == ServedMessages(c, w))
       <==> InTimeFrom(StreamHeaders(c, w), s0.start)
  {
    hide Accepted, Split, Parse, Initial, Burst, Fresh, Feasible, End, ServedMessages, Inv;
    InitialServes(c, s0);
    forall run, s | Reached(c, s0, run, s) && s.fatal.None? && s.popped == ServedMessages(c, w)
      ensures InTimeFrom(StreamHeaders(c, w), s0.start)
    {
      InTimeAlong(c, s0, run);
    }
    if InTimeFrom(StreamHeaders(c, w), s0.start) {
      var run := BurstOfAll(c, s0, w);
      BurstFacts(c, End(c, s0, run));
      assert Reached(c, s0, run, End(c, s0, run));
    }
  }

  /** All messages of the stream forwarded at the instant of Connect. */
  lemma BurstOfAll(c: Delimiters, s0: System, w: string) returns (run: seq<Action>)
    requires GoodDelimiters(c) && Initial(s0) && InTimeFrom(StreamHeaders(c, w), s0.start)
    ensures Feasible(c, s0, run) && Burst(c, End(c, s0, run))
    ensures var s := End(c, s0, run); s.received == w && s.popped == ServedMessages(c, w)
  {
    hide Accepted, Split, Parse, Initial, Burst, Fresh, Feasible, End, ServedMessages, Inv, AllAccepted;
    ServedHeaders(c, w);
    FirstHeaders(c, w, |StreamHeaders(c, w)|);
    InitialFresh(c, s0);
    run := BurstOf(c, s0, w, |StreamHeaders(c, w)|);
  }

  // ----- states of a burst

  lemma FreshDelivers(c: Delimiters, s: System)
    requires GoodDelimiters(c) && Fresh(c, s)
    ensures Delivering(c, s)
  {
    hide Select, Core, Framed;
    var q := Of(s, Callback);
    NonEmptyHasMember(q);
    assert q == [];
  }

  lemma FreshFacts(c: Delimiters, s: System)
    requires GoodDelimiters(c) && Fresh(c, s)
    ensures Inv(c, s) && s.fatal.None?
  {
    hide Inv;
  }

  lemma BurstFacts(c: Delimiters, s: System)
    requires GoodDelimiters(c) && Burst(c, s)
    ensures Inv(c, s) && s.fatal.None? && s.g.state == CONNECTED && !s.g.halted && (|Headers(c, s)| >= 2 ==> Unheld(s))
    ensures s.thread.Receiving?
  {
    hide Inv, Headers;
  }

  /** The headers of the first k messages of a stream. */
  lemma FirstHeaders(c: Delimiters, w: string, k: nat)
    requires GoodDelimiters(c) && k <= |StreamHeaders(c, w)|
    ensures k <= |Messages(w, c.m)| && k <= |ServedMessages(c, w)|
    ensures Messages(w, c.m)[..k] == ServedMessages(c, w)[..k]
    ensures AllAccepted(c.f, Messages(w, c.m)[..k]) && Accepted(c.f, Messages(w, c.m)[..k]) == StreamHeaders(c, w)[..k]
    ensures forall start :: InTimeFrom(StreamHeaders(c, w), start) ==> InTimeFrom(StreamHeaders(c, w)[..k], start)
  {
    hide Accepted, Split, Parse, Served;
    var ms := ServedMessages(c, w);
    ServedHeaders(c, w);
    forall i | 0 <= i < k ensures AcceptedOne(c.f, ms[..k][i]) { assert AcceptedOne(c.f, ms[i]); }
    AcceptedAll(c.f, ms[..k]);
    assert ms == ms[..k] + ms[k..];
    AcceptedConcat(c.f, ms[..k], ms[k..]);
  }

  lemma UnheldOf(s: System)
    ensures Unheld(s) <==> Of(s, Wait) == []
  {
    hide Select;
    NonEmptyHasMember(Of(s, Wait));
    if Of(s, Wait) == [] {
      forall w | w in s.g.kernel.pending && w.event.WaitForNextUpdate? ensures w in Of(s, Wait) {}
    }
  }

  lemma BurstSleeps(c: Delimiters, s: System)
    requires GoodDelimiters(c) && Burst(c, s) && s.g.queue == []
    ensures Sleeping(c, s)
  {
    hide Select, Accepted, Split, Find, Framed, NamedOnly, Foremost;
    CoreOf(c, s);
  }

  // ----- every callback within reach

  /** The last pending callback, when the clock is free to reach it. */
  lemma LastCallbackSteerable(c: Delimiters, s: System) returns (u: Entry)
    requires GoodDelimiters(c) && Burst(c, s) && s.g.queue == [] && Delivering(c, s) && Of(s, Callback) != []
    ensures u in Of(s, Callback) && Steerable(s, u)
    ensures forall v :: v in Of(s, Callback) && v != u ==> Precedes(v, u)
    ensures |Headers(c, s)| >= 2 ==> u.time == s.g.timePause
  {
    hide Select, Without, Split, Parse, Accepted, Find, Framed, GatewayOrder.Due, Planned;
    CoreOf(c, s);
    BurstSleeps(c, s);
    var q := Of(s, Callback);
    u := Last(q);
    assert q[|q| - 1] in q;
    NoneOf(s, Forward);
    NoneOf(s, Stopping);
    UnheldOf(s);
    IncreasingParts(s.g.kernel.pending, 0, Callback);
    forall v | v in q && v != u ensures Precedes(v, u) {
      var i :| 0 <= i < |q| && q[i] == v;
      assert Ordered(q, i, |q| - 1) && NotLater(q, i, |q| - 1);
    }
  }

  /** A callback changes nothing but the clock, the record of callbacks, and the wait it may leave. */
  lemma CallbackMoves(c: Delimiters, s: System, u: Entry)
    requires GoodDelimiters(c) && Core(c, s) && Enabled(c, s, Execute(u)) && KindOf(u.event) == Callback
    ensures var t := Apply(c, s, Execute(u));
            t == s.(delivered := t.delivered, g := s.g.(kernel := t.g.kernel, eventWait := t.g.eventWait))
            && t.g.kernel.now == u.time
            && forall x :: x in t.g.kernel.pending && !x.event.WaitForNextUpdate? ==> x in s.g.kernel.pending && x != u
  {
    hide Select, Without, ControlInv;
  }

  lemma NothingPrecedes(k: Kernel, u: Entry)
    requires k.IsNext(u)
    ensures forall x :: x in k.pending ==> !Precedes(x, u)
  {
  }

  /** After a burst the simulator alone runs every callback, and each one on time. */
  lemma DeliverAll(c: Delimiters, s: System) returns (run: seq<Action>)
    requires GoodDelimiters(c) && Burst(c, s) && s.g.queue == [] && Delivering(c, s)
    requires Headers(c, s) != [] && Nondecreasing(Headers(c, s))
    ensures Feasible(c, s, run) && forall a: Action :: a in run ==> a.Execute?
    ensures var t := End(c, s, run);
            Listening(c, t) && t.delivered == Due(s.start, Headers(c, s)) && t.popped == s.popped && t.g.queue == []
            && t.received == s.received && t.thread == s.thread && t.g.timePause == s.g.timePause
            && (|Headers(c, s)| >= 2 ==> t.g.kernel.now == t.g.timePause)
  {
    hide Select, Without, Split, Parse, Accepted, Find, Core, Framed, Feasible, End, Due, Planned, Nondecreasing;
    if Of(s, Callback) == [] {
      run := [];
      AllDelivered(c, s);
    } else {
      var u := LastCallbackSteerable(c, s);
      CoreOf(c, s);
      run := Steer(c, s, u);
      var m := End(c, s, run);
      NothingPrecedes(m.g.kernel, u);
      CallbackMoves(c, m, u);
      RunOne(c, m, Execute(u));
      RunsCompose(c, s, run, [Execute(u)]);
      run := run + [Execute(u)];
      var t := End(c, s, run);
      RunKeeps(c, s, run);
      RunDelivers(c, s, run);
      NoCallbackLeft(s, u, m, t);
      NonePlanned();
      assert t.delivered + [] == t.delivered;
    }
  }

  lemma AllDelivered(c: Delimiters, s: System)
    requires GoodDelimiters(c) && Burst(c, s) && Delivering(c, s) && Of(s, Callback) == [] && s.fatal.None?
    ensures s.delivered == Due(s.start, Headers(c, s)) && |Headers(c, s)| < 2 && Feasible(c, s, [])
    ensures End(c, s, []) == s
  {
    hide Select, Without, Split, Parse, Accepted, Find, Framed, GatewayOrder.Due;
    CoreOf(c, s);
    UnheldOf(s);
    NonePlanned();
    assert s.delivered + [] == s.delivered;
  }

  lemma NoCallbackLeft(s: System, u: Entry, m: System, t: System)
    requires forall v :: v in Of(s, Callback) && v != u ==> Precedes(v, u)
    requires forall x :: x in m.g.kernel.pending ==> x in s.g.kernel.pending || x.event.WaitForNextUpdate?
    requires forall x :: x in m.g.kernel.pending ==> !Precedes(x, u)
    requires forall x :: x in t.g.kernel.pending && !x.event.WaitForNextUpdate? ==> x in m.g.kernel.pending && x != u
    ensures Of(t, Callback) == []
  {
    hide Select;
    NonEmptyHasMember(Of(t, Callback));
    assert forall v :: v in Of(t, Callback) ==> v in Of(s, Callback);
  }

  /** The bytes of the messages that are processed, and nothing after them. */
  lemma ServedPrefix(c: Delimiters, w: string) returns (x: string)
    requires GoodDelimiters(c)
    ensures x <= w && Messages(x, c.m) == ServedMessages(c, x) == ServedMessages(c, w) && Remainder(x, c.m) == ""
    ensures StreamHeaders(c, x) == StreamHeaders(c, w)
  {
    hide Accepted, Split, Parse, Served, AllAccepted;
    var ms, served := Messages(w, c.m), ServedMessages(c, w);
    ServedHeaders(c, w);
    ServedFacts(c.f, ms);
    x := StreamPrefix(w, c.m, |served|);
    assert served == ms[..|served|];
    ServedWhole(c.f, served);
  }

  /** For every good stream some run calls back for each message, in order and exactly on time. */
  lemma EverythingIsDelivered(c: Delimiters, s0: System, w: string) returns (run: seq<Action>, s: System)
    requires GoodDelimiters(c) && Initial(s0) && GoodStream(c, w, s0.start) && StreamHeaders(c, w) != []
    ensures Reached(c, s0, run, s) && s.fatal.None? && s.received <= w
    ensures s.popped == ServedMessages(c, w) && s.delivered == Due(s0.start, StreamHeaders(c, w))
  {
    hide Accepted, Split, Parse, Initial, Burst, Fresh, Feasible, End, Inv, Delivering, AllAccepted, InTimeFrom, Due,
         Nondecreasing, ServedMessages;
    var x := ServedPrefix(c, w);
    ServedHeaders(c, x);
    FirstHeaders(c, x, |StreamHeaders(c, x)|);
    InitialFresh(c, s0);
    assert Messages(x, c.m)[..|Messages(x, c.m)|] == Messages(x, c.m);
    run := BurstOf(c, s0, x, |Messages(x, c.m)|);
    var u := End(c, s0, run);
    BurstFacts(c, u);
    FreshDelivers(c, s0);
    FreshFacts(c, s0);
    RunDelivers(c, s0, run);
    var more := DeliverAll(c, u);
    RunsCompose(c, s0, run, more);
    run := run + more;
    s := End(c, s0, run);
  }

  // ----- which servers never see the error

  lemma FirstLate(hs: seq<Header>, start: int) returns (i: nat)
    requires !InTimeFrom(hs, start)
    ensures 1 <= i < |hs| && hs[i].stamp - hs[0].stamp < start && InTimeFrom(hs[..i], start)
    decreases |hs|
  {
    if InTimeFrom(Init(hs), start) {
      i := |hs| - 1;
    } else {
      i := FirstLate(Init(hs), start);
      assert Init(hs)[..i] == hs[..i];
    }
  }

  lemma FirstDescent(hs: seq<Header>) returns (j: nat)
    requires !Nondecreasing(hs) && forall i :: 0 <= i < |hs| ==> hs[0].stamp <= hs[i].stamp
    ensures 1 <= j && j + 1 < |hs| && hs[j].stamp > hs[j + 1].stamp && Nondecreasing(hs[..j + 1])
    decreases |hs|
  {
    var a, b :| !LaterStamp(hs, a, b);
    var q := Init(hs);
    if Nondecreasing(q) {
      j := |hs| - 2;
      assert LaterStamp(q, a, b) && LaterStamp(q, a, j);
      assert hs[..j + 1] == q;
    } else {
      assert forall i :: 0 <= i < |q| ==> q[i] == hs[i];
      j := FirstDescent(q);
      assert q[..j + 1] == hs[..j + 1];
    }
  }

  /** Some grant is before Connect: the burst runs into it. */
  lemma LateRun(c: Delimiters, s0: System, w: string, i: nat) returns (run: seq<Action>, s: System)
    requires GoodDelimiters(c) && Initial(s0)
    requires var hs := StreamHeaders(c, w);
             1 <= i < |hs| && hs[i].stamp - hs[0].stamp < s0.start && InTimeFrom(hs[..i], s0.start)
    ensures Reached(c, s0, run, s) && s.received == w && s.fatal == Some(TimestampsNotIncreasing)
  {
    hide Accepted, Split, Parse, Initial, Burst, Fresh, Feasible, End, InTimeFrom, Inv, ServedMessages;
    var ms := Messages(w, c.m);
    ServedHeaders(c, w);
    FirstHeaders(c, w, i);
    InitialFresh(c, s0);
    run := BurstOf(c, s0, w, i);
    var u := End(c, s0, run);
    BurstListens(c, u);
    assert u.g.queue[0] == ms[i] && AcceptedOne(c.f, ms[i]);
    var more := FailNext(c, u);
    RunsCompose(c, s0, run, more);
    run := run + more;
    s := End(c, s0, run);
  }

  lemma BurstListens(c: Delimiters, s: System)
    requires GoodDelimiters(c) && Burst(c, s)
    ensures Listening(c, s)
  {
    hide Inv;
  }

  /** A stamp smaller than the one before it: once the clock has reached the earlier grant, the message
      comes too late. */
  lemma DescentRun(c: Delimiters, s0: System, w: string, j: nat) returns (run: seq<Action>, s: System)
    requires GoodDelimiters(c) && Initial(s0) && InTimeFrom(StreamHeaders(c, w), s0.start)
    requires var hs := StreamHeaders(c, w);
             1 <= j && j + 1 < |hs| && hs[j].stamp > hs[j + 1].stamp && Nondecreasing(hs[..j + 1])
    ensures Reached(c, s0, run, s) && s.received == w && s.fatal == Some(TimestampsNotIncreasing)
  {
    hide Accepted, Split, Parse, Initial, Burst, Fresh, Feasible, End, InTimeFrom, Inv, AllAccepted, Delivering, Due,
         Nondecreasing, AcceptedOne, ServedMessages;
    var ms, hs, k := Messages(w, c.m), StreamHeaders(c, w), j + 1;
    ServedHeaders(c, w);
    FirstHeaders(c, w, k);
    var x := StreamPrefix(w, c.m, k);
    var y := w[|x|..];
    assert w == x + y && ms[..k][..k] == ms[..k] && ms[..k][k..] == [];
    InitialFresh(c, s0);
    run := BurstOf(c, s0, x, k);
    var u := End(c, s0, run);
    BurstFacts(c, u);
    FreshDelivers(c, s0);
    FreshFacts(c, s0);
    RunDelivers(c, s0, run);
    PauseIs(c, u);
    var more := DeliverAll(c, u);
    RunsCompose(c, s0, run, more);
    run := run + more;
    u := End(c, s0, run);
    RestOfStream(c, w, x, y, k);
    more := TakeMore(c, u, y);
    RunsCompose(c, s0, run, more);
    run := run + more;
    u := End(c, s0, run);
    TooLate(c, u, w, j);
    more := FailNext(c, u);
    RunsCompose(c, s0, run, more);
    run := run + more;
    s := End(c, s0, run);
  }

  lemma PauseIs(c: Delimiters, s: System)
    requires GoodDelimiters(c) && Inv(c, s) && s.fatal.None? && |Headers(c, s)| >= 2
    ensures s.g.timePause == Last(Headers(c, s)).stamp - Headers(c, s)[0].stamp
  {
    hide Select, Split, Accepted, Framed;
  }

  /** The thread takes what is left of the stream, at whatever time it is. */
  lemma TakeMore(c: Delimiters, s: System, y: string) returns (run: seq<Action>)
    requires GoodDelimiters(c) && Listening(c, s) && s.thread == Receiving("") && s.g.queue == []
    ensures Feasible(c, s, run)
    ensures var t := End(c, s, run);
            Listening(c, t) && t.received == s.received + y && t.popped == s.popped && t.g.queue == Messages(y, c.m)
            && t.g.kernel.now == s.g.kernel.now
  {
    hide Select, Inv, Feasible, End, Split, ScheduleForwards, Find;
    run := ThreadAlone(c, s, Bytes(y));
    ReceivedBytes(y);
    RunKeeps(c, s, run);
    assert "" + y == y && [] + Messages(y, c.m) == Messages(y, c.m);
    ForwardsPending(s.g.kernel, |Messages(y, c.m)|);
  }

  lemma TooLate(c: Delimiters, u: System, w: string, j: nat)
    requires GoodDelimiters(c)
    requires var hs := StreamHeaders(c, w); j + 1 < |hs| && hs[j].stamp > hs[j + 1].stamp
                                            && u.g.kernel.now == hs[j].stamp - hs[0].stamp
    requires j + 1 < |Messages(w, c.m)| && u.popped == Messages(w, c.m)[..j + 1]
    requires u.g.queue == Messages(w, c.m)[j + 1..]
    ensures var next := Parse(u.g.queue[0], c.f); next.Some? && next.value.stamp >= 0 && !InTime(c, u, next.value)
  {
    hide Accepted, Split, Parse, ServedMessages;
    var ms := Messages(w, c.m);
    ServedHeaders(c, w);
    FirstHeaders(c, w, j + 1);
    assert u.g.queue[0] == ms[j + 1] && AcceptedOne(c.f, ms[j + 1]);
  }

  lemma RestOfStream(c: Delimiters, w: string, x: string, y: string, k: nat)
    requires GoodDelimiters(c) && w == x + y && Remainder(x, c.m) == "" && k < |Messages(w, c.m)|
    requires Messages(x, c.m) == Messages(w, c.m)[..k]
    ensures Messages(y, c.m) == Messages(w, c.m)[k..] && Messages(y, c.m) != []
  {
    hide Split;
    MessagesAppend(x, y, c.m);
    assert "" + y == y;
    assert (Messages(w, c.m)[..k] + Messages(y, c.m))[k..] == Messages(y, c.m);
  }

  /** No run raises the error iff the stamps never decrease and no grant is before Connect. */
  lemma AlarmUnreachableIff(c: Delimiters, s0: System, w: string)
    requires GoodDelimiters(c) && Initial(s0) && s0.start >= 0
    ensures (forall run, s :: Reached(c, s0, run, s) && s.received <= w ==> s.fatal != Some(TimestampsNotIncreasing))
       <==> GoodStream(c, w, s0.start)
  {
    hide Accepted, Split, Parse, Initial, Inv, Feasible, End, ServedMessages, Nondecreasing, OnlyServed;
    var hs := StreamHeaders(c, w);
    InitialServes(c, s0);
    if !InTimeFrom(hs, s0.start) {
      var i := FirstLate(hs, s0.start);
      var run, s := LateRun(c, s0, w, i);
      assert Reached(c, s0, run, s);
    } else if !Nondecreasing(hs) {
      var j := FirstDescent(hs);
      var run, s := DescentRun(c, s0, w, j);
      assert Reached(c, s0, run, s);
    } else {
      forall run, s | Reached(c, s0, run, s) && s.received <= w ensures s.fatal != Some(TimestampsNotIncreasing) {
        NoAlarmAlong(c, s0, run, w);
      }
    }
  }

  // ----- two updates for one grant

  lemma AdjacentEqual(hs: seq<Header>) returns (i: nat)
    requires Nondecreasing(hs) && !StrictlyIncreasing(hs)
    ensures 1 <= i && i + 1 < |hs| && hs[i].stamp == hs[i + 1].stamp
  {
    var a, b :| !EarlierStamp(hs, a, b);
    assert LaterStamp(hs, a, a + 1) && LaterStamp(hs, a + 1, b);
    i := a;
  }

  lemma AtPauseTwo(q: seq<Entry>, pause: int)
    requires |q| >= 2 && Grants(q[|q| - 1], pause) && Grants(q[|q| - 2], pause)
    ensures AtPause(q, pause) >= 2
  {
    assert Last(Init(q)) == q[|q| - 2];
    assert AtPause(Init(q), pause) >= 1;
  }

  /** A burst that ends with two equal grants, seen from any fresh state. */
  lemma TwoGrants(c: Delimiters, s0: System, w: string, i: nat) returns (run: seq<Action>, x: string)
    requires GoodDelimiters(c) && Fresh(c, s0) && GoodStream(c, w, s0.start)
    requires var hs := StreamHeaders(c, w); 1 <= i && i + 1 < |hs| && hs[i].stamp == hs[i + 1].stamp
    ensures Feasible(c, s0, run) && x <= w && Remainder(x, c.m) == ""
    ensures i + 2 <= |Messages(w, c.m)| && Messages(x, c.m) == Messages(w, c.m)[..i + 2]
    ensures var s, hs := End(c, s0, run), StreamHeaders(c, w);
            Burst(c, s) && s.received == x && s.popped == Messages(w, c.m)[..i + 2] && s.g.queue == []
            && s.thread == Receiving("") && s.g.kernel.now == s0.start
            && s.g.timePause == hs[i + 1].stamp - hs[0].stamp && s.g.timePause >= s0.start
            && AtPause(Of(s, Callback), s.g.timePause) >= 2 && Headers(c, s) == hs[..i + 2]
            && forall o :: o in s0.g.kernel.pending && o.event.Other? && o.time > s0.start ==> o in s.g.kernel.pending
  {
    hide Accepted, Split, Parse, Burst, Fresh, Feasible, End, Core, Framed, Delivering, Nondecreasing, AtPause,
         ServedMessages, AllAccepted;
    var ms, hs, k := Messages(w, c.m), StreamHeaders(c, w), i + 2;
    ServedHeaders(c, w);
    FirstHeaders(c, w, k);
    x := StreamPrefix(w, c.m, k);
    assert ms[..k][..k] == ms[..k];
    run := BurstOf(c, s0, x, k);
    var s := End(c, s0, run);
    NondecreasingBefore(hs[..k], hs);
    FreshDelivers(c, s0);
    FreshFacts(c, s0);
    BurstFacts(c, s);
    RunDelivers(c, s0, run);
    assert ms[..k][k..] == [];
    TwoPending(c, s, i);
  }

  lemma TwoPending(c: Delimiters, s: System, i: nat)
    requires GoodDelimiters(c) && Inv(c, s) && s.fatal.None? && Delivering(c, s) && s.delivered == [] && i >= 1
    requires var hs := Headers(c, s); |hs| == i + 2 && hs[i].stamp == hs[i + 1].stamp
    ensures s.g.timePause == Headers(c, s)[i + 1].stamp - Headers(c, s)[0].stamp
    ensures AtPause(Of(s, Callback), s.g.timePause) >= 2
  {
    hide Inv, Headers, Select, AtPause, Due, Planned;
    var q, hs := Of(s, Callback), Headers(c, s);
    PauseIs(c, s);
    assert [] + Planned(q) == Planned(q);
    PlannedUpdate(q, s.start, hs, i);
    PlannedUpdate(q, s.start, hs, i + 1);
    AtPauseTwo(q, s.g.timePause);
  }

  /** The i-th pending callback is the update the i-th header asks for. */
  lemma PlannedUpdate(q: seq<Entry>, start: int, hs: seq<Header>, i: nat)
    requires Planned(q) == Due(start, hs) && 1 <= i < |hs|
    requires forall e :: e in q ==> KindOf(e.event) == Callback
    ensures |q| == |hs| && Grants(q[i], hs[i].stamp - hs[0].stamp)
  {
    hide Due, Planned;
    DueAt(start, hs, i);
    PlannedLength(q);
    PlannedAt(q, i);
    assert q[i] in q;
  }

  // ----- a second wait event

  /** Two wait events within reach. */
  lemma SecondWait(c: Delimiters, s0: System, w: string, i: nat) returns (run: seq<Action>, s: System)
    requires GoodDelimiters(c) && Initial(s0) && GoodStream(c, w, s0.start)
    requires var hs := StreamHeaders(c, w); 1 <= i && i + 1 < |hs| && hs[i].stamp == hs[i + 1].stamp
    ensures Reached(c, s0, run, s) && s.received <= w && s.fatal.None? && s.g.state == CONNECTED && |Of(s, Wait)| >= 2
  {
    hide Accepted, Split, Parse, Burst, Fresh, Feasible, End, Initial, GoodStream, Inv, Select, AtPause, Headers;
    InitialFresh(c, s0);
    var x;
    run, x := TwoGrants(c, s0, w, i);
    var u := End(c, s0, run);
    BurstFacts(c, u);
    BurstSleeps(c, u);
    UnheldOf(u);
    WaitsReachableIff(c, u, 2);
    var more: seq<Action> :| Feasible(c, u, more) && (forall a: Action :: a in more ==> a.Execute?)
      && |Of(End(c, u, more), Wait)| >= 2;
    SleepingRun(c, u, more);
    RunsCompose(c, s0, run, more);
    QuietBytes(c, u, more);
    run := run + more;
    s := End(c, s0, run);
  }

  lemma {:induction false} QuietBytes(c: Delimiters, s: System, run: seq<Action>)
    requires GoodDelimiters(c) && forall a: Action :: a in run ==> a.Execute?
    ensures End(c, s, run).received == s.received
    decreases |run|
  {
    hide Apply;
    if run != [] {
      assert run[0] in run && forall a :: a in run[1..] ==> a in run;
      SameBytes(c, s, run[0]);
      QuietBytes(c, Apply(c, s, run[0]), run[1..]);
    }
  }

  lemma SingleWait(s: System)
    requires Single(s) && s.g.state == CONNECTED
    ensures |Of(s, Wait)| <= 1
  {
    hide Select;
    var l := LanesOf(s.g.kernel.pending);
    if Held(s.g, l) { assert |l.waits| == |[l.waits[0]]|; }
  }

  /** No run of a good stream ever has two wait events while connected iff its stamps increase from the
      second message on. */
  lemma OneWaitIff(c: Delimiters, s0: System, w: string)
    requires GoodDelimiters(c) && Initial(s0) && GoodStream(c, w, s0.start)
    ensures (forall run, s :: Reached(c, s0, run, s) && s.received <= w && s.fatal.None? && s.g.state == CONNECTED ==>
               |Of(s, Wait)| <= 1)
       <==> StrictlyIncreasing(StreamHeaders(c, w))
  {
    hide Accepted, Split, Parse, Feasible, End, Initial, Select, StrictlyIncreasing, Nondecreasing, ServedMessages,
         InTimeFrom, Single, Headers, StreamHeaders, Inv, OnlyServed;
    if StrictlyIncreasing(StreamHeaders(c, w)) {
      InitialServes(c, s0);
      forall run, s | Reached(c, s0, run, s) && s.received <= w && s.fatal.None? && s.g.state == CONNECTED
        ensures |Of(s, Wait)| <= 1
      {
        OnlyServedAlong(c, s0, run);
        ReachedInv(c, s0, run, s);
        HeadersOfStream(c, s, w);
        StrictPrefix(Headers(c, s), StreamHeaders(c, w));
        ReachedSingle(c, s0, run, s);
        SingleWait(s);
      }
    } else {
      var i := AdjacentEqual(StreamHeaders(c, w));
      var run, s := SecondWait(c, s0, w, i);
      assert Reached(c, s0, run, s);
    }
  }
}
