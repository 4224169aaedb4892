/** Delivery: with nondecreasing stamps the callbacks run in message order, each at the time its
    stamp asks for, and the "not increasing" error happens exactly when the second message asks for
    a time before Connect. */
module GatewayOrder {
  import opened Words
  import opened Framing
  import opened Events
  import opened GatewayEffects
  import opened GatewayRuns
  import opened GatewayInvariants
  import opened GatewayTheorems

  // ----- the ideal: what a list of messages asks for

  /** The callbacks a list of accepted messages asks for, the first one when the gateway started. */
  function Due(start: int, hs: seq<Header>): seq<Delivery>
  {
    if hs == [] then []
    else if |hs| == 1 then [Delivery(true, start, hs[0].values)]
    else Due(start, Init(hs)) + [Delivery(false, Last(hs).stamp - hs[0].stamp, Last(hs).values)]
  }

  lemma {:induction false} DueAt(start: int, hs: seq<Header>, i: nat)
    requires i < |hs|
    ensures |Due(start, hs)| == |hs|
    ensures Due(start, hs)[i]
         == if i == 0 then Delivery(true, start, hs[0].values)
            else Delivery(false, hs[i].stamp - hs[0].stamp, hs[i].values)
  {
    if |hs| > 1 { DueAt(start, Init(hs), if i < |hs| - 1 then i else 0); }
  }

  lemma DueAppend(start: int, hs: seq<Header>, h: Header)
    ensures Due(start, hs + [h])
         == Due(start, hs)
            + [if hs == [] then Delivery(true, start, h.values) else Delivery(false, h.stamp - hs[0].stamp, h.values)]
  {
    assert Init(hs + [h]) == hs;
  }

  lemma {:induction false} DuePrefix(start: int, a: seq<Header>, b: seq<Header>)
    ensures Due(start, a) <= Due(start, a + b)
    decreases |b|
  {
    if b == [] {
      assert a + b == a;
    } else {
      DuePrefix(start, a, Init(b));
      DueAppend(start, a + Init(b), Last(b));
      assert a + b == a + Init(b) + [Last(b)];
    }
  }

  lemma {:induction false} AcceptedConcat(f: string, a: seq<string>, b: seq<string>)
    requires f != ""
    ensures Accepted(f, a + b) == Accepted(f, a) + Accepted(f, b)
    decreases |b|
  {
    if b == [] {
      assert a + b == a;
    } else {
      AcceptedConcat(f, a, Init(b));
      AcceptedSnoc(f, a, Init(b), Last(b));
      assert b == Init(b) + [Last(b)];
    }
  }

  lemma AcceptedSnoc(f: string, a: seq<string>, b: seq<string>, msg: string)
    requires f != "" && Accepted(f, a + b) == Accepted(f, a) + Accepted(f, b)
    ensures Accepted(f, a + (b + [msg])) == Accepted(f, a) + Accepted(f, b + [msg])
  {
    hide Accepted, Parse;
    AcceptedAppend(f, a + b, msg);
    AcceptedAppend(f, b, msg);
    assert a + (b + [msg]) == a + b + [msg];
  }

  // ----- the pending callbacks

  /** The deliveries the pending callbacks stand for, in insertion order. */
  function Planned(p: seq<Entry>): seq<Delivery>
  {
    if p == [] then [] else Planned(Init(p)) + [DeliveryOf(Last(p))]
  }

  function DeliveryOf(e: Entry): Delivery
  {
    match e.event
    case DoInitialize(values) => Delivery(true, e.time, values)
    case HandleUpdate(values) => Delivery(false, e.time, values)
    case _ => Delivery(false, e.time, [])
  }

  lemma PlannedAppend(p: seq<Entry>, e: Entry)
    ensures Planned(p + [e]) == Planned(p) + [DeliveryOf(e)]
  {
    assert Init(p + [e]) == p;
  }

  lemma {:induction false} PlannedLength(q: seq<Entry>)
    ensures |Planned(q)| == |q|
  {
    if q != [] { PlannedLength(Init(q)); }
  }

  lemma NonePlanned()
    ensures Planned([]) == []
  {
  }

  lemma {:induction false} PlannedAt(q: seq<Entry>, j: nat)
    requires j < |q|
    ensures |Planned(q)| == |q| && Planned(q)[j] == DeliveryOf(q[j])
    decreases |q|
  {
    if |q| > 1 {
      PlannedAt(Init(q), if j < |q| - 1 then j else 0);
    } else {
      assert Planned(Init(q)) == [];
    }
  }

  lemma {:induction false} PlannedFirst(p: seq<Entry>)
    requires p != []
    ensures Planned(p) == [DeliveryOf(p[0])] + Planned(p[1..])
  {
    if |p| == 1 {
      assert p == [] + [p[0]] && p[1..] == [];
      PlannedAppend([], p[0]);
    } else {
      PlannedFirst(Init(p));
      assert p[1..] == Init(p)[1..] + [Last(p)];
      PlannedAppend(Init(p)[1..], Last(p));
    }
  }

  predicate NotLater(p: seq<Entry>, i: int, j: int)
  {
    0 <= i < j < |p| ==> p[i].time <= p[j].time
  }

  ghost predicate Sorted(p: seq<Entry>)
  {
    forall i, j :: NotLater(p, i, j)
  }

  lemma SortedSnoc(p: seq<Entry>, e: Entry)
    requires Sorted(p) && forall x :: x in p ==> x.time <= e.time
    ensures Sorted(p + [e])
  {
    forall i, j ensures NotLater(p + [e], i, j) { assert NotLater(p, i, j); }
  }

  lemma SortedRest(p: seq<Entry>)
    requires p != [] && Sorted(p)
    ensures Sorted(p[1..])
  {
    forall i, j ensures NotLater(p[1..], i, j) { assert NotLater(p, i + 1, j + 1); }
  }

  /** In a time-sorted lane the next event of the simulator can only be the first. */
  lemma NextIsFirst(k: Kernel, e: Entry, q: seq<Entry>)
    requires k.Valid() && k.IsNext(e) && e in q && Increasing(q) && Sorted(q)
    requires forall x :: x in q ==> x in k.pending
    ensures e == q[0]
  {
    var i :| 0 <= i < |q| && q[i] == e;
    assert Ordered(q, 0, i) && NotLater(q, 0, i);
    assert q[0] in q;
  }

  // ----- the delivery invariant

  /** The callbacks that ran and those pending are together exactly what the messages ask for. */
  ghost predicate InOrder(c: Delimiters, s: System, q: seq<Entry>)
    requires GoodDelimiters(c)
  {
    match s.fatal
    case Some(_) => true
    case None =>
      s.delivered + Planned(q) == Due(s.start, Headers(c, s))
      && Sorted(q) && forall e :: e in q ==> e.time <= Horizon(Headers(c, s), s.start, s.g.timePause)
  }

  predicate LaterStamp(hs: seq<Header>, i: int, j: int)
  {
    0 <= i < j < |hs| ==> hs[i].stamp <= hs[j].stamp
  }

  ghost predicate Nondecreasing(hs: seq<Header>)
  {
    forall i, j :: LaterStamp(hs, i, j)
  }

  lemma NondecreasingPrefix(a: seq<Header>, b: seq<Header>)
    requires Nondecreasing(a + b)
    ensures Nondecreasing(a)
  {
    forall i, j ensures LaterStamp(a, i, j) { assert LaterStamp(a + b, i, j); }
  }

  lemma NondecreasingLast(hs: seq<Header>, h: Header)
    requires Nondecreasing(hs + [h]) && hs != []
    ensures Last(hs).stamp <= h.stamp && hs[0].stamp <= h.stamp
  {
    assert LaterStamp(hs + [h], |hs| - 1, |hs|) && LaterStamp(hs + [h], 0, |hs|);
  }

  /** The grant of the next message is not before the horizon, unless it is the first grant of all. */
  lemma NewGrantNotEarlier(hs: seq<Header>, h: Header, timeStart: int, timePause: int, start: int)
    requires HeaderInv(hs, timeStart, timePause) && Nondecreasing(hs + [h]) && hs != []
    ensures |hs| >= 2 ==> h.stamp - timeStart >= Horizon(hs, start, timePause)
    ensures h.stamp - timeStart >= 0
  {
    NondecreasingLast(hs, h);
  }

  lemma FirstInOrder(c: Delimiters, s: System, e: Entry, h: Header, q: seq<Entry>)
    requires GoodDelimiters(c) && InOrder(c, s, q) && s.fatal.None? && e.event.ForwardUp? && e.time == s.start
    requires NextHeader(c, s) == Some(h) && BranchOf(s.g, h).First? && Headers(c, s) == []
    ensures InOrder(c, Apply(c, s, Execute(e)), q + [Entry(s.g.kernel.nextId, e.time, DoInitialize(h.values))])
  {
    hide Accepted, Parse, Split, Find, Select, Without;
    ForwardFacts(c, s, e, h);
    assert q == [];
    var n := Entry(s.g.kernel.nextId, e.time, DoInitialize(h.values));
    assert Planned(q + [n]) == [Delivery(true, s.start, h.values)];
  }

  lemma NormalInOrder(c: Delimiters, s: System, e: Entry, h: Header, q: seq<Entry>)
    requires GoodDelimiters(c) && InOrder(c, s, q) && s.fatal.None? && e.event.ForwardUp?
    requires NextHeader(c, s) == Some(h) && BranchOf(s.g, h).Normal? && h.stamp - s.g.timeStart >= e.time
    requires var hs := Headers(c, s);
             HeaderInv(hs, s.g.timeStart, s.g.timePause) && hs != []
             && h.stamp - s.g.timeStart >= Horizon(hs, s.start, s.g.timePause)
    ensures InOrder(c, Apply(c, s, Execute(e)),
                    q + [Entry(s.g.kernel.nextId, h.stamp - s.g.timeStart, HandleUpdate(h.values))])
  {
    hide Accepted, Parse, Split, Find, Select, Without;
    ForwardFacts(c, s, e, h);
    var hs, n := Headers(c, s), Entry(s.g.kernel.nextId, h.stamp - s.g.timeStart, HandleUpdate(h.values));
    DueAppend(s.start, hs, h);
    PlannedAppend(q, n);
    SortedSnoc(q, n);
    assert s.delivered + (Planned(q) + [DeliveryOf(n)]) == s.delivered + Planned(q) + [DeliveryOf(n)];
  }

  lemma TerminateInOrder(c: Delimiters, s: System, e: Entry, h: Header, q: seq<Entry>)
    requires GoodDelimiters(c) && InOrder(c, s, q) && s.fatal.None? && e.event.ForwardUp?
    requires NextHeader(c, s) == Some(h) && BranchOf(s.g, h).Terminate?
    ensures InOrder(c, Apply(c, s, Execute(e)), q)
  {
    hide Accepted, Parse, Split, Find, Select, Without;
    ForwardFacts(c, s, e, h);
    assert Headers(c, s) + [] == Headers(c, s);
  }

  lemma CallbackInOrder(c: Delimiters, s: System, e: Entry, q: seq<Entry>)
    requires GoodDelimiters(c) && InOrder(c, s, q) && s.fatal.None? && KindOf(e.event) == Callback
    requires q != [] && q[0] == e
    ensures InOrder(c, Apply(c, s, Execute(e)), q[1..])
  {
    hide Accepted, Parse, Split, Find, Select, Without;
    PlannedFirst(q);
    SortedRest(q);
    var t := Apply(c, s, Execute(e));
    assert t.delivered == s.delivered + [DeliveryOf(e)];
    assert s.delivered + ([DeliveryOf(e)] + Planned(q[1..])) == t.delivered + Planned(q[1..]);
  }

  /** The actions that run no callback and take no message. */
  predicate Quiet(a: Action)
  {
    a.Execute? ==> KindOf(a.e.event) != Callback && KindOf(a.e.event) != Forward
  }

  lemma QuietFields(c: Delimiters, s: System, a: Action)
    requires GoodDelimiters(c) && Quiet(a)
    ensures var t := Apply(c, s, a);
            t.fatal == s.fatal && t.popped == s.popped && t.delivered == s.delivered && t.start == s.start
            && t.g.timePause == s.g.timePause && t.g.timeStart == s.g.timeStart
  {
    hide Split, Find, Select, Without;
  }

  lemma QuietInOrder(c: Delimiters, s: System, a: Action, q: seq<Entry>)
    requires GoodDelimiters(c) && InOrder(c, s, q) && Quiet(a)
    ensures InOrder(c, Apply(c, s, a), q)
  {
    hide Accepted, Apply, Planned, Due;
    QuietFields(c, s, a);
  }

  // ----- every action, every run

  ghost predicate Delivering(c: Delimiters, s: System)
    requires GoodDelimiters(c)
  {
    InOrder(c, s, Of(s, Callback))
  }

  lemma ForwardDelivers(c: Delimiters, s: System, e: Entry)
    requires GoodDelimiters(c) && Core(c, s) && Delivering(c, s) && Enabled(c, s, Execute(e)) && e.event.ForwardUp?
    requires Nondecreasing(Headers(c, Apply(c, s, Execute(e))))
    ensures Delivering(c, Apply(c, s, Execute(e)))
  {
    hide Select, Without, Split, Accepted, Parse;
    ForwardCases(c, s, e);
    Begin(c, s, e);
    if NextHeader(c, s).Some? && Apply(c, s, Execute(e)).fatal.None? {
      var h, l := NextHeader(c, s).value, LanesOf(s.g.kernel.pending);
      ForwardFacts(c, s, e, h);
      ForwardCallbacks(c, s, e, h, l);
      match BranchOf(s.g, h)
      case Terminate => TerminateInOrder(c, s, e, h, l.callbacks);
      case First => FirstInOrder(c, s, e, h, l.callbacks);
      case Normal =>
        NewGrantNotEarlier(Headers(c, s), h, s.g.timeStart, s.g.timePause, s.start);
        NormalInOrder(c, s, e, h, l.callbacks);
    }
  }

  /** The callbacks pending after ForwardUp. */
  lemma ForwardCallbacks(c: Delimiters, s: System, e: Entry, h: Header, l: Lanes)
    requires GoodDelimiters(c) && e.event.ForwardUp? && NextHeader(c, s) == Some(h)
    requires KernelInv(s.g.kernel.Take(e), s.g.eventWait) && LanesOf(s.g.kernel.Take(e).pending) == Drop(l, e)
    requires BranchOf(s.g, h).Normal? ==> h.stamp - s.g.timeStart >= e.time
    ensures Of(Apply(c, s, Execute(e)), Callback) ==
      match BranchOf(s.g, h)
      case Terminate => l.callbacks
      case First => l.callbacks + [Entry(s.g.kernel.nextId, e.time, DoInitialize(h.values))]
      case Normal => l.callbacks + [Entry(s.g.kernel.nextId, h.stamp - s.g.timeStart, HandleUpdate(h.values))]
  {
    hide Select, Without, Split, Accepted, Parse;
    var g := s.g.(kernel := s.g.kernel.Take(e), queue := s.g.queue[1..]);
    ForwardApplies(c, s, e, h);
    match BranchOf(s.g, h)
    case Terminate =>
    case First => InsertLands(g.(timeStart := h.stamp), Drop(l, e), 0, DoInitialize(h.values));
    case Normal => NormalLands(g, Drop(l, e), h);
  }

  lemma CallbackDelivers(c: Delimiters, s: System, e: Entry)
    requires GoodDelimiters(c) && Core(c, s) && Delivering(c, s) && Enabled(c, s, Execute(e))
    requires KindOf(e.event) == Callback
    ensures Delivering(c, Apply(c, s, Execute(e)))
  {
    hide Select, Without, Accepted, Due, Planned;
    var q := Of(s, Callback);
    Begin(c, s, e);
    IncreasingParts(s.g.kernel.pending, e.id, Callback);
    assert e in q;
    NextIsFirst(s.g.kernel, e, q);
    WithoutFirst(q);
    CallbackInOrder(c, s, e, q);
    if e.event.HandleUpdate? {
      var waits := UpdateLands(s.g.(kernel := s.g.kernel.Take(e)), Drop(LanesOf(s.g.kernel.pending), e));
    }
  }

  lemma QuietDelivers(c: Delimiters, s: System, a: Action)
    requires GoodDelimiters(c) && Core(c, s) && Delivering(c, s) && Enabled(c, s, a) && Quiet(a)
    ensures Delivering(c, Apply(c, s, a))
  {
    hide InOrder, Apply, Core, Select;
    QuietInOrder(c, s, a, Of(s, Callback));
    QuietCallbacks(c, s, a);
  }

  lemma QuietEvent(c: Delimiters, s: System, e: Entry)
    requires GoodDelimiters(c) && Core(c, s) && Enabled(c, s, Execute(e)) && Quiet(Execute(e))
    ensures Of(Apply(c, s, Execute(e)), Callback) == Of(s, Callback)
  {
    hide Select, Without, Accepted, ControlInv, Split, Find;
    var l, g := LanesOf(s.g.kernel.pending), s.g.(kernel := s.g.kernel.Take(e));
    Begin(c, s, e);
    if e.event.WaitForNextUpdate? {
      var waits := WaitLands(g, Drop(l, e));
    } else if e.event.Stop? {
      StopLands(g, Drop(l, e));
    }
  }

  lemma QuietCallbacks(c: Delimiters, s: System, a: Action)
    requires GoodDelimiters(c) && Core(c, s) && Enabled(c, s, a) && Quiet(a)
    ensures Of(Apply(c, s, a), Callback) == Of(s, Callback)
  {
    hide Select, Without, Accepted, ControlInv, Split, Find;
    var l := LanesOf(s.g.kernel.pending);
    match a {
      case Execute(e) => QuietEvent(c, s, e);
      case Close => InsertLands(s.g, l, 0, Stop);
      case ScheduleForward => InsertLands(s.g, l, 0, ForwardUp);
      case Spawn(time) => InsertLands(s.g, l, time - s.g.kernel.now, Other);
      case Destroy => StopLands(s.g, l);
      case _ =>
    }
  }

  lemma StepDelivers(c: Delimiters, s: System, a: Action)
    requires GoodDelimiters(c) && Core(c, s) && Delivering(c, s) && Enabled(c, s, a)
    requires Nondecreasing(Headers(c, Apply(c, s, a)))
    ensures Delivering(c, Apply(c, s, a))
  {
    hide Core, Delivering, Apply, Headers, Nondecreasing;
    if a.Execute? && KindOf(a.e.event) == Callback {
      CallbackDelivers(c, s, a.e);
    } else if a.Execute? && a.e.event.ForwardUp? {
      ForwardDelivers(c, s, a.e);
    } else {
      QuietDelivers(c, s, a);
    }
  }

  // ----- the server's promise, on the bytes it sent

  ghost predicate OrderedStream(c: Delimiters, received: string)
    requires GoodDelimiters(c)
  {
    Nondecreasing(Accepted(c.f, Messages(received, c.m)))
  }

  lemma OrderedStreamPrefix(c: Delimiters, x: string, y: string)
    requires GoodDelimiters(c) && OrderedStream(c, x + y)
    ensures OrderedStream(c, x)
  {
    hide Accepted, Split;
    MessagesAppend(x, y, c.m);
    AcceptedConcat(c.f, Messages(x, c.m), Messages(Remainder(x, c.m) + y, c.m));
    NondecreasingPrefix(Accepted(c.f, Messages(x, c.m)), Accepted(c.f, Messages(Remainder(x, c.m) + y, c.m)));
  }

  lemma OrderedBefore(c: Delimiters, s: System, a: Action)
    requires GoodDelimiters(c) && OrderedStream(c, Apply(c, s, a).received)
    ensures OrderedStream(c, s.received)
  {
    ReceivedGrows(c, s, a);
    var t := Apply(c, s, a);
    assert t.received == s.received + t.received[|s.received|..];
    OrderedStreamPrefix(c, s.received, t.received[|s.received|..]);
  }

  lemma ReceivedGrows(c: Delimiters, s: System, a: Action)
    requires GoodDelimiters(c)
    ensures s.received <= Apply(c, s, a).received
  {
    hide Split, Find, Select, Without, Parse;
  }

  /** What is popped and queued is a prefix of the stream, so its headers are in order too. */
  lemma PrefixHeaders(c: Delimiters, s: System, ms: seq<string>, rest: seq<string>)
    requires GoodDelimiters(c) && Inv(c, s) && s.fatal.None? && s.popped + s.g.queue == ms + rest
    ensures Accepted(c.f, ms) <= Accepted(c.f, Messages(s.received, c.m))
    ensures OrderedStream(c, s.received) ==> Nondecreasing(Accepted(c.f, ms))
  {
    hide Core, Accepted, Split, Nondecreasing;
    FramedMessages(c.m, s.popped + s.g.queue, Unframed(s), s.received);
    PrefixAccepted(c.f, ms, rest, Messages(Unframed(s), c.m), Messages(s.received, c.m));
  }

  lemma PrefixAccepted(f: string, ms: seq<string>, rest: seq<string>, later: seq<string>, all: seq<string>)
    requires f != "" && (ms + rest) + later == all
    ensures Accepted(f, ms) <= Accepted(f, all)
    ensures Nondecreasing(Accepted(f, all)) ==> Nondecreasing(Accepted(f, ms))
  {
    hide Accepted;
    assert all == ms + (rest + later);
    AcceptedConcat(f, ms, rest + later);
    if Nondecreasing(Accepted(f, all)) { NondecreasingPrefix(Accepted(f, ms), Accepted(f, rest + later)); }
  }

  lemma HeadersInOrder(c: Delimiters, s: System)
    requires GoodDelimiters(c) && Inv(c, s) && s.fatal.None? && OrderedStream(c, s.received)
    ensures Nondecreasing(Headers(c, s))
  {
    hide Inv, Accepted, Nondecreasing, OrderedStream;
    PrefixHeaders(c, s, s.popped, s.g.queue);
  }

  lemma HeadersGrow(c: Delimiters, s: System, a: Action)
    requires GoodDelimiters(c)
    ensures Headers(c, s) <= Headers(c, Apply(c, s, a))
  {
    hide Split, Find, Select, Without, Parse;
    if Apply(c, s, a).popped != s.popped { AcceptedAppend(c.f, s.popped, Last(Apply(c, s, a).popped)); }
  }

  lemma {:induction false} HeadersGrowAlong(c: Delimiters, s: System, run: seq<Action>)
    requires GoodDelimiters(c)
    ensures Headers(c, s) <= Headers(c, End(c, s, run))
    decreases |run|
  {
    hide Apply, Headers;
    if run != [] {
      HeadersGrow(c, s, run[0]);
      HeadersGrowAlong(c, Apply(c, s, run[0]), run[1..]);
    }
  }

  lemma NondecreasingBefore(a: seq<Header>, b: seq<Header>)
    requires Nondecreasing(b) && a <= b
    ensures Nondecreasing(a)
  {
    forall i, j ensures LaterStamp(a, i, j) { assert LaterStamp(b, i, j); }
  }

  /** What matters is the messages processed so far, not what the stream still holds. */
  lemma {:induction false} RunDelivers(c: Delimiters, s: System, run: seq<Action>)
    requires GoodDelimiters(c) && Inv(c, s) && s.fatal.None? && Delivering(c, s) && Feasible(c, s, run)
    requires Nondecreasing(Headers(c, End(c, s, run))) && End(c, s, run).fatal.None?
    ensures Delivering(c, End(c, s, run))
    decreases |run|
  {
    hide Inv, Core, Framed, Delivering, Apply, Nondecreasing, Headers;
    if run != [] {
      var t := Apply(c, s, run[0]);
      StepKeeps(c, s, run[0]);
      if t.fatal.Some? {
        FatalIsFinal(c, t, run[1..]);
      } else {
        HeadersGrowAlong(c, t, run[1..]);
        NondecreasingBefore(Headers(c, t), Headers(c, End(c, s, run)));
        CoreOf(c, s);
        StepDelivers(c, s, run[0]);
        RunDelivers(c, t, run[1..]);
      }
    }
  }

  lemma FatalIsFinal(c: Delimiters, t: System, run: seq<Action>)
    requires GoodDelimiters(c) && t.fatal.Some? && Feasible(c, t, run)
    ensures End(c, t, run) == t
  {
  }

  lemma {:induction false} RunIsOrdered(c: Delimiters, s: System, run: seq<Action>)
    requires GoodDelimiters(c) && OrderedStream(c, End(c, s, run).received)
    ensures OrderedStream(c, s.received)
    decreases |run|
  {
    hide OrderedStream, Apply;
    if run != [] {
      RunIsOrdered(c, Apply(c, s, run[0]), run[1..]);
      OrderedBefore(c, s, run[0]);
    }
  }

  // ----- end-to-end delivery

  /** For every chunking and interleaving, as long as the stamps processed do not decrease: the
      callbacks that ran, then those scheduled, are the ideal callbacks of the messages processed; those
      that ran are a prefix of the ideal callbacks of the whole stream; and once nothing is left in
      between they are all of them. */
  lemma DeliveredInOrder(c: Delimiters, s0: System, run: seq<Action>, s: System)
    requires GoodDelimiters(c) && Reached(c, s0, run, s) && s.fatal.None? && Nondecreasing(Headers(c, s))
    ensures s.delivered + Planned(Of(s, Callback)) == Due(s.start, Accepted(c.f, s.popped))
    ensures s.delivered <= Due(s.start, Accepted(c.f, Messages(s.received, c.m)))
    ensures s.g.queue == [] && Of(s, Callback) == [] && Find(Unframed(s), c.m).None? ==>
              s.delivered == Due(s.start, Accepted(c.f, Messages(s.received, c.m)))
  {
    ReachedInv(c, s0, run, s);
    InitialDelivers(c, s0);
    RunDelivers(c, s0, run);
    DeliveredFacts(c, s);
  }

  lemma InitialDelivers(c: Delimiters, s0: System)
    requires GoodDelimiters(c) && Initial(s0)
    ensures Inv(c, s0) && s0.fatal.None? && Delivering(c, s0)
  {
    hide Inv, Select;
    InitialInv(c, s0);
  }

  lemma DeliveredFacts(c: Delimiters, s: System)
    requires GoodDelimiters(c) && Inv(c, s) && s.fatal.None? && Delivering(c, s)
    ensures s.delivered + Planned(Of(s, Callback)) == Due(s.start, Accepted(c.f, s.popped))
    ensures s.delivered <= Due(s.start, Accepted(c.f, Messages(s.received, c.m)))
    ensures s.g.queue == [] && Of(s, Callback) == [] && Find(Unframed(s), c.m).None? ==>
              s.delivered == Due(s.start, Accepted(c.f, Messages(s.received, c.m)))
  {
    hide Accepted, Select, Without, Due, Core;
    PrefixHeaders(c, s, s.popped, s.g.queue);
    var all, a := Accepted(c.f, Messages(s.received, c.m)), Accepted(c.f, s.popped);
    assert all == a + all[|a|..];
    DuePrefix(s.start, a, all[|a|..]);
    FramedMessages(c.m, s.popped + s.g.queue, Unframed(s), s.received);
    if s.g.queue == [] && Of(s, Callback) == [] && Find(Unframed(s), c.m).None? {
      assert Split(Unframed(s), c.m) == [Unframed(s)];
      assert s.popped + s.g.queue + [] == s.popped;
      assert s.delivered + Planned([]) == s.delivered;
    }
  }

  /** Every DoUpdate runs at its stamp minus the first stamp. That is the documented "relative to the
      moment of Connect" exactly when Connect ran at time 0. */
  lemma UpdateTimes(c: Delimiters, s0: System, run: seq<Action>, s: System, i: nat)
    requires GoodDelimiters(c) && Reached(c, s0, run, s) && s.fatal.None? && Nondecreasing(Headers(c, s))
    requires 1 <= i < |s.delivered|
    ensures var hs := Accepted(c.f, Messages(s.received, c.m));
            i < |hs| && s.delivered[0] == Delivery(true, s.start, hs[0].values)
            && s.delivered[i] == Delivery(false, hs[i].stamp - hs[0].stamp, hs[i].values)
            && (s.delivered[i].time == s.start + (hs[i].stamp - hs[0].stamp) <==> s.start == 0)
  {
    hide Accepted, Split, Select;
    DeliveredInOrder(c, s0, run, s);
    var hs := Accepted(c.f, Messages(s.received, c.m));
    DueLength(s.start, hs);
    DueAt(s.start, hs, i);
    DueAt(s.start, hs, 0);
  }

  lemma {:induction false} DueLength(start: int, hs: seq<Header>)
    ensures |Due(start, hs)| == |hs|
  {
    if hs != [] { DueAt(start, hs, 0); }
  }

  // ----- the "not increasing" error

  /** The error compares a stamp with the clock and not with the stamp before it: of two messages
      handled at one instant, the second may be earlier, and both are accepted exactly when it is not
      in the past. The gateway then pauses at the earlier time with the later update still pending. */
  lemma DecreasingBurstIsAccepted(g: Gw, a: Header, b: Header)
    requires Lands(g, LanesOf(g.kernel.pending)) && BranchOf(g, a).Normal? && 0 <= b.stamp < a.stamp
    ensures MessageEffect(g, a).Ok? && MessageEffect(MessageEffect(g, a).value, b).Ok?
       <==> b.stamp - g.timeStart >= g.kernel.now
    ensures b.stamp - g.timeStart >= g.kernel.now ==>
              var t := MessageEffect(MessageEffect(g, a).value, b).value;
              t.timePause == b.stamp - g.timeStart
              && UpdateAt(LanesOf(t.kernel.pending).callbacks, a.stamp - g.timeStart)
  {
    hide Select, Without;
    var l := LanesOf(g.kernel.pending);
    if a.stamp - g.timeStart >= g.kernel.now {
      NormalLands(g, l, a);
      var h := MessageEffect(g, a).value;
      CancelLands(g, l);
      assert h.timeStart == g.timeStart && h.kernel.now == g.kernel.now;
      if b.stamp - g.timeStart >= g.kernel.now {
        var u := Entry(g.kernel.nextId, a.stamp - g.timeStart, HandleUpdate(a.values));
        var m := LanesOf(h.kernel.pending);
        NormalLands(h, m, b);
        assert u in m.callbacks;
      }
    }
  }

  /** While the stamps do not decrease, ForwardUp reports decreasing stamps exactly when it handles the
      second message and that message asks for a time before Connect. */
  lemma AlarmIffBeforeConnect(c: Delimiters, s: System, e: Entry)
    requires GoodDelimiters(c) && Inv(c, s) && Enabled(c, s, Execute(e)) && e.event.ForwardUp?
    requires NextHeader(c, s).Some? && NextHeader(c, s).value.stamp >= 0
    requires Nondecreasing(Headers(c, s) + [NextHeader(c, s).value])
    ensures Apply(c, s, Execute(e)).fatal == Some(TimestampsNotIncreasing)
       <==> |Headers(c, s)| == 1 && NextHeader(c, s).value.stamp - Headers(c, s)[0].stamp < s.start
  {
    hide Accepted, Split, Select, Without, Parse;
    var h, hs := NextHeader(c, s).value, Headers(c, s);
    ForwardCases(c, s, e);
    Begin(c, s, e);
    if hs != [] { NewGrantNotEarlier(hs, h, s.g.timeStart, s.g.timePause, s.start); }
  }

  /** A stream in order keeps the next message in order. */
  lemma NextInOrder(c: Delimiters, s: System)
    requires GoodDelimiters(c) && Inv(c, s) && s.fatal.None? && OrderedStream(c, s.received)
    requires NextHeader(c, s).Some? && NextHeader(c, s).value.stamp >= 0
    ensures Nondecreasing(Headers(c, s) + [NextHeader(c, s).value])
  {
    hide Accepted, Split, Select, Without, Parse, Inv, Nondecreasing;
    assert s.popped + s.g.queue == (s.popped + [s.g.queue[0]]) + s.g.queue[1..];
    PrefixHeaders(c, s, s.popped + [s.g.queue[0]], s.g.queue[1..]);
    AcceptedAppend(c.f, s.popped, s.g.queue[0]);
  }

  /** With Connect at time 0 such a server never triggers the error, in any interleaving. */
  lemma NoFalseAlarm(c: Delimiters, s0: System, run: seq<Action>, s: System)
    requires GoodDelimiters(c) && Reached(c, s0, run, s) && s0.start == 0 && OrderedStream(c, s.received)
    ensures s.fatal != Some(TimestampsNotIncreasing)
  {
    hide Inv;
    InitialInv(c, s0);
    NoAlarmFrom(c, s0, run);
  }

  lemma {:induction false} NoAlarmFrom(c: Delimiters, s: System, run: seq<Action>)
    requires GoodDelimiters(c) && Inv(c, s) && Feasible(c, s, run) && s.start == 0
    requires s.fatal != Some(TimestampsNotIncreasing) && OrderedStream(c, End(c, s, run).received)
    ensures End(c, s, run).fatal != Some(TimestampsNotIncreasing)
    decreases |run|
  {
    hide Inv, Apply, OrderedStream;
    if run != [] {
      RunIsOrdered(c, s, run);
      StepKeeps(c, s, run[0]);
      NoAlarmStep(c, s, run[0]);
      NoAlarmFrom(c, Apply(c, s, run[0]), run[1..]);
    }
  }

  lemma NoAlarmStep(c: Delimiters, s: System, a: Action)
    requires GoodDelimiters(c) && Inv(c, s) && Enabled(c, s, a) && s.start == 0 && OrderedStream(c, s.received)
    ensures Apply(c, s, a).fatal != Some(TimestampsNotIncreasing) && Apply(c, s, a).start == 0
  {
    hide Split, Select, Without, Parse, Accepted;
    StartIsFixed(c, s, a);
    if a.Execute? && a.e.event.ForwardUp? {
      ForwardCases(c, s, a.e);
      if NextHeader(c, s).Some? && NextHeader(c, s).value.stamp >= 0 {
        NextInOrder(c, s);
        AlarmIffBeforeConnect(c, s, a.e);
        if Headers(c, s) != [] { NondecreasingLast(Headers(c, s), NextHeader(c, s).value); }
      }
    } else {
      OthersDoNotFail(c, s, a);
    }
  }

  lemma StartIsFixed(c: Delimiters, s: System, a: Action)
    requires GoodDelimiters(c)
    ensures Apply(c, s, a).start == s.start
  {
    hide Split, Find, Select, Without, Parse;
  }
}
