/** Progress: with stamps that increase from the second message on there is never more than one wait
    event, so a grant really lets the clock go. GatewayExact.dfy shows that the rule is also needed. */
module GatewayProgress {
  import opened Words
  import opened Events
  import opened GatewayEffects
  import opened GatewayRuns
  import opened GatewayInvariants
  import opened GatewayTheorems
  import opened GatewayOrder

  /** One wait event, the one m_eventWait names, and no update left at the pause time. */
  ghost predicate Held(g: Gw, l: Lanes)
  {
    l.waits != [] && l.waits == [l.waits[0]] && l.waits[0].id == g.eventWait
    && forall u :: u in l.callbacks && u.event.HandleUpdate? ==> u.time < g.timePause
  }

  /** No wait event, and exactly one update at the pause time. */
  ghost predicate Released(g: Gw, l: Lanes)
  {
    l.waits == []
    && exists e :: e in l.callbacks && e.event.HandleUpdate? && e.time == g.timePause
        && forall u :: u in l.callbacks && u.event.HandleUpdate? && u != e ==> u.time < g.timePause
  }

  ghost predicate OneHolder(s: System, l: Lanes)
  {
    match s.g.state
    case CONNECTED => Held(s.g, l) || Released(s.g, l)
    case _ => true
  }

  ghost predicate Single(s: System)
  {
    OneHolder(s, LanesOf(s.g.kernel.pending))
  }

  lemma WaitSingle(c: Delimiters, s: System, e: Entry)
    requires GoodDelimiters(c) && Core(c, s) && Single(s) && Enabled(c, s, Execute(e)) && e.event.WaitForNextUpdate?
    ensures Single(Apply(c, s, Execute(e)))
  {
    hide Select, Without, Split, Accepted, ControlInv;
    var l, g := LanesOf(s.g.kernel.pending), s.g.(kernel := s.g.kernel.Take(e));
    Begin(c, s, e);
    assert e in l.waits;
    if s.g.state == CONNECTED {
      LaneLeft(s.g.kernel, e, Wait);
      assert e == l.waits[0];
      assert Without(l.waits, e.id) == [];
      assert !g.kernel.IsPending(g.eventWait) by {
        forall o | o in s.g.kernel.pending && o.id == e.id ensures o == e { SameEntry(s.g.kernel.pending, o, e); }
      }
      assert CancelWait(g) == g;
      ScheduleWaitLands(g, Drop(l, e));
    }
  }

  lemma UpdateSingle(c: Delimiters, s: System, e: Entry)
    requires GoodDelimiters(c) && Core(c, s) && Single(s) && Enabled(c, s, Execute(e)) && e.event.HandleUpdate?
    ensures Single(Apply(c, s, Execute(e)))
  {
    hide Select, Without, Split, Accepted, ControlInv;
    var l, g := LanesOf(s.g.kernel.pending), s.g.(kernel := s.g.kernel.Take(e));
    Begin(c, s, e);
    LaneLeft(s.g.kernel, e, Callback);
    if e.time == s.g.timePause { ScheduleWaitLands(g, Drop(l, e)); }
  }

  lemma InitializeSingle(c: Delimiters, s: System, e: Entry)
    requires GoodDelimiters(c) && Core(c, s) && Single(s) && Enabled(c, s, Execute(e)) && e.event.DoInitialize?
    ensures Single(Apply(c, s, Execute(e)))
  {
    hide Select, Without, Split, Accepted, ControlInv;
    Begin(c, s, e);
    LaneLeft(s.g.kernel, e, Callback);
  }

  /** A normal message leaves no wait event if there was a single holder before it. */
  lemma NormalReleases(c: Delimiters, s: System, e: Entry, h: Header)
    requires GoodDelimiters(c) && Core(c, s) && Single(s) && Enabled(c, s, Execute(e)) && e.event.ForwardUp?
    requires NextHeader(c, s) == Some(h) && BranchOf(s.g, h).Normal? && h.stamp - s.g.timeStart >= e.time
    ensures var t := Apply(c, s, Execute(e));
            Of(t, Wait) == [] && t.g.timePause == h.stamp - s.g.timeStart && UpdateAt(Of(t, Callback), t.g.timePause)
  {
    hide Select, Without, Split, Accepted, Parse;
    var l, g := LanesOf(s.g.kernel.pending), s.g.(kernel := s.g.kernel.Take(e), queue := s.g.queue[1..]);
    ForwardCases(c, s, e);
    Begin(c, s, e);
    NormalLands(g, Drop(l, e), h);
    ForwardApplies(c, s, e, h);
    NoWaitLeft(s.g, l);
    var u := Entry(g.kernel.nextId, h.stamp - g.timeStart, HandleUpdate(h.values));
    assert u in l.callbacks + [u];
  }

  /** It keeps a single holder if its grant is later than every pending update. */
  lemma NormalSingle(c: Delimiters, s: System, e: Entry, h: Header)
    requires GoodDelimiters(c) && Core(c, s) && Single(s) && Enabled(c, s, Execute(e)) && e.event.ForwardUp?
    requires NextHeader(c, s) == Some(h) && BranchOf(s.g, h).Normal? && h.stamp - s.g.timeStart >= e.time
    requires forall u :: u in Of(s, Callback) && u.event.HandleUpdate? ==> u.time < h.stamp - s.g.timeStart
    ensures Single(Apply(c, s, Execute(e)))
  {
    hide Select, Without, Split, Accepted, Parse;
    var l, g := LanesOf(s.g.kernel.pending), s.g.(kernel := s.g.kernel.Take(e), queue := s.g.queue[1..]);
    ForwardCases(c, s, e);
    Begin(c, s, e);
    NormalLands(g, Drop(l, e), h);
    ForwardApplies(c, s, e, h);
    NoWaitLeft(s.g, l);
    var u := Entry(g.kernel.nextId, h.stamp - g.timeStart, HandleUpdate(h.values));
    assert u in l.callbacks + [u];
  }

  lemma NoWaitLeft(g: Gw, l: Lanes)
    requires Held(g, l) || Released(g, l)
    ensures Without(l.waits, g.eventWait) == []
  {
    if Held(g, l) { assert l.waits[..0] == []; }
  }

  lemma ForwardSingle(c: Delimiters, s: System, e: Entry)
    requires GoodDelimiters(c) && Core(c, s) && Single(s) && Enabled(c, s, Execute(e)) && e.event.ForwardUp?
    requires Apply(c, s, Execute(e)).fatal.None?
    requires NextHeader(c, s).Some? && BranchOf(s.g, NextHeader(c, s).value).Normal? ==>
      forall u :: u in Of(s, Callback) && u.event.HandleUpdate? ==>
        u.time < NextHeader(c, s).value.stamp - s.g.timeStart
    ensures Single(Apply(c, s, Execute(e)))
  {
    hide Select, Without, Split, Accepted, Parse;
    ForwardCases(c, s, e);
    Begin(c, s, e);
    var h, l := NextHeader(c, s).value, LanesOf(s.g.kernel.pending);
    var g := s.g.(kernel := s.g.kernel.Take(e), queue := s.g.queue[1..]);
    ForwardApplies(c, s, e, h);
    match BranchOf(s.g, h)
    case Terminate =>
    case First => InsertLands(g.(timeStart := h.stamp), Drop(l, e), 0, DoInitialize(h.values));
    case Normal => NormalSingle(c, s, e, h);
  }

  lemma QuietSingle(c: Delimiters, s: System, a: Action)
    requires GoodDelimiters(c) && Core(c, s) && Single(s) && Enabled(c, s, a) && Quiet(a)
    ensures Single(Apply(c, s, a))
  {
    hide Select, Without, Split, Accepted, ControlInv, Held, Released;
    var l := LanesOf(s.g.kernel.pending);
    match a {
      case Execute(e) =>
        Begin(c, s, e);
        if e.event.WaitForNextUpdate? { WaitSingle(c, s, e); } else { OtherSingle(c, s, e); }
      case Close => InsertSingle(s.g, l, Stop);
      case ScheduleForward => InsertSingle(s.g, l, ForwardUp);
      case Spawn(time) => InsertLands(s.g, l, time - s.g.kernel.now, Other); FieldsSingle(s.g, Apply(c, s, a).g, l);
      case Destroy =>
      case _ => FieldsSingle(s.g, Apply(c, s, a).g, l);
    }
  }

  lemma FieldsSingle(g: Gw, t: Gw, l: Lanes)
    requires t.eventWait == g.eventWait && t.timePause == g.timePause
    ensures Held(g, l) <==> Held(t, l)
    ensures Released(g, l) <==> Released(t, l)
  {
  }

  lemma InsertSingle(g: Gw, l: Lanes, event: Event)
    requires Lands(g, l) && (event.Stop? || event.ForwardUp?)
    ensures var t := g.(kernel := g.kernel.ScheduleNow(event));
            (Held(g, l) <==> Held(t, LanesOf(t.kernel.pending)))
            && (Released(g, l) <==> Released(t, LanesOf(t.kernel.pending)))
  {
    hide Select, Without;
    InsertLands(g, l, 0, event);
  }

  lemma OtherSingle(c: Delimiters, s: System, e: Entry)
    requires GoodDelimiters(c) && Core(c, s) && Single(s) && Enabled(c, s, Execute(e))
    requires KindOf(e.event) in {Stopping, Request, Packet, Foreign}
    ensures Single(Apply(c, s, Execute(e)))
  {
    hide Select, Without, Split, Accepted, ControlInv, Held, Released;
    var l := LanesOf(s.g.kernel.pending);
    Begin(c, s, e);
    FieldsSingle(s.g, s.g.(kernel := s.g.kernel.Take(e)), l);
  }

  // ----- stamps that increase from the second message on

  predicate EarlierStamp(hs: seq<Header>, i: int, j: int)
  {
    1 <= i < j < |hs| ==> hs[i].stamp < hs[j].stamp
  }

  /** In order, and no stamp repeated. The first stamp may come twice: it schedules no update. */
  ghost predicate StrictlyIncreasing(hs: seq<Header>)
  {
    Nondecreasing(hs) && forall i, j :: EarlierStamp(hs, i, j)
  }

  lemma StrictPrefix(a: seq<Header>, b: seq<Header>)
    requires StrictlyIncreasing(b) && a <= b
    ensures StrictlyIncreasing(a)
  {
    forall i, j ensures LaterStamp(a, i, j) && EarlierStamp(a, i, j) {
      assert LaterStamp(b, i, j) && EarlierStamp(b, i, j);
    }
  }

  lemma StrictLast(hs: seq<Header>, h: Header)
    requires StrictlyIncreasing(hs + [h]) && |hs| >= 2
    ensures Last(hs).stamp < h.stamp
  {
    assert EarlierStamp(hs + [h], |hs| - 1, |hs|);
  }

  /** The grant of a normal message is later than every update still pending. */
  lemma GrantIsLatest(c: Delimiters, s: System, h: Header)
    requires GoodDelimiters(c) && Inv(c, s) && s.fatal.None? && Delivering(c, s)
    requires BranchOf(s.g, h).Normal? && StrictlyIncreasing(Headers(c, s) + [h])
    ensures forall u :: u in Of(s, Callback) && u.event.HandleUpdate? ==> u.time < h.stamp - s.g.timeStart
  {
    hide Select, Without, Split, Accepted, Parse, StrictlyIncreasing, KernelInv;
    var hs := Headers(c, s);
    if |hs| >= 2 { StrictLast(hs, h); }
  }

  lemma StepSingle(c: Delimiters, s: System, a: Action)
    requires GoodDelimiters(c) && Inv(c, s) && Delivering(c, s) && Single(s) && Enabled(c, s, a)
    requires Apply(c, s, a).fatal.None? && StrictlyIncreasing(Headers(c, Apply(c, s, a)))
    ensures Single(Apply(c, s, a))
  {
    hide Core, Framed, Delivering, Single, Apply, Parse, StrictlyIncreasing;
    CoreOf(c, s);
    if Quiet(a) {
      QuietSingle(c, s, a);
    } else if a.e.event.ForwardUp? {
      ForwardCases(c, s, a.e);
      if NextHeader(c, s).Some? && BranchOf(s.g, NextHeader(c, s).value).Normal? {
        ForwardFacts(c, s, a.e, NextHeader(c, s).value);
        GrantIsLatest(c, s, NextHeader(c, s).value);
      }
      ForwardSingle(c, s, a.e);
    } else if a.e.event.DoInitialize? {
      InitializeSingle(c, s, a.e);
    } else {
      UpdateSingle(c, s, a.e);
    }
  }

  lemma {:induction false} RunSingle(c: Delimiters, s: System, run: seq<Action>)
    requires GoodDelimiters(c) && Inv(c, s) && s.fatal.None? && Delivering(c, s) && Single(s) && Feasible(c, s, run)
    requires StrictlyIncreasing(Headers(c, End(c, s, run))) && End(c, s, run).fatal.None?
    ensures Single(End(c, s, run)) && Delivering(c, End(c, s, run))
    decreases |run|
  {
    hide Inv, Core, Delivering, Single, Apply, Headers, Nondecreasing;
    if run != [] {
      var t := Apply(c, s, run[0]);
      StepKeeps(c, s, run[0]);
      if t.fatal.Some? {
        FatalIsFinal(c, t, run[1..]);
      } else {
        CoreOf(c, s);
        HeadersGrowAlong(c, t, run[1..]);
        StrictPrefix(Headers(c, t), Headers(c, End(c, s, run)));
        StepDelivers(c, s, run[0]);
        StepSingle(c, s, run[0]);
        RunSingle(c, t, run[1..]);
      }
    }
  }

  lemma InitialSingle(c: Delimiters, s0: System)
    requires GoodDelimiters(c) && Initial(s0)
    ensures Inv(c, s0) && s0.fatal.None? && Delivering(c, s0) && Single(s0)
  {
    hide Inv, Select;
    InitialDelivers(c, s0);
    InitialInv(c, s0);
  }

  lemma ReachedSingle(c: Delimiters, s0: System, run: seq<Action>, s: System)
    requires GoodDelimiters(c) && Reached(c, s0, run, s) && s.fatal.None? && StrictlyIncreasing(Headers(c, s))
    ensures Single(s) && Delivering(c, s) && Inv(c, s)
  {
    hide Inv, Delivering, Single, StrictlyIncreasing, Headers, Apply;
    InitialSingle(c, s0);
    RunSingle(c, s0, run);
    ReachedInv(c, s0, run, s);
  }

  // ----- the theorems

  /** While connected: a wait event is pending iff no update is pending at the pause time; there is
      at most one wait event, and it is the one m_eventWait names. */
  lemma ExactlyOneHolder(c: Delimiters, s0: System, run: seq<Action>, s: System)
    requires GoodDelimiters(c) && Reached(c, s0, run, s) && s.fatal.None? && s.g.state == CONNECTED
    requires StrictlyIncreasing(Headers(c, s))
    ensures Of(s, Wait) == [] <==> UpdateAt(Of(s, Callback), s.g.timePause)
    ensures |Of(s, Wait)| <= 1 && (Of(s, Wait) != [] ==> Of(s, Wait)[0].id == s.g.eventWait)
  {
    hide Inv, Delivering, StrictlyIncreasing, Select;
    ReachedSingle(c, s0, run, s);
    var l := LanesOf(s.g.kernel.pending);
    if Held(s.g, l) { assert |l.waits| == |[l.waits[0]]|; }
  }

  /** If the messages before it kept the rule, no wait event survives a normal message, whatever its
      own stamp: the only thing between the clock and the new pause time is the update waiting there. */
  lemma GrantReleasesClock(c: Delimiters, s0: System, run: seq<Action>, s: System, e: Entry)
    requires GoodDelimiters(c) && Reached(c, s0, run, s) && StrictlyIncreasing(Headers(c, s))
    requires Enabled(c, s, Execute(e)) && e.event.ForwardUp? && Apply(c, s, Execute(e)).fatal.None?
    requires NextHeader(c, s).Some? && BranchOf(s.g, NextHeader(c, s).value).Normal?
    ensures var t := Apply(c, s, Execute(e));
            t.g.timePause == NextHeader(c, s).value.stamp - s.g.timeStart
            && Of(t, Wait) == [] && UpdateAt(Of(t, Callback), t.g.timePause)
  {
    hide Core, Framed, Delivering, StrictlyIncreasing, Select, Parse, Apply, Single;
    ReachedSingle(c, s0, run, s);
    CoreOf(c, s);
    ForwardCases(c, s, e);
    NormalReleases(c, s, e, NextHeader(c, s).value);
  }

  /** A message repeats a grant iff an update granted for the same time has not run yet: that, and
      nothing else, ends the state with a single holder. */
  lemma RepeatedGrantIff(c: Delimiters, s0: System, run: seq<Action>, s: System, e: Entry)
    requires GoodDelimiters(c) && Reached(c, s0, run, s) && StrictlyIncreasing(Headers(c, s))
    requires Enabled(c, s, Execute(e)) && e.event.ForwardUp? && Apply(c, s, Execute(e)).fatal.None?
    requires NextHeader(c, s).Some? && BranchOf(s.g, NextHeader(c, s).value).Normal?
    requires Nondecreasing(Headers(c, Apply(c, s, Execute(e))))
    ensures Single(Apply(c, s, Execute(e)))
       <==> !UpdateAt(Of(s, Callback), NextHeader(c, s).value.stamp - s.g.timeStart)
  {
    hide Core, Framed, StrictlyIncreasing, Select, Parse, Apply, Single;
    ReachedSingle(c, s0, run, s);
    CoreOf(c, s);
    ForwardCases(c, s, e);
    var h := NextHeader(c, s).value;
    ForwardFacts(c, s, e, h);
    NormalReleases(c, s, e, h);
    GrantNotBefore(c, s, h);
    if UpdateAt(Of(s, Callback), h.stamp - s.g.timeStart) {
      RepeatedIsNotSingle(c, s, e, h);
    } else {
      ForwardSingle(c, s, e);
    }
  }

  /** Every pending update is due no later than the next grant. */
  lemma GrantNotBefore(c: Delimiters, s: System, h: Header)
    requires GoodDelimiters(c) && Core(c, s) && s.fatal.None? && Delivering(c, s)
    requires BranchOf(s.g, h).Normal? && Nondecreasing(Headers(c, s) + [h])
    ensures forall u :: u in Of(s, Callback) && u.event.HandleUpdate? ==> u.time <= h.stamp - s.g.timeStart
  {
    hide Select, Without, Split, Accepted, Parse, KernelInv, Nondecreasing;
    var hs := Headers(c, s);
    if hs != [] { NondecreasingLast(hs, h); }
  }

  lemma RepeatedIsNotSingle(c: Delimiters, s: System, e: Entry, h: Header)
    requires GoodDelimiters(c) && Core(c, s) && Enabled(c, s, Execute(e)) && e.event.ForwardUp?
    requires s.g.state == CONNECTED
    requires NextHeader(c, s) == Some(h) && BranchOf(s.g, h).Normal? && h.stamp - s.g.timeStart >= e.time
    requires UpdateAt(Of(s, Callback), h.stamp - s.g.timeStart)
    ensures !Single(Apply(c, s, Execute(e)))
  {
    hide Select, Without, Split, Accepted, Parse, ControlInv, Held, Released;
    var l, g := LanesOf(s.g.kernel.pending), s.g.(kernel := s.g.kernel.Take(e), queue := s.g.queue[1..]);
    Begin(c, s, e);
    NormalLands(g, Drop(l, e), h);
    ForwardApplies(c, s, e, h);
    var n := Entry(g.kernel.nextId, h.stamp - g.timeStart, HandleUpdate(h.values));
    assert forall u :: u in l.callbacks ==> u in s.g.kernel.pending && u.id < n.id;
    TwoAtPause(Apply(c, s, Execute(e)).g, LanesOf(Apply(c, s, Execute(e)).g.kernel.pending), l.callbacks, n);
  }

  /** Two updates at the pause time: neither holder is alone. */
  lemma TwoAtPause(g: Gw, l: Lanes, callbacks: seq<Entry>, n: Entry)
    requires l.callbacks == callbacks + [n] && n.event.HandleUpdate? && n.time == g.timePause
    requires UpdateAt(callbacks, g.timePause) && forall u :: u in callbacks ==> u.id < n.id
    ensures !Held(g, l) && !Released(g, l)
  {
    var u :| u in callbacks && u.event.HandleUpdate? && u.time == g.timePause;
    assert u in l.callbacks && n in l.callbacks && u != n;
  }

  /** Stop leaves no wait event either: the gateway no longer holds the clock. */
  lemma StopReleasesClock(c: Delimiters, s0: System, run: seq<Action>, s: System, a: Action)
    requires GoodDelimiters(c) && Reached(c, s0, run, s) && StrictlyIncreasing(Headers(c, s)) && s.g.state == CONNECTED
    requires Enabled(c, s, a) && (a.Destroy? || (a.Execute? && a.e.event.Stop?))
    ensures Of(Apply(c, s, a), Wait) == [] && Apply(c, s, a).g.state == STOPPING
  {
    hide Core, Framed, Delivering, StrictlyIncreasing, Select, Without, Parse, Split;
    ReachedSingle(c, s0, run, s);
    CoreOf(c, s);
    StopSingle(c, s, a);
  }

  lemma StopSingle(c: Delimiters, s: System, a: Action)
    requires GoodDelimiters(c) && Core(c, s) && s.fatal.None? && Single(s) && s.g.state == CONNECTED
    requires Enabled(c, s, a) && (a.Destroy? || (a.Execute? && a.e.event.Stop?))
    ensures Of(Apply(c, s, a), Wait) == [] && Apply(c, s, a).g.state == STOPPING
  {
    hide Select, Without, Parse, Split, Accepted, ControlInv;
    var l := LanesOf(s.g.kernel.pending);
    NoWaitLeft(s.g, l);
    if a.Destroy? {
      StopLands(s.g, l);
    } else {
      Begin(c, s, a.e);
      StopLands(s.g.(kernel := s.g.kernel.Take(a.e)), Drop(l, a.e));
    }
  }
}
