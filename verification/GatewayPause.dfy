/** What a pause and a grant do to the clock: a wait event freezes it until another message arrives,
    and a released clock reaches the pause time. */
module GatewayPause {
  import opened Words
  import opened Events
  import opened GatewayEffects
  import opened GatewayRuns
  import opened GatewayInvariants
  import opened GatewayProgress

  // ----- a wait event freezes the clock

  /** Nothing but a wait event: no message is being forwarded and the connection is open. */
  ghost predicate Frozen(s: System)
  {
    match s.fatal
    case Some(_) => false
    case None => s.g.state == CONNECTED && Of(s, Wait) != [] && Of(s, Forward) == [] && Of(s, Stopping) == []
  }

  /** The actions by which another message, or the end of the connection, reaches the simulator. */
  predicate Interrupts(a: Action)
  {
    a.ScheduleForward? || a.Close? || a.Destroy?
  }

  lemma FrozenEvent(c: Delimiters, s: System, e: Entry)
    requires GoodDelimiters(c) && Core(c, s) && Frozen(s) && Enabled(c, s, Execute(e))
    ensures Frozen(Apply(c, s, Execute(e))) && Apply(c, s, Execute(e)).g.kernel.now == s.g.kernel.now
  {
    hide Select, Without, Split, Accepted, ControlInv;
    var l, g := LanesOf(s.g.kernel.pending), s.g.(kernel := s.g.kernel.Take(e));
    FrozenClock(c, s, e);
    Begin(c, s, e);
    match e.event {
      case WaitForNextUpdate => var waits := WaitLands(g, Drop(l, e));
      case HandleUpdate(_) => var waits := UpdateLands(g, Drop(l, e)); FrozenUpdate(g, Drop(l, e));
      case _ =>
    }
  }

  /** The next event is due now, and is neither a message nor the end of the connection. */
  lemma FrozenClock(c: Delimiters, s: System, e: Entry)
    requires GoodDelimiters(c) && Core(c, s) && Frozen(s) && Enabled(c, s, Execute(e))
    ensures e.time == s.g.kernel.now && !e.event.ForwardUp? && !e.event.Stop?
  {
    hide Select, Accepted, Split;
    assert e in Select(s.g.kernel.pending, KindOf(e.event));
    NextWithinHorizon(s.g.kernel, s.g.eventWait, e, s.g.state, s.start, Headers(c, s), s.g.timePause,
                      LanesOf(s.g.kernel.pending));
  }

  lemma FrozenStep(c: Delimiters, s: System, a: Action)
    requires GoodDelimiters(c) && Inv(c, s) && Frozen(s) && Enabled(c, s, a) && !Interrupts(a)
    ensures Frozen(Apply(c, s, a)) && Apply(c, s, a).g.kernel.now == s.g.kernel.now
  {
    hide Select, Without, Split, Find, ControlInv, Framed, RunEvent;
    CoreOf(c, s);
    if a.Execute? {
      FrozenEvent(c, s, a.e);
    } else if a.Spawn? {
      InsertLands(s.g, LanesOf(s.g.kernel.pending), a.time - s.g.kernel.now, Other);
    }
  }

  lemma FrozenUpdate(g: Gw, l: Lanes)
    requires Lands(g, l) && l.waits != []
    ensures LanesOf(UpdateEffect(g).kernel.pending).waits != []
  {
    hide Select, Without;
    if g.kernel.now == g.timePause { ScheduleWaitLands(g, l); }
  }

  /** However long the simulator runs, time stands still until another message is forwarded. */
  lemma {:induction false} ClockStaysFrozen(c: Delimiters, s: System, run: seq<Action>)
    requires GoodDelimiters(c) && Inv(c, s) && Frozen(s) && Feasible(c, s, run)
    requires forall a :: a in run ==> !Interrupts(a)
    ensures Frozen(End(c, s, run)) && End(c, s, run).g.kernel.now == s.g.kernel.now
    decreases |run|
  {
    hide Inv, Frozen, Apply;
    if run != [] {
      StepKeeps(c, s, run[0]);
      FrozenStep(c, s, run[0]);
      ClockStaysFrozen(c, Apply(c, s, run[0]), run[1..]);
    }
  }

  // ----- superfluous wait events

  /** A wait event that runs while another one is named by m_eventWait removes that one: the number of
      wait events goes down until m_eventWait names the only one, and it never grows. */
  lemma DuplicateWaitsCollapse(c: Delimiters, s: System, e: Entry)
    requires GoodDelimiters(c) && Inv(c, s) && Enabled(c, s, Execute(e)) && e.event.WaitForNextUpdate?
    requires s.g.state == CONNECTED
    ensures var t := Apply(c, s, Execute(e));
            |Of(t, Wait)| == |Of(s, Wait)|
              - (if e.id != s.g.eventWait && s.g.kernel.IsPending(s.g.eventWait) then 1 else 0)
            && t.g.kernel.IsPending(t.g.eventWait)
  {
    hide Select, Without, Split, Accepted, ControlInv, Framed;
    var l, g := LanesOf(s.g.kernel.pending), s.g.(kernel := s.g.kernel.Take(e));
    Begin(c, s, e);
    LaneLeft(s.g.kernel, e, Wait);
    CancelLands(g, Drop(l, e));
    ScheduleWaitLands(CancelWait(g), l.(waits := Without(Without(l.waits, e.id), g.eventWait)));
    NamedWait(s.g, g, e, l);
    var n := Entry(g.kernel.nextId, g.kernel.now, WaitForNextUpdate);
    assert n in Apply(c, s, Execute(e)).g.kernel.pending;
  }

  /** What cancelling m_eventWait removes from the waits left by e. */
  lemma NamedWait(g: Gw, h: Gw, e: Entry, l: Lanes)
    requires Lands(g, l) && h == g.(kernel := g.kernel.Take(e)) && Lands(h, Drop(l, e)) && e.event.WaitForNextUpdate?
    requires e in g.kernel.pending
    ensures |Without(Without(l.waits, e.id), g.eventWait)|
         == |Without(l.waits, e.id)| - if e.id != g.eventWait && g.kernel.IsPending(g.eventWait) then 1 else 0
  {
    hide Select, Without;
    var q := Without(l.waits, e.id);
    if e.id != g.eventWait && g.kernel.IsPending(g.eventWait) {
      var w :| w in g.kernel.pending && w.id == g.eventWait;
      assert w in h.kernel.pending && w in q;
      IncreasingParts(h.kernel.pending, 0, Wait);
      WithoutShrinks(q, w);
    } else {
      forall u | u in q ensures u.id != g.eventWait { assert u in h.kernel.pending && u in g.kernel.pending; }
      WithoutAbsent(q, g.eventWait);
    }
  }

  // ----- a released clock reaches the pause time

  /** Released, and nothing else of the gateway is scheduled for now. */
  ghost predicate Free(s: System)
  {
    match s.fatal
    case Some(_) => false
    case None =>
      s.g.state == CONNECTED && !s.g.halted && Of(s, Forward) == [] && Of(s, Stopping) == []
      && Released(s.g, LanesOf(s.g.kernel.pending))
  }

  lemma FreeStep(c: Delimiters, s: System, e: Entry)
    requires GoodDelimiters(c) && Core(c, s) && Free(s) && s.g.kernel.IsNext(e)
    ensures var t := Apply(c, s, Execute(e));
            t.g.timePause == s.g.timePause && |t.g.kernel.pending| <= |s.g.kernel.pending|
            && (if e.event.HandleUpdate? && e.time == s.g.timePause
                then t.g.kernel.now == s.g.timePause && Of(t, Wait) != []
                else Free(t) && |t.g.kernel.pending| < |s.g.kernel.pending|)
  {
    hide Select, Without, Split, Accepted, ControlInv;
    var l, g := LanesOf(s.g.kernel.pending), s.g.(kernel := s.g.kernel.Take(e));
    TakeSelect(s.g.kernel, e);
    Begin(c, s, e);
    assert e in Select(s.g.kernel.pending, KindOf(e.event));
    match e.event {
      case HandleUpdate(_) =>
        LaneLeft(s.g.kernel, e, Callback);
        if e.time == s.g.timePause { ScheduleWaitLands(g, Drop(l, e)); }
      case DoInitialize(_) => LaneLeft(s.g.kernel, e, Callback);
      case _ => FreeOther(g, s.g, l);
    }
  }

  lemma FreeOther(g: Gw, was: Gw, l: Lanes)
    requires g.timePause == was.timePause && Released(was, l)
    ensures Released(g, l)
  {
  }

  /** From a released state the simulator alone, running its events, brings the clock to exactly the
      pause time, where the update runs and a wait event holds the clock again. */
  lemma ReleasedClockReachesPause(c: Delimiters, s: System) returns (run: seq<Action>)
    requires GoodDelimiters(c) && Core(c, s) && Free(s)
    ensures Feasible(c, s, run) && (forall a :: a in run ==> a.Execute?)
    ensures var t := End(c, s, run);
            t.g.kernel.now == s.g.timePause && t.g.timePause == s.g.timePause && Of(t, Wait) != []
    decreases |s.g.kernel.pending|
  {
    hide Core, Select, Released, Apply;
    FreeHasEvent(s);
    var e := SomeEventIsNext(s.g.kernel.pending);
    FreeStep(c, s, e);
    var t := Apply(c, s, Execute(e));
    assert Enabled(c, s, Execute(e));
    EventKeeps(c, s, e);
    if e.event.HandleUpdate? && e.time == s.g.timePause {
      run := [Execute(e)];
      assert run[1..] == [];
    } else {
      var rest := ReleasedClockReachesPause(c, t);
      run := [Execute(e)] + rest;
      assert run[1..] == rest;
    }
  }

  lemma FreeHasEvent(s: System)
    requires Free(s)
    ensures s.g.kernel.pending != []
  {
    var l := LanesOf(s.g.kernel.pending);
    var e :| e in l.callbacks && e.event.HandleUpdate? && e.time == s.g.timePause;
    assert e in s.g.kernel.pending;
  }
}
