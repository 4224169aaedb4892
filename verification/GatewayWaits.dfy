/** Counting the wait events: every update that runs at the pause time leaves one, and the simulator
    alone can pile up exactly as many as there are such updates. */
module GatewayWaits {
  import opened Words
  import opened Events
  import opened GatewayEffects
  import opened GatewayRuns
  import opened GatewayThread
  import opened GatewayInvariants
  import opened GatewayPause

  predicate Grants(e: Entry, pause: int)
  {
    e.event.HandleUpdate? && e.time == pause
  }

  /** How many updates are pending at the pause time. */
  function AtPause(q: seq<Entry>, pause: int): nat
  {
    if q == [] then 0 else AtPause(Init(q), pause) + if Grants(Last(q), pause) then 1 else 0
  }

  lemma AtPauseAppend(q: seq<Entry>, e: Entry, pause: int)
    ensures AtPause(q + [e], pause) == AtPause(q, pause) + if Grants(e, pause) then 1 else 0
  {
    assert Init(q + [e]) == q;
  }

  lemma {:induction false} AtPauseWithout(q: seq<Entry>, e: Entry, pause: int)
    requires Increasing(q) && e in q
    ensures AtPause(Without(q, e.id), pause) == AtPause(q, pause) - if Grants(e, pause) then 1 else 0
  {
    hide Without;
    var p, l := q[..|q| - 1], q[|q| - 1];
    assert q == p + [l] && Init(q) == p;
    IncreasingInit(q);
    WithoutAppend(p, l, e.id);
    if l == e {
      WithoutAbsent(p, e.id);
      assert p + [] == p;
    } else {
      AtPauseWithout(p, e, pause);
      AtPauseAppend(Without(p, e.id), l, pause);
    }
  }

  lemma {:induction false} AtPauseNone(q: seq<Entry>, pause: int)
    ensures AtPause(q, pause) == 0 <==> forall e :: e in q ==> !Grants(e, pause)
  {
    if q != [] {
      AtPauseNone(Init(q), pause);
      assert q == Init(q) + [Last(q)] && Last(q) in q;
    }
  }

  /** Wait events, and updates that will leave one. */
  function Holders(s: System): nat
  {
    |Of(s, Wait)| + AtPause(Of(s, Callback), s.g.timePause)
  }

  /** Connected and running, with no message and no end of the connection scheduled. */
  ghost predicate Sleeping(c: Delimiters, s: System)
    requires GoodDelimiters(c)
  {
    match s.fatal
    case Some(_) => false
    case None => Inv(c, s) && s.g.state == CONNECTED && !s.g.halted && Of(s, Forward) == [] && Of(s, Stopping) == []
  }

  lemma CallbackHolders(c: Delimiters, s: System, e: Entry)
    requires GoodDelimiters(c) && Core(c, s) && Enabled(c, s, Execute(e)) && KindOf(e.event) == Callback
    ensures Holders(Apply(c, s, Execute(e))) == Holders(s)
    ensures Of(Apply(c, s, Execute(e)), Forward) == Of(s, Forward)
    ensures Of(Apply(c, s, Execute(e)), Stopping) == Of(s, Stopping)
  {
    hide Select, Without, Split, Accepted, ControlInv, AtPause;
    var l, g := LanesOf(s.g.kernel.pending), s.g.(kernel := s.g.kernel.Take(e));
    Begin(c, s, e);
    LaneLeft(s.g.kernel, e, Callback);
    IncreasingParts(s.g.kernel.pending, 0, Callback);
    AtPauseWithout(l.callbacks, e, s.g.timePause);
    if Grants(e, s.g.timePause) {
      ScheduleWaitLands(g, Drop(l, e));
    }
  }

  lemma WaitHolders(c: Delimiters, s: System, e: Entry)
    requires GoodDelimiters(c) && Inv(c, s) && Enabled(c, s, Execute(e)) && e.event.WaitForNextUpdate?
    requires s.g.state == CONNECTED
    ensures Holders(Apply(c, s, Execute(e))) <= Holders(s)
    ensures Of(Apply(c, s, Execute(e)), Forward) == Of(s, Forward)
    ensures Of(Apply(c, s, Execute(e)), Stopping) == Of(s, Stopping)
  {
    hide Select, Without, Split, Accepted, ControlInv, Framed, AtPause;
    var l, g := LanesOf(s.g.kernel.pending), s.g.(kernel := s.g.kernel.Take(e));
    DuplicateWaitsCollapse(c, s, e);
    Begin(c, s, e);
    var waits := WaitLands(g, Drop(l, e));
  }

  lemma OtherHolders(c: Delimiters, s: System, e: Entry)
    requires GoodDelimiters(c) && Core(c, s) && Enabled(c, s, Execute(e))
    requires KindOf(e.event) in {Request, Packet, Foreign}
    ensures Holders(Apply(c, s, Execute(e))) == Holders(s)
    ensures Of(Apply(c, s, Execute(e)), Forward) == Of(s, Forward)
    ensures Of(Apply(c, s, Execute(e)), Stopping) == Of(s, Stopping)
  {
    hide Select, Without, Split, Accepted, ControlInv, AtPause;
    Begin(c, s, e);
  }

  /** No event but a message changes the number of holders, except that a wait event may lower it. */
  lemma EventHolders(c: Delimiters, s: System, e: Entry)
    requires GoodDelimiters(c) && Inv(c, s) && Enabled(c, s, Execute(e)) && s.g.state == CONNECTED
    requires !e.event.ForwardUp? && !e.event.Stop?
    ensures var t := Apply(c, s, Execute(e));
            Holders(t) <= Holders(s) && (!e.event.WaitForNextUpdate? ==> Holders(t) == Holders(s))
            && Of(t, Forward) == Of(s, Forward) && Of(t, Stopping) == Of(s, Stopping)
    ensures var t := Apply(c, s, Execute(e));
            Inv(c, t) && t.fatal.None? && t.g.state == CONNECTED && !t.g.halted && t.g.timePause == s.g.timePause
  {
    hide Holders, Select, Core, Framed, Apply, Split, Accepted;
    StepKeeps(c, s, Execute(e));
    CoreOf(c, s);
    EventFields(c, s, e);
    match KindOf(e.event) {
      case Callback => CallbackHolders(c, s, e);
      case Wait => WaitHolders(c, s, e);
      case _ => OtherHolders(c, s, e);
    }
  }

  lemma EventFields(c: Delimiters, s: System, e: Entry)
    requires GoodDelimiters(c) && s.fatal.None? && s.g.state == CONNECTED && !e.event.ForwardUp? && !e.event.Stop?
    ensures var t := Apply(c, s, Execute(e));
            t.fatal.None? && t.g.state == CONNECTED && t.g.halted == s.g.halted && t.g.timePause == s.g.timePause
  {
    hide Select, Without;
  }

  /** Events of the simulator without messages, and with or without wait events. */
  ghost predicate Idle(run: seq<Action>, waits: bool)
  {
    forall a :: a in run ==>
      a.Execute? && !a.e.event.ForwardUp? && !a.e.event.Stop? && (a.e.event.WaitForNextUpdate? ==> waits)
  }

  lemma {:induction false} RunHolders(c: Delimiters, s: System, run: seq<Action>, waits: bool)
    requires GoodDelimiters(c) && Inv(c, s) && s.fatal.None? && s.g.state == CONNECTED && Feasible(c, s, run)
    requires Idle(run, waits)
    ensures var t := End(c, s, run);
            Holders(t) <= Holders(s) && (!waits ==> Holders(t) == Holders(s))
            && Of(t, Forward) == Of(s, Forward) && Of(t, Stopping) == Of(s, Stopping)
            && Inv(c, t) && t.fatal.None? && t.g.state == CONNECTED && t.g.halted == s.g.halted
            && t.g.timePause == s.g.timePause
    decreases |run|
  {
    hide Inv, Holders, Apply, Of;
    if run != [] {
      assert run[0] in run && forall a :: a in run[1..] ==> a in run;
      EventHolders(c, s, run[0].e);
      RunHolders(c, Apply(c, s, run[0]), run[1..], waits);
    }
  }

  /** With no message scheduled, the simulator executes nothing else. */
  lemma {:induction false} SleepingRun(c: Delimiters, s: System, run: seq<Action>)
    requires GoodDelimiters(c) && Sleeping(c, s) && Feasible(c, s, run) && forall a :: a in run ==> a.Execute?
    ensures Idle(run, true) && Sleeping(c, End(c, s, run)) && Holders(End(c, s, run)) <= Holders(s)
    decreases |run|
  {
    hide Inv, Holders, Apply;
    if run != [] {
      assert run[0] in run && forall a :: a in run[1..] ==> a in run;
      NoMessageNext(c, s, run[0].e);
      EventHolders(c, s, run[0].e);
      SleepingRun(c, Apply(c, s, run[0]), run[1..]);
      assert forall a :: a in run ==> a == run[0] || a in run[1..];
    }
  }

  lemma NoMessageNext(c: Delimiters, s: System, e: Entry)
    requires GoodDelimiters(c) && Sleeping(c, s) && Enabled(c, s, Execute(e))
    ensures !e.event.ForwardUp? && !e.event.Stop?
  {
    assert e.event.ForwardUp? ==> e in Of(s, Forward);
    assert e.event.Stop? ==> e in Of(s, Stopping);
  }

  lemma NoneOf(s: System, kind: Kind)
    requires Of(s, kind) == []
    ensures forall f :: f in s.g.kernel.pending ==> KindOf(f.event) != kind
  {
    hide Select;
    assert forall f :: f in s.g.kernel.pending && KindOf(f.event) == kind ==> f in Of(s, kind);
  }

  // ----- and they can all become wait events

  /** The wait events come after every update that is still to leave one. */
  ghost predicate WaitsLast(s: System)
  {
    forall w :: w in s.g.kernel.pending && w.event.WaitForNextUpdate? ==>
      s.g.kernel.now == s.g.timePause && forall u :: u in s.g.kernel.pending && Grants(u, s.g.timePause) ==> u.id < w.id
  }

  lemma UpdateBeforeWaits(c: Delimiters, s: System, e: Entry)
    requires GoodDelimiters(c) && Core(c, s) && s.fatal.None? && WaitsLast(s) && s.g.kernel.IsNext(e)
    requires AtPause(Of(s, Callback), s.g.timePause) > 0
    ensures !e.event.WaitForNextUpdate?
  {
    hide Select, ControlInv;
    AtPauseNone(Of(s, Callback), s.g.timePause);
    var u :| u in Of(s, Callback) && Grants(u, s.g.timePause);
    assert u in s.g.kernel.pending;
  }

  lemma WaitsStayLast(c: Delimiters, s: System, e: Entry)
    requires GoodDelimiters(c) && Core(c, s) && WaitsLast(s) && Enabled(c, s, Execute(e))
    requires !e.event.ForwardUp? && !e.event.Stop? && !e.event.WaitForNextUpdate?
    ensures WaitsLast(Apply(c, s, Execute(e)))
    ensures forall x :: x in Apply(c, s, Execute(e)).g.kernel.pending && !x.event.WaitForNextUpdate? ==>
              x in s.g.kernel.pending
    ensures e !in Apply(c, s, Execute(e)).g.kernel.pending
  {
    hide Select, Without, ControlInv, Split, Accepted;
    Begin(c, s, e);
  }

  /** The simulator alone turns every pending holder into a wait event. */
  lemma ReachHolders(c: Delimiters, s: System) returns (run: seq<Action>)
    requires GoodDelimiters(c) && Sleeping(c, s) && WaitsLast(s)
    ensures Feasible(c, s, run) && (forall a: Action :: a in run ==> a.Execute?)
    ensures |Of(End(c, s, run), Wait)| == Holders(s)
    decreases set x | x in s.g.kernel.pending && !x.event.WaitForNextUpdate?
  {
    hide Inv, Core, Apply, WaitsLast, AtPause, Select;
    if AtPause(Of(s, Callback), s.g.timePause) == 0 {
      run := [];
    } else {
      CoreOf(c, s);
      HasEvent(s);
      var e := SomeEventIsNext(s.g.kernel.pending);
      assert Enabled(c, s, Execute(e));
      NoMessageNext(c, s, e);
      UpdateBeforeWaits(c, s, e);
      EventHolders(c, s, e);
      WaitsStayLast(c, s, e);
      FewerLeft(s, e, Apply(c, s, Execute(e)));
      var rest := ReachHolders(c, Apply(c, s, Execute(e)));
      RunFirst(c, s, Execute(e), rest);
      run := [Execute(e)] + rest;
    }
  }

  lemma HasEvent(s: System)
    requires AtPause(Of(s, Callback), s.g.timePause) > 0
    ensures s.g.kernel.pending != []
  {
    hide Select;
    AtPauseNone(Of(s, Callback), s.g.timePause);
    var u :| u in Of(s, Callback);
    assert u in s.g.kernel.pending;
  }

  lemma FewerLeft(s: System, e: Entry, t: System)
    requires e in s.g.kernel.pending && !e.event.WaitForNextUpdate? && e !in t.g.kernel.pending
    requires forall x :: x in t.g.kernel.pending && !x.event.WaitForNextUpdate? ==> x in s.g.kernel.pending
    ensures (set x | x in t.g.kernel.pending && !x.event.WaitForNextUpdate?)
          < (set x | x in s.g.kernel.pending && !x.event.WaitForNextUpdate?)
  {
    var a := set x | x in t.g.kernel.pending && !x.event.WaitForNextUpdate?;
    var b := set x | x in s.g.kernel.pending && !x.event.WaitForNextUpdate?;
    assert e in b && e !in a;
  }

  /** From a state without a wait event the simulator alone can reach n of them iff n updates are
      pending at the pause time: a second one iff a grant was repeated before its update ran. */
  lemma WaitsReachableIff(c: Delimiters, s: System, n: nat)
    requires GoodDelimiters(c) && Sleeping(c, s) && Of(s, Wait) == []
    ensures (exists run: seq<Action> ::
               Feasible(c, s, run) && (forall a: Action :: a in run ==> a.Execute?) && |Of(End(c, s, run), Wait)| >= n)
       <==> n <= AtPause(Of(s, Callback), s.g.timePause)
  {
    hide Inv, AtPause, Select, Apply;
    assert WaitsLast(s) by {
      forall w | w in s.g.kernel.pending && w.event.WaitForNextUpdate? ensures w in Of(s, Wait) {}
    }
    var all := ReachHolders(c, s);
    forall run: seq<Action> | Feasible(c, s, run) && (forall a: Action :: a in run ==> a.Execute?)
      ensures |Of(End(c, s, run), Wait)| <= AtPause(Of(s, Callback), s.g.timePause)
    {
      SleepingRun(c, s, run);
    }
  }
}
