/** When the clock stands still for good before a time that has been granted: in some run of a stream
    exactly when it repeats a stamp, and a later stamp follows. */
module GatewayFreeze {
  import opened Words
  import opened Framing
  import opened Events
  import opened GatewayEffects
  import opened GatewayRuns
  import opened GatewayThread
  import opened GatewayInvariants
  import opened GatewayTheorems
  import opened GatewayOrder
  import opened GatewayProgress
  import opened GatewayPause
  import opened GatewaySteering
  import opened GatewayBurst
  import opened GatewayWaits
  import opened GatewayExact
  import opened GatewayRelease

  /** The connection is open, no message is under way and a later time has been granted; and yet, unless
      the server sends more or hangs up, nothing ever moves the clock. */
  ghost predicate Stuck(c: Delimiters, s: System)
    requires GoodDelimiters(c)
  {
    match s.fatal
    case Some(_) => false
    case None =>
      s.g.state == CONNECTED && !s.g.halted && !s.thread.Exited? && s.g.queue == []
      && |Headers(c, s)| >= 2 && s.g.kernel.now < s.g.timePause
      && forall more :: Feasible(c, s, more) && (forall a :: a in more ==> !Interrupts(a)) ==>
           End(c, s, more).g.kernel.now == s.g.kernel.now
  }

  predicate RepeatedAt(hs: seq<Header>, i: int)
  {
    1 <= i && i + 1 < |hs| && hs[i].stamp == hs[i + 1].stamp && hs[i].stamp < Last(hs).stamp
  }

  /** Two messages after the first one have the same stamp, and the last stamp is later. */
  ghost predicate RepeatsEarly(hs: seq<Header>)
  {
    exists i :: RepeatedAt(hs, i)
  }

  lemma RepeatsLater(a: seq<Header>, b: seq<Header>)
    requires a <= b && Nondecreasing(b) && RepeatsEarly(a)
    ensures RepeatsEarly(b)
  {
    var i :| RepeatedAt(a, i);
    assert LaterStamp(b, |a| - 1, |b| - 1);
    assert RepeatedAt(b, i);
  }

  // ----- one message after the other is handled while a wait event is forgotten

  /** The simulator alone gets to the next message, past no wait event and no callback. */
  lemma FaceStrewn(c: Delimiters, s: System) returns (run: seq<Action>, t: Entry)
    requires GoodDelimiters(c) && Strewn(c, s) && s.g.queue != []
    ensures Feasible(c, s, run) && forall a :: a in run ==> a.Execute?
    ensures var u := End(c, s, run); Strewn(c, u) && Facing(s, t, u) && Enabled(c, u, Execute(t))
  {
    hide Select, Without, Split, Parse, Accepted, Find, Core, Framed, Feasible, End, Forgotten;
    t := FirstForwardSteerable(c, s);
    CoreOf(c, s);
    run := Steer(c, s, t);
    RunKeeps(c, s, run);
    NewIds(c, s, run);
    FacedStrewn(c, s, t, End(c, s, run));
  }

  lemma FacedStrewn(c: Delimiters, s: System, t: Entry, u: System)
    requires GoodDelimiters(c) && Strewn(c, s) && Steered(s, t, u) && Inv(c, u) && NewOnly(s.g, u.g)
    requires t in s.g.kernel.pending && t.event.ForwardUp? && t.time == s.g.kernel.now
    ensures Strewn(c, u) && Facing(s, t, u)
  {
    hide Select, Without, ControlInv, Framed;
    CoreOf(c, s);
    CoreOf(c, u);
    assert NoneBefore(s, t, Wait) && NoneBefore(s, t, Callback);
  }

  lemma AcceptStrewn(c: Delimiters, s: System, t: Entry)
    requires GoodDelimiters(c) && Strewn(c, s) && s.g.queue != [] && Enabled(c, s, Execute(t)) && Facing(s, t, s)
    requires AcceptedOne(c.f, s.g.queue[0]) && InTime(c, s, Parse(s.g.queue[0], c.f).value)
    ensures var v := Apply(c, s, Execute(t));
            Strewn(c, v) && v == s.(g := v.g, popped := s.popped + [s.g.queue[0]]) && v.g.queue == s.g.queue[1..]
            && v.g.kernel.now == s.g.kernel.now
  {
    hide Select, Without, Split, Parse, Accepted, Find, Core, Framed, Clear, Forgotten;
    var h, g := Parse(s.g.queue[0], c.f).value, s.g.(kernel := s.g.kernel.Take(t), queue := s.g.queue[1..]);
    var v := Apply(c, s, Execute(t));
    StepKeeps(c, s, Execute(t));
    CoreOf(c, s);
    StartedIff(c, s);
    CoreValid(c, s);
    UniqueIds(s.g.kernel);
    ForwardFacts(c, s, t, h);
    CoreOf(c, v);
    CoreValid(c, v);
    ForwardedPending(g, h, v.g);
    StaysStrewn(s, t, g, v);
  }

  lemma StaysStrewn(s: System, t: Entry, g: Gw, v: System)
    requires Clear(s.g.kernel.pending) && Forgotten(s) && KernelInv(s.g.kernel, s.g.eventWait)
    requires KernelInv(v.g.kernel, v.g.eventWait) && v.g.kernel.now == s.g.kernel.now && v.g.eventWait == s.g.eventWait
    requires t in s.g.kernel.pending && t.event.ForwardUp? && t.time == s.g.kernel.now
    requires g == s.g.(kernel := s.g.kernel.Take(t), queue := g.queue)
    requires forall x, y :: x in s.g.kernel.pending && y in s.g.kernel.pending && x.id == y.id ==> x == y
    requires forall x :: x in v.g.kernel.pending ==>
               x in g.kernel.pending || (x.id == g.kernel.nextId && KindOf(x.event) == Callback)
    requires forall x :: x in g.kernel.pending && x.id != g.eventWait ==> x in v.g.kernel.pending
    ensures Clear(v.g.kernel.pending) && Forgotten(v)
  {
    hide Select, Without;
    var w :| w in s.g.kernel.pending && w.event.WaitForNextUpdate? && w.id != s.g.eventWait;
    assert w in g.kernel.pending && w in v.g.kernel.pending;
    assert forall x :: x in g.kernel.pending ==> x in s.g.kernel.pending && x.id < s.g.kernel.nextId;
  }

  lemma StrewnNext(c: Delimiters, s: System) returns (run: seq<Action>)
    requires GoodDelimiters(c) && Strewn(c, s) && s.g.queue != []
    requires AcceptedOne(c.f, s.g.queue[0]) && InTime(c, s, Parse(s.g.queue[0], c.f).value)
    ensures Feasible(c, s, run)
    ensures var v := End(c, s, run);
            Strewn(c, v) && v == s.(g := v.g, popped := s.popped + [s.g.queue[0]]) && v.g.queue == s.g.queue[1..]
            && v.g.kernel.now == s.g.kernel.now
  {
    hide Parse, Accepted, Strewn, Enabled, Apply;
    var t;
    run, t := FaceStrewn(c, s);
    var u := End(c, s, run);
    AcceptStrewn(c, u, t);
    RunOne(c, u, Execute(t));
    RunsCompose(c, s, run, [Execute(t)]);
    run := run + [Execute(t)];
  }

  /** Every message that is left is handled at this instant. */
  lemma {:induction false} StrewnAll(c: Delimiters, s: System) returns (run: seq<Action>)
    requires GoodDelimiters(c) && Strewn(c, s) && AllAccepted(c.f, s.popped + s.g.queue)
    requires InTimeAfter(Accepted(c.f, s.popped + s.g.queue), |s.popped|, s.g.kernel.now)
    ensures Feasible(c, s, run)
    ensures var v := End(c, s, run);
            Strewn(c, v) && v == s.(g := v.g, popped := s.popped + s.g.queue) && v.g.queue == []
            && v.g.kernel.now == s.g.kernel.now
    decreases |s.g.queue|
  {
    hide Parse, Accepted, Strewn, AcceptedOne, Apply, Enabled;
    if s.g.queue == [] {
      run := [];
      assert s.popped + s.g.queue == s.popped;
    } else {
      assert s.g.queue[..|s.g.queue|] == s.g.queue;
      NextInTime(c, s, |s.g.queue|);
      var first := StrewnNext(c, s);
      var u := End(c, s, first);
      assert u.popped + u.g.queue == s.popped + s.g.queue;
      run := StrewnAll(c, u);
      RunsCompose(c, s, first, run);
      run := first + run;
    }
  }

  /** A forgotten wait event that outlives all messages holds the clock for good. */
  lemma StrewnIsStuck(c: Delimiters, s: System)
    requires GoodDelimiters(c) && Strewn(c, s) && s.g.queue == [] && |Headers(c, s)| >= 2
    requires s.g.kernel.now < s.g.timePause
    ensures Stuck(c, s)
  {
    hide Select, Without, Split, Parse, Accepted, Find, Framed, Feasible, End, Clear;
    CoreOf(c, s);
    var w :| w in s.g.kernel.pending && w.event.WaitForNextUpdate?;
    assert w in Of(s, Wait);
    forall more | Feasible(c, s, more) && (forall a :: a in more ==> !Interrupts(a))
      ensures End(c, s, more).g.kernel.now == s.g.kernel.now
    {
      ClockStaysFrozen(c, s, more);
    }
  }

  /** A stamp repeated before the last one: some run processes every message and then stands still. */
  lemma StuckRun(c: Delimiters, s0: System, w: string, i: nat) returns (run: seq<Action>, s: System)
    requires GoodDelimiters(c) && Initial(s0) && GoodStream(c, w, s0.start) && RepeatedAt(StreamHeaders(c, w), i)
    ensures Reached(c, s0, run, s) && s.received <= w && s.popped == ServedMessages(c, w) && Stuck(c, s)
    ensures s.g.timePause == Last(StreamHeaders(c, w)).stamp - StreamHeaders(c, w)[0].stamp
  {
    hide Select, Without, Inv, Feasible, End, Split, Accepted, Parse, Initial, GoodStream, Poised, Overtaken, Strewn,
         Stuck, ServedMessages, AllAccepted, Apply, Headers;
    var x := ServedPrefix(c, w);
    var ms, hs := Messages(x, c.m), StreamHeaders(c, x);
    SameStream(c, x, w, s0.start);
    ServedHeaders(c, x);
    var y;
    run, y := PoisedRun(c, s0, x, i);
    var u, z := End(c, s0, run), x[|y|..];
    assert x == y + z;
    var more := TakeRest(c, u, z);
    RunsCompose(c, s0, run, more);
    run := run + more;
    u := End(c, s0, run);
    RestOfStream(c, x, y, z, i + 2);
    var e;
    more, e := FaceTwoWaits(c, u);
    RunsCompose(c, s0, run, more);
    run := run + more;
    u := End(c, s0, run);
    assert u.popped + u.g.queue == ms;
    RestInTime(c, x, i, u.g.kernel.now);
    more := StrewnAll(c, u);
    RunsCompose(c, s0, run, more);
    run := run + more;
    s := End(c, s0, run);
    ReachedInv(c, s0, run, s);
    AllPopped(c, s, x);
    StrewnIsStuck(c, s);
  }

  lemma SameStream(c: Delimiters, x: string, w: string, start: int)
    requires GoodDelimiters(c) && StreamHeaders(c, x) == StreamHeaders(c, w) && GoodStream(c, w, start)
    ensures GoodStream(c, x, start) && Nondecreasing(StreamHeaders(c, x))
  {
    hide StreamHeaders, Nondecreasing, InTimeFrom;
  }

  lemma RestInTime(c: Delimiters, x: string, i: nat, now: int)
    requires GoodDelimiters(c) && Messages(x, c.m) == ServedMessages(c, x) && Nondecreasing(StreamHeaders(c, x))
    requires var hs := StreamHeaders(c, x); 1 <= i && i + 1 < |hs| && now == hs[i + 1].stamp - hs[0].stamp
    ensures AllAccepted(c.f, Messages(x, c.m)) && InTimeAfter(Accepted(c.f, Messages(x, c.m)), i + 2, now)
  {
    hide Accepted, Split, Served, AllAccepted;
    var hs := StreamHeaders(c, x);
    ServedFacts(c.f, Messages(x, c.m));
    forall j | i + 2 <= j < |hs| ensures hs[i + 1].stamp <= hs[j].stamp { assert LaterStamp(hs, i + 1, j); }
  }

  lemma AllPopped(c: Delimiters, s: System, x: string)
    requires GoodDelimiters(c) && Inv(c, s) && s.fatal.None? && s.popped == ServedMessages(c, x)
    requires |StreamHeaders(c, x)| >= 2
    ensures Headers(c, s) == StreamHeaders(c, x)
    ensures s.g.timePause == Last(StreamHeaders(c, x)).stamp - StreamHeaders(c, x)[0].stamp
  {
    hide Inv, ServedMessages, Accepted;
    PauseIs(c, s);
  }

  // ----- and otherwise every grant that is out releases the clock

  /** While a later time is granted, no wait event. */
  ghost predicate NoHold(c: Delimiters, s: System)
    requires GoodDelimiters(c)
  {
    match s.fatal
    case Some(_) => true
    case None =>
      s.g.state == CONNECTED && |Headers(c, s)| >= 2 && s.g.kernel.now < s.g.timePause ==> Of(s, Wait) == []
  }

  /** Without a wait event, only an update at the pause time brings one. */
  ghost predicate NoNewWait(s: System, t: System)
  {
    s.g.kernel.now <= t.g.kernel.now && t.g.timePause == s.g.timePause
    && (t.g.state == CONNECTED ==> s.g.state == CONNECTED)
    && (t.g.state == CONNECTED && t.g.kernel.now != t.g.timePause && Of(s, Wait) == [] ==> Of(t, Wait) == [])
  }

  lemma NoWaitFromEvent(c: Delimiters, s: System, e: Entry)
    requires GoodDelimiters(c) && Core(c, s) && Enabled(c, s, Execute(e)) && !e.event.ForwardUp?
    ensures NoNewWait(s, Apply(c, s, Execute(e)))
  {
    hide Select, Without, Split, Accepted, ControlInv, Find;
    Begin(c, s, e);
    if e.event.WaitForNextUpdate? { assert e in Of(s, Wait); }
  }

  lemma NoWaitArises(c: Delimiters, s: System, a: Action)
    requires GoodDelimiters(c) && Core(c, s) && Enabled(c, s, a) && !(a.Execute? && a.e.event.ForwardUp?)
    ensures NoNewWait(s, Apply(c, s, a))
  {
    hide Select, Without, Split, Accepted, ControlInv, Find;
    match a {
      case Execute(e) => NoWaitFromEvent(c, s, e);
      case Close => InsertLands(s.g, LanesOf(s.g.kernel.pending), 0, Stop);
      case ScheduleForward => InsertLands(s.g, LanesOf(s.g.kernel.pending), 0, ForwardUp);
      case Spawn(time) => InsertLands(s.g, LanesOf(s.g.kernel.pending), time - s.g.kernel.now, Other);
      case _ =>
    }
  }

  /** A message that repeats the stamp before it changes neither the pause time nor adds a wait event. */
  lemma RepeatedGrant(c: Delimiters, s: System, e: Entry, h: Header)
    requires GoodDelimiters(c) && Core(c, s) && Enabled(c, s, Execute(e)) && e.event.ForwardUp?
    requires NextHeader(c, s) == Some(h) && Apply(c, s, Execute(e)).fatal.None? && Of(s, Wait) == []
    ensures Of(Apply(c, s, Execute(e)), Wait) == []
  {
    hide Select, Without, Split, Accepted, Parse;
    var l, g := LanesOf(s.g.kernel.pending), s.g.(kernel := s.g.kernel.Take(e), queue := s.g.queue[1..]);
    ForwardCases(c, s, e);
    Begin(c, s, e);
    ForwardApplies(c, s, e, h);
    NonEmptyHasMember(Without([], g.eventWait));
    match BranchOf(g, h)
    case Terminate =>
    case First => InsertLands(g.(timeStart := h.stamp), Drop(l, e), 0, DoInitialize(h.values));
    case Normal => NormalLands(g, Drop(l, e), h);
  }

  lemma ForwardClock(c: Delimiters, s: System, e: Entry, h: Header)
    requires GoodDelimiters(c) && Core(c, s) && Enabled(c, s, Execute(e)) && e.event.ForwardUp?
    requires NextHeader(c, s) == Some(h) && Apply(c, s, Execute(e)).fatal.None?
    ensures Apply(c, s, Execute(e)).g.kernel.now == s.g.kernel.now && Apply(c, s, Execute(e)).g.state == s.g.state
  {
    hide Select, Without, Split, Accepted, Parse, ControlInv;
    Begin(c, s, e);
    ForwardApplies(c, s, e, h);
  }

  /** Once a stamp has been repeated, all later ones repeat it too. */
  lemma SameStamp(hs: seq<Header>, h: Header)
    requires Nondecreasing(hs + [h]) && !StrictlyIncreasing(hs) && !RepeatsEarly(hs + [h])
    ensures |hs| >= 2 && Last(hs).stamp == h.stamp
  {
    NondecreasingPrefix(hs, [h]);
    var i := AdjacentEqual(hs);
    var all := hs + [h];
    assert !RepeatedAt(all, i);
    assert LaterStamp(all, i, |hs| - 1) && LaterStamp(all, |hs| - 1, |hs|);
  }

  /** The pause time after a message that is not the first to be granted and brings no later stamp. */
  lemma SameGrant(c: Delimiters, s: System, t: System, more: seq<Header>)
    requires GoodDelimiters(c) && Inv(c, s) && Inv(c, t) && s.fatal.None? && t.fatal.None?
    requires |Headers(c, s)| >= 2 && Headers(c, t) == Headers(c, s) + more
    requires more == [] || (|more| == 1 && more[0].stamp == Last(Headers(c, s)).stamp)
    ensures t.g.timePause == s.g.timePause
  {
    hide Inv, Headers;
    PauseIs(c, s);
    PauseIs(c, t);
  }

  /** Before a repeated stamp the one wait event goes with the grant; after it there is none to go. */
  lemma ForwardNoHold(c: Delimiters, s: System, e: Entry)
    requires GoodDelimiters(c) && Inv(c, s) && NoHold(c, s) && (StrictlyIncreasing(Headers(c, s)) ==> Single(s))
    requires Enabled(c, s, Execute(e)) && e.event.ForwardUp? && Apply(c, s, Execute(e)).fatal.None?
    requires var hs := Headers(c, Apply(c, s, Execute(e))); Nondecreasing(hs) && !RepeatsEarly(hs)
    ensures NoHold(c, Apply(c, s, Execute(e)))
  {
    hide Select, Without, Split, Accepted, Parse, Core, Framed, Single, StrictlyIncreasing, Nondecreasing, Apply,
         RepeatsEarly;
    var t := Apply(c, s, Execute(e));
    StepKeeps(c, s, Execute(e));
    CoreOf(c, s);
    ForwardCases(c, s, e);
    var h := NextHeader(c, s).value;
    ForwardFacts(c, s, e, h);
    StartedIff(c, s);
    if BranchOf(s.g, h).Normal? && StrictlyIncreasing(Headers(c, s)) {
      NormalReleases(c, s, e, h);
    } else if |Headers(c, t)| >= 2 {
      if BranchOf(s.g, h).Normal? { SameStamp(Headers(c, s), h); }
      SameGrant(c, s, t, if h.stamp < 0 then [] else [h]);
      ForwardClock(c, s, e, h);
      if Of(s, Wait) == [] { RepeatedGrant(c, s, e, h); }
    }
  }

  lemma StepNoHold(c: Delimiters, s: System, a: Action)
    requires GoodDelimiters(c) && Inv(c, s) && NoHold(c, s) && (StrictlyIncreasing(Headers(c, s)) ==> Single(s))
    requires Enabled(c, s, a) && Apply(c, s, a).fatal.None?
    requires var hs := Headers(c, Apply(c, s, a)); Nondecreasing(hs) && !RepeatsEarly(hs)
    ensures NoHold(c, Apply(c, s, a))
  {
    hide Select, Without, Split, Accepted, Parse, Core, Framed, Single, StrictlyIncreasing, Nondecreasing, Apply,
         RepeatsEarly;
    if a.Execute? && a.e.event.ForwardUp? {
      ForwardNoHold(c, s, a.e);
    } else {
      CoreOf(c, s);
      StepKeeps(c, s, a);
      CoreOf(c, Apply(c, s, a));
      SamePopped(c, s, a);
      NoWaitArises(c, s, a);
    }
  }

  lemma {:induction false} RunNoHold(c: Delimiters, s: System, run: seq<Action>)
    requires GoodDelimiters(c) && Inv(c, s) && s.fatal.None? && Delivering(c, s) && Feasible(c, s, run)
    requires NoHold(c, s) && (StrictlyIncreasing(Headers(c, s)) ==> Single(s)) && End(c, s, run).fatal.None?
    requires var hs := Headers(c, End(c, s, run)); Nondecreasing(hs) && !RepeatsEarly(hs)
    ensures NoHold(c, End(c, s, run))
    decreases |run|
  {
    hide Inv, Core, Delivering, Single, Apply, Headers, Nondecreasing, NoHold, StrictlyIncreasing, RepeatsEarly;
    if run != [] {
      var t := Apply(c, s, run[0]);
      StepKeeps(c, s, run[0]);
      if t.fatal.Some? {
        FatalIsFinal(c, t, run[1..]);
      } else {
        CoreOf(c, s);
        HeadersGrowAlong(c, t, run[1..]);
        NondecreasingBefore(Headers(c, t), Headers(c, End(c, s, run)));
        if RepeatsEarly(Headers(c, t)) { RepeatsLater(Headers(c, t), Headers(c, End(c, s, run))); }
        StepDelivers(c, s, run[0]);
        StepNoHold(c, s, run[0]);
        if StrictlyIncreasing(Headers(c, t)) {
          HeadersGrow(c, s, run[0]);
          StrictPrefix(Headers(c, s), Headers(c, t));
          StepSingle(c, s, run[0]);
        }
        RunNoHold(c, t, run[1..]);
      }
    }
  }

  lemma GrantIsPending(c: Delimiters, s: System) returns (u: Entry)
    requires GoodDelimiters(c) && Core(c, s) && s.fatal.None? && s.g.state == CONNECTED
    requires !s.thread.Exited? && s.g.queue == [] && Of(s, Wait) == []
    ensures u in s.g.kernel.pending && u.event.HandleUpdate? && u.time == s.g.timePause
    ensures Of(s, Forward) == [] && Of(s, Stopping) == []
  {
    hide Select, Accepted, Find;
    var l := LanesOf(s.g.kernel.pending);
    u :| u in l.callbacks && u.event.HandleUpdate? && u.time == s.g.timePause;
    assert u in s.g.kernel.pending;
  }

  /** With nothing holding it the simulator alone moves the clock to the pause time. */
  lemma ClockMoves(c: Delimiters, s: System) returns (more: seq<Action>)
    requires GoodDelimiters(c) && Inv(c, s) && s.fatal.None? && s.g.state == CONNECTED && !s.g.halted
    requires !s.thread.Exited? && s.g.queue == [] && |Headers(c, s)| >= 2 && Of(s, Wait) == []
    ensures Feasible(c, s, more) && forall a :: a in more ==> !Interrupts(a)
    ensures End(c, s, more).g.kernel.now == s.g.timePause
  {
    hide Select, Without, Split, Parse, Accepted, Find, Feasible, End, Framed;
    CoreOf(c, s);
    var u := GrantIsPending(c, s);
    NoneOf(s, Forward);
    NoneOf(s, Stopping);
    UnheldOf(s);
    more := Steer(c, s, u);
    var m := End(c, s, more);
    CallbackMoves(c, m, u);
    RunOne(c, m, Execute(u));
    RunsCompose(c, s, more, [Execute(u)]);
    more := more + [Execute(u)];
  }

  /** Some run of a good stream stands still before a granted time iff the stream repeats a stamp before
      its last one. In all other streams every grant lets the clock go, sooner or later. */
  lemma StuckIff(c: Delimiters, s0: System, w: string)
    requires GoodDelimiters(c) && Initial(s0) && GoodStream(c, w, s0.start)
    ensures (exists run, s :: Reached(c, s0, run, s) && s.received <= w && Stuck(c, s))
       <==> RepeatsEarly(StreamHeaders(c, w))
  {
    hide Stuck, Initial, Feasible, End, StreamHeaders, Nondecreasing, InTimeFrom;
    var hs := StreamHeaders(c, w);
    if RepeatsEarly(hs) {
      var i :| RepeatedAt(hs, i);
      var run, s := StuckRun(c, s0, w, i);
      assert Reached(c, s0, run, s);
    } else {
      forall run, s | Reached(c, s0, run, s) && s.received <= w ensures !Stuck(c, s) {
        NeverStuck(c, s0, run, s, w);
      }
    }
  }

  lemma NeverStuck(c: Delimiters, s0: System, run: seq<Action>, s: System, w: string)
    requires GoodDelimiters(c) && Reached(c, s0, run, s) && s.received <= w
    requires Nondecreasing(StreamHeaders(c, w)) && !RepeatsEarly(StreamHeaders(c, w))
    ensures !Stuck(c, s)
  {
    hide Initial, Feasible, End, StreamHeaders, Nondecreasing, Inv, OnlyServed, RepeatsEarly, Headers, Select,
         StrictlyIncreasing, Delivering, Single;
    if Stuck(c, s) {
      InitialServes(c, s0);
      InitialSingle(c, s0);
      OnlyServedAlong(c, s0, run);
      ReachedInv(c, s0, run, s);
      HeadersOfStream(c, s, w);
      NondecreasingBefore(Headers(c, s), StreamHeaders(c, w));
      if RepeatsEarly(Headers(c, s)) { RepeatsLater(Headers(c, s), StreamHeaders(c, w)); }
      RunNoHold(c, s0, run);
      var more := ClockMoves(c, s);
      assert false;
    }
  }
}
