/** When a grant fails to release the clock: for every stream that repeats a stamp before its last
    message there is a run in which a normal message leaves a wait event behind. */
module GatewayRelease {
  import opened Words
  import opened Framing
  import opened Events
  import opened GatewayEffects
  import opened GatewayRuns
  import opened GatewayThread
  import opened GatewayInvariants
  import opened GatewayTheorems
  import opened GatewayOrder
  import opened GatewayProgress
  import opened GatewaySteering
  import opened GatewayBurst
  import opened GatewayWaits
  import opened GatewayExact

  // ----- new events have new ids

  /** The effects of the simulator's events add events with new ids only. */
  lemma NewIdsEffect(g: Gw, f: string)
    requires f != ""
    ensures NewOnly(g, WaitEffect(g)) && NewOnly(g, StopEffect(g)) && NewOnly(g, UpdateEffect(g))
    ensures ForwardEffect(g, f).Ok? ==> NewOnly(g, ForwardEffect(g, f).value)
  {
    hide Without, Select, Split, Find, Parse, MessageEffect;
    if ForwardEffect(g, f).Ok? { NewIdsMessage(g.(queue := g.queue[1..]), Parse(g.queue[0], f).value); }
  }

  lemma NewIdsMessage(g: Gw, h: Header)
    requires MessageEffect(g, h).Ok?
    ensures NewOnly(g, MessageEffect(g, h).value)
  {
    hide Without;
  }

  ghost predicate NewOnly(g: Gw, t: Gw)
  {
    g.kernel.nextId <= t.kernel.nextId
    && forall x :: x in t.kernel.pending ==> x in g.kernel.pending || x.id >= g.kernel.nextId
  }

  lemma NewIdsStep(c: Delimiters, s: System, a: Action)
    requires GoodDelimiters(c)
    ensures NewOnly(s.g, Apply(c, s, a).g)
  {
    hide Without, Select, Split, Find, Parse, WaitEffect, StopEffect, UpdateEffect, ForwardEffect;
    match a {
      case Execute(e) => NewIdsEffect(s.g.(kernel := s.g.kernel.Take(e)), c.f);
      case Destroy => NewIdsEffect(s.g, c.f);
      case _ =>
    }
  }

  lemma {:induction false} NewIds(c: Delimiters, s: System, run: seq<Action>)
    requires GoodDelimiters(c)
    ensures NewOnly(s.g, End(c, s, run).g)
    decreases |run|
  {
    hide Apply;
    if run != [] {
      NewIdsStep(c, s, run[0]);
      NewIds(c, Apply(c, s, run[0]), run[1..]);
    }
  }

  // ----- the clock at the pause time, both updates still to run

  ghost predicate Poised(c: Delimiters, s: System)
    requires GoodDelimiters(c)
  {
    match s.fatal
    case Some(_) => false
    case None =>
      Sleeping(c, s) && s.thread == Receiving("") && s.g.queue == [] && s.g.kernel.now == s.g.timePause && Unheld(s)
      && AtPause(Of(s, Callback), s.g.timePause) >= 2
  }

  lemma SpawnedFresh(c: Delimiters, s0: System, time: int)
    requires GoodDelimiters(c) && Fresh(c, s0) && time >= s0.start
    ensures Enabled(c, s0, Spawn(time)) && Fresh(c, Apply(c, s0, Spawn(time)))
    ensures Apply(c, s0, Spawn(time)).start == s0.start
    ensures Entry(s0.g.kernel.nextId, time, Other) in Apply(c, s0, Spawn(time)).g.kernel.pending
    ensures Apply(c, s0, Spawn(time)).g.kernel.nextId == s0.g.kernel.nextId + 1
  {
    hide Select, Without, Core, Framed;
    StepKeeps(c, s0, Spawn(time));
  }

  /** Another model's event at the pause time brings the clock there before the updates run. */
  lemma ReachPause(c: Delimiters, s: System, o: Entry) returns (run: seq<Action>)
    requires GoodDelimiters(c) && Sleeping(c, s) && s.thread == Receiving("") && s.g.queue == [] && Unheld(s)
    requires AtPause(Of(s, Callback), s.g.timePause) >= 2
    requires o in s.g.kernel.pending && o.event.Other? && o.time == s.g.timePause
    requires forall u :: u in s.g.kernel.pending && KindOf(u.event) == Callback ==> o.id < u.id
    ensures Feasible(c, s, run) && forall a: Action :: a in run ==> a.Execute?
    ensures var t := End(c, s, run);
            Poised(c, t) && t.received == s.received && t.popped == s.popped && t.g.timePause == s.g.timePause
  {
    hide Select, Without, Inv, AtPause, Feasible, End, Split, Accepted;
    SleepingSteerable(c, s, o);
    CoreOf(c, s);
    run := Steer(c, s, o);
    var u := End(c, s, run);
    assert NoneBefore(s, o, Wait);
    RunHolders(c, s, run, false);
    UnheldOf(s);
    UnheldOf(u);
    CoreOf(c, u);
    EventHolders(c, u, o);
    RunOne(c, u, Execute(o));
    RunsCompose(c, s, run, [Execute(o)]);
    run := run + [Execute(o)];
    OtherMoves(c, u, o);
    UnheldOf(Apply(c, u, Execute(o)));
  }

  lemma SleepingSteerable(c: Delimiters, s: System, o: Entry)
    requires GoodDelimiters(c) && Sleeping(c, s) && Unheld(s)
    requires o in s.g.kernel.pending && o.event.Other? && o.time == s.g.timePause
    ensures Steerable(s, o)
  {
    hide Select, Inv;
    NoneOf(s, Forward);
    NoneOf(s, Stopping);
  }

  lemma OtherMoves(c: Delimiters, s: System, o: Entry)
    requires GoodDelimiters(c) && o.event.Other?
    ensures var t := Apply(c, s, Execute(o));
            t == s.(g := s.g.(kernel := s.g.kernel.Take(o))) && t.g.kernel.now == o.time
            && forall x :: x in t.g.kernel.pending ==> x in s.g.kernel.pending
  {
    hide Without;
  }

  lemma PoisedRun(c: Delimiters, s0: System, w: string, i: nat) returns (run: seq<Action>, x: string)
    requires GoodDelimiters(c) && Initial(s0) && GoodStream(c, w, s0.start)
    requires var hs := StreamHeaders(c, w); 1 <= i && i + 1 < |hs| && hs[i].stamp == hs[i + 1].stamp
    ensures Reached(c, s0, run, End(c, s0, run)) && x <= w && Remainder(x, c.m) == ""
    ensures i + 2 <= |Messages(w, c.m)| && Messages(x, c.m) == Messages(w, c.m)[..i + 2]
    ensures var s, hs := End(c, s0, run), StreamHeaders(c, w);
            Poised(c, s) && s.received == x && Headers(c, s) == hs[..i + 2] && s.popped == Messages(w, c.m)[..i + 2]
            && s.g.timePause == hs[i + 1].stamp - hs[0].stamp
  {
    hide Select, Without, Inv, AtPause, Feasible, End, Split, Accepted, Parse, Initial, GoodStream, Fresh, Burst,
         Poised, Unheld;
    var hs := StreamHeaders(c, w);
    var pause := hs[i + 1].stamp - hs[0].stamp;
    InitialFresh(c, s0);
    PauseInTime(c, w, s0.start, i);
    SpawnedFresh(c, s0, pause);
    var s1, o := Apply(c, s0, Spawn(pause)), Entry(s0.g.kernel.nextId, pause, Other);
    RunOne(c, s0, Spawn(pause));
    var burst;
    burst, x := TwoGrants(c, s1, w, i);
    var s2 := End(c, s1, burst);
    RunsCompose(c, s0, [Spawn(pause)], burst);
    run := [Spawn(pause)] + burst;
    BurstFacts(c, s2);
    BurstSleeps(c, s2);
    if pause > s0.start {
      CallbacksAfter(c, s1, burst, o);
      var more := ReachPause(c, s2, o);
      RunsCompose(c, s0, run, more);
      run := run + more;
    } else {
      AlreadyPoised(c, s2);
    }
  }

  lemma PauseInTime(c: Delimiters, w: string, start: int, i: nat)
    requires GoodDelimiters(c) && GoodStream(c, w, start) && i + 1 < |StreamHeaders(c, w)|
    ensures StreamHeaders(c, w)[i + 1].stamp - StreamHeaders(c, w)[0].stamp >= start
  {
    hide Accepted, Split, Served, Nondecreasing;
  }

  lemma AlreadyPoised(c: Delimiters, s: System)
    requires GoodDelimiters(c) && Sleeping(c, s) && s.thread == Receiving("") && s.g.queue == [] && Unheld(s)
    requires s.g.kernel.now == s.g.timePause && AtPause(Of(s, Callback), s.g.timePause) >= 2
    ensures Poised(c, s)
  {
    hide Inv, Select, AtPause;
  }

  lemma CallbacksAfter(c: Delimiters, s1: System, run: seq<Action>, o: Entry)
    requires GoodDelimiters(c) && Fresh(c, s1) && o.id < s1.g.kernel.nextId
    ensures forall u :: u in End(c, s1, run).g.kernel.pending && KindOf(u.event) == Callback ==> o.id < u.id
  {
    hide Inv;
    NewIds(c, s1, run);
  }

  // ----- the thread forwards the rest at that very instant

  lemma {:induction false} ForwardsLanes(k: Kernel, n: nat)
    requires k.Valid()
    ensures ScheduleForwards(k, n).Valid()
    ensures var p := ScheduleForwards(k, n).pending;
            Select(p, Wait) == Select(k.pending, Wait) && Select(p, Callback) == Select(k.pending, Callback)
  {
    hide Select;
    if n > 0 {
      ForwardsLanes(k, n - 1);
      ScheduleSelect(ScheduleForwards(k, n - 1), 0, ForwardUp);
    }
  }

  /** Two updates of the pause time come before the first of the new messages. */
  ghost predicate Overtaken(c: Delimiters, s: System)
    requires GoodDelimiters(c)
  {
    match s.fatal
    case Some(_) => false
    case None =>
      Inv(c, s) && s.g.state == CONNECTED && !s.g.halted && s.thread.Receiving? && s.g.kernel.now == s.g.timePause
      && Unheld(s) && AtPause(Of(s, Callback), s.g.timePause) >= 2
      && (var p := s.g.kernel.pending;
          forall f, u :: f in p && u in p && f.event.ForwardUp? && KindOf(u.event) == Callback ==> u.id < f.id)
  }

  lemma TakeRest(c: Delimiters, s: System, y: string) returns (run: seq<Action>)
    requires GoodDelimiters(c) && Poised(c, s)
    ensures Feasible(c, s, run)
    ensures var t := End(c, s, run);
            Overtaken(c, t) && t.thread.Receiving? && t.received == s.received + y && t.popped == s.popped
            && t.g.queue == Messages(y, c.m)
            && t.g.timePause == s.g.timePause
  {
    hide Select, Without, Inv, AtPause, Feasible, End, Split, Accepted, ScheduleForwards, Find;
    run := ThreadAlone(c, s, Bytes(y));
    var t := End(c, s, run);
    ReceivedBytes(y);
    RunKeeps(c, s, run);
    assert "" + y == y && [] + Messages(y, c.m) == Messages(y, c.m);
    CoreOf(c, s);
    CoreValid(c, s);
    ForwardsPending(s.g.kernel, |Messages(y, c.m)|);
    ForwardsLanes(s.g.kernel, |Messages(y, c.m)|);
    NoneOf(s, Forward);
    RestOvertaken(c, s, t);
  }

  lemma RestOvertaken(c: Delimiters, s: System, t: System)
    requires GoodDelimiters(c) && Poised(c, s) && Inv(c, t) && KernelInv(s.g.kernel, s.g.eventWait)
    requires t.fatal.None? && t.thread.Receiving?
    requires t.g == s.g.(kernel := t.g.kernel, buffer := t.g.buffer, queue := t.g.queue)
    requires t.g.kernel.now == s.g.kernel.now && Of(t, Wait) == Of(s, Wait) && Of(t, Callback) == Of(s, Callback)
    requires forall f :: f in s.g.kernel.pending ==> !f.event.ForwardUp?
    requires forall x :: x in t.g.kernel.pending ==>
               x in s.g.kernel.pending || (x.event.ForwardUp? && s.g.kernel.nextId <= x.id)
    ensures Overtaken(c, t)
  {
    hide Select, Inv, AtPause;
  }

  // ----- and the next message finds two wait events

  lemma NoUpdateLeft(c: Delimiters, s: System, u: System, f: Entry)
    requires GoodDelimiters(c) && Overtaken(c, s) && Steered(s, f, u) && Enabled(c, u, Execute(f))
    requires f.event.ForwardUp? && f.time == s.g.kernel.now
    ensures AtPause(Of(u, Callback), u.g.timePause) == 0
  {
    hide Select, Inv, AtPause;
    AtPauseNone(Of(u, Callback), u.g.timePause);
    forall v | v in Of(u, Callback) ensures !Grants(v, u.g.timePause) {
      assert v in u.g.kernel.pending && v.id < f.id;
    }
  }

  lemma FaceTwoWaits(c: Delimiters, s: System) returns (run: seq<Action>, f: Entry)
    requires GoodDelimiters(c) && Overtaken(c, s) && s.g.queue != []
    ensures Feasible(c, s, run) && forall a: Action :: a in run ==> a.Execute?
    ensures var u := End(c, s, run);
            Inv(c, u) && Enabled(c, u, Execute(f)) && f.event.ForwardUp? && f.time == u.g.timePause
            && |Of(u, Wait)| >= 2
            && u.popped == s.popped && u.g.queue == s.g.queue && u.received == s.received && u.thread == s.thread
            && u.g.timePause == s.g.timePause == u.g.kernel.now && Strewn(c, u)
  {
    hide Select, Without, Inv, AtPause, Feasible, End, Split, Accepted;
    f := FirstForwardSteerable(c, s);
    CoreOf(c, s);
    run := Steer(c, s, f);
    assert NoneBefore(s, f, Wait);
    RunHolders(c, s, run, false);
    NoUpdateLeft(c, s, End(c, s, run), f);
    NewIds(c, s, run);
    TwoWaitsStrewn(c, s, f, End(c, s, run));
  }

  // ----- the messages still to come are all handled before a wait event runs

  /** No wait event and no callback comes before a message that is to be forwarded. */
  ghost predicate Clear(p: seq<Entry>)
  {
    forall f, x :: f in p && x in p && f.event.ForwardUp? && (x.event.WaitForNextUpdate? || KindOf(x.event) == Callback)
      ==> !Precedes(x, f)
  }

  /** A wait event that m_eventWait does not name, so that no message can cancel it. */
  ghost predicate Forgotten(s: System)
  {
    exists w :: w in s.g.kernel.pending && w.event.WaitForNextUpdate? && w.id != s.g.eventWait
  }

  ghost predicate Strewn(c: Delimiters, s: System)
    requires GoodDelimiters(c)
  {
    match s.fatal
    case Some(_) => false
    case None => Listening(c, s) && Clear(s.g.kernel.pending) && Forgotten(s)
  }

  lemma TwoWaitsForgotten(s: System)
    requires s.g.kernel.Valid() && |Of(s, Wait)| >= 2
    ensures Forgotten(s)
  {
    hide Select, Without;
    var q := Of(s, Wait);
    IncreasingParts(s.g.kernel.pending, 0, Wait);
    assert Ordered(q, 0, 1) && q[0] in q && q[1] in q;
  }

  lemma TwoWaitsStrewn(c: Delimiters, s: System, f: Entry, u: System)
    requires GoodDelimiters(c) && Overtaken(c, s) && Steered(s, f, u) && Enabled(c, u, Execute(f)) && Inv(c, u)
    requires f.event.ForwardUp? && f.time == s.g.kernel.now && NewOnly(s.g, u.g) && |Of(u, Wait)| >= 2
    ensures Strewn(c, u)
  {
    hide Select, Without, ControlInv, Framed, AtPause;
    CoreOf(c, s);
    CoreOf(c, u);
    TwoWaitsForgotten(u);
  }

  lemma {:induction false} WithoutDropsOne(q: seq<Entry>, id: nat)
    requires Increasing(q)
    ensures |Without(q, id)| >= |q| - 1
  {
    if q != [] {
      IncreasingInit(q);
      if q[|q| - 1].id == id {
        WithoutAbsent(q[..|q| - 1], id);
      } else {
        WithoutDropsOne(q[..|q| - 1], id);
      }
    }
  }

  /** A normal message that is handled in time. */
  ghost predicate NormalForward(c: Delimiters, s: System, e: Entry)
    requires GoodDelimiters(c)
  {
    Enabled(c, s, Execute(e)) && e.event.ForwardUp? && NextHeader(c, s).Some?
    && BranchOf(s.g, NextHeader(c, s).value).Normal? && Apply(c, s, Execute(e)).fatal.None?
  }

  lemma NormalLeavesWait(c: Delimiters, s: System, e: Entry)
    requires GoodDelimiters(c) && Core(c, s) && NormalForward(c, s, e) && |Of(s, Wait)| >= 2
    ensures Of(Apply(c, s, Execute(e)), Wait) != []
  {
    hide Select, Without, Split, Accepted, Parse;
    var h, l := NextHeader(c, s).value, LanesOf(s.g.kernel.pending);
    ForwardCases(c, s, e);
    Begin(c, s, e);
    NormalLands(s.g.(kernel := s.g.kernel.Take(e), queue := s.g.queue[1..]), Drop(l, e), h);
    ForwardApplies(c, s, e, h);
    IncreasingParts(s.g.kernel.pending, 0, Wait);
    WithoutDropsOne(l.waits, s.g.eventWait);
  }

  /** A stamp repeated before the last message: this run ends with a normal message about to be handled
      that will leave a wait event. */
  lemma UnreleasedRun(c: Delimiters, s0: System, w: string, i: nat) returns (run: seq<Action>, s: System, e: Entry)
    requires GoodDelimiters(c) && Initial(s0) && GoodStream(c, w, s0.start)
    requires var hs := StreamHeaders(c, w); 1 <= i && i + 2 < |hs| && hs[i].stamp == hs[i + 1].stamp
    ensures Reached(c, s0, run, s) && s.received == w && NormalForward(c, s, e)
    ensures i + 2 < |Messages(w, c.m)| && s.popped == Messages(w, c.m)[..i + 2]
    ensures s.g.queue == Messages(w, c.m)[i + 2..]
    ensures var hs := StreamHeaders(c, w); s.g.kernel.now == e.time == hs[i + 1].stamp - hs[0].stamp
    ensures s.thread.Receiving? && Of(Apply(c, s, Execute(e)), Wait) != []
  {
    hide Select, Without, Inv, AtPause, Feasible, End, Split, Accepted, Parse, Initial, GoodStream, Poised,
         Overtaken, Apply;
    var x;
    ServedHeaders(c, w);
    run, x := PoisedRun(c, s0, w, i);
    var u := End(c, s0, run);
    var y := w[|x|..];
    assert w == x + y;
    var more := TakeRest(c, u, y);
    RunsCompose(c, s0, run, more);
    run := run + more;
    var v := End(c, s0, run);
    RestOfStream(c, w, x, y, i + 2);
    more, e := FaceTwoWaits(c, v);
    RunsCompose(c, s0, run, more);
    run := run + more;
    s := End(c, s0, run);
    CoreOf(c, s);
    StartIsFixedAlong(c, s0, run);
    NextIsNormal(c, s, w, i, e);
    NormalLeavesWait(c, s, e);
  }

  lemma NextIsNormal(c: Delimiters, s: System, w: string, i: nat, e: Entry)
    requires GoodDelimiters(c) && Core(c, s) && Enabled(c, s, Execute(e)) && e.event.ForwardUp?
    requires e.time == s.g.timePause
    requires GoodStream(c, w, s.start)
    requires var hs := StreamHeaders(c, w);
             i + 2 < |hs| && s.g.timePause == hs[i + 1].stamp - hs[0].stamp && Headers(c, s) == hs[..i + 2]
    requires i + 2 < |Messages(w, c.m)| && s.g.queue == Messages(w, c.m)[i + 2..]
    ensures NormalForward(c, s, e)
  {
    hide Select, Without, Split, Accepted, Parse, ControlInv, Served;
    var hs, ms := StreamHeaders(c, w), Messages(w, c.m);
    ServedHeaders(c, w);
    assert s.g.queue[0] == ms[i + 2];
    StartedIff(c, s);
    ForwardCases(c, s, e);
    assert LaterStamp(hs, i + 1, i + 2);
  }

  /** In every run of a good stream every normal message releases the clock iff the stamps increase from
      the second message to the last but one. */
  lemma GrantsReleaseIff(c: Delimiters, s0: System, w: string)
    requires GoodDelimiters(c) && Initial(s0) && GoodStream(c, w, s0.start)
    ensures (forall run, s, e :: Reached(c, s0, run, s) && s.received <= w && NormalForward(c, s, e) ==>
               Of(Apply(c, s, Execute(e)), Wait) == [])
       <==> var hs := StreamHeaders(c, w); hs == [] || StrictlyIncreasing(Init(hs))
  {
    hide Select, Split, Accepted, Parse, Initial, Feasible, End, StrictlyIncreasing, Nondecreasing, Served,
         InTimeFrom, Inv, Apply, Enabled;
    var hs := StreamHeaders(c, w);
    if hs == [] || StrictlyIncreasing(Init(hs)) {
      forall run, s, e | Reached(c, s0, run, s) && s.received <= w && NormalForward(c, s, e)
        ensures Of(Apply(c, s, Execute(e)), Wait) == []
      {
        NormalReleasesStrict(c, s0, run, s, e, w);
      }
    } else {
      NondecreasingInit(hs);
      var i := AdjacentEqual(Init(hs));
      var run, s, e := UnreleasedRun(c, s0, w, i);
      assert Reached(c, s0, run, s) && NormalForward(c, s, e);
    }
  }

  lemma NondecreasingInit(hs: seq<Header>)
    requires Nondecreasing(hs) && hs != []
    ensures Nondecreasing(Init(hs))
  {
    assert hs == Init(hs) + [Last(hs)];
    NondecreasingPrefix(Init(hs), [Last(hs)]);
  }

  lemma NormalReleasesStrict(c: Delimiters, s0: System, run: seq<Action>, s: System, e: Entry, w: string)
    requires GoodDelimiters(c) && Reached(c, s0, run, s) && s.received <= w && NormalForward(c, s, e)
    requires StreamHeaders(c, w) == [] || StrictlyIncreasing(Init(StreamHeaders(c, w)))
    ensures Of(Apply(c, s, Execute(e)), Wait) == []
  {
    hide Select, Split, Accepted, Parse, Initial, Feasible, End, StrictlyIncreasing, Inv, Apply, StreamHeaders,
         OnlyServed;
    InitialServes(c, s0);
    OnlyServedAlong(c, s0, run);
    ReachedInv(c, s0, run, s);
    NextOfStream(c, s, w);
    StrictPrefix(Headers(c, s), Init(StreamHeaders(c, w)));
    GrantReleasesClock(c, s0, run, s, e);
  }
}
