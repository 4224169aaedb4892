/** Time-grant safety, producer and consumer agreement, framing and shutdown, for every run. */
module GatewayTheorems {
  import opened Words
  import opened Numbers
  import opened Framing
  import opened Events
  import opened GatewayEffects
  import opened GatewayRuns
  import opened GatewayInvariants

  /** Nothing but a fatal error keeps the thread from its next step, the simulator from its next event,
      or other models from scheduling events and stopping the simulation. */
  lemma EveryMoveIsCovered(c: Delimiters, s: System, chunk: string, e: Entry, time: int)
    requires GoodDelimiters(c) && s.fatal.None?
    ensures Enabled(c, s, if s.thread.AtTop? then Check
                          else if s.thread.Pushed? then ScheduleForward
                          else if s.thread.Receiving? && Contains(s.thread.data, c.m) then Take
                          else Halt)
    ensures s.thread.Receiving? && !Contains(s.thread.data, c.m) ==>
              Enabled(c, s, Close) && (1 <= |chunk| <= 4096 ==> Enabled(c, s, Receive(chunk)))
    ensures !s.g.halted && s.g.kernel.IsNext(e) ==> Enabled(c, s, Execute(e))
    ensures Enabled(c, s, Halt) && (time >= s.g.kernel.now ==> Enabled(c, s, Spawn(time)))
  {
  }

  /** The state a run from Connect ends in. */
  ghost predicate Reached(c: Delimiters, s0: System, run: seq<Action>, s: System)
    requires GoodDelimiters(c)
  {
    Initial(s0) && Feasible(c, s0, run) && s == End(c, s0, run)
  }

  /** Runs start where the constructor and a successful Connect leave the gateway, whatever other models
      have scheduled by then. */
  lemma InitialIff(s: System)
    ensures Initial(s) <==>
              s.fatal == None && s.thread == AtTop && s.received == "" && s.popped == [] && s.delivered == []
              && exists k: Kernel ::
                   k.Valid() && k.now == s.start && (forall e :: e in k.pending ==> e.event.Other?)
                   && s.g == Gw(k.Schedule(0, WaitForNextUpdate), false, CONNECTED, k.nextId, true, -1_000_000_000, 0,
                                "", [], 0)
  {
    hide ConnectEffect;
    if Initial(s) {
      var k := InitialKernel(s);
    }
    forall k: Kernel |
      k.Valid() && k.now == s.start && (forall e :: e in k.pending ==> e.event.Other?)
      && s.g == Gw(k.Schedule(0, WaitForNextUpdate), false, CONNECTED, k.nextId, true, -1_000_000_000, 0, "", [], 0)
      ensures ConnectEffect(Gw(k, false, CREATED, 0, false, -NANOS, 0, "", [], 0)) == Ok(s.g)
    {
      ConnectsTo(k);
    }
  }

  lemma ConnectsTo(k: Kernel)
    ensures ConnectEffect(Gw(k, false, CREATED, 0, false, -NANOS, 0, "", [], 0))
         == Ok(Gw(k.Schedule(0, WaitForNextUpdate), false, CONNECTED, k.nextId, true, -1_000_000_000, 0, "", [], 0))
  {
  }

  lemma InitialKernel(s: System) returns (k: Kernel)
    requires Initial(s)
    ensures k.Valid() && k.now == s.start && (forall e :: e in k.pending ==> e.event.Other?)
    ensures s.g == Gw(k.Schedule(0, WaitForNextUpdate), false, CONNECTED, k.nextId, true, -1_000_000_000, 0, "", [], 0)
  {
    var g: Gw :| g.kernel.Valid() && g.kernel.now == s.start && (forall e :: e in g.kernel.pending ==> e.event.Other?)
      && !g.halted && g.state == CREATED && g.eventWait == 0 && !g.destroyPending
      && g.timeStart == -NANOS && g.timePause == 0 && g.buffer == "" && g.queue == [] && g.closes == 0
      && ConnectEffect(g) == Ok(s.g);
    k := g.kernel;
    assert g == Gw(k, false, CREATED, 0, false, -NANOS, 0, "", [], 0);
    ConnectsTo(k);
  }

  lemma ReachedInv(c: Delimiters, s0: System, run: seq<Action>, s: System)
    requires GoodDelimiters(c) && Reached(c, s0, run, s)
    ensures Inv(c, s)
  {
    hide Inv;
    InitialInv(c, s0);
    RunKeeps(c, s0, run);
  }

  // ----- time-grant safety

  /** While the gateway is connected, either a wait event freezes the clock where it is, or an
      update is pending at exactly the granted pause time, which is not in the past. */
  lemma ClockIsHeldOrGranted(c: Delimiters, s0: System, run: seq<Action>, s: System)
    requires GoodDelimiters(c) && Reached(c, s0, run, s) && s.fatal.None? && s.g.state == CONNECTED
    ensures (exists w :: w in s.g.kernel.pending && w.event.WaitForNextUpdate? && w.time == s.g.kernel.now)
         || (s.g.timePause >= s.g.kernel.now
             && exists u :: u in s.g.kernel.pending && u.event.HandleUpdate? && u.time == s.g.timePause)
  {
    ReachedInv(c, s0, run, s);
    hide Select, Without, Accepted;
    var l := LanesOf(s.g.kernel.pending);
    NonEmptyHasMember(l.waits);
    if l.waits != [] {
      var w :| w in l.waits;
      assert w in s.g.kernel.pending;
    } else {
      var u :| u in l.callbacks && u.event.HandleUpdate? && u.time == s.g.timePause;
      assert u in s.g.kernel.pending;
    }
  }

  /** No event the simulator runs while connected is later than the last granted pause time (before
      the first grant: than the time of Connect), and the clock only moves with no wait pending. */
  lemma ClockNeverPassesGrant(c: Delimiters, s0: System, run: seq<Action>, s: System, e: Entry)
    requires GoodDelimiters(c) && Reached(c, s0, run, s)
    requires Enabled(c, s, Execute(e)) && s.g.state == CONNECTED
    ensures s.g.kernel.now <= e.time
    ensures e.time > s.g.kernel.now ==>
              |Headers(c, s)| >= 2 && e.time <= s.g.timePause
              && forall w :: w in s.g.kernel.pending ==> !w.event.WaitForNextUpdate?
    ensures |Headers(c, s)| < 2 ==> e.time == s.start
  {
    ReachedInv(c, s0, run, s);
    hide Select, Without, Accepted;
    var l := LanesOf(s.g.kernel.pending);
    NextWithinHorizon(s.g.kernel, s.g.eventWait, e, s.g.state, s.start, Headers(c, s), s.g.timePause, l);
    forall w | w in s.g.kernel.pending && w.event.WaitForNextUpdate? ensures w in l.waits {}
  }

  // ----- queue and framing

  /** Queued messages and pending ForwardUp events agree, and ForwardUp never finds the queue empty. */
  lemma QueueMatchesForwards(c: Delimiters, s0: System, run: seq<Action>, s: System)
    requires GoodDelimiters(c) && Reached(c, s0, run, s) && s.fatal.None?
    ensures |s.g.queue| == |Of(s, Forward)| + if s.thread.Pushed? then 1 else 0
  {
    ReachedInv(c, s0, run, s);
  }

  /** The "called without any queued messages" error cannot happen. */
  lemma EmptyQueueUnreachable(c: Delimiters, s0: System, run: seq<Action>, s: System)
    requires GoodDelimiters(c) && Reached(c, s0, run, s)
    ensures s.fatal != Some(EmptyQueue)
  {
    hide Inv;
    InitialInv(c, s0);
    QueueNeverFoundEmpty(c, s0, run);
  }

  lemma {:induction false} QueueNeverFoundEmpty(c: Delimiters, s: System, run: seq<Action>)
    requires GoodDelimiters(c) && Inv(c, s) && s.fatal != Some(EmptyQueue) && Feasible(c, s, run)
    ensures End(c, s, run).fatal != Some(EmptyQueue)
    decreases |run|
  {
    hide Inv, Apply, Core, ControlInv, Framed;
    if run != [] {
      StepKeeps(c, s, run[0]);
      OnlyForwardFails(c, s, run[0]);
      QueueNeverFoundEmpty(c, Apply(c, s, run[0]), run[1..]);
    }
  }

  lemma OnlyForwardFails(c: Delimiters, s: System, a: Action)
    requires GoodDelimiters(c) && Inv(c, s) && Enabled(c, s, a)
    ensures Apply(c, s, a).fatal in {None, Some(BadHeader), Some(TimestampsNotIncreasing)}
  {
    hide Select, Without, Split, Accepted, Parse, Core, Framed;
    if a.Execute? && a.e.event.ForwardUp? {
      ForwardCases(c, s, a.e);
    } else {
      OthersDoNotFail(c, s, a);
    }
  }

  lemma OthersDoNotFail(c: Delimiters, s: System, a: Action)
    requires GoodDelimiters(c) && !(a.Execute? && a.e.event.ForwardUp?)
    ensures Apply(c, s, a).fatal == s.fatal
  {
    hide Select, Without, Split;
  }

  /** However recv cut the stream, the messages taken so far, in order, are the first messages of
      the whole stream, and what is still buffered is all the rest. */
  lemma StreamIsPreserved(c: Delimiters, s0: System, run: seq<Action>, s: System)
    requires GoodDelimiters(c) && Reached(c, s0, run, s) && s.fatal.None?
    ensures s.popped + s.g.queue + Messages(Unframed(s), c.m) == Messages(s.received, c.m)
    ensures Remainder(Unframed(s), c.m) == Remainder(s.received, c.m)
    ensures forall msg :: msg in s.popped + s.g.queue ==> !Contains(msg, c.m)
  {
    ReachedInv(c, s0, run, s);
    FramedMessages(c.m, s.popped + s.g.queue, Unframed(s), s.received);
  }

  lemma FramedMessages(m: string, taken: seq<string>, rest: string, received: string)
    requires m != "" && taken + Split(rest, m) == Split(received, m)
    ensures taken + Messages(rest, m) == Messages(received, m) && Remainder(rest, m) == Remainder(received, m)
    ensures forall msg :: msg in taken ==> !Contains(msg, m)
  {
    hide Split, Find;
    SplitPiecesFree(received, m);
    assert Init(taken + Split(rest, m)) == taken + Init(Split(rest, m));
    forall msg | msg in taken ensures msg in Split(received, m) { assert msg in taken + Split(rest, m); }
  }

  // ----- shutdown

  /** Once the simulation is stopped, by the terminate message or another model, no event runs. */
  lemma {:induction false} StoppedSimulation(c: Delimiters, s: System, run: seq<Action>)
    requires GoodDelimiters(c) && Feasible(c, s, run) && s.g.halted
    ensures var t := End(c, s, run);
            t.g.halted && t.g.kernel.now == s.g.kernel.now && t.popped == s.popped && t.delivered == s.delivered
            && t.fatal == s.fatal
    decreases |run|
  {
    hide Apply, Enabled;
    if run != [] {
      StoppedStep(c, s, run[0]);
      StoppedSimulation(c, Apply(c, s, run[0]), run[1..]);
    }
  }

  lemma StoppedStep(c: Delimiters, s: System, a: Action)
    requires GoodDelimiters(c) && Enabled(c, s, a) && s.g.halted
    ensures var t := Apply(c, s, a);
            t.g.halted && t.g.kernel.now == s.g.kernel.now && t.popped == s.popped && t.delivered == s.delivered
            && t.fatal == s.fatal
  {
    hide Find, Split, Parse, Without, Select;
  }

  /** Another model may stop the simulation at any time. */
  lemma HaltStops(c: Delimiters, s: System, run: seq<Action>)
    requires GoodDelimiters(c) && s.fatal.None? && Feasible(c, Apply(c, s, Halt), run)
    ensures Feasible(c, s, [Halt] + run)
    ensures var t := End(c, s, [Halt] + run);
            t.g.kernel.now == s.g.kernel.now && t.popped == s.popped && t.delivered == s.delivered
  {
    assert ([Halt] + run)[1..] == run;
    StoppedSimulation(c, Apply(c, s, Halt), run);
  }

  /** When the Stop event of a closed connection runs, every complete message has been processed. */
  lemma StopComesLast(c: Delimiters, s0: System, run: seq<Action>, s: System, e: Entry)
    requires GoodDelimiters(c) && Reached(c, s0, run, s) && Enabled(c, s, Execute(e)) && e.event.Stop?
    ensures s.g.queue == [] && s.popped == Messages(s.received, c.m) && s.thread.Exited?
    ensures s.g.closes == 0 && Apply(c, s, Execute(e)).g.closes == 1
  {
    hide Select, Without, Split, Find, Accepted, ControlInv, Parse, Core;
    ReachedInv(c, s0, run, s);
    StopFinds(c, s, e);
    FramedMessages(c.m, s.popped + s.g.queue, Unframed(s), s.received);
    assert s.popped + s.g.queue == s.popped && s.popped + [] == s.popped;
  }

  /** What the Stop event of a closed connection finds. */
  lemma StopFinds(c: Delimiters, s: System, e: Entry)
    requires GoodDelimiters(c) && Core(c, s) && Enabled(c, s, Execute(e)) && e.event.Stop?
    ensures s.g.queue == [] && s.thread.Exited? && s.g.closes == 0 && Messages(s.thread.dropped, c.m) == []
    ensures Apply(c, s, Execute(e)).g.closes == 1
  {
    hide Select, Without, Split, Find, Accepted, Parse;
    StopIsLast(c, s, e, LanesOf(s.g.kernel.pending));
    SplitWhole(s.thread.dropped, c.m);
  }

  lemma SplitWhole(data: string, m: string)
    requires m != "" && Find(data, m).None?
    ensures Split(data, m) == [data]
  {
    hide Find;
  }

  /** The thread is joined and the socket closed at most once in any run, however Stop is reached. */
  lemma ClosedAtMostOnce(c: Delimiters, s0: System, run: seq<Action>, s: System)
    requires GoodDelimiters(c) && Reached(c, s0, run, s) && s.fatal.None?
    ensures s.g.closes <= 1 && (s.g.closes == 1 <==> s.g.state == STOPPING)
    ensures s.g.state == STOPPING ==> s.thread.Exited?
  {
    ReachedInv(c, s0, run, s);
  }

  /** At the end of the simulation Simulator::Destroy still stops a connected gateway: the thread is gone,
      the socket closed once, and no event of m_eventWait left. */
  lemma DestroyCloses(c: Delimiters, s0: System, run: seq<Action>, s: System)
    requires GoodDelimiters(c) && Reached(c, s0, run, s) && s.fatal.None? && s.g.halted && s.g.state == CONNECTED
    ensures Enabled(c, s, Destroy) <==> s.thread.AtTop? || s.thread.Exited?
    ensures var t := Apply(c, s, Destroy);
            t.g.state == STOPPING && t.g.closes == 1 && !t.g.destroyPending && t.thread.Exited?
            && !t.g.kernel.IsPending(t.g.eventWait)
  {
    hide Select, Split, Find, Accepted, Parse;
    ReachedInv(c, s0, run, s);
  }

  /** A second Stop does nothing, from any state: it neither joins nor closes again. */
  lemma StopTwiceIsStop(g: Gw)
    ensures StopEffect(StopEffect(g)) == StopEffect(g)
    ensures StopEffect(g).closes == g.closes + if g.state == CONNECTED then 1 else 0
  {
    hide Select;
    var t := CancelWait(g);
    assert !t.kernel.IsPending(g.eventWait);
  }

  /** The gateway events still to run; a pending update counts twice, for the wait it may leave. */
  function Weight(l: Lanes): nat
  {
    |l.waits| + |l.forwards| + |l.stops| + 2 * |l.callbacks|
  }

  /** After Stop every gateway event that runs brings the gateway closer to silence, waits included,
      and no other action adds one: from then on the gateway no longer holds the clock. */
  lemma StoppedGatewayRunsDown(c: Delimiters, s: System, a: Action)
    requires GoodDelimiters(c) && Inv(c, s) && Enabled(c, s, a) && s.g.state == STOPPING && !s.g.halted
    ensures var t := Apply(c, s, a);
            t.fatal.None? && t.g.state == STOPPING
            && (a.Execute? && KindOf(a.e.event) in {Wait, Forward, Stopping, Callback}
                ==> Weight(LanesOf(t.g.kernel.pending)) < Weight(LanesOf(s.g.kernel.pending)))
            && (!a.Execute? || KindOf(a.e.event) !in {Wait, Forward, Stopping, Callback}
                ==> LanesOf(t.g.kernel.pending) == LanesOf(s.g.kernel.pending))
  {
    hide Select, Without, Split, Accepted;
    var l := LanesOf(s.g.kernel.pending);
    if a.Execute? {
      var e := a.e;
      Begin(c, s, e);
      StoppedEvent(c, s, e, l);
    } else if a.Spawn? {
      InsertLands(s.g, l, a.time - s.g.kernel.now, Other);
    }
  }

  lemma StoppedEvent(c: Delimiters, s: System, e: Entry, l: Lanes)
    requires GoodDelimiters(c) && Core(c, s) && Enabled(c, s, Execute(e)) && s.g.state == STOPPING
    requires l == LanesOf(s.g.kernel.pending) && LanesOf(s.g.kernel.Take(e).pending) == Drop(l, e)
    requires KernelInv(s.g.kernel.Take(e), s.g.eventWait)
    ensures var t := Apply(c, s, Execute(e));
            t.fatal.None? && t.g.state == STOPPING
            && (if KindOf(e.event) in {Wait, Forward, Stopping, Callback}
                then Weight(LanesOf(t.g.kernel.pending)) < Weight(l)
                else LanesOf(t.g.kernel.pending) == l)
  {
    hide Select, Without, Split, Accepted;
    assert e in Select(s.g.kernel.pending, KindOf(e.event));
    assert l.forwards == [] && l.stops == [];
    var g := s.g.(kernel := s.g.kernel.Take(e));
    match KindOf(e.event) {
      case Wait => LaneLeft(s.g.kernel, e, Wait);
      case Callback =>
        LaneLeft(s.g.kernel, e, Callback);
        StoppedUpdate(g, Drop(l, e));
      case _ =>
    }
  }

  lemma StoppedUpdate(g: Gw, l: Lanes)
    requires Lands(g, l)
    ensures LanesOf(UpdateEffect(g).kernel.pending).callbacks == l.callbacks
    ensures |LanesOf(UpdateEffect(g).kernel.pending).waits| <= |l.waits| + 1
    ensures Weight(LanesOf(UpdateEffect(g).kernel.pending)) <= Weight(l) + 1
  {
    hide Select, Without;
    if g.kernel.now == g.timePause { ScheduleWaitLands(g, l); }
  }
}
