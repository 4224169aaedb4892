/** The pair of server and gateway always gets to its end: every move but a wait event or another
    model's event brings the end nearer, and from every state some continuation reaches it. */
module LockStepProgress {
  import opened Words
  import opened Numbers
  import opened Framing
  import opened Events
  import opened GatewayEffects
  import opened GatewayRuns
  import opened GatewayInvariants
  import opened GatewayOrder
  import opened GatewayProgress
  import opened Encoding
  import opened SimpleServer
  import opened SimpleGateway
  import opened LockStep

  // ----- what is left to do

  function ServerWork(p: Plan, s: Server): int
  {
    match s.phase
    case Sending => 2 * (p.iterations - s.i)
    case Awaiting => 2 * (p.iterations - s.i) - 1
    case Closed => 0
  }

  function ThreadWork(t: Thread): nat
  {
    match t
    case AtTop => 2
    case Receiving(_) => 1
    case Pushed => 3
    case Exited(_) => 0
  }

  /** Server steps, bytes to receive, messages to frame, to forward and to answer, and the shutdown. */
  function Rank(p: Plan, x: Pair): int
    requires GoodPlan(p)
  {
    ServerWork(p, x.server) + (|SentAll(p)| - |x.sys.received|)
    + 3 * (p.iterations + 1 - |x.sys.popped| - |x.sys.g.queue|) + ThreadWork(x.sys.thread)
    + (p.iterations + 1 - |x.sys.popped|) + (p.iterations - |x.applied|) + if x.sys.g.destroyPending then 1 else 0
  }

  /** Every move of the two programs except the wait event; other models' events do not count. */
  predicate Progress(m: Move)
  {
    match m
    case Client(a) => !a.Spawn? && !(a.Execute? && KindOf(a.e.event) !in {Forward, Callback})
    case Hear(_) => false
    case _ => true
  }

  lemma {:induction false} SentGrows(p: Plan, k: nat)
    requires GoodPlan(p) && k <= p.iterations
    ensures |SentSteps(p, k)| <= |SentAll(p)|
    decreases p.iterations - k
  {
    hide Print, Vectors, Join, StepVector;
    if k == p.iterations {
      PrintAppend(Vectors(p, k), TERMINATE, SP, CRLF);
    } else {
      SentStep(p, k);
      SentGrows(p, k + 1);
    }
  }

  lemma RankNonnegative(p: Plan, x: Pair)
    requires GoodPlan(p) && LockInv(p, x)
    ensures Rank(p, x) >= 0
  {
    hide Inv, Delivering, Single, StepsDone, SentAll, SentSteps, Headers, HeadersOf, Due, Planned, Text, Parse, Select,
         Answered, FitsTo, ServerInv;
    PairFacts(p, x);
    ServerParts(p, x.server);
  }

  lemma ServerParts(p: Plan, s: Server)
    requires GoodPlan(p) && ServerInv(p, s)
    ensures |s.sent| <= |SentAll(p)| && ServerWork(p, s) >= 0 && s.i < p.iterations
  {
    hide SentAll, SentSteps, GoodPlan;
    if s.phase.Awaiting? { SentGrows(p, s.i + 1); }
    if s.phase.Sending? { SentGrows(p, s.i); }
  }

  // ----- every move of the two programs lowers the rank

  lemma QuietRank(p: Plan, x: Pair, a: Action)
    requires GoodPlan(p) && LockInv(p, x) && Ready(x, Client(a)) && Quiet(a)
    ensures Rank(p, After(p, x, Client(a))) <= Rank(p, x) - if Progress(Client(a)) then 1 else 0
  {
    hide LockInv, After, SentAll, Headers, Select, Without, Split;
    QuietLocked(p, x, a);
    if a.Execute? { StopNeverRuns(p, x, a.e); }
    var s, t := x.sys, Apply(C, x.sys, a);
    QuietWork(s, a);
  }

  lemma QuietWork(s: System, a: Action)
    requires Enabled(C, s, a) && Quiet(a) && !a.Halt? && !(a.Execute? && a.e.event.Stop?)
    ensures var t := Apply(C, s, a);
            t.popped == s.popped && |s.received| <= |t.received| && |s.g.queue| <= |t.g.queue|
            && (t.g.destroyPending ==> s.g.destroyPending)
            && ThreadWork(t.thread) - 3 * |t.g.queue| - |t.received| + (if t.g.destroyPending then 1 else 0)
               <= ThreadWork(s.thread) - 3 * |s.g.queue| - |s.received| + (if s.g.destroyPending then 1 else 0)
                  - if Progress(Client(a)) then 1 else 0
  {
    hide Select, Without, Split, Find;
  }

  lemma ForwardRank(p: Plan, x: Pair, e: Entry)
    requires GoodPlan(p) && LockInv(p, x) && Ready(x, Client(Execute(e))) && e.event.ForwardUp?
    ensures Rank(p, After(p, x, Client(Execute(e)))) < Rank(p, x)
  {
    hide LockInv, SentAll, Headers, Select, Without, Split, Parse;
    NextStep(p, x, e);
    ForwardTakes(x.sys, e, NextHeader(C, x.sys).value);
  }

  lemma ForwardTakes(s: System, e: Entry, h: Header)
    requires e.event.ForwardUp? && NextHeader(C, s) == Some(h) && Apply(C, s, Execute(e)).fatal.None?
    ensures var t := Apply(C, s, Execute(e));
            s.g.queue != [] && t.popped == s.popped + [s.g.queue[0]] && t.g.queue == s.g.queue[1..]
            && t.received == s.received && t.thread == s.thread && t.g.destroyPending == s.g.destroyPending
  {
    hide Select, Without, Split, Parse;
    ForwardApplies(C, s, e, h);
  }

  lemma CallbackRank(p: Plan, x: Pair, e: Entry)
    requires GoodPlan(p) && LockInv(p, x) && Ready(x, Client(Execute(e))) && KindOf(e.event) == Callback
    ensures Rank(p, After(p, x, Client(Execute(e)))) < Rank(p, x)
  {
    hide LockInv, SentAll, Headers, Select, Without, Split, Parse, Decode, Response;
    CallbackLocked(p, x, e);
    CallbackTakes(x.sys, e);
  }

  lemma CallbackTakes(s: System, e: Entry)
    requires KindOf(e.event) == Callback
    ensures var t := Apply(C, s, Execute(e));
            t.popped == s.popped && t.g.queue == s.g.queue && t.received == s.received && t.thread == s.thread
            && t.g.destroyPending == s.g.destroyPending
  {
    hide Select, Without, Split, Parse;
  }

  lemma ServerRank(p: Plan, x: Pair, m: Move)
    requires GoodPlan(p) && LockInv(p, x) && Ready(x, m) && !m.Client?
    ensures Rank(p, After(p, x, m)) <= Rank(p, x) - if Progress(m) then 1 else 0
  {
    hide Healthy, SentAll, SentSteps, StepVector, Join, StepsDone, Coupled, Answered, FitsTo;
  }

  lemma StepRank(p: Plan, x: Pair, m: Move)
    requires GoodPlan(p) && LockInv(p, x) && Ready(x, m)
    ensures Rank(p, After(p, x, m)) <= Rank(p, x) - if Progress(m) then 1 else 0
  {
    hide LockInv, After, Rank, Enabled;
    match m {
      case Client(a) =>
        if Quiet(a) { QuietRank(p, x, a); }
        else if a.e.event.ForwardUp? { ForwardRank(p, x, a.e); }
        else { CallbackRank(p, x, a.e); }
      case _ => ServerRank(p, x, m);
    }
  }

  function ProgressMoves(run: seq<Move>): nat
  {
    if run == [] then 0 else (if Progress(run[0]) then 1 else 0) + ProgressMoves(run[1..])
  }

  lemma {:induction false} RunRank(p: Plan, x: Pair, run: seq<Move>)
    requires Fits(p) && LockInv(p, x) && Possible(p, x, run)
    ensures ProgressMoves(run) + Rank(p, Finally(p, x, run)) <= Rank(p, x)
    decreases |run|
  {
    hide LockInv, After, Ready, Rank;
    if run != [] {
      FitsSent(p, After(p, x, run[0]).server);
      StepLocked(p, x, run[0]);
      StepRank(p, x, run[0]);
      RunRank(p, After(p, x, run[0]), run[1..]);
    }
  }

  /** However the two threads, the server and other models are interleaved, the two programs together
      make at most this many moves: nothing but wait events and other models can go on forever. */
  lemma LockStepIsBounded(p: Plan, x0: Pair, run: seq<Move>)
    requires Fits(p) && Begins(p, x0) && Possible(p, x0, run)
    ensures ProgressMoves(run) <= |SentAll(p)| + 7 * p.iterations + 7
  {
    hide LockInv, Rank, Possible, SentAll, Begins;
    BeginsLocked(p, x0);
    RunRank(p, x0, run);
    RunLocked(p, x0, run);
    RankNonnegative(p, Finally(p, x0, run));
    FirstRank(p, x0);
  }

  lemma FirstRank(p: Plan, x: Pair)
    requires GoodPlan(p) && Begins(p, x)
    ensures Rank(p, x) == |SentAll(p)| + 7 * p.iterations + 7
  {
    hide SentAll, Select;
  }

  // ----- and the end is always within reach

  /** A move of the receive thread; without one, it holds no message and has read all that was sent. */
  lemma ThreadMove(p: Plan, x: Pair) returns (m: Option<Move>)
    requires GoodPlan(p) && x.failed.None? && x.sys.fatal.None? && x.sys.received <= x.server.sent
    ensures m.Some? ==> Ready(x, m.value) && Progress(m.value) && !m.value.SendStep?
    ensures m.None? ==> x.sys.thread.Exited? || (x.sys.thread.Receiving? && Find(x.sys.thread.data, CRLF).None?
                                                 && x.sys.received == x.server.sent && !x.server.phase.Closed?)
  {
    hide Find;
    m := None;
    match x.sys.thread {
      case AtTop => m := Some(Client(Check));
      case Pushed => m := Some(Client(ScheduleForward));
      case Exited(_) =>
      case Receiving(data) =>
        if Find(data, CRLF).Some? {
          m := Some(Client(Take));
        } else if x.sys.received != x.server.sent {
          var rest := x.server.sent[|x.sys.received|..];
          assert x.server.sent == x.sys.received + rest;
          m := Some(Client(Receive(rest[..1])));
        } else if x.server.phase.Closed? {
          m := Some(Client(Close));
        }
    }
  }

  /** Nothing outside the simulator can move: all messages sent so far are queued or forwarded, and the
      server waits for a response that has not been written. */
  ghost predicate Quiescent(p: Plan, x: Pair)
  {
    |x.sys.popped| + |x.sys.g.queue| == Count(p, x.server) && !x.sys.thread.Pushed?
    && match x.server.phase
       case Sending => false
       case Awaiting => |x.answers| == x.server.replies
       case Closed => true
  }

  lemma OutsideMove(p: Plan, x: Pair) returns (m: Option<Move>)
    requires GoodPlan(p) && LockInv(p, x) && !x.sys.g.halted
    ensures if m.Some? then Ready(x, m.value) && Progress(m.value) else Quiescent(p, x)
  {
    hide LockInv, Inv, Delivering, Single, Past, Find, Enabled;
    LockedHealthy(p, x);
    LockedStream(p, x);
    m := None;
    if x.server.phase.Sending? {
      m := Some(SendStep);
    } else if x.server.phase.Awaiting? && x.server.inbox != x.outbox {
      m := Some(ReadResponse);
    } else {
      Outstanding(p, x);
      m := ThreadMove(p, x);
      if m.None? {
        NothingUnframed(p, x);
      }
    }
  }

  lemma LockedStream(p: Plan, x: Pair)
    requires GoodPlan(p) && LockInv(p, x)
    ensures x.failed.None? && x.sys.received <= x.server.sent
    ensures x.sys.thread.Exited? && !x.sys.g.halted ==> x.server.phase.Closed? && x.sys.received == x.server.sent
  {
    hide Healthy, ServerInv, Answered, StepsDone;
  }

  /** All that was sent has arrived, and no message of it is left in the buffer. */
  lemma NothingUnframed(p: Plan, x: Pair)
    requires GoodPlan(p) && LockInv(p, x) && !x.sys.g.halted && x.sys.received == x.server.sent
    requires x.sys.thread.Exited? || (x.sys.thread.Receiving? && Find(x.sys.thread.data, CRLF).None?)
    ensures |x.sys.popped| + |x.sys.g.queue| == Count(p, x.server)
  {
    hide ServerInv, Coupled, Answered, Delivering, Single, Core, Framed, Split, Find;
    CoreOf(C, x.sys);
    if x.sys.thread.Exited? { DroppedNothing(x.sys); }
    TakenTexts(p, x.server, x.sys);
  }

  /** A pending message or callback that no wait event can keep from running. */
  ghost predicate Awaited(s: System, t: Entry)
  {
    !s.g.halted && t in s.g.kernel.pending && KindOf(t.event) in {Forward, Callback}
    && (t.time == s.g.kernel.now || Of(s, Wait) == [])
  }

  /** When nothing outside can move, the simulator has a message or a callback to run. */
  lemma SimulatorHasWork(p: Plan, x: Pair) returns (t: Entry)
    requires GoodPlan(p) && LockInv(p, x) && !x.sys.g.halted && Quiescent(p, x)
    ensures Awaited(x.sys, t)
  {
    hide ServerInv, StepsDone, Accepted, Split, Find, Select, HeadersOf, Planned, GatewayOrder.Due, Parse, Text;
    var s := x.sys;
    CoreOf(C, s);
    CountBound(p, x.server);
    PairFacts(p, x);
    if s.g.queue != [] {
      t := FirstForward(s);
    } else {
      t := LastCallback(p, x);
    }
  }

  lemma FirstForward(s: System) returns (t: Entry)
    requires Core(C, s) && s.fatal.None? && !s.g.halted && s.g.queue != [] && !s.thread.Pushed?
    ensures Awaited(s, t) && t.event.ForwardUp?
  {
    hide Select, Accepted, Split, Find;
    t := Of(s, Forward)[0];
    assert t in Of(s, Forward) && NowOnly(t.event);
  }

  /** The one callback the server is waiting for. */
  lemma OneCallback(p: Plan, x: Pair)
    requires GoodPlan(p) && LockInv(p, x) && !x.sys.g.halted && Quiescent(p, x) && x.sys.g.queue == []
    ensures LastOne(p, x.sys, |x.applied|)
  {
    hide ServerInv, StepsDone, Accepted, Split, Find, Select, HeaderAt, Parse, Text, Planned, Inv, Delivering, Single,
         HeadersOf, Answers, Print, OrderedStream, GatewayOrder.Due;
    var s, j := x.sys, |x.applied|;
    CountBound(p, x.server);
    PairFacts(p, x);
    OnePlanned(Of(s, Callback));
    DueLength(0, HeadersOf(p, j + 1));
    assert (s.delivered + Planned(Of(s, Callback)))[j] == DeliveryOf(Of(s, Callback)[0]);
  }

  /** The callback of step j is the only one pending, and the last message was that step. */
  ghost predicate LastOne(p: Plan, s: System, j: nat)
    requires GoodPlan(p)
  {
    var q := Of(s, Callback);
    j < p.iterations && |q| == 1 && Headers(C, s) == HeadersOf(p, j + 1)
    && |Due(0, HeadersOf(p, j + 1))| > j && DeliveryOf(q[0]) == Due(0, HeadersOf(p, j + 1))[j]
  }

  lemma LastCallback(p: Plan, x: Pair) returns (t: Entry)
    requires GoodPlan(p) && LockInv(p, x) && !x.sys.g.halted && Quiescent(p, x) && x.sys.g.queue == []
    ensures Awaited(x.sys, t)
  {
    hide LockInv, Due, Select, Quiescent, HeadersOf, Awaited;
    var j, q := |x.applied|, Of(x.sys, Callback);
    OneCallback(p, x);
    t := q[0];
    assert t in q;
    DueStep(p, j + 1, j);
    if j > 0 { StampFits(p, j); }
    LockedHealthy(p, x);
    CallbackAwaited(p, x.sys, t, j);
  }

  lemma LockedHealthy(p: Plan, x: Pair)
    requires GoodPlan(p) && LockInv(p, x) && !x.sys.g.halted
    ensures Healthy(x.sys) && x.sys.g.state == CONNECTED
  {
    hide Healthy, ServerInv, Answered;
  }

  lemma CallbackAwaited(p: Plan, s: System, t: Entry, j: nat)
    requires GoodPlan(p) && j < p.iterations && Healthy(s) && !s.g.halted && s.g.state == CONNECTED
    requires t in Of(s, Callback) && Headers(C, s) == HeadersOf(p, j + 1)
    requires DeliveryOf(t).initial == (j == 0) && DeliveryOf(t).time == p.timeDelta * j * NANOS
    requires j > 0 ==> HeaderAt(p, j).stamp - HeaderAt(p, 0).stamp == p.timeDelta * j * NANOS
    ensures Awaited(s, t)
  {
    hide Select, Accepted, Split, Find, Parse, HeaderAt, Delivering, Framed;
    CoreOf(C, s);
    if j > 0 {
      assert t.time == s.g.timePause;
      assert !Held(s.g, LanesOf(s.g.kernel.pending));
    }
  }

  lemma OnePlanned(q: seq<Entry>)
    requires |q| == 1
    ensures Planned(q) == [DeliveryOf(q[0])]
  {
    assert Planned(Init(q)) == [];
  }

  /** Events before the awaited one, a wait event counted twice. */
  function Ahead(s: System, t: Entry): nat
  {
    |s.g.kernel.pending| + if Of(s, Wait) != [] && Of(s, Wait)[0].id < t.id then 1 else 0
  }

  lemma PassForeign(s: System, e: Entry, t: Entry)
    requires Healthy(s) && Enabled(C, s, Execute(e)) && KindOf(e.event) in {Request, Packet, Foreign} && Awaited(s, t)
    ensures Awaited(Apply(C, s, Execute(e)), t) && Ahead(Apply(C, s, Execute(e)), t) < Ahead(s, t)
  {
    hide Select, Without, Split, Accepted, ControlInv, Framed, Delivering, Single;
    CoreOf(C, s);
    Begin(C, s, e);
    TakeSelect(s.g.kernel, e);
    if t.id == e.id { SameEntry(s.g.kernel.pending, t, e); }
  }

  lemma PassWait(s: System, e: Entry, t: Entry)
    requires Healthy(s) && Enabled(C, s, Execute(e)) && e.event.WaitForNextUpdate? && Awaited(s, t)
    requires s.g.state == CONNECTED
    ensures Awaited(Apply(C, s, Execute(e)), t) && Ahead(Apply(C, s, Execute(e)), t) < Ahead(s, t)
  {
    hide Select, Without, Split, Accepted, ControlInv, Framed, Delivering;
    var l, g := LanesOf(s.g.kernel.pending), s.g.(kernel := s.g.kernel.Take(e));
    CoreOf(C, s);
    Begin(C, s, e);
    TakeSelect(s.g.kernel, e);
    assert e in l.waits && e == l.waits[0];
    if t.id == e.id { SameEntry(s.g.kernel.pending, t, e); }
    LaneLeft(s.g.kernel, e, Wait);
    assert Without(l.waits, e.id) == [];
    assert !g.kernel.IsPending(g.eventWait) by {
      forall o | o in s.g.kernel.pending && o.id == e.id ensures o == e { SameEntry(s.g.kernel.pending, o, e); }
    }
    assert WaitEffect(g) == ScheduleWait(g);
    ScheduleWaitLands(g, Drop(l, e));
  }

  /** The simulator alone gets to its next message or callback. */
  lemma Approach(p: Plan, x: Pair, t: Entry) returns (run: seq<Move>)
    requires GoodPlan(p) && LockInv(p, x) && Awaited(x.sys, t)
    ensures Possible(p, x, run) && LockInv(p, Finally(p, x, run)) && Rank(p, Finally(p, x, run)) < Rank(p, x)
    ensures Finally(p, x, run).server == x.server
    ensures forall m :: m in run ==> Undisturbed(m)
    decreases Ahead(x.sys, t)
  {
    hide Ahead, Rank, After, LockInv, Ready, Awaited;
    var e := NextReady(p, x, t);
    var m := Client(Execute(e));
    SameServer(p, x, m);
    ServerFits(p, x);
    StepLocked(p, x, m);
    StepRank(p, x, m);
    if Progress(m) {
      run := [m];
      OneMove(p, x, m);
    } else {
      NextIsPassed(p, x, e, t);
      var y := After(p, x, m);
      var rest := Approach(p, y, t);
      run := [m] + rest;
      assert run[1..] == rest;
    }
  }

  lemma NextReady(p: Plan, x: Pair, t: Entry) returns (e: Entry)
    requires GoodPlan(p) && LockInv(p, x) && Awaited(x.sys, t)
    ensures Ready(x, Client(Execute(e)))
  {
    hide Inv, Delivering, Single, ServerInv, StepsDone, Coupled, Answered;
    e := SomeEventIsNext(x.sys.g.kernel.pending);
  }

  lemma ServerFits(p: Plan, x: Pair)
    requires GoodPlan(p) && LockInv(p, x)
    ensures FitsTo(p, Steps(p, x.server))
  {
    hide Healthy, Coupled, Answered, ServerInv;
  }

  lemma NextIsPassed(p: Plan, x: Pair, e: Entry, t: Entry)
    requires GoodPlan(p) && LockInv(p, x) && Awaited(x.sys, t) && Ready(x, Client(Execute(e)))
    requires !Progress(Client(Execute(e)))
    ensures var y := After(p, x, Client(Execute(e))); Awaited(y.sys, t) && Ahead(y.sys, t) < Ahead(x.sys, t)
  {
    hide Ahead, Awaited, After, Select, Without, Inv, Delivering, Single, ServerInv, StepsDone;
    StopNeverRuns(p, x, e);
    QuietLocked(p, x, Execute(e));
    if e.event.WaitForNextUpdate? { PassWait(x.sys, e, t); } else { PassForeign(x.sys, e, t); }
  }

  lemma OneMove(p: Plan, x: Pair, m: Move)
    requires GoodPlan(p) && Ready(x, m)
    ensures Possible(p, x, [m]) && Finally(p, x, [m]) == After(p, x, m)
  {
    hide Ready, After;
    assert [m][1..] == [];
    assert Finally(p, After(p, x, m), []) == After(p, x, m);
  }

  /** Moves that no other model makes. */
  predicate Undisturbed(m: Move)
  {
    !(m.Client? && m.a.Spawn?) && !m.Hear?
  }

  lemma {:induction false} MovesCompose(p: Plan, x: Pair, run: seq<Move>, more: seq<Move>)
    requires GoodPlan(p) && Possible(p, x, run) && Possible(p, Finally(p, x, run), more)
    ensures Possible(p, x, run + more) && Finally(p, x, run + more) == Finally(p, Finally(p, x, run), more)
    decreases |run|
  {
    hide Ready, After;
    if run == [] {
      assert run + more == more;
    } else {
      assert (run + more)[0] == run[0] && (run + more)[1..] == run[1..] + more;
      MovesCompose(p, After(p, x, run[0]), run[1..], more);
    }
  }

  /** What one stretch of moves does to the server: at most one of its own moves. */
  ghost predicate OneServerMove(p: Plan, s: Server, t: Server)
  {
    t == s || (s.phase.Sending? && t.phase.Awaiting? && t.i == s.i)
    || (s.phase.Awaiting? && if s.i + 1 == p.iterations then t.phase.Closed? else t.phase.Sending? && t.i == s.i + 1)
  }

  /** One stretch of moves that brings the end nearer. */
  lemma SomeProgress(p: Plan, x: Pair) returns (run: seq<Move>)
    requires GoodPlan(p) && LockInv(p, x) && !x.sys.g.halted
    requires x.server.phase.Sending? ==> FitsTo(p, x.server.i + 1)
    ensures OneServerMove(p, x.server, Finally(p, x, run).server)
    ensures Possible(p, x, run) && LockInv(p, Finally(p, x, run)) && Rank(p, Finally(p, x, run)) < Rank(p, x)
    ensures forall m :: m in run ==> Undisturbed(m)
  {
    hide LockInv, Rank, After, Ready, Awaited, Quiescent, Possible, Finally;
    var m := OutsideMove(p, x);
    if m.Some? {
      run := [m.value];
      OneMove(p, x, m.value);
      MoveFits(p, x, m.value);
      StepLocked(p, x, m.value);
      StepRank(p, x, m.value);
    } else {
      var t := SimulatorHasWork(p, x);
      run := Approach(p, x, t);
    }
  }

  lemma MoveFits(p: Plan, x: Pair, m: Move)
    requires GoodPlan(p) && LockInv(p, x) && Ready(x, m) && (x.server.phase.Sending? ==> FitsTo(p, x.server.i + 1))
    ensures FitsTo(p, Steps(p, After(p, x, m).server)) && OneServerMove(p, x.server, After(p, x, m).server)
  {
    hide Healthy, Coupled, Answered, Apply, Enabled, StepVector, Join, SentSteps, SentAll;
    if m.Client? { SameServer(p, x, m); }
  }

  lemma SameServer(p: Plan, x: Pair, m: Move)
    requires GoodPlan(p) && m.Client?
    ensures After(p, x, m).server == x.server
  {
    hide Apply, Decode;
  }

  lemma EndInReach(p: Plan, x: Pair) returns (run: seq<Move>)
    requires Fits(p) && LockInv(p, x)
    ensures Possible(p, x, run) && Finally(p, x, run).sys.g.halted
    ensures forall m :: m in run ==> Undisturbed(m)
    decreases Rank(p, x)
  {
    hide LockInv, Rank, After, Ready;
    if x.sys.g.halted {
      run := [];
    } else {
      if x.server.phase.Sending? { SendingFits(p, x); }
      var first := SomeProgress(p, x);
      var y := Finally(p, x, first);
      RankNonnegative(p, x);
      var rest := EndInReach(p, y);
      MovesCompose(p, x, first, rest);
      run := first + rest;
    }
  }

  lemma SendingFits(p: Plan, x: Pair)
    requires Fits(p) && LockInv(p, x) && x.server.phase.Sending?
    ensures FitsTo(p, x.server.i + 1)
  {
    hide Healthy, Coupled, Answered, SentSteps;
    FitsFewer(p, p.iterations, x.server.i + 1);
  }

  /** No deadlock and no livelock of the protocol: wherever a run has got to, the server, the receive
      thread and the simulator can still bring it to its end, with no help from other models; there the
      terminate message has stopped the simulation, every step has been applied at its time, and every
      response has been read. */
  lemma LockStepCanAlwaysFinish(p: Plan, x0: Pair, run: seq<Move>) returns (rest: seq<Move>)
    requires Fits(p) && Begins(p, x0) && Possible(p, x0, run)
    ensures Possible(p, x0, run + rest) && forall m :: m in rest ==> Undisturbed(m)
    ensures var x := Finally(p, x0, run + rest);
            x.sys.g.halted && x.sys.popped == Texts(p, p.iterations + 1) && x.failed.None?
            && x.applied == StepsDone(p, p.iterations) && x.server.replies == p.iterations == |x.answers|
  {
    hide LockInv, Ready, After, StepAt, Text, Begins;
    BeginsLocked(p, x0);
    RunLocked(p, x0, run);
    rest := EndInReach(p, Finally(p, x0, run));
    MovesCompose(p, x0, run, rest);
    LockStepIsSafe(p, x0, run + rest, Finally(p, x0, run + rest));
  }
}
