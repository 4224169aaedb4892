/** The pair is safe exactly for the plans whose step times fit an int: every other plan has a run that
    ends in a fatal error. */
module LockStepExact {
  import opened Words
  import opened Numbers
  import opened Framing
  import opened Events
  import opened GatewayEffects
  import opened Gateway
  import opened GatewayRuns
  import opened GatewayThread
  import opened GatewayInvariants
  import opened GatewayTheorems
  import opened GatewayOrder
  import opened GatewayProgress
  import opened GatewayBurst
  import opened GatewayExact
  import opened Encoding
  import opened SimpleServer
  import opened SimpleGateway
  import opened LockStep
  import opened LockStepProgress

  ghost predicate Safe(x: Pair)
  {
    x.failed.None? && x.sys.fatal.None?
  }

  // ----- the pair reaches the step whose time does not fit

  /** The server is about to send step j, everything before it has been answered. */
  ghost predicate AtStep(x: Pair, j: nat)
  {
    x.server.phase.Sending? && x.server.i == j
  }

  lemma NotHalted(p: Plan, x: Pair)
    requires GoodPlan(p) && LockInv(p, x) && !x.server.phase.Closed?
    ensures !x.sys.g.halted
  {
    hide Inv, Delivering, Single, ServerInv, HeadersOf, Due, Planned, Parse, Text, Select, StepAt, OrderedStream;
    PairFacts(p, x);
    CountBound(p, x.server);
  }

  lemma ReachStep(p: Plan, x: Pair, j: nat) returns (run: seq<Move>)
    requires GoodPlan(p) && LockInv(p, x) && j < p.iterations && FitsTo(p, j)
    requires !x.server.phase.Closed? && (x.server.i < j || AtStep(x, j))
    ensures Possible(p, x, run) && LockInv(p, Finally(p, x, run)) && AtStep(Finally(p, x, run), j)
    decreases Rank(p, x)
  {
    hide LockInv, Rank, After, Ready, FitsTo;
    if AtStep(x, j) {
      run := [];
    } else {
      NotHalted(p, x);
      FitsFewer(p, j, x.server.i + 1);
      var first := SomeProgress(p, x);
      var y := Finally(p, x, first);
      RankNonnegative(p, x);
      var rest := ReachStep(p, y, j);
      MovesCompose(p, x, first, rest);
      run := first + rest;
    }
  }

  // ----- runs of the gateway as moves of the pair

  function Moves(run: seq<Action>): seq<Move>
  {
    if run == [] then [] else [Client(run[0])] + Moves(run[1..])
  }

  /** Actions that neither call back nor end anything. */
  predicate Plain(a: Action)
  {
    !a.Close? && !a.Halt? && (a.Execute? ==> KindOf(a.e.event) != Callback)
  }

  lemma {:induction false} LiftRun(p: Plan, x: Pair, run: seq<Action>)
    requires GoodPlan(p) && x.failed.None? && Feasible(C, x.sys, run) && (forall a :: a in run ==> Plain(a))
    requires End(C, x.sys, run).received <= x.server.sent
    ensures Possible(p, x, Moves(run)) && Finally(p, x, Moves(run)) == x.(sys := End(C, x.sys, run))
    decreases |run|
  {
    hide Apply, Enabled, Answer;
    if run != [] {
      var a, y := run[0], x.(sys := Apply(C, x.sys, run[0]));
      assert a in run && forall b :: b in run[1..] ==> b in run;
      ReceivedGrowsAlong(C, y.sys, run[1..]);
      ReceivedOne(x.sys, a);
      LiftRun(p, y, run[1..]);
      assert After(p, x, Client(a)) == y;
      assert ([Client(a)] + Moves(run[1..]))[1..] == Moves(run[1..]);
    }
  }

  lemma ReceivedOne(s: System, a: Action)
    requires Enabled(C, s, a)
    ensures a.Receive? ==> Apply(C, s, a).received == s.received + a.chunk
  {
    hide Find;
  }

  // ----- and the error

  /** The first step whose time does not fit, and the header the gateway reads from it. */
  lemma BadStep(p: Plan) returns (j: nat)
    requires GoodPlan(p) && !Fits(p)
    ensures j < p.iterations && FitsTo(p, j) && !FitsTo(p, j + 1)
  {
    hide GoodPlan;
    j := 0;
    while FitsTo(p, j + 1)
      invariant j < p.iterations && FitsTo(p, j)
      decreases p.iterations - j
    {
      j := j + 1;
    }
  }

  /** It is out of range as it is printed, or has wrapped to a time before the previous step. */
  lemma BadTime(p: Plan, j: nat)
    requires GoodPlan(p) && j < p.iterations && FitsTo(p, j) && !FitsTo(p, j + 1)
    ensures TimeOf(p, j) >= 0x8000_0000 || (j >= 1 && TimeOf(p, j) < p.timeStart + p.timeDelta * (j - 1))
  {
    var t := p.timeStart + p.timeDelta * j;
    if j == 0 {
      assert p.timeDelta * 0 == 0;
      SmallRemainder(t, UINT32);
    } else {
      var before := p.timeStart + p.timeDelta * (j - 1);
      assert t == before + p.timeDelta;
      if t < UINT32 { SmallRemainder(t, UINT32); } else { OneWrap(t, UINT32); }
    }
  }

  lemma OneWrap(t: nat, m: nat)
    requires m <= t < m + m
    ensures t % m == t - m
  {
  }

  lemma BadText(p: Plan, j: nat)
    requires GoodPlan(p) && j < p.iterations
    ensures Parse(Text(p, j), SP)
         == if TimeOf(p, j) < 0x8000_0000
            then Some(Header(TimeOf(p, j) * NANOS, RecordFields(WorldAt(p.n, p.rolls, j), p.n)))
            else None
  {
    hide Parse, WorldAt, RecordFields, Join, Decode;
    WorldAtIsWorld(p.n, p.rolls, j);
    StepCodec(TimeOf(p, j), WorldAt(p.n, p.rolls, j), p.n);
  }

  /** Every message has been processed and every callback has run: there were j of them. */
  ghost predicate Settled(p: Plan, x: Pair, j: nat)
    requires GoodPlan(p)
  {
    var s := x.sys;
    j <= p.iterations && x.failed.None? && Listens(s) && |s.popped| == j && s.g.queue == [] && Of(s, Callback) == []
    && Headers(C, s) == HeadersOf(p, j) && s.start == 0 && s.received <= x.server.sent
  }

  lemma AllAnswered(p: Plan, x: Pair, j: nat)
    requires GoodPlan(p) && LockInv(p, x) && AtStep(x, j)
    ensures Settled(p, x, j) && (j >= 1 ==> x.sys.g.kernel.now >= p.timeDelta * (j - 1) * NANOS)
  {
    hide Delivering, Single, ServerInv, HeadersOf, Planned, Parse, Text, Select, StepsDone, OrderedStream, Accepted,
         Split,
         Framed, Answered;
    PairFacts(p, x);
    CountBound(p, x.server);
    CoreOf(C, x.sys);
    if j >= 1 { LastDelivered(p, x, j); }
  }

  lemma LastDelivered(p: Plan, x: Pair, j: nat)
    requires GoodPlan(p) && LockInv(p, x) && 1 <= j <= p.iterations && Of(x.sys, Callback) == [] && |x.sys.popped| == j
    ensures x.sys.g.kernel.now >= p.timeDelta * (j - 1) * NANOS
  {
    hide Delivering, Single, Inv, ServerInv, HeadersOf, Headers, Due, Planned, Parse, Text, Select, OrderedStream,
         RecordFields, WorldAt, Answered, Coupled;
    var s := x.sys;
    PairFacts(p, x);
    DueStep(p, j, j - 1);
    NonePlanned();
    assert s.delivered + [] == s.delivered;
    assert s.delivered == Due(0, HeadersOf(p, j)) && s.delivered[j - 1] in s.delivered;
  }

  /** Connected, the thread at the top of its loop or waiting in recv. */
  ghost predicate Listens(s: System)
  {
    match s.fatal
    case Some(_) => false
    case None => Inv(C, s) && s.g.state == CONNECTED && !s.g.halted && (s.thread.AtTop? || s.thread.Receiving?)
  }

  /** The thread takes the one message that was sent. */
  lemma TakeStep(p: Plan, s: System, j: nat, sent: string) returns (run: seq<Action>)
    requires GoodPlan(p) && j < p.iterations && Listens(s) && |s.popped| == j && s.g.queue == []
    requires Of(s, Callback) == []
    requires s.received <= sent && Messages(sent, CRLF) == Texts(p, j + 1)
    ensures Feasible(C, s, run) && forall a :: a in run ==> Plain(a)
    ensures var t := End(C, s, run);
            Listening(C, t) && t.received == sent && t.popped == s.popped && t.g.queue == [Text(p, j)]
            && t.g.kernel.now == s.g.kernel.now && Of(t, Callback) == []
  {
    hide Core, Feasible, End, Split, ScheduleForwards, Find, Select, Text, Accepted;
    var y := sent[|s.received|..];
    assert sent == s.received + y;
    run := ThreadAlone(C, s, Bytes(y));
    ReceivedBytes(y);
    RunKeeps(C, s, run);
    var t := End(C, s, run);
    FramedMessages(C.m, t.popped + t.g.queue, Unframed(t), t.received);
    RemainderHasNone(Unframed(s) + y, CRLF);
    OneLeft(p, t.popped, t.g.queue, j);
    ForwardsPending(s.g.kernel, |Messages(Unframed(s) + y, C.m)|);
    NoNewCallback(s, t);
  }

  lemma RemainderHasNone(data: string, m: string)
    requires m != ""
    ensures Messages(Remainder(data, m), m) == []
  {
    SplitPiecesFree(data, m);
    assert Last(Split(data, m)) in Split(data, m);
  }

  lemma OneLeft(p: Plan, popped: seq<string>, queue: seq<string>, j: nat)
    requires GoodPlan(p) && popped + queue == Texts(p, j + 1) && |popped| == j
    ensures queue == [Text(p, j)]
  {
    hide Text;
    assert (popped + queue)[j] == queue[0];
  }

  lemma NoNewCallback(s: System, t: System)
    requires Of(s, Callback) == []
    requires forall x :: x in t.g.kernel.pending ==> x in s.g.kernel.pending || x.event.ForwardUp?
    ensures Of(t, Callback) == []
  {
    hide Select;
    NonEmptyHasMember(Of(t, Callback));
    assert forall u :: u in Of(t, Callback) ==> u in Of(s, Callback);
  }

  /** Its header is invalid, or its grant is in the past. */
  lemma StepFails(p: Plan, s: System, j: nat)
    requires GoodPlan(p) && j < p.iterations && FitsTo(p, j) && !FitsTo(p, j + 1)
    requires s.g.queue == [Text(p, j)] && Headers(C, s) == HeadersOf(p, j) && s.g.kernel.now >= 0
    requires j >= 1 ==> s.g.kernel.now >= p.timeDelta * (j - 1) * NANOS
    ensures var next := Parse(s.g.queue[0], SP);
            next == (if TimeOf(p, j) < 0x8000_0000 then next else None)
            && (next.Some? ==> next.value.stamp >= 0 && !InTime(C, s, next.value))
  {
    hide Parse, Text, Accepted, RecordFields, WorldAt;
    BadText(p, j);
    BadTime(p, j);
    if TimeOf(p, j) < 0x8000_0000 {
      var d := p.timeDelta * (j - 1);
      assert HeadersOf(p, j)[0] == HeaderAt(p, 0) && p.timeDelta * 0 == 0;
      assert (TimeOf(p, j) - p.timeStart) * NANOS < d * NANOS;
    }
  }

  lemma BeginsAt(p: Plan, x: Pair)
    requires GoodPlan(p) && Begins(p, x)
    ensures AtStep(x, 0)
  {
  }

  /** The server sends its step all the same. */
  lemma SendBadStep(p: Plan, x: Pair, j: nat)
    requires GoodPlan(p) && LockInv(p, x) && AtStep(x, j) && j < p.iterations
    ensures Possible(p, x, [SendStep])
    ensures var y := Finally(p, x, [SendStep]);
            y.sys == x.sys && y.failed.None? && x.server.sent <= y.server.sent
            && Messages(y.server.sent, CRLF) == Texts(p, j + 1)
  {
    hide Healthy, Coupled, Answered, StepVector, Join, Print, Split, Text, Vectors;
    OneMove(p, x, SendStep);
    SentStep(p, j);
    SentTexts(p, Server(j, Awaiting, SentSteps(p, j + 1), "", j));
  }

  /** A plan that does not fit has a run that ends in one of two errors: the printed time is no int, or
      it has wrapped around and the gateway sees time run backwards. */
  lemma FatalRun(p: Plan, x0: Pair) returns (run: seq<Move>)
    requires GoodPlan(p) && !Fits(p) && Begins(p, x0)
    ensures Possible(p, x0, run)
    ensures Finally(p, x0, run).sys.fatal in {Some(BadHeader), Some(TimestampsNotIncreasing)}
  {
    hide LockInv, After, Ready, FitsTo, Begins, Parse, Text, Select, Possible, Finally, TimeOf;
    var j := BadStep(p);
    BeginsLocked(p, x0);
    BeginsAt(p, x0);
    run := ReachStep(p, x0, j);
    var x := Finally(p, x0, run);
    AllAnswered(p, x, j);
    SendBadStep(p, x, j);
    MovesCompose(p, x0, run, [SendStep]);
    run := run + [SendStep];
    var y := Finally(p, x0, run);
    var taken := TakeStep(p, y.sys, j, y.server.sent);
    LiftRun(p, y, taken);
    MovesCompose(p, x0, run, Moves(taken));
    run := run + Moves(taken);
    var z := Finally(p, x0, run);
    assert Headers(C, z.sys) == Headers(C, x.sys);
    StepFails(p, z.sys, j);
    var failing := FailNext(C, z.sys);
    LiftRun(p, z, failing);
    MovesCompose(p, x0, run, Moves(failing));
    run := run + Moves(failing);
  }

  /** Safe in every run iff the step times fit. */
  lemma LockStepSafeIffFits(p: Plan, x0: Pair)
    requires GoodPlan(p) && Begins(p, x0)
    ensures (forall run :: Possible(p, x0, run) ==> Safe(Finally(p, x0, run))) <==> Fits(p)
  {
    hide Begins, Possible, Finally, FitsTo, StepAt, Texts;
    if Fits(p) {
      forall run | Possible(p, x0, run) ensures Safe(Finally(p, x0, run)) {
        LockStepIsSafe(p, x0, run, Finally(p, x0, run));
      }
    } else {
      var run := FatalRun(p, x0);
      assert Possible(p, x0, run) && !Safe(Finally(p, x0, run));
    }
  }
}
