/** The example server and the example gateway together: the server sends a step and waits for one
    response, the gateway runs on its two threads in any interleaving. */
module LockStep {
  import opened Words
  import opened Numbers
  import opened Framing
  import opened Events
  import opened GatewayEffects
  import opened GatewayRuns
  import opened GatewayInvariants
  import opened GatewayTheorems
  import opened GatewayOrder
  import opened GatewayProgress
  import opened Encoding
  import opened SimpleServer
  import opened SimpleGateway

  /** Where the server's loop is: before its send, in its recv, or past the loop. */
  datatype Phase = Sending | Awaiting | Closed

  /** Iteration i of the server; sent and inbox hold all bytes written and read, replies counts its
      successful recv calls. */
  datatype Server = Server(i: nat, phase: Phase, sent: string, inbox: string, replies: nat)

  /** A callback of the example gateway: what it told the vehicles, and when. */
  datatype Applied = Applied(initial: bool, time: int, commands: seq<Command>)

  /** failed is the fatal error of a callback; every other callback appends the current counts to answers
      and writes them to outbox. */
  datatype Pair = Pair(sys: System, server: Server, failed: Option<Fatal>, applied: seq<Applied>,
                       count: seq<nat>, answers: seq<seq<nat>>, outbox: string)

  /** Hear is HandleReceive: a vehicle has received a broadcast. */
  datatype Move = Client(a: Action) | SendStep | ReadResponse | Hear(vehicle: nat)

  /** The first k time stamps fit the int that the gateway parses them into. */
  ghost predicate FitsTo(p: Plan, k: nat)
  {
    GoodPlan(p) && (k >= 1 ==> p.timeStart + p.timeDelta * (k - 1) < 0x8000_0000)
  }

  ghost predicate Fits(p: Plan)
  {
    FitsTo(p, p.iterations)
  }

  /** Gateway and server side by side after Connect at time 0. */
  ghost predicate Begins(p: Plan, x: Pair)
  {
    Initial(x.sys) && x.sys.start == 0 && x.server == Server(0, Sending, "", "", 0) && x.failed == None
    && x.applied == [] && x.count == Zeros(p.n) && x.answers == [] && x.outbox == ""
  }

  /** Both ends see one byte stream each way: the gateway's recv returns bytes that were sent, and 0 once
      all are read and the server has closed; the server's recv returns all that has been written and not
      been read. No other model stops the simulation. */
  ghost predicate Ready(x: Pair, m: Move)
  {
    x.failed.None? &&
    match m
    case SendStep => x.server.phase.Sending?
    case ReadResponse => x.server.phase.Awaiting? && x.server.inbox != x.outbox
    case Hear(vehicle) => vehicle < |x.count|
    case Client(a) =>
      Enabled(C, x.sys, a)
      && (a.Receive? ==> x.sys.received + a.chunk <= x.server.sent)
      && (a.Close? ==> x.server.phase.Closed? && x.sys.received == x.server.sent)
      && !a.Halt?
  }

  /** DoInitialize and DoUpdate of the example: decode every vehicle, then SendResponse. */
  function Answer(n: nat, x: Pair, initial: bool, values: seq<string>): Pair
  {
    match Decode(values, n)
    case Failed(error) => x.(failed := Some(error))
    case Ok(commands) =>
      if x.sys.g.state != CONNECTED then x.(failed := Some(NotConnected))
      else
        x.(applied := x.applied + [Applied(initial, x.sys.g.kernel.now, commands)],
           answers := x.answers + [x.count], outbox := x.outbox + Response(x.count))
  }

  function After(p: Plan, x: Pair, m: Move): Pair
    requires GoodPlan(p)
  {
    var s := x.server;
    match m
    case SendStep =>
      if s.i < p.iterations then
        x.(server := s.(phase := Awaiting, sent := s.sent + (Join(StepVector(p, s.i), SP) + CRLF)))
      else x
    case ReadResponse =>
      if s.i + 1 == p.iterations then
        x.(server := Server(s.i, Closed, s.sent + (Join(TERMINATE, SP) + CRLF), x.outbox, s.replies + 1))
      else x.(server := Server(s.i + 1, Sending, s.sent, x.outbox, s.replies + 1))
    case Hear(vehicle) =>
      if vehicle < |x.count| then x.(count := x.count[vehicle := (x.count[vehicle] + 1) % UINT16]) else x
    case Client(a) =>
      var y := x.(sys := Apply(C, x.sys, a));
      match a
      case Execute(e) =>
        (match e.event
         case DoInitialize(values) => Answer(p.n, y, true, values)
         case HandleUpdate(values) => Answer(p.n, y, false, values)
         case _ => y)
      case _ => y
  }

  ghost predicate Possible(p: Plan, x: Pair, run: seq<Move>)
    requires GoodPlan(p)
    decreases |run|
  {
    run == [] || (Ready(x, run[0]) && Possible(p, After(p, x, run[0]), run[1..]))
  }

  function Finally(p: Plan, x: Pair, run: seq<Move>): Pair
    requires GoodPlan(p)
    decreases |run|
  {
    if run == [] then x else Finally(p, After(p, x, run[0]), run[1..])
  }

  // ----- the messages of the whole protocol

  function Text(p: Plan, j: nat): string
    requires GoodPlan(p)
  {
    if j < p.iterations then Join(StepVector(p, j), SP) else Join(TERMINATE, SP)
  }

  function Texts(p: Plan, k: nat): (r: seq<string>)
    requires GoodPlan(p)
    ensures |r| == k && forall j :: 0 <= j < k ==> r[j] == Text(p, j)
  {
    if k == 0 then [] else Texts(p, k - 1) + [Text(p, k - 1)]
  }

  /** What the gateway should read from step j. */
  function HeaderAt(p: Plan, j: nat): Header
    requires GoodPlan(p) && j < p.iterations
  {
    Header((p.timeStart + p.timeDelta * j) * NANOS, RecordFields(WorldAt(p.n, p.rolls, j), p.n))
  }

  function HeadersOf(p: Plan, k: nat): (r: seq<Header>)
    requires GoodPlan(p) && k <= p.iterations
    ensures |r| == k && forall j :: 0 <= j < k ==> r[j] == HeaderAt(p, j)
  {
    if k == 0 then [] else HeadersOf(p, k - 1) + [HeaderAt(p, k - 1)]
  }

  function Min(a: nat, b: nat): nat { if a < b then a else b }

  /** How many messages the server has sent. */
  function Count(p: Plan, s: Server): nat
  {
    match s.phase
    case Sending => s.i
    case Awaiting => s.i + 1
    case Closed => p.iterations + 1
  }

  lemma SmallRemainder(a: nat, m: nat)
    requires a < m
    ensures a % m == a
  {
  }

  /** How many of them are steps. */
  function Steps(p: Plan, s: Server): nat
  {
    Min(Count(p, s), p.iterations)
  }

  lemma TimeFits(p: Plan, j: nat)
    requires FitsTo(p, j + 1) && j < p.iterations
    ensures TimeOf(p, j) == p.timeStart + p.timeDelta * j < 0x8000_0000
  {
    hide GoodPlan;
    SmallRemainder(p.timeStart + p.timeDelta * j, UINT32);
  }

  lemma FitsFewer(p: Plan, k: nat, j: nat)
    requires FitsTo(p, k) && j <= k
    ensures FitsTo(p, j)
  {
    if j >= 1 { Monotone(p.timeDelta, j - 1, k - 1); }
  }

  lemma ParseText(p: Plan, j: nat)
    requires GoodPlan(p) && j <= p.iterations && (j < p.iterations ==> FitsTo(p, j + 1))
    ensures Parse(Text(p, j), SP) == Some(if j < p.iterations then HeaderAt(p, j) else Header(-NANOS, []))
  {
    hide Parse, WorldAt, RecordFields, Join, Decode;
    if j < p.iterations {
      var w := WorldAt(p.n, p.rolls, j);
      TimeFits(p, j);
      WorldAtIsWorld(p.n, p.rolls, j);
      StepCodec(TimeOf(p, j), w, p.n);
    } else {
      ParseTerminate();
    }
  }

  lemma {:induction false} AcceptedTexts(p: Plan, k: nat)
    requires k <= p.iterations + 1 && FitsTo(p, Min(k, p.iterations))
    ensures Accepted(SP, Texts(p, k)) == HeadersOf(p, Min(k, p.iterations))
  {
    hide Parse, Accepted, Text, HeaderAt;
    if k == 0 {
      assert Accepted(SP, []) == [] by { NoneAccepted(); }
    } else {
      FitsFewer(p, Min(k, p.iterations), Min(k - 1, p.iterations));
      AcceptedTexts(p, k - 1);
      ParseText(p, k - 1);
      AcceptedAppend(SP, Texts(p, k - 1), Text(p, k - 1));
      if k <= p.iterations { StampFits(p, k - 1); }
    }
  }

  lemma NoneAccepted()
    ensures Accepted(SP, []) == []
  {
  }

  lemma StampFits(p: Plan, j: nat)
    requires GoodPlan(p) && j < p.iterations
    ensures HeaderAt(p, j).stamp >= 0 && HeaderAt(p, j).stamp - HeaderAt(p, 0).stamp == p.timeDelta * j * NANOS
    ensures forall k :: j <= k < p.iterations ==> HeaderAt(p, j).stamp <= HeaderAt(p, k).stamp
  {
    hide RecordFields, WorldAt;
    assert p.timeDelta * 0 == 0;
    forall k | j <= k < p.iterations ensures HeaderAt(p, j).stamp <= HeaderAt(p, k).stamp {
      Monotone(p.timeDelta, j, k);
    }
  }

  lemma Monotone(d: nat, j: nat, k: nat)
    requires j <= k
    ensures d * j <= d * k
  {
  }

  lemma HeadersNondecreasing(p: Plan, k: nat)
    requires GoodPlan(p) && k <= p.iterations
    ensures Nondecreasing(HeadersOf(p, k))
  {
    hide HeaderAt;
    var hs := HeadersOf(p, k);
    forall i, j ensures LaterStamp(hs, i, j) {
      if 0 <= i < j < |hs| { StampFits(p, i); }
    }
  }

  /** The server's program counter determines the bytes it has sent. */
  ghost predicate ServerInv(p: Plan, s: Server)
    requires GoodPlan(p)
  {
    s.i < p.iterations
    && match s.phase
       case Sending => s.sent == SentSteps(p, s.i) && s.replies == s.i
       case Awaiting => s.sent == SentSteps(p, s.i + 1) && s.replies == s.i
       case Closed => s.i + 1 == p.iterations && s.sent == SentAll(p) && s.replies == p.iterations
  }

  lemma {:induction false} JoinedAt(rs: seq<seq<string>>, j: nat)
    requires j < |rs|
    ensures |Joined(rs, SP)| == |rs| && Joined(rs, SP)[j] == Join(rs[j], SP)
  {
    hide Join;
    if |rs| > 1 { JoinedAt(rs[1..], if j > 0 then j - 1 else 0); }
  }

  lemma {:induction false} VectorAt(p: Plan, k: nat, j: nat)
    requires GoodPlan(p) && j < k <= p.iterations
    ensures Vectors(p, k)[j] == StepVector(p, j)
  {
    hide StepFields, WorldAt;
    if j < k - 1 { VectorAt(p, k - 1, j); }
  }

  lemma VectorsAreClean(p: Plan, k: nat)
    requires GoodPlan(p) && k <= p.iterations
    ensures CleanVectors(Vectors(p, k), SP, CRLF) && CleanVectors([TERMINATE], SP, CRLF)
  {
    hide StepFields, WorldAt, Contains;
    forall r | r in Vectors(p, k) ensures r != [] && forall v :: v in r ==> Clean(v, SP, CRLF) {
      var j :| 0 <= j < k && Vectors(p, k)[j] == r;
      VectorAt(p, k, j);
      StepFieldsAreDigits(TimeOf(p, j), WorldAt(p.n, p.rolls, j));
      FieldsAreClean(r);
    }
    ParseTerminate();
  }

  /** Every message the server has sent, and no other, is complete in its stream. */
  lemma SentTexts(p: Plan, s: Server)
    requires GoodPlan(p) && ServerInv(p, s)
    ensures Messages(s.sent, CRLF) == Texts(p, Count(p, s)) && Remainder(s.sent, CRLF) == ""
  {
    hide Split, Join, StepVector, Print, Clean;
    var k := if s.phase.Closed? then p.iterations else Count(p, s);
    var rs := Vectors(p, k) + if s.phase.Closed? then [TERMINATE] else [];
    VectorsAreClean(p, k);
    assert CleanVectors(rs, SP, CRLF);
    assert Vectors(p, k) + [] == Vectors(p, k);
    DefaultsQualify();
    MessagesOfPrint(rs, SP, CRLF);
    forall j | 0 <= j < |rs| ensures |Joined(rs, SP)| == |rs| && Joined(rs, SP)[j] == Text(p, j) {
      JoinedAt(rs, j);
      if j < k { VectorAt(p, k, j); }
    }
    assert rs == [] ==> Joined(rs, SP) == [];
    assert Joined(rs, SP) == Texts(p, Count(p, s));
  }

  /** Whatever part of the stream has arrived, the gateway has taken a prefix of the server's
      messages, and no other. */
  lemma TakenTexts(p: Plan, s: Server, sys: System)
    requires FitsTo(p, Steps(p, s)) && ServerInv(p, s) && Inv(C, sys) && sys.fatal.None? && sys.received <= s.sent
    ensures var k := |sys.popped| + |sys.g.queue|;
            k <= Count(p, s) && sys.popped + sys.g.queue == Texts(p, k)
            && (Find(Unframed(sys), CRLF).None? && sys.received == s.sent ==> k == Count(p, s))
    ensures OrderedStream(C, sys.received)
  {
    hide Split, Accepted, Text, Nondecreasing, ServerInv, Core;
    var rest := s.sent[|sys.received|..];
    assert s.sent == sys.received + rest;
    SentTexts(p, s);
    FramedMessages(CRLF, sys.popped + sys.g.queue, Unframed(sys), sys.received);
    MessagesAppend(sys.received, rest, CRLF);
    CountBound(p, s);
    AcceptedTexts(p, Count(p, s));
    HeadersNondecreasing(p, Min(Count(p, s), p.iterations));
    OrderedStreamPrefix(C, sys.received, rest);
    var later := Messages(Unframed(sys), CRLF) + Messages(Remainder(sys.received, CRLF) + rest, CRLF);
    PrefixOfTexts(p, Count(p, s), sys.popped + sys.g.queue, later);
    if Find(Unframed(sys), CRLF).None? && sys.received == s.sent { NoMessageLeft(Unframed(sys)); }
  }

  lemma CountBound(p: Plan, s: Server)
    requires GoodPlan(p) && ServerInv(p, s)
    ensures Count(p, s) <= p.iterations + 1
    ensures s.replies <= Count(p, s) && Count(p, s) <= s.replies + 1
    ensures !s.phase.Closed? ==>
              Count(p, s) <= p.iterations && Count(p, s) == s.replies + if s.phase.Awaiting? then 1 else 0
  {
  }

  lemma NoMessageLeft(data: string)
    requires Find(data, CRLF).None?
    ensures Messages(data, CRLF) == []
  {
  }

  lemma PrefixOfTexts(p: Plan, n: nat, a: seq<string>, b: seq<string>)
    requires GoodPlan(p) && a + b == Texts(p, n)
    ensures |a| <= n && a == Texts(p, |a|)
  {
    hide Text;
    forall j | 0 <= j < |a| ensures a[j] == Texts(p, |a|)[j] { assert (a + b)[j] == a[j]; }
  }

  // ----- the invariant of the pair

  /** What the vehicles should be told in step j: at clock timeDelta * j, exactly the server's vectors. */
  function StepAt(p: Plan, j: nat): Applied
    requires GoodPlan(p) && j < p.iterations
  {
    Applied(j == 0, p.timeDelta * j * NANOS, Meaning(WorldAt(p.n, p.rolls, j), p.n))
  }

  function StepsDone(p: Plan, k: nat): (r: seq<Applied>)
    requires GoodPlan(p) && k <= p.iterations
    ensures |r| == k && forall j :: 0 <= j < k ==> r[j] == StepAt(p, j)
  {
    if k == 0 then [] else StepsDone(p, k - 1) + [StepAt(p, k - 1)]
  }

  /** The gateway's side: everything the single-gateway theorems maintain. */
  ghost predicate Healthy(s: System)
  {
    match s.fatal
    case Some(_) => false
    case None => s.start == 0 && Inv(C, s) && Delivering(C, s) && Single(s) && Past(s)
  }

  /** Every callback that ran did so at a time the clock has reached. */
  ghost predicate Past(s: System)
  {
    forall d :: d in s.delivered ==> d.time <= s.g.kernel.now
  }

  /** The responses as vectors of values. */
  function Answers(answers: seq<seq<nat>>): (r: seq<seq<string>>)
    ensures |r| == |answers| && forall i :: 0 <= i < |answers| ==> r[i] == Counts(answers[i])
  {
    if answers == [] then [] else Answers(answers[..|answers| - 1]) + [Counts(answers[|answers| - 1])]
  }

  /** The response channel: what was written, and what the server has read of it. */
  ghost predicate Answered(p: Plan, x: Pair)
  {
    |x.count| == p.n && |x.answers| == |x.applied| && x.server.replies <= |x.answers|
    && (forall a :: a in x.answers ==> |a| == p.n)
    && x.outbox == Print(Answers(x.answers), SP, CRLF)
    && x.server.inbox == Print(Answers(x.answers[..x.server.replies]), SP, CRLF)
  }

  ghost predicate Coupled(p: Plan, server: Server, applied: seq<Applied>, s: System)
    requires GoodPlan(p)
  {
    s.received <= server.sent
    && server.replies <= |applied| <= p.iterations && |s.delivered| == |applied| && applied == StepsDone(p, |applied|)
    && (s.g.halted <==> |s.popped| == p.iterations + 1)
    && (s.g.state == CONNECTED || s.g.halted)
    && (s.thread.Exited? && !s.g.halted ==> server.phase.Closed? && s.received == server.sent)
  }

  ghost predicate LockInv(p: Plan, x: Pair)
    requires GoodPlan(p)
  {
    match x.failed
    case Some(_) => false
    case None =>
      FitsTo(p, Steps(p, x.server)) && ServerInv(p, x.server) && Healthy(x.sys)
      && Coupled(p, x.server, x.applied, x.sys) && Answered(p, x)
  }

  /** The messages taken are the server's first ones, and so are their headers. */
  ghost predicate MessagesFit(p: Plan, server: Server, s: System)
    requires GoodPlan(p)
  {
    |s.popped| + |s.g.queue| <= Count(p, server) <= p.iterations + 1
    && Headers(C, s) == HeadersOf(p, Min(|s.popped|, p.iterations))
    && (s.g.queue != [] ==> NextHeader(C, s) == Parse(Text(p, |s.popped|), SP))
    && OrderedStream(C, s.received)
  }

  /** The callbacks they asked for have run or are pending, in order. */
  ghost predicate CallbacksFit(p: Plan, s: System)
    requires GoodPlan(p)
  {
    |s.delivered| + |Of(s, Callback)| == Min(|s.popped|, p.iterations)
    && s.delivered + Planned(Of(s, Callback)) == Due(0, HeadersOf(p, Min(|s.popped|, p.iterations)))
  }

  lemma PairMessages(p: Plan, server: Server, s: System)
    requires FitsTo(p, Steps(p, server)) && ServerInv(p, server) && Inv(C, s) && s.fatal.None?
    requires s.received <= server.sent
    ensures MessagesFit(p, server, s)
  {
    hide Parse, Accepted, Text, ServerInv, Inv, OrderedStream, HeaderAt, Split;
    TakenTexts(p, server, s);
    CountBound(p, server);
    PrefixOfTexts(p, |s.popped| + |s.g.queue|, s.popped, s.g.queue);
    FitsFewer(p, Steps(p, server), Min(|s.popped|, p.iterations));
    AcceptedTexts(p, |s.popped|);
    if s.g.queue != [] {
      assert (s.popped + s.g.queue)[|s.popped|] == s.g.queue[0];
    }
  }

  lemma PairCallbacks(p: Plan, s: System)
    requires GoodPlan(p) && s.fatal.None? && s.start == 0 && Delivering(C, s)
    requires Headers(C, s) == HeadersOf(p, Min(|s.popped|, p.iterations))
    ensures CallbacksFit(p, s)
  {
    hide Headers, HeadersOf, Select, Due, Planned;
    PlannedLength(Of(s, Callback));
    DueLength(0, Headers(C, s));
  }

  lemma PairFacts(p: Plan, x: Pair)
    requires GoodPlan(p) && LockInv(p, x)
    ensures MessagesFit(p, x.server, x.sys) && CallbacksFit(p, x.sys)
  {
    hide ServerInv, Inv, Single, Delivering, Answered, StepsDone, Steps;
    PairMessages(p, x.server, x.sys);
    PairCallbacks(p, x.sys);
  }

  // ----- a message is forwarded

  lemma ForwardShape(g: Gw, h: Header)
    requires MessageEffect(g, h).Ok?
    ensures var t := MessageEffect(g, h).value; t.state == g.state && t.halted == (g.halted || h.stamp < 0)
  {
    hide Without;
  }

  /** The next message in the queue is the server's next one, and every callback before it has run. */
  lemma NextStep(p: Plan, x: Pair, e: Entry)
    requires GoodPlan(p) && LockInv(p, x) && Ready(x, Client(Execute(e))) && e.event.ForwardUp?
    ensures StepIsNext(p, x.sys) && Apply(C, x.sys, Execute(e)).fatal.None?
  {
    hide Parse, Accepted, Text, Delivering, Single, OrderedStream, Select, HeaderAt, Without, Split, Core, Framed,
         StepsDone, ServerInv, HeadersOf, Answered;
    PairFacts(p, x);
    CountBound(p, x.server);
    CoreOf(C, x.sys);
    ForwardCases(C, x.sys, e);
    if |x.sys.popped| < p.iterations { FitsFewer(p, Steps(p, x.server), |x.sys.popped| + 1); }
    ParseText(p, |x.sys.popped|);
    NoAlarmStep(C, x.sys, Execute(e));
  }

  ghost predicate StepIsNext(p: Plan, s: System)
    requires GoodPlan(p)
  {
    |s.popped| <= p.iterations && Of(s, Callback) == [] && s.g.state == CONNECTED && s.g.queue != []
    && NextHeader(C, s) == Some(if |s.popped| < p.iterations then HeaderAt(p, |s.popped|) else Header(-NANOS, []))
  }

  lemma ForwardLocked(p: Plan, x: Pair, e: Entry)
    requires GoodPlan(p) && LockInv(p, x) && Ready(x, Client(Execute(e))) && e.event.ForwardUp?
    ensures LockInv(p, After(p, x, Client(Execute(e))))
  {
    hide Parse, Text, Select, HeaderAt, Without, Split, Inv, Single, Delivering, ServerInv, Enabled, Apply, StepsDone,
         Headers, Answered, OrderedStream;
    var s, t := x.sys, Apply(C, x.sys, Execute(e));
    NextStep(p, x, e);
    PairFacts(p, x);
    if |s.popped| < p.iterations { StampFits(p, |s.popped|); }
    ForwardHealthy(s, e);
    ForwardMoves(s, e);
    SameChannel(p, x, t);
    assert After(p, x, Client(Execute(e))) == x.(sys := t);
  }

  lemma SameChannel(p: Plan, x: Pair, t: System)
    requires Answered(p, x)
    ensures Answered(p, x.(sys := t))
  {
    hide Print, Answers;
  }

  lemma ForwardMoves(s: System, e: Entry)
    requires e.event.ForwardUp? && NextHeader(C, s).Some? && Apply(C, s, Execute(e)).fatal.None?
    ensures var t := Apply(C, s, Execute(e));
            t.received == s.received && t.thread == s.thread && t.delivered == s.delivered
            && |t.popped| == |s.popped| + 1
            && t.g.state == s.g.state && t.g.halted == (s.g.halted || NextHeader(C, s).value.stamp < 0)
  {
    hide Parse, Accepted, Select, Without, Split;
    var h := NextHeader(C, s).value;
    ForwardApplies(C, s, e, h);
    ForwardShape(s.g.(kernel := s.g.kernel.Take(e), queue := s.g.queue[1..]), h);
  }

  lemma ForwardHealthy(s: System, e: Entry)
    requires Healthy(s) && Enabled(C, s, Execute(e)) && e.event.ForwardUp? && Of(s, Callback) == []
    requires OrderedStream(C, s.received) && Apply(C, s, Execute(e)).fatal.None?
    ensures Healthy(Apply(C, s, Execute(e)))
  {
    hide Parse, Accepted, Select, Without, Split, Core, Framed, Single, Delivering, OrderedStream, Nondecreasing;
    var t := Apply(C, s, Execute(e));
    StepKeeps(C, s, Execute(e));
    CoreOf(C, s);
    StaysPast(s, Execute(e));
    StartIsFixed(C, s, Execute(e));
    SameStream(s, Execute(e));
    HeadersInOrder(C, t);
    StepDelivers(C, s, Execute(e));
    ForwardSingle(C, s, e);
  }

  lemma StaysPast(s: System, a: Action)
    requires Past(s) && Core(C, s) && Enabled(C, s, a)
    ensures Past(Apply(C, s, a))
  {
    hide Parse, Select, Without, Split, Find, ControlInv, Accepted, ForwardEffect, WaitEffect, UpdateEffect, StopEffect;
    if a.Execute? {
      Begin(C, s, a.e);
      ClockFollows(s, a.e);
    } else {
      ClockStays(s, a);
    }
  }

  lemma ClockFollows(s: System, e: Entry)
    requires s.fatal.None?
    ensures var t := Apply(C, s, Execute(e));
            t.g.kernel.now == e.time && forall d :: d in t.delivered ==> d in s.delivered || d.time == e.time
  {
    hide Parse, Select, Without, Split, Find;
  }

  lemma ClockStays(s: System, a: Action)
    requires !a.Execute?
    ensures Apply(C, s, a).g.kernel.now == s.g.kernel.now && Apply(C, s, a).delivered == s.delivered
  {
    hide Parse, Select, Without, Split, Find;
  }

  lemma SameStream(s: System, a: Action)
    requires !a.Receive?
    ensures Apply(C, s, a).received == s.received
  {
    hide Parse, Select, Without, Split, Find;
  }

  // ----- a callback runs

  lemma CallbackHealthy(s: System, e: Entry)
    requires Healthy(s) && Enabled(C, s, Execute(e)) && KindOf(e.event) == Callback && OrderedStream(C, s.received)
    ensures Healthy(Apply(C, s, Execute(e))) && Headers(C, Apply(C, s, Execute(e))) == Headers(C, s)
    ensures var t := Apply(C, s, Execute(e));
            t.received == s.received && t.thread == s.thread && t.popped == s.popped
            && t.delivered == s.delivered + [DeliveryOf(e)] && t.g.state == s.g.state && t.g.halted == s.g.halted
            && t.g.kernel.now == e.time
  {
    hide Parse, Accepted, Select, Without, Split, Core, Framed, Single, Delivering, OrderedStream, Nondecreasing;
    var t := Apply(C, s, Execute(e));
    StepKeeps(C, s, Execute(e));
    CoreOf(C, s);
    HeadersInOrder(C, t);
    StepDelivers(C, s, Execute(e));
    StaysPast(s, Execute(e));
    if e.event.HandleUpdate? { UpdateSingle(C, s, e); } else { InitializeSingle(C, s, e); }
  }

  /** Delivery j of the server's headers. */
  lemma DueStep(p: Plan, h: nat, j: nat)
    requires GoodPlan(p) && j < h <= p.iterations
    ensures |Due(0, HeadersOf(p, h))| == h
    ensures Due(0, HeadersOf(p, h))[j]
         == Delivery(j == 0, p.timeDelta * j * NANOS, RecordFields(WorldAt(p.n, p.rolls, j), p.n))
  {
    hide RecordFields, WorldAt, Due;
    DueAt(0, HeadersOf(p, h), j);
    StampFits(p, j);
  }

  /** The callback that runs next carries the server's next step. */
  lemma NextCallback(p: Plan, x: Pair, e: Entry)
    requires GoodPlan(p) && LockInv(p, x) && Ready(x, Client(Execute(e))) && KindOf(e.event) == Callback
    ensures CallbackIsNext(p, |x.applied|, e) && x.sys.g.state == CONNECTED && HealthyAfter(x.sys, e)
  {
    hide Parse, Accepted, Text, Select, HeaderAt, StepAt, Without, Split, Inv, Single, ServerInv, Due, Planned,
         RecordFields, WorldAt, Enabled, OrderedStream, HeadersOf, Answered, Apply;
    var s, t, j := x.sys, Apply(C, x.sys, Execute(e)), |x.applied|;
    PairFacts(p, x);
    CallbackHealthy(s, e);
    var h := Min(|s.popped|, p.iterations);
    assert t.delivered + Planned(Of(t, Callback)) == Due(0, HeadersOf(p, h));
    DueLength(0, HeadersOf(p, h));
    DueStep(p, h, j);
    assert (t.delivered + Planned(Of(t, Callback)))[j] == DeliveryOf(e);
    RunsOnlyLive(s, e);
  }

  ghost predicate HealthyAfter(s: System, e: Entry)
  {
    Healthy(Apply(C, s, Execute(e)))
  }

  /** e calls back with step j, at its time. */
  ghost predicate CallbackIsNext(p: Plan, j: nat, e: Entry)
    requires GoodPlan(p)
  {
    j < p.iterations
    && DeliveryOf(e) == Delivery(j == 0, p.timeDelta * j * NANOS, RecordFields(WorldAt(p.n, p.rolls, j), p.n))
  }

  lemma RunsOnlyLive(s: System, e: Entry)
    requires Enabled(C, s, Execute(e))
    ensures !s.g.halted && s.g.kernel.IsNext(e)
  {
  }

  lemma OneMoreAnswer(answers: seq<seq<nat>>, count: seq<nat>, replies: nat)
    requires replies <= |answers|
    ensures Print(Answers(answers + [count]), SP, CRLF)
         == Print(Answers(answers), SP, CRLF) + Response(count)
    ensures (answers + [count])[..replies] == answers[..replies]
  {
    hide Print, Join, Answers, Counts, Response;
    AnswersSnoc(answers, count);
    PrintAppend(Answers(answers), Counts(count), SP, CRLF);
    ResponseText(count);
    assert (answers + [count])[..replies] == answers[..replies];
  }

  lemma ResponseText(count: seq<nat>)
    ensures Response(count) == Join(Counts(count), SP) + CRLF
  {
  }

  lemma AnswersSnoc(answers: seq<seq<nat>>, count: seq<nat>)
    ensures Answers(answers + [count]) == Answers(answers) + [Counts(count)]
  {
    hide Counts;
    assert (answers + [count])[..|answers|] == answers;
  }

  /** What the pair is after a callback with step j: decoded, applied and answered. */
  function WithStep(p: Plan, x: Pair, t: System): Pair
    requires GoodPlan(p)
  {
    if |x.applied| < p.iterations then
      x.(sys := t, applied := x.applied + [StepAt(p, |x.applied|)],
         answers := x.answers + [x.count], outbox := x.outbox + Response(x.count))
    else x
  }

  lemma AnswerStep(p: Plan, x: Pair, e: Entry, t: System)
    requires GoodPlan(p) && CallbackIsNext(p, |x.applied|, e) && KindOf(e.event) == Callback
    requires t.g.state == CONNECTED && t.g.kernel.now == e.time && t == Apply(C, x.sys, Execute(e))
    ensures After(p, x, Client(Execute(e))) == WithStep(p, x, t)
  {
    hide RecordFields, WorldAt, Decode, Meaning, Apply, Join, Fits;
    var j := |x.applied|;
    WorldAtIsWorld(p.n, p.rolls, j);
    DecodePrinted(WorldAt(p.n, p.rolls, j), p.n, p.n);
  }

  /** Running e is answering step number |x.applied|. */
  ghost predicate Answering(p: Plan, x: Pair, e: Entry)
    requires GoodPlan(p)
  {
    |x.applied| < p.iterations && After(p, x, Client(Execute(e))) == WithStep(p, x, Apply(C, x.sys, Execute(e)))
  }

  lemma CallbackApplies(p: Plan, x: Pair, e: Entry)
    requires GoodPlan(p) && LockInv(p, x) && Ready(x, Client(Execute(e))) && KindOf(e.event) == Callback
    ensures Answering(p, x, e) && HealthyAfter(x.sys, e)
  {
    hide Select, Inv, Single, Delivering, ServerInv, Planned, RecordFields, WorldAt, Enabled, Apply, Answered,
         StepsDone,
         WithStep, After, HeadersOf, Headers, Parse, Text;
    NextCallback(p, x, e);
    PairFacts(p, x);
    CallbackHealthy(x.sys, e);
    AnswerStep(p, x, e, Apply(C, x.sys, Execute(e)));
  }

  lemma CallbackLocked(p: Plan, x: Pair, e: Entry)
    requires GoodPlan(p) && LockInv(p, x) && Ready(x, Client(Execute(e))) && KindOf(e.event) == Callback
    ensures LockInv(p, After(p, x, Client(Execute(e))))
    ensures |After(p, x, Client(Execute(e))).applied| == |x.applied| + 1
  {
    hide Healthy, ServerInv, Coupled, Answered, Enabled, Apply, After, StepAt, Print, Join, Answers;
    CallbackApplies(p, x, e);
    CalledFields(p, x, e);
    StepCoupled(p, x, Apply(C, x.sys, Execute(e)));
    StepAnswered(p, x, Apply(C, x.sys, Execute(e)));
  }

  /** What the callback leaves as it was. */
  ghost predicate Called(s: System, t: System)
  {
    t.received == s.received && t.thread == s.thread && |t.delivered| == |s.delivered| + 1 && t.popped == s.popped
    && t.g.state == s.g.state && t.g.halted == s.g.halted
  }

  lemma CalledFields(p: Plan, x: Pair, e: Entry)
    requires GoodPlan(p) && LockInv(p, x) && Ready(x, Client(Execute(e))) && KindOf(e.event) == Callback
    ensures Called(x.sys, Apply(C, x.sys, Execute(e)))
  {
    hide Select, Inv, Single, Delivering, ServerInv, Coupled, Answered, Apply, OrderedStream, Headers, HeadersOf,
         Parse, Text;
    PairFacts(p, x);
    CallbackHealthy(x.sys, e);
  }

  lemma StepCoupled(p: Plan, x: Pair, t: System)
    requires GoodPlan(p) && Coupled(p, x.server, x.applied, x.sys) && Called(x.sys, t) && |x.applied| < p.iterations
    ensures Coupled(p, x.server, WithStep(p, x, t).applied, t)
  {
    hide StepAt, Join;
    var j := |x.applied|;
    assert StepsDone(p, j + 1) == StepsDone(p, j) + [StepAt(p, j)];
  }

  lemma StepAnswered(p: Plan, x: Pair, t: System)
    requires GoodPlan(p) && Answered(p, x) && |x.applied| < p.iterations
    ensures Answered(p, WithStep(p, x, t))
  {
    hide StepAt, Join, Print, Answers;
    OneMoreAnswer(x.answers, x.count, x.server.replies);
  }

  // ----- every other action

  lemma QuietHealthy(s: System, a: Action)
    requires Healthy(s) && Enabled(C, s, a) && Quiet(a)
    ensures Healthy(Apply(C, s, a))
  {
    hide Parse, Accepted, Select, Without, Split, Core, Framed, Single, Delivering;
    StepKeeps(C, s, a);
    CoreOf(C, s);
    StaysPast(s, a);
    StartIsFixed(C, s, a);
    QuietFields(C, s, a);
    QuietDelivers(C, s, a);
    QuietSingle(C, s, a);
  }

  lemma QuietShape(s: System, a: Action)
    requires Enabled(C, s, a) && Quiet(a) && !a.Halt?
    ensures var t := Apply(C, s, a);
            t.g.halted == s.g.halted && t.popped == s.popped && t.delivered == s.delivered
            && (t.g.state == s.g.state || a == Destroy || (a.Execute? && a.e.event.Stop?))
            && t.received == (if a.Receive? then s.received + a.chunk else s.received)
            && (t.thread.Exited? && !s.thread.Exited? ==> a == Destroy || a == Close || s.g.state != CONNECTED)
  {
    hide Parse, Select, Without, Split;
  }

  /** The Stop event of a closed connection never runs: the terminate message comes before it. */
  lemma StopNeverRuns(p: Plan, x: Pair, e: Entry)
    requires GoodPlan(p) && LockInv(p, x) && Ready(x, Client(Execute(e)))
    ensures !e.event.Stop?
  {
    hide Parse, Accepted, Text, Select, Without, Split, Delivering, Single, ServerInv, Core, Framed, StepsDone,
         Answered,
         Messages;
    if e.event.Stop? {
      CoreOf(C, x.sys);
      StopFinds(C, x.sys, e);
      DroppedNothing(x.sys);
      TakenTexts(p, x.server, x.sys);
      assert false;
    }
  }

  /** The connection was only closed once every message had been taken. */
  lemma DroppedNothing(s: System)
    requires Core(C, s) && s.fatal.None? && s.thread.Exited? && !s.g.halted
    ensures Find(s.thread.dropped, CRLF).None?
  {
    hide Select, Accepted, Split, Find;
  }

  lemma QuietCoupled(p: Plan, x: Pair, a: Action)
    requires GoodPlan(p) && Coupled(p, x.server, x.applied, x.sys) && Ready(x, Client(a)) && Quiet(a)
    requires !(a.Execute? && a.e.event.Stop?)
    ensures Coupled(p, x.server, x.applied, Apply(C, x.sys, a))
  {
    hide StepsDone, Apply, Find, Select;
    QuietShape(x.sys, a);
  }

  lemma QuietLocked(p: Plan, x: Pair, a: Action)
    requires GoodPlan(p) && LockInv(p, x) && Ready(x, Client(a)) && Quiet(a)
    ensures LockInv(p, After(p, x, Client(a))) && After(p, x, Client(a)) == x.(sys := Apply(C, x.sys, a))
  {
    hide Parse, Accepted, Select, Without, Split, Inv, Single, Delivering, Past, ServerInv, Apply, StepsDone, Answered,
         Enabled;
    if a.Execute? { StopNeverRuns(p, x, a.e); }
    QuietHealthy(x.sys, a);
    QuietShape(x.sys, a);
    QuietCoupled(p, x, a);
    SameChannel(p, x, Apply(C, x.sys, a));
  }

  /** There are bytes to read exactly when one response is outstanding, and they are that response. */
  lemma Outstanding(p: Plan, x: Pair)
    requires GoodPlan(p) && LockInv(p, x)
    ensures x.server.inbox != x.outbox <==> |x.answers| == x.server.replies + 1
    ensures x.server.inbox == x.outbox <==> |x.answers| == x.server.replies
  {
    hide Healthy, Coupled, ServerInv, Print, Join, Answers;
    AnswersBound(p, x);
    if |x.answers| == x.server.replies {
      assert x.answers[..x.server.replies] == x.answers;
    } else {
      var a, c := x.answers[..x.server.replies], x.answers[x.server.replies];
      assert x.answers == a + [c];
      OneMoreAnswer(a, c, |a|);
    }
  }

  lemma AnswersBound(p: Plan, x: Pair)
    requires GoodPlan(p) && LockInv(p, x)
    ensures x.server.replies <= |x.answers| <= x.server.replies + 1
  {
    hide Healthy, ServerInv, StepsDone, Print, Answers, HeadersOf, Headers, Parse, Text, Planned, Select, OrderedStream;
    PairFacts(p, x);
    CountBound(p, x.server);
  }

  lemma ServerLocked(p: Plan, x: Pair, m: Move)
    requires GoodPlan(p) && LockInv(p, x) && Ready(x, m) && !m.Client?
    requires FitsTo(p, Steps(p, After(p, x, m).server))
    ensures LockInv(p, After(p, x, m))
  {
    hide Healthy, LockInv, After;
    match m {
      case SendStep => SendLocked(p, x);
      case ReadResponse => ReadLocked(p, x);
      case Hear(vehicle) => HearLocked(p, x, vehicle);
    }
  }

  lemma SendLocked(p: Plan, x: Pair)
    requires GoodPlan(p) && LockInv(p, x) && Ready(x, SendStep) && FitsTo(p, Steps(p, After(p, x, SendStep).server))
    ensures LockInv(p, After(p, x, SendStep))
  {
    hide Healthy, Join, Print, Vectors, StepVector, StepsDone, Answered, Enabled;
    SentStep(p, x.server.i);
    AnsweredSame(p, x, After(p, x, SendStep));
  }

  lemma AnsweredSame(p: Plan, x: Pair, y: Pair)
    requires Answered(p, x) && y.count == x.count && y.answers == x.answers && y.applied == x.applied
    requires y.outbox == x.outbox
    requires y.server.inbox == x.server.inbox && y.server.replies == x.server.replies
    ensures Answered(p, y)
  {
    hide Print, Answers;
  }

  /** The response channel after the server has read all of it. */
  lemma AllRead(p: Plan, x: Pair, y: Pair)
    requires GoodPlan(p) && LockInv(p, x) && x.server.inbox != x.outbox
    requires y.count == x.count && y.answers == x.answers && y.applied == x.applied && y.outbox == x.outbox
    requires y.server.inbox == x.outbox && y.server.replies == x.server.replies + 1
    ensures Answered(p, y) && y.server.replies <= |x.applied|
  {
    hide Healthy, Print, Answers, ServerInv, Coupled, Fits;
    Outstanding(p, x);
    assert x.answers[..x.server.replies + 1] == x.answers;
  }

  lemma ReadLocked(p: Plan, x: Pair)
    requires GoodPlan(p) && LockInv(p, x) && Ready(x, ReadResponse)
    requires FitsTo(p, Steps(p, After(p, x, ReadResponse).server))
    ensures LockInv(p, After(p, x, ReadResponse))
  {
    hide Healthy, Join, Print, Vectors, StepVector, StepsDone, Answered, Enabled;
    var s := x.server;
    AllRead(p, x, After(p, x, ReadResponse));
    if s.i + 1 == p.iterations { PrintAppend(Vectors(p, s.i + 1), TERMINATE, SP, CRLF); }
  }

  lemma HearLocked(p: Plan, x: Pair, vehicle: nat)
    requires GoodPlan(p) && LockInv(p, x) && Ready(x, Hear(vehicle))
    ensures LockInv(p, After(p, x, Hear(vehicle)))
  {
    hide Healthy, Join, Print, Vectors, StepVector, StepsDone, Answers, ServerInv, Coupled, Fits, Enabled;
  }

  lemma StepLocked(p: Plan, x: Pair, m: Move)
    requires GoodPlan(p) && LockInv(p, x) && Ready(x, m) && FitsTo(p, Steps(p, After(p, x, m).server))
    ensures LockInv(p, After(p, x, m))
  {
    hide LockInv, After, Enabled, FitsTo;
    match m {
      case Client(a) =>
        if Quiet(a) { QuietLocked(p, x, a); }
        else if a.e.event.ForwardUp? { ForwardLocked(p, x, a.e); }
        else { CallbackLocked(p, x, a.e); }
      case _ => ServerLocked(p, x, m);
    }
  }

  lemma FitsSent(p: Plan, s: Server)
    requires Fits(p)
    ensures FitsTo(p, Steps(p, s))
  {
    FitsFewer(p, p.iterations, Steps(p, s));
  }

  lemma {:induction false} RunLocked(p: Plan, x: Pair, run: seq<Move>)
    requires Fits(p) && LockInv(p, x) && Possible(p, x, run)
    ensures LockInv(p, Finally(p, x, run))
    decreases |run|
  {
    hide LockInv, After, Ready, Steps;
    if run != [] {
      FitsSent(p, After(p, x, run[0]).server);
      StepLocked(p, x, run[0]);
      RunLocked(p, After(p, x, run[0]), run[1..]);
    }
  }

  lemma BeginsLocked(p: Plan, x: Pair)
    requires GoodPlan(p) && Begins(p, x)
    ensures LockInv(p, x)
  {
    hide Inv, Single, Delivering, StepAt;
    InitialSingle(C, x.sys);
    NothingSent(p);
    assert Answers([]) == [] && Print([], SP, CRLF) == "";
  }

  // ----- what the steps and the answers are, independently of the pair

  /** Step j in closed form: where all draws before it have taken each vehicle. */
  lemma StepAtIs(p: Plan, j: nat)
    requires GoodPlan(p) && j < p.iterations
    ensures StepAt(p, j).initial == (j == 0) && StepAt(p, j).time == p.timeDelta * j * 1_000_000_000
    ensures |StepAt(p, j).commands| == p.n
    ensures forall k :: 0 <= k < p.n ==>
              StepAt(p, j).commands[k]
              == Command(Vector(Travelled(p.rolls, j, k) % 65536, k, 0),
                         Vector(if j == 0 then 0 else p.rolls[j - 1][k].velocity, 0, 0),
                         j > 0 && (j - 1) % 5 == 0 && p.rolls[j - 1][k].coin)
  {
    hide WorldAt, Travelled;
    forall k | 0 <= k < p.n
      ensures Meaning(WorldAt(p.n, p.rolls, j), p.n)[k]
           == Command(Vector(Travelled(p.rolls, j, k) % 65536, k, 0),
                      Vector(if j == 0 then 0 else p.rolls[j - 1][k].velocity, 0, 0),
                      j > 0 && (j - 1) % 5 == 0 && p.rolls[j - 1][k].coin)
    {
      WorldIs(p.n, p.rolls, j, k);
    }
  }

  /** How many broadcasts vehicle v receives in a run. */
  function Heard(run: seq<Move>, v: nat): nat
  {
    if run == [] then 0 else (if run[0] == Hear(v) then 1 else 0) + Heard(run[1..], v)
  }

  lemma CountStep(p: Plan, x: Pair, m: Move, v: nat)
    requires GoodPlan(p) && Ready(x, m) && v < |x.count| && x.count[v] < UINT16
    ensures var y := After(p, x, m);
            |y.count| == |x.count| && y.count[v] == (x.count[v] + if m == Hear(v) then 1 else 0) % 65536
            && (y.answers == x.answers || y.answers == x.answers + [x.count])
  {
    hide Apply, Decode, Enabled, Response, StepVector, Join;
  }

  lemma {:induction false} AnswersGrow(p: Plan, x: Pair, run: seq<Move>)
    requires GoodPlan(p)
    ensures x.answers <= Finally(p, x, run).answers
    decreases |run|
  {
    hide Apply, Decode, Response, StepVector, Join;
    if run != [] { AnswersGrow(p, After(p, x, run[0]), run[1..]); }
  }

  /** Every number in every response is the number of broadcasts that vehicle had received when the
      response was made, in 16 bits. */
  lemma {:induction false} AnswersAreHeard(p: Plan, x: Pair, run: seq<Move>, i: nat, v: nat) returns (k: nat)
    requires GoodPlan(p) && Possible(p, x, run) && |x.answers| <= i < |Finally(p, x, run).answers|
    requires v < |x.count| && x.count[v] < UINT16
    ensures k < |run| && |Finally(p, x, run[..k]).answers| == i && |Finally(p, x, run[..k + 1]).answers| == i + 1
    ensures v < |Finally(p, x, run).answers[i]|
    ensures Finally(p, x, run).answers[i][v] == (x.count[v] + Heard(run[..k], v)) % 65536
    decreases |run|
  {
    hide After, Ready;
    var t := After(p, x, run[0]);
    CountStep(p, x, run[0], v);
    AnswersGrow(p, t, run[1..]);
    if |t.answers| > i {
      k := 0;
      assert run[..1][1..] == [];
    } else {
      k := AnswersAreHeard(p, t, run[1..], i, v);
      assert run[..k + 1][1..] == run[1..][..k] && run[..k + 2][1..] == run[1..][..k + 1];
      k := k + 1;
    }
  }

  // ----- lock-step safety

  /** In every run of the pair: no fatal branch is taken; callback i runs at clock timeDelta * i and
      tells the vehicles exactly the server's vectors of step i; every response answers a message that
      was sent, and the server is never more than one step ahead; and when the simulation has
      stopped, it was the terminate message, after every step was applied and every response read.
      The bytes the server has read are exactly the counts of the callbacks that answered it. */
  lemma LockStepIsSafe(p: Plan, x0: Pair, run: seq<Move>, x: Pair)
    requires Fits(p) && Begins(p, x0) && Possible(p, x0, run) && x == Finally(p, x0, run)
    ensures x.failed.None? && x.sys.fatal.None?
    ensures |x.applied| <= p.iterations && forall j :: 0 <= j < |x.applied| ==> x.applied[j] == StepAt(p, j)
    ensures x.server.replies <= |x.applied| <= |x.sys.popped| <= Count(p, x.server) <= x.server.replies + 1
    ensures x.sys.g.halted ==>
              x.server.phase.Closed? && |x.applied| == p.iterations == x.server.replies
              && x.sys.popped == Texts(p, p.iterations + 1)
    ensures |x.answers| == |x.applied|
    ensures p.n >= 1 ==>
              Fields(Messages(x.server.inbox, CRLF), SP) == Answers(x.answers[..x.server.replies])
              && Remainder(x.server.inbox, CRLF) == ""
  {
    hide LockInv, Begins, StepAt, Count, Answers, Fields, Messages, Remainder;
    BeginsLocked(p, x0);
    RunLocked(p, x0, run);
    LockedFacts(p, x);
    LockedReplies(p, x);
  }

  /** What the server has read is, framed and split, the counts of the answered callbacks. */
  lemma LockedReplies(p: Plan, x: Pair)
    requires GoodPlan(p) && LockInv(p, x)
    ensures |x.answers| == |x.applied| && x.server.replies <= |x.answers|
    ensures p.n >= 1 ==>
              Fields(Messages(x.server.inbox, CRLF), SP) == Answers(x.answers[..x.server.replies])
              && Remainder(x.server.inbox, CRLF) == ""
  {
    hide Healthy, Coupled, ServerInv, Print, Fields, Messages, Remainder, ToString, Contains;
    if p.n >= 1 {
      var rs := Answers(x.answers[..x.server.replies]);
      forall r | r in rs ensures r != [] && forall v :: v in r ==> Clean(v, SP, CRLF) {
        var i :| 0 <= i < |rs| && rs[i] == r;
        var a := x.answers[..x.server.replies][i];
        assert a in x.answers;
        forall v | v in r ensures Clean(v, SP, CRLF) {
          var k :| 0 <= k < |r| && r[k] == v;
          ToStringDigits(a[k]);
          DigitsAreClean(v);
        }
      }
      DefaultsQualify();
      OverlapFreeRoundTrip(rs, SP, CRLF);
    }
  }

  lemma LockedFacts(p: Plan, x: Pair)
    requires GoodPlan(p) && LockInv(p, x)
    ensures x.failed.None? && x.sys.fatal.None?
    ensures |x.applied| <= p.iterations && forall j :: 0 <= j < |x.applied| ==> x.applied[j] == StepAt(p, j)
    ensures x.server.replies <= |x.applied| <= |x.sys.popped| <= Count(p, x.server) <= x.server.replies + 1
    ensures x.sys.g.halted ==>
              x.server.phase.Closed? && |x.applied| == p.iterations == x.server.replies
              && x.sys.popped == Texts(p, p.iterations + 1)
  {
    hide Inv, Delivering, Single, StepAt, ServerInv, HeadersOf, Due, Planned, Parse, Select, Texts, OrderedStream;
    PairFacts(p, x);
    CountBound(p, x.server);
    PoppedTexts(p, x);
  }

  lemma PoppedTexts(p: Plan, x: Pair)
    requires GoodPlan(p) && LockInv(p, x)
    ensures x.sys.popped == Texts(p, |x.sys.popped|)
  {
    hide Inv, Delivering, Single, ServerInv, Text, StepAt;
    TakenTexts(p, x.server, x.sys);
    PrefixOfTexts(p, |x.sys.popped| + |x.sys.g.queue|, x.sys.popped, x.sys.g.queue);
  }
}
