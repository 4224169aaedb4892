/** The sender among arbitrary other events: every sequence of calls and event executions. */
module SenderRuns {
  import opened Words
  import opened Events
  import opened Sender

  /** A packet handed to the socket: when, and whether the socket was still open; afterCancel if a pending
      send event was cancelled since the attempt before; request is the time of the last request taken. */
  datatype Attempt = Attempt(time: int, open: bool, afterCancel: bool, request: int)

  /** A call of Send with a positive count. */
  datatype Call = Call(time: int, count: nat)

  /** interval is m_packetInterval; the rest after app records the history. accepted, overwritten:
      packets of the requests taken, packets dropped by a later request. asserts: every NS_ASSERT so
      far held. crashed: a null socket was used. */
  datatype Machine = Machine(app: App, interval: nat, attempts: seq<Attempt>, cancelled: bool, calls: seq<Call>,
                             taken: seq<Call>, accepted: nat, overwritten: nat, asserts: bool, crashed: bool)

  datatype Action =
    | Start | Stop | Dispose | Connected  // StartApplication, StopApplication, DoDispose, ConnectionSucceeded
    | Send(count: nat)
    | Execute(e: Entry)
    | Spawn(time: int)                    // another model schedules an event

  ghost predicate Enabled(s: Machine, a: Action)
  {
    match a
    case Connected => s.app.hasSocket
    case Execute(e) => s.app.kernel.IsNext(e)
    case Spawn(time) => time >= s.app.kernel.now
    case _ => true
  }

  /** CancelEvents, remembering whether it cancelled something. */
  function Cancelling(s: Machine, app: App): Machine
  {
    s.(app := app, cancelled := s.cancelled || s.app.kernel.IsPending(s.app.event))
  }

  function LastRequest(taken: seq<Call>): int
  {
    if taken == [] then 0 else Last(taken).time
  }

  function NextAttempt(s: Machine): Attempt
  {
    Attempt(s.app.kernel.now, s.app.open, s.cancelled, LastRequest(s.taken))
  }

  function RunEvent(s: Machine, event: Event): Machine
  {
    match event
    case ProcessSendRequest(n) =>
      if s.app.hasSocket && s.app.connected then
        s.(app := RequestEffect(s.app, n), taken := s.taken + [Call(s.app.kernel.now, n)],
           accepted := s.accepted + n, overwritten := s.overwritten + s.app.count)
      else s
    case SendPacket =>
      var t := s.(app := PacketEffect(s.app, s.interval), asserts := s.asserts && !s.app.kernel.IsPending(s.app.event));
      if s.app.count > 0 then
        t.(attempts := s.attempts + [NextAttempt(s)], cancelled := false,
           crashed := s.crashed || !s.app.hasSocket)
      else t
    case _ => s
  }

  function Apply(s: Machine, a: Action): Machine
  {
    match a
    case Start => Cancelling(s, StartEffect(s.app))
    case Stop => Cancelling(s, StopEffect(s.app))
    case Dispose => Cancelling(s, DisposeEffect(s.app))
    case Connected => s.(app := s.app.(connected := true))
    case Send(n) =>
      if n == 0 then s else s.(app := SendEffect(s.app, n), calls := s.calls + [Call(s.app.kernel.now, n)])
    case Execute(e) => RunEvent(s.(app := s.app.(kernel := s.app.kernel.Take(e))), e.event)
    case Spawn(time) => s.(app := s.app.(kernel := s.app.kernel.Schedule(time - s.app.kernel.now, Other)))
  }

  ghost predicate Feasible(s: Machine, run: seq<Action>)
    decreases |run|
  {
    run == [] || (Enabled(s, run[0]) && Feasible(Apply(s, run[0]), run[1..]))
  }

  function End(s: Machine, run: seq<Action>): Machine
    decreases |run|
  {
    if run == [] then s else End(Apply(s, run[0]), run[1..])
  }

  /** A new application in a simulation that has other models' events only. */
  ghost predicate Initial(s: Machine)
  {
    s.app.kernel.Valid() && (forall e :: e in s.app.kernel.pending ==> e.event.Other?)
    && s == Machine(App(s.app.kernel, false, false, false, 0, 0), s.interval, [], false, [], [], 0, 0, true, false)
  }

  /** Any call at any time, any event of other models, and ConnectionSucceeded whenever there is a socket. */
  lemma EveryCallIsCovered(s: Machine, n: nat, time: int, e: Entry)
    ensures Enabled(s, Start) && Enabled(s, Action.Stop) && Enabled(s, Dispose) && Enabled(s, Send(n))
    ensures Enabled(s, Connected) <==> s.app.hasSocket
    ensures Enabled(s, Spawn(time)) <==> time >= s.app.kernel.now
    ensures Enabled(s, Execute(e)) <==> s.app.kernel.IsNext(e)
    ensures Apply(s, Connected) == s.(app := s.app.(connected := true))
  {
  }

  // ----- invariants

  /** The sender's pending events. */
  datatype Lanes = Lanes(packets: seq<Entry>, requests: seq<Entry>)

  function LanesOf(p: seq<Entry>): Lanes
  {
    Lanes(Select(p, Packet), Select(p, Request))
  }

  /** At most one SendPacket event is pending; m_sendPacketEvent names it and nothing else. */
  ghost predicate KernelInv(a: App)
  {
    a.kernel.Valid() && a.event < a.kernel.nextId
    && (forall e :: e in a.kernel.pending && e.event.ProcessSendRequest? ==>
          e.time == a.kernel.now && e.event.count > 0)
    && (forall e :: e in a.kernel.pending ==> (e.id == a.event <==> e.event.SendPacket?))
  }

  /** After an attempt the next event stays pending one interval later, unless it is cancelled. */
  ghost predicate SpacingInv(s: Machine, l: Lanes)
  {
    var n := |s.attempts|;
    Spaced(s.attempts, s.interval)
    && (s.taken != [] ==> LastRequest(s.taken) <= s.app.kernel.now)
    && (s.cancelled ==> forall e :: e in l.packets ==> s.taken != [] && e.time == LastRequest(s.taken))
    && (n > 0 && !s.cancelled ==>
          (l.packets == [] ==> s.attempts[n - 1].time + s.interval <= s.app.kernel.now)
          && forall e :: e in l.packets ==> s.attempts[n - 1].time + s.interval <= e.time)
  }

  predicate SpacedAt(attempts: seq<Attempt>, interval: nat, i: int)
  {
    0 <= i < |attempts| ==>
      if attempts[i].afterCancel then attempts[i].time == attempts[i].request
      else i == 0 || attempts[i].time >= attempts[i - 1].time + interval
  }

  ghost predicate Spaced(attempts: seq<Attempt>, interval: nat)
  {
    forall i :: SpacedAt(attempts, interval, i)
  }

  lemma SpacedSnoc(attempts: seq<Attempt>, interval: nat, x: Attempt)
    requires Spaced(attempts, interval)
    requires if x.afterCancel then x.time == x.request else attempts == [] || x.time >= Last(attempts).time + interval
    ensures Spaced(attempts + [x], interval)
  {
    forall i ensures SpacedAt(attempts + [x], interval, i) { assert SpacedAt(attempts, interval, i); }
  }

  ghost predicate ControlInv(s: Machine, l: Lanes)
  {
    match s.crashed
    case true => false
    case false =>
      s.asserts && s.accepted == |s.attempts| + s.app.count + s.overwritten
      && (l.packets != [] ==> s.app.hasSocket && s.app.connected)
      && SpacingInv(s, l)
  }

  ghost predicate Inv(s: Machine)
  {
    match s.crashed
    case true => false
    case false => KernelInv(s.app) && ControlInv(s, LanesOf(s.app.kernel.pending))
  }

  // ----- kernel operations

  ghost predicate Lands(a: App, l: Lanes)
  {
    KernelInv(a) && LanesOf(a.kernel.pending) == l
  }

  lemma TwoMembers(q: seq<Entry>)
    requires Increasing(q)
    ensures |q| > 1 ==> exists x, y :: x in q && y in q && x.id < y.id
  {
    if |q| > 1 { assert Ordered(q, 0, 1) && q[0] in q && q[1] in q; }
  }

  lemma SinglePacket(a: App)
    requires KernelInv(a)
    ensures |Select(a.kernel.pending, Packet)| <= 1
    ensures a.kernel.IsPending(a.event) <==> Select(a.kernel.pending, Packet) != []
  {
    hide Select, Without;
    var q := Select(a.kernel.pending, Packet);
    IncreasingParts(a.kernel.pending, 0, Packet);
    TwoMembers(q);
    if |q| == 1 {
      assert q[0] in q;
    } else {
      forall e | e in a.kernel.pending ensures e.id != a.event {
        assert e.event.SendPacket? ==> e in q;
      }
    }
  }

  lemma CancelLands(a: App, l: Lanes)
    requires Lands(a, l)
    ensures Lands(CancelEffect(a), l.(packets := []))
  {
    hide Select, Without;
    CancelSelect(a.kernel, a.event, Packet);
    SinglePacket(a);
    var t := CancelEffect(a);
    if a.kernel.IsPending(a.event) {
      assert forall e :: e in t.kernel.pending ==> !e.event.SendPacket?;
      assert l.packets == [l.packets[0]] && l.packets[0] in l.packets;
      assert Without(l.packets, a.event) == [] by {
        WithoutMiddle([], l.packets[0], []);
        assert [] + [l.packets[0]] + [] == l.packets;
      }
    }
  }

  lemma InsertLands(a: App, l: Lanes, delay: int, event: Event)
    requires Lands(a, l) && delay >= 0 && !event.SendPacket?
    requires event.ProcessSendRequest? ==> delay == 0 && event.count > 0
    ensures Lands(a.(kernel := a.kernel.Schedule(delay, event)),
                  if event.ProcessSendRequest?
                  then l.(requests := l.requests + [Entry(a.kernel.nextId, a.kernel.now + delay, event)])
                  else l)
  {
    hide Select, Without;
    ScheduleSelect(a.kernel, delay, event);
  }

  lemma PacketLands(a: App, l: Lanes, delay: int)
    requires Lands(a, l) && delay >= 0 && l.packets == []
    ensures Lands(a.(event := a.kernel.nextId, kernel := a.kernel.Schedule(delay, SendPacket)),
                  l.(packets := [Entry(a.kernel.nextId, a.kernel.now + delay, SendPacket)]))
  {
    hide Select, Without;
    ScheduleSelect(a.kernel, delay, SendPacket);
    var n := Entry(a.kernel.nextId, a.kernel.now + delay, SendPacket);
    assert [] + [n] == [n];
    forall e | e in a.kernel.pending ensures !e.event.SendPacket? { assert e.event.SendPacket? ==> e in l.packets; }
  }

  /** The lanes once e has been taken off the queue. */
  function Drop(l: Lanes, e: Entry): Lanes
  {
    match e.event
    case SendPacket => l.(packets := [])
    case ProcessSendRequest(_) => l.(requests := Without(l.requests, e.id))
    case _ => l
  }

  lemma TakeLands(a: App, l: Lanes, e: Entry)
    requires Lands(a, l) && a.kernel.IsNext(e)
    ensures Lands(a.(kernel := a.kernel.Take(e)), Drop(l, e)) && a.kernel.now <= e.time
    ensures e.event.SendPacket? ==> l.packets == [e] && !a.kernel.Take(e).IsPending(a.event)
    ensures e.event.ProcessSendRequest? ==> e.time == a.kernel.now
  {
    hide Select, Without;
    TakeSelect(a.kernel, e);
    SinglePacket(a);
    if e.event.SendPacket? {
      assert e in l.packets;
      assert l.packets == [e];
      assert Without([e], e.id) == [] by {
        WithoutMiddle([], e, []);
        assert [] + [e] + [] == [e];
      }
      forall o | o in a.kernel.pending && o.id == e.id ensures o == e { SameEntry(a.kernel.pending, o, e); }
    }
  }

  // ----- every action keeps the invariant

  lemma Finish(s: Machine, l: Lanes)
    requires Lands(s.app, l) && ControlInv(s, l)
    ensures Inv(s)
  {
  }

  lemma CancellingKeeps(s: Machine, a: Action)
    requires Inv(s) && (a.Start? || a.Stop? || a.Dispose?)
    ensures Inv(Apply(s, a))
  {
    hide Select, Without;
    var l := LanesOf(s.app.kernel.pending);
    SinglePacket(s.app);
    CancelLands(s.app, l);
    CancelLands(s.app.(hasSocket := true, open := true), l);
    Finish(Apply(s, a), l.(packets := []));
  }

  lemma InsertKeeps(s: Machine, a: Action)
    requires Inv(s) && Enabled(s, a) && (a.Send? || a.Spawn? || a.Connected?)
    ensures Inv(Apply(s, a))
  {
    hide Select, Without;
    var l, k := LanesOf(s.app.kernel.pending), s.app.kernel;
    match a {
      case Send(n) =>
        if n > 0 {
          InsertLands(s.app, l, 0, ProcessSendRequest(n));
          Finish(Apply(s, a), l.(requests := l.requests + [Entry(k.nextId, k.now, ProcessSendRequest(n))]));
        }
      case Spawn(time) =>
        InsertLands(s.app, l, time - k.now, Other);
        Finish(Apply(s, a), l);
      case Connected => Finish(Apply(s, a), l);
    }
  }

  lemma RequestControl(s: Machine, e: Entry, l: Lanes, l': Lanes)
    requires ControlInv(s, l) && e.event.ProcessSendRequest? && e.time == s.app.kernel.now
    requires s.app.kernel.Take(e).IsPending(s.app.event) <==> l.packets != []
    requires forall p :: p in l.packets ==> s.app.kernel.now <= p.time
    requires var a := s.app;
             l'.packets == if a.hasSocket && a.connected && l.packets == []
                           then [Entry(a.kernel.nextId, e.time, SendPacket)] else l.packets
    ensures ControlInv(Apply(s, Execute(e)), l')
  {
    hide Without, Spaced;
  }

  lemma RequestKeeps(s: Machine, e: Entry)
    requires Inv(s) && s.app.kernel.IsNext(e) && e.event.ProcessSendRequest?
    ensures Inv(Apply(s, Execute(e)))
  {
    hide Select, Without, ControlInv;
    var l, a := LanesOf(s.app.kernel.pending), s.app.(kernel := s.app.kernel.Take(e));
    TakeLands(s.app, l, e);
    SinglePacket(a);
    assert forall p :: p in l.packets ==> p in s.app.kernel.pending;
    var l' := Drop(l, e);
    if a.hasSocket && a.connected && l.packets == [] {
      PacketLands(a, l', 0);
      l' := l'.(packets := [Entry(a.kernel.nextId, a.kernel.now, SendPacket)]);
    }
    RequestControl(s, e, l, l');
    Finish(Apply(s, Execute(e)), l');
  }

  lemma PacketControl(s: Machine, e: Entry, l: Lanes, l': Lanes)
    requires ControlInv(s, l) && e.event.SendPacket? && l.packets == [e] && s.app.kernel.now <= e.time
    requires !s.app.kernel.Take(e).IsPending(s.app.event)
    requires l'.packets == if s.app.count > 0 then [Entry(s.app.kernel.nextId, e.time + s.interval, SendPacket)] else []
    ensures ControlInv(Apply(s, Execute(e)), l')
  {
    hide Without, Spaced;
    var a := s.app.(kernel := s.app.kernel.Take(e));
    if s.app.count > 0 { SpacedSnoc(s.attempts, s.interval, NextAttempt(s.(app := a))); }
  }

  lemma PacketKeeps(s: Machine, e: Entry)
    requires Inv(s) && s.app.kernel.IsNext(e) && e.event.SendPacket?
    ensures Inv(Apply(s, Execute(e)))
  {
    hide Select, Without, ControlInv;
    var l, a := LanesOf(s.app.kernel.pending), s.app.(kernel := s.app.kernel.Take(e));
    TakeLands(s.app, l, e);
    var l' := Drop(l, e);
    if a.count > 0 {
      PacketLands(a, l', s.interval);
      l' := l'.(packets := [Entry(a.kernel.nextId, e.time + s.interval, SendPacket)]);
    }
    PacketControl(s, e, l, l');
    Finish(Apply(s, Execute(e)), l');
  }

  lemma OtherKeeps(s: Machine, e: Entry)
    requires Inv(s) && s.app.kernel.IsNext(e) && !e.event.SendPacket? && !e.event.ProcessSendRequest?
    ensures Inv(Apply(s, Execute(e)))
  {
    hide Select, Without;
    var l := LanesOf(s.app.kernel.pending);
    TakeLands(s.app, l, e);
    Finish(Apply(s, Execute(e)), l);
  }

  lemma StepKeeps(s: Machine, a: Action)
    requires Inv(s) && Enabled(s, a)
    ensures Inv(Apply(s, a))
  {
    hide Inv, Apply;
    match a {
      case Execute(e) =>
        if e.event.SendPacket? { PacketKeeps(s, e); }
        else if e.event.ProcessSendRequest? { RequestKeeps(s, e); }
        else { OtherKeeps(s, e); }
      case Start => CancellingKeeps(s, a);
      case Stop => CancellingKeeps(s, a);
      case Dispose => CancellingKeeps(s, a);
      case _ => InsertKeeps(s, a);
    }
  }

  lemma InitialInv(s: Machine)
    requires Initial(s)
    ensures Inv(s) && LanesOf(s.app.kernel.pending) == Lanes([], [])
  {
    hide Select;
    var l := LanesOf(s.app.kernel.pending);
    NonEmptyHasMember(l.packets);
    NonEmptyHasMember(l.requests);
  }

  lemma {:induction false} RunKeeps(s: Machine, run: seq<Action>)
    requires Inv(s) && Feasible(s, run)
    ensures Inv(End(s, run))
    decreases |run|
  {
    hide Inv, Apply, Enabled;
    if run != [] {
      StepKeeps(s, run[0]);
      RunKeeps(Apply(s, run[0]), run[1..]);
    }
  }

  ghost predicate Reached(s0: Machine, run: seq<Action>, s: Machine)
  {
    Initial(s0) && Feasible(s0, run) && s == End(s0, run)
  }

  lemma ReachedInv(s0: Machine, run: seq<Action>, s: Machine)
    requires Reached(s0, run, s)
    ensures Inv(s)
  {
    hide Inv;
    InitialInv(s0);
    RunKeeps(s0, run);
  }

  // ----- the theorems about every run

  /** At most one SendPacket event is live and it is m_sendPacketEvent; the assertion in SendPacket
      never fails; no packet is ever handed to a null socket. */
  lemma SingleSenderEvent(s0: Machine, run: seq<Action>, s: Machine)
    requires Reached(s0, run, s)
    ensures |Select(s.app.kernel.pending, Packet)| <= 1
    ensures forall e :: e in s.app.kernel.pending ==> (e.event.SendPacket? <==> e.id == s.app.event)
    ensures s.asserts && !s.crashed
    ensures Select(s.app.kernel.pending, Packet) != [] ==> s.app.hasSocket && s.app.connected
  {
    ReachedInv(s0, run, s);
    SinglePacket(s.app);
  }

  /** The request q is still waiting as long as the packet p before it is. */
  ghost predicate Behind(s: Machine, p: Entry, q: Entry)
  {
    p in s.app.kernel.pending ==> q in s.app.kernel.pending
  }

  lemma BehindEvent(s: Machine, e: Entry, p: Entry, q: Entry)
    requires Increasing(s.app.kernel.pending) && s.app.kernel.IsNext(e) && Behind(s, p, q) && p.id < q.id
    requires p.time == q.time
    requires p.event.SendPacket? && q.event.ProcessSendRequest? && p.id < s.app.kernel.nextId
    ensures Behind(Apply(s, Execute(e)), p, q) && p.id < Apply(s, Execute(e)).app.kernel.nextId
  {
    hide Select, Without, ControlInv, Increasing, KernelInv;
    if p in s.app.kernel.pending && q.id == e.id { SameEntry(s.app.kernel.pending, q, e); }
    OnlyTaken(s, e);
  }

  /** An event takes only itself away; what it schedules is new. */
  lemma OnlyTaken(s: Machine, e: Entry)
    ensures var k, m := s.app.kernel, Apply(s, Execute(e)).app.kernel;
            k.nextId <= m.nextId && (forall x :: x in k.pending && x.id != e.id ==> x in m.pending)
            && forall x :: x in m.pending ==> (x in k.pending && x.id != e.id) || x.id >= k.nextId
  {
    hide Select, Without, PacketEffect, RequestEffect, NextAttempt;
    var a := s.app.(kernel := s.app.kernel.Take(e));
    OnlyAdded(a, s.interval, if e.event.ProcessSendRequest? then e.event.count else 0);
  }

  lemma OnlyAdded(a: App, interval: nat, n: nat)
    ensures Grown(a.kernel, PacketEffect(a, interval).kernel) && Grown(a.kernel, RequestEffect(a, n).kernel)
  {
  }

  ghost predicate Grown(k: Kernel, m: Kernel)
  {
    k.nextId <= m.nextId && (forall x :: x in k.pending ==> x in m.pending)
    && forall x :: x in m.pending ==> x in k.pending || x.id >= k.nextId
  }

  lemma BehindStep(s: Machine, a: Action, p: Entry, q: Entry)
    requires Inv(s) && Enabled(s, a) && Behind(s, p, q) && p.id < q.id && p.time == q.time && p.id < s.app.kernel.nextId
    requires p.event.SendPacket? && q.event.ProcessSendRequest?
    ensures Behind(Apply(s, a), p, q) && p.id < Apply(s, a).app.kernel.nextId
  {
    hide Select, Without, ControlInv, Increasing;
    if a.Execute? { BehindEvent(s, a.e, p, q); }
  }

  lemma {:induction false} BehindRun(s: Machine, run: seq<Action>, p: Entry, q: Entry)
    requires Inv(s) && Feasible(s, run) && Behind(s, p, q) && p.id < q.id && p.time == q.time
    requires p.id < s.app.kernel.nextId
    requires p.event.SendPacket? && q.event.ProcessSendRequest?
    ensures Behind(End(s, run), p, q)
    decreases |run|
  {
    hide Inv, Apply, Enabled, Behind;
    if run != [] {
      StepKeeps(s, run[0]);
      BehindStep(s, run[0], p, q);
      BehindRun(Apply(s, run[0]), run[1..], p, q);
    }
  }

  /** A packet already due when Send is called goes out (or is cancelled) before the request takes
      effect: in every continuation the request is pending for as long as the packet is. */
  lemma DuePacketGoesFirst(s0: Machine, run: seq<Action>, s: Machine, n: nat, p: Entry, more: seq<Action>)
    requires Reached(s0, run, s) && n > 0 && Feasible(s, [Send(n)] + more)
    requires p in s.app.kernel.pending && p.event.SendPacket? && p.time == s.app.kernel.now
    ensures var t, q := End(s, [Send(n)] + more), Entry(s.app.kernel.nextId, s.app.kernel.now, ProcessSendRequest(n));
            p in t.app.kernel.pending ==> q in t.app.kernel.pending
  {
    hide Select, Without, ControlInv;
    ReachedInv(s0, run, s);
    var q := Entry(s.app.kernel.nextId, s.app.kernel.now, ProcessSendRequest(n));
    var t := Apply(s, Send(n));
    assert ([Send(n)] + more)[1..] == more;
    assert q in t.app.kernel.pending;
    StepKeeps(s, Send(n));
    BehindRun(t, more, p, q);
  }

  /** Every packet of an accepted request is attempted, still to come, or overwritten by a later
      request (leftovers of a cancelled send included). */
  lemma PacketsAreConserved(s0: Machine, run: seq<Action>, s: Machine)
    requires Reached(s0, run, s)
    ensures s.accepted == |s.attempts| + s.app.count + s.overwritten
  {
    ReachedInv(s0, run, s);
  }

  /** Two consecutive attempts are at least the interval apart iff no pending send event was cancelled
      between them, or the last request before the second came at least the interval after the first.
      After a cancellation nothing else guards the interval. */
  lemma AttemptsAreSpaced(s0: Machine, run: seq<Action>, s: Machine, i: nat)
    requires Reached(s0, run, s) && 0 < i < |s.attempts|
    ensures var a, b := s.attempts[i - 1], s.attempts[i];
            (b.time >= a.time + s.interval <==> !b.afterCancel || b.request >= a.time + s.interval)
            && (b.afterCancel ==> b.time == b.request)
  {
    ReachedInv(s0, run, s);
    assert SpacedAt(s.attempts, s.interval, i);
  }

  /** So within a stretch without cancellation any two attempts are that far apart. */
  lemma {:induction false} StretchIsSpaced(s0: Machine, run: seq<Action>, s: Machine, i: nat, j: nat)
    requires Reached(s0, run, s) && i < j < |s.attempts|
    requires forall k :: i < k <= j ==> !s.attempts[k].afterCancel
    ensures s.attempts[j].time >= s.attempts[i].time + (j - i) * s.interval
  {
    hide Reached;
    AttemptsAreSpaced(s0, run, s, j);
    if i < j - 1 {
      StretchIsSpaced(s0, run, s, i, j - 1);
      assert (j - i) * s.interval == (j - 1 - i) * s.interval + s.interval;
    }
  }

  /** Calls that do not cancel the send event. */
  predicate Running(a: Action)
  {
    !a.Start? && !a.Stop? && !a.Dispose?
  }

  /** The attempts after the first n are spaced, and so will be the next one. */
  ghost predicate SpacedFrom(s: Machine, n: nat)
  {
    n <= |s.attempts| && (forall k :: n < k < |s.attempts| ==> !s.attempts[k].afterCancel)
    && (n < |s.attempts| ==> !s.cancelled)
  }

  lemma {:induction false} RunningIsSpaced(s: Machine, run: seq<Action>, n: nat)
    requires SpacedFrom(s, n) && forall a :: a in run ==> Running(a)
    ensures SpacedFrom(End(s, run), n)
    decreases |run|
  {
    hide Enabled, Select, Without;
    if run != [] {
      assert run[0] in run && forall a :: a in run[1..] ==> a in run;
      RunningIsSpaced(Apply(s, run[0]), run[1..], n);
    }
  }

  lemma {:induction false} RunsCompose(s: Machine, run: seq<Action>, more: seq<Action>)
    requires Feasible(s, run) && Feasible(End(s, run), more)
    ensures Feasible(s, run + more) && End(s, run + more) == End(End(s, run), more)
    decreases |run|
  {
    hide Apply, Enabled;
    if run == [] {
      assert run + more == more;
    } else {
      assert (run + more)[0] == run[0] && (run + more)[1..] == run[1..] + more;
      RunsCompose(Apply(s, run[0]), run[1..], more);
    }
  }

  /** Between two of Start, Stop and Dispose any two attempts are the interval apart, whatever calls of
      Send and whatever other events come in between. */
  lemma SpacedWhileRunning(s0: Machine, run: seq<Action>, s: Machine, more: seq<Action>, i: nat, j: nat)
    requires Reached(s0, run, s) && Feasible(s, more) && forall a :: a in more ==> Running(a)
    requires |s.attempts| <= i < j < |End(s, more).attempts|
    ensures var t := End(s, more); t.attempts[j].time >= t.attempts[i].time + (j - i) * s0.interval
  {
    hide Apply, Enabled;
    RunsCompose(s0, run, more);
    RunningIsSpaced(s, more, |s.attempts|);
    StretchIsSpaced(s0, run + more, End(s, more), i, j);
    IntervalIsFixed(s0, run + more);
  }

  lemma {:induction false} IntervalIsFixed(s: Machine, run: seq<Action>)
    ensures End(s, run).interval == s.interval
    decreases |run|
  {
    hide Select, Without;
    if run != [] { IntervalIsFixed(Apply(s, run[0]), run[1..]); }
  }

  // ----- cancellation

  /** Start, Stop and Dispose leave no SendPacket event, and every request event. */
  lemma NothingSurvivesCancel(s0: Machine, run: seq<Action>, s: Machine, a: Action)
    requires Reached(s0, run, s) && !Running(a)
    ensures LanesOf(Apply(s, a).app.kernel.pending) == LanesOf(s.app.kernel.pending).(packets := [])
    ensures Apply(s, a).attempts == s.attempts && Apply(s, a).app.count == s.app.count
  {
    hide Select, Without, ControlInv;
    ReachedInv(s0, run, s);
    CancelLands(s.app, LanesOf(s.app.kernel.pending));
    CancelLands(s.app.(hasSocket := true, open := true), LanesOf(s.app.kernel.pending));
  }

  /** No packet event is pending, and none can come: no request is left, or there is no socket. */
  ghost predicate Mute(s: Machine, disposed: bool)
  {
    Select(s.app.kernel.pending, Packet) == []
    && if disposed then !s.app.hasSocket else Select(s.app.kernel.pending, Request) == []
  }

  predicate Wakes(a: Action, disposed: bool)
  {
    if disposed then a.Start? else a.Send?
  }

  lemma MuteEvent(s: Machine, e: Entry, disposed: bool)
    requires Inv(s) && s.app.kernel.IsNext(e) && Mute(s, disposed)
    ensures Mute(Apply(s, Execute(e)), disposed) && Apply(s, Execute(e)).attempts == s.attempts
  {
    hide Select, Without, ControlInv;
    var l := LanesOf(s.app.kernel.pending);
    TakeLands(s.app, l, e);
    assert e.event.ProcessSendRequest? ==> e in l.requests;
  }

  lemma MuteCancel(s: Machine, a: Action, disposed: bool)
    requires Inv(s) && !Running(a) && Mute(s, disposed) && !Wakes(a, disposed)
    ensures Mute(Apply(s, a), disposed) && Apply(s, a).attempts == s.attempts
  {
    hide Select, Without, ControlInv;
    var l := LanesOf(s.app.kernel.pending);
    CancelLands(s.app, l);
    CancelLands(s.app.(hasSocket := true, open := true), l);
  }

  lemma MuteStep(s: Machine, a: Action, disposed: bool)
    requires Inv(s) && Enabled(s, a) && Mute(s, disposed) && !Wakes(a, disposed)
    ensures Mute(Apply(s, a), disposed) && Apply(s, a).attempts == s.attempts
  {
    hide Select, Without, ControlInv, RunEvent;
    var l := LanesOf(s.app.kernel.pending);
    match a {
      case Execute(e) => MuteEvent(s, e, disposed);
      case Send(n) => if n > 0 { InsertLands(s.app, l, 0, ProcessSendRequest(n)); }
      case Spawn(time) => InsertLands(s.app, l, time - s.app.kernel.now, Other);
      case Connected =>
      case _ => MuteCancel(s, a, disposed);
    }
  }

  lemma {:induction false} MuteRun(s: Machine, run: seq<Action>, disposed: bool)
    requires Inv(s) && Mute(s, disposed) && Feasible(s, run) && forall a :: a in run ==> !Wakes(a, disposed)
    ensures End(s, run).attempts == s.attempts
    decreases |run|
  {
    hide Inv, Mute, Apply, Enabled;
    if run != [] {
      assert run[0] in run && forall a :: a in run[1..] ==> a in run;
      StepKeeps(s, run[0]);
      MuteStep(s, run[0], disposed);
      MuteRun(Apply(s, run[0]), run[1..], disposed);
    }
  }

  lemma CancelMutes(s: Machine, a: Action)
    requires Inv(s) && (a.Dispose? || ((a.Start? || a.Stop?) && Select(s.app.kernel.pending, Request) == []))
    ensures Mute(Apply(s, a), a.Dispose?) && Apply(s, a).attempts == s.attempts
  {
    hide Select, Without, ControlInv;
    var l := LanesOf(s.app.kernel.pending);
    CancelLands(s.app, l);
    CancelLands(s.app.(hasSocket := true, open := true), l);
  }

  /** After a start or a stop with no request under way, whatever else is pending, no packet is sent
      before the next call of Send; after a disposal none is sent before the next start. */
  lemma StoppedIsSilent(s: Machine, a: Action, run: seq<Action>)
    requires Inv(s) && (a.Dispose? || ((a.Start? || a.Stop?) && Select(s.app.kernel.pending, Request) == []))
    requires Feasible(s, [a] + run) && forall x :: x in run ==> !Wakes(x, a.Dispose?)
    ensures End(s, [a] + run).attempts == s.attempts
  {
    hide Inv, Mute, Apply, Enabled, Select;
    assert ([a] + run)[1..] == run;
    StepKeeps(s, a);
    CancelMutes(s, a);
    MuteRun(Apply(s, a), run, a.Dispose?);
  }

  // ----- what a caller can check before Send

  /** Until the next attempt, a request or a packet is pending at the time r of the call. */
  ghost predicate Imminent(s: Machine, n: nat, r: int)
  {
    var l := LanesOf(s.app.kernel.pending);
    n <= |s.attempts|
    && if |s.attempts| > n then s.attempts[n].time == r
       else
         s.app.hasSocket && s.app.connected && s.app.kernel.now == r
         && (l.packets == [] ==> l.requests != []) && forall p :: p in l.packets ==> p.time == r && s.app.count > 0
  }

  lemma ImminentEvent(s: Machine, e: Entry, n: nat, r: int)
    requires Inv(s) && s.app.kernel.IsNext(e) && Imminent(s, n, r) && |s.attempts| == n
    ensures Imminent(Apply(s, Execute(e)), n, r)
  {
    hide Select, Without, ControlInv;
    var l := LanesOf(s.app.kernel.pending);
    TakeLands(s.app, l, e);
    NonEmptyHasMember(l.packets);
    NonEmptyHasMember(l.requests);
    assert forall x :: x in l.packets || x in l.requests ==> x in s.app.kernel.pending;
    if e.event.ProcessSendRequest? { ImminentRequest(s, e, n, r, l); }
  }

  lemma ImminentRequest(s: Machine, e: Entry, n: nat, r: int, l: Lanes)
    requires Inv(s) && s.app.kernel.IsNext(e) && Imminent(s, n, r) && |s.attempts| == n && e.event.ProcessSendRequest?
    requires l == LanesOf(s.app.kernel.pending) && Lands(s.app.(kernel := s.app.kernel.Take(e)), Drop(l, e))
    requires e.time == s.app.kernel.now
    ensures Imminent(Apply(s, Execute(e)), n, r)
  {
    hide Select, Without, ControlInv;
    var a := s.app.(kernel := s.app.kernel.Take(e));
    SinglePacket(a);
    assert e in l.requests && e in s.app.kernel.pending;
    if l.packets == [] { PacketLands(a, Drop(l, e), 0); }
  }

  lemma ImminentStep(s: Machine, a: Action, n: nat, r: int)
    requires Inv(s) && Enabled(s, a) && Running(a) && Imminent(s, n, r)
    ensures Imminent(Apply(s, a), n, r)
  {
    hide Select, Without, ControlInv;
    var l := LanesOf(s.app.kernel.pending);
    if |s.attempts| > n {
      AttemptsGrow(s, a);
    } else {
      match a {
        case Execute(e) => ImminentEvent(s, e, n, r);
        case Send(m) => if m > 0 { InsertLands(s.app, l, 0, ProcessSendRequest(m)); }
        case Spawn(time) => InsertLands(s.app, l, time - s.app.kernel.now, Other);
        case Connected =>
      }
    }
  }

  lemma AttemptsGrow(s: Machine, a: Action)
    ensures s.attempts <= Apply(s, a).attempts
  {
    hide Select, Without;
  }

  lemma {:induction false} ImminentRun(s: Machine, run: seq<Action>, n: nat, r: int)
    requires Inv(s) && Feasible(s, run) && Imminent(s, n, r) && forall a :: a in run ==> Running(a)
    ensures Imminent(End(s, run), n, r)
    decreases |run|
  {
    hide Inv, Imminent, Apply, Enabled;
    if run != [] {
      assert run[0] in run && forall a :: a in run[1..] ==> a in run;
      StepKeeps(s, run[0]);
      ImminentStep(s, run[0], n, r);
      ImminentRun(Apply(s, run[0]), run[1..], n, r);
    }
  }

  /** With nothing pending, a call of Send leads to an attempt at that very time, whatever runs in
      between and however often Send is called again. So the call keeps the interval iff the attempt
      before it is at least the interval ago. */
  lemma SendKeepsIntervalIff(s0: Machine, run: seq<Action>, s: Machine, n: nat, more: seq<Action>)
    requires Reached(s0, run, s) && s.app.hasSocket && s.app.connected && n > 0
    requires LanesOf(s.app.kernel.pending) == Lanes([], []) && s.attempts != []
    requires Feasible(s, [Send(n)] + more) && forall a :: a in more ==> Running(a)
    requires |End(s, [Send(n)] + more).attempts| > |s.attempts|
    ensures var t, i := End(s, [Send(n)] + more), |s.attempts|;
            t.attempts[i].time == s.app.kernel.now
            && (t.attempts[i].time >= Last(s.attempts).time + s.interval
                <==> s.app.kernel.now >= Last(s.attempts).time + s.interval)
  {
    hide Select, Without, ControlInv, Apply, Enabled;
    ReachedInv(s0, run, s);
    assert ([Send(n)] + more)[1..] == more;
    StepKeeps(s, Send(n));
    SentImminent(s, n);
    ImminentRun(Apply(s, Send(n)), more, |s.attempts|, s.app.kernel.now);
  }

  lemma SentImminent(s: Machine, n: nat)
    requires Inv(s) && s.app.hasSocket && s.app.connected && n > 0 && LanesOf(s.app.kernel.pending) == Lanes([], [])
    ensures Imminent(Apply(s, Send(n)), |s.attempts|, s.app.kernel.now)
  {
    hide Select, Without, ControlInv;
    InsertLands(s.app, Lanes([], []), 0, ProcessSendRequest(n));
  }

  // ----- a stopped application stays silent on the wire

  lemma ClosedStep(s: Machine, a: Action)
    requires s.app.hasSocket && !s.app.open && !a.Dispose?
    ensures var t := Apply(s, a); t.app.hasSocket && !t.app.open && s.attempts <= t.attempts
    ensures forall i :: |s.attempts| <= i < |Apply(s, a).attempts| ==> !Apply(s, a).attempts[i].open
  {
    hide Select, Without;
    AttemptsGrow(s, a);
  }

  lemma {:induction false} ClosedRun(s: Machine, run: seq<Action>)
    requires s.app.hasSocket && !s.app.open && forall a :: a in run ==> !a.Dispose?
    ensures s.attempts <= End(s, run).attempts
    ensures forall i :: |s.attempts| <= i < |End(s, run).attempts| ==> !End(s, run).attempts[i].open
    decreases |run|
  {
    hide Apply;
    if run != [] {
      assert run[0] in run && forall a :: a in run[1..] ==> a in run;
      var t := Apply(s, run[0]);
      ClosedStep(s, run[0]);
      ClosedRun(t, run[1..]);
      assert t.attempts <= End(s, run).attempts;
    }
  }

  /** Stop closes the socket, whatever is pending, and Start does not replace it: from any state with a
      socket, after a stop and until the next Dispose every attempt is made on a closed socket. */
  lemma StoppedSendsNothing(s: Machine, run: seq<Action>)
    requires s.app.hasSocket && forall a :: a in run ==> !a.Dispose?
    ensures Apply(s, Action.Stop).attempts == s.attempts <= End(s, [Action.Stop] + run).attempts
    ensures var t := End(s, [Action.Stop] + run);
            forall i :: |s.attempts| <= i < |t.attempts| ==> !t.attempts[i].open
  {
    hide Without, Select;
    assert ([Action.Stop] + run)[1..] == run;
    ClosedRun(Apply(s, Action.Stop), run);
  }
}
