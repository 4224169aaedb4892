/** The sender against its arithmetic specification: each request keeps the packets already due and
    restarts at the request time or one interval after the last packet, whichever is later. */
module SenderSchedule {
  import opened Words
  import opened Events
  import opened Sender
  import opened SenderRuns

  // ----- the specification

  function Slots(start: int, n: nat, interval: nat): seq<int>
    decreases n
  {
    if n == 0 then [] else [start] + Slots(start + interval, n - 1, interval)
  }

  /** The planned times that are not after r. */
  function UpTo(plan: seq<int>, r: int): seq<int>
  {
    if plan == [] || plan[0] > r then [] else [plan[0]] + UpTo(plan[1..], r)
  }

  function Max(a: int, b: int): int { if a < b then b else a }

  function Replan(plan: seq<int>, c: Call, interval: nat): seq<int>
  {
    var kept := UpTo(plan, c.time);
    var start := if kept == [] then c.time else Max(c.time, Last(kept) + interval);
    kept + Slots(start, c.count, interval)
  }

  /** When the packets go out, given the calls of Send. */
  function Schedule(calls: seq<Call>, interval: nat): seq<int>
  {
    if calls == [] then [] else Replan(Schedule(Init(calls), interval), Last(calls), interval)
  }

  lemma {:induction false} UpToSplit(a: seq<int>, b: seq<int>, r: int)
    requires (forall x :: x in a ==> x <= r) && (b == [] || b[0] > r)
    ensures UpTo(a + b, r) == a
  {
    if a == [] {
      assert a + b == b;
    } else {
      assert (a + b)[1..] == a[1..] + b;
      assert a[0] in a && forall x :: x in a[1..] ==> x in a;
      UpToSplit(a[1..], b, r);
    }
  }

  lemma ScheduleAppend(calls: seq<Call>, c: Call, interval: nat)
    ensures Schedule(calls + [c], interval) == Replan(Schedule(calls, interval), c, interval)
  {
    assert Init(calls + [c]) == calls;
  }

  // ----- the machine's side

  function Times(attempts: seq<Attempt>): seq<int>
  {
    if attempts == [] then [] else Times(Init(attempts)) + [Last(attempts).time]
  }

  lemma TimesAppend(attempts: seq<Attempt>, x: Attempt)
    ensures Times(attempts + [x]) == Times(attempts) + [x.time]
  {
    assert Init(attempts + [x]) == attempts;
  }

  function CallsOf(requests: seq<Entry>): seq<Call>
  {
    if requests == [] then [] else CallsOf(Init(requests)) + [CallOf(Last(requests))]
  }

  function CallOf(e: Entry): Call
  {
    match e.event
    case ProcessSendRequest(n) => Call(e.time, n)
    case _ => Call(e.time, 0)
  }

  lemma CallsAppend(q: seq<Entry>, e: Entry)
    ensures CallsOf(q + [e]) == CallsOf(q) + [CallOf(e)]
  {
    assert Init(q + [e]) == q;
  }

  lemma {:induction false} CallsFirst(q: seq<Entry>)
    requires q != []
    ensures CallsOf(q) == [CallOf(q[0])] + CallsOf(q[1..])
  {
    if |q| == 1 {
      assert q == [] + [q[0]] && q[1..] == [];
      CallsAppend([], q[0]);
    } else {
      CallsFirst(Init(q));
      assert q[1..] == Init(q)[1..] + [Last(q)];
      CallsAppend(Init(q)[1..], Last(q));
    }
  }

  predicate LaterCall(calls: seq<Call>, i: int, j: int)
  {
    0 <= i < j < |calls| ==> calls[i].time < calls[j].time
  }

  /** Distinct request times, in call order. */
  ghost predicate Distinct(calls: seq<Call>)
  {
    forall i, j :: LaterCall(calls, i, j)
  }

  /** What the pending SendPacket event will still do. */
  function Future(s: Machine, l: Lanes): seq<int>
  {
    if l.packets == [] then [] else Slots(l.packets[0].time, s.app.count, s.interval)
  }

  /** The slots already used and the slots to come are exactly the schedule of the requests taken. */
  ghost predicate PlanInv(s: Machine, l: Lanes)
  {
    match s.crashed
    case true => false
    case false =>
      s.app.hasSocket && s.app.connected
      && Times(s.attempts) + Future(s, l) == Schedule(s.taken, s.interval)
      && (forall x :: x in Times(s.attempts) ==> x <= s.app.kernel.now)
      && s.taken + CallsOf(l.requests) == s.calls
      && SlotInv(s.app.kernel.now, Times(s.attempts), s.interval, l, s.taken)
  }

  /** Where the pending event stands relative to the last slot used. */
  ghost predicate SlotInv(now: int, used: seq<int>, interval: nat, l: Lanes, taken: seq<Call>)
  {
    (l.packets == [] && used != [] ==> Last(used) + interval <= now)
    && (l.packets != [] ==>
          var p := l.packets[0];
          now <= p.time
          && (interval == 0 ==> taken != [] && p.time == Last(taken).time)
          && (used != [] ==> Last(used) + interval <= p.time)
          && (p.time > now ==> used != [] && p.time == Last(used) + interval)
          && (p.time == now && (exists q :: q in l.requests && q.id < p.id) ==> taken != [] && Last(taken).time == now))
  }

  /** What a request does to the machine. */
  lemma RequestApplies(s: Machine, e: Entry, n: nat)
    requires e.event == ProcessSendRequest(n) && s.app.hasSocket && s.app.connected
    ensures var t := Apply(s, Execute(e));
            t.taken == s.taken + [Call(e.time, n)] && t.calls == s.calls && t.interval == s.interval
            && t.crashed == s.crashed
            && t.app.kernel.now == e.time && t.attempts == s.attempts && t.app.count == n
            && t.app.hasSocket && t.app.connected
  {
    hide Without;
  }

  /** The used slots stay, the planned ones are dropped, and the request starts at the pending event. */
  lemma RequestReplans(s: Machine, l: Lanes, e: Entry, n: nat, start: int)
    requires PlanInv(s, l) && e.time == s.app.kernel.now && |l.packets| <= 1
    requires s.taken != [] ==> Last(s.taken).time < e.time
    requires l.packets != [] && l.packets[0].time == e.time ==> exists q :: q in l.requests && q.id < l.packets[0].id
    requires start == if l.packets != [] then l.packets[0].time else e.time
    ensures Times(s.attempts) + Slots(start, n, s.interval) == Schedule(s.taken + [Call(e.time, n)], s.interval)
  {
    hide Schedule, Times, CallsOf;
    ScheduleAppend(s.taken, Call(e.time, n), s.interval);
    UpToSplit(Times(s.attempts), Future(s, l), e.time);
    assert l.packets == [] ==> Times(s.attempts) + [] == Times(s.attempts);
  }

  lemma RequestPlan(s: Machine, e: Entry, l: Lanes, l': Lanes, n: nat)
    requires PlanInv(s, l) && e.event == ProcessSendRequest(n) && e.time == s.app.kernel.now
    requires l.requests != [] && l.requests[0] == e && l'.requests == l.requests[1..]
    requires s.taken != [] ==> Last(s.taken).time < e.time
    requires l.packets != [] ==> |l.packets| == 1 && (l.packets[0].time == e.time ==> e.id < l.packets[0].id)
    requires l'.packets == if l.packets != [] then l.packets else [Entry(s.app.kernel.nextId, e.time, SendPacket)]
    requires s.app.kernel.Take(e).IsPending(s.app.event) <==> l.packets != []
    ensures PlanInv(Apply(s, Execute(e)), l')
  {
    hide Schedule, Times, CallsOf, Apply, Slots;
    assert e in l.requests;
    RequestApplies(s, e, n);
    RequestReplans(s, l, e, n, l'.packets[0].time);
    CallsFirst(l.requests);
    assert s.taken + ([Call(e.time, n)] + CallsOf(l'.requests)) == s.taken + [Call(e.time, n)] + CallsOf(l'.requests);
  }

  /** What SendPacket does to the machine when the last packet is out, and when one is left. */
  lemma PacketApplies(s: Machine, e: Entry)
    requires e.event.SendPacket? && s.app.hasSocket && !s.crashed
    ensures var t, k := Apply(s, Execute(e)), s.app.kernel.Take(e);
            t.taken == s.taken && t.calls == s.calls && t.interval == s.interval && !t.crashed
            && t.app.kernel.now == e.time
            && t.app.hasSocket == s.app.hasSocket && t.app.connected == s.app.connected
            && (s.app.count == 0 ==> t.attempts == s.attempts && t.app.count == 0)
            && (s.app.count > 0 ==>
                  |t.attempts| == |s.attempts| + 1 && t.attempts == s.attempts + [Last(t.attempts)]
                  && Last(t.attempts).time == e.time && t.app.count == s.app.count - 1)
  {
    hide Without;
  }

  lemma SlotsFirst(start: int, n: nat, interval: nat)
    ensures Slots(start, n, interval) == if n == 0 then [] else [start] + Slots(start + interval, n - 1, interval)
  {
  }

  lemma PacketPlan(s: Machine, e: Entry, l: Lanes, l': Lanes)
    requires PlanInv(s, l) && e.event.SendPacket? && l.packets == [e]
    requires var next := Entry(s.app.kernel.nextId, e.time + s.interval, SendPacket);
             l' == l.(packets := if s.app.count > 0 then [next] else [])
    ensures PlanInv(Apply(s, Execute(e)), l')
  {
    hide Schedule, CallsOf, Without, Slots, Times, Apply, SlotInv;
    var used := Times(s.attempts);
    PacketApplies(s, e);
    SlotsFirst(e.time, s.app.count, s.interval);
    if s.app.count > 0 {
      TimesAppend(s.attempts, Last(Apply(s, Execute(e)).attempts));
      var more := Slots(e.time + s.interval, s.app.count - 1, s.interval);
      assert used + ([e.time] + more) == used + [e.time] + more;
      NextSlot(used, s.interval, e, l, l', s.app.kernel.now, s.taken);
    } else {
      assert used + [] == used;
      LastSlot(used, s.interval, e, l, s.app.kernel.now, s.taken);
    }
  }

  lemma NextSlot(used: seq<int>, interval: nat, e: Entry, l: Lanes, l': Lanes, now: int, taken: seq<Call>)
    requires SlotInv(now, used, interval, l, taken) && l.packets == [e]
    requires l'.packets != [] && l'.packets[0].time == e.time + interval && l'.requests == l.requests
    ensures now <= e.time && SlotInv(e.time, used + [e.time], interval, l', taken)
  {
  }

  lemma LastSlot(used: seq<int>, interval: nat, e: Entry, l: Lanes, now: int, taken: seq<Call>)
    requires SlotInv(now, used, interval, l, taken) && l.packets == [e]
    ensures now <= e.time && SlotInv(e.time, used, interval, l.(packets := []), taken)
  {
  }

  lemma OtherPlan(s: Machine, e: Entry, l: Lanes)
    requires PlanInv(s, l) && !e.event.SendPacket? && !e.event.ProcessSendRequest?
    requires s.app.kernel.now <= e.time && (l.packets != [] ==> e.time <= l.packets[0].time)
    requires e.time > s.app.kernel.now ==> l.requests == []
    ensures PlanInv(Apply(s, Execute(e)), l)
  {
    hide Schedule, CallsOf, Times, Without;
  }

  lemma SendPlan(s: Machine, n: nat, l: Lanes)
    requires PlanInv(s, l) && n > 0 && forall p :: p in l.packets ==> p.id < s.app.kernel.nextId
    ensures var q := Entry(s.app.kernel.nextId, s.app.kernel.now, ProcessSendRequest(n));
            PlanInv(Apply(s, Send(n)), l.(requests := l.requests + [q]))
  {
    hide Schedule, Times, CallsOf;
    var q := Entry(s.app.kernel.nextId, s.app.kernel.now, ProcessSendRequest(n));
    CallsAppend(l.requests, q);
    assert s.taken + (CallsOf(l.requests) + [CallOf(q)]) == s.taken + CallsOf(l.requests) + [CallOf(q)];
    if l.packets != [] { assert l.packets[0] in l.packets; }
  }

  // ----- every action while started and connected

  /** The calls and events of a started, connected application that is neither stopped nor disposed. */
  predicate Steady(a: Action)
  {
    a.Send? || a.Execute? || a.Spawn?
  }

  ghost predicate Planned(s: Machine)
  {
    PlanInv(s, LanesOf(s.app.kernel.pending))
  }

  lemma DistinctPrefix(a: seq<Call>, b: seq<Call>)
    requires Distinct(a + b)
    ensures Distinct(a)
  {
    forall i, j ensures LaterCall(a, i, j) { assert LaterCall(a + b, i, j); }
  }

  lemma FirstRequest(k: Kernel, e: Entry, q: seq<Entry>)
    requires k.Valid() && k.IsNext(e) && q == Select(k.pending, Request) && e in q
    requires forall x :: x in q ==> x.time == e.time
    ensures q[0] == e && Without(q, e.id) == q[1..]
  {
    hide Select, Without;
    IncreasingParts(k.pending, e.id, Request);
    var i :| 0 <= i < |q| && q[i] == e;
    assert Ordered(q, 0, i);
    assert q[0] in q;
    WithoutFirst(q);
  }

  lemma RequestPlanned(s: Machine, e: Entry)
    requires Inv(s) && Planned(s) && s.app.kernel.IsNext(e) && e.event.ProcessSendRequest? && Distinct(s.calls)
    ensures Planned(Apply(s, Execute(e)))
  {
    hide Select, Without, Schedule, Times, CallsOf;
    var l, a := LanesOf(s.app.kernel.pending), s.app.(kernel := s.app.kernel.Take(e));
    TakeLands(s.app, l, e);
    assert e in l.requests;
    FirstRequest(s.app.kernel, e, l.requests);
    SinglePacket(s.app);
    SinglePacket(a);
    if l.packets != [] { assert l.packets[0] in l.packets; }
    CallsFirst(l.requests);
    assert s.calls == s.taken + ([CallOf(e)] + CallsOf(l.requests[1..]));
    if s.taken != [] { assert LaterCall(s.calls, |s.taken| - 1, |s.taken|); }
    if l.packets == [] { PacketLands(a, Drop(l, e), 0); }
    RequestPlan(s, e, l, LanesOf(Apply(s, Execute(e)).app.kernel.pending), e.event.count);
  }

  lemma PacketPlanned(s: Machine, e: Entry)
    requires Inv(s) && Planned(s) && s.app.kernel.IsNext(e) && e.event.SendPacket?
    ensures Planned(Apply(s, Execute(e)))
  {
    hide Select, Without, Schedule, Times, CallsOf;
    var l, a := LanesOf(s.app.kernel.pending), s.app.(kernel := s.app.kernel.Take(e));
    TakeLands(s.app, l, e);
    if a.count > 0 { PacketLands(a, Drop(l, e), s.interval); }
    PacketPlan(s, e, l, LanesOf(Apply(s, Execute(e)).app.kernel.pending));
  }

  lemma OtherPlanned(s: Machine, e: Entry)
    requires Inv(s) && Planned(s) && s.app.kernel.IsNext(e) && !e.event.SendPacket? && !e.event.ProcessSendRequest?
    ensures Planned(Apply(s, Execute(e)))
  {
    hide Select, Without, Schedule, Times, CallsOf;
    var l := LanesOf(s.app.kernel.pending);
    TakeLands(s.app, l, e);
    if l.packets != [] { assert l.packets[0] in l.packets; }
    NonEmptyHasMember(l.requests);
    OtherPlan(s, e, l);
  }

  lemma StepPlanned(s: Machine, a: Action)
    requires Inv(s) && Planned(s) && Enabled(s, a) && Steady(a) && Distinct(Apply(s, a).calls)
    ensures Planned(Apply(s, a))
  {
    hide Select, Schedule, Times, CallsOf, Distinct;
    var l := LanesOf(s.app.kernel.pending);
    match a {
      case Execute(e) =>
        if e.event.SendPacket? { PacketPlanned(s, e); }
        else if e.event.ProcessSendRequest? { assert Apply(s, a).calls == s.calls; RequestPlanned(s, e); }
        else { OtherPlanned(s, e); }
      case Send(n) =>
        if n > 0 {
          InsertLands(s.app, l, 0, ProcessSendRequest(n));
          assert forall p :: p in l.packets ==> p in s.app.kernel.pending;
          SendPlan(s, n, l);
        }
      case Spawn(time) => InsertLands(s.app, l, time - s.app.kernel.now, Other);
    }
  }

  lemma CallsGrow(s: Machine, a: Action)
    requires Distinct(Apply(s, a).calls)
    ensures Distinct(s.calls)
  {
    hide Without, Select;
    if a.Send? && a.count > 0 { DistinctPrefix(s.calls, [Call(s.app.kernel.now, a.count)]); }
  }

  lemma {:induction false} DistinctBefore(s: Machine, run: seq<Action>)
    requires Distinct(End(s, run).calls)
    ensures Distinct(s.calls)
    decreases |run|
  {
    hide Distinct, Apply;
    if run != [] {
      DistinctBefore(Apply(s, run[0]), run[1..]);
      CallsGrow(s, run[0]);
    }
  }

  lemma {:induction false} RunPlanned(s: Machine, run: seq<Action>)
    requires Inv(s) && Planned(s) && Feasible(s, run) && (forall a :: a in run ==> Steady(a))
    requires Distinct(End(s, run).calls)
    ensures Inv(End(s, run)) && Planned(End(s, run))
    decreases |run|
  {
    hide Inv, Planned, Distinct, Apply, Enabled;
    if run != [] {
      var t := Apply(s, run[0]);
      assert run[0] in run && forall a :: a in run[1..] ==> a in run;
      DistinctBefore(t, run[1..]);
      StepKeeps(s, run[0]);
      StepPlanned(s, run[0]);
      RunPlanned(t, run[1..]);
    }
  }

  /** A started and connected application with no request under way, its history cleared. */
  ghost predicate Idle(s: Machine)
  {
    Inv(s) && s.app.hasSocket && s.app.connected && LanesOf(s.app.kernel.pending) == Lanes([], [])
    && s.attempts == [] && s.calls == [] && s.taken == []
  }

  /** The refinement: for every interleaving with other events and every sequence of Send calls at
      distinct times, the packets sent are a prefix of the arithmetic schedule of the requests taken, no
      slot and no request of the past is missing, and it is all of the schedule once no request and no
      packet event is pending. */
  lemma SenderFollowsSchedule(s: Machine, run: seq<Action>)
    requires Idle(s) && Feasible(s, run) && (forall a :: a in run ==> Steady(a))
    requires Distinct(End(s, run).calls)
    ensures var t := End(s, run);
            Times(t.attempts) <= Schedule(t.taken, t.interval) && t.taken <= t.calls
            && (LanesOf(t.app.kernel.pending) == Lanes([], []) ==> Times(t.attempts) == Schedule(t.calls, t.interval))
            && (s.app.open ==> forall x :: x in t.attempts ==> x.open)
            && NothingMissing(t)
  {
    hide Distinct, Schedule, Select, Apply, Times, CallsOf, NothingMissing, Slots;
    if s.app.open { OpenRun(s, run); }
    IdlePlanned(s);
    RunPlanned(s, run);
    PlannedMissesNothing(End(s, run));
    var t := End(s, run);
    assert t.taken + [] == t.taken && Times(t.attempts) + [] == Times(t.attempts);
  }

  /** Every slot before now has been used, and every call before now has been taken. */
  ghost predicate NothingMissing(t: Machine)
  {
    (forall i :: 0 <= i < |Schedule(t.taken, t.interval)| && Schedule(t.taken, t.interval)[i] < t.app.kernel.now ==>
       i < |t.attempts|)
    && forall i :: 0 <= i < |t.calls| && t.calls[i].time < t.app.kernel.now ==> i < |t.taken|
  }

  lemma PlannedMissesNothing(t: Machine)
    requires Inv(t) && Planned(t)
    ensures NothingMissing(t)
  {
    hide Select, Schedule, Times, CallsOf, Slots;
    var l := LanesOf(t.app.kernel.pending);
    var used, future := Times(t.attempts), Future(t, l);
    TimesLength(t.attempts);
    CallsLength(l.requests);
    if l.packets != [] { SlotsFrom(l.packets[0].time, t.app.count, t.interval); }
    forall k | 0 <= k < |future| ensures future[k] >= t.app.kernel.now { assert future[k] in future; }
    forall k | 0 <= k < |l.requests| ensures CallsOf(l.requests)[k].time >= t.app.kernel.now {
      assert l.requests[k] in l.requests;
    }
    assert forall i :: |used| <= i < |used + future| ==> (used + future)[i] == future[i - |used|];
    assert forall i :: |t.taken| <= i < |t.calls| ==> t.calls[i] == CallsOf(l.requests)[i - |t.taken|];
  }

  lemma {:induction false} TimesLength(attempts: seq<Attempt>)
    ensures |Times(attempts)| == |attempts|
  {
    if attempts != [] { TimesLength(Init(attempts)); }
  }

  lemma {:induction false} CallsLength(q: seq<Entry>)
    ensures |CallsOf(q)| == |q| && forall k :: 0 <= k < |q| ==> CallsOf(q)[k] == CallOf(q[k])
  {
    if q != [] { CallsLength(Init(q)); }
  }

  lemma {:induction false} SlotsFrom(start: int, n: nat, interval: nat)
    ensures forall x :: x in Slots(start, n, interval) ==> x >= start
    decreases n
  {
    if n > 0 { SlotsFrom(start + interval, n - 1, interval); }
  }

  // ----- and the whole schedule is always within reach

  function PacketWork(s: Machine, l: Lanes): nat
  {
    if l.packets == [] then 0 else s.app.count + 1
  }

  /** Requests to take, then packets to send, then pending events. */
  predicate LessWork(t: Machine, s: Machine)
  {
    var m, l := LanesOf(t.app.kernel.pending), LanesOf(s.app.kernel.pending);
    |m.requests| < |l.requests|
    || (|m.requests| == |l.requests|
        && (PacketWork(t, m) < PacketWork(s, l)
            || (PacketWork(t, m) == PacketWork(s, l) && |t.app.kernel.pending| < |s.app.kernel.pending|)))
  }

  /** Every event leaves less work. */
  lemma ExecuteShrinks(s: Machine, e: Entry)
    requires Inv(s) && s.app.kernel.IsNext(e)
    ensures Apply(s, Execute(e)).calls == s.calls && LessWork(Apply(s, Execute(e)), s)
  {
    hide Select, Without, ControlInv, KernelInv, LessWork;
    TakeLands(s.app, LanesOf(s.app.kernel.pending), e);
    match e.event {
      case ProcessSendRequest(_) => RequestShrinks(s, e);
      case SendPacket => PacketShrinks(s, e);
      case _ => OtherShrinks(s, e);
    }
  }

  lemma RequestShrinks(s: Machine, e: Entry)
    requires Inv(s) && s.app.kernel.IsNext(e) && e.event.ProcessSendRequest?
    ensures LessWork(Apply(s, Execute(e)), s)
  {
    hide Select, Without, ControlInv;
    var l, a := LanesOf(s.app.kernel.pending), s.app.(kernel := s.app.kernel.Take(e));
    TakeLands(s.app, l, e);
    IncreasingParts(s.app.kernel.pending, 0, Request);
    assert e in l.requests;
    WithoutShrinks(l.requests, e);
    SinglePacket(a);
    if l.packets == [] { PacketLands(a, Drop(l, e), 0); }
  }

  lemma PacketShrinks(s: Machine, e: Entry)
    requires Inv(s) && s.app.kernel.IsNext(e) && e.event.SendPacket?
    ensures LessWork(Apply(s, Execute(e)), s)
  {
    hide Select, Without, ControlInv;
    var l, a := LanesOf(s.app.kernel.pending), s.app.(kernel := s.app.kernel.Take(e));
    TakeLands(s.app, l, e);
    if a.count > 0 { PacketLands(a, Drop(l, e), s.interval); }
  }

  lemma OtherShrinks(s: Machine, e: Entry)
    requires Inv(s) && s.app.kernel.IsNext(e) && !e.event.ProcessSendRequest? && !e.event.SendPacket?
    ensures LessWork(Apply(s, Execute(e)), s)
  {
    hide Select, Without, ControlInv;
    TakeSelect(s.app.kernel, e);
    TakeLands(s.app, LanesOf(s.app.kernel.pending), e);
  }

  lemma {:induction false} DrainAll(s: Machine) returns (more: seq<Action>)
    requires Inv(s) && Planned(s) && Distinct(s.calls)
    ensures Feasible(s, more) && forall a :: a in more ==> a.Execute?
    ensures var t := End(s, more);
            Inv(t) && Planned(t) && t.calls == s.calls && LanesOf(t.app.kernel.pending) == Lanes([], [])
    decreases |LanesOf(s.app.kernel.pending).requests|, PacketWork(s, LanesOf(s.app.kernel.pending)),
              |s.app.kernel.pending|
  {
    hide Inv, Planned, Distinct, Apply, Select, PacketWork;
    if LanesOf(s.app.kernel.pending) == Lanes([], []) {
      more := [];
    } else {
      SomethingPending(s.app.kernel.pending);
      var e := SomeEventIsNext(s.app.kernel.pending);
      ExecuteShrinks(s, e);
      StepKeeps(s, Execute(e));
      StepPlanned(s, Execute(e));
      var rest := DrainAll(Apply(s, Execute(e)));
      more := [Execute(e)] + rest;
      assert more[1..] == rest;
    }
  }

  lemma SomethingPending(p: seq<Entry>)
    requires LanesOf(p) != Lanes([], [])
    ensures p != []
  {
  }

  /** From every state of a steady run the simulator alone sends all the packets of the schedule of all
      calls, at its times and no others, and comes to rest. */
  lemma SenderCanFinish(s: Machine, run: seq<Action>) returns (more: seq<Action>)
    requires Idle(s) && Feasible(s, run) && (forall a :: a in run ==> Steady(a))
    requires Distinct(End(s, run).calls)
    ensures Feasible(s, run + more) && forall a :: a in more ==> a.Execute?
    ensures var t := End(s, run + more);
            t.calls == End(s, run).calls && LanesOf(t.app.kernel.pending) == Lanes([], [])
            && Times(t.attempts) == Schedule(t.calls, t.interval)
  {
    hide Distinct, Schedule, Select, Apply, Inv, Planned, Times, Feasible, Enabled;
    IdlePlanned(s);
    IdleInv(s);
    RunPlanned(s, run);
    more := DrainAll(End(s, run));
    RunsCompose(s, run, more);
    assert forall a :: a in run + more ==> Steady(a);
    SenderFollowsSchedule(s, run + more);
  }

  lemma IdleInv(s: Machine)
    requires Idle(s)
    ensures Inv(s)
  {
    hide Inv;
  }

  /** Every attempt so far was made on an open socket, if it is open now. */
  ghost predicate StillOpen(s: Machine)
  {
    s.app.open && forall x :: x in s.attempts ==> x.open
  }

  lemma OpenStep(s: Machine, a: Action)
    requires Steady(a) && StillOpen(s)
    ensures StillOpen(Apply(s, a))
  {
    hide Select, Without;
  }

  /** While the application is not stopped its socket stays open. */
  lemma {:induction false} OpenRun(s: Machine, run: seq<Action>)
    requires StillOpen(s) && forall a :: a in run ==> Steady(a)
    ensures StillOpen(End(s, run))
    decreases |run|
  {
    hide StillOpen, Apply;
    if run != [] {
      assert run[0] in run && forall a :: a in run[1..] ==> a in run;
      OpenStep(s, run[0]);
      OpenRun(Apply(s, run[0]), run[1..]);
    }
  }

  lemma IdlePlanned(s: Machine)
    requires Idle(s)
    ensures Planned(s)
  {
    hide Select;
    assert Schedule([], s.interval) == [] && [] + Future(s, Lanes([], [])) == [];
    assert CallsOf([]) == [];
  }
}
