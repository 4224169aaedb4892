/** The schedule on the seven requests of the triggered send example, and the one way to break the
    packet spacing: cancelling the send event between two requests. */
module SenderExamples {
  import opened Words
  import opened Events
  import opened Sender
  import opened SenderRuns
  import opened SenderSchedule

  // ----- the four cases of the example, in milliseconds

  function Five(start: int): seq<int>
  {
    [start, start + 200, start + 400, start + 600, start + 800]
  }

  lemma FiveSlots(start: int)
    ensures Slots(start, 5, 200) == Five(start)
  {
    assert Slots(start, 5, 200) == [start] + Slots(start + 200, 4, 200);
    assert Slots(start + 200, 4, 200) == [start + 200] + Slots(start + 400, 3, 200);
    assert Slots(start + 400, 3, 200) == [start + 400] + Slots(start + 600, 2, 200);
    assert Slots(start + 600, 2, 200) == [start + 600] + Slots(start + 800, 1, 200);
    assert Slots(start + 800, 1, 200) == [start + 800] + Slots(start + 1000, 0, 200);
  }

  lemma ReplanFive(plan: seq<int>, kept: seq<int>, dropped: seq<int>, r: int, start: int)
    requires plan == kept + dropped && (forall x :: x in kept ==> x <= r) && (dropped == [] || dropped[0] > r)
    requires start == if kept == [] then r else Max(r, Last(kept) + 200)
    ensures Replan(plan, Call(r, 5), 200) == kept + Five(start)
  {
    hide Slots;
    UpToSplit(kept, dropped, r);
    FiveSlots(start);
  }

  /** Case 1 completes. Case 2 is interrupted with two packets to go, which are dropped. Case 3 is
      interrupted after its last packet, inside the interval. Case 4 is interrupted at the very time
      of its third packet, which still goes out. */
  lemma ExampleCases()
    ensures Schedule([Call(3000, 5)], 200) == [3000, 3200, 3400, 3600, 3800]
    ensures Schedule([Call(4000, 5), Call(4500, 5)], 200)
         == [4000, 4200, 4400] + [4600, 4800, 5000, 5200, 5400]
    ensures Schedule([Call(6000, 5), Call(6900, 5)], 200)
         == [6000, 6200, 6400, 6600, 6800] + [7000, 7200, 7400, 7600, 7800]
    ensures Schedule([Call(8000, 5), Call(8400, 5)], 200)
         == [8000, 8200, 8400] + [8600, 8800, 9000, 9200, 9400]
  {
    hide Replan;
    OneCall(3000);
    OneCall(4000);
    OneCall(6000);
    OneCall(8000);
    ScheduleAppend([Call(4000, 5)], Call(4500, 5), 200);
    ReplanFive(Five(4000), [4000, 4200, 4400], [4600, 4800], 4500, 4600);
    ScheduleAppend([Call(6000, 5)], Call(6900, 5), 200);
    ReplanFive(Five(6000), Five(6000), [], 6900, 7000);
    ScheduleAppend([Call(8000, 5)], Call(8400, 5), 200);
    ReplanFive(Five(8000), [8000, 8200, 8400], [8600, 8800], 8400, 8600);
    assert [Call(4000, 5)] + [Call(4500, 5)] == [Call(4000, 5), Call(4500, 5)];
    assert [Call(6000, 5)] + [Call(6900, 5)] == [Call(6000, 5), Call(6900, 5)];
    assert [Call(8000, 5)] + [Call(8400, 5)] == [Call(8000, 5), Call(8400, 5)];
  }

  lemma OneCall(r: int)
    ensures Schedule([Call(r, 5)], 200) == Five(r)
  {
    hide Replan;
    ScheduleAppend([], Call(r, 5), 200);
    assert [] + [Call(r, 5)] == [Call(r, 5)];
    ReplanFive([], [], [], r, r);
    assert [] + Five(r) == Five(r);
  }

  // ----- the schedule itself keeps the interval

  lemma {:induction false} ScheduleIsSpaced(calls: seq<Call>, interval: nat, i: nat)
    requires 0 < i < |Schedule(calls, interval)|
    ensures Schedule(calls, interval)[i] >= Schedule(calls, interval)[i - 1] + interval
    decreases |calls|
  {
    hide Slots, UpTo, Schedule;
    assert calls != [] by { EmptySchedule(interval); }
    var plan, c := Schedule(Init(calls), interval), Last(calls);
    assert calls == Init(calls) + [c];
    ScheduleAppend(Init(calls), c, interval);
    var kept := UpTo(plan, c.time);
    UpToPrefix(plan, c.time);
    var start := if kept == [] then c.time else Max(c.time, Last(kept) + interval);
    if i < |kept| {
      ScheduleIsSpaced(Init(calls), interval, i);
    } else {
      SlotAt(start, c.count, interval, i - |kept|);
      if i > |kept| { SlotAt(start, c.count, interval, i - |kept| - 1); }
    }
  }

  lemma EmptySchedule(interval: nat)
    ensures Schedule([], interval) == []
  {
  }

  lemma {:induction false} UpToPrefix(plan: seq<int>, r: int)
    ensures UpTo(plan, r) <= plan
  {
    if plan != [] && plan[0] <= r { UpToPrefix(plan[1..], r); }
  }

  lemma {:induction false} SlotAt(start: int, n: nat, interval: nat, i: nat)
    requires i < |Slots(start, n, interval)|
    ensures |Slots(start, n, interval)| == n && Slots(start, n, interval)[i] == start + i * interval
    decreases n
  {
    SlotCount(start, n, interval);
    if i > 0 {
      SlotAt(start + interval, n - 1, interval, i - 1);
      assert i * interval == interval + (i - 1) * interval;
    }
  }

  lemma {:induction false} SlotCount(start: int, n: nat, interval: nat)
    ensures |Slots(start, n, interval)| == n
    decreases n
  {
    if n > 0 { SlotCount(start + interval, n - 1, interval); }
  }

  // ----- a cancellation forgets the interval

  /** A machine at time 0 with nothing but what is named here. */
  function At0(nextId: nat, pending: seq<Entry>, open: bool, count: nat, event: nat): App
  {
    App(Kernel(0, nextId, pending), true, open, true, count, event)
  }

  lemma OnlyEvent(k: Kernel, e: Entry)
    requires k.pending == [e] && e.time == k.now
    ensures k.IsNext(e) && k.Take(e) == k.(pending := []) && k.Cancel(e.id) == k.(pending := [])
  {
    hide Without;
    WithoutMiddle([], e, []);
    assert [] + [e] + [] == [e];
  }

  lemma CancelOnly(a: App, e: Entry)
    requires a.kernel.pending == [e] && e.id == a.event
    ensures CancelEffect(a) == a.(kernel := a.kernel.(pending := []))
  {
    hide Without;
    WithoutMiddle([], e, []);
    assert [] + [e] + [] == [e];
    assert e in a.kernel.pending;
  }

  lemma RunOne(s: Machine, a: Action)
    requires Enabled(s, a)
    ensures Feasible(s, [a]) && End(s, [a]) == Apply(s, a)
  {
    hide Apply, Enabled;
    assert [a][1..] == [];
    assert End(Apply(s, a), []) == Apply(s, a);
  }

  lemma Extend(s: Machine, run: seq<Action>, a: Action) returns (longer: seq<Action>)
    requires Feasible(s, run) && Enabled(End(s, run), a)
    ensures Feasible(s, longer) && End(s, longer) == Apply(End(s, run), a)
  {
    hide Apply, Enabled;
    RunOne(End(s, run), a);
    RunsCompose(s, run, [a]);
    longer := run + [a];
  }

  /** One request handled and its first packet attempted, at time 0 with no other event. */
  lemma FirstAttempt(s0: Machine, run0: seq<Action>, n: nat, open: bool) returns (run: seq<Action>)
    requires n > 0 && Feasible(s0, run0)
    requires var s := End(s0, run0);
             s.app == At0(s.app.kernel.nextId, [], open, s.app.count, s.app.event)
    ensures Feasible(s0, run)
    ensures var s, t := End(s0, run0), End(s0, run);
            t.attempts == s.attempts + [Attempt(0, open, s.cancelled, 0)] && t.interval == s.interval
            && !t.cancelled
            && t.app == At0(s.app.kernel.nextId + 3, [Entry(s.app.kernel.nextId + 2, s.interval, SendPacket)],
                            open, n - 1, s.app.kernel.nextId + 2)
  {
    hide Feasible, End, Without;
    var id := End(s0, run0).app.kernel.nextId;
    var request, packet := Entry(id, 0, ProcessSendRequest(n)), Entry(id + 1, 0, SendPacket);
    run := Extend(s0, run0, Send(n));
    assert End(s0, run).app.kernel.pending == [request];
    OnlyEvent(End(s0, run).app.kernel, request);
    run := Extend(s0, run, Execute(request));
    assert End(s0, run).app.kernel.pending == [packet];
    OnlyEvent(End(s0, run).app.kernel, packet);
    run := Extend(s0, run, Execute(packet));
  }

  /** For every positive interval there is a run with two attempts at the same time: after the first, the
      application is started or stopped again, which cancels the event that guards the interval, and a
      new request sends at once. After Start the socket is open both times, so two packets leave too
      close; after Stop it is closed for the second. */
  lemma RestartForgetsInterval(s0: Machine, a: Action) returns (run: seq<Action>)
    requires Initial(s0) && s0.app.kernel == Kernel(0, 1, []) && s0.interval > 0 && (a.Start? || a.Stop?)
    ensures Reached(s0, run, End(s0, run))
    ensures var t := End(s0, run);
            |t.attempts| == 2 && t.attempts[1].time - t.attempts[0].time < t.interval && t.attempts[1].afterCancel
            && t.attempts[0].open && (t.attempts[1].open <==> a.Start?)
  {
    hide Feasible, End, Without;
    Nothing(s0);
    run := Extend(s0, [], Start);
    run := Extend(s0, run, Connected);
    run := FirstAttempt(s0, run, 1, true);
    var guard := Entry(3, s0.interval, SendPacket);
    CancelOnly(End(s0, run).app, guard);
    assert guard in End(s0, run).app.kernel.pending;
    run := Extend(s0, run, a);
    run := FirstAttempt(s0, run, 1, a.Start?);
  }

  lemma Nothing(s: Machine)
    ensures Feasible(s, []) && End(s, []) == s
  {
  }
}
