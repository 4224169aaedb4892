/** Bursts: the thread first takes a whole stream, then the simulator forwards its messages one after
    the other at the instant of Connect, before any callback runs. */
module GatewayBurst {
  import opened Words
  import opened Framing
  import opened Events
  import opened GatewayEffects
  import opened GatewayRuns
  import opened GatewayThread
  import opened GatewayInvariants
  import opened GatewaySteering

  /** Messages that are processed: a valid header, and not the terminate signal. */
  ghost predicate AllAccepted(f: string, ms: seq<string>)
    requires f != ""
  {
    forall i :: 0 <= i < |ms| ==> AcceptedOne(f, ms[i])
  }

  predicate AcceptedOne(f: string, msg: string)
    requires f != ""
  {
    Parse(msg, f).Some? && Parse(msg, f).value.stamp >= 0
  }

  lemma {:induction false} AcceptedAll(f: string, ms: seq<string>)
    requires f != "" && AllAccepted(f, ms)
    ensures |Accepted(f, ms)| == |ms|
    ensures forall i :: 0 <= i < |ms| ==> Parse(ms[i], f) == Some(Accepted(f, ms)[i])
  {
    hide Parse, Accepted;
    if ms == [] {
      NothingAccepted(f);
    } else {
      var a, msg := Init(ms), Last(ms);
      assert AcceptedOne(f, ms[|ms| - 1]);
      assert AllAccepted(f, a) by {
        forall i | 0 <= i < |a| ensures AcceptedOne(f, a[i]) { assert AcceptedOne(f, ms[i]); }
      }
      AcceptedAll(f, a);
      AcceptedAppend(f, a, msg);
      assert ms == a + [msg];
    }
  }

  lemma NothingAccepted(f: string)
    requires f != ""
    ensures Accepted(f, []) == []
  {
  }

  /** What the gateway processes of a stream: the messages before the first one that is the terminate
      signal or has an invalid header. */
  function Served(f: string, ms: seq<string>): seq<string>
    requires f != ""
  {
    if ms == [] || !AcceptedOne(f, ms[0]) then [] else [ms[0]] + Served(f, ms[1..])
  }

  lemma {:induction false} ServedFacts(f: string, ms: seq<string>)
    requires f != ""
    ensures Served(f, ms) <= ms && AllAccepted(f, Served(f, ms))
    ensures |Served(f, ms)| < |ms| ==> !AcceptedOne(f, ms[|Served(f, ms)|])
  {
    hide AcceptedOne;
    if ms != [] && AcceptedOne(f, ms[0]) {
      ServedFacts(f, ms[1..]);
      var rest := Served(f, ms[1..]);
      assert ms == [ms[0]] + ms[1..];
      forall i | 0 <= i < |rest| + 1 ensures AcceptedOne(f, ([ms[0]] + rest)[i]) {
        if i > 0 { assert AcceptedOne(f, rest[i - 1]); }
      }
    }
  }

  lemma {:induction false} ServedAppend(f: string, a: seq<string>, b: seq<string>)
    requires f != ""
    ensures Served(f, a) <= Served(f, a + b)
    ensures AllAccepted(f, a) ==> Served(f, a + b) == a + Served(f, b)
  {
    hide AcceptedOne;
    if a == [] {
      assert a + b == b;
    } else {
      assert (a + b)[1..] == a[1..] + b;
      ServedAppend(f, a[1..], b);
      if AllAccepted(f, a) {
        assert AcceptedOne(f, a[0]);
        assert AllAccepted(f, a[1..]) by {
          forall i | 0 <= i < |a| - 1 ensures AcceptedOne(f, a[1..][i]) { assert AcceptedOne(f, a[i + 1]); }
        }
        assert [a[0]] + (a[1..] + Served(f, b)) == a + Served(f, b);
      }
    }
  }

  lemma ServedWhole(f: string, ms: seq<string>)
    requires f != "" && AllAccepted(f, ms)
    ensures Served(f, ms) == ms
  {
    hide AllAccepted, AcceptedOne;
    ServedAppend(f, ms, []);
    assert ms + [] == ms && ms + Served(f, []) == ms by { ServedNothing(f); }
  }

  lemma ServedNothing(f: string)
    requires f != ""
    ensures Served(f, []) == []
  {
  }

  // ----- the state of a burst

  /** Connected and running, the thread waiting in recv. */
  ghost predicate Listening(c: Delimiters, s: System)
    requires GoodDelimiters(c)
  {
    match s.fatal
    case Some(_) => false
    case None => Inv(c, s) && s.g.state == CONNECTED && !s.g.halted && s.thread.Receiving?
  }

  /** Every queued message has its ForwardUp, and all of these come before every pending callback. */
  ghost predicate Burst(c: Delimiters, s: System)
    requires GoodDelimiters(c)
  {
    match s.fatal
    case Some(_) => false
    case None =>
      Listening(c, s) && NamedOnly(s) && (|Headers(c, s)| >= 2 ==> Unheld(s)) && Foremost(s.g.kernel.pending)
  }

  ghost predicate Foremost(p: seq<Entry>)
  {
    forall f, u :: f in p && u in p && f.event.ForwardUp? && KindOf(u.event) == Callback ==> f.id < u.id
  }

  /** Other models' later events are untouched. */
  ghost predicate LaterStay(s: System, u: System)
  {
    forall x :: x in s.g.kernel.pending && x.event.Other? && x.time > s.g.kernel.now ==> x in u.g.kernel.pending
  }

  /** u is s with the ForwardUp event t next, and nothing but wait events moved. */
  ghost predicate Facing(s: System, t: Entry, u: System)
  {
    u == s.(g := s.g.(kernel := u.g.kernel, eventWait := u.g.eventWait)) && u.g.kernel.now == s.g.kernel.now
    && t.event.ForwardUp? && t in u.g.kernel.pending && t.time == u.g.kernel.now && LaterStay(s, u)
  }

  /** With the thread back in recv, nothing stops the simulator from reaching the first ForwardUp. */
  lemma FirstForwardSteerable(c: Delimiters, s: System) returns (t: Entry)
    requires GoodDelimiters(c) && Inv(c, s) && s.fatal.None? && s.g.state == CONNECTED && !s.g.halted
    requires s.thread.Receiving? && s.g.queue != []
    ensures Steerable(s, t) && t.event.ForwardUp? && t.time == s.g.kernel.now
    ensures Foremost(s.g.kernel.pending) ==> NoneBefore(s, t, Callback)
  {
    hide Select, Without, Split, Parse, Accepted, Find, Framed;
    CoreOf(c, s);
    var q, p := Of(s, Forward), s.g.kernel.pending;
    t := q[0];
    assert t in q && t in p && NowOnly(t.event);
    IncreasingParts(p, 0, Forward);
    forall f | f in p && f.event.ForwardUp? ensures !Precedes(f, t) {
      assert f in q && NowOnly(f.event);
      var i :| 0 <= i < |q| && q[i] == f;
      assert Ordered(q, 0, i);
    }
    assert Of(s, Stopping) == [];
    assert forall f :: f in p && f.event.Stop? ==> f in Of(s, Stopping);
    assert Foremost(p) ==> forall u :: u in p && KindOf(u.event) == Callback ==> t.id < u.id;
  }

  /** The simulator alone gets to the next ForwardUp. */
  lemma FaceForward(c: Delimiters, s: System) returns (run: seq<Action>, t: Entry)
    requires GoodDelimiters(c) && Burst(c, s) && s.g.queue != []
    ensures Feasible(c, s, run) && forall a :: a in run ==> a.Execute?
    ensures var u := End(c, s, run); Burst(c, u) && Facing(s, t, u) && Enabled(c, u, Execute(t))
  {
    hide Select, Without, Split, Parse, Accepted, Find, Core, Framed, Feasible, End;
    t := FirstForwardSteerable(c, s);
    CoreOf(c, s);
    run := Steer(c, s, t);
    RunKeeps(c, s, run);
    FacedBurst(c, s, t, End(c, s, run));
  }

  lemma FacedBurst(c: Delimiters, s: System, t: Entry, u: System)
    requires GoodDelimiters(c) && Burst(c, s) && Steered(s, t, u) && NoneBefore(s, t, Callback) && Inv(c, u)
    requires t.event.ForwardUp? && t.time == s.g.kernel.now
    ensures Burst(c, u) && Facing(s, t, u)
  {
    hide Select, Without, Split, Parse, Accepted, Find, Core, Framed;
  }

  // ----- the next message is accepted

  /** The message's grant is not in the past. */
  predicate InTime(c: Delimiters, s: System, h: Header)
    requires GoodDelimiters(c)
  {
    Headers(c, s) != [] ==> h.stamp - Headers(c, s)[0].stamp >= s.g.kernel.now
  }

  lemma ForwardedPending(g: Gw, h: Header, t: Gw)
    requires MessageEffect(g, h) == Ok(t) && h.stamp >= 0
    ensures forall x :: x in t.kernel.pending ==>
              x in g.kernel.pending || (x.id == g.kernel.nextId && KindOf(x.event) == Callback)
    ensures BranchOf(g, h).Normal? ==>
              forall x :: x in t.kernel.pending && x.event.WaitForNextUpdate? ==> x.id != g.eventWait
    ensures forall x :: x in g.kernel.pending && x.id != g.eventWait ==> x in t.kernel.pending
    ensures t.state == g.state && t.halted == g.halted && t.eventWait == g.eventWait && t.kernel.now == g.kernel.now
  {
    hide Without;
  }

  lemma StartedIff(c: Delimiters, s: System)
    requires GoodDelimiters(c) && Core(c, s) && s.fatal.None?
    ensures s.g.timeStart < 0 <==> Headers(c, s) == []
    ensures Headers(c, s) != [] ==> s.g.timeStart == Headers(c, s)[0].stamp
  {
    hide Select, Accepted, Split;
  }

  lemma AcceptFaced(c: Delimiters, s: System, t: Entry)
    requires GoodDelimiters(c) && Burst(c, s) && s.g.queue != [] && Enabled(c, s, Execute(t)) && Facing(s, t, s)
    requires AcceptedOne(c.f, s.g.queue[0]) && InTime(c, s, Parse(s.g.queue[0], c.f).value)
    ensures var v := Apply(c, s, Execute(t));
            Burst(c, v) && v == s.(g := v.g, popped := s.popped + [s.g.queue[0]]) && v.g.queue == s.g.queue[1..]
            && v.g.kernel.now == s.g.kernel.now && LaterStay(s, v)
  {
    hide Select, Without, Split, Parse, Accepted, Find, Core, Framed;
    var h, g := Parse(s.g.queue[0], c.f).value, s.g.(kernel := s.g.kernel.Take(t), queue := s.g.queue[1..]);
    StepKeeps(c, s, Execute(t));
    CoreOf(c, s);
    StartedIff(c, s);
    CoreValid(c, s);
    UniqueIds(s.g.kernel);
    ForwardFacts(c, s, t, h);
    ForwardedPending(g, h, Apply(c, s, Execute(t)).g);
    AcceptedBurst(c, s, t, h, g, Apply(c, s, Execute(t)));
  }

  lemma AcceptedBurst(c: Delimiters, s: System, t: Entry, h: Header, g: Gw, v: System)
    requires GoodDelimiters(c) && Burst(c, s) && g == s.g.(kernel := s.g.kernel.Take(t), queue := g.queue) && Inv(c, v)
    requires v == s.(g := v.g, popped := v.popped) && Headers(c, v) == Headers(c, s) + [h]
    requires s.g.timeStart < 0 <==> Headers(c, s) == []
    requires h.stamp >= 0 && v.g.state == g.state && v.g.halted == g.halted && v.g.eventWait == g.eventWait
    requires forall x :: x in v.g.kernel.pending ==>
               x in g.kernel.pending || (x.id == g.kernel.nextId && KindOf(x.event) == Callback)
    requires BranchOf(g, h).Normal? ==>
               forall x :: x in v.g.kernel.pending && x.event.WaitForNextUpdate? ==> x.id != g.eventWait
    ensures Burst(c, v)
  {
    hide Select, Without, Split, Parse, Accepted, Find, ControlInv, Framed;
    CoreOf(c, s);
    assert forall x :: x in g.kernel.pending ==> x in s.g.kernel.pending && x.id < s.g.kernel.nextId;
  }

  /** The simulator processes one message of the burst. */
  lemma AcceptNext(c: Delimiters, s: System) returns (run: seq<Action>)
    requires GoodDelimiters(c) && Burst(c, s) && s.g.queue != []
    requires AcceptedOne(c.f, s.g.queue[0]) && InTime(c, s, Parse(s.g.queue[0], c.f).value)
    ensures Feasible(c, s, run) && forall a :: a in run ==> a.Execute?
    ensures Processed(c, s, 1, End(c, s, run))
  {
    hide Parse, Accepted, Burst, Enabled, Apply;
    var t;
    run, t := FaceForward(c, s);
    var u := End(c, s, run);
    AcceptFaced(c, u, t);
    RunOne(c, u, Execute(t));
    RunsCompose(c, s, run, [Execute(t)]);
    run := run + [Execute(t)];
    assert s.g.queue[..1] == [s.g.queue[0]];
  }

  /** v is s after its first k queued messages. */
  ghost predicate Processed(c: Delimiters, s: System, k: nat, v: System)
    requires GoodDelimiters(c)
  {
    k <= |s.g.queue| && Burst(c, v) && v.g.kernel.now == s.g.kernel.now && LaterStay(s, v)
    && v == s.(g := v.g, popped := s.popped + s.g.queue[..k]) && v.g.queue == s.g.queue[k..]
  }

  /** The first k queued messages are accepted in turn when none of their grants is in the past. */
  lemma {:induction false} AcceptMany(c: Delimiters, s: System, k: nat) returns (run: seq<Action>)
    requires GoodDelimiters(c) && Burst(c, s) && k <= |s.g.queue| && AllAccepted(c.f, s.popped + s.g.queue[..k])
    requires InTimeFrom(Accepted(c.f, s.popped + s.g.queue[..k]), s.g.kernel.now)
    ensures Feasible(c, s, run) && forall a :: a in run ==> a.Execute?
    ensures Processed(c, s, k, End(c, s, run))
    decreases k
  {
    hide Parse, Accepted, Burst, AcceptedOne, Apply, Enabled;
    if k == 0 {
      run := [];
      assert s.popped + s.g.queue[..0] == s.popped;
    } else {
      var all := s.popped + s.g.queue[..k];
      NextInTime(c, s, k);
      var first := AcceptNext(c, s);
      var u := End(c, s, first);
      assert u.popped + u.g.queue[..k - 1] == all;
      run := AcceptMany(c, u, k - 1);
      RunsCompose(c, s, first, run);
      assert s.g.queue[..1] + s.g.queue[1..][..k - 1] == s.g.queue[..k];
      run := first + run;
    }
  }

  /** No grant after the first message is before now. */
  ghost predicate InTimeFrom(hs: seq<Header>, now: int)
  {
    forall i :: 1 <= i < |hs| ==> hs[i].stamp - hs[0].stamp >= now
  }

  /** No grant from the k-th message on is before now. */
  ghost predicate InTimeAfter(hs: seq<Header>, k: nat, now: int)
  {
    forall i :: 1 <= i < |hs| && k <= i ==> hs[i].stamp - hs[0].stamp >= now
  }

  lemma NextInTime(c: Delimiters, s: System, k: nat)
    requires GoodDelimiters(c) && 0 < k <= |s.g.queue| && AllAccepted(c.f, s.popped + s.g.queue[..k])
    requires InTimeAfter(Accepted(c.f, s.popped + s.g.queue[..k]), |s.popped|, s.g.kernel.now)
    ensures AcceptedOne(c.f, s.g.queue[0]) && InTime(c, s, Parse(s.g.queue[0], c.f).value)
  {
    hide Parse, Accepted;
    var all, n := s.popped + s.g.queue[..k], |s.popped|;
    assert all[n] == s.g.queue[0] && AcceptedOne(c.f, all[n]);
    AcceptedAll(c.f, all);
    assert AllAccepted(c.f, s.popped) by {
      forall i | 0 <= i < n ensures AcceptedOne(c.f, s.popped[i]) { assert AcceptedOne(c.f, all[i]); }
    }
    AcceptedAll(c.f, s.popped);
    if n > 0 { assert all[0] == s.popped[0]; }
  }

  // ----- the next message ends the program

  /** The simulator alone gets to the error of a message whose header is invalid or whose grant is past. */
  lemma FailNext(c: Delimiters, s: System) returns (run: seq<Action>)
    requires GoodDelimiters(c) && Listening(c, s) && s.g.queue != []
    requires var next := Parse(s.g.queue[0], c.f); next.Some? ==> next.value.stamp >= 0 && !InTime(c, s, next.value)
    ensures Feasible(c, s, run) && forall a :: a in run ==> a.Execute?
    ensures Of(s, Callback) == [] ==> forall a :: a in run ==> KindOf(a.e.event) != Callback
    ensures End(c, s, run).fatal
         == Some(if Parse(s.g.queue[0], c.f).None? then BadHeader else TimestampsNotIncreasing)
    ensures End(c, s, run).received == s.received
  {
    hide Parse, Accepted, Feasible, End, Select, Without, Split, Core, Framed, NamedOnly, Unheld;
    var t := FirstForwardSteerable(c, s);
    CoreOf(c, s);
    if Of(s, Callback) == [] { NoCallbackPending(s, t); }
    run := Steer(c, s, t);
    var u := End(c, s, run);
    StartedIff(c, u);
    ForwardCases(c, u, t);
    RunOne(c, u, Execute(t));
    RunsCompose(c, s, run, [Execute(t)]);
    SameBytes(c, u, Execute(t));
    run := run + [Execute(t)];
  }

  lemma NoCallbackPending(s: System, t: Entry)
    requires Of(s, Callback) == []
    ensures NoneBefore(s, t, Callback)
  {
    hide Select;
    assert forall u :: u in s.g.kernel.pending && KindOf(u.event) == Callback ==> u in Of(s, Callback);
  }

  lemma SameBytes(c: Delimiters, s: System, a: Action)
    requires GoodDelimiters(c) && !a.Receive?
    ensures Apply(c, s, a).received == s.received
  {
    hide Parse, Select, Without, Split, Find;
  }

  // ----- from Connect

  lemma {:induction false} ForwardsPending(k: Kernel, n: nat)
    ensures forall x :: x in ScheduleForwards(k, n).pending <==>
              x in k.pending || (x.event.ForwardUp? && x.time == k.now && k.nextId <= x.id < k.nextId + n)
    ensures ScheduleForwards(k, n).now == k.now && ScheduleForwards(k, n).nextId == k.nextId + n
  {
    if n > 0 {
      ForwardsPending(k, n - 1);
    }
  }

  /** Connected, and nothing has happened yet but other models' doings. */
  ghost predicate Fresh(c: Delimiters, s: System)
    requires GoodDelimiters(c)
  {
    match s.fatal
    case Some(_) => false
    case None =>
      Inv(c, s) && s.g.state == CONNECTED && !s.g.halted && s.thread.AtTop? && s.g.buffer == "" && s.g.queue == []
      && s.received == "" && s.popped == [] && s.delivered == [] && s.g.kernel.now == s.start && NamedOnly(s)
      && forall x :: x in s.g.kernel.pending ==> KindOf(x.event) != Callback && !x.event.ForwardUp?
  }

  lemma InitialFresh(c: Delimiters, s0: System)
    requires GoodDelimiters(c) && Initial(s0)
    ensures Fresh(c, s0)
  {
    hide Split, Find, Select, Without, Core, Framed;
    InitialInv(c, s0);
    var l := LanesOf(s0.g.kernel.pending);
    forall x | x in s0.g.kernel.pending && x.event.WaitForNextUpdate? ensures x.id == s0.g.eventWait {
      assert x in l.waits;
    }
    forall x | x in s0.g.kernel.pending ensures KindOf(x.event) != Callback && !x.event.ForwardUp? {
      assert KindOf(x.event) == Callback ==> x in l.callbacks;
      assert x.event.ForwardUp? ==> x in l.forwards;
    }
  }

  /** The thread takes the whole stream before the simulator moves. */
  lemma TakeStream(c: Delimiters, s0: System, w: string) returns (run: seq<Action>)
    requires GoodDelimiters(c) && Fresh(c, s0)
    ensures Feasible(c, s0, run) && forall a :: a in run ==> OfThread(a)
    ensures var s := End(c, s0, run);
            Burst(c, s) && s.received == w && s.popped == [] && s.delivered == []
            && s.start == s0.start == s.g.kernel.now
            && s.g.queue == Messages(w, c.m) && s.thread == Receiving(Remainder(w, c.m))
            && forall x :: x in s0.g.kernel.pending ==> x in s.g.kernel.pending
  {
    hide Split, Find, Select, Without, Feasible, End, ScheduleForwards, Core, Framed;
    run := ThreadAlone(c, s0, Bytes(w));
    var s := End(c, s0, run);
    ReceivedBytes(w);
    RunKeeps(c, s0, run);
    assert "" + w == w && [] + Messages(w, c.m) == Messages(w, c.m);
    ForwardsPending(s0.g.kernel, |Messages(w, c.m)|);
    TakenBurst(c, s0, s);
  }

  lemma TakenBurst(c: Delimiters, s0: System, s: System)
    requires GoodDelimiters(c) && Fresh(c, s0) && Inv(c, s) && s.fatal.None? && s.thread.Receiving? && s.popped == []
    requires s.g.state == CONNECTED && !s.g.halted && s.g.eventWait == s0.g.eventWait
    requires forall x :: x in s.g.kernel.pending ==> x in s0.g.kernel.pending || x.event.ForwardUp?
    ensures Burst(c, s)
  {
    hide Split, Find, Select, Without, Core, Framed, Parse;
  }

  /** The first k messages of a stream forwarded at the instant of Connect. */
  lemma BurstOf(c: Delimiters, s0: System, w: string, k: nat) returns (run: seq<Action>)
    requires GoodDelimiters(c) && Fresh(c, s0) && k <= |Messages(w, c.m)| && AllAccepted(c.f, Messages(w, c.m)[..k])
    requires InTimeFrom(Accepted(c.f, Messages(w, c.m)[..k]), s0.start)
    ensures Feasible(c, s0, run)
    ensures var s := End(c, s0, run);
            Burst(c, s) && s.received == w && s.delivered == [] && s.start == s0.start == s.g.kernel.now
            && s.popped == Messages(w, c.m)[..k] && s.g.queue == Messages(w, c.m)[k..]
            && s.thread == Receiving(Remainder(w, c.m))
            && forall x :: x in s0.g.kernel.pending && x.event.Other? && x.time > s0.start ==> x in s.g.kernel.pending
  {
    hide Split, Find, Select, Without, Feasible, End, Burst, Fresh, Accepted, Parse, InTimeFrom, AllAccepted;
    var ms := Messages(w, c.m);
    run := TakeStream(c, s0, w);
    var u := End(c, s0, run);
    assert [] + ms[..k] == ms[..k];
    var more := AcceptMany(c, u, k);
    RunsCompose(c, s0, run, more);
    run := run + more;
  }
}
