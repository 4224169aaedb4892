/** Every action of every interleaving keeps the base invariant. One lemma per kernel operation,
    then one per action. */
module GatewayInvariants {
  import opened Words
  import opened Numbers
  import opened Events
  import opened GatewayEffects
  import opened GatewayRuns

  // ----- kernel operations

  lemma TakenFacts(k: Kernel, eventWait: nat, e: Entry)
    requires KernelInv(k, eventWait) && k.IsNext(e)
    ensures KernelInv(k.Take(e), eventWait) && k.now <= e.time
    ensures NowOnly(e.event) ==> e.time == k.now
  {
    TakeSelect(k, e);
  }

  lemma InsertedFacts(k: Kernel, eventWait: nat, delay: int, event: Event)
    requires KernelInv(k, eventWait) && delay >= 0 && (NowOnly(event) ==> delay == 0)
    ensures KernelInv(k.Schedule(delay, event), eventWait)
    ensures event.WaitForNextUpdate? ==> KernelInv(k.Schedule(delay, event), k.nextId)
  {
    hide Select;
    ScheduleSelect(k, delay, event);
  }

  lemma CancelledFacts(k: Kernel, eventWait: nat)
    requires KernelInv(k, eventWait)
    ensures KernelInv(k.Cancel(eventWait), eventWait)
  {
    CancelSelect(k, eventWait, Wait);
  }

  // ----- the receive thread

  lemma FrameReceive(m: string, popped: seq<string>, queue: seq<string>, data: string, received: string, chunk: string)
    requires m != "" && Find(data, m).None? && FrameInv(m, popped, queue, data, received)
    ensures FrameInv(m, popped, queue, data + chunk, received + chunk)
  {
    assert Split(data, m) == [data];
    assert Init(Split(received, m)) == popped + queue && Last(Split(received, m)) == data;
    SplitAppend(received, chunk, m);
  }

  lemma FrameTake(m: string, popped: seq<string>, queue: seq<string>, data: string, received: string)
    requires m != "" && Find(data, m).Some? && FrameInv(m, popped, queue, data, received)
    ensures var i := Find(data, m).value; FrameInv(m, popped, queue + [data[..i]], data[i + |m|..], received)
  {
    var i := Find(data, m).value;
    var a, x, b := popped + queue, data[..i], Split(data[i + |m|..], m);
    assert popped + (queue + [x]) + b == a + ([x] + b);
  }

  ghost predicate Framed(c: Delimiters, s: System)
    requires GoodDelimiters(c)
  {
    FrameInv(c.m, s.popped, s.g.queue, Unframed(s), s.received)
  }

  lemma FramePop(m: string, popped: seq<string>, queue: seq<string>, unframed: string, received: string)
    requires m != "" && queue != [] && FrameInv(m, popped, queue, unframed, received)
    ensures FrameInv(m, popped + [queue[0]], queue[1..], unframed, received)
  {
    assert popped + [queue[0]] + queue[1..] == popped + queue;
  }

  /** The actions that touch no byte and no message. */
  predicate Silent(a: Action)
  {
    !a.Receive? && !a.Take? && !(a.Execute? && a.e.event.ForwardUp?)
  }

  lemma SilentKeepsWords(c: Delimiters, s: System, a: Action)
    requires GoodDelimiters(c) && Enabled(c, s, a) && Silent(a)
    ensures var t := Apply(c, s, a);
            t.popped == s.popped && t.g.queue == s.g.queue && Unframed(t) == Unframed(s) && t.received == s.received
  {
  }

  lemma ForwardPops(c: Delimiters, s: System, a: Action)
    requires GoodDelimiters(c) && Enabled(c, s, a) && a.Execute? && a.e.event.ForwardUp?
    requires Apply(c, s, a).fatal.None?
    ensures var t := Apply(c, s, a);
            s.g.queue != [] && t.popped == s.popped + [s.g.queue[0]] && t.g.queue == s.g.queue[1..]
            && Unframed(t) == Unframed(s) && t.received == s.received
  {
  }

  lemma FrameKeeps(c: Delimiters, s: System, a: Action)
    requires GoodDelimiters(c) && Framed(c, s) && Enabled(c, s, a) && Apply(c, s, a).fatal.None?
    ensures Framed(c, Apply(c, s, a))
  {
    hide Split, Find, Parse, FrameInv, Without, WaitEffect, StopEffect, UpdateEffect;
    if a.Receive? {
      FrameReceive(c.m, s.popped, s.g.queue, s.thread.data, s.received, a.chunk);
    } else if a.Take? {
      FrameTake(c.m, s.popped, s.g.queue, s.thread.data, s.received);
    } else if Silent(a) {
      SilentKeepsWords(c, s, a);
    } else {
      ForwardPops(c, s, a);
      FramePop(c.m, s.popped, s.g.queue, Unframed(s), s.received);
    }
  }

  // ----- the control part of the invariant, action by action

  lemma CheckControl(c: Delimiters, s: System, l: Lanes)
    requires GoodDelimiters(c) && ControlInv(c, s, l) && Enabled(c, s, Check)
    ensures ControlInv(c, Apply(c, s, Check), l)
  {
  }

  lemma ReceiveControl(c: Delimiters, s: System, chunk: string, l: Lanes)
    requires GoodDelimiters(c) && ControlInv(c, s, l) && Enabled(c, s, Receive(chunk))
    ensures ControlInv(c, Apply(c, s, Receive(chunk)), l)
  {
  }

  lemma TakeControl(c: Delimiters, s: System, l: Lanes)
    requires GoodDelimiters(c) && ControlInv(c, s, l) && Enabled(c, s, Take)
    ensures ControlInv(c, Apply(c, s, Take), l)
  {
  }

  lemma CloseControl(c: Delimiters, s: System, l: Lanes)
    requires GoodDelimiters(c) && ControlInv(c, s, l) && Enabled(c, s, Close)
    requires forall e :: e in l.forwards ==> e.id < s.g.kernel.nextId
    ensures ControlInv(c, Apply(c, s, Close), l.(stops := l.stops + [Entry(s.g.kernel.nextId, s.g.kernel.now, Stop)]))
  {
  }

  lemma ScheduleForwardControl(c: Delimiters, s: System, l: Lanes)
    requires GoodDelimiters(c) && ControlInv(c, s, l) && Enabled(c, s, ScheduleForward)
    ensures ControlInv(c, Apply(c, s, ScheduleForward),
                       l.(forwards := l.forwards + [Entry(s.g.kernel.nextId, s.g.kernel.now, ForwardUp)]))
  {
  }

  lemma HaltControl(c: Delimiters, s: System, l: Lanes)
    requires GoodDelimiters(c) && ControlInv(c, s, l)
    ensures ControlInv(c, Apply(c, s, Halt), l)
  {
  }

  lemma SpawnControl(c: Delimiters, s: System, time: int, l: Lanes)
    requires GoodDelimiters(c) && ControlInv(c, s, l)
    ensures ControlInv(c, Apply(c, s, Spawn(time)), l)
  {
  }

  /** No event can run past the horizon while the gateway is connected. */
  lemma NextWithinHorizon(k: Kernel, eventWait: nat, e: Entry, state: State, start: int, hs: seq<Header>,
                          timePause: int, l: Lanes)
    requires KernelInv(k, eventWait) && k.IsNext(e) && l == LanesOf(k.pending)
    requires GrantInv(state, k.now, start, hs, timePause, l.waits, l.callbacks) && state == CONNECTED
    ensures k.now <= e.time <= Horizon(hs, start, timePause)
    ensures e.time > k.now ==> l.waits == []
  {
    if l.waits != [] {
      var w := l.waits[0];
      assert w in l.waits && w in k.pending;
    } else {
      var u :| u in l.callbacks && u.event.HandleUpdate? && u.time == timePause;
      assert u in k.pending;
    }
  }

  lemma WaitControl(c: Delimiters, s: System, e: Entry, l: Lanes, waits: seq<Entry>)
    requires GoodDelimiters(c) && ControlInv(c, s, l) && e.event.WaitForNextUpdate? && e.time == s.g.kernel.now
    requires s.g.state == CONNECTED ==> waits != []
    ensures ControlInv(c, Apply(c, s, Execute(e)), l.(waits := waits))
  {
  }

  lemma StopControl(c: Delimiters, s: System, e: Entry, l: Lanes, waits: seq<Entry>)
    requires GoodDelimiters(c) && ControlInv(c, s, l) && e.event.Stop? && e.time == s.g.kernel.now
    requires l.forwards == [] && s.g.state == CONNECTED && s.thread.Exited?
    ensures ControlInv(c, Apply(c, s, Execute(e)), l.(stops := [], waits := waits))
  {
  }

  lemma DestroyControl(c: Delimiters, s: System, l: Lanes, waits: seq<Entry>)
    requires GoodDelimiters(c) && ControlInv(c, s, l) && Enabled(c, s, Destroy)
    ensures ControlInv(c, Apply(c, s, Destroy), l.(waits := waits))
  {
  }

  lemma InitializeControl(c: Delimiters, s: System, e: Entry, l: Lanes, callbacks: seq<Entry>)
    requires GoodDelimiters(c) && ControlInv(c, s, l) && e.event.DoInitialize? && e.time == s.g.kernel.now
    requires forall u :: u in callbacks <==> u in l.callbacks && u != e
    ensures ControlInv(c, Apply(c, s, Execute(e)), l.(callbacks := callbacks))
  {
  }

  lemma OtherControl(c: Delimiters, s: System, e: Entry, l: Lanes)
    requires GoodDelimiters(c) && ControlInv(c, s, l) && KindOf(e.event) in {Request, Packet, Foreign}
    requires s.g.kernel.now <= e.time
    requires s.g.state == CONNECTED ==> e.time <= Horizon(Headers(c, s), s.start, s.g.timePause)
    ensures ControlInv(c, Apply(c, s, Execute(e)), l)
  {
  }

  lemma UpdateControl(c: Delimiters, s: System, e: Entry, l: Lanes, callbacks: seq<Entry>, waits: seq<Entry>)
    requires GoodDelimiters(c) && ControlInv(c, s, l) && e.event.HandleUpdate? && e in l.callbacks
    requires s.g.kernel.now <= e.time
    requires s.g.state == CONNECTED ==> e.time <= Horizon(Headers(c, s), s.start, s.g.timePause)
    requires forall u :: u in callbacks <==> u in l.callbacks && u != e
    requires if e.time == s.g.timePause then waits != [] else waits == l.waits
    ensures ControlInv(c, Apply(c, s, Execute(e)), l.(callbacks := callbacks, waits := waits))
  {
  }

  /** The header of the message the next ForwardUp takes. */
  function NextHeader(c: Delimiters, s: System): Option<Header>
    requires GoodDelimiters(c)
  {
    if s.g.queue == [] then None else Parse(s.g.queue[0], c.f)
  }

  /** ForwardUp on the terminate message, on the first message, on a normal message. */
  datatype Branch = Terminate | First | Normal

  function BranchOf(g: Gw, h: Header): Branch
  {
    if h.stamp < 0 then Terminate else if g.timeStart < 0 then First else Normal
  }

  lemma AcceptedAppend(f: string, ms: seq<string>, msg: string)
    requires f != ""
    ensures Accepted(f, ms + [msg])
         == match Parse(msg, f)
            case None => Accepted(f, ms)
            case Some(h) => if h.stamp < 0 then Accepted(f, ms) else Accepted(f, ms) + [h]
  {
    assert Init(ms + [msg]) == ms;
  }

  lemma ForwardApplies(c: Delimiters, s: System, e: Entry, h: Header)
    requires GoodDelimiters(c) && e.event.ForwardUp? && NextHeader(c, s) == Some(h)
    ensures var g := s.g.(kernel := s.g.kernel.Take(e));
            Apply(c, s, Execute(e)) ==
              match MessageEffect(g.(queue := s.g.queue[1..]), h)
              case Failed(error) => s.(g := g, fatal := Some(error))
              case Ok(g') => s.(g := g', popped := s.popped + [s.g.queue[0]])
  {
  }

  lemma ForwardFacts(c: Delimiters, s: System, e: Entry, h: Header)
    requires GoodDelimiters(c) && e.event.ForwardUp? && NextHeader(c, s) == Some(h)
    requires BranchOf(s.g, h).Normal? ==> h.stamp - s.g.timeStart >= e.time
    ensures var t := Apply(c, s, Execute(e));
            MessageEffect(s.g.(kernel := s.g.kernel.Take(e), queue := s.g.queue[1..]), h) == Ok(t.g)
            && t == s.(g := t.g, popped := s.popped + [s.g.queue[0]])
            && Headers(c, t) == Headers(c, s) + if h.stamp < 0 then [] else [h]
  {
    ForwardApplies(c, s, e, h);
    AcceptedAppend(c.f, s.popped, s.g.queue[0]);
  }

  lemma TerminateControl(c: Delimiters, s: System, e: Entry, h: Header, l: Lanes, forwards: seq<Entry>)
    requires GoodDelimiters(c) && ControlInv(c, s, l) && e.event.ForwardUp? && e.time == s.g.kernel.now
    requires s.g.state == CONNECTED && NextHeader(c, s) == Some(h) && BranchOf(s.g, h).Terminate?
    requires |forwards| == |l.forwards| - 1 && forall u :: u in forwards ==> u in l.forwards
    ensures ControlInv(c, Apply(c, s, Execute(e)), l.(forwards := forwards))
  {
    hide Accepted, Parse, Split, Find;
    ForwardFacts(c, s, e, h);
  }

  lemma FirstControl(c: Delimiters, s: System, e: Entry, h: Header, l: Lanes, forwards: seq<Entry>)
    requires GoodDelimiters(c) && ControlInv(c, s, l) && e.event.ForwardUp? && e.time == s.g.kernel.now
    requires s.g.state == CONNECTED && NextHeader(c, s) == Some(h) && BranchOf(s.g, h).First?
    requires |forwards| == |l.forwards| - 1 && forall u :: u in forwards ==> u in l.forwards
    ensures ControlInv(c, Apply(c, s, Execute(e)), l.(forwards := forwards,
                       callbacks := l.callbacks + [Entry(s.g.kernel.nextId, e.time, DoInitialize(h.values))]))
  {
    hide Accepted, Parse, Split, Find;
    ForwardFacts(c, s, e, h);
  }

  /** What a normal message leaves of the gateway's fields. */
  lemma NormalFields(g: Gw, h: Header, t: Gw)
    requires BranchOf(g, h).Normal? && MessageEffect(g, h) == Ok(t)
    ensures t == g.(kernel := t.kernel, timePause := h.stamp - g.timeStart) && t.kernel.now == g.kernel.now
  {
    hide Without;
  }

  lemma NormalHeader(hs: seq<Header>, h: Header, timeStart: int, timePause: int)
    requires HeaderInv(hs, timeStart, timePause) && h.stamp >= 0 && timeStart >= 0
    ensures hs != [] && HeaderInv(hs + [h], timeStart, h.stamp - timeStart)
  {
  }

  lemma NormalGrant(now: int, start: int, hs: seq<Header>, h: Header, timePause: int, waits: seq<Entry>,
                    callbacks: seq<Entry>, waits': seq<Entry>, u: Entry)
    requires GrantInv(CONNECTED, now, start, hs, timePause, waits, callbacks) && hs != []
    requires u.event.HandleUpdate? && u.time >= now
    ensures GrantInv(CONNECTED, now, start, hs + [h], u.time, waits', callbacks + [u])
  {
    assert u in callbacks + [u];
  }

  lemma ForwardStop(m: string, g: Gw, t: Gw, thread: Thread, forwards: seq<Entry>, left: seq<Entry>, stops: seq<Entry>)
    requires StopInv(m, g, thread, forwards, stops) && g.state == CONNECTED && forall u :: u in left ==> u in forwards
    requires t.state == g.state && t.destroyPending == g.destroyPending && t.closes == g.closes && t.halted == g.halted
    ensures StopInv(m, t, thread, left, stops)
  {
    hide Find;
  }

  lemma NormalControl(c: Delimiters, s: System, e: Entry, h: Header, l: Lanes, forwards: seq<Entry>, waits: seq<Entry>)
    requires GoodDelimiters(c) && ControlInv(c, s, l) && s.fatal.None?
    requires e.event.ForwardUp? && e.time == s.g.kernel.now
    requires s.g.state == CONNECTED && NextHeader(c, s) == Some(h) && BranchOf(s.g, h).Normal?
    requires h.stamp - s.g.timeStart >= e.time
    requires |forwards| == |l.forwards| - 1 && forall u :: u in forwards ==> u in l.forwards
    ensures ControlInv(c, Apply(c, s, Execute(e)), l.(forwards := forwards, waits := waits,
                       callbacks := l.callbacks
                         + [Entry(s.g.kernel.nextId, h.stamp - s.g.timeStart, HandleUpdate(h.values))]))
  {
    hide Accepted, Parse, Split, Find, Apply, MessageEffect, StopInv, HeaderInv, GrantInv;
    var hs, t := Headers(c, s), Apply(c, s, Execute(e));
    var u := Entry(s.g.kernel.nextId, h.stamp - s.g.timeStart, HandleUpdate(h.values));
    ForwardFacts(c, s, e, h);
    NormalFields(s.g.(kernel := s.g.kernel.Take(e), queue := s.g.queue[1..]), h, t.g);
    NormalHeader(hs, h, s.g.timeStart, s.g.timePause);
    NormalGrant(s.g.kernel.now, s.start, hs, h, s.g.timePause, l.waits, l.callbacks, waits, u);
    ForwardStop(c.m, s.g, t.g, s.thread, l.forwards, forwards, l.stops);
  }

  // ----- the lanes after each kernel operation

  function Drop(l: Lanes, e: Entry): Lanes
  {
    match KindOf(e.event)
    case Wait => l.(waits := Without(l.waits, e.id))
    case Forward => l.(forwards := Without(l.forwards, e.id))
    case Stopping => l.(stops := Without(l.stops, e.id))
    case Callback => l.(callbacks := Without(l.callbacks, e.id))
    case _ => l
  }

  function Add(l: Lanes, e: Entry): Lanes
  {
    match KindOf(e.event)
    case Wait => l.(waits := l.waits + [e])
    case Forward => l.(forwards := l.forwards + [e])
    case Stopping => l.(stops := l.stops + [e])
    case Callback => l.(callbacks := l.callbacks + [e])
    case _ => l
  }

  lemma LanesTake(k: Kernel, e: Entry)
    requires k.Valid() && k.IsNext(e)
    ensures LanesOf(k.Take(e).pending) == Drop(LanesOf(k.pending), e)
  {
    TakeSelect(k, e);
  }

  lemma LanesSchedule(k: Kernel, delay: int, event: Event)
    requires k.Valid() && delay >= 0
    ensures LanesOf(k.Schedule(delay, event).pending) == Add(LanesOf(k.pending), Entry(k.nextId, k.now + delay, event))
  {
    ScheduleSelect(k, delay, event);
  }

  lemma LanesCancel(k: Kernel, eventWait: nat)
    requires KernelInv(k, eventWait)
    ensures var l := LanesOf(k.pending);
            LanesOf(k.Cancel(eventWait).pending) == l.(waits := Without(l.waits, eventWait))
    ensures !k.IsPending(eventWait) ==> k.Cancel(eventWait) == k
  {
    CancelSelect(k, eventWait, Wait);
  }

  /** What is left of a lane when one of its events is taken. */
  lemma LaneLeft(k: Kernel, e: Entry, kind: Kind)
    requires k.Valid() && e in k.pending && KindOf(e.event) == kind
    ensures e in Select(k.pending, kind)
    ensures |Without(Select(k.pending, kind), e.id)| == |Select(k.pending, kind)| - 1
    ensures forall u :: u in Without(Select(k.pending, kind), e.id) <==> u in Select(k.pending, kind) && u != e
  {
    var q := Select(k.pending, kind);
    IncreasingParts(k.pending, e.id, kind);
    assert e in q;
    WithoutShrinks(q, e);
    forall u | u in q && u.id == e.id ensures u == e { SameEntry(q, u, e); }
  }

  // ----- kernel and control together, event by event

  ghost predicate Core(c: Delimiters, s: System)
    requires GoodDelimiters(c)
  {
    match s.fatal
    case Some(_) => true
    case None => KernelInv(s.g.kernel, s.g.eventWait) && ControlInv(c, s, LanesOf(s.g.kernel.pending))
  }

  /** The start of every event: the clock moves, within the horizon, and the event leaves its lane. */
  lemma Begin(c: Delimiters, s: System, e: Entry)
    requires GoodDelimiters(c) && Core(c, s) && s.fatal.None? && s.g.kernel.IsNext(e)
    ensures KernelInv(s.g.kernel.Take(e), s.g.eventWait)
    ensures s.g.kernel.now <= e.time && (NowOnly(e.event) ==> e.time == s.g.kernel.now)
    ensures s.g.state == CONNECTED ==> e.time <= Horizon(Headers(c, s), s.start, s.g.timePause)
    ensures LanesOf(s.g.kernel.Take(e).pending) == Drop(LanesOf(s.g.kernel.pending), e)
  {
    hide Select, Without;
    var l := LanesOf(s.g.kernel.pending);
    TakenFacts(s.g.kernel, s.g.eventWait, e);
    LanesTake(s.g.kernel, e);
    if s.g.state == CONNECTED {
      NextWithinHorizon(s.g.kernel, s.g.eventWait, e, s.g.state, s.start, Headers(c, s), s.g.timePause, l);
    }
  }

  /** The kernel part of a gateway is in order, and these are its lanes. */
  ghost predicate Lands(g: Gw, l: Lanes)
  {
    KernelInv(g.kernel, g.eventWait) && LanesOf(g.kernel.pending) == l
  }

  lemma CancelLands(g: Gw, l: Lanes)
    requires Lands(g, l)
    ensures var t := CancelWait(g);
            Lands(t, l.(waits := Without(l.waits, g.eventWait)))
            && t == g.(kernel := t.kernel) && t.kernel.now == g.kernel.now && t.kernel.nextId == g.kernel.nextId
  {
    hide Select, Without;
    CancelledFacts(g.kernel, g.eventWait);
    LanesCancel(g.kernel, g.eventWait);
  }

  lemma InsertLands(g: Gw, l: Lanes, delay: int, event: Event)
    requires Lands(g, l) && delay >= 0 && (NowOnly(event) ==> delay == 0)
    ensures Lands(g.(kernel := g.kernel.Schedule(delay, event)),
                  Add(l, Entry(g.kernel.nextId, g.kernel.now + delay, event)))
  {
    hide Select, Without;
    InsertedFacts(g.kernel, g.eventWait, delay, event);
    LanesSchedule(g.kernel, delay, event);
  }

  lemma ScheduleWaitLands(g: Gw, l: Lanes)
    requires Lands(g, l)
    ensures Lands(ScheduleWait(g), l.(waits := l.waits + [Entry(g.kernel.nextId, g.kernel.now, WaitForNextUpdate)]))
  {
    hide Select, Without;
    InsertedFacts(g.kernel, g.eventWait, 0, WaitForNextUpdate);
    LanesSchedule(g.kernel, 0, WaitForNextUpdate);
  }

  lemma WaitLands(g: Gw, l: Lanes) returns (waits: seq<Entry>)
    requires Lands(g, l)
    ensures Lands(WaitEffect(g), l.(waits := waits)) && (g.state != STOPPING ==> waits != [])
  {
    hide Select, Without;
    waits := l.waits;
    if g.state != STOPPING {
      CancelLands(g, l);
      ScheduleWaitLands(CancelWait(g), l.(waits := Without(l.waits, g.eventWait)));
      waits := Without(l.waits, g.eventWait) + [Entry(g.kernel.nextId, g.kernel.now, WaitForNextUpdate)];
    }
  }

  lemma StopLands(g: Gw, l: Lanes)
    requires Lands(g, l)
    ensures Lands(StopEffect(g), l.(waits := Without(l.waits, g.eventWait)))
  {
    hide Select, Without;
    var closed := if g.state == CONNECTED then g.closes + 1 else g.closes;
    CancelLands(g.(state := STOPPING, closes := closed), l);
  }

  lemma UpdateLands(g: Gw, l: Lanes) returns (waits: seq<Entry>)
    requires Lands(g, l)
    ensures Lands(UpdateEffect(g), l.(waits := waits))
    ensures if g.kernel.now == g.timePause then waits != [] else waits == l.waits
  {
    hide Select, Without;
    waits := l.waits;
    if g.kernel.now == g.timePause {
      ScheduleWaitLands(g, l);
      waits := l.waits + [Entry(g.kernel.nextId, g.kernel.now, WaitForNextUpdate)];
    }
  }

  lemma NormalLands(g: Gw, l: Lanes, h: Header)
    requires Lands(g, l) && BranchOf(g, h).Normal? && h.stamp - g.timeStart >= g.kernel.now
    ensures MessageEffect(g, h).Ok?
    ensures Lands(MessageEffect(g, h).value, l.(waits := Without(l.waits, g.eventWait),
      callbacks := l.callbacks + [Entry(g.kernel.nextId, h.stamp - g.timeStart, HandleUpdate(h.values))]))
  {
    hide Select, Without;
    CancelLands(g, l);
    var g1 := CancelWait(g).(timePause := h.stamp - g.timeStart);
    var delta := g1.timePause - g1.kernel.now;
    InsertLands(g1, l.(waits := Without(l.waits, g.eventWait)), delta, HandleUpdate(h.values));
    assert MessageEffect(g, h) == Ok(g1.(kernel := g1.kernel.Schedule(delta, HandleUpdate(h.values))));
  }

  /** Kernel and control facts about the state after an event make up the core invariant. */
  lemma Finish(c: Delimiters, t: System, l: Lanes)
    requires GoodDelimiters(c) && Lands(t.g, l) && ControlInv(c, t, l)
    ensures Core(c, t)
  {
    hide Select, Without;
  }

  lemma WaitKeeps(c: Delimiters, s: System, e: Entry)
    requires GoodDelimiters(c) && Core(c, s) && s.fatal.None? && s.g.kernel.IsNext(e) && e.event.WaitForNextUpdate?
    ensures Core(c, Apply(c, s, Execute(e)))
  {
    hide Select, Without;
    var l, g, t := LanesOf(s.g.kernel.pending), s.g.(kernel := s.g.kernel.Take(e)), Apply(c, s, Execute(e));
    Begin(c, s, e);
    var waits := WaitLands(g, Drop(l, e));
    WaitControl(c, s, e, l, waits);
    Finish(c, t, l.(waits := waits));
  }

  lemma StopKeeps(c: Delimiters, s: System, e: Entry)
    requires GoodDelimiters(c) && Core(c, s) && s.fatal.None? && s.g.kernel.IsNext(e) && e.event.Stop? && !s.g.halted
    ensures Core(c, Apply(c, s, Execute(e)))
  {
    hide Select, Without;
    var l, g, t := LanesOf(s.g.kernel.pending), s.g.(kernel := s.g.kernel.Take(e)), Apply(c, s, Execute(e));
    Begin(c, s, e);
    StopIsLast(c, s, e, l);
    LaneLeft(s.g.kernel, e, Stopping);
    StopLands(g, l.(stops := []));
    StopControl(c, s, e, l, Without(l.waits, g.eventWait));
    Finish(c, t, l.(stops := [], waits := Without(l.waits, g.eventWait)));
  }

  /** When Stop is next, no ForwardUp is left and the queue is empty. */
  lemma StopIsLast(c: Delimiters, s: System, e: Entry, l: Lanes)
    requires GoodDelimiters(c) && ControlInv(c, s, l) && l == LanesOf(s.g.kernel.pending)
    requires KernelInv(s.g.kernel, s.g.eventWait) && s.fatal.None?
    requires s.g.kernel.IsNext(e) && e.event.Stop? && !s.g.halted
    ensures l.forwards == [] && s.g.queue == [] && s.g.state == CONNECTED && s.thread.Exited?
  {
    hide Select, Without;
    assert e in l.stops;
    assert NowOnly(e.event) && e.time == s.g.kernel.now;
    assert forall f :: f in l.forwards ==> f in s.g.kernel.pending && NowOnly(f.event);
    NonEmptyHasMember(l.forwards);
  }

  lemma InitializeKeeps(c: Delimiters, s: System, e: Entry)
    requires GoodDelimiters(c) && Core(c, s) && s.fatal.None? && s.g.kernel.IsNext(e) && e.event.DoInitialize?
    ensures Core(c, Apply(c, s, Execute(e)))
  {
    hide Select, Without;
    var l, t := LanesOf(s.g.kernel.pending), Apply(c, s, Execute(e));
    Begin(c, s, e);
    LaneLeft(s.g.kernel, e, Callback);
    InitializeControl(c, s, e, l, Without(l.callbacks, e.id));
    Finish(c, t, Drop(l, e));
  }

  lemma UpdateKeeps(c: Delimiters, s: System, e: Entry)
    requires GoodDelimiters(c) && Core(c, s) && s.fatal.None? && s.g.kernel.IsNext(e) && e.event.HandleUpdate?
    ensures Core(c, Apply(c, s, Execute(e)))
  {
    hide Select, Without;
    var l, g, t := LanesOf(s.g.kernel.pending), s.g.(kernel := s.g.kernel.Take(e)), Apply(c, s, Execute(e));
    Begin(c, s, e);
    LaneLeft(s.g.kernel, e, Callback);
    var waits := UpdateLands(g, Drop(l, e));
    UpdateControl(c, s, e, l, Without(l.callbacks, e.id), waits);
    Finish(c, t, Drop(l, e).(waits := waits));
  }

  lemma OtherKeeps(c: Delimiters, s: System, e: Entry)
    requires GoodDelimiters(c) && Core(c, s) && s.fatal.None? && s.g.kernel.IsNext(e)
    requires KindOf(e.event) in {Request, Packet, Foreign}
    ensures Core(c, Apply(c, s, Execute(e)))
  {
    hide Select, Without;
    var l := LanesOf(s.g.kernel.pending);
    Begin(c, s, e);
    OtherControl(c, s, e, l);
    Finish(c, Apply(c, s, Execute(e)), l);
  }

  /** ForwardUp finds a message: its queue is never empty. */
  lemma ForwardHasMessage(c: Delimiters, s: System, e: Entry)
    requires GoodDelimiters(c) && Core(c, s) && s.fatal.None?
    requires s.g.kernel.IsNext(e) && e.event.ForwardUp? && !s.g.halted
    ensures s.g.queue != [] && s.g.state == CONNECTED
  {
    assert e in LanesOf(s.g.kernel.pending).forwards;
  }

  lemma TerminateKeeps(c: Delimiters, s: System, e: Entry, h: Header)
    requires GoodDelimiters(c) && Core(c, s) && s.fatal.None?
    requires s.g.kernel.IsNext(e) && e.event.ForwardUp? && !s.g.halted
    requires NextHeader(c, s) == Some(h) && BranchOf(s.g, h).Terminate?
    ensures Core(c, Apply(c, s, Execute(e)))
  {
    hide Select, Without, ControlInv, Apply, Parse, Split;
    Begin(c, s, e);
    LaneLeft(s.g.kernel, e, Forward);
    ForwardHasMessage(c, s, e);
    var l := LanesOf(s.g.kernel.pending);
    ForwardApplies(c, s, e, h);
    TerminateControl(c, s, e, h, l, Without(l.forwards, e.id));
    Finish(c, Apply(c, s, Execute(e)), Drop(l, e));
  }

  lemma FirstKeeps(c: Delimiters, s: System, e: Entry, h: Header)
    requires GoodDelimiters(c) && Core(c, s) && s.fatal.None?
    requires s.g.kernel.IsNext(e) && e.event.ForwardUp? && !s.g.halted
    requires NextHeader(c, s) == Some(h) && BranchOf(s.g, h).First?
    ensures Core(c, Apply(c, s, Execute(e)))
  {
    hide Select, Without, ControlInv, Apply, Parse, Split;
    Begin(c, s, e);
    LaneLeft(s.g.kernel, e, Forward);
    ForwardHasMessage(c, s, e);
    var l, g := LanesOf(s.g.kernel.pending), s.g.(kernel := s.g.kernel.Take(e), queue := s.g.queue[1..]);
    InsertLands(g.(timeStart := h.stamp), Drop(l, e), 0, DoInitialize(h.values));
    ForwardApplies(c, s, e, h);
    FirstControl(c, s, e, h, l, Without(l.forwards, e.id));
    Finish(c, Apply(c, s, Execute(e)), Add(Drop(l, e), Entry(g.kernel.nextId, e.time, DoInitialize(h.values))));
  }

  lemma NormalKeeps(c: Delimiters, s: System, e: Entry, h: Header)
    requires GoodDelimiters(c) && Core(c, s) && s.fatal.None?
    requires s.g.kernel.IsNext(e) && e.event.ForwardUp? && !s.g.halted
    requires NextHeader(c, s) == Some(h) && BranchOf(s.g, h).Normal? && h.stamp - s.g.timeStart >= e.time
    ensures Core(c, Apply(c, s, Execute(e)))
  {
    hide Select, Without, ControlInv, Apply, Parse, Split;
    Begin(c, s, e);
    LaneLeft(s.g.kernel, e, Forward);
    ForwardHasMessage(c, s, e);
    var l, g := LanesOf(s.g.kernel.pending), s.g.(kernel := s.g.kernel.Take(e), queue := s.g.queue[1..]);
    NormalLands(g, Drop(l, e), h);
    ForwardApplies(c, s, e, h);
    NormalControl(c, s, e, h, l, Without(l.forwards, e.id), Without(l.waits, s.g.eventWait));
    Finish(c, Apply(c, s, Execute(e)), Drop(l, e).(waits := Without(l.waits, s.g.eventWait),
      callbacks := l.callbacks + [Entry(g.kernel.nextId, h.stamp - g.timeStart, HandleUpdate(h.values))]));
  }

  // ----- every action

  /** A ForwardUp event either has a usable header, or ends the program for one of two reasons. */
  lemma ForwardCases(c: Delimiters, s: System, e: Entry)
    requires GoodDelimiters(c) && Core(c, s) && Enabled(c, s, Execute(e)) && e.event.ForwardUp?
    ensures s.g.queue != [] && s.g.state == CONNECTED
    ensures NextHeader(c, s) == None ==> Apply(c, s, Execute(e)).fatal == Some(BadHeader)
    ensures NextHeader(c, s).Some? ==>
      var h := NextHeader(c, s).value;
      Apply(c, s, Execute(e)).fatal
        == if BranchOf(s.g, h).Normal? && h.stamp - s.g.timeStart < e.time then Some(TimestampsNotIncreasing) else None
  {
    hide Select, Without, Split, Accepted, Parse;
    ForwardHasMessage(c, s, e);
    if NextHeader(c, s).Some? { ForwardApplies(c, s, e, NextHeader(c, s).value); }
  }

  lemma ForwardKeeps(c: Delimiters, s: System, e: Entry)
    requires GoodDelimiters(c) && Core(c, s) && Enabled(c, s, Execute(e)) && e.event.ForwardUp?
    ensures Core(c, Apply(c, s, Execute(e)))
  {
    hide Select, Without, Split, Accepted, Parse, ControlInv;
    ForwardCases(c, s, e);
    if NextHeader(c, s).Some? {
      var h := NextHeader(c, s).value;
      match BranchOf(s.g, h)
      case Terminate => TerminateKeeps(c, s, e, h);
      case First => FirstKeeps(c, s, e, h);
      case Normal => if h.stamp - s.g.timeStart >= e.time { NormalKeeps(c, s, e, h); }
    }
  }

  lemma EventKeeps(c: Delimiters, s: System, e: Entry)
    requires GoodDelimiters(c) && Core(c, s) && Enabled(c, s, Execute(e))
    ensures Core(c, Apply(c, s, Execute(e)))
  {
    hide Select, Without, Core, Apply;
    match e.event
    case WaitForNextUpdate => WaitKeeps(c, s, e);
    case ForwardUp => ForwardKeeps(c, s, e);
    case Stop => StopKeeps(c, s, e);
    case DoInitialize(_) => InitializeKeeps(c, s, e);
    case HandleUpdate(_) => UpdateKeeps(c, s, e);
    case _ => OtherKeeps(c, s, e);
  }

  lemma InsertionKeeps(c: Delimiters, s: System, a: Action)
    requires GoodDelimiters(c) && Core(c, s) && Enabled(c, s, a)
    requires a.Close? || a.ScheduleForward? || a.Spawn?
    ensures Core(c, Apply(c, s, a))
  {
    hide Core, Apply;
    match a {
      case Close => CloseKeeps(c, s);
      case ScheduleForward => ScheduleForwardKeeps(c, s);
      case Spawn(time) => SpawnKeeps(c, s, time);
    }
  }

  lemma CloseKeeps(c: Delimiters, s: System)
    requires GoodDelimiters(c) && Core(c, s) && Enabled(c, s, Close)
    ensures Core(c, Apply(c, s, Close))
  {
    hide Select, Without, ControlInv;
    var l := LanesOf(s.g.kernel.pending);
    assert forall e :: e in l.forwards ==> e in s.g.kernel.pending;
    InsertLands(s.g, l, 0, Stop);
    CloseControl(c, s, l);
    Finish(c, Apply(c, s, Close), Add(l, Entry(s.g.kernel.nextId, s.g.kernel.now, Stop)));
  }

  lemma ScheduleForwardKeeps(c: Delimiters, s: System)
    requires GoodDelimiters(c) && Core(c, s) && Enabled(c, s, ScheduleForward)
    ensures Core(c, Apply(c, s, ScheduleForward))
  {
    hide Select, Without, ControlInv;
    var l := LanesOf(s.g.kernel.pending);
    InsertLands(s.g, l, 0, ForwardUp);
    ScheduleForwardControl(c, s, l);
    Finish(c, Apply(c, s, ScheduleForward), Add(l, Entry(s.g.kernel.nextId, s.g.kernel.now, ForwardUp)));
  }

  lemma SpawnKeeps(c: Delimiters, s: System, time: int)
    requires GoodDelimiters(c) && Core(c, s) && Enabled(c, s, Spawn(time))
    ensures Core(c, Apply(c, s, Spawn(time)))
  {
    hide Select, Without, ControlInv;
    var l := LanesOf(s.g.kernel.pending);
    InsertLands(s.g, l, time - s.g.kernel.now, Other);
    SpawnControl(c, s, time, l);
    Finish(c, Apply(c, s, Spawn(time)), l);
  }

  lemma StillKeeps(c: Delimiters, s: System, a: Action)
    requires GoodDelimiters(c) && Core(c, s) && Enabled(c, s, a)
    requires a.Check? || a.Receive? || a.Take? || a.Halt? || a.Destroy?
    ensures Core(c, Apply(c, s, a))
  {
    hide Select, Without;
    var l := LanesOf(s.g.kernel.pending);
    match a {
      case Check => CheckControl(c, s, l); Finish(c, Apply(c, s, a), l);
      case Receive(chunk) => ReceiveControl(c, s, chunk, l); Finish(c, Apply(c, s, a), l);
      case Take => TakeControl(c, s, l); Finish(c, Apply(c, s, a), l);
      case Halt => HaltControl(c, s, l); Finish(c, Apply(c, s, a), l);
      case Destroy =>
        StopLands(s.g, l);
        DestroyControl(c, s, l, Without(l.waits, s.g.eventWait));
        Finish(c, Apply(c, s, a), l.(waits := Without(l.waits, s.g.eventWait)));
    }
  }

  /** The base invariant of the gateway. */
  ghost predicate Inv(c: Delimiters, s: System)
    requires GoodDelimiters(c)
  {
    match s.fatal
    case Some(_) => true
    case None => Core(c, s) && Framed(c, s)
  }

  lemma CoreOf(c: Delimiters, s: System)
    requires GoodDelimiters(c) && Inv(c, s) && s.fatal.None?
    ensures Core(c, s)
  {
    hide Core, Framed;
  }

  lemma StepKeeps(c: Delimiters, s: System, a: Action)
    requires GoodDelimiters(c) && Inv(c, s) && Enabled(c, s, a)
    ensures Inv(c, Apply(c, s, a))
  {
    hide Select, Without, Core, Framed, Apply;
    match a {
      case Execute(e) => EventKeeps(c, s, e);
      case Close => InsertionKeeps(c, s, a);
      case ScheduleForward => InsertionKeeps(c, s, a);
      case Spawn(_) => InsertionKeeps(c, s, a);
      case _ => StillKeeps(c, s, a);
    }
    if Apply(c, s, a).fatal.None? { FrameKeeps(c, s, a); }
  }

  lemma InitialInv(c: Delimiters, s: System)
    requires GoodDelimiters(c) && Initial(s)
    ensures Inv(c, s)
    ensures LanesOf(s.g.kernel.pending)
         == Lanes([Entry(s.g.eventWait, s.start, WaitForNextUpdate)], [], [], [])
  {
    var g: Gw :| g.kernel.Valid() && g.kernel.now == s.start && (forall e :: e in g.kernel.pending ==> e.event.Other?)
      && !g.halted && g.state == CREATED && g.eventWait == 0 && !g.destroyPending
      && g.timeStart == -NANOS && g.timePause == 0 && g.buffer == "" && g.queue == [] && g.closes == 0
      && ConnectEffect(g) == Ok(s.g);
    hide Core, Framed, Select;
    ConnectLands(g, s.g);
    InitialControl(c, s, Lanes([Entry(s.g.eventWait, s.start, WaitForNextUpdate)], [], [], []));
    Finish(c, s, Lanes([Entry(s.g.eventWait, s.start, WaitForNextUpdate)], [], [], []));
    NothingFramed(c, s);
  }

  lemma ConnectLands(g: Gw, t: Gw)
    requires g.kernel.Valid() && (forall e :: e in g.kernel.pending ==> e.event.Other?) && g.eventWait == 0
    requires ConnectEffect(g) == Ok(t)
    ensures Lands(t, Lanes([Entry(t.eventWait, g.kernel.now, WaitForNextUpdate)], [], [], []))
  {
    hide Select, Without;
    EmptyLanes(g.kernel.pending);
    ScheduleWaitLands(g.(state := CONNECTED, destroyPending := true), Lanes([], [], [], []));
    var w := Entry(t.eventWait, g.kernel.now, WaitForNextUpdate);
    assert [] + [w] == [w];
  }

  lemma NothingFramed(c: Delimiters, s: System)
    requires GoodDelimiters(c) && s.thread.AtTop? && s.g.buffer == "" && s.g.queue == [] && s.popped == []
    requires s.received == ""
    ensures Framed(c, s)
  {
    hide Split, Find;
    assert [] + [] + Split("", c.m) == Split("", c.m);
  }

  lemma InitialControl(c: Delimiters, s: System, l: Lanes)
    requires GoodDelimiters(c) && s.fatal.None? && s.thread.AtTop? && s.popped == [] && s.g.queue == []
    requires s.g.state == CONNECTED && s.g.destroyPending && s.g.closes == 0 && s.g.timeStart == -NANOS
    requires s.g.timePause == 0
    requires s.g.kernel.now == s.start && l == Lanes([Entry(s.g.eventWait, s.start, WaitForNextUpdate)], [], [], [])
    ensures ControlInv(c, s, l)
  {
    hide Split, Find, Parse;
  }

  lemma EmptyLanes(p: seq<Entry>)
    requires forall e :: e in p ==> e.event.Other?
    ensures LanesOf(p) == Lanes([], [], [], [])
  {
    hide Select, Without;
    var l := LanesOf(p);
    NonEmptyHasMember(l.waits);
    NonEmptyHasMember(l.forwards);
    NonEmptyHasMember(l.stops);
    NonEmptyHasMember(l.callbacks);
  }

  lemma {:induction false} RunKeeps(c: Delimiters, s: System, run: seq<Action>)
    requires GoodDelimiters(c) && Inv(c, s) && Feasible(c, s, run)
    ensures Inv(c, End(c, s, run))
    decreases |run|
  {
    hide Inv, Enabled, Apply;
    if run != [] {
      StepKeeps(c, s, run[0]);
      RunKeeps(c, Apply(c, s, run[0]), run[1..]);
    }
  }
}
