/** The gateway as a two-thread system: the receive thread and the simulator take turns in any
    order. A run is any sequence of actions, each enabled where it is taken. */
module GatewayRuns {
  import opened Words
  import opened Numbers
  import opened Events
  import opened GatewayEffects

  datatype Delimiters = Delimiters(f: string, m: string)

  /** Where the receive thread is: at the top of its loop, in the recv loop with the bytes it has,
      between the queue push and the schedule call, or gone with the bytes it dropped. */
  datatype Thread = AtTop | Receiving(data: string) | Pushed | Exited(dropped: string)

  /** A user callback that ran (or is due): DoInitialize or DoUpdate, when, and with which values. */
  datatype Delivery = Delivery(initial: bool, time: int, values: seq<string>)

  /** received, popped and delivered record the history; start is the time of the Connect call. */
  datatype System = System(g: Gw, fatal: Option<Fatal>, thread: Thread, start: int,
                           received: string, popped: seq<string>, delivered: seq<Delivery>)

  datatype Action =
    | Check                    // the thread tests m_state and reloads its buffer
    | Receive(chunk: string)   // recv returns bytes
    | Close                    // recv returns 0 or an error: the thread schedules Stop and exits
    | Take                     // a complete message leaves the buffer and enters the queue
    | ScheduleForward          // the thread schedules ForwardUp
    | Execute(e: Entry)        // the simulator runs its next event
    | Spawn(time: int)         // another model schedules an event
    | Halt                     // another model calls Simulator::Stop
    | Destroy                  // Simulator::Destroy runs Stop after the simulation ended

  predicate GoodDelimiters(c: Delimiters) { c.f != "" && c.m != "" }

  /** The state right after Connect at time start, other models' events being pending already. */
  ghost predicate Initial(s: System)
  {
    exists g: Gw ::
      g.kernel.Valid() && g.kernel.now == s.start && (forall e :: e in g.kernel.pending ==> e.event.Other?)
      && !g.halted && g.state == CREATED && g.eventWait == 0 && !g.destroyPending
      && g.timeStart == -NANOS && g.timePause == 0 && g.buffer == "" && g.queue == [] && g.closes == 0
      && ConnectEffect(g) == Ok(s.g)
      && s.fatal == None && s.thread == AtTop && s.received == "" && s.popped == [] && s.delivered == []
  }

  ghost predicate Enabled(c: Delimiters, s: System, a: Action)
    requires GoodDelimiters(c)
  {
    s.fatal.None? &&
    match a
    case Check => s.thread.AtTop?
    case Receive(chunk) => s.thread.Receiving? && Find(s.thread.data, c.m).None? && 1 <= |chunk| <= 4096
    case Close => s.thread.Receiving? && Find(s.thread.data, c.m).None?
    case Take => s.thread.Receiving? && Find(s.thread.data, c.m).Some?
    case ScheduleForward => s.thread.Pushed?
    case Execute(e) => !s.g.halted && s.g.kernel.IsNext(e)
    case Spawn(time) => time >= s.g.kernel.now
    case Halt => true
    case Destroy => s.g.halted && s.g.destroyPending && (s.thread.AtTop? || s.thread.Exited?)
  }

  function RunEvent(c: Delimiters, s: System, event: Event): System
    requires GoodDelimiters(c)
  {
    match event
    case WaitForNextUpdate => s.(g := WaitEffect(s.g))
    case ForwardUp =>
      (match ForwardEffect(s.g, c.f)
       case Failed(error) => s.(fatal := Some(error))
       case Ok(g) => s.(g := g, popped := s.popped + [s.g.queue[0]]))
    case Stop => s.(g := StopEffect(s.g))
    case DoInitialize(values) => s.(delivered := s.delivered + [Delivery(true, s.g.kernel.now, values)])
    case HandleUpdate(values) =>
      s.(g := UpdateEffect(s.g), delivered := s.delivered + [Delivery(false, s.g.kernel.now, values)])
    case _ => s
  }

  function Apply(c: Delimiters, s: System, a: Action): System
    requires GoodDelimiters(c)
  {
    match a
    case Check => s.(thread := if s.g.state == CONNECTED then Receiving(s.g.buffer) else Exited(s.g.buffer))
    case Receive(chunk) =>
      if s.thread.Receiving? then
        s.(thread := Receiving(s.thread.data + chunk), received := s.received + chunk)
      else s
    case Close =>
      if s.thread.Receiving? then
        s.(thread := Exited(s.thread.data), g := s.g.(kernel := s.g.kernel.ScheduleNow(Stop)))
      else s
    case Take =>
      if s.thread.Receiving? && Find(s.thread.data, c.m).Some? then
        var i := Find(s.thread.data, c.m).value;
        s.(thread := Pushed,
           g := s.g.(buffer := s.thread.data[i + |c.m|..], queue := s.g.queue + [s.thread.data[..i]]))
      else s
    case ScheduleForward => s.(thread := AtTop, g := s.g.(kernel := s.g.kernel.ScheduleNow(ForwardUp)))
    case Execute(e) => RunEvent(c, s.(g := s.g.(kernel := s.g.kernel.Take(e))), e.event)
    case Spawn(time) => s.(g := s.g.(kernel := s.g.kernel.Schedule(time - s.g.kernel.now, Other)))
    case Halt => s.(g := s.g.(halted := true))
    case Destroy =>
      s.(g := StopEffect(s.g), thread := if s.thread.Exited? then s.thread else Exited(s.g.buffer))
  }

  /** Every action of the run is enabled where it is taken. */
  ghost predicate Feasible(c: Delimiters, s: System, run: seq<Action>)
    requires GoodDelimiters(c)
    decreases |run|
  {
    run == [] || (Enabled(c, s, run[0]) && Feasible(c, Apply(c, s, run[0]), run[1..]))
  }

  function End(c: Delimiters, s: System, run: seq<Action>): System
    requires GoodDelimiters(c)
    decreases |run|
  {
    if run == [] then s else End(c, Apply(c, s, run[0]), run[1..])
  }

  // ----- what the messages ask for

  /** The headers of the messages that are processed: well formed and not the terminate signal. */
  function Accepted(f: string, messages: seq<string>): seq<Header>
    requires f != ""
  {
    if messages == [] then []
    else
      var before := Accepted(f, Init(messages));
      match Parse(Last(messages), f)
      case None => before
      case Some(h) => if h.stamp < 0 then before else before + [h]
  }

  // ----- views of a state

  function Of(s: System, k: Kind): seq<Entry>
  {
    Select(s.g.kernel.pending, k)
  }

  /** The bytes the thread has received but not yet turned into messages. */
  function Unframed(s: System): string
  {
    match s.thread
    case Receiving(data) => data
    case Exited(dropped) => dropped
    case _ => s.g.buffer
  }

  function Headers(c: Delimiters, s: System): seq<Header>
    requires GoodDelimiters(c)
  {
    Accepted(c.f, s.popped)
  }

  /** A time the simulation may not pass: the granted pause time, or the time of Connect. */
  function Horizon(hs: seq<Header>, start: int, timePause: int): int
  {
    if |hs| < 2 then start else timePause
  }

  predicate NowOnly(event: Event)
  {
    event.WaitForNextUpdate? || event.ForwardUp? || event.Stop? || event.DoInitialize?
  }

  /** The gateway's pending events, one list per kind. */
  datatype Lanes = Lanes(waits: seq<Entry>, forwards: seq<Entry>, stops: seq<Entry>, callbacks: seq<Entry>)

  function LanesOf(p: seq<Entry>): Lanes
  {
    Lanes(Select(p, Wait), Select(p, Forward), Select(p, Stopping), Select(p, Callback))
  }

  ghost predicate UpdateAt(callbacks: seq<Entry>, time: int)
  {
    exists e :: e in callbacks && e.event.HandleUpdate? && e.time == time
  }

  // ----- invariants, each over the parts of the state it speaks about

  ghost predicate KernelInv(k: Kernel, eventWait: nat)
  {
    k.Valid() && eventWait < k.nextId
    && (forall e :: e in k.pending && NowOnly(e.event) ==> e.time == k.now)
    && (forall e :: e in k.pending && e.id == eventWait ==> e.event.WaitForNextUpdate?)
  }

  /** Every queued message has its ForwardUp, except the one just pushed. */
  predicate QueueInv(queue: seq<string>, forwards: seq<Entry>, thread: Thread)
  {
    |queue| == |forwards| + if thread.Pushed? then 1 else 0
  }

  /** No byte is lost or reordered between the socket and ForwardUp. */
  predicate FrameInv(m: string, popped: seq<string>, queue: seq<string>, unframed: string, received: string)
    requires m != ""
  {
    popped + queue + Split(unframed, m) == Split(received, m)
  }

  /** The thread's Stop event comes after every ForwardUp; the socket is closed once, by Stop. */
  ghost predicate StopInv(m: string, g: Gw, thread: Thread, forwards: seq<Entry>, stops: seq<Entry>)
  {
    g.state != CREATED && (g.destroyPending <==> g.state == CONNECTED)
    && g.closes == (if g.state == STOPPING then 1 else 0)
    && (g.state == CONNECTED ==>
          (thread.Exited? <==> stops != []) && |stops| <= 1
          && (forall e, o :: e in forwards && o in stops ==> e.id < o.id))
    && (g.state == STOPPING ==> thread.Exited? && (g.halted || (forwards == [] && stops == [] && g.queue == [])))
    && (thread.Exited? && (g.state == CONNECTED || !g.halted) ==> Find(thread.dropped, m).None?)
  }

  /** The time fields hold what the accepted messages say. */
  ghost predicate HeaderInv(hs: seq<Header>, timeStart: int, timePause: int)
  {
    (forall h :: h in hs ==> h.stamp >= 0)
    && timeStart == (if hs == [] then -NANOS else hs[0].stamp)
    && timePause == (if |hs| < 2 then 0 else Last(hs).stamp - hs[0].stamp)
  }

  /** While connected, the clock is frozen by a wait event or will be at exactly the pause time. */
  ghost predicate GrantInv(state: State, now: int, start: int, hs: seq<Header>, timePause: int,
                           waits: seq<Entry>, callbacks: seq<Entry>)
  {
    start <= now
    && (|hs| < 2 ==> forall e :: e in callbacks ==> !e.event.HandleUpdate?)
    && (state == CONNECTED ==>
          now <= Horizon(hs, start, timePause)
          && (waits == [] ==> |hs| >= 2 && UpdateAt(callbacks, timePause)))
  }

  /** Like every invariant of a run, it asks nothing of a program that a fatal error has ended. */
  ghost predicate ControlInv(c: Delimiters, s: System, l: Lanes)
    requires GoodDelimiters(c)
  {
    match s.fatal
    case Some(_) => true
    case None =>
    QueueInv(s.g.queue, l.forwards, s.thread)
    && StopInv(c.m, s.g, s.thread, l.forwards, l.stops)
    && HeaderInv(Headers(c, s), s.g.timeStart, s.g.timePause)
    && GrantInv(s.g.state, s.g.kernel.now, s.start, Headers(c, s), s.g.timePause, l.waits, l.callbacks)
  }
}
