/** What each gateway function does to the gateway and the simulator, as functions of the state.
    The class in Gateway.dfy is proved against these; the protocol theorems are about them. */
module GatewayEffects {
  import opened Words
  import opened Numbers
  import opened Events

  /** The fatal errors of the gateway and its example subclass. */
  datatype Fatal =
    | EmptyFieldDelimiter | EmptyMessageDelimiter | MessageDelimiterInField
    | ConnectedTwice | NoSocket | BadAddress | ConnectFailed | BadIndex
    | FieldDelimiterInValue | MessageDelimiterInValue | NotConnected
    | EmptyQueue | BadHeader | TimestampsNotIncreasing
    | ShortData | PastTheEnd | BadNumber

  datatype Result<+T> = Ok(value: T) | Failed(error: Fatal)

  datatype State = CREATED | CONNECTED | STOPPING

  /** The gateway fields that the event handlers and the receive thread touch. closes counts the
      times the socket was closed (and the thread joined). */
  datatype Gw = Gw(kernel: Kernel, halted: bool, state: State, eventWait: nat, destroyPending: bool,
                   timeStart: int, timePause: int, buffer: string, queue: seq<string>, closes: nat)

  datatype Header = Header(stamp: int, values: seq<string>)

  /** The header parse of ForwardUp: None is its "invalid message header" branch. */
  function Parse(message: string, f: string): Option<Header>
    requires f != ""
  {
    var values := Split(message, f);
    if |values| < 2 then None
    else
      match (Stoi(values[0]), Stol(values[1]))
      case (Some(seconds), Some(nanoseconds)) => Some(Header(Stamp(seconds, nanoseconds), values[2..]))
      case _ => None
  }

  function CancelWait(g: Gw): Gw
  {
    if g.kernel.IsPending(g.eventWait) then g.(kernel := g.kernel.Cancel(g.eventWait)) else g
  }

  /** m_eventWait = ScheduleNow(WaitForNextUpdate) */
  function ScheduleWait(g: Gw): Gw
  {
    g.(eventWait := g.kernel.nextId, kernel := g.kernel.ScheduleNow(WaitForNextUpdate))
  }

  function ConnectEffect(g: Gw): Result<Gw>
  {
    if g.state != CREATED then Failed(ConnectedTwice)
    else Ok(ScheduleWait(g.(state := CONNECTED, destroyPending := true)))
  }

  function StopEffect(g: Gw): Gw
  {
    var closed := if g.state == CONNECTED then g.closes + 1 else g.closes;
    CancelWait(g.(state := STOPPING, closes := closed)).(destroyPending := false)
  }

  function WaitEffect(g: Gw): Gw
  {
    if g.state != STOPPING then ScheduleWait(CancelWait(g)) else g
  }

  function NormalEffect(g: Gw, h: Header): Result<Gw>
  {
    var g1 := CancelWait(g).(timePause := h.stamp - g.timeStart);
    var delta := g1.timePause - g1.kernel.now;
    if delta < 0 then Failed(TimestampsNotIncreasing)
    else Ok(g1.(kernel := g1.kernel.Schedule(delta, HandleUpdate(h.values))))
  }

  function MessageEffect(g: Gw, h: Header): Result<Gw>
  {
    if h.stamp < 0 then Ok(g.(halted := true))
    else if g.timeStart < 0 then Ok(g.(timeStart := h.stamp, kernel := g.kernel.ScheduleNow(DoInitialize(h.values))))
    else NormalEffect(g, h)
  }

  function ForwardEffect(g: Gw, f: string): Result<Gw>
    requires f != ""
  {
    if g.queue == [] then Failed(EmptyQueue)
    else
      match Parse(g.queue[0], f)
      case None => Failed(BadHeader)
      case Some(h) => MessageEffect(g.(queue := g.queue[1..]), h)
  }

  function UpdateEffect(g: Gw): Gw
  {
    if g.kernel.now == g.timePause then ScheduleWait(g) else g
  }

  /** n ForwardUp events, one after the other. */
  function ScheduleForwards(k: Kernel, n: nat): Kernel
  {
    if n == 0 then k else ScheduleForwards(k, n - 1).ScheduleNow(ForwardUp)
  }
}
