/** The triggered send application: what its functions do, and the object that does it. */
module Sender {
  import opened Events

  /** The fields the event logic uses. event is the id in m_sendPacketEvent; open says that the socket
      exists and has not been closed: m_socket stays set after it has been closed. */
  datatype App = App(kernel: Kernel, hasSocket: bool, open: bool, connected: bool, count: nat, event: nat)

  function CancelEffect(a: App): App
  {
    if a.kernel.IsPending(a.event) then a.(kernel := a.kernel.Cancel(a.event)) else a
  }

  function SendEffect(a: App, n: nat): App
  {
    if n == 0 then a else a.(kernel := a.kernel.ScheduleNow(ProcessSendRequest(n)))
  }

  function StartEffect(a: App): App
  {
    CancelEffect(if a.hasSocket then a else a.(hasSocket := true, open := true))
  }

  function StopEffect(a: App): App
  {
    CancelEffect(a).(open := false)
  }

  function DisposeEffect(a: App): App
  {
    CancelEffect(a).(hasSocket := false, open := false)
  }

  function RequestEffect(a: App, n: nat): App
  {
    if !(a.hasSocket && a.connected) then a
    else if a.kernel.IsPending(a.event) then a.(count := n)
    else a.(count := n, event := a.kernel.nextId, kernel := a.kernel.ScheduleNow(SendPacket))
  }

  function PacketEffect(a: App, interval: nat): App
  {
    if a.count > 0 then
      a.(count := a.count - 1, event := a.kernel.nextId, kernel := a.kernel.Schedule(interval, SendPacket))
    else a
  }

  class TriggeredSendApplication {
    const sim: Simulator
    const packetInterval: nat
    var hasSocket: bool
    var open: bool
    var connected: bool
    var packetCount: nat
    var sendPacketEvent: nat
    var attempts: seq<int>  // the times at which a packet was handed to the socket
    var sent: seq<int>      // the times at which the socket took it and the packet was traced

    ghost function View(): App
      reads this, sim
    {
      App(sim.View(), hasSocket, open, connected, packetCount, sendPacketEvent)
    }

    constructor (sim: Simulator, packetInterval: nat)
      ensures this.sim == sim && this.packetInterval == packetInterval
      ensures View() == App(sim.View(), false, false, false, 0, 0) && attempts == sent == []
    {
      this.sim, this.packetInterval := sim, packetInterval;
      hasSocket, open, connected, packetCount, sendPacketEvent, attempts, sent := false, false, false, 0, 0, [], [];
    }

    method Send(numberOfPackets: nat)
      modifies sim
      ensures View() == SendEffect(old(View()), numberOfPackets)
      ensures sim.halted == old(sim.halted)
      ensures sim.View() == if numberOfPackets == 0 then old(sim.View())
                            else old(sim.View()).Schedule(0, Events.ProcessSendRequest(numberOfPackets))
    {
      if numberOfPackets != 0 {
        var _ := sim.Schedule(0, Events.ProcessSendRequest(numberOfPackets));
      }
    }

    method CancelEvents()
      modifies sim
      ensures View() == CancelEffect(old(View()))
      ensures sim.halted == old(sim.halted)
      ensures sim.View() == if old(sim.View()).IsPending(sendPacketEvent)
                            then old(sim.View()).Cancel(sendPacketEvent) else old(sim.View())
    {
      var waiting := sim.IsPending(sendPacketEvent);
      if waiting { sim.Cancel(sendPacketEvent); }
    }

    /** bound is whether the addresses are valid and a new socket can be bound; false is fatal. */
    method StartApplication(bound: bool) returns (ok: bool)
      modifies this`hasSocket, this`open, sim
      ensures ok <==> old(hasSocket) || bound
      ensures View() == if ok then StartEffect(old(View())) else old(View())
      ensures hasSocket == ok && open == (old(open) || (ok && !old(hasSocket)))
      ensures ok ==> sim.View() == if old(sim.View()).IsPending(sendPacketEvent)
                                   then old(sim.View()).Cancel(sendPacketEvent) else old(sim.View())
    {
      if !hasSocket {
        if !bound { return false; }
        hasSocket, open := true, true;
      }
      CancelEvents();
      ok := true;
    }

    method StopApplication()
      modifies this`open, sim
      ensures View() == StopEffect(old(View()))
      ensures !open && hasSocket == old(hasSocket)
      ensures sim.View() == if old(sim.View()).IsPending(sendPacketEvent)
                            then old(sim.View()).Cancel(sendPacketEvent) else old(sim.View())
    {
      CancelEvents();
      open := false; // closed, or there was none to close
    }

    method DoDispose()
      modifies this`hasSocket, this`open, sim
      ensures View() == DisposeEffect(old(View()))
      ensures !hasSocket && !open
      ensures sim.View() == if old(sim.View()).IsPending(sendPacketEvent)
                            then old(sim.View()).Cancel(sendPacketEvent) else old(sim.View())
    {
      CancelEvents();
      hasSocket, open := false, false;
    }

    method ConnectionSucceeded()
      modifies this`connected
      ensures View() == old(View()).(connected := true)
    {
      connected := true;
    }

    method ProcessSendRequest(numberOfPackets: nat)
      modifies this`packetCount, this`sendPacketEvent, sim
      ensures View() == RequestEffect(old(View()), numberOfPackets)
      ensures packetCount == if hasSocket && connected then numberOfPackets else old(packetCount)
      ensures var k := old(sim.View());
              var idle := hasSocket && connected && !k.IsPending(old(sendPacketEvent));
              sendPacketEvent == (if idle then k.nextId else old(sendPacketEvent))
              && sim.View() == if idle then k.Schedule(0, Events.SendPacket) else k
    {
      if hasSocket && connected {
        var waiting := sim.IsPending(sendPacketEvent);
        if waiting {
          packetCount := numberOfPackets;
        } else {
          packetCount := numberOfPackets;
          sendPacketEvent := sim.Schedule(0, Events.SendPacket);
        }
      }
    }

    /** accepted is whether the socket takes all bytes of the packet, which a closed one does not;
        asserted is the value of NS_ASSERT's condition. */
    method SendPacket(accepted: bool) returns (asserted: bool)
      requires packetCount > 0 ==> hasSocket
      requires accepted ==> open
      modifies this`packetCount, this`sendPacketEvent, this`attempts, this`sent, sim
      ensures asserted == !old(sim.View()).IsPending(old(sendPacketEvent))
      ensures View() == PacketEffect(old(View()), packetInterval)
      ensures old(packetCount) == 0 ==> View() == old(View())
      ensures old(packetCount) > 0 ==>
                packetCount == old(packetCount) - 1 && sendPacketEvent == old(sim.nextId)
                && sim.View() == old(sim.View()).Schedule(packetInterval, Events.SendPacket)
      ensures attempts == if old(packetCount) > 0 then old(attempts) + [sim.now] else old(attempts)
      ensures sent == if old(packetCount) > 0 && accepted then old(sent) + [sim.now] else old(sent)
    {
      var waiting := sim.IsPending(sendPacketEvent);
      asserted := !waiting;
      if packetCount > 0 {
        attempts := attempts + [sim.now];
        if accepted { sent := sent + [sim.now]; }
        packetCount := packetCount - 1;
        sendPacketEvent := sim.Schedule(packetInterval, Events.SendPacket);
      }
    }
  }
}
