/** The gateway object: its fields, updated in place by its methods. */
module Gateway {
  import opened Words
  import opened Numbers
  import opened Framing
  import opened FramingExact
  import opened Events
  import opened GatewayEffects

  datatype Outcome = Done | Fatal(error: GatewayEffects.Fatal)

  /** What one call of recv returns: some bytes, at most a buffer full, or the end. */
  type Chunk = s: string | 1 <= |s| <= 4096 witness "?"

  datatype Recv = Data(bytes: Chunk) | Closed | Error

  /** The bytes received before the connection ends. */
  function Received(script: seq<Recv>): string
  {
    if script == [] || !script[0].Data? then "" else script[0].bytes + Received(script[1..])
  }

  predicate Ends(script: seq<Recv>)
  {
    script != [] && (!script[0].Data? || Ends(script[1..]))
  }

  /** Bytes count until the connection ends, by a close or by an error alike. */
  lemma ConnectionEnds(b: Chunk, x: Recv, rest: seq<Recv>)
    ensures Received([]) == "" && !Ends([])
    ensures Received([Data(b)] + rest) == b + Received(rest) && (Ends([Data(b)] + rest) <==> Ends(rest))
    ensures x == Closed || x == Error ==> Received([x] + rest) == "" && Ends([x] + rest)
  {
    assert ([Data(b)] + rest)[1..] == rest && ([x] + rest)[1..] == rest;
  }

  /** How the operating system answers Connect's calls: socket, inet_pton, connect. */
  datatype Dial = Dialed | SocketFailed | AddressFailed | Refused

  function DialError(d: Dial): GatewayEffects.Fatal
    requires !d.Dialed?
  {
    match d
    case SocketFailed => NoSocket
    case AddressFailed => BadAddress
    case Refused => ConnectFailed
  }

  predicate ConstructorAccepts(f: string, m: string)
  {
    f != "" && m != "" && Find(f, m).None?
  }

  lemma {:induction false} JoinAppend(vs: seq<string>, v: string, f: string)
    ensures Join(vs + [v], f) == if vs == [] then v else Join(vs, f) + f + v
  {
    if |vs| == 1 {
      assert (vs + [v])[1..] == [v];
    } else if |vs| > 1 {
      assert (vs + [v])[1..] == vs[1..] + [v];
      JoinAppend(vs[1..], v, f);
    }
  }

  lemma ResponsesAppend(rs: seq<seq<string>>, r: seq<string>, f: string, m: string)
    requires Responses(rs, |r|, f, m) && forall v :: v in r ==> Clean(v, f, m)
    ensures Responses(rs + [r], |r|, f, m)
  {
  }

  class Gateway {
    const sim: Simulator
    const delimiterField: string
    const delimiterMessage: string
    var state: State
    var eventWait: nat
    var destroyPending: bool
    var timeStart: int
    var timePause: int
    var buffer: string
    var queue: seq<string>
    var data: seq<string>
    var closes: nat
    var outbox: string                    // the bytes written to the socket
    ghost var responses: seq<seq<string>> // the value vectors they were printed from

    ghost function View(): Gw
      reads this, sim
    {
      Gw(sim.View(), sim.halted, state, eventWait, destroyPending, timeStart, timePause, buffer, queue, closes)
    }

    /** Delimiters the constructor accepted, values SetValue accepted, bytes SendResponse printed. */
    ghost predicate Valid()
      reads this`data, this`responses, this`outbox
    {
      ConstructorAccepts(delimiterField, delimiterMessage)
      && (forall v :: v in data ==> Clean(v, delimiterField, delimiterMessage))
      && Responses(responses, |data|, delimiterField, delimiterMessage)
      && outbox == Print(responses, delimiterField, delimiterMessage)
    }

    constructor (sim: Simulator, dataSize: nat, f: string, m: string)
      requires ConstructorAccepts(f, m)
      ensures Valid() && this.sim == sim && delimiterField == f && delimiterMessage == m
      ensures View() == Gw(sim.View(), sim.halted, CREATED, 0, false, -NANOS, 0, "", [], 0)
      ensures |data| == dataSize && (forall i :: 0 <= i < dataSize ==> data[i] == "") && responses == [] && outbox == ""
    {
      this.sim, delimiterField, delimiterMessage := sim, f, m;
      state, eventWait, destroyPending, timeStart, timePause := CREATED, 0, false, -NANOS, 0;
      buffer, queue, closes, outbox, responses := "", [], 0, "", [];
      data := seq(dataSize, _ => "");
    }

    /** The constructor with its checks. */
    static method Create(sim: Simulator, dataSize: nat, f: string, m: string) returns (r: Outcome, g: Gateway?)
      ensures r == if f == "" then Fatal(EmptyFieldDelimiter)
                   else if m == "" then Fatal(EmptyMessageDelimiter)
                   else if Contains(f, m) then Fatal(MessageDelimiterInField) else Done
      ensures r.Done? <==> g != null
      ensures g != null ==> fresh(g) && g.Valid() && g.sim == sim && |g.data| == dataSize && g.outbox == ""
      ensures g != null ==> forall i :: 0 <= i < dataSize ==> g.data[i] == ""
      ensures g != null ==> g.delimiterField == f && g.delimiterMessage == m
      ensures g != null ==> g.View() == Gw(sim.View(), sim.halted, CREATED, 0, false, -NANOS, 0, "", [], 0)
    {
      g := null;
      if f == "" { return Fatal(EmptyFieldDelimiter), null; }
      if m == "" { return Fatal(EmptyMessageDelimiter), null; }
      if Find(f, m) != None { return Fatal(MessageDelimiterInField), null; }
      g := new Gateway(sim, dataSize, f, m);
      r := Done;
    }

    /** Connect; dial is the result of its operating-system calls. */
    method Connect(dial: Dial) returns (r: Outcome)
      requires Valid()
      modifies this, sim
      ensures Valid() && data == old(data) && outbox == old(outbox)
      ensures match ConnectEffect(old(View()))
              case Failed(e) => r == Fatal(e)
              case Ok(g) => if dial.Dialed? then r == Done && View() == g
                            else r == Fatal(DialError(dial)) && View() == old(View())
      ensures r == if old(state) != CREATED then Fatal(ConnectedTwice)
                   else match dial
                        case Dialed => Done
                        case SocketFailed => Fatal(NoSocket)
                        case AddressFailed => Fatal(BadAddress)
                        case Refused => Fatal(ConnectFailed)
      ensures View() == if r != Done then old(View())
                        else old(View()).(state := CONNECTED, destroyPending := true, eventWait := old(sim.nextId),
                                          kernel := old(sim.View()).Schedule(0, Events.WaitForNextUpdate))
    {
      if state != CREATED { return Fatal(ConnectedTwice); }
      if dial != Dialed { return Fatal(DialError(dial)); }
      state := CONNECTED;
      destroyPending := true;
      eventWait := sim.Schedule(0, Events.WaitForNextUpdate);
      r := Done;
    }

    method SetValue(index: nat, value: string) returns (r: Outcome)
      requires Valid()
      modifies this`data
      ensures Valid()
      ensures r == if index >= old(|data|) then Fatal(BadIndex)
                   else if Contains(value, delimiterField) then Fatal(FieldDelimiterInValue)
                   else if Contains(value, delimiterMessage) then Fatal(MessageDelimiterInValue) else Done
      ensures data == if r.Done? then old(data)[index := value] else old(data)
    {
      if index >= |data| { return Fatal(BadIndex); }
      if Find(value, delimiterField) != None { return Fatal(FieldDelimiterInValue); }
      if Find(value, delimiterMessage) != None { return Fatal(MessageDelimiterInValue); }
      data := data[index := value];
      r := Done;
    }

    /** The message loop of SendResponse. */
    method FormatData() returns (message: string)
      ensures message == Join(data, delimiterField)
    {
      message := "";
      for i := 0 to |data|
        invariant message == Join(data[..i], delimiterField)
      {
        assert data[..i + 1] == data[..i] + [data[i]];
        JoinAppend(data[..i], data[i], delimiterField);
        if i != 0 { message := message + delimiterField; }
        message := message + data[i];
      }
      assert data[..|data|] == data;
    }

    /** sent is whether send succeeds; a failure is only logged. */
    method SendResponse(sent: bool) returns (r: Outcome)
      requires Valid()
      modifies this`outbox, this`responses
      ensures Valid()
      ensures r == if state == CONNECTED then Done else Fatal(NotConnected)
      ensures responses == if r.Done? && sent then old(responses) + [data] else old(responses)
      ensures outbox
           == if r.Done? && sent then old(outbox) + Join(data, delimiterField) + delimiterMessage else old(outbox)
    {
      if state != CONNECTED { return Fatal(NotConnected); }
      var message := FormatData();
      message := message + delimiterMessage;
      PrintAppend(responses, data, delimiterField, delimiterMessage);
      ResponsesAppend(responses, data, delimiterField, delimiterMessage);
      if sent {
        responses := responses + [data];
        outbox := outbox + message;
      }
      r := Done;
    }

    /** What the server reads back from everything sent so far. */
    lemma ServerReadsResponses()
      requires Valid() && |data| >= 1 && Readable(|data|, delimiterField, delimiterMessage)
      ensures Fields(Messages(outbox, delimiterMessage), delimiterField) == responses
      ensures Remainder(outbox, delimiterMessage) == ""
    {
      ReadableRoundTrip(responses, |data|, delimiterField, delimiterMessage);
    }

    method CancelWaitIfPending()
      modifies sim
      ensures View() == CancelWait(old(View()))
      ensures View() == old(View()).(kernel := if old(sim.View()).IsPending(eventWait)
                                               then old(sim.View()).Cancel(eventWait) else old(sim.View()))
    {
      var waiting := sim.IsPending(eventWait);
      if waiting { sim.Cancel(eventWait); }
    }

    method Stop()
      modifies this`state, this`closes, this`destroyPending, sim
      ensures View() == StopEffect(old(View()))
      ensures state == STOPPING && !destroyPending && sim.halted == old(sim.halted)
      ensures closes == old(closes) + if old(state) == CONNECTED then 1 else 0
      ensures sim.View() == if old(sim.View()).IsPending(eventWait)
                            then old(sim.View()).Cancel(eventWait) else old(sim.View())
    {
      var connected := state == CONNECTED;
      state := STOPPING;
      if connected { closes := closes + 1; }
      CancelWaitIfPending();
      if destroyPending { destroyPending := false; }
    }

    method WaitForNextUpdate()
      modifies this`eventWait, sim
      ensures View() == WaitEffect(old(View()))
      ensures sim.halted == old(sim.halted)
      ensures state == STOPPING ==> eventWait == old(eventWait) && sim.View() == old(sim.View())
      ensures state != STOPPING ==>
                var k := if old(sim.View()).IsPending(old(eventWait))
                         then old(sim.View()).Cancel(old(eventWait)) else old(sim.View());
                eventWait == old(sim.nextId) && sim.View() == k.Schedule(0, Events.WaitForNextUpdate)
    {
      if state != STOPPING {
        CancelWaitIfPending();
        eventWait := sim.Schedule(0, Events.WaitForNextUpdate);
      }
    }

    /** The split loop of ForwardUp. */
    method SplitMessage(received: string) returns (values: seq<string>)
      requires delimiterField != ""
      ensures values == Split(received, delimiterField)
    {
      var message := received;
      values := [];
      var index := Find(message, delimiterField);
      while index.Some?
        invariant index == Find(message, delimiterField)
        invariant values + Split(message, delimiterField) == Split(received, delimiterField)
        decreases |message|
      {
        ghost var rest := Split(message[index.value + |delimiterField|..], delimiterField);
        assert values + ([message[..index.value]] + rest) == values + [message[..index.value]] + rest;
        values := values + [message[..index.value]];
        message := message[index.value + |delimiterField|..];
        index := Find(message, delimiterField);
      }
      values := values + [message];
    }

    method ForwardUp() returns (r: Outcome)
      requires delimiterField != ""
      modifies this`queue, this`timeStart, this`timePause, sim
      ensures match ForwardEffect(old(View()), delimiterField)
              case Failed(e) => r == Fatal(e)
              case Ok(g) => r == Done && View() == g
      ensures old(queue) == [] ==> r == Fatal(EmptyQueue)
      ensures old(queue) != [] ==>
                queue == old(queue)[1..] &&
                var v := Split(old(queue)[0], delimiterField);
                if |v| < 2 || Stoi(v[0]).None? || Stol(v[1]).None? then r == Fatal(BadHeader)
                else
                  var stamp, values := Stoi(v[0]).value * 1_000_000_000 + Stol(v[1]).value, v[2..];
                  if stamp < 0 then
                    r == Done && sim.halted && timeStart == old(timeStart) && timePause == old(timePause)
                    && sim.View() == old(sim.View())
                  else if old(timeStart) < 0 then
                    r == Done && sim.halted == old(sim.halted) && timeStart == stamp && timePause == old(timePause)
                    && sim.View() == old(sim.View()).Schedule(0, DoInitialize(values))
                  else
                    sim.halted == old(sim.halted) && timeStart == old(timeStart) && timePause == stamp - timeStart
                    && var k := if old(sim.View()).IsPending(eventWait)
                                then old(sim.View()).Cancel(eventWait) else old(sim.View());
                       if timePause < old(sim.now) then r == Fatal(TimestampsNotIncreasing) && sim.View() == k
                       else r == Done && sim.View() == k.Schedule(timePause - old(sim.now), Events.HandleUpdate(values))
    {
      hide MessageEffect, Find, Split, Stoi, Stol;
      if queue == [] { return Fatal(EmptyQueue); }
      var message := queue[0];
      queue := queue[1..];

      var values := SplitMessage(message);

      // remove the timestamp header
      if |values| < 2 { return Fatal(BadHeader); }
      var seconds, nanoseconds := Stoi(values[0]), Stol(values[1]);
      if seconds.None? || nanoseconds.None? { return Fatal(BadHeader); }
      var timestamp := Stamp(seconds.value, nanoseconds.value);
      values := values[2..];

      r := ProcessMessage(timestamp, values);
    }

    /** The branches of ForwardUp on the timestamp. */
    method ProcessMessage(timestamp: int, values: seq<string>) returns (r: Outcome)
      modifies this`timeStart, this`timePause, sim
      ensures match MessageEffect(old(View()), Header(timestamp, values))
              case Failed(e) => r == Fatal(e)
              case Ok(g) => r == Done && View() == g
      ensures
        if timestamp < 0 then
          r == Done && sim.halted && timeStart == old(timeStart) && timePause == old(timePause)
          && sim.View() == old(sim.View())
        else if old(timeStart) < 0 then
          r == Done && sim.halted == old(sim.halted) && timeStart == timestamp && timePause == old(timePause)
          && sim.View() == old(sim.View()).Schedule(0, DoInitialize(values))
        else
          sim.halted == old(sim.halted) && timeStart == old(timeStart) && timePause == timestamp - timeStart
          && var k := if old(sim.View()).IsPending(eventWait)
                      then old(sim.View()).Cancel(eventWait) else old(sim.View());
             if timePause < old(sim.now) then r == Fatal(TimestampsNotIncreasing) && sim.View() == k
             else r == Done && sim.View() == k.Schedule(timePause - old(sim.now), Events.HandleUpdate(values))
    {
      if timestamp < 0 {
        sim.Halt();
      } else if timeStart < 0 {
        timeStart := timestamp;
        var _ := sim.Schedule(0, DoInitialize(values));
      } else {
        CancelWaitIfPending();
        timePause := timestamp - timeStart;
        var timeDelta := timePause - sim.now;
        if timeDelta < 0 { return Fatal(TimestampsNotIncreasing); }
        var _ := sim.Schedule(timeDelta, Events.HandleUpdate(values));
      }
      r := Done;
    }

    /** HandleUpdate up to its call of the user's DoUpdate. */
    method HandleUpdate()
      modifies this`eventWait, sim
      ensures View() == UpdateEffect(old(View()))
      ensures sim.halted == old(sim.halted)
      ensures eventWait == if sim.now == timePause then old(sim.nextId) else old(eventWait)
      ensures sim.View() == if sim.now == timePause then old(sim.View()).Schedule(0, Events.WaitForNextUpdate)
                            else old(sim.View())
    {
      if sim.now == timePause {
        eventWait := sim.Schedule(0, Events.WaitForNextUpdate);
      }
    }

    /** The receive thread, fed by the results of its recv calls, with no other thread running:
        it returns when the connection ends or when it would block, and at once when stopped. */
    method RunThread(script: seq<Recv>) returns (partial: string)
      requires delimiterMessage != ""
      modifies this`buffer, this`queue, sim
      ensures sim.halted == old(sim.halted)
      ensures state != CONNECTED ==>
                queue == old(queue) && buffer == partial == old(buffer) && sim.View() == old(sim.View())
      ensures state == CONNECTED ==>
                queue == old(queue) + Messages(old(buffer) + Received(script), delimiterMessage)
                && partial == Remainder(old(buffer) + Received(script), delimiterMessage) && buffer <= partial
                && |queue| >= |old(queue)|
                && sim.View() == var k := ScheduleForwards(old(sim.View()), |queue| - old(|queue|));
                                 if Ends(script) then k.ScheduleNow(Events.Stop) else k
    {
      partial := buffer;
      hide Split, Find, Received, Ends;
      var at := 0;
      ghost var stream, start, k, n := buffer + Received(script), sim.View(), sim.View(), 0;
      ghost var taken: seq<string>, left := [], stream;
      assert script[0..] == script;
      while state == CONNECTED
        invariant sim.halted == old(sim.halted)
        invariant 0 <= at <= |script| && Ends(script[at..]) == Ends(script)
        invariant left == buffer + Received(script[at..])
        invariant taken + Split(left, delimiterMessage) == Split(stream, delimiterMessage)
        invariant queue == old(queue) + taken
        invariant state != CONNECTED ==> taken == [] && partial == buffer == old(buffer)
        invariant n == |taken| && sim.View() == k && k == ScheduleForwards(start, n)
        decreases |left|
      {
        var more;
        more, partial, at := ForwardOne(script, at);
        if !more {
          assert Messages(stream, delimiterMessage) == taken;
          return;
        }
        left := buffer + Received(script[at..]);
        AppendOne(taken, Last(queue), Split(left, delimiterMessage));
        taken, n, k := taken + [Last(queue)], n + 1, k.ScheduleNow(Events.ForwardUp);
      }
    }

    /** One round of RunThread's loop. */
    method ForwardOne(script: seq<Recv>, from: nat) returns (more: bool, receivedData: string, at: nat)
      requires delimiterMessage != "" && from <= |script|
      modifies this`buffer, this`queue, sim
      ensures from <= at <= |script| && Ends(script[at..]) == Ends(script[from..])
      ensures sim.halted == old(sim.halted)
      ensures more ==> |queue| > 0 && queue == old(queue) + [Last(queue)]
      ensures more ==> (Split(old(buffer) + Received(script[from..]), delimiterMessage)
                        == [Last(queue)] + Split(buffer + Received(script[at..]), delimiterMessage))
      ensures more ==> |buffer + Received(script[at..])| < |old(buffer) + Received(script[from..])|
      ensures more ==> sim.View() == old(sim.View()).ScheduleNow(Events.ForwardUp)
      ensures !more ==> queue == old(queue) && buffer == old(buffer) && buffer <= receivedData
      ensures !more ==> Split(old(buffer) + Received(script[from..]), delimiterMessage) == [receivedData]
      ensures !more ==> sim.View() == if Ends(script[from..]) then old(sim.View()).ScheduleNow(Events.Stop)
                                      else old(sim.View())
    {
      var messageSize;
      receivedData, at, messageSize := ReceiveMessage(script, from);
      more := messageSize.Some?;
      if !more {
        assert receivedData + "" == receivedData;
        if at < |script| { // the connection closed or failed
          var _ := sim.Schedule(0, Events.Stop);
        }
      } else {
        SplitHead(receivedData, Received(script[at..]), delimiterMessage);
        Push(receivedData, messageSize.value);
      }
    }

    /** The critical section of RunThread and the schedule after it. */
    method Push(receivedData: string, messageSize: nat)
      requires messageSize + |delimiterMessage| <= |receivedData|
      modifies this`buffer, this`queue, sim
      ensures buffer == receivedData[messageSize + |delimiterMessage|..]
      ensures queue == old(queue) + [receivedData[..messageSize]]
      ensures sim.View() == old(sim.View()).ScheduleNow(Events.ForwardUp) && sim.halted == old(sim.halted)
    {
      var receivedMessage := receivedData[..messageSize];
      buffer := receivedData[messageSize + |delimiterMessage|..];
      queue := queue + [receivedMessage];
      var _ := sim.Schedule(0, Events.ForwardUp);
    }

    /** The inner loop of RunThread. Before every recv, so before the last one too, the bytes held so far
        contain no complete message. Without a message the loop stops at the recv that ends the
        connection, or after the last one if the next recv blocks. */
    method ReceiveMessage(script: seq<Recv>, from: nat)
      returns (receivedData: string, at: nat, messageSize: Option<nat>)
      requires from <= |script|
      ensures from <= at <= |script| && Ends(script[at..]) == Ends(script[from..])
      ensures buffer <= receivedData && messageSize == Find(receivedData, delimiterMessage)
      ensures receivedData + Received(script[at..]) == buffer + Received(script[from..])
      ensures messageSize.None? ==> Received(script[at..]) == "" && (at < |script| ==> !script[at].Data?)
      ensures at > from ==>
                script[at - 1].Data? && exists p: string ::
                  buffer <= p && receivedData == p + script[at - 1].bytes && Find(p, delimiterMessage).None?
    {
      hide Find, Contains, Split, Join, Print, Responses;
      receivedData, at := buffer, from;
      messageSize := Find(receivedData, delimiterMessage);
      while messageSize.None?
        invariant from <= at <= |script| && Ends(script[at..]) == Ends(script[from..])
        invariant buffer <= receivedData && messageSize == Find(receivedData, delimiterMessage)
        invariant receivedData + Received(script[at..]) == buffer + Received(script[from..])
        invariant at > from ==>
                    script[at - 1].Data? && exists p: string ::
                      buffer <= p && receivedData == p + script[at - 1].bytes && Find(p, delimiterMessage).None?
        decreases |script| - at
      {
        if at == |script| || !script[at].Data? { return; }
        ghost var p, rest := receivedData, Received(script[at + 1..]);
        assert script[at..][1..] == script[at + 1..];
        assert receivedData + (script[at].bytes + rest) == receivedData + script[at].bytes + rest;
        receivedData := receivedData + script[at].bytes;
        at := at + 1;
        assert receivedData == p + script[at - 1].bytes && Find(p, delimiterMessage).None?;
        messageSize := Find(receivedData, delimiterMessage);
      }
    }
  }

  lemma AppendOne(a: seq<string>, x: string, b: seq<string>)
    ensures a + ([x] + b) == a + [x] + b
  {
  }
}
