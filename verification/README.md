# Verified model of the ns-3 gateway and the triggered send application

The gateway couples an ns-3 simulation to a remote server: the server sends time-stamped messages, a
receive thread frames them and hands them to the simulator thread, and a self-rescheduling wait event
freezes the simulation clock until the server grants more time. The triggered send application sends
packets at a fixed interval on request and resolves requests that interrupt each other. This project
models both, together with the example server and the example gateway, and proves what they promise.

`dafny verify dfyconfig.toml` checks everything.

## How it is modelled

- **Kernel** (`Events.dfy`). Events run in the order of time, then insertion. `ScheduleNow` appends at
  the current time, `Cancel` removes a pending event, and the executing event counts as expired. Nothing
  else is assumed about ns-3.
- **Objects** (`Gateway.dfy`, `Sender.dfy`, `SimpleGateway.dfy`) have the fields of the C++ classes and
  methods that update them in place, with the loops of the source. Every event handler is proved equal to
  an *effect function* on the abstract state (`GatewayEffects.dfy`, top of `Sender.dfy`), and its contract
  states the new state without that function as well. Results of operating-system calls (socket, connect,
  bind, send, recv) are parameters.
- **Runs** (`GatewayRuns.dfy`, `SenderRuns.dfy`) are arbitrary finite sequences of enabled actions. For the
  gateway the receive thread's atomic sections, recv results of any size from 1 to 4096 bytes, the
  simulator's events, events of other models, `Simulator::Stop` and `Simulator::Destroy` interleave
  freely. The simulator's actions apply the effect functions, so the theorems about runs are about the
  handlers; the thread's actions add up to the `RunThread` method (`GatewayThread.dfy`).
- **Words** (`Words.dfy`, `Framing.dfy`, `FramingExact.dfy`) treat delimiters as arbitrary non-empty strings.
- **The pair** (`LockStep*.dfy`) composes the two-thread gateway, the decoding and answering of the example
  gateway and the loop of the example server over one byte stream each way.

## What is proved

1. *Framing.* For every number n of values there is an exact criterion on the two delimiters under which
   all responses of n values are read back; for all n at once it says that the delimiters never overlap.
   However recv cuts the stream, no byte is lost or reordered.
2. *Time grants.* While the gateway is connected, either a wait event is pending now or an update is
   pending at exactly the granted pause time, so no event ever runs later than the last grant. This needs
   nothing from the server.
3. *What a server may send.* For every byte stream, judged by its messages before the terminate message
   or the first invalid header: some run processes them all iff no grant is before `Connect`; no run
   raises the "not increasing" error iff, besides, the stamps never decrease; no run has two wait events
   iff, besides, they increase from the second message on; every grant releases the clock iff they do so
   up to the last but one; and no run gets stuck before a granted time iff no stamp but the last is
   repeated. Each "only if" is a run of the model.
4. *Delivery.* With non-decreasing stamps the callbacks run in message order, once each, at the stamp
   minus the first stamp, and some run delivers them all.
5. *Shutdown.* Every complete message is processed before the scheduled `Stop`, the socket is closed at
   most once, and afterwards the gateway's pending events only run down.
6. *Sender.* For requests at distinct times the packets follow a recursive arithmetic schedule, in every
   interleaving, none of them late, and the simulator alone can always complete it; packets are
   conserved; two attempts keep the interval iff no cancellation came between
   them or the request did not come too early.
7. *Lock step.* A plan of the example server is safe in every run iff its step times fit an int. Then
   callback *i* runs at clock `timeDelta * i` with exactly the server's vectors of step *i*, the server
   reads back exactly the counts the gateway answered, the two programs make a bounded number of moves,
   and from every reachable state the run can be finished by the terminate message. This includes
   `timeDelta` 0: a stamp is only repeated after the response to the previous one, when no update is
   pending (`RepeatedGrantIff`).

## Where code and documentation differ

The model follows the code.

- The repository's README.md:79-84 describes time as relative to the moment of `Connect`.
  model/gateway.cc:353-354 computes an absolute time: `UpdateTimes` states when the two agree (`Connect` at
  time 0), `DocumentedExample` shows that the example given there ends in an error, and `AbsoluteTimes` an
  update that runs at 5 s instead of 6 s.
- model/gateway.h:179 asks for increasing stamps. model/gateway.cc:355 compares with the current time, not
  with the last stamp, and allows 0. `AcceptableIff` and `AlarmUnreachableIff` state exactly what this
  accepts in some run and in every run (`DecreasingStamps`: 0, 2, 1 s); `OneWaitIff`, `GrantsReleaseIff`
  and `StuckIff` state what goes wrong with equal stamps (`RepeatedStamps`: 0, 0, 0, 1 s).
- model/gateway.h:68 and model/gateway.cc:67 only forbid a message delimiter inside the field delimiter.
  `ConstructorCheckTooWeak` gives accepted pairs that break the round trip.
- The repository's README.md:48-50 admits nanoseconds up to 10e9, ten seconds' worth. Then -1 s and 10^9 ns
  is stamp 0 and terminates nothing (`NegativeSecondsMayContinue`, `StampArithmetic`).
- model/gateway.h:87 speaks of a UDP socket; model/gateway.cc:87 opens a stream socket, so the bounds of a
  recv result carry no meaning.
- model/gateway.h:186 says HandleUpdate pauses when no message is queued; model/gateway.cc:369 pauses when
  the clock is at the last granted time.
- model/gateway.h:57 says a packet holds n strings; with n = 0 the server reads one empty field
  (`NoValuesReadAsOne`).
- examples/simple-gateway.cc:122-127 checks the size of the data in 32-bit arithmetic; `SizeCheckFailsIff`
  states when the check passes although an element is missing.
- examples/simple-gateway-server.cc:152 reads a response with one recv of at most 4095 bytes, which has room
  for every response if and only if there are at most 682 vehicles (`ResponseFitsIff`).
- Starting or stopping the sender cancels the event that guards the packet interval
  (`RestartForgetsInterval`, `SendKeepsIntervalIff`). Stopping also closes the socket without forgetting
  it, so that a stopped application hands its packets to a closed socket even after it has been started
  again (`StoppedSendsNothing`).

## Model

| member | source | states |
|---|---|---|
| Words.Find | model/gateway.cc:227 | the leftmost occurrence of the delimiter; none exactly when it does not occur |
| Words.JoinSplit | model/gateway.cc:308-315 | for every delimiter, the split pieces joined again are the message |
| Words.SplitPiecesFree | model/gateway.cc:308-315 | no piece contains the delimiter |
| Words.SplitAppend | model/gateway.cc:221-263 | splitting a prefix first and then the last piece with the rest gives the split of the whole |
| Words.SplitUndoesJoinIffUnbordered | model/gateway.cc:154-162 | splitting undoes joining for every non-empty list of delimiter-free values if and only if no proper prefix of the delimiter is also its suffix |
| Framing.OverlapFreeRoundTrip | model/gateway.cc:154-164 | with overlap-free delimiters, framing and splitting everything printed returns exactly the value vectors, and nothing is left over |
| FramingExact.RoundTripIffOverlapFree | model/gateway.cc:59-70 | for all numbers of values at once: every stream of responses that SetValue accepts is read back exactly if and only if the delimiters never overlap |
| Framing.DefaultsQualify | model/gateway.h:74-76 | the default delimiters are overlap free |
| FramingExact.OverlapFreeIsReadable | model/gateway.cc:59-70 | delimiters that never overlap meet the criterion of the next row for every number of values |
| FramingExact.RoundTripIffReadable | model/gateway.cc:125-164 | for each number n of values: every stream of responses is read back exactly if and only if the delimiters meet an explicit criterion in n (one value never needs the field delimiter; a message delimiter with more fields than a response cannot be met inside one) |
| FramingExact.ReadableRoundTrip | model/gateway.cc:154-164 | under that criterion framing and splitting everything printed returns the value vectors, and nothing is left over |
| FramingExact.ConstructorCheckTooWeak | model/gateway.cc:67-70 | field "," with message ";,", and field "aa" with message ";", pass the constructor's check and are unreadable from two values on; the second is readable with one |
| FramingExact.NoValuesReadAsOne | model/gateway.cc:154-164 | with dataSize 0 the printed response reads back as one empty field, for all delimiters |
| Framing.MessagesAppend | model/gateway.cc:221-263 | framing does not depend on where recv cuts the stream: the messages of x + y are those of x followed by those of x's remainder + y |
| Numbers.ParsePrintedSigned | model/gateway.cc:321-323 | std::stoi and std::stol read back any signed number that std::to_string printed, exactly when it fits 32 or 64 bits |
| Numbers.ParsesIffNumeral | model/gateway.cc:321-327 | a text is a number if and only if it is blanks, at most one sign, at least one digit and then anything that is no digit |
| Numbers.NumeralValue | model/gateway.cc:321-323 | its value is that of the digits, negated after a minus sign; blanks, a plus sign and what follows the digits do not count |
| Numbers.MagnitudeAppend | model/gateway.cc:321-323 | digits have their decimal place value, leading zeros none |
| Numbers.MagnitudeOfDigit | model/gateway.cc:321-323 | each of the ten digits has its value |
| Numbers.CharacterClasses | model/gateway.cc:321-323 | the ten digits, and the six blanks of isspace |
| Numbers.ToStringPlain | examples/simple-gateway-server.cc:135-140 | printed numbers have no leading zeros |
| Numbers.ParserBounds | model/gateway.cc:321-327 | stoi and stol fail beyond the bounds of int and of a 64-bit long |
| Numbers.StampArithmetic | model/gateway.cc:323-336 | on the documented wire range stamps and their differences from a non-negative start fit 64 bits, order is lexicographic after carrying whole seconds, and the terminate test is true if and only if the seconds are negative and the nanoseconds do not make up for them |
| Numbers.SplitSeconds | model/gateway.cc:323-336 | with less than a second of nanoseconds the pairs compare lexicographically and the seconds alone decide the terminate test |
| Numbers.NegativeSecondsMayContinue | model/gateway.cc:323-336 | -1 s and 10^9 ns is in the documented range and no terminate signal |
| Events.TakeSelect | model/triggered-send-application.cc:116-119 | running the next event moves the clock forward, removes that one event and leaves every other kind of event as it was |
| Gateway.Gateway.Create | model/gateway.cc:48-74 | the constructor's three checks in order, and the initial field values: every response value is the empty string |
| Gateway.Gateway.Connect | model/gateway.cc:77-122 | a second call and each failing operating-system call are fatal, each with its own error, and change nothing; otherwise the gateway is connected, with a wait event named by m_eventWait and a pending destroy event |
| Gateway.Gateway.SetValue | model/gateway.cc:125-142 | which of the three errors is reported (bad index, field delimiter, message delimiter, in this order), and exactly one element changes otherwise |
| Gateway.Gateway.FormatData | model/gateway.cc:154-162 | the message loop computes the values joined by the field delimiter |
| Gateway.Gateway.SendResponse | model/gateway.cc:145-170 | fatal unless connected; otherwise the stored values, joined and terminated, are appended to what the server will read, if send succeeds |
| Gateway.Gateway.ServerReadsResponses | model/gateway.cc:145-164 | at any time, framing and splitting all bytes sent gives back the value vectors of all responses, for delimiters that are readable for this number of values |
| Gateway.Gateway.Stop | model/gateway.cc:175-207 | the whole new state: stopping, closed once if it was connected, wait and destroy events cancelled |
| Gateway.Gateway.WaitForNextUpdate | model/gateway.cc:275-287 | the wait event replaces itself, and the one m_eventWait names, unless the gateway is stopping |
| Gateway.Gateway.SplitMessage | model/gateway.cc:307-315 | the in-place erase loop computes the leftmost non-overlapping split |
| Gateway.Gateway.ForwardUp | model/gateway.cc:290-362 | for every queue, message and clock, which of the errors, or the whole new state: the stamp is seconds times 10^9 plus nanoseconds of the first two fields, the callback gets the fields after them and is due at the stamp minus the first stamp |
| Gateway.Gateway.ProcessMessage | model/gateway.cc:332-361 | terminate, first and normal message, and the decreasing-stamp error, each with the whole new state |
| Gateway.Gateway.HandleUpdate | model/gateway.cc:365-375 | a new wait event exactly at the pause time |
| Gateway.Gateway.RunThread | model/gateway.cc:210-272 | for every sequence of recv results, exactly the messages of the whole stream are queued, each with one ForwardUp, then Stop if the connection ended; the partial message is the stream's remainder; once stopped it takes nothing |
| Gateway.Gateway.ForwardOne | model/gateway.cc:219-271 | one round takes the first message of the remaining stream, or finds that there is none |
| Gateway.Gateway.ReceiveMessage | model/gateway.cc:221-251 | recv is only called while no message is complete: before the last call there was none in the buffer; and nothing received is lost |
| Gateway.ConnectionEnds | model/gateway.cc:232-253 | bytes received count up to the first close or error, which ends the connection |
| GatewayThread.ThreadAlone | model/gateway.cc:210-272 | for every script of recv results there is a run of the thread's actions alone that ends in the post-state of RunThread: queue, scheduled events, partial message |
| GatewayThread.StoppedThreadLeaves | model/gateway.cc:219 | once the gateway is stopping the thread leaves its loop, takes nothing and never acts again |
| GatewayInvariants.StepKeeps | model/gateway.cc:210-375 | every action of either thread keeps the invariant: kernel, queue, framing, shutdown, header and grant parts |
| GatewayTheorems.InitialIff | model/gateway.cc:48-121 | runs start in exactly the states that the constructor and a successful Connect leave, with any events of other models pending |
| GatewayTheorems.EveryMoveIsCovered | model/gateway.cc:219-270 | runs leave nothing out: in every state the thread has its next step, recv may return any chunk or the end exactly while no message is complete, and the simulator and other models are free |
| GatewayInvariants.InitialInv | model/gateway.cc:110-121 | Connect establishes the invariant with its wait event as the only gateway event |
| GatewayInvariants.ForwardCases | model/gateway.cc:290-361 | ForwardUp always finds a message; it fails exactly on an invalid header or on a grant before the current time |
| GatewayTheorems.ClockIsHeldOrGranted | model/gateway.cc:344-373 | in every connected reachable state a wait event is pending now, or an update is pending at exactly the pause time, which is not in the past |
| GatewayTheorems.ClockNeverPassesGrant | model/gateway.cc:275-287 | no event runs later than the last grant (before the first grant: than Connect), and the clock moves only when no wait event is pending |
| GatewayTheorems.QueueMatchesForwards | model/gateway.cc:266-270 | queue length equals pending ForwardUp events, plus one exactly between push and schedule |
| GatewayTheorems.EmptyQueueUnreachable | model/gateway.cc:298-301 | the empty-queue error is unreachable in every interleaving |
| GatewayTheorems.StreamIsPreserved | model/gateway.cc:221-304 | processed, queued and buffered messages are, in this order, the leftmost split of all bytes received; none contains the delimiter and the remainder is the buffer's |
| GatewayTheorems.StopComesLast | model/gateway.cc:256-260 | when the Stop of a closed connection runs, every complete message received has been processed |
| GatewayTheorems.ClosedAtMostOnce | model/gateway.cc:175-192 | in every run the socket has been closed at most once, and exactly when the gateway is stopping |
| GatewayTheorems.DestroyCloses | model/gateway.cc:110-207 | in every reached state that is still connected when the simulation has ended, the destroy event stops the gateway: thread gone, one close, no wait event named |
| GatewayTheorems.StoppedSimulation | model/gateway.cc:332-336 | once the simulation is stopped no event runs: clock, processed messages and callbacks are final |
| GatewayTheorems.HaltStops | model/gateway.cc:332-336 | the same when another model stops it, at any time |
| GatewayTheorems.StopTwiceIsStop | model/gateway.cc:175-207 | from every state a second Stop does nothing: no second join, close or cancellation |
| GatewayTheorems.StoppedGatewayRunsDown | model/gateway.cc:277 | after Stop, every gateway event that runs lowers the weight of the pending ones, and nothing raises it |
| GatewayOrder.DeliveredInOrder | model/gateway.cc:338-361 | while the stamps processed do not decrease: callbacks run and callbacks pending are exactly the ideal callbacks of the messages processed; those run are a prefix of the ideal of the whole stream, and all of it once nothing is in between |
| GatewayOrder.UpdateTimes | model/gateway.cc:353-360 | every DoUpdate runs at its stamp minus the first stamp; that is the documented time relative to Connect if and only if Connect ran at time 0 |
| GatewayOrder.DecreasingBurstIsAccepted | model/gateway.cc:353-358 | in any state, of two messages handled at one instant the second may have the smaller stamp: both are accepted if and only if it is not in the past, and the gateway then pauses before the first one's update |
| GatewayOrder.AlarmIffBeforeConnect | model/gateway.cc:353-358 | while the stamps do not decrease the error is raised if and only if the second message asks for a time before Connect |
| GatewayOrder.NoFalseAlarm | model/gateway.cc:353-358 | with Connect at time 0 and non-decreasing stamps the error is unreachable in every interleaving |
| GatewayProgress.ExactlyOneHolder | model/gateway.cc:344-373 | while the stamps processed increase from the second message on, a wait event is pending if and only if no update is pending at the pause time; there is at most one, the one m_eventWait names |
| GatewayProgress.GrantReleasesClock | model/gateway.cc:344-361 | if the messages before it kept that rule, a normal message leaves no wait event, whatever its own stamp, and the new pause time is covered by its update |
| GatewayProgress.RepeatedGrantIff | model/gateway.cc:344-373 | a normal message leaves a single holder of the clock if and only if no update granted for the same time is still pending: stamps may repeat once the response has been read |
| GatewayProgress.StopReleasesClock | model/gateway.cc:194-198 | under the same rule Stop, from an event or at the end, leaves no wait event |
| GatewayPause.ClockStaysFrozen | model/gateway.cc:284-285 | while a wait event is pending and no message or close arrives, the clock does not move, however many events run |
| GatewayPause.DuplicateWaitsCollapse | model/gateway.cc:279-285 | a wait event that runs removes another one named by m_eventWait: the number of wait events drops by one then and stays the same otherwise |
| GatewayPause.ReleasedClockReachesPause | model/gateway.cc:353-373 | from a released state the simulator's events alone bring the clock to exactly the pause time, where it is held again |
| GatewayWaits.EventHolders | model/gateway.cc:275-287 | while connected no event but a message or Stop raises the number of wait events plus updates at the pause time, and of these events only a wait event lowers it |
| GatewayWaits.WaitsReachableIff | model/gateway.cc:369-373 | from a state without a wait event the simulator alone can reach n of them if and only if n updates are pending at the pause time |
| GatewayBurst.ServedFacts | model/gateway.cc:318-336 | the messages served of a stream are its longest prefix in which every header is valid and no stamp is negative |
| GatewayExact.AcceptableIff | model/gateway.cc:353-361 | for every stream, in any order: some run processes all messages served if and only if no grant is before Connect |
| GatewayExact.AlarmUnreachableIff | model/gateway.cc:353-358 | for every stream: no run raises the error if and only if the stamps served never decrease and no grant is before Connect |
| GatewayExact.EverythingIsDelivered | model/gateway.cc:338-375 | for every such stream some run calls back for each message served, in order and at exactly its time |
| GatewayExact.OneWaitIff | model/gateway.cc:365-375 | for such a stream no connected state of any run has two wait events if and only if the stamps served increase from the second message on |
| GatewayRelease.GrantsReleaseIff | model/gateway.cc:344-361 | for such a stream every normal message of every run leaves no wait event if and only if the stamps served increase from the second message to the last but one |
| GatewayFreeze.StuckIff | model/gateway.cc:344-373 | for such a stream some run comes to a standstill (connected, nothing under way, a later time granted, the clock fixed in every continuation in which the server neither sends nor hangs up) if and only if two messages after the first have the same stamp and the last stamp served is larger |
| GatewayFreeze.StuckRun | model/gateway.cc:344-373 | that run may have processed every message served |
| GatewayExamples.DocumentedExample | README.md:79-84 | Connect at 5 s, stamps 10 s and 11 s: a run ends in the error, and no run processes the second message |
| GatewayExamples.AbsoluteTimes | model/gateway.cc:353-360 | Connect at 1 s, stamps 10 s and 15 s: a run whose update is at 5 s |
| GatewayExamples.DecreasingStamps | model/gateway.cc:353-358 | stamps 0, 2, 1 s: one run processes all three messages, another ends in the error |
| GatewayExamples.RepeatedStamps | model/gateway.cc:369-373 | stamps 0, 0, 0, 1 s: a run that is stuck before the granted 1 s |
| GatewayExamples.TerminateEndsStream | model/gateway.cc:332-336 | a stream of the example server is judged by its steps alone, whatever follows its terminate message |
| GatewayExamples.FirstStampTwice | model/gateway.cc:338-343 | stamps 0, 0, 1, 2 s: never more than one wait event, because the first message schedules no update |
| Encoding.ParseHeader | model/gateway.cc:307-330 | for all signed seconds, nanoseconds and blank-free fields, a printed message parses to seconds times 10^9 plus nanoseconds and exactly those fields if and only if the seconds fit an int and the nanoseconds a long |
| Encoding.ParseSeconds | model/gateway.cc:318-330 | a printed step header parses to its stamp and the remaining fields if and only if the seconds fit an int |
| Encoding.ParseTerminate | examples/simple-gateway-server.cc:170 | "-1 0" parses to a negative stamp and no fields |
| Sender.TriggeredSendApplication.Send | model/triggered-send-application.cc:106-121 | a positive count is deferred to a request event at the current time, zero does nothing |
| Sender.TriggeredSendApplication.DoDispose | model/triggered-send-application.cc:124-132 | the pending send event is cancelled and the socket dropped |
| Sender.TriggeredSendApplication.StartApplication | model/triggered-send-application.cc:135-187 | fatal if a new socket cannot be set up; otherwise a socket exists, an old one as it was, and the event m_sendPacketEvent names is cancelled |
| Sender.TriggeredSendApplication.StopApplication | model/triggered-send-application.cc:190-204 | the event m_sendPacketEvent names is cancelled if it is pending; the socket is closed in every case, but kept |
| Sender.TriggeredSendApplication.CancelEvents | model/triggered-send-application.cc:221-230 | exactly the event m_sendPacketEvent names is removed |
| Sender.TriggeredSendApplication.ProcessSendRequest | model/triggered-send-application.cc:233-256 | the count is replaced and a pending send event reused, or a new one scheduled now; nothing without a connection |
| Sender.TriggeredSendApplication.SendPacket | model/triggered-send-application.cc:259-305 | one attempt and the next event one interval later while packets are left, traced as sent if the socket takes it; nothing otherwise; the value of the assertion |
| SenderRuns.SingleSenderEvent | model/triggered-send-application.cc:259-263 | in every run at most one SendPacket event is pending, m_sendPacketEvent names it, the assertion holds and the socket used is never null |
| SenderRuns.EveryCallIsCovered | model/triggered-send-application.cc:106-256 | runs leave nothing out: every call is possible in every state, and other models may schedule events at any time from now on |
| SenderRuns.DuePacketGoesFirst | model/triggered-send-application.cc:116-119 | a packet due when Send is called is sent or cancelled before the request takes effect, in every continuation |
| SenderRuns.PacketsAreConserved | model/triggered-send-application.cc:239-250 | packets of the requests taken = attempts + packets remaining + packets overwritten by later requests |
| SenderRuns.AttemptsAreSpaced | model/triggered-send-application.cc:239-250 | consecutive attempts are the interval apart if and only if no pending send event was cancelled in between or the last request came at least the interval after the first; after a cancellation the attempt is at the request's time |
| SenderRuns.SpacedWhileRunning | model/triggered-send-application.cc:239-250 | between two of start, stop and dispose, attempts i and j are at least (j - i) intervals apart under every pattern of calls and events |
| SenderRuns.SendKeepsIntervalIff | model/triggered-send-application.cc:239-250 | with nothing pending a call of Send leads to an attempt at that very time, so it keeps the interval if and only if the last attempt is at least the interval ago |
| SenderRuns.NothingSurvivesCancel | model/triggered-send-application.cc:221-230 | start, stop and dispose leave no send event, all request events, and the leftover count |
| SenderRuns.StoppedIsSilent | model/triggered-send-application.cc:190-204 | from every state: after a start or stop with no request under way nothing is sent before the next Send; after a disposal nothing before the next start |
| SenderRuns.StoppedSendsNothing | model/triggered-send-application.cc:135-204 | from every state with a socket, whatever is pending: after a stop every attempt until the next disposal is made on a closed socket, starts included |
| SenderSchedule.SenderFollowsSchedule | model/triggered-send-application.cc:233-305 | for requests at distinct times, while started and connected, the attempts are a prefix of the recursive slot schedule of the requests taken, with no slot and no request of the past missing, and all of it once nothing is pending; all of them are on an open socket |
| SenderSchedule.SenderCanFinish | model/triggered-send-application.cc:233-305 | from every such state the simulator alone completes the schedule of all calls and comes to rest |
| SenderExamples.ExampleCases | examples/triggered-send-example.cc:102-119 | the four documented cases are instances of the schedule |
| SenderExamples.ScheduleIsSpaced | model/triggered-send-application.cc:303 | the schedule itself keeps the interval, for all requests |
| SenderExamples.RestartForgetsInterval | model/triggered-send-application.cc:186-204 | for every positive interval a run makes two attempts at one time, the sender being started or stopped in between; after a start both are on an open socket, after a stop the second is not |
| SimpleServer.FormatStep | examples/simple-gateway-server.cc:134-141 | the building loop computes the step's fields joined by spaces |
| SimpleServer.MovedAt | examples/simple-gateway-server.cc:180-185 | each vehicle moves once by its own draw, modulo 2^16, and broadcasts only in every fifth iteration |
| SimpleServer.MoveAll | examples/simple-gateway-server.cc:180-185 | the movement loop computes that movement |
| SimpleServer.WorldIs | examples/simple-gateway-server.cc:125-185 | at every iteration, in closed form: positions are the sum of all draws so far modulo 2^16, velocities the last draw, flags the last coin after every fifth iteration, and all of them 0 at first |
| SimpleServer.StepVectorIs | examples/simple-gateway-server.cc:131-140 | every field of every step message in closed form |
| SimpleServer.WorldAtIsWorld | examples/simple-gateway-server.cc:125-127 | at every iteration the vectors hold uint16 values and flags 0 or 1 |
| SimpleServer.Serve | examples/simple-gateway-server.cc:129-187 | for all numbers of iterations and all results of send and recv: the iteration that ends the run and why, and exactly the bytes sent by then, the first step first; without iterations not even the terminate message |
| SimpleGateway.DecodePrinted | examples/simple-gateway.cc:117-138 | for every number of vehicles and all states, decoding the printed record gives position (x, k, 0), velocity (v, 0, 0) and the flag for vehicle k |
| SimpleGateway.StepCodec | examples/simple-gateway-server.cc:135-143 | a printed step, split and stripped of its header, has its time if that fits an int and decodes to exactly those commands |
| SimpleGateway.StepSent | examples/simple-gateway-server.cc:131-146 | the bytes of step i, and the time that its header parses to, if it fits an int |
| SimpleGateway.StepMeans | examples/simple-gateway-server.cc:131-146 | step i decodes, for every vehicle, to the position that all draws so far have led to, its last draw as velocity, and its flag |
| SimpleGateway.FirstStepIsRest | examples/simple-gateway-server.cc:125-146 | the first step finds every vehicle k at rest at (0, k, 0) and asks for no broadcast |
| SimpleGateway.DecodeOneIs | examples/simple-gateway.cc:122-138 | a record alone: too short, or not seven integers, or the vectors and the flag that its elements name, in order |
| SimpleGateway.DecodeStopsAt | examples/simple-gateway.cc:124-127 | the first short or malformed record decides the error |
| SimpleGateway.SizeCheckFailsIff | examples/simple-gateway.cc:122-130 | the size check lets a read past the end through if and only if its 32-bit sum wraps around to no more than the size, and the data has fewer than 2^32 elements |
| SimpleGateway.ResponseFitsIff | examples/simple-gateway-server.cc:122-152 | one recv of the server has room for every response of n vehicles if and only if n is at most 682 |
| SimpleGateway.SimpleGateway.HandleReceive | examples/simple-gateway.cc:100-104 | exactly one uint16 counter advances, or an out-of-range or unreadable id is an error |
| SimpleGateway.SimpleGateway.UpdateVehicle | examples/simple-gateway.cc:119-146 | one pass, with its 32-bit indices, sets one vehicle's position and velocity to elements 0 to 2 and 3 to 5 of its record, has it send three packets on a non-zero element 6, and stores its count as its response value, or reports what is wrong with the record |
| SimpleGateway.TriggersAre | examples/simple-gateway.cc:138-142 | exactly the flagged vehicles are told to send, each once, in order, three packets each |
| SimpleGateway.SimpleGateway.UpdateVehicles | examples/simple-gateway.cc:119-146 | all vehicles follow the decoded commands, and exactly the flagged ones are triggered, in order |
| SimpleGateway.SimpleGateway.DoUpdate | examples/simple-gateway.cc:113-148 | every vehicle gets the vectors its seven elements name, then exactly one response carries all counts, written if send succeeds; an error if a record is bad or the gateway is not connected |
| LockStep.SentTexts | examples/simple-gateway-server.cc:143-146 | the complete messages of the server's stream are exactly its steps so far, and the terminate message at the end |
| LockStep.TakenTexts | model/gateway.cc:221-270 | whatever has arrived, the messages the gateway has taken are a prefix of the server's messages |
| LockStep.NextCallback | examples/simple-gateway.cc:106-148 | the callback that runs next carries the server's next step at clock timeDelta * i |
| LockStep.Outstanding | examples/simple-gateway-server.cc:151-166 | there are bytes for the server to read exactly when one response is outstanding |
| LockStep.StepLocked | examples/simple-gateway-server.cc:129-187 | every move of server, receive thread, simulator and other models keeps the lock-step invariant |
| LockStep.LockStepIsSafe | examples/simple-gateway-server.cc:129-187 | in every run no fatal branch is taken, callback i applies exactly step i at clock timeDelta * i, the server is at most one step ahead of the responses and has read exactly the counts that answered it, and a stopped simulation was stopped by the terminate message after all steps |
| LockStep.StepAtIs | examples/simple-gateway.cc:117-142 | what callback i applies, in closed form: at i timeDeltas in nanoseconds, each vehicle at the sum of its draws so far |
| LockStep.AnswersAreHeard | examples/simple-gateway.cc:100-147 | in every run every number answered is the number of broadcasts that vehicle had received by then, modulo 2^16 |
| LockStepExact.LockStepSafeIffFits | examples/simple-gateway-server.cc:131 | for every plan: no run of the pair ends in a fatal error if and only if the step times fit an int |
| LockStepExact.FatalRun | examples/simple-gateway-server.cc:131-135 | every other plan has a run that ends with an invalid header, or with a time that has wrapped around and is not increasing |
| LockStepProgress.StepRank | examples/simple-gateway-server.cc:129-187 | every move but wait events and other models' events lowers the rank |
| LockStepProgress.LockStepIsBounded | examples/simple-gateway-server.cc:129-187 | the two programs make at most (bytes sent) + 7 * iterations + 7 moves, in every run |
| LockStepProgress.LockStepCanAlwaysFinish | examples/simple-gateway-server.cc:168-176 | from every reachable state the server and the gateway alone can finish the run: all steps applied, all responses read, stopped by the terminate message |

## Left out

- LockStep.LockStepIsSafe: the gateway's connection is assumed not to fail and other models not to stop the
  simulation; the server's recv returns all bytes of the outstanding response, which `ResponseFitsIff`
  bounds by the number of vehicles. There is at least one iteration: without any the server sends nothing.
  With no vehicles a response is the empty line, which is not read back as a vector of no values.
- SenderSchedule.SenderFollowsSchedule: requests at the same instant are not covered; which one wins then
  depends on whether a packet event runs between them.
- Numbers.StampArithmetic: the model's stamps are unbounded; outside the documented wire range (a nanosecond
  field beyond its range) 64-bit overflow is not modelled.
- Gateway.Gateway.RunThread: the method runs without interleaving and returns where the next recv would
  block; interleavings are the runs of GatewayRuns, where a state change is seen atomically.
- SimpleGateway.SimpleGateway.UpdateVehicle: a read past the end of the data is an error here; in the source
  its effect is undefined.
- GatewayTheorems.ClosedAtMostOnce: no run of the model reaches Stop twice; StopTwiceIsStop covers that call.
- Socket creation, address resolution, connect, bind and listen, beyond the error each of them leads to;
  random draws are parameters.
- The memory model of the non-atomic m_state, and a thread that is blocked in recv when Stop joins it:
  the end of the simulation is modelled for a thread at the top of its loop or already gone.
- User callbacks in the gateway's runs are recorded, not executed; only the lock-step pair runs a concrete one.
- The inheritance of the example gateway from the gateway is modelled by a field.
- ns-3 type registration, attributes, logging, traces, packet contents, address families and the helper class.
- A connection of the sender that fails later on (fatal), and what a socket does with a packet it has taken.
- 32-bit packet counts are natural numbers; they are only copied and decremented.
- The external mobility model and its example: plain setters and getters.
- Vehicle networks, broadcast reception and the set-up of the examples: they appear as events of other models.
