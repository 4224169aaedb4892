/** The example server: the bytes its message loop writes. The random numbers and the results of its
    recv calls are parameters. */
module SimpleServer {
  import opened Words
  import opened Numbers
  import opened Framing
  import opened Encoding

  const UINT16: nat := 0x1_0000
  const UINT32: nat := 0x1_0000_0000

  /** The three vectors of the server; broadcast holds 0 or 1. */
  datatype World = World(xPosition: seq<nat>, xVelocity: seq<nat>, broadcast: seq<nat>)

  /** The two random draws for one vehicle: the new velocity and a coin. */
  datatype Roll = Roll(velocity: nat, coin: bool)

  ghost predicate WorldOf(w: World, n: nat)
  {
    |w.xPosition| == n && |w.xVelocity| == n && |w.broadcast| == n
    && (forall i :: 0 <= i < n ==> w.xPosition[i] < UINT16 && w.xVelocity[i] < UINT16 && w.broadcast[i] <= 1)
  }

  ghost predicate RollsFor(rolls: seq<Roll>, n: nat)
  {
    |rolls| == n && forall i :: 0 <= i < n ==> rolls[i].velocity < UINT16
  }

  /** One vehicle's movement at the end of iteration i. */
  function MoveVehicle(w: World, i: nat, k: nat, roll: Roll): World
    requires k < |w.xPosition| == |w.xVelocity| == |w.broadcast|
  {
    World(w.xPosition[k := (w.xPosition[k] + roll.velocity) % UINT16],
          w.xVelocity[k := roll.velocity],
          w.broadcast[k := if i % 5 == 0 && roll.coin then 1 else 0])
  }

  /** The movement loop over the first k vehicles. */
  function Moved(w: World, i: nat, rolls: seq<Roll>, k: nat): (r: World)
    requires k <= |rolls| == |w.xPosition| == |w.xVelocity| == |w.broadcast|
    ensures |r.xPosition| == |r.xVelocity| == |r.broadcast| == |w.xPosition|
  {
    if k == 0 then w else MoveVehicle(Moved(w, i, rolls, k - 1), i, k - 1, rolls[k - 1])
  }

  lemma {:induction false} MovedIsWorld(w: World, i: nat, rolls: seq<Roll>, k: nat, n: nat)
    requires WorldOf(w, n) && RollsFor(rolls, n) && k <= n
    ensures WorldOf(Moved(w, i, rolls, k), n)
  {
    if k > 0 { MovedIsWorld(w, i, rolls, k - 1, n); }
  }

  /** Every vehicle moves once, by its own draw; the coin counts in every fifth iteration only. */
  lemma {:induction false} MovedAt(w: World, i: nat, rolls: seq<Roll>, k: nat, j: nat)
    requires k <= |rolls| == |w.xPosition| == |w.xVelocity| == |w.broadcast| && j < |rolls|
    ensures var r, roll := Moved(w, i, rolls, k), rolls[j];
            r.xPosition[j] == (if j < k then (w.xPosition[j] + roll.velocity) % UINT16 else w.xPosition[j])
            && r.xVelocity[j] == (if j < k then roll.velocity else w.xVelocity[j])
            && r.broadcast[j] == if j >= k then w.broadcast[j] else if i % 5 == 0 && roll.coin then 1 else 0
  {
    if k > 0 { MovedAt(w, i, rolls, k - 1, j); }
  }

  function Zeros(n: nat): (r: seq<nat>)
    ensures |r| == n && forall i :: 0 <= i < n ==> r[i] == 0
  {
    seq(n, _ => 0)
  }

  /** The vectors at the start of iteration i. */
  function WorldAt(n: nat, rolls: seq<seq<Roll>>, i: nat): (w: World)
    requires i <= |rolls| && forall j :: 0 <= j < |rolls| ==> |rolls[j]| == n
    ensures |w.xPosition| == |w.xVelocity| == |w.broadcast| == n
  {
    if i == 0 then World(Zeros(n), Zeros(n), Zeros(n)) else Moved(WorldAt(n, rolls, i - 1), i - 1, rolls[i - 1], n)
  }

  lemma {:induction false} WorldAtIsWorld(n: nat, rolls: seq<seq<Roll>>, i: nat)
    requires i <= |rolls| && forall j :: 0 <= j < |rolls| ==> |rolls[j]| == n && RollsFor(rolls[j], n)
    ensures WorldOf(WorldAt(n, rolls, i), n)
  {
    if i > 0 {
      WorldAtIsWorld(n, rolls, i - 1);
      MovedIsWorld(WorldAt(n, rolls, i - 1), i - 1, rolls[i - 1], n, n);
    }
  }

  /** How far vehicle k has been told to move before iteration i. */
  function Travelled(rolls: seq<seq<Roll>>, i: nat, k: nat): nat
    requires i <= |rolls| && forall j :: 0 <= j < |rolls| ==> k < |rolls[j]|
  {
    if i == 0 then 0 else Travelled(rolls, i - 1, k) + rolls[i - 1][k].velocity
  }

  /** The vectors in closed form: everything is zero at first; then a position is the sum of all draws so
      far in 16 bits, a velocity the last draw, and a flag the last coin, after every fifth iteration. */
  lemma {:induction false} WorldIs(n: nat, rolls: seq<seq<Roll>>, i: nat, k: nat)
    requires i <= |rolls| && (forall j :: 0 <= j < |rolls| ==> |rolls[j]| == n) && k < n
    ensures var w := WorldAt(n, rolls, i);
            w.xPosition[k] == Travelled(rolls, i, k) % 65536
            && w.xVelocity[k] == (if i == 0 then 0 else rolls[i - 1][k].velocity)
            && w.broadcast[k] == if i > 0 && (i - 1) % 5 == 0 && rolls[i - 1][k].coin then 1 else 0
  {
    hide Moved;
    if i > 0 {
      WorldIs(n, rolls, i - 1, k);
      MovedAt(WorldAt(n, rolls, i - 1), i - 1, rolls[i - 1], n, k);
      var t, v := Travelled(rolls, i - 1, k), rolls[i - 1][k].velocity;
      assert (t % 65536 + v) % 65536 == (t + v) % 65536;
    }
  }

  // ----- one step message

  /** Position x, y, z, velocity x, y, z and the broadcast flag of vehicle k. */
  function VehicleFields(w: World, k: nat): seq<string>
    requires k < |w.xPosition| == |w.xVelocity| == |w.broadcast|
  {
    [ToString(w.xPosition[k]), ToString(k), "0", ToString(w.xVelocity[k]), "0", "0", ToString(w.broadcast[k])]
  }

  function RecordFields(w: World, k: nat): (r: seq<string>)
    requires k <= |w.xPosition| == |w.xVelocity| == |w.broadcast|
    ensures |r| == 7 * k
  {
    if k == 0 then [] else RecordFields(w, k - 1) + VehicleFields(w, k - 1)
  }

  function StepFields(time: nat, w: World): seq<string>
    requires |w.xPosition| == |w.xVelocity| == |w.broadcast|
  {
    [ToString(time), "0"] + RecordFields(w, |w.xPosition|)
  }

  lemma {:induction false} RecordFieldsAreDigits(w: World, k: nat)
    requires k <= |w.xPosition| == |w.xVelocity| == |w.broadcast|
    ensures DigitFields(RecordFields(w, k))
  {
    if k > 0 {
      RecordFieldsAreDigits(w, k - 1);
      VehicleFieldsAreDigits(w, k - 1);
      forall v | v in RecordFields(w, k) ensures AllDigits(v) {
        assert v in RecordFields(w, k - 1) || v in VehicleFields(w, k - 1);
      }
    }
  }

  lemma VehicleFieldsAreDigits(w: World, k: nat)
    requires k < |w.xPosition| == |w.xVelocity| == |w.broadcast|
    ensures DigitFields(VehicleFields(w, k))
  {
    ToStringDigits(w.xPosition[k]);
    ToStringDigits(k);
    ToStringDigits(w.xVelocity[k]);
    ToStringDigits(w.broadcast[k]);
  }

  lemma StepFieldsAreDigits(time: nat, w: World)
    requires |w.xPosition| == |w.xVelocity| == |w.broadcast|
    ensures DigitFields(StepFields(time, w)) && |StepFields(time, w)| >= 2
  {
    ToStringDigits(time);
    RecordFieldsAreDigits(w, |w.xPosition|);
  }

  /** Field j of vehicle k. */
  lemma {:induction false} FieldAt(w: World, n: nat, k: nat, j: nat)
    requires k < n <= |w.xPosition| == |w.xVelocity| == |w.broadcast| && j < 7
    ensures 7 * k + j < |RecordFields(w, n)| && RecordFields(w, n)[7 * k + j] == VehicleFields(w, k)[j]
  {
    if k < n - 1 { FieldAt(w, n - 1, k, j); }
  }

  lemma {:induction false} JoinConcat(a: seq<string>, b: seq<string>, d: string)
    requires a != [] && b != []
    ensures Join(a + b, d) == Join(a, d) + d + Join(b, d)
  {
    if |a| == 1 {
      assert (a + b)[1..] == b;
    } else {
      assert (a + b)[1..] == a[1..] + b;
      JoinConcat(a[1..], b, d);
    }
  }

  function Seven(a: string, b: string, c: string, d: string, e: string, f: string, g: string): string
  {
    a + " " + b + " " + c + " " + d + " " + e + " " + f + " " + g
  }

  lemma JoinSeven(a: string, b: string, c: string, d: string, e: string, f: string, g: string)
    ensures Join([a, b, c, d, e, f, g], SP) == Seven(a, b, c, d, e, f, g)
  {
    hide Join;
    assert forall x: string :: Join([x], SP) == x by { forall x: string ensures Join([x], SP) == x { JoinOne(x); } }
    JoinConcat([a], [b], SP);
    JoinConcat([a, b], [c], SP);
    JoinConcat([a, b, c], [d], SP);
    JoinConcat([a, b, c, d], [e], SP);
    JoinConcat([a, b, c, d, e], [f], SP);
    JoinConcat([a, b, c, d, e, f], [g], SP);
    assert [a] + [b] == [a, b] && [a, b] + [c] == [a, b, c] && [a, b, c] + [d] == [a, b, c, d];
    assert [a, b, c, d] + [e] == [a, b, c, d, e] && [a, b, c, d, e] + [f] == [a, b, c, d, e, f];
    assert [a, b, c, d, e, f] + [g] == [a, b, c, d, e, f, g];
  }

  lemma JoinOne(x: string)
    ensures Join([x], SP) == x
  {
  }

  /** The message-building loop of the server. */
  method FormatStep(timeNow: nat, w: World) returns (message: string)
    requires |w.xPosition| == |w.xVelocity| == |w.broadcast|
    ensures message == Join(StepFields(timeNow, w), SP)
  {
    message := ToString(timeNow) + " 0";
    ghost var header := [ToString(timeNow), "0"];
    assert header == [ToString(timeNow)] + ["0"];
    JoinConcat([ToString(timeNow)], ["0"], SP);
    assert header + RecordFields(w, 0) == header;
    for n := 0 to |w.xPosition|
      invariant message == Join(header + RecordFields(w, n), SP)
    {
      message := message + " " + ToString(w.xPosition[n]) + " " + ToString(n) + " 0";
      message := message + " " + ToString(w.xVelocity[n]) + " 0 0";
      message := message + " " + ToString(w.broadcast[n]);
      StepOneVehicle(header, w, n, message);
    }
  }

  lemma StepOneVehicle(header: seq<string>, w: World, n: nat, message: string)
    requires header != [] && n < |w.xPosition| == |w.xVelocity| == |w.broadcast|
    requires message == Join(header + RecordFields(w, n), SP)
                        + " " + ToString(w.xPosition[n]) + " " + ToString(n) + " 0"
                        + " " + ToString(w.xVelocity[n]) + " 0 0" + " " + ToString(w.broadcast[n])
    ensures message == Join(header + RecordFields(w, n + 1), SP)
  {
    hide Join, ToString;
    var v := VehicleFields(w, n);
    JoinConcat(header + RecordFields(w, n), v, SP);
    JoinSeven(v[0], v[1], v[2], v[3], v[4], v[5], v[6]);
    assert v == [v[0], v[1], v[2], v[3], v[4], v[5], v[6]];
    assert header + RecordFields(w, n) + v == header + RecordFields(w, n + 1);
    assert message == Join(header + RecordFields(w, n), SP) + SP + Seven(v[0], v[1], v[2], v[3], v[4], v[5], v[6]);
  }

  // ----- the whole protocol

  /** timeStart, timeDelta and iterations of the command line, n vehicles, and the draws of each move. */
  datatype Plan = Plan(timeStart: nat, timeDelta: nat, iterations: nat, n: nat, rolls: seq<seq<Roll>>)

  ghost predicate ValidPlan(p: Plan)
  {
    p.iterations < UINT32 && p.timeStart < UINT32 && p.timeDelta < UINT32 && p.n < UINT16
    && |p.rolls| == p.iterations && forall j :: 0 <= j < |p.rolls| ==> |p.rolls[j]| == p.n && RollsFor(p.rolls[j], p.n)
  }

  /** A plan under which the server sends anything at all. */
  ghost predicate GoodPlan(p: Plan)
  {
    ValidPlan(p) && p.iterations >= 1
  }

  /** The uint32 clock of iteration i. */
  function TimeOf(p: Plan, i: nat): nat
  {
    (p.timeStart + p.timeDelta * i) % UINT32
  }

  function StepVector(p: Plan, i: nat): seq<string>
    requires ValidPlan(p) && i < p.iterations
  {
    StepFields(TimeOf(p, i), WorldAt(p.n, p.rolls, i))
  }

  /** The field vectors of the first k step messages. */
  function Vectors(p: Plan, k: nat): (r: seq<seq<string>>)
    requires ValidPlan(p) && k <= p.iterations
    ensures |r| == k
  {
    if k == 0 then [] else Vectors(p, k - 1) + [StepVector(p, k - 1)]
  }

  /** Every field of step i, in closed form: the 32-bit time, "0", and seven numbers for each vehicle. */
  lemma StepVectorIs(p: Plan, i: nat, k: nat)
    requires ValidPlan(p) && i < p.iterations && k < p.n
    ensures var v, t := StepVector(p, i), 2 + 7 * k;
            |v| == 2 + 7 * p.n
            && v[0] == ToString((p.timeStart + p.timeDelta * i) % 4294967296) && v[1] == "0"
            && v[t] == ToString(Travelled(p.rolls, i, k) % 65536) && v[t + 1] == ToString(k) && v[t + 2] == "0"
            && v[t + 3] == ToString(if i == 0 then 0 else p.rolls[i - 1][k].velocity) && v[t + 4] == "0"
            && v[t + 5] == "0"
            && v[t + 6] == if i > 0 && (i - 1) % 5 == 0 && p.rolls[i - 1][k].coin then "1" else "0"
  {
    hide ToString, RecordFields, WorldAt, StepVector, Travelled;
    StepHeader(p, i);
    WorldIs(p.n, p.rolls, i, k);
    SmallNumbers();
    StepFieldAt(p, i, k, 0);
    StepFieldAt(p, i, k, 1);
    StepFieldAt(p, i, k, 2);
    StepFieldAt(p, i, k, 3);
    StepFieldAt(p, i, k, 4);
    StepFieldAt(p, i, k, 5);
    StepFieldAt(p, i, k, 6);
  }

  lemma StepHeader(p: Plan, i: nat)
    requires ValidPlan(p) && i < p.iterations
    ensures var v := StepVector(p, i);
            |v| == 2 + 7 * p.n && v[0] == ToString((p.timeStart + p.timeDelta * i) % 4294967296) && v[1] == "0"
  {
    hide ToString, RecordFields, WorldAt;
  }

  lemma StepFieldAt(p: Plan, i: nat, k: nat, j: nat)
    requires ValidPlan(p) && i < p.iterations && k < p.n && j < 7
    ensures 2 + 7 * k + j < |StepVector(p, i)|
    ensures StepVector(p, i)[2 + 7 * k + j] == VehicleFields(WorldAt(p.n, p.rolls, i), k)[j]
  {
    hide ToString, RecordFields, WorldAt, VehicleFields;
    FieldAt(WorldAt(p.n, p.rolls, i), p.n, k, j);
  }

  lemma SmallNumbers()
    ensures ToString(0) == "0" && ToString(1) == "1"
  {
  }

  const TERMINATE: seq<string> := ["-1", "0"]

  lemma TerminateText()
    ensures Join(TERMINATE, SP) == "-1 0"
  {
    assert TERMINATE[1..] == ["0"];
  }

  /** How the message loop ends. */
  datatype Ending = Finished | ClientClosed | SendFailed | ReceiveFailed

  /** The main loop; without iterations it sends nothing, not even the terminate message. sends[i] is
      whether the i-th send succeeds, received[i] the result of the i-th recv. The run is stopped by the
      first send that fails or recv that returns -1 or 0, in iteration at. */
  method Serve(p: Plan, sends: seq<bool>, received: seq<int>) returns (sent: string, ending: Ending, at: nat)
    requires ValidPlan(p) && |received| >= p.iterations && |sends| >= p.iterations + 1
    requires forall i :: 0 <= i < p.iterations ==> received[i] >= -1
    ensures at <= p.iterations && forall j :: 0 <= j < at ==> sends[j] && received[j] > 0
    ensures at == p.iterations ==> ending == if p.iterations == 0 || sends[at] then Finished else SendFailed
    ensures at < p.iterations ==>
              ending == if !sends[at] then SendFailed else if received[at] == -1 then ReceiveFailed else ClientClosed
    ensures at < p.iterations && sends[at] ==> received[at] <= 0
    ensures sent == match ending
                    case Finished => SentAll(p)
                    case SendFailed => SentSteps(p, at)
                    case _ => if at < p.iterations then SentSteps(p, at + 1) else ""
    ensures p.iterations > 0 && sends[0] ==> SentSteps(p, 1) <= sent
    ensures ending == Finished && p.iterations > 0 ==> sent == SentSteps(p, p.iterations) + "-1 0\r\n"
    ensures ending == Finished && p.iterations == 0 ==> sent == ""
  {
    hide Print, Vectors, WorldAt, StepFields, Moved, Join;
    sent := "";
    var w := World(Zeros(p.n), Zeros(p.n), Zeros(p.n));
    NothingSent(p);
    for i := 0 to p.iterations
      invariant i < p.iterations ==> w == WorldAt(p.n, p.rolls, i)
      invariant sent == if i < p.iterations then SentSteps(p, i) else SentAll(p)
      invariant forall j :: 0 <= j < i ==> sends[j] && received[j] > 0
      invariant i > 0 ==> SentSteps(p, 1) <= sent
      invariant i == p.iterations ==> i == 0 || sends[i]
    {
      var timeNow := (p.timeStart + p.timeDelta * i) % UINT32;
      var message := FormatStep(timeNow, w);
      message := message + "\r\n";
      if !sends[i] {
        return sent, SendFailed, i;
      }
      sent := sent + message;
      SentStep(p, i);
      SentFirst(p, i + 1);
      if received[i] == -1 {
        return sent, ReceiveFailed, i;
      } else if received[i] == 0 {
        return sent, ClientClosed, i;
      }
      if i == p.iterations - 1 {
        message := "-1 0\r\n";
        TerminateText();
        PrintAppend(Vectors(p, i + 1), TERMINATE, SP, CRLF);
        assert message == Join(TERMINATE, SP) + CRLF;
        if !sends[i + 1] {
          return sent, SendFailed, i + 1;
        }
        sent := sent + message;
      } else {
        w := MoveAll(w, i, p.rolls[i]);
        NextWorld(p, i);
      }
    }
    ending, at := Finished, p.iterations;
    if p.iterations > 0 { SentTerminate(p); }
  }

  lemma {:induction false} SentFirst(p: Plan, k: nat)
    requires ValidPlan(p) && 1 <= k <= p.iterations
    ensures SentSteps(p, 1) <= SentSteps(p, k)
  {
    hide SentSteps, StepVector, Join;
    if k > 1 {
      SentFirst(p, k - 1);
      SentStep(p, k - 1);
    }
  }

  lemma SentTerminate(p: Plan)
    requires ValidPlan(p) && p.iterations > 0
    ensures SentAll(p) == SentSteps(p, p.iterations) + "-1 0\r\n"
  {
    hide Print, Join, Vectors;
    TerminateText();
    PrintAppend(Vectors(p, p.iterations), TERMINATE, SP, CRLF);
    assert Join(TERMINATE, SP) + CRLF == "-1 0\r\n";
  }

  /** The bytes of the first k step messages, and of the complete protocol. */
  function SentSteps(p: Plan, k: nat): string
    requires ValidPlan(p) && k <= p.iterations
  {
    Print(Vectors(p, k), SP, CRLF)
  }

  function SentAll(p: Plan): string
    requires ValidPlan(p)
  {
    if p.iterations == 0 then "" else Print(Vectors(p, p.iterations) + [TERMINATE], SP, CRLF)
  }

  lemma NothingSent(p: Plan)
    requires ValidPlan(p)
    ensures SentSteps(p, 0) == "" && WorldAt(p.n, p.rolls, 0) == World(Zeros(p.n), Zeros(p.n), Zeros(p.n))
  {
  }

  lemma NextWorld(p: Plan, i: nat)
    requires ValidPlan(p) && i < p.iterations
    ensures WorldAt(p.n, p.rolls, i + 1) == Moved(WorldAt(p.n, p.rolls, i), i, p.rolls[i], p.n)
  {
  }

  lemma SentStep(p: Plan, i: nat)
    requires ValidPlan(p) && i < p.iterations
    ensures SentSteps(p, i + 1) == SentSteps(p, i) + (Join(StepVector(p, i), SP) + CRLF)
  {
    hide Print, StepFields, WorldAt, Join;
    PrintAppend(Vectors(p, i), StepVector(p, i), SP, CRLF);
  }

  /** The movement loop. */
  method MoveAll(w0: World, i: nat, rolls: seq<Roll>) returns (w: World)
    requires |rolls| == |w0.xPosition| == |w0.xVelocity| == |w0.broadcast|
    ensures w == Moved(w0, i, rolls, |rolls|)
  {
    var xPosition: seq<nat>, xVelocity: seq<nat>, broadcast: seq<nat> := w0.xPosition, w0.xVelocity, w0.broadcast;
    for n := 0 to |rolls|
      invariant |xPosition| == |xVelocity| == |broadcast| == |rolls|
      invariant World(xPosition, xVelocity, broadcast) == Moved(w0, i, rolls, n)
    {
      xVelocity := xVelocity[n := rolls[n].velocity];
      xPosition := xPosition[n := (xPosition[n] + xVelocity[n]) % UINT16];
      broadcast := broadcast[n := if i % 5 == 0 && rolls[n].coin then 1 else 0];
    }
    w := World(xPosition, xVelocity, broadcast);
  }
}
