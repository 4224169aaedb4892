/** The example gateway: it decodes seven fields per vehicle, and answers every message with the
    number of broadcasts each vehicle has received. */
module SimpleGateway {
  import opened Words
  import opened Numbers
  import opened Framing
  import opened GatewayEffects
  import opened Encoding
  import opened Gateway
  import opened SimpleServer

  datatype Vector = Vector(x: int, y: int, z: int)

  /** What one record asks of its vehicle; send is the broadcast flag. */
  datatype Command = Command(position: Vector, velocity: Vector, send: bool)

  const ELEMENTS_PER_VEHICLE: nat := 7

  /** dataIndex + j, in uint32. */
  function Place(k: nat, j: nat): (r: nat)
    ensures k + j < UINT32 ==> r == k + j
  {
    (k + j) % UINT32
  }

  /** Every element of the record at k exists. */
  predicate WithinData(data: seq<string>, k: nat)
  {
    forall j | 0 <= j < ELEMENTS_PER_VEHICLE :: Place(k, j) < |data|
  }

  /** The j-th integer of the record at k. */
  function Element(data: seq<string>, k: nat, j: nat): Option<int>
    requires WithinData(data, k) && j < ELEMENTS_PER_VEHICLE
  {
    assert Place(k, j) < |data|;
    Stoi(data[Place(k, j)])
  }

  /** The record of vehicle i: the size check, then seven integers. */
  function DecodeOne(data: seq<string>, i: nat): Result<Command>
  {
    var k := Place(i * ELEMENTS_PER_VEHICLE, 0);
    if Place(k, ELEMENTS_PER_VEHICLE) > |data| then Failed(ShortData)
    else if !WithinData(data, k) then Failed(PastTheEnd)
    else
      match (Element(data, k, 0), Element(data, k, 1), Element(data, k, 2), Element(data, k, 3), Element(data, k, 4),
             Element(data, k, 5), Element(data, k, 6))
      case (Some(px), Some(py), Some(pz), Some(vx), Some(vy), Some(vz), Some(flag)) =>
        Ok(Command(Vector(px, py, pz), Vector(vx, vy, vz), flag != 0))
      case _ => Failed(BadNumber)
  }

  /** The commands for the first n vehicles, or the first error. */
  function Decode(data: seq<string>, n: nat): (r: Result<seq<Command>>)
    ensures r.Ok? ==> |r.value| == n
  {
    if n == 0 then Ok([])
    else
      match Decode(data, n - 1)
      case Failed(e) => Failed(e)
      case Ok(commands) =>
        match DecodeOne(data, n - 1)
        case Failed(e) => Failed(e)
        case Ok(command) => Ok(commands + [command])
  }

  /** What the server means by its vectors: vehicle k at (x_k, k, 0), moving at (v_k, 0, 0). */
  function Meaning(w: World, n: nat): (r: seq<Command>)
    requires n <= |w.xPosition| == |w.xVelocity| == |w.broadcast|
    ensures |r| == n
    ensures forall k :: 0 <= k < n ==>
      r[k] == Command(Vector(w.xPosition[k], k, 0), Vector(w.xVelocity[k], 0, 0), w.broadcast[k] != 0)
  {
    seq(n, k requires 0 <= k < n =>
      Command(Vector(w.xPosition[k], k, 0), Vector(w.xVelocity[k], 0, 0), w.broadcast[k] != 0))
  }

  /** A record on its own: too short, or not seven integers, or exactly the vectors and the flag that its
      elements name, in this order. */
  lemma DecodeOneIs(data: seq<string>, i: nat)
    requires 7 * i + 7 < 0x1_0000_0000
    ensures DecodeOne(data, i) ==
            if |data| < 7 * i + 7 then Failed(ShortData)
            else if exists j :: 7 * i <= j < 7 * i + 7 && Stoi(data[j]).None? then Failed(BadNumber)
            else Ok(Command(
              Vector(Stoi(data[7 * i]).value, Stoi(data[7 * i + 1]).value, Stoi(data[7 * i + 2]).value),
              Vector(Stoi(data[7 * i + 3]).value, Stoi(data[7 * i + 4]).value, Stoi(data[7 * i + 5]).value),
              Stoi(data[7 * i + 6]).value != 0))
  {
    hide Stoi, WithinData, Element;
    assert Place(i * ELEMENTS_PER_VEHICLE, 0) == 7 * i && Place(7 * i, ELEMENTS_PER_VEHICLE) == 7 * i + 7;
    if |data| >= 7 * i + 7 { ElementsAre(data, 7 * i); }
  }

  lemma ElementsAre(data: seq<string>, k: nat)
    requires k + 7 < 0x1_0000_0000 && |data| >= k + 7
    ensures WithinData(data, k)
    ensures forall j :: 0 <= j < 7 ==> Element(data, k, j) == Stoi(data[k + j])
    ensures (exists j :: k <= j < k + 7 && Stoi(data[j]).None?) <==> exists j :: 0 <= j < 7 && Element(data, k, j).None?
  {
    hide Stoi;
    forall j | k <= j < k + 7 ensures Stoi(data[j]) == Element(data, k, j - k) {}
  }

  /** Every record of a decoded message was decoded on its own. */
  lemma {:induction false} DecodeAt(data: seq<string>, n: nat, i: nat)
    requires Decode(data, n).Ok? && i < n
    ensures DecodeOne(data, i) == Ok(Decode(data, n).value[i])
  {
    hide DecodeOne;
    if i < n - 1 { DecodeAt(data, n - 1, i); }
  }

  /** Command c names the numbers of record i. */
  predicate Reads(data: seq<string>, i: nat, c: Command)
    requires |data| >= 7 * i + 7
  {
    Some(c.position.x) == Stoi(data[7 * i]) && Some(c.position.y) == Stoi(data[7 * i + 1])
    && Some(c.position.z) == Stoi(data[7 * i + 2]) && Some(c.velocity.x) == Stoi(data[7 * i + 3])
    && Some(c.velocity.y) == Stoi(data[7 * i + 4]) && Some(c.velocity.z) == Stoi(data[7 * i + 5])
    && (c.send <==> Stoi(data[7 * i + 6]) != Some(0))
  }

  lemma DecodedReads(data: seq<string>, n: nat, i: nat)
    requires Decode(data, n).Ok? && i < n && 7 * n < 0x1_0000_0000
    ensures |data| >= 7 * i + 7 && Reads(data, i, Decode(data, n).value[i])
  {
    hide Stoi, Decode, DecodeOne;
    DecodeAt(data, n, i);
    DecodeOneIs(data, i);
  }

  /** The size check lets a read past the end through exactly when its sum wraps around. */
  lemma SizeCheckFailsIff(data: seq<string>, i: nat)
    ensures var k := (i * ELEMENTS_PER_VEHICLE) % UINT32;
            (DecodeOne(data, i) == Failed(PastTheEnd)
             <==> k + ELEMENTS_PER_VEHICLE >= UINT32 && k + ELEMENTS_PER_VEHICLE - UINT32 <= |data| < UINT32)
  {
    hide Stoi;
    var k := Place(i * ELEMENTS_PER_VEHICLE, 0);
    if k + ELEMENTS_PER_VEHICLE >= UINT32 {
      assert Place(k, UINT32 - 1 - k) == UINT32 - 1;
      assert Place(k, ELEMENTS_PER_VEHICLE) == k + ELEMENTS_PER_VEHICLE - UINT32;
    }
  }

  lemma VehicleElements(w: World, n: nat, k: nat)
    requires WorldOf(w, n) && k < n < UINT16
    ensures var data := RecordFields(w, n);
            Place(k * ELEMENTS_PER_VEHICLE, 0) == 7 * k && |data| >= 7 * k + 7 && WithinData(data, 7 * k)
            && forall j :: 0 <= j < 7 ==> data[Place(7 * k, j)] == VehicleFields(w, k)[j]
  {
    hide RecordFields, ToString;
    forall j | 0 <= j < 7
      ensures 7 * k + j < |RecordFields(w, n)| && RecordFields(w, n)[7 * k + j] == VehicleFields(w, k)[j]
    {
      FieldAt(w, n, k, j);
    }
  }

  lemma VehicleNumbers(w: World, n: nat, k: nat)
    requires WorldOf(w, n) && k < n < UINT16
    ensures var v := VehicleFields(w, k);
            Stoi(v[0]) == Some(w.xPosition[k]) && Stoi(v[1]) == Some(k) && Stoi(v[2]) == Some(0)
            && Stoi(v[3]) == Some(w.xVelocity[k]) && Stoi(v[4]) == Some(0) && Stoi(v[5]) == Some(0)
            && Stoi(v[6]) == Some(w.broadcast[k])
  {
    hide Stoi, ToString;
    ParsePrinted(w.xPosition[k]);
    ParsePrinted(k);
    ParsePrinted(w.xVelocity[k]);
    ParsePrinted(w.broadcast[k]);
    ZeroPrints();
    ParsePrinted(0);
  }

  lemma DecodeVehicle(w: World, n: nat, k: nat)
    requires WorldOf(w, n) && k < n < UINT16
    ensures DecodeOne(RecordFields(w, n), k)
         == Ok(Command(Vector(w.xPosition[k], k, 0), Vector(w.xVelocity[k], 0, 0), w.broadcast[k] != 0))
  {
    hide Stoi, RecordFields, VehicleFields, WithinData;
    VehicleElements(w, n, k);
    VehicleNumbers(w, n, k);
  }

  lemma ZeroPrints()
    ensures ToString(0) == "0"
  {
  }

  lemma {:induction false} DecodePrinted(w: World, n: nat, k: nat)
    requires WorldOf(w, n) && k <= n < UINT16
    ensures Decode(RecordFields(w, n), k) == Ok(Meaning(w, k))
  {
    hide DecodeOne, RecordFields;
    if k > 0 {
      DecodePrinted(w, n, k - 1);
      DecodeVehicle(w, n, k - 1);
      assert Meaning(w, k) == Meaning(w, k - 1) + [Meaning(w, k)[k - 1]];
    }
  }

  /** The step codec: for every number of vehicles and all uint16 states, the printed step parses to
      its time, if that fits an int, and its fields decode to exactly the commands the server meant. */
  lemma StepCodec(time: nat, w: World, n: nat)
    requires WorldOf(w, n) && n < UINT16
    ensures Parse(Join(StepFields(time, w), SP), SP)
         == if time < 0x8000_0000 then Some(Header(time * NANOS, RecordFields(w, n))) else None
    ensures Decode(RecordFields(w, n), n) == Ok(Meaning(w, n))
  {
    RecordFieldsAreDigits(w, n);
    ParseSeconds(time, RecordFields(w, n));
    DecodePrinted(w, n, n);
  }

  /** The fields of step i after its header. */
  function StepData(p: Plan, i: nat): seq<string>
    requires ValidPlan(p) && i < p.iterations
  {
    StepVector(p, i)[2..]
  }

  /** Step i as sent: its bytes, and its time, if that fits an int. */
  lemma StepSent(p: Plan, i: nat)
    requires ValidPlan(p) && i < p.iterations
    ensures SentSteps(p, i + 1) == SentSteps(p, i) + (Join(StepVector(p, i), SP) + CRLF)
    ensures var time := (p.timeStart + p.timeDelta * i) % 0x1_0000_0000;
            (Parse(Join(StepVector(p, i), SP), SP)
             == if time < 0x8000_0000 then Some(Header(time * 1_000_000_000, StepData(p, i))) else None)
  {
    hide Parse, Decode, ToString, RecordFields, WorldAt, Join, SentSteps;
    var w := WorldAt(p.n, p.rolls, i);
    WorldAtIsWorld(p.n, p.rolls, i);
    SentStep(p, i);
    StepCodec(TimeOf(p, i), w, p.n);
    assert StepVector(p, i)[2..] == RecordFields(w, p.n);
  }

  /** Step i tells vehicle k to be where all its draws so far have taken it. */
  lemma StepMeans(p: Plan, i: nat)
    requires ValidPlan(p) && i < p.iterations
    ensures Decode(StepData(p, i), p.n).Ok?
    ensures forall k :: 0 <= k < p.n ==>
              Decode(StepData(p, i), p.n).value[k]
              == Command(Vector(Travelled(p.rolls, i, k) % 65536, k, 0),
                         Vector(if i == 0 then 0 else p.rolls[i - 1][k].velocity, 0, 0),
                         i > 0 && (i - 1) % 5 == 0 && p.rolls[i - 1][k].coin)
  {
    hide Parse, Decode, ToString, RecordFields, WorldAt, Travelled;
    var w := WorldAt(p.n, p.rolls, i);
    WorldAtIsWorld(p.n, p.rolls, i);
    DecodePrinted(w, p.n, p.n);
    assert StepVector(p, i)[2..] == RecordFields(w, p.n);
    forall k | 0 <= k < p.n
      ensures w.xPosition[k] == Travelled(p.rolls, i, k) % 65536
              && w.xVelocity[k] == (if i == 0 then 0 else p.rolls[i - 1][k].velocity)
              && w.broadcast[k] == if i > 0 && (i - 1) % 5 == 0 && p.rolls[i - 1][k].coin then 1 else 0
    {
      WorldIs(p.n, p.rolls, i, k);
    }
  }

  /** The first step sent finds every vehicle k at rest at (0, k, 0) and asks for no broadcast. */
  lemma FirstStepIsRest(p: Plan)
    requires ValidPlan(p) && p.iterations >= 1
    ensures SentSteps(p, 1) == Join(StepVector(p, 0), SP) + CRLF
    ensures Decode(StepData(p, 0), p.n).Ok?
    ensures forall k :: 0 <= k < p.n ==>
              Decode(StepData(p, 0), p.n).value[k] == Command(Vector(0, k, 0), Vector(0, 0, 0), false)
  {
    hide Parse, Decode, StepVector, StepData, Join, SentSteps;
    StepMeans(p, 0);
    StepSent(p, 0);
    NothingSent(p);
    assert "" + (Join(StepVector(p, 0), SP) + CRLF) == Join(StepVector(p, 0), SP) + CRLF;
  }

  /** The values of a response. */
  function Counts(count: seq<nat>): (r: seq<string>)
    ensures |r| == |count| && forall i :: 0 <= i < |count| ==> r[i] == ToString(count[i])
  {
    seq(|count|, i requires 0 <= i < |count| => ToString(count[i]))
  }

  // ----- how long a response can be

  /** The response to one message. */
  function Response(count: seq<nat>): string
  {
    Join(Counts(count), SP) + CRLF
  }

  ghost predicate CountsFor(count: seq<nat>, n: nat)
  {
    |count| == n && forall i :: 0 <= i < n ==> count[i] < UINT16
  }

  lemma ToStringStep(n: nat)
    ensures |ToString(n)| == if n < 10 then 1 else |ToString(n / 10)| + 1
  {
  }

  lemma CountLength(n: nat)
    requires n < UINT16
    ensures |ToString(n)| <= 5 && (n >= 10000 ==> |ToString(n)| == 5)
  {
    hide ToString;
    ToStringStep(n);
    ToStringStep(n / 10);
    ToStringStep(n / 10 / 10);
    ToStringStep(n / 10 / 10 / 10);
    ToStringStep(n / 10 / 10 / 10 / 10);
  }

  lemma {:induction false} JoinLength(vs: seq<string>, exact: bool)
    requires vs != [] && forall i :: 0 <= i < |vs| ==> |vs[i]| <= 5 && (exact ==> |vs[i]| == 5)
    ensures |Join(vs, SP)| <= 6 * |vs| - 1 && (exact ==> |Join(vs, SP)| == 6 * |vs| - 1)
  {
    if |vs| > 1 { JoinLength(vs[1..], exact); }
  }

  lemma ResponseLength(count: seq<nat>, exact: bool)
    requires CountsFor(count, |count|) && (exact ==> forall i :: 0 <= i < |count| ==> count[i] >= 10000)
    ensures |Response(count)| <= 6 * |count| + 2 && (count != [] ==> |Response(count)| <= 6 * |count| + 1)
    ensures exact && count != [] ==> |Response(count)| == 6 * |count| + 1
  {
    hide Join, ToString;
    forall i | 0 <= i < |count| ensures |ToString(count[i])| <= 5 && (exact ==> |ToString(count[i])| == 5) {
      CountLength(count[i]);
    }
    if count == [] {
      NothingJoined();
      assert Counts(count) == [];
    } else {
      JoinLength(Counts(count), exact);
    }
  }

  lemma NothingJoined()
    ensures Join([], SP) == ""
  {
  }

  /** The server's one recv of a step takes at most 4095 bytes: that is room for every response of n
      vehicles iff there are at most 682. */
  lemma ResponseFitsIff(n: nat)
    ensures (forall count :: CountsFor(count, n) ==> |Response(count)| <= 4095) <==> n <= 682
  {
    hide Response;
    forall count | CountsFor(count, n) ensures |Response(count)| <= 6 * n + 2 { ResponseLength(count, false); }
    var high: seq<nat> := seq(n, _ => 65535);
    assert CountsFor(high, n);
    ResponseLength(high, true);
  }

  /** A vehicle's application told to send so many packets. */
  datatype Trigger = Trigger(vehicle: nat, packets: nat)

  /** The calls of Send that the commands ask for, in order. */
  function Triggers(commands: seq<Command>): seq<Trigger>
  {
    if commands == [] then []
    else Triggers(Init(commands)) + if Last(commands).send then [Trigger(|commands| - 1, 3)] else []
  }

  lemma TriggersAppend(commands: seq<Command>, c: Command)
    ensures Triggers(commands + [c]) == Triggers(commands) + if c.send then [Trigger(|commands|, 3)] else []
  {
    assert Init(commands + [c]) == commands;
  }

  /** Exactly the flagged vehicles, each once, in order, and three packets each. */
  lemma {:induction false} TriggersAre(commands: seq<Command>)
    ensures forall t :: t in Triggers(commands) <==>
              t.packets == 3 && t.vehicle < |commands| && commands[t.vehicle].send
    ensures forall i, j :: 0 <= i < j < |Triggers(commands)| ==>
              Triggers(commands)[i].vehicle < Triggers(commands)[j].vehicle
  {
    if commands != [] {
      TriggersAre(Init(commands));
      var q := Triggers(Init(commands));
      forall i | 0 <= i < |q| ensures q[i].vehicle < |commands| - 1 { assert q[i] in q; }
    }
  }

  class SimpleGateway {
    const gateway: Gateway
    const n: nat
    var positions: seq<Vector>
    var velocities: seq<Vector>
    var count: seq<nat>     // m_count, uint16
    var triggered: seq<Trigger>

    ghost predicate Valid()
      reads this, gateway
    {
      gateway.Valid() && gateway.delimiterField == SP && gateway.delimiterMessage == CRLF
      && |gateway.data| == n && |positions| == |velocities| == |count| == n
    }

    constructor (gateway: Gateway, n: nat)
      requires gateway.Valid() && gateway.delimiterField == SP && gateway.delimiterMessage == CRLF
      requires |gateway.data| == n
      ensures Valid() && this.gateway == gateway && this.n == n && triggered == []
      ensures count == seq(n, _ => 0)
    {
      this.gateway, this.n := gateway, n;
      positions, velocities := seq(n, _ => Vector(0, 0, 0)), seq(n, _ => Vector(0, 0, 0));
      count, triggered := seq(n, _ => 0), [];
    }

    /** A packet sink of vehicle id received a broadcast. */
    method HandleReceive(id: string) returns (r: Outcome)
      requires Valid()
      modifies this`count
      ensures Valid()
      ensures r == match Stoi(id)
                   case None => Fatal(BadNumber)
                   case Some(i) => if 0 <= i < n then Done else Fatal(BadIndex)
      ensures count == if r.Done? then var i := Stoi(id).value; old(count)[i := (old(count)[i] + 1) % UINT16]
                       else old(count)
    {
      var index := Stoi(id);
      if index.None? { return Fatal(BadNumber); }
      if index.value < 0 || index.value >= |count| { return Fatal(BadIndex); }
      count := count[index.value := (count[index.value] + 1) % UINT16];
      r := Done;
    }

    /** One pass of DoUpdate's loop. */
    method UpdateVehicle(i: nat, data: seq<string>) returns (r: Outcome)
      requires Valid() && i < n
      modifies this`positions, this`velocities, this`triggered, gateway`data
      ensures Valid()
      ensures match DecodeOne(data, i)
              case Failed(e) => r == Fatal(e)
              case Ok(c) =>
                r == Done && positions == old(positions)[i := c.position]
                && velocities == old(velocities)[i := c.velocity]
                && triggered == (if c.send then old(triggered) + [Trigger(i, 3)] else old(triggered))
                && gateway.data == old(gateway.data)[i := ToString(count[i])]
      ensures 7 * i + 7 < 0x1_0000_0000 ==>
                r == if |data| < 7 * i + 7 then Fatal(ShortData)
                     else if exists j :: 7 * i <= j < 7 * i + 7 && Stoi(data[j]).None? then Fatal(BadNumber) else Done
      ensures 7 * i + 7 < 0x1_0000_0000 && r.Done? ==>
                Some(positions[i].x) == Stoi(data[7 * i]) && Some(positions[i].y) == Stoi(data[7 * i + 1])
                && Some(positions[i].z) == Stoi(data[7 * i + 2]) && Some(velocities[i].x) == Stoi(data[7 * i + 3])
                && Some(velocities[i].y) == Stoi(data[7 * i + 4]) && Some(velocities[i].z) == Stoi(data[7 * i + 5])
                && (triggered != old(triggered) <==> Stoi(data[7 * i + 6]) != Some(0))
    {
      hide Stoi, Print, Contains, Join, WithinData, Element;
      if 7 * i + 7 < 0x1_0000_0000 { DecodeOneIs(data, i); }
      var dataIndex := Place(i * ELEMENTS_PER_VEHICLE, 0);
      if Place(dataIndex, ELEMENTS_PER_VEHICLE) > |data| { return Fatal(ShortData); }
      if !WithinData(data, dataIndex) { return Fatal(PastTheEnd); }
      var px, py, pz := Element(data, dataIndex, 0), Element(data, dataIndex, 1), Element(data, dataIndex, 2);
      var vx, vy, vz := Element(data, dataIndex, 3), Element(data, dataIndex, 4), Element(data, dataIndex, 5);
      var flag := Element(data, dataIndex, 6);
      if px.None? || py.None? || pz.None? || vx.None? || vy.None? || vz.None? || flag.None? { return Fatal(BadNumber); }
      positions := positions[i := Vector(px.value, py.value, pz.value)];
      velocities := velocities[i := Vector(vx.value, vy.value, vz.value)];
      if flag.value != 0 { triggered := triggered + [Trigger(i, 3)]; }
      ToStringDigits(count[i]);
      DigitsAreClean(ToString(count[i]));
      r := gateway.SetValue(i, ToString(count[i]));
    }

    /** The loop of DoUpdate. */
    method UpdateVehicles(data: seq<string>) returns (r: Outcome)
      requires Valid()
      modifies this`positions, this`velocities, this`triggered, gateway`data
      ensures Valid()
      ensures match Decode(data, n)
              case Failed(e) => r == Fatal(e)
              case Ok(commands) => r == Done && Follows(commands, n) && triggered == old(triggered) + Triggers(commands)
    {
      hide Decode, DecodeOne, Triggers, Print, Contains, Join, Responses, ConstructorAccepts, ToString;
      ghost var done: seq<Command> := [];
      NothingDecoded(data);
      for i := 0 to n
        invariant Valid() && Decode(data, i) == Ok(done) && Follows(done, i)
        invariant triggered == old(triggered) + Triggers(done)
      {
        r := UpdateVehicle(i, data);
        if r != Done {
          DecodeStopsAt(data, i, n);
          return;
        }
        ghost var c := DecodeOne(data, i).value;
        DecodeNext(data, i, done);
        TriggersAppend(done, c);
        done := done + [c];
      }
      r := Done;
    }

    /** The first k vehicles have been updated, and their counts are ready to be sent. */
    ghost predicate Follows(commands: seq<Command>, k: nat)
      requires Valid() && k <= n
      reads this, gateway
    {
      |commands| == k
      && forall j :: 0 <= j < k ==>
        positions[j] == commands[j].position && velocities[j] == commands[j].velocity
        && gateway.data[j] == ToString(count[j])
    }

    /** The vehicles' vectors are the numbers in the data. */
    lemma FollowsNumbers(data: seq<string>, commands: seq<Command>)
      requires Valid() && Follows(commands, n) && Decode(data, n) == Ok(commands) && 7 * n < 0x1_0000_0000
      ensures |data| >= 7 * n
      ensures forall j :: 0 <= j < n ==>
                Some(positions[j].x) == Stoi(data[7 * j]) && Some(positions[j].y) == Stoi(data[7 * j + 1])
                && Some(positions[j].z) == Stoi(data[7 * j + 2]) && Some(velocities[j].x) == Stoi(data[7 * j + 3])
                && Some(velocities[j].y) == Stoi(data[7 * j + 4]) && Some(velocities[j].z) == Stoi(data[7 * j + 5])
    {
      hide Stoi, Decode, DecodeOne;
      forall j | 0 <= j < n ensures |data| >= 7 * j + 7 && Reads(data, j, commands[j]) { DecodedReads(data, n, j); }
      if n > 0 { assert |data| >= 7 * (n - 1) + 7 && Reads(data, n - 1, commands[n - 1]); }
    }

    /** Decode every vehicle, then answer once. DoInitialize does the same. sent is whether send succeeds. */
    method DoUpdate(data: seq<string>, sent: bool) returns (r: Outcome)
      requires Valid()
      modifies this`positions, this`velocities, this`triggered, gateway`data, gateway`outbox, gateway`responses
      ensures Valid()
      ensures match Decode(data, n)
              case Failed(e) => r == Fatal(e)
              case Ok(commands) =>
                r == (if gateway.state == CONNECTED then Done else Fatal(NotConnected))
                && Follows(commands, n) && triggered == old(triggered) + Triggers(commands)
      ensures 7 * n < 0x1_0000_0000 && Decode(data, n).Ok? ==>
                |data| >= 7 * n && forall j :: 0 <= j < n ==>
                  Some(positions[j].x) == Stoi(data[7 * j]) && Some(positions[j].y) == Stoi(data[7 * j + 1])
                  && Some(positions[j].z) == Stoi(data[7 * j + 2]) && Some(velocities[j].x) == Stoi(data[7 * j + 3])
                  && Some(velocities[j].y) == Stoi(data[7 * j + 4]) && Some(velocities[j].z) == Stoi(data[7 * j + 5])
      ensures gateway.responses
           == if r == Done && sent then old(gateway.responses) + [Counts(count)] else old(gateway.responses)
      ensures gateway.outbox
           == if r == Done && sent then old(gateway.outbox) + Response(count) else old(gateway.outbox)
    {
      hide Decode, DecodeOne, Triggers, Print, Contains, Join, ToString, Responses, ConstructorAccepts, Clean, Stoi;
      r := UpdateVehicles(data);
      if r != Done { return; }
      if 7 * n < 0x1_0000_0000 { FollowsNumbers(data, Decode(data, n).value); }
      assert gateway.data == Counts(count);
      r := gateway.SendResponse(sent);
    }
  }

  lemma NothingDecoded(data: seq<string>)
    ensures Decode(data, 0) == Ok([]) && Triggers([]) == []
  {
  }

  lemma DecodeNext(data: seq<string>, i: nat, done: seq<Command>)
    requires Decode(data, i) == Ok(done) && DecodeOne(data, i).Ok?
    ensures Decode(data, i + 1) == Ok(done + [DecodeOne(data, i).value])
  {
    hide DecodeOne;
  }

  /** The first failing record decides the result. */
  lemma {:induction false} DecodeStopsAt(data: seq<string>, i: nat, n: nat)
    requires i < n && Decode(data, i).Ok? && DecodeOne(data, i).Failed?
    ensures Decode(data, n) == Failed(DecodeOne(data, i).error)
  {
    hide DecodeOne;
    if n > i + 1 { DecodeStopsAt(data, i, n - 1); }
  }
}
