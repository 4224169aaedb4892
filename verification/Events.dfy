/** The discrete-event kernel the models run on: pending events in insertion order, executed by
    (time, insertion number). Only this much of the simulator is assumed. */
module Events {

  datatype Event =
    | WaitForNextUpdate
    | ForwardUp
    | Stop
    | DoInitialize(values: seq<string>)
    | HandleUpdate(values: seq<string>)
    | ProcessSendRequest(count: nat)
    | SendPacket
    | Other

  datatype Kind = Wait | Forward | Stopping | Callback | Request | Packet | Foreign

  function KindOf(e: Event): Kind
  {
    match e
    case WaitForNextUpdate => Wait
    case ForwardUp => Forward
    case Stop => Stopping
    case DoInitialize(_) => Callback
    case HandleUpdate(_) => Callback
    case ProcessSendRequest(_) => Request
    case SendPacket => Packet
    case Other => Foreign
  }

  datatype Entry = Entry(id: nat, time: int, event: Event)

  /** The pending events of one kind, in insertion order. */
  function Select(p: seq<Entry>, k: Kind): (r: seq<Entry>)
    ensures forall e {:trigger e in r} :: e in r <==> e in p && KindOf(e.event) == k
  {
    if p == [] then []
    else Select(p[..|p| - 1], k) + (if KindOf(p[|p| - 1].event) == k then [p[|p| - 1]] else [])
  }

  function Without(p: seq<Entry>, id: nat): (r: seq<Entry>)
    ensures forall e {:trigger e in r} :: e in r <==> e in p && e.id != id
  {
    if p == [] then []
    else Without(p[..|p| - 1], id) + (if p[|p| - 1].id != id then [p[|p| - 1]] else [])
  }

  predicate Ordered(p: seq<Entry>, i: int, j: int)
  {
    0 <= i < j < |p| ==> p[i].id < p[j].id
  }

  ghost predicate Increasing(p: seq<Entry>)
  {
    forall i, j :: Ordered(p, i, j)
  }

  /** Event ids start at 1, so 0 is the id of a default EventId, which is never pending. */
  datatype Kernel = Kernel(now: int, nextId: nat, pending: seq<Entry>) {

    ghost predicate Valid()
    {
      nextId >= 1 && Increasing(pending)
      && (forall e :: e in pending ==> 1 <= e.id < nextId && now <= e.time)
    }

    predicate IsPending(id: nat)
    {
      exists e | e in pending :: e.id == id
    }

    function Schedule(delay: int, event: Event): Kernel
    {
      this.(nextId := nextId + 1, pending := pending + [Entry(nextId, now + delay, event)])
    }

    function ScheduleNow(event: Event): Kernel
    {
      Schedule(0, event)
    }

    function Cancel(id: nat): Kernel
    {
      this.(pending := Without(pending, id))
    }

    /** e is the event the simulator runs next. */
    ghost predicate IsNext(e: Entry)
    {
      e in pending && forall o :: o in pending ==> e.time < o.time || (e.time == o.time && e.id <= o.id)
    }

    /** The clock moves to e, which from now on counts as expired. */
    function Take(e: Entry): Kernel
    {
      this.(now := e.time, pending := Without(pending, e.id))
    }
  }

  /** p and q hold the same events of every kind but one. */
  predicate SameExcept(p: seq<Entry>, q: seq<Entry>, kind: Kind)
  {
    (kind.Wait? || Select(p, Wait) == Select(q, Wait))
    && (kind.Forward? || Select(p, Forward) == Select(q, Forward))
    && (kind.Stopping? || Select(p, Stopping) == Select(q, Stopping))
    && (kind.Callback? || Select(p, Callback) == Select(q, Callback))
    && (kind.Request? || Select(p, Request) == Select(q, Request))
    && (kind.Packet? || Select(p, Packet) == Select(q, Packet))
    && (kind.Foreign? || Select(p, Foreign) == Select(q, Foreign))
  }

  // ----- selections commute with every kernel operation

  lemma {:induction false} SelectWithout(p: seq<Entry>, id: nat, k: Kind)
    ensures Select(Without(p, id), k) == Without(Select(p, k), id)
  {
    if p != [] {
      var q, e := p[..|p| - 1], p[|p| - 1];
      SelectWithout(q, id, k);
      SelectAppend(Without(q, id), e, k);
      WithoutAppend(Select(q, k), e, id);
      assert Select(p, k) == if KindOf(e.event) == k then Select(q, k) + [e] else Select(q, k);
      assert Without(p, id) == if e.id != id then Without(q, id) + [e] else Without(q, id);
    }
  }

  lemma SelectAppend(p: seq<Entry>, e: Entry, k: Kind)
    ensures Select(p + [e], k) == Select(p, k) + if KindOf(e.event) == k then [e] else []
  {
    assert (p + [e])[..|p|] == p;
  }

  lemma WithoutAppend(p: seq<Entry>, e: Entry, id: nat)
    ensures Without(p + [e], id) == Without(p, id) + if e.id != id then [e] else []
  {
    assert (p + [e])[..|p|] == p;
  }

  lemma {:induction false} WithoutAbsent(p: seq<Entry>, id: nat)
    requires forall e :: e in p ==> e.id != id
    ensures Without(p, id) == p
  {
    if p == [] {
      WithoutNothing(id);
    } else {
      hide Without;
      var q, e := p[..|p| - 1], p[|p| - 1];
      assert p == q + [e] && e in p;
      assert forall x :: x in q ==> x in p;
      WithoutAbsent(q, id);
      WithoutAppend(q, e, id);
    }
  }

  lemma WithoutNothing(id: nat)
    ensures Without([], id) == []
  {
  }

  lemma {:induction false} WithoutMiddle(a: seq<Entry>, x: Entry, b: seq<Entry>)
    requires forall e :: e in a || e in b ==> e.id != x.id
    ensures Without(a + [x] + b, x.id) == a + b
    decreases |b|
  {
    if b == [] {
      WithoutAbsent(a, x.id);
      WithoutAppend(a, x, x.id);
      assert a + [x] + b == a + [x] && a + b == a;
    } else {
      var q, l := b[..|b| - 1], b[|b| - 1];
      WithoutMiddle(a, x, q);
      WithoutAppend(a + [x] + q, l, x.id);
      assert a + [x] + b == a + [x] + q + [l] && a + b == a + q + [l];
    }
  }

  lemma IncreasingInit(p: seq<Entry>)
    requires p != [] && Increasing(p)
    ensures Increasing(p[..|p| - 1]) && forall e :: e in p[..|p| - 1] ==> e.id < p[|p| - 1].id
  {
    var q := p[..|p| - 1];
    forall i, j ensures Ordered(q, i, j) { assert Ordered(p, i, j); }
    forall e | e in q ensures e.id < p[|p| - 1].id {
      var i :| 0 <= i < |q| && q[i] == e;
      assert Ordered(p, i, |p| - 1);
    }
  }

  lemma IncreasingSnoc(q: seq<Entry>, e: Entry)
    requires Increasing(q) && forall x :: x in q ==> x.id < e.id
    ensures Increasing(q + [e])
  {
    forall i, j ensures Ordered(q + [e], i, j) { assert Ordered(q, i, j); }
  }

  lemma {:induction false} WithoutFirst(p: seq<Entry>)
    requires p != [] && Increasing(p)
    ensures Without(p, p[0].id) == p[1..]
  {
    var q := p[..|p| - 1];
    IncreasingInit(p);
    if |p| > 1 {
      WithoutFirst(q);
      assert q[0] in q;
      assert p[1..] == q[1..] + [p[|p| - 1]];
    }
  }

  lemma {:induction false} IncreasingParts(p: seq<Entry>, id: nat, k: Kind)
    requires Increasing(p)
    ensures Increasing(Select(p, k)) && Increasing(Without(p, id))
  {
    if p != [] {
      var q, e := p[..|p| - 1], p[|p| - 1];
      IncreasingInit(p);
      IncreasingParts(q, id, k);
      IncreasingSnoc(Select(q, k), e);
      IncreasingSnoc(Without(q, id), e);
      assert Select(q, k) + [] == Select(q, k) && Without(q, id) + [] == Without(q, id);
    }
  }

  lemma {:induction false} WithoutShrinks(p: seq<Entry>, e: Entry)
    requires Increasing(p) && e in p
    ensures |Without(p, e.id)| == |p| - 1
  {
    var q, l := p[..|p| - 1], p[|p| - 1];
    IncreasingInit(p);
    if l == e {
      WithoutAbsent(q, e.id);
    } else {
      WithoutShrinks(q, e);
    }
  }

  lemma ScheduleSelect(k: Kernel, delay: int, event: Event)
    requires k.Valid() && delay >= 0
    ensures k.Schedule(delay, event).Valid()
    ensures Select(k.Schedule(delay, event).pending, KindOf(event))
         == Select(k.pending, KindOf(event)) + [Entry(k.nextId, k.now + delay, event)]
    ensures SameExcept(k.Schedule(delay, event).pending, k.pending, KindOf(event))
  {
    hide Select;
    var e := Entry(k.nextId, k.now + delay, event);
    IncreasingSnoc(k.pending, e);
    forall o: Kind ensures Select(k.pending + [e], o) == Select(k.pending, o) + if KindOf(event) == o then [e] else [] {
      SelectAppend(k.pending, e, o);
    }
    assert forall o: Kind :: Select(k.pending, o) + [] == Select(k.pending, o);
  }

  lemma CancelSelect(k: Kernel, id: nat, kind: Kind)
    requires k.Valid()
    requires forall e :: e in k.pending && e.id == id ==> KindOf(e.event) == kind
    ensures k.Cancel(id).Valid()
    ensures Select(k.Cancel(id).pending, kind) == Without(Select(k.pending, kind), id)
    ensures SameExcept(k.Cancel(id).pending, k.pending, kind)
    ensures !k.IsPending(id) ==> k.Cancel(id) == k
  {
    IncreasingParts(k.pending, id, kind);
    SelectWithout(k.pending, id, kind);
    forall other | other != kind ensures Select(k.Cancel(id).pending, other) == Select(k.pending, other) {
      SelectWithout(k.pending, id, other);
      WithoutAbsent(Select(k.pending, other), id);
    }
    if !k.IsPending(id) { WithoutAbsent(k.pending, id); }
  }

  lemma NonEmptyHasMember(q: seq<Entry>)
    ensures q != [] ==> exists f :: f in q
  {
    if q != [] { assert q[0] in q; }
  }

  lemma SameEntry(p: seq<Entry>, a: Entry, b: Entry)
    requires Increasing(p) && a in p && b in p && a.id == b.id
    ensures a == b
  {
    var i :| 0 <= i < |p| && p[i] == a;
    var j :| 0 <= j < |p| && p[j] == b;
    assert Ordered(p, i, j) && Ordered(p, j, i);
  }

  lemma TakeSelect(k: Kernel, e: Entry)
    requires k.Valid() && k.IsNext(e)
    ensures k.Take(e).Valid() && k.now <= e.time
    ensures Select(k.Take(e).pending, KindOf(e.event)) == Without(Select(k.pending, KindOf(e.event)), e.id)
    ensures SameExcept(k.Take(e).pending, k.pending, KindOf(e.event))
    ensures |k.Take(e).pending| == |k.pending| - 1
  {
    forall o | o in k.pending && o.id == e.id ensures o == e { SameEntry(k.pending, o, e); }
    CancelSelect(k, e.id, KindOf(e.event));
    WithoutShrinks(k.pending, e);
  }

  /** A simulator with pending events has a next one. */
  lemma {:induction false} SomeEventIsNext(p: seq<Entry>) returns (e: Entry)
    requires p != []
    ensures e in p && forall o :: o in p ==> e.time < o.time || (e.time == o.time && e.id <= o.id)
  {
    if |p| == 1 {
      e := p[0];
    } else {
      e := SomeEventIsNext(p[1..]);
      assert p == [p[0]] + p[1..];
      if p[0].time < e.time || (p[0].time == e.time && p[0].id <= e.id) { e := p[0]; }
    }
  }

  /** The kernel as an object; the models only use these operations on it. */
  class Simulator {
    var now: int
    var nextId: nat
    var pending: seq<Entry>
    var halted: bool

    ghost function View(): Kernel
      reads this
    {
      Kernel(now, nextId, pending)
    }

    constructor (now: int)
      ensures View() == Kernel(now, 1, []) && View().Valid() && !halted
    {
      this.now, nextId, pending, halted := now, 1, [], false;
    }

    method Schedule(delay: int, event: Event) returns (id: nat)
      modifies this
      ensures View() == old(View()).Schedule(delay, event) && id == old(nextId) && halted == old(halted)
    {
      id := nextId;
      pending := pending + [Entry(nextId, now + delay, event)];
      nextId := nextId + 1;
    }

    method Cancel(id: nat)
      modifies this
      ensures View() == old(View()).Cancel(id) && halted == old(halted)
    {
      pending := Without(pending, id);
    }

    method IsPending(id: nat) returns (b: bool)
      ensures b == View().IsPending(id)
    {
      b := exists e | e in pending :: e.id == id;
    }

    method Halt()
      modifies this
      ensures View() == old(View()) && halted
    {
      halted := true;
    }
  }
}
