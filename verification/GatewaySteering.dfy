/** The simulator moving alone towards one of its pending events: everything due before it runs, and
    what is known about the state when it is next. */
module GatewaySteering {
  import opened Words
  import opened Events
  import opened GatewayEffects
  import opened GatewayRuns
  import opened GatewayThread
  import opened GatewayInvariants

  predicate Precedes(x: Entry, t: Entry)
  {
    x.time < t.time || (x.time == t.time && x.id < t.id)
  }

  /** t is pending, no message and no end of the connection comes before it, and no wait event keeps
      the clock from reaching it. */
  ghost predicate Steerable(s: System, t: Entry)
  {
    s.fatal.None? && !s.g.halted && s.g.state == CONNECTED && t in s.g.kernel.pending
    && !t.event.WaitForNextUpdate?
    && (forall f :: f in s.g.kernel.pending && (f.event.ForwardUp? || f.event.Stop?) ==> !Precedes(f, t))
    && (t.time == s.g.kernel.now || (Unheld(s) && t.time <= s.g.timePause))
  }

  ghost predicate Unheld(s: System)
  {
    forall w :: w in s.g.kernel.pending ==> !w.event.WaitForNextUpdate?
  }

  /** Every wait event is the one m_eventWait names. */
  ghost predicate NamedOnly(s: System)
  {
    forall w :: w in s.g.kernel.pending && w.event.WaitForNextUpdate? ==> w.id == s.g.eventWait
  }

  ghost predicate NoneBefore(s: System, t: Entry, kind: Kind)
  {
    forall x :: x in s.g.kernel.pending && KindOf(x.event) == kind ==> !Precedes(x, t)
  }

  /** No update is due at the pause time before t. */
  ghost predicate NoGrantBefore(s: System, t: Entry)
  {
    forall x :: x in s.g.kernel.pending && x.event.HandleUpdate? && x.time == s.g.timePause ==> !Precedes(x, t)
  }

  /** u is s after some of the events before t have run. */
  ghost predicate Steered(s: System, t: Entry, u: System)
  {
    Steerable(u, t) && s.g.kernel.now <= u.g.kernel.now <= t.time
    && u == s.(delivered := u.delivered, g := s.g.(kernel := u.g.kernel, eventWait := u.g.eventWait))
    && (forall x :: x in u.g.kernel.pending ==>
          x in s.g.kernel.pending || (x.event.WaitForNextUpdate? && !Precedes(x, t)))
    && (forall x :: x in s.g.kernel.pending && !Precedes(x, t) ==>
          x in u.g.kernel.pending || (x.event.WaitForNextUpdate? && !NoneBefore(s, t, Wait)))
    && (NoneBefore(s, t, Callback) ==> u.delivered == s.delivered)
    && (NoneBefore(s, t, Callback) && NoneBefore(s, t, Wait) ==> u.g.eventWait == s.g.eventWait)
    && (NoGrantBefore(s, t) ==> (NamedOnly(s) ==> NamedOnly(u)) && (Unheld(s) ==> Unheld(u)))
  }

  predicate BothWait(x: Entry, e: Entry)
  {
    x.event.WaitForNextUpdate? && e.event.WaitForNextUpdate?
  }

  /** Events that schedule a wait event when they run. */
  predicate Waiting(s: System, e: Entry)
  {
    e.event.WaitForNextUpdate? || (e.event.HandleUpdate? && e.time == s.g.timePause)
  }

  lemma UniqueIds(k: Kernel)
    requires k.Valid()
    ensures forall x, y :: x in k.pending && y in k.pending && x.id == y.id ==> x == y
  {
    forall x, y | x in k.pending && y in k.pending && x.id == y.id ensures x == y { SameEntry(k.pending, x, y); }
  }

  /** What one event before t leaves pending. */
  lemma PassedPending(c: Delimiters, s: System, e: Entry, t: Entry)
    requires GoodDelimiters(c) && Core(c, s) && Steerable(s, t) && s.g.kernel.IsNext(e) && e != t
    ensures Precedes(e, t) && !e.event.ForwardUp? && !e.event.Stop?
    ensures var u := Apply(c, s, Execute(e));
            (forall x :: x in u.g.kernel.pending ==>
               (x in s.g.kernel.pending && x != e)
               || (x == Entry(s.g.kernel.nextId, e.time, WaitForNextUpdate) && e.time == t.time && Waiting(s, e)))
            && (forall x :: x in s.g.kernel.pending && x != e && !BothWait(x, e) ==> x in u.g.kernel.pending)
  {
    hide Select, Without, ControlInv, Split, Parse, Accepted;
    UniqueIds(s.g.kernel);
    Begin(c, s, e);
  }

  /** What it does to the rest of the state. */
  lemma PassedFields(c: Delimiters, s: System, e: Entry, t: Entry)
    requires GoodDelimiters(c) && Core(c, s) && Steerable(s, t) && s.g.kernel.IsNext(e) && e != t
    requires !e.event.ForwardUp? && !e.event.Stop?
    ensures var u := Apply(c, s, Execute(e));
            u == s.(delivered := u.delivered, g := s.g.(kernel := u.g.kernel, eventWait := u.g.eventWait))
            && u.g.kernel.now == e.time && (KindOf(e.event) != Callback ==> u.delivered == s.delivered)
            && (!Waiting(s, e) ==> u.g.eventWait == s.g.eventWait)
            && (e.event.WaitForNextUpdate? ==> u.g.eventWait == s.g.kernel.nextId)
  {
    hide Select, Without, ControlInv, Split, Parse, Accepted;
  }

  lemma Pass(c: Delimiters, s: System, e: Entry, t: Entry)
    requires GoodDelimiters(c) && Core(c, s) && Steerable(s, t) && s.g.kernel.IsNext(e) && e != t
    ensures Steered(s, t, Apply(c, s, Execute(e))) && e !in Apply(c, s, Execute(e)).g.kernel.pending
  {
    hide Select, Without, ControlInv, Split, Parse, Accepted, Apply;
    var u := Apply(c, s, Execute(e));
    PassedPending(c, s, e, t);
    PassedFields(c, s, e, t);
    UniqueIds(s.g.kernel);
    IdsBelow(s.g.kernel, t);
    assert s.g.kernel.now <= e.time;
    PassedHolds(s, e, t, u);
  }

  lemma IdsBelow(k: Kernel, t: Entry)
    requires k.Valid() && t in k.pending
    ensures t.id < k.nextId
  {
  }

  lemma PassedHolds(s: System, e: Entry, t: Entry, u: System)
    requires Steerable(s, t) && Precedes(e, t) && t.id < s.g.kernel.nextId && e in s.g.kernel.pending
    requires s.g.kernel.now <= e.time
    requires u == s.(delivered := u.delivered, g := s.g.(kernel := u.g.kernel, eventWait := u.g.eventWait))
    requires u.g.kernel.now == e.time && (KindOf(e.event) != Callback ==> u.delivered == s.delivered)
    requires !Waiting(s, e) ==> u.g.eventWait == s.g.eventWait
    requires e.event.WaitForNextUpdate? ==> u.g.eventWait == s.g.kernel.nextId
    requires forall x, y :: x in s.g.kernel.pending && y in s.g.kernel.pending && x.id == y.id ==> x == y
    requires forall x :: x in u.g.kernel.pending ==>
               (x in s.g.kernel.pending && x != e)
               || (x == Entry(s.g.kernel.nextId, e.time, WaitForNextUpdate) && e.time == t.time && Waiting(s, e))
    requires forall x :: x in s.g.kernel.pending && x != e && !BothWait(x, e) ==> x in u.g.kernel.pending
    ensures Steered(s, t, u) && e !in u.g.kernel.pending
  {
    assert t in u.g.kernel.pending;
    assert t.time == e.time || (Unheld(u) && t.time <= u.g.timePause);
  }

  lemma SteeredTransitive(s: System, t: Entry, m: System, u: System)
    requires Steered(s, t, m) && Steered(m, t, u)
    ensures Steered(s, t, u)
  {
  }

  /** The simulator runs an event that is no message and no end of the connection, and no wait event or
      callback either if unheld or uncalled. */
  predicate Minor(a: Action, unheld: bool, uncalled: bool)
  {
    a.Execute? && !a.e.event.ForwardUp? && !a.e.event.Stop? && (unheld ==> !a.e.event.WaitForNextUpdate?)
    && (uncalled ==> KindOf(a.e.event) != Callback)
  }

  lemma NoneBeforeStays(s: System, e: Entry, t: Entry, m: System, kind: Kind)
    requires Steered(s, t, m) && NoneBefore(s, t, kind) && e in s.g.kernel.pending && Precedes(e, t)
    ensures NoneBefore(m, t, kind) && KindOf(e.event) != kind
  {
  }

  /** The simulator alone can bring t to the front. */
  lemma Steer(c: Delimiters, s: System, t: Entry) returns (run: seq<Action>)
    requires GoodDelimiters(c) && Core(c, s) && Steerable(s, t)
    ensures Feasible(c, s, run) && forall a :: a in run ==> Minor(a, NoneBefore(s, t, Wait), NoneBefore(s, t, Callback))
    ensures var u := End(c, s, run); Core(c, u) && Steered(s, t, u) && Enabled(c, u, Execute(t))
    decreases set x | x in s.g.kernel.pending && Precedes(x, t)
  {
    hide Core, Steered, Apply, Select;
    var e := SomeEventIsNext(s.g.kernel.pending);
    if e == t {
      run := [];
      CoreValid(c, s);
      SteeredAlready(s, t);
    } else {
      var m := Apply(c, s, Execute(e));
      assert Enabled(c, s, Execute(e));
      EventKeeps(c, s, e);
      Pass(c, s, e, t);
      PassedPending(c, s, e, t);
      SteeredShrinks(s, e, t, m);
      if NoneBefore(s, t, Wait) { NoneBeforeStays(s, e, t, m, Wait); }
      if NoneBefore(s, t, Callback) { NoneBeforeStays(s, e, t, m, Callback); }
      var rest := Steer(c, m, t);
      RunFirst(c, s, Execute(e), rest);
      run := [Execute(e)] + rest;
      SteeredTransitive(s, t, m, End(c, m, rest));
    }
  }

  lemma CoreValid(c: Delimiters, s: System)
    requires GoodDelimiters(c) && Core(c, s) && s.fatal.None?
    ensures KernelInv(s.g.kernel, s.g.eventWait)
  {
    hide Select;
  }

  lemma SteeredAlready(s: System, t: Entry)
    requires Steerable(s, t)
    requires forall o :: o in s.g.kernel.pending ==> t.time < o.time || (t.time == o.time && t.id <= o.id)
    requires s.g.kernel.Valid()
    ensures Steered(s, t, s)
  {
  }

  lemma SteeredShrinks(s: System, e: Entry, t: Entry, m: System)
    requires Steered(s, t, m) && Steerable(s, t) && e in s.g.kernel.pending && Precedes(e, t)
    requires e !in m.g.kernel.pending
    ensures Steerable(m, t)
    ensures (set x | x in m.g.kernel.pending && Precedes(x, t)) < (set x | x in s.g.kernel.pending && Precedes(x, t))
  {
    var a, b := set x | x in m.g.kernel.pending && Precedes(x, t), set x | x in s.g.kernel.pending && Precedes(x, t);
    assert e in b && e !in a;
  }
}
