/** The receive thread moving alone: for every script of recv results its actions add up to what the
    RunThread method of the gateway object does. */
module GatewayThread {
  import opened Words
  import opened Framing
  import opened Events
  import opened GatewayEffects
  import opened Gateway
  import opened GatewayRuns

  lemma {:induction false} RunsCompose(c: Delimiters, s: System, run: seq<Action>, more: seq<Action>)
    requires GoodDelimiters(c) && Feasible(c, s, run) && Feasible(c, End(c, s, run), more)
    ensures Feasible(c, s, run + more) && End(c, s, run + more) == End(c, End(c, s, run), more)
    decreases |run|
  {
    hide Apply, Enabled;
    if run == [] {
      assert run + more == more;
    } else {
      assert (run + more)[0] == run[0] && (run + more)[1..] == run[1..] + more;
      RunsCompose(c, Apply(c, s, run[0]), run[1..], more);
    }
  }

  lemma RunOne(c: Delimiters, s: System, a: Action)
    requires GoodDelimiters(c) && Enabled(c, s, a)
    ensures Feasible(c, s, [a]) && End(c, s, [a]) == Apply(c, s, a)
  {
    hide Apply, Enabled;
    assert [a][1..] == [];
    assert End(c, Apply(c, s, a), []) == Apply(c, s, a);
  }

  lemma RunFirst(c: Delimiters, s: System, a: Action, run: seq<Action>)
    requires GoodDelimiters(c) && Enabled(c, s, a) && Feasible(c, Apply(c, s, a), run)
    ensures Feasible(c, s, [a] + run) && End(c, s, [a] + run) == End(c, Apply(c, s, a), run)
  {
    hide Apply, Enabled;
    assert ([a] + run)[1..] == run;
  }

  predicate OfThread(a: Action)
  {
    a.Check? || a.Receive? || a.Close? || a.Take? || a.ScheduleForward?
  }

  lemma {:induction false} ForwardsFirst(k: Kernel, n: nat)
    requires n > 0
    ensures ScheduleForwards(k, n) == ScheduleForwards(k.ScheduleNow(ForwardUp), n - 1)
  {
    if n > 1 { ForwardsFirst(k, n - 1); }
  }

  /** The simulator after n messages have been forwarded and the connection has perhaps ended. */
  function Scheduled(k: Kernel, n: nat, ends: bool): Kernel
  {
    if ends then ScheduleForwards(k, n).ScheduleNow(Stop) else ScheduleForwards(k, n)
  }

  /** t is s after the thread has seen more bytes of its stream and then the end, or blocks in recv. */
  ghost predicate ThreadDone(c: Delimiters, s: System, more: string, ends: bool, t: System)
    requires GoodDelimiters(c)
  {
    var ms, rest := Messages(Unframed(s) + more, c.m), Remainder(Unframed(s) + more, c.m);
    t.thread == (if ends then Exited(rest) else Receiving(rest))
    && (s.g.buffer <= Unframed(s) ==> t.g.buffer <= rest)
    && t == s.(thread := t.thread, received := s.received + more,
               g := s.g.(buffer := t.g.buffer, queue := s.g.queue + ms, kernel := Scheduled(s.g.kernel, |ms|, ends)))
  }

  /** The thread takes the first complete message and schedules its ForwardUp. */
  lemma ForwardFirst(c: Delimiters, s: System, more: string, ends: bool, t: System)
    requires GoodDelimiters(c) && s.thread.Receiving? && Find(s.thread.data, c.m).Some?
    requires ThreadDone(c, Apply(c, Apply(c, s, Take), ScheduleForward), more, ends, t)
    ensures ThreadDone(c, s, more, ends, t)
  {
    hide Split, Find, ScheduleForwards, Messages, Remainder;
    var data := s.thread.data;
    var i := Find(data, c.m).value;
    var x, left := data[..i], data[i + |c.m|..];
    FirstFramed(data, more, c.m);
    var u := Apply(c, Apply(c, s, Take), ScheduleForward);
    assert Unframed(u) == left && u.g.queue == s.g.queue + [x];
    var a, b := Messages(left + more, c.m), Messages(data + more, c.m);
    assert s.g.queue + [x] + a == s.g.queue + b;
    ForwardsFirst(s.g.kernel, |b|);
  }

  lemma FirstFramed(data: string, more: string, m: string)
    requires m != "" && Find(data, m).Some?
    ensures var i := Find(data, m).value;
            var left := data[i + |m|..];
            Messages(data + more, m) == [data[..i]] + Messages(left + more, m)
            && Remainder(data + more, m) == Remainder(left + more, m)
  {
    hide Split, Find;
    SplitHead(data, more, m);
  }

  lemma NothingToFrame(data: string, m: string)
    requires m != "" && Find(data, m).None?
    ensures Messages(data, m) == [] && Remainder(data, m) == data && Messages(data + "", m) == []
    ensures Remainder(data + "", m) == data
  {
    hide Find;
    assert data + "" == data;
  }

  lemma ReceiveMore(c: Delimiters, s: System, chunk: string, more: string, ends: bool, t: System)
    requires GoodDelimiters(c) && s.thread.Receiving? && ThreadDone(c, Apply(c, s, Receive(chunk)), more, ends, t)
    ensures ThreadDone(c, s, chunk + more, ends, t)
  {
    hide Split, Find, ScheduleForwards, Scheduled, Messages, Remainder;
    assert s.thread.data + chunk + more == s.thread.data + (chunk + more);
    assert s.received + chunk + more == s.received + (chunk + more);
  }

  /** For every script of recv results there is a run of the thread alone that ends where the
      RunThread method ends: same queue, same events in the same order, same partial message. */
  lemma ThreadAlone(c: Delimiters, s: System, script: seq<Recv>) returns (run: seq<Action>)
    requires GoodDelimiters(c) && s.fatal.None? && s.g.state == CONNECTED && (s.thread.AtTop? || s.thread.Receiving?)
    ensures Feasible(c, s, run) && forall a :: a in run ==> OfThread(a) && (a.Close? ==> Ends(script))
    ensures ThreadDone(c, s, Received(script), Ends(script), End(c, s, run))
    decreases |script|, |Unframed(s)|, if s.thread.AtTop? then 1 else 0
  {
    hide Split, Find, ScheduleForwards, ThreadDone;
    if s.thread.AtTop? {
      var rest := ThreadAlone(c, Apply(c, s, Check), script);
      RunFirst(c, s, Check, rest);
      run := [Check] + rest;
      CheckedDone(c, s, Received(script), Ends(script), End(c, s, run));
    } else if Find(s.thread.data, c.m).Some? {
      var u := Apply(c, Apply(c, s, Take), ScheduleForward);
      var rest := ThreadAlone(c, u, script);
      RunFirst(c, Apply(c, s, Take), ScheduleForward, rest);
      RunFirst(c, s, Take, [ScheduleForward] + rest);
      run := [Take] + ([ScheduleForward] + rest);
      ForwardFirst(c, s, Received(script), Ends(script), End(c, s, run));
    } else if script == [] {
      run := [];
      Blocked(c, s);
    } else if script[0].Data? {
      var a := Receive(script[0].bytes);
      var rest := ThreadAlone(c, Apply(c, s, a), script[1..]);
      RunFirst(c, s, a, rest);
      run := [a] + rest;
      ReceiveMore(c, s, script[0].bytes, Received(script[1..]), Ends(script), End(c, s, run));
    } else {
      run := [Close];
      RunOne(c, s, Close);
      ClosedNow(c, s);
    }
  }

  /** Once the gateway is stopping the thread leaves its loop and takes nothing, as RunThread does. */
  lemma StoppedThreadLeaves(c: Delimiters, s: System)
    requires GoodDelimiters(c) && s.fatal.None? && s.thread.AtTop? && s.g.state != CONNECTED
    ensures Enabled(c, s, Check) && Apply(c, s, Check) == s.(thread := Exited(s.g.buffer))
    ensures forall a :: OfThread(a) ==> !Enabled(c, Apply(c, s, Check), a)
  {
    hide Find;
  }

  lemma CheckedDone(c: Delimiters, s: System, more: string, ends: bool, t: System)
    requires GoodDelimiters(c) && s.thread.AtTop? && s.g.state == CONNECTED
    requires ThreadDone(c, Apply(c, s, Check), more, ends, t)
    ensures ThreadDone(c, s, more, ends, t)
  {
    hide Split, Find, ScheduleForwards;
  }

  lemma Blocked(c: Delimiters, s: System)
    requires GoodDelimiters(c) && s.thread.Receiving? && Find(s.thread.data, c.m).None?
    ensures ThreadDone(c, s, "", false, s)
  {
    hide Split, Find;
    NothingToFrame(s.thread.data, c.m);
    assert s.g.queue + [] == s.g.queue && s.received + "" == s.received;
  }

  lemma ClosedNow(c: Delimiters, s: System)
    requires GoodDelimiters(c) && s.thread.Receiving? && Find(s.thread.data, c.m).None?
    ensures ThreadDone(c, s, "", true, Apply(c, s, Close))
  {
    hide Split, Find;
    NothingToFrame(s.thread.data, c.m);
    assert s.g.queue + [] == s.g.queue && s.received + "" == s.received;
  }

  // ----- the bytes of a stream as recv results

  /** The whole of w, one byte at a time. */
  function Bytes(w: string): (script: seq<Recv>)
    ensures !Ends(script)
  {
    if w == "" then [] else [Data([w[0]])] + Bytes(w[1..])
  }

  lemma {:induction false} ReceivedBytes(w: string)
    ensures Received(Bytes(w)) == w
  {
    if w != "" {
      ReceivedBytes(w[1..]);
      assert Bytes(w)[1..] == Bytes(w[1..]);
    }
  }
}
