/**
What a broadcast and a kick are worth over a whole run: no request is lost between the publisher and the handler, a
broadcast that waits can always still succeed, the lock is given back only with an answer, and a kick stands until the
handler has seen it.
*/
module IpiRuns {
  import opened Wrappers
  import opened Ipi

  // ---------------------------------------------------------------- nothing is lost

  /** The newest request published to a CPU is in its slot, in its handler's hands, or acknowledged. */
  predicate InSight(x: Cpu) {
    x.slot.None? ==> (if x.handler.Away? then x.acked else x.handler.p.id) == |x.published|
  }

  ghost predicate AllInSight(s: State) { forall c :: 0 <= c < |s.cpus| ==> InSight(s.cpus[c]) }

  lemma StepKeepsSight(s: State, e: Step)
    requires Inv(s) && Enabled(s, e) && AllInSight(s)
    ensures AllInSight(Next(s, e))
  {
    if e.Take? && s.cpus[e.c].slot.Some? { assert CpuOk(s.cpus[e.c]); }
  }

  /** A request that a CPU has not acknowledged is waiting for it, or being performed by it. */
  lemma {:induction false} NothingLost(run: seq<State>, steps: seq<Step>, n: nat)
    requires IsRun(run, steps) && n < |run| && forall i :: 0 <= i < n ==> InRange(run[i], steps[i])
    ensures AllInSight(run[n])
  {
    if n > 0 {
      hide Inv, Enabled, Next, AllInSight;
      NothingLost(run, steps, n - 1);
      RunKeeps(run, steps, n - 1);
      assert run[n] == Next(run[n - 1], steps[n - 1]);
      StepKeepsSight(run[n - 1], steps[n - 1]);
    }
  }

  // ---------------------------------------------------------------- a broadcast can succeed

  /** The state after some steps, each of which could be taken. */
  ghost predicate Leads(s: State, steps: seq<Step>, s': State)
    decreases |steps|
  {
    if steps == [] then s' == s else Enabled(s, steps[0]) && Leads(Next(s, steps[0]), steps[1..], s')
  }

  lemma {:induction false} LeadsOn(s: State, a: seq<Step>, s1: State, b: seq<Step>, s': State)
    requires Leads(s, a, s1) && Leads(s1, b, s')
    ensures Leads(s, a + b, s')
    decreases |a|
  {
    if a == [] {
      assert a + b == b;
    } else {
      LeadsOn(Next(s, a[0]), a[1..], s1, b, s');
      assert (a + b)[1..] == a[1..] + b;
    }
  }

  lemma LeadsFirst(s: State, e: Step, rest: seq<Step>, s': State)
    requires Enabled(s, e) && Leads(Next(s, e), rest, s')
    ensures Leads(s, [e] + rest, s')
  {
    assert ([e] + rest)[1..] == rest;
  }

  predicate Settled(x: Cpu) { x.slot.None? && x.handler.Away? && x.acked == |x.published| }

  function Left(x: Cpu): nat { (if x.slot.Some? then 3 else 0) + (if x.handler.Took? then 2 else if x.handler.Did? then 1 else 0) }

  /** A CPU that is left to take its interrupts acknowledges everything published to it. */
  lemma {:induction false} Settles(s: State, c: nat) returns (steps: seq<Step>, s': State)
    requires c < |s.cpus| && InSight(s.cpus[c]) && (s.cpus[c].slot.Some? ==> s.cpus[c].slot.value.id == |s.cpus[c].published|)
    ensures Leads(s, steps, s') && s'.sender == s.sender && |s'.cpus| == |s.cpus|
    ensures Settled(s'.cpus[c]) && s'.cpus[c].published == s.cpus[c].published
    ensures forall d :: 0 <= d < |s.cpus| && d != c ==> s'.cpus[d] == s.cpus[d]
    decreases Left(s.cpus[c])
  {
    var x := s.cpus[c];
    if Left(x) == 0 {
      steps, s' := [], s;
    } else {
      var e := if x.handler.Took? then Perform(c) else if x.handler.Did? then Ack(c) else Take(c);
      var rest;
      rest, s' := Settles(Next(s, e), c);
      steps := [e] + rest;
      LeadsFirst(s, e, rest, s');
    }
  }

  ghost predicate AllCurrent(s: State) {
    AllInSight(s) && forall c :: 0 <= c < |s.cpus| && s.cpus[c].slot.Some? ==> s.cpus[c].slot.value.id == |s.cpus[c].published|
  }

  lemma {:induction false} AllSettle(s: State, n: nat) returns (steps: seq<Step>, s': State)
    requires n <= |s.cpus| && AllCurrent(s)
    ensures Leads(s, steps, s') && s'.sender == s.sender && |s'.cpus| == |s.cpus| && AllCurrent(s')
    ensures forall c :: 0 <= c < |s.cpus| ==> s'.cpus[c].published == s.cpus[c].published
    ensures forall c :: 0 <= c < n ==> Settled(s'.cpus[c])
  {
    if n == 0 {
      steps, s' := [], s;
    } else {
      hide Leads;
      var a, s1 := AllSettle(s, n - 1);
      var b;
      b, s' := Settles(s1, n - 1);
      steps := a + b;
      LeadsOn(s, a, s1, b, s');
    }
  }

  /** The wait loop goes through once every CPU has answered. */
  lemma {:induction false} LooksThrough(s: State) returns (steps: seq<Step>, s': State)
    requires s.sender.Waiting? && |s.sender.targets| == |s.cpus| && s.sender.seen <= |s.cpus|
    requires forall c :: 0 <= c < |s.cpus| ==> Answered(s.cpus[c], s.sender.targets[c])
    ensures Leads(s, steps, s') && s' == s.(sender := Returned(s.sender.me, s.sender.req, s.sender.targets, true))
    decreases |s.cpus| - s.sender.seen
  {
    var e := if s.sender.seen < |s.cpus| then Look else Succeed;
    if e.Look? {
      var rest;
      rest, s' := LooksThrough(Next(s, e));
      steps := [e] + rest;
      LeadsFirst(s, e, rest, s');
    } else {
      steps, s' := [e], Next(s, e);
      assert Leads(s', [], s');
      LeadsFirst(s, e, [], s');
    }
  }

  /** However the CPUs have fared so far, a broadcast that is waiting can still return true. */
  lemma CanSucceed(run: seq<State>, ran: seq<Step>, n: nat) returns (steps: seq<Step>, s': State)
    requires IsRun(run, ran) && n < |run| && forall i :: 0 <= i < n ==> InRange(run[i], ran[i])
    requires run[n].sender.Waiting?
    ensures var x := run[n].sender; Leads(run[n], steps, s') && s'.sender == Returned(x.me, x.req, x.targets, true)
  {
    RunKeeps(run, ran, n);
    NothingLost(run, ran, n);
    var s := run[n];
    forall c | 0 <= c < |s.cpus| && s.cpus[c].slot.Some? ensures s.cpus[c].slot.value.id == |s.cpus[c].published| {
      assert CpuOk(s.cpus[c]);
    }
    hide Leads, IsRun;
    var a, s1 := AllSettle(s, |s.cpus|);
    forall c | 0 <= c < |s1.cpus| ensures Answered(s1.cpus[c], s1.sender.targets[c]) {
      if c != s.sender.me { assert TargetOk(s.cpus[c], s.sender.targets[c].value, s.sender.req); }
    }
    var b;
    b, s' := LooksThrough(s1);
    steps := a + b;
    LeadsOn(s, a, s1, b, s');
  }

  /** A broadcast that has the lock gets through to the wait: it publishes to every CPU but its own. */
  lemma {:induction false} PublishesAll(s: State) returns (steps: seq<Step>, s': State)
    requires s.sender.Publishing? && |s.sender.targets| <= |s.cpus|
    ensures Leads(s, steps, s') && Unaided(steps) && s'.sender.Waiting? && s'.sender.me == s.sender.me && s'.sender.req == s.sender.req
    ensures |s'.sender.targets| == |s.cpus| == |s'.cpus| && s.sender.targets <= s'.sender.targets
    ensures forall c :: |s.sender.targets| <= c < |s.cpus| && c != s.sender.me ==>
              && s'.sender.targets[c].Some? && s'.cpus[c].slot == Some(Pending(s'.sender.targets[c].value.id, s.sender.req))
              && s'.cpus[c].published == s.cpus[c].published + [s.sender.req]
    ensures forall c :: 0 <= c < |s.sender.targets| ==> s'.cpus[c] == s.cpus[c]
    decreases |s.cpus| - |s.sender.targets|, if |s.sender.targets| < |s.cpus| && !MidPublish(s) then 1 else 0
  {
    var e := NextToPublish(s);
    if e.Sent? {
      steps, s' := [e], Next(s, e);
      assert Leads(s', [], s');
      LeadsFirst(s, e, [], s');
    } else {
      var rest;
      rest, s' := PublishesAll(Next(s, e));
      steps := [e] + rest;
      LeadsFirst(s, e, rest, s');
    }
  }

  /** Whether or not any other CPU ever answers, a broadcast can come to its end and give the lock back. */
  lemma LockComesBack(s: State) returns (steps: seq<Step>, s': State)
    requires !s.sender.Idle? && (s.sender.Publishing? ==> |s.sender.targets| <= |s.cpus|)
    ensures Leads(s, steps, s') && s'.sender.Idle? && Unaided(steps)
  {
    var a, s1 := [], s;
    if s.sender.Publishing? { a, s1 := PublishesAll(s); }
    var b := if s1.sender.Waiting? then [GiveUp] else [];
    var s2 := if s1.sender.Waiting? then Next(s1, GiveUp) else s1;
    s' := Next(s2, Unlock);
    assert Leads(s2, [], s2) && Leads(s', [], s');
    LeadsFirst(s2, Unlock, [], s');
    if s1.sender.Waiting? { LeadsFirst(s1, GiveUp, [], s2); }
    hide Leads, Next, Enabled;
    LeadsOn(s1, b, s2, [Unlock], s');
    LeadsOn(s, a, s1, b + [Unlock], s');
    steps := a + (b + [Unlock]);
  }

  predicate Unaided(steps: seq<Step>) { forall i :: 0 <= i < |steps| ==> !steps[i].Take? && !steps[i].Perform? && !steps[i].Ack? }

  function NextToPublish(s: State): (e: Step)
    requires s.sender.Publishing? && |s.sender.targets| <= |s.cpus|
    ensures Enabled(s, e)
  {
    if At(s.sender) == |s.cpus| then Sent
    else if At(s.sender) == s.sender.me then Skip
    else if MidPublish(s) then Store else Bump
  }

  // ---------------------------------------------------------------- one broadcast at a time, and every one is answered

  /** How the broadcaster moves on. */
  lemma SenderMoves(s: State, e: Step)
    requires Enabled(s, e)
    ensures var x, y := s.sender, Next(s, e).sender;
            || y == x
            || (x.Idle? && e.Begin? && y == Publishing(e.me, e.req, []))
            || (x.Publishing? && y.Publishing? && y.me == x.me && y.req == x.req)
            || (x.Publishing? && y == Waiting(x.me, x.req, x.targets, 0) && |x.targets| == |s.cpus|)
            || (x.Waiting? && y.Waiting? && y.me == x.me && y.req == x.req && y.targets == x.targets)
            || (x.Waiting? && y == Returned(x.me, x.req, x.targets, e.Succeed?) && (e.Succeed? || e.GiveUp?))
            || (x.Returned? && e.Unlock? && y == Idle)
  {}

  /** Whoever has the broadcast lock is the CPU that took it last, with the request it took it for. */
  lemma {:induction false} OneBroadcast(run: seq<State>, steps: seq<Step>, n: nat) returns (k: nat)
    requires IsRun(run, steps) && n < |run| && !run[n].sender.Idle?
    ensures k < n && steps[k] == Begin(run[n].sender.me, run[n].sender.req)
    ensures forall j :: k < j <= n ==> !run[j].sender.Idle? && run[j].sender.me == run[n].sender.me && run[j].sender.req == run[n].sender.req
  {
    hide Next, Enabled;
    assert n > 0;
    assert run[n] == Next(run[n - 1], steps[n - 1]);
    SenderMoves(run[n - 1], steps[n - 1]);
    if run[n - 1].sender.Idle? {
      k := n - 1;
    } else {
      k := OneBroadcast(run, steps, n - 1);
    }
  }

  /** The lock is given back only after an answer. */
  lemma AnsweredFirst(run: seq<State>, steps: seq<Step>, n: nat)
    requires IsRun(run, steps) && 0 < n < |run| && run[n].sender.Idle? && !run[n - 1].sender.Idle?
    ensures run[n - 1].sender.Returned?
  {
    hide Next, Enabled;
    assert run[n] == Next(run[n - 1], steps[n - 1]);
    SenderMoves(run[n - 1], steps[n - 1]);
  }

  // ---------------------------------------------------------------- kicks

  /** Whether a CPU has been kicked, while not idle, since its handler last ran. */
  predicate Kicked(steps: seq<Step>, c: nat) {
    steps != [] && var e := steps[|steps| - 1]; e == Kick(c) || (e != Take(c) && Kicked(steps[..|steps| - 1], c))
  }

  lemma KickMoves(s: State, e: Step, c: nat)
    requires Enabled(s, e) && c < |s.cpus|
    ensures |Next(s, e).cpus| == |s.cpus|
    ensures Next(s, e).cpus[c].resched <==> e == Kick(c) || (e != Take(c) && s.cpus[c].resched)
  {}

  lemma {:induction false} KickStands(run: seq<State>, steps: seq<Step>, n: nat, c: nat)
    requires IsRun(run, steps) && n < |run| && c < |run[0].cpus|
    ensures |run[n].cpus| == |run[0].cpus|
    ensures run[n].cpus[c].resched <==> Kicked(steps[..n], c)
  {
    if n > 0 {
      hide Next, Enabled;
      KickStands(run, steps, n - 1, c);
      assert run[n] == Next(run[n - 1], steps[n - 1]);
      KickMoves(run[n - 1], steps[n - 1], c);
      assert steps[..n][..n - 1] == steps[..n - 1] && steps[..n][n - 1] == steps[n - 1];
    }
  }
}
