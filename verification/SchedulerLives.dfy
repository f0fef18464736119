/**
A task's life, end to end: it is made and queued, it blocks or sleeps and its CPU goes idle, the tick brings a sleeper back
once its time has come, and a task that ends is handed to the reaper.
*/
module SchedulerLives {
  import opened Wrappers
  import opened Scheduler
  import opened SchedulerSafety
  import opened SchedulerProgress
  import opened SchedulerTimes

  // ---------------------------------------------------------------- leaving a CPU

  /** The idle task of `c` is set aside, ready to be switched to. */
  predicate IdleReady(s: State, c: nat) {
    c < |s.cpus| && s.cpus[c].idle in s.tasks && s.cpus[c].idle != s.cpus[c].current &&
    var x := s.tasks[s.cpus[c].idle]; x.idle && x.state.Ready? && x.place.Nowhere? && (x.cpu.None? || x.cpu == Some(c))
  }

  lemma WorkerAtRest(s: State, c: nat)
    requires Inv(s) && AtWork(s, c)
    ensures IdleReady(s, c) && s.tasks[s.cpus[c].current] == Task(Running, Some(c), OnCpu, false)
  {
    hide SleepersOk, ReapOk, LockOk, QueuesOk, HandsOk;
    var w :| InvAt(s, w);
    assert CpuOk(s, w, c);
    assert TaskOk(s, s.cpus[c].current, w[s.cpus[c].current]);
    assert TaskOk(s, s.cpus[c].idle, w[s.cpus[c].idle]);
  }

  function Away(c: nat): seq<Step> { [Fallback(c)] + [Start(c)] + ([Unplace(c)] + [Release(c)] + [Test(c)]) }

  /** `t` has left CPU `c` in state `st`, and the CPU runs its idle task. */
  function Left(s: State, c: nat, t: TaskId, st: RunState): State
    requires c < |s.cpus|
  {
    s.(tasks := s.tasks[t := Task(st, None, Nowhere, false)][s.cpus[c].idle := Task(Running, Some(c), OnCpu, true)],
       cpus := s.cpus[c := s.cpus[c].(current := s.cpus[c].idle, phase := Executing)])
  }

  /** The half of a switch that comes after the switch itself. */
  lemma GivesUp(s: State, c: nat, p: TaskId, st: RunState)
    requires c < |s.cpus| && s.cpus[c].phase == Switched(p) && (st.Blocked? || st.Sleeping? || st.Dead?)
    requires p in s.tasks && s.tasks[p] == Task(st, Some(c), OnCpu, false)
    ensures Leads(s, [Unplace(c)] + [Release(c)] + [Test(c)],
                  s.(tasks := s.tasks[p := Task(st, None, Nowhere, false)], cpus := s.cpus[c := s.cpus[c].(phase := Executing)]))
  {
    var x := s.cpus[c];
    var s1 := s.(tasks := s.tasks[p := Task(st, Some(c), Nowhere, false)], cpus := s.cpus[c := x.(phase := Unplaced(p))]);
    var s2 := s.(tasks := s.tasks[p := Task(st, None, Nowhere, false)], cpus := s.cpus[c := x.(phase := Released(p))]);
    var s3 := s.(tasks := s.tasks[p := Task(st, None, Nowhere, false)], cpus := s.cpus[c := x.(phase := Executing)]);
    assert DoUnplace(s, c) == s1;
    assert DoRelease(s1, c) == s2;
    assert DoTest(s2, c) == s3;
    OneStep(s, Unplace(c));
    OneStep(s1, Release(c));
    OneStep(s2, Test(c));
    hide Leads, Next, Enabled;
    LeadsOn(s, [Unplace(c)], s1, [Release(c)], s2);
    LeadsOn(s, [Unplace(c)] + [Release(c)], s2, [Test(c)], s3);
  }

  /** A CPU with nothing queued leaves a task that can no longer run for its idle task, and gives it up altogether. */
  lemma SwitchesAway(s: State, c: nat, st: RunState)
    requires IdleReady(s, c) && s.cpus[c].phase.Leaving? && (st.Blocked? || st.Sleeping? || st.Dead?)
    requires s.cpus[c].current in s.tasks && s.tasks[s.cpus[c].current] == Task(st, Some(c), OnCpu, false)
    ensures Leads(s, Away(c), Left(s, c, s.cpus[c].current, st))
  {
    hide Leads, Next, Enabled;
    var t, n := s.cpus[c].current, s.cpus[c].idle;
    var s1 := SetCpu(s, c, s.cpus[c].(phase := Chosen(n)));
    var s2 := s.(tasks := s.tasks[n := Task(Running, Some(c), OnCpu, true)], cpus := s.cpus[c := s.cpus[c].(current := n, phase := Switched(t))]);
    SwitchStart(s, c, st, s1, s2);
    GivesUp(s2, c, t, st);
    assert s2.tasks[t := Task(st, None, Nowhere, false)] == Left(s, c, t, st).tasks;
    assert s2.cpus[c := s2.cpus[c].(phase := Executing)] == Left(s, c, t, st).cpus;
    LeadsOn(s, [Fallback(c)] + [Start(c)], s2, [Unplace(c)] + [Release(c)] + [Test(c)], Left(s, c, t, st));
  }

  lemma SwitchStart(s: State, c: nat, st: RunState, s1: State, s2: State)
    requires IdleReady(s, c) && s.cpus[c].phase.Leaving? && (st.Blocked? || st.Sleeping? || st.Dead?)
    requires s.cpus[c].current in s.tasks && s.tasks[s.cpus[c].current] == Task(st, Some(c), OnCpu, false)
    requires s1 == SetCpu(s, c, s.cpus[c].(phase := Chosen(s.cpus[c].idle)))
    requires s2 == s.(tasks := s.tasks[s.cpus[c].idle := Task(Running, Some(c), OnCpu, true)],
                      cpus := s.cpus[c := s.cpus[c].(current := s.cpus[c].idle, phase := Switched(s.cpus[c].current))])
    ensures Leads(s, [Fallback(c)] + [Start(c)], s2)
  {
    assert s.tasks[s.cpus[c].current := s.tasks[s.cpus[c].current]] == s.tasks;
    assert Next(s1, Start(c)) == s2;
    OneStep(s, Fallback(c));
    OneStep(s1, Start(c));
    hide Leads, Next, Enabled;
    LeadsOn(s, [Fallback(c)], s1, [Start(c)], s2);
  }

  // ---------------------------------------------------------------- blocking, sleeping, ending

  /** A task that blocks with the lock free is off its CPU five steps later: blocked, held by nobody, and its CPU idle. */
  lemma BlockLeaves(s: State, c: nat)
    requires Inv(s) && s.lock.Unlocked? && AtWork(s, c)
    ensures Leads(s, [Block(c)] + Away(c), Left(s, c, s.cpus[c].current, Blocked))
  {
    WorkerAtRest(s, c);
    hide Inv, Away;
    var t := s.cpus[c].current;
    var s1 := Next(s, Block(c));
    OneStep(s, Block(c));
    SwitchesAway(s1, c, Blocked);
    assert Left(s1, c, t, Blocked) == Left(s, c, t, Blocked) by {
      assert s1.tasks[t := Task(Blocked, None, Nowhere, false)] == s.tasks[t := Task(Blocked, None, Nowhere, false)];
    }
    LeadsOn(s, [Block(c)], s1, Away(c), Left(s, c, t, Blocked));
  }

  /** A task that goes to sleep is off its CPU, and last on that CPU's list with the deadline it asked for. */
  lemma SleepLeaves(s: State, c: nat, until: nat)
    requires Inv(s) && s.lock.Unlocked? && AtWork(s, c)
    ensures var t := s.cpus[c].current;
            Leads(s, [SleepMark(c, until)] + [SleepList(c)] + Away(c), Left(Listed(s, c, until), c, t, Sleeping))
  {
    WorkerAtRest(s, c);
    hide Inv, Away, Leads, Next, Enabled;
    var t := s.cpus[c].current;
    var s2 := Dozes(s, c, until);
    SwitchesAway(s2, c, Sleeping);
    var s3 := Left(Listed(s, c, until), c, t, Sleeping);
    assert Left(s2, c, t, Sleeping) == s3 by {
      assert s2.tasks[t := Task(Sleeping, None, Nowhere, false)] == s.tasks[t := Task(Sleeping, None, Nowhere, false)];
    }
    LeadsOn(s, [SleepMark(c, until)] + [SleepList(c)], s2, Away(c), s3);
  }

  lemma Dozes(s: State, c: nat, until: nat) returns (s2: State)
    requires s.lock.Unlocked? && AtWork(s, c)
    ensures Leads(s, [SleepMark(c, until)] + [SleepList(c)], s2)
    ensures var t := s.cpus[c].current;
            && s2.tasks == s.tasks[t := s.tasks[t].(state := Sleeping)]
            && s2 == SetCpu(Listed(s, c, until), c, Listed(s, c, until).cpus[c].(phase := Leaving)).(tasks := s2.tasks)
  {
    var s1 := Next(s, SleepMark(c, until));
    s2 := Next(s1, SleepList(c));
    OneStep(s, SleepMark(c, until));
    OneStep(s1, SleepList(c));
    LeadsOn(s, [SleepMark(c, until)], s1, [SleepList(c)], s2);
  }

  function Listed(s: State, c: nat, until: nat): State
    requires c < |s.cpus|
  { SetCpu(s, c, s.cpus[c].(sleepers := s.cpus[c].sleepers + [Entry(s.cpus[c].current, until)])) }

  /** A task that ends, on no list, is taken by the reaper as soon as its CPU has left it: gone from the table, and released
      once. */
  lemma EndIsReaped(s: State, c: nat) returns (s': State)
    requires Inv(s) && s.lock.Unlocked? && AtWork(s, c)
    requires forall d :: 0 <= d < |s.cpus| ==> !Lists(s.cpus[d].sleepers, s.cpus[c].current)
    ensures Leads(s, [Exit(c)] + Away(c) + [TakeDead(|s.reap|)], s')
    ensures var t := s.cpus[c].current;
            && s'.released == s.released + [t] && s'.reap == s.reap && s'.tasks.Keys == s.tasks.Keys - {t}
            && s'.cpus == s.cpus[c := s.cpus[c].(current := s.cpus[c].idle)] && s'.hands == s.hands && s'.reports == s.reports
            && forall u :: u in s'.tasks && u != s.cpus[c].idle ==> s'.tasks[u] == s.tasks[u]
  {
    hide Inv, Away, Leads, Next, Enabled;
    var s2 := EndLeaves(s, c);
    assert forall d :: 0 <= d < |s.cpus| ==> s2.cpus[d].sleepers == s.cpus[d].sleepers;
    s' := Reaps(s2, |s.reap|);
    LeadsOn(s, [Exit(c)] + Away(c), s2, [TakeDead(|s.reap|)], s');
  }

  lemma EndLeaves(s: State, c: nat) returns (s2: State)
    requires Inv(s) && s.lock.Unlocked? && AtWork(s, c)
    ensures Leads(s, [Exit(c)] + Away(c), s2)
    ensures s2 == Left(s, c, s.cpus[c].current, Dead).(reap := s.reap + [s.cpus[c].current])
    ensures s.cpus[c].current in s.tasks && s.cpus[c].idle in s.tasks && s.cpus[c].idle != s.cpus[c].current && s.cpus[c].phase.Executing?
  {
    WorkerAtRest(s, c);
    hide Inv, Away, Leads, Next, Enabled;
    var t := s.cpus[c].current;
    var s1 := Ending(s, c);
    SwitchesAway(s1, c, Dead);
    s2 := Left(s1, c, t, Dead);
    assert s1.tasks[t := Task(Dead, None, Nowhere, false)] == s.tasks[t := Task(Dead, None, Nowhere, false)];
    LeadsOn(s, [Exit(c)], s1, Away(c), s2);
  }

  lemma Ending(s: State, c: nat) returns (s1: State)
    requires s.lock.Unlocked? && AtWork(s, c)
    ensures Leads(s, [Exit(c)], s1)
    ensures var t := s.cpus[c].current;
            s1 == s.(tasks := s.tasks[t := s.tasks[t].(state := Dead)], cpus := s.cpus[c := s.cpus[c].(phase := Leaving)], reap := s.reap + [t])
  {
    s1 := Next(s, Exit(c));
    OneStep(s, Exit(c));
  }

  lemma Reaps(s: State, i: nat) returns (s': State)
    requires s.lock.Unlocked? && |s.reap| == i + 1 && s.reap[i] in s.tasks && s.tasks[s.reap[i]].cpu.None? && s.tasks[s.reap[i]].place.Nowhere?
    requires forall d :: 0 <= d < |s.cpus| ==> !Lists(s.cpus[d].sleepers, s.reap[i])
    ensures Leads(s, [TakeDead(i)], s')
    ensures s' == s.(tasks := s.tasks - {s.reap[i]}, reap := s.reap[..i], released := s.released + [s.reap[i]])
  {
    assert s.reap[..i] + s.reap[i + 1..] == s.reap[..i];
    s' := Next(s, TakeDead(i));
    OneStep(s, TakeDead(i));
  }

  // ---------------------------------------------------------------- starting, and coming back

  /** A new task reaches the end of any queue. */
  lemma SpawnIsQueued(s: State, to: nat) returns (steps: seq<Step>, s': State)
    requires s.lock.Unlocked? && to < |s.cpus| && s.nextId !in s.tasks
    ensures Leads(s, [Spawn] + steps, s')
    ensures s' == s.(tasks := s.tasks[s.nextId := Task(Ready, None, Queued, false)], nextId := s.nextId + 1,
                     cpus := s.cpus[to := s.cpus[to].(runq := s.cpus[to].runq + [s.nextId])])
  {
    var s1 := Next(s, Spawn);
    OneStep(s, Spawn);
    hide Leads;
    steps, s' := Queues(s1, to);
    assert s1.tasks[s.nextId := Task(Ready, None, Queued, false)] == s.tasks[s.nextId := Task(Ready, None, Queued, false)];
    LeadsOn(s, [Spawn], s1, steps, s');
  }

  /** The tick brings the next task it has named, if it sleeps and nobody has it, to the end of any queue. */
  lemma TickQueues(s: State, c: nat, to: nat) returns (steps: seq<Step>, s': State)
    requires s.lock.Unlocked? && c < |s.cpus| && to < |s.cpus| && s.cpus[c].expired != []
    requires var t := s.cpus[c].expired[0]; t in s.tasks && s.tasks[t] == Task(Sleeping, None, Nowhere, false) && !InWindow(s, t)
    ensures Leads(s, [TickMark(c)] + [Settle] + steps, s')
    ensures var t := s.cpus[c].expired[0];
            && s'.tasks == s.tasks[t := Task(Ready, None, Queued, false)] && s'.hands == s.hands && s'.lock.Unlocked?
            && |s'.cpus| == |s.cpus| && s'.cpus[to].runq == s.cpus[to].runq + [t] && s'.reports == s.reports
  {
    var t := s.cpus[c].expired[0];
    var s1 := Next(s, TickMark(c));
    var s2 := Next(s1, Settle);
    OneStep(s, TickMark(c));
    OneStep(s1, Settle);
    TickGoes(s, c, t, s2);
    hide Leads, Next, Enabled;
    steps, s' := Queues(s2, to);
    LeadsOn(s, [TickMark(c)], s1, [Settle], s2);
    LeadsOn(s, [TickMark(c)] + [Settle], s2, steps, s');
  }

  lemma TickGoes(s: State, c: nat, t: TaskId, s2: State)
    requires s.lock.Unlocked? && c < |s.cpus| && s.cpus[c].expired != [] && t == s.cpus[c].expired[0]
    requires t in s.tasks && s.tasks[t] == Task(Sleeping, None, Nowhere, false)
    requires s2 == DoSettle(DoTickMark(s, c))
    ensures s2 == s.(tasks := s.tasks[t := Task(Ready, None, Nowhere, false)], hands := s.hands + [Hand(t, Waking(|s.cpus|))],
                     cpus := s.cpus[c := s.cpus[c].(expired := s.cpus[c].expired[1..])])
  {}

  /** The tick goes through the names before the `k`th. */
  lemma {:induction false} TicksPast(s: State, c: nat, k: nat, t: TaskId) returns (steps: seq<Step>, s': State)
    requires s.lock.Unlocked? && c < |s.cpus| && k <= |s.cpus[c].expired| && t !in s.cpus[c].expired[..k] && t in s.tasks
    ensures Leads(s, steps, s') && s'.lock.Unlocked? && t in s'.tasks && s'.tasks[t] == s.tasks[t] && s'.reports == s.reports
    ensures s'.cpus == s.cpus[c := s.cpus[c].(expired := s.cpus[c].expired[k..])]
    decreases k
  {
    if k == 0 {
      steps, s' := [], s;
      assert s.cpus[c].expired[0..] == s.cpus[c].expired;
    } else {
      var now, s1 := TicksOne(s, c, t);
      var rest;
      assert s1.cpus[c].expired[..k - 1] == s.cpus[c].expired[1..k];
      rest, s' := TicksPast(s1, c, k - 1, t);
      assert s1.cpus[c].expired[k - 1..] == s.cpus[c].expired[k..];
      steps := now + rest;
      hide Leads;
      LeadsOn(s, now, s1, rest, s');
    }
  }

  lemma TicksOne(s: State, c: nat, t: TaskId) returns (steps: seq<Step>, s': State)
    requires s.lock.Unlocked? && c < |s.cpus| && s.cpus[c].expired != [] && s.cpus[c].expired[0] != t && t in s.tasks
    ensures Leads(s, steps, s') && s'.lock.Unlocked? && t in s'.tasks && s'.tasks[t] == s.tasks[t] && s'.reports == s.reports
    ensures s'.cpus == s.cpus[c := s.cpus[c].(expired := s.cpus[c].expired[1..])]
  {
    steps, s' := [TickMark(c)], Next(s, TickMark(c));
    OneStep(s, TickMark(c));
    if s'.lock.Deciding? {
      var s1 := s';
      s' := Next(s1, Settle);
      OneStep(s1, Settle);
      LeadsOn(s, steps, s1, [Settle], s');
      steps := steps + [Settle];
    }
  }

  /** An entry whose time has come is named, after those before it. */
  lemma {:induction false} NamedAt(l: seq<Entry>, now: nat, room: nat, p: nat)
    requires p < |l| && l[p].due <= now && |Due(l[..p], now, room)| < room
    ensures Due(l[..p], now, room) + [l[p].task] <= Due(l, now, room)
  {
    if p > 0 {
      assert l[..p][1..] == l[1..][..p - 1];
      NamedAt(l[1..], now, if l[0].due > now || room == 0 then room else room - 1, p - 1);
    }
  }

  /** A sleeper whose time has come, with fewer than 64 others due before it on its list, is brought by one tick to the end of
      any queue. */
  lemma SleeperReturns(s: State, c: nat, p: nat, now: nat, to: nat) returns (steps: seq<Step>, s': State)
    requires s.lock.Unlocked? && c < |s.cpus| && to < |s.cpus| && s.cpus[c].expired == [] && p < |s.cpus[c].sleepers|
    requires s.cpus[c].sleepers[p].due <= now && |Due(s.cpus[c].sleepers[..p], now, 64)| < 64
    requires var t := s.cpus[c].sleepers[p].task;
             && !Lists(s.cpus[c].sleepers[..p], t) && t in s.tasks && s.tasks[t] == Task(Sleeping, None, Nowhere, false) && !InWindow(s, t)
    ensures Leads(s, [Sweep(c, now)] + steps, s')
    ensures var t := s.cpus[c].sleepers[p].task;
            && t in s'.tasks && s'.tasks[t] == Task(Ready, None, Queued, false) && |s'.cpus| == |s.cpus|
            && s'.cpus[to].runq == s.cpus[to].runq + [t] && s'.reports == s.reports
  {
    var l, t := s.cpus[c].sleepers, s.cpus[c].sleepers[p].task;
    var k := |Due(l[..p], now, 64)|;
    NamedAt(l, now, 64, p);
    if t in Due(l[..p], now, 64) { var x := DueFrom(l[..p], now, 64, t); }
    var s1 := Next(s, Sweep(c, now));
    OneStep(s, Sweep(c, now));
    assert s1.cpus[c].expired[..k] == Due(l[..p], now, 64) && s1.cpus[c].expired[k] == t;
    hide Leads, Next, Enabled, Due, Kept, Lists;
    var a, s2 := TicksPast(s1, c, k, t);
    SameWindow(s, s2, t);
    var b;
    b, s' := TickQueues(s2, c, to);
    steps := a + ([TickMark(c)] + [Settle] + b);
    LeadsOn(s1, a, s2, [TickMark(c)] + [Settle] + b, s');
    LeadsOn(s, [Sweep(c, now)], s1, steps, s');
  }

  lemma SameWindow(s: State, s': State, t: TaskId)
    requires |s'.cpus| == |s.cpus| && forall c :: 0 <= c < |s.cpus| ==> s'.cpus[c].phase == s.cpus[c].phase
    ensures InWindow(s', t) ==> InWindow(s, t)
  {}
}
