/**
That the scheduler gets somewhere: nobody in the middle of something is ever stuck, queues are served in order, a woken
task reaches a queue, and a queued task reaches a CPU.
*/
module SchedulerProgress {
  import opened Wrappers
  import opened Scheduler
  import opened SchedulerSafety

  // ---------------------------------------------------------------- nobody is stuck

  /** The step a CPU in the middle of something takes next. */
  function OwnNext(p: Phase, c: nat): Step
    requires !p.Executing?
  {
    match p
    case Dozing(_) => SleepList(c)
    case Leaving => Fallback(c)
    case Popped(_) => Unstamp(c)
    case Chosen(_) => Start(c)
    case Switched(_) => Unplace(c)
    case Unplaced(_) => Release(c)
    case Released(_) => Test(c)
  }

  /** The step a waker takes next with the task it holds. */
  function HandNext(s: State, i: nat): Step
    requires i < |s.hands|
  {
    match s.hands[i].stage
    case Waking(k) => if k < |s.cpus| then Unsleep(i) else Look(i, 0)
    case Cleared => Stamp(i)
    case Stamped => Push(i, 0)
  }

  ghost predicate StagesOk(s: State) {
    && 0 < |s.cpus| && (s.lock.Deciding? ==> s.lock.stage.Waking? && s.lock.stage.k <= |s.cpus|)
    && forall i :: 0 <= i < |s.hands| && s.hands[i].stage.Waking? ==> s.hands[i].stage.k <= |s.cpus|
  }

  predicate WakersOwn(e: Step) {
    e.WakeMark? || e.TickMark? || e.Settle? || e.Unsleep? || e.Look? || e.Stamp? || e.Push? || e.Sweep? || e.TakeDead?
  }

  lemma StepKeepsStages(s: State, e: Step)
    requires Enabled(s, e) && StagesOk(s)
    ensures StagesOk(Next(s, e)) && |Next(s, e).cpus| == |s.cpus|
  {
    hide Enabled, Next, StagesOk;
    if WakersOwn(e) { WakerKeepsStages(s, e); } else { CpuKeepsStages(s, e); }
  }

  lemma WakerKeepsStages(s: State, e: Step)
    requires Enabled(s, e) && StagesOk(s) && WakersOwn(e)
    ensures StagesOk(Next(s, e)) && |Next(s, e).cpus| == |s.cpus|
  {}

  lemma CpuKeepsStages(s: State, e: Step)
    requires Enabled(s, e) && StagesOk(s) && !WakersOwn(e)
    ensures StagesOk(Next(s, e)) && |Next(s, e).cpus| == |s.cpus|
  {}

  lemma {:induction false} RunStages(run: seq<State>, steps: seq<Step>, n: nat)
    requires IsRun(run, steps) && n < |run|
    ensures StagesOk(run[n])
  {
    hide Next, Enabled;
    if n > 0 {
      RunStages(run, steps, n - 1);
      StepKeepsStages(run[n - 1], steps[n - 1]);
    }
  }

  lemma CpuGoesOn(s: State, c: nat)
    requires Inv(s) && c < |s.cpus| && !s.cpus[c].phase.Executing?
    ensures Enabled(s, OwnNext(s.cpus[c].phase, c))
  {
    hide SleepersOk, ReapOk, LockOk, QueuesOk, HandsOk, TaskOk;
    var w :| InvAt(s, w);
    assert CpuOk(s, w, c);
  }

  lemma HandGoesOn(s: State, i: nat)
    requires Inv(s) && StagesOk(s) && i < |s.hands|
    ensures Enabled(s, HandNext(s, i))
  {
    hide SleepersOk, ReapOk, LockOk, QueuesOk, CpusOk, TasksOk;
    var w :| InvAt(s, w);
  }

  /** In every state of a race-free run, every CPU in the middle of a switch, every waker that holds a task and every decision
      that holds the lock can take its next step, whatever the others do. */
  lemma NobodyStuck(run: seq<State>, steps: seq<Step>, n: nat)
    requires IsRun(run, steps) && RaceFree(run, steps) && n < |run|
    ensures var s := run[n];
            && (forall c :: 0 <= c < |s.cpus| && !s.cpus[c].phase.Executing? ==> Enabled(s, OwnNext(s.cpus[c].phase, c)))
            && (forall i :: 0 <= i < |s.hands| ==> Enabled(s, HandNext(s, i)))
            && (s.lock.Deciding? ==> Enabled(s, Settle))
  {
    hide Next, Enabled, Init, Races, HandNext, OwnNext, Inv;
    RunInv(run, steps, n);
    RunStages(run, steps, n);
    var s := run[n];
    forall c | 0 <= c < |s.cpus| && !s.cpus[c].phase.Executing? ensures Enabled(s, OwnNext(s.cpus[c].phase, c)) { CpuGoesOn(s, c); }
    forall i | 0 <= i < |s.hands| ensures Enabled(s, HandNext(s, i)) { HandGoesOn(s, i); }
    if s.lock.Deciding? { DecisionGoesOn(s); }
  }

  lemma DecisionGoesOn(s: State)
    requires Inv(s) && s.lock.Deciding?
    ensures Enabled(s, Settle)
  {}

  // ---------------------------------------------------------------- queues are served in order

  /** When `t` was last put on a queue, counted in steps; -1 if it never was. */
  ghost function LastPush(run: seq<State>, steps: seq<Step>, n: nat, t: TaskId): int
    requires IsRun(run, steps) && n <= |steps|
  {
    if n == 0 then -1
    else if steps[n - 1].Push? && run[n - 1].hands[steps[n - 1].i].task == t then n - 1
    else LastPush(run, steps, n - 1, t)
  }

  lemma {:induction false} LastPushBelow(run: seq<State>, steps: seq<Step>, n: nat, t: TaskId)
    requires IsRun(run, steps) && n <= |steps|
    ensures LastPush(run, steps, n, t) < n
  {
    hide Next, Enabled, Init;
    if n > 0 { LastPushBelow(run, steps, n - 1, t); }
  }

  ghost predicate InPushOrder(run: seq<State>, steps: seq<Step>, n: nat, q: seq<TaskId>)
    requires IsRun(run, steps) && n <= |steps|
  {
    forall i, j :: 0 <= i < j < |q| ==> LastPush(run, steps, n, q[i]) < LastPush(run, steps, n, q[j])
  }

  /** A queue changes at its two ends only. */
  lemma QueueChanges(s: State, e: Step, c: nat)
    requires Enabled(s, e) && c < |s.cpus|
    ensures c < |Next(s, e).cpus|
    ensures var q, q' := s.cpus[c].runq, Next(s, e).cpus[c].runq;
            || q' == q || (e.Pop? && e.from == c && q != [] && q' == q[1..]) || (e.Push? && e.to == c && q' == q + [s.hands[e.i].task])
  {}

  lemma PushedFromHand(s: State, e: Step, c: nat)
    requires Inv(s) && Enabled(s, e) && e.Push? && c < |s.cpus|
    ensures s.hands[e.i].task !in s.cpus[c].runq
  {
    hide SleepersOk, ReapOk, LockOk, CpusOk, TasksOk;
    var w :| InvAt(s, w);
    forall i | 0 <= i < |s.cpus[c].runq| ensures s.cpus[c].runq[i] != s.hands[e.i].task { assert w[s.cpus[c].runq[i]] == LQueue(c); }
  }

  lemma OrderStays(run: seq<State>, steps: seq<Step>, n: nat, q: seq<TaskId>)
    requires IsRun(run, steps) && n < |steps| && InPushOrder(run, steps, n, q)
    requires steps[n].Push? ==> run[n].hands[steps[n].i].task !in q
    ensures InPushOrder(run, steps, n + 1, q)
  {
    hide Next, Init;
    forall t | t in q ensures LastPush(run, steps, n + 1, t) == LastPush(run, steps, n, t) {}
  }

  lemma LastInQueue(run: seq<State>, steps: seq<Step>, n: nat, q: seq<TaskId>)
    requires IsRun(run, steps) && n < |steps| && steps[n].Push? && InPushOrder(run, steps, n + 1, q)
    requires run[n].hands[steps[n].i].task !in q
    ensures InPushOrder(run, steps, n + 1, q + [run[n].hands[steps[n].i].task])
  {
    hide Next, Init;
    var t := run[n].hands[steps[n].i].task;
    assert LastPush(run, steps, n + 1, t) == n;
    forall u | u in q ensures LastPush(run, steps, n + 1, u) < n { LastPushBelow(run, steps, n, u); }
    hide LastPush;
    var all := q + [t];
    forall i, j | 0 <= i < j < |all| ensures LastPush(run, steps, n + 1, all[i]) < LastPush(run, steps, n + 1, all[j]) {
      assert all[i] == q[i] && all[i] in q;
      if j < |q| { assert all[j] == q[j]; }
    }
  }

  lemma {:induction false} QueuesInOrder(run: seq<State>, steps: seq<Step>, n: nat, c: nat)
    requires IsRun(run, steps) && RaceFree(run, steps) && n <= |steps| && c < |run[n].cpus|
    ensures InPushOrder(run, steps, n, run[n].cpus[c].runq)
  {
    if n > 0 {
      hide Next, Enabled, Init, Inv, Races, LastPush, InPushOrder;
      var s, e := run[n - 1], steps[n - 1];
      assert Enabled(s, e) && run[n] == Next(s, e);
      SameCount(s, e);
      RunInv(run, steps, n - 1);
      QueuesInOrder(run, steps, n - 1, c);
      QueueChanges(s, e, c);
      var q := s.cpus[c].runq;
      if e.Push? { PushedFromHand(s, e, c); PushIndex(s, e); }
      OrderStays(run, steps, n - 1, q);
      if e.Push? && run[n].cpus[c].runq == q + [s.hands[e.i].task] {
        LastInQueue(run, steps, n - 1, q);
      } else {
        LessOrdered(run, steps, n, q);
      }
    } else {
      hide Next, Enabled;
    }
  }

  lemma PushIndex(s: State, e: Step)
    requires Enabled(s, e) && e.Push?
    ensures e.i < |s.hands|
  {}

  lemma SameCount(s: State, e: Step)
    requires Enabled(s, e)
    ensures |Next(s, e).cpus| == |s.cpus|
  {}

  lemma LessOrdered(run: seq<State>, steps: seq<Step>, n: nat, q: seq<TaskId>)
    requires IsRun(run, steps) && n <= |steps| && InPushOrder(run, steps, n, q)
    ensures q != [] ==> InPushOrder(run, steps, n, q[1..])
  {
    hide Next, Enabled, Init, LastPush;
  }

  /** What a CPU takes off a queue is what has been on it longest. */
  lemma OldestFirst(run: seq<State>, steps: seq<Step>, n: nat, u: TaskId)
    requires IsRun(run, steps) && RaceFree(run, steps) && n < |steps| && steps[n].Pop?
    requires steps[n].from < |run[n].cpus| && u in run[n].cpus[steps[n].from].runq
    ensures steps[n].c < |run[n + 1].cpus| && run[n + 1].cpus[steps[n].c].phase.Popped?
    ensures var t := run[n + 1].cpus[steps[n].c].phase.task;
            && t in run[n].cpus[steps[n].from].runq
            && (u == t || LastPush(run, steps, n, t) < LastPush(run, steps, n, u))
  {
    QueuesInOrder(run, steps, n, steps[n].from);
    hide Init, LastPush;
    var q := run[n].cpus[steps[n].from].runq;
    assert run[n + 1] == Next(run[n], steps[n]);
    var i :| 0 <= i < |q| && q[i] == u;
  }

  // ---------------------------------------------------------------- waking works

  /** The state after some steps, each of which could be taken. */
  ghost predicate Leads(s: State, steps: seq<Step>, s': State)
    decreases |steps|
  {
    if steps == [] then s' == s else Enabled(s, steps[0]) && Leads(Next(s, steps[0]), steps[1..], s')
  }

  lemma {:induction false} LeadsOn(s: State, a: seq<Step>, s1: State, b: seq<Step>, s': State)
    requires Leads(s, a, s1) && Leads(s1, b, s')
    ensures Leads(s, a + b, s')
    decreases |a|
  {
    hide Next, Enabled;
    if a == [] {
      assert a + b == b;
    } else {
      LeadsOn(Next(s, a[0]), a[1..], s1, b, s');
      assert (a + b)[1..] == a[1..] + b;
    }
  }

  lemma OneStep(s: State, e: Step)
    requires Enabled(s, e)
    ensures Leads(s, [e], Next(s, e))
  {
    hide Next, Enabled;
    assert [e][1..] == [];
    assert Leads(Next(s, e), [], Next(s, e));
  }

  /** Everybody but `t` is where it was: the same CPUs but for the sleeper lists, the same tasks and hands. */
  ghost predicate Beside(s: State, s': State, t: TaskId) {
    && |s'.cpus| == |s.cpus| && s'.tasks.Keys == s.tasks.Keys && (forall u :: u in s.tasks && u != t ==> s'.tasks[u] == s.tasks[u])
    && forall c :: 0 <= c < |s.cpus| ==> s'.cpus[c] == s.cpus[c].(sleepers := s'.cpus[c].sleepers)
  }

  /** A waker goes past the lists of the CPUs from `k` on. */
  lemma {:induction false} PastLists(s: State, i: nat, k: nat) returns (steps: seq<Step>, s': State)
    requires i < |s.hands| && k <= |s.cpus| && s.hands[i].stage == Waking(k)
    ensures Leads(s, steps, s') && s' == s.(cpus := s'.cpus, hands := s.hands[i := Hand(s.hands[i].task, Waking(|s.cpus|))])
    ensures Beside(s, s', s.hands[i].task)
    ensures forall c :: 0 <= c < |s.cpus| ==> s'.cpus[c].sleepers == if c >= k then Without(s.cpus[c].sleepers, s.hands[i].task) else s.cpus[c].sleepers
    decreases |s.cpus| - k
  {
    if k == |s.cpus| {
      steps, s' := [], s;
      assert s.hands == s.hands[i := Hand(s.hands[i].task, Waking(|s.cpus|))];
    } else {
      var s1 := Next(s, Unsleep(i));
      var rest;
      rest, s' := PastLists(s1, i, k + 1);
      steps := [Unsleep(i)] + rest;
      OneStep(s, Unsleep(i));
      LeadsOn(s, [Unsleep(i)], s1, rest, s');
      assert s1.hands[i := Hand(s.hands[i].task, Waking(|s.cpus|))] == s.hands[i := Hand(s.hands[i].task, Waking(|s.cpus|))];
    }
  }

  /** A waker that has been past every list queues its task where it likes. */
  lemma Queues(s: State, to: nat) returns (steps: seq<Step>, s': State)
    requires s.hands != [] && to < |s.cpus|
    requires var h := s.hands[|s.hands| - 1]; h.stage == Waking(|s.cpus|) && h.task in s.tasks && s.tasks[h.task] == Task(Ready, None, Nowhere, false)
    ensures Leads(s, steps, s')
    ensures var t := s.hands[|s.hands| - 1].task;
            s' == s.(tasks := s.tasks[t := Task(Ready, None, Queued, false)], hands := s.hands[..|s.hands| - 1],
                     cpus := s.cpus[to := s.cpus[to].(runq := s.cpus[to].runq + [t])])
  {
    var i, t := |s.hands| - 1, s.hands[|s.hands| - 1].task;
    var s1 := s.(hands := s.hands[i := Hand(t, Cleared)]);
    var s2 := s.(tasks := s.tasks[t := Task(Ready, None, Queued, false)], hands := s.hands[i := Hand(t, Stamped)]);
    OneStep(s, Look(i, 0));
    OneStep(s1, Stamp(i));
    assert s1.hands[i := Hand(t, Stamped)] == s.hands[i := Hand(t, Stamped)];
    OneStep(s2, Push(i, to));
    s' := Next(s2, Push(i, to));
    assert DropHand(s2.hands, i) == s.hands[..i];
    LeadsOn(s, [Look(i, 0)], s1, [Stamp(i)], s2);
    LeadsOn(s, [Look(i, 0)] + [Stamp(i)], s2, [Push(i, to)], s');
    steps := [Look(i, 0)] + [Stamp(i)] + [Push(i, to)];
  }

  /** A task nobody has, blocked or asleep, can be woken whenever the lock is free, and its waker alone brings it to the end
      of any queue it chooses: ready, off every sleeper list, and with everything else as it was. */
  lemma WokenIsQueued(s: State, t: TaskId, to: nat) returns (steps: seq<Step>, s': State)
    requires s.lock.Unlocked? && t in s.tasks && (s.tasks[t].state.Blocked? || s.tasks[t].state.Sleeping?) && !Claimed(s, t)
    requires s.tasks[t].place.Nowhere? && !s.tasks[t].idle && to < |s.cpus|
    ensures Leads(s, [WakeMark(t), Settle] + steps, s')
    ensures s'.tasks == s.tasks[t := Task(Ready, None, Queued, false)] && s'.hands == s.hands && s'.lock.Unlocked?
    ensures |s'.cpus| == |s.cpus| && forall c :: 0 <= c < |s.cpus| ==>
              s'.cpus[c] == s.cpus[c].(sleepers := Without(s.cpus[c].sleepers, t), runq := s.cpus[c].runq + if c == to then [t] else [])
  {
    var s1 := Next(s, WakeMark(t));
    var s2 := Next(s1, Settle);
    OneStep(s, WakeMark(t));
    OneStep(s1, Settle);
    LeadsOn(s, [WakeMark(t)], s1, [Settle], s2);
    assert [WakeMark(t)] + [Settle] == [WakeMark(t), Settle];
    WokenGoes(s, t, s2);
    var a, s3 := PastLists(s2, |s.hands|, 0);
    var b;
    b, s' := Queues(s3, to);
    LeadsOn(s2, a, s3, b, s');
    LeadsOn(s, [WakeMark(t), Settle], s2, a + b, s');
    steps := a + b;
    Arrived(s, t, to, s2, s3, s');
  }

  lemma WokenGoes(s: State, t: TaskId, s2: State)
    requires Enabled(s, WakeMark(t)) && !Claimed(s, t) && s2 == DoSettle(DoWakeMark(s, t))
    ensures s2 == s.(tasks := s.tasks[t := s.tasks[t].(state := Ready)], hands := s.hands + [Hand(t, Waking(0))])
  {}

  lemma Arrived(s: State, t: TaskId, to: nat, s2: State, s3: State, s': State)
    requires t in s.tasks && s.tasks[t].cpu.None? && s.tasks[t].place.Nowhere? && !s.tasks[t].idle && to < |s.cpus|
    requires s2 == s.(tasks := s.tasks[t := s.tasks[t].(state := Ready)], hands := s.hands + [Hand(t, Waking(0))])
    requires s3 == s2.(cpus := s3.cpus, hands := s2.hands[|s.hands| := Hand(t, Waking(|s.cpus|))]) && Beside(s2, s3, t)
    requires forall c :: 0 <= c < |s.cpus| ==> s3.cpus[c].sleepers == Without(s.cpus[c].sleepers, t)
    requires s' == s3.(tasks := s3.tasks[t := Task(Ready, None, Queued, false)], hands := s3.hands[..|s.hands|],
                       cpus := s3.cpus[to := s3.cpus[to].(runq := s3.cpus[to].runq + [t])])
    ensures s'.tasks == s.tasks[t := Task(Ready, None, Queued, false)] && s'.hands == s.hands && s'.lock == s.lock
    ensures |s'.cpus| == |s.cpus| && forall c :: 0 <= c < |s.cpus| ==>
              s'.cpus[c] == s.cpus[c].(sleepers := Without(s.cpus[c].sleepers, t), runq := s.cpus[c].runq + if c == to then [t] else [])
  {
    forall c | 0 <= c < |s.cpus| ensures s.cpus[c].runq + [] == s.cpus[c].runq {}
  }

  /** A CPU that is preempted, or whose task can no longer run, takes the first task off its queue and runs it. */
  lemma QueuedRuns(s: State, c: nat) returns (s': State)
    requires c < |s.cpus| && (s.cpus[c].phase.Executing? || s.cpus[c].phase.Leaving?) && s.cpus[c].runq != [] && s.cpus[c].current in s.tasks
    requires var t := s.cpus[c].runq[0]; t in s.tasks && t != s.cpus[c].current && s.tasks[t] == Task(Ready, None, Queued, false)
    ensures Leads(s, [Pop(c, c), Unstamp(c), Start(c)], s')
    ensures var t := s.cpus[c].runq[0];
            && c < |s'.cpus| && s'.cpus[c].current == t && s'.cpus[c].runq == s.cpus[c].runq[1..]
            && t in s'.tasks && s'.tasks[t] == Task(Running, Some(c), OnCpu, false) && s'.reports == s.reports
  {
    var s1 := Next(s, Pop(c, c));
    var s2 := Next(s1, Unstamp(c));
    s' := Next(s2, Start(c));
    OneStep(s, Pop(c, c));
    OneStep(s1, Unstamp(c));
    OneStep(s2, Start(c));
    LeadsOn(s1, [Unstamp(c)], s2, [Start(c)], s');
    LeadsOn(s, [Pop(c, c)], s1, [Unstamp(c)] + [Start(c)], s');
    assert [Pop(c, c)] + ([Unstamp(c)] + [Start(c)]) == [Pop(c, c), Unstamp(c), Start(c)];
  }
}
