/**
The sleeper lists. A task that is woken has to come off its list, or the list would hold a task that is already
running. The kernel does not always see to that: a wake that finds the task still on a CPU leaves it to that CPU,
which knows nothing of lists, and a tick takes off no list but the one it is sweeping. The theorem says exactly
when the lists stay in order.
*/
module SchedulerSleepers {
  import opened Wrappers
  import opened Scheduler
  import opened SchedulerSafety

  /** `t` is on the sleeper list of `c`, or about to be put there. */
  predicate Listed(s: State, c: nat, t: TaskId) {
    c < |s.cpus| && (Lists(s.cpus[c].sleepers, t) || (s.cpus[c].phase.Dozing? && s.cpus[c].current == t))
  }

  predicate HandComing(s: State, i: nat, c: nat, t: TaskId) {
    i < |s.hands| && s.hands[i].task == t && s.hands[i].stage.Waking? && s.hands[i].stage.k <= c
  }

  predicate DecisionComing(s: State, c: nat, t: TaskId) {
    s.lock.Deciding? && s.lock.task == t && !s.lock.claimed && s.lock.stage.Waking? && s.lock.stage.k <= c
  }

  /** A waker holds `t`, or is deciding to, and has yet to come to the list of `c`. */
  ghost predicate Coming(s: State, c: nat, t: TaskId) {
    DecisionComing(s, c, t) || exists i :: HandComing(s, i, c, t)
  }

  ghost predicate InOrder(s: State, c: nat, t: TaskId) {
    t in s.tasks && (s.tasks[t].state.Sleeping? || Coming(s, c, t))
  }

  /** Whoever is listed sleeps, or is on its way off the list. */
  ghost predicate ListsInOrder(s: State) {
    forall c, t :: Listed(s, c, t) ==> InOrder(s, c, t)
  }

  ghost predicate ListedSomewhere(s: State, t: TaskId) { exists c :: Listed(s, c, t) }

  /** A listed task is marked Ready by a wake while a CPU has it, or by a tick. */
  ghost predicate Overtakes(s: State, e: Step)
    requires Enabled(s, e)
  {
    match e
    case WakeMark(t) => Claimed(s, t) && ListedSomewhere(s, t)
    case TickMark(c) =>
      var t := s.cpus[c].expired[0];
      t in s.tasks && s.tasks[t].state.Sleeping? && ListedSomewhere(s, t)
    case _ => false
  }

  // ---------------------------------------------------------------- every step

  lemma ComingPlace(s: State, w: Locs, c: nat, t: TaskId)
    requires Places(s, w) && LockOk(s, w) && Coming(s, c, t)
    ensures t in w && t in s.tasks && (w[t] == LHand || w[t] == LDec) && s.tasks[t].state.Ready?
  {
    if i: nat :| HandComing(s, i, c, t) { assert w[s.hands[i].task] == LHand; }
    assert TaskOk(s, t, w[t]);
  }

  /** A task a CPU has that does not sleep is on no list. */
  lemma OnCpuUnlisted(s: State, w: Locs, c: nat, t: TaskId)
    requires Places(s, w) && LockOk(s, w) && ListsInOrder(s) && t in s.tasks && !s.tasks[t].state.Sleeping?
    requires w[t] != LHand && w[t] != LDec
    ensures !Listed(s, c, t)
  {
    hide Places, LockOk;
    if Listed(s, c, t) {
      assert InOrder(s, c, t);
      ComingPlace(s, w, c, t);
    }
  }

  /** A step that lists nobody, and leaves the task's state and its waker alone. */
  lemma Unmoved(s: State, s': State, c: nat, t: TaskId)
    requires ListsInOrder(s) && Listed(s', c, t) && Listed(s, c, t)
    requires t in s.tasks ==> t in s'.tasks && (s.tasks[t].state.Sleeping? ==> s'.tasks[t].state.Sleeping?)
    requires s'.lock == s.lock && s.hands <= s'.hands
    ensures InOrder(s', c, t)
  {
    assert InOrder(s, c, t);
    if i: nat :| HandComing(s, i, c, t) { assert HandComing(s', i, c, t); }
  }

  lemma TaskStepOrder(s: State, e: Step, w: Locs, c: nat, t: TaskId)
    requires InvAt(s, w) && Enabled(s, e) && (e.Spawn? || e.Block? || e.SleepMark? || e.SleepList? || e.Exit?)
    requires ListsInOrder(s) && Listed(Next(s, e), c, t)
    ensures InOrder(Next(s, e), c, t)
  {
    hide ReapOk, LockOk, SleepersOk, Coming, TasksOk, QueuesOk, HandsOk, CpusOk, InOrder;
    if e.Spawn? {
      NewTask(s);
      Unmoved(s, Next(s, e), c, t);
    } else if e.SleepList? {
      SleepListListed(s, e.c, c, t);
      Unmoved(s, Next(s, e), c, t);
    } else {
      LeaveOrder(s, e, w, c, t);
    }
  }

  lemma NewTask(s: State)
    requires ReapOk(s)
    ensures s.nextId !in s.tasks
  {}

  lemma SleepListListed(s: State, d: nat, c: nat, t: TaskId)
    requires Enabled(s, SleepList(d)) && Listed(DoSleepList(s, d), c, t)
    ensures Listed(s, c, t)
  {
    if c == d {
      var l, l' := s.cpus[d].sleepers, DoSleepList(s, d).cpus[d].sleepers;
      var i :| 0 <= i < |l'| && l'[i].task == t;
      if i < |l| { assert l[i].task == t; }
    }
  }

  lemma LeaveOrder(s: State, e: Step, w: Locs, c: nat, t: TaskId)
    requires Places(s, w) && LockOk(s, w) && Enabled(s, e) && (e.Block? || e.SleepMark? || e.Exit?)
    requires ListsInOrder(s) && Listed(Next(s, e), c, t)
    ensures InOrder(Next(s, e), c, t)
  {
    var me := s.cpus[e.c].current;
    OwnFactsHold(s, w, e.c);
    hide Places, LockOk, ListsInOrder, Coming;
    if t != me {
      assert Listed(s, c, t);
      Unmoved(s, Next(s, e), c, t);
    } else {
      OnCpuUnlisted(s, w, c, me);
    }
  }

  lemma CpuStepOrder(s: State, e: Step, w: Locs, c: nat, t: TaskId)
    requires InvAt(s, w) && Enabled(s, e) && (e.Pop? || e.Unstamp? || e.Fallback? || e.Unplace? || e.Release? || e.Test?)
    requires ListsInOrder(s) && Listed(Next(s, e), c, t)
    ensures InOrder(Next(s, e), c, t)
  {
    hide InvAt, ListsInOrder, InOrder;
    assert Listed(s, c, t);
    Unmoved(s, Next(s, e), c, t);
  }

  lemma StartOrder(s: State, d: nat, w: Locs, c: nat, t: TaskId)
    requires InvAt(s, w) && Enabled(s, Start(d)) && ListsInOrder(s) && Listed(DoStart(s, d), c, t)
    ensures InOrder(DoStart(s, d), c, t)
  {
    hide ReapOk, SleepersOk, LockOk, QueuesOk, HandsOk, ListsInOrder, InOrder;
    OwnFactsHold(s, w, d);
    hide Places;
    if t == s.cpus[d].phase.task {
      OnCpuUnlisted(s, w, c, t);
    } else if t == s.cpus[d].current && s.tasks[t].state.Running? {
      OnCpuUnlisted(s, w, c, t);
    }
    assert Listed(s, c, t);
    Unmoved(s, DoStart(s, d), c, t);
  }

  lemma MarkOrder(s: State, s1: State, t: TaskId, stage: Stage, c: nat, u: TaskId)
    requires ListsInOrder(s) && s.lock.Unlocked? && t in s.tasks && Listed(s, c, u)
    requires s1.tasks == s.tasks && s1.hands == s.hands && (u == t ==> stage == Waking(0) && !Claimed(s1, t))
    ensures InOrder(Mark(s1, t, stage), c, u)
  {
    assert InOrder(s, c, u);
    var s' := Mark(s1, t, stage);
    if u == t {
      assert DecisionComing(s', c, u);
    } else if i: nat :| HandComing(s, i, c, u) {
      assert HandComing(s', i, c, u);
    }
  }

  lemma DecideOrder(s: State, e: Step, c: nat, u: TaskId)
    requires Enabled(s, e) && (e.WakeMark? || e.TickMark?) && !Overtakes(s, e)
    requires ListsInOrder(s) && Listed(Next(s, e), c, u)
    ensures InOrder(Next(s, e), c, u)
  {
    hide ListsInOrder, InOrder;
    assert Listed(s, c, u);
    if e.WakeMark? {
      assert u == e.t ==> ListedSomewhere(s, u);
      MarkOrder(s, s, e.t, Waking(0), c, u);
    } else {
      var t := s.cpus[e.c].expired[0];
      var s1 := SetCpu(s, e.c, s.cpus[e.c].(expired := s.cpus[e.c].expired[1..]));
      assert u == t ==> ListedSomewhere(s, u);
      if t in s.tasks && s.tasks[t].state.Sleeping? {
        MarkOrder(s, s1, t, Waking(|s.cpus|), c, u);
      } else {
        Unmoved(s, s1, c, u);
      }
    }
  }

  lemma SettleOrder(s: State, w: Locs, c: nat, t: TaskId)
    requires Places(s, w) && LockOk(s, w) && Enabled(s, Settle)
    requires ListsInOrder(s) && Listed(DoSettle(s), c, t)
    ensures InOrder(DoSettle(s), c, t)
  {
    var s' := DoSettle(s);
    assert Listed(s, c, t) && InOrder(s, c, t);
    assert TaskOk(s, s.lock.task, w[s.lock.task]);
    hide Places, LockOk, ListsInOrder, Listed;
    if i: nat :| HandComing(s, i, c, t) {
      assert HandComing(s', i, c, t);
    } else if DecisionComing(s, c, t) {
      assert HandComing(s', |s.hands|, c, t);
    }
  }

  /** A waker that holds a task on some list has not passed that list. */
  lemma HolderComing(s: State, w: Locs, i: nat, c: nat)
    requires Places(s, w) && LockOk(s, w) && ListsInOrder(s) && i < |s.hands| && Listed(s, c, s.hands[i].task)
    ensures HandComing(s, i, c, s.hands[i].task)
  {
    var t := s.hands[i].task;
    assert w[t] == LHand && TaskOk(s, t, LHand);
    assert InOrder(s, c, t);
    if j: nat :| HandComing(s, j, c, t) { assert j == i; }
  }

  lemma NotDozing(s: State, w: Locs, i: nat, c: nat)
    requires HandsOk(s, w) && CpusOk(s, w) && i < |s.hands| && c < |s.cpus|
    ensures s.cpus[c].current != s.hands[i].task
  {
    assert CpuOk(s, w, c);
    assert w[s.hands[i].task] == LHand;
  }

  lemma UnsleepOrder(s: State, i: nat, w: Locs, c: nat, t: TaskId)
    requires Places(s, w) && LockOk(s, w) && Enabled(s, Unsleep(i))
    requires ListsInOrder(s) && Listed(DoUnsleep(s, i), c, t)
    ensures InOrder(DoUnsleep(s, i), c, t)
  {
    var s', u, k := DoUnsleep(s, i), s.hands[i].task, s.hands[i].stage.k;
    NotDozing(s, w, i, c);
    WithoutLists(s.cpus[k].sleepers, u, t);
    assert Listed(s, c, t) && !(t == u && c == k);
    assert InOrder(s, c, t);
    if t == u {
      HolderComing(s, w, i, c);
      assert HandComing(s', i, c, t);
    } else if j: nat :| HandComing(s, j, c, t) {
      assert HandComing(s', j, c, t);
    }
  }

  lemma OthersComing(s: State, e: Step, j: nat, c: nat, t: TaskId)
    requires Enabled(s, e) && (e.Look? || e.Stamp? || e.Push?) && HandComing(s, j, c, t) && j != e.i
    ensures Coming(Next(s, e), c, t)
  {
    var s' := Next(s, e);
    var k := if |s'.hands| == |s.hands| || j < e.i then j else j - 1;
    assert HandComing(s', k, c, t);
  }

  /** A waker that queues its task has been past every list. */
  lemma QueueOrder(s: State, e: Step, w: Locs, c: nat, t: TaskId)
    requires Places(s, w) && LockOk(s, w) && Enabled(s, e) && (e.Look? || e.Stamp? || e.Push?)
    requires ListsInOrder(s) && Listed(Next(s, e), c, t)
    ensures InOrder(Next(s, e), c, t)
  {
    hide Places, LockOk, ListsInOrder;
    assert Listed(s, c, t);
    if t == s.hands[e.i].task {
      HolderComing(s, w, e.i, c);
    } else {
      ListedInOrder(s, c, t);
      if j: nat :| HandComing(s, j, c, t) { OthersComing(s, e, j, c, t); }
    }
  }

  lemma ListedInOrder(s: State, c: nat, t: TaskId)
    requires ListsInOrder(s) && Listed(s, c, t)
    ensures InOrder(s, c, t)
  {}

  lemma SweepOrder(s: State, d: nat, now: nat, c: nat, t: TaskId)
    requires Enabled(s, Sweep(d, now)) && ListsInOrder(s) && Listed(DoSweep(s, d, now), c, t)
    ensures InOrder(DoSweep(s, d, now), c, t)
  {
    KeptOrDue(s.cpus[d].sleepers, now, MAX_DUE, t);
    assert Listed(s, c, t);
    Unmoved(s, DoSweep(s, d, now), c, t);
  }

  lemma TakeDeadOrder(s: State, i: nat, w: Locs, c: nat, t: TaskId)
    requires InvAt(s, w) && Enabled(s, TakeDead(i)) && ListsInOrder(s) && Listed(DoTakeDead(s, i), c, t)
    ensures InOrder(DoTakeDead(s, i), c, t)
  {
    var s' := DoTakeDead(s, i);
    assert Listed(s, c, t) && InOrder(s, c, t);
    if t == s.reap[i] {
      assert s.tasks[t].state.Dead?;
      hide Places, LockOk;
      ComingPlace(s, w, c, t);
    } else {
      Unmoved(s, s', c, t);
    }
  }

  lemma WakerStepOrder(s: State, e: Step, w: Locs, c: nat, t: TaskId)
    requires InvAt(s, w) && Enabled(s, e) && !Overtakes(s, e)
    requires e.WakeMark? || e.TickMark? || e.Settle? || e.Unsleep? || e.Look? || e.Stamp? || e.Push? || e.Sweep? || e.TakeDead?
    requires ListsInOrder(s) && Listed(Next(s, e), c, t)
    ensures InOrder(Next(s, e), c, t)
  {
    hide Places, LockOk, ReapOk, SleepersOk, ListsInOrder, Listed, InOrder;
    match e
    case WakeMark(_) => DecideOrder(s, e, c, t);
    case TickMark(_) => DecideOrder(s, e, c, t);
    case Settle => SettleOrder(s, w, c, t);
    case Unsleep(i) => UnsleepOrder(s, i, w, c, t);
    case Look(_, _) => QueueOrder(s, e, w, c, t);
    case Stamp(_) => QueueOrder(s, e, w, c, t);
    case Push(_, _) => QueueOrder(s, e, w, c, t);
    case Sweep(d, now) => SweepOrder(s, d, now, c, t);
    case TakeDead(i) => TakeDeadOrder(s, i, w, c, t);
  }

  /** Every step but an overtaking one keeps the lists in order. */
  lemma OrderStep(s: State, e: Step)
    requires Inv(s) && Enabled(s, e) && ListsInOrder(s) && !Overtakes(s, e)
    ensures ListsInOrder(Next(s, e))
  {
    hide InvAt, Next, InOrder, Overtakes;
    var w :| InvAt(s, w);
    forall c, t | Listed(Next(s, e), c, t) ensures InOrder(Next(s, e), c, t) { AnyStepOrder(s, e, w, c, t); }
  }

  lemma AnyStepOrder(s: State, e: Step, w: Locs, c: nat, t: TaskId)
    requires InvAt(s, w) && Enabled(s, e) && ListsInOrder(s) && !Overtakes(s, e) && Listed(Next(s, e), c, t)
    ensures InOrder(Next(s, e), c, t)
  {
    hide InvAt, ListsInOrder, InOrder, Enabled, Overtakes, Listed;
    if e.Spawn? || e.Block? || e.SleepMark? || e.SleepList? || e.Exit? {
      TaskStepOrder(s, e, w, c, t);
    } else if e.Start? {
      StartOrder(s, e.c, w, c, t);
    } else if e.Pop? || e.Unstamp? || e.Fallback? || e.Unplace? || e.Release? || e.Test? {
      CpuStepOrder(s, e, w, c, t);
    } else {
      WakerStepOrder(s, e, w, c, t);
    }
  }

  // ---------------------------------------------------------------- the other direction

  lemma NobodyComing(s: State, w: Locs, t: TaskId, c: nat)
    requires TasksOk(s, w) && HandsOk(s, w) && t in s.tasks && !s.tasks[t].state.Ready?
    ensures forall i: nat :: !HandComing(s, i, c, t)
  {
    assert TaskOk(s, t, w[t]);
    forall i: nat ensures !HandComing(s, i, c, t) { if i < |s.hands| { assert w[s.hands[i].task] == LHand; } }
  }

  lemma Stranded(s: State, s1: State, t: TaskId, stage: Stage, c: nat)
    requires t in s.tasks && (forall i: nat :: !HandComing(s, i, c, t)) && Listed(s, c, t)
    requires s1.tasks == s.tasks && s1.hands == s.hands && Listed(s1, c, t)
    requires Claimed(s1, t) || stage == Waking(|s.cpus|)
    ensures !ListsInOrder(Mark(s1, t, stage))
  {
    var s' := Mark(s1, t, stage);
    assert Listed(s', c, t) && !DecisionComing(s', c, t);
    assert forall i: nat :: HandComing(s', i, c, t) <==> HandComing(s, i, c, t);
    assert !InOrder(s', c, t);
  }

  /** An overtaken task is awake and on a list that nobody is coming to. */
  lemma OvertakeBreaks(s: State, e: Step)
    requires Inv(s) && Enabled(s, e) && Overtakes(s, e)
    ensures !ListsInOrder(Next(s, e))
  {
    hide ReapOk, SleepersOk, LockOk, TasksOk, HandsOk, QueuesOk, CpusOk, ListsInOrder, Lists;
    var w :| InvAt(s, w);
    var t: TaskId := if e.WakeMark? then e.t else s.cpus[e.c].expired[0];
    var c :| Listed(s, c, t);
    NobodyComing(s, w, t, c);
    if e.WakeMark? {
      Stranded(s, s, t, Waking(0), c);
    } else {
      Stranded(s, SetCpu(s, e.c, s.cpus[e.c].(expired := s.cpus[e.c].expired[1..])), t, Waking(|s.cpus|), c);
    }
  }

  lemma InitOrder(s: State)
    requires Init(s)
    ensures ListsInOrder(s)
  {}

  ghost predicate NoneOvertaken(run: seq<State>, steps: seq<Step>, n: nat)
    requires IsRun(run, steps)
  {
    forall i :: 0 <= i < n && i < |steps| ==> !Overtakes(run[i], steps[i])
  }

  lemma {:induction false} RunOrder(run: seq<State>, steps: seq<Step>, n: nat)
    requires IsRun(run, steps) && RaceFree(run, steps) && n <= |steps| && NoneOvertaken(run, steps, n)
    ensures ListsInOrder(run[n])
  {
    hide Init, Next, Enabled, Inv, ListsInOrder, Overtakes, Races;
    if n == 0 {
      InitOrder(run[0]);
    } else {
      RunOrder(run, steps, n - 1);
      RunInv(run, steps, n - 1);
      OrderStep(run[n - 1], steps[n - 1]);
    }
  }

  /** Throughout a race-free run everything listed sleeps or is on its way off, exactly when no listed task is marked Ready
      by a wake that finds a CPU on it or by a tick. */
  lemma ListsInOrderIff(run: seq<State>, steps: seq<Step>)
    requires IsRun(run, steps) && RaceFree(run, steps)
    ensures (forall i :: 0 <= i < |run| ==> ListsInOrder(run[i])) <==> NoneOvertaken(run, steps, |steps|)
  {
    hide Init, Next, Enabled, Inv, ListsInOrder, Overtakes, Races;
    if NoneOvertaken(run, steps, |steps|) {
      forall i | 0 <= i < |run| ensures ListsInOrder(run[i]) { RunOrder(run, steps, i); }
    } else {
      var n :| 0 <= n < |steps| && Overtakes(run[n], steps[n]);
      RunInv(run, steps, n);
      OvertakeBreaks(run[n], steps[n]);
      assert !ListsInOrder(run[n + 1]);
    }
  }

  /** While the lists are in order, no list holds a task that runs or is queued. */
  lemma ListedAreOff(s: State, c: nat, t: TaskId, d: nat)
    requires Inv(s) && ListsInOrder(s) && Listed(s, c, t) && d < |s.cpus|
    ensures t in s.tasks && !s.tasks[t].state.Running? && t !in s.cpus[d].runq
  {
    var w :| InvAt(s, w);
    assert InOrder(s, c, t);
    if Coming(s, c, t) { ComingPlace(s, w, c, t); }
    assert TaskOk(s, t, w[t]);
    forall i | 0 <= i < |s.cpus[d].runq| ensures s.cpus[d].runq[i] != t {
      assert w[s.cpus[d].runq[i]] == LQueue(d);
    }
  }
}
