/**
What every run of the scheduler keeps.

`OneHolder` is the rule at the head of the scheduler: a task that can run is held in exactly one place,
nothing that is gone is held at all, and the placement word says where. It is kept by every run in which
no decision races with a CPU that is leaving the same task, and by no other.
*/
module SchedulerSafety {
  import opened Wrappers
  import opened Scheduler

  datatype Holder = InQueue(cpu: nat, pos: nat) | Current(cpu: nat) | Pending(cpu: nat) | InHand(pos: nat) | Decider

  predicate Holds(s: State, h: Holder, t: TaskId) {
    match h
    case InQueue(c, i) => c < |s.cpus| && i < |s.cpus[c].runq| && s.cpus[c].runq[i] == t
    case Current(c) => c < |s.cpus| && s.cpus[c].current == t
    case Pending(c) => c < |s.cpus| && Held(s.cpus[c].phase) == Some(t)
    case InHand(i) => i < |s.hands| && s.hands[i].task == t
    case Decider => s.lock.Deciding? && s.lock.task == t && !s.lock.claimed
  }

  ghost predicate IsHeld(s: State, t: TaskId) { exists h :: Holds(s, h, t) }

  /** No task is held in two places. */
  ghost predicate NoDoubles(s: State) {
    forall h1, h2, t :: Holds(s, h1, t) && Holds(s, h2, t) ==> h1 == h2
  }

  /** Nothing that has been freed is held anywhere. */
  ghost predicate NoDangling(s: State) {
    forall h, t :: Holds(s, h, t) ==> t in s.tasks
  }

  /** A runnable task that is not a CPU's idle task is held somewhere, and a task parked in no place is not runnable. */
  ghost predicate NoneLost(s: State) {
    forall t :: t in s.tasks && !s.tasks[t].idle && (s.tasks[t].state.Ready? || s.tasks[t].state.Running?) ==> IsHeld(s, t)
  }

  /** What the task's own words say when `h` holds it. */
  predicate Agrees(s: State, h: Holder, x: Task) {
    match h
    case InQueue(_, _) => x == Task(Ready, None, Queued, false)
    case InHand(i) => i < |s.hands| && x == Task(Ready, None, if s.hands[i].stage.Stamped? then Queued else Nowhere, false)
    case Decider => x == Task(Ready, None, Nowhere, false)
    case Current(c) => x.cpu == Some(c) && x.place.OnCpu?
    case Pending(c) =>
      c < |s.cpus| &&
      match s.cpus[c].phase
      case Popped(_) => x == Task(Ready, None, Queued, false)
      case Chosen(_) => x.state.Ready? && x.place.Nowhere?
      case Switched(_) => !x.state.Running? && x.cpu == Some(c) && x.place.OnCpu?
      case Unplaced(_) => !x.state.Running? && x.cpu == Some(c) && x.place.Nowhere?
      case _ => !x.state.Running? && x.cpu.None? && x.place.Nowhere?
  }

  ghost predicate PlacesAgree(s: State) {
    && (forall h, t :: Holds(s, h, t) && t in s.tasks ==> Agrees(s, h, s.tasks[t]))
    && (forall t :: t in s.tasks && !s.tasks[t].place.Nowhere? ==> IsHeld(s, t))
  }

  /** The scheduler's rule. */
  ghost predicate OneHolder(s: State) {
    NoDoubles(s) && NoDangling(s) && NoneLost(s) && PlacesAgree(s)
  }

  // ---------------------------------------------------------------- the inductive form

  /** Where each task is, without positions: the witness that makes the rule inductive. */
  datatype Loc = LQueue(c: nat) | LHand | LCur(c: nat) | LPend(c: nat) | LDec | LPark

  type Locs = map<TaskId, Loc>

  predicate CurOk(p: Phase, x: Task) {
    && x.place.OnCpu?
    && (x.idle ==> x.state.Running?)
    && match p
       case Executing => x.state.Running?
       case Switched(_) => x.state.Running?
       case Unplaced(_) => x.state.Running?
       case Released(_) => x.state.Running?
       case Dozing(_) => x.state.Sleeping? || x.state.Ready?
       case Leaving => !x.state.Running?
       case _ => true
  }

  predicate PendOk(p: Phase, c: nat, idle: TaskId, t: TaskId, x: Task) {
    match p
    case Popped(_) => x == Task(Ready, None, Queued, false)
    case Chosen(_) => x.state.Ready? && x.place.Nowhere? && (x.cpu.None? || x.cpu == Some(c)) && (x.idle || x.cpu.None?) && (x.idle ==> t == idle)
    case Switched(_) => !x.state.Running? && x.cpu == Some(c) && x.place.OnCpu? && (x.idle ==> x.state.Ready? && t == idle)
    case Unplaced(_) => !x.state.Running? && x.cpu == Some(c) && x.place.Nowhere? && (x.idle ==> x.state.Ready? && t == idle)
    case Released(_) => !x.state.Running? && x.cpu.None? && x.place.Nowhere? && (x.idle ==> x.state.Ready? && t == idle)
    case _ => false
  }

  predicate ParkOk(x: Task) {
    x.place.Nowhere? &&
    if x.idle then x.state.Ready? else x.cpu.None? && !x.state.Ready? && !x.state.Running?
  }

  ghost predicate TaskOk(s: State, t: TaskId, l: Loc)
    requires t in s.tasks
  {
    var x := s.tasks[t];
    match l
    case LQueue(c) => c < |s.cpus| && t in s.cpus[c].runq && x == Task(Ready, None, Queued, false)
    case LHand => (exists i :: 0 <= i < |s.hands| && s.hands[i].task == t) && x.state.Ready? && x.cpu.None? && !x.idle
    case LCur(c) => c < |s.cpus| && s.cpus[c].current == t && x.cpu == Some(c) && CurOk(s.cpus[c].phase, x) && (x.idle ==> s.cpus[c].idle == t)
    case LPend(c) => c < |s.cpus| && Held(s.cpus[c].phase) == Some(t) && PendOk(s.cpus[c].phase, c, s.cpus[c].idle, t, x)
    case LDec => s.lock.Deciding? && s.lock.task == t && !s.lock.claimed && x == Task(Ready, None, Nowhere, false)
    case LPark => ParkOk(x)
  }

  ghost predicate TasksOk(s: State, w: Locs) {
    w.Keys == s.tasks.Keys && forall t :: t in s.tasks ==> TaskOk(s, t, w[t])
  }

  ghost predicate QueuesOk(s: State, w: Locs) {
    && (forall c, i :: 0 <= c < |s.cpus| && 0 <= i < |s.cpus[c].runq| ==> s.cpus[c].runq[i] in w && w[s.cpus[c].runq[i]] == LQueue(c))
    && (forall c, i, j :: 0 <= c < |s.cpus| && 0 <= i < j < |s.cpus[c].runq| ==> s.cpus[c].runq[i] != s.cpus[c].runq[j])
  }

  ghost predicate HandsOk(s: State, w: Locs) {
    && (forall i :: 0 <= i < |s.hands| ==> s.hands[i].task in w && w[s.hands[i].task] == LHand && s.hands[i].task in s.tasks
                                           && s.tasks[s.hands[i].task].place == if s.hands[i].stage.Stamped? then Queued else Nowhere)
    && (forall i, j :: 0 <= i < j < |s.hands| ==> s.hands[i].task != s.hands[j].task)
  }

  ghost predicate CpuOk(s: State, w: Locs, c: nat)
    requires c < |s.cpus|
  {
    var x := s.cpus[c];
    && x.current in w && w[x.current] == LCur(c)
    && (Held(x.phase).Some? ==> x.phase.task in w && w[x.phase.task] == LPend(c))
    && x.idle in w && (w[x.idle] == LCur(c) || w[x.idle] == LPend(c) || w[x.idle] == LPark)
    && x.idle in s.tasks && s.tasks[x.idle].idle
    && (s.tasks[x.idle].cpu.None? || s.tasks[x.idle].cpu == Some(c))
  }

  ghost predicate CpusOk(s: State, w: Locs) {
    && (forall c :: 0 <= c < |s.cpus| ==> CpuOk(s, w, c))
    && (forall c, d :: 0 <= c < d < |s.cpus| ==> s.cpus[c].idle != s.cpus[d].idle)
  }

  ghost predicate ReapOk(s: State) {
    && (forall i :: 0 <= i < |s.reap| ==> s.reap[i] in s.tasks && s.tasks[s.reap[i]].state.Dead?)
    && (forall i, j :: 0 <= i < j < |s.reap| ==> s.reap[i] != s.reap[j])
    && (forall i :: 0 <= i < |s.released| ==> s.released[i] !in s.tasks && s.released[i] < s.nextId)
    && (forall i, j :: 0 <= i < j < |s.released| ==> s.released[i] != s.released[j])
    && (forall t :: t in s.tasks ==> t < s.nextId)
    && (forall t :: t in s.tasks && s.tasks[t].state.Dead? ==> t in s.reap)
  }

  predicate WillWake(s: State, c: nat, t: TaskId) {
    c < |s.cpus| && (Lists(s.cpus[c].sleepers, t) || t in s.cpus[c].expired || (s.cpus[c].phase.Dozing? && s.cpus[c].current == t))
  }

  /** A listed task still exists, and a sleeping one is on a list, named by a tick that is still going, or
      about to be listed: no sleeper is forgotten. */
  ghost predicate SleepersOk(s: State) {
    && (forall c, t :: 0 <= c < |s.cpus| && Lists(s.cpus[c].sleepers, t) ==> t in s.tasks)
    && (forall t :: t in s.tasks && s.tasks[t].state.Sleeping? ==> exists c :: WillWake(s, c, t))
  }

  ghost predicate Places(s: State, w: Locs) {
    TasksOk(s, w) && QueuesOk(s, w) && HandsOk(s, w) && CpusOk(s, w)
  }

  predicate Awake(x: Task) { x.state.Ready? || x.state.Running? }

  /** While a decision holds the table lock its task stays awake: the decision's own if nobody had it when it was
      marked, and in some other place otherwise. */
  ghost predicate LockOk(s: State, w: Locs) {
    s.lock.Deciding? ==>
      var t := s.lock.task;
      && t in s.tasks && t in w && !s.tasks[t].idle && Awake(s.tasks[t]) && s.lock.stage.Waking?
      && (if s.lock.claimed then w[t] != LDec && w[t] != LPark else w[t] == LDec)
  }

  ghost predicate InvAt(s: State, w: Locs) {
    Places(s, w) && LockOk(s, w) && ReapOk(s) && SleepersOk(s) && s.reports == 0
  }

  ghost predicate Inv(s: State) { exists w :: InvAt(s, w) }

  /** A decision that stored Ready while a CPU had the task, or had not looked at it yet, and finds no CPU on it; or a
      reap of a task some CPU has released and not looked at yet. */
  predicate Races(s: State, e: Step)
    requires Enabled(s, e)
  {
    match e
    case Settle => s.lock.claimed && s.tasks[s.lock.task].cpu.None?
    case TakeDead(i) => InWindow(s, s.reap[i])
    case _ => false
  }

  /** A step that touches no list and puts nobody to sleep keeps the lists in order. */
  lemma SameLists(s: State, s': State)
    requires ReapOk(s) && SleepersOk(s)
    requires s'.tasks.Keys == s.tasks.Keys && s'.reap == s.reap && s'.released == s.released && s'.nextId == s.nextId
    requires forall t :: t in s.tasks ==> s'.tasks[t].state.Dead? == s.tasks[t].state.Dead?
    requires forall t :: t in s.tasks && s'.tasks[t].state.Sleeping? ==> s.tasks[t].state.Sleeping?
    requires |s'.cpus| == |s.cpus|
    requires forall c :: 0 <= c < |s.cpus| ==> s'.cpus[c].sleepers == s.cpus[c].sleepers && s'.cpus[c].expired == s.cpus[c].expired
    requires forall c :: 0 <= c < |s.cpus| && s.cpus[c].phase.Dozing? ==>
               s'.cpus[c].phase == s.cpus[c].phase && s'.cpus[c].current == s.cpus[c].current
    ensures ReapOk(s') && SleepersOk(s')
  {
    forall t | t in s'.tasks && s'.tasks[t].state.Sleeping? ensures exists c :: WillWake(s', c, t) {
      var c :| WillWake(s, c, t);
      assert WillWake(s', c, t);
    }
  }

  /** The tasks a CPU's own steps can touch: the one it runs, the one it is moving, its idle task. */
  predicate Own(s: State, c: nat, t: TaskId)
    requires c < |s.cpus|
  {
    t == s.cpus[c].current || Held(s.cpus[c].phase) == Some(t) || t == s.cpus[c].idle
  }

  ghost predicate OwnStep(s: State, w: Locs, c: nat, s': State, w': Locs) {
    && c < |s.cpus|
    && s'.hands == s.hands && s'.lock == s.lock && s'.tasks.Keys == s.tasks.Keys == w'.Keys
    && |s'.cpus| == |s.cpus| && (forall d :: 0 <= d < |s.cpus| && d != c ==> s'.cpus[d] == s.cpus[d])
    && s'.cpus[c].runq == s.cpus[c].runq && s'.cpus[c].idle == s.cpus[c].idle
    && w.Keys == s.tasks.Keys
    && (forall t :: t in s.tasks && !Own(s, c, t) ==> s'.tasks[t] == s.tasks[t] && w'[t] == w[t])
    && (forall t :: t in s.tasks && Own(s, c, t) ==> TaskOk(s', t, w'[t]) && (w'[t] == LPark || w'[t] == LCur(c) || w'[t] == LPend(c)))
    && CpuOk(s', w', c)
  }

  lemma OwnStepTasks(s: State, w: Locs, c: nat, s': State, w': Locs)
    requires TasksOk(s, w) && OwnStep(s, w, c, s', w')
    ensures TasksOk(s', w')
  {
    forall t | t in s.tasks && !Own(s, c, t) ensures TaskOk(s', t, w'[t]) {
      assert TaskOk(s, t, w[t]);
    }
  }

  lemma OwnStepCpu(s: State, w: Locs, c: nat, s': State, w': Locs, d: nat)
    requires CpusOk(s, w) && OwnStep(s, w, c, s', w') && d < |s.cpus|
    ensures CpuOk(s', w', d)
  {
    assert CpuOk(s, w, c) && CpuOk(s, w, d);
    if d != c {
      assert !Own(s, c, s.cpus[d].current) && !Own(s, c, s.cpus[d].idle);
    }
  }

  lemma OwnStepSlots(s: State, w: Locs, c: nat, s': State, w': Locs)
    requires QueuesOk(s, w) && HandsOk(s, w) && OwnStep(s, w, c, s', w') && CpuOk(s, w, c)
    ensures QueuesOk(s', w') && HandsOk(s', w')
  {
    forall d, i | 0 <= d < |s.cpus| && 0 <= i < |s.cpus[d].runq|
      ensures w'[s.cpus[d].runq[i]] == LQueue(d) && s'.cpus[d].runq == s.cpus[d].runq
    {
      assert w[s.cpus[d].runq[i]] == LQueue(d);
      assert !Own(s, c, s.cpus[d].runq[i]);
    }
    forall i | 0 <= i < |s.hands| ensures !Own(s, c, s.hands[i].task) { assert w[s.hands[i].task] == LHand; }
  }

  /** A CPU's own step, taken apart: everybody else is as before, so only its own tasks need looking at. */
  lemma OwnStepKeeps(s: State, w: Locs, c: nat, s': State, w': Locs)
    requires Places(s, w) && OwnStep(s, w, c, s', w')
    ensures Places(s', w')
  {
    OwnStepTasks(s, w, c, s', w');
    OwnStepSlots(s, w, c, s', w');
    forall d | 0 <= d < |s.cpus| ensures CpuOk(s', w', d) { OwnStepCpu(s, w, c, s', w', d); }
  }

  /** A decision's task is still awake and still held after a CPU's own step. */
  lemma OwnStepLock(s: State, w: Locs, c: nat, s': State, w': Locs)
    requires LockOk(s, w) && OwnFacts(s, w, c) && OwnStep(s, w, c, s', w')
    requires s.lock.Deciding? && Own(s, c, s.lock.task) ==>
               var t := s.lock.task; w'[t] != LPark && Awake(s'.tasks[t]) && !s'.tasks[t].idle
    ensures LockOk(s', w')
  {}

  /** What the invariant says about one CPU's own tasks. */
  ghost predicate OwnFacts(s: State, w: Locs, c: nat) {
    && c < |s.cpus| && w.Keys == s.tasks.Keys && CpuOk(s, w, c)
    && TaskOk(s, s.cpus[c].current, LCur(c))
    && TaskOk(s, s.cpus[c].idle, w[s.cpus[c].idle])
    && (Held(s.cpus[c].phase).Some? ==> TaskOk(s, s.cpus[c].phase.task, LPend(c)))
  }

  lemma OwnFactsHold(s: State, w: Locs, c: nat)
    requires TasksOk(s, w) && CpusOk(s, w) && c < |s.cpus|
    ensures OwnFacts(s, w, c)
  {
    assert CpuOk(s, w, c);
  }

  /** The current task changes its own state before it leaves the CPU. */
  lemma PlaceLeave(s: State, c: nat, w: Locs, p: Phase, x: RunState, s': State)
    requires Places(s, w) && c < |s.cpus| && s.cpus[c].current in s.tasks && !s.tasks[s.cpus[c].current].idle
    requires s.cpus[c].phase.Executing? || s.cpus[c].phase.Dozing?
    requires (p.Dozing? && x.Sleeping?) || (p.Leaving? && !x.Running?)
    requires s'.tasks == s.tasks[s.cpus[c].current := s.tasks[s.cpus[c].current].(state := x)] && s'.hands == s.hands && s'.lock == s.lock
    requires |s'.cpus| == |s.cpus| && (forall d :: 0 <= d < |s.cpus| && d != c ==> s'.cpus[d] == s.cpus[d])
    requires s'.cpus[c] == s.cpus[c].(phase := p, sleepers := s'.cpus[c].sleepers)
    ensures Places(s', w)
  {
    OwnFactsHold(s, w, c);
    OwnStepKeeps(s, w, c, s', w);
  }

  lemma UnstampOwn(s: State, c: nat, w: Locs)
    requires OwnFacts(s, w, c) && Enabled(s, Unstamp(c))
    ensures OwnStep(s, w, c, DoUnstamp(s, c), w) && DoUnstamp(s, c).reports == s.reports
  {}

  lemma FallbackOwn(s: State, c: nat, w: Locs)
    requires OwnFacts(s, w, c) && Enabled(s, Fallback(c))
    ensures OwnStep(s, w, c, DoFallback(s, c), w[s.cpus[c].idle := LPend(c)])
  {}

  lemma UnplaceOwn(s: State, c: nat, w: Locs)
    requires OwnFacts(s, w, c) && Enabled(s, Unplace(c))
    ensures OwnStep(s, w, c, DoUnplace(s, c), w) && DoUnplace(s, c).reports == s.reports
  {}

  lemma ReleaseOwn(s: State, c: nat, w: Locs)
    requires OwnFacts(s, w, c) && Enabled(s, Release(c))
    ensures OwnStep(s, w, c, DoRelease(s, c), w)
  {}

  /** The task a CPU starts is never the one it is running, and never one another CPU has claimed. */
  lemma StartOwn(s: State, c: nat, w: Locs)
    requires OwnFacts(s, w, c) && Enabled(s, Start(c))
    ensures s.cpus[c].phase.task != s.cpus[c].current
    ensures OwnStep(s, w, c, DoStart(s, c), w[s.cpus[c].phase.task := LCur(c)][s.cpus[c].current := LPend(c)])
    ensures DoStart(s, c).reports == s.reports
  {
    var n, cur := s.cpus[c].phase.task, s.cpus[c].current;
    var s', w' := DoStart(s, c), w[n := LCur(c)][cur := LPend(c)];
    StartTasks(s, c, w);
    assert CpuOk(s', w', c);
  }

  lemma StartTasks(s: State, c: nat, w: Locs)
    requires OwnFacts(s, w, c) && Enabled(s, Start(c))
    ensures s.cpus[c].phase.task != s.cpus[c].current && DoStart(s, c).reports == s.reports
    ensures DoStart(s, c).tasks.Keys == s.tasks.Keys && |DoStart(s, c).cpus| == |s.cpus|
    ensures TaskOk(DoStart(s, c), s.cpus[c].phase.task, LCur(c)) && TaskOk(DoStart(s, c), s.cpus[c].current, LPend(c))
    ensures s.cpus[c].idle != s.cpus[c].phase.task && s.cpus[c].idle != s.cpus[c].current ==> TaskOk(DoStart(s, c), s.cpus[c].idle, w[s.cpus[c].idle])
  {}

  lemma TestOwn(s: State, c: nat, w: Locs, x: Task)
    requires OwnFacts(s, w, c) && s.cpus[c].phase.Released? && s.cpus[c].phase.task in s.tasks
    requires ParkOk(x) && x.idle == s.tasks[s.cpus[c].phase.task].idle && x.cpu.None?
    ensures OwnStep(s, w, c, TestDone(s, c, x), w[s.cpus[c].phase.task := LPark])
  {}

  function InHandNow(s: State, t: TaskId, stage: Stage): State {
    SetTask(s, t, Task(Ready, None, Nowhere, false)).(hands := s.hands + [Hand(t, stage)])
  }

  lemma AddHandTasks(s: State, w: Locs, t: TaskId, stage: Stage)
    requires TasksOk(s, w)
    requires t in s.tasks ==> w[t] == LPark || w[t] == LDec
    ensures TasksOk(InHandNow(s, t, stage), w[t := LHand])
  {
    var s', w' := InHandNow(s, t, stage), w[t := LHand];
    assert s'.hands[|s.hands|].task == t;
    forall u | u in s.tasks && u != t ensures TaskOk(s', u, w'[u]) {
      assert TaskOk(s, u, w[u]);
      if w[u].LHand? {
        var i :| 0 <= i < |s.hands| && s.hands[i].task == u;
        assert s'.hands[i] == s.hands[i];
      }
    }
  }

  lemma AddHandSlots(s: State, w: Locs, t: TaskId, stage: Stage)
    requires QueuesOk(s, w) && HandsOk(s, w) && stage.Waking?
    requires t in w ==> w[t] == LPark || w[t] == LDec
    ensures QueuesOk(InHandNow(s, t, stage), w[t := LHand]) && HandsOk(InHandNow(s, t, stage), w[t := LHand])
  {}

  /** A task nobody holds is taken in hand. */
  lemma AddHand(s: State, w: Locs, t: TaskId, stage: Stage)
    requires Places(s, w) && stage.Waking?
    requires t in s.tasks ==> (w[t] == LPark || w[t] == LDec) && !s.tasks[t].idle
    ensures Places(InHandNow(s, t, stage), w[t := LHand])
  {
    AddHandTasks(s, w, t, stage);
    AddHandSlots(s, w, t, stage);
    var s', w' := InHandNow(s, t, stage), w[t := LHand];
    forall c | 0 <= c < |s.cpus| ensures CpuOk(s', w', c) { assert CpuOk(s, w, c); }
  }

  /** `finish_switch` past its look at the task, before a Ready one is queued: `x` is what the task is left as. */
  function TestDone(s: State, c: nat, x: Task): State
    requires c < |s.cpus| && s.cpus[c].phase.Released?
  { SetTask(SetCpu(s, c, s.cpus[c].(phase := Executing)), s.cpus[c].phase.task, x) }

  lemma PlaceTestDone(s: State, c: nat, w: Locs, x: Task)
    requires Places(s, w) && c < |s.cpus| && s.cpus[c].phase.Released? && s.cpus[c].phase.task in s.tasks
    requires ParkOk(x) && x.idle == s.tasks[s.cpus[c].phase.task].idle && x.cpu.None?
    ensures Places(TestDone(s, c, x), w[s.cpus[c].phase.task := LPark])
  {
    OwnFactsHold(s, w, c);
    TestOwn(s, c, w, x);
    OwnStepKeeps(s, w, c, TestDone(s, c, x), w[s.cpus[c].phase.task := LPark]);
  }

  function TestLocs(s: State, c: nat, w: Locs): Locs
    requires Enabled(s, Test(c))
  {
    var p := s.cpus[c].phase.task;
    w[p := if s.tasks[p].state.Ready? && !s.tasks[p].idle then LHand else LPark]
  }

  lemma PlaceTest(s: State, c: nat, w: Locs)
    requires Places(s, w) && Enabled(s, Test(c)) && OwnFacts(s, w, c)
    ensures Places(DoTest(s, c), TestLocs(s, c, w))
  {
    hide Places;
    var p := s.cpus[c].phase.task;
    if s.tasks[p].state.Ready? && !s.tasks[p].idle {
      var s1, w1 := TestDone(s, c, s.tasks[p].(state := Blocked)), w[p := LPark];
      PlaceTestDone(s, c, w, s.tasks[p].(state := Blocked));
      AddHand(s1, w1, p, Waking(|s.cpus|));
      assert w1[p := LHand] == w[p := LHand];
      assert s.tasks == s1.tasks[p := s.tasks[p]];
      assert DoTest(s, c) == InHandNow(s1, p, Waking(|s.cpus|));
    } else {
      PlaceTestDone(s, c, w, s.tasks[p]);
      assert s.tasks == s.tasks[p := s.tasks[p]];
    }
  }

  lemma PopTasks(s: State, c: nat, from: nat, w: Locs)
    requires TasksOk(s, w) && Enabled(s, Pop(c, from)) && QueuesOk(s, w)
    ensures TasksOk(DoPop(s, c, from), w[s.cpus[from].runq[0] := LPend(c)])
  {
    hide ParkOk;
    var q := s.cpus[from].runq;
    var s', w' := DoPop(s, c, from), w[q[0] := LPend(c)];
    assert q == [q[0]] + q[1..];
    assert s'.cpus[from].runq == q[1..];
    assert w[q[0]] == LQueue(from);
    forall t | t in s.tasks ensures TaskOk(s', t, w'[t]) { assert TaskOk(s, t, w[t]); }
  }

  lemma PopQueues(s: State, c: nat, from: nat, w: Locs)
    requires Enabled(s, Pop(c, from)) && QueuesOk(s, w)
    ensures QueuesOk(DoPop(s, c, from), w[s.cpus[from].runq[0] := LPend(c)])
  {
    var q := s.cpus[from].runq;
    var s' := DoPop(s, c, from);
    assert s'.cpus[from].runq == q[1..];
    assert w[q[0]] == LQueue(from);
    assert forall d :: 0 <= d < |s.cpus| && d != from ==> s'.cpus[d].runq == s.cpus[d].runq;
  }

  lemma PlacePop(s: State, c: nat, from: nat, w: Locs)
    requires Places(s, w) && Enabled(s, Pop(c, from))
    ensures Places(DoPop(s, c, from), w[s.cpus[from].runq[0] := LPend(c)])
  {
    hide TaskOk;
    PopTasks(s, c, from, w);
    PopQueues(s, c, from, w);
    var t := s.cpus[from].runq[0];
    var s', w' := DoPop(s, c, from), w[t := LPend(c)];
    assert w[t] == LQueue(from);
    forall d | 0 <= d < |s.cpus| ensures CpuOk(s', w', d) { assert CpuOk(s, w, d); }
  }

  lemma PushTasks(s: State, i: nat, to: nat, w: Locs)
    requires TasksOk(s, w) && Enabled(s, Push(i, to)) && HandsOk(s, w)
    ensures TasksOk(DoPush(s, i, to), w[s.hands[i].task := LQueue(to)])
  {
    hide CurOk, ParkOk, PendOk;
    var t := s.hands[i].task;
    var s', w' := DoPush(s, i, to), w[t := LQueue(to)];
    var q, q' := s.cpus[to].runq, s'.cpus[to].runq;
    assert q'[|q|] == t;
    assert TaskOk(s, t, w[t]);
    forall u | u in s.tasks && u != t ensures TaskOk(s', u, w'[u]) {
      assert TaskOk(s, u, w[u]);
      if w[u].LHand? {
        var j :| 0 <= j < |s.hands| && s.hands[j].task == u;
        assert s'.hands[if j < i then j else j - 1] == s.hands[j];
      }
    }
  }

  lemma PushSlots(s: State, i: nat, to: nat, w: Locs)
    requires Enabled(s, Push(i, to)) && QueuesOk(s, w) && HandsOk(s, w)
    ensures QueuesOk(DoPush(s, i, to), w[s.hands[i].task := LQueue(to)])
    ensures HandsOk(DoPush(s, i, to), w[s.hands[i].task := LQueue(to)])
  {
    assert w[s.hands[i].task] == LHand;
    var s' := DoPush(s, i, to);
    assert forall d :: 0 <= d < |s.cpus| && d != to ==> s'.cpus[d].runq == s.cpus[d].runq;
  }

  lemma PlacePush(s: State, i: nat, to: nat, w: Locs)
    requires Places(s, w) && Enabled(s, Push(i, to))
    ensures Places(DoPush(s, i, to), w[s.hands[i].task := LQueue(to)])
  {
    PushTasks(s, i, to, w);
    PushSlots(s, i, to, w);
    var s', w' := DoPush(s, i, to), w[s.hands[i].task := LQueue(to)];
    forall d | 0 <= d < |s.cpus| ensures CpuOk(s', w', d) { assert CpuOk(s, w, d); }
  }

  lemma StageTasks(s: State, i: nat, w: Locs, stage: Stage, s': State)
    requires TasksOk(s, w) && i < |s.hands| && s.hands[i].task in w && w[s.hands[i].task] == LHand
    requires s'.hands == s.hands[i := Hand(s.hands[i].task, stage)] && |s'.cpus| == |s.cpus| && s'.lock == s.lock
    requires s'.tasks == s.tasks[s.hands[i].task := Task(Ready, None, if stage.Stamped? then Queued else Nowhere, false)]
    requires forall d :: 0 <= d < |s.cpus| ==> s'.cpus[d] == s.cpus[d].(sleepers := s'.cpus[d].sleepers)
    ensures TasksOk(s', w)
  {
    forall u | u in s.tasks ensures TaskOk(s', u, w[u]) {
      assert TaskOk(s, u, w[u]);
      if w[u].LHand? {
        var j :| 0 <= j < |s.hands| && s.hands[j].task == u;
        assert s'.hands[j].task == u;
      }
    }
  }

  lemma StageHands(s: State, i: nat, w: Locs, stage: Stage, s': State)
    requires HandsOk(s, w) && i < |s.hands|
    requires s'.hands == s.hands[i := Hand(s.hands[i].task, stage)]
    requires s'.tasks == s.tasks[s.hands[i].task := Task(Ready, None, if stage.Stamped? then Queued else Nowhere, false)]
    ensures HandsOk(s', w)
  {}

  /** A waker's own bookkeeping: the task it holds moves on a stage. */
  lemma PlaceStage(s: State, i: nat, w: Locs, stage: Stage, s': State)
    requires Places(s, w) && i < |s.hands|
    requires s'.hands == s.hands[i := Hand(s.hands[i].task, stage)] && |s'.cpus| == |s.cpus| && s'.lock == s.lock
    requires s'.tasks == s.tasks[s.hands[i].task := Task(Ready, None, if stage.Stamped? then Queued else Nowhere, false)]
    requires forall d :: 0 <= d < |s.cpus| ==> s'.cpus[d] == s.cpus[d].(sleepers := s'.cpus[d].sleepers)
    ensures Places(s', w)
  {
    StageTasks(s, i, w, stage, s');
    StageHands(s, i, w, stage, s');
    forall d | 0 <= d < |s.cpus| ensures CpuOk(s', w, d) { assert CpuOk(s, w, d); }
  }

  lemma PlaceRemove(s: State, w: Locs, t: TaskId)
    requires Places(s, w) && t in s.tasks && w[t] == LPark && !s.tasks[t].idle
    ensures Places(s.(tasks := s.tasks - {t}), w - {t})
  {
    var s', w' := s.(tasks := s.tasks - {t}), w - {t};
    forall u | u in s'.tasks ensures TaskOk(s', u, w'[u]) { assert TaskOk(s, u, w[u]); }
    forall d | 0 <= d < |s.cpus| ensures CpuOk(s', w', d) { assert CpuOk(s, w, d); }
  }

  // ---------------------------------------------------------------- the lists

  lemma {:induction false} KeptOrDue(l: seq<Entry>, now: nat, room: nat, t: TaskId)
    ensures Lists(Kept(l, now, room), t) || t in Due(l, now, room) <==> Lists(l, t)
  {
    if l != [] {
      var r := if l[0].due > now || room == 0 then room else room - 1;
      KeptOrDue(l[1..], now, r, t);
      ListsHead(l, t);
      if !(l[0].due <= now && room > 0) { ListsHead(Kept(l, now, room), t); }
    }
  }

  lemma ListsHead(l: seq<Entry>, t: TaskId)
    requires l != []
    ensures Lists(l, t) <==> l[0].task == t || Lists(l[1..], t)
  {
    if Lists(l, t) && l[0].task != t {
      var i :| 0 <= i < |l| && l[i].task == t;
      assert l[1..][i - 1].task == t;
    }
    if Lists(l[1..], t) {
      var i :| 0 <= i < |l[1..]| && l[1..][i].task == t;
      assert l[i + 1].task == t;
    }
  }

  lemma {:induction false} WithoutLists(l: seq<Entry>, u: TaskId, t: TaskId)
    ensures Lists(Without(l, u), t) <==> Lists(l, t) && t != u
  {
    if l != [] {
      WithoutLists(l[1..], u, t);
      ListsHead(l, t);
      if l[0].task != u { ListsHead(Without(l, u), t); }
    }
  }

  /** Where tasks are does not depend on the reap list, the id counter or the sleeper lists. */
  lemma SamePlaces(s: State, s': State, w: Locs)
    requires Places(s, w) && s'.tasks == s.tasks && s'.hands == s.hands && s'.lock == s.lock && |s'.cpus| == |s.cpus|
    requires forall d :: 0 <= d < |s.cpus| ==> s'.cpus[d] == s.cpus[d].(sleepers := s'.cpus[d].sleepers, expired := s'.cpus[d].expired)
    ensures Places(s', w)
  {
    forall u | u in s.tasks ensures TaskOk(s', u, w[u]) { assert TaskOk(s, u, w[u]); }
    forall d | 0 <= d < |s.cpus| ensures CpuOk(s', w, d) { assert CpuOk(s, w, d); }
  }

  // ---------------------------------------------------------------- every step

  lemma KeepSpawn(s: State, w: Locs)
    requires InvAt(s, w) && Enabled(s, Spawn)
    ensures InvAt(DoSpawn(s), w[s.nextId := LHand])
  {
    AddHand(s, w, s.nextId, Waking(|s.cpus|));
    var s', s1 := DoSpawn(s), InHandNow(s, s.nextId, Waking(|s.cpus|));
    SamePlaces(s1, s', w[s.nextId := LHand]);
    forall t | t in s'.tasks && s'.tasks[t].state.Sleeping? ensures exists c :: WillWake(s', c, t) {
      var c :| WillWake(s, c, t);
      assert WillWake(s', c, t);
    }
  }

  lemma RunningNow(s: State, w: Locs, c: nat)
    requires TasksOk(s, w) && CpusOk(s, w) && AtWork(s, c)
    ensures s.tasks[s.cpus[c].current].state.Running?
  {
    OwnFactsHold(s, w, c);
  }

  lemma BlockLists(s: State, c: nat)
    requires ReapOk(s) && SleepersOk(s) && Enabled(s, Block(c)) && s.tasks[s.cpus[c].current].state.Running?
    ensures ReapOk(DoBlock(s, c)) && SleepersOk(DoBlock(s, c))
  {
    SameLists(s, DoBlock(s, c));
  }

  lemma KeepBlock(s: State, c: nat, w: Locs)
    requires InvAt(s, w) && Enabled(s, Block(c))
    ensures InvAt(DoBlock(s, c), w)
  {
    RunningNow(s, w, c);
    BlockLists(s, c);
    PlaceLeave(s, c, w, Leaving, Blocked, DoBlock(s, c));
  }

  lemma KeepSleepMark(s: State, c: nat, until: nat, w: Locs)
    requires InvAt(s, w) && Enabled(s, SleepMark(c, until))
    ensures InvAt(DoSleepMark(s, c, until), w)
  {
    var s' := DoSleepMark(s, c, until);
    RunningNow(s, w, c);
    SleepMarkLists(s, c, until);
    PlaceLeave(s, c, w, Dozing(until), Sleeping, s');
  }

  lemma SleepMarkLists(s: State, c: nat, until: nat)
    requires ReapOk(s) && SleepersOk(s) && Enabled(s, SleepMark(c, until)) && s.tasks[s.cpus[c].current].state.Running?
    ensures ReapOk(DoSleepMark(s, c, until)) && SleepersOk(DoSleepMark(s, c, until))
  {
    var s' := DoSleepMark(s, c, until);
    assert WillWake(s', c, s.cpus[c].current);
    forall t | t in s.tasks && s.tasks[t].state.Sleeping? ensures exists d :: WillWake(s', d, t) {
      var d :| WillWake(s, d, t);
      assert WillWake(s', d, t);
    }
  }

  lemma KeepSleepList(s: State, c: nat, w: Locs)
    requires InvAt(s, w) && Enabled(s, SleepList(c))
    ensures InvAt(DoSleepList(s, c), w)
  {
    OwnFactsHold(s, w, c);
    var s' := DoSleepList(s, c);
    assert s.tasks == s.tasks[s.cpus[c].current := s.tasks[s.cpus[c].current].(state := s.tasks[s.cpus[c].current].state)];
    PlaceLeave(s, c, w, Leaving, s.tasks[s.cpus[c].current].state, s');
    SleepListLists(s, c);
  }

  lemma SleepListLists(s: State, c: nat)
    requires ReapOk(s) && SleepersOk(s) && Enabled(s, SleepList(c)) && s.cpus[c].current in s.tasks
    ensures ReapOk(DoSleepList(s, c)) && SleepersOk(DoSleepList(s, c))
  {
    var s', me := DoSleepList(s, c), s.cpus[c].current;
    var l, l' := s.cpus[c].sleepers, s'.cpus[c].sleepers;
    forall t ensures Lists(l', t) <==> Lists(l, t) || t == me {
      assert l'[|l|].task == me;
      if Lists(l, t) {
        var i :| 0 <= i < |l| && l[i].task == t;
        assert l'[i].task == t;
      }
    }
    forall t | t in s.tasks && s.tasks[t].state.Sleeping? ensures exists d :: WillWake(s', d, t) {
      var d :| WillWake(s, d, t);
      assert WillWake(s', d, t);
    }
  }

  lemma KeepExit(s: State, c: nat, w: Locs)
    requires InvAt(s, w) && Enabled(s, Exit(c))
    ensures InvAt(DoExit(s, c), w)
  {
    RunningNow(s, w, c);
    ExitLists(s, c);
    PlaceLeave(s, c, w, Leaving, Dead, DoExit(s, c));
  }

  lemma ExitLists(s: State, c: nat)
    requires ReapOk(s) && SleepersOk(s) && Enabled(s, Exit(c)) && s.tasks[s.cpus[c].current].state.Running?
    ensures ReapOk(DoExit(s, c)) && SleepersOk(DoExit(s, c))
  {
    var s' := DoExit(s, c);
    assert s'.reap[|s.reap|] == s.cpus[c].current;
    forall t | t in s'.tasks && s'.tasks[t].state.Sleeping? ensures exists d :: WillWake(s', d, t) {
      var d :| WillWake(s, d, t);
      assert WillWake(s', d, t);
    }
  }

  lemma KeepPop(s: State, c: nat, from: nat, w: Locs)
    requires InvAt(s, w) && Enabled(s, Pop(c, from))
    ensures InvAt(DoPop(s, c, from), w[s.cpus[from].runq[0] := LPend(c)])
  {
    PlacePop(s, c, from, w);
    assert w[s.cpus[from].runq[0]] == LQueue(from);
    SameLists(s, DoPop(s, c, from));
  }

  lemma KeepUnstamp(s: State, c: nat, w: Locs)
    requires InvAt(s, w) && Enabled(s, Unstamp(c))
    ensures InvAt(DoUnstamp(s, c), w)
  {
    hide SleepersOk, ReapOk, OwnFacts, OwnStep, TaskOk, CpuOk;
    OwnFactsHold(s, w, c);
    UnstampOwn(s, c, w);
    OwnStepKeeps(s, w, c, DoUnstamp(s, c), w);
    OwnStepLock(s, w, c, DoUnstamp(s, c), w);
    SameLists(s, DoUnstamp(s, c));
  }

  lemma KeepFallback(s: State, c: nat, w: Locs)
    requires InvAt(s, w) && Enabled(s, Fallback(c))
    ensures InvAt(DoFallback(s, c), w[s.cpus[c].idle := LPend(c)])
  {
    OwnFactsHold(s, w, c);
    FallbackOwn(s, c, w);
    OwnStepKeeps(s, w, c, DoFallback(s, c), w[s.cpus[c].idle := LPend(c)]);
    OwnStepLock(s, w, c, DoFallback(s, c), w[s.cpus[c].idle := LPend(c)]);
    SameLists(s, DoFallback(s, c));
  }

  lemma KeepStart(s: State, c: nat, w: Locs)
    requires InvAt(s, w) && Enabled(s, Start(c))
    ensures InvAt(DoStart(s, c), w[s.cpus[c].phase.task := LCur(c)][s.cpus[c].current := LPend(c)])
  {
    hide ReapOk, SleepersOk, LockOk;
    var w' := w[s.cpus[c].phase.task := LCur(c)][s.cpus[c].current := LPend(c)];
    OwnFactsHold(s, w, c);
    StartOwn(s, c, w);
    StartLock(s, c, w);
    hide OwnStep, TasksOk, QueuesOk, HandsOk, CpusOk;
    OwnStepKeeps(s, w, c, DoStart(s, c), w');
    StartLists(s, c);
  }

  lemma StartLock(s: State, c: nat, w: Locs)
    requires LockOk(s, w) && OwnFacts(s, w, c) && Enabled(s, Start(c))
    requires OwnStep(s, w, c, DoStart(s, c), w[s.cpus[c].phase.task := LCur(c)][s.cpus[c].current := LPend(c)])
    ensures LockOk(DoStart(s, c), w[s.cpus[c].phase.task := LCur(c)][s.cpus[c].current := LPend(c)])
  {
    hide OwnStep;
    OwnStepLock(s, w, c, DoStart(s, c), w[s.cpus[c].phase.task := LCur(c)][s.cpus[c].current := LPend(c)]);
  }

  lemma StartLists(s: State, c: nat)
    requires ReapOk(s) && SleepersOk(s) && Enabled(s, Start(c)) && s.tasks[s.cpus[c].phase.task].state.Ready?
    ensures ReapOk(DoStart(s, c)) && SleepersOk(DoStart(s, c))
  {
    SameLists(s, DoStart(s, c));
  }

  lemma UnplaceLock(s: State, c: nat, w: Locs)
    requires LockOk(s, w) && OwnFacts(s, w, c) && Enabled(s, Unplace(c)) && OwnStep(s, w, c, DoUnplace(s, c), w)
    ensures LockOk(DoUnplace(s, c), w)
  {
    hide OwnStep;
    OwnStepLock(s, w, c, DoUnplace(s, c), w);
  }

  lemma KeepUnplace(s: State, c: nat, w: Locs)
    requires InvAt(s, w) && Enabled(s, Unplace(c))
    ensures InvAt(DoUnplace(s, c), w)
  {
    hide ReapOk, SleepersOk, LockOk;
    OwnFactsHold(s, w, c);
    UnplaceOwn(s, c, w);
    UnplaceLock(s, c, w);
    hide OwnStep, OwnFacts, TasksOk, QueuesOk, HandsOk, CpusOk;
    OwnStepKeeps(s, w, c, DoUnplace(s, c), w);
    SameLists(s, DoUnplace(s, c));
  }

  lemma ReleaseLock(s: State, c: nat, w: Locs)
    requires LockOk(s, w) && OwnFacts(s, w, c) && Enabled(s, Release(c)) && OwnStep(s, w, c, DoRelease(s, c), w)
    ensures LockOk(DoRelease(s, c), w)
  {
    hide OwnStep;
    OwnStepLock(s, w, c, DoRelease(s, c), w);
  }

  lemma KeepRelease(s: State, c: nat, w: Locs)
    requires InvAt(s, w) && Enabled(s, Release(c))
    ensures InvAt(DoRelease(s, c), w)
  {
    hide ReapOk, SleepersOk, LockOk;
    OwnFactsHold(s, w, c);
    ReleaseOwn(s, c, w);
    ReleaseLock(s, c, w);
    hide OwnStep, OwnFacts, TasksOk, QueuesOk, HandsOk, CpusOk;
    OwnStepKeeps(s, w, c, DoRelease(s, c), w);
    SameLists(s, DoRelease(s, c));
  }

  lemma TestLock(s: State, c: nat, w: Locs)
    requires LockOk(s, w) && Enabled(s, Test(c)) && s.cpus[c].phase.task in w && w[s.cpus[c].phase.task] == LPend(c)
    requires !s.tasks[s.cpus[c].phase.task].state.Running?
    ensures LockOk(DoTest(s, c), TestLocs(s, c, w))
  {}

  lemma KeepTest(s: State, c: nat, w: Locs)
    requires InvAt(s, w) && Enabled(s, Test(c))
    ensures InvAt(DoTest(s, c), TestLocs(s, c, w))
  {
    hide ReapOk, SleepersOk, LockOk;
    OwnFactsHold(s, w, c);
    hide Places, TasksOk, QueuesOk, HandsOk, CpusOk, TestLocs;
    PlaceTest(s, c, w);
    TestLock(s, c, w);
    TestLists(s, c);
  }

  lemma TestLists(s: State, c: nat)
    requires ReapOk(s) && SleepersOk(s) && Enabled(s, Test(c))
    ensures ReapOk(DoTest(s, c)) && SleepersOk(DoTest(s, c))
  {
    SameLists(s, DoTest(s, c));
  }

  // ---------------------------------------------------------------- decisions

  /** Only a decision's own task depends on the lock. */
  lemma PlaceLock(s: State, w: Locs, lock: Lock)
    requires Places(s, w) && forall u :: u in w && w[u] == LDec ==> lock.Deciding? && lock.task == u && !lock.claimed
    ensures Places(s.(lock := lock), w)
  {
    var s' := s.(lock := lock);
    forall u | u in s.tasks ensures TaskOk(s', u, w[u]) { assert TaskOk(s, u, w[u]); }
    forall d | 0 <= d < |s.cpus| ensures CpuOk(s', w, d) { assert CpuOk(s, w, d); }
  }

  function Readied(s: State, t: TaskId): State
    requires t in s.tasks
  { SetTask(s, t, s.tasks[t].(state := Ready)) }

  /** A task some CPU has is only marked: that CPU will see it Ready and queue it. */
  lemma MarkOwn(s: State, t: TaskId, w: Locs, c: nat)
    requires OwnFacts(s, w, c) && t in s.tasks && TaskOk(s, t, w[t]) && (s.tasks[t].state.Blocked? || s.tasks[t].state.Sleeping?)
    requires s.tasks[t].cpu == Some(c) || s.cpus[c].phase == Released(t)
    ensures w[t] == LCur(c) || w[t] == LPend(c)
    ensures OwnStep(s, w, c, Readied(s, t), w) && !s.tasks[t].idle
  {}

  lemma NoneDeciding(s: State, w: Locs)
    requires TasksOk(s, w) && s.lock.Unlocked?
    ensures forall u :: u in w ==> w[u] != LDec
  {
    forall u | u in w ensures w[u] != LDec { assert TaskOk(s, u, w[u]); }
  }

  lemma PlaceMarkClaimed(s: State, t: TaskId, w: Locs, lock: Lock)
    requires Places(s, w) && t in s.tasks && Claimed(s, t) && s.lock.Unlocked?
    requires s.tasks[t].state.Blocked? || s.tasks[t].state.Sleeping?
    ensures Places(Readied(s, t).(lock := lock), w) && w[t] != LPark && w[t] != LDec && !s.tasks[t].idle
  {
    assert TaskOk(s, t, w[t]);
    var c :| 0 <= c < |s.cpus| && (s.tasks[t].cpu == Some(c) || s.cpus[c].phase == Released(t));
    OwnFactsHold(s, w, c);
    MarkOwn(s, t, w, c);
    NoneDeciding(s, w);
    hide OwnStep, TaskOk, OwnFacts, CpuOk;
    OwnStepKeeps(s, w, c, Readied(s, t), w);
    PlaceLock(Readied(s, t), w, lock);
  }

  /** A parked task is the decision's from the moment it is marked. */
  lemma PlaceMarkParked(s: State, t: TaskId, w: Locs, stage: Stage)
    requires Places(s, w) && t in s.tasks && w[t] == LPark && !s.tasks[t].idle && s.lock.Unlocked?
    ensures Places(Readied(s, t).(lock := Deciding(t, stage, false)), w[t := LDec])
  {
    var s', w' := Readied(s, t).(lock := Deciding(t, stage, false)), w[t := LDec];
    forall u | u in s.tasks ensures TaskOk(s', u, w'[u]) { assert TaskOk(s, u, w[u]); }
    forall d | 0 <= d < |s.cpus| ensures CpuOk(s', w', d) { assert CpuOk(s, w, d); }
  }

  lemma MarkLists(s: State, t: TaskId, stage: Stage)
    requires ReapOk(s) && SleepersOk(s) && t in s.tasks && (s.tasks[t].state.Blocked? || s.tasks[t].state.Sleeping?)
    ensures ReapOk(Mark(s, t, stage)) && SleepersOk(Mark(s, t, stage))
  {
    SameLists(s, Mark(s, t, stage));
  }

  /** Storing Ready is safe whenever it happens. */
  lemma KeepMark(s: State, t: TaskId, stage: Stage, w: Locs) returns (w': Locs)
    requires InvAt(s, w) && t in s.tasks && (s.tasks[t].state.Blocked? || s.tasks[t].state.Sleeping?)
    requires s.lock.Unlocked? && stage.Waking?
    ensures InvAt(Mark(s, t, stage), w')
  {
    assert TaskOk(s, t, w[t]);
    if Claimed(s, t) {
      w' := w;
      PlaceMarkClaimed(s, t, w, Deciding(t, stage, true));
    } else {
      w' := w[t := LDec];
      PlaceMarkParked(s, t, w, stage);
    }
    MarkLists(s, t, stage);
  }

  lemma PlaceSettle(s: State, w: Locs) returns (w': Locs)
    requires Places(s, w) && LockOk(s, w) && Enabled(s, Settle) && !Races(s, Settle)
    ensures Places(DoSettle(s), w')
  {
    var t, s' := s.lock.task, DoSettle(s);
    assert TaskOk(s, t, w[t]);
    forall u | u in w && w[u] == LDec ensures u == t && !s.lock.claimed { assert TaskOk(s, u, w[u]); }
    if s.tasks[t].cpu.Some? {
      w' := w;
      PlaceLock(s, w, Unlocked);
    } else {
      w' := w[t := LHand];
      AddHand(s, w, t, s.lock.stage);
      var s1 := InHandNow(s, t, s.lock.stage);
      PlaceLock(s1, w', Unlocked);
      assert s.tasks == s.tasks[t := Task(Ready, None, Nowhere, false)];
      assert s' == s1.(lock := Unlocked);
    }
  }

  /** A decision that finds no CPU on the task takes it; one that finds a CPU leaves it to that CPU. */
  lemma KeepSettle(s: State, w: Locs) returns (w': Locs)
    requires InvAt(s, w) && Enabled(s, Settle) && !Races(s, Settle)
    ensures InvAt(DoSettle(s), w')
  {
    hide ReapOk, SleepersOk, Places;
    w' := PlaceSettle(s, w);
    SameLists(s, DoSettle(s));
  }

  // ---------------------------------------------------------------- wakers and the reaper

  lemma KeepUnsleep(s: State, i: nat, w: Locs)
    requires InvAt(s, w) && Enabled(s, Unsleep(i))
    ensures InvAt(DoUnsleep(s, i), w)
  {
    var s', u := DoUnsleep(s, i), s.hands[i].task;
    assert TaskOk(s, u, LHand);
    assert s.tasks == s.tasks[u := Task(Ready, None, Nowhere, false)];
    PlaceStage(s, i, w, Waking(s.hands[i].stage.k + 1), s');
    UnsleepLists(s, i);
  }

  lemma UnsleepLists(s: State, i: nat)
    requires ReapOk(s) && SleepersOk(s) && Enabled(s, Unsleep(i)) && s.hands[i].task in s.tasks
    requires s.tasks[s.hands[i].task].state.Ready?
    ensures ReapOk(DoUnsleep(s, i)) && SleepersOk(DoUnsleep(s, i))
  {
    var s', k, u := DoUnsleep(s, i), s.hands[i].stage.k, s.hands[i].task;
    forall t ensures Lists(s'.cpus[k].sleepers, t) <==> Lists(s.cpus[k].sleepers, t) && t != u {
      WithoutLists(s.cpus[k].sleepers, u, t);
    }
    forall t | t in s.tasks && s.tasks[t].state.Sleeping? ensures exists d :: WillWake(s', d, t) {
      var d :| WillWake(s, d, t);
      assert WillWake(s', d, t);
    }
  }

  lemma KeepLook(s: State, i: nat, me: nat, w: Locs)
    requires InvAt(s, w) && Enabled(s, Look(i, me))
    ensures InvAt(DoLook(s, i, me), w)
  {
    hide SleepersOk, ReapOk;
    var u := s.hands[i].task;
    assert TaskOk(s, u, LHand);
    assert s.tasks == s.tasks[u := Task(Ready, None, Nowhere, false)];
    PlaceStage(s, i, w, Cleared, DoLook(s, i, me));
    SameLists(s, DoLook(s, i, me));
  }

  lemma KeepStamp(s: State, i: nat, w: Locs)
    requires InvAt(s, w) && Enabled(s, Stamp(i))
    ensures InvAt(DoStamp(s, i), w)
  {
    hide SleepersOk, ReapOk;
    assert TaskOk(s, s.hands[i].task, LHand);
    PlaceStage(s, i, w, Stamped, DoStamp(s, i));
    SameLists(s, DoStamp(s, i));
  }

  lemma KeepPush(s: State, i: nat, to: nat, w: Locs)
    requires InvAt(s, w) && Enabled(s, Push(i, to))
    ensures InvAt(DoPush(s, i, to), w[s.hands[i].task := LQueue(to)])
  {
    PlacePush(s, i, to, w);
    assert w[s.hands[i].task] == LHand;
    SameLists(s, DoPush(s, i, to));
  }

  lemma KeepSweep(s: State, c: nat, now: nat, w: Locs)
    requires InvAt(s, w) && Enabled(s, Sweep(c, now))
    ensures InvAt(DoSweep(s, c, now), w)
  {
    SamePlaces(s, DoSweep(s, c, now), w);
    SweepLists(s, c, now);
  }

  lemma SweepLists(s: State, c: nat, now: nat)
    requires ReapOk(s) && SleepersOk(s) && Enabled(s, Sweep(c, now))
    ensures ReapOk(DoSweep(s, c, now)) && SleepersOk(DoSweep(s, c, now))
  {
    var s' := DoSweep(s, c, now);
    forall t ensures Lists(s'.cpus[c].sleepers, t) || t in s'.cpus[c].expired <==> Lists(s.cpus[c].sleepers, t) {
      KeptOrDue(s.cpus[c].sleepers, now, MAX_DUE, t);
    }
    forall t | t in s.tasks && s.tasks[t].state.Sleeping? ensures exists d :: WillWake(s', d, t) {
      var d :| WillWake(s, d, t);
      assert WillWake(s', d, t);
    }
  }

  lemma KeepTickMark(s: State, c: nat, w: Locs) returns (w': Locs)
    requires InvAt(s, w) && Enabled(s, TickMark(c))
    ensures InvAt(DoTickMark(s, c), w')
  {
    var t := s.cpus[c].expired[0];
    if t in s.tasks && s.tasks[t].state.Sleeping? {
      // marking first and dropping the name afterwards comes to the same state
      var s1 := Mark(s, t, Waking(|s.cpus|));
      w' := KeepMark(s, t, Waking(|s.cpus|), w);
      NameDropped(s, c);
      assert DoTickMark(s, c) == SetCpu(s1, c, s1.cpus[c].(expired := s1.cpus[c].expired[1..]));
      TickDrops(s1, c, w');
    } else {
      w' := w;
      TickDrops(s, c, w);
    }
  }

  lemma NameDropped(s: State, c: nat)
    requires c < |s.cpus| && s.cpus[c].expired != []
    ensures forall t :: InWindow(SetCpu(s, c, s.cpus[c].(expired := s.cpus[c].expired[1..])), t) <==> InWindow(s, t)
  {
    var s' := SetCpu(s, c, s.cpus[c].(expired := s.cpus[c].expired[1..]));
    assert forall d :: 0 <= d < |s.cpus| ==> s'.cpus[d].phase == s.cpus[d].phase;
  }

  lemma TickDrops(s: State, c: nat, w: Locs)
    requires InvAt(s, w) && c < |s.cpus| && s.cpus[c].expired != []
    requires var t := s.cpus[c].expired[0]; !(t in s.tasks && s.tasks[t].state.Sleeping?)
    ensures InvAt(SetCpu(s, c, s.cpus[c].(expired := s.cpus[c].expired[1..])), w)
  {
    var s' := SetCpu(s, c, s.cpus[c].(expired := s.cpus[c].expired[1..]));
    SamePlaces(s, s', w);
    forall t | t in s.tasks && s.tasks[t].state.Sleeping? ensures exists d :: WillWake(s', d, t) {
      var d :| WillWake(s, d, t);
      assert WillWake(s', d, t);
    }
  }

  lemma KeepTakeDead(s: State, i: nat, w: Locs)
    requires InvAt(s, w) && Enabled(s, TakeDead(i)) && !InWindow(s, s.reap[i])
    ensures w[s.reap[i]] == LPark
    ensures InvAt(DoTakeDead(s, i), w - {s.reap[i]})
  {
    var t, s' := s.reap[i], DoTakeDead(s, i);
    assert TaskOk(s, t, w[t]);
    PlaceRemove(s, w, t);
    SamePlaces(s.(tasks := s.tasks - {t}), s', w - {t});
    TakeDeadReap(s, i);
    TakeDeadSleepers(s, i);
  }

  lemma Dropped(l: seq<TaskId>, i: nat, u: TaskId)
    requires i < |l| && u in l && u != l[i]
    ensures u in l[..i] + l[i + 1..]
  {
    var j :| 0 <= j < |l| && l[j] == u;
    assert (l[..i] + l[i + 1..])[if j < i then j else j - 1] == u;
  }

  lemma TakeDeadReap(s: State, i: nat)
    requires ReapOk(s) && Enabled(s, TakeDead(i))
    ensures ReapOk(DoTakeDead(s, i))
  {
    hide Reapable;
    var t, s' := s.reap[i], DoTakeDead(s, i);
    assert forall j :: 0 <= j < |s'.reap| ==> s'.reap[j] == s.reap[if j < i then j else j + 1];
    forall u | u in s'.tasks && s'.tasks[u].state.Dead? ensures u in s'.reap { Dropped(s.reap, i, u); }
  }

  lemma TakeDeadSleepers(s: State, i: nat)
    requires SleepersOk(s) && Enabled(s, TakeDead(i))
    ensures SleepersOk(DoTakeDead(s, i))
  {
    var s' := DoTakeDead(s, i);
    forall u | u in s'.tasks && s'.tasks[u].state.Sleeping? ensures exists d :: WillWake(s', d, u) {
      var d :| WillWake(s, d, u);
      assert WillWake(s', d, u);
    }
  }

  // ---------------------------------------------------------------- what the invariant means

  function LocOf(s: State, h: Holder): Loc {
    match h
    case InQueue(c, _) => LQueue(c)
    case Current(c) => LCur(c)
    case Pending(c) => LPend(c)
    case InHand(_) => LHand
    case Decider => LDec
  }

  lemma HolderLoc(s: State, w: Locs, h: Holder, t: TaskId)
    requires Places(s, w) && LockOk(s, w) && Holds(s, h, t)
    ensures t in s.tasks && t in w && w[t] == LocOf(s, h)
    ensures Agrees(s, h, s.tasks[t])
  {
    if h.Current? || h.Pending? { assert CpuOk(s, w, h.cpu); }
    assert TaskOk(s, t, w[t]);
  }

  lemma LocHeld(s: State, w: Locs, t: TaskId)
    requires TasksOk(s, w) && t in s.tasks && w[t] != LPark
    ensures IsHeld(s, t)
  {
    assert TaskOk(s, t, w[t]);
    match w[t]
    case LQueue(c) =>
      var i :| 0 <= i < |s.cpus[c].runq| && s.cpus[c].runq[i] == t;
      assert Holds(s, InQueue(c, i), t);
    case LHand =>
      var i :| 0 <= i < |s.hands| && s.hands[i].task == t;
      assert Holds(s, InHand(i), t);
    case LCur(c) => assert Holds(s, Current(c), t);
    case LPend(c) => assert Holds(s, Pending(c), t);
    case LDec => assert Holds(s, Decider, t);
  }

  lemma InvMeansOneHolder(s: State, w: Locs)
    requires Places(s, w) && LockOk(s, w)
    ensures OneHolder(s)
  {
    forall h, t | Holds(s, h, t) ensures t in s.tasks && Agrees(s, h, s.tasks[t]) { HolderLoc(s, w, h, t); }
    forall h1, h2, t | Holds(s, h1, t) && Holds(s, h2, t) ensures h1 == h2 {
      HolderLoc(s, w, h1, t);
      HolderLoc(s, w, h2, t);
    }
    forall t | t in s.tasks && w[t] == LPark
      ensures s.tasks[t].place.Nowhere? && (s.tasks[t].idle || !(s.tasks[t].state.Ready? || s.tasks[t].state.Running?))
    {
      assert TaskOk(s, t, w[t]);
    }
    forall t | t in s.tasks && w[t] != LPark ensures IsHeld(s, t) { LocHeld(s, w, t); }
  }

  function InitLocs(s: State): Locs {
    map t | t in s.tasks :: if t == 0 then LPark else if t == |s.cpus| then LCur(0) else LCur(t)
  }

  lemma InitTasks(s: State)
    requires Init(s)
    ensures TasksOk(s, InitLocs(s)) && QueuesOk(s, InitLocs(s)) && HandsOk(s, InitLocs(s))
  {
    var w := InitLocs(s);
    forall t | t in s.tasks ensures TaskOk(s, t, w[t]) {}
  }

  lemma InitCpus(s: State)
    requires Init(s)
    ensures CpusOk(s, InitLocs(s))
  {
    var w := InitLocs(s);
    forall c | 0 <= c < |s.cpus| ensures CpuOk(s, w, c) {}
  }

  lemma InitLists(s: State)
    requires Init(s)
    ensures ReapOk(s) && SleepersOk(s)
  {
    forall t | t in s.tasks ensures !s.tasks[t].state.Sleeping? && !s.tasks[t].state.Dead? {}
  }

  lemma InitInv(s: State)
    requires Init(s)
    ensures Inv(s)
  {
    InitTasks(s);
    InitCpus(s);
    InitLists(s);
    assert InvAt(s, InitLocs(s));
  }

  lemma PickStepSafe(s: State, e: Step, w: Locs) returns (w': Locs)
    requires InvAt(s, w) && Enabled(s, e) && (e.Pop? || e.Unstamp? || e.Fallback?)
    ensures InvAt(Next(s, e), w')
  {
    match e
    case Pop(c, from) => KeepPop(s, c, from, w); w' := w[s.cpus[from].runq[0] := LPend(c)];
    case Unstamp(c) => KeepUnstamp(s, c, w); w' := w;
    case Fallback(c) => KeepFallback(s, c, w); w' := w[s.cpus[c].idle := LPend(c)];
  }

  lemma SwitchStepSafe(s: State, e: Step, w: Locs) returns (w': Locs)
    requires InvAt(s, w) && Enabled(s, e) && (e.Start? || e.Unplace? || e.Release? || e.Test?)
    ensures InvAt(Next(s, e), w')
  {
    hide InvAt;
    match e
    case Start(c) => KeepStart(s, c, w); w' := w[s.cpus[c].phase.task := LCur(c)][s.cpus[c].current := LPend(c)];
    case Unplace(c) => KeepUnplace(s, c, w); w' := w;
    case Release(c) => KeepRelease(s, c, w); w' := w;
    case Test(c) => KeepTest(s, c, w); w' := TestLocs(s, c, w);
  }

  lemma TaskStepSafe(s: State, e: Step, w: Locs) returns (w': Locs)
    requires InvAt(s, w) && Enabled(s, e) && (e.Spawn? || e.Block? || e.SleepMark? || e.SleepList? || e.Exit?)
    ensures InvAt(Next(s, e), w')
  {
    w' := w;
    match e
    case Spawn => KeepSpawn(s, w); w' := w[s.nextId := LHand];
    case Block(c) => KeepBlock(s, c, w);
    case SleepMark(c, until) => KeepSleepMark(s, c, until, w);
    case SleepList(c) => KeepSleepList(s, c, w);
    case Exit(c) => KeepExit(s, c, w);
  }

  lemma WakerStepSafe(s: State, e: Step, w: Locs) returns (w': Locs)
    requires InvAt(s, w) && Enabled(s, e) && !Races(s, e)
    requires e.WakeMark? || e.TickMark? || e.Settle? || e.Unsleep? || e.Look? || e.Stamp? || e.Push? || e.Sweep? || e.TakeDead?
    ensures InvAt(Next(s, e), w')
  {
    hide InvAt;
    w' := w;
    match e
    case WakeMark(t) => w' := KeepMark(s, t, Waking(0), w);
    case TickMark(c) => w' := KeepTickMark(s, c, w);
    case Settle => w' := KeepSettle(s, w);
    case Unsleep(i) => KeepUnsleep(s, i, w);
    case Look(i, me) => KeepLook(s, i, me, w);
    case Stamp(i) => KeepStamp(s, i, w);
    case Push(i, to) => KeepPush(s, i, to, w); w' := w[s.hands[i].task := LQueue(to)];
    case Sweep(c, now) => KeepSweep(s, c, now, w);
    case TakeDead(i) => KeepTakeDead(s, i, w); w' := w - {s.reap[i]};
  }

  /** Every step that does not race keeps the invariant. */
  lemma StepSafe(s: State, e: Step)
    requires Inv(s) && Enabled(s, e) && !Races(s, e)
    ensures Inv(Next(s, e))
  {
    var w :| InvAt(s, w);
    var w': Locs;
    if e.Pop? || e.Unstamp? || e.Fallback? {
      w' := PickStepSafe(s, e, w);
    } else if e.Start? || e.Unplace? || e.Release? || e.Test? {
      w' := SwitchStepSafe(s, e, w);
    } else if e.Spawn? || e.Block? || e.SleepMark? || e.SleepList? || e.Exit? {
      w' := TaskStepSafe(s, e, w);
    } else {
      w' := WakerStepSafe(s, e, w);
    }
  }

  lemma SettleDoubles(s: State, w: Locs)
    requires TasksOk(s, w) && LockOk(s, w) && Enabled(s, Settle) && Races(s, Settle)
    ensures !NoDoubles(DoSettle(s))
  {
    var t, s' := s.lock.task, DoSettle(s);
    LocHeld(s, w, t);
    var h :| Holds(s, h, t);
    assert Holds(s', h, t) && Holds(s', InHand(|s.hands|), t);
  }

  lemma ReapDangles(s: State, i: nat, c: nat)
    requires Enabled(s, TakeDead(i)) && c < |s.cpus| && s.cpus[c].phase == Released(s.reap[i])
    ensures !NoDangling(DoTakeDead(s, i))
  {
    assert Holds(DoTakeDead(s, i), Pending(c), s.reap[i]);
  }

  /** A racing decision leaves the task with two holders, a racing reap leaves it held after it was freed. */
  lemma RaceBreaks(s: State, w: Locs, e: Step)
    requires TasksOk(s, w) && LockOk(s, w) && Enabled(s, e) && Races(s, e)
    ensures !OneHolder(Next(s, e))
  {
    match e
    case Settle => SettleDoubles(s, w);
    case TakeDead(i) =>
      var c :| 0 <= c < |s.cpus| && s.cpus[c].phase == Released(s.reap[i]);
      ReapDangles(s, i, c);
  }

  // ---------------------------------------------------------------- runs

  ghost predicate IsRun(run: seq<State>, steps: seq<Step>) {
    && |run| == |steps| + 1
    && Init(run[0])
    && forall i {:trigger steps[i]} :: 0 <= i < |steps| ==> Enabled(run[i], steps[i]) && run[i + 1] == Next(run[i], steps[i])
  }

  ghost predicate RaceFree(run: seq<State>, steps: seq<Step>)
    requires IsRun(run, steps)
  {
    forall i :: 0 <= i < |steps| ==> !Races(run[i], steps[i])
  }

  lemma {:induction false} RunInv(run: seq<State>, steps: seq<Step>, n: nat)
    requires IsRun(run, steps) && n <= |steps| && forall i :: 0 <= i < n ==> !Races(run[i], steps[i])
    ensures Inv(run[n])
  {
    if n == 0 { InitInv(run[0]); }
    else {
      RunInv(run, steps, n - 1);
      StepSafe(run[n - 1], steps[n - 1]);
    }
  }

  /** The scheduler's rule holds throughout a run exactly when no decision to wake races with a CPU leaving the task,
      and no reap falls between a CPU's release of a task and its look at it. */
  lemma RuleHoldsIffRaceFree(run: seq<State>, steps: seq<Step>)
    requires IsRun(run, steps)
    ensures (forall i :: 0 <= i < |run| ==> OneHolder(run[i])) <==> RaceFree(run, steps)
  {
    if RaceFree(run, steps) {
      forall i | 0 <= i < |run| ensures OneHolder(run[i]) {
        RunInv(run, steps, i);
        var w :| InvAt(run[i], w);
        InvMeansOneHolder(run[i], w);
      }
    } else {
      var n := FirstRace(run, steps, 0);
      RunInv(run, steps, n);
      var w :| InvAt(run[n], w);
      RaceBreaks(run[n], w, steps[n]);
      assert !OneHolder(run[n + 1]);
    }
  }

  lemma {:induction false} FirstRace(run: seq<State>, steps: seq<Step>, from: nat) returns (n: nat)
    requires IsRun(run, steps) && from <= |steps| && !RaceFree(run, steps)
    requires forall i :: 0 <= i < from ==> !Races(run[i], steps[i])
    ensures n < |steps| && Races(run[n], steps[n]) && forall i :: 0 <= i < n ==> !Races(run[i], steps[i])
    decreases |steps| - from
  {
    hide Next, Enabled, Races, Init;
    if Races(run[from], steps[from]) { n := from; } else { n := FirstRace(run, steps, from + 1); }
  }

  /** In a race-free run the checks the scheduler makes on itself never fire. */
  lemma NothingReported(run: seq<State>, steps: seq<Step>, n: nat)
    requires IsRun(run, steps) && RaceFree(run, steps) && n < |run|
    ensures run[n].reports == 0
  {
    RunInv(run, steps, n);
  }

  /** A sleeper is never forgotten: it is on a list, named by a tick in progress, or on its way onto a list. */
  lemma NoSleeperForgotten(run: seq<State>, steps: seq<Step>, n: nat, t: TaskId)
    requires IsRun(run, steps) && RaceFree(run, steps) && n < |run| && t in run[n].tasks && run[n].tasks[t].state.Sleeping?
    ensures exists c :: WillWake(run[n], c, t)
  {
    RunInv(run, steps, n);
  }

  lemma ReapedUnheld(s: State, i: nat, w: Locs)
    requires InvAt(s, w) && Enabled(s, TakeDead(i)) && !InWindow(s, s.reap[i])
    ensures !IsHeld(s, s.reap[i]) && !IsHeld(DoTakeDead(s, i), s.reap[i])
  {
    var t := s.reap[i];
    KeepTakeDead(s, i, w);
    forall h | Holds(s, h, t) ensures false { HolderLoc(s, w, h, t); }
    assert forall h :: Holds(DoTakeDead(s, i), h, t) ==> Holds(s, h, t);
  }

  /** What the reaper frees is referenced by no queue, no CPU, no waker and no sleeper list, before or after, and was
      never freed before. */
  lemma ReapIsSafe(run: seq<State>, steps: seq<Step>, n: nat)
    requires IsRun(run, steps) && RaceFree(run, steps) && n < |steps| && steps[n].TakeDead?
    ensures var t := run[n].reap[steps[n].i];
            && run[n].tasks[t].state.Dead?
            && !IsHeld(run[n], t) && !IsHeld(run[n + 1], t)
            && (forall c :: 0 <= c < |run[n].cpus| ==> !Lists(run[n].cpus[c].sleepers, t))
            && t !in run[n].released && t !in run[n + 1].tasks && t !in run[n + 1].reap && run[n + 1].released == run[n].released + [t]
  {
    RunInv(run, steps, n);
    RunInv(run, steps, n + 1);
    var w :| InvAt(run[n], w);
    assert !Races(run[n], steps[n]);
    ReapedUnheld(run[n], steps[n].i, w);
    assert run[n + 1] == DoTakeDead(run[n], steps[n].i);
  }

  lemma ReleasedStays(s: State, e: Step, t: TaskId)
    requires Enabled(s, e) && t in s.released
    ensures t in Next(s, e).released
  {
    if e.TakeDead? {
      var i :| 0 <= i < |s.released| && s.released[i] == t;
      assert Next(s, e).released[i] == t;
    }
  }

  lemma FreedNotHeld(s: State, t: TaskId)
    requires Inv(s) && t in s.released
    ensures t !in s.tasks && !IsHeld(s, t)
  {
    hide SleepersOk, Enabled, Agrees, Holds;
    var w :| InvAt(s, w);
    forall h | Holds(s, h, t) ensures false { HolderLoc(s, w, h, t); }
  }

  /** Once freed, a task is never seen again. */
  lemma {:induction false} FreedForGood(run: seq<State>, steps: seq<Step>, n: nat, m: nat, t: TaskId)
    requires IsRun(run, steps) && RaceFree(run, steps) && n <= m < |run| && t in run[n].released
    ensures t in run[m].released && t !in run[m].tasks && !IsHeld(run[m], t)
    decreases m - n
  {
    hide Next, Enabled, Inv, IsHeld, Races;
    RunInv(run, steps, m);
    if n < m {
      FreedForGood(run, steps, n, m - 1, t);
      ReleasedStays(run[m - 1], steps[m - 1], t);
    }
    FreedNotHeld(run[m], t);
  }
}
