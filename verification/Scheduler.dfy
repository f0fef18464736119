/**
The multi-CPU scheduler as a transition system.

A task that a CPU or a waker has taken off a queue, or decided to wake, but has not started or queued
yet, is *in hand*; it is tracked like any other holder.

`finish_switch` takes no lock, so it is three steps: `Unplace` clears the placement word, `Release` gives
the CPU up, `Test` looks at the state. A decision to wake is made under the table lock and is two: `WakeMark`
or `TickMark` stores Ready, and `Settle` looks whether a CPU still has the task. The lock keeps other
decisions, the reaper and a task's own change of state away from that stretch, and not `finish_switch`.
*/
module Scheduler {
  import opened Wrappers

  datatype RunState = Ready | Running | Blocked | Sleeping | Dead
  datatype Place = Nowhere | Queued | OnCpu

  datatype Task = Task(state: RunState, cpu: Option<nat>, place: Place, idle: bool)

  datatype Entry = Entry(task: TaskId, due: nat)

  /** What a CPU is in the middle of. */
  datatype Phase =
    | Executing                    // running its current task
    | Dozing(until: nat)           // marked itself Sleeping, not on the sleeper list yet
    | Leaving                      // blocked, sleeping or dead; `schedule` comes next
    | Popped(task: TaskId)         // took a task off a queue, placement word still says Queued
    | Chosen(task: TaskId)         // about to start this task
    | Switched(task: TaskId)       // switched; this task was left and nothing says so yet
    | Unplaced(task: TaskId)       // its placement word is cleared, its CPU word is not
    | Released(task: TaskId)       // released it, has not looked at its state yet

  datatype Cpu = Cpu(
    current: TaskId, idle: TaskId, phase: Phase,
    runq: seq<TaskId>, sleepers: seq<Entry>, expired: seq<TaskId>)

  /** How far a waker has got with a task it holds. `Waking(k)`: off the sleeper lists of the first `k` CPUs.
      `Cleared`: seen on no CPU, not stamped as queued yet. */
  datatype Stage = Waking(k: nat) | Cleared | Stamped
  datatype Hand = Hand(task: TaskId, stage: Stage)

  /** The table lock, as far as it spans two steps: a decision that has stored Ready and not looked at the CPU word
      yet. `claimed` is history: whether some CPU had the task, or had not looked at it yet, when Ready was stored. */
  datatype Lock = Unlocked | Deciding(task: TaskId, stage: Stage, claimed: bool)

  datatype State = State(
    tasks: map<TaskId, Task>, cpus: seq<Cpu>, hands: seq<Hand>, lock: Lock,
    reap: seq<TaskId>, released: seq<TaskId>, nextId: TaskId, reports: nat)

  datatype Step =
    | Spawn
    | Block(c: nat)
    | SleepMark(c: nat, until: nat)
    | SleepList(c: nat)
    | Exit(c: nat)
    | Pop(c: nat, from: nat)
    | Unstamp(c: nat)
    | Fallback(c: nat)
    | Start(c: nat)
    | Unplace(c: nat)
    | Release(c: nat)
    | Test(c: nat)
    | WakeMark(t: TaskId)
    | TickMark(c: nat)
    | Settle
    | Unsleep(i: nat)
    | Look(i: nat, me: nat)
    | Stamp(i: nat)
    | Push(i: nat, to: nat)
    | Sweep(c: nat, now: nat)
    | TakeDead(i: nat)

  const MAX_DUE: nat := 64

  // ---------------------------------------------------------------- sleeper lists

  predicate Lists(l: seq<Entry>, t: TaskId) {
    exists i :: 0 <= i < |l| && l[i].task == t
  }

  /** What stays on a sleeper list after a tick that has room for `room` more due tasks. */
  function Kept(l: seq<Entry>, now: nat, room: nat): seq<Entry> {
    if l == [] then []
    else if l[0].due > now || room == 0 then [l[0]] + Kept(l[1..], now, room)
    else Kept(l[1..], now, room - 1)
  }

  /** The tasks that tick names as due, in list order. */
  function Due(l: seq<Entry>, now: nat, room: nat): seq<TaskId> {
    if l == [] then []
    else if l[0].due > now || room == 0 then Due(l[1..], now, room)
    else [l[0].task] + Due(l[1..], now, room - 1)
  }

  function Without(l: seq<Entry>, t: TaskId): seq<Entry> {
    if l == [] then []
    else if l[0].task == t then Without(l[1..], t)
    else [l[0]] + Without(l[1..], t)
  }

  // ---------------------------------------------------------------- the steps

  function Held(p: Phase): Option<TaskId> {
    match p
    case Popped(t) => Some(t)
    case Chosen(t) => Some(t)
    case Switched(t) => Some(t)
    case Unplaced(t) => Some(t)
    case Released(t) => Some(t)
    case _ => None
  }

  function SetCpu(s: State, c: nat, x: Cpu): State
    requires c < |s.cpus|
  { s.(cpus := s.cpus[c := x]) }

  function SetTask(s: State, t: TaskId, x: Task): State { s.(tasks := s.tasks[t := x]) }

  /** A CPU runs one of its own steps only when it is at that point of its code. */
  predicate Enabled(s: State, e: Step) {
    match e
    case Spawn => s.lock.Unlocked?
    case Block(c) => s.lock.Unlocked? && AtWork(s, c)
    case SleepMark(c, _) => s.lock.Unlocked? && AtWork(s, c)
    case Exit(c) => s.lock.Unlocked? && AtWork(s, c)
    case SleepList(c) => c < |s.cpus| && s.cpus[c].phase.Dozing?
    case Pop(c, from) =>
      && c < |s.cpus| && from < |s.cpus| && s.cpus[from].runq != []
      && (s.cpus[c].phase.Executing? || s.cpus[c].phase.Leaving?)
    case Unstamp(c) => c < |s.cpus| && s.cpus[c].phase.Popped? && s.cpus[c].phase.task in s.tasks
    case Fallback(c) => c < |s.cpus| && s.cpus[c].phase.Leaving?
    case Start(c) => c < |s.cpus| && s.cpus[c].phase.Chosen? && s.cpus[c].phase.task in s.tasks && s.cpus[c].current in s.tasks
    case Unplace(c) => c < |s.cpus| && s.cpus[c].phase.Switched? && s.cpus[c].phase.task in s.tasks
    case Release(c) => c < |s.cpus| && s.cpus[c].phase.Unplaced? && s.cpus[c].phase.task in s.tasks
    case Test(c) => c < |s.cpus| && s.cpus[c].phase.Released? && s.cpus[c].phase.task in s.tasks
    case WakeMark(t) => s.lock.Unlocked? && t in s.tasks && (s.tasks[t].state.Blocked? || s.tasks[t].state.Sleeping?)
    case TickMark(c) => s.lock.Unlocked? && c < |s.cpus| && s.cpus[c].expired != []
    case Settle => s.lock.Deciding? && s.lock.task in s.tasks
    case Unsleep(i) => i < |s.hands| && s.hands[i].stage.Waking? && s.hands[i].stage.k < |s.cpus|
    case Look(i, _) => i < |s.hands| && s.hands[i].stage == Waking(|s.cpus|) && s.hands[i].task in s.tasks
    case Stamp(i) => i < |s.hands| && s.hands[i].stage.Cleared? && s.hands[i].task in s.tasks
    case Push(i, to) => i < |s.hands| && s.hands[i].stage.Stamped? && to < |s.cpus|
    case Sweep(c, _) => c < |s.cpus| && s.cpus[c].expired == []
    case TakeDead(i) => s.lock.Unlocked? && i < |s.reap| && Reapable(s, s.reap[i])
  }

  /** The current task of `c` is running ordinary kernel code and is not the idle task. */
  predicate AtWork(s: State, c: nat) {
    c < |s.cpus| && s.cpus[c].phase.Executing? && s.cpus[c].current in s.tasks && !s.tasks[s.cpus[c].current].idle
  }

  /** The test `take_dead` makes. */
  predicate Reapable(s: State, t: TaskId) {
    && t in s.tasks
    && s.tasks[t].cpu.None?
    && !s.tasks[t].place.Queued?
    && forall c :: 0 <= c < |s.cpus| ==> !Lists(s.cpus[c].sleepers, t)
  }

  /** Some CPU has given the task up and not looked at its state yet. */
  predicate InWindow(s: State, t: TaskId) {
    exists c :: 0 <= c < |s.cpus| && s.cpus[c].phase == Released(t)
  }

  predicate Claimed(s: State, t: TaskId)
    requires t in s.tasks
  { s.tasks[t].cpu.Some? || InWindow(s, t) }

  /** Ready is stored, and the table lock is still held. */
  function Mark(s: State, t: TaskId, stage: Stage): State
    requires t in s.tasks
  {
    SetTask(s, t, s.tasks[t].(state := Ready)).(lock := Deciding(t, stage, Claimed(s, t)))
  }

  function DropHand(hands: seq<Hand>, i: nat): seq<Hand>
    requires i < |hands|
  { hands[..i] + hands[i + 1..] }

  function DoSpawn(s: State): State
    requires Enabled(s, Spawn)
  {
    SetTask(s, s.nextId, Task(Ready, None, Nowhere, false)).(
    hands := s.hands + [Hand(s.nextId, Waking(|s.cpus|))], nextId := s.nextId + 1)
  }

  function DoBlock(s: State, c: nat): State
    requires Enabled(s, Block(c))
  {
    var me := s.cpus[c].current;
    SetTask(SetCpu(s, c, s.cpus[c].(phase := Leaving)), me, s.tasks[me].(state := Blocked))
  }

  function DoSleepMark(s: State, c: nat, until: nat): State
    requires Enabled(s, SleepMark(c, until))
  {
    var me := s.cpus[c].current;
    SetTask(SetCpu(s, c, s.cpus[c].(phase := Dozing(until))), me, s.tasks[me].(state := Sleeping))
  }

  function DoSleepList(s: State, c: nat): State
    requires Enabled(s, SleepList(c))
  {
    SetCpu(s, c, s.cpus[c].(phase := Leaving,
                            sleepers := s.cpus[c].sleepers + [Entry(s.cpus[c].current, s.cpus[c].phase.until)]))
  }

  function DoExit(s: State, c: nat): State
    requires Enabled(s, Exit(c))
  {
    var me := s.cpus[c].current;
    SetTask(SetCpu(s, c, s.cpus[c].(phase := Leaving)), me, s.tasks[me].(state := Dead)).(reap := s.reap + [me])
  }

  function DoPop(s: State, c: nat, from: nat): State
    requires Enabled(s, Pop(c, from))
  {
    var t := s.cpus[from].runq[0];
    var s1 := SetCpu(s, from, s.cpus[from].(runq := s.cpus[from].runq[1..]));
    SetCpu(s1, c, s1.cpus[c].(phase := Popped(t)))
  }

  function DoUnstamp(s: State, c: nat): State
    requires Enabled(s, Unstamp(c))
  {
    var t := s.cpus[c].phase.task;
    var s1 := SetCpu(s, c, s.cpus[c].(phase := Chosen(t)));
    if s.tasks[t].place.Queued? then SetTask(s1, t, s.tasks[t].(place := Nowhere))
    else s1.(reports := s.reports + 1)
  }

  function DoFallback(s: State, c: nat): State
    requires Enabled(s, Fallback(c))
  {
    SetCpu(s, c, s.cpus[c].(phase := Chosen(s.cpus[c].idle)))
  }

  function DoStart(s: State, c: nat): State
    requires Enabled(s, Start(c))
  {
    var n, cur := s.cpus[c].phase.task, s.cpus[c].current;
    if n == cur then SetCpu(s, c, s.cpus[c].(phase := Executing))
    else
      var claimed := if s.tasks[n].cpu.Some? && s.tasks[n].cpu.value != c then 1 else 0;
      var misplaced := if s.tasks[n].place.Nowhere? then 0 else 1;
      var s1 := SetTask(s, cur, if s.tasks[cur].state.Running? then s.tasks[cur].(state := Ready) else s.tasks[cur]);
      var s2 := SetTask(s1, n, s.tasks[n].(state := Running, cpu := Some(c), place := if misplaced == 0 then OnCpu else s.tasks[n].place));
      SetCpu(s2, c, s.cpus[c].(current := n, phase := Switched(cur))).(reports := s.reports + claimed + misplaced)
  }

  function DoUnplace(s: State, c: nat): State
    requires Enabled(s, Unplace(c))
  {
    var p := s.cpus[c].phase.task;
    var s1 := SetCpu(s, c, s.cpus[c].(phase := Unplaced(p)));
    if s.tasks[p].place.OnCpu? then SetTask(s1, p, s.tasks[p].(place := Nowhere)) else s1.(reports := s.reports + 1)
  }

  function DoRelease(s: State, c: nat): State
    requires Enabled(s, Release(c))
  {
    var p := s.cpus[c].phase.task;
    SetTask(SetCpu(s, c, s.cpus[c].(phase := Released(p))), p, s.tasks[p].(cpu := None))
  }

  function DoTest(s: State, c: nat): State
    requires Enabled(s, Test(c))
  {
    var p := s.cpus[c].phase.task;
    var s1 := SetCpu(s, c, s.cpus[c].(phase := Executing));
    if s.tasks[p].state.Ready? && !s.tasks[p].idle then s1.(hands := s.hands + [Hand(p, Waking(|s.cpus|))]) else s1
  }

  function DoWakeMark(s: State, t: TaskId): State
    requires Enabled(s, WakeMark(t))
  {
    Mark(s, t, Waking(0))
  }

  /** The tick drops a name, and wakes the task if it sleeps. */
  function DoTickMark(s: State, c: nat): State
    requires Enabled(s, TickMark(c))
  {
    var t := s.cpus[c].expired[0];
    var s1 := SetCpu(s, c, s.cpus[c].(expired := s.cpus[c].expired[1..]));
    if t in s.tasks && s.tasks[t].state.Sleeping? then Mark(s1, t, Waking(|s.cpus|)) else s1
  }

  /** A task still on a CPU is left to it; any other is taken in hand. The lock is dropped. */
  function DoSettle(s: State): State
    requires Enabled(s, Settle)
  {
    var s1 := s.(lock := Unlocked);
    if s.tasks[s.lock.task].cpu.Some? then s1 else s1.(hands := s.hands + [Hand(s.lock.task, s.lock.stage)])
  }

  function DoUnsleep(s: State, i: nat): State
    requires Enabled(s, Unsleep(i))
  {
    var k := s.hands[i].stage.k;
    SetCpu(s, k, s.cpus[k].(sleepers := Without(s.cpus[k].sleepers, s.hands[i].task))).(
    hands := s.hands[i := Hand(s.hands[i].task, Waking(k + 1))])
  }

  /** A task that a CPU other than the waker's own runs is not queued. */
  function DoLook(s: State, i: nat, me: nat): State
    requires Enabled(s, Look(i, me))
  {
    var t := s.hands[i].task;
    if s.tasks[t].cpu.Some? && s.tasks[t].cpu.value != me then s.(hands := DropHand(s.hands, i), reports := s.reports + 1)
    else s.(hands := s.hands[i := Hand(t, Cleared)])
  }

  function DoStamp(s: State, i: nat): State
    requires Enabled(s, Stamp(i))
  {
    var t := s.hands[i].task;
    if !s.tasks[t].place.Nowhere? then s.(hands := DropHand(s.hands, i), reports := s.reports + 1)
    else SetTask(s, t, s.tasks[t].(place := Queued)).(hands := s.hands[i := Hand(t, Stamped)])
  }

  function DoPush(s: State, i: nat, to: nat): State
    requires Enabled(s, Push(i, to))
  {
    SetCpu(s, to, s.cpus[to].(runq := s.cpus[to].runq + [s.hands[i].task])).(hands := DropHand(s.hands, i))
  }

  function DoSweep(s: State, c: nat, now: nat): State
    requires Enabled(s, Sweep(c, now))
  {
    SetCpu(s, c, s.cpus[c].(sleepers := Kept(s.cpus[c].sleepers, now, MAX_DUE), expired := Due(s.cpus[c].sleepers, now, MAX_DUE)))
  }

  function DoTakeDead(s: State, i: nat): State
    requires Enabled(s, TakeDead(i))
  {
    s.(tasks := s.tasks - {s.reap[i]}, reap := s.reap[..i] + s.reap[i + 1..], released := s.released + [s.reap[i]])
  }

  function Next(s: State, e: Step): State
    requires Enabled(s, e)
  {
    match e
    case Spawn => DoSpawn(s)
    case Block(c) => DoBlock(s, c)
    case SleepMark(c, until) => DoSleepMark(s, c, until)
    case SleepList(c) => DoSleepList(s, c)
    case Exit(c) => DoExit(s, c)
    case Pop(c, from) => DoPop(s, c, from)
    case Unstamp(c) => DoUnstamp(s, c)
    case Fallback(c) => DoFallback(s, c)
    case Start(c) => DoStart(s, c)
    case Unplace(c) => DoUnplace(s, c)
    case Release(c) => DoRelease(s, c)
    case Test(c) => DoTest(s, c)
    case WakeMark(t) => DoWakeMark(s, t)
    case TickMark(c) => DoTickMark(s, c)
    case Settle => DoSettle(s)
    case Unsleep(i) => DoUnsleep(s, i)
    case Look(i, me) => DoLook(s, i, me)
    case Stamp(i) => DoStamp(s, i)
    case Push(i, to) => DoPush(s, i, to)
    case Sweep(c, now) => DoSweep(s, c, now)
    case TakeDead(i) => DoTakeDead(s, i)
  }

  /** `register_idle_cpu` on every CPU: CPU 0 runs the boot task and keeps an idle task aside, every other
      CPU is running its idle task. */
  ghost predicate Init(s: State) {
    && 0 < |s.cpus|
    && s.hands == [] && s.lock.Unlocked? && s.reap == [] && s.released == [] && s.reports == 0
    && s.nextId == |s.cpus| + 1
    && (forall t: TaskId :: t in s.tasks <==> t <= |s.cpus|)
    && s.tasks[|s.cpus|] == Task(Running, Some(0), OnCpu, false)
    && s.tasks[0] == Task(Ready, Some(0), Nowhere, true)
    && (forall c :: 0 < c < |s.cpus| ==> s.tasks[c] == Task(Running, Some(c), OnCpu, true))
    && (forall c :: 0 <= c < |s.cpus| ==>
          s.cpus[c] == Cpu(if c == 0 then |s.cpus| else c, c, Executing, [], [], []))
  }
}
