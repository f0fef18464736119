/**
What a race is, in terms of the steps of a run, and two runs from boot.

A decision is the stretch from storing Ready to looking at the task's CPU word. It races exactly when a CPU
gives the same task up before the look, had not looked at the task's state before Ready was stored, and no
CPU has started the task again before the look.
*/
module SchedulerRaces {
  import opened Wrappers
  import opened Scheduler
  import opened SchedulerSafety

  /** Step `e` stores Ready in `t`, with the table lock held. */
  predicate Marks(s: State, e: Step, t: TaskId)
    requires Enabled(s, e)
  {
    match e
    case WakeMark(u) => u == t
    case TickMark(c) => s.cpus[c].expired[0] == t && t in s.tasks && s.tasks[t].state.Sleeping?
    case _ => false
  }

  /** Step `i` stores Ready in `t`, and step `j` is the look at the CPU word that goes with it. */
  ghost predicate Decision(run: seq<State>, steps: seq<Step>, i: nat, j: nat, t: TaskId)
    requires IsRun(run, steps)
  {
    i < j < |steps| && Marks(run[i], steps[i], t) && steps[j].Settle? && forall k :: i < k < j ==> !steps[k].Settle?
  }

  /** Step `r` is CPU `c` giving up `t`. */
  ghost predicate Leaves(run: seq<State>, steps: seq<Step>, r: nat, c: nat, t: TaskId)
    requires IsRun(run, steps)
  {
    r < |steps| && steps[r] == Release(c) && c < |run[r].cpus| && run[r].cpus[c].phase == Unplaced(t)
  }

  /** Step `k` is a CPU starting `t`. */
  ghost predicate Starts(run: seq<State>, steps: seq<Step>, k: nat, t: TaskId)
    requires IsRun(run, steps)
  {
    k < |steps| && steps[k].Start? && run[k].cpus[steps[k].c].phase == Chosen(t)
  }

  /** CPU `c` gives `t` up at step `r`, before the look at `j`; it does not look at the task's state between that and the
      mark at `i`; nobody starts the task between that and the look. */
  ghost predicate Overlap(run: seq<State>, steps: seq<Step>, i: nat, j: nat, t: TaskId, r: nat, c: nat)
    requires IsRun(run, steps)
  {
    && r < j && j < |steps| && Leaves(run, steps, r, c, t)
    && (forall k :: r < k < i && k < j ==> steps[k] != Test(c))
    && (forall k :: r < k < j ==> !Starts(run, steps, k, t))
  }

  // ---------------------------------------------------------------- one step

  lemma LockStays(s: State, e: Step)
    requires Enabled(s, e) && s.lock.Deciding? && !e.Settle?
    ensures Next(s, e).lock == s.lock
  {}

  lemma MarkLocks(s: State, e: Step, t: TaskId)
    requires Enabled(s, e) && Marks(s, e, t)
    ensures t in s.tasks && Next(s, e).lock.Deciding?
    ensures Next(s, e).lock.task == t && Next(s, e).lock.claimed == Claimed(s, t)
  {
    if e.TickMark? { NameDropped(s, e.c); }
  }

  /** A task's CPU word is cleared by the CPU that gives it up, and set by the CPU that starts it, and by nothing else. */
  lemma CpuWord(s: State, e: Step, t: TaskId)
    requires Inv(s) && Enabled(s, e) && t in s.tasks && t in Next(s, e).tasks
    ensures var was, now := s.tasks[t].cpu, Next(s, e).tasks[t].cpu;
            if e.Release? && s.cpus[e.c].phase == Unplaced(t) then now.None?
            else if e.Start? && s.cpus[e.c].phase == Chosen(t) then now.Some?
            else now == was
  {
    hide SleepersOk, LockOk, TasksOk, QueuesOk, HandsOk, CpusOk;
    if e.Start? {
      StartClaims(s, e.c);
    } else if e.Spawn? {
      var w :| InvAt(s, w);
      assert t < s.nextId;
    }
  }

  lemma StartClaims(s: State, c: nat)
    requires Inv(s) && Enabled(s, Start(c))
    ensures s.cpus[c].phase.task != s.cpus[c].current
  {
    hide SleepersOk, LockOk, ReapOk, QueuesOk, HandsOk;
    var w :| InvAt(s, w);
    OwnFactsHold(s, w, c);
    hide TasksOk, CpusOk, OwnFacts;
    StartTasks(s, c, w);
  }

  lemma WindowWord(s: State, e: Step, c: nat, t: TaskId)
    requires Enabled(s, e) && c < |s.cpus|
    ensures |Next(s, e).cpus| == |s.cpus|
    ensures Next(s, e).cpus[c].phase == Released(t) <==>
              (e == Release(c) && s.cpus[c].phase == Unplaced(t)) || (e != Test(c) && s.cpus[c].phase == Released(t))
  {}

  /** What the invariant says of a task a CPU has in its hands. */
  lemma PendingTask(s: State, c: nat, t: TaskId)
    requires Inv(s) && c < |s.cpus| && Held(s.cpus[c].phase) == Some(t)
    ensures t in s.tasks && (s.cpus[c].phase.Released? ==> s.tasks[t].cpu.None?)
    ensures s.lock.Deciding? && s.lock.task == t ==> s.lock.claimed
    ensures forall d :: 0 <= d < |s.cpus| && Held(s.cpus[d].phase) == Some(t) ==> d == c
  {
    hide SleepersOk, ReapOk, QueuesOk, HandsOk;
    var w :| InvAt(s, w);
    OwnFactsHold(s, w, c);
    forall d | 0 <= d < |s.cpus| && Held(s.cpus[d].phase) == Some(t) ensures d == c { assert CpuOk(s, w, d); }
  }

  lemma DecidedTask(s: State)
    requires Inv(s) && s.lock.Deciding?
    ensures s.lock.task in s.tasks
  {}

  // ---------------------------------------------------------------- a stretch of a run

  ghost predicate NoRaceBefore(run: seq<State>, steps: seq<Step>, j: nat)
    requires IsRun(run, steps)
  {
    forall k :: 0 <= k < j && k < |steps| ==> !Races(run[k], steps[k])
  }

  lemma At(run: seq<State>, steps: seq<Step>, k: nat)
    requires IsRun(run, steps) && k < |steps|
    ensures |run| == |steps| + 1 && Enabled(run[k], steps[k]) && run[k + 1] == Next(run[k], steps[k])
  {}

  lemma Span(run: seq<State>, steps: seq<Step>, i: nat, j: nat, t: TaskId)
    requires IsRun(run, steps) && Decision(run, steps, i, j, t)
    ensures i < j < |steps| && |run| == |steps| + 1 && steps[j] == Settle && !steps[i].Release?
  {}

  lemma {:induction false} Locked(run: seq<State>, steps: seq<Step>, i: nat, j: nat, t: TaskId, k: nat)
    requires IsRun(run, steps) && Decision(run, steps, i, j, t) && i < k <= j
    ensures t in run[i].tasks && run[k].lock.Deciding? && run[k].lock.task == t
    ensures run[k].lock.claimed == Claimed(run[i], t)
  {
    hide Next, Enabled, Init, Claimed;
    if k == i + 1 {
      MarkLocks(run[i], steps[i], t);
    } else {
      Locked(run, steps, i, j, t, k - 1);
      LockStays(run[k - 1], steps[k - 1]);
    }
  }

  lemma Sound(run: seq<State>, steps: seq<Step>, j: nat, k: nat)
    requires IsRun(run, steps) && NoRaceBefore(run, steps, j) && k <= j && k <= |steps|
    ensures Inv(run[k])
  {
    hide Next, Enabled, Init, Inv, Races;
    RunInv(run, steps, k);
  }

  lemma InTable(run: seq<State>, steps: seq<Step>, i: nat, j: nat, t: TaskId, k: nat)
    requires IsRun(run, steps) && Decision(run, steps, i, j, t) && NoRaceBefore(run, steps, j) && i <= k <= j
    ensures Inv(run[k]) && t in run[k].tasks
  {
    hide Next, Enabled, Init, Claimed, Inv, Races;
    Sound(run, steps, j, k);
    Locked(run, steps, i, j, t, if k == i then i + 1 else k);
    if i < k { DecidedTask(run[k]); }
  }

  /** A CPU word that is empty at `m` and that no start fills is empty at the look. */
  lemma {:induction false} StaysEmpty(run: seq<State>, steps: seq<Step>, i: nat, j: nat, t: TaskId, m: nat, k: nat)
    requires IsRun(run, steps) && Decision(run, steps, i, j, t) && NoRaceBefore(run, steps, j) && i <= m <= k <= j
    requires t in run[m].tasks && run[m].tasks[t].cpu.None?
    requires forall l :: m <= l < j ==> !Starts(run, steps, l, t)
    ensures t in run[k].tasks && run[k].tasks[t].cpu.None?
  {
    hide Next, Enabled, Inv, IsRun, Decision, NoRaceBefore, Init, Races;
    Span(run, steps, i, j, t);
    InTable(run, steps, i, j, t, k);
    if m < k {
      At(run, steps, k - 1);
      StaysEmpty(run, steps, i, j, t, m, k - 1);
      InTable(run, steps, i, j, t, k - 1);
      CpuWord(run[k - 1], steps[k - 1], t);
      assert !Starts(run, steps, k - 1, t);
    }
  }

  /** From a look that finds the CPU word empty, back to where it was last set. */
  lemma {:induction false} LastSet(run: seq<State>, steps: seq<Step>, i: nat, j: nat, t: TaskId, m: nat) returns (n: nat)
    requires IsRun(run, steps) && Decision(run, steps, i, j, t) && NoRaceBefore(run, steps, j) && i <= m <= j
    requires forall k :: m <= k <= j ==> t in run[k].tasks && run[k].tasks[t].cpu.None?
    ensures i <= n <= m && forall k :: n <= k <= j ==> t in run[k].tasks && run[k].tasks[t].cpu.None?
    ensures n > i ==> t in run[n - 1].tasks && run[n - 1].tasks[t].cpu.Some?
    decreases m
  {
    hide Next, Enabled, Inv, IsRun, Decision, NoRaceBefore, Init, Races;
    Span(run, steps, i, j, t);
    n := m;
    if m > i {
      InTable(run, steps, i, j, t, m - 1);
      if run[m - 1].tasks[t].cpu.None? { n := LastSet(run, steps, i, j, t, m - 1); }
    }
  }

  /** A CPU that has given `t` up and not looked at it yet, back to where it gave it up. */
  lemma {:induction false} WindowOpened(run: seq<State>, steps: seq<Step>, i: nat, c: nat, t: TaskId) returns (r: nat)
    requires IsRun(run, steps) && i < |run| && c < |run[i].cpus| && run[i].cpus[c].phase == Released(t)
    ensures r < i && Leaves(run, steps, r, c, t)
    ensures forall k :: r < k <= i ==> c < |run[k].cpus| && run[k].cpus[c].phase == Released(t)
    decreases i
  {
    hide Next, Enabled;
    var e := steps[i - 1];
    assert run[i] == Next(run[i - 1], e);
    SameCpus(run[i - 1], e);
    WindowWord(run[i - 1], e, c, t);
    if run[i - 1].cpus[c].phase == Released(t) {
      r := WindowOpened(run, steps, i - 1, c, t);
    } else {
      r := i - 1;
    }
  }

  lemma SameCpus(s: State, e: Step)
    requires Enabled(s, e)
    ensures |Next(s, e).cpus| == |s.cpus|
  {}

  lemma {:induction false} WindowOpen(run: seq<State>, steps: seq<Step>, r: nat, c: nat, t: TaskId, k: nat)
    requires IsRun(run, steps) && Leaves(run, steps, r, c, t) && r < k <= |steps|
    requires forall l :: r < l < k ==> steps[l] != Test(c)
    ensures c < |run[k].cpus| && run[k].cpus[c].phase == Released(t)
    decreases k
  {
    hide Next, Enabled, Init;
    var e := steps[k - 1];
    assert run[k] == Next(run[k - 1], e);
    if k > r + 1 { WindowOpen(run, steps, r, c, t, k - 1); }
    WindowWord(run[k - 1], e, c, t);
  }

  // ---------------------------------------------------------------- the two directions

  lemma OverlapRaces(run: seq<State>, steps: seq<Step>, i: nat, j: nat, t: TaskId, r: nat, c: nat)
    requires IsRun(run, steps) && Decision(run, steps, i, j, t) && NoRaceBefore(run, steps, j)
    requires Overlap(run, steps, i, j, t, r, c)
    ensures Races(run[j], steps[j])
  {
    hide Next, Inv, IsRun, Decision, NoRaceBefore, Init, Starts;
    Span(run, steps, i, j, t);
    At(run, steps, r);
    At(run, steps, j);
    Locked(run, steps, i, j, t, j);
    if r < i {
      WindowOpen(run, steps, r, c, t, i);
      InTable(run, steps, i, j, t, i);
      PendingTask(run[i], c, t);
      StaysEmpty(run, steps, i, j, t, i, j);
    } else {
      assert r != i;
      InTable(run, steps, i, j, t, r);
      PendingTask(run[r], c, t);
      Locked(run, steps, i, j, t, r);
      InTable(run, steps, i, j, t, r + 1);
      CpuWord(run[r], steps[r], t);
      StaysEmpty(run, steps, i, j, t, r + 1, j);
    }
  }

  /** While the CPU word stays empty nobody starts the task. */
  lemma NotStarted(run: seq<State>, steps: seq<Step>, j: nat, t: TaskId, n: nat, k: nat)
    requires IsRun(run, steps) && NoRaceBefore(run, steps, j) && n <= k < j < |steps|
    requires forall l :: n <= l <= j ==> t in run[l].tasks && run[l].tasks[t].cpu.None?
    ensures !Starts(run, steps, k, t)
  {
    hide Next, Enabled, Init, Inv, Races, IsRun, NoRaceBefore;
    At(run, steps, k);
    Sound(run, steps, j, k);
    CpuWord(run[k], steps[k], t);
  }

  /** The task was on a CPU at some point of the decision: the last CPU to give it up did so within. */
  lemma LeftWithin(run: seq<State>, steps: seq<Step>, i: nat, j: nat, t: TaskId, n: nat) returns (c: nat)
    requires IsRun(run, steps) && Decision(run, steps, i, j, t) && NoRaceBefore(run, steps, j) && i < n <= j
    requires forall k :: n <= k <= j ==> t in run[k].tasks && run[k].tasks[t].cpu.None?
    requires t in run[n - 1].tasks && run[n - 1].tasks[t].cpu.Some?
    ensures Overlap(run, steps, i, j, t, n - 1, c)
  {
    hide Next, Enabled, Inv, IsRun, Decision, NoRaceBefore, Init, Races;
    Span(run, steps, i, j, t);
    InTable(run, steps, i, j, t, n - 1);
    At(run, steps, n - 1);
    CpuWord(run[n - 1], steps[n - 1], t);
    c := steps[n - 1].c;
    forall k | n <= k < j ensures !Starts(run, steps, k, t) { NotStarted(run, steps, j, t, n, k); }
  }

  /** While a CPU has given the task up and not looked at it, nobody starts it. */
  lemma WindowKept(run: seq<State>, steps: seq<Step>, i: nat, c: nat, t: TaskId, k: nat)
    requires IsRun(run, steps) && NoRaceBefore(run, steps, i) && k < i <= |steps|
    requires forall l :: k <= l <= i ==> c < |run[l].cpus| && run[l].cpus[c].phase == Released(t)
    ensures steps[k] != Test(c) && !Starts(run, steps, k, t)
  {
    hide Next, Enabled, Inv, IsRun, NoRaceBefore, Init, Races;
    At(run, steps, k);
    Sound(run, steps, i, k);
    assert c < |run[k].cpus|;
    assert run[k + 1].cpus[c].phase == Released(t);
    WindowWord(run[k], steps[k], c, t);
    PendingTask(run[k], c, t);
  }

  /** The task was on no CPU throughout the decision: a CPU gave it up before and had not looked. */
  lemma LeftBefore(run: seq<State>, steps: seq<Step>, i: nat, j: nat, t: TaskId, c: nat) returns (r: nat)
    requires IsRun(run, steps) && Decision(run, steps, i, j, t) && NoRaceBefore(run, steps, j)
    requires forall k :: i <= k <= j ==> t in run[k].tasks && run[k].tasks[t].cpu.None?
    requires c < |run[i].cpus| && run[i].cpus[c].phase == Released(t)
    ensures Overlap(run, steps, i, j, t, r, c)
  {
    hide Next, Enabled, Inv, IsRun, Init, Races, Decision;
    Span(run, steps, i, j, t);
    r := WindowOpened(run, steps, i, c, t);
    forall k | r < k < i ensures steps[k] != Test(c) && !Starts(run, steps, k, t) { WindowKept(run, steps, i, c, t, k); }
    forall k | i <= k < j ensures !Starts(run, steps, k, t) { NotStarted(run, steps, j, t, i, k); }
  }

  lemma RaceOverlaps(run: seq<State>, steps: seq<Step>, i: nat, j: nat, t: TaskId) returns (r: nat, c: nat)
    requires IsRun(run, steps) && Decision(run, steps, i, j, t) && NoRaceBefore(run, steps, j)
    requires Races(run[j], steps[j])
    ensures Overlap(run, steps, i, j, t, r, c)
  {
    hide Next, Inv, IsRun, Init, Decision, NoRaceBefore;
    Span(run, steps, i, j, t);
    Locked(run, steps, i, j, t, j);
    InTable(run, steps, i, j, t, j);
    At(run, steps, j);
    var n := LastSet(run, steps, i, j, t, j);
    if n > i {
      r := n - 1;
      c := LeftWithin(run, steps, i, j, t, n);
    } else {
      c :| 0 <= c < |run[i].cpus| && run[i].cpus[c].phase == Released(t);
      r := LeftBefore(run, steps, i, j, t, c);
    }
  }

  /** In a run that has not raced yet, the decision that marks `t` at step `i` and looks at step `j` races exactly when
      it overlaps a CPU leaving `t`. */
  lemma RaceIsOverlap(run: seq<State>, steps: seq<Step>, i: nat, j: nat, t: TaskId)
    requires IsRun(run, steps) && Decision(run, steps, i, j, t) && NoRaceBefore(run, steps, j)
    ensures Races(run[j], steps[j]) <==> exists r, c :: Overlap(run, steps, i, j, t, r, c)
  {
    hide Next, Enabled, Init, Races;
    if Races(run[j], steps[j]) { var r, c := RaceOverlaps(run, steps, i, j, t); }
    if r, c :| Overlap(run, steps, i, j, t, r, c) { OverlapRaces(run, steps, i, j, t, r, c); }
  }
}
