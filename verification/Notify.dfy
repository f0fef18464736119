/**
Notifications: a saturating counter of signals and a line of tasks waiting for one.

`Notify` is the object the kernel mutates. `World` puts it together with the tasks: a signaller counts its signals
before it takes the lock, records them and picks the waiters under it, and wakes them after letting it go; a woken
task looks again in a turn of its own, and a task that has taken signals counts them after the lock.
*/
module Notify {
  import opened Wrappers

  const U32_MAX: nat := 0xFFFF_FFFF

  datatype Mode = One | Poll | All

  /** `waiting` is the mode of the `wait` a task is inside. */
  datatype Task = Task(blocked: bool, waiting: Option<Mode>)

  // ---------------------------------------------------------------- the locked sections

  predicate Blocked(tasks: map<TaskId, Task>, t: TaskId) { t in tasks && tasks[t].blocked }

  /** Who is left in line once `n` blocked waiters have been picked. */
  function Rest(waiters: seq<TaskId>, tasks: map<TaskId, Task>, n: nat): seq<TaskId> {
    if n == 0 || waiters == [] then waiters
    else Rest(waiters[1..], tasks, if Blocked(tasks, waiters[0]) then n - 1 else n)
  }

  /** The waiters picked, in line order; one that is gone or no longer blocked is passed over. */
  function Picked(waiters: seq<TaskId>, tasks: map<TaskId, Task>, n: nat): seq<TaskId> {
    if n == 0 || waiters == [] then []
    else if Blocked(tasks, waiters[0]) then [waiters[0]] + Picked(waiters[1..], tasks, n - 1)
    else Picked(waiters[1..], tasks, n)
  }

  /** What the notification's lock protects, and the tasks. */
  datatype Line = Line(pending: nat, waiters: seq<TaskId>, saturated: nat, tasks: map<TaskId, Task>)

  function AtLeastOne(count: nat): nat { if count == 0 then 1 else count }

  /** The locked section of `signal`. */
  function Recorded(l: Line, n: nat): Line {
    l.(pending := Min(U32_MAX, l.pending + n), saturated := l.saturated + (l.pending + n - Min(U32_MAX, l.pending + n)),
    waiters := Rest(l.waiters, l.tasks, n))
  }

  /** What a turn of the `wait` loop takes. */
  function Takes(l: Line, mode: Mode): nat { if l.pending == 0 then 0 else if mode.All? then l.pending else 1 }

  predicate Sleeps(l: Line, mode: Mode) { l.pending == 0 && !mode.Poll? }

  /** The locked section of one turn of the `wait` loop: signals taken, nothing to take, or registered and blocked. */
  function Turned(l: Line, t: TaskId, mode: Mode): Line {
    if Sleeps(l, mode) then l.(waiters := l.waiters + [t], tasks := l.tasks[t := Task(true, Some(mode))])
    else l.(pending := l.pending - Takes(l, mode), tasks := l.tasks[t := Task(false, None)])
  }

  class Notify {
    var pending: nat
    var waiters: seq<TaskId>
    var signals: nat
    var waits: nat
    var saturated: nat

    ghost function Now(table: Tasks<Task>): Line
      reads this, table
    { Line(pending, waiters, saturated, table.tasks) }

    constructor ()
      ensures pending == 0 && waiters == [] && signals == 0 && waits == 0 && saturated == 0
    {
      pending, waiters, signals, waits, saturated := 0, [], 0, 0, 0;
    }

    /** `signal` up to the point where it has let the lock go: who is to be woken. */
    method Signal(table: Tasks<Task>, count: nat) returns (wake: seq<TaskId>)
      requires pending <= U32_MAX && count <= U32_MAX
      modifies this
      ensures signals == old(signals) + AtLeastOne(count) && waits == old(waits) && pending <= U32_MAX
      ensures Now(table) == Recorded(old(Now(table)), AtLeastOne(count))
      ensures wake == Picked(old(waiters), table.tasks, AtLeastOne(count))
      ensures signals == old(signals) + Max(count, 1) && pending == Min(0xFFFF_FFFF, old(pending) + Max(count, 1))
      ensures pending + saturated == old(pending) + old(saturated) + Max(count, 1)
    {
      var n := AtLeastOne(count);
      signals := signals + n;
      var room := U32_MAX - pending;
      if n > room {
        saturated := saturated + (n - room);
      }
      pending := Min(U32_MAX, pending + n);
      wake := [];
      while |wake| < n && waiters != []
        invariant |wake| <= n
        invariant Rest(waiters, table.tasks, n - |wake|) == Rest(old(waiters), table.tasks, n)
        invariant wake + Picked(waiters, table.tasks, n - |wake|) == Picked(old(waiters), table.tasks, n)
        invariant Now(table) == Recorded(old(Now(table)), n).(waiters := waiters)
        invariant signals == old(signals) + n && waits == old(waits)
        decreases |waiters|
      {
        var id := waiters[0];
        waiters := waiters[1..];
        if id in table.tasks && table.tasks[id].blocked {
          assert wake + ([id] + Picked(waiters, table.tasks, n - |wake| - 1)) == wake + [id] + Picked(waiters, table.tasks, n - |wake| - 1);
          wake := wake + [id];
        }
      }
    }

    /** One turn of the `wait` loop, out of which the task either returns or goes to sleep; what it took is counted once
        the lock has gone. */
    method Turn(table: Tasks<Task>, me: TaskId, mode: Mode) returns (taken: Option<nat>, asleep: bool)
      requires me in table.tasks
      modifies this, table
      ensures Now(table) == Turned(old(Now(table)), me, mode) && asleep == Sleeps(old(Now(table)), mode)
      ensures taken == if old(pending) > 0 then Some(Takes(old(Now(table)), mode)) else None
      ensures waits == old(waits) + Takes(old(Now(table)), mode) && signals == old(signals)
      ensures old(pending) > 0 ==> !asleep && taken == Some(if mode == All then old(pending) else 1)
      ensures old(pending) == 0 ==> taken == None && (asleep <==> mode != Poll)
      ensures pending + (if taken.Some? then taken.value else 0) == old(pending) && saturated == old(saturated)
      ensures waiters == old(waiters) + (if asleep then [me] else []) && me in table.tasks && table.tasks[me].blocked == asleep
      ensures table.tasks.Keys == old(table.tasks).Keys && forall u :: u in table.tasks && u != me ==> table.tasks[u] == old(table.tasks)[u]
    {
      if pending > 0 {
        table.tasks := table.tasks[me := Task(false, None)];
        var n := if mode.All? then pending else 1;
        pending := pending - n;
        waits := waits + n;
        return Some(n), false;
      }
      if mode.Poll? {
        table.tasks := table.tasks[me := Task(false, None)];
        return None, false;
      }
      waiters := waiters + [me];
      table.tasks := table.tasks[me := Task(true, Some(mode))];
      return None, true;
    }
  }

  // ---------------------------------------------------------------- together with the tasks

  datatype Take = Take(task: TaskId, n: nat)

  /** `announced`: counted in `signals`, not recorded yet. `taken`: taken by a wait, not counted in `waits` yet.
      `wakes`: picked, not woken yet. `woken`: picked and has not looked again yet. */
  datatype World = World(
    line: Line, signals: nat, waits: nat, announced: seq<nat>, taken: seq<Take>,
    nextId: TaskId, wakes: seq<TaskId>, woken: set<TaskId>)

  datatype Step =
    | NewTask
    | Exit(t: TaskId)
    | Kill(t: TaskId)              // a task that dies while it waits in line
    | Announce(count: nat)
    | Record(i: nat)
    | Wake(i: nat)
    | Wait(t: TaskId, mode: Mode)
    | Look(t: TaskId)              // a woken task goes round the loop again
    | Count(i: nat)

  /** In no call: not waiting, and done counting what it took. */
  predicate Free(w: World, t: TaskId) {
    && t in w.line.tasks && !w.line.tasks[t].blocked && w.line.tasks[t].waiting.None?
    && forall i :: 0 <= i < |w.taken| ==> w.taken[i].task != t
  }

  predicate Enabled(w: World, s: Step) {
    match s
    case NewTask => true
    case Exit(t) => Free(w, t)
    case Kill(t) => t in w.line.waiters && t in w.line.tasks
    case Announce(count) => count <= U32_MAX
    case Record(i) => i < |w.announced|
    case Wake(i) => i < |w.wakes|
    case Wait(t, _) => Free(w, t)
    case Look(t) => t in w.line.tasks && !w.line.tasks[t].blocked && w.line.tasks[t].waiting.Some?
    case Count(i) => i < |w.taken|
  }

  function SetOf(l: seq<TaskId>): set<TaskId> { set i | 0 <= i < |l| :: l[i] }

  function Dropped<T>(l: seq<T>, i: nat): seq<T>
    requires i < |l|
  { l[..i] + l[i + 1..] }

  function DoRecord(w: World, i: nat): World
    requires i < |w.announced|
  {
    var picked := Picked(w.line.waiters, w.line.tasks, w.announced[i]);
    w.(line := Recorded(w.line, w.announced[i]), announced := Dropped(w.announced, i),
    wakes := w.wakes + picked, woken := w.woken + SetOf(picked))
  }

  function DoTurn(w: World, t: TaskId, mode: Mode): World {
    w.(line := Turned(w.line, t, mode), woken := w.woken - {t},
    taken := if w.line.pending > 0 then w.taken + [Take(t, Takes(w.line, mode))] else w.taken)
  }

  function DoWake(w: World, i: nat): World
    requires i < |w.wakes|
  {
    var t, tasks := w.wakes[i], w.line.tasks;
    w.(wakes := Dropped(w.wakes, i),
    line := w.line.(tasks := if Blocked(tasks, t) then tasks[t := tasks[t].(blocked := false)] else tasks))
  }

  function Next(w: World, s: Step): World
    requires Enabled(w, s)
  {
    match s
    case NewTask => w.(line := w.line.(tasks := w.line.tasks[w.nextId := Task(false, None)]), nextId := w.nextId + 1)
    case Exit(t) => w.(line := w.line.(tasks := w.line.tasks - {t}))
    case Kill(t) => w.(line := w.line.(tasks := w.line.tasks - {t}))
    case Announce(count) => w.(signals := w.signals + AtLeastOne(count), announced := w.announced + [AtLeastOne(count)])
    case Record(i) => DoRecord(w, i)
    case Wake(i) => DoWake(w, i)
    case Wait(t, mode) => DoTurn(w, t, mode)
    case Look(t) => DoTurn(w, t, w.line.tasks[t].waiting.value)
    case Count(i) => w.(waits := w.waits + w.taken[i].n, taken := Dropped(w.taken, i))
  }

  // ---------------------------------------------------------------- what every run keeps

  ghost predicate Distinct(l: seq<TaskId>) { forall i, j :: 0 <= i < j < |l| ==> l[i] != l[j] }

  predicate TaskOk(w: World, t: TaskId)
    requires t in w.line.tasks
  {
    var x := w.line.tasks[t];
    && t < w.nextId
    && (t in w.line.waiters ==> x.waiting.Some? && x.blocked && t !in w.wakes && t !in w.woken)
    && (t in w.wakes ==> x.waiting.Some? && x.blocked && t in w.woken)
    && (x.blocked ==> t in w.line.waiters || t in w.wakes)
    && (x.waiting.Some? && t !in w.line.waiters <==> t in w.woken)
  }

  ghost predicate LinesOk(w: World) {
    && Distinct(w.line.waiters) && Distinct(w.wakes)
    && (forall t :: t in w.line.waiters ==> t < w.nextId)
    && (forall t :: t in w.wakes ==> t in w.line.tasks)
    && (forall t :: t in w.woken ==> t in w.line.tasks)
  }

  /** While anybody is in line, every pending signal has a task on its way to take it. */
  predicate NoneStranded(w: World) { w.line.waiters != [] ==> w.line.pending <= |w.woken| }

  function Sum(l: seq<nat>): nat { if l == [] then 0 else Sum(l[..|l| - 1]) + l[|l| - 1] }

  function SumTaken(l: seq<Take>): nat { if l == [] then 0 else SumTaken(l[..|l| - 1]) + l[|l| - 1].n }

  predicate Counted(w: World) {
    && w.line.pending <= U32_MAX
    && w.signals == Sum(w.announced) + w.line.pending + w.line.saturated + SumTaken(w.taken) + w.waits
  }

  ghost predicate TasksOk(w: World) { forall t :: t in w.line.tasks ==> TaskOk(w, t) }

  ghost predicate Inv(w: World) { LinesOk(w) && TasksOk(w) && NoneStranded(w) && Counted(w) }

  // ---------------------------------------------------------------- picking waiters

  lemma {:induction false} PickSplits(l: seq<TaskId>, tasks: map<TaskId, Task>, n: nat, t: TaskId)
    requires Distinct(l)
    ensures t in Picked(l, tasks, n) ==> t in l && Blocked(tasks, t) && t !in Rest(l, tasks, n)
    ensures t in Rest(l, tasks, n) ==> t in l
    ensures t in l && Blocked(tasks, t) ==> t in Picked(l, tasks, n) || t in Rest(l, tasks, n)
    ensures Distinct(Rest(l, tasks, n)) && Distinct(Picked(l, tasks, n))
  {
    if n != 0 && l != [] {
      var m := if Blocked(tasks, l[0]) then n - 1 else n;
      PickSplits(l[1..], tasks, m, t);
      PickSplits(l[1..], tasks, m, l[0]);
      assert l == [l[0]] + l[1..];
    }
  }

  lemma {:induction false} PickFills(l: seq<TaskId>, tasks: map<TaskId, Task>, n: nat)
    ensures Rest(l, tasks, n) != [] ==> |Picked(l, tasks, n)| == n
  {
    if n != 0 && l != [] { PickFills(l[1..], tasks, if Blocked(tasks, l[0]) then n - 1 else n); }
  }

  lemma {:induction false} SetOfSize(l: seq<TaskId>)
    requires Distinct(l)
    ensures |SetOf(l)| == |l|
  {
    if l != [] {
      var k := |l| - 1;
      SetOfSize(l[..k]);
      assert SetOf(l) == SetOf(l[..k]) + {l[k]};
    }
  }

  // ---------------------------------------------------------------- sums

  lemma SumAppends(l: seq<nat>, x: nat)
    ensures Sum(l + [x]) == Sum(l) + x
  {
    assert (l + [x])[..|l|] == l;
  }

  lemma {:induction false} SumDrops(l: seq<nat>, i: nat)
    requires i < |l|
    ensures Sum(Dropped(l, i)) == Sum(l) - l[i]
  {
    var k := |l| - 1;
    if i < k {
      SumDrops(l[..k], i);
      assert Dropped(l, i) == Dropped(l[..k], i) + [l[k]];
      SumAppends(Dropped(l[..k], i), l[k]);
    } else {
      assert Dropped(l, i) == l[..k];
    }
  }

  lemma SumTakenAppends(l: seq<Take>, x: Take)
    ensures SumTaken(l + [x]) == SumTaken(l) + x.n
  {
    assert (l + [x])[..|l|] == l;
  }

  lemma {:induction false} SumTakenDrops(l: seq<Take>, i: nat)
    requires i < |l|
    ensures SumTaken(Dropped(l, i)) == SumTaken(l) - l[i].n
  {
    var k := |l| - 1;
    if i < k {
      SumTakenDrops(l[..k], i);
      assert Dropped(l, i) == Dropped(l[..k], i) + [l[k]];
      SumTakenAppends(Dropped(l[..k], i), l[k]);
    } else {
      assert Dropped(l, i) == l[..k];
    }
  }

  // ---------------------------------------------------------------- each step

  lemma RecordTask(w: World, i: nat, t: TaskId)
    requires Inv(w) && t in w.line.tasks && i < |w.announced|
    ensures TaskOk(DoRecord(w, i), t)
  {
    assert TaskOk(w, t);
    PickSplits(w.line.waiters, w.line.tasks, w.announced[i], t);
  }

  /** Whoever is picked was in line and is neither being woken nor already on its way. */
  lemma PickedWaiter(w: World, k: nat, t: TaskId)
    requires Inv(w) && t in Picked(w.line.waiters, w.line.tasks, k)
    ensures t in w.line.tasks && t !in w.wakes && t !in w.woken
  {
    PickSplits(w.line.waiters, w.line.tasks, k, t);
    assert TaskOk(w, t);
  }

  lemma DistinctAppend(a: seq<TaskId>, b: seq<TaskId>)
    requires Distinct(a) && Distinct(b) && forall t :: t in b ==> t !in a
    ensures Distinct(a + b)
  {
    forall i, j | 0 <= i < j < |a + b| ensures (a + b)[i] != (a + b)[j] {
      if i < |a| <= j { assert b[j - |a|] in b; }
    }
  }

  lemma RecordLines(w: World, i: nat)
    requires Inv(w) && i < |w.announced|
    ensures LinesOk(DoRecord(w, i))
  {
    var k := w.announced[i];
    var picked, rest := Picked(w.line.waiters, w.line.tasks, k), Rest(w.line.waiters, w.line.tasks, k);
    PickSplits(w.line.waiters, w.line.tasks, k, 0);
    forall t | t in picked ensures t in w.line.tasks && t !in w.wakes { PickedWaiter(w, k, t); }
    DistinctAppend(w.wakes, picked);
    forall t | t in rest ensures t in w.line.waiters { PickSplits(w.line.waiters, w.line.tasks, k, t); }
  }

  lemma RecordStrandsNone(w: World, i: nat)
    requires Inv(w) && i < |w.announced|
    ensures NoneStranded(DoRecord(w, i))
  {
    var k := w.announced[i];
    var picked := Picked(w.line.waiters, w.line.tasks, k);
    PickSplits(w.line.waiters, w.line.tasks, k, 0);
    PickFills(w.line.waiters, w.line.tasks, k);
    SetOfSize(picked);
    forall t | t in SetOf(picked) ensures t !in w.woken { PickedWaiter(w, k, t); }
    assert w.woken !! SetOf(picked);
    if Rest(w.line.waiters, w.line.tasks, k) != [] { assert w.line.waiters != []; }
  }

  lemma KeepRecord(w: World, i: nat)
    requires Inv(w) && i < |w.announced|
    ensures Inv(DoRecord(w, i))
  {
    RecordLines(w, i);
    RecordStrandsNone(w, i);
    SumDrops(w.announced, i);
    forall t | t in w.line.tasks ensures TaskOk(DoRecord(w, i), t) { RecordTask(w, i, t); }
  }

  lemma TurnStrandsNone(w: World, t: TaskId, mode: Mode)
    requires NoneStranded(w)
    ensures NoneStranded(DoTurn(w, t, mode))
  {
    Shrinks(w.woken, t);
  }

  lemma KeepTurn(w: World, t: TaskId, mode: Mode)
    requires Inv(w) && t in w.line.tasks && !w.line.tasks[t].blocked && (w.line.tasks[t].waiting.Some? ==> t in w.woken)
    ensures Inv(DoTurn(w, t, mode))
  {
    var w' := DoTurn(w, t, mode);
    assert TaskOk(w, t);
    TurnStrandsNone(w, t, mode);
    SumTakenAppends(w.taken, Take(t, Takes(w.line, mode)));
    forall u | u in w'.line.tasks ensures TaskOk(w', u) { assert TaskOk(w, u); }
  }

  lemma Shrinks(s: set<TaskId>, t: TaskId)
    ensures |s| <= |s - {t}| + 1
  {
    if t in s { assert s == (s - {t}) + {t}; } else { assert s - {t} == s; }
  }

  lemma KeepWake(w: World, i: nat)
    requires Inv(w) && i < |w.wakes|
    ensures Inv(DoWake(w, i))
  {
    var w' := DoWake(w, i);
    var l, l' := w.wakes, w'.wakes;
    forall u | u in w.line.tasks ensures TaskOk(w', u) {
      assert TaskOk(w, u);
      if u != l[i] && u in l {
        var j :| 0 <= j < |l| && l[j] == u;
        assert l'[if j < i then j else j - 1] == u;
      }
    }
  }

  lemma KeepOthers(w: World, s: Step)
    requires Inv(w) && Enabled(w, s) && (s.NewTask? || s.Exit? || s.Kill? || s.Announce? || s.Count?)
    ensures Inv(Next(w, s))
  {
    var w' := Next(w, s);
    if s.Announce? { SumAppends(w.announced, AtLeastOne(s.count)); }
    if s.Count? { SumTakenDrops(w.taken, s.i); }
    if s.Exit? || s.Kill? { assert TaskOk(w, s.t); }
    forall u | u in w'.line.tasks ensures TaskOk(w', u) {
      assert u in w.line.tasks ==> TaskOk(w, u);
    }
  }

  lemma StepKeeps(w: World, s: Step)
    requires Inv(w) && Enabled(w, s)
    ensures Inv(Next(w, s))
  {
    match s
    case Record(i) => KeepRecord(w, i);
    case Wake(i) => KeepWake(w, i);
    case Wait(t, mode) => assert TaskOk(w, t); KeepTurn(w, t, mode);
    case Look(t) => assert TaskOk(w, t); KeepTurn(w, t, w.line.tasks[t].waiting.value);
    case _ => KeepOthers(w, s);
  }

  // ---------------------------------------------------------------- runs

  ghost predicate IsRun(run: seq<World>, steps: seq<Step>) {
    && |run| == |steps| + 1
    && run[0] == World(Line(0, [], 0, map[]), 0, 0, [], [], 0, [], {})
    && forall i {:trigger steps[i]} :: 0 <= i < |steps| ==> Enabled(run[i], steps[i]) && run[i + 1] == Next(run[i], steps[i])
  }

  lemma {:induction false} RunKeeps(run: seq<World>, steps: seq<Step>, n: nat)
    requires IsRun(run, steps) && n < |run|
    ensures Inv(run[n])
  {
    if n > 0 {
      RunKeeps(run, steps, n - 1);
      StepKeeps(run[n - 1], steps[n - 1]);
    }
  }

  /** No wake-up is lost: while a task is in line, pending signals are outnumbered by woken tasks that have yet to
      look; so once everybody woken has looked, whoever is still in line is there because nothing is pending. */
  lemma NoLostWakeup(run: seq<World>, steps: seq<Step>, n: nat)
    requires IsRun(run, steps) && n < |run|
    ensures var l := run[n].line;
            && (l.waiters != [] ==> l.pending <= |run[n].woken|)
            && (l.waiters != [] && run[n].woken == {} ==> l.pending == 0)
            && (forall t :: t in l.tasks && l.tasks[t].blocked ==> t in l.waiters || t in run[n].wakes)
            && (forall t :: t in run[n].woken ==> t in l.tasks && (!l.tasks[t].blocked || t in run[n].wakes))
  {
    hide Next, Enabled;
    RunKeeps(run, steps, n);
    forall t | t in run[n].line.tasks ensures TaskOk(run[n], t) {}
  }

  /** Every signal counted is on its way to the lock, pending, folded into a full counter, taken and not counted yet, or
      counted as taken; with no call under way the three counters and what is pending add up. */
  lemma SignalsConserved(run: seq<World>, steps: seq<Step>, n: nat)
    requires IsRun(run, steps) && n < |run|
    ensures var w := run[n];
            && w.signals == Sum(w.announced) + w.line.pending + w.line.saturated + SumTaken(w.taken) + w.waits
            && w.line.pending <= U32_MAX
            && (w.announced == [] && w.taken == [] ==> w.signals == w.line.pending + w.line.saturated + w.waits)
  {
    hide Next, Enabled;
    RunKeeps(run, steps, n);
  }

  // ---------------------------------------------------------------- what the calls promise

  /** Picking goes down the line: whoever is picked was blocked in line, nobody before the last one picked who is blocked is
      passed over, and it stops only when as many are picked as there are signals or the line is at its end. */
  lemma {:induction false} PicksInOrder(l: seq<TaskId>, tasks: map<TaskId, Task>, n: nat) returns (k: nat)
    ensures k <= |l| && Rest(l, tasks, n) == l[k..] && |Picked(l, tasks, n)| <= n
    ensures |Picked(l, tasks, n)| == n || k == |l|
    ensures forall t :: t in Picked(l, tasks, n) <==> exists i :: 0 <= i < k && l[i] == t && Blocked(tasks, t)
  {
    if n == 0 || l == [] {
      k := 0;
    } else {
      k := PicksInOrder(l[1..], tasks, if Blocked(tasks, l[0]) then n - 1 else n);
      assert l[1..][k..] == l[k + 1..];
      forall t ensures t in Picked(l, tasks, n) <==> exists i :: 0 <= i < k + 1 && l[i] == t && Blocked(tasks, t) {
        if i :| 0 <= i < k + 1 && l[i] == t && Blocked(tasks, t) && i > 0 { assert l[1..][i - 1] == t; }
        if i :| 0 <= i < k && l[1..][i] == t && Blocked(tasks, t) { assert l[i + 1] == t; }
      }
      k := k + 1;
    }
  }

  /** A turn of `wait`, by its mode: one signal, or all there are, or with none pending no signal and, unless it only asks,
      a place at the end of the line. */
  lemma TurnByMode(run: seq<World>, steps: seq<Step>, n: nat)
    requires IsRun(run, steps) && n < |steps| && (steps[n].Wait? || steps[n].Look?)
    ensures steps[n].t in run[n].line.tasks && (steps[n].Look? ==> run[n].line.tasks[steps[n].t].waiting.Some?)
    ensures var w, w', t := run[n], run[n + 1], steps[n].t;
            var mode := if steps[n].Wait? then steps[n].mode else w.line.tasks[t].waiting.value;
            && t in w'.line.tasks
            && (w.line.pending > 0 ==>
                  && w'.taken == w.taken + [Take(t, if mode == All then w.line.pending else 1)]
                  && w'.line.pending + w'.taken[|w.taken|].n == w.line.pending && !w'.line.tasks[t].blocked && w'.line.waiters == w.line.waiters)
            && (w.line.pending == 0 ==> w'.taken == w.taken && w'.line.pending == 0)
            && (w.line.pending == 0 && mode == Poll ==> !w'.line.tasks[t].blocked && w'.line.waiters == w.line.waiters)
            && (w.line.pending == 0 && mode != Poll ==> w'.line.tasks[t].blocked && w'.line.waiters == w.line.waiters + [t])
  {
    assert run[n + 1] == Next(run[n], steps[n]);
  }

  /** A signal counts for at least one, all of it is recorded or folded into a full counter, and what is taken is counted, each once. */
  lemma SignalCounts(run: seq<World>, steps: seq<Step>, n: nat)
    requires IsRun(run, steps) && n < |steps|
    ensures steps[n].Announce? ==>
              run[n + 1].signals == run[n].signals + Max(steps[n].count, 1) && run[n + 1].announced == run[n].announced + [Max(steps[n].count, 1)]
    ensures steps[n].Record? ==>
              && run[n + 1].line.pending == Min(0xFFFF_FFFF, run[n].line.pending + run[n].announced[steps[n].i])
              && run[n + 1].line.pending + run[n + 1].line.saturated == run[n].line.pending + run[n].line.saturated + run[n].announced[steps[n].i]
              && |run[n + 1].announced| + 1 == |run[n].announced|
    ensures steps[n].Count? ==>
              run[n + 1].waits == run[n].waits + run[n].taken[steps[n].i].n && |run[n + 1].taken| + 1 == |run[n].taken|
  {
    assert run[n + 1] == Next(run[n], steps[n]);
  }

  /** A task that is in no call can wait in any mode, or end, whoever else is waiting. */
  lemma MayWait(run: seq<World>, steps: seq<Step>, n: nat, t: TaskId, mode: Mode)
    requires IsRun(run, steps) && n < |run| && t in run[n].line.tasks && run[n].line.tasks[t].waiting.None?
    requires forall i :: 0 <= i < |run[n].taken| ==> run[n].taken[i].task != t
    ensures Enabled(run[n], Wait(t, mode)) && Enabled(run[n], Exit(t))
  {
    RunKeeps(run, steps, n);
    assert TaskOk(run[n], t);
  }

  /** Whoever has been picked can go on: it is woken, or it can be, and then it looks again. */
  lemma PickedGoesOn(run: seq<World>, steps: seq<Step>, n: nat, t: TaskId)
    requires IsRun(run, steps) && n < |run| && t in run[n].woken
    ensures Enabled(run[n], Look(t)) || exists i: nat :: Enabled(run[n], Wake(i)) && run[n].wakes[i] == t && Enabled(Next(run[n], Wake(i)), Look(t))
  {
    RunKeeps(run, steps, n);
    var w := run[n];
    assert TaskOk(w, t);
    if w.line.tasks[t].blocked {
      var i: nat :| i < |w.wakes| && w.wakes[i] == t;
      assert Enabled(w, Wake(i)) && Enabled(Next(w, Wake(i)), Look(t));
    }
  }

  /** A signal reaches the first in line: it can be recorded, its wake-up sent, and the task woken comes away with one signal, or
      with all there are if that is what it waits for. */
  lemma SignalReachesFirst(run: seq<World>, steps: seq<Step>, n: nat, count: nat)
    requires IsRun(run, steps) && n < |run| && count <= U32_MAX && run[n].line.waiters != [] && run[n].line.waiters[0] in run[n].line.tasks
    ensures var w, t := run[n], run[n].line.waiters[0];
            && Enabled(w, Announce(count)) && var w1 := Next(w, Announce(count));
            && Enabled(w1, Record(|w.announced|)) && var w2 := Next(w1, Record(|w.announced|));
            && Enabled(w2, Wake(|w.wakes|)) && var w3 := Next(w2, Wake(|w.wakes|));
            && Enabled(w3, Look(t)) && var w4 := Next(w3, Look(t));
            && w.line.tasks[t].waiting.Some? && w4.announced == w.announced && t in w4.line.tasks && w4.line.tasks[t] == Task(false, None)
            && w4.taken == w.taken + [Take(t, if w.line.tasks[t].waiting.value == All then Min(0xFFFF_FFFF, w.line.pending + Max(count, 1)) else 1)]
  {
    RunKeeps(run, steps, n);
    var w, t := run[n], run[n].line.waiters[0];
    assert TaskOk(w, t);
    hide Inv, IsRun;
    var w1 := Next(w, Announce(count));
    assert Dropped(w1.announced, |w.announced|) == w.announced;
    var w2 := Next(w1, Record(|w.announced|));
    assert w2.wakes[|w.wakes|] == t;
  }
}
