/**
Runs from boot on two CPUs that break the scheduler's rules, and one that comes close.

CPU 0 has idle task 0 and starts on the boot task 2, CPU 1 runs its idle task 1. Each run is spelled out state by
state.
*/
module SchedulerRuns {
  import opened Wrappers
  import opened Scheduler
  import opened SchedulerSafety
  import opened SchedulerSleepers

  const IDLE: Task := Task(Ready, Some(0), Nowhere, true)
  const IDLING0: Task := Task(Running, Some(0), OnCpu, true)
  const IDLING1: Task := Task(Running, Some(1), OnCpu, true)
  const LEFT0: Task := Task(Ready, Some(0), OnCpu, true)
  const LEFT1: Task := Task(Ready, Some(1), OnCpu, true)
  const IDLES: Cpu := Cpu(0, 0, Executing, [], [], [])
  const REST: Cpu := Cpu(1, 1, Executing, [], [], [])

  function Two(t0: Task, t1: Task, t2: Task, c0: Cpu, c1: Cpu, hands: seq<Hand>, lock: Lock, reports: nat): State {
    State(map[0 := t0, 1 := t1, 2 := t2], [c0, c1], hands, lock, [], [], 3, reports)
  }

  predicate Goes(s: State, e: Step, s': State) { Enabled(s, e) && Next(s, e) == s' }

  predicate GoesAt(run: seq<State>, steps: seq<Step>, i: nat) {
    i < |steps| && i + 1 < |run| && Goes(run[i], steps[i], run[i + 1])
  }

  lemma Strung(run: seq<State>, steps: seq<Step>)
    requires |run| == |steps| + 1 && Init(run[0]) && forall i: nat :: i < |steps| ==> GoesAt(run, steps, i)
    ensures IsRun(run, steps)
  {
    hide Next, Enabled, Init;
    forall i | 0 <= i < |steps| ensures Enabled(run[i], steps[i]) && run[i + 1] == Next(run[i], steps[i]) {
      assert GoesAt(run, steps, i);
    }
  }

  lemma DropsHead(l: seq<Hand>)
    requires l != []
    ensures DropHand(l, 0) == l[1..]
  {}

  // ---------------------------------------------------------------- two CPUs run one task

  function Race0(): State {
    Two(IDLE, IDLING1, Task(Running, Some(0), OnCpu, false), Cpu(2, 0, Executing, [], [], []), REST, [], Unlocked, 0)
  }

  function Race1(): State {
    Two(IDLE, IDLING1, Task(Blocked, Some(0), OnCpu, false), Cpu(2, 0, Leaving, [], [], []), REST, [], Unlocked, 0)
  }

  function Race2(): State {
    Two(IDLE, IDLING1, Task(Blocked, Some(0), OnCpu, false), Cpu(2, 0, Chosen(0), [], [], []), REST, [], Unlocked, 0)
  }

  function Race3(): State {
    Two(IDLING0, IDLING1, Task(Blocked, Some(0), OnCpu, false), Cpu(0, 0, Switched(2), [], [], []), REST, [], Unlocked, 0)
  }

  function Race4(): State {
    Two(IDLING0, IDLING1, Task(Ready, Some(0), OnCpu, false),
        Cpu(0, 0, Switched(2), [], [], []), REST, [], Deciding(2, Waking(0), true), 0)
  }

  function Race5(): State {
    Two(IDLING0, IDLING1, Task(Ready, Some(0), Nowhere, false),
        Cpu(0, 0, Unplaced(2), [], [], []), REST, [], Deciding(2, Waking(0), true), 0)
  }

  function Race6(): State {
    Two(IDLING0, IDLING1, Task(Ready, None, Nowhere, false),
        Cpu(0, 0, Released(2), [], [], []), REST, [], Deciding(2, Waking(0), true), 0)
  }

  function Race7(): State {
    Two(IDLING0, IDLING1, Task(Ready, None, Nowhere, false),
        IDLES, REST, [Hand(2, Waking(2))], Deciding(2, Waking(0), true), 0)
  }

  function Race8(): State {
    Two(IDLING0, IDLING1, Task(Ready, None, Nowhere, false),
        IDLES, REST, [Hand(2, Waking(2)), Hand(2, Waking(0))], Unlocked, 0)
  }

  function Race9(): State {
    Two(IDLING0, IDLING1, Task(Ready, None, Nowhere, false),
        IDLES, REST, [Hand(2, Cleared), Hand(2, Waking(0))], Unlocked, 0)
  }

  function Race10(): State {
    Two(IDLING0, IDLING1, Task(Ready, None, Queued, false),
        IDLES, REST, [Hand(2, Stamped), Hand(2, Waking(0))], Unlocked, 0)
  }

  function Race11(): State {
    Two(IDLING0, IDLING1, Task(Ready, None, Queued, false),
        Cpu(0, 0, Executing, [2], [], []), REST, [Hand(2, Waking(0))], Unlocked, 0)
  }

  function Race12(): State {
    Two(IDLING0, IDLING1, Task(Ready, None, Queued, false),
        IDLES, Cpu(1, 1, Popped(2), [], [], []), [Hand(2, Waking(0))], Unlocked, 0)
  }

  function Race13(): State {
    Two(IDLING0, IDLING1, Task(Ready, None, Nowhere, false),
        IDLES, Cpu(1, 1, Chosen(2), [], [], []), [Hand(2, Waking(0))], Unlocked, 0)
  }

  function Race14(): State {
    Two(IDLING0, IDLING1, Task(Ready, None, Nowhere, false),
        IDLES, Cpu(1, 1, Chosen(2), [], [], []), [Hand(2, Waking(1))], Unlocked, 0)
  }

  function Race15(): State {
    Two(IDLING0, IDLING1, Task(Ready, None, Nowhere, false),
        IDLES, Cpu(1, 1, Chosen(2), [], [], []), [Hand(2, Waking(2))], Unlocked, 0)
  }

  function Race16(): State {
    Two(IDLING0, IDLING1, Task(Ready, None, Nowhere, false),
        IDLES, Cpu(1, 1, Chosen(2), [], [], []), [Hand(2, Cleared)], Unlocked, 0)
  }

  function Race17(): State {
    Two(IDLING0, IDLING1, Task(Ready, None, Queued, false),
        IDLES, Cpu(1, 1, Chosen(2), [], [], []), [Hand(2, Stamped)], Unlocked, 0)
  }

  function Race18(): State {
    Two(IDLING0, IDLING1, Task(Ready, None, Queued, false),
        Cpu(0, 0, Executing, [2], [], []), Cpu(1, 1, Chosen(2), [], [], []), [], Unlocked, 0)
  }

  function Race19(): State {
    Two(IDLING0, LEFT1, Task(Running, Some(1), Queued, false),
        Cpu(0, 0, Executing, [2], [], []), Cpu(2, 1, Switched(1), [], [], []), [], Unlocked, 1)
  }

  function Race20(): State {
    Two(IDLING0, LEFT1, Task(Running, Some(1), Queued, false),
        Cpu(0, 0, Popped(2), [], [], []), Cpu(2, 1, Switched(1), [], [], []), [], Unlocked, 1)
  }

  function Race21(): State {
    Two(IDLING0, LEFT1, Task(Running, Some(1), Nowhere, false),
        Cpu(0, 0, Chosen(2), [], [], []), Cpu(2, 1, Switched(1), [], [], []), [], Unlocked, 1)
  }

  function Race22(): State {
    Two(LEFT0, LEFT1, Task(Running, Some(0), OnCpu, false),
        Cpu(2, 0, Switched(0), [], [], []), Cpu(2, 1, Switched(1), [], [], []), [], Unlocked, 2)
  }

  lemma RaceFrom0()
    ensures Goes(Race0(), Block(0), Race1())
    ensures Goes(Race1(), Fallback(0), Race2())
    ensures Goes(Race2(), Start(0), Race3())
  {}

  lemma RaceFrom3()
    ensures Goes(Race3(), WakeMark(2), Race4())
    ensures Goes(Race4(), Unplace(0), Race5())
    ensures Goes(Race5(), Release(0), Race6())
  {}

  lemma RaceFrom6()
    ensures Goes(Race6(), Test(0), Race7())
    ensures Goes(Race7(), Settle, Race8())
    ensures Goes(Race8(), Look(0, 0), Race9())
  {}

  lemma RaceFrom9()
    ensures Goes(Race9(), Stamp(0), Race10())
  {}

  lemma RaceFrom10()
    ensures Goes(Race10(), Push(0, 0), Race11())
  {
    DropsHead(Race10().hands);
    assert Race10().cpus[0].runq + [2] == [2];
    assert Race10().hands[1..] == Race11().hands;
  }

  lemma RaceFrom11()
    ensures Goes(Race11(), Pop(1, 0), Race12())
    ensures Goes(Race12(), Unstamp(1), Race13())
    ensures Goes(Race13(), Unsleep(0), Race14())
  {
    assert [2][1..] == [];
  }

  lemma RaceFrom14()
    ensures Goes(Race14(), Unsleep(0), Race15())
    ensures Goes(Race15(), Look(0, 1), Race16())
    ensures Goes(Race16(), Stamp(0), Race17())
  {}

  lemma RaceFrom17()
    ensures Goes(Race17(), Push(0, 0), Race18())
  {
    DropsHead(Race17().hands);
    assert Race17().cpus[0].runq + [2] == [2];
    assert Race17().hands[1..] == [];
  }

  lemma RaceFrom18()
    ensures Goes(Race18(), Start(1), Race19())
    ensures Goes(Race19(), Pop(0, 0), Race20())
    ensures Goes(Race20(), Unstamp(0), Race21())
  {
    assert [2][1..] == [];
  }

  lemma RaceFrom21()
    ensures Goes(Race21(), Start(0), Race22())
  {}

  lemma Boots()
    ensures Init(Race0())
  {}

  function RaceRun(): seq<State> {
    [Race0(), Race1(), Race2(), Race3(), Race4(), Race5(), Race6(), Race7(), Race8(), Race9(), Race10(), Race11(),
     Race12(), Race13(), Race14(), Race15(), Race16(), Race17(), Race18(), Race19(), Race20(), Race21(), Race22()]
  }

  function RaceSteps(): seq<Step> {
    [Block(0), Fallback(0), Start(0), WakeMark(2), Unplace(0), Release(0), Test(0), Settle, Look(0, 0), Stamp(0),
     Push(0, 0), Pop(1, 0), Unstamp(1), Unsleep(0), Unsleep(0), Look(0, 1), Stamp(0), Push(0, 0), Start(1), Pop(0,
     0), Unstamp(0), Start(0)]
  }

  lemma RaceIsRun()
    ensures IsRun(RaceRun(), RaceSteps())
  {
    hide Next, Enabled, Init, Two;
    Boots();
    var run, steps := RaceRun(), RaceSteps();
    forall i: nat | i < |steps| ensures GoesAt(run, steps, i) { RaceGoes(i); }
    Strung(run, steps);
  }

  lemma RaceGoes(i: nat)
    requires i < |RaceSteps()|
    ensures GoesAt(RaceRun(), RaceSteps(), i)
  {
    hide Goes, Two;
    RaceFrom0(); RaceFrom3(); RaceFrom6(); RaceFrom9(); RaceFrom10(); RaceFrom11(); RaceFrom14(); RaceFrom17();
    RaceFrom18(); RaceFrom21();
  }

  /** Ready is stored at step 3, the CPU gives the task up at 5 and looks at it at 6, the decision looks at 7. */
  predicate BothRun(run: seq<State>, steps: seq<Step>) {
    && |steps| == 22 && |run| == 23
    && steps[3] == WakeMark(2) && steps[5] == Release(0) && steps[6] == Test(0) && steps[7] == Settle && run[7].reports == 0
    && |run[22].cpus| == 2 && run[22].cpus[0].current == 2 && run[22].cpus[1].current == 2 && run[22].reports == 2
  }

  lemma RaceEnds()
    ensures BothRun(RaceRun(), RaceSteps())
    ensures Enabled(Race7(), Settle) && Races(Race7(), Settle) && !NoDoubles(Race8())
  {
    assert Holds(Race8(), InHand(0), 2) && Holds(Race8(), InHand(1), 2);
  }

  /** The rule can be broken from boot. The boot task blocks and its CPU turns to its idle task. The other CPU stores
      Ready; the first gives the task up, finds it Ready and queues it; the other then finds no CPU on it and queues it
      too. Both CPUs end up running it, and the scheduler's own checks have fired twice by then. */
  lemma RaceHappens() returns (run: seq<State>, steps: seq<Step>)
    ensures IsRun(run, steps) && !RaceFree(run, steps) && BothRun(run, steps)
    ensures |run| > 8 && !OneHolder(run[8])
  {
    hide Next, Enabled, Races, Init, NoDoubles, NoDangling, NoneLost, PlacesAgree, BothRun, Two;
    run, steps := RaceRun(), RaceSteps();
    RaceIsRun();
    RaceEnds();
    assert Races(run[7], steps[7]);
  }

  // ---------------------------------------------------------------- an overlap without harm

  function Saved8(): State {
    Two(IDLING0, IDLING1, Task(Ready, None, Nowhere, false),
        IDLES, REST, [Hand(2, Cleared)], Deciding(2, Waking(0), true), 0)
  }

  function Saved9(): State {
    Two(IDLING0, IDLING1, Task(Ready, None, Queued, false),
        IDLES, REST, [Hand(2, Stamped)], Deciding(2, Waking(0), true), 0)
  }

  function Saved10(): State {
    Two(IDLING0, IDLING1, Task(Ready, None, Queued, false),
        Cpu(0, 0, Executing, [2], [], []), REST, [], Deciding(2, Waking(0), true), 0)
  }

  function Saved11(): State {
    Two(IDLING0, IDLING1, Task(Ready, None, Queued, false),
        IDLES, Cpu(1, 1, Popped(2), [], [], []), [], Deciding(2, Waking(0), true), 0)
  }

  function Saved12(): State {
    Two(IDLING0, IDLING1, Task(Ready, None, Nowhere, false),
        IDLES, Cpu(1, 1, Chosen(2), [], [], []), [], Deciding(2, Waking(0), true), 0)
  }

  function Saved13(): State {
    Two(IDLING0, LEFT1, Task(Running, Some(1), OnCpu, false),
        IDLES, Cpu(2, 1, Switched(1), [], [], []), [], Deciding(2, Waking(0), true), 0)
  }

  function Saved14(): State {
    Two(IDLING0, LEFT1, Task(Running, Some(1), OnCpu, false), IDLES, Cpu(2, 1, Switched(1), [], [], []), [], Unlocked, 0)
  }

  lemma SavedFrom7()
    ensures Goes(Race7(), Look(0, 0), Saved8())
    ensures Goes(Saved8(), Stamp(0), Saved9())
  {}

  lemma SavedFrom9()
    ensures Goes(Saved9(), Push(0, 0), Saved10())
  {
    DropsHead(Saved9().hands);
    assert Saved9().cpus[0].runq + [2] == [2];
    assert Saved9().hands[1..] == [];
  }

  lemma SavedFrom10()
    ensures Goes(Saved10(), Pop(1, 0), Saved11())
    ensures Goes(Saved11(), Unstamp(1), Saved12())
    ensures Goes(Saved12(), Start(1), Saved13())
  {
    assert [2][1..] == [];
  }

  lemma SavedFrom13()
    ensures Goes(Saved13(), Settle, Saved14())
  {}

  function SavedRun(): seq<State> {
    [Race0(), Race1(), Race2(), Race3(), Race4(), Race5(), Race6(), Race7(), Saved8(), Saved9(), Saved10(),
     Saved11(), Saved12(), Saved13(), Saved14()]
  }

  function SavedSteps(): seq<Step> {
    [Block(0), Fallback(0), Start(0), WakeMark(2), Unplace(0), Release(0), Test(0), Look(0, 0), Stamp(0), Push(0,
     0), Pop(1, 0), Unstamp(1), Start(1), Settle]
  }

  lemma SavedIsRun()
    ensures IsRun(SavedRun(), SavedSteps())
  {
    hide Next, Enabled, Init, Two;
    Boots();
    var run, steps := SavedRun(), SavedSteps();
    forall i: nat | i < |steps| ensures GoesAt(run, steps, i) { SavedGoes(i); }
    Strung(run, steps);
  }

  lemma SavedGoes(i: nat)
    requires i < |SavedSteps()|
    ensures GoesAt(SavedRun(), SavedSteps(), i)
  {
    hide Goes, Two;
    RaceFrom0(); RaceFrom3(); RaceFrom6(); SavedFrom7(); SavedFrom9(); SavedFrom10(); SavedFrom13();
  }

  lemma SavedFree()
    ensures Enabled(Saved13(), Settle) && !Races(Saved13(), Settle)
  {}

  lemma OthersFree(s: State, e: Step)
    requires Enabled(s, e) && !e.Settle? && !e.TakeDead?
    ensures !Races(s, e)
  {}

  predicate Spans(run: seq<State>, steps: seq<Step>) {
    && |steps| == 14 && |run| == 15
    && steps[3] == WakeMark(2) && steps[5] == Release(0) && steps[6] == Test(0) && steps[13] == Settle
    && run[13].lock == Deciding(2, Waking(0), true)
  }

  lemma SavedSpans()
    ensures Spans(SavedRun(), SavedSteps())
  {}

  /** A decision may span a CPU's whole leaving of the task and do no harm: here the task is running on the other CPU
      again by the time of the look. */
  lemma OverlapSaved() returns (run: seq<State>, steps: seq<Step>)
    ensures IsRun(run, steps) && RaceFree(run, steps) && Spans(run, steps)
  {
    hide Next, Enabled, Races, Init, Spans, Two;
    run, steps := SavedRun(), SavedSteps();
    SavedIsRun();
    SavedSpans();
    SavedFree();
    forall i | 0 <= i < |steps| ensures !Races(run[i], steps[i]) { if i != 13 { OthersFree(run[i], steps[i]); } }
  }

  // ---------------------------------------------------------------- a running task on a sleeper list

  function Stale1(): State {
    Two(IDLE, IDLING1, Task(Sleeping, Some(0), OnCpu, false), Cpu(2, 0, Dozing(9), [], [], []), REST, [], Unlocked, 0)
  }

  function Stale2(): State {
    Two(IDLE, IDLING1, Task(Sleeping, Some(0), OnCpu, false),
        Cpu(2, 0, Leaving, [], [Entry(2, 9)], []), REST, [], Unlocked, 0)
  }

  function Stale3(): State {
    Two(IDLE, IDLING1, Task(Ready, Some(0), OnCpu, false),
        Cpu(2, 0, Leaving, [], [Entry(2, 9)], []), REST, [], Deciding(2, Waking(0), true), 0)
  }

  function Stale4(): State {
    Two(IDLE, IDLING1, Task(Ready, Some(0), OnCpu, false), Cpu(2, 0, Leaving, [], [Entry(2, 9)], []), REST, [], Unlocked, 0)
  }

  function Stale5(): State {
    Two(IDLE, IDLING1, Task(Ready, Some(0), OnCpu, false),
        Cpu(2, 0, Chosen(0), [], [Entry(2, 9)], []), REST, [], Unlocked, 0)
  }

  function Stale6(): State {
    Two(IDLING0, IDLING1, Task(Ready, Some(0), OnCpu, false),
        Cpu(0, 0, Switched(2), [], [Entry(2, 9)], []), REST, [], Unlocked, 0)
  }

  function Stale7(): State {
    Two(IDLING0, IDLING1, Task(Ready, Some(0), Nowhere, false),
        Cpu(0, 0, Unplaced(2), [], [Entry(2, 9)], []), REST, [], Unlocked, 0)
  }

  function Stale8(): State {
    Two(IDLING0, IDLING1, Task(Ready, None, Nowhere, false),
        Cpu(0, 0, Released(2), [], [Entry(2, 9)], []), REST, [], Unlocked, 0)
  }

  function Stale9(): State {
    Two(IDLING0, IDLING1, Task(Ready, None, Nowhere, false),
        Cpu(0, 0, Executing, [], [Entry(2, 9)], []), REST, [Hand(2, Waking(2))], Unlocked, 0)
  }

  function Stale10(): State {
    Two(IDLING0, IDLING1, Task(Ready, None, Nowhere, false),
        Cpu(0, 0, Executing, [], [Entry(2, 9)], []), REST, [Hand(2, Cleared)], Unlocked, 0)
  }

  function Stale11(): State {
    Two(IDLING0, IDLING1, Task(Ready, None, Queued, false),
        Cpu(0, 0, Executing, [], [Entry(2, 9)], []), REST, [Hand(2, Stamped)], Unlocked, 0)
  }

  function Stale12(): State {
    Two(IDLING0, IDLING1, Task(Ready, None, Queued, false),
        Cpu(0, 0, Executing, [2], [Entry(2, 9)], []), REST, [], Unlocked, 0)
  }

  function Stale13(): State {
    Two(IDLING0, IDLING1, Task(Ready, None, Queued, false),
        Cpu(0, 0, Popped(2), [], [Entry(2, 9)], []), REST, [], Unlocked, 0)
  }

  function Stale14(): State {
    Two(IDLING0, IDLING1, Task(Ready, None, Nowhere, false),
        Cpu(0, 0, Chosen(2), [], [Entry(2, 9)], []), REST, [], Unlocked, 0)
  }

  function Stale15(): State {
    Two(LEFT0, IDLING1, Task(Running, Some(0), OnCpu, false),
        Cpu(2, 0, Switched(0), [], [Entry(2, 9)], []), REST, [], Unlocked, 0)
  }

  lemma StaleFrom0()
    ensures Goes(Race0(), SleepMark(0, 9), Stale1())
    ensures Goes(Stale1(), SleepList(0), Stale2())
    ensures Goes(Stale2(), WakeMark(2), Stale3())
  {
    assert Stale2().cpus[0].sleepers == Stale1().cpus[0].sleepers + [Entry(2, 9)];
  }

  lemma StaleFrom3()
    ensures Goes(Stale3(), Settle, Stale4())
    ensures Goes(Stale4(), Fallback(0), Stale5())
    ensures Goes(Stale5(), Start(0), Stale6())
  {}

  lemma StaleFrom6()
    ensures Goes(Stale6(), Unplace(0), Stale7())
    ensures Goes(Stale7(), Release(0), Stale8())
    ensures Goes(Stale8(), Test(0), Stale9())
  {}

  lemma StaleFrom9()
    ensures Goes(Stale9(), Look(0, 0), Stale10())
    ensures Goes(Stale10(), Stamp(0), Stale11())
  {}

  lemma StaleFrom11()
    ensures Goes(Stale11(), Push(0, 0), Stale12())
  {
    DropsHead(Stale11().hands);
    assert Stale11().cpus[0].runq + [2] == [2];
    assert Stale11().hands[1..] == [];
  }

  lemma StaleFrom12()
    ensures Goes(Stale12(), Pop(0, 0), Stale13())
    ensures Goes(Stale13(), Unstamp(0), Stale14())
    ensures Goes(Stale14(), Start(0), Stale15())
  {
    assert [2][1..] == [];
  }

  function StaleRun(): seq<State> {
    [Race0(), Stale1(), Stale2(), Stale3(), Stale4(), Stale5(), Stale6(), Stale7(), Stale8(), Stale9(), Stale10(),
     Stale11(), Stale12(), Stale13(), Stale14(), Stale15()]
  }

  function StaleSteps(): seq<Step> {
    [SleepMark(0, 9), SleepList(0), WakeMark(2), Settle, Fallback(0), Start(0), Unplace(0), Release(0), Test(0),
     Look(0, 0), Stamp(0), Push(0, 0), Pop(0, 0), Unstamp(0), Start(0)]
  }

  lemma StaleIsRun()
    ensures IsRun(StaleRun(), StaleSteps())
  {
    hide Next, Enabled, Init, Two;
    Boots();
    var run, steps := StaleRun(), StaleSteps();
    forall i: nat | i < |steps| ensures GoesAt(run, steps, i) { StaleGoes(i); }
    Strung(run, steps);
  }

  lemma StaleGoes(i: nat)
    requires i < |StaleSteps()|
    ensures GoesAt(StaleRun(), StaleSteps(), i)
  {
    hide Goes, Two;
    StaleFrom0(); StaleFrom3(); StaleFrom6(); StaleFrom9(); StaleFrom11(); StaleFrom12();
  }

  lemma StaleFree()
    ensures Enabled(Stale3(), Settle) && !Races(Stale3(), Settle)
  {}

  /** Listed while queued, and listed while running. */
  predicate Stale(run: seq<State>) {
    && |run| == 16 && |run[12].cpus| == 2 && |run[15].cpus| == 2 && 2 in run[15].tasks
    && Lists(run[12].cpus[0].sleepers, 2) && run[12].cpus[0].runq == [2]
    && Lists(run[15].cpus[0].sleepers, 2) && run[15].cpus[0].current == 2 && run[15].tasks[2].state.Running?
  }

  lemma StaleEnds()
    ensures Stale(StaleRun()) && !ListsInOrder(Stale15())
  {
    assert Stale12().cpus[0].sleepers[0].task == 2 && Stale15().cpus[0].sleepers[0].task == 2;
    assert Listed(Stale15(), 0, 2) && !InOrder(Stale15(), 0, 2);
  }

  /** The sleeper rule can be broken from boot, with no race. The boot task sleeps and is listed; it is woken before its
      CPU has left it, so the waker leaves it to that CPU, and its entry on the list. It runs again and is still listed. */
  lemma StaleEntryHappens() returns (run: seq<State>, steps: seq<Step>)
    ensures IsRun(run, steps) && RaceFree(run, steps) && Stale(run) && |run| > 15 && !ListsInOrder(run[15])
  {
    hide Next, Enabled, Races, Init, ListsInOrder, Stale, Two;
    run, steps := StaleRun(), StaleSteps();
    StaleIsRun();
    StaleFree();
    StaleEnds();
    forall i | 0 <= i < |steps| ensures !Races(run[i], steps[i]) { if i != 3 { OthersFree(run[i], steps[i]); } }
  }
}
