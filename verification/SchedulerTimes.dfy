/**
Deadlines. An entry on a sleeper list carries the deadline its sleep was given, and a tick wakes nobody before it.
*/
module SchedulerTimes {
  import opened Wrappers
  import opened Scheduler
  import opened SchedulerSafety

  lemma {:induction false} KeptFrom(l: seq<Entry>, now: nat, room: nat, x: Entry)
    ensures x in Kept(l, now, room) ==> x in l
  {
    if l != [] { KeptFrom(l[1..], now, if l[0].due > now || room == 0 then room else room - 1, x); }
  }

  lemma {:induction false} WithoutFrom(l: seq<Entry>, t: TaskId, x: Entry)
    ensures x in Without(l, t) ==> x in l
  {
    if l != [] { WithoutFrom(l[1..], t, x); }
  }

  /** Whoever a tick names was listed with a deadline that has come. */
  lemma {:induction false} DueFrom(l: seq<Entry>, now: nat, room: nat, t: TaskId) returns (x: Entry)
    requires t in Due(l, now, room)
    ensures x in l && x.task == t && x.due <= now
  {
    if l[0].due <= now && room > 0 && l[0].task == t {
      x := l[0];
    } else {
      x := DueFrom(l[1..], now, if l[0].due > now || room == 0 then room else room - 1, t);
    }
  }

  lemma EntryFrom(s: State, e: Step, c: nat, x: Entry)
    requires Enabled(s, e) && c < |Next(s, e).cpus| && x in Next(s, e).cpus[c].sleepers
    ensures c < |s.cpus|
    ensures x in s.cpus[c].sleepers || (e == SleepList(c) && s.cpus[c].phase == Dozing(x.due) && s.cpus[c].current == x.task)
  {
    if e.Sweep? && e.c == c { KeptFrom(s.cpus[c].sleepers, e.now, MAX_DUE, x); }
    if e.Unsleep? && s.hands[e.i].stage.k == c { WithoutFrom(s.cpus[c].sleepers, s.hands[e.i].task, x); }
  }

  lemma DozingFrom(s: State, e: Step, c: nat)
    requires Enabled(s, e) && c < |Next(s, e).cpus| && Next(s, e).cpus[c].phase.Dozing?
    ensures c < |s.cpus| && s.cpus[c].current == Next(s, e).cpus[c].current
    ensures s.cpus[c].phase == Next(s, e).cpus[c].phase || e == SleepMark(c, Next(s, e).cpus[c].phase.until)
  {}

  /** A task on its way onto a list called for the sleep it is about to be listed for. */
  lemma {:induction false} DozingMarked(run: seq<State>, steps: seq<Step>, n: nat, c: nat) returns (k: nat)
    requires IsRun(run, steps) && n < |run| && c < |run[n].cpus| && run[n].cpus[c].phase.Dozing?
    ensures k < n && steps[k] == SleepMark(c, run[n].cpus[c].phase.until)
    ensures c < |run[k].cpus| && run[k].cpus[c].current == run[n].cpus[c].current
    decreases n
  {
    hide Next, Enabled;
    var s, e := run[n - 1], steps[n - 1];
    assert run[n] == Next(s, e);
    DozingFrom(s, e, c);
    if s.cpus[c].phase == run[n].cpus[c].phase { k := DozingMarked(run, steps, n - 1, c); } else { k := n - 1; }
  }

  /** Every entry is there because its task called for a sleep until that deadline, on that CPU. */
  lemma {:induction false} EntryMarked(run: seq<State>, steps: seq<Step>, n: nat, c: nat, x: Entry) returns (k: nat)
    requires IsRun(run, steps) && n < |run| && c < |run[n].cpus| && x in run[n].cpus[c].sleepers
    ensures k < n && steps[k] == SleepMark(c, x.due) && c < |run[k].cpus| && run[k].cpus[c].current == x.task
    decreases n
  {
    hide Next, Enabled;
    var s, e := run[n - 1], steps[n - 1];
    assert run[n] == Next(s, e);
    EntryFrom(s, e, c, x);
    if x in s.cpus[c].sleepers { k := EntryMarked(run, steps, n - 1, c, x); } else { k := DozingMarked(run, steps, n - 1, c); }
  }

  lemma NamedFrom(s: State, e: Step, c: nat, t: TaskId)
    requires Enabled(s, e) && c < |Next(s, e).cpus| && t in Next(s, e).cpus[c].expired
    ensures c < |s.cpus|
    ensures t in s.cpus[c].expired || (e.Sweep? && e.c == c && t in Due(s.cpus[c].sleepers, e.now, MAX_DUE))
  {}

  lemma {:induction false} NamedSwept(run: seq<State>, steps: seq<Step>, n: nat, c: nat, t: TaskId) returns (j: nat, x: Entry)
    requires IsRun(run, steps) && n < |run| && c < |run[n].cpus| && t in run[n].cpus[c].expired
    ensures j < n && steps[j].Sweep? && steps[j].c == c && c < |run[j].cpus|
    ensures x in run[j].cpus[c].sleepers && x.task == t && x.due <= steps[j].now
    decreases n
  {
    hide Next, Enabled;
    var s, e := run[n - 1], steps[n - 1];
    assert run[n] == Next(s, e);
    NamedFrom(s, e, c, t);
    if t in s.cpus[c].expired { j, x := NamedSwept(run, steps, n - 1, c, t); }
    else { j := n - 1; x := DueFrom(s.cpus[c].sleepers, e.now, MAX_DUE, t); }
  }

  /** A tick acts on nobody before its time: the task it names had called, on that CPU, for a sleep until a deadline that
      the clock had reached when the tick looked. */
  lemma NoEarlyWake(run: seq<State>, steps: seq<Step>, n: nat) returns (k: nat, j: nat)
    requires IsRun(run, steps) && n < |steps| && steps[n].TickMark?
    ensures steps[n].c < |run[n].cpus| && run[n].cpus[steps[n].c].expired != []
    ensures k < j < n && steps[k].SleepMark? && steps[k].c == steps[n].c && steps[j].Sweep? && steps[j].c == steps[n].c
    ensures steps[n].c < |run[k].cpus| && run[k].cpus[steps[n].c].current == run[n].cpus[steps[n].c].expired[0]
    ensures steps[k].until <= steps[j].now
  {
    var c := steps[n].c;
    assert Enabled(run[n], steps[n]);
    hide Next, Init;
    var x;
    j, x := NamedSwept(run, steps, n, c, run[n].cpus[c].expired[0]);
    k := EntryMarked(run, steps, j, c, x);
  }
}
