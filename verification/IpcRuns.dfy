/**
Whom a message reaches, told from the steps of a run alone: which endpoints were made as the two halves of a pair,
and who has been waiting longest.
*/
module IpcRuns {
  import opened Wrappers
  import opened Ipc

  /** The partner of every endpoint, from the steps that made them. */
  function Partners(steps: seq<Step>): seq<Option<nat>> {
    if steps == [] then []
    else
      var p := Partners(steps[..|steps| - 1]);
      match steps[|steps| - 1]
      case NewEndpoint => p + [None]
      case NewPair => p + [Some(|p| + 1), Some(|p|)]
      case _ => p
  }

  /** What `new_pair` makes are each other's partners, for ever; what `new` makes has none. */
  lemma {:induction false} PartnersStay(steps: seq<Step>, n: nat)
    requires n < |steps|
    ensures Partners(steps[..n]) <= Partners(steps)
    ensures var k := |Partners(steps[..n])|;
            && (steps[n].NewPair? ==> k + 1 < |Partners(steps)| && Partners(steps)[k] == Some(k + 1) && Partners(steps)[k + 1] == Some(k))
            && (steps[n].NewEndpoint? ==> k < |Partners(steps)| && Partners(steps)[k] == None)
    decreases |steps|
  {
    var m := |steps| - 1;
    if n < m {
      PartnersStay(steps[..m], n);
      assert steps[..m][..n] == steps[..n];
    }
  }

  /** Partnership is mutual and nobody is its own partner. */
  lemma {:induction false} PartnersMutual(steps: seq<Step>, e: nat)
    requires e < |Partners(steps)| && Partners(steps)[e].Some?
    ensures var p := Partners(steps)[e].value; p != e && p < |Partners(steps)| && Partners(steps)[p] == Some(e)
  {
    var before := steps[..|steps| - 1];
    if e < |Partners(before)| { PartnersMutual(before, e); }
  }

  lemma PeersKept(w: World, s: Step, e: nat)
    requires Enabled(w, s) && e < |w.eps|
    ensures e < |Next(w, s).eps| && Next(w, s).eps[e].peer == w.eps[e].peer
  {}

  lemma EndpointsKept(w: World, s: Step)
    requires Enabled(w, s) && !s.NewEndpoint? && !s.NewPair?
    ensures |Next(w, s).eps| == |w.eps|
  {}

  lemma {:induction false} PartnersAre(run: seq<World>, steps: seq<Step>, n: nat)
    requires IsRun(run, steps) && n < |run|
    ensures |run[n].eps| == |Partners(steps[..n])|
    ensures forall e :: 0 <= e < |run[n].eps| ==> run[n].eps[e].peer == Partners(steps[..n])[e]
  {
    if n > 0 {
      PartnersAre(run, steps, n - 1);
      assert steps[..n][..n - 1] == steps[..n - 1];
      var w, s := run[n - 1], steps[n - 1];
      assert run[n] == Next(w, s);
      if !s.NewEndpoint? && !s.NewPair? { EndpointsKept(w, s); }
      forall e | 0 <= e < |w.eps| ensures run[n].eps[e].peer == w.eps[e].peer { PeersKept(w, s, e); }
    }
  }

  /** Where a send goes: to the partner of an endpoint that has one, to the endpoint itself otherwise. */
  function Receiver(steps: seq<Step>, e: nat): nat
    requires e < |Partners(steps)|
  { if Partners(steps)[e].Some? then Partners(steps)[e].value else e }

  /** A send adds its message to the log of its receiver, exactly when somebody waits there or there is room, and to no
      other log. */
  lemma SendReaches(run: seq<World>, steps: seq<Step>, n: nat, d: nat)
    requires IsRun(run, steps) && n < |steps| && steps[n].Send? && d < |run[n].eps|
    ensures steps[n].e < |Partners(steps[..n])| && |run[n + 1].eps| == |run[n].eps|
    ensures var to := Receiver(steps[..n], steps[n].e);
            && to < |run[n].eps|
            && run[n + 1].eps[d].accepted == run[n].eps[d].accepted +
                 if d == to && (run[n].eps[to].receivers != [] || |run[n].eps[to].queue| < 64) then [steps[n].m] else []
  {
    hide Inv;
    RunKeeps(run, steps, n);
    PartnersAre(run, steps, n);
    var w, e := run[n], steps[n].e;
    var to := Receiver(steps[..n], e);
    SendIs(w, to, steps[n].m);
    assert run[n + 1] == DoSend(w, to, steps[n].m);
  }

  /** Nothing but a send is ever accepted. */
  lemma OnlySendsAccept(w: World, s: Step, d: nat)
    requires Enabled(w, s) && !s.Send? && d < |w.eps|
    ensures d < |Next(w, s).eps| && Next(w, s).eps[d].accepted == w.eps[d].accepted
  {}

  /** A call to receive that finds something queued returns the oldest of it; one that finds nothing comes back with nothing
      or, if it may wait, leaves its task blocked at the end of the line. */
  lemma ReceiveReturns(run: seq<World>, steps: seq<Step>, n: nat)
    requires IsRun(run, steps) && n < |steps| && (steps[n].Recv? || steps[n].TryRecv?)
    ensures steps[n].e < |run[n].eps| && steps[n].e < |run[n + 1].eps| && steps[n].t in run[n + 1].tasks
    ensures var x, x', t := run[n].eps[steps[n].e], run[n + 1].eps[steps[n].e], steps[n].t;
            if x.queue != [] then
              && x'.returned == x.returned + [Taken(t, x.queue[0])] && x'.queue == x.queue[1..] && x'.receivers == x.receivers
              && !run[n + 1].tasks[t].blocked && run[n + 1].tasks[t].receiving.None?
            else
              && x'.returned == x.returned && x'.queue == []
              && if steps[n].TryRecv? then x'.receivers == x.receivers && !run[n + 1].tasks[t].blocked
                 else x'.receivers == x.receivers + [t] && run[n + 1].tasks[t] == Task(true, None, Some(steps[n].e))
  {
    assert Enabled(run[n], steps[n]) && run[n + 1] == Next(run[n], steps[n]);
  }

  /** A task that goes on after it was woken returns the message it was woken for. */
  lemma ResumeReturns(run: seq<World>, steps: seq<Step>, n: nat)
    requires IsRun(run, steps) && n < |steps| && steps[n].Resume?
    ensures steps[n].t in run[n].tasks && run[n].tasks[steps[n].t].receiving.Some? && run[n].tasks[steps[n].t].inbox.Some?
    ensures var e, t := run[n].tasks[steps[n].t].receiving.value, steps[n].t;
            && e < |run[n].eps| && e < |run[n + 1].eps| && run[n + 1].eps[e].returned == run[n].eps[e].returned + [Taken(t, run[n].tasks[t].inbox.value)]
            && t in run[n + 1].tasks && run[n + 1].tasks[t] == Task(false, None, None)
  {
    RunKeeps(run, steps, n);
    assert Enabled(run[n], steps[n]) && run[n + 1] == Next(run[n], steps[n]);
    ResumeFinds(run[n], steps[n].t);
  }

  // ---------------------------------------------------------------- first come, first served

  /** When `t` last called `recv`, counted in steps; -1 if it never has. */
  function Since(steps: seq<Step>, t: TaskId): int {
    if steps == [] then -1
    else if steps[|steps| - 1].Recv? && steps[|steps| - 1].t == t then |steps| - 1
    else Since(steps[..|steps| - 1], t)
  }

  lemma {:induction false} SinceBelow(steps: seq<Step>, t: TaskId)
    ensures Since(steps, t) < |steps|
  {
    if steps != [] { SinceBelow(steps[..|steps| - 1], t); }
  }

  /** The line is in the order of the calls. */
  ghost predicate Ordered(line: seq<TaskId>, steps: seq<Step>) {
    forall i, j :: 0 <= i < j < |line| ==> Since(steps, line[i]) < Since(steps, line[j])
  }

  lemma OrderedStays(line: seq<TaskId>, steps: seq<Step>, n: nat)
    requires n < |steps| && Ordered(line, steps[..n]) && (steps[n].Recv? ==> steps[n].t !in line)
    ensures Ordered(line, steps[..n + 1])
  {
    var next := steps[..n + 1];
    assert next[..n] == steps[..n] && next[n] == steps[n];
    assert forall t :: t in line ==> Since(next, t) == Since(steps[..n], t);
  }

  lemma NotInLine(w: World, t: TaskId, d: nat)
    requires Inv(w) && Free(w, t) && d < |w.eps|
    ensures t !in w.eps[d].receivers
  {
    assert LineOk(w, d);
  }

  /** How a step changes a line: at its head, at its end, or not at all. */
  lemma LineChanges(w: World, s: Step, d: nat)
    requires Inv(w) && Enabled(w, s) && d < |Next(w, s).eps|
    ensures var line, line' := if d < |w.eps| then w.eps[d].receivers else [], Next(w, s).eps[d].receivers;
            line' == line || (line != [] && line' == line[1..]) || (s.Recv? && line' == line + [s.t])
  {
    if s.Send? { SendIs(w, Target(w, s.e), s.m); }
    if s.Resume? { ResumeFinds(w, s.t); }
  }

  lemma {:induction false} LinesOrdered(run: seq<World>, steps: seq<Step>, n: nat, d: nat)
    requires IsRun(run, steps) && n < |run| && d < |run[n].eps|
    ensures Ordered(run[n].eps[d].receivers, steps[..n])
  {
    if n > 0 {
      var w, s := run[n - 1], steps[n - 1];
      hide Inv, Enabled, Next;
      assert Enabled(w, s) && run[n] == Next(w, s);
      RunKeeps(run, steps, n - 1);
      LineChanges(w, s, d);
      var line := if d < |w.eps| then w.eps[d].receivers else [];
      if d < |w.eps| { LinesOrdered(run, steps, n - 1, d); }
      if s.Recv? { CallerFree(w, s); if d < |w.eps| { NotInLine(w, s.t, d); } }
      OrderedStays(line, steps, n - 1);
      if s.Recv? && run[n].eps[d].receivers == line + [s.t] { LastInLine(line, steps, n - 1); }
    }
  }

  lemma CallerFree(w: World, s: Step)
    requires Enabled(w, s) && s.Recv?
    ensures Free(w, s.t)
  {}

  lemma LastInLine(line: seq<TaskId>, steps: seq<Step>, n: nat)
    requires n < |steps| && steps[n].Recv? && steps[n].t !in line && Ordered(line, steps[..n + 1])
    ensures Ordered(line + [steps[n].t], steps[..n + 1])
  {
    var next, t := steps[..n + 1], steps[n].t;
    assert next[..n] == steps[..n] && Since(next, t) == n;
    forall u | u in line ensures Since(next, u) < n { SinceBelow(steps[..n], u); }
  }

  predicate Waits(w: World, e: nat, t: TaskId) { t in w.tasks && w.tasks[t].receiving == Some(e) && w.tasks[t].inbox.None? }

  /** A message that finds tasks waiting goes to the one that has waited longest. */
  lemma FirstComeFirstServed(run: seq<World>, steps: seq<Step>, n: nat, t: TaskId) returns (first: TaskId)
    requires IsRun(run, steps) && n < |steps| && steps[n].Send? && steps[n].e < |Partners(steps[..n])|
    requires Waits(run[n], Receiver(steps[..n], steps[n].e), t)
    ensures var to := Receiver(steps[..n], steps[n].e);
            && to < |run[n].eps| && to < |run[n + 1].eps|
            && run[n + 1].eps[to].given == run[n].eps[to].given + [Taken(first, steps[n].m)]
            && Waits(run[n], to, first) && first in run[n + 1].tasks && run[n + 1].tasks[first].inbox == Some(steps[n].m)
            && (t == first || Since(steps[..n], first) < Since(steps[..n], t))
  {
    RunKeeps(run, steps, n);
    PartnersAre(run, steps, n);
    var w, to := run[n], Receiver(steps[..n], steps[n].e);
    assert TaskOk(w, t);
    var line := w.eps[to].receivers;
    first := line[0];
    HeadIsWaiting(w, to);
    SendIs(w, to, steps[n].m);
    LinesOrdered(run, steps, n, to);
    assert run[n + 1] == Give(w, to, steps[n].m);
    var i :| 0 <= i < |line| && line[i] == t;
  }

  // ---------------------------------------------------------------- nobody is shut out

  /** In every state of a run every endpoint can be sent to, a task that is in no call can make any, whoever has been given a
      message can be woken, and whoever has been woken goes on. */
  lemma NobodyShutOut(run: seq<World>, steps: seq<Step>, n: nat)
    requires IsRun(run, steps) && n < |run|
    ensures var w := run[n];
            && (forall e, m :: 0 <= e < |w.eps| ==> Enabled(w, Send(e, m)))
            && (forall t, e :: t in w.tasks && w.tasks[t].receiving.None? && 0 <= e < |w.eps| ==>
                  Enabled(w, Recv(t, e)) && Enabled(w, TryRecv(t, e)) && Enabled(w, Exit(t)))
            && (forall t :: t in w.tasks && w.tasks[t].receiving.Some? && w.tasks[t].inbox.Some? ==>
                  Enabled(w, Resume(t)) || exists i: nat :: i < |w.wakes| && w.wakes[i] == t && Enabled(w, Wake(i)))
  {
    RunKeeps(run, steps, n);
    PartnersAre(run, steps, n);
    var w := run[n];
    forall e, m | 0 <= e < |w.eps| ensures Enabled(w, Send(e, m)) {
      if w.eps[e].peer.Some? { PartnersMutual(steps[..n], e); }
    }
    forall t | t in w.tasks ensures TaskOk(w, t) {}
    forall t | t in w.tasks && w.tasks[t].receiving.Some? && w.tasks[t].inbox.Some?
      ensures Enabled(w, Resume(t)) || exists i: nat :: i < |w.wakes| && w.wakes[i] == t && Enabled(w, Wake(i))
    {
      if t in w.wakes {
        var i: nat :| i < |w.wakes| && w.wakes[i] == t;
        assert Enabled(w, Wake(i));
      }
    }
  }

  /** A task that ends is gone, and nothing refers to it any more: it is in no line, and nobody is about to wake it. */
  lemma EndLeavesNothing(run: seq<World>, steps: seq<Step>, n: nat)
    requires IsRun(run, steps) && n < |steps| && steps[n].Exit?
    ensures var t, w := steps[n].t, run[n + 1];
            && w.tasks == run[n].tasks - {t} && t !in w.wakes && forall d :: 0 <= d < |w.eps| ==> t !in w.eps[d].receivers
  {
    RunKeeps(run, steps, n);
    assert Enabled(run[n], steps[n]) && run[n + 1] == Next(run[n], steps[n]);
    forall d | 0 <= d < |run[n].eps| ensures steps[n].t !in run[n].eps[d].receivers { NotInLine(run[n], steps[n].t, d); }
    assert TaskOk(run[n], steps[n].t);
  }

  /** A message sent while somebody waits is returned by the waiter's own call, three steps later. */
  lemma SentIsReturned(run: seq<World>, steps: seq<Step>, n: nat, e: nat, m: Message, t: TaskId) returns (first: TaskId)
    requires IsRun(run, steps) && n < |run| && e < |Partners(steps[..n])| && Waits(run[n], Receiver(steps[..n], e), t)
    ensures var w, to := run[n], Receiver(steps[..n], e);
            && Enabled(w, Send(e, m)) && var w1 := Next(w, Send(e, m));
            && Enabled(w1, Wake(|w.wakes|)) && var w2 := Next(w1, Wake(|w.wakes|));
            && Enabled(w2, Resume(first)) && var w3 := Next(w2, Resume(first));
            && to < |w.eps| && to < |w3.eps| && w3.eps[to].returned == w.eps[to].returned + [Taken(first, m)] && w3.wakes == w.wakes
            && Waits(w, to, first) && first in w3.tasks && w3.tasks[first] == Task(false, None, None)
  {
    RunKeeps(run, steps, n);
    PartnersAre(run, steps, n);
    if Partners(steps[..n])[e].Some? { PartnersMutual(steps[..n], e); }
    var w, to := run[n], Receiver(steps[..n], e);
    assert TaskOk(w, t);
    first := w.eps[to].receivers[0];
    HeadIsWaiting(w, to);
    SendIs(w, to, m);
    hide Inv;
    var w1 := Give(w, to, m);
    assert Next(w, Send(e, m)) == w1;
    var w2 := DoWake(w1, |w.wakes|);
    assert w2.wakes == w.wakes;
  }
}
