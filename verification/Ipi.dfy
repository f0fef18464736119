/**
The request/acknowledge protocol behind a TLB shootdown: one slot per CPU, a request number that travels
with the request, and one broadcast at a time.

Every atomic operation and every section under a slot's lock is one step. Numbers are 32 bits wide in
the machine; a publication also carries its true number so that the wrap-around is visible.
*/
module Ipi {
  import opened Wrappers

  const U32: nat := 0x1_0000_0000

  datatype Request = TlbAll(cr3: nat) | SharedRange(start: nat, end: nat) | Ping

  /** `id` counts publications to one CPU from 1; the machine compares `Wire(id)`. */
  datatype Pending = Pending(id: nat, req: Request)

  function Wire(id: nat): nat { id % U32 }

  /** Where a CPU's interrupt handler is. */
  datatype Handler = Away | Took(p: Pending) | Did(p: Pending)

  /** `bumped` is `ipi_seq` before truncation, `acked` the number last stored to `ipi_done`.
      `published` and `performed` are history. */
  datatype Cpu = Cpu(
    bumped: nat, slot: Option<Pending>, acked: nat, handler: Handler, resched: bool,
    published: seq<Request>, performed: seq<Pending>)

  /** What the broadcaster waits for from one CPU: the number, and how much that CPU had performed when it was published. */
  datatype Target = Target(id: nat, mark: nat)

  datatype Sender =
    | Idle
    | Publishing(me: nat, req: Request, targets: seq<Option<Target>>)
    | Waiting(me: nat, req: Request, targets: seq<Option<Target>>, seen: nat)
    | Returned(me: nat, req: Request, targets: seq<Option<Target>>, ok: bool)

  datatype State = State(cpus: seq<Cpu>, sender: Sender)

  datatype Step =
    | Begin(me: nat, req: Request)   // takes the broadcast lock
    | Skip                           // the broadcaster's own CPU
    | Bump                           // fetch_add on the next CPU's number
    | Store                          // write the next CPU's slot
    | Sent                           // every slot written, the interrupt goes out
    | Look                           // read one acknowledgement
    | Succeed
    | GiveUp
    | Unlock
    | Take(c: nat)                   // handler: swap the flag, take the slot
    | Perform(c: nat)
    | Ack(c: nat)
    | Kick(c: nat)                   // of a CPU that is not idle; an idle one is only interrupted

  /** The CPU the publishing loop is at. */
  function At(x: Sender): nat
    requires x.Publishing?
  { |x.targets| }

  /** Whether the number of the CPU the loop is at has been bumped and its slot not written yet. */
  predicate MidPublish(s: State)
    requires s.sender.Publishing? && At(s.sender) < |s.cpus|
  { s.cpus[At(s.sender)].bumped != |s.cpus[At(s.sender)].published| }

  predicate Enabled(s: State, e: Step) {
    match e
    case Begin(me, _) => s.sender.Idle? && me < |s.cpus|
    case Skip => s.sender.Publishing? && At(s.sender) < |s.cpus| && At(s.sender) == s.sender.me
    case Bump => s.sender.Publishing? && At(s.sender) < |s.cpus| && At(s.sender) != s.sender.me && !MidPublish(s)
    case Store => s.sender.Publishing? && At(s.sender) < |s.cpus| && At(s.sender) != s.sender.me && MidPublish(s)
    case Sent => s.sender.Publishing? && At(s.sender) == |s.cpus|
    case Look => s.sender.Waiting? && s.sender.seen < |s.cpus| && |s.sender.targets| == |s.cpus|
    case Succeed => s.sender.Waiting? && s.sender.seen == |s.cpus|
    case GiveUp => s.sender.Waiting?
    case Unlock => s.sender.Returned?
    case Take(c) => c < |s.cpus| && s.cpus[c].handler.Away?
    case Perform(c) => c < |s.cpus| && s.cpus[c].handler.Took?
    case Ack(c) => c < |s.cpus| && s.cpus[c].handler.Did?
    case Kick(c) => c < |s.cpus|
  }

  function SetCpu(s: State, c: nat, x: Cpu): State
    requires c < |s.cpus|
  { s.(cpus := s.cpus[c := x]) }

  /** The comparison the wait loop makes, on 32-bit numbers. */
  predicate Answered(x: Cpu, t: Option<Target>) { t.Some? ==> Wire(x.acked) >= Wire(t.value.id) }

  function Taken(x: Cpu): Cpu { x.(resched := false, slot := None, handler := if x.slot.Some? then Took(x.slot.value) else Away) }

  function Done(x: Cpu): Cpu
    requires x.handler.Took?
  { x.(handler := Did(x.handler.p), performed := x.performed + [x.handler.p]) }

  function Next(s: State, e: Step): State
    requires Enabled(s, e)
  {
    match e
    case Begin(me, req) => s.(sender := Publishing(me, req, []))
    case Skip => s.(sender := Publishing(s.sender.me, s.sender.req, s.sender.targets + [None]))
    case Bump => SetCpu(s, At(s.sender), s.cpus[At(s.sender)].(bumped := s.cpus[At(s.sender)].bumped + 1))
    case Store =>
      var x := s.cpus[At(s.sender)];
      SetCpu(s, At(s.sender), x.(slot := Some(Pending(x.bumped, s.sender.req)), published := x.published + [s.sender.req])).(
      sender := Publishing(s.sender.me, s.sender.req, s.sender.targets + [Some(Target(x.bumped, |x.performed|))]))
    case Sent => s.(sender := Waiting(s.sender.me, s.sender.req, s.sender.targets, 0))
    case Look =>
      s.(sender := Waiting(s.sender.me, s.sender.req, s.sender.targets,
                           if Answered(s.cpus[s.sender.seen], s.sender.targets[s.sender.seen]) then s.sender.seen + 1 else 0))
    case Succeed => s.(sender := Returned(s.sender.me, s.sender.req, s.sender.targets, true))
    case GiveUp => s.(sender := Returned(s.sender.me, s.sender.req, s.sender.targets, false))
    case Unlock => s.(sender := Idle)
    case Take(c) => SetCpu(s, c, Taken(s.cpus[c]))
    case Perform(c) => SetCpu(s, c, Done(s.cpus[c]))
    case Ack(c) => SetCpu(s, c, s.cpus[c].(handler := Away, acked := s.cpus[c].handler.p.id))
    case Kick(c) => SetCpu(s, c, s.cpus[c].(resched := true))
  }

  // ---------------------------------------------------------------- what every run keeps

  predicate Genuine(x: Cpu, p: Pending) { 1 <= p.id <= |x.published| && x.published[p.id - 1] == p.req }

  /** What a CPU takes, performs and acknowledges is what was published to it, in increasing order. */
  ghost predicate CpuOk(x: Cpu) {
    && x.bumped < U32
    && |x.published| <= x.bumped <= |x.published| + 1
    && (x.slot.Some? ==> x.slot.value.id == |x.published| && Genuine(x, x.slot.value) && x.acked < x.slot.value.id)
    && (!x.handler.Away? ==> Genuine(x, x.handler.p) && x.acked < x.handler.p.id)
    && (x.slot.Some? && !x.handler.Away? ==> x.handler.p.id < x.slot.value.id)
    && x.acked <= |x.published|
    && (x.acked > 0 ==> exists i :: 0 <= i < |x.performed| && x.performed[i].id == x.acked)
    && (x.handler.Did? ==> x.performed != [] && x.performed[|x.performed| - 1] == x.handler.p)
    && (forall i :: 0 <= i < |x.performed| ==> Genuine(x, x.performed[i]))
    && (forall i :: 0 <= i < |x.performed| ==> x.performed[i].id <= x.acked || (x.handler.Did? && x.performed[i].id <= x.handler.p.id))
  }

  /** The request `t` names was performed on `x`, and not before it was published. */
  ghost predicate Performed(x: Cpu, t: Target, req: Request) {
    exists i :: t.mark <= i < |x.performed| && x.performed[i] == Pending(t.id, req)
  }

  /** A published target is the newest request of its CPU, and what that CPU did earlier was something older. */
  ghost predicate TargetOk(x: Cpu, t: Target, req: Request) {
    && t.id == |x.published| == x.bumped && 1 <= t.id && x.published[t.id - 1] == req
    && t.mark <= |x.performed|
    && (forall i :: 0 <= i < t.mark ==> x.performed[i].id < t.id)
  }

  ghost predicate TargetsOk(s: State, me: nat, req: Request, targets: seq<Option<Target>>) {
    && me < |s.cpus| && |targets| <= |s.cpus|
    && (forall c :: 0 <= c < |targets| ==> (targets[c].None? <==> c == me))
    && (forall c :: 0 <= c < |targets| && c != me ==> TargetOk(s.cpus[c], targets[c].value, req))
  }

  ghost predicate SenderOk(s: State) {
    match s.sender
    case Idle => forall c :: 0 <= c < |s.cpus| ==> s.cpus[c].bumped == |s.cpus[c].published|
    case Publishing(me, req, targets) =>
      && TargetsOk(s, me, req, targets)
      && (forall c :: 0 <= c < |s.cpus| && c != |targets| ==> s.cpus[c].bumped == |s.cpus[c].published|)
      && (|targets| == me ==> s.cpus[me].bumped == |s.cpus[me].published|)
    case Waiting(me, req, targets, seen) =>
      && TargetsOk(s, me, req, targets) && |targets| == |s.cpus| && seen <= |s.cpus|
      && (forall c :: 0 <= c < |s.cpus| ==> s.cpus[c].bumped == |s.cpus[c].published|)
      && (forall c :: 0 <= c < seen && c != me ==> s.cpus[c].acked >= targets[c].value.id)
    case Returned(me, req, targets, ok) =>
      && TargetsOk(s, me, req, targets)
      && (forall c :: 0 <= c < |s.cpus| ==> s.cpus[c].bumped == |s.cpus[c].published|)
      && (ok ==> |targets| == |s.cpus| && forall c :: 0 <= c < |s.cpus| && c != me ==> s.cpus[c].acked >= targets[c].value.id)
  }

  ghost predicate Inv(s: State) {
    (forall c :: 0 <= c < |s.cpus| ==> CpuOk(s.cpus[c])) && SenderOk(s)
  }

  /** A step that does not publish request number 2^32 or later. */
  predicate InRange(s: State, e: Step) { e.Bump? && Enabled(s, e) ==> s.cpus[At(s.sender)].bumped + 1 < U32 }

  /** A CPU after some steps of its own handler. */
  ghost predicate Later(x: Cpu, y: Cpu) {
    y.bumped == x.bumped && y.published == x.published && y.acked >= x.acked && x.performed <= y.performed
  }

  lemma SameHistory(x: Cpu, y: Cpu)
    requires CpuOk(x) && x.acked == y.acked && x.performed <= y.performed && x.acked > 0
    ensures exists i :: 0 <= i < |y.performed| && y.performed[i].id == y.acked
  {
    var i :| 0 <= i < |x.performed| && x.performed[i].id == x.acked;
    assert y.performed[i].id == y.acked;
  }

  /** The handler's side: each of its steps keeps what is known of its own CPU. */
  lemma HandlerKeeps(x: Cpu, y: Cpu)
    requires CpuOk(x)
    requires || (x.handler.Away? && y == Taken(x))
             || (x.handler.Took? && y == Done(x))
             || (x.handler.Did? && y == x.(handler := Away, acked := x.handler.p.id))
             || y == x.(resched := true)
    ensures CpuOk(y) && Later(x, y)
  {
    if y.acked == x.acked > 0 { SameHistory(x, y); }
    else if y.acked > 0 { assert y.performed[|y.performed| - 1].id == y.acked; }
  }

  /** The publisher's side: the newest request overwrites whatever an earlier, abandoned broadcast left in the slot. */
  lemma StoreKeeps(x: Cpu, req: Request)
    requires CpuOk(x) && x.bumped != |x.published|
    ensures CpuOk(x.(slot := Some(Pending(x.bumped, req)), published := x.published + [req]))
    ensures TargetOk(x.(slot := Some(Pending(x.bumped, req)), published := x.published + [req]), Target(x.bumped, |x.performed|), req)
  {
    var y := x.(slot := Some(Pending(x.bumped, req)), published := x.published + [req]);
    if x.acked > 0 {
      var i :| 0 <= i < |x.performed| && x.performed[i].id == x.acked;
      assert y.performed[i].id == y.acked;
    }
    forall i | 0 <= i < |x.performed| ensures Genuine(y, y.performed[i]) { assert Genuine(x, x.performed[i]); }
  }

  /** An acknowledgement that reaches the newest number means that request was performed after it was published. */
  lemma AckMeansPerformed(x: Cpu, t: Target, req: Request)
    requires CpuOk(x) && TargetOk(x, t, req) && x.acked >= t.id
    ensures Performed(x, t, req)
  {
    var i :| 0 <= i < |x.performed| && x.performed[i].id == x.acked;
    assert Genuine(x, x.performed[i]);
    assert x.performed[i] == Pending(t.id, req);
  }

  lemma SenderUnmoved(s: State, s': State)
    requires SenderOk(s) && s'.sender == s.sender && |s'.cpus| == |s.cpus|
    requires forall c :: 0 <= c < |s.cpus| ==> Later(s.cpus[c], s'.cpus[c])
    ensures SenderOk(s')
  {
    forall c, t, req | 0 <= c < |s.cpus| && TargetOk(s.cpus[c], t, req) ensures TargetOk(s'.cpus[c], t, req) {
      assert Later(s.cpus[c], s'.cpus[c]);
    }
  }

  lemma KeepHandler(s: State, e: Step)
    requires Inv(s) && Enabled(s, e) && (e.Take? || e.Perform? || e.Ack? || e.Kick?)
    ensures Inv(Next(s, e))
  {
    assert CpuOk(s.cpus[e.c]);
    HandlerKeeps(s.cpus[e.c], Next(s, e).cpus[e.c]);
    SenderUnmoved(s, Next(s, e));
  }

  lemma KeepPublish(s: State, e: Step)
    requires Inv(s) && Enabled(s, e) && InRange(s, e) && (e.Begin? || e.Skip? || e.Bump? || e.Store? || e.Sent?)
    ensures Inv(Next(s, e))
  {
    if e.Store? { KeepStore(s); }
  }

  lemma KeepStore(s: State)
    requires Inv(s) && Enabled(s, Store)
    ensures Inv(Next(s, Store))
  {
    hide CpuOk, TargetOk;
    StoreKeeps(s.cpus[At(s.sender)], s.sender.req);
  }

  lemma KeepWait(s: State, e: Step)
    requires Inv(s) && Enabled(s, e) && (e.Look? || e.Succeed? || e.GiveUp? || e.Unlock?)
    ensures Inv(Next(s, e))
  {
    if e.Look? && s.sender.seen != s.sender.me {
      assert TargetOk(s.cpus[s.sender.seen], s.sender.targets[s.sender.seen].value, s.sender.req);
      assert CpuOk(s.cpus[s.sender.seen]);
    }
  }

  lemma StepKeeps(s: State, e: Step)
    requires Inv(s) && Enabled(s, e) && InRange(s, e)
    ensures Inv(Next(s, e))
  {
    if e.Take? || e.Perform? || e.Ack? || e.Kick? { KeepHandler(s, e); }
    else if e.Look? || e.Succeed? || e.GiveUp? || e.Unlock? { KeepWait(s, e); }
    else { KeepPublish(s, e); }
  }

  // ---------------------------------------------------------------- runs

  ghost predicate Init(s: State) {
    s.sender.Idle? && forall c :: 0 <= c < |s.cpus| ==> s.cpus[c] == Cpu(0, None, 0, Away, false, [], [])
  }

  ghost predicate IsRun(run: seq<State>, steps: seq<Step>) {
    && |run| == |steps| + 1 && Init(run[0])
    && forall i {:trigger steps[i]} :: 0 <= i < |steps| ==> Enabled(run[i], steps[i]) && run[i + 1] == Next(run[i], steps[i])
  }

  lemma {:induction false} RunKeeps(run: seq<State>, steps: seq<Step>, n: nat)
    requires IsRun(run, steps) && n < |run| && forall i :: 0 <= i < n ==> InRange(run[i], steps[i])
    ensures Inv(run[n])
  {
    if n > 0 {
      RunKeeps(run, steps, n - 1);
      StepKeeps(run[n - 1], steps[n - 1]);
    }
  }

  /** When a broadcast returns true, every other CPU has performed exactly that request, and did so after it was
      published to it: whatever earlier broadcasts were abandoned and however many kicks came in between, as
      long as fewer than 2^32 requests have been published to any one CPU. */
  lemma TrueMeansEveryCpuDidIt(run: seq<State>, steps: seq<Step>, n: nat, c: nat)
    requires IsRun(run, steps) && n < |run| && forall i :: 0 <= i < n ==> InRange(run[i], steps[i])
    requires run[n].sender.Returned? && run[n].sender.ok && c < |run[n].cpus| && c != run[n].sender.me
    ensures c < |run[n].sender.targets| && run[n].sender.targets[c].Some?
    ensures Performed(run[n].cpus[c], run[n].sender.targets[c].value, run[n].sender.req)
  {
    RunKeeps(run, steps, n);
    assert CpuOk(run[n].cpus[c]);
    AckMeansPerformed(run[n].cpus[c], run[n].sender.targets[c].value, run[n].sender.req);
  }

  // ---------------------------------------------------------------- the bound is needed

  ghost predicate Reached(s: State) { exists run, steps :: IsRun(run, steps) && run[|steps|] == s }

  lemma ReachedNext(s: State, e: Step)
    requires Reached(s) && Enabled(s, e)
    ensures Reached(Next(s, e))
  {
    hide Enabled, Next;
    var run, steps :| IsRun(run, steps) && run[|steps|] == s;
    var run', steps' := run + [Next(s, e)], steps + [e];
    forall i | 0 <= i < |steps'| ensures Enabled(run'[i], steps'[i]) && run'[i + 1] == Next(run'[i], steps'[i]) {
      if i < |steps| { assert steps'[i] == steps[i]; }
    }
    assert IsRun(run', steps') && run'[|steps'|] == Next(s, e);
  }

  function Asked(k: nat, req: Request): (r: seq<Request>)
    ensures |r| == k
  { seq(k, _ => req) }

  function Performances(k: nat, req: Request): (r: seq<Pending>)
    ensures |r| == k
  { seq(k, (i: nat) => Pending(i + 1, req)) }

  lemma OneMore(k: nat, req: Request)
    ensures Asked(k, req) + [req] == Asked(k + 1, req)
    ensures Performances(k, req) + [Pending(k + 1, req)] == Performances(k + 1, req)
  {}

  const FIRST: Cpu := Cpu(0, None, 0, Away, false, [], [])

  /** Two CPUs; the second has been sent `k` requests by the first, and has performed and acknowledged them all. */
  function After(k: nat, req: Request): State {
    State([FIRST, Cpu(k, None, k, Away, false, Asked(k, req), Performances(k, req))], Idle)
  }

  /** The next request has been written to the second CPU's slot and the first is waiting. */
  function Asking(k: nat, req: Request): State {
    State([FIRST, Cpu(k + 1, Some(Pending(k + 1, req)), k, Away, false, Asked(k + 1, req), Performances(k, req))],
          Waiting(0, req, [None, Some(Target(k + 1, k))], 0))
  }

  /** The second CPU has performed it and said so. */
  function Answering(k: nat, req: Request): State {
    State([FIRST, Cpu(k + 1, None, k + 1, Away, false, Asked(k + 1, req), Performances(k + 1, req))],
          Waiting(0, req, [None, Some(Target(k + 1, k))], 0))
  }

  lemma Asks(k: nat, req: Request)
    requires Reached(After(k, req))
    ensures Reached(Asking(k, req))
  {
    hide Reached, Asked, Performances;
    OneMore(k, req);
    var s0 := After(k, req);
    var y := s0.cpus[1];
    ReachedNext(s0, Begin(0, req));
    var s1 := s0.(sender := Publishing(0, req, []));
    ReachedNext(s1, Skip);
    var s2 := s0.(sender := Publishing(0, req, [None]));
    assert s1.sender.targets + [None] == [None];
    assert Next(s1, Skip) == s2;
    ReachedNext(s2, Bump);
    var s3 := State([FIRST, y.(bumped := k + 1)], Publishing(0, req, [None]));
    assert Next(s2, Bump) == s3;
    ReachedNext(s3, Store);
    assert [None] + [Some(Target(k + 1, k))] == [None, Some(Target(k + 1, k))];
    ReachedNext(Next(s3, Store), Sent);
    assert Next(Next(s3, Store), Sent) == Asking(k, req);
  }

  lemma Answers(k: nat, req: Request)
    requires Reached(Asking(k, req))
    ensures Reached(Answering(k, req))
  {
    hide Reached, Asked, Performances;
    OneMore(k, req);
    var s0 := Asking(k, req);
    ReachedNext(s0, Take(1));
    ReachedNext(Next(s0, Take(1)), Perform(1));
    ReachedNext(Next(Next(s0, Take(1)), Perform(1)), Ack(1));
    assert Next(Next(Next(s0, Take(1)), Perform(1)), Ack(1)) == Answering(k, req);
  }

  /** The wait is over for the first CPU once the second's number is not behind the one it was sent. */
  lemma Returns(s: State, req: Request, t: Target)
    requires Reached(s) && |s.cpus| == 2 && s.sender == Waiting(0, req, [None, Some(t)], 0)
    requires Wire(s.cpus[1].acked) >= Wire(t.id)
    ensures Reached(s.(sender := Returned(0, req, [None, Some(t)], true)))
  {
    hide Reached;
    ReachedNext(s, Look);
    var s1 := s.(sender := Waiting(0, req, [None, Some(t)], 1));
    assert Next(s, Look) == s1;
    ReachedNext(s1, Look);
    var s2 := s.(sender := Waiting(0, req, [None, Some(t)], 2));
    assert Next(s1, Look) == s2;
    ReachedNext(s2, Succeed);
  }

  /** However many broadcasts there have been, they can all have been answered. */
  lemma {:induction false} ManyAnswered(k: nat, req: Request)
    ensures Reached(After(k, req))
  {
    if k == 0 {
      var run, steps: seq<Step> := [After(0, req)], [];
      assert IsRun(run, steps) && run[|steps|] == After(0, req);
    } else {
      ManyAnswered(k - 1, req);
      Asks(k - 1, req);
      Answers(k - 1, req);
      Returns(Answering(k - 1, req), req, Target(k, k - 1));
      ReachedNext(Answering(k - 1, req).(sender := Returned(0, req, [None, Some(Target(k, k - 1))], true)), Unlock);
    }
  }

  /** Without the bound it is false, whatever the request: after 2^32 - 1 answered broadcasts the number wraps to 0, and
      the next broadcast can return true while the other CPU has performed nothing of it. */
  lemma WrapAnswersItself(req: Request) returns (run: seq<State>, steps: seq<Step>, t: Target)
    ensures IsRun(run, steps)
    ensures run[|steps|].sender == Returned(0, req, [None, Some(t)], true) && |run[|steps|].cpus| == 2
    ensures |run[|steps|].cpus[1].published| == U32 && !Performed(run[|steps|].cpus[1], t, req)
  {
    var k := U32 - 1;
    t := Target(k + 1, k);
    hide IsRun, Asked, Performances, Next, Enabled;
    ManyAnswered(k, req);
    Asks(k, req);
    Returns(Asking(k, req), req, t);
    var s := Asking(k, req).(sender := Returned(0, req, [None, Some(t)], true));
    run, steps :| IsRun(run, steps) && run[|steps|] == s;
  }
}
