/**
Message endpoints: a bounded queue, a line of blocked receivers, and the tasks' inboxes.

`Endpoint` is the object the kernel mutates under the endpoint's lock; `Deliver` and `TakeOrRegister`
are the locked sections of `deliver` and `recv`. `World` is every endpoint and task together, and a step
is one locked section: a sender fills an inbox under the endpoint's lock and wakes the receiver only
after letting it go, so the wake-up is a step of its own.
*/
module Ipc {
  import opened Wrappers

  const QUEUE_LIMIT: nat := 64

  datatype Message = Message(sender: TaskId, words: seq<nat>, cap: Option<nat>)

  /** `receiving` names the endpoint a task is inside `recv` on. */
  datatype Task = Task(blocked: bool, inbox: Option<Message>, receiving: Option<nat>)

  /** What the locked section of `deliver` leaves behind. */
  datatype Delivery = Delivery(
    queue: seq<Message>, receivers: seq<TaskId>, tasks: map<TaskId, Task>, woken: Option<TaskId>, accepted: bool)

  function DeliverTo(queue: seq<Message>, receivers: seq<TaskId>, tasks: map<TaskId, Task>, m: Message): Delivery
    decreases |receivers|
  {
    if receivers == [] then
      if |queue| >= QUEUE_LIMIT then Delivery(queue, receivers, tasks, None, false)
      else Delivery(queue + [m], receivers, tasks, None, true)
    else
      var rx, rest := receivers[0], receivers[1..];
      if rx !in tasks then Delivery(queue, rest, tasks, Some(rx), true)
      else if tasks[rx].blocked then Delivery(queue, rest, tasks[rx := tasks[rx].(inbox := Some(m))], Some(rx), true)
      else DeliverTo(queue, rest, tasks, m)
  }

  /** What the locked section of `recv` leaves behind. */
  datatype Turn = Turn(queue: seq<Message>, receivers: seq<TaskId>, tasks: map<TaskId, Task>, got: Option<Message>)

  /** A queued message and the call is over, or a place in the line and no longer runnable. */
  function RecvTurn(queue: seq<Message>, receivers: seq<TaskId>, tasks: map<TaskId, Task>, me: TaskId, e: nat): Turn
    requires me in tasks
  {
    if queue != [] then Turn(queue[1..], receivers, tasks[me := tasks[me].(receiving := None)], Some(queue[0]))
    else Turn(queue, receivers + [me], tasks[me := Task(true, None, Some(e))], None)
  }

  class Endpoint {
    var queue: seq<Message>
    var receivers: seq<TaskId>

    constructor ()
      ensures queue == [] && receivers == []
    {
      queue, receivers := [], [];
    }

    /** The locked section of `deliver`: hand the message to the first receiver that is still blocked, or queue it. */
    method Deliver(table: Tasks<Task>, m: Message) returns (accepted: bool, woken: Option<TaskId>)
      modifies this, table
      ensures Delivery(queue, receivers, table.tasks, woken, accepted)
              == DeliverTo(old(queue), old(receivers), old(table.tasks), m)
    {
      while receivers != []
        invariant queue == old(queue) && table.tasks == old(table.tasks)
        invariant DeliverTo(queue, receivers, table.tasks, m) == DeliverTo(old(queue), old(receivers), old(table.tasks), m)
        decreases |receivers|
      {
        var rx := receivers[0];
        receivers := receivers[1..];
        if rx !in table.tasks {
          return true, Some(rx);
        }
        if table.tasks[rx].blocked {
          table.tasks := table.tasks[rx := table.tasks[rx].(inbox := Some(m))];
          return true, Some(rx);
        }
      }
      if |queue| >= QUEUE_LIMIT {
        return false, None;
      }
      queue := queue + [m];
      return true, None;
    }

    /** `try_recv`. */
    method TryRecv() returns (m: Option<Message>)
      modifies this
      ensures receivers == old(receivers)
      ensures old(queue) == [] ==> m == None && queue == []
      ensures old(queue) != [] ==> m == Some(old(queue)[0]) && queue == old(queue)[1..]
    {
      if queue == [] { return None; }
      m := Some(queue[0]);
      queue := queue[1..];
    }

    /** The locked section of `recv` on this endpoint, which the model numbers `self`. */
    method TakeOrRegister(table: Tasks<Task>, me: TaskId, self: nat) returns (m: Option<Message>)
      requires me in table.tasks
      modifies this, table
      ensures Turn(queue, receivers, table.tasks, m) == RecvTurn(old(queue), old(receivers), old(table.tasks), me, self)
    {
      if queue != [] {
        m := Some(queue[0]);
        queue := queue[1..];
        table.tasks := table.tasks[me := table.tasks[me].(receiving := None)];
        return;
      }
      receivers := receivers + [me];
      table.tasks := table.tasks[me := Task(true, None, Some(self))];
      return None;
    }
  }

  // ---------------------------------------------------------------- every endpoint and task together

  datatype Taken = Taken(taker: TaskId, msg: Message)

  /** `accepted`, `given` and `returned` are the endpoint's history: what senders were told was taken, what
      was given to a receiver and to whom, and what `recv` or `try_recv` handed back to its caller. */
  datatype Ep = Ep(
    queue: seq<Message>, receivers: seq<TaskId>, peer: Option<nat>,
    accepted: seq<Message>, given: seq<Taken>, returned: seq<Taken>)

  /** `wakes` are receivers whose inbox has been filled and whose sender has not woken them yet. */
  datatype World = World(eps: seq<Ep>, tasks: map<TaskId, Task>, wakes: seq<TaskId>)

  datatype Step =
    | NewTask(t: TaskId)
    | Exit(t: TaskId)
    | NewEndpoint
    | NewPair
    | Send(e: nat, m: Message)
    | Wake(i: nat)
    | TryRecv(t: TaskId, e: nat)
    | Recv(t: TaskId, e: nat)
    | Resume(t: TaskId)

  const Fresh := Ep([], [], None, [], [], [])

  /** A task acts only while it runs and is not inside `recv`; it ends only by its own exit. */
  predicate Free(w: World, t: TaskId) { t in w.tasks && !w.tasks[t].blocked && w.tasks[t].receiving.None? }

  predicate Enabled(w: World, s: Step) {
    match s
    case NewTask(t) => t !in w.tasks
    case Exit(t) => Free(w, t)
    case NewEndpoint => true
    case NewPair => true
    case Send(e, _) => e < |w.eps| && (w.eps[e].peer.Some? ==> w.eps[e].peer.value < |w.eps|)
    case Wake(i) => i < |w.wakes|
    case TryRecv(t, e) => e < |w.eps| && Free(w, t)
    case Recv(t, e) => e < |w.eps| && Free(w, t)
    case Resume(t) => t in w.tasks && !w.tasks[t].blocked && w.tasks[t].receiving.Some? && w.tasks[t].receiving.value < |w.eps|
  }

  function Target(w: World, e: nat): nat
    requires Enabled(w, Send(e, Message(0, [], None)))
  { if w.eps[e].peer.Some? then w.eps[e].peer.value else e }

  function DoSend(w: World, to: nat, m: Message): World
    requires to < |w.eps|
  {
    var x := w.eps[to];
    var d := DeliverTo(x.queue, x.receivers, w.tasks, m);
    var direct := d.woken.Some? && d.woken.value in w.tasks;
    World(
      w.eps[to := Ep(d.queue, d.receivers, x.peer,
                     if d.accepted then x.accepted + [m] else x.accepted,
                     if direct then x.given + [Taken(d.woken.value, m)] else x.given, x.returned)],
      d.tasks,
      if d.woken.Some? then w.wakes + [d.woken.value] else w.wakes)
  }

  function PopFor(x: Ep, t: TaskId): Ep
    requires x.queue != []
  {
    var got := [Taken(t, x.queue[0])];
    x.(queue := x.queue[1..], given := x.given + got, returned := x.returned + got)
  }

  /** One turn of the `recv` loop, up to the point where it returns or has switched away. */
  function DoRecv(w: World, t: TaskId, e: nat): World
    requires e < |w.eps| && t in w.tasks
  {
    var x := w.eps[e];
    var r := RecvTurn(x.queue, x.receivers, w.tasks, t, e);
    w.(eps := w.eps[e := if r.got.Some? then PopFor(x, t) else x.(receivers := r.receivers)], tasks := r.tasks)
  }

  function DoResume(w: World, t: TaskId): World
    requires Enabled(w, Resume(t))
  {
    var x := w.tasks[t];
    var e := x.receiving.value;
    if x.inbox.Some? then
      w.(eps := w.eps[e := w.eps[e].(returned := w.eps[e].returned + [Taken(t, x.inbox.value)])],
      tasks := w.tasks[t := Task(false, None, None)])
    else DoRecv(w, t, e)
  }

  function DoWake(w: World, i: nat): World
    requires i < |w.wakes|
  {
    var t := w.wakes[i];
    w.(wakes := w.wakes[..i] + w.wakes[i + 1..],
    tasks := if t in w.tasks && w.tasks[t].blocked then w.tasks[t := w.tasks[t].(blocked := false)] else w.tasks)
  }

  function Next(w: World, s: Step): World
    requires Enabled(w, s)
  {
    match s
    case NewTask(t) => w.(tasks := w.tasks[t := Task(false, None, None)])
    case Exit(t) => w.(tasks := w.tasks - {t})
    case NewEndpoint => w.(eps := w.eps + [Fresh])
    case NewPair => w.(eps := w.eps + [Fresh.(peer := Some(|w.eps| + 1)), Fresh.(peer := Some(|w.eps|))])
    case Send(e, m) => DoSend(w, Target(w, e), m)
    case Wake(i) => DoWake(w, i)
    case TryRecv(t, e) => if w.eps[e].queue == [] then w else w.(eps := w.eps[e := PopFor(w.eps[e], t)])
    case Recv(t, e) => DoRecv(w, t, e)
    case Resume(t) => DoResume(w, t)
  }

  // ---------------------------------------------------------------- what every run keeps

  function Msgs(l: seq<Taken>): seq<Message> {
    if l == [] then [] else Msgs(l[..|l| - 1]) + [l[|l| - 1].msg]
  }

  /** The messages of a log that went to `t`, in order. */
  function For(l: seq<Taken>, t: TaskId): seq<Message> {
    if l == [] then []
    else For(l[..|l| - 1], t) + (if l[|l| - 1].taker == t then [l[|l| - 1].msg] else [])
  }

  function InInbox(w: World, e: nat, t: TaskId): seq<Message> {
    if t in w.tasks && w.tasks[t].receiving == Some(e) && w.tasks[t].inbox.Some? then [w.tasks[t].inbox.value] else []
  }

  /** Messages are given out in the order they were accepted, and what is not given out is still queued. */
  ghost predicate InOrder(x: Ep) { x.accepted == Msgs(x.given) + x.queue }

  /** Every message given to a task has been returned to it, once and in order, but for the one in its inbox. */
  predicate Once(w: World, e: nat, t: TaskId) {
    e < |w.eps| && For(w.eps[e].given, t) == For(w.eps[e].returned, t) + InInbox(w, e, t)
  }

  ghost predicate ExactlyOnce(w: World) {
    forall e: nat, t: TaskId :: e < |w.eps| ==> Once(w, e, t)
  }

  /** Nobody waits while there is something to take, and whoever waits really is waiting. */
  ghost predicate LineOk(w: World, e: nat)
    requires e < |w.eps|
  {
    var x := w.eps[e];
    && |x.queue| <= QUEUE_LIMIT
    && (x.queue != [] ==> x.receivers == [])
    && (x.peer.Some? ==> x.peer.value < |w.eps|)
    && (forall i :: 0 <= i < |x.receivers| ==> x.receivers[i] in w.tasks && w.tasks[x.receivers[i]] == Task(true, None, Some(e)))
    && (forall i, j :: 0 <= i < j < |x.receivers| ==> x.receivers[i] != x.receivers[j])
  }

  ghost predicate TaskOk(w: World, t: TaskId)
    requires t in w.tasks
  {
    var x := w.tasks[t];
    match x.receiving
    case None => !x.blocked && x.inbox == None
    case Some(e) =>
      e < |w.eps| && x.blocked == (x.inbox.None? || t in w.wakes) && (x.inbox.None? ==> t in w.eps[e].receivers)
  }

  ghost predicate WakesOk(w: World) {
    && (forall i :: 0 <= i < |w.wakes| ==> w.wakes[i] in w.tasks && w.tasks[w.wakes[i]].blocked && w.tasks[w.wakes[i]].inbox.Some?)
    && (forall i, j :: 0 <= i < j < |w.wakes| ==> w.wakes[i] != w.wakes[j])
  }

  ghost predicate Inv(w: World) {
    && (forall e :: 0 <= e < |w.eps| ==> InOrder(w.eps[e]))
    && (forall e :: 0 <= e < |w.eps| ==> LineOk(w, e))
    && (forall t :: t in w.tasks ==> TaskOk(w, t))
    && WakesOk(w)
    && ExactlyOnce(w)
  }

  // ---------------------------------------------------------------- each step keeps it

  lemma AppendMsgs(l: seq<Taken>, x: Taken)
    ensures Msgs(l + [x]) == Msgs(l) + [x.msg]
  {
    assert (l + [x])[..|l|] == l;
  }

  lemma AppendFor(l: seq<Taken>, x: Taken, t: TaskId)
    ensures For(l + [x], t) == For(l, t) + (if x.taker == t then [x.msg] else [])
  {
    assert (l + [x])[..|l|] == l;
  }

  /** A registered receiver is always served: the branches of `deliver` for a receiver that is gone or no
      longer blocked are never taken. */
  lemma HeadIsWaiting(w: World, e: nat)
    requires Inv(w) && e < |w.eps| && w.eps[e].receivers != []
    ensures w.eps[e].receivers[0] in w.tasks && w.tasks[w.eps[e].receivers[0]] == Task(true, None, Some(e))
    ensures w.eps[e].queue == []
    ensures w.eps[e].receivers[0] !in w.wakes
  {
    assert LineOk(w, e);
  }

  function Give(w: World, e: nat, m: Message): World
    requires e < |w.eps| && w.eps[e].receivers != []
  {
    var x := w.eps[e];
    var rx := x.receivers[0];
    World(w.eps[e := x.(receivers := x.receivers[1..], accepted := x.accepted + [m], given := x.given + [Taken(rx, m)])],
          w.tasks[rx := Task(true, Some(m), Some(e))], w.wakes + [rx])
  }

  function Enqueue(w: World, e: nat, m: Message): World
    requires e < |w.eps|
  { w.(eps := w.eps[e := w.eps[e].(queue := w.eps[e].queue + [m], accepted := w.eps[e].accepted + [m])]) }

  /** What a send comes to: the first receiver in line gets the message, or it is queued, or refused at 64. */
  lemma SendIs(w: World, e: nat, m: Message)
    requires Inv(w) && e < |w.eps|
    ensures DoSend(w, e, m) == if w.eps[e].receivers != [] then Give(w, e, m)
                               else if |w.eps[e].queue| < QUEUE_LIMIT then Enqueue(w, e, m) else w
  {
    if w.eps[e].receivers != [] { HeadIsWaiting(w, e); }
    else if |w.eps[e].queue| >= QUEUE_LIMIT { assert w.eps == w.eps[e := w.eps[e]]; }
  }

  lemma GiveOnce(w: World, e: nat, m: Message, d: nat, t: TaskId)
    requires e < |w.eps| && w.eps[e].receivers != [] && Once(w, d, t)
    requires w.eps[e].receivers[0] in w.tasks && w.tasks[w.eps[e].receivers[0]] == Task(true, None, Some(e))
    ensures Once(Give(w, e, m), d, t)
  {
    AppendFor(w.eps[e].given, Taken(w.eps[e].receivers[0], m), t);
  }

  lemma GiveLine(w: World, e: nat, m: Message, d: nat)
    requires e < |w.eps| && d < |w.eps| && LineOk(w, e) && LineOk(w, d) && w.eps[e].receivers != []
    ensures LineOk(Give(w, e, m), d)
  {}

  lemma GiveTask(w: World, e: nat, m: Message, t: TaskId)
    requires e < |w.eps| && LineOk(w, e) && w.eps[e].receivers != [] && t in w.tasks && TaskOk(w, t)
    ensures TaskOk(Give(w, e, m), t)
  {
    var x := w.eps[e];
    assert x.receivers == [x.receivers[0]] + x.receivers[1..];
  }

  lemma KeepGive(w: World, e: nat, m: Message)
    requires Inv(w) && e < |w.eps| && w.eps[e].receivers != []
    ensures Inv(Give(w, e, m))
  {
    HeadIsWaiting(w, e);
    var w' := Give(w, e, m);
    AppendMsgs(w.eps[e].given, Taken(w.eps[e].receivers[0], m));
    assert InOrder(w.eps[e]);
    forall d: nat, t: TaskId | d < |w'.eps| ensures Once(w', d, t) { assert Once(w, d, t); GiveOnce(w, e, m, d, t); }
    forall d | 0 <= d < |w'.eps| ensures LineOk(w', d) { assert LineOk(w, d) && LineOk(w, e); GiveLine(w, e, m, d); }
    forall t | t in w'.tasks ensures TaskOk(w', t) { assert TaskOk(w, t); GiveTask(w, e, m, t); }
  }

  lemma KeepEnqueue(w: World, e: nat, m: Message)
    requires Inv(w) && e < |w.eps| && w.eps[e].receivers == [] && |w.eps[e].queue| < QUEUE_LIMIT
    ensures Inv(Enqueue(w, e, m))
  {
    var w' := Enqueue(w, e, m);
    assert InOrder(w.eps[e]);
    forall d: nat, t: TaskId | d < |w'.eps| ensures Once(w', d, t) { assert Once(w, d, t); }
    forall d | 0 <= d < |w'.eps| ensures LineOk(w', d) { assert LineOk(w, d); }
    forall t | t in w'.tasks ensures TaskOk(w', t) { assert TaskOk(w, t); }
  }

  /** `t` takes the oldest queued message itself. */
  function Pop(w: World, e: nat, t: TaskId): World
    requires e < |w.eps| && w.eps[e].queue != []
  { w.(eps := w.eps[e := PopFor(w.eps[e], t)]) }

  lemma PopOnce(w: World, e: nat, t: TaskId, d: nat, u: TaskId)
    requires e < |w.eps| && w.eps[e].queue != [] && Once(w, d, u)
    requires InInbox(w, e, t) == []
    ensures Once(Pop(w, e, t), d, u)
  {
    AppendFor(w.eps[e].given, Taken(t, w.eps[e].queue[0]), u);
    AppendFor(w.eps[e].returned, Taken(t, w.eps[e].queue[0]), u);
  }

  lemma KeepPop(w: World, e: nat, t: TaskId)
    requires Inv(w) && e < |w.eps| && w.eps[e].queue != [] && Free(w, t)
    ensures Inv(Pop(w, e, t))
  {
    var w', x := Pop(w, e, t), w.eps[e];
    AppendMsgs(x.given, Taken(t, x.queue[0]));
    assert InOrder(x) && x.queue == [x.queue[0]] + x.queue[1..];
    forall d: nat, u: TaskId | d < |w'.eps| ensures Once(w', d, u) { assert Once(w, d, u); PopOnce(w, e, t, d, u); }
    forall d | 0 <= d < |w'.eps| ensures LineOk(w', d) { assert LineOk(w, d); }
    forall u | u in w'.tasks ensures TaskOk(w', u) { assert TaskOk(w, u); }
  }

  function Register(w: World, e: nat, t: TaskId): World
    requires e < |w.eps|
  { w.(eps := w.eps[e := w.eps[e].(receivers := w.eps[e].receivers + [t])], tasks := w.tasks[t := Task(true, None, Some(e))]) }

  lemma RegisterTask(w: World, e: nat, t: TaskId, u: TaskId)
    requires e < |w.eps| && u in w.tasks && TaskOk(w, u)
    ensures TaskOk(Register(w, e, t), u)
  {
    assert Register(w, e, t).eps[e].receivers[|w.eps[e].receivers|] == t;
  }

  lemma KeepRegister(w: World, e: nat, t: TaskId)
    requires Inv(w) && e < |w.eps| && w.eps[e].queue == [] && Free(w, t)
    ensures Inv(Register(w, e, t))
  {
    var w' := Register(w, e, t);
    assert TaskOk(w, t);
    forall d | 0 <= d < |w.eps| ensures t !in w.eps[d].receivers { assert LineOk(w, d); }
    forall d: nat, u: TaskId | d < |w'.eps| ensures Once(w', d, u) { assert Once(w, d, u); }
    forall d | 0 <= d < |w'.eps| ensures LineOk(w', d) { assert LineOk(w, d); }
    forall u | u in w'.tasks ensures TaskOk(w', u) { assert TaskOk(w, u); RegisterTask(w, e, t, u); }
  }

  /** A receiver that runs again always finds its message: `recv` never has to go round its loop. */
  lemma ResumeFinds(w: World, t: TaskId)
    requires Inv(w) && Enabled(w, Resume(t))
    ensures w.tasks[t].inbox.Some? && t !in w.wakes
  {
    assert TaskOk(w, t);
  }

  lemma ResumeOnce(w: World, t: TaskId, d: nat, u: TaskId)
    requires Enabled(w, Resume(t)) && w.tasks[t].inbox.Some? && Once(w, d, u)
    ensures Once(DoResume(w, t), d, u)
  {
    var e := w.tasks[t].receiving.value;
    AppendFor(w.eps[e].returned, Taken(t, w.tasks[t].inbox.value), u);
  }

  lemma KeepResume(w: World, t: TaskId)
    requires Inv(w) && Enabled(w, Resume(t))
    ensures Inv(DoResume(w, t))
  {
    ResumeFinds(w, t);
    var w' := DoResume(w, t);
    forall d: nat, u: TaskId | d < |w'.eps| ensures Once(w', d, u) { assert Once(w, d, u); ResumeOnce(w, t, d, u); }
    forall d | 0 <= d < |w'.eps| ensures InOrder(w'.eps[d]) && LineOk(w', d) { assert InOrder(w.eps[d]) && LineOk(w, d); }
    forall u | u in w'.tasks ensures TaskOk(w', u) { assert TaskOk(w, u); }
  }

  lemma WakeTask(w: World, i: nat, u: TaskId)
    requires i < |w.wakes| && WakesOk(w) && u in w.tasks && TaskOk(w, u)
    ensures TaskOk(DoWake(w, i), u)
  {
    var l, l' := w.wakes, DoWake(w, i).wakes;
    if u != l[i] && u in l {
      var j :| 0 <= j < |l| && l[j] == u;
      assert l'[if j < i then j else j - 1] == u;
    }
  }

  lemma KeepWake(w: World, i: nat)
    requires Inv(w) && i < |w.wakes|
    ensures Inv(DoWake(w, i))
  {
    var w' := DoWake(w, i);
    forall d: nat, u: TaskId | d < |w'.eps| ensures Once(w', d, u) { assert Once(w, d, u); }
    forall d | 0 <= d < |w'.eps| ensures LineOk(w', d) { assert LineOk(w, d); }
    forall u | u in w'.tasks ensures TaskOk(w', u) { assert TaskOk(w, u); WakeTask(w, i, u); }
  }

  /** Tasks and endpoints that come and go while nobody is inside them. */
  lemma KeepOthers(w: World, s: Step)
    requires Inv(w) && Enabled(w, s) && (s.NewTask? || s.Exit? || s.NewEndpoint? || s.NewPair?)
    ensures Inv(Next(w, s))
  {
    var w' := Next(w, s);
    if s.Exit? || s.NewTask? {
      forall d | 0 <= d < |w.eps| ensures s.t !in w.eps[d].receivers { assert LineOk(w, d); assert s.Exit? ==> TaskOk(w, s.t); }
    }
    forall d: nat, u: TaskId | d < |w'.eps| ensures Once(w', d, u) { OthersOnce(w, s, d, u); }
    forall d | 0 <= d < |w.eps| ensures LineOk(w', d) { assert LineOk(w, d); }
    forall d | 0 <= d < |w.eps| ensures InOrder(w'.eps[d]) { assert InOrder(w.eps[d]); }
    forall u | u in w'.tasks ensures TaskOk(w', u) { assert u in w.tasks ==> TaskOk(w, u); }
  }

  lemma OthersOnce(w: World, s: Step, d: nat, u: TaskId)
    requires Inv(w) && Enabled(w, s) && (s.NewTask? || s.Exit? || s.NewEndpoint? || s.NewPair?) && d < |Next(w, s).eps|
    ensures Once(Next(w, s), d, u)
  {
    if d < |w.eps| { assert Once(w, d, u); }
    else if u in w.tasks { assert TaskOk(w, u); }
  }

  lemma StepKeeps(w: World, s: Step)
    requires Inv(w) && Enabled(w, s)
    ensures Inv(Next(w, s))
  {
    match s
    case Send(e, m) =>
      var to := Target(w, e);
      SendIs(w, to, m);
      if w.eps[to].receivers != [] { KeepGive(w, to, m); }
      else if |w.eps[to].queue| < QUEUE_LIMIT { KeepEnqueue(w, to, m); }
    case Wake(i) => KeepWake(w, i);
    case TryRecv(t, e) => if w.eps[e].queue != [] { KeepPop(w, e, t); }
    case Recv(t, e) =>
      assert TaskOk(w, t);
      if w.eps[e].queue != [] {
        assert w.tasks == w.tasks[t := w.tasks[t].(receiving := None)];
        KeepPop(w, e, t);
      } else { KeepRegister(w, e, t); }
    case Resume(t) => KeepResume(w, t);
    case _ => KeepOthers(w, s);
  }

  // ---------------------------------------------------------------- runs

  ghost predicate IsRun(run: seq<World>, steps: seq<Step>) {
    && |run| == |steps| + 1
    && run[0] == World([], map[], [])
    && forall i {:trigger steps[i]} :: 0 <= i < |steps| ==> Enabled(run[i], steps[i]) && run[i + 1] == Next(run[i], steps[i])
  }

  lemma {:induction false} RunKeeps(run: seq<World>, steps: seq<Step>, n: nat)
    requires IsRun(run, steps) && n < |run|
    ensures Inv(run[n])
  {
    if n > 0 {
      RunKeeps(run, steps, n - 1);
      StepKeeps(run[n - 1], steps[n - 1]);
    }
  }

  /** Over every run, for every endpoint and task: accepted messages are given out in order and none is dropped,
      each one given to a task is returned to it exactly once or is in its inbox, the queue is bounded, and a
      message is never queued while a receiver is in line. */
  lemma MessagesConserved(run: seq<World>, steps: seq<Step>, n: nat, e: nat, t: TaskId)
    requires IsRun(run, steps) && n < |run| && e < |run[n].eps|
    ensures run[n].eps[e].accepted == Msgs(run[n].eps[e].given) + run[n].eps[e].queue
    ensures For(run[n].eps[e].given, t) == For(run[n].eps[e].returned, t) + InInbox(run[n], e, t)
    ensures |run[n].eps[e].queue| <= QUEUE_LIMIT
    ensures run[n].eps[e].queue == [] || run[n].eps[e].receivers == []
  {
    RunKeeps(run, steps, n);
    assert InOrder(run[n].eps[e]) && LineOk(run[n], e) && Once(run[n], e, t);
  }

  /** No wake-up is lost: a task inside `recv` is in line and blocked, or has its message and is awake or about to be woken. */
  lemma NoLostWakeup(run: seq<World>, steps: seq<Step>, n: nat, t: TaskId)
    requires IsRun(run, steps) && n < |run| && t in run[n].tasks && run[n].tasks[t].receiving.Some?
    ensures var x, e := run[n].tasks[t], run[n].tasks[t].receiving.value;
            e < |run[n].eps| &&
            if x.inbox.None? then x.blocked && t in run[n].eps[e].receivers
            else t !in run[n].eps[e].receivers && (x.blocked <==> t in run[n].wakes)
  {
    RunKeeps(run, steps, n);
    assert TaskOk(run[n], t);
    assert LineOk(run[n], run[n].tasks[t].receiving.value);
  }

  /** The branch of `deliver` that loses a message to a receiver that is gone is never taken. */
  lemma NoVanishedReceiver(run: seq<World>, steps: seq<Step>, n: nat)
    requires IsRun(run, steps) && n < |steps| && steps[n].Send?
    ensures var to := Target(run[n], steps[n].e);
            var d := DeliverTo(run[n].eps[to].queue, run[n].eps[to].receivers, run[n].tasks, steps[n].m);
            && (d.woken.Some? ==> d.woken.value in run[n].tasks && d.woken.value in d.tasks && d.tasks[d.woken.value].inbox == Some(steps[n].m))
            && (d.accepted <==> |run[n].eps[to].queue| < QUEUE_LIMIT)
  {
    RunKeeps(run, steps, n);
    var to := Target(run[n], steps[n].e);
    if run[n].eps[to].receivers != [] { HeadIsWaiting(run[n], to); }
  }
}
