/**
How authority moves: every task's table, every message and inbox, every grant kept for a restart, and every
copy a call has taken out of one of these and not put into another yet, as a state machine over the steps of
the system calls that can create, copy, move or drop a capability.

A step is what one call does under one lock. Between two steps of a call the copies it has taken are on the kernel
stack, in the hands of the calling task, and anything may happen to the tables meanwhile. Messages that carry
no capability are left out. Every copy made by `derive` is numbered, so that one that was already made can be
told from one made later.
*/
module Authority {
  import opened Wrappers
  import opened Caps

  const MAX_SPAWN_GRANTS: nat := 8

  datatype Copy = Copy(number: nat, cap: Capability)

  /** How far a task has got with the call it is in. */
  datatype Call =
    | Reaching(q: nat)                                // send_cap: endpoint looked up
    | Sending(q: nat, copy: Copy)                     // send_cap: capability derived
    | Fetching(q: nat)                                // recv: endpoint looked up
    | Waiting(q: nat)                                 // recv: blocked, in the receivers' queue
    | Keeping(copy: Copy)                             // recv or a create call: about to insert into its own table
    | Gathering(copies: seq<Copy>)                    // spawn: grants derived so far
    | Permitted(copies: seq<Copy>)                    // spawn: spawn authority checked
    | Imaged(copies: seq<Copy>)                       // spawn: image looked up
    | Named(service: nat)                             // spawn or restart: service chosen
    | Starting(service: nat, copies: seq<Copy>)       // spawn or restart: grants read out of the service's record
    | Revoking(victim: TaskId, slot: nat)             // revoke: authority checked

  /** `queues` by endpoint id, `calls` the tasks that are in the middle of a call, `services` the grants kept per
      registered service, `roots` every capability made by a create call or listed for a service at boot. */
  datatype State = State(
    tables: map<TaskId, Table>, queues: map<nat, seq<Copy>>, inbox: map<TaskId, Copy>, calls: map<TaskId, Call>,
    services: seq<seq<Copy>>, peer: map<nat, nat>, roots: set<Capability>,
    nextObject: nat, nextCopy: nat, nextTask: TaskId)

  datatype Kind = NewEndpoint | NewNotify | NewMemory(dma: bool) | NewIrq(slot: nat)

  datatype Destination = ToQueue | ToInbox(rx: TaskId)

  datatype Step =
    | Create(t: TaskId, kind: Kind)
    | Keep(t: TaskId)
    | SendLook(t: TaskId, ep: nat)
    | SendDerive(t: TaskId, slot: nat, mask: Rights)
    | Deliver(t: TaskId, dest: Destination)
    | RecvLook(t: TaskId, ep: nat)
    | Take(t: TaskId)
    | Block(t: TaskId)
    | Resume(t: TaskId)
    | Retry(t: TaskId)
    | Ask(t: TaskId)
    | Gather(t: TaskId, slot: nat, mask: Rights)
    | Permit(t: TaskId, ctl: nat)
    | Image(t: TaskId, image: nat)
    | Register(t: TaskId)
    | Restart(t: TaskId, service: nat)
    | ReadSpec(t: TaskId)
    | Publish(t: TaskId)
    | RevokeLook(t: TaskId, victim: TaskId, slot: nat)
    | RevokeNow(t: TaskId)
    | Drop(t: TaskId, slot: nat)
    | GiveUp(t: TaskId)
    | Exit(t: TaskId)

  function Created(s: State, kind: Kind): Capability {
    match kind
    case NewEndpoint => Capability(Endpoint(s.nextObject), SEND + RECV + GRANT)
    case NewNotify => Capability(Notify(s.nextObject), SIGNAL + WAIT + GRANT)
    case NewMemory(dma) => Capability(Memory(s.nextObject), MAP_READ + MAP_WRITE + GRANT + (if dma then DMA else {}))
    case NewIrq(_) => Capability(Irq(s.nextObject), RECV + GRANT)
  }

  /** The endpoint a slot names, if it carries the right asked for. */
  function EndpointAt(t: Table, slot: nat, rights: Rights): Option<nat> {
    var c := Lookup(t, slot, rights);
    if c.Some? && c.value.obj.Endpoint? then Some(c.value.obj.id) else None
  }

  function Target(s: State, e: nat): nat { if e in s.peer then s.peer[e] else e }

  predicate HasControl(t: Table) { exists i :: 0 <= i < |t.slots| && t.slots[i].Some? && t.slots[i].value.obj.Control? }

  predicate InCall(s: State, t: TaskId) { t in s.tables && t in s.calls }

  predicate Free(s: State, t: TaskId) { t in s.tables && t !in s.calls }

  /** A call goes on from the point it has reached; a task starts one only when it is in none. */
  predicate Enabled(s: State, e: Step) {
    match e
    case Create(t, kind) =>
      Free(s, t) && (kind.NewIrq? ==> var d := Lookup(s.tables[t], kind.slot, MAP_READ + MAP_WRITE); d.Some? && d.value.obj.Device?)
    case Keep(t) => InCall(s, t) && s.calls[t].Keeping?
    case SendLook(t, ep) => Free(s, t) && EndpointAt(s.tables[t], ep, SEND).Some?
    case SendDerive(t, slot, mask) => InCall(s, t) && s.calls[t].Reaching? && Derive(s.tables[t], slot, mask).Some?
    case Deliver(t, dest) =>
      && InCall(s, t) && s.calls[t].Sending?
      && (dest.ToInbox? ==> InCall(s, dest.rx) && s.calls[dest.rx] == Waiting(Target(s, s.calls[t].q)) && dest.rx !in s.inbox)
    case RecvLook(t, ep) => Free(s, t) && EndpointAt(s.tables[t], ep, RECV).Some?
    case Take(t) => InCall(s, t) && s.calls[t].Fetching? && s.calls[t].q in s.queues && s.queues[s.calls[t].q] != []
    case Block(t) => InCall(s, t) && s.calls[t].Fetching?
    case Resume(t) => InCall(s, t) && s.calls[t].Waiting? && t in s.inbox
    case Retry(t) => InCall(s, t) && s.calls[t].Waiting? && t !in s.inbox
    case Ask(t) => Free(s, t)
    case Gather(t, slot, mask) =>
      InCall(s, t) && s.calls[t].Gathering? && |s.calls[t].copies| < MAX_SPAWN_GRANTS && Derive(s.tables[t], slot, mask).Some?
    case Permit(t, ctl) =>
      InCall(s, t) && s.calls[t].Gathering? && var c := Lookup(s.tables[t], ctl, SPAWN); c.Some? && c.value.obj.Control?
    case Image(t, image) =>
      InCall(s, t) && s.calls[t].Permitted? && var m := Lookup(s.tables[t], image, MAP_READ); m.Some? && m.value.obj.Memory?
    case Register(t) => InCall(s, t) && s.calls[t].Imaged?
    case Restart(t, i) => Free(s, t) && i < |s.services|
    case ReadSpec(t) => InCall(s, t) && s.calls[t].Named? && s.calls[t].service < |s.services|
    case Publish(t) => InCall(s, t) && s.calls[t].Starting?
    case RevokeLook(t, victim, _) => Free(s, t) && (victim == t || HasControl(s.tables[t]))
    case RevokeNow(t) => InCall(s, t) && s.calls[t].Revoking?
    case Drop(t, _) => Free(s, t)
    case GiveUp(t) => InCall(s, t) && !s.calls[t].Waiting?
    case Exit(t) => Free(s, t)
  }

  function InsertAll(t: Table, copies: seq<Copy>): Table {
    if copies == [] then t else Inserted(InsertAll(t, copies[..|copies| - 1]), copies[|copies| - 1].cap)
  }

  function SetTable(s: State, t: TaskId, x: Table): State { s.(tables := s.tables[t := x]) }

  function Goes(s: State, t: TaskId, x: Call): State { s.(calls := s.calls[t := x]) }

  function Done(s: State, t: TaskId): State { s.(calls := s.calls - {t}) }

  function Post(s: State, to: nat, x: Copy, dest: Destination): State {
    match dest
    case ToInbox(rx) => s.(inbox := s.inbox[rx := x])
    case ToQueue => s.(queues := s.queues[to := (if to in s.queues then s.queues[to] else []) + [x]])
  }

  function Next(s: State, e: Step): State
    requires Enabled(s, e)
  {
    match e
    case Create(t, kind) =>
      Goes(s, t, Keeping(Copy(s.nextCopy, Created(s, kind)))).(
      roots := s.roots + {Created(s, kind)}, nextObject := s.nextObject + 1, nextCopy := s.nextCopy + 1)
    case Keep(t) => SetTable(Done(s, t), t, Inserted(s.tables[t], s.calls[t].copy.cap))
    case SendLook(t, ep) => Goes(s, t, Reaching(EndpointAt(s.tables[t], ep, SEND).value))
    case SendDerive(t, slot, mask) =>
      Goes(s, t, Sending(s.calls[t].q, Copy(s.nextCopy, Derive(s.tables[t], slot, mask).value))).(nextCopy := s.nextCopy + 1)
    case Deliver(t, dest) => Post(Done(s, t), Target(s, s.calls[t].q), s.calls[t].copy, dest)
    case RecvLook(t, ep) => Goes(s, t, Fetching(EndpointAt(s.tables[t], ep, RECV).value))
    case Take(t) =>
      var q := s.calls[t].q;
      Goes(s, t, Keeping(s.queues[q][0])).(queues := s.queues[q := s.queues[q][1..]])
    case Block(t) => Goes(s, t, Waiting(s.calls[t].q)).(inbox := s.inbox - {t})
    case Resume(t) => Goes(s, t, Keeping(s.inbox[t])).(inbox := s.inbox - {t})
    case Retry(t) => Goes(s, t, Fetching(s.calls[t].q))
    case Ask(t) => Goes(s, t, Gathering([]))
    case Gather(t, slot, mask) =>
      Goes(s, t, Gathering(s.calls[t].copies + [Copy(s.nextCopy, Derive(s.tables[t], slot, mask).value)])).(nextCopy := s.nextCopy + 1)
    case Permit(t, _) => Goes(s, t, Permitted(s.calls[t].copies))
    case Image(t, _) => Goes(s, t, Imaged(s.calls[t].copies))
    case Register(t) => Goes(s, t, Named(|s.services|)).(services := s.services + [s.calls[t].copies])
    case Restart(t, i) => Goes(s, t, Named(i))
    case ReadSpec(t) => Goes(s, t, Starting(s.calls[t].service, s.services[s.calls[t].service]))
    case Publish(t) =>
      SetTable(Done(s, t), s.nextTask, InsertAll(Table([], []), s.calls[t].copies)).(nextTask := s.nextTask + 1)
    case RevokeLook(t, victim, slot) => Goes(s, t, Revoking(victim, slot))
    case RevokeNow(t) =>
      var v := s.calls[t].victim;
      if v in s.tables then SetTable(Done(s, t), v, Revoke(s.tables[v], s.calls[t].slot)) else Done(s, t)
    case Drop(t, slot) => SetTable(s, t, Remove(s.tables[t], slot))
    case GiveUp(t) => Done(s, t)
    case Exit(t) => s.(tables := s.tables - {t})
  }

  // ---------------------------------------------------------------- where capabilities are

  /** The copies a call has in its hands. */
  function InHands(c: Call): seq<Copy> {
    match c
    case Sending(_, x) => [x]
    case Keeping(x) => [x]
    case Gathering(l) => l
    case Permitted(l) => l
    case Imaged(l) => l
    case Starting(_, l) => l
    case _ => []
  }

  datatype Where = InSlot(t: TaskId, i: nat) | InQueue(e: nat, k: nat) | InInbox(t: TaskId) | InSpec(i: nat, k: nat) | InHand(t: TaskId, k: nat)

  /** The copy at a place outside the tables. */
  predicate CopyAt(s: State, w: Where, x: Copy) {
    match w
    case InSlot(_, _) => false
    case InQueue(e, k) => e in s.queues && k < |s.queues[e]| && s.queues[e][k] == x
    case InInbox(t) => t in s.inbox && s.inbox[t] == x
    case InSpec(i, k) => i < |s.services| && k < |s.services[i]| && s.services[i][k] == x
    case InHand(t, k) => t in s.calls && k < |InHands(s.calls[t])| && InHands(s.calls[t])[k] == x
  }

  ghost predicate At(s: State, w: Where, c: Capability) {
    if w.InSlot? then w.t in s.tables && Get(s.tables[w.t], w.i) == Some(c) else exists x :: CopyAt(s, w, x) && x.cap == c
  }

  /** `c` is a copy of a capability that existed before: the same one, or cut down from one that carried GRANT. */
  ghost predicate Descends(s: State, c: Capability) {
    exists w, d :: At(s, w, d) && d.obj == c.obj && c.rights <= d.rights && (d == c || GRANT <= d.rights)
  }

  lemma SameDescends(s: State, w: Where, c: Capability)
    requires At(s, w, c)
    ensures Descends(s, c)
  {}

  lemma CopyDescends(s: State, w: Where, x: Copy)
    requires CopyAt(s, w, x)
    ensures Descends(s, x.cap)
  {
    assert At(s, w, x.cap);
  }

  lemma DerivedDescends(s: State, t: TaskId, slot: nat, mask: Rights)
    requires t in s.tables && Derive(s.tables[t], slot, mask).Some?
    ensures Descends(s, Derive(s.tables[t], slot, mask).value)
  {
    assert At(s, InSlot(t, slot), Get(s.tables[t], slot).value);
  }

  lemma {:induction false} InsertAllFrom(t: Table, copies: seq<Copy>, i: nat, c: Capability) returns (k: nat)
    requires Get(InsertAll(t, copies), i) == Some(c)
    ensures Get(t, i) == Some(c) || (k < |copies| && copies[k].cap == c)
  {
    k := 0;
    if copies != [] {
      if c == copies[|copies| - 1].cap { k := |copies| - 1; } else { k := InsertAllFrom(t, copies[..|copies| - 1], i, c); }
    }
  }

  /** The copy a step makes, if it makes one. */
  function Fresh(s: State, e: Step): Option<Copy>
    requires Enabled(s, e)
  {
    match e
    case Create(_, kind) => Some(Copy(s.nextCopy, Created(s, kind)))
    case SendDerive(t, slot, mask) => Some(Copy(s.nextCopy, Derive(s.tables[t], slot, mask).value))
    case Gather(t, slot, mask) => Some(Copy(s.nextCopy, Derive(s.tables[t], slot, mask).value))
    case _ => None
  }

  lemma PostedFrom(s: State, e: Step, w: Where, x: Copy) returns (w': Where)
    requires Enabled(s, e) && e.Deliver? && CopyAt(Next(s, e), w, x)
    ensures CopyAt(s, w', x)
  {
    w' := if CopyAt(s, w, x) then w else InHand(e.t, 0);
  }

  lemma MovedFrom(s: State, e: Step, w: Where, x: Copy) returns (w': Where)
    requires Enabled(s, e) && CopyAt(Next(s, e), w, x) && (e.Take? || e.Resume? || e.Register? || e.ReadSpec?)
    ensures CopyAt(s, w', x)
  {
    hide Lookup, Derive, Inserted, InsertAll, Remove, Revoke, EndpointAt, HasControl;
    w' := w;
    if !CopyAt(s, w, x) {
      match e
      case Take(t) => if w.InQueue? { w' := InQueue(w.e, w.k + 1); } else { w' := InQueue(s.calls[t].q, 0); }
      case Resume(t) => w' := InInbox(t);
      case Register(t) => w' := InHand(t, w.k);
      case ReadSpec(t) => w' := InSpec(s.calls[t].service, w.k);
    }
  }

  /** Outside the tables a step makes at most one copy, and only moves or repeats the others, numbers and all. */
  lemma CopySource(s: State, e: Step, w: Where, x: Copy) returns (w': Where)
    requires Enabled(s, e) && CopyAt(Next(s, e), w, x)
    ensures Fresh(s, e) == Some(x) || CopyAt(s, w', x)
  {
    hide Lookup, Derive, Inserted, InsertAll, Remove, Revoke, EndpointAt, HasControl;
    w' := w;
    if e.Deliver? { w' := PostedFrom(s, e, w, x); }
    else if e.Take? || e.Resume? || e.Register? || e.ReadSpec? { w' := MovedFrom(s, e, w, x); }
  }

  /** Where a capability that turns up in a slot came from. */
  lemma SlotSource(s: State, e: Step, t: TaskId, i: nat, c: Capability) returns (k: nat)
    requires Enabled(s, e) && At(Next(s, e), InSlot(t, i), c) && !At(s, InSlot(t, i), c)
    ensures ((e.Keep? && e.t == t) || (e.Publish? && t == s.nextTask)) && e.t in s.calls
    ensures k < |InHands(s.calls[e.t])| && InHands(s.calls[e.t])[k].cap == c
  {
    hide Lookup, Derive, EndpointAt, HasControl, InsertAll;
    k := 0;
    if e.Publish? { k := InsertAllFrom(Table([], []), s.calls[e.t].copies, i, c); }
  }

  /** Whatever a step leaves anywhere was made by that step or descends from something that was there before it. */
  lemma EveryCapHasAnOrigin(s: State, e: Step, w: Where, c: Capability)
    requires Enabled(s, e) && At(Next(s, e), w, c)
    ensures (e.Create? && c == Created(s, e.kind)) || Descends(s, c)
  {
    hide Next, Enabled, Lookup, Created;
    if At(s, w, c) {
      SameDescends(s, w, c);
    } else if w.InSlot? {
      var k := SlotSource(s, e, w.t, w.i, c);
      CopyDescends(s, InHand(e.t, k), InHands(s.calls[e.t])[k]);
    } else {
      var x :| CopyAt(Next(s, e), w, x) && x.cap == c;
      var w' := CopySource(s, e, w, x);
      if CopyAt(s, w', x) { CopyDescends(s, w', x); } else { FreshDescends(s, e, x); }
    }
  }

  lemma FreshDescends(s: State, e: Step, x: Copy)
    requires Enabled(s, e) && Fresh(s, e) == Some(x)
    ensures (e.Create? && x.cap == Created(s, e.kind)) || Descends(s, x.cap)
  {
    if e.SendDerive? || e.Gather? { DerivedDescends(s, e.t, e.slot, e.mask); }
  }

  // ---------------------------------------------------------------- runs

  function IdOf(o: Object): Option<nat> {
    match o
    case Endpoint(id) => Some(id)
    case Notify(id) => Some(id)
    case Memory(id) => Some(id)
    case Device(id) => Some(id)
    case Irq(id) => Some(id)
    case _ => None
  }

  ghost predicate IdsUsed(s: State) {
    forall r :: r in s.roots && IdOf(r.obj).Some? ==> IdOf(r.obj).value < s.nextObject
  }

  /** Every copy outside the tables has a number that is taken. */
  ghost predicate Numbered(s: State) { forall w, x :: CopyAt(s, w, x) ==> x.number < s.nextCopy }

  /** At boot the kernel's own tasks hold nothing and there are no messages, only the grants listed for the built-in
      services. */
  ghost predicate Init(s: State) {
    && (forall t :: t in s.tables ==> t < s.nextTask && Sound(s.tables[t]) && forall i :: Get(s.tables[t], i).None?)
    && s.queues == map[] && s.inbox == map[] && s.calls == map[]
    && (forall i, k :: 0 <= i < |s.services| && 0 <= k < |s.services[i]| ==> s.services[i][k].cap in s.roots)
    && IdsUsed(s) && Numbered(s)
  }

  ghost predicate IsRun(run: seq<State>, steps: seq<Step>) {
    && |run| == |steps| + 1
    && forall i {:trigger steps[i]} :: 0 <= i < |steps| ==> Enabled(run[i], steps[i]) && run[i + 1] == Next(run[i], steps[i])
  }

  ghost predicate Rooted(s: State, c: Capability) {
    exists r :: r in s.roots && r.obj == c.obj && c.rights <= r.rights
  }

  ghost predicate AllRooted(s: State) { forall w, c :: At(s, w, c) ==> Rooted(s, c) }

  lemma RootsGrow(s: State, e: Step)
    requires Enabled(s, e)
    ensures Next(s, e).roots == if e.Create? then s.roots + {Created(s, e.kind)} else s.roots
    ensures Next(s, e).nextObject == if e.Create? then s.nextObject + 1 else s.nextObject
  {
    hide Lookup, Derive, Inserted, InsertAll, Remove, Revoke, EndpointAt, HasControl;
  }

  lemma StepKeepsRooted(s: State, e: Step, w: Where, c: Capability)
    requires Enabled(s, e) && AllRooted(s) && At(Next(s, e), w, c)
    ensures Rooted(Next(s, e), c)
  {
    EveryCapHasAnOrigin(s, e, w, c);
    RootsGrow(s, e);
    if !(e.Create? && c == Created(s, e.kind)) {
      var w', d :| At(s, w', d) && d.obj == c.obj && c.rights <= d.rights;
      assert Rooted(s, d);
    }
  }

  lemma {:induction false} RunRooted(run: seq<State>, steps: seq<Step>, n: nat)
    requires IsRun(run, steps) && Init(run[0]) && n < |run|
    ensures AllRooted(run[n])
  {
    if n > 0 {
      RunRooted(run, steps, n - 1);
      forall w, c | At(run[n], w, c) ensures Rooted(run[n], c) { StepKeepsRooted(run[n - 1], steps[n - 1], w, c); }
    }
  }

  lemma {:induction false} RunIds(run: seq<State>, steps: seq<Step>, n: nat)
    requires IsRun(run, steps) && Init(run[0]) && n < |run|
    ensures IdsUsed(run[n])
  {
    if n > 0 {
      RunIds(run, steps, n - 1);
      RootsGrow(run[n - 1], steps[n - 1]);
    }
  }

  /** `r` is the only root its object has, and the object's number is taken. */
  ghost predicate Sole(s: State, r: Capability) {
    && IdOf(r.obj).Some? && IdOf(r.obj).value < s.nextObject
    && forall x :: x in s.roots && x.obj == r.obj ==> x == r
  }

  lemma StepKeepsSole(s: State, e: Step, r: Capability)
    requires Enabled(s, e)
    ensures Sole(s, r) ==> Sole(Next(s, e), r)
    ensures IdsUsed(s) && e.Create? && r == Created(s, e.kind) ==> Sole(Next(s, e), r)
  {
    RootsGrow(s, e);
  }

  lemma {:induction false} RunSole(run: seq<State>, steps: seq<Step>, n: nat, m: nat, r: Capability)
    requires IsRun(run, steps) && n <= m < |run| && Sole(run[n], r)
    ensures Sole(run[m], r)
    decreases m
  {
    if n < m {
      RunSole(run, steps, n, m - 1, r);
      StepKeepsSole(run[m - 1], steps[m - 1], r);
    }
  }

  /** The object a create call makes has that call's capability as its only root, ever after. */
  lemma MadeOnce(run: seq<State>, steps: seq<Step>, n: nat, m: nat, r: Capability)
    requires IsRun(run, steps) && Init(run[0]) && n < m < |run| && steps[n].Create? && r == Created(run[n], steps[n].kind)
    ensures Sole(run[m], r)
  {
    RunIds(run, steps, n);
    StepKeepsSole(run[n], steps[n], r);
    RunSole(run, steps, n + 1, m, r);
  }

  /** No amplification: in every state of every run, a capability in a table, a message, an inbox or a stored grant
      carries no right that some capability made or granted first for its object lacked; and for an object made by
      a create call, no right beyond the ones that call gave it. */
  lemma NoAmplification(run: seq<State>, steps: seq<Step>, m: nat, w: Where, c: Capability)
    requires IsRun(run, steps) && Init(run[0]) && m < |run| && At(run[m], w, c)
    ensures Rooted(run[m], c)
    ensures forall n :: 0 <= n < m && steps[n].Create? && Created(run[n], steps[n].kind).obj == c.obj ==>
              c.rights <= Created(run[n], steps[n].kind).rights
  {
    RunRooted(run, steps, m);
    var r :| r in run[m].roots && r.obj == c.obj && c.rights <= r.rights;
    forall n | 0 <= n < m && steps[n].Create? && Created(run[n], steps[n].kind).obj == c.obj
      ensures c.rights <= Created(run[n], steps[n].kind).rights
    {
      MadeOnce(run, steps, n, m, Created(run[n], steps[n].kind));
    }
  }

  // ---------------------------------------------------------------- an object nobody can pass on

  /** No copy of `o` anywhere carries GRANT, and `o` is not an object still to be made. */
  ghost predicate Ungrantable(s: State, o: Object) {
    && (forall w, c :: At(s, w, c) && c.obj == o ==> !(GRANT <= c.rights))
    && (IdOf(o).Some? ==> IdOf(o).value < s.nextObject)
  }

  lemma StepKeepsUngrantable(s: State, e: Step, o: Object)
    requires Enabled(s, e) && Ungrantable(s, o)
    ensures Ungrantable(Next(s, e), o)
  {
    forall w, c | At(Next(s, e), w, c) && c.obj == o ensures !(GRANT <= c.rights) {
      EveryCapHasAnOrigin(s, e, w, c);
      var w', d :| At(s, w', d) && d.obj == c.obj && c.rights <= d.rights && (d == c || GRANT <= d.rights);
    }
    RootsGrow(s, e);
  }

  ghost predicate Has(s: State, t: TaskId, o: Object) { exists i, c :: At(s, InSlot(t, i), c) && c.obj == o }

  /** Outside the tables there are only copies of `o` with numbers below `limit`. */
  ghost predicate OnlyOld(s: State, o: Object, limit: nat) {
    forall w, x :: CopyAt(s, w, x) && x.cap.obj == o ==> x.number < limit
  }

  /** What a step makes is not a copy of an object nobody can pass on. */
  lemma NotFresh(s: State, e: Step, x: Copy, o: Object)
    requires Enabled(s, e) && Ungrantable(s, o) && Fresh(s, e) == Some(x)
    ensures x.cap.obj != o
  {
    if e.SendDerive? || e.Gather? { assert At(s, InSlot(e.t, e.slot), Get(s.tables[e.t], e.slot).value); }
  }

  lemma StepKeepsOld(s: State, e: Step, o: Object, limit: nat)
    requires Enabled(s, e) && Ungrantable(s, o) && OnlyOld(s, o, limit)
    ensures OnlyOld(Next(s, e), o, limit)
  {
    hide Next, Enabled;
    forall w, x | CopyAt(Next(s, e), w, x) && x.cap.obj == o ensures x.number < limit {
      var w' := CopySource(s, e, w, x);
      if !CopyAt(s, w', x) { NotFresh(s, e, x, o); }
    }
  }

  /** How a task can come to hold an object: it inserts a copy it has received, or it is a new task published with
      that copy among its grants. */
  predicate Gains(s: State, e: Step, t: TaskId, k: nat, x: Copy) {
    ((e.Keep? && e.t == t) || (e.Publish? && t == s.nextTask)) && CopyAt(s, InHand(e.t, k), x)
  }

  lemma GainFrom(s: State, e: Step, t: TaskId, o: Object) returns (k: nat, x: Copy)
    requires Enabled(s, e) && !Has(s, t, o) && Has(Next(s, e), t, o)
    ensures Gains(s, e, t, k, x) && x.cap.obj == o
  {
    hide Next, Enabled;
    var i, c :| At(Next(s, e), InSlot(t, i), c) && c.obj == o;
    k := SlotSource(s, e, t, i, c);
    x := InHands(s.calls[e.t])[k];
  }

  lemma {:induction false} RunStaysUngrantable(run: seq<State>, steps: seq<Step>, n: nat, o: Object, limit: nat)
    requires IsRun(run, steps) && n < |run| && Ungrantable(run[0], o) && OnlyOld(run[0], o, limit)
    ensures Ungrantable(run[n], o) && OnlyOld(run[n], o, limit)
  {
    hide Ungrantable, OnlyOld, Next, Enabled;
    if n > 0 {
      RunStaysUngrantable(run, steps, n - 1, o, limit);
      StepKeepsUngrantable(run[n - 1], steps[n - 1], o);
      StepKeepsOld(run[n - 1], steps[n - 1], o, limit);
    }
  }

  /** Numbers are given out once: a copy numbered below the counter of an earlier state is a copy that state had. */
  lemma {:induction false} OldCopiesWereThere(run: seq<State>, steps: seq<Step>, n: nat, w: Where, x: Copy) returns (w0: Where)
    requires IsRun(run, steps) && n < |run| && CopyAt(run[n], w, x) && x.number < run[0].nextCopy
    ensures CopyAt(run[0], w0, x) && run[0].nextCopy <= run[n].nextCopy
    decreases n
  {
    hide Next, Enabled, CopyAt;
    if n == 0 {
      w0 := w;
    } else {
      assert run[n] == Next(run[n - 1], steps[n - 1]);
      var w' := CopySource(run[n - 1], steps[n - 1], w, x);
      CounterGrows(run, steps, n - 1);
      CounterSteps(run[n - 1], steps[n - 1]);
      if Fresh(run[n - 1], steps[n - 1]) == Some(x) { FreshNumber(run[n - 1], steps[n - 1], x); }
      w0 := OldCopiesWereThere(run, steps, n - 1, w', x);
    }
  }

  lemma FreshNumber(s: State, e: Step, x: Copy)
    requires Enabled(s, e) && Fresh(s, e) == Some(x)
    ensures x.number == s.nextCopy
  {}

  lemma CounterSteps(s: State, e: Step)
    requires Enabled(s, e)
    ensures Next(s, e).nextCopy == s.nextCopy + if Fresh(s, e).Some? then 1 else 0
  {
    hide Lookup, Derive, Inserted, InsertAll, Remove, Revoke, EndpointAt, HasControl;
  }

  lemma {:induction false} CounterGrows(run: seq<State>, steps: seq<Step>, n: nat)
    requires IsRun(run, steps) && n < |run|
    ensures run[0].nextCopy <= run[n].nextCopy
  {
    hide Next, Enabled;
    if n > 0 {
      CounterGrows(run, steps, n - 1);
      CounterSteps(run[n - 1], steps[n - 1]);
    }
  }

  /** Confinement. From a state in which no copy of an object carries GRANT, not even one in the hands of a call, over
      every further run, no copy that does ever appears, and a task that gains the object gets it from a copy which that
      state had already: in a message, in a call's hands or in a service's grants. */
  lemma Confinement(run: seq<State>, steps: seq<Step>, n: nat, t: TaskId, o: Object)
    requires IsRun(run, steps) && n < |steps| && Ungrantable(run[0], o) && Numbered(run[0])
    requires !Has(run[n], t, o) && Has(run[n + 1], t, o)
    ensures Ungrantable(run[n + 1], o)
    ensures exists k, x, w0 :: Gains(run[n], steps[n], t, k, x) && x.cap.obj == o && CopyAt(run[0], w0, x)
  {
    hide Ungrantable, Next, Enabled, Has;
    RunStaysUngrantable(run, steps, n, o, run[0].nextCopy);
    RunStaysUngrantable(run, steps, n + 1, o, run[0].nextCopy);
    var k, x := GainFrom(run[n], steps[n], t, o);
    var w0 := OldCopiesWereThere(run, steps, n, InHand(steps[n].t, k), x);
  }

  /** `Numbered` is no assumption: every state a run from boot reaches has it. */
  lemma {:induction false} RunNumbered(run: seq<State>, steps: seq<Step>, n: nat)
    requires IsRun(run, steps) && Init(run[0]) && n < |run|
    ensures Numbered(run[n])
  {
    hide Next, Enabled;
    if n > 0 {
      RunNumbered(run, steps, n - 1);
      var s, e := run[n - 1], steps[n - 1];
      assert run[n] == Next(s, e);
      CounterSteps(s, e);
      forall w, x | CopyAt(run[n], w, x) ensures x.number < run[n].nextCopy {
        var w' := CopySource(s, e, w, x);
        if Fresh(s, e) == Some(x) { FreshNumber(s, e, x); }
      }
    }
  }
}
