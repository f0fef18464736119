/**
What a delegation is worth: the capability that arrives is the one that was sent, with exactly the rights asked for;
a service starts with exactly the grants it was given, every time; and nobody takes a capability away, or starts a
service, without the authority to.
*/
module AuthorityRuns {
  import opened Wrappers
  import opened Caps
  import opened Authority

  // ---------------------------------------------------------------- a copy is what was asked for

  /** What `derive` makes of the capability in a slot: every right that it and the mask have, and no other. */
  ghost predicate CutTo(c: Capability, from: Capability, mask: Rights) {
    c.obj == from.obj && forall x :: x in c.rights <==> x in from.rights && x in mask
  }

  predicate Derives(e: Step) { e.SendDerive? || e.Gather? }

  /** Two copies never share a number, and a copy never changes. */
  lemma {:induction false} CopyStays(run: seq<State>, steps: seq<Step>, i: nat, j: nat, w: Where, x: Copy)
    requires IsRun(run, steps) && Init(run[0]) && i < j < |run| && Fresh(run[i], steps[i]).Some?
    requires CopyAt(run[j], w, x) && x.number == run[i].nextCopy
    ensures Fresh(run[i], steps[i]) == Some(x)
    decreases j
  {
    hide Next, Enabled, CopyAt, Init, Numbered;
    var s, e := run[j - 1], steps[j - 1];
    assert run[j] == Next(s, e);
    var w' := CopySource(s, e, w, x);
    if Fresh(s, e) == Some(x) {
      FreshNumber(s, e, x);
      if i < j - 1 {
        CounterPast(run, steps, i, j - 1);
      }
    } else {
      if i == j - 1 {
        RunNumbered(run, steps, i);
        BelowCounter(run[i], w', x);
      } else {
        CopyStays(run, steps, i, j - 1, w', x);
      }
    }
  }

  lemma BelowCounter(s: State, w: Where, x: Copy)
    requires Numbered(s) && CopyAt(s, w, x)
    ensures x.number < s.nextCopy
  {}

  /** Once a copy has been made its number is past. */
  lemma {:induction false} CounterPast(run: seq<State>, steps: seq<Step>, i: nat, j: nat)
    requires IsRun(run, steps) && i < j < |run| && Fresh(run[i], steps[i]).Some?
    ensures run[i].nextCopy < run[j].nextCopy
    decreases j
  {
    hide Next, Enabled;
    CounterSteps(run[j - 1], steps[j - 1]);
    if i < j - 1 { CounterPast(run, steps, i, j - 1); }
  }

  lemma FreshIsCut(s: State, e: Step)
    requires Enabled(s, e) && Derives(e)
    ensures e.t in s.tables && Get(s.tables[e.t], e.slot).Some?
    ensures Fresh(s, e).Some? && CutTo(Fresh(s, e).value.cap, Get(s.tables[e.t], e.slot).value, e.mask)
  {}

  /** Wherever and whenever it turns up, the copy a call derived is the capability that was in the slot then, with
      exactly the rights that the slot and the mask both had. */
  lemma CopyIsExact(run: seq<State>, steps: seq<Step>, i: nat, j: nat, w: Where, x: Copy)
    requires IsRun(run, steps) && Init(run[0]) && i < j < |run| && Derives(steps[i])
    requires CopyAt(run[j], w, x) && x.number == run[i].nextCopy
    ensures steps[i].t in run[i].tables && Get(run[i].tables[steps[i].t], steps[i].slot).Some?
    ensures CutTo(x.cap, Get(run[i].tables[steps[i].t], steps[i].slot).value, steps[i].mask)
  {
    hide Next, CopyAt, Init;
    FreshIsCut(run[i], steps[i]);
    CopyStays(run, steps, i, j, w, x);
  }

  /** What a task keeps is in its table, in a slot that was free, whenever there is one. */
  lemma KeptIsThere(s: State, t: TaskId)
    requires Enabled(s, Keep(t)) && InsertSlot(s.tables[t]).Some? && Sound(s.tables[t])
    ensures var k := InsertSlot(s.tables[t]).value;
            Get(s.tables[t], k).None? && Get(Next(s, Keep(t)).tables[t], k) == Some(s.calls[t].copy.cap)
  {}

  // ---------------------------------------------------------------- sending, from end to end

  // ---------------------------------------------------------------- what a step leaves alone

  lemma QueuesSame(s: State, e: Step)
    requires Enabled(s, e) && !e.Deliver? && !e.Take?
    ensures Next(s, e).queues == s.queues
  {
    hide Lookup, Derive, Inserted, InsertAll, Remove, Revoke, EndpointAt, HasControl, Created, Get;
  }

  lemma TablesSame(s: State, e: Step)
    requires Enabled(s, e) && !e.Keep? && !e.Publish? && !e.RevokeNow? && !e.Drop? && !e.Exit?
    ensures Next(s, e).tables == s.tables && Next(s, e).nextTask == s.nextTask
  {
    hide Lookup, Derive, Inserted, InsertAll, Remove, Revoke, EndpointAt, HasControl, Created, Get;
  }

  lemma ServicesSame(s: State, e: Step)
    requires Enabled(s, e) && !e.Register?
    ensures Next(s, e).services == s.services
  {
    hide Lookup, Derive, Inserted, InsertAll, Remove, Revoke, EndpointAt, HasControl, Created, Get;
  }

  /** A step changes no other task's call. */
  lemma CallsSame(s: State, e: Step, t: TaskId)
    requires Enabled(s, e) && t != e.t
    ensures (t in Next(s, e).calls <==> t in s.calls) && (t in s.calls ==> Next(s, e).calls[t] == s.calls[t])
  {
    hide Lookup, Derive, Inserted, InsertAll, Remove, Revoke, EndpointAt, HasControl, Created, Get;
  }

  /** A queue changes at its two ends only. */
  lemma FirstInFirstOut(s: State, e: Step, q: nat)
    requires Enabled(s, e)
    ensures var l, l' := if q in s.queues then s.queues[q] else [], if q in Next(s, e).queues then Next(s, e).queues[q] else [];
            || l' == l
            || (e.Deliver? && l' == l + [s.calls[e.t].copy])
            || (e.Take? && l != [] && l' == l[1..] && Next(s, e).calls[e.t] == Keeping(l[0]))
  {
    if e.Deliver? {
      hide Enabled;
    } else if !e.Take? {
      hide Next, Enabled;
      QueuesSame(s, e);
    }
  }

  /** The endpoint at the other end, for one half of a pair. */
  function OtherEnd(s: State, e: nat): nat { if e in s.peer then s.peer[e] else e }

  /** `t` can send on the endpoint in slot `ep`, and a send on it reaches endpoint `q`. */
  predicate CanSend(s: State, t: TaskId, ep: nat, q: nat) {
    t in s.tables && Get(s.tables[t], ep).Some? &&
    var c := Get(s.tables[t], ep).value; c.obj.Endpoint? && 0 in c.rights && OtherEnd(s, c.obj.id) == q
  }

  predicate CanRecv(s: State, u: TaskId, ep: nat, q: nat) {
    u in s.tables && Get(s.tables[u], ep).Some? && var c := Get(s.tables[u], ep).value; c.obj == Endpoint(q) && 1 in c.rights
  }

  predicate CanGrant(s: State, t: TaskId, slot: nat) {
    t in s.tables && Get(s.tables[t], slot).Some? && 2 in Get(s.tables[t], slot).value.rights
  }

  /** The state after a call's steps, each of which could be taken. */
  ghost predicate Leads(s: State, steps: seq<Step>, s': State)
    decreases |steps|
  {
    if steps == [] then s' == s else Enabled(s, steps[0]) && Leads(Next(s, steps[0]), steps[1..], s')
  }

  lemma Leads1(s: State, e: Step, rest: seq<Step>, s': State)
    requires Enabled(s, e) && Leads(Next(s, e), rest, s')
    ensures Leads(s, [e] + rest, s')
  {
    assert ([e] + rest)[1..] == rest;
  }

  lemma {:induction false} LeadsOn(s: State, a: seq<Step>, s1: State, b: seq<Step>, s': State)
    requires Leads(s, a, s1) && Leads(s1, b, s')
    ensures Leads(s, a + b, s')
    decreases |a|
  {
    if a == [] {
      assert a + b == b;
    } else {
      LeadsOn(Next(s, a[0]), a[1..], s1, b, s');
      assert (a + b)[1..] == a[1..] + b;
    }
  }

  /** The sender's half: whoever may send and may grant puts the copy at the end of the queue at the other end. */
  lemma SendQueues(s: State, t: TaskId, ep: nat, slot: nat, mask: Rights, q: nat) returns (s': State, x: Copy)
    requires Authority.Free(s, t) && CanSend(s, t, ep, q) && CanGrant(s, t, slot)
    ensures Leads(s, [SendLook(t, ep), SendDerive(t, slot, mask), Deliver(t, ToQueue)], s')
    ensures CutTo(x.cap, Get(s.tables[t], slot).value, mask)
    ensures s'.queues == s.queues[q := (if q in s.queues then s.queues[q] else []) + [x]]
    ensures s'.tables == s.tables && s'.calls == s.calls && s'.peer == s.peer
  {
    var e := Get(s.tables[t], ep).value.obj.id;
    var s1 := Next(s, SendLook(t, ep));
    var s2 := Next(s1, SendDerive(t, slot, mask));
    s' := Next(s2, Deliver(t, ToQueue));
    x := s2.calls[t].copy;
    assert s'.calls == s.calls;
    assert Leads(s', [], s');
    Leads1(s2, Deliver(t, ToQueue), [], s');
    Leads1(s1, SendDerive(t, slot, mask), [Deliver(t, ToQueue)], s');
    assert [Deliver(t, ToQueue)] + [] == [Deliver(t, ToQueue)];
    assert [SendDerive(t, slot, mask)] + [Deliver(t, ToQueue)] == [SendDerive(t, slot, mask), Deliver(t, ToQueue)];
    Leads1(s, SendLook(t, ep), [SendDerive(t, slot, mask), Deliver(t, ToQueue)], s');
    assert [SendLook(t, ep)] + [SendDerive(t, slot, mask), Deliver(t, ToQueue)] == [SendLook(t, ep), SendDerive(t, slot, mask), Deliver(t, ToQueue)];
  }

  /** The receiver's half: whoever may receive there and has room gets the oldest copy in a slot of its own. */
  lemma RecvKeeps(s: State, u: TaskId, ep: nat, q: nat) returns (s': State, k: nat)
    requires Authority.Free(s, u) && CanRecv(s, u, ep, q) && q in s.queues && s.queues[q] != []
    requires Sound(s.tables[u]) && InsertSlot(s.tables[u]).Some?
    ensures Leads(s, [RecvLook(u, ep), Take(u), Keep(u)], s')
    ensures Get(s.tables[u], k).None? && u in s'.tables && Get(s'.tables[u], k) == Some(s.queues[q][0].cap)
    ensures s'.queues == s.queues[q := s.queues[q][1..]] && s'.calls == s.calls
  {
    var s1 := Next(s, RecvLook(u, ep));
    var s2 := Next(s1, Take(u));
    s' := Next(s2, Keep(u));
    k := InsertSlot(s.tables[u]).value;
    assert s'.calls == s.calls;
    assert Leads(s', [], s');
    Leads1(s2, Keep(u), [], s');
    assert [Keep(u)] + [] == [Keep(u)];
    Leads1(s1, Take(u), [Keep(u)], s');
    assert [Take(u)] + [Keep(u)] == [Take(u), Keep(u)];
    Leads1(s, RecvLook(u, ep), [Take(u), Keep(u)], s');
    assert [RecvLook(u, ep)] + [Take(u), Keep(u)] == [RecvLook(u, ep), Take(u), Keep(u)];
  }

  /** A capability sent over an endpoint with nothing queued arrives as it was asked for: the receiver has a slot that
      was free before, naming the same object, with exactly the rights that the sender's slot and the mask both have. */
  lemma SentIsReceived(s: State, t: TaskId, ep: nat, slot: nat, mask: Rights, q: nat, u: TaskId, ep2: nat) returns (s': State, k: nat)
    requires t != u && Authority.Free(s, t) && CanSend(s, t, ep, q) && CanGrant(s, t, slot)
    requires Authority.Free(s, u) && CanRecv(s, u, ep2, q) && Sound(s.tables[u]) && InsertSlot(s.tables[u]).Some?
    requires q in s.queues ==> s.queues[q] == []
    ensures Leads(s, [SendLook(t, ep), SendDerive(t, slot, mask), Deliver(t, ToQueue)] + [RecvLook(u, ep2), Take(u), Keep(u)], s')
    ensures Get(s.tables[u], k).None? && u in s'.tables && Get(s'.tables[u], k).Some?
    ensures CutTo(Get(s'.tables[u], k).value, Get(s.tables[t], slot).value, mask)
  {
    hide Leads, Next, Enabled, CutTo;
    var s1, x := SendQueues(s, t, ep, slot, mask, q);
    s', k := RecvKeeps(s1, u, ep2, q);
    LeadsOn(s, [SendLook(t, ep), SendDerive(t, slot, mask), Deliver(t, ToQueue)], s1, [RecvLook(u, ep2), Take(u), Keep(u)], s');
  }

  /** The same for a receiver that is already waiting there. */
  lemma SentToWaiting(s: State, t: TaskId, ep: nat, slot: nat, mask: Rights, q: nat, u: TaskId) returns (s': State, k: nat)
    requires t != u && Authority.Free(s, t) && CanSend(s, t, ep, q) && CanGrant(s, t, slot)
    requires InCall(s, u) && s.calls[u] == Waiting(q) && u !in s.inbox && Sound(s.tables[u]) && InsertSlot(s.tables[u]).Some?
    ensures Leads(s, [SendLook(t, ep), SendDerive(t, slot, mask), Deliver(t, ToInbox(u))] + [Resume(u), Keep(u)], s')
    ensures Get(s.tables[u], k).None? && u in s'.tables && Get(s'.tables[u], k).Some?
    ensures CutTo(Get(s'.tables[u], k).value, Get(s.tables[t], slot).value, mask)
  {
    var s1, x := SendDelivers(s, t, ep, slot, mask, q, u);
    var s2 := Next(s1, Resume(u));
    s' := Next(s2, Keep(u));
    k := InsertSlot(s.tables[u]).value;
    assert Leads(s', [], s');
    Leads1(s2, Keep(u), [], s');
    assert [Keep(u)] + [] == [Keep(u)];
    Leads1(s1, Resume(u), [Keep(u)], s');
    assert [Resume(u)] + [Keep(u)] == [Resume(u), Keep(u)];
    hide Leads, Next, Enabled;
    LeadsOn(s, [SendLook(t, ep), SendDerive(t, slot, mask), Deliver(t, ToInbox(u))], s1, [Resume(u), Keep(u)], s');
  }

  lemma SendDelivers(s: State, t: TaskId, ep: nat, slot: nat, mask: Rights, q: nat, u: TaskId) returns (s': State, x: Copy)
    requires t != u && Authority.Free(s, t) && CanSend(s, t, ep, q) && CanGrant(s, t, slot)
    requires InCall(s, u) && s.calls[u] == Waiting(q) && u !in s.inbox
    ensures Leads(s, [SendLook(t, ep), SendDerive(t, slot, mask), Deliver(t, ToInbox(u))], s')
    ensures CutTo(x.cap, Get(s.tables[t], slot).value, mask) && s'.inbox == s.inbox[u := x]
    ensures s'.tables == s.tables && s'.calls == s.calls
  {
    var d := Deliver(t, ToInbox(u));
    var s1 := Next(s, SendLook(t, ep));
    var s2 := Next(s1, SendDerive(t, slot, mask));
    s' := Next(s2, d);
    x := s2.calls[t].copy;
    assert s'.calls == s.calls;
    assert Leads(s', [], s');
    Leads1(s2, d, [], s');
    assert [d] + [] == [d];
    Leads1(s1, SendDerive(t, slot, mask), [d], s');
    assert [SendDerive(t, slot, mask)] + [d] == [SendDerive(t, slot, mask), d];
    Leads1(s, SendLook(t, ep), [SendDerive(t, slot, mask), d], s');
    assert [SendLook(t, ep)] + [SendDerive(t, slot, mask), d] == [SendLook(t, ep), SendDerive(t, slot, mask), d];
  }

  /** Whoever may receive where nothing is queued can wait there, with an empty inbox, and as `SentToWaiting` needs it. */
  lemma ReceiverWaits(s: State, u: TaskId, ep: nat, q: nat) returns (s': State)
    requires Authority.Free(s, u) && CanRecv(s, u, ep, q)
    ensures Leads(s, [RecvLook(u, ep)] + [Block(u)], s')
    ensures s'.calls == s.calls[u := Waiting(q)] && u !in s'.inbox && s'.tables == s.tables && s'.queues == s.queues && s'.peer == s.peer
  {
    var s1 := Next(s, RecvLook(u, ep));
    s' := Next(s1, Block(u));
    assert s1.calls[u := Waiting(q)] == s.calls[u := Waiting(q)];
    Leads1Only(s, RecvLook(u, ep));
    Leads1Only(s1, Block(u));
    hide Leads, Next, Enabled;
    LeadsOn(s, [RecvLook(u, ep)], s1, [Block(u)], s');
  }

  /** A call that is not blocked can fail at any point, and then it has put nothing anywhere. */
  lemma FailedCallLeavesNothing(s: State, t: TaskId, w: Where, c: Capability)
    requires InCall(s, t) && !s.calls[t].Waiting?
    ensures Enabled(s, GiveUp(t)) && Authority.Free(Next(s, GiveUp(t)), t)
    ensures At(Next(s, GiveUp(t)), w, c) <==> At(s, w, c) && !(w.InHand? && w.t == t)
  {
    assert forall x :: CopyAt(Next(s, GiveUp(t)), w, x) <==> CopyAt(s, w, x) && !(w.InHand? && w.t == t);
  }

  /** A receiver that was woken with nothing in its inbox looks again, and gets the oldest copy that is queued by then. */
  lemma WokenTakes(s: State, u: TaskId, q: nat) returns (s': State, k: nat)
    requires InCall(s, u) && s.calls[u] == Waiting(q) && u !in s.inbox && q in s.queues && s.queues[q] != []
    requires Sound(s.tables[u]) && InsertSlot(s.tables[u]).Some?
    ensures Leads(s, [Retry(u)] + [Take(u)] + [Keep(u)], s')
    ensures Get(s.tables[u], k).None? && u in s'.tables && Get(s'.tables[u], k) == Some(s.queues[q][0].cap)
    ensures s'.queues == s.queues[q := s.queues[q][1..]] && Authority.Free(s', u)
  {
    var s1 := Next(s, Retry(u));
    var s2 := Next(s1, Take(u));
    s' := Next(s2, Keep(u));
    k := InsertSlot(s.tables[u]).value;
    Leads3(s, Retry(u), Take(u), Keep(u));
  }

  lemma Leads3(s: State, a: Step, b: Step, c: Step)
    requires Enabled(s, a) && Enabled(Next(s, a), b) && Enabled(Next(Next(s, a), b), c)
    ensures Leads(s, [a] + [b] + [c], Next(Next(Next(s, a), b), c))
  {
    var s1 := Next(s, a);
    var s2 := Next(s1, b);
    Leads1Only(s, a);
    Leads1Only(s1, b);
    Leads1Only(s2, c);
    hide Leads, Next, Enabled;
    LeadsOn(s, [a], s1, [b], s2);
    LeadsOn(s, [a] + [b], s2, [c], Next(s2, c));
  }

  // ---------------------------------------------------------------- starting a service

  /** Capabilities given to a new task are numbered in the order given, from slot 0. */
  lemma {:induction false} GrantsInOrder(copies: seq<Copy>)
    requires |copies| <= MAX_SLOTS
    ensures var t := InsertAll(Table([], []), copies);
            && |t.slots| == |t.revoked| == |copies|
            && forall k :: 0 <= k < |copies| ==> t.slots[k] == Some(copies[k].cap) && !t.revoked[k]
  {
    if copies != [] {
      var front := copies[..|copies| - 1];
      GrantsInOrder(front);
      var t := InsertAll(Table([], []), front);
      assert forall j: nat :: !Usable(t, j);
    }
  }

  /** Where a call that starts a service stands with its record. */
  predicate CallOk(services: seq<seq<Copy>>, c: Authority.Call) {
    match c
    case Named(i) => i < |services|
    case Starting(i, l) => i < |services| && l == services[i]
    case Gathering(l) => |l| <= MAX_SPAWN_GRANTS
    case Permitted(l) => |l| <= MAX_SPAWN_GRANTS
    case Imaged(l) => |l| <= MAX_SPAWN_GRANTS
    case _ => true
  }

  ghost predicate StartsOk(s: State) {
    && (forall i :: 0 <= i < |s.services| ==> |s.services[i]| <= MAX_SLOTS)
    && (forall t :: t in s.calls ==> CallOk(s.services, s.calls[t]))
  }

  /** A service's record is never changed. */
  lemma ServicesStay(s: State, e: Step)
    requires Enabled(s, e)
    ensures s.services <= Next(s, e).services
    ensures e.Register? ==> Next(s, e).services == s.services + [s.calls[e.t].copies] && Next(s, e).calls[e.t] == Named(|s.services|)
  {
    if !e.Register? {
      hide Next, Enabled;
      ServicesSame(s, e);
    }
  }

  predicate Starts(e: Step) {
    e.Ask? || e.Gather? || e.Permit? || e.Image? || e.Register? || e.Restart? || e.ReadSpec? || e.Publish?
  }

  lemma OwnCallOk(s: State, e: Step)
    requires Enabled(s, e) && (e.t in s.calls ==> CallOk(s.services, s.calls[e.t]))
    ensures e.t in Next(s, e).calls ==> CallOk(Next(s, e).services, Next(s, e).calls[e.t])
  {
    hide Next, Enabled, CallOk;
    if Starts(e) { StartCallOk(s, e); } else { OtherCallOk(s, e); }
  }

  lemma StartCallOk(s: State, e: Step)
    requires Enabled(s, e) && (e.t in s.calls ==> CallOk(s.services, s.calls[e.t])) && Starts(e)
    ensures e.t in Next(s, e).calls ==> CallOk(Next(s, e).services, Next(s, e).calls[e.t])
  {
    hide Lookup, Derive, InsertAll;
  }

  lemma OtherCallOk(s: State, e: Step)
    requires Enabled(s, e) && !Starts(e)
    ensures e.t in Next(s, e).calls ==> CallOk(Next(s, e).services, Next(s, e).calls[e.t])
  {
    hide Lookup, Derive, Inserted, Remove, Revoke, HasControl;
  }

  lemma CallStaysOk(a: seq<seq<Copy>>, b: seq<seq<Copy>>, c: Authority.Call)
    requires CallOk(a, c) && a <= b
    ensures CallOk(b, c)
  {}

  lemma RecordOk(s: State, e: Step)
    requires Enabled(s, e) && StartsOk(s) && e.Register?
    ensures |s.calls[e.t].copies| <= MAX_SLOTS
  {
    assert CallOk(s.services, s.calls[e.t]);
  }

  lemma StepKeepsStarts(s: State, e: Step)
    requires Enabled(s, e) && StartsOk(s)
    ensures StartsOk(Next(s, e))
  {
    hide Next, Enabled, CallOk;
    var s' := Next(s, e);
    ServicesStay(s, e);
    OwnCallOk(s, e);
    if e.Register? { RecordOk(s, e); } else { ServicesSame(s, e); }
    forall t | t in s'.calls ensures CallOk(s'.services, s'.calls[t]) {
      if t != e.t {
        CallsSame(s, e, t);
        CallStaysOk(s.services, s'.services, s.calls[t]);
      }
    }
  }

  ghost predicate Booted(s: State) { Init(s) && forall i :: 0 <= i < |s.services| ==> |s.services[i]| <= MAX_SLOTS }

  lemma {:induction false} RunStarts(run: seq<State>, steps: seq<Step>, n: nat)
    requires IsRun(run, steps) && Booted(run[0]) && n < |run|
    ensures StartsOk(run[n])
  {
    hide Next, Enabled, StartsOk;
    if n == 0 {
      BootStarts(run[0]);
    } else {
      RunStarts(run, steps, n - 1);
      StepKeepsStarts(run[n - 1], steps[n - 1]);
    }
  }

  lemma BootStarts(s: State)
    requires Booted(s)
    ensures StartsOk(s)
  {}

  lemma {:induction false} RecordsStay(run: seq<State>, steps: seq<Step>, n: nat, m: nat)
    requires IsRun(run, steps) && n <= m < |run|
    ensures run[n].services <= run[m].services
    decreases m
  {
    hide Next, Enabled;
    if n < m {
      RecordsStay(run, steps, n, m - 1);
      ServicesStay(run[m - 1], steps[m - 1]);
    }
  }

  /** A task published for a service holds exactly the service's grants, in order from slot 0, and nothing else; and so
      does every task published for it later. */
  lemma StartedWithGrants(run: seq<State>, steps: seq<Step>, n: nat, m: nat)
    requires IsRun(run, steps) && Booted(run[0]) && n < |steps| && steps[n].Publish? && n < m < |run|
    ensures steps[n].t in run[n].calls && run[n].calls[steps[n].t].Starting?
    ensures var i, t := run[n].calls[steps[n].t].service, run[n].nextTask;
            && i < |run[n].services| && i < |run[m].services| && run[m].services[i] == run[n].services[i]
            && t in run[n + 1].tables && |run[n + 1].tables[t].slots| == |run[m].services[i]|
            && forall k :: 0 <= k < |run[m].services[i]| ==> run[n + 1].tables[t].slots[k] == Some(run[m].services[i][k].cap)
  {
    RunStarts(run, steps, n);
    RecordsStay(run, steps, n, m);
    var s, e := run[n], steps[n];
    assert run[n + 1] == Next(s, e);
    GrantsInOrder(s.calls[e.t].copies);
  }

  /** What is registered is what was gathered, one exact copy per request. */
  lemma GatheredIsRegistered(s: State, e: Step)
    requires Enabled(s, e) && e.Gather?
    ensures Next(s, e).calls[e.t] == Gathering(s.calls[e.t].copies + [Fresh(s, e).value])
    ensures CutTo(Fresh(s, e).value.cap, Get(s.tables[e.t], e.slot).value, e.mask)
  {}

  predicate HoldsSpawn(t: Table, i: nat) { Get(t, i).Some? && Get(t, i).value.obj.Control? && 6 in Get(t, i).value.rights }

  datatype Request = Request(slot: nat, mask: Rights)

  predicate CanGrantAll(s: State, t: TaskId, reqs: seq<Request>) { forall k :: 0 <= k < |reqs| ==> CanGrant(s, t, reqs[k].slot) }

  /** One exact copy per request, in order. */
  ghost predicate Answered(t: Table, reqs: seq<Request>, copies: seq<Copy>) {
    |copies| == |reqs| && forall k :: 0 <= k < |reqs| ==> Get(t, reqs[k].slot).Some? && CutTo(copies[k].cap, Get(t, reqs[k].slot).value, reqs[k].mask)
  }

  lemma {:induction false} GatherAll(s: State, t: TaskId, reqs: seq<Request>) returns (steps: seq<Step>, s': State, copies: seq<Copy>)
    requires InCall(s, t) && s.calls[t].Gathering? && |s.calls[t].copies| + |reqs| <= MAX_SPAWN_GRANTS && CanGrantAll(s, t, reqs)
    ensures Leads(s, steps, s') && Answered(s.tables[t], reqs, copies)
    ensures s' == s.(calls := s.calls[t := Gathering(s.calls[t].copies + copies)], nextCopy := s'.nextCopy)
    decreases |reqs|
  {
    if reqs == [] {
      steps, s', copies := [], s, [];
      assert s.calls[t].copies + [] == s.calls[t].copies && s.calls == s.calls[t := s.calls[t]];
    } else {
      var e := Gather(t, reqs[0].slot, reqs[0].mask);
      var s1 := Next(s, e);
      var x := Fresh(s, e).value;
      GatheredIsRegistered(s, e);
      var rest, more;
      rest, s', more := GatherAll(s1, t, reqs[1..]);
      steps, copies := [e] + rest, [x] + more;
      Leads1(s, e, rest, s');
      assert s.calls[t].copies + ([x] + more) == s.calls[t].copies + [x] + more;
      assert s1.calls[t := Gathering(s.calls[t].copies + copies)] == s.calls[t := Gathering(s.calls[t].copies + copies)];
    }
  }

  /** The two checks on the way. */
  lemma ChecksPass(s: State, t: TaskId, ctl: nat, image: nat) returns (s': State)
    requires InCall(s, t) && s.calls[t].Gathering? && HoldsSpawn(s.tables[t], ctl)
    requires Get(s.tables[t], image).Some? && Get(s.tables[t], image).value.obj.Memory? && 3 in Get(s.tables[t], image).value.rights
    ensures Leads(s, [Permit(t, ctl)] + [Image(t, image)], s') && s' == s.(calls := s.calls[t := Imaged(s.calls[t].copies)])
  {
    var s1 := Next(s, Permit(t, ctl));
    s' := Next(s1, Image(t, image));
    Leads1Only(s, Permit(t, ctl));
    Leads1Only(s1, Image(t, image));
    assert s1.calls[t := Imaged(s.calls[t].copies)] == s.calls[t := Imaged(s.calls[t].copies)];
    hide Leads, Next, Enabled;
    LeadsOn(s, [Permit(t, ctl)], s1, [Image(t, image)], s');
  }

  /** From the grants in hand to the new task. */
  lemma GrantsStart(s: State, t: TaskId) returns (s': State)
    requires InCall(s, t) && s.calls[t].Imaged?
    ensures Leads(s, [Register(t)] + [ReadSpec(t)] + [Publish(t)], s')
    ensures s'.services == s.services + [s.calls[t].copies] && s.nextTask in s'.tables
    ensures s'.tables[s.nextTask] == InsertAll(Table([], []), s.calls[t].copies)
  {
    hide InsertAll;
    var s1 := Next(s, Register(t));
    var s2 := Next(s1, ReadSpec(t));
    s' := Next(s2, Publish(t));
    Leads3(s, Register(t), ReadSpec(t), Publish(t));
  }

  /** Whoever holds a Control with SPAWN and an image can start a service with up to eight grants of its own, and the new task
      has them in the order asked for, from slot 0: the object of each, with exactly the rights the spawner's slot and the
      mask both have. */
  lemma SpawnGrants(s: State, t: TaskId, ctl: nat, image: nat, reqs: seq<Request>) returns (steps: seq<Step>, s': State)
    requires Authority.Free(s, t) && |reqs| <= 8 && CanGrantAll(s, t, reqs) && HoldsSpawn(s.tables[t], ctl)
    requires Get(s.tables[t], image).Some? && Get(s.tables[t], image).value.obj.Memory? && 3 in Get(s.tables[t], image).value.rights
    ensures Leads(s, steps, s') && s.nextTask in s'.tables && |s'.tables[s.nextTask].slots| == |reqs|
    ensures forall k :: 0 <= k < |reqs| ==>
              && Get(s.tables[t], reqs[k].slot).Some? && s'.tables[s.nextTask].slots[k].Some?
              && CutTo(s'.tables[s.nextTask].slots[k].value, Get(s.tables[t], reqs[k].slot).value, reqs[k].mask)
  {
    var s1 := Next(s, Ask(t));
    var gathers, s2, copies := GatherAll(s1, t, reqs);
    assert [] + copies == copies;
    var s3 := ChecksPass(s2, t, ctl, image);
    s' := GrantsStart(s3, t);
    GrantsInOrder(copies);
    hide Leads, InsertAll, CutTo;
    Leads1Only(s, Ask(t));
    LeadsOn(s, [Ask(t)], s1, gathers, s2);
    LeadsOn(s, [Ask(t)] + gathers, s2, [Permit(t, ctl)] + [Image(t, image)], s3);
    steps := [Ask(t)] + gathers + ([Permit(t, ctl)] + [Image(t, image)]) + ([Register(t)] + [ReadSpec(t)] + [Publish(t)]);
    LeadsOn(s, [Ask(t)] + gathers + ([Permit(t, ctl)] + [Image(t, image)]), s3, [Register(t)] + [ReadSpec(t)] + [Publish(t)], s');
  }

  /** Any service on record can be started again, and the new task has all its grants. */
  lemma RestartStarts(s: State, t: TaskId, i: nat) returns (s': State)
    requires Authority.Free(s, t) && i < |s.services| && |s.services[i]| <= MAX_SLOTS
    ensures Leads(s, [Restart(t, i)] + [ReadSpec(t)] + [Publish(t)], s')
    ensures s.nextTask in s'.tables && |s'.tables[s.nextTask].slots| == |s.services[i]|
    ensures forall k :: 0 <= k < |s.services[i]| ==> s'.tables[s.nextTask].slots[k] == Some(s.services[i][k].cap)
    ensures s'.services == s.services && forall u :: u in s.tables && u != s.nextTask ==> u in s'.tables && s'.tables[u] == s.tables[u]
  {
    hide InsertAll;
    var s1 := Next(s, Restart(t, i));
    var s2 := Next(s1, ReadSpec(t));
    s' := Next(s2, Publish(t));
    Leads3(s, Restart(t, i), ReadSpec(t), Publish(t));
    GrantsInOrder(s.services[i]);
  }

  lemma Leads1Only(s: State, e: Step)
    requires Enabled(s, e)
    ensures Leads(s, [e], Next(s, e))
  {
    assert Leads(Next(s, e), [], Next(s, e));
    Leads1(s, e, [], Next(s, e));
    assert [e] + [] == [e];
  }

  // ---------------------------------------------------------------- taking away

  /** A revocation empties the slot for good, a drop empties it, and neither touches anything else. */
  lemma TakenAway(s: State, e: Step, v: TaskId, i: nat, u: TaskId, j: nat)
    requires v in s.tables && Sound(s.tables[v]) && Get(s.tables[v], i).Some?
    requires (e == Drop(v, i) && v !in s.calls) || (e.RevokeNow? && e.t in s.tables && e.t in s.calls && s.calls[e.t] == Revoking(v, i))
    ensures Enabled(s, e) && v in Next(s, e).tables && Get(Next(s, e).tables[v], i).None?
    ensures var t, t' := s.tables[v], Next(s, e).tables[v]; |t'.revoked| == |t.revoked| && t'.revoked == if e.Drop? then t.revoked else t.revoked[i := true]
    ensures u in s.tables && (u != v || j != i) ==> u in Next(s, e).tables && Get(Next(s, e).tables[u], j) == Get(s.tables[u], j)
  {}

  /** Whoever holds a Control can take any capability out of any task's table for good, and every task any of its own. */
  lemma ControlRevokes(s: State, t: TaskId, v: TaskId, i: nat) returns (s': State)
    requires Authority.Free(s, t) && v in s.tables && Sound(s.tables[v]) && Get(s.tables[v], i).Some?
    requires v == t || (Sound(s.tables[t]) && HoldsControl(s.tables[t]))
    ensures Leads(s, [RevokeLook(t, v, i)] + [RevokeNow(t)], s')
    ensures v in s'.tables && Get(s'.tables[v], i).None? && s'.tables[v].revoked == s.tables[v].revoked[i := true]
    ensures s'.calls == s.calls
    ensures forall u, j: nat :: u in s.tables && (u != v || j != i) ==> u in s'.tables && Get(s'.tables[u], j) == Get(s.tables[u], j)
  {
    if v != t { ControlSeen(s.tables[t]); }
    var a, b := RevokeLook(t, v, i), RevokeNow(t);
    var s1 := RevokeBegun(s, t, v, i);
    s' := Next(s1, b);
    assert s'.calls == s.calls;
    Leads1Only(s1, b);
    hide Leads, Next, Enabled;
    LeadsOn(s, [a], s1, [b], s');
    forall u, j: nat | u in s.tables && (u != v || j != i) ensures u in s'.tables && Get(s'.tables[u], j) == Get(s.tables[u], j) {
      TakenAway(s1, b, v, i, u, j);
    }
    TakenAway(s1, b, v, i, v, i);
  }

  lemma RevokeBegun(s: State, t: TaskId, v: TaskId, i: nat) returns (s1: State)
    requires Authority.Free(s, t) && (v == t || HasControl(s.tables[t]))
    ensures Leads(s, [RevokeLook(t, v, i)], s1) && s1 == Goes(s, t, Revoking(v, i))
  {
    Leads1Only(s, RevokeLook(t, v, i));
    s1 := Next(s, RevokeLook(t, v, i));
  }

  lemma ControlSeen(t: Table)
    requires Sound(t) && HoldsControl(t)
    ensures HasControl(t)
  {
    var k: nat :| Get(t, k).Some? && Get(t, k).value.obj.Control?;
    assert t.slots[k].Some?;
  }

  /** A task that ends takes its table with it, and no other. */
  lemma EndTakesTable(s: State, t: TaskId, w: Where, c: Capability)
    requires Authority.Free(s, t)
    ensures Enabled(s, Exit(t)) && (At(Next(s, Exit(t)), w, c) <==> At(s, w, c) && !(w.InSlot? && w.t == t))
  {
    assert forall x :: CopyAt(Next(s, Exit(t)), w, x) <==> CopyAt(s, w, x);
  }

  // ---------------------------------------------------------------- what it takes

  ghost predicate HoldsControl(t: Table) { exists i: nat :: Get(t, i).Some? && Get(t, i).value.obj.Control? }

  ghost predicate TablesOk(s: State) { forall t :: t in s.tables ==> t < s.nextTask && Sound(s.tables[t]) }

  lemma {:induction false} InsertAllSound(t: Table, copies: seq<Copy>)
    requires Sound(t)
    ensures Sound(InsertAll(t, copies))
  {
    if copies != [] {
      InsertAllSound(t, copies[..|copies| - 1]);
      CallKeepsSound(InsertAll(t, copies[..|copies| - 1]), DoInsert(copies[|copies| - 1].cap));
    }
  }

  lemma StepKeepsTables(s: State, e: Step)
    requires Enabled(s, e) && TablesOk(s)
    ensures TablesOk(Next(s, e))
  {
    hide Lookup, Derive, Inserted, InsertAll, Remove, Revoke, EndpointAt, HasControl, Sound;
    if !e.Keep? && !e.Publish? && !e.RevokeNow? && !e.Drop? && !e.Exit? {
      hide Next, Enabled;
      TablesSame(s, e);
      return;
    }
    match e
    case Keep(t) => CallKeepsSound(s.tables[t], DoInsert(s.calls[t].copy.cap));
    case Publish(t) =>
      assert Sound(Table([], [])) by { EmptySound(); }
      InsertAllSound(Table([], []), s.calls[t].copies);
    case RevokeNow(t) => if s.calls[t].victim in s.tables { CallKeepsSound(s.tables[s.calls[t].victim], DoRevoke(s.calls[t].slot)); }
    case Drop(t, slot) => CallKeepsSound(s.tables[t], DoRemove(slot));
    case _ =>
  }

  lemma EmptySound()
    ensures Sound(Table([], []))
  {}

  lemma {:induction false} RunTables(run: seq<State>, steps: seq<Step>, n: nat)
    requires IsRun(run, steps) && Init(run[0]) && n < |run|
    ensures TablesOk(run[n])
  {
    hide Next, Enabled, Sound;
    if n > 0 {
      RunTables(run, steps, n - 1);
      StepKeepsTables(run[n - 1], steps[n - 1]);
    }
  }

  lemma StepLoses(s: State, e: Step, t: TaskId, i: nat, c: Capability)
    requires Enabled(s, e) && At(s, InSlot(t, i), c) && !At(Next(s, e), InSlot(t, i), c) && TablesOk(s)
    ensures || e == Drop(t, i) || e == Exit(t)
            || (e.RevokeNow? && e.t in s.calls && s.calls[e.t] == Revoking(t, i))
  {
    hide Lookup, Derive, EndpointAt, HasControl, InsertAll;
    assert Sound(s.tables[t]);
    if !e.Keep? && !e.Publish? && !e.RevokeNow? && !e.Drop? && !e.Exit? {
      hide Next, Enabled;
      TablesSame(s, e);
    }
  }

  /** A call that is about to revoke from another task's table passed the test for that: its task held a Control then. */
  lemma {:induction false} RevokingNeedsControl(run: seq<State>, steps: seq<Step>, n: nat, t: TaskId) returns (k: nat)
    requires IsRun(run, steps) && Init(run[0]) && n < |run| && t in run[n].calls && run[n].calls[t].Revoking?
    ensures k < n && steps[k] == RevokeLook(t, run[n].calls[t].victim, run[n].calls[t].slot) && t in run[k].tables
    ensures run[n].calls[t].victim != t ==> HoldsControl(run[k].tables[t])
    decreases n
  {
    hide Next, Init;
    assert run[0].calls == map[] by { BootIdle(run[0]); }
    var s, e := run[n - 1], steps[n - 1];
    assert run[n] == Next(s, e);
    RevokingFrom(s, e, t);
    if t in s.calls && s.calls[t] == run[n].calls[t] {
      k := RevokingNeedsControl(run, steps, n - 1, t);
    } else {
      k := n - 1;
      ControlHeld(s.tables[t]);
    }
  }

  /** How a capability can leave a slot: its task drops it or ends, or it is revoked by a call whose task was its holder
      or held a Control when the call began. */
  lemma SlotLost(run: seq<State>, steps: seq<Step>, n: nat, t: TaskId, i: nat, c: Capability)
    requires IsRun(run, steps) && Init(run[0]) && n < |steps| && At(run[n], InSlot(t, i), c) && !At(run[n + 1], InSlot(t, i), c)
    ensures || steps[n] == Drop(t, i) || steps[n] == Exit(t)
            || (steps[n].RevokeNow? && exists k: nat :: k < n && MayRevoke(run[k], steps[k], steps[n].t, t, i))
  {
    hide Next, Enabled, Init, At;
    RunTables(run, steps, n);
    assert run[n + 1] == Next(run[n], steps[n]);
    StepLoses(run[n], steps[n], t, i, c);
    if steps[n].RevokeNow? {
      var k := RevokingNeedsControl(run, steps, n, steps[n].t);
      assert MayRevoke(run[k], steps[k], steps[n].t, t, i);
    }
  }

  ghost predicate MayRevoke(s: State, e: Step, who: TaskId, t: TaskId, i: nat) {
    e == RevokeLook(who, t, i) && (who == t || (who in s.tables && HoldsControl(s.tables[who])))
  }

  lemma BootIdle(s: State)
    requires Init(s)
    ensures s.calls == map[]
  {}

  lemma ControlHeld(t: Table)
    ensures HasControl(t) ==> HoldsControl(t)
  {
    if i :| 0 <= i < |t.slots| && t.slots[i].Some? && t.slots[i].value.obj.Control? { assert Get(t, i).Some?; }
  }

  lemma RevokingFrom(s: State, e: Step, t: TaskId)
    requires Enabled(s, e) && t in Next(s, e).calls && Next(s, e).calls[t].Revoking?
    ensures (t in s.calls && s.calls[t] == Next(s, e).calls[t]) || e == RevokeLook(t, Next(s, e).calls[t].victim, Next(s, e).calls[t].slot)
  {
    if t != e.t {
      hide Next, Enabled;
      CallsSame(s, e, t);
    }
  }

  predicate PastPermit(c: Authority.Call) { c.Permitted? || c.Imaged? }

  /** A service is registered only by a task that showed a Control with SPAWN for it. */
  lemma {:induction false} RegisteringNeedsSpawn(run: seq<State>, steps: seq<Step>, n: nat, t: TaskId) returns (k: nat)
    requires IsRun(run, steps) && Init(run[0]) && n < |run| && t in run[n].calls && PastPermit(run[n].calls[t])
    ensures k < n && steps[k].Permit? && steps[k].t == t && t in run[k].tables && HoldsSpawn(run[k].tables[t], steps[k].ctl)
    decreases n
  {
    hide Next, Init;
    assert run[0].calls == map[] by { BootIdle(run[0]); }
    var s, e := run[n - 1], steps[n - 1];
    assert run[n] == Next(s, e);
    PermittedFrom(s, e, t);
    if t in s.calls && PastPermit(s.calls[t]) {
      k := RegisteringNeedsSpawn(run, steps, n - 1, t);
    } else {
      k := n - 1;
    }
  }

  lemma PermittedFrom(s: State, e: Step, t: TaskId)
    requires Enabled(s, e) && t in Next(s, e).calls && PastPermit(Next(s, e).calls[t])
    ensures (t in s.calls && PastPermit(s.calls[t])) || (e.Permit? && e.t == t)
  {
    if t != e.t {
      hide Next, Enabled;
      CallsSame(s, e, t);
    }
  }

  // ---------------------------------------------------------------- making objects

  /** What a create call gives its task: the new object, in a slot that was free, with the right to pass it on, every right its
      kind has a use for, and no other. */
  lemma MadeUsable(s: State, t: TaskId, kind: Kind) returns (k: nat)
    requires Enabled(s, Create(t, kind)) && Sound(s.tables[t]) && InsertSlot(s.tables[t]).Some?
    ensures Enabled(Next(s, Create(t, kind)), Keep(t))
    ensures var t' := Next(Next(s, Create(t, kind)), Keep(t)).tables[t];
            && Get(s.tables[t], k).None? && Get(t', k).Some? && (forall mask: Rights :: Derive(t', k, mask).Some?)
            && var c := Get(t', k).value;
               match kind
               case NewEndpoint => c.obj == Endpoint(s.nextObject) && c.rights == {0, 1, 2}
               case NewNotify => c.obj == Notify(s.nextObject) && c.rights == {2, 7, 8}
               case NewMemory(dma) => c.obj == Memory(s.nextObject) && c.rights == if dma then {2, 3, 4, 5} else {2, 3, 4}
               case NewIrq(_) => c.obj == Irq(s.nextObject) && c.rights == {1, 2}
  {
    k := InsertSlot(s.tables[t]).value;
    KeptIsThere(Next(s, Create(t, kind)), t);
  }
}
