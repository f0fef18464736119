/** The scheduler's loops over its own lists: the tick's sweep in place, stealing, and the reaper's search. */
module SchedulerLoops {
  import opened Wrappers
  import opened Scheduler
  import Caps

  // ---------------------------------------------------------------- the tick

  /** A sweep loses nobody: every entry is kept or its task is named, and as many as there were. */
  lemma {:induction false} SweepLosesNone(l: seq<Entry>, now: nat, room: nat)
    ensures |Kept(l, now, room)| + |Due(l, now, room)| == |l| && |Due(l, now, room)| <= room
    ensures forall e :: e in l ==> e in Kept(l, now, room) || (e.due <= now && e.task in Due(l, now, room))
    ensures forall e :: e in Kept(l, now, room) ==> e in l && (e.due > now || |Due(l, now, room)| == room)
  {
    if l != [] {
      SweepLosesNone(l[1..], now, if l[0].due > now || room == 0 then room else room - 1);
      assert l == [l[0]] + l[1..];
    }
  }

  /** The entries of a list that are due, or those that are not. */
  function Pick(l: seq<Entry>, now: nat, due: bool): seq<Entry> {
    if l == [] then [] else (if (l[0].due <= now) == due then [l[0]] else []) + Pick(l[1..], now, due)
  }

  function TasksOf(l: seq<Entry>): (r: seq<TaskId>)
    ensures |r| == |l| && forall i :: 0 <= i < |l| ==> r[i] == l[i].task
  { seq(|l|, i requires 0 <= i < |l| => l[i].task) }

  /** A sweep splits the list at some point: before it every due entry is named and every other kept, in list order; after
      it everything is kept. The point is the end of the list, or where the last of the room was used up. */
  lemma {:induction false} SweepSplits(l: seq<Entry>, now: nat, room: nat) returns (k: nat)
    ensures k <= |l| && (k == |l| || |Due(l, now, room)| == room)
    ensures Due(l, now, room) == TasksOf(Pick(l[..k], now, true)) && Kept(l, now, room) == Pick(l[..k], now, false) + l[k..]
  {
    if l == [] || room == 0 {
      k := 0;
      NoRoom(l, now);
    } else {
      var r := if l[0].due > now then room else room - 1;
      k := SweepSplits(l[1..], now, r);
      assert l[..k + 1][1..] == l[1..][..k] && l[1..][k..] == l[k + 1..];
      var due := Pick(l[1..][..k], now, true);
      assert TasksOf([l[0]] + due) == [l[0].task] + TasksOf(due);
      k := k + 1;
    }
  }

  lemma {:induction false} NoRoom(l: seq<Entry>, now: nat)
    ensures Kept(l, now, 0) == l && Due(l, now, 0) == []
  {
    if l != [] { NoRoom(l[1..], now); }
  }

  /** How far a sweep has got: `front` is kept, `named` is named, and `rest` is still to be looked at. */
  ghost predicate Swept(l: seq<Entry>, now: nat, front: seq<Entry>, named: seq<TaskId>, rest: seq<Entry>) {
    && |named| <= MAX_DUE
    && front + Kept(rest, now, MAX_DUE - |named|) == Kept(l, now, MAX_DUE)
    && named + Due(rest, now, MAX_DUE - |named|) == Due(l, now, MAX_DUE)
  }

  lemma SweptMore(l: seq<Entry>, now: nat, front: seq<Entry>, named: seq<TaskId>, rest: seq<Entry>)
    requires Swept(l, now, front, named, rest) && rest != []
    ensures if rest[0].due > now || |named| == MAX_DUE then Swept(l, now, front + [rest[0]], named, rest[1..])
            else Swept(l, now, front, named + [rest[0].task], rest[1..])
  {
    var room := MAX_DUE - |named|;
    if rest[0].due > now || room == 0 {
      assert front + ([rest[0]] + Kept(rest[1..], now, room)) == front + [rest[0]] + Kept(rest[1..], now, room);
    } else {
      assert named + ([rest[0].task] + Due(rest[1..], now, room - 1)) == named + [rest[0].task] + Due(rest[1..], now, room - 1);
    }
  }

  /** Compacts a sleeper list in place: what is not due, or does not fit, moves to the front. */
  method Sweep(a: array<Entry>, len: nat, now: nat) returns (w: nat, expired: seq<TaskId>)
    requires len <= a.Length
    modifies a
    ensures w <= len && a[..w] == Kept(old(a[..len]), now, MAX_DUE) && expired == Due(old(a[..len]), now, MAX_DUE)
    ensures w + |expired| == len && |expired| <= 64
    ensures forall i :: 0 <= i < w && a[i].due <= now ==> |expired| == 64
  {
    ghost var l := a[..len];
    ghost var front, rest: seq<Entry> := [], l;
    w, expired := 0, [];
    assert Swept(l, now, [], [], l);
    hide Swept;
    for r := 0 to len
      invariant w <= r && |expired| <= MAX_DUE && Swept(l, now, front, expired, rest)
      invariant a[..w] == front && a[r..len] == rest
    {
      var entry := a[r];
      SweptMore(l, now, front, expired, rest);
      assert a[r + 1..len] == rest[1..] && rest[0] == entry;
      if entry.due > now || |expired| == MAX_DUE {
        a[w] := entry;
        w := w + 1;
        assert a[..w] == front + [entry] && a[r + 1..len] == rest[1..];
        front := front + [entry];
      } else {
        expired := expired + [entry.task];
      }
      rest := rest[1..];
      SweptBounded(l, now, front, expired, rest);
    }
    SweptAll(l, now, front, expired);
    SweepLosesNone(l, now, MAX_DUE);
    forall i | 0 <= i < w && a[i].due <= now ensures |expired| == 64 { assert a[..w][i] in a[..w]; }
  }

  lemma SweptBounded(l: seq<Entry>, now: nat, front: seq<Entry>, named: seq<TaskId>, rest: seq<Entry>)
    requires Swept(l, now, front, named, rest)
    ensures |named| <= MAX_DUE
  {}

  lemma SweptAll(l: seq<Entry>, now: nat, front: seq<Entry>, named: seq<TaskId>)
    requires Swept(l, now, front, named, [])
    ensures front == Kept(l, now, MAX_DUE) && named == Due(l, now, MAX_DUE)
  {
    assert front + [] == front && named + [] == named;
  }

  /** Whether a task is on any CPU's sleeper list. */
  method SleepingOn(cpus: seq<Cpu>, id: TaskId) returns (found: bool)
    ensures found <==> exists c :: 0 <= c < |cpus| && Lists(cpus[c].sleepers, id)
  {
    for c := 0 to |cpus|
      invariant forall d :: 0 <= d < c ==> !Lists(cpus[d].sleepers, id)
    {
      for i := 0 to |cpus[c].sleepers|
        invariant forall j :: 0 <= j < i ==> cpus[c].sleepers[j].task != id
      {
        if cpus[c].sleepers[i].task == id { return true; }
      }
    }
    return false;
  }

  /** Takes a task off a sleeper list. */
  method Retain(l: seq<Entry>, id: TaskId) returns (r: seq<Entry>)
    ensures r == Without(l, id) && !Lists(r, id)
  {
    r := [];
    for i := 0 to |l|
      invariant r + Without(l[i..], id) == Without(l, id) && !Lists(r, id)
    {
      assert l[i..][1..] == l[i + 1..];
      if l[i].task != id { r := r + [l[i]]; }
    }
  }

  /** Taking a task off a list leaves every entry of every other task on it. */
  lemma {:induction false} OthersStay(l: seq<Entry>, t: TaskId, x: Entry)
    ensures x in Without(l, t) <==> x in l && x.task != t
  {
    if l != [] { OthersStay(l[1..], t, x); }
  }

  // ---------------------------------------------------------------- stealing

  /** The `k`th CPU from `start` on, around the end. */
  function Around(start: nat, k: nat, online: nat): nat { if start + k < online then start + k else start + k - online }

  /** Task `t` was the head of queue `q`, somebody else's, and is gone from it. */
  predicate Taken(was: seq<seq<TaskId>>, now: seq<seq<TaskId>>, me: nat, t: TaskId, q: nat) {
    q < |was| && q != me && was[q] != [] && t == was[q][0] && now == was[q := was[q][1..]]
  }

  predicate NothingAt(queues: seq<seq<TaskId>>, me: nat, q: nat) { q == me || q >= |queues| || queues[q] == [] }

  ghost predicate PassFails(queues: seq<seq<TaskId>>, me: nat, start: nat) {
    forall k :: 0 <= k < |queues| - 1 ==> NothingAt(queues, me, Around(start, k, |queues|))
  }

  /** One pass misses only the CPU before its start. */
  lemma PassCovers(queues: seq<seq<TaskId>>, me: nat, start: nat, q: nat)
    requires start < |queues| && q < |queues| && PassFails(queues, me, start) && q != Around(start, |queues| - 1, |queues|)
    ensures NothingAt(queues, me, q)
  {
    var k := if q >= start then q - start else q + |queues| - start;
    assert Around(start, k, |queues|) == q;
  }

  class Cores {
    var queues: seq<seq<TaskId>>
    var cursor: nat

    constructor (online: nat)
      requires online > 0
      ensures |queues| == online && cursor == 0
    {
      queues, cursor := seq(online, _ => []), 0;
    }

    /** One pass over the other queues, from `start` on. */
    method TryFrom(me: nat, start: nat) returns (r: Option<(TaskId, nat)>)
      requires start < |queues|
      modifies `queues
      ensures r.Some? ==> Taken(old(queues), queues, me, r.value.0, r.value.1)
      ensures r.Some? && |queues| == 2 ==> r.value.1 == start
      ensures r.None? ==> queues == old(queues) && PassFails(queues, me, start)
    {
      var online := |queues|;
      var cpu, tries := start, 0;
      while tries < online - 1
        invariant tries <= online - 1 && cpu == Around(start, tries, online) && cpu < online && queues == old(queues)
        invariant forall k :: 0 <= k < tries ==> NothingAt(queues, me, Around(start, k, online))
      {
        if cpu != me && queues[cpu] != [] {
          r := Some((queues[cpu][0], cpu));
          queues := queues[cpu := queues[cpu][1..]];
          return;
        }
        cpu := if cpu + 1 == online then 0 else cpu + 1;
        tries := tries + 1;
      }
      return None;
    }

    /**
    Takes a task off somebody else's queue. It comes back empty-handed exactly when there is nothing to
    take, or when there are two CPUs and the cursor points at this one.
    */
    method Steal(me: nat) returns (r: Option<(TaskId, nat)>)
      requires me < |queues| && cursor < |queues|
      modifies this
      ensures |queues| == |old(queues)| && cursor < |queues|
      ensures r.Some? ==> Taken(old(queues), queues, me, r.value.0, r.value.1)
      ensures r.None? ==> queues == old(queues)
      ensures |queues| == 2 ==> cursor == 1 - old(cursor)
      ensures r.None? <==> (forall q :: 0 <= q < |queues| ==> NothingAt(old(queues), me, q)) || (|queues| == 2 && old(cursor) == me)
    {
      var online := |queues|;
      if online < 2 { return None; }
      var passes, first := if online - 1 < 3 then online - 1 else 3, cursor;
      for p := 0 to passes
        invariant queues == old(queues) && cursor < online && (p == 0 ==> cursor == first)
        invariant (p == 1 ==> cursor == Around(first, 1, online))
        invariant p >= 1 ==> PassFails(queues, me, first)
        invariant p >= 2 ==> PassFails(queues, me, Around(first, 1, online))
      {
        var start := cursor;
        cursor := if start + 1 == online then 0 else start + 1;
        r := TryFrom(me, start);
        if r.Some? {
          assert !NothingAt(old(queues), me, r.value.1);
          return;
        }
      }
      EmptyHanded(queues, me, first);
      return None;
    }
  }

  lemma EmptyHanded(queues: seq<seq<TaskId>>, me: nat, first: nat)
    requires me < |queues| && first < |queues| && |queues| >= 2 && PassFails(queues, me, first)
    requires |queues| > 2 ==> PassFails(queues, me, Around(first, 1, |queues|))
    ensures (forall q :: 0 <= q < |queues| ==> NothingAt(queues, me, q)) || (|queues| == 2 && first == me)
  {
    if !(|queues| == 2 && first == me) {
      forall q | 0 <= q < |queues| ensures NothingAt(queues, me, q) {
        if q != Around(first, |queues| - 1, |queues|) { PassCovers(queues, me, first, q); }
        else if |queues| > 2 { PassCovers(queues, me, Around(first, 1, |queues|), q); }
      }
    }
  }

  // ---------------------------------------------------------------- the reaper

  class TaskTable {
    var tasks: map<TaskId, Task>
    var caps: map<TaskId, Caps.CapTable>
    var reap: seq<TaskId>

    ghost predicate Valid()
      reads this, caps.Values
    {
      && tasks.Keys == caps.Keys && (forall t :: t in caps ==> caps[t].Valid())
      && (forall t, u :: t in caps && u in caps && t != u ==> caps[t] != caps[u])
    }

    /** The table as a scheduler state. */
    ghost function Seen(cpus: seq<Cpu>): State
      reads this
    { State(tasks, cpus, [], Unlocked, reap, [], 0, 0) }

    constructor ()
      ensures Valid() && tasks == map[] && reap == []
    {
      tasks, caps, reap := map[], map[], [];
    }

    /** The first task on the reap list that is off every CPU, queue and sleeper list. */
    method FindDead(cpus: seq<Cpu>) returns (at: nat)
      ensures at <= |reap| && (at < |reap| ==> Reapable(Seen(cpus), reap[at])) && forall i :: 0 <= i < at ==> !Reapable(Seen(cpus), reap[i])
    {
      at := 0;
      while at < |reap|
        invariant at <= |reap| && forall j :: 0 <= j < at ==> !Reapable(Seen(cpus), reap[j])
      {
        var id := reap[at];
        if id in tasks && tasks[id].cpu.None? && !tasks[id].place.Queued? {
          var listed := SleepingOn(cpus, id);
          if !listed { return; }
        }
        at := at + 1;
      }
    }

    /** Frees the first dead task that is nowhere, once its capabilities are gone; `held` is its table. */
    method TakeDead(cpus: seq<Cpu>) returns (r: Option<(TaskId, nat)>, ghost at: nat, held: Caps.CapTable?)
      requires Valid()
      modifies this, caps.Values
      ensures Valid()
      ensures r.None? ==> tasks == old(tasks) && reap == old(reap) && forall i :: 0 <= i < |reap| ==> !Reapable(Seen(cpus), reap[i])
      ensures r.Some? ==> at < |old(reap)| && r.value.0 == old(reap)[at] && Enabled(old(Seen(cpus)), Step.TakeDead(at))
                          && (forall i :: 0 <= i < at ==> !Reapable(old(Seen(cpus)), old(reap)[i]))
                          && Seen(cpus) == DoTakeDead(old(Seen(cpus)), at).(released := [])
      ensures r.Some? ==> held != null && r.value.0 in old(caps) && held == old(caps)[r.value.0]
      ensures r.Some? ==> Caps.Live(held.Model()) == 0 && r.value.1 == Caps.Live(old(held.Model()))
      ensures forall t :: t in caps ==> t in old(caps) && caps[t] == old(caps)[t] && caps[t].Model() == old(caps[t].Model())
    {
      at := |reap|;
      var i := FindDead(cpus);
      if i == |reap| { return None, at, null; }
      at := i;
      var id := reap[i];
      assert id in tasks.Keys;
      var own := caps[id];
      assert own in caps.Values;
      var n := own.RevokeAll();
      reap := reap[..i] + reap[i + 1..];
      tasks, caps := tasks - {id}, caps - {id};
      return Some((id, n)), at, own;
    }
  }
}
