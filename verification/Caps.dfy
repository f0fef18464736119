/**
Capabilities and the slot tables that hold them.

`CapTable` is the object the kernel mutates in place. `Table` is its value; the lemmas about what a table
keeps over any sequence of calls are stated on it.
*/
module Caps {
  import opened Wrappers

  /** A rights mask as the set of its bit positions: `&` is intersection, `|` union. */
  type Rights = set<nat>

  const SEND: Rights := {0}
  const RECV: Rights := {1}
  const GRANT: Rights := {2}
  const MAP_READ: Rights := {3}
  const MAP_WRITE: Rights := {4}
  const DMA: Rights := {5}
  const SPAWN: Rights := {6}
  const SIGNAL: Rights := {7}
  const WAIT: Rights := {8}

  /** `self.contains(other)` */
  predicate Contains(self: Rights, other: Rights): (r: bool)
    ensures r <==> forall x :: x in other ==> x in self
  {
    assert self * other == other ==> forall x :: x in other ==> x in self * other;
    self * other == other
  }

  /** Kernel objects by identity. */
  datatype Object =
    | Endpoint(id: nat)
    | Notify(id: nat)
    | Memory(id: nat)
    | Device(id: nat)
    | Irq(id: nat)
    | Port(base: nat, len: nat)
    | Control
    | Console

  datatype Capability = Capability(obj: Object, rights: Rights)

  const MAX_SLOTS: nat := 256

  datatype Table = Table(slots: seq<Option<Capability>>, revoked: seq<bool>)

  /** Slots and tombstones go together, and a tombstone holds nothing. */
  predicate Sound(t: Table) {
    && |t.slots| == |t.revoked| <= MAX_SLOTS
    && (forall i :: 0 <= i < |t.slots| && t.revoked[i] ==> t.slots[i].None?)
  }

  // ---------------------------------------------------------------- the table's operations on values

  predicate Usable(t: Table, i: nat) { i < |t.slots| == |t.revoked| && t.slots[i].None? && !t.revoked[i] }

  /** The first slot at or after `from` that is free and has never been revoked. */
  function FirstUsable(t: Table, from: nat): (r: Option<nat>)
    ensures r.Some? ==> from <= r.value && Usable(t, r.value) && forall j :: from <= j < r.value ==> !Usable(t, j)
    ensures r.None? ==> forall j :: from <= j ==> !Usable(t, j)
    decreases |t.slots| - from
  {
    if from >= |t.slots| || |t.slots| != |t.revoked| then None
    else if t.slots[from].None? && !t.revoked[from] then Some(from)
    else FirstUsable(t, from + 1)
  }

  /** The lowest number that is neither taken nor dead, below 256. */
  function InsertSlot(t: Table): (r: Option<nat>)
    ensures |t.slots| == |t.revoked| && r.Some? ==> r.value < MAX_SLOTS || r.value < |t.slots|
    ensures |t.slots| == |t.revoked| && r.Some? ==> (Usable(t, r.value) || r.value == |t.slots|) && forall j :: 0 <= j < r.value ==> !Usable(t, j)
    ensures |t.slots| == |t.revoked| && r.None? ==> |t.slots| >= MAX_SLOTS && forall j :: 0 <= j < |t.slots| ==> !Usable(t, j)
  {
    if FirstUsable(t, 0).Some? then FirstUsable(t, 0)
    else if |t.slots| >= MAX_SLOTS then None
    else Some(|t.slots|)
  }

  function Inserted(t: Table, cap: Capability): Table
  {
    match InsertSlot(t)
    case None => t
    case Some(i) =>
      if i < |t.slots| then t.(slots := t.slots[i := Some(cap)])
      else Table(t.slots + [Some(cap)], t.revoked + [false])
  }

  function Get(t: Table, slot: nat): Option<Capability> { if slot < |t.slots| then t.slots[slot] else None }

  function Lookup(t: Table, slot: nat, rights: Rights): (r: Option<Capability>)
    ensures r.Some? <==> Get(t, slot).Some? && Contains(Get(t, slot).value.rights, rights)
    ensures r.Some? ==> r == Get(t, slot)
  {
    var cap := Get(t, slot);
    if cap.Some? && Contains(cap.value.rights, rights) then cap else None
  }

  /** A copy for another table. It needs GRANT and carries exactly the rights that the original and the mask both have. */
  function Derive(t: Table, slot: nat, mask: Rights): (r: Option<Capability>)
    ensures r.Some? <==> Get(t, slot).Some? && 2 in Get(t, slot).value.rights
    ensures r.Some? ==> r.value.obj == Get(t, slot).value.obj
    ensures r.Some? ==> forall x :: x in r.value.rights <==> x in Get(t, slot).value.rights && x in mask
  {
    var cap := Lookup(t, slot, GRANT);
    if cap.None? then None else Some(Capability(cap.value.obj, cap.value.rights * mask))
  }

  predicate Revocable(t: Table, slot: nat) { slot < |t.slots| == |t.revoked| && !t.revoked[slot] && t.slots[slot].Some? }

  function Revoke(t: Table, slot: nat): Table {
    if Revocable(t, slot) then Table(t.slots[slot := None], t.revoked[slot := true]) else t
  }

  function Remove(t: Table, slot: nat): Table {
    if slot < |t.slots| then t.(slots := t.slots[slot := None]) else t
  }

  function Live(t: Table): nat { CountLive(t.slots) }

  function CountLive(s: seq<Option<Capability>>): nat {
    if s == [] then 0 else CountLive(s[..|s| - 1]) + (if s[|s| - 1].Some? then 1 else 0)
  }

  function CountTrue(s: seq<bool>): nat {
    if s == [] then 0 else CountTrue(s[..|s| - 1]) + (if s[|s| - 1] then 1 else 0)
  }

  /** Slots in use that are empty and were never revoked. */
  function CountUsable(s: seq<Option<Capability>>, r: seq<bool>): nat
    requires |s| == |r|
  {
    if s == [] then 0
    else CountUsable(s[..|s| - 1], r[..|r| - 1]) + (if s[|s| - 1].None? && !r[|r| - 1] then 1 else 0)
  }

  function Free(t: Table): nat
    requires |t.slots| == |t.revoked| <= MAX_SLOTS
  { MAX_SLOTS - |t.slots| + CountUsable(t.slots, t.revoked) }

  lemma {:induction false} Partition(s: seq<Option<Capability>>, r: seq<bool>)
    requires |s| == |r| && forall i :: 0 <= i < |s| && r[i] ==> s[i].None?
    ensures CountLive(s) + CountTrue(r) + CountUsable(s, r) == |s|
  {
    if s != [] { Partition(s[..|s| - 1], r[..|r| - 1]); }
  }

  /** Every one of the 256 slot numbers is live, dead for good, or free. */
  lemma SlotsAddUp(t: Table)
    requires Sound(t)
    ensures Live(t) + CountTrue(t.revoked) + Free(t) == MAX_SLOTS
  {
    Partition(t.slots, t.revoked);
  }

  lemma {:induction false} CountUpdate(s: seq<Option<Capability>>, i: nat)
    requires i < |s| && s[i].Some?
    ensures CountLive(s[i := None]) == CountLive(s) - 1
  {
    var k := |s| - 1;
    if i < k {
      CountUpdate(s[..k], i);
      assert s[i := None][..k] == s[..k][i := None];
    } else {
      assert s[i := None][..k] == s[..k];
    }
  }

  lemma {:induction false} NoneLive(s: seq<Option<Capability>>)
    ensures CountLive(s) == 0 <==> forall i :: 0 <= i < |s| ==> s[i].None?
    ensures CountLive(s) <= |s|
  {
    if s != [] {
      NoneLive(s[..|s| - 1]);
      assert forall i :: 0 <= i < |s| - 1 ==> s[..|s| - 1][i] == s[i];
    }
  }

  // ---------------------------------------------------------------- what any sequence of calls keeps

  datatype Call = DoInsert(cap: Capability) | DoRemove(slot: nat) | DoRevoke(slot: nat)

  function After(t: Table, c: Call): Table
  {
    match c
    case DoInsert(cap) => Inserted(t, cap)
    case DoRemove(slot) => Remove(t, slot)
    case DoRevoke(slot) => Revoke(t, slot)
  }

  lemma CallKeepsSound(t: Table, c: Call)
    requires Sound(t)
    ensures Sound(After(t, c))
    ensures |t.slots| <= |After(t, c).slots|
    ensures forall i :: 0 <= i < |t.revoked| && t.revoked[i] ==> After(t, c).revoked[i] && After(t, c).slots[i].None?
  {}

  ghost predicate IsHistory(ts: seq<Table>, cs: seq<Call>) {
    && |ts| == |cs| + 1 && ts[0] == Table([], [])
    && forall i :: 0 <= i < |cs| ==> ts[i + 1] == After(ts[i], cs[i])
  }

  /** Over any sequence of calls on a new table, a revoked slot stays revoked and empty, and no later insert is given
      its number; and the three kinds of slot add up to 256 throughout. */
  lemma {:induction false} RevokedForGood(ts: seq<Table>, cs: seq<Call>, n: nat, m: nat, slot: nat)
    requires IsHistory(ts, cs) && n <= m < |ts| && slot < |ts[n].revoked| && ts[n].revoked[slot]
    ensures Sound(ts[m]) && slot < |ts[m].revoked| && ts[m].revoked[slot] && ts[m].slots[slot].None?
    ensures InsertSlot(ts[m]) != Some(slot)
    ensures Live(ts[m]) + CountTrue(ts[m].revoked) + Free(ts[m]) == MAX_SLOTS
    decreases m - n
  {
    HistorySound(ts, cs, m);
    SlotsAddUp(ts[m]);
    if n < m {
      RevokedForGood(ts, cs, n, m - 1, slot);
      CallKeepsSound(ts[m - 1], cs[m - 1]);
    } else {
      HistorySound(ts, cs, n);
    }
  }

  lemma {:induction false} HistorySound(ts: seq<Table>, cs: seq<Call>, n: nat)
    requires IsHistory(ts, cs) && n < |ts|
    ensures Sound(ts[n])
  {
    if n > 0 {
      HistorySound(ts, cs, n - 1);
      CallKeepsSound(ts[n - 1], cs[n - 1]);
    }
  }

  // ---------------------------------------------------------------- the table in place

  class CapTable {
    var slots: seq<Option<Capability>>
    var revoked: seq<bool>

    function Model(): Table
      reads this
    { Table(slots, revoked) }

    ghost predicate Valid()
      reads this
    { Sound(Model()) }

    constructor ()
      ensures Valid() && Model() == Table([], [])
    {
      slots, revoked := [], [];
    }

    method Insert(cap: Capability) returns (slot: Option<nat>)
      requires Valid()
      modifies this
      ensures Valid() && Model() == Inserted(old(Model()), cap) && slot == InsertSlot(old(Model()))
      ensures slot.Some? ==> slot.value < |slots| && slots[slot.value] == Some(cap) && !revoked[slot.value]
      ensures slot.Some? ==> Get(old(Model()), slot.value).None? && forall j :: 0 <= j < slot.value ==> !Usable(old(Model()), j)
      ensures forall j :: 0 <= j && Some(j) != slot ==> Get(Model(), j) == Get(old(Model()), j)
      ensures forall j :: 0 <= j < |old(revoked)| ==> j < |revoked| && revoked[j] == old(revoked)[j]
      ensures slot.None? <==> Free(old(Model())) == 0
    {
      NoUsableNoFree(Model());
      var i := 0;
      while i < |slots| && !(slots[i].None? && !revoked[i])
        invariant 0 <= i <= |slots|
        invariant FirstUsable(Model(), i) == FirstUsable(Model(), 0)
      {
        i := i + 1;
      }
      if i < |slots| {
        slots := slots[i := Some(cap)];
        return Some(i);
      }
      if |slots| >= MAX_SLOTS {
        return None;
      }
      slots := slots + [Some(cap)];
      revoked := revoked + [false];
      return Some(|slots| - 1);
    }

    method RevokeSlot(slot: nat) returns (cap: Option<Capability>)
      requires Valid()
      modifies this
      ensures Valid() && Model() == Revoke(old(Model()), slot)
      ensures cap.Some? <==> Revocable(old(Model()), slot)
      ensures cap == Get(old(Model()), slot) && Get(Model(), slot).None?
      ensures |slots| == |old(slots)|
      ensures forall j :: 0 <= j < |slots| && j != slot ==> slots[j] == old(slots)[j] && revoked[j] == old(revoked)[j]
      ensures slot < |slots| ==> (revoked[slot] <==> old(revoked[slot] || slots[slot].Some?))
    {
      if slot < |revoked| && revoked[slot] {
        return None;
      }
      if slot >= |slots| || slots[slot].None? {
        return None;
      }
      cap := slots[slot];
      slots := slots[slot := None];
      revoked := revoked[slot := true];
    }

    method RemoveSlot(slot: nat) returns (cap: Option<Capability>)
      requires Valid()
      modifies this
      ensures Valid() && Model() == Remove(old(Model()), slot) && cap == Get(old(Model()), slot)
      ensures Get(Model(), slot).None? && revoked == old(revoked) && |slots| == |old(slots)|
      ensures forall j :: 0 <= j < |slots| && j != slot ==> slots[j] == old(slots)[j]
      ensures slot < |slots| && !revoked[slot] ==> InsertSlot(Model()).Some? && InsertSlot(Model()).value <= slot
    {
      if slot >= |slots| {
        return None;
      }
      cap := slots[slot];
      slots := slots[slot := None];
      assert !revoked[slot] ==> Usable(Model(), slot);
    }

    /** `revoke_all`, and the loop in `take_dead` that strips a dead task: every live slot becomes a tombstone. */
    method RevokeAll() returns (n: nat)
      requires Valid()
      modifies this
      ensures Valid() && n == Live(old(Model())) && Live(Model()) == 0
      ensures |slots| == |old(slots)| && forall i :: 0 <= i < |slots| ==> slots[i].None?
      ensures forall i :: 0 <= i < |slots| ==> (revoked[i] <==> old(revoked[i] || slots[i].Some?))
    {
      n := 0;
      NoneLive(slots);
      while n <= 4096
        invariant Valid() && |slots| == |old(slots)|
        invariant n + Live(Model()) == Live(old(Model())) && n <= 256
        invariant forall i :: 0 <= i < |slots| ==> (revoked[i] || slots[i].Some? <==> old(revoked[i] || slots[i].Some?))
        decreases Live(Model())
      {
        var s := 0;
        while s < |slots| && slots[s].None?
          invariant 0 <= s <= |slots| && forall i :: 0 <= i < s ==> slots[i].None?
        {
          s := s + 1;
        }
        NoneLive(slots);
        if s == |slots| {
          break;
        }
        CountUpdate(slots, s);
        var cap := RevokeSlot(s);
        n := n + 1;
        NoneLive(slots);
      }
    }
  }

  lemma {:induction false} NoUsableNoFree(t: Table)
    requires Sound(t)
    ensures InsertSlot(t).None? <==> Free(t) == 0
  {
    UsableCounted(t.slots, t.revoked);
  }

  lemma {:induction false} UsableCounted(s: seq<Option<Capability>>, r: seq<bool>)
    requires |s| == |r|
    ensures CountUsable(s, r) == 0 <==> forall i :: 0 <= i < |s| ==> !Usable(Table(s, r), i)
  {
    if s != [] {
      var k := |s| - 1;
      UsableCounted(s[..k], r[..k]);
      var u, v := Table(s[..k], r[..k]), Table(s, r);
      forall i | 0 <= i < k ensures Usable(u, i) == Usable(v, i) {}
      if forall i :: 0 <= i < |s| ==> !Usable(v, i) { assert !Usable(v, k); }
    }
  }
}
