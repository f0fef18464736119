/**
Any sequence of calls on a heap, seen by its client.

The client keeps its own account of what it was given and what it wrote, in which every allocation is a
sequence of bytes of its own. However the calls go, memory says the same as that account.
*/
module HeapRuns {
  import opened Wrappers
  import opened Memory
  import opened Blocks
  import opened Moves
  import opened HeapSteps
  import opened Heap
  import S = Supply

  datatype Mine = Mine(ptr: nat, align: nat, data: seq<byte>)
  datatype Call = Take(size: nat, align: nat) | Give(i: nat) | Resize(i: nat, size: nat) | Write(i: nat, bytes: seq<byte>)

  /** What a call gave back: an address, and the bytes found where nothing was written yet. */
  datatype Answer = Answer(p: nat, found: seq<byte>)

  function UseOf(a: Mine): Use { Used(a.ptr, |a.data|, a.align) }
  function Uses(mine: seq<Mine>): set<Use> { set i | 0 <= i < |mine| :: UseOf(mine[i]) }

  function Without(mine: seq<Mine>, i: nat): seq<Mine>
    requires i < |mine|
  { mine[..i] + mine[i + 1..] }

  /** The client's account of one call: allocations are independent, and nothing moves or changes but what the call names. */
  function Account(mine: seq<Mine>, call: Call, a: Answer): seq<Mine> {
    match call
    case Take(size, align) => if a.p == 0 then mine else mine + [Mine(a.p, Max(align, ALIGN), a.found)]
    case Give(i) => if i < |mine| then Without(mine, i) else mine
    case Resize(i, size) =>
      if i >= |mine| then mine
      else if size == 0 then Without(mine, i)
      else if a.p == 0 then mine
      else mine[i := Mine(a.p, mine[i].align, mine[i].data[..Min(|mine[i].data|, size)] + a.found)]
    case Write(i, bytes) =>
      if i < |mine| && |bytes| <= |mine[i].data| then mine[i := Mine(mine[i].ptr, mine[i].align, bytes + mine[i].data[|bytes|..])] else mine
  }

  function Accounts(calls: seq<Call>, log: seq<Answer>): seq<Mine>
    requires |log| == |calls|
  { if calls == [] then [] else Account(Accounts(calls[..|calls| - 1], log[..|log| - 1]), calls[|calls| - 1], log[|log| - 1]) }

  /** Memory holds what the account says, and the heap has nothing else in use. */
  ghost predicate True(m: seq<byte>, bs: seq<Block>, mine: seq<Mine>) {
    && Live(bs) == Uses(mine)
    && (forall i, j :: 0 <= i < j < |mine| ==> UseOf(mine[i]) != UseOf(mine[j]))
    && (forall i :: 0 <= i < |mine| ==> Sane(mine[i]) && HasBytes(m, mine[i]))
  }

  predicate Sane(a: Mine) { a.align >= ALIGN && |a.data| >= 1 && InRange(1, a.align) }

  predicate HasBytes(m: seq<byte>, a: Mine) { a.ptr + |a.data| <= |m| && m[a.ptr..a.ptr + |a.data|] == a.data }

  lemma SparedBytes(m: seq<byte>, m': seq<byte>, us: set<Use>, a: Mine)
    requires Spared(m, m', us) && UseOf(a) in us && HasBytes(m, a)
    ensures HasBytes(m', a)
  {
    assert Bytes(m', UseOf(a)) == Bytes(m, UseOf(a));
  }

  /** A call that leaves every payload but the `i`th alone. */
  lemma OthersTrue(m: seq<byte>, m': seq<byte>, bs: seq<Block>, mine: seq<Mine>, i: nat, j: nat)
    requires True(m, bs, mine) && i < |mine| && j < |mine| && j != i && Spared(m, m', Live(bs) - {UseOf(mine[i])})
    ensures HasBytes(m', mine[j])
  {
    hide HasBytes, Live;
    assert UseOf(mine[j]) in Uses(mine);
    assert i < j ==> UseOf(mine[i]) != UseOf(mine[j]);
    assert j < i ==> UseOf(mine[j]) != UseOf(mine[i]);
    SparedBytes(m, m', Live(bs) - {UseOf(mine[i])}, mine[j]);
  }

  lemma TookOne(m: seq<byte>, m': seq<byte>, bs: seq<Block>, bs': seq<Block>, mine: seq<Mine>, a: Mine)
    requires True(m, bs, mine) && Spared(m, m', Live(bs)) && Sane(a) && HasBytes(m', a)
    requires UseOf(a) !in Live(bs) && Live(bs') == Live(bs) + {UseOf(a)}
    ensures True(m', bs', mine + [a])
  {
    hide HasBytes, Live;
    var next := mine + [a];
    forall i | 0 <= i < |mine| ensures HasBytes(m', mine[i]) { assert UseOf(mine[i]) in Uses(mine); SparedBytes(m, m', Live(bs), mine[i]); }
    forall i | 0 <= i < |mine| ensures UseOf(mine[i]) != UseOf(a) { assert UseOf(mine[i]) in Uses(mine); }
    UsesAdd(mine, a);
  }

  lemma UsesAdd(mine: seq<Mine>, a: Mine)
    ensures Uses(mine + [a]) == Uses(mine) + {UseOf(a)}
  {
    var next := mine + [a];
    assert next[|mine|] == a && forall i :: 0 <= i < |mine| ==> next[i] == mine[i];
  }

  lemma GaveOne(m: seq<byte>, m': seq<byte>, bs: seq<Block>, bs': seq<Block>, mine: seq<Mine>, i: nat)
    requires True(m, bs, mine) && i < |mine| && Live(bs') == Live(bs) - {UseOf(mine[i])} && Spared(m, m', Live(bs'))
    ensures True(m', bs', Without(mine, i))
  {
    hide HasBytes, Live;
    var next := Without(mine, i);
    forall k | 0 <= k < |next| ensures next[k] == mine[if k < i then k else k + 1] && HasBytes(m', next[k]) {
      OthersTrue(m, m', bs, mine, i, if k < i then k else k + 1);
    }
    UsesWithout(mine, i);
  }

  lemma UsesWithout(mine: seq<Mine>, i: nat)
    requires i < |mine| && forall i, j :: 0 <= i < j < |mine| ==> UseOf(mine[i]) != UseOf(mine[j])
    ensures Uses(Without(mine, i)) == Uses(mine) - {UseOf(mine[i])}
  {
    var next := Without(mine, i);
    forall k | 0 <= k < |mine| && k != i ensures UseOf(mine[k]) in Uses(next) { assert next[if k < i then k else k - 1] == mine[k]; }
    forall k | 0 <= k < |next| ensures UseOf(next[k]) in Uses(mine) - {UseOf(mine[i])} { assert next[k] == mine[if k < i then k else k + 1]; }
  }

  lemma ChangedOne(m: seq<byte>, m': seq<byte>, bs: seq<Block>, bs': seq<Block>, mine: seq<Mine>, i: nat, a: Mine)
    requires True(m, bs, mine) && i < |mine| && Spared(m, m', Live(bs) - {UseOf(mine[i])}) && Sane(a) && HasBytes(m', a)
    requires Live(bs') == Live(bs) - {UseOf(mine[i])} + {UseOf(a)} && UseOf(a) !in Live(bs) - {UseOf(mine[i])}
    ensures True(m', bs', mine[i := a])
  {
    hide HasBytes, Live;
    var next := mine[i := a];
    forall k | 0 <= k < |next| ensures HasBytes(m', next[k]) { if k != i { OthersTrue(m, m', bs, mine, i, k); } }
    UsesWithout(mine, i);
    UsesChanged(mine, i, a);
    forall k | 0 <= k < |mine| && k != i ensures UseOf(mine[k]) != UseOf(a) {
      assert UseOf(mine[k]) in Uses(mine);
      assert (i < k ==> UseOf(mine[i]) != UseOf(mine[k])) && (k < i ==> UseOf(mine[k]) != UseOf(mine[i]));
    }
  }

  lemma UsesChanged(mine: seq<Mine>, i: nat, a: Mine)
    requires i < |mine|
    ensures Uses(mine[i := a]) == Uses(Without(mine, i)) + {UseOf(a)}
  {
    var next, less := mine[i := a], Without(mine, i);
    forall k | 0 <= k < |less| ensures UseOf(less[k]) in Uses(next) { assert next[if k < i then k else k + 1] == less[k]; }
    forall k | 0 <= k < |next| && k != i ensures UseOf(next[k]) in Uses(less) { assert less[if k < i then k else k - 1] == next[k]; }
    assert next[i] == a;
  }

  // ---------------------------------------------------------------- one call, and all of them

  method DoTake(h: Heap, mine: seq<Mine>, size: nat, align: nat) returns (a: Answer)
    requires h.Valid() && True(h.mem[..], h.blocks, mine)
    modifies h, h.mem, h.supplier
    ensures h.Valid() && True(h.mem[..], h.blocks, Account(mine, Take(size, align), a))
  {
    hide Heap.Valid, Live, Spared, NoFit, TakesFirst, BlockFor, HasBytes, IsPow2;
    if !InRange(size, align) { return Answer(0, []); }
    var p := h.Alloc(size, align);
    if p == 0 { SameTrue(old(h.mem[..]), h.mem[..], old(h.blocks), h.blocks, mine); return Answer(0, []); }
    var n := Max(size, 1);
    Inside(h, Used(p, n, Max(align, ALIGN)));
    a := Answer(p, h.mem[p..p + n]);
    NowHas(h.mem[..], Mine(p, Max(align, ALIGN), a.found));
    TookOne(old(h.mem[..]), h.mem[..], old(h.blocks), h.blocks, mine, Mine(p, Max(align, ALIGN), a.found));
  }

  lemma SameTrue(m: seq<byte>, m': seq<byte>, bs: seq<Block>, bs': seq<Block>, mine: seq<Mine>)
    requires True(m, bs, mine) && Live(bs') == Live(bs) && Spared(m, m', Live(bs))
    ensures True(m', bs', mine)
  {
    hide HasBytes, Live;
    forall i | 0 <= i < |mine| ensures HasBytes(m', mine[i]) { assert UseOf(mine[i]) in Uses(mine); SparedBytes(m, m', Live(bs), mine[i]); }
  }

  lemma NowHas(m: seq<byte>, a: Mine)
    requires a.ptr + |a.data| <= |m| && a.data == m[a.ptr..a.ptr + |a.data|]
    ensures HasBytes(m, a)
  {}

  lemma Inside(h: Heap, u: Use)
    requires h.Valid() && u in Live(h.blocks)
    ensures u.Used? && u.ptr + u.size <= h.mem.Length && 0 < u.ptr
  {
    hide Heap.Core, Live;
    var i := h.OwnerIn(u);
  }

  method DoGive(h: Heap, mine: seq<Mine>, i: nat) returns (a: Answer)
    requires h.Valid() && True(h.mem[..], h.blocks, mine)
    modifies h, h.mem
    ensures h.Valid() && True(h.mem[..], h.blocks, Account(mine, Give(i), a))
  {
    hide Heap.Core, Live, Spared, HasBytes, Given, Sound, S.Supplier.Valid;
    a := Answer(0, []);
    if i >= |mine| { return; }
    ghost var u := UseOf(mine[i]);
    assert u in Uses(mine);
    Inside(h, u);
    ghost var k := h.OwnerIn(u);
    h.Dealloc(mine[i].ptr);
    GaveOne(old(h.mem[..]), h.mem[..], old(h.blocks), h.blocks, mine, i);
  }

  method DoResize(h: Heap, mine: seq<Mine>, i: nat, size: nat) returns (a: Answer)
    requires h.Valid() && True(h.mem[..], h.blocks, mine)
    modifies h, h.mem, h.supplier
    ensures h.Valid() && True(h.mem[..], h.blocks, Account(mine, Resize(i, size), a))
  {
    hide Heap.Valid, Live, Spared, HasBytes, RoomInPlace, Moved;
    a := Answer(0, []);
    if i >= |mine| { return; }
    var x := mine[i];
    ghost var u := UseOf(x);
    assert u in Uses(mine);
    if size > 0 && !InRange(size, x.align) { return; }
    var q := h.Realloc(x.ptr, |x.data|, x.align, size);
    if size == 0 {
      GaveOne(old(h.mem[..]), h.mem[..], old(h.blocks), h.blocks, mine, i);
      return;
    }
    if q == 0 { SameTrue(old(h.mem[..]), h.mem[..], old(h.blocks), h.blocks, mine); return; }
    Inside(h, Used(q, size, x.align));
    var n := Min(|x.data|, size);
    a := Answer(q, h.mem[q + n..q + size]);
    CarriedOver(old(h.mem[..]), h.mem[..], x, q, n, size);
    ChangedOne(old(h.mem[..]), h.mem[..], old(h.blocks), h.blocks, mine, i, Mine(q, x.align, x.data[..n] + a.found));
  }

  lemma CarriedOver(m: seq<byte>, m': seq<byte>, x: Mine, q: nat, n: nat, size: nat)
    requires HasBytes(m, x) && n <= |x.data| && n <= size && q + size <= |m'| && Moved(m, m', x.ptr, q, n)
    ensures HasBytes(m', Mine(q, x.align, x.data[..n] + m'[q + n..q + size]))
  {
    assert m'[q..q + size] == m'[q..q + n] + m'[q + n..q + size];
    assert m[x.ptr..x.ptr + n] == m[x.ptr..x.ptr + |x.data|][..n];
  }

  method DoWrite(h: Heap, mine: seq<Mine>, i: nat, bytes: seq<byte>) returns (a: Answer)
    requires h.Valid() && True(h.mem[..], h.blocks, mine)
    modifies h.mem
    ensures h.Valid() && True(h.mem[..], h.blocks, Account(mine, Write(i, bytes), a))
  {
    hide Live, Spared, HasBytes, Sound, S.Supplier.Valid, UsedBytes, UsedCount, Tiled, S.SlotsLast;
    a := Answer(0, []);
    if i >= |mine| || |bytes| > |mine[i].data| { return; }
    var x := mine[i];
    ghost var u := UseOf(x);
    assert u in Uses(mine);
    Inside(h, u);
    Fill(h.mem, x.ptr, bytes);
    PayloadWriteKeeps(old(h.mem[..]), h.mem[..], h.blocks, u);
    Overwritten(old(h.mem[..]), h.mem[..], x, bytes);
    ghost var y := Mine(x.ptr, x.align, bytes + x.data[|bytes|..]);
    assert UseOf(y) == u;
    assert Live(h.blocks) == Live(h.blocks) - {u} + {u};
    ChangedOne(old(h.mem[..]), h.mem[..], h.blocks, h.blocks, mine, i, y);
  }

  method Fill(mem: array<byte>, at: nat, bytes: seq<byte>)
    requires at + |bytes| <= mem.Length
    modifies mem
    ensures mem[at..at + |bytes|] == bytes && Touches(old(mem[..]), mem[..], at, |bytes|)
  {
    for k := 0 to |bytes|
      invariant forall j :: 0 <= j < mem.Length ==> mem[j] == if at <= j < at + k then bytes[j - at] else old(mem[j])
    {
      mem[at + k] := bytes[k];
    }
  }

  lemma Overwritten(m: seq<byte>, m': seq<byte>, x: Mine, bytes: seq<byte>)
    requires HasBytes(m, x) && |bytes| <= |x.data| && Touches(m, m', x.ptr, |bytes|) && m'[x.ptr..x.ptr + |bytes|] == bytes
    ensures HasBytes(m', Mine(x.ptr, x.align, bytes + x.data[|bytes|..]))
  {
    var n, k := |x.data|, |bytes|;
    assert m'[x.ptr..x.ptr + n] == m'[x.ptr..x.ptr + k] + m'[x.ptr + k..x.ptr + n];
    assert m'[x.ptr + k..x.ptr + n] == m[x.ptr + k..x.ptr + n] == m[x.ptr..x.ptr + n][k..];
  }

  /** Runs any calls at all from an empty heap: what the client reads is what its account says. */
  method Run(h: Heap, calls: seq<Call>) returns (mine: seq<Mine>, log: seq<Answer>)
    requires h.Valid() && Live(h.blocks) == {}
    modifies h, h.mem, h.supplier
    ensures |log| == |calls| && mine == Accounts(calls, log)
    ensures h.Valid() && True(h.mem[..], h.blocks, mine)
  {
    hide Heap.Valid, True, Account;
    mine, log := [], [];
    assert True(h.mem[..], h.blocks, mine) by { NothingYet(h.mem[..], h.blocks); }
    for k := 0 to |calls|
      invariant |log| == k && mine == Accounts(calls[..k], log) && h.Valid() && True(h.mem[..], h.blocks, mine)
    {
      var a;
      match calls[k] {
        case Take(size, align) => a := DoTake(h, mine, size, align);
        case Give(i) => a := DoGive(h, mine, i);
        case Resize(i, size) => a := DoResize(h, mine, i, size);
        case Write(i, bytes) => a := DoWrite(h, mine, i, bytes);
      }
      assert calls[..k + 1][..k] == calls[..k] && (log + [a])[..k] == log;
      mine, log := Account(mine, calls[k], a), log + [a];
    }
    assert calls[..|calls|] == calls;
  }

  lemma NothingYet(m: seq<byte>, bs: seq<Block>)
    requires Live(bs) == {}
    ensures True(m, bs, [])
  {}

  /** A service's heap: one region of its own and nothing more to come. */
  method Service(size: nat, calls: seq<Call>) returns (h: Heap, mine: seq<Mine>, log: seq<Answer>)
    requires MIN_SPLIT <= size && size % ALIGN == 0 && size + ALIGN <= WORD
    ensures |log| == |calls| && mine == Accounts(calls, log) && h.Valid() && True(h.mem[..], h.blocks, mine)
  {
    hide Accounts, True, Spared;
    var mem := new byte[ALIGN + size];
    var supplier := new S.Supplier(S.Fixed);
    h := new Heap(mem, supplier);
    var ok := h.AddRegion(S.Region(ALIGN, size));
    OneUsed(Block(ALIGN, size, Free));
    mine, log := Run(h, calls);
  }

  /** The kernel's heap: its first sixteen mebibytes, if they could be mapped, and the rest of its window as it is needed. */
  method Kernel(mapped: bool, calls: seq<Call>) returns (h: Heap, mine: seq<Mine>, log: seq<Answer>)
    ensures |log| == |calls| && mine == Accounts(calls, log) && h.Valid() && True(h.mem[..], h.blocks, mine)
  {
    hide Accounts, True, Spared;
    var mem := new byte[S.HEAP_START + S.HEAP_RESERVE];
    var supplier := new S.Supplier(S.Frames);
    h := new Heap(mem, supplier);
    h.Init(mapped);
    OneUsed(Block(S.HEAP_START, S.HEAP_AT_BOOT, Free));
    mine, log := Run(h, calls);
  }

  lemma FirstOfTwo(bs: seq<Block>, p: nat)
    requires TakesFirst([Block(ALIGN, 4096, Free)], bs, BlockFor(16, ALIGN), Used(p, 16, ALIGN))
    ensures var need := BlockFor(16, ALIGN);
            bs == [Block(ALIGN, need, Used(p, 16, ALIGN)), Block(ALIGN + need, 4096 - need, Free)]
  {
    hide BlockFor;
    var one := [Block(ALIGN, 4096, Free)];
    var k: nat :| FirstFit(one, BlockFor(16, ALIGN), k) && bs == Taken(one, k, BlockFor(16, ALIGN), Used(p, 16, ALIGN));
    assert k == 0;
  }

  lemma SecondOutgrows(bs: seq<Block>, p: nat)
    requires TakesFirst([Block(ALIGN, 4096, Free)], bs, BlockFor(16, ALIGN), Used(p, 16, ALIGN))
    requires Shaped(bs)
    ensures OutgrowsAt(bs, p, 64, 0)
  {
    hide AlignUp, BlockFor;
    FirstOfTwo(bs, p);
    assert BlockOk(bs[0]);
    assert HoldsAt(bs, 0, p) && Outgrows(bs, 0, AlignUp(p - bs[0].at + 64, ALIGN), 0);
  }

  lemma OneFits()
    ensures IsPow2(Max(ALIGN, ALIGN)) && !NoFit([Block(ALIGN, 4096, Free)], BlockFor(Max(16, 1), Max(ALIGN, ALIGN)))
  {
    assert IsPow2(1) && IsPow2(2) && IsPow2(4) && IsPow2(8) && IsPow2(16);
    assert Fit([Block(ALIGN, 4096, Free)][0], BlockFor(16, ALIGN));
  }

  /** `peak` can fall behind `in_use`: the second call grows the block of the first in place. */
  method PeakFallsBehind() returns (h: Heap)
    ensures h.Valid() && h.inUse > h.peak
  {
    hide View, Sound, Live, Spared, BlockFor, IsPow2, NoFit, TakesFirst, OutgrowsAt, S.SlotsLast, Shaped;
    var mem := new byte[4096 + ALIGN];
    var supplier := new S.Supplier(S.Fixed);
    h := new Heap(mem, supplier);
    var ok := h.AddRegion(S.Region(ALIGN, 4096));
    assert ok && h.blocks == [Block(ALIGN, 4096, Free)];
    OneFits();
    var p := h.Alloc(16, ALIGN);
    IsShaped(h.mem[..], h.blocks);
    SecondOutgrows(h.blocks, p);
    var q := h.Realloc(p, 16, ALIGN, 64);
  }
}
