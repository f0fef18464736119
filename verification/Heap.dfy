/**
The first-fit heap: blocks doubly linked in address order through headers kept in the memory it hands out.

`blocks` is the list the headers in `mem` describe. Addresses are indices into `mem`, and 0 is null.
*/
module Heap {
  import opened Wrappers
  import opened Memory
  import opened Blocks
  import opened Moves
  import opened HeapSteps
  import S = Supply

  class Heap {
    const mem: array<byte>
    const supplier: S.Supplier
    var regions: seq<S.Region>
    var head: nat
    var inUse: nat
    var peak: nat
    var live: nat
    var allocs: nat
    var frees: nat
    var failures: nat
    ghost var blocks: seq<Block>

    /** The list tiles the regions, the headers describe it, nothing in it is wasted, and the counters count it. */
    ghost predicate Core()
      reads this, mem
    {
      && mem.Length <= WORD && Sound(mem[..], blocks) && head == Head(blocks)
      && |regions| <= S.MAX_REGIONS && Tiled(regions, blocks) && Snug(blocks)
      && inUse == UsedBytes(blocks) && live == UsedCount(blocks) && allocs == frees + live
    }

    /** The kernel's supplier goes on where the heap ends, and runs out before the region slots do. */
    ghost predicate Valid()
      reads this, mem, supplier
    {
      && Core() && supplier.Valid()
      && (supplier.kind.Frames? ==> supplier.limit <= mem.Length && S.SlotsLast(|regions|, supplier.top))
      && (supplier.kind.Frames? && blocks != [] ==> End(blocks) == supplier.top)
    }

    constructor (mem: array<byte>, supplier: S.Supplier)
      requires mem.Length <= WORD && supplier.Valid() && (supplier.kind.Frames? ==> supplier.limit <= mem.Length)
      ensures this.mem == mem && this.supplier == supplier && Valid() && regions == [] && blocks == [] && peak == 0
    {
      this.mem, this.supplier, regions, head := mem, supplier, [], 0;
      inUse, peak, live, allocs, frees, failures, blocks := 0, 0, 0, 0, 0, 0, [];
    }

    // ---------------------------------------------------------------- taking a block

    /**
    Takes the first free block of at least `need` bytes and cuts it to size when the rest can stand on its own.
    The headers then describe the block as used; `k` is where it is in the list.
    */
    method TakeBlock(need: nat) returns (cur: nat, ghost k: nat)
      requires Sound(mem[..], blocks) && head == Head(blocks) && mem.Length <= WORD
      requires MIN_SPLIT <= need && need % ALIGN == 0
      modifies mem
      ensures cur == 0 ==> mem[..] == old(mem[..]) && NoFit(blocks, need)
      ensures cur != 0 ==> FirstFit(blocks, need, k) && cur == blocks[k].at
      ensures cur != 0 ==> Laid(old(mem[..]), mem[..], blocks, k, k + 1, TakeNew(blocks[k], need, SOMETHING))
      ensures cur != 0 ==> var b, new' := blocks[k], TakeNew(blocks[k], need, SOMETHING);
                && new'[0].at == b.at && new'[0].use.Used? && need <= new'[0].size < need + 48
                && (if b.size < need + 48 then |new'| == 1 && new'[0].size == b.size
                    else |new'| == 2 && new'[0].size == need && new'[1] == Block(b.at + need, b.size - need, Free))
    {
      hide View, Wrote, Laid, LinkedWords, LinkedBytes, Headers, Backs, Shaped;
      cur, k := head, 0;
      while cur != 0
        invariant mem[..] == old(mem[..])
        invariant k <= |blocks| && cur == (if k < |blocks| then blocks[k].at else 0)
        invariant forall l :: 0 <= l < k ==> !Fit(blocks[l], need)
        decreases |blocks| - k
      {
        ReadHeader(mem[..], blocks, k);
        var flags := Load(mem, cur);
        if IsFree(flags) && SizeOf(flags) >= need {
          var total := SizeOf(flags);
          if total - need >= MIN_SPLIT {
            var after := Load(mem, cur + 8);
            Store(mem, cur, need);
            ghost var m1 := mem[..];
            AfterFree(old(mem[..]), m1, blocks, k, need);
            var tail := cur + need;
            LinkFree(mem, cur, tail, total - need, after);
            TakeRest(blocks, k, need);
            CutLaid(old(mem[..]), m1, mem[..], blocks, k, k + 1, Block(cur, need, SOMETHING), Block(tail, total - need, Free));
          } else {
            Store(mem, cur, total);
            SoleLaid(old(mem[..]), mem[..], blocks, k, Block(cur, total, SOMETHING));
          }
          return;
        }
        cur := Load(mem, cur + 8);
        k := k + 1;
      }
      if k < |blocks| { ReadHeader(mem[..], blocks, k); }
    }

    // ---------------------------------------------------------------- giving a block back

    method AbsorbNext(cur: nat, ghost i: nat)
      requires Sound(mem[..], blocks) && Shaped(blocks) && mem.Length <= WORD && i < |blocks|
      requires blocks[i].use.Used? && cur == blocks[i].at
      modifies mem
      ensures Laid(old(mem[..]), mem[..], blocks, i, GiveTo(blocks, i), Merged(blocks, i, GiveTo(blocks, i)))
    {
      hide View, Wrote, Laid, Sound, Shaped, OrFree, SizeOf, IsFree;
      NeighboursRead(mem[..], blocks, i);
      var flags := Load(mem, cur);
      var total := SizeOf(flags);
      Store(mem, cur, OrFree(total));
      ghost var m1 := mem[..];
      Elsewhere(old(mem[..]), m1, cur, OrFree(total), cur + 8);
      var next := Load(mem, cur + 8);
      if next != 0 {
        Elsewhere(old(mem[..]), m1, cur, OrFree(total), next);
        flags := Load(mem, next);
      }
      if next != 0 && IsFree(flags) {
        Store(mem, cur, OrFree(total + SizeOf(flags)));
        ghost var m2 := mem[..];
        Elsewhere(old(mem[..]), m1, cur, OrFree(total), next + 8);
        Elsewhere(m1, m2, cur, OrFree(total + SizeOf(flags)), next + 8);
        var rest := Load(mem, next + 8);
        Store(mem, cur + 8, rest);
        ghost var m3 := mem[..];
        if rest != 0 { Store(mem, rest + 16, cur); }
        WroteTwice(old(mem[..]), m1, m2, cur, OrFree(total), OrFree(total + SizeOf(flags)));
        MergeLaid(old(mem[..]), m2, m3, mem[..], blocks, i, Block(cur, total + SizeOf(flags), Free));
      } else {
        SoleLaid(old(mem[..]), m1, blocks, i, Block(cur, total, Free));
      }
    }

    method AbsorbPrev(cur: nat, ghost m: seq<byte>, ghost i: nat)
      requires Sound(m, blocks) && Shaped(blocks) && mem.Length <= WORD && i < |blocks| && blocks[i].use.Used?
      requires cur == blocks[i].at
      requires Laid(m, mem[..], blocks, i, GiveTo(blocks, i), Merged(blocks, i, GiveTo(blocks, i)))
      modifies mem
      ensures Laid(m, mem[..], blocks, GiveFrom(blocks, i), GiveTo(blocks, i), GiveNew(blocks, i))
    {
      hide View, Wrote, Laid, Sound, Shaped, OrFree, SizeOf, IsFree;
      ghost var j := GiveTo(blocks, i);
      ghost var m1 := mem[..];
      MergedReads(m, m1, blocks, i, j);
      if i > 0 { PrevReads(m, m1, blocks, i, j); }
      var prev := Load(mem, cur + 16);
      if prev != 0 {
        var flags := Load(mem, prev);
        if IsFree(flags) {
          var own := Load(mem, cur);
          var size := OrFree(SizeOf(flags) + SizeOf(own));
          Store(mem, prev, size);
          ghost var m2 := mem[..];
          Elsewhere(m1, m2, prev, size, cur + 8);
          var next := Load(mem, cur + 8);
          Store(mem, prev + 8, next);
          ghost var m3 := mem[..];
          if next != 0 { Store(mem, next + 16, prev); }
          PrevLaid(m, m1, m2, m3, mem[..], blocks, i, j);
        }
      }
    }

    /** Frees a block, merging it with its free neighbours. */
    method GiveBlock(cur: nat, ghost i: nat)
      requires Sound(mem[..], blocks) && Shaped(blocks) && mem.Length <= WORD && i < |blocks|
      requires blocks[i].use.Used? && cur == blocks[i].at
      modifies mem
      ensures Laid(old(mem[..]), mem[..], blocks, GiveFrom(blocks, i), GiveTo(blocks, i), GiveNew(blocks, i))
    {
      hide Laid, Sound, Shaped;
      AbsorbNext(cur, i);
      AbsorbPrev(cur, old(mem[..]), i);
    }

    // ---------------------------------------------------------------- resizing a block where it stands

    /** Cuts `cur` down to `keep` bytes when what is cut off can stand on its own. */
    method SplitTail(cur: nat, keep: nat, ghost i: nat, ghost use: Use) returns (given: nat)
      requires Sound(mem[..], blocks) && Shaped(blocks) && mem.Length <= WORD && i < |blocks|
      requires blocks[i].use.Used? && cur == blocks[i].at
      requires MIN_SPLIT <= keep <= blocks[i].size && keep % ALIGN == 0 && use.Used?
      modifies mem
      ensures given == if blocks[i].size < keep + MIN_SPLIT then 0 else blocks[i].size - keep
      ensures given == 0 ==> mem[..] == old(mem[..])
      ensures given > 0 ==> Laid(old(mem[..]), mem[..], blocks, i, GiveTo(blocks, i), ShrinkNew(blocks, i, keep, use))
      ensures given > 0 ==> Same(old(mem[..]), mem[..], cur + 24, cur + keep)
    {
      hide View, Wrote, Laid, Sound, Shaped, OrFree, SizeOf, IsFree, LinkedWords, LinkedBytes, Same;
      NeighboursRead(mem[..], blocks, i);
      var total := Load(mem, cur);
      total := SizeOf(total);
      if total < keep + MIN_SPLIT { return 0; }
      given := total - keep;
      var after := Load(mem, cur + 8);
      Store(mem, cur, keep);
      ghost var m1 := mem[..];
      ghost var j := GiveTo(blocks, i);
      if after != 0 {
        Elsewhere(old(mem[..]), m1, cur, keep, after);
        Elsewhere(old(mem[..]), m1, cur, keep, after + 8);
      }
      var tail := cur + keep;
      LinkFree(mem, cur, tail, given, after);
      CutRest(blocks, i, j, keep);
      CutLaid(old(mem[..]), m1, mem[..], blocks, i, j, Block(cur, keep, use), ShrinkNew(blocks, i, keep, use)[1]);
      CutSame(old(mem[..]), m1, mem[..], cur, keep, keep, AtOr0(blocks, j));
    }

    /** Grows `cur` to `need` bytes into the block after it, if that is free and big enough, and takes no more of it than it must. */
    method TakeOver(cur: nat, need: nat, ghost i: nat, ghost use: Use) returns (absorbed: nat)
      requires Sound(mem[..], blocks) && Shaped(blocks) && mem.Length <= WORD && i < |blocks|
      requires blocks[i].use.Used? && cur == blocks[i].at
      requires blocks[i].size < need < WORD && need % ALIGN == 0 && use.Used?
      modifies mem
      ensures absorbed > 0 <==> CanGrow(blocks, i, need)
      ensures absorbed == 0 ==> mem[..] == old(mem[..])
      ensures absorbed > 0 ==>
                && absorbed == GrowNew(blocks, i, need, use)[0].size - blocks[i].size
                && Laid(old(mem[..]), mem[..], blocks, i, i + 2, GrowNew(blocks, i, need, use))
                && Same(old(mem[..]), mem[..], cur + 24, cur + blocks[i].size)
    {
      hide View, Wrote, Laid, Sound, Shaped, OrFree, SizeOf, IsFree, LinkedWords, LinkedBytes, Same;
      NeighboursRead(mem[..], blocks, i);
      var total := Load(mem, cur);
      total := SizeOf(total);
      var next := Load(mem, cur + 8);
      if next == 0 { return 0; }
      var flags := Load(mem, next);
      if !IsFree(flags) { return 0; }
      var extra := SizeOf(flags);
      if total + extra < need { return 0; }
      var after := Load(mem, next + 8);
      var take := need - total;
      if extra - take >= MIN_SPLIT {
        Store(mem, cur, need);
        ghost var m1 := mem[..];
        AfterGrown(old(mem[..]), m1, blocks, i, need);
        var tail := cur + need;
        LinkFree(mem, cur, tail, extra - take, after);
        GrowRest(blocks, i, need);
        CutLaid(old(mem[..]), m1, mem[..], blocks, i, i + 2, Block(cur, need, use), Block(tail, extra - take, Free));
        CutSame(old(mem[..]), m1, mem[..], cur, need, need, after);
        SameLess(old(mem[..]), mem[..], cur + 24, cur + need, cur + total);
        absorbed := take;
      } else {
        Store(mem, cur, total + extra);
        ghost var m1 := mem[..];
        Store(mem, cur + 8, after);
        ghost var m2 := mem[..];
        if after != 0 { Store(mem, after + 16, cur); }
        MergeLaid(old(mem[..]), m1, m2, mem[..], blocks, i, Block(cur, total + extra, use));
        MergeSame(old(mem[..]), m1, m2, mem[..], cur, total + extra, after);
        SameLess(old(mem[..]), mem[..], cur + 24, cur + total + extra, cur + total);
        absorbed := extra;
      }
    }

    // ---------------------------------------------------------------- the calls

    method HeaderOf(p: nat, ghost i: nat) returns (cur: nat)
      requires Sound(mem[..], blocks) && i < |blocks| && blocks[i].use.Used? && blocks[i].use.ptr == p
      ensures cur == blocks[i].at
    {
      hide View, Headers, Shaped, UseOk;
      assert BackOk(View(mem[..]), blocks[i]);
      BlockIsOk(blocks, i);
      UsedPtr(blocks[i]);
      FirstAndLast(blocks, i);
      var back := Load(mem, p - BACK);
      cur := p - back;
    }

    /** Gives a payload back; every other one keeps its place and its bytes. */
    method Dealloc(p: nat)
      requires Valid() && (p != 0 ==> HasPayload(blocks, p))
      modifies this, mem
      ensures Valid() && regions == old(regions) && allocs == old(allocs) && peak == old(peak) && failures == old(failures)
      ensures inUse <= old(inUse)
      ensures p == 0 ==> blocks == old(blocks) && mem[..] == old(mem[..]) && frees == old(frees)
      ensures p != 0 ==>
                && (exists i :: 0 <= i < |old(blocks)| && old(blocks)[i].use.Used? && old(blocks)[i].use.ptr == p && blocks == Given(old(blocks), i)
                                && Live(blocks) == Live(old(blocks)) - {old(blocks)[i].use})
                && frees == old(frees) + 1 && Spared(old(mem[..]), mem[..], Live(blocks))
    {
      hide View, Laid, Sound, Shaped, SizeOf, GiveFrom, GiveTo, GiveNew, Given, Live, UsedBytes, UsedCount;
      hide Spared, Tiled, Carries, End, Head;
      if p == 0 { return; }
      ghost var i :| 0 <= i < |blocks| && blocks[i].use.Used? && blocks[i].use.ptr == p;
      var cur := HeaderOf(p, i);
      assert Shaped(blocks) by { IsShaped(mem[..], blocks); }
      ReadHeader(mem[..], blocks, i);
      var flags := Load(mem, cur);
      SpliceUsedAtLeast(blocks, i);
      inUse := inUse - SizeOf(flags);
      live := SaturatingSub(live, 1);
      frees := frees + 1;
      GiveBlock(cur, i);
      GiveCommits(old(mem[..]), mem[..], blocks, i);
      CarriesOn(old(mem[..]), mem[..], blocks, Given(blocks, i), Live(Given(blocks, i)), regions);
      SnugGiven(blocks, i);
      blocks := Given(blocks, i);
    }

    // ---------------------------------------------------------------- growing

    /** Whether a region shares memory with one already held. */
    method Overlaps(g: S.Region) returns (yes: bool)
      ensures yes <==> exists i :: 0 <= i < |regions| && Shares(g, regions[i])
    {
      for i := 0 to |regions|
        invariant forall j :: 0 <= j < i ==> !Shares(g, regions[j])
      {
        if Shares(g, regions[i]) { return true; }
      }
      return false;
    }

    /** The last block of the list, or null when it is empty. */
    method Tail() returns (cur: nat)
      requires Sound(mem[..], blocks) && head == Head(blocks)
      ensures if blocks == [] then cur == 0 else cur == blocks[|blocks| - 1].at && cur != 0
    {
      hide View, Sound, SizeOf, IsFree, OrFree;
      if head == 0 {
        if blocks != [] { ReadHeader(mem[..], blocks, 0); }
        return 0;
      }
      cur := head;
      ghost var k := 0;
      while true
        invariant k < |blocks| && cur == blocks[k].at
        decreases |blocks| - k
      {
        ReadHeader(mem[..], blocks, k);
        if k + 1 < |blocks| { ReadHeader(mem[..], blocks, k + 1); }
        var next := Load(mem, cur + 8);
        if next == 0 { return; }
        cur, k := next, k + 1;
      }
    }

    ghost predicate Takes(g: S.Region)
      reads this
    {
      g.len >= MIN_SPLIT && g.base % ALIGN == 0 && |regions| < S.MAX_REGIONS && forall i :: 0 <= i < |regions| ==> !Shares(g, regions[i])
    }

    /** Real memory, a multiple of 16 long. */
    ghost predicate InMemory(g: S.Region) {
      g.base > 0 && g.base + g.len <= mem.Length && g.len % ALIGN == 0
    }

    /** It starts where the heap ends. */
    ghost predicate Follows(g: S.Region)
      reads this
    {
      blocks != [] ==> g.base == End(blocks)
    }

    /** Where the free memory at the end of the heap begins. */
    ghost function TailStart(): nat
      reads this, supplier
    { TailFrom(blocks, supplier.top) }

    /** Hands the heap a region. It refuses one that is short, misaligned, one too many, or not its own. One that starts
        elsewhere than where the heap ends is accepted too, and is the end of the heap's order. */
    method AddRegion(g: S.Region) returns (ok: bool)
      requires Core() && (Takes(g) ==> InMemory(g))
      modifies this, mem
      ensures ok == old(Takes(g)) && (Core() <==> (ok ==> old(Follows(g))))
      ensures !ok ==> regions == old(regions) && blocks == old(blocks) && mem[..] == old(mem[..])
      ensures ok ==> regions == old(regions) + [g]
      ensures ok && old(Follows(g)) ==> blocks == Extended(old(blocks), g)
      ensures (ok ==> old(Follows(g))) ==> Live(blocks) == Live(old(blocks)) && Spared(old(mem[..]), mem[..], Live(blocks))
      ensures allocs == old(allocs) && frees == old(frees) && peak == old(peak) && failures == old(failures) && inUse == old(inUse)
    {
      hide View, Wrote, Sound, Shaped, SizeOf, IsFree, OrFree, LinkedWords, LinkedBytes, Extended, Live;
      hide UsedBytes, UsedCount, Spared, Tiled;
      AlwaysSpared(mem[..], blocks);
      IsShaped(mem[..], blocks);
      var shared := Overlaps(g);
      if g.len < MIN_SPLIT || g.base % ALIGN != 0 || |regions| >= S.MAX_REGIONS || shared { return false; }
      regions := regions + [g];
      AtLeastAlign(g.base);
      FlagsRead(Block(g.base, g.len, Free));
      var last := Tail();
      var flags := 0;
      if last != 0 {
        ReadHeader(mem[..], blocks, |blocks| - 1);
        FoldedSize(blocks, g);
        flags := Load(mem, last);
      }
      if last != 0 && last + SizeOf(flags) == g.base && IsFree(flags) {
        Store(mem, last, OrFree(SizeOf(flags) + g.len));
        FoldedIn(old(mem[..]), mem[..], blocks, g, old(regions));
      } else if last != 0 {
        Store(mem, g.base, OrFree(g.len));
        ghost var m1 := mem[..];
        Store(mem, g.base + 16, last);
        ghost var m2 := mem[..];
        Store(mem, g.base + 8, 0);
        ghost var m3 := mem[..];
        Store(mem, last + 8, g.base);
        if g.base == End(blocks) {
          Appended(old(mem[..]), m1, m2, m3, mem[..], blocks, g, old(regions));
        } else {
          NotTiled(old(regions), blocks, g, blocks + [Block(g.base, g.len, Free)]);
        }
      } else {
        Store(mem, g.base, OrFree(g.len));
        ghost var m1 := mem[..];
        Store(mem, g.base + 16, 0);
        ghost var m2 := mem[..];
        Store(mem, g.base + 8, 0);
        head := g.base;
        FirstRegion(old(mem[..]), m1, m2, mem[..], blocks, g, old(regions));
      }
      SnugExtended(blocks, g);
      blocks := if Follows(g) then Extended(blocks, g) else blocks + [Block(g.base, g.len, Free)];
      return true;
    }

    /** Asks the supplier for more and takes it in. The kernel's supplier is never turned away. */
    method Grow(need: nat) returns (ok: bool)
      requires Valid()
      modifies this, mem, supplier
      ensures Valid() && supplier.ready == old(supplier.ready) && supplier.refusals >= old(supplier.refusals)
      ensures ok ==> |regions| == |old(regions)| + 1 && !supplier.kind.Fixed?
      ensures !ok ==> regions == old(regions) && blocks == old(blocks) && mem[..] == old(mem[..])
      ensures !ok && supplier.kind.Frames? ==> !supplier.ready || supplier.top == supplier.limit || supplier.refusals > old(supplier.refusals)
      ensures Live(blocks) == Live(old(blocks)) && Spared(old(mem[..]), mem[..], Live(blocks))
      ensures allocs == old(allocs) && frees == old(frees) && peak == old(peak) && failures == old(failures) && inUse == old(inUse)
      ensures ok && supplier.kind.Frames? ==> supplier.ready
      ensures ok && supplier.kind.Frames? ==>
                && old(supplier.top) < supplier.top <= supplier.limit && TailStart() == old(TailStart())
                && blocks == Extended(old(blocks), S.Region(old(supplier.top), supplier.top - old(supplier.top)))
      ensures !ok && supplier.kind.Frames? ==> supplier.top == old(supplier.top)
    {
      hide Sound, Live, Spared, UsedBytes, UsedCount, S.SlotsLast, S.Growth;
      AlwaysSpared(mem[..], blocks);
      var supplied := supplier.Supply(need, Edge(regions), mem.Length);
      if supplied.None? { return false; }
      var g := supplied.value;
      if supplier.kind.Frames? {
        S.SlotsLeft(|regions|, g.base);
        S.SlotsGrow(|regions|, g.base, g.len, need);
        NoneShared(regions, blocks, g);
        PagesFit(g);
        TailStays(blocks, g);
      }
      ok := AddRegion(g);
    }

    /**
    Takes `size` bytes aligned to `align` from the first block that has room, growing the heap until one does.
    Null means that none has room and the supplier has no more, or that the alignment is not a power of two.
    */
    method Alloc(size: nat, align: nat) returns (p: nat)
      requires Valid() && InRange(size, align)
      modifies this, mem, supplier
      ensures Valid() && frees == old(frees) && supplier.ready == old(supplier.ready)
      ensures supplier.refusals >= old(supplier.refusals)
      ensures Spared(old(mem[..]), mem[..], Live(old(blocks)))
      ensures p == 0 ==> Live(blocks) == Live(old(blocks)) && allocs == old(allocs) && peak == old(peak) && inUse == old(inUse)
      ensures p != 0 ==> var u := Used(p, Max(size, 1), Max(align, ALIGN));
                && IsPow2(u.align) && u !in Live(old(blocks)) && Live(blocks) == Live(old(blocks)) + {u}
                && allocs == old(allocs) + 1 && failures == old(failures) && peak == Max(old(peak), inUse)
                && old(inUse) + BlockFor(u.size, u.align) <= inUse < old(inUse) + BlockFor(u.size, u.align) + 48
      ensures !IsPow2(Max(align, ALIGN)) ==> regions == old(regions) && blocks == old(blocks)
      ensures !IsPow2(Max(align, ALIGN)) ==> mem[..] == old(mem[..]) && failures == old(failures)
      ensures IsPow2(Max(align, ALIGN)) && p == 0 ==> NoFit(blocks, BlockFor(Max(size, 1), Max(align, ALIGN)))
      ensures IsPow2(Max(align, ALIGN)) && p == 0 ==> failures == old(failures) + 1
      ensures IsPow2(Max(align, ALIGN)) ==> var need := BlockFor(Max(size, 1), Max(align, ALIGN));
                !NoFit(old(blocks), need) ==>
                  && p != 0 && regions == old(regions)
                  && TakesFirst(old(blocks), blocks, need, Used(p, Max(size, 1), Max(align, ALIGN)))
      ensures supplier.kind.Fixed? ==> regions == old(regions) && (p == 0 ==> blocks == old(blocks))
      ensures (supplier.kind.Fixed? || (supplier.kind.Frames? && !supplier.ready)) && IsPow2(Max(align, ALIGN)) ==>
                (p == 0 <==> NoFit(old(blocks), BlockFor(Max(size, 1), Max(align, ALIGN))))
      ensures supplier.kind.Frames? && supplier.ready && IsPow2(Max(align, ALIGN)) && supplier.refusals == old(supplier.refusals) ==>
                var need := BlockFor(Max(size, 1), Max(align, ALIGN));
                p == 0 <==> NoFit(old(blocks), need) && old(TailStart()) + need > supplier.limit
      decreases S.MAX_REGIONS - |regions|
    {
      hide View, Sound, Laid, Live, Spared, UsedBytes, UsedCount, S.SlotsLast, Tiled, IsPow2, Wrote, FirstFit;
      hide NoFit, Fit, End, Head, Taken, Carries, SizeOf, BlockFor, AlignUp, Payload, UseOk, S.Supplier.Valid;
      hide TakeNew, Snug;
      var align := Max(align, ALIGN);
      AlwaysSpared(mem[..], blocks);
      if !IsPow2(align) { return 0; }
      var want := Max(size, 1);
      var need := BlockFor(want, align);
      var cur, k := TakeBlock(need);
      if cur != 0 {
        FoundFits(blocks, need, k);
        ghost var m1 := mem[..];
        var payload := Payload(cur, align);
        ghost var use := Used(payload, want, align);
        PayloadFits(old(mem[..]), blocks, k, need, want, align);
        Store(mem, payload - BACK, payload - cur);
        TakeCommits(old(mem[..]), m1, mem[..], blocks, k, need, use);
        CarriesOn(old(mem[..]), mem[..], blocks, Taken(blocks, k, need, use), Live(blocks), regions);
        var flags := Load(mem, cur);
        inUse := inUse + SizeOf(flags);
        live, allocs := live + 1, allocs + 1;
        peak := Max(peak, inUse);
        SnugTaken(blocks, k, want, align, payload);
        blocks := Taken(blocks, k, need, use);
        return payload;
      }
      var grown := Grow(need);
      if grown {
        ghost var m1, bs1 := mem[..], blocks;
        if supplier.kind.Frames? {
          RoomAtTail(old(blocks), S.Region(old(supplier.top), supplier.top - old(supplier.top)), need);
        }
        p := Alloc(want, align);
        SparedTrans(old(mem[..]), m1, mem[..], Live(bs1));
        return;
      }
      if supplier.kind.Frames? { NoRoomAtTail(blocks, supplier.top, need); }
      failures := failures + 1;
      return 0;
    }

    /** The two ways to resize a payload where it is: cut the block, or grow it into the free one after it. */
    method ResizeInPlace(cur: nat, need: nat, ghost i: nat, ghost use: Use) returns (done: bool)
      requires Valid() && i < |blocks| && blocks[i].use.Used? && cur == blocks[i].at && use.Used? && use.ptr == blocks[i].use.ptr
      requires MIN_SPLIT <= need < WORD && need == AlignUp(use.ptr - cur + use.size, ALIGN) && UseOk(Block(cur, need, use))
      modifies this, mem
      ensures Valid() && regions == old(regions) && allocs == old(allocs) && frees == old(frees)
      ensures peak == old(peak) && failures == old(failures)
      ensures done <==> need <= old(blocks)[i].size || CanGrow(old(blocks), i, need)
      ensures done <==> var bs := old(blocks); need <= bs[i].size || (i + 1 < |bs| && bs[i + 1].use == Free && need <= bs[i].size + bs[i + 1].size)
      ensures old(inUse) <= old(peak) ==> (inUse <= peak <==> !Outgrows(old(blocks), i, need, old(peak - inUse)))
      ensures !done ==> blocks == old(blocks) && mem[..] == old(mem[..])
      ensures done ==> var u := old(blocks)[i].use;
                && Live(blocks) == Live(old(blocks)) - {u} + {use} && Spared(old(mem[..]), mem[..], Live(old(blocks)) - {u})
                && Same(old(mem[..]), mem[..], u.ptr, Min(u.ptr + u.size, use.ptr + use.size))
    {
      hide View, Laid, Sound, Shaped, Covers, SizeOf, Splice, Same, ShrinkNew, GrowNew, Live, UsedBytes;
      hide UsedCount, Spared, Tiled, Carries, End, Head, UseOk, S.SlotsLast;
      IsShaped(mem[..], blocks);
      ReadHeader(mem[..], blocks, i);
      var total := Load(mem, cur);
      total := SizeOf(total);
      if need <= total {
        var given := SplitTail(cur, need, i, use);
        SpliceUsedAtLeast(blocks, i);
        inUse := inUse - given;
        if given > 0 {
          ShrunkCommits(old(mem[..]), mem[..], blocks, i, need, use, regions);
          ShrinkSnug(blocks, i, need, use);
          blocks := Splice(blocks, i, GiveTo(blocks, i), ShrinkNew(blocks, i, need, use));
        } else {
          RelabelCommits(mem[..], blocks, i, need, use, regions);
          SnugResized(blocks, i, i + 1, [Block(cur, total, use)], need);
          blocks := Splice(blocks, i, i + 1, [Block(cur, total, use)]);
        }
        return true;
      }
      var absorbed := TakeOver(cur, need, i, use);
      if absorbed > 0 {
        GrownBy(blocks, i, need, use, peak - inUse);
        GrownCommits(old(mem[..]), mem[..], blocks, i, need, use, regions);
        GrowSnug(blocks, i, need, use);
        inUse := inUse + absorbed;
        blocks := Splice(blocks, i, i + 2, GrowNew(blocks, i, need, use));
        return true;
      }
      return false;
    }

    /** Copies bytes from one payload into another. */
    method CopyInto(p: nat, q: nat, n: nat, ghost u: Use, ghost v: Use)
      requires Valid() && u in Live(blocks) && v in Live(blocks) && u != v && u.ptr == p && v.ptr == q
      requires n <= u.size && n <= v.size
      modifies mem
      ensures Valid() && Spared(old(mem[..]), mem[..], Live(blocks) - {v}) && Moved(old(mem[..]), mem[..], p, q, n)
    {
      hide View, Sound, Live, Spared, UsedBytes, UsedCount, Tiled, S.SlotsLast, S.Supplier.Valid, UseOk;
      IsShaped(mem[..], blocks);
      PayloadsApart(blocks, u, v);
      PayloadsApart(blocks, v, u);
      EndInside(mem[..], blocks, u);
      Copy(mem, p, q, n);
      PayloadWriteKeeps(old(mem[..]), mem[..], blocks, v);
    }

    /** A bigger block, the bytes copied over, and the old block given back. */
    method MovePayload(p: nat, oldSize: nat, align: nat, newSize: nat, ghost u: Use) returns (q: nat)
      requires Valid() && newSize > 0 && InRange(newSize, align) && align >= ALIGN
      requires u == Used(p, Max(oldSize, 1), align) && u in Live(blocks)
      modifies this, mem, supplier
      ensures Valid() && Spared(old(mem[..]), mem[..], Live(old(blocks)) - {u})
      ensures q == 0 ==> Live(blocks) == Live(old(blocks)) && Spared(old(mem[..]), mem[..], Live(old(blocks)))
      ensures q != 0 ==> q != p && Used(q, newSize, align) !in Live(old(blocks))
      ensures q != 0 ==> Live(blocks) == Live(old(blocks)) - {u} + {Used(q, newSize, align)}
      ensures q != 0 ==> Moved(old(mem[..]), mem[..], p, q, Min(oldSize, newSize))
      ensures old(inUse) <= old(peak) ==> inUse <= peak
    {
      hide View, Core, Sound, Live, Spared, NoFit, TakesFirst, IsPow2, BlockFor, S.SlotsLast, S.Supplier.Valid;
      hide Moved, InRange, End, Given, HasPayload;
      q := Alloc(newSize, align);
      ghost var m1, bs1 := mem[..], blocks;
      SparedLess(old(mem[..]), m1, Live(old(blocks)), Live(old(blocks)) - {u});
      if q == 0 { return; }
      ghost var v := Used(q, newSize, align);
      var n := Min(oldSize, newSize);
      Distinct(u, v);
      CopyInto(p, q, n, u, v);
      ghost var m2 := mem[..];
      ghost var i := OwnerIn(u);
      Dealloc(p);
      MovedOn(old(mem[..]), m1, m2, mem[..], Live(old(blocks)), bs1, blocks, u, v, n);
    }

    lemma OwnerIn(u: Use) returns (i: nat)
      requires Core() && u in Live(blocks)
      ensures i < |blocks| && blocks[i].use == u && HasPayload(blocks, u.ptr) && Sound(mem[..], blocks) && BlockOk(blocks[i])
      ensures u.Used? && 0 < u.ptr && u.ptr + u.size <= mem.Length
      ensures forall j :: 0 <= j < |blocks| && blocks[j].use.Used? && blocks[j].use.ptr == u.ptr ==> j == i
    {
      hide Sound, Live, BlockOk;
      i := Owner(mem[..], blocks, u);
      IsShaped(mem[..], blocks);
      PayloadsApart(blocks, u, u);
      EndInside(mem[..], blocks, u);
    }

    lemma Distinct(u: Use, v: Use)
      requires Core() && u in Live(blocks) && v in Live(blocks) && u != v
      ensures u.Used? && v.Used? && u.ptr != v.ptr
    {
      hide Sound, Live;
      IsShaped(mem[..], blocks);
      PayloadsApart(blocks, u, v);
      PayloadsApart(blocks, v, u);
    }

    /**
    Resizes a payload, in place when the block or its free neighbour allows it and by moving it otherwise.
    Every other payload keeps its place and its bytes. Null for a new size above 0 leaves the old payload as it was.
    */
    method Realloc(p: nat, oldSize: nat, align: nat, newSize: nat) returns (q: nat)
      requires Valid() && Used(p, Max(oldSize, 1), Max(align, ALIGN)) in Live(blocks) && InRange(newSize, align)
      modifies this, mem, supplier
      ensures Valid()
      ensures Spared(old(mem[..]), mem[..], Live(old(blocks)) - {Used(p, Max(oldSize, 1), Max(align, ALIGN))})
      ensures newSize == 0 ==> q == 0 && Live(blocks) == Live(old(blocks)) - {Used(p, Max(oldSize, 1), Max(align, ALIGN))}
      ensures newSize > 0 && q == 0 ==> Live(blocks) == Live(old(blocks)) && Spared(old(mem[..]), mem[..], Live(old(blocks)))
      ensures newSize > 0 && q != 0 ==>
                && Live(blocks) == Live(old(blocks)) - {Used(p, Max(oldSize, 1), Max(align, ALIGN))} + {Used(q, newSize, Max(align, ALIGN))}
                && Used(q, newSize, Max(align, ALIGN)) !in Live(old(blocks)) - {Used(p, Max(oldSize, 1), Max(align, ALIGN))}
                && Moved(old(mem[..]), mem[..], p, q, Min(oldSize, newSize))
      ensures newSize > 0 ==> (q == p <==> RoomInPlace(old(blocks), p, newSize))
      ensures old(inUse) <= old(peak) ==>
                (inUse <= peak <==> newSize == 0 || !OutgrowsAt(old(blocks), p, newSize, old(peak - inUse)))
    {
      hide Core, S.Supplier.Valid, Live, Spared, Same, CanGrow, UseOk, AlignUp, IsPow2, S.SlotsLast, Sound;
      hide BlockOk, Moved, End, Given, HasPayload;
      ghost var u := Used(p, Max(oldSize, 1), Max(align, ALIGN));
      ghost var i := OwnerIn(u);
      forall v | v in Live(blocks) - {u} ensures v.Used? && v.ptr != p { Distinct(u, v); }
      if newSize == 0 {
        Dealloc(p);
        return 0;
      }
      var align := Max(align, ALIGN);
      var cur := HeaderOf(p, i);
      NewSizeFits(blocks[i], newSize);
      var offset := p - cur;
      var need := AlignUp(offset + newSize, ALIGN);
      var done := ResizeInPlace(cur, need, i, Used(p, newSize, align));
      assert done <==> RoomAt(old(blocks), i, p, newSize);
      OneOutgrows(old(blocks), i, p, newSize, old(peak - inUse));
      if done {
        MovedBytes(old(mem[..]), mem[..], p, Min(p + Max(oldSize, 1), p + newSize), Min(oldSize, newSize));
        return p;
      }
      q := MovePayload(p, oldSize, align, newSize, u);
    }

    // ---------------------------------------------------------------- the whole heap

    /** The kernel's start: the first sixteen mebibytes of the window, if they could be mapped. */
    method Init(mapped: bool)
      requires Valid() && regions == [] && supplier.kind.Frames? && supplier.top == S.HEAP_START
      modifies this, mem, supplier
      ensures Valid() && supplier.ready
      ensures regions == if mapped then [S.Region(S.HEAP_START, S.HEAP_AT_BOOT)] else []
      ensures mapped ==> blocks == [Block(S.HEAP_START, S.HEAP_AT_BOOT, Free)]
    {
      hide Sound, Live, Spared, UsedBytes, UsedCount;
      supplier.ready := true;
      if !mapped { return; }
      var ok := AddRegion(S.Region(S.HEAP_START, S.HEAP_AT_BOOT));
      if ok { supplier.Reserve(S.HEAP_AT_BOOT); }
    }

    /** With every payload given back, one free block spans all regions. */
    lemma EverythingFreed()
      requires Core() && live == 0 && regions != []
      ensures blocks == [Block(regions[0].base, Edge(regions) - regions[0].base, Free)] && inUse == 0 && allocs == frees
    {
      hide Sound;
      IsShaped(mem[..], blocks);
      AllFreeIsOne(blocks);
      OneUsed(blocks[0]);
    }

    /** What is in use and what is free add up to the regions. */
    lemma BytesAddUp()
      requires Core()
      ensures inUse + FreeBytes(blocks) == RegionBytes(regions)
    {
      hide Sound;
      IsShaped(mem[..], blocks);
      if regions != [] {
        RegionsSpan(regions);
        BlocksSpan(blocks);
      }
    }

    /** What is in use exceeds what the payloads need, each with its header and room to align it, by less than 48 bytes
        apiece. */
    lemma LittleWasted()
      requires Valid()
      ensures inUse <= NeedBytes(blocks) + 47 * live
    {
      hide View, Snug, UsedBytes, UsedCount, NeedBytes;
      IsShaped(mem[..], blocks);
      WasteIsSmall(blocks);
    }

    /** Live payloads are aligned, inside the regions, disjoint, and lead back to their headers. */
    lemma PayloadsStandApart(u: Use, v: Use)
      requires Core() && u in Live(blocks) && v in Live(blocks)
      ensures u.Used? && u.ptr % u.align == 0 && u.size >= 1 && regions != [] && regions[0].base < u.ptr
      ensures u.ptr + u.size <= Edge(regions)
      ensures u == v || u.ptr + u.size <= v.ptr || v.ptr + v.size <= u.ptr
      ensures exists i :: 0 <= i < |blocks| && blocks[i].use == u && View(mem[..])(u.ptr - BACK) == u.ptr - blocks[i].at
    {
      hide View, Headers, Shaped;
      PayloadsApart(blocks, u, v);
      var i :| 0 <= i < |blocks| && blocks[i].use == u;
      assert BackOk(View(mem[..]), blocks[i]);
    }
  }
}
