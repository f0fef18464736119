/** What the writes of each heap operation do to the headers in memory, and that the block list they describe stays sound. */
module HeapSteps {
  import opened Wrappers
  import opened Memory
  import opened Blocks
  import opened Moves
  import S = Supply

  /** `n` bytes from `b` on are clear of a header at `at`, of the forward link at `cur` and of the back link at `after`. */
  predicate Apart(b: nat, n: nat, cur: nat, at: nat, after: nat) {
    && (b + n <= at || at + 24 <= b) && (b + n <= cur + 8 || cur + 16 <= b)
    && (after == 0 || b + n <= after + 16 || after + 24 <= b)
  }

  /** `at` became a free header of `size` bytes between `cur` and `after`. */
  ghost predicate LinkedWords(w: Words, w': Words, cur: nat, at: nat, size: nat, after: nat) {
    && w'(at) == OrFree(size) && w'(at + 8) == after && w'(at + 16) == cur && w'(cur + 8) == at
    && (after != 0 ==> w'(after + 16) == at)
    && (forall b: nat :: Apart(b, 8, cur, at, after) ==> w'(b) == w(b))
  }

  /** Nothing else was written. */
  ghost predicate LinkedBytes(m: seq<byte>, m': seq<byte>, cur: nat, at: nat, after: nat) {
    |m'| == |m| && forall k :: 0 <= k < |m| && Apart(k, 1, cur, at, after) ==> m'[k] == m[k]
  }

  lemma LinkWords(w: Words, w1: Words, w2: Words, w3: Words, w4: Words, w': Words, cur: nat, at: nat, size: nat, after: nat)
    requires cur + 16 <= at && (after != 0 ==> at + 24 <= after)
    requires Assigns(w, w1, at, OrFree(size)) && Assigns(w1, w2, at + 8, after) && Assigns(w2, w3, at + 16, cur)
    requires (if after == 0 then w4 == w3 else Assigns(w3, w4, after + 16, at)) && Assigns(w4, w', cur + 8, at)
    ensures LinkedWords(w, w', cur, at, size, after)
  {}

  lemma LinkBytes(m: seq<byte>, m1: seq<byte>, m2: seq<byte>, m3: seq<byte>, m4: seq<byte>, m': seq<byte>, cur: nat, at: nat, after: nat)
    requires Touches(m, m1, at, 8) && Touches(m1, m2, at + 8, 8) && Touches(m2, m3, at + 16, 8)
    requires (if after == 0 then m4 == m3 else Touches(m3, m4, after + 16, 8)) && Touches(m4, m', cur + 8, 8)
    ensures LinkedBytes(m, m', cur, at, after)
  {}

  /** Any use: which one does not show in a header. */
  const SOMETHING: Use := Used(0, 0, 1)

  /** Puts a free block of `size` at `at`, between `cur` and `after`, absorbing `after` if it is free. */
  method LinkFree(mem: array<byte>, cur: nat, at: nat, size: nat, after: nat)
    requires mem.Length <= WORD && cur + 16 <= at && at + 24 <= mem.Length
    requires (after != 0 ==> at + 24 <= after && after + 24 <= mem.Length)
    requires var w := View(mem[..]); var gone := after != 0 && IsFree(w(after));
             && size + (if gone then SizeOf(w(after)) else 0) < WORD - 1
             && (gone && w(after + 8) != 0 ==> at + 24 <= w(after + 8) && w(after + 8) + 24 <= mem.Length)
    modifies mem
    ensures var w := View(old(mem[..])); var gone := after != 0 && IsFree(w(after));
            var rest := if gone then w(after + 8) else after;
            && LinkedWords(w, View(mem[..]), cur, at, size + (if gone then SizeOf(w(after)) else 0), rest)
            && LinkedBytes(old(mem[..]), mem[..], cur, at, rest)
  {
    hide View, Assigns, Touches;
    var size, after := size, after;
    if after != 0 {
      var flags := Load(mem, after);
      if IsFree(flags) {
        size := size + SizeOf(flags);
        after := Load(mem, after + 8);
      }
    }
    Store(mem, at, OrFree(size));
    ghost var m1 := mem[..];
    Store(mem, at + 8, after);
    ghost var m2 := mem[..];
    Store(mem, at + 16, cur);
    ghost var m3 := mem[..];
    if after != 0 { Store(mem, after + 16, at); }
    ghost var m4 := mem[..];
    Store(mem, cur + 8, at);
    LinkWords(View(old(mem[..])), View(m1), View(m2), View(m3), View(m4), View(mem[..]), cur, at, size, after);
    LinkBytes(old(mem[..]), m1, m2, m3, m4, mem[..], cur, at, after);
  }

  // ---------------------------------------------------------------- headers in place of old blocks

  /** The list reads back as it was written: flags, links and the ground it covers. */
  lemma ReadHeader(m: seq<byte>, bs: seq<Block>, k: nat)
    requires Sound(m, bs) && k < |bs|
    ensures bs[k].at >= ALIGN && bs[k].at + bs[k].size <= End(bs) <= |m| && MIN_SPLIT <= bs[k].size
    ensures SizeOf(View(m)(bs[k].at)) == bs[k].size && (IsFree(View(m)(bs[k].at)) <==> bs[k].use.Free?)
    ensures OrFree(bs[k].size) == bs[k].size + FREE
    ensures View(m)(bs[k].at + 8) == NextAt(bs, k) && View(m)(bs[k].at + 16) == PrevAt(bs, k)
  {
    hide View, UseOk, SizeOf, IsFree, OrFree;
    assert HeaderAt(View(m), bs, k) && BlockOk(bs[k]);
    FlagsRead(bs[k]);
    FirstAndLast(bs, k);
    AtLeastAlign(bs[k].at);
  }

  lemma AtLeastAlign(a: nat)
    requires a > 0 && a % ALIGN == 0
    ensures a >= ALIGN
  {}

  /** Cutting a block in two: the size word of the first part, then the links around the second. */
  lemma CutLaid(m: seq<byte>, m1: seq<byte>, m': seq<byte>, bs: seq<Block>, i: nat, j: nat, b: Block, c: Block)
    requires Sound(m, bs) && i < j <= |bs| && b.at == bs[i].at && b.use.Used? && c.use.Free?
    requires b.at + HEADER <= c.at == b.at + b.size && c.size >= HEADER && c.size % ALIGN == 0
    requires (j < |bs| ==> End([b, c]) == bs[j].at)
    requires Wrote(m, m1, b.at, b.size)
    requires var after := if j < |bs| then bs[j].at else 0;
             LinkedWords(View(m1), View(m'), b.at, c.at, c.size, after) && LinkedBytes(m1, m', b.at, c.at, after)
    ensures Laid(m, m', bs, i, j, [b, c])
  {
    hide View;
    var after := if j < |bs| then bs[j].at else 0;
    var new' := [b, c];
    assert HeaderAt(View(m), bs, i);
    if j < |bs| { assert HeaderAt(View(m), bs, j); }
    FlagsRead(c);
    CutHeaders(View(m), View(m1), View(m'), bs, i, j, b, c);
    assert Confined(m, m', bs[i].at, End(new'), LinkAfter(bs, i, j));
  }

  lemma CutHeaders(w: Words, w1: Words, w': Words, bs: seq<Block>, i: nat, j: nat, b: Block, c: Block)
    requires i < j <= |bs| && b.at == bs[i].at && b.use.Used? && c.use.Free? && OrFree(c.size) == c.size + FREE
    requires b.at + HEADER <= c.at == b.at + b.size && c.size >= HEADER && (j < |bs| ==> bs[j].at == c.at + c.size)
    requires HeaderAt(w, bs, i) && Assigns(w, w1, b.at, b.size)
    requires LinkedWords(w1, w', b.at, c.at, c.size, if j < |bs| then bs[j].at else 0)
    ensures NewHeader(w', bs, i, j, [b, c], 0) && NewHeader(w', bs, i, j, [b, c], 1)
    ensures j < |bs| ==> w'(bs[j].at + 16) == c.at
  {}

  /** A block of the same extent with another use: one word, if that. */
  lemma SoleLaid(m: seq<byte>, m': seq<byte>, bs: seq<Block>, i: nat, b: Block)
    requires Sound(m, bs) && i < |bs| && b.at == bs[i].at && b.size == bs[i].size && Wrote(m, m', b.at, Flags(b))
    ensures Laid(m, m', bs, i, i + 1, [b])
  {
    hide View;
    assert HeaderAt(View(m), bs, i) && BlockOk(bs[i]);
    assert NewHeader(View(m'), bs, i, i + 1, [b], 0);
    if i + 1 < |bs| { assert HeaderAt(View(m), bs, i + 1) && Joined(bs[i], bs[i + 1]); }
  }

  /** The block after a free one is in use, and still says so when only the free one's header was written. */
  lemma AfterFree(m: seq<byte>, m1: seq<byte>, bs: seq<Block>, k: nat, v: nat)
    requires Sound(m, bs) && k < |bs| && bs[k].use.Free? && Wrote(m, m1, bs[k].at, v)
    ensures NextAt(bs, k) != 0 ==> k + 1 < |bs| && NextAt(bs, k) == bs[k].at + bs[k].size
    ensures NextAt(bs, k) != 0 ==> NextAt(bs, k) + HEADER <= |m| && !IsFree(View(m1)(NextAt(bs, k)))
  {
    hide View;
    assert BlockOk(bs[k]);
    if k + 1 < |bs| {
      ReadHeader(m, bs, k + 1);
      assert Joined(bs[k], bs[k + 1]);
    }
  }

  /** A block, the one after it and the one after that, as the headers show them. */
  lemma NeighboursRead(m: seq<byte>, bs: seq<Block>, i: nat)
    requires Sound(m, bs) && i < |bs|
    ensures bs[i].at >= ALIGN && bs[i].at + bs[i].size <= |m| && MIN_SPLIT <= bs[i].size
    ensures OrFree(bs[i].size) == bs[i].size + FREE
    ensures SizeOf(View(m)(bs[i].at)) == bs[i].size && View(m)(bs[i].at + 8) == NextAt(bs, i)
    ensures View(m)(bs[i].at + 16) == PrevAt(bs, i)
    ensures i + 1 < |bs| ==>
              && NextAt(bs, i) == bs[i].at + bs[i].size > 0 && bs[i + 1].at + bs[i + 1].size <= |m| && MIN_SPLIT <= bs[i + 1].size
              && SizeOf(View(m)(NextAt(bs, i))) == bs[i + 1].size && (IsFree(View(m)(NextAt(bs, i))) <==> bs[i + 1].use.Free?)
              && View(m)(NextAt(bs, i) + 8) == NextAt(bs, i + 1)
              && OrFree(bs[i].size + bs[i + 1].size) == bs[i].size + bs[i + 1].size + FREE
    ensures i + 2 < |bs| ==> NextAt(bs, i + 1) == bs[i + 1].at + bs[i + 1].size && bs[i + 2].at + HEADER <= |m|
    ensures i + 2 == |bs| ==> NextAt(bs, i + 1) == 0
  {
    hide View;
    ReadHeader(m, bs, i);
    assert BlockOk(bs[i]);
    if i + 1 < |bs| {
      ReadHeader(m, bs, i + 1);
      assert Joined(bs[i], bs[i + 1]) && BlockOk(bs[i + 1]);
      Sums(bs[i].size, bs[i + 1].size);
      FlagsRead(Block(0, bs[i].size + bs[i + 1].size, Free));
    }
    if i + 2 < |bs| {
      ReadHeader(m, bs, i + 2);
      assert Joined(bs[i + 1], bs[i + 2]);
    }
  }

  /** Two neighbours became one block. */
  lemma MergeLaid(m: seq<byte>, m1: seq<byte>, m2: seq<byte>, m': seq<byte>, bs: seq<Block>, i: nat, b: Block)
    requires Sound(m, bs) && i + 1 < |bs| && b.at == bs[i].at && b.size == bs[i].size + bs[i + 1].size
    requires Wrote(m, m1, b.at, Flags(b)) && Wrote(m1, m2, b.at + 8, NextAt(bs, i + 1))
    requires if i + 2 < |bs| then Wrote(m2, m', bs[i + 2].at + 16, b.at) else m' == m2
    ensures Laid(m, m', bs, i, i + 2, [b])
  {
    hide View, OrFree, SizeOf, IsFree, Shaped, Headers, Backs;
    NeighboursRead(m, bs, i);
    MergeHeader(View(m), View(m1), View(m2), View(m'), bs, i, b);
    assert Confined(m, m', bs[i].at, End([b]), LinkAfter(bs, i, i + 2));
  }

  lemma MergeHeader(w: Words, w1: Words, w2: Words, w': Words, bs: seq<Block>, i: nat, b: Block)
    requires i + 1 < |bs| && b.at == bs[i].at && b.size == bs[i].size + bs[i + 1].size && b.size >= HEADER
    requires w(b.at + 16) == PrevAt(bs, i) && (i + 2 < |bs| ==> bs[i + 2].at == b.at + b.size)
    requires Assigns(w, w1, b.at, Flags(b)) && Assigns(w1, w2, b.at + 8, NextAt(bs, i + 1))
    requires if i + 2 < |bs| then Assigns(w2, w', bs[i + 2].at + 16, b.at) else w' == w2
    ensures NewHeader(w', bs, i, i + 2, [b], 0) && (i + 2 < |bs| ==> w'(bs[i + 2].at + 16) == b.at)
  {}

  function AtOr0(bs: seq<Block>, j: nat): nat { if j < |bs| then bs[j].at else 0 }

  /** With `i..j` merged, the header of that block. */
  lemma MergedReads(m: seq<byte>, m1: seq<byte>, bs: seq<Block>, i: nat, j: nat)
    requires Sound(m, bs) && i < j <= |bs| && Laid(m, m1, bs, i, j, Merged(bs, i, j))
    ensures var w, n := View(m1), Merged(bs, i, j)[0].size;
            && bs[i].at >= ALIGN && bs[i].at + n <= |m1| == |m| && n >= MIN_SPLIT && n % ALIGN == 0
            && SizeOf(w(bs[i].at)) == n && w(bs[i].at + 8) == AtOr0(bs, j) && w(bs[i].at + 16) == PrevAt(bs, i)
            && (j < |bs| ==> bs[j].at == bs[i].at + n && bs[j].at + HEADER <= |m|)
  {
    hide View, SizeOf, IsFree, OrFree, Headers, Backs, Kept, UseOk;
    var b := Merged(bs, i, j)[0];
    Span(bs, i, j);
    ReadHeader(m, bs, i);
    ReadHeader(m, bs, j - 1);
    assert NewHeader(View(m1), bs, i, j, [b], 0);
    FlagsRead(b);
    if j < |bs| { ReadHeader(m, bs, j); assert Joined(bs[j - 1], bs[j]); }
  }

  /** The header of the block before it. */
  lemma PrevReads(m: seq<byte>, m1: seq<byte>, bs: seq<Block>, i: nat, j: nat)
    requires Sound(m, bs) && 0 < i < j <= |bs| && Laid(m, m1, bs, i, j, Merged(bs, i, j))
    ensures var w, n, p := View(m1), Merged(bs, i, j)[0].size, bs[i - 1];
            && PrevAt(bs, i) == p.at >= ALIGN && p.at + p.size == bs[i].at && p.size >= MIN_SPLIT
            && SizeOf(w(p.at)) == p.size && (IsFree(w(p.at)) <==> p.use.Free?) && OrFree(p.size + n) == p.size + n + FREE
            && w(p.at + 16) == PrevAt(bs, i - 1) && Merged(bs, i - 1, j) == [Block(p.at, p.size + n, Free)]
  {
    hide View, SizeOf, IsFree, OrFree, Headers, Backs, NewHeader;
    MergedReads(m, m1, bs, i, j);
    ReadHeader(m, bs, i - 1);
    assert Joined(bs[i - 1], bs[i]) && BlockOk(bs[i - 1]);
    Sums(bs[i - 1].size, Merged(bs, i, j)[0].size);
    FlagsRead(Block(0, bs[i - 1].size + Merged(bs, i, j)[0].size, Free));
    ConfinedWords(m, m1, bs[i].at, End(Merged(bs, i, j)), LinkAfter(bs, i, j));
  }

  lemma PrevLaid(m: seq<byte>, m1: seq<byte>, m2: seq<byte>, m3: seq<byte>, m': seq<byte>, bs: seq<Block>, i: nat, j: nat)
    requires Sound(m, bs) && 0 < i < j <= |bs| && Laid(m, m1, bs, i, j, Merged(bs, i, j))
    requires Wrote(m1, m2, bs[i - 1].at, OrFree(bs[i - 1].size + Merged(bs, i, j)[0].size))
    requires Wrote(m2, m3, bs[i - 1].at + 8, AtOr0(bs, j))
    requires if j < |bs| then Wrote(m3, m', bs[j].at + 16, bs[i - 1].at) else m' == m3
    ensures Laid(m, m', bs, i - 1, j, Merged(bs, i - 1, j))
  {
    hide View, SizeOf, IsFree, OrFree, Shaped, Headers, Backs;
    MergedReads(m, m1, bs, i, j);
    PrevReads(m, m1, bs, i, j);
    PrevHeader(View(m1), View(m2), View(m3), View(m'), bs, i, j, Merged(bs, i - 1, j)[0]);
    assert Confined(m, m', bs[i - 1].at, End(Merged(bs, i - 1, j)), LinkAfter(bs, i - 1, j));
  }

  lemma PrevHeader(w: Words, w2: Words, w3: Words, w': Words, bs: seq<Block>, i: nat, j: nat, b: Block)
    requires 0 < i < j <= |bs| && b.at == bs[i - 1].at && b.size >= HEADER && b.use.Free?
    requires (j < |bs| ==> bs[j].at == b.at + b.size)
    requires w(b.at + 16) == PrevAt(bs, i - 1) && OrFree(b.size) == b.size + FREE
    requires Assigns(w, w2, b.at, OrFree(b.size)) && Assigns(w2, w3, b.at + 8, AtOr0(bs, j))
    requires if j < |bs| then Assigns(w3, w', bs[j].at + 16, b.at) else w' == w3
    ensures NewHeader(w', bs, i - 1, j, [b], 0) && (j < |bs| ==> w'(bs[j].at + 16) == b.at)
  {
    hide OrFree;
  }

  // ---------------------------------------------------------------- the list after each operation

  /** `r` is as good as `bs` was, over the same ground, and no payload of `kept` has changed. */
  ghost predicate Carries(m: seq<byte>, m': seq<byte>, bs: seq<Block>, r: seq<Block>, kept: set<Use>) {
    Sound(m', r) && Head(r) == Head(bs) && bs != [] && r != [] && End(r) == End(bs) && Spared(m, m', kept)
  }

  /** The back word goes between the header and the payload. */
  lemma Stamped(m: seq<byte>, m1: seq<byte>, m': seq<byte>, bs: seq<Block>, k: nat, need: nat, use: Use)
    requires Sound(m, bs) && k < |bs| && Fit(bs[k], need) && MIN_SPLIT <= need && need % ALIGN == 0
    requires use.Used? && UseOk(Block(bs[k].at, need, use))
    requires Laid(m, m1, bs, k, k + 1, TakeNew(bs[k], need, SOMETHING)) && Wrote(m1, m', use.ptr - BACK, use.ptr - bs[k].at)
    ensures var new' := TakeNew(bs[k], need, use);
            && Laid(m, m', bs, k, k + 1, new') && (forall l :: 0 <= l < |new'| ==> BackOk(View(m'), new'[l]))
            && SizeOf(View(m')(bs[k].at)) == new'[0].size
  {
    hide View, Headers, Backs, IsPow2, SizeOf, IsFree, OrFree;
    assert bs[k].at + HEADER <= use.ptr && use.ptr + use.size <= bs[k].at + need;
    hide UseOk;
    var old', new' := TakeNew(bs[k], need, SOMETHING), TakeNew(bs[k], need, use);
    assert BlockOk(bs[k]);
    if k + 1 < |bs| { assert Joined(bs[k], bs[k + 1]); }
    var j, w := k + 1, View(m');
    forall l | 0 <= l < |new'| ensures NewHeader(w, bs, k, j, new', l) {
      assert NewHeader(View(m1), bs, k, k + 1, old', l);
    }
    assert NewHeader(w, bs, k, j, new', 0);
    FlagsRead(new'[0]);
  }

  /** The list with block `k` taken. */
  ghost function Taken(bs: seq<Block>, k: nat, need: nat, use: Use): seq<Block>
    requires k < |bs|
  { Splice(bs, k, k + 1, TakeNew(bs[k], need, use)) }

  lemma TakeSize(b: Block, need: nat, use: Use)
    requires Fit(b, need)
    ensures need <= TakeNew(b, need, use)[0].size < need + 48
  {}

  /** A block taken: its payload is new, and every other one is as it was. */
  lemma TakeCommits(m: seq<byte>, m1: seq<byte>, m': seq<byte>, bs: seq<Block>, k: nat, need: nat, use: Use)
    requires Sound(m, bs) && k < |bs| && Fit(bs[k], need) && MIN_SPLIT <= need && need % ALIGN == 0
    requires use.Used? && UseOk(Block(bs[k].at, need, use))
    requires Laid(m, m1, bs, k, k + 1, TakeNew(bs[k], need, SOMETHING)) && Wrote(m1, m', use.ptr - BACK, use.ptr - bs[k].at)
    ensures var r := Taken(bs, k, need, use);
            && Carries(m, m', bs, r, Live(bs)) && Live(r) == Live(bs) + {use} && use !in Live(bs)
            && UsedBytes(r) == UsedBytes(bs) + SizeOf(View(m')(bs[k].at)) && UsedCount(r) == UsedCount(bs) + 1
            && need <= SizeOf(View(m')(bs[k].at)) < need + 48
  {
    hide View, Headers, Backs, SizeOf, Laid, Covers, Shaped, Live, UsedBytes, UsedCount, Spared, UseOk, Wrote;
    hide BackOk, TakeNew, Splice;
    var new' := TakeNew(bs[k], need, use);
    TakeSize(bs[k], need, use);
    TakeCovers(bs, k, need, use);
    Stamped(m, m1, m', bs, k, need, use);
    FirstAndLast(bs, k);
    Commit(m, m', bs, k, k + 1, new');
    NewPayload(bs, k, need, use);
    assert Live(bs) == Live(bs[..k]) + Live(bs[k + 1..]);
  }

  /** A used block and its free neighbours became one free block. */
  lemma FreeCommits(m: seq<byte>, m': seq<byte>, bs: seq<Block>, lo: nat, i: nat, hi: nat, b: Block)
    requires Sound(m, bs) && lo <= i < hi <= |bs| && bs[i].use.Used? && b.use.Free? && End([b]) <= End(bs)
    requires (hi == |bs| ==> End([b]) == End(bs))
    requires Covers(bs, lo, hi, [b]) && Laid(m, m', bs, lo, hi, [b])
    requires UsedBytes(bs[lo..hi]) == bs[i].size && UsedCount(bs[lo..hi]) == 1 && Live(bs[lo..hi]) == {bs[i].use}
    ensures var r := Splice(bs, lo, hi, [b]);
            && Carries(m, m', bs, r, Live(r)) && Live(r) == Live(bs) - {bs[i].use}
            && UsedBytes(r) == UsedBytes(bs) - bs[i].size && UsedCount(r) == UsedCount(bs) - 1
  {
    hide View, Headers, Backs, Laid, Covers, Shaped, Live, UsedBytes, UsedCount, Spared, Splice, UseOk;
    OneUsed(b);
    Commit(m, m', bs, lo, hi, [b]);
    OneOwner(bs, lo, hi, i);
    assert Live(Splice(bs, lo, hi, [b])) == Live(bs[..lo]) + Live(bs[hi..]);
  }

  /** The list with block `i` given back. */
  ghost function Given(bs: seq<Block>, i: nat): seq<Block>
    requires i < |bs|
  { if Shaped(bs) then Splice(bs, GiveFrom(bs, i), GiveTo(bs, i), GiveNew(bs, i)) else [] }

  lemma GiveCommits(m: seq<byte>, m': seq<byte>, bs: seq<Block>, i: nat)
    requires Sound(m, bs) && i < |bs| && bs[i].use.Used? && Laid(m, m', bs, GiveFrom(bs, i), GiveTo(bs, i), GiveNew(bs, i))
    ensures var r := Given(bs, i);
            && Carries(m, m', bs, r, Live(r)) && Live(r) == Live(bs) - {bs[i].use}
            && UsedBytes(r) == UsedBytes(bs) - bs[i].size && UsedCount(r) == UsedCount(bs) - 1
  {
    hide View, Headers, Backs, UseOk, Laid, Covers, Shaped, Live, UsedBytes, UsedCount, Spared, GiveFrom, GiveTo, Splice, Carries;
    var lo, hi := GiveFrom(bs, i), GiveTo(bs, i);
    GiveCovers(bs, i);
    GivenUsed(bs, lo, i, hi);
    FirstAndLast(bs, hi - 1);
    FreeCommits(m, m', bs, lo, i, hi, GiveNew(bs, i)[0]);
  }

  /** The payload stays where it is, with its back word and its first bytes. */
  lemma StaysPut(m: seq<byte>, m': seq<byte>, b: Block, use: Use)
    requires use.Used? && b.use.Used? && use.ptr == b.use.ptr && b.at + HEADER <= use.ptr && BackOk(View(m), b)
    requires Same(m, m', b.at + 24, use.ptr)
    ensures BackOk(View(m'), Block(b.at, b.size, use))
  {
    hide View;
    SameWord(m, m', b.at + 24, use.ptr, use.ptr - BACK);
  }

  /** A used block became `new'[0]`, with the same payload address; the rest of `new'` is free. */
  lemma ResizeCommits(m: seq<byte>, m': seq<byte>, bs: seq<Block>, i: nat, j: nat, new': seq<Block>, use: Use)
    requires Sound(m, bs) && i < j <= |bs| && bs[i].use.Used? && use.Used? && use.ptr == bs[i].use.ptr
    requires Covers(bs, i, j, new') && Laid(m, m', bs, i, j, new') && End(new') <= End(bs) && (j == |bs| ==> End(new') == End(bs))
    requires new'[0].use == use && new'[0].at == bs[i].at && (forall l :: 0 < l < |new'| ==> new'[l].use.Free?)
    requires UsedBytes(new') == new'[0].size && UsedCount(new') == 1 && Live(new') == {use}
    requires UsedBytes(bs[i..j]) == bs[i].size && UsedCount(bs[i..j]) == 1 && Live(bs[i..j]) == {bs[i].use}
    requires Same(m, m', bs[i].at + 24, use.ptr)
    ensures var r := Splice(bs, i, j, new');
            && Carries(m, m', bs, r, Live(bs) - {bs[i].use}) && Live(r) == Live(bs) - {bs[i].use} + {use}
            && UsedBytes(r) == UsedBytes(bs) - bs[i].size + new'[0].size && UsedCount(r) == UsedCount(bs)
  {
    hide View, Headers, Laid, Covers, Shaped, Live, UsedBytes, UsedCount, Spared, Splice, UseOk;
    assert BlockOk(bs[i]) by { hide View, Headers, Backs; BlockIsOk(bs, i); }
    assert BackOk(View(m), bs[i]);
    StaysPut(m, m', bs[i], use) by { UsedPtr(bs[i]); }
    Commit(m, m', bs, i, j, new');
    OneOwner(bs, i, j, i);
    assert Live(bs[..i]) + Live(bs[j..]) == Live(bs) - {bs[i].use};
  }

  lemma BlockIsOk(bs: seq<Block>, i: nat)
    requires Shaped(bs) && i < |bs|
    ensures BlockOk(bs[i])
  {}

  lemma UsedPtr(b: Block)
    requires BlockOk(b) && b.use.Used?
    ensures b.at + HEADER <= b.use.ptr && b.use.ptr + b.use.size <= b.at + b.size
  {}

  lemma CutRest(bs: seq<Block>, i: nat, j: nat, keep: nat)
    requires Shaped(bs) && i < j <= |bs| && keep % ALIGN == 0 && keep + MIN_SPLIT <= bs[i].size
    ensures var rest := bs[j - 1].at + bs[j - 1].size - (bs[i].at + keep);
            rest % ALIGN == 0 && rest >= MIN_SPLIT && (j < |bs| ==> bs[j].at == bs[j - 1].at + bs[j - 1].size)
  {
    hide UseOk;
    Span(bs, i, j);
    Sums(bs[j - 1].at + bs[j - 1].size - bs[i].at, keep);
    assert j < |bs| ==> Joined(bs[j - 1], bs[j]);
  }

  /** A cut writes a size word and a link at the front of the block, and nothing up to the cut. */
  lemma CutSame(m: seq<byte>, m1: seq<byte>, m': seq<byte>, at: nat, v: nat, keep: nat, after: nat)
    requires Wrote(m, m1, at, v) && LinkedBytes(m1, m', at, at + keep, after) && (after != 0 ==> at + keep <= after)
    ensures Same(m, m', at + 24, at + keep)
  {
    hide View, Assigns;
  }

  lemma AfterGrown(m: seq<byte>, m1: seq<byte>, bs: seq<Block>, i: nat, v: nat)
    requires Sound(m, bs) && i + 1 < |bs| && bs[i + 1].use.Free? && Wrote(m, m1, bs[i].at, v)
    ensures NextAt(bs, i + 1) != 0 ==> i + 2 < |bs| && !IsFree(View(m1)(NextAt(bs, i + 1)))
    ensures NextAt(bs, i + 1) == AtOr0(bs, i + 2)
  {
    hide View, UseOk, IsFree, SizeOf, OrFree;
    if i + 2 < |bs| {
      ReadHeader(m, bs, i + 2);
      assert Joined(bs[i + 1], bs[i + 2]) && bs[i].at + bs[i].size <= bs[i + 2].at;
      Elsewhere(m, m1, bs[i].at, v, bs[i + 2].at) by { BlockIsOk(bs, i); }
    }
  }

  lemma GrowRest(bs: seq<Block>, i: nat, need: nat)
    requires Shaped(bs) && i + 1 < |bs| && need % ALIGN == 0 && need <= bs[i].size + bs[i + 1].size
    ensures (bs[i].size + bs[i + 1].size - need) % ALIGN == 0 && bs[i + 1].at == bs[i].at + bs[i].size
    ensures i + 2 < |bs| ==> bs[i + 2].at == bs[i + 1].at + bs[i + 1].size
  {
    hide UseOk;
    assert BlockOk(bs[i]) && BlockOk(bs[i + 1]) && Joined(bs[i], bs[i + 1]);
    Sums(bs[i].size, bs[i + 1].size);
    Sums(bs[i].size + bs[i + 1].size, need);
    assert i + 2 < |bs| ==> Joined(bs[i + 1], bs[i + 2]);
  }

  lemma SameLess(m: seq<byte>, m': seq<byte>, lo: nat, hi: nat, hi': nat)
    requires Same(m, m', lo, hi) && hi' <= hi
    ensures Same(m, m', lo, hi')
  {}

  lemma MergeSame(m: seq<byte>, m1: seq<byte>, m2: seq<byte>, m': seq<byte>, at: nat, size: nat, after: nat)
    requires Wrote(m, m1, at, size) && Wrote(m1, m2, at + 8, after)
    requires (if after != 0 then Wrote(m2, m', after + 16, at) else m' == m2)
    requires after != 0 ==> at + size <= after
    ensures Same(m, m', at + 24, at + size)
  {
    hide View, Assigns;
  }

  ghost predicate HasPayload(bs: seq<Block>, p: nat) { exists i :: 0 <= i < |bs| && bs[i].use.Used? && bs[i].use.ptr == p }

  lemma IsShaped(m: seq<byte>, bs: seq<Block>)
    requires Sound(m, bs)
    ensures Shaped(bs)
  {}

  lemma SpliceUsedAtLeast(bs: seq<Block>, i: nat)
    requires i < |bs| && bs[i].use.Used?
    ensures UsedBytes(bs) >= bs[i].size && UsedCount(bs) >= 1
  {
    SpliceUsed(bs, i, i + 1, []);
    assert bs[i..i + 1] == [bs[i]];
    OneUsed(bs[i]);
  }

  /** Regions lie end to end. */
  ghost predicate EndToEnd(rs: seq<S.Region>) {
    && (forall i :: 0 <= i < |rs| ==> rs[i].len >= MIN_SPLIT)
    && (forall i, j :: 0 <= i < j < |rs| ==> rs[i].base + rs[i].len <= rs[j].base)
    && (forall i, j :: 0 <= i < j < |rs| && j == i + 1 ==> rs[i].base + rs[i].len == rs[j].base)
  }

  function Edge(rs: seq<S.Region>): nat { if rs == [] then 0 else rs[|rs| - 1].base + rs[|rs| - 1].len }

  /** The blocks cover the regions and nothing else. */
  ghost predicate Tiled(rs: seq<S.Region>, bs: seq<Block>) {
    EndToEnd(rs) && (rs == [] <==> bs == []) && (rs != [] ==> rs[0].base == Head(bs) && Edge(rs) == End(bs))
  }

  function SaturatingSub(a: nat, b: nat): nat { if a >= b then a - b else 0 }

  predicate Shares(a: S.Region, b: S.Region) { a.base < b.base + b.len && b.base < a.base + a.len }

  /** What the heap makes of a region: a free tail reaches into it, otherwise it is a block of its own. */
  function Extended(bs: seq<Block>, g: S.Region): seq<Block> {
    var n := |bs|;
    if n > 0 && bs[n - 1].use.Free? then Splice(bs, n - 1, n, [Block(bs[n - 1].at, bs[n - 1].size + g.len, Free)])
    else bs + [Block(g.base, g.len, Free)]
  }

  // ---------------------------------------------------------------- nothing is wasted

  /** The bytes a payload needs: a header, the payload, and room to align it, rounded up to 16. */
  predicate SnugAt(b: Block) {
    b.use.Used? && b.use.align > 0 ==> b.size < AlignUp(b.use.size + HEADER + b.use.align - 1, ALIGN) + 48
  }

  /** No block in use is 48 bytes or more larger than its payload needs. */
  ghost predicate Snug(bs: seq<Block>) { forall i :: 0 <= i < |bs| ==> SnugAt(bs[i]) }

  lemma SnugSplice(bs: seq<Block>, i: nat, j: nat, new': seq<Block>)
    requires i <= j <= |bs| && Snug(bs) && Snug(new')
    ensures Snug(Splice(bs, i, j, new'))
  {
    hide SnugAt;
    var r := Splice(bs, i, j, new');
    forall k | 0 <= k < |r| ensures SnugAt(r[k]) {
      if k < i { assert r[k] == bs[k]; }
      else if k < i + |new'| { assert r[k] == new'[k - i]; }
      else { assert r[k] == bs[k - i - |new'| + j]; }
    }
  }

  lemma SnugTaken(bs: seq<Block>, k: nat, size: nat, align: nat, p: nat)
    requires Snug(bs) && k < |bs| && align > 0 && Fit(bs[k], BlockFor(size, align))
    ensures Snug(Taken(bs, k, BlockFor(size, align), Used(p, size, align)))
  {
    hide AlignUp;
    SnugSplice(bs, k, k + 1, TakeNew(bs[k], BlockFor(size, align), Used(p, size, align)));
  }

  lemma SnugGiven(bs: seq<Block>, i: nat)
    requires Snug(bs) && i < |bs|
    ensures Snug(Given(bs, i))
  {
    hide SnugAt;
    if Shaped(bs) {
      FreeIsSnug(GiveNew(bs, i));
      SnugSplice(bs, GiveFrom(bs, i), GiveTo(bs, i), GiveNew(bs, i));
    }
  }

  lemma FreeIsSnug(bs: seq<Block>)
    requires forall i :: 0 <= i < |bs| ==> bs[i].use.Free?
    ensures Snug(bs)
  {}

  lemma SnugExtended(bs: seq<Block>, g: S.Region)
    requires Snug(bs)
    ensures Snug(Extended(bs, g)) && Snug(bs + [Block(g.base, g.len, Free)])
  {
    hide SnugAt;
    FreeIsSnug([Block(g.base, g.len, Free)]);
    if bs != [] { FreeIsSnug([Block(bs[|bs| - 1].at, bs[|bs| - 1].size + g.len, Free)]); }
    forall i | 0 <= i < |bs| + 1 ensures SnugAt((bs + [Block(g.base, g.len, Free)])[i]) {}
    if bs != [] && bs[|bs| - 1].use.Free? { SnugSplice(bs, |bs| - 1, |bs|, [Block(bs[|bs| - 1].at, bs[|bs| - 1].size + g.len, Free)]); }
  }

  /** A payload that stays where it is in its block needs no more than one placed anew. */
  lemma StaysWithin(at: nat, use: Use)
    requires use.Used? && use.align > 0 && at + HEADER <= use.ptr < at + HEADER + use.align
    ensures AlignUp(use.ptr - at + use.size, ALIGN) <= AlignUp(use.size + HEADER + use.align - 1, ALIGN)
  {
    RoundedUp(use.ptr - at + use.size, use.size + HEADER + use.align - 1);
  }

  lemma RoundedUp(a: nat, b: nat)
    requires a <= b
    ensures AlignUp(a, ALIGN) <= AlignUp(b, ALIGN)
  {}

  /** A resized block is cut to what its payload needs there, or exceeds it by less than 48. */
  lemma SnugResized(bs: seq<Block>, i: nat, j: nat, new': seq<Block>, need: nat)
    requires i < j <= |bs| && Snug(bs) && 1 <= |new'| <= 2 && (|new'| == 2 ==> new'[1].use.Free?)
    requires new'[0].use.Used? && UseOk(new'[0].(size := need)) && need == AlignUp(new'[0].use.ptr - new'[0].at + new'[0].use.size, ALIGN)
    requires new'[0].size < need + 48
    ensures Snug(Splice(bs, i, j, new'))
  {
    StaysWithin(new'[0].at, new'[0].use);
    hide AlignUp;
    SnugSplice(bs, i, j, new');
  }

  lemma ShrinkSnug(bs: seq<Block>, i: nat, keep: nat, use: Use)
    requires Snug(bs) && Shaped(bs) && i < |bs| && keep <= bs[i].size && use.Used? && UseOk(Block(bs[i].at, keep, use))
    requires keep == AlignUp(use.ptr - bs[i].at + use.size, ALIGN)
    ensures Snug(Splice(bs, i, GiveTo(bs, i), ShrinkNew(bs, i, keep, use)))
  {
    SnugResized(bs, i, GiveTo(bs, i), ShrinkNew(bs, i, keep, use), keep);
  }

  lemma GrowSnug(bs: seq<Block>, i: nat, need: nat, use: Use)
    requires Snug(bs) && CanGrow(bs, i, need) && use.Used? && UseOk(Block(bs[i].at, need, use))
    requires need == AlignUp(use.ptr - bs[i].at + use.size, ALIGN)
    ensures Snug(Splice(bs, i, i + 2, GrowNew(bs, i, need, use)))
  {
    SnugResized(bs, i, i + 2, GrowNew(bs, i, need, use), need);
  }

  /** What the payloads in use need, each on its own. */
  function NeedBytes(bs: seq<Block>): nat {
    if bs == [] then 0
    else
      var u := bs[|bs| - 1].use;
      NeedBytes(bs[..|bs| - 1]) + if u.Used? && u.align > 0 then AlignUp(u.size + HEADER + u.align - 1, ALIGN) else 0
  }

  lemma {:induction false} WasteIsSmall(bs: seq<Block>)
    requires Snug(bs) && forall i :: 0 <= i < |bs| ==> UseOk(bs[i])
    ensures UsedBytes(bs) <= NeedBytes(bs) + 47 * UsedCount(bs)
  {
    hide AlignUp;
    if bs != [] {
      var k := |bs| - 1;
      WasteIsSmall(bs[..k]);
      assert SnugAt(bs[k]) && UseOk(bs[k]);
    }
  }

  /** Where the free memory at the end of the heap begins; `top` is where the next region would. */
  function TailFrom(bs: seq<Block>, top: nat): nat {
    if bs == [] then top else if bs[|bs| - 1].use.Free? then bs[|bs| - 1].at else End(bs)
  }

  /** A region that goes on where the heap ends leaves the tail where it began. */
  lemma TailStays(bs: seq<Block>, g: S.Region)
    requires bs != [] ==> End(bs) == g.base
    ensures TailFrom(Extended(bs, g), g.base + g.len) == TailFrom(bs, g.base)
    ensures End(Extended(bs, g)) == g.base + g.len
  {}

  lemma FoundFits(bs: seq<Block>, need: nat, k: nat)
    requires FirstFit(bs, need, k)
    ensures !NoFit(bs, need)
  {}

  /** When nothing fits, a region makes room exactly by what the tail then has. */
  lemma RoomAtTail(bs: seq<Block>, g: S.Region, need: nat)
    requires (bs != [] ==> End(bs) == g.base) && NoFit(bs, need)
    ensures NoFit(Extended(bs, g), need) <==> TailFrom(bs, g.base) + need > g.base + g.len
  {
    var r := Extended(bs, g);
    var n := |r| - 1;
    assert r[n].at == TailFrom(bs, g.base) && r[n].at + r[n].size == g.base + g.len && r[n].use.Free?;
    forall l | 0 <= l < n ensures r[l] == bs[l] && !Fit(r[l], need) {}
    assert Fit(r[n], need) <==> r[n].at + need <= g.base + g.len;
  }

  /** When nothing fits and nothing is left to map, the tail is too short. */
  lemma NoRoomAtTail(bs: seq<Block>, top: nat, need: nat)
    requires (bs != [] ==> End(bs) == top) && NoFit(bs, need) && need > 0
    ensures TailFrom(bs, top) + need > top
  {
    if bs != [] { assert !Fit(bs[|bs| - 1], need); }
  }

  lemma NotTiled(rs: seq<S.Region>, bs: seq<Block>, g: S.Region, r: seq<Block>)
    requires Tiled(rs, bs) && bs != [] && g.base != End(bs)
    ensures !Tiled(rs + [g], r)
  {
    var all := rs + [g];
    assert all[|rs| - 1] == rs[|rs| - 1] && all[|rs|] == g;
  }

  /** What adding a region keeps: the same payloads, untouched, and the same counts. */
  ghost predicate Enlarges(m: seq<byte>, m': seq<byte>, bs: seq<Block>, r: seq<Block>, rs: seq<S.Region>, g: S.Region) {
    && Sound(m', r) && Tiled(rs + [g], r) && Live(r) == Live(bs) && Spared(m, m', Live(bs))
    && UsedBytes(r) == UsedBytes(bs) && UsedCount(r) == UsedCount(bs) && Head(r) == if bs == [] then g.base else Head(bs)
  }

  ghost predicate Fits(m: seq<byte>, bs: seq<Block>, g: S.Region) {
    && g.len >= MIN_SPLIT && g.base % ALIGN == 0 && g.base > 0 && g.base + g.len <= |m| && g.len % ALIGN == 0
    && (bs != [] ==> g.base == End(bs))
  }

  lemma AlwaysSpared(m: seq<byte>, bs: seq<Block>)
    requires Sound(m, bs)
    ensures Spared(m, m, Live(bs))
  {
    hide View, Headers, Backs;
    forall u | u in Live(bs) ensures u.Used? && u.ptr + u.size <= |m| { PayloadsApart(bs, u, u); }
  }

  lemma TiledOn(rs: seq<S.Region>, bs: seq<Block>, r: seq<Block>, g: S.Region)
    requires Tiled(rs, bs) && r != [] && g.len >= MIN_SPLIT && Head(r) == (if bs == [] then g.base else Head(bs))
    requires End(r) == g.base + g.len
    requires bs != [] ==> End(bs) == g.base
    ensures Tiled(rs + [g], r)
  {
    var rs' := rs + [g];
    forall i, j | 0 <= i < j < |rs'| ensures rs'[i].base + rs'[i].len <= rs'[j].base {
      if j == |rs| && i < |rs| - 1 { assert rs[i].base + rs[i].len <= rs[|rs| - 1].base; }
    }
  }

  lemma FoldedSize(bs: seq<Block>, g: S.Region)
    requires Shaped(bs) && bs != [] && g.len % ALIGN == 0
    ensures OrFree(bs[|bs| - 1].size + g.len) == bs[|bs| - 1].size + g.len + FREE
  {
    hide UseOk;
    assert BlockOk(bs[|bs| - 1]);
    Sums(bs[|bs| - 1].size, g.len);
    FlagsRead(Block(0, bs[|bs| - 1].size + g.len, Free));
  }

  /** The region joined a free tail. */
  lemma FoldedIn(m: seq<byte>, m': seq<byte>, bs: seq<Block>, g: S.Region, rs: seq<S.Region>)
    requires Sound(m, bs) && bs != [] && bs[|bs| - 1].use.Free? && Fits(m, bs, g) && Tiled(rs, bs)
    requires Wrote(m, m', bs[|bs| - 1].at, OrFree(bs[|bs| - 1].size + g.len))
    ensures Enlarges(m, m', bs, Extended(bs, g), rs, g)
  {
    hide View, Backs, UseOk, Spared, Live, UsedBytes, UsedCount, OrFree;
    var n := |bs|;
    var last := bs[n - 1];
    var b := Block(last.at, last.size + g.len, Free);
    assert BlockOk(last);
    Sums(last.size, g.len);
    FreeOk(S.Region(b.at, b.size));
    FlagsRead(b);
    assert HeaderAt(View(m), bs, n - 1);
    assert Covers(bs, n - 1, n, [b]) by { assert n > 1 ==> Joined(bs[n - 2], bs[n - 1]); }
    assert Laid(m, m', bs, n - 1, n, [b]);
    OneUsed(b);
    assert bs[n - 1..n] == [last];
    OneUsed(last);
    Commit(m, m', bs, n - 1, n, [b]);
    assert Live(bs) == Live(bs[..n - 1]) + Live(bs[n..]);
    TiledOn(rs, bs, Splice(bs, n - 1, n, [b]), g);
  }

  lemma AppendWords(w: Words, w1: Words, w2: Words, w3: Words, w': Words, last: nat, g: S.Region)
    requires last + 16 <= g.base
    requires Assigns(w, w1, g.base, OrFree(g.len)) && Assigns(w1, w2, g.base + 16, last)
    requires Assigns(w2, w3, g.base + 8, 0) && Assigns(w3, w', last + 8, g.base)
    ensures LinkedWords(w, w', last, g.base, g.len, 0)
  {
    hide OrFree;
  }

  lemma AppendBytes(m: seq<byte>, m1: seq<byte>, m2: seq<byte>, m3: seq<byte>, m': seq<byte>, last: nat, g: S.Region)
    requires Touches(m, m1, g.base, 8) && Touches(m1, m2, g.base + 16, 8) && Touches(m2, m3, g.base + 8, 8)
    requires Touches(m3, m', last + 8, 8)
    ensures LinkedBytes(m, m', last, g.base, 0) && Same(m, m', last + 24, g.base)
  {}

  /** The region became a block of its own after a tail in use. */
  lemma Appended(m: seq<byte>, m1: seq<byte>, m2: seq<byte>, m3: seq<byte>, m': seq<byte>, bs: seq<Block>, g: S.Region, rs: seq<S.Region>)
    requires Sound(m, bs) && bs != [] && bs[|bs| - 1].use.Used? && Fits(m, bs, g) && Tiled(rs, bs)
    requires Wrote(m, m1, g.base, OrFree(g.len)) && Wrote(m1, m2, g.base + 16, bs[|bs| - 1].at)
    requires Wrote(m2, m3, g.base + 8, 0) && Wrote(m3, m', bs[|bs| - 1].at + 8, g.base)
    ensures Enlarges(m, m', bs, Extended(bs, g), rs, g)
  {
    hide View, Assigns, Touches, Headers, Shaped, UseOk, Spared, Live, UsedBytes, UsedCount, OrFree;
    hide LinkedWords, LinkedBytes, Laid, Tiled;
    var n := |bs|;
    var last, c := bs[n - 1], Block(g.base, g.len, Free);
    ReadHeader(m, bs, n - 1);
    AppendWords(View(m), View(m1), View(m2), View(m3), View(m'), last.at, g);
    AppendBytes(m, m1, m2, m3, m', last.at, g);
    assert Wrote(m, m, last.at, last.size) by { SelfWrite(m, bs, n - 1); }
    CutLaid(m, m, m', bs, n - 1, n, last, c);
    AppendCovers(bs, g);
    BlockIsOk(bs, n - 1);
    UsedPtr(last);
    assert BackOk(View(m), bs[n - 1]);
    StaysPut(m, m', last, last.use) by { SameLess(m, m', last.at + 24, g.base, last.use.ptr); }
    Commit(m, m', bs, n - 1, n, [last, c]);
    assert Live(bs) == Live(bs[..n - 1]) + {last.use} + Live(bs[n..]);
    SparedToo(m, m', Live(bs[..n - 1]) + Live(bs[n..]), last.use, last.at + 24, g.base);
    assert Live(bs) == Live(bs[..n - 1]) + Live(bs[n..]) + {last.use};
    assert Splice(bs, n - 1, n, [last, c]) == bs + [c];
    TiledOn(rs, bs, bs + [c], g) by { hide UseOk; }
  }

  lemma SelfWrite(m: seq<byte>, bs: seq<Block>, k: nat)
    requires Sound(m, bs) && k < |bs| && bs[k].use.Used?
    ensures Wrote(m, m, bs[k].at, bs[k].size)
  {
    hide View;
    assert HeaderAt(View(m), bs, k);
  }

  lemma SparedToo(m: seq<byte>, m': seq<byte>, us: set<Use>, u: Use, lo: nat, hi: nat)
    requires Spared(m, m', us) && u.Used? && lo <= u.ptr && u.ptr + u.size <= hi <= |m| && Same(m, m', lo, hi)
    ensures Spared(m, m', us + {u})
  {
    assert Bytes(m', u) == Bytes(m, u);
  }

  lemma AppendCovers(bs: seq<Block>, g: S.Region)
    requires Shaped(bs) && bs != [] && bs[|bs| - 1].use.Used? && g.len >= MIN_SPLIT && g.base % ALIGN == 0
    requires g.len % ALIGN == 0 && g.base == End(bs)
    ensures var n := |bs|; var last, c := bs[n - 1], Block(g.base, g.len, Free);
            && Covers(bs, n - 1, n, [last, c]) && End([last, c]) == g.base + g.len
            && UsedBytes([last, c]) == last.size && UsedCount([last, c]) == 1 && Live([last, c]) == {last.use}
            && UsedBytes(bs[n - 1..n]) == last.size && UsedCount(bs[n - 1..n]) == 1 && Live(bs[n - 1..n]) == {last.use}
  {
    hide UseOk;
    var n := |bs|;
    var last, c := bs[n - 1], Block(g.base, g.len, Free);
    assert BlockOk(last) && BlockOk(c) by { FreeOk(g); }
    assert Joined(last, c);
    UsedThenFree(last, c);
    assert bs[n - 1..n] == [last];
    OneUsed(last);
  }

  lemma FreeOk(g: S.Region)
    requires g.base > 0 && g.len >= MIN_SPLIT && g.base % ALIGN == 0 && g.len % ALIGN == 0
    ensures BlockOk(Block(g.base, g.len, Free))
  {}

  /** The first region. */
  lemma FirstRegion(m: seq<byte>, m1: seq<byte>, m2: seq<byte>, m': seq<byte>, bs: seq<Block>, g: S.Region, rs: seq<S.Region>)
    requires bs == [] && Fits(m, bs, g) && Tiled(rs, bs)
    requires Wrote(m, m1, g.base, OrFree(g.len)) && Wrote(m1, m2, g.base + 16, 0) && Wrote(m2, m', g.base + 8, 0)
    ensures Enlarges(m, m', bs, Extended(bs, g), rs, g)
  {
    hide View, UseOk;
    var c := Block(g.base, g.len, Free);
    FreeOk(g);
    FlagsRead(c);
    assert HeaderAt(View(m'), [c], 0);
    OneUsed(c);
    assert [] + [c] == [c];
    TiledOn(rs, bs, [c], g);
  }

  /** A region from where the heap ends shares nothing with those before it. */
  lemma NoneShared(rs: seq<S.Region>, bs: seq<Block>, g: S.Region)
    requires Tiled(rs, bs) && (bs != [] ==> g.base == End(bs))
    ensures forall i :: 0 <= i < |rs| ==> !Shares(g, rs[i])
  {
    hide End;
    forall i | 0 <= i < |rs| ensures !Shares(g, rs[i]) {
      assert i < |rs| - 1 ==> rs[i].base + rs[i].len <= rs[|rs| - 1].base;
    }
  }

  lemma PagesFit(g: S.Region)
    requires g.base % S.PAGE == 0 && g.len % S.PAGE == 0 && g.len > 0
    ensures g.base % ALIGN == 0 && g.len % ALIGN == 0 && g.len >= MIN_SPLIT
  {
    S.PageMultiple(g.base);
    S.PageMultiple(g.len);
  }

  /** The block size for a request can be computed in 64 bits, which every valid layout guarantees. */
  predicate InRange(size: nat, align: nat) { Max(size, 1) + HEADER + (Max(align, ALIGN) - 1) + (ALIGN - 1) < WORD }

  /** The first block with room was taken. */
  ghost predicate TakesFirst(bs: seq<Block>, r: seq<Block>, need: nat, use: Use) {
    exists k: nat :: FirstFit(bs, need, k) && r == Taken(bs, k, need, use)
  }

  lemma SparedTrans(m: seq<byte>, m1: seq<byte>, m': seq<byte>, us: set<Use>)
    requires Spared(m, m1, us) && Spared(m1, m', us)
    ensures Spared(m, m', us)
  {}

  /** The size asked for leaves room for the payload wherever alignment puts it. */
  lemma PayloadFits(m: seq<byte>, bs: seq<Block>, k: nat, need: nat, want: nat, align: nat)
    requires Sound(m, bs) && FirstFit(bs, need, k) && want >= 1 && align >= ALIGN && IsPow2(align)
    requires need == BlockFor(want, align)
    ensures k < |bs| && Fit(bs[k], need)
    ensures var p := Payload(bs[k].at, align);
            && UseOk(Block(bs[k].at, need, Used(p, want, align))) && bs[k].at + HEADER <= p && p + want <= bs[k].at + need <= |m|
  {
    hide View, Headers, Backs, UseOk;
    AlignedTo16(Payload(bs[k].at, align), align);
    FirstAndLast(bs, k);
    PayloadUse(bs[k].at, need, want, align);
  }

  lemma PayloadUse(at: nat, need: nat, want: nat, align: nat)
    requires want >= 1 && align >= ALIGN && IsPow2(align) && need == BlockFor(want, align) && Payload(at, align) % ALIGN == 0
    ensures var p := Payload(at, align); UseOk(Block(at, need, Used(p, want, align))) && at + HEADER <= p && p + want <= at + need
  {
    hide IsPow2;
  }

  lemma CarriesOn(m: seq<byte>, m': seq<byte>, bs: seq<Block>, r: seq<Block>, kept: set<Use>, rs: seq<S.Region>)
    requires Carries(m, m', bs, r, kept) && Tiled(rs, bs)
    ensures Sound(m', r) && Tiled(rs, r) && Head(r) == Head(bs) && bs != [] && r != [] && End(r) == End(bs) && Spared(m, m', kept)
  {
    hide Sound, Spared, EndToEnd;
  }

  /** What resizing block `i` in place keeps. */
  ghost predicate Resizes(m: seq<byte>, m': seq<byte>, bs: seq<Block>, r: seq<Block>, i: nat, size: nat, use: Use, rs: seq<S.Region>)
    requires i < |bs| && bs[i].use.Used? && use.Used?
  {
    && Sound(m', r) && Tiled(rs, r) && Head(r) == Head(bs) && bs != [] && r != [] && End(r) == End(bs)
    && Live(r) == Live(bs) - {bs[i].use} + {use} && Spared(m, m', Live(bs) - {bs[i].use})
    && UsedBytes(r) == UsedBytes(bs) - bs[i].size + size && UsedCount(r) == UsedCount(bs)
    && Same(m, m', use.ptr, Min(use.ptr + bs[i].use.size, use.ptr + use.size))
  }

  lemma InnerSame(m: seq<byte>, m': seq<byte>, b: Block, need: nat, use: Use, hi: nat)
    requires b.use.Used? && use.Used? && use.ptr == b.use.ptr && BlockOk(b) && UseOk(Block(b.at, need, use))
    requires (b.at + need <= hi || b.at + b.size <= hi)
    requires Same(m, m', b.at + 24, hi)
    ensures b.at + HEADER <= use.ptr && Same(m, m', b.at + 24, use.ptr)
    ensures Same(m, m', use.ptr, Min(use.ptr + b.use.size, use.ptr + use.size))
  {}

  lemma ShrunkCommits(m: seq<byte>, m': seq<byte>, bs: seq<Block>, i: nat, keep: nat, use: Use, rs: seq<S.Region>)
    requires Sound(m, bs) && Shaped(bs) && Tiled(rs, bs) && i < |bs| && bs[i].use.Used? && use.Used?
    requires use.ptr == bs[i].use.ptr && UseOk(Block(bs[i].at, keep, use))
    requires MIN_SPLIT <= keep && keep + MIN_SPLIT <= bs[i].size && keep % ALIGN == 0
    requires Laid(m, m', bs, i, GiveTo(bs, i), ShrinkNew(bs, i, keep, use)) && Same(m, m', bs[i].at + 24, bs[i].at + keep)
    ensures Resizes(m, m', bs, Splice(bs, i, GiveTo(bs, i), ShrinkNew(bs, i, keep, use)), i, keep, use, rs)
  {
    hide View, Headers, Backs, UseOk, Laid, Covers, Shaped, Live, UsedBytes, UsedCount, Spared, GiveTo, Splice;
    hide Carries, Same, Tiled, Sound;
    var j, new' := GiveTo(bs, i), ShrinkNew(bs, i, keep, use);
    ShrinkCovers(bs, i, keep, use);
    GivenUsed(bs, i, i, j);
    FirstAndLast(bs, j - 1);
    BlockIsOk(bs, i);
    InnerSame(m, m', bs[i], keep, use, bs[i].at + keep);
    ResizeCommits(m, m', bs, i, j, new', use);
    CarriesOn(m, m', bs, Splice(bs, i, j, new'), Live(bs) - {bs[i].use}, rs);
  }

  lemma RelabelCommits(m: seq<byte>, bs: seq<Block>, i: nat, keep: nat, use: Use, rs: seq<S.Region>)
    requires Sound(m, bs) && Shaped(bs) && Tiled(rs, bs) && i < |bs| && bs[i].use.Used? && use.Used? && use.ptr == bs[i].use.ptr
    requires keep <= bs[i].size && UseOk(Block(bs[i].at, keep, use))
    ensures Resizes(m, m, bs, Splice(bs, i, i + 1, [Block(bs[i].at, bs[i].size, use)]), i, bs[i].size, use, rs)
  {
    hide View, Headers, Backs, Laid, Covers, Shaped, Live, UsedBytes, UsedCount, Spared, Splice, Carries, Tiled, Sound, Wrote;
    var new' := [Block(bs[i].at, bs[i].size, use)];
    ResizeCovers(bs, i, use);
    SelfWrite(m, bs, i);
    SoleLaid(m, m, bs, i, new'[0]);
    FirstAndLast(bs, i);
    ResizeCommits(m, m, bs, i, i + 1, new', use);
    CarriesOn(m, m, bs, Splice(bs, i, i + 1, new'), Live(bs) - {bs[i].use}, rs);
  }

  lemma GrownCommits(m: seq<byte>, m': seq<byte>, bs: seq<Block>, i: nat, need: nat, use: Use, rs: seq<S.Region>)
    requires Sound(m, bs) && Shaped(bs) && Tiled(rs, bs) && i < |bs| && bs[i].use.Used? && use.Used?
    requires use.ptr == bs[i].use.ptr && UseOk(Block(bs[i].at, need, use))
    requires MIN_SPLIT <= need && need % ALIGN == 0 && CanGrow(bs, i, need)
    requires Laid(m, m', bs, i, i + 2, GrowNew(bs, i, need, use)) && Same(m, m', bs[i].at + 24, bs[i].at + bs[i].size)
    ensures Resizes(m, m', bs, Splice(bs, i, i + 2, GrowNew(bs, i, need, use)), i, GrowNew(bs, i, need, use)[0].size, use, rs)
  {
    hide View, Headers, Backs, UseOk, Laid, Covers, Shaped, Live, UsedBytes, UsedCount, Spared, Splice, Carries;
    hide Same, Tiled, Sound;
    var new' := GrowNew(bs, i, need, use);
    GrowCovers(bs, i, need, use);
    FirstAndLast(bs, i + 1);
    BlockIsOk(bs, i);
    InnerSame(m, m', bs[i], need, use, bs[i].at + bs[i].size);
    ResizeCommits(m, m', bs, i, i + 2, new', use);
    CarriesOn(m, m', bs, Splice(bs, i, i + 2, new'), Live(bs) - {bs[i].use}, rs);
  }

  /** `n` bytes are at `q` that were at `p`. */
  ghost predicate Moved(m: seq<byte>, m': seq<byte>, p: nat, q: nat, n: nat) {
    p + n <= |m| && q + n <= |m'| && m'[q..q + n] == m[p..p + n]
  }

  /** The block of payload `p` can hold `n` bytes of it, or can grow to. */
  predicate RoomAt(bs: seq<Block>, i: nat, p: nat, n: nat) {
    && i < |bs| && bs[i].use.Used? && bs[i].use.ptr == p && bs[i].at <= p
    && var need := AlignUp(p - bs[i].at + n, ALIGN); need <= bs[i].size || CanGrow(bs, i, need)
  }

  /** Resizing the payload at `p` to `n` bytes grows its block in place by more than `slack` bytes. */
  ghost predicate OutgrowsAt(bs: seq<Block>, p: nat, n: nat, slack: int) {
    exists i: nat :: HoldsAt(bs, i, p) && Outgrows(bs, i, AlignUp(p - bs[i].at + n, ALIGN), slack)
  }

  predicate HoldsAt(bs: seq<Block>, i: nat, p: nat) {
    i < |bs| && bs[i].use.Used? && bs[i].use.ptr == p && bs[i].at <= p
  }

  lemma OneOutgrows(bs: seq<Block>, i: nat, p: nat, n: nat, slack: int)
    requires HoldsAt(bs, i, p) && forall j :: 0 <= j < |bs| && bs[j].use.Used? && bs[j].use.ptr == p ==> j == i
    ensures OutgrowsAt(bs, p, n, slack) <==> Outgrows(bs, i, AlignUp(p - bs[i].at + n, ALIGN), slack)
  {
    hide AlignUp, Outgrows;
    if j: nat :| HoldsAt(bs, j, p) && Outgrows(bs, j, AlignUp(p - bs[j].at + n, ALIGN), slack) { assert j == i; }
  }

  ghost predicate RoomInPlace(bs: seq<Block>, p: nat, n: nat) { exists i: nat :: RoomAt(bs, i, p, n) }

  lemma Owner(m: seq<byte>, bs: seq<Block>, u: Use) returns (i: nat)
    requires Sound(m, bs) && u in Live(bs)
    ensures i < |bs| && bs[i].use == u && u.Used? && BlockOk(bs[i]) && HasPayload(bs, u.ptr)
    ensures forall j :: 0 <= j < |bs| && bs[j].use.Used? && bs[j].use.ptr == u.ptr ==> j == i
  {
    hide View, Headers, Backs;
    i :| 0 <= i < |bs| && bs[i].use == u;
    forall j | 0 <= j < |bs| && bs[j].use.Used? && bs[j].use.ptr == u.ptr ensures j == i { assert BlockOk(bs[i]) && BlockOk(bs[j]); }
  }

  lemma NewSizeFits(b: Block, n: nat)
    requires BlockOk(b) && b.use.Used? && n > 0 && InRange(n, b.use.align)
    ensures b.at <= b.use.ptr
    ensures var need := AlignUp(b.use.ptr - b.at + n, ALIGN);
            MIN_SPLIT <= need < WORD && UseOk(Block(b.at, need, Used(b.use.ptr, n, b.use.align)))
  {
    hide IsPow2;
    NewSize(b.use.ptr - b.at, n);
  }

  lemma NewSize(offset: nat, n: nat)
    requires offset >= HEADER && n > 0
    ensures AlignUp(offset + n, ALIGN) >= MIN_SPLIT
  {}

  lemma MovedBytes(m: seq<byte>, m': seq<byte>, p: nat, hi: nat, n: nat)
    requires Same(m, m', p, hi) && p + n <= hi && p + n <= |m|
    ensures Moved(m, m', p, p, n)
  {}

  lemma SparedLess(m: seq<byte>, m': seq<byte>, us: set<Use>, less: set<Use>)
    requires Spared(m, m', us) && less <= us
    ensures Spared(m, m', less)
  {}

  lemma EndInside(m: seq<byte>, bs: seq<Block>, u: Use)
    requires Sound(m, bs) && u in Live(bs)
    ensures bs != [] && End(bs) <= |m|
  {
    hide View, Headers, Backs;
  }

  lemma FrontOf(m: seq<byte>, u: Use, n: nat)
    requires u.Used? && u.ptr + u.size <= |m| && n <= u.size
    ensures m[u.ptr..u.ptr + n] == Bytes(m, u)[..n]
  {}

  /** The old payload's bytes reach the new one, and survive the old one's release. */
  lemma MovedOn(m: seq<byte>, m1: seq<byte>, m2: seq<byte>, m': seq<byte>, was: set<Use>,
                bs1: seq<Block>, bs: seq<Block>, u: Use, v: Use, n: nat)
    requires Spared(m, m1, was) && Spared(m1, m2, Live(bs1) - {v}) && Spared(m2, m', Live(bs))
    requires u in was && v !in was && v.Used? && Live(bs1) == was + {v} && Live(bs) == Live(bs1) - {u}
    requires u.Used? && n <= u.size && n <= v.size && Moved(m1, m2, u.ptr, v.ptr, n)
    ensures Spared(m, m', was - {u}) && Moved(m, m', u.ptr, v.ptr, n) && Live(bs) == was - {u} + {v}
  {
    hide Live;
    assert v in Live(bs);
    assert Bytes(m1, u) == Bytes(m, u);
    assert Bytes(m', v) == Bytes(m2, v);
    FrontOf(m', v, n);
    FrontOf(m2, v, n);
    FrontOf(m1, u, n);
    FrontOf(m, u, n);
  }

  function FreeBytes(bs: seq<Block>): nat {
    if bs == [] then 0 else FreeBytes(bs[..|bs| - 1]) + if bs[|bs| - 1].use.Free? then bs[|bs| - 1].size else 0
  }

  function RegionBytes(rs: seq<S.Region>): nat { if rs == [] then 0 else RegionBytes(rs[..|rs| - 1]) + rs[|rs| - 1].len }

  lemma {:induction false} RegionsSpan(rs: seq<S.Region>)
    requires EndToEnd(rs) && rs != []
    ensures RegionBytes(rs) == Edge(rs) - rs[0].base
  {
    if |rs| > 1 {
      var front := rs[..|rs| - 1];
      RegionsSpan(front);
      assert rs[|rs| - 2].base + rs[|rs| - 2].len == rs[|rs| - 1].base;
    } else {
      assert rs[..0] == [];
    }
  }

  lemma {:induction false} BlocksSpan(bs: seq<Block>)
    requires Shaped(bs) && bs != []
    ensures UsedBytes(bs) + FreeBytes(bs) == End(bs) - Head(bs)
  {
    hide UseOk;
    if |bs| > 1 {
      var front := bs[..|bs| - 1];
      assert Shaped(front);
      BlocksSpan(front);
      assert Joined(bs[|bs| - 2], bs[|bs| - 1]);
    } else {
      assert bs[..0] == [];
    }
  }
}
