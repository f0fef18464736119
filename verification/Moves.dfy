/** What each operation of the heap makes of the block list, and that it stands where the old blocks stood. */
module Moves {
  import opened Memory
  import opened Blocks

  // ---------------------------------------------------------------- what each operation makes of the list

  /** A free block taken for a payload: cut to size when what is left can stand on its own. */
  function TakeNew(b: Block, need: nat, use: Use): seq<Block> {
    if b.size >= need + MIN_SPLIT then [Block(b.at, need, use), Block(b.at + need, b.size - need, Free)]
    else [Block(b.at, b.size, use)]
  }

  predicate Fit(b: Block, need: nat) { b.use.Free? && b.size >= need }

  ghost predicate NoFit(bs: seq<Block>, need: nat) { forall l :: 0 <= l < |bs| ==> !Fit(bs[l], need) }

  ghost predicate FirstFit(bs: seq<Block>, need: nat, k: nat) {
    k < |bs| && Fit(bs[k], need) && forall l :: 0 <= l < k ==> !Fit(bs[l], need)
  }

  predicate FreeAt(bs: seq<Block>, i: int) { 0 <= i < |bs| && bs[i].use.Free? }

  function GiveFrom(bs: seq<Block>, i: nat): nat { if FreeAt(bs, i - 1) then i - 1 else i }
  function GiveTo(bs: seq<Block>, i: nat): nat { if FreeAt(bs, i + 1) then i + 2 else i + 1 }

  /** Blocks `i..j` as one free block. */
  function Merged(bs: seq<Block>, i: nat, j: nat): seq<Block>
    requires Shaped(bs) && i < j <= |bs|
  {
    Span(bs, i, j);
    [Block(bs[i].at, bs[j - 1].at + bs[j - 1].size - bs[i].at, Free)]
  }

  /** A block given back, with its free neighbours. */
  function GiveNew(bs: seq<Block>, i: nat): seq<Block>
    requires Shaped(bs) && i < |bs|
  { Merged(bs, GiveFrom(bs, i), GiveTo(bs, i)) }

  /** A block cut down to `keep` bytes; what is cut off joins a free neighbour. */
  function ShrinkNew(bs: seq<Block>, i: nat, keep: nat, use: Use): seq<Block>
    requires Shaped(bs) && i < |bs| && keep <= bs[i].size
  {
    var b, hi := bs[i], GiveTo(bs, i);
    [Block(b.at, keep, use), Block(b.at + keep, bs[hi - 1].at + bs[hi - 1].size - (b.at + keep), Free)]
  }

  predicate CanGrow(bs: seq<Block>, i: nat, need: nat) { i + 1 < |bs| && bs[i + 1].use.Free? && need <= bs[i].size + bs[i + 1].size }

  /** A block grown to `need` bytes into the free block after it. */
  function GrowNew(bs: seq<Block>, i: nat, need: nat, use: Use): seq<Block>
    requires i + 1 < |bs| && need <= bs[i].size + bs[i + 1].size
  {
    var b, total := bs[i], bs[i].size + bs[i + 1].size;
    if total >= need + MIN_SPLIT then [Block(b.at, need, use), Block(b.at + need, total - need, Free)]
    else [Block(b.at, total, use)]
  }

  /** A resize grows the block into its neighbour by more than `slack` bytes. */
  predicate Outgrows(bs: seq<Block>, i: nat, need: nat, slack: int) {
    && i < |bs| && bs[i].size < need && CanGrow(bs, i, need)
    && var total := bs[i].size + bs[i + 1].size; (if total >= need + MIN_SPLIT then need else total) - bs[i].size > slack
  }

  lemma GrownBy(bs: seq<Block>, i: nat, need: nat, use: Use, slack: int)
    requires i < |bs| && bs[i].size < need && CanGrow(bs, i, need)
    ensures Outgrows(bs, i, need, slack) <==> GrowNew(bs, i, need, use)[0].size - bs[i].size > slack
  {}

  // ---------------------------------------------------------------- the size word

  function OrFree(v: nat): nat { if v % 2 == 0 then v + FREE else v }
  function SizeOf(word: nat): nat { word - word % 2 }
  predicate IsFree(word: nat) { word % 2 == 1 }

  lemma FlagsRead(b: Block)
    requires b.size % ALIGN == 0
    ensures SizeOf(Flags(b)) == b.size && (IsFree(Flags(b)) <==> b.use.Free?) && OrFree(b.size) == b.size + FREE
  {
    EvenSize(b.size / ALIGN);
    assert b.size == 16 * (b.size / ALIGN);
  }

  lemma {:induction false} EvenSize(k: nat)
    ensures (16 * k) % 2 == 0 && (16 * k + 1) % 2 == 1
  {
    if k > 0 {
      EvenSize(k - 1);
      TwoMore(16 * (k - 1), 16);
    }
  }

  lemma TwoMore(a: nat, b: nat)
    requires b == 16
    ensures (a + b) % 2 == a % 2 && (a + b + 1) % 2 == (a + 1) % 2
  {}

  // ---------------------------------------------------------------- the new blocks stand where the old ones stood

  lemma OneUsed(b: Block)
    ensures UsedBytes([b]) == (if b.use.Used? then b.size else 0) && UsedCount([b]) == (if b.use.Used? then 1 else 0)
    ensures Live([b]) == (if b.use.Used? then {b.use} else {})
  {
    assert [b][..0] == [];
    assert [b][0] == b;
  }

  lemma UsedThenFree(b: Block, c: Block)
    requires b.use.Used? && c.use.Free?
    ensures UsedBytes([b, c]) == b.size && UsedCount([b, c]) == 1 && Live([b, c]) == {b.use}
  {
    assert [b, c] == [b] + [c];
    UsedConcat([b], [c]);
    LiveConcat([b], [c]);
    OneUsed(b);
    OneUsed(c);
  }

  lemma Sums(a: nat, b: nat)
    requires a % ALIGN == 0 && b % ALIGN == 0
    ensures (a + b) % ALIGN == 0 && (a >= b ==> (a - b) % ALIGN == 0)
  {}

  lemma CutOk(at: nat, size: nat, need: nat, use: Use)
    requires at > 0 && at % ALIGN == 0 && size % ALIGN == 0 && need % ALIGN == 0 && MIN_SPLIT <= need && need + MIN_SPLIT <= size
    requires UseOk(Block(at, need, use)) && use.Used?
    ensures Shaped([Block(at, need, use), Block(at + need, size - need, Free)])
  {
    Sums(at, need);
    Sums(size, need);
  }

  lemma TakeRest(bs: seq<Block>, k: nat, need: nat)
    requires Shaped(bs) && k < |bs| && need % ALIGN == 0 && need <= bs[k].size
    ensures (bs[k].size - need) % ALIGN == 0 && (k + 1 < |bs| ==> bs[k + 1].at == bs[k].at + bs[k].size)
  {
    assert BlockOk(bs[k]);
    Sums(bs[k].size, need);
    assert k + 1 < |bs| ==> Joined(bs[k], bs[k + 1]);
  }

  lemma TakeCovers(bs: seq<Block>, k: nat, need: nat, use: Use)
    requires Shaped(bs) && k < |bs| && bs[k].use.Free? && MIN_SPLIT <= need <= bs[k].size && need % ALIGN == 0
    requires use.Used? && UseOk(Block(bs[k].at, need, use))
    ensures var new' := TakeNew(bs[k], need, use);
            && Covers(bs, k, k + 1, new') && End(new') == bs[k].at + bs[k].size
            && UsedBytes(new') == new'[0].size && UsedCount(new') == 1 && Live(new') == {use}
            && UsedBytes(bs[k..k + 1]) == 0 && UsedCount(bs[k..k + 1]) == 0 && Live(bs[k..k + 1]) == {}
  {
    var b := bs[k];
    assert BlockOk(b);
    assert bs[k..k + 1] == [b];
    OneUsed(b);
    OneUsed(Block(b.at, b.size, use));
    if b.size >= need + MIN_SPLIT {
      CutOk(b.at, b.size, need, use);
      UsedThenFree(Block(b.at, need, use), Block(b.at + need, b.size - need, Free));
    }
    assert k + 1 < |bs| ==> Joined(bs[k], bs[k + 1]);
  }

  lemma GiveBounds(bs: seq<Block>, i: nat)
    requires Shaped(bs) && i < |bs|
    ensures var lo, hi := GiveFrom(bs, i), GiveTo(bs, i);
            && lo <= i < hi <= |bs| && bs[lo].at <= bs[i].at && bs[i].at + bs[i].size <= bs[hi - 1].at + bs[hi - 1].size
            && (hi < |bs| ==> bs[hi].at == bs[hi - 1].at + bs[hi - 1].size)
            && (bs[i].use.Used? && lo > 0 ==> bs[lo - 1].use.Used?) && (bs[i].use.Used? && hi < |bs| ==> bs[hi].use.Used?)
  {
    var lo, hi := GiveFrom(bs, i), GiveTo(bs, i);
    assert lo < i ==> bs[lo].at + bs[lo].size <= bs[i].at;
    assert i < hi - 1 ==> bs[i].at + bs[i].size <= bs[hi - 1].at;
    assert lo > 0 ==> Joined(bs[lo - 1], bs[lo]);
    assert hi < |bs| ==> Joined(bs[hi - 1], bs[hi]);
  }

  lemma {:induction false} UsedAmongFree(bs: seq<Block>, k: nat)
    requires k < |bs| && bs[k].use.Used? && forall l :: 0 <= l < |bs| && l != k ==> bs[l].use.Free?
    ensures UsedBytes(bs) == bs[k].size && UsedCount(bs) == 1 && Live(bs) == {bs[k].use}
  {
    var a, b, c := bs[..k], [bs[k]], bs[k + 1..];
    assert bs == a + b + c;
    FreeOnly(a);
    FreeOnly(c);
    OneUsed(bs[k]);
    UsedConcat(a, b);
    UsedConcat(a + b, c);
    LiveConcat(a, b);
    LiveConcat(a + b, c);
  }

  lemma {:induction false} FreeOnly(bs: seq<Block>)
    requires forall l :: 0 <= l < |bs| ==> bs[l].use.Free?
    ensures UsedBytes(bs) == 0 && UsedCount(bs) == 0 && Live(bs) == {}
  {
    if bs != [] { FreeOnly(bs[..|bs| - 1]); }
  }

  lemma Span(bs: seq<Block>, lo: nat, hi: nat)
    requires Shaped(bs) && lo < hi <= |bs|
    ensures var n := bs[hi - 1].at + bs[hi - 1].size - bs[lo].at; n >= bs[lo].size && n % ALIGN == 0 && BlockOk(Block(bs[lo].at, n, Free))
  {
    assert BlockOk(bs[lo]) && BlockOk(bs[hi - 1]);
    assert lo < hi - 1 ==> bs[lo].at + bs[lo].size <= bs[hi - 1].at;
    Sums(bs[hi - 1].at, bs[hi - 1].size);
    Sums(bs[hi - 1].at + bs[hi - 1].size, bs[lo].at);
  }

  lemma GivenUsed(bs: seq<Block>, lo: nat, i: nat, hi: nat)
    requires i < |bs| && bs[i].use.Used? && (lo == i || lo == GiveFrom(bs, i)) && hi == GiveTo(bs, i)
    ensures lo <= i < hi <= |bs|
    ensures UsedBytes(bs[lo..hi]) == bs[i].size && UsedCount(bs[lo..hi]) == 1 && Live(bs[lo..hi]) == {bs[i].use}
  {
    UsedAmongFree(bs[lo..hi], i - lo);
  }

  lemma GiveCovers(bs: seq<Block>, i: nat)
    requires Shaped(bs) && i < |bs| && bs[i].use.Used?
    ensures var lo, hi, new' := GiveFrom(bs, i), GiveTo(bs, i), GiveNew(bs, i);
            && lo <= i < hi <= |bs| && Covers(bs, lo, hi, new') && End(new') == bs[hi - 1].at + bs[hi - 1].size
            && UsedBytes(new') == 0 && UsedCount(new') == 0 && Live(new') == {}
  {
    var lo, hi, new' := GiveFrom(bs, i), GiveTo(bs, i), GiveNew(bs, i);
    GiveBounds(bs, i);
    Span(bs, lo, hi);
    OneUsed(new'[0]);
  }

  lemma ShrinkCovers(bs: seq<Block>, i: nat, keep: nat, use: Use)
    requires Shaped(bs) && i < |bs| && bs[i].use.Used? && MIN_SPLIT <= keep && keep + MIN_SPLIT <= bs[i].size && keep % ALIGN == 0
    requires use.Used? && UseOk(Block(bs[i].at, keep, use))
    ensures var hi, new' := GiveTo(bs, i), ShrinkNew(bs, i, keep, use);
            && i < hi <= |bs| && Covers(bs, i, hi, new') && End(new') == bs[hi - 1].at + bs[hi - 1].size
            && UsedBytes(new') == keep && UsedCount(new') == 1 && Live(new') == {use}
  {
    var hi, new' := GiveTo(bs, i), ShrinkNew(bs, i, keep, use);
    GiveBounds(bs, i);
    Span(bs, i, hi);
    CutOk(bs[i].at, bs[hi - 1].at + bs[hi - 1].size - bs[i].at, keep, use);
    UsedThenFree(new'[0], new'[1]);
  }

  lemma GrowCovers(bs: seq<Block>, i: nat, need: nat, use: Use)
    requires Shaped(bs) && i + 1 < |bs| && bs[i].use.Used? && bs[i + 1].use.Free?
    requires MIN_SPLIT <= need <= bs[i].size + bs[i + 1].size && need % ALIGN == 0
    requires use.Used? && UseOk(Block(bs[i].at, need, use))
    ensures var new' := GrowNew(bs, i, need, use);
            && Covers(bs, i, i + 2, new') && End(new') == bs[i + 1].at + bs[i + 1].size
            && UsedBytes(new') == new'[0].size && UsedCount(new') == 1 && Live(new') == {use}
            && UsedBytes(bs[i..i + 2]) == bs[i].size && UsedCount(bs[i..i + 2]) == 1 && Live(bs[i..i + 2]) == {bs[i].use}
  {
    var new', total := GrowNew(bs, i, need, use), bs[i].size + bs[i + 1].size;
    assert BlockOk(bs[i]) && BlockOk(bs[i + 1]) && Joined(bs[i], bs[i + 1]);
    Sums(bs[i].size, bs[i + 1].size);
    if total >= need + MIN_SPLIT {
      CutOk(bs[i].at, total, need, use);
      UsedThenFree(new'[0], new'[1]);
    } else {
      OneUsed(new'[0]);
    }
    UsedAmongFree(bs[i..i + 2], 0);
    assert i > 0 ==> Joined(bs[i - 1], bs[i]);
    assert i + 2 < |bs| ==> Joined(bs[i + 1], bs[i + 2]);
  }

  lemma ResizeCovers(bs: seq<Block>, i: nat, use: Use)
    requires Shaped(bs) && i < |bs| && bs[i].use.Used? && use.Used? && UseOk(Block(bs[i].at, bs[i].size, use))
    ensures var new' := [Block(bs[i].at, bs[i].size, use)];
            && Covers(bs, i, i + 1, new') && End(new') == bs[i].at + bs[i].size
            && UsedBytes(new') == bs[i].size && UsedCount(new') == 1 && Live(new') == {use}
            && UsedBytes(bs[i..i + 1]) == bs[i].size && UsedCount(bs[i..i + 1]) == 1 && Live(bs[i..i + 1]) == {bs[i].use}
  {
    assert BlockOk(bs[i]);
    OneUsed(Block(bs[i].at, bs[i].size, use));
    assert bs[i..i + 1] == [bs[i]];
    OneUsed(bs[i]);
    assert i > 0 ==> Joined(bs[i - 1], bs[i]);
    assert i + 1 < |bs| ==> Joined(bs[i], bs[i + 1]);
  }
}
