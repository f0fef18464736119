/**
The allocator's view of memory as a list of blocks, and what its headers say in memory.

The list is the specification: each operation of the heap replaces a run of neighbouring blocks by new
ones that cover the same ground. `Shaped` is what every such list keeps; `Headers` and `Backs` say that the
bytes in memory describe it.
*/
module Blocks {
  import opened Wrappers
  import opened Memory

  const ALIGN: nat := 16
  const HEADER: nat := 32
  const MIN_SPLIT: nat := 48
  const BACK: nat := 8
  const FREE: nat := 1

  /** A block in use holds one payload of `size` bytes at `ptr`. */
  datatype Use = Free | Used(ptr: nat, size: nat, align: nat)
  datatype Block = Block(at: nat, size: nat, use: Use)

  predicate IsPow2(n: nat) { n == 1 || (n > 1 && n % 2 == 0 && IsPow2(n / 2)) }

  /** `(v + to - 1) & !(to - 1)` for `to` a power of two. */
  function AlignUp(v: nat, to: nat): (r: nat)
    requires to > 0
    ensures v <= r < v + to && r % to == 0
  {
    Rounding(v, to);
    (v + to - 1) / to * to
  }

  lemma Rounding(v: nat, to: nat)
    requires to > 0
    ensures var r := (v + to - 1) / to * to; v <= r < v + to && r % to == 0
  {
    var q := (v + to - 1) / to;
    assert v + to - 1 == q * to + (v + to - 1) % to;
    MultipleMod(q, to);
  }

  lemma MultipleMod(q: nat, to: nat)
    requires to > 0
    ensures q * to % to == 0
  {
    var x := q * to;
    var d := q - x / to;
    assert x == x / to * to + x % to;
    assert d * to == x % to by { assert d * to == q * to - x / to * to; }
    assert d >= 1 ==> d * to >= to;
    assert d <= -1 ==> d * to + to <= 0;
  }

  lemma {:induction false} Pow2Multiple(n: nat)
    requires IsPow2(n) && n >= ALIGN
    ensures n % ALIGN == 0
  {
    if n >= 2 * ALIGN { Pow2Multiple(n / 2); }
    else { Pow2Below32(n); }
  }

  lemma Pow2Below32(n: nat)
    requires IsPow2(n) && ALIGN <= n < 2 * ALIGN
    ensures n == ALIGN
  {
    assert IsPow2(n / 2) && IsPow2(n / 2 / 2) && IsPow2(n / 2 / 2 / 2);
  }

  /** A multiple of a power of two that is at least 16 is a multiple of 16. */
  lemma AlignedTo16(x: nat, n: nat)
    requires IsPow2(n) && n >= ALIGN && x % n == 0
    ensures x % ALIGN == 0
  {
    Pow2Multiple(n);
    var k, q := n / ALIGN, x / n;
    assert x == q * n && n == k * ALIGN;
    assert x == (q * k) * ALIGN by { assert q * (k * ALIGN) == (q * k) * ALIGN; }
    MultipleMod(q * k, ALIGN);
  }

  /** Where a block at `at` puts a payload with this alignment. */
  function Payload(at: nat, align: nat): nat
    requires align > 0
  { AlignUp(at + HEADER, align) }

  /** The block size a request needs. */
  function BlockFor(size: nat, align: nat): (r: nat)
    requires align > 0
    ensures r % ALIGN == 0 && size + HEADER + (align - 1) <= r < size + HEADER + (align - 1) + ALIGN
  { AlignUp(size + HEADER + (align - 1), ALIGN) }

  // ---------------------------------------------------------------- lists of blocks

  predicate UseOk(b: Block) {
    b.use.Used? ==>
      && b.use.size >= 1 && b.use.align >= ALIGN && IsPow2(b.use.align)
      && b.use.ptr % b.use.align == 0 && b.use.ptr % ALIGN == 0
      && b.at + HEADER <= b.use.ptr < b.at + HEADER + b.use.align
      && b.use.ptr + b.use.size <= b.at + b.size
  }

  predicate BlockOk(b: Block) { b.at > 0 && b.at % ALIGN == 0 && b.size % ALIGN == 0 && b.size >= MIN_SPLIT && UseOk(b) }

  predicate Joined(a: Block, b: Block) { a.at + a.size == b.at && (a.use.Used? || b.use.Used?) }

  /** In address order, end to end, and no free block next to another. */
  ghost predicate Shaped(bs: seq<Block>) {
    && (forall i :: 0 <= i < |bs| ==> BlockOk(bs[i]))
    && (forall i, j :: 0 <= i < j < |bs| ==> bs[i].at + bs[i].size <= bs[j].at)
    && (forall i, j :: 0 <= i < j < |bs| && j == i + 1 ==> Joined(bs[i], bs[j]))
  }

  function End(bs: seq<Block>): nat
    requires bs != []
  { bs[|bs| - 1].at + bs[|bs| - 1].size }

  function NextAt(bs: seq<Block>, i: nat): nat { if i + 1 < |bs| then bs[i + 1].at else 0 }
  function PrevAt(bs: seq<Block>, i: nat): nat { if 0 < i <= |bs| then bs[i - 1].at else 0 }
  function Head(bs: seq<Block>): nat { if bs == [] then 0 else bs[0].at }

  function Flags(b: Block): nat { b.size + (if b.use.Free? then FREE else 0) }

  function UsedBytes(bs: seq<Block>): nat {
    if bs == [] then 0 else UsedBytes(bs[..|bs| - 1]) + (if bs[|bs| - 1].use.Used? then bs[|bs| - 1].size else 0)
  }

  function UsedCount(bs: seq<Block>): nat {
    if bs == [] then 0 else UsedCount(bs[..|bs| - 1]) + (if bs[|bs| - 1].use.Used? then 1 else 0)
  }

  /** Blocks `i..j` give way to `new`. */
  function Splice(bs: seq<Block>, i: nat, j: nat, new': seq<Block>): seq<Block>
    requires i <= j <= |bs|
  { bs[..i] + new' + bs[j..] }

  /** The new blocks stand where the old ones stood; at the end of the list they may reach further. */
  ghost predicate Covers(bs: seq<Block>, i: nat, j: nat, new': seq<Block>) {
    && i < j <= |bs| && new' != [] && Shaped(new')
    && new'[0].at == bs[i].at && (j < |bs| ==> End(new') == bs[j].at)
    && (i > 0 && bs[i - 1].use.Free? ==> new'[0].use.Used?)
    && (j < |bs| && bs[j].use.Free? ==> new'[|new'| - 1].use.Used?)
  }

  lemma SpliceAt(bs: seq<Block>, i: nat, j: nat, new': seq<Block>, k: nat)
    requires i <= j <= |bs| && k < |Splice(bs, i, j, new')|
    ensures Splice(bs, i, j, new')[k] == if k < i then bs[k] else if k < i + |new'| then new'[k - i] else bs[k - i - |new'| + j]
  {}

  lemma SpliceOrder(bs: seq<Block>, i: nat, j: nat, new': seq<Block>, k: nat, l: nat)
    requires Shaped(bs) && Covers(bs, i, j, new') && k < l < |Splice(bs, i, j, new')|
    ensures Splice(bs, i, j, new')[k].at + Splice(bs, i, j, new')[k].size <= Splice(bs, i, j, new')[l].at
  {
    SpliceAt(bs, i, j, new', k);
    SpliceAt(bs, i, j, new', l);
    FirstAndLast(new', if i <= l < i + |new'| then l - i else 0);
    FirstAndLast(new', if i <= k < i + |new'| then k - i else 0);
  }

  lemma FirstAndLast(bs: seq<Block>, k: nat)
    requires Shaped(bs) && k < |bs|
    ensures bs[0].at <= bs[k].at && bs[k].at + bs[k].size <= End(bs)
  {}

  lemma SpliceJoint(bs: seq<Block>, i: nat, j: nat, new': seq<Block>, k: nat)
    requires Shaped(bs) && Covers(bs, i, j, new') && k < |Splice(bs, i, j, new')|
    ensures var r := Splice(bs, i, j, new');
            BlockOk(r[k]) && (k + 1 < |r| ==> Joined(r[k], r[k + 1]))
  {
    SpliceAt(bs, i, j, new', k);
    if k + 1 < |Splice(bs, i, j, new')| { SpliceAt(bs, i, j, new', k + 1); }
  }

  /** Replacing neighbours by blocks over the same ground keeps the list in shape. */
  lemma SpliceShaped(bs: seq<Block>, i: nat, j: nat, new': seq<Block>)
    requires Shaped(bs) && Covers(bs, i, j, new')
    ensures Shaped(Splice(bs, i, j, new')) && Head(Splice(bs, i, j, new')) == Head(bs)
    ensures End(Splice(bs, i, j, new')) == if j < |bs| then End(bs) else End(new')
  {
    var r := Splice(bs, i, j, new');
    forall k, l | 0 <= k < l < |r| ensures r[k].at + r[k].size <= r[l].at { SpliceOrder(bs, i, j, new', k, l); }
    forall k | 0 <= k < |r| ensures BlockOk(r[k]) { SpliceJoint(bs, i, j, new', k); }
    forall k, l | 0 <= k < l < |r| && l == k + 1 ensures Joined(r[k], r[l]) { SpliceJoint(bs, i, j, new', k); }
  }

  lemma {:induction false} UsedConcat(a: seq<Block>, b: seq<Block>)
    ensures UsedBytes(a + b) == UsedBytes(a) + UsedBytes(b) && UsedCount(a + b) == UsedCount(a) + UsedCount(b)
  {
    if b == [] { assert a + b == a; }
    else {
      UsedConcat(a, b[..|b| - 1]);
      assert (a + b)[..|a + b| - 1] == a + b[..|b| - 1];
    }
  }

  lemma SpliceUsed(bs: seq<Block>, i: nat, j: nat, new': seq<Block>)
    requires i <= j <= |bs|
    ensures UsedBytes(Splice(bs, i, j, new')) == UsedBytes(bs) - UsedBytes(bs[i..j]) + UsedBytes(new')
    ensures UsedCount(Splice(bs, i, j, new')) == UsedCount(bs) - UsedCount(bs[i..j]) + UsedCount(new')
  {
    UsedConcat(bs[..i], new');
    UsedConcat(bs[..i] + new', bs[j..]);
    assert bs == bs[..i] + bs[i..j] + bs[j..];
    UsedConcat(bs[..i], bs[i..j]);
    UsedConcat(bs[..i] + bs[i..j], bs[j..]);
  }

  lemma {:induction false} NoneUsed(bs: seq<Block>)
    ensures UsedCount(bs) == 0 <==> forall i :: 0 <= i < |bs| ==> bs[i].use.Free?
  {
    if bs != [] {
      NoneUsed(bs[..|bs| - 1]);
      assert forall i :: 0 <= i < |bs| - 1 ==> bs[..|bs| - 1][i] == bs[i];
    }
  }

  /** Freeing everything leaves one free block over the whole ground. */
  lemma AllFreeIsOne(bs: seq<Block>)
    requires Shaped(bs) && bs != [] && UsedCount(bs) == 0
    ensures bs == [Block(Head(bs), End(bs) - Head(bs), Free)]
  {
    NoneUsed(bs);
    assert |bs| > 1 ==> Joined(bs[0], bs[1]);
  }

  // ---------------------------------------------------------------- what memory says

  /** The first three words of a header. */
  predicate HeaderOk(w: Words, b: Block, next: nat, prev: nat) {
    w(b.at) == Flags(b) && w(b.at + 8) == next && w(b.at + 16) == prev
  }

  predicate HeaderAt(w: Words, bs: seq<Block>, i: nat)
    requires i < |bs|
  { HeaderOk(w, bs[i], NextAt(bs, i), PrevAt(bs, i)) }

  ghost predicate Headers(w: Words, bs: seq<Block>) {
    forall i :: 0 <= i < |bs| ==> HeaderAt(w, bs, i)
  }

  /** The word below a payload is the distance back to its header. */
  predicate BackOk(w: Words, b: Block) {
    b.use.Used? ==> BACK <= b.use.ptr && b.at <= b.use.ptr && w(b.use.ptr - BACK) == b.use.ptr - b.at
  }

  ghost predicate Backs(w: Words, bs: seq<Block>) {
    forall i :: 0 <= i < |bs| ==> BackOk(w, bs[i])
  }

  /** A block clear of the ground that was rewritten: the stray word is outside it, or is its back link. */
  predicate Clear(b: Block, lo: nat, hi: nat, x: nat) {
    && HEADER <= b.size
    && (b.at + b.size <= lo || hi <= b.at)
    && (x + 8 <= b.at || b.at + b.size <= x || x == b.at + 16)
  }

  lemma HeaderFrame(w: Words, w': Words, lo: nat, hi: nat, x: nat, b: Block, next: nat, prev: nat)
    requires HeaderOk(w, b, next, prev) && Kept(w, w', lo, hi, x) && Clear(b, lo, hi, x)
    ensures HeaderOk(w', b, next, if x == b.at + 16 then w'(x) else prev)
  {}

  lemma BackFrame(w: Words, w': Words, lo: nat, hi: nat, x: nat, b: Block)
    requires BackOk(w, b) && UseOk(b) && Kept(w, w', lo, hi, x) && Clear(b, lo, hi, x)
    ensures BackOk(w', b)
  {}

  // ---------------------------------------------------------------- rewriting a run of blocks

  function NewNext(bs: seq<Block>, j: nat, new': seq<Block>, k: nat): nat {
    if k + 1 < |new'| then new'[k + 1].at else if j < |bs| then bs[j].at else 0
  }

  function NewPrev(bs: seq<Block>, i: nat, new': seq<Block>, k: nat): nat {
    if 0 < k <= |new'| then new'[k - 1].at else PrevAt(bs, i)
  }

  predicate NewHeader(w: Words, bs: seq<Block>, i: nat, j: nat, new': seq<Block>, k: nat)
    requires k < |new'|
  { HeaderOk(w, new'[k], NewNext(bs, j, new', k), NewPrev(bs, i, new', k)) }

  /** The back link of the block after the rewritten run, or a word inside the run when there is none. */
  function LinkAfter(bs: seq<Block>, i: nat, j: nat): nat
    requires i < |bs|
  { if j < |bs| then bs[j].at + 16 else bs[i].at }

  /** The headers of `new'` are in place of blocks `i..j`; nothing else was written but the next block's back link. */
  ghost predicate Laid(m: seq<byte>, m': seq<byte>, bs: seq<Block>, i: nat, j: nat, new': seq<Block>) {
    && i < j <= |bs| && new' != []
    && Confined(m, m', bs[i].at, End(new'), LinkAfter(bs, i, j))
    && (forall k :: 0 <= k < |new'| ==> NewHeader(View(m'), bs, i, j, new', k))
    && (j < |bs| ==> View(m')(bs[j].at + 16) == new'[|new'| - 1].at)
  }

  /** The same on words, with the back words of `new'` in place as well. */
  ghost predicate Rewritten(w: Words, w': Words, bs: seq<Block>, i: nat, j: nat, new': seq<Block>) {
    && Covers(bs, i, j, new')
    && Kept(w, w', bs[i].at, End(new'), LinkAfter(bs, i, j))
    && (forall k :: 0 <= k < |new'| ==> NewHeader(w', bs, i, j, new', k))
    && (forall k :: 0 <= k < |new'| ==> BackOk(w', new'[k]))
    && (j < |bs| ==> w'(bs[j].at + 16) == new'[|new'| - 1].at)
  }

  lemma AllClear(bs: seq<Block>, i: nat, j: nat, hi: nat, l: nat)
    requires Shaped(bs) && i < j <= |bs| && l < |bs| && !(i <= l < j) && (j < |bs| ==> hi == bs[j].at)
    ensures Clear(bs[l], bs[i].at, hi, LinkAfter(bs, i, j))
    ensures LinkAfter(bs, i, j) == bs[l].at + 16 <==> l == j
  {
    assert BlockOk(bs[l]) && BlockOk(bs[i]) && BlockOk(bs[j - 1]);
    if l < i { assert bs[l].at + bs[l].size <= bs[i].at; }
    if l >= j { assert bs[i].at + bs[i].size <= bs[l].at; }
    if j < |bs| { assert BlockOk(bs[j]); }
    if l < j < |bs| { assert bs[l].at + bs[l].size <= bs[j].at; }
    if j < l { assert bs[j].at + bs[j].size <= bs[l].at; }
  }

  lemma KeptHeader(w: Words, w': Words, bs: seq<Block>, i: nat, j: nat, new': seq<Block>, l: nat)
    requires Shaped(bs) && Headers(w, bs) && Rewritten(w, w', bs, i, j, new') && l < |bs| && !(i <= l < j)
    ensures HeaderOk(w', bs[l], NextAt(bs, l), if l == j then new'[|new'| - 1].at else PrevAt(bs, l))
  {
    AllClear(bs, i, j, End(new'), l);
    assert HeaderAt(w, bs, l);
    HeaderFrame(w, w', bs[i].at, End(new'), LinkAfter(bs, i, j), bs[l], NextAt(bs, l), PrevAt(bs, l));
  }

  /** The neighbours of a block in the new list. */
  lemma SpliceLinks(bs: seq<Block>, i: nat, j: nat, new': seq<Block>, k: nat)
    requires i < j <= |bs| && new' != [] && k < |Splice(bs, i, j, new')| && (i > 0 ==> new'[0].at == bs[i].at)
    ensures var r, l := Splice(bs, i, j, new'), k - i - |new'| + j;
            && (k < i ==> r[k] == bs[k] && NextAt(r, k) == NextAt(bs, k) && PrevAt(r, k) == PrevAt(bs, k))
            && (i <= k < i + |new'| ==> r[k] == new'[k - i] && NextAt(r, k) == NewNext(bs, j, new', k - i) && PrevAt(r, k) == NewPrev(bs, i, new', k - i))
            && (i + |new'| <= k ==> r[k] == bs[l] && NextAt(r, k) == NextAt(bs, l) && PrevAt(r, k) == if l == j then new'[|new'| - 1].at else PrevAt(bs, l))
  {
    SpliceAt(bs, i, j, new', k);
    if k > 0 { SpliceAt(bs, i, j, new', k - 1); }
    if k + 1 < |Splice(bs, i, j, new')| { SpliceAt(bs, i, j, new', k + 1); }
  }

  lemma RewrittenHeader(w: Words, w': Words, bs: seq<Block>, i: nat, j: nat, new': seq<Block>, k: nat)
    requires Shaped(bs) && Headers(w, bs) && Rewritten(w, w', bs, i, j, new') && k < |Splice(bs, i, j, new')|
    ensures HeaderAt(w', Splice(bs, i, j, new'), k)
  {
    SpliceLinks(bs, i, j, new', k);
    if k < i { KeptHeader(w, w', bs, i, j, new', k); }
    else if k < i + |new'| { assert NewHeader(w', bs, i, j, new', k - i); }
    else { KeptHeader(w, w', bs, i, j, new', k - i - |new'| + j); }
  }

  lemma RewrittenBack(w: Words, w': Words, bs: seq<Block>, i: nat, j: nat, new': seq<Block>, k: nat)
    requires Shaped(bs) && Backs(w, bs) && Rewritten(w, w', bs, i, j, new') && k < |Splice(bs, i, j, new')|
    ensures BackOk(w', Splice(bs, i, j, new')[k])
  {
    SpliceAt(bs, i, j, new', k);
    if !(i <= k < i + |new'|) {
      var l := if k < i then k else k - i - |new'| + j;
      AllClear(bs, i, j, End(new'), l);
      BackFrame(w, w', bs[i].at, End(new'), LinkAfter(bs, i, j), bs[l]);
    }
  }

  /** After a rewrite, memory describes the new list. */
  lemma RewriteKeeps(w: Words, w': Words, bs: seq<Block>, i: nat, j: nat, new': seq<Block>)
    requires Shaped(bs) && Headers(w, bs) && Backs(w, bs) && Rewritten(w, w', bs, i, j, new')
    ensures Shaped(Splice(bs, i, j, new')) && Headers(w', Splice(bs, i, j, new')) && Backs(w', Splice(bs, i, j, new'))
    ensures Head(Splice(bs, i, j, new')) == Head(bs) && End(Splice(bs, i, j, new')) == if j < |bs| then End(bs) else End(new')
  {
    var r := Splice(bs, i, j, new');
    SpliceShaped(bs, i, j, new');
    forall k | 0 <= k < |r| ensures HeaderAt(w', r, k) { RewrittenHeader(w, w', bs, i, j, new', k); }
    forall k | 0 <= k < |r| ensures BackOk(w', r[k]) { RewrittenBack(w, w', bs, i, j, new', k); }
  }

  // ---------------------------------------------------------------- live payloads

  /** The payloads handed out. */
  function Live(bs: seq<Block>): set<Use> { set i | 0 <= i < |bs| && bs[i].use.Used? :: bs[i].use }

  lemma LiveConcat(a: seq<Block>, b: seq<Block>)
    ensures Live(a + b) == Live(a) + Live(b)
  {
    assert forall i :: 0 <= i < |a| ==> (a + b)[i] == a[i];
    assert forall i :: 0 <= i < |b| ==> (a + b)[|a| + i] == b[i];
  }

  lemma SpliceLive(bs: seq<Block>, i: nat, j: nat, new': seq<Block>)
    requires i <= j <= |bs|
    ensures Live(Splice(bs, i, j, new')) == Live(bs[..i]) + Live(new') + Live(bs[j..])
    ensures Live(bs) == Live(bs[..i]) + Live(bs[i..j]) + Live(bs[j..])
  {
    LiveConcat(bs[..i], new');
    LiveConcat(bs[..i] + new', bs[j..]);
    assert bs == bs[..i] + bs[i..j] + bs[j..];
    LiveConcat(bs[..i], bs[i..j]);
    LiveConcat(bs[..i] + bs[i..j], bs[j..]);
  }

  /** Live payloads lie in memory, aligned as asked, and share no byte. */
  lemma PayloadsApart(bs: seq<Block>, u: Use, v: Use)
    requires Shaped(bs) && u in Live(bs) && v in Live(bs)
    ensures u.Used? && v.Used?
    ensures u.ptr % u.align == 0 && u.size >= 1 && Head(bs) < u.ptr && u.ptr + u.size <= End(bs)
    ensures u == v || u.ptr + u.size <= v.ptr || v.ptr + v.size <= u.ptr
  {
    var i :| 0 <= i < |bs| && bs[i].use == u;
    var j :| 0 <= j < |bs| && bs[j].use == v;
    FirstAndLast(bs, i);
    assert BlockOk(bs[i]) && BlockOk(bs[j]);
  }

  /** A payload belongs to one block only. */
  lemma OneOwner(bs: seq<Block>, i: nat, j: nat, k: nat)
    requires Shaped(bs) && i <= k < j <= |bs| && bs[k].use.Used?
    ensures bs[k].use !in Live(bs[..i]) + Live(bs[j..])
  {
    assert BlockOk(bs[k]);
    forall l | 0 <= l < |bs| && l != k && bs[l].use.Used? ensures bs[l].use != bs[k].use { assert BlockOk(bs[l]); }
  }

  /** A payload put inside a free block is none of those handed out before. */
  lemma NewPayload(bs: seq<Block>, k: nat, need: nat, use: Use)
    requires Shaped(bs) && k < |bs| && bs[k].use.Free? && need <= bs[k].size && use.Used? && UseOk(Block(bs[k].at, need, use))
    ensures use !in Live(bs)
  {
    forall l | 0 <= l < |bs| && bs[l].use.Used? ensures bs[l].use != use { assert BlockOk(bs[l]); }
  }

  function Bytes(m: seq<byte>, u: Use): seq<byte>
    requires u.Used? && u.ptr + u.size <= |m|
  { m[u.ptr..u.ptr + u.size] }

  /** These payloads are byte for byte as they were. */
  ghost predicate Spared(m: seq<byte>, m': seq<byte>, us: set<Use>) {
    |m'| == |m| && forall u :: u in us ==> u.Used? && u.ptr + u.size <= |m| && Bytes(m', u) == Bytes(m, u)
  }

  lemma SparedAt(m: seq<byte>, m': seq<byte>, bs: seq<Block>, i: nat, j: nat, hi: nat, l: nat)
    requires Shaped(bs) && i < j <= |bs| && End(bs) <= |m| && (j < |bs| ==> hi == bs[j].at)
    requires Confined(m, m', bs[i].at, hi, LinkAfter(bs, i, j)) && l < |bs| && !(i <= l < j) && bs[l].use.Used?
    ensures bs[l].use.ptr + bs[l].use.size <= |m| && Bytes(m', bs[l].use) == Bytes(m, bs[l].use)
  {
    AllClear(bs, i, j, hi, l);
    FirstAndLast(bs, l);
    assert BlockOk(bs[l]);
  }

  /** No header, link or back word written during a rewrite lands in a payload outside it. */
  lemma RewriteSpares(m: seq<byte>, m': seq<byte>, bs: seq<Block>, i: nat, j: nat, hi: nat)
    requires Shaped(bs) && i < j <= |bs| && End(bs) <= |m| && (j < |bs| ==> hi == bs[j].at)
    requires Confined(m, m', bs[i].at, hi, LinkAfter(bs, i, j))
    ensures Spared(m, m', Live(bs[..i]) + Live(bs[j..]))
  {
    forall u | u in Live(bs[..i]) + Live(bs[j..]) ensures u.Used? && u.ptr + u.size <= |m| && Bytes(m', u) == Bytes(m, u) {
      var l :| 0 <= l < |bs| && !(i <= l < j) && bs[l].use == u;
      SparedAt(m, m', bs, i, j, hi, l);
    }
  }

  /** What holds between any two calls on the heap. */
  ghost predicate Sound(m: seq<byte>, bs: seq<Block>) {
    Shaped(bs) && Headers(View(m), bs) && Backs(View(m), bs) && (bs != [] ==> End(bs) <= |m|)
  }

  /** Once headers and back words are in place the new list stands, and no other payload has changed. */
  lemma Commit(m: seq<byte>, m': seq<byte>, bs: seq<Block>, i: nat, j: nat, new': seq<Block>)
    requires Sound(m, bs) && Covers(bs, i, j, new') && Laid(m, m', bs, i, j, new') && End(new') <= |m|
    requires forall k :: 0 <= k < |new'| ==> BackOk(View(m'), new'[k])
    ensures var r := Splice(bs, i, j, new');
            && r != [] && Sound(m', r) && Head(r) == Head(bs) && End(r) == (if j < |bs| then End(bs) else End(new'))
            && UsedBytes(r) == UsedBytes(bs) - UsedBytes(bs[i..j]) + UsedBytes(new')
            && UsedCount(r) == UsedCount(bs) - UsedCount(bs[i..j]) + UsedCount(new')
            && Live(bs) == Live(bs[..i]) + Live(bs[i..j]) + Live(bs[j..])
            && Live(r) == Live(bs[..i]) + Live(new') + Live(bs[j..])
            && Spared(m, m', Live(bs[..i]) + Live(bs[j..]))
  {
    ConfinedWords(m, m', bs[i].at, End(new'), LinkAfter(bs, i, j));
    RewriteKeeps(View(m), View(m'), bs, i, j, new');
    SpliceUsed(bs, i, j, new');
    SpliceLive(bs, i, j, new');
    RewriteSpares(m, m', bs, i, j, End(new'));
  }

  lemma MultiplesApart(at: nat, size: nat, p: nat)
    requires at % ALIGN == 0 && size % ALIGN == 0 && p % ALIGN == 0 && p < at + size
    ensures p + ALIGN <= at + size
  {}

  lemma RoomAfterPayload(b: Block)
    requires BlockOk(b) && b.use.Used?
    ensures b.at + HEADER <= b.use.ptr && b.use.ptr + ALIGN <= b.at + b.size
  {
    MultiplesApart(b.at, b.size, b.use.ptr);
  }

  /** Nothing the heap wrote lies between a payload and the end of its block. */
  lemma PayloadIsClear(w: Words, w': Words, bs: seq<Block>, i: nat, l: nat)
    requires Shaped(bs) && i < |bs| && l < |bs| && bs[i].use.Used?
    requires Kept(w, w', bs[i].use.ptr, bs[i].at + bs[i].size, bs[i].use.ptr)
    ensures HeaderAt(w, bs, l) ==> HeaderAt(w', bs, l)
    ensures BackOk(w, bs[l]) ==> BackOk(w', bs[l])
  {
    RoomAfterPayload(bs[i]);
    assert UseOk(bs[l]) && bs[l].size >= MIN_SPLIT by { assert BlockOk(bs[l]); }
    assert l == i || bs[l].at + bs[l].size <= bs[i].at || bs[i].at + bs[i].size <= bs[l].at;
  }

  lemma OthersSpared(m: seq<byte>, m': seq<byte>, bs: seq<Block>, u: Use)
    requires Shaped(bs) && (bs != [] ==> End(bs) <= |m|) && u in Live(bs)
    requires |m'| == |m| && forall k :: 0 <= k < |m| && !(u.ptr <= k < u.ptr + u.size) ==> m'[k] == m[k]
    ensures Spared(m, m', Live(bs) - {u})
  {
    forall v | v in Live(bs) - {u} ensures v.Used? && v.ptr + v.size <= |m| && Bytes(m', v) == Bytes(m, v) { PayloadsApart(bs, v, u); }
  }

  /** A client may write what it likes into its own payload. */
  lemma PayloadWriteKeeps(m: seq<byte>, m': seq<byte>, bs: seq<Block>, u: Use)
    requires Sound(m, bs) && u in Live(bs)
    requires |m'| == |m| && forall k :: 0 <= k < |m| && !(u.ptr <= k < u.ptr + u.size) ==> m'[k] == m[k]
    ensures Sound(m', bs) && Spared(m, m', Live(bs) - {u})
  {
    var i :| 0 <= i < |bs| && bs[i].use == u;
    assert BlockOk(bs[i]);
    ConfinedWords(m, m', u.ptr, bs[i].at + bs[i].size, u.ptr);
    forall l | 0 <= l < |bs| ensures HeaderAt(View(m'), bs, l) { assert HeaderAt(View(m), bs, l); PayloadIsClear(View(m), View(m'), bs, i, l); }
    forall l | 0 <= l < |bs| ensures BackOk(View(m'), bs[l]) { assert BackOk(View(m), bs[l]); PayloadIsClear(View(m), View(m'), bs, i, l); }
    OthersSpared(m, m', bs, u);
  }
}
