/** Where a heap gets its memory from: a fixed range, the kernel's window of page frames, or any other supplier. */
module Supply {
  import opened Wrappers

  const PAGE: nat := 4096
  const HEAP_START: nat := 0xffff_9000_0000_0000
  const HEAP_RESERVE: nat := 1024 * 1024 * 1024
  const HEAP_GROW_MIN: nat := 1024 * 1024
  const HEAP_GROW_MAX: nat := 16 * 1024 * 1024
  const HEAP_AT_BOOT: nat := 16 * 1024 * 1024
  const MAX_REGIONS: nat := 1024

  datatype Region = Region(base: nat, len: nat)
  datatype Kind = Fixed | Frames | Any

  /** What one growth maps: at least a mebibyte, at most sixteen, never past the window. */
  function Growth(want: nat, left: nat): nat { Min(Min(Max(want, HEAP_GROW_MIN), HEAP_GROW_MAX), left) }

  function Pages(bytes: nat): nat { (bytes + PAGE - 1) / PAGE }

  lemma RoundingStaysInside(bytes: nat, left: nat)
    requires left % PAGE == 0 && bytes <= left
    ensures bytes <= Pages(bytes) * PAGE <= left && Pages(bytes) * PAGE < bytes + PAGE
  {}

  /** A window of `regions` growths that still has room has room for another region. */
  ghost predicate SlotsLast(regions: nat, top: nat) {
    || HEAP_START + regions * HEAP_GROW_MIN <= top
    || (regions >= 1 && top == HEAP_START + HEAP_RESERVE && HEAP_START + (regions - 1) * HEAP_GROW_MIN < top)
  }

  lemma SlotsLeft(regions: nat, top: nat)
    requires SlotsLast(regions, top) && top < HEAP_START + HEAP_RESERVE
    ensures regions < MAX_REGIONS
  {}

  lemma SlotsGrow(regions: nat, top: nat, len: nat, want: nat)
    requires SlotsLast(regions, top) && top < HEAP_START + HEAP_RESERVE && top + len <= HEAP_START + HEAP_RESERVE
    requires Growth(want, HEAP_START + HEAP_RESERVE - top) <= len
    ensures SlotsLast(regions + 1, top + len)
  {}

  lemma PageMultiple(a: nat)
    requires a % PAGE == 0
    ensures a % 16 == 0
  {}

  lemma PageMore(a: nat, b: nat)
    requires a % PAGE == 0
    ensures (a + b) % PAGE == 0 <==> b % PAGE == 0
  {}

  /** A growth reaches the request exactly when the request is within the most one growth may map. */
  lemma GrowthReaches(want: nat, left: nat)
    requires left % PAGE == 0
    ensures Pages(Growth(want, left)) * PAGE >= want <==> want <= Min(HEAP_GROW_MAX, left)
  {
    var g := Growth(want, left);
    RoundingStaysInside(g, left);
    if want > Min(HEAP_GROW_MAX, left) { assert g == Min(HEAP_GROW_MAX, left) && g % PAGE == 0; }
  }

  class Supplier {
    const kind: Kind
    /** `Frames` only: the window is mapped up to `top`, and `mapped` bytes of it are. */
    var top: nat
    var mapped: nat
    var ready: bool
    /** How often the frames for a growth could not be mapped. */
    ghost var refusals: nat

    const limit: nat := HEAP_START + HEAP_RESERVE

    ghost predicate Valid()
      reads this
    {
      kind.Frames? ==> HEAP_START <= top <= limit && top % PAGE == 0 && mapped == top - HEAP_START
    }

    constructor (kind: Kind)
      ensures this.kind == kind && Valid() && top == HEAP_START && !ready
    {
      this.kind, top, mapped, ready, refusals := kind, HEAP_START, 0, false, 0;
    }

    /** Takes the caller's word that `bytes` more are mapped; the window stays in order exactly for whole pages of it. */
    method Reserve(bytes: nat)
      requires Valid()
      modifies this
      ensures Valid() <==> (kind.Frames? ==> bytes % PAGE == 0 && old(top) + bytes <= limit)
      ensures ready == old(ready) && refusals == old(refusals)
      ensures top == old(top) + (if kind.Frames? then bytes else 0) && mapped == old(mapped) + (if kind.Frames? then bytes else 0)
    {
      if kind.Frames? {
        PageMore(top, bytes);
        top, mapped := top + bytes, mapped + bytes;
      }
    }

    /**
    A region for a request of `want` bytes. The heap so far ends at `edge`, or is empty and `edge` is 0.
    `Any` hands out whatever it likes, as long as a region the heap could use starts where the heap ends.
    */
    method Supply(want: nat, edge: nat, memory: nat) returns (r: Option<Region>)
      requires Valid()
      modifies this
      ensures Valid() && ready == old(ready)
      ensures kind.Fixed? ==> r.None?
      ensures kind.Any? && r.Some? && r.value.len >= 48 ==> var g := r.value;
                g.base > 0 && (edge != 0 ==> g.base == edge) && g.len % 16 == 0 && g.base + g.len <= memory
      ensures kind.Frames? && r.None? ==> top == old(top) && (!ready || top == limit || refusals > old(refusals))
      ensures kind.Frames? && r.Some? ==> ready
      ensures kind.Frames? && r.Some? ==> var g := r.value;
                && g.base == old(top) < limit && top == g.base + g.len && 0 < g.len && g.len % PAGE == 0
                && Growth(want, limit - g.base) <= g.len < Growth(want, limit - g.base) + PAGE
      ensures kind.Frames? && r.Some? ==>
                (r.value.len >= want <==> want <= Min(HEAP_GROW_MAX, limit - r.value.base))
      ensures refusals >= old(refusals)
    {
      match kind {
        case Fixed => return None;
        case Any =>
          var base: nat, len: nat := *, *;
          if len >= 48 && (base == 0 || (edge != 0 && base != edge) || len % 16 != 0 || base + len > memory) { return None; }
          return Some(Region(base, len));
        case Frames =>
          if !ready { return None; }
          var left := limit - top;
          if left < PAGE { return None; }
          var wanted := Growth(want, left);
          RoundingStaysInside(wanted, left);
          GrowthReaches(want, left);
          var bytes := Pages(wanted) * PAGE;
          var mappedOk: bool := *;
          if !mappedOk { refusals := refusals + 1; return None; }
          var base := top;
          top, mapped := top + bytes, mapped + bytes;
          return Some(Region(base, bytes));
      }
    }
  }
}
