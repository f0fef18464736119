/** Byte memory and the 64-bit little-endian words stored in it. */
module Memory {
  type byte = x: int | 0 <= x < 256

  const WORD: nat := 0x1_0000_0000_0000_0000

  function Encode(v: nat, n: nat): (r: seq<byte>)
    ensures |r| == n
  {
    if n == 0 then [] else [v % 256] + Encode(v / 256, n - 1)
  }

  function Decode(s: seq<byte>): nat { if s == [] then 0 else s[0] + 256 * Decode(s[1..]) }

  function Pow256(n: nat): nat { if n == 0 then 1 else 256 * Pow256(n - 1) }

  lemma {:induction false} DecodeEncode(v: nat, n: nat)
    requires v < Pow256(n)
    ensures Decode(Encode(v, n)) == v
  {
    if n > 0 { DecodeEncode(v / 256, n - 1); }
  }

  /** The word at `a`. */
  function Word(m: seq<byte>, a: nat): nat
    requires a + 8 <= |m|
  { Decode(m[a..a + 8]) }

  function Put(m: seq<byte>, a: nat, v: nat): (r: seq<byte>)
    requires a + 8 <= |m|
    ensures |r| == |m|
  { m[..a] + Encode(v, 8) + m[a + 8..] }

  lemma Pow256Of8()
    ensures Pow256(8) == WORD
  {
    assert Pow256(2) == 0x1_0000;
    assert Pow256(4) == 0x1_0000 * Pow256(2);
    assert Pow256(6) == 0x1_0000 * Pow256(4);
  }

  /** Reading back a stored word gives it; every other aligned word and every other byte is as before. */
  lemma PutGet(m: seq<byte>, a: nat, v: nat)
    requires a + 8 <= |m| && v < WORD
    ensures Word(Put(m, a, v), a) == v
    ensures forall k :: 0 <= k < |m| && !(a <= k < a + 8) ==> Put(m, a, v)[k] == m[k]
  {
    Pow256Of8();
    DecodeEncode(v, 8);
    assert Put(m, a, v)[a..a + 8] == Encode(v, 8);
  }

  /** Memory as the words it holds, whatever the address. */
  type Words = nat -> nat

  function View(m: seq<byte>): Words { (a: nat) => if a + 8 <= |m| then Word(m, a) else 0 }

  /** What was written lies inside `[lo, hi)` or is the word at `x`. */
  ghost predicate Confined(m: seq<byte>, m': seq<byte>, lo: nat, hi: nat, x: nat) {
    |m'| == |m| && forall k :: 0 <= k < |m| && !(lo <= k < hi) && !(x <= k < x + 8) ==> m'[k] == m[k]
  }

  /** The same for words. */
  ghost predicate Kept(w: Words, w': Words, lo: nat, hi: nat, x: nat) {
    forall b: nat :: (b + 8 <= lo || hi <= b) && (b + 8 <= x || x + 8 <= b) ==> w'(b) == w(b)
  }

  lemma ConfinedWords(m: seq<byte>, m': seq<byte>, lo: nat, hi: nat, x: nat)
    requires Confined(m, m', lo, hi, x)
    ensures Kept(View(m), View(m'), lo, hi, x)
  {
    forall b: nat | (b + 8 <= lo || hi <= b) && (b + 8 <= x || x + 8 <= b) ensures View(m')(b) == View(m)(b) {
      if b + 8 <= |m| { assert m'[b..b + 8] == m[b..b + 8]; }
    }
  }

  /** The word at `a` became `v`, and no word clear of it changed. */
  ghost predicate Assigns(w: Words, w': Words, a: nat, v: nat) {
    w'(a) == v && forall b: nat :: b + 8 <= a || a + 8 <= b ==> w'(b) == w(b)
  }

  /** Bytes outside `[a, a + n)` are as they were. */
  ghost predicate Touches(m: seq<byte>, m': seq<byte>, a: nat, n: nat) {
    |m'| == |m| && forall k :: 0 <= k < |m| && !(a <= k < a + n) ==> m'[k] == m[k]
  }

  /** The word at `a` became `v` and nothing else changed. */
  ghost predicate Wrote(m: seq<byte>, m': seq<byte>, a: nat, v: nat) {
    Assigns(View(m), View(m'), a, v) && Touches(m, m', a, 8)
  }

  lemma Elsewhere(m: seq<byte>, m': seq<byte>, a: nat, v: nat, b: nat)
    requires Wrote(m, m', a, v) && (b + 8 <= a || a + 8 <= b)
    ensures View(m')(b) == View(m)(b)
  {
    hide View;
  }

  lemma WroteTwice(m: seq<byte>, m1: seq<byte>, m2: seq<byte>, a: nat, v: nat, v': nat)
    requires Wrote(m, m1, a, v) && Wrote(m1, m2, a, v')
    ensures Wrote(m, m2, a, v')
  {
    hide View;
  }

  /** Bytes `lo..hi` are as they were. */
  ghost predicate Same(m: seq<byte>, m': seq<byte>, lo: nat, hi: nat) {
    |m'| == |m| && forall k :: lo <= k < hi && k < |m| ==> m'[k] == m[k]
  }

  lemma SameWord(m: seq<byte>, m': seq<byte>, lo: nat, hi: nat, a: nat)
    requires Same(m, m', lo, hi) && lo <= a && a + 8 <= hi
    ensures View(m')(a) == View(m)(a)
  {
    if a + 8 <= |m| { assert m'[a..a + 8] == m[a..a + 8]; }
  }

  lemma PutWrites(m: seq<byte>, a: nat, v: nat)
    requires a + 8 <= |m| && v < WORD
    ensures Wrote(m, Put(m, a, v), a, v)
  {
    PutGet(m, a, v);
    ConfinedWords(m, Put(m, a, v), a, a + 8, a);
  }

  /** Stores the eight bytes of `v` at `a`. */
  method Store(mem: array<byte>, a: nat, v: nat)
    requires a + 8 <= mem.Length && v < WORD
    modifies mem
    ensures Wrote(old(mem[..]), mem[..], a, v)
  {
    var rest := v;
    ghost var whole := Encode(v, 8);
    for i := 0 to 8
      invariant 0 <= rest && Encode(rest, 8 - i) == whole[i..]
      invariant forall k :: a <= k < a + i ==> mem[k] == whole[k - a]
      invariant forall k :: 0 <= k < mem.Length && !(a <= k < a + i) ==> mem[k] == old(mem[k])
    {
      mem[a + i] := rest % 256;
      assert whole[i..][1..] == whole[i + 1..];
      rest := rest / 256;
    }
    assert mem[..] == Put(old(mem[..]), a, v);
    PutWrites(old(mem[..]), a, v);
  }

  /** Copies `n` bytes between two ranges that share none. */
  method Copy(mem: array<byte>, from: nat, to: nat, n: nat)
    requires from + n <= mem.Length && to + n <= mem.Length && (from + n <= to || to + n <= from)
    modifies mem
    ensures mem[to..to + n] == old(mem[from..from + n]) && Touches(old(mem[..]), mem[..], to, n)
  {
    for i := 0 to n
      invariant forall k :: 0 <= k < mem.Length ==> mem[k] == if to <= k < to + i then old(mem[from + k - to]) else old(mem[k])
    {
      mem[to + i] := mem[from + i];
    }
  }

  /** Copies `n` bytes from one buffer to another. */
  method CopyTo(src: array<byte>, from: nat, dst: array<byte>, to: nat, n: nat)
    requires src != dst && from + n <= src.Length && to + n <= dst.Length
    modifies dst
    ensures dst[to..to + n] == src[from..from + n] && Touches(old(dst[..]), dst[..], to, n)
  {
    for i := 0 to n
      invariant forall k :: 0 <= k < dst.Length ==> dst[k] == if to <= k < to + i then src[from + k - to] else old(dst[k])
    {
      dst[to + i] := src[from + i];
    }
  }

  method Load(mem: array<byte>, a: nat) returns (v: nat)
    requires a + 8 <= mem.Length
    ensures v == View(mem[..])(a)
  {
    v := 0;
    for i := 8 downto 0
      invariant v == Decode(mem[a + i..a + 8])
    {
      assert mem[a + i..a + 8] == [mem[a + i]] + mem[a + i + 1..a + 8];
      v := mem[a + i] + 256 * v;
    }
    assert mem[..][a..a + 8] == mem[a..a + 8];
  }
}
