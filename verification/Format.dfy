/**
Printing integers and reading them back: the integer conversions of the C library's formatter, and `strtoul`.

Text is the characters before the terminating NUL; reading past its end reads a NUL.
*/
module Format {
  import opened Wrappers

  const ULONG_MAX: nat := 0xFFFF_FFFF_FFFF_FFFF
  const TMP: nat := 24

  // ---------------------------------------------------------------- digits

  function DigitChar(d: nat, upper: bool): char
    requires d < 16
  { if d < 10 then ('0' as int + d) as char else if upper then ('A' as int + d - 10) as char else ('a' as int + d - 10) as char }

  /** The value of a digit or letter. */
  function DigitOf(c: char): Option<nat> {
    if '0' <= c <= '9' then Some(c as int - '0' as int)
    else if 'a' <= c <= 'z' then Some(c as int - 'a' as int + 10)
    else if 'A' <= c <= 'Z' then Some(c as int - 'A' as int + 10)
    else None
  }

  predicate IsDigit(c: char, base: nat) { DigitOf(c).Some? && DigitOf(c).value < base }

  predicate IsSpace(c: char) { c == ' ' || 9 <= c as int <= 13 }

  function Quo(v: nat, base: nat): (r: nat)
    requires base > 0
    ensures (v >= base >= 2 ==> 0 < r < v) && (v < base ==> r == 0)
  {
    Division(v, base);
    v / base
  }

  function Rem(v: nat, base: nat): (r: nat)
    requires base > 0
    ensures r < base && (v < base ==> r == v)
  { v % base }

  function Push(acc: nat, base: nat, d: nat): nat { acc * base + d }

  lemma Division(v: nat, base: nat)
    requires base > 0
    ensures v / base * base + v % base == v && (v >= base >= 2 ==> 0 < v / base < v) && (v < base ==> v / base == 0)
  {
    QuotientSmaller(v / base, base, v % base, v);
  }

  lemma QuotientSmaller(q: nat, base: nat, r: nat, v: nat)
    requires v == q * base + r && r < base
    ensures (v >= base >= 2 ==> 0 < q < v) && (v < base ==> q == 0)
  {
    assert q >= 1 ==> q * base >= base;
    assert q >= v && base >= 2 ==> q * base >= q * 2;
  }

  lemma PushBack(v: nat, base: nat)
    requires base > 0
    ensures Push(Quo(v, base), base, Rem(v, base)) == v
  {
    Division(v, base);
  }

  /** The digits of `v`, most significant first. */
  function Digits(v: nat, base: nat, upper: bool): (r: string)
    requires 2 <= base <= 16
    ensures r != []
  { if v < base then [DigitChar(v, upper)] else Digits(Quo(v, base), base, upper) + [DigitChar(Rem(v, base), upper)] }

  /** What a string of digits stands for. */
  function ValueOf(t: string, base: nat): nat {
    if t == [] then 0
    else Push(ValueOf(t[..|t| - 1], base), base, if DigitOf(t[|t| - 1]).Some? then DigitOf(t[|t| - 1]).value else 0)
  }

  lemma DigitRound(d: nat, upper: bool)
    requires d < 16
    ensures DigitOf(DigitChar(d, upper)) == Some(d)
  {}

  lemma {:induction false} DigitsRead(v: nat, base: nat, upper: bool)
    requires 2 <= base <= 16
    ensures ValueOf(Digits(v, base, upper), base) == v
    ensures forall i :: 0 <= i < |Digits(v, base, upper)| ==> IsDigit(Digits(v, base, upper)[i], base)
  {
    hide DigitChar, DigitOf, Quo, Rem, Push;
    var t := Digits(v, base, upper);
    DigitRound(Rem(v, base), upper);
    PushBack(v, base);
    if v < base {
      assert t[..0] == [];
      Division(v, base);
      SmallPush(v, base);
    } else {
      DigitsRead(Quo(v, base), base, upper);
      assert t[..|t| - 1] == Digits(Quo(v, base), base, upper);
    }
  }

  lemma SmallPush(v: nat, base: nat)
    ensures Push(0, base, v) == v
  {}

  /** Only 0 starts with the digit 0. */
  lemma {:induction false} LeadingDigit(v: nat, base: nat, upper: bool)
    requires 2 <= base <= 16 && v > 0
    ensures Digits(v, base, upper)[0] != '0'
  {
    hide Quo, Rem;
    if v >= base { LeadingDigit(Quo(v, base), base, upper); }
  }

  function Pow(b: nat, n: nat): nat { if n == 0 then 1 else b * Pow(b, n - 1) }

  lemma {:induction false} DigitCount(v: nat, base: nat, upper: bool, n: nat)
    requires 2 <= base <= 16 && n >= 1 && v < Pow(base, n)
    ensures |Digits(v, base, upper)| <= n
  {
    hide Quo, Rem, DigitChar;
    assert Pow(base, 1) == base * Pow(base, 0);
    if v >= base {
      Shrinks(v, base, Pow(base, n - 1));
      DigitCount(Quo(v, base), base, upper, n - 1);
    }
  }

  lemma Shrinks(v: nat, base: nat, p: nat)
    requires base > 0 && v < base * p
    ensures Quo(v, base) < p
  {
    Division(v, base);
    var q := v / base;
    assert q >= p ==> q * base >= p * base;
  }

  lemma {:induction false} PowUp(a: nat, b: nat, n: nat)
    requires a <= b
    ensures Pow(a, n) <= Pow(b, n)
  {
    if n > 0 {
      PowUp(a, b, n - 1);
      TimesUp(a, b, Pow(a, n - 1), Pow(b, n - 1));
    }
  }

  lemma TimesUp(a: nat, b: nat, x: nat, y: nat)
    requires a <= b && x <= y
    ensures a * x <= b * y
  {
    assert a * x <= a * y <= b * y;
  }

  lemma Pow8Of22()
    ensures Pow(8, 22) > ULONG_MAX
  {
    assert Pow(8, 4) == 0x1000;
    assert Pow(8, 8) == 0x1000 * Pow(8, 4);
    assert Pow(8, 12) == 0x1000 * Pow(8, 8);
    assert Pow(8, 16) == 0x1000 * Pow(8, 12);
    assert Pow(8, 20) == 0x1000 * Pow(8, 16);
  }

  /** A 64-bit number has at most 22 digits in base 8 and above. */
  lemma AtMost22(v: nat, base: nat, upper: bool)
    requires v <= ULONG_MAX && 8 <= base <= 16
    ensures |Digits(v, base, upper)| <= 22
  {
    hide Pow;
    Pow8Of22();
    PowUp(8, base, 22);
    DigitCount(v, base, upper, 22);
  }

  // ---------------------------------------------------------------- printing

  /** What stands between `%` and the conversion, and what the conversion implies. */
  datatype Spec = Spec(
    left: bool, zero: bool, plus: bool, space: bool, alt: bool,
    width: nat, prec: int, sign: bool, base: nat, upper: bool)

  predicate Usable(sp: Spec) { sp.base == 8 || sp.base == 10 || sp.base == 16 }

  function Repeat(c: char, n: int): (r: string)
    ensures |r| == if n > 0 then n else 0
  { seq(if n > 0 then n else 0, _ => c) }

  function DigitPart(sp: Spec, v: nat): string
    requires Usable(sp)
  { if v == 0 && sp.prec == 0 then "" else Digits(v, sp.base, sp.upper) }

  function Prefix(sp: Spec, neg: bool, v: nat): string {
    if neg then "-" else if sp.sign && sp.plus then "+" else if sp.sign && sp.space then " "
    else if sp.alt && sp.base == 16 && v != 0 then (if sp.upper then "0X" else "0x") else ""
  }

  /** Zeros the precision asks for, or the one that marks an octal number. */
  function PrecZeros(sp: Spec, neg: bool, v: nat): nat
    requires Usable(sp)
  {
    var ds := DigitPart(sp, v);
    var zeros := if sp.prec > |ds| then sp.prec - |ds| else 0;
    if Prefix(sp, neg, v) == "" && sp.alt && sp.base == 8 && zeros == 0 && (ds == "" || ds[0] != '0') then 1 else zeros
  }

  function Filled(sp: Spec, neg: bool, v: nat): nat
    requires Usable(sp)
  { |Prefix(sp, neg, v)| + PrecZeros(sp, neg, v) + |DigitPart(sp, v)| }

  /** The text of one integer conversion. */
  function IntText(sp: Spec, neg: bool, v: nat): string
    requires Usable(sp)
  {
    var fill := sp.width - Filled(sp, neg, v);
    var wide := sp.zero && !sp.left && sp.prec < 0 && fill > 0;
    (if wide || sp.left then "" else Repeat(' ', fill)) + Prefix(sp, neg, v)
    + Repeat('0', PrecZeros(sp, neg, v) + (if wide then fill else 0)) + DigitPart(sp, v)
    + (if sp.left then Repeat(' ', fill) else "")
  }

  lemma TextWidth(sp: Spec, neg: bool, v: nat)
    requires Usable(sp)
    ensures |IntText(sp, neg, v)| == if sp.width > Filled(sp, neg, v) then sp.width else Filled(sp, neg, v)
  {
    hide Digits;
  }

  lemma Assembled(sp: Spec, neg: bool, v: nat, zeros: nat, total: nat)
    requires Usable(sp)
    requires var fill := sp.width - Filled(sp, neg, v); var wide := sp.zero && !sp.left && sp.prec < 0 && fill > 0;
             zeros == PrecZeros(sp, neg, v) + (if wide then fill else 0) && total == if wide then sp.width else Filled(sp, neg, v)
    ensures IntText(sp, neg, v) == (if sp.left then "" else Repeat(' ', sp.width - total)) + Prefix(sp, neg, v) + Repeat('0', zeros) + DigitPart(sp, v)
                                   + (if sp.left then Repeat(' ', sp.width - total) else "")
  {
    hide Digits;
    assert Repeat(' ', 0) == "";
  }

  lemma Associate(t: string, a: string, b: string, c: string, d: string, e: string)
    ensures (if a == "" then t else t + a) + b + c + d + e == t + (a + b + c + d + e)
    ensures t + a + b + c + d + e == t + (a + b + c + d + e)
  {
    assert t + "" == t;
  }

  class Out {
    const buf: array<char>
    const cap: nat
    var len: nat
    /** All that was put, whether it fitted or not. */
    ghost var text: string

    ghost predicate Valid()
      reads this, buf
    { cap <= buf.Length && len == |text| && forall k :: 0 <= k < len && k + 1 < cap ==> buf[k] == text[k] }

    constructor (buf: array<char>, cap: nat)
      requires cap <= buf.Length
      ensures Valid() && this.buf == buf && this.cap == cap && text == ""
    {
      this.buf, this.cap, len, text := buf, cap, 0, "";
    }

    method Put(c: char)
      requires Valid()
      modifies this, buf
      ensures Valid() && text == old(text) + [c] && forall k :: cap <= k < buf.Length ==> buf[k] == old(buf[k])
    {
      if len + 1 < cap { buf[len] := c; }
      len := len + 1;
      text := text + [c];
    }

    method Pad(c: char, n: int)
      requires Valid()
      modifies this, buf
      ensures Valid() && text == old(text) + Repeat(c, n) && forall k :: cap <= k < buf.Length ==> buf[k] == old(buf[k])
    {
      var left := n;
      while left > 0
        invariant Valid() && left <= n && text == old(text) + Repeat(c, if left > 0 then n - left else n)
        invariant forall k :: cap <= k < buf.Length ==> buf[k] == old(buf[k])
      {
        left := left - 1;
        assert Repeat(c, n - left) == Repeat(c, n - left - 1) + [c];
        Put(c);
      }
    }

    method PutAll(t: string)
      requires Valid()
      modifies this, buf
      ensures Valid() && text == old(text) + t && forall k :: cap <= k < buf.Length ==> buf[k] == old(buf[k])
    {
      for i := 0 to |t|
        invariant Valid() && text == old(text) + t[..i] && forall k :: cap <= k < buf.Length ==> buf[k] == old(buf[k])
      {
        Put(t[i]);
      }
    }

    /** Ends the text: the buffer holds as much of it as fits, and a NUL. */
    method Finish() returns (n: nat)
      requires Valid()
      modifies buf
      ensures n == |text|
      ensures cap > 0 ==> var m := if n < cap then n else cap - 1; buf[..m] == text[..m] && buf[m] == '\0'
      ensures forall k :: cap <= k < buf.Length ==> buf[k] == old(buf[k])
    {
      if cap > 0 { buf[if len < cap then len else cap - 1] := '\0'; }
      return len;
    }

    /** The digits of `v`, last first, into a buffer of 24. */
    static method Convert(tmp: array<char>, v: nat, base: nat, upper: bool) returns (n: nat)
      requires tmp.Length == TMP && v <= ULONG_MAX && 8 <= base <= 16
      modifies tmp
      ensures n == |Digits(v, base, upper)| <= 22 && forall k :: 0 <= k < n ==> tmp[k] == Digits(v, base, upper)[n - 1 - k]
    {
      hide Quo, Rem, DigitChar;
      AtMost22(v, base, upper);
      ghost var whole := Digits(v, base, upper);
      var rest: nat := v;
      n := 0;
      while true
        invariant |Digits(rest, base, upper)| + n == |whole| && whole[..|whole| - n] == Digits(rest, base, upper)
        invariant forall k :: 0 <= k < n ==> tmp[k] == whole[|whole| - 1 - k]
        decreases rest
      {
        ghost var ds := Digits(rest, base, upper);
        assert ds[|ds| - 1] == whole[|whole| - n - 1];
        tmp[n] := DigitChar(Rem(rest, base), upper);
        n := n + 1;
        if rest >= base { assert Digits(Quo(rest, base), base, upper) == ds[..|ds| - 1]; }
        rest := Quo(rest, base);
        if rest == 0 { break; }
      }
    }

    /** Prefix, zeros and width of a conversion whose digits are in `tmp`. */
    static method Plan(sp: Spec, neg: bool, v: nat, tmp: array<char>, nd: nat) returns (prefix: string, zeros: nat, total: nat)
      requires Usable(sp) && nd == |DigitPart(sp, v)| <= tmp.Length && (nd > 0 ==> tmp[nd - 1] == DigitPart(sp, v)[0])
      ensures prefix == Prefix(sp, neg, v)
      ensures var fill := sp.width - Filled(sp, neg, v); var wide := sp.zero && !sp.left && sp.prec < 0 && fill > 0;
              zeros == PrecZeros(sp, neg, v) + (if wide then fill else 0) && total == if wide then sp.width else Filled(sp, neg, v)
    {
      hide DigitPart;
      prefix, zeros := "", if sp.prec > nd then sp.prec - nd else 0;
      if neg { prefix := "-"; }
      else if sp.sign && sp.plus { prefix := "+"; }
      else if sp.sign && sp.space { prefix := " "; }
      else if sp.alt && sp.base == 16 && v != 0 { prefix := if sp.upper then "0X" else "0x"; }
      else if sp.alt && sp.base == 8 && zeros == 0 && (nd == 0 || tmp[nd - 1] != '0') { zeros := 1; }
      total := |prefix| + zeros + nd;
      if sp.zero && !sp.left && sp.prec < 0 && sp.width > total {
        zeros := zeros + sp.width - total;
        total := sp.width;
      }
    }

    /** One integer conversion. */
    method PutInt(sp: Spec, neg: bool, v: nat)
      requires Valid() && Usable(sp) && v <= ULONG_MAX
      modifies this, buf
      ensures Valid() && text == old(text) + IntText(sp, neg, v) && forall k :: cap <= k < buf.Length ==> buf[k] == old(buf[k])
    {
      hide Digits, Repeat, IntText, Prefix, PrecZeros, Filled, Valid;
      var tmp := new char[TMP];
      var nd := 0;
      if !(v == 0 && sp.prec == 0) { nd := Convert(tmp, v, sp.base, sp.upper); }
      ghost var ds := DigitPart(sp, v);
      var prefix, zeros, total := Plan(sp, neg, v, tmp, nd);
      if !sp.left { Pad(' ', sp.width - total); }
      PutAll(prefix);
      Pad('0', zeros);
      PutReversed(tmp, nd, ds);
      if sp.left { Pad(' ', sp.width - total); }
      Assembled(sp, neg, v, zeros, total);
      var fill := Repeat(' ', sp.width - total);
      Associate(old(text), if sp.left then "" else fill, prefix, Repeat('0', zeros), ds, if sp.left then fill else "");
    }

    method PutReversed(tmp: array<char>, n: nat, ghost ds: string)
      requires Valid() && tmp != buf && n == |ds| <= tmp.Length && forall k :: 0 <= k < n ==> tmp[k] == ds[n - 1 - k]
      modifies this, buf
      ensures Valid() && text == old(text) + ds && forall k :: cap <= k < buf.Length ==> buf[k] == old(buf[k])
    {
      for i := n downto 0
        invariant Valid() && text == old(text) + ds[..n - i]
        invariant forall k :: cap <= k < buf.Length ==> buf[k] == old(buf[k])
      {
        assert tmp[i] == ds[n - 1 - i];
        Put(tmp[i]);
      }
      assert ds[..n] == ds;
    }
  }
}
