/** Reading an unsigned number back, and that it undoes printing. */
module Strtoul {
  import opened Wrappers
  import opened Format

  function At(s: string, i: nat): char { if i < |s| then s[i] else '\0' }

  /** Where white space from `i` on ends. */
  function SpaceEnd(s: string, i: nat): (r: nat)
    ensures i <= r
    decreases |s| - i
  { if i < |s| && IsSpace(s[i]) then SpaceEnd(s, i + 1) else i }

  /** Where the digits of a base from `i` on end. */
  function RunEnd(s: string, i: nat, base: nat): (r: nat)
    ensures i <= r && (i <= |s| ==> r <= |s|)
    decreases |s| - i
  { if i < |s| && IsDigit(s[i], base) then RunEnd(s, i + 1, base) else i }

  predicate Signed(s: string, i: nat) { At(s, i) == '+' || At(s, i) == '-' }

  /** A hexadecimal prefix counts only if a hexadecimal digit follows. */
  predicate HexAt(s: string, i: nat, base: nat) {
    (base == 0 || base == 16) && At(s, i) == '0' && (At(s, i + 1) == 'x' || At(s, i + 1) == 'X') && IsDigit(At(s, i + 2), 16)
  }

  function BaseAt(s: string, i: nat, base: nat): nat {
    if HexAt(s, i, base) then 16 else if base == 0 then (if At(s, i) == '0' then 8 else 10) else base
  }

  /** Where the digits start. */
  function BodyAt(s: string, base: nat): nat {
    var a := SpaceEnd(s, 0);
    var b := if Signed(s, a) then a + 1 else a;
    if HexAt(s, b, base) then b + 2 else b
  }

  function BaseOf(s: string, base: nat): nat {
    var a := SpaceEnd(s, 0);
    BaseAt(s, if Signed(s, a) then a + 1 else a, base)
  }

  /** The number the digits spell, whatever its size. */
  function Spelled(s: string, base: nat): nat {
    var i, b := BodyAt(s, base), BaseOf(s, base);
    if i <= |s| then ValueOf(s[i..RunEnd(s, i, b)], b) else 0
  }

  datatype Parsed = Parsed(value: nat, end: nat, range: bool)

  /** What a text reads as: the number if it fits in 64 bits, negated in 64 bits after a minus, and the largest otherwise. */
  function Parse(s: string, base: nat): Parsed {
    var i, e, n := BodyAt(s, base), RunEnd(s, BodyAt(s, base), BaseOf(s, base)), Spelled(s, base);
    Parsed(if n > ULONG_MAX then ULONG_MAX else if At(s, SpaceEnd(s, 0)) == '-' then (ULONG_MAX + 1 - n) % (ULONG_MAX + 1) else n,
           if e > i then e else 0, n > ULONG_MAX)
  }

  /** More digits never make a number smaller. */
  lemma MoreDigits(acc: nat, base: nat, d: nat)
    requires base >= 1
    ensures Push(acc, base, d) >= acc
  {}

  lemma NextDigit(s: string, i: nat, p: nat, base: nat)
    requires i <= p < |s| && IsDigit(s[p], base)
    ensures ValueOf(s[i..p + 1], base) == Push(ValueOf(s[i..p], base), base, DigitOf(s[p]).value)
  {
    assert s[i..p + 1][..p - i] == s[i..p];
  }

  function Room(base: nat, d: nat): int
    requires base > 0
  { (ULONG_MAX - d) / base }

  /** The guard before each digit is exactly whether the number still fits. */
  lemma Guard(v: nat, base: nat, d: nat)
    requires v <= ULONG_MAX && d < base && d <= ULONG_MAX
    ensures v > Room(base, d) <==> Push(v, base, d) > ULONG_MAX
  {
    var m := ULONG_MAX - d;
    Division(m, base);
    FitsIff(v, base, d, m / base, m % base);
  }

  lemma FitsIff(v: nat, base: nat, d: nat, q: nat, r: nat)
    requires q * base + r == ULONG_MAX - d && r < base
    ensures v > q <==> v * base + d > ULONG_MAX
  {
    assert v <= q ==> v * base <= q * base;
    assert v >= q + 1 ==> v * base >= (q + 1) * base == q * base + base;
  }

  /** Past white space, sign and prefix. */
  method Start(s: string, base: nat) returns (p: nat, b: nat, neg: bool)
    ensures p == BodyAt(s, base) <= |s| && b == BaseOf(s, base) && neg == (At(s, SpaceEnd(s, 0)) == '-')
  {
    p := 0;
    while p < |s| && IsSpace(s[p])
      invariant p <= |s| && SpaceEnd(s, p) == SpaceEnd(s, 0)
    {
      p := p + 1;
    }
    neg := false;
    if At(s, p) == '+' || At(s, p) == '-' {
      neg := At(s, p) == '-';
      p := p + 1;
    }
    b := base;
    if HexAt(s, p, base) {
      p, b := p + 2, 16;
    } else if base == 0 {
      b := if At(s, p) == '0' then 8 else 10;
    }
  }

  /** The digits from `i` on, as far as they fit. */
  method Accumulate(s: string, i: nat, b: nat) returns (v: nat, p: nat, over: bool)
    requires i <= |s|
    ensures p == RunEnd(s, i, b) && (over <==> ValueOf(s[i..p], b) > ULONG_MAX) && (!over ==> v == ValueOf(s[i..p], b))
  {
    hide ValueOf, Push, DigitOf, IsDigit, Room;
    v, over, p := 0, false, i;
    assert s[i..i] == "" && ValueOf("", b) == 0 by { EmptyValue(b); }
    while p < |s| && IsDigit(s[p], b)
      invariant i <= p <= |s| && RunEnd(s, p, b) == RunEnd(s, i, b) && v <= ULONG_MAX
      invariant if over then ValueOf(s[i..p], b) > ULONG_MAX else v == ValueOf(s[i..p], b)
    {
      var d := Value(s[p], b);
      NextDigit(s, i, p, b);
      Guard(v, b, d);
      MoreDigits(ValueOf(s[i..p], b), b, d);
      if v > Room(b, d) { over := true; } else { v := Push(v, b, d); }
      p := p + 1;
    }
  }

  /** Reads an unsigned number: its value, where it ends, and whether it was out of range. */
  method Strtoul(s: string, base: nat) returns (r: Parsed)
    ensures r == Parse(s, base)
  {
    hide ValueOf, BodyAt, BaseOf, SpaceEnd, RunEnd;
    var i, b, neg := Start(s, base);
    var v, p, over := Accumulate(s, i, b);
    r := Parsed(if over then ULONG_MAX else if neg then (ULONG_MAX + 1 - v) % (ULONG_MAX + 1) else v, if p > i then p else 0, over);
  }

  lemma EmptyValue(base: nat)
    ensures ValueOf("", base) == 0
  {}

  function Value(c: char, base: nat): (d: nat)
    requires IsDigit(c, base)
    ensures d < base && d <= 35 && DigitOf(c) == Some(d)
  { DigitOf(c).value }

  // ---------------------------------------------------------------- reading undoes printing

  /** `%lu`, `%#lx`, `%#lX` and `%#lo`: no width, no precision. */
  predicate Plain(sp: Spec) { sp.width == 0 && sp.prec < 0 && !sp.sign && if sp.alt then sp.base == 8 || sp.base == 16 else sp.base == 10 }

  lemma {:induction false} AllDigits(s: string, i: nat, base: nat)
    requires i <= |s| && forall k :: i <= k < |s| ==> IsDigit(s[k], base)
    ensures RunEnd(s, i, base) == |s|
    decreases |s| - i
  {
    hide IsDigit;
    if i < |s| { AllDigits(s, i + 1, base); }
  }

  lemma {:induction false} ZeroInFront(t: string, base: nat)
    ensures ValueOf("0" + t, base) == ValueOf(t, base)
  {
    hide DigitOf, Push;
    var s := "0" + t;
    if t == "" {
      assert s[..0] == "" && DigitOf('0') == Some(0) by { ZeroDigit(); }
      SmallPush(0, base);
    } else {
      ZeroInFront(t[..|t| - 1], base);
      assert s[..|s| - 1] == "0" + t[..|t| - 1];
    }
  }

  lemma ZeroDigit()
    ensures DigitOf('0') == Some(0)
  {}

  /** What marks the base. */
  function Mark(sp: Spec, v: nat): string {
    if !sp.alt || v == 0 then "" else if sp.base == 8 then "0" else if sp.upper then "0X" else "0x"
  }

  lemma PlainText(sp: Spec, v: nat)
    requires Plain(sp) && v <= ULONG_MAX
    ensures Usable(sp)
    ensures IntText(sp, false, v) == Mark(sp, v) + Digits(v, sp.base, sp.upper)
  {
    hide Digits;
    if v > 0 { LeadingDigit(v, sp.base, sp.upper); }
    else { ZeroText(sp.base, sp.upper); }
    assert Repeat(' ', 0) == "" && Repeat('0', 0) == "" && Repeat('0', 1) == "0";
  }

  lemma ZeroText(base: nat, upper: bool)
    requires 2 <= base <= 16
    ensures Digits(0, base, upper) == "0"
  {}

  /** Digits are neither white space, nor a sign, nor an `x`. */
  lemma DigitIsNone(c: char, base: nat)
    requires IsDigit(c, base) && base <= 16
    ensures !IsSpace(c) && c != '+' && c != '-' && c != 'x' && c != 'X' && c != '\0'
  {}

  /** Printing a 64-bit number and reading it with base 0 gives it back, and reads all of the text. */
  lemma RoundTrip(sp: Spec, v: nat)
    requires Plain(sp) && v <= ULONG_MAX
    ensures Usable(sp) && Parse(IntText(sp, false, v), 0) == Parsed(v, |IntText(sp, false, v)|, false)
  {
    hide Digits, ValueOf, IntText, DigitOf, IsDigit, IsSpace;
    PlainText(sp, v);
    DigitsRead(v, sp.base, sp.upper);
    var ds := Digits(v, sp.base, sp.upper);
    if v == 0 {
      ZeroText(sp.base, sp.upper);
      ZeroReads(IntText(sp, false, v));
    } else if sp.base == 10 {
      LeadingDigit(v, 10, sp.upper);
      DecimalReads(ds, v);
    } else if sp.base == 8 {
      LeadingDigit(v, 8, sp.upper);
      OctalReads(ds, v);
    } else {
      HexReads(ds, v, sp.upper);
    }
  }

  lemma ZeroReads(s: string)
    requires |s| == 1 && s[0] == '0'
    ensures Parse(s, 0) == Parsed(0, 1, false)
  {
    hide ValueOf, DigitOf, IsSpace;
    ZeroDigit();
    DigitIsNone('0', 8);
    AllDigits(s, 0, 8);
    ZeroInFront("", 8);
    EmptyValue(8);
    assert s[0..1] == s == "0" + "";
  }

  lemma DecimalReads(ds: string, v: nat)
    requires ds != "" && ds[0] != '0' && v <= ULONG_MAX && ValueOf(ds, 10) == v && forall k :: 0 <= k < |ds| ==> IsDigit(ds[k], 10)
    ensures Parse("" + ds, 0) == Parsed(v, |ds|, false)
  {
    hide ValueOf, DigitOf, IsDigit, IsSpace;
    assert "" + ds == ds;
    DigitIsNone(ds[0], 10);
    AllDigits(ds, 0, 10);
    assert ds[0..|ds|] == ds;
  }

  lemma OctalReads(ds: string, v: nat)
    requires ds != "" && v <= ULONG_MAX && ValueOf(ds, 8) == v && forall k :: 0 <= k < |ds| ==> IsDigit(ds[k], 8)
    ensures Parse("0" + ds, 0) == Parsed(v, |"0" + ds|, false)
  {
    hide ValueOf, DigitOf, IsSpace;
    var s := "0" + ds;
    ZeroDigit();
    DigitIsNone('0', 8);
    DigitIsNone(ds[0], 8);
    assert s[1] == ds[0];
    ZeroInFront(ds, 8);
    assert forall k :: 0 <= k < |s| ==> IsDigit(s[k], 8);
    AllDigits(s, 0, 8);
    assert s[0..|s|] == s;
  }

  lemma HexReads(ds: string, v: nat, upper: bool)
    requires ds != "" && v <= ULONG_MAX && ValueOf(ds, 16) == v && forall k :: 0 <= k < |ds| ==> IsDigit(ds[k], 16)
    ensures var p := if upper then "0X" else "0x"; Parse(p + ds, 0) == Parsed(v, |p + ds|, false)
  {
    hide ValueOf, IsSpace;
    var p := if upper then "0X" else "0x";
    var s := p + ds;
    ZeroDigit();
    DigitIsNone('0', 16);
    assert s[2] == ds[0] && s[0] == '0';
    assert forall k :: 2 <= k < |s| ==> IsDigit(s[k], 16);
    AllDigits(s, 2, 16);
    assert s[|p|..] == ds;
    assert BodyAt(s, 0) == 2 && BaseOf(s, 0) == 16;
    assert s[2..|s|] == s[|p|..];
  }

  /** The two together: printed into a buffer with room and read from it, a number comes back whole. */
  method PrintAndRead(buf: array<char>, cap: nat, sp: Spec, v: nat) returns (n: nat, r: Parsed)
    requires Plain(sp) && v <= ULONG_MAX && cap <= buf.Length && Usable(sp) && |IntText(sp, false, v)| < cap
    modifies buf
    ensures n < cap && r == Parsed(v, n, false)
  {
    hide IntText, Parse;
    var o := new Out(buf, cap);
    o.PutInt(sp, false, v);
    n := o.Finish();
    assert o.text == "" + IntText(sp, false, v) == IntText(sp, false, v);
    assert buf[..n] == o.text[..n] == o.text;
    r := Strtoul(buf[..n], 0);
    RoundTrip(sp, v);
  }
}
