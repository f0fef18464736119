/**
What numbers look like as text, apart from how either routine builds or reads it: `strtoul` on any text put together
from white space, a sign, a mark of the base, digits and a rest, and where the formatter puts signs, marks and padding.
*/
module Conversions {
  import opened Wrappers
  import opened Format
  import opened Strtoul

  // ---------------------------------------------------------------- digits

  const LOWER: string := "0123456789abcdefghijklmnopqrstuvwxyz"
  const UPPER: string := "0123456789ABCDEFGHIJKLMNOPQRSTUVWXYZ"

  /** The digits of every base up to 36, in both cases, and nothing else. */
  lemma DigitsInOrder(c: char, d: nat)
    ensures DigitOf(c) == Some(d) <==> d < 36 && (c == LOWER[d] || c == UPPER[d])
  {
    assert |LOWER| == |UPPER| == 36;
    if DigitOf(c) == Some(d) {
      assert d < 10 ==> c as int == '0' as int + d;
    }
  }

  /** A string of digits is a sum of powers of the base. */
  lemma {:induction false} Positional(c: char, t: string, base: nat)
    requires DigitOf(c).Some?
    ensures ValueOf([c] + t, base) == DigitOf(c).value * Pow(base, |t|) + ValueOf(t, base)
  {
    hide DigitOf;
    var s := [c] + t;
    if t == "" {
      assert s[..0] == "";
    } else {
      var k := |t| - 1;
      Positional(c, t[..k], base);
      assert s[..|s| - 1] == [c] + t[..k] && s[|s| - 1] == t[k];
      PushDistributes(DigitOf(c).value * Pow(base, k), ValueOf(t[..k], base), base);
      PowNext(DigitOf(c).value, base, k);
    }
  }

  lemma PushDistributes(a: nat, b: nat, base: nat)
    ensures (a + b) * base == a * base + b * base
  {}

  lemma PowNext(d: nat, base: nat, k: nat)
    ensures d * Pow(base, k) * base == d * Pow(base, k + 1)
  {
    assert Pow(base, k + 1) == base * Pow(base, k);
    Turn(d, base, Pow(base, k));
  }

  lemma Turn(d: nat, b: nat, p: nat)
    ensures d * p * b == d * (b * p)
  {}

  /** Letters among the digits printed are all of the case asked for. */
  lemma {:induction false} CaseOf(v: nat, base: nat, upper: bool)
    requires 2 <= base <= 16
    ensures forall i :: 0 <= i < |Digits(v, base, upper)| ==>
              var c := Digits(v, base, upper)[i]; '0' <= c <= '9' || if upper then 'A' <= c <= 'F' else 'a' <= c <= 'f'
  {
    hide Quo, Rem;
    if v >= base { CaseOf(Quo(v, base), base, upper); }
  }

  // ---------------------------------------------------------------- reading any text

  predicate White(s: string) { forall k :: 0 <= k < |s| ==> s[k] == ' ' || s[k] as int in {9, 10, 11, 12, 13} }

  predicate AllIn(ds: string, b: nat) { forall k :: 0 <= k < |ds| ==> IsDigit(ds[k], b) }

  predicate Stops(rest: string, b: nat) { rest == "" || !IsDigit(rest[0], b) }

  /** `0`, then an `x`, then a hexadecimal digit: what is read as a mark, not as a digit. */
  predicate LooksHex(s: string) { |s| >= 3 && s[0] == '0' && (s[1] == 'x' || s[1] == 'X') && IsDigit(s[2], 16) }

  /** Digits of base `b`, after `mark`, are what `strtoul` with argument `base` takes for the number. */
  predicate Marked(mark: string, ds: string, rest: string, base: nat, b: nat) {
    if mark == "" then
      && !((base == 0 || base == 16) && LooksHex(ds + rest))
      && if base == 0 then b == (if ds != "" && ds[0] == '0' then 8 else 10) else b == base
    else (mark == "0x" || mark == "0X") && b == 16 && (base == 0 || base == 16)
  }

  /** The value returned: the largest when the number is out of range, otherwise the number, negated modulo 2^64 after a minus. */
  function Returned(sign: string, n: nat): nat {
    if n > 0xFFFF_FFFF_FFFF_FFFF then 0xFFFF_FFFF_FFFF_FFFF
    else if sign == "-" && n > 0 then 0x1_0000_0000_0000_0000 - n else n
  }

  lemma {:induction false} SkipsWhite(ws: string, t: string, i: nat)
    requires White(ws) && i <= |ws| && (t == "" || !IsSpace(t[0]))
    ensures SpaceEnd(ws + t, i) == |ws|
    decreases |ws| - i
  {
    if i < |ws| {
      assert (ws + t)[i] == ws[i];
      SkipsWhite(ws, t, i + 1);
    }
  }

  lemma {:induction false} RunStops(front: string, ds: string, rest: string, b: nat, i: nat)
    requires AllIn(ds, b) && Stops(rest, b) && i <= |ds|
    ensures RunEnd(front + ds + rest, |front| + i, b) == |front| + |ds|
    decreases |ds| - i
  {
    hide IsDigit;
    var s := front + ds + rest;
    if i < |ds| {
      assert s[|front| + i] == ds[i];
      RunStops(front, ds, rest, b, i + 1);
    } else if rest != "" {
      assert s[|front| + i] == rest[0];
    }
  }

  /** Neither a digit nor a sign is white space, and a digit is no sign. */
  lemma Apart(c: char, b: nat)
    ensures (IsDigit(c, b) || c == '+' || c == '-' ==> !IsSpace(c)) && (IsDigit(c, b) ==> c != '+' && c != '-')
  {}

  lemma ZeroIsNoSpace()
    ensures !IsSpace('0')
  {}

  lemma Pieces(ws: string, sign: string, mark: string, ds: string, rest: string)
    ensures var s := ws + sign + mark + ds + rest;
            && s == ws + (sign + mark + ds + rest) && s == (ws + sign) + (mark + ds + rest) && s == (ws + sign + mark) + ds + rest
  {}

  lemma AtShift(front: string, t: string, i: nat)
    ensures At(front + t, |front| + i) == At(t, i)
  {}

  /** Where `strtoul` finds the number in a text put together like this. */
  lemma Found(ws: string, sign: string, mark: string, ds: string, rest: string, base: nat, b: nat)
    requires White(ws) && sign in {"", "+", "-"} && ds != "" && AllIn(ds, b) && Stops(rest, b) && Marked(mark, ds, rest, base, b)
    ensures var s := ws + sign + mark + ds + rest;
            && SpaceEnd(s, 0) == |ws| && (At(s, |ws|) == '-' <==> sign == "-")
            && BodyAt(s, base) == |ws| + |sign| + |mark| && BaseOf(s, base) == b
  {
    hide IsDigit, IsSpace;
    var s, t, u := ws + sign + mark + ds + rest, sign + mark + ds + rest, mark + ds + rest;
    Pieces(ws, sign, mark, ds, rest);
    Apart(t[0], b);
    Apart(ds[0], b);
    assert t[0] == if sign != "" then sign[0] else if mark != "" then mark[0] else ds[0];
    ZeroIsNoSpace();
    SkipsWhite(ws, t, 0);
    AtShift(ws, t, 0);
    var p := |ws| + |sign|;
    assert sign == "" ==> t[0] == u[0] && t == u;
    AtShift(ws + sign, u, 0);
    AtShift(ws + sign, u, 1);
    AtShift(ws + sign, u, 2);
    assert |ws + sign| == p && s == (ws + sign) + u;
    if mark == "" {
      assert u == ds + rest;
      NotHex(u, base);
      assert At(u, 0) == ds[0];
    } else {
      assert u[0] == '0' && u[1] == mark[1] && u[2] == ds[0];
    }
  }

  lemma NotHex(u: string, base: nat)
    requires !((base == 0 || base == 16) && LooksHex(u))
    ensures !HexAt(u, 0, base)
  {}

  /** `strtoul` on any text: white space, a sign, a mark and as many digits of the base as there are make the number; it
      ends where they end; out of range gives the largest number. */
  lemma Reads(ws: string, sign: string, mark: string, ds: string, rest: string, base: nat, b: nat)
    requires White(ws) && sign in {"", "+", "-"} && ds != "" && AllIn(ds, b) && Stops(rest, b) && Marked(mark, ds, rest, base, b)
    ensures var n := ValueOf(ds, b);
            Parse(ws + sign + mark + ds + rest, base)
            == Parsed(Returned(sign, n), |ws| + |sign| + |mark| + |ds|, n > 0xFFFF_FFFF_FFFF_FFFF)
  {
    hide ValueOf, IsDigit, IsSpace, BodyAt, BaseOf, SpaceEnd, RunEnd, Marked;
    Found(ws, sign, mark, ds, rest, base, b);
    Pieces(ws, sign, mark, ds, rest);
    var front := ws + sign + mark;
    RunStops(front, ds, rest, b, 0);
    var s, i := ws + sign + mark + ds + rest, |ws| + |sign| + |mark|;
    assert s[i..i + |ds|] == ds;
    Negated(ValueOf(ds, b));
  }

  lemma Negated(n: nat)
    ensures 0 < n <= 0xFFFF_FFFF_FFFF_FFFF ==> (ULONG_MAX + 1 - n) % (ULONG_MAX + 1) == 0x1_0000_0000_0000_0000 - n
    ensures n == 0 ==> (ULONG_MAX + 1 - n) % (ULONG_MAX + 1) == 0
  {}

  /** Where no digit follows, nothing is read. */
  lemma ReadsNothing(ws: string, sign: string, rest: string, base: nat)
    requires White(ws) && sign in {"", "+", "-"} && (rest == "" || DigitOf(rest[0]).None?)
    requires rest != "" && sign == "" ==> !White(rest[..1]) && rest[0] != '+' && rest[0] != '-'
    ensures Parse(ws + sign + rest, base) == Parsed(0, 0, false)
  {
    var s, t := ws + sign + rest, sign + rest;
    assert s == ws + t && s == (ws + sign) + rest;
    if t != "" { assert t[0] == if sign != "" then sign[0] else rest[0]; }
    if sign == "" && rest != "" { assert rest[..1][0] == rest[0]; }
    SkipsWhite(ws, t, 0);
    AtShift(ws, t, 0);
    AtShift(ws + sign, rest, 0);
    var p := |ws| + |sign|;
    assert At(s, p) == At(rest, 0);
    NothingAt(s, p, base);
  }

  lemma NothingAt(s: string, p: nat, base: nat)
    requires p <= |s| && DigitOf(At(s, p)).None? && p == (if Signed(s, SpaceEnd(s, 0)) then SpaceEnd(s, 0) + 1 else SpaceEnd(s, 0))
    ensures Parse(s, base) == Parsed(0, 0, false)
  {
    hide SpaceEnd;
    assert !HexAt(s, p, base);
    assert RunEnd(s, p, BaseOf(s, base)) == p;
    assert s[p..p] == "";
    Negated(0);
  }

  // ---------------------------------------------------------------- where the formatter puts things

  /** The number on its own. */
  function Bare(sp: Spec): Spec { sp.(width := 0) }

  /** What stands before the digits. */
  function Sign(sp: Spec, neg: bool): string { if neg then "-" else if !sp.sign then "" else if sp.plus then "+" else if sp.space then " " else "" }

  function Marking(sp: Spec, neg: bool, v: nat): string {
    if Sign(sp, neg) == "" && sp.alt && sp.base == 16 && v > 0 then (if sp.upper then "0X" else "0x") else ""
  }

  predicate Zeros(s: string) { forall k :: 0 <= k < |s| ==> s[k] == '0' }

  lemma Head(sp: Spec, neg: bool, v: nat)
    ensures Prefix(sp, neg, v) == Prefix(Bare(sp), neg, v) == Sign(sp, neg) + Marking(sp, neg, v)
  {}

  lemma SameZeros(sp: Spec, neg: bool, v: nat)
    requires Usable(sp)
    ensures PrecZeros(Bare(sp), neg, v) == PrecZeros(sp, neg, v) && DigitPart(Bare(sp), v) == DigitPart(sp, v)
    ensures Format.Filled(Bare(sp), neg, v) == Format.Filled(sp, neg, v)
  {
    hide Digits;
  }

  /** On its own a number is its prefix, zeros and digits. */
  lemma BareIs(sp: Spec, neg: bool, v: nat)
    requires Usable(sp)
    ensures IntText(Bare(sp), neg, v) == Prefix(sp, neg, v) + Repeat('0', PrecZeros(sp, neg, v)) + DigitPart(sp, v)
  {
    hide Digits, Prefix, PrecZeros, DigitPart;
    SameZeros(sp, neg, v);
    Head(sp, neg, v);
    assert Repeat(' ', 0 - Format.Filled(Bare(sp), neg, v)) == "";
    Bracketed(Prefix(sp, neg, v), Repeat('0', PrecZeros(sp, neg, v)), DigitPart(sp, v));
  }

  lemma Bracketed(a: string, b: string, c: string)
    ensures "" + a + b + c + "" == a + b + c
  {}

  lemma EnoughDigits(sp: Spec, neg: bool, v: nat)
    requires Usable(sp)
    ensures var z, ds := PrecZeros(sp, neg, v), DigitPart(sp, v);
            && z + |ds| >= sp.prec && (z > 0 ==> z + |ds| == sp.prec || (z == 1 && sp.alt && sp.base == 8))
            && (sp.alt && sp.base == 8 && Sign(sp, neg) == "" ==> z > 0 || (ds != "" && ds[0] == '0'))
  {
    hide Digits;
    Head(sp, neg, v);
  }

  /** On its own a number is its sign, its mark, zeros and its digits: as many digits as the precision asks for, a leading
      zero for a marked octal number, no more zeros than that, and no digits at all for 0 with precision 0. */
  lemma BareText(sp: Spec, neg: bool, v: nat) returns (zs: string, ds: string)
    requires Usable(sp)
    ensures IntText(Bare(sp), neg, v) == Sign(sp, neg) + Marking(sp, neg, v) + zs + ds && Zeros(zs)
    ensures ds == if v == 0 && sp.prec == 0 then "" else Digits(v, sp.base, sp.upper)
    ensures |zs + ds| >= sp.prec && (zs != "" ==> |zs + ds| == sp.prec || (zs == "0" && sp.alt && sp.base == 8))
    ensures sp.alt && sp.base == 8 && Sign(sp, neg) == "" ==> zs + ds != "" && (zs + ds)[0] == '0'
  {
    hide Digits, IntText, Prefix, PrecZeros;
    BareIs(sp, neg, v);
    Head(sp, neg, v);
    EnoughDigits(sp, neg, v);
    ds := DigitPart(sp, v);
    zs := Repeat('0', PrecZeros(sp, neg, v));
    if |zs| == 1 { assert zs == "0"; }
  }

  /** A number too short for its width is filled up with spaces before it, with spaces after it when it is to stand on the
      left, or with zeros after its sign and mark when those are asked for and no precision is given. */
  lemma Padded(sp: Spec, neg: bool, v: nat)
    requires Usable(sp)
    ensures var t, head := IntText(Bare(sp), neg, v), Sign(sp, neg) + Marking(sp, neg, v);
            var fill := if sp.width > |t| then sp.width - |t| else 0;
            && head <= t
            && IntText(sp, neg, v) ==
                 if sp.left then t + Repeat(' ', fill)
                 else if sp.zero && sp.prec < 0 then head + Repeat('0', fill) + t[|head|..]
                 else Repeat(' ', fill) + t
  {
    hide Digits, Prefix, PrecZeros, DigitPart;
    BareIs(sp, neg, v);
    Head(sp, neg, v);
    var head, zs, ds := Prefix(sp, neg, v), Repeat('0', PrecZeros(sp, neg, v)), DigitPart(sp, v);
    var t := IntText(Bare(sp), neg, v);
    var fill := if sp.width > |t| then sp.width - |t| else 0;
    assert |t| == Format.Filled(sp, neg, v);
    MoreZeros(fill, PrecZeros(sp, neg, v));
    Arranged(head, zs, ds, Repeat(' ', fill), Repeat('0', fill));
    assert Repeat(' ', sp.width - |t|) == Repeat(' ', fill);
  }

  lemma MoreZeros(a: nat, b: nat)
    ensures Repeat('0', a) + Repeat('0', b) == Repeat('0', b + a) && Repeat('0', 0) == "" && Repeat(' ', 0) == ""
  {}

  lemma Arranged(head: string, zs: string, ds: string, spaces: string, more: string)
    ensures var t := head + zs + ds;
            && head <= t && t[|head|..] == zs + ds && head + more + t[|head|..] == head + (more + zs) + ds
            && "" + head + zs + ds + spaces == t + spaces && spaces + head + zs + ds + "" == spaces + t
            && "" + head + (more + zs) + ds + "" == head + (more + zs) + ds
  {
    var t := head + zs + ds;
    assert t == head + (zs + ds);
  }

  // ---------------------------------------------------------------- any conversion reads back

  lemma {:induction false} ZerosInFront(zs: string, t: string, base: nat)
    requires Zeros(zs)
    ensures ValueOf(zs + t, base) == ValueOf(t, base)
  {
    if zs == "" {
      assert zs + t == t;
    } else {
      ZerosInFront(zs[1..], t, base);
      ZeroInFront(zs[1..] + t, base);
      assert zs + t == "0" + (zs[1..] + t);
    }
  }

  lemma Spaces(n: int)
    ensures White(Repeat(' ', n)) && (forall b :: Stops(Repeat(' ', n), b)) && Zeros(Repeat('0', n))
  {
    assert forall b :: !IsDigit(' ', b);
  }

  /** A text of spaces, a sign, a mark, digits and spaces reads as what the digits stand for. */
  lemma TextReads(ws: string, sign: string, mark: string, ds: string, rest: string, b: nat, v: nat)
    requires White(ws) && White(rest) && sign in {"", "+", "-", " "} && b in {8, 10, 16} && v <= ULONG_MAX
    requires mark == "" || (b == 16 && (mark == "0x" || mark == "0X") && ds != "")
    requires AllIn(ds, b) && ValueOf(ds, b) == v && Stops(rest, b)
    ensures Parse(ws + sign + mark + ds + rest, b).value == Returned(sign, v) && !Parse(ws + sign + mark + ds + rest, b).range
  {
    hide ValueOf, IsDigit, Parse;
    var ws', sign' := if sign == " " then ws + " " else ws, if sign == " " then "" else sign;
    assert ws + sign + mark + ds + rest == ws' + sign' + mark + ds + rest;
    if ds != "" {
      SpacesNotHex(ds, rest, b);
      Reads(ws', sign', mark, ds, rest, b, b);
    } else {
      EmptyValue(b);
      assert ws' + sign' + mark + ds + rest == ws' + sign' + rest;
      OnlySpaces(ws', sign', rest, b);
    }
  }

  lemma SpacesNotHex(ds: string, rest: string, b: nat)
    requires ds != "" && AllIn(ds, b) && b <= 16 && White(rest)
    ensures !LooksHex(ds + rest)
  {
    if |ds + rest| >= 2 { assert (ds + rest)[1] == if |ds| > 1 then ds[1] else rest[0]; }
  }

  lemma OnlySpaces(ws: string, sign: string, rest: string, base: nat)
    requires White(ws) && White(rest) && sign in {"", "+", "-"}
    ensures Parse(ws + sign + rest, base) == Parsed(0, 0, false)
  {
    if sign == "" {
      assert White(ws + rest) && ws + sign + rest == (ws + rest) + "" + "";
      ReadsNothing(ws + rest, "", "", base);
    } else {
      ReadsNothing(ws, sign, rest, base);
    }
  }

  /** Whatever its flags, width and precision, a number printed in base 8, 10 or 16 reads back in that base: as itself, or as
      its negation modulo 2^64 when it was printed as negative. */
  lemma ReadsBack(sp: Spec, neg: bool, v: nat)
    requires Usable(sp) && v <= ULONG_MAX
    ensures var r := Parse(IntText(sp, neg, v), sp.base);
            r.value == (if neg && v > 0 then 0x1_0000_0000_0000_0000 - v else v) && !r.range
  {
    hide Digits, IntText, Parse, IsDigit, ValueOf;
    var zs, ds := BareText(sp, neg, v);
    Padded(sp, neg, v);
    DigitsRead(v, sp.base, sp.upper);
    EmptyValue(sp.base);
    var sign, mark, t := Sign(sp, neg), Marking(sp, neg, v), IntText(Bare(sp), neg, v);
    var fill := if sp.width > |t| then sp.width - |t| else 0;
    Spaces(fill);
    Spaces(0);
    var more := if !sp.left && sp.zero && sp.prec < 0 then Repeat('0', fill) else "";
    var before, after := if sp.left || more != "" then "" else Repeat(' ', fill), if sp.left then Repeat(' ', fill) else "";
    assert Zeros(more + zs);
    ZerosInFront(more + zs, ds, sp.base);
    ZerosAreDigits(more + zs, ds, sp.base);
    Together(before, sign, mark, more, zs, ds, after);
    TextReads(before, sign, mark, more + zs + ds, after, sp.base, v);
  }

  lemma ZerosAreDigits(zs: string, ds: string, b: nat)
    requires Zeros(zs) && AllIn(ds, b) && b >= 2
    ensures AllIn(zs + ds, b)
  {
    ZeroDigit();
  }

  lemma Together(before: string, sign: string, mark: string, more: string, zs: string, ds: string, after: string)
    ensures var head, t := sign + mark, sign + mark + zs + ds;
            && head <= t && head + more + t[|head|..] == "" + sign + mark + (more + zs + ds) + ""
            && before + t == before + sign + mark + ("" + zs + ds) + "" && t + after == "" + sign + mark + ("" + zs + ds) + after
            && sign + mark + zs + ds == sign + mark + (zs + ds)
  {
    var head, t := sign + mark, sign + mark + zs + ds;
    assert t == head + (zs + ds) && t[|head|..] == zs + ds;
  }
}
