/**
The TCP client: one connection, in-order receive into a ring, stop-and-wait send with retransmission.

A `Path` is the rest of the world as far as one connection goes: the peer and the network between. It keeps
what an observer would know, the positions in both byte streams counted from 0 without wrap-around; the
client itself sees sequence numbers modulo 2^32 only. The network may lose, repeat and reorder segments
as it likes.
*/
module Tcp {
  import opened Wrappers
  import opened Memory

  const MSS: nat := 1360
  const RX: nat := 16384
  const TRIES: nat := 5
  const SPACE: int := 0x1_0000_0000
  const HALF: int := 0x8000_0000

  // ---------------------------------------------------------------- sequence numbers

  /** The sequence number of position `pos` in a stream whose initial number is `base`. */
  function Wire(base: nat, pos: int): (r: nat)
    ensures r < SPACE
  { (base + 1 + pos) % SPACE }

  function Add(a: nat, n: nat): nat { (a + n) % SPACE }

  /** `a` is at or after `b` in sequence space. */
  predicate Geq(a: nat, b: nat) { (a as int - b) % SPACE < HALF }

  lemma ModShift(x: int, n: int)
    ensures (x % SPACE + n) % SPACE == (x + n) % SPACE
  {
    var q := x / SPACE;
    assert x == q * SPACE + x % SPACE;
    ModPlus(x % SPACE + n, q);
  }

  lemma ModPlus(x: int, q: int)
    ensures (x + q * SPACE) % SPACE == x % SPACE
  {
    var d := (x + q * SPACE) / SPACE - x / SPACE - q;
    assert x + q * SPACE == (x + q * SPACE) / SPACE * SPACE + (x + q * SPACE) % SPACE;
    assert x == x / SPACE * SPACE + x % SPACE;
    assert d * SPACE == x % SPACE - (x + q * SPACE) % SPACE;
  }

  lemma WireAdd(base: nat, pos: int, n: nat)
    ensures Add(Wire(base, pos), n) == Wire(base, pos + n)
  {
    ModShift(base + 1 + pos, n);
  }

  lemma WireGap(base: nat, p: int, q: int)
    ensures (Wire(base, p) - Wire(base, q)) % SPACE == (p - q) % SPACE
  {
    var w: int := Wire(base, q);
    ModShift(base + 1 + p, -w);
    var k := (base + 1 + q) / SPACE;
    assert base + 1 + q == k * SPACE + Wire(base, q);
    ModPlus(p - q, k);
  }

  /** Less than the whole space apart, equal numbers mean equal positions. */
  lemma WireExact(base: nat, p: int, q: int)
    requires -SPACE < p - q < SPACE && Wire(base, p) == Wire(base, q)
    ensures p == q
  {
    WireGap(base, p, q);
  }

  /** Half the space apart or less, the comparison of numbers is the comparison of positions. */
  lemma GeqIs(base: nat, p: int, q: int)
    requires -HALF <= p - q < HALF
    ensures Geq(Wire(base, p), Wire(base, q)) <==> p >= q
  {
    WireGap(base, p, q);
  }

  lemma BaseIsMinusOne(iss: nat)
    requires iss < SPACE
    ensures Wire(iss, -1) == iss
  {}

  // ---------------------------------------------------------------- the receive ring

  /** The `len` bytes of the ring from `head` on. */
  function Ring(a: seq<byte>, head: nat, len: nat): (r: seq<byte>)
    requires |a| == RX && head < RX && len <= RX
    ensures |r| == len
  { seq(len, i requires 0 <= i < len => a[Slot(head, i)]) }

  function Slot(head: nat, i: nat): (r: nat)
    ensures r < RX
  { (head + i) % RX }

  lemma SlotsDiffer(head: nat, i: nat, j: nat)
    requires head < RX && i < j < RX
    ensures Slot(head, i) != Slot(head, j)
  {}

  lemma RingPush(a: seq<byte>, head: nat, len: nat, b: byte)
    requires |a| == RX && head < RX && len < RX
    ensures Ring(a[Slot(head, len) := b], head, len + 1) == Ring(a, head, len) + [b]
  {
    forall i | 0 <= i < len ensures Slot(head, i) != Slot(head, len) { SlotsDiffer(head, i, len); }
  }

  lemma RingPop(a: seq<byte>, head: nat, len: nat)
    requires |a| == RX && head < RX && 0 < len <= RX
    ensures Ring(a, head, len) == [a[head]] + Ring(a, Slot(head, 1), len - 1)
  {
    var next := Slot(head, 1);
    forall i | 0 <= i < len - 1 ensures Slot(next, i) == Slot(head, i + 1) { NextSlot(head, i); }
  }

  lemma NextSlot(head: nat, i: nat)
    requires head < RX && i < RX
    ensures Slot(Slot(head, 1), i) == Slot(head, i + 1)
  {}

  // ---------------------------------------------------------------- the peer and the network

  datatype Segment = Segment(fin: bool, syn: bool, rst: bool, hasAck: bool, num: nat, ack: nat, data: seq<byte>)

  /** A segment of ours on its way. */
  datatype Flight = Flight(pos: nat, data: seq<byte>, fin: bool)

  /** A segment that reached us: where its data stands in the peer's stream, and what of ours it acknowledges. */
  datatype Arrival = Arrival(seg: Segment, pos: int, a: int)

  /** An acknowledgement of ours: its number, and the position in the peer's stream it stands for. */
  datatype Receipt = Receipt(num: nat, pos: nat)

  class Path {
    /** All the peer will ever send, and its initial number. */
    const stream: seq<byte>
    const irs: nat
    /** Our initial number, whether the handshake is over, and how far into `stream` the client is. */
    var iss: nat
    var agreed: bool
    var arrived: nat
    /** What the client gave to be sent, whether it has closed, and what of it the client knows is acknowledged. */
    var sent: seq<byte>
    var closing: bool
    var una: int
    /** What was ever put on the network, in order, how much had reached us by then, and what the peer has accepted. */
    var air: seq<Flight>
    var when: seq<nat>
    var taken: seq<byte>
    var finTaken: bool
    /** How often we asked to connect, what has reached us, and what we have acknowledged. */
    var asked: nat
    var polled: seq<Arrival>
    var receipts: seq<Receipt>

    /** A connection that has not begun. */
    constructor (stream: seq<byte>, irs: nat)
      ensures this.stream == stream && this.irs == irs && Valid() && !agreed && sent == [] && !closing && air == [] && when == []
      ensures arrived == 0 && taken == [] && asked == 0 && polled == [] && receipts == []
    {
      this.stream, this.irs := stream, irs;
      iss, agreed, arrived, sent, closing, una, air, taken, finTaken := 0, false, 0, [], false, -1, [], [], false;
      asked, polled, receipts, when := 0, [], [], [];
    }

    ghost predicate Valid()
      reads `air, `sent, `closing, `taken, `finTaken
    {
      && (forall f :: f in air ==> f.pos + |f.data| <= |sent| && f.data == sent[f.pos..f.pos + |f.data|])
      && (forall f :: f in air && f.fin ==> closing && f.pos + |f.data| == |sent|)
      && taken <= sent && (finTaken ==> closing && taken == sent)
    }

    function Limit(): nat
      reads `taken, `finTaken
    { |taken| + if finTaken then 1 else 0 }

    function Next(): nat
      reads `sent, `closing
    { |sent| + if closing then 1 else 0 }

    /** A segment the peer may have sent: `pos` is where its data stands in the stream and `a` what it acknowledges. */
    predicate PlausibleAt(s: Segment, pos: int, a: int)
      reads this
    {
      && |s.data| <= 0xFFFF
      && (s.data != [] || s.fin ==> 0 <= pos && pos + |s.data| <= |stream| && s.data == stream[pos..pos + |s.data|])
      && (s.data != [] || s.fin ==> s.num == Wire(irs, pos) && -HALF < pos - arrived < HALF)
      && (s.fin ==> pos + |s.data| == |stream|)
      && (s.hasAck && agreed ==> s.ack == Wire(iss, a) && a <= Limit() && una - a <= HALF)
      && (s.syn && s.hasAck && s.ack == Wire(iss, 0) ==> s.num == Wire(irs, -1))
    }

    /** The peer takes in whatever reaches it: any segment ever sent, any number of times, or none. */
    method PeerTurn()
      requires Valid()
      modifies `taken, `finTaken
      ensures Valid() && old(taken) <= taken && (old(finTaken) ==> finTaken)
    {
      var turns: int := *;
      while turns > 0
        invariant Valid() && old(taken) <= taken && (old(finTaken) ==> finTaken)
      {
        turns := turns - 1;
        if air != [] {
          assert air[0] in air;
          var f :| f in air;
          var upto: nat := *;
          if f.pos <= |taken| <= upto <= f.pos + |f.data| {
            taken := taken + f.data[|taken| - f.pos..upto - f.pos];
            if f.fin && upto == f.pos + |f.data| { finTaken := true; }
          }
        }
      }
    }

    /** What reaches the client next: any segment the peer may have sent, or nothing. */
    method Poll() returns (r: Option<Segment>, pos: int, a: int)
      modifies `polled
      ensures r.Some? ==> PlausibleAt(r.value, pos, a) && polled == old(polled) + [Arrival(r.value, pos, a)]
      ensures r.None? ==> polled == old(polled)
    {
      var fin: bool, syn: bool, rst: bool, hasAck: bool := *, *, *, *;
      var num: nat, ack: nat, data: seq<byte> := *, *, *;
      pos, a := *, *;
      var s := Segment(fin, syn, rst, hasAck, num, ack, data);
      if !PlausibleAt(s, pos, a) { return None, pos, a; }
      polled := polled + [Arrival(s, pos, a)];
      return Some(s), pos, a;
    }
  }

  /** An acknowledgement the comparison lets through is in the window. */
  lemma AckInWindow(base: nat, a: int, una: int, limit: int, next: int)
    requires una - HALF <= a <= limit <= next < una + HALF && una <= limit
    ensures Geq(Wire(base, a), Wire(base, una)) <==> una <= a
    ensures una <= a ==> Geq(Wire(base, next), Wire(base, a))
  {
    GeqIs(base, a, una);
    if una <= a { GeqIs(base, next, a); }
  }

  lemma Extends(handed: seq<byte>, ring: seq<byte>, data: seq<byte>, stream: seq<byte>, pos: nat, n: nat)
    requires pos + |data| <= |stream| && handed + ring == stream[..pos] && data == stream[pos..pos + |data|] && n <= |data|
    ensures handed + (ring + data[..n]) == stream[..pos + n]
  {
    assert handed + (ring + data[..n]) == (handed + ring) + data[..n];
  }

  lemma Regroup(handed: seq<byte>, out: seq<byte>, rest: seq<byte>, stream: seq<byte>, n: nat)
    requires n <= |stream| && handed + (out + rest) == stream[..n]
    ensures handed + out + rest == stream[..n] && handed + out <= stream
  {
    assert handed + out + rest == handed + (out + rest);
    assert handed + out == (handed + out + rest)[..|handed + out|];
  }

  lemma Piece(base: seq<byte>, data: seq<byte>, i: nat, n: nat)
    requires i + n <= |data|
    ensures base + data[..i] + data[i..i + n] == base + data[..i + n]
    ensures base <= base + data[..i] <= base + data && base <= base + data[..i + n] <= base + data
    ensures data[..|data|] == data && data[..0] == [] && base + [] == base
  {
    assert data[..i] + data[i..i + n] == data[..i + n];
    assert base + data == base + data[..i] + data[i..] == base + data[..i + n] + data[i + n..];
  }

  // ---------------------------------------------------------------- the client

  datatype State = Closed | SynSent | Established | Reset
  datatype Fail = Timeout | Refused | NotOpen
  datatype Outcome<T> = Ok(value: T) | Err(error: Fail)

  /** What the client knows of both streams, in positions; `len` is how much of what arrived has not been handed out. */
  datatype View = View(state: State, agreed: bool, una: int, arrived: nat, len: nat, fin: bool)

  /** Asked, and nothing heard yet. */
  const FRESH: View := View(SynSent, false, -1, 0, 0, false)

  /** What one arrival comes to. `nxt` is the number our next byte has, `total` the length of the peer's stream. */
  function Took(v: View, x: Arrival, nxt: nat, total: nat): View {
    if v.state == Closed then v
    else if x.seg.rst then v.(state := Reset)
    else if v.state == SynSent then
      if x.seg.syn && x.seg.hasAck && x.seg.ack == nxt then v.(state := Established, agreed := true, una := 0) else v
    else if v.state == Established then
      var n := if x.seg.data != [] && x.pos == v.arrived && v.len <= RX then Min(|x.seg.data|, RX - v.len) else 0;
      v.(una := if x.seg.hasAck && x.a > v.una then x.a else v.una, arrived := v.arrived + n, len := v.len + n,
      fin := v.fin || (x.seg.fin && v.arrived + n == total))
    else v
  }

  /** Whether it is to be acknowledged. */
  predicate Wants(v: View, x: Arrival, nxt: nat, total: nat) {
    var v' := Took(v, x, nxt, total);
    (v.state == SynSent && v'.state == Established) || (v.state == Established == v'.state && (x.seg.data != [] || v'.fin != v.fin))
  }

  lemma ClosedTakesNothing(v: View, x: Arrival, nxt: nat, total: nat)
    requires v.state == Closed
    ensures Took(v, x, nxt, total) == v && !Wants(v, x, nxt, total)
  {}

  /** What a number of arrivals comes to. */
  function TookAll(v: View, xs: seq<Arrival>, nxt: nat, total: nat): View {
    if xs == [] then v else Took(TookAll(v, xs[..|xs| - 1], nxt, total), xs[|xs| - 1], nxt, total)
  }

  lemma TookMore(v: View, all: seq<Arrival>, from: nat, x: Arrival, nxt: nat, total: nat)
    requires from <= |all|
    ensures TookAll(v, (all + [x])[from..], nxt, total) == Took(TookAll(v, all[from..], nxt, total), x, nxt, total)
  {
    assert (all + [x])[from..] == all[from..] + [x];
    assert (all[from..] + [x])[..|all| - from] == all[from..];
  }

  lemma {:induction false} TookOn(v: View, xs: seq<Arrival>, ys: seq<Arrival>, nxt: nat, total: nat)
    ensures TookAll(v, xs + ys, nxt, total) == TookAll(TookAll(v, xs, nxt, total), ys, nxt, total)
  {
    if ys == [] {
      assert xs + ys == xs;
    } else {
      var k := |ys| - 1;
      TookOn(v, xs, ys[..k], nxt, total);
      assert (xs + ys)[..|xs + ys| - 1] == xs + ys[..k];
    }
  }

  lemma TookNone(v: View, all: seq<Arrival>, nxt: nat, total: nat)
    ensures TookAll(v, all[|all|..], nxt, total) == v
  {}

  lemma TookSince(v: View, from: nat, before: seq<Arrival>, now: seq<Arrival>, nxt: nat, total: nat)
    requires from <= |before| && before <= now
    ensures TookAll(v, now[from..], nxt, total) == TookAll(TookAll(v, before[from..], nxt, total), now[|before|..], nxt, total)
  {
    TookOn(v, before[from..], now[|before|..], nxt, total);
    assert now[from..] == before[from..] + now[|before|..];
  }

  predicate OpenAt(v: View, from: nat, k: nat, polled: seq<Arrival>, nxt: nat, stream: nat, total: nat) {
    from <= k <= |polled| && var x := TookAll(v, polled[from..k], nxt, stream); x.state == Established && x.una < total
  }

  function Copies(f: Flight, k: nat): seq<Flight> { seq(k, _ => f) }

  lemma OneMoreCopy(air: seq<Flight>, f: Flight, k: nat)
    ensures air + Copies(f, 0) == air && air + Copies(f, k) + [f] == air + Copies(f, k + 1)
  {
    assert Copies(f, k) + [f] == Copies(f, k + 1);
  }

  /** What a wait is for. */
  datatype Until = Answered | Acked(end: nat) | Readable | Finished

  class Tcp {
    var state: State
    var sndUna: nat
    var sndNxt: nat
    var rcvNxt: nat
    const rx: array<byte>
    var head: nat
    var len: nat
    var fin: bool
    /** What `Recv` has handed out on this connection. */
    ghost var handed: seq<byte>

    ghost function Seen(net: Path): View
      reads `state, `len, `fin, net`agreed, net`una, net`arrived
    { View(state, net.agreed, net.una, net.arrived, len, fin) }

    /** What was handed out and what is in the ring are the stream so far, `rcvNxt` counts it, and nothing has been
        acknowledged beyond it. */
    ghost predicate Received(net: Path)
      reads `head, `len, `rcvNxt, `fin, `handed, rx, net`arrived, net`receipts
      requires rx.Length == RX && head < RX && len <= RX
    {
      && net.arrived == |handed| + len <= |net.stream|
      && handed + Ring(rx[..], head, len) == net.stream[..net.arrived]
      && rcvNxt == Wire(net.irs, net.arrived + if fin then 1 else 0)
      && (fin ==> net.arrived == |net.stream|)
      && (forall k :: k in net.receipts ==> k.num == Wire(net.irs, k.pos) && k.pos <= net.arrived + if fin then 1 else 0)
    }

    /** `sndUna` and `sndNxt` stand for what was acknowledged and what was sent, less than half the space apart. */
    ghost predicate Sending(net: Path)
      reads `sndUna, `sndNxt, net`iss, net`una, net`taken, net`finTaken, net`sent, net`closing
    {
      && sndUna == Wire(net.iss, net.una) && sndNxt == Wire(net.iss, net.Next())
      && 0 <= net.una <= net.Limit() && net.Next() - net.una < HALF
    }

    ghost predicate Valid(net: Path)
      reads this, rx, net
    {
      && rx.Length == RX && head < RX && len <= RX && net.Valid() && |net.when| == |net.air|
      && (net.agreed ==> Received(net) && Sending(net))
      && (!net.agreed ==> len == 0 && !fin && handed == [] && state != Established && net.receipts == [])
      && (state == SynSent ==> !net.agreed && net.una == -1 && net.arrived == 0 && net.Next() == 0 && sndNxt == Wire(net.iss, 0))
    }

    constructor ()
      ensures rx.Length == RX && fresh(rx) && state == Closed && head == 0 && len == 0 && !fin && handed == []
    {
      state, sndUna, sndNxt, rcvNxt, head, len, fin, handed := Closed, 0, 0, 0, 0, 0, false, [];
      rx := new byte[RX](i => 0);
    }

    method Push(data: seq<byte>)
      requires rx.Length == RX && head < RX && len + |data| <= RX
      modifies rx, `len
      ensures len == old(len) + |data| && Ring(rx[..], head, len) == Ring(old(rx[..]), head, old(len)) + data
    {
      hide Slot;
      for i := 0 to |data|
        invariant len == old(len) + i
        invariant Ring(rx[..], head, len) == Ring(old(rx[..]), head, old(len)) + data[..i]
      {
        ghost var was := rx[..];
        RingPush(was, head, len, data[i]);
        var at := Slot(head, len);
        rx[at] := data[i];
        len := len + 1;
        assert rx[..] == was[at := data[i]];
      }
    }

    /** Takes data in, as much as fits, when it is what comes next. */
    method TakeData(net: Path, num: nat, data: seq<byte>, ghost pos: int)
      requires Valid(net) && net.agreed && data != [] && |data| <= 0xFFFF
      requires 0 <= pos && pos + |data| <= |net.stream| && data == net.stream[pos..pos + |data|]
      requires num == Wire(net.irs, pos) && -HALF < pos - net.arrived < HALF
      modifies `rcvNxt, `len, rx, net`arrived
      ensures Valid(net) && fin == old(fin) && handed == old(handed) && state == old(state)
      ensures net.arrived == old(net.arrived) + if pos == old(net.arrived) then Min(|data|, RX - old(len)) else 0
      ensures len - old(len) == net.arrived - old(net.arrived)
    {
      hide Wire, Ring, Add;
      if num == rcvNxt {
        WireExact(net.irs, pos, net.arrived + if fin then 1 else 0);
        var n := Min(|data|, RX - len);
        Extends(handed, Ring(rx[..], head, len), data, net.stream, net.arrived, n);
        Push(data[..n]);
        WireAdd(net.irs, net.arrived, n);
        rcvNxt := Add(rcvNxt, n);
        net.arrived := net.arrived + n;
      }
    }

    /** The peer answered: positions start. */
    method TakeAnswer(net: Path, num: nat, ack: nat)
      requires Valid(net) && state == SynSent && ack == sndNxt && num == Wire(net.irs, -1)
      modifies this, net`agreed, net`una
      ensures Valid(net) && handed == old(handed) && state == Established && net.agreed && fin == old(fin) && net.una == 0
      ensures sndNxt == old(sndNxt) && len == old(len)
    {
      hide Wire, Ring, Add, Path.Valid;
      WireAdd(net.irs, -1, 1);
      rcvNxt := Add(num, 1);
      sndUna := ack;
      state := Established;
      net.agreed, net.una := true, 0;
    }

    method TakeAck(net: Path, ack: nat, a: int)
      requires Valid(net) && net.agreed && ack == Wire(net.iss, a) && a <= net.Limit() && net.una - a <= HALF
      modifies `sndUna, net`una
      ensures Valid(net) && handed == old(handed) && state == old(state) && fin == old(fin) && net.una == if a > old(net.una) then a else old(net.una)
    {
      hide Wire, Received, Geq;
      AckInWindow(net.iss, a, net.una, net.Limit(), net.Next());
      if Geq(ack, sndUna) && Geq(sndNxt, ack) {
        sndUna := ack;
        net.una := a;
      }
    }

    method TakeFin(net: Path, num: nat, n: nat, ghost pos: int) returns (need: bool)
      requires Valid(net) && net.agreed && n <= 0xFFFF && 0 <= pos && num == Wire(net.irs, pos)
      requires pos + n == |net.stream| && -SPACE < pos - net.arrived < SPACE - 0x1_0000
      modifies `rcvNxt, `fin
      ensures Valid(net) && handed == old(handed) && state == old(state)
      ensures (fin <==> old(fin) || net.arrived == |net.stream|) && (need <==> fin && !old(fin))
    {
      hide Wire, Sending, Ring, Path.Valid;
      WireAdd(net.irs, pos, n);
      if Add(num, n) == rcvNxt && !fin {
        WireExact(net.irs, pos + n, net.arrived);
        WireAdd(net.irs, net.arrived, 1);
        rcvNxt := Add(rcvNxt, 1);
        fin := true;
        return true;
      }
      return false;
    }

    /** Takes the effect of one segment; true if it wants an acknowledgement. */
    method OnSegment(net: Path, s: Segment, pos: int, a: int) returns (need: bool)
      requires Valid(net) && net.PlausibleAt(s, pos, a)
      modifies this, rx, net`agreed, net`arrived, net`una
      ensures Valid(net) && handed == old(handed) && (old(net.agreed) ==> net.agreed)
      ensures net.arrived >= old(net.arrived) && net.una >= old(net.una) && (old(fin) ==> fin)
      ensures old(state) != Closed ==> Seen(net) == Took(old(Seen(net)), Arrival(s, pos, a), sndNxt, |net.stream|)
      ensures old(state) != Closed ==> (need <==> Wants(old(Seen(net)), Arrival(s, pos, a), sndNxt, |net.stream|))
      ensures sndNxt == old(sndNxt) && (need ==> net.agreed)
      ensures s.rst ==> state == Reset && !need
      ensures s.rst || (old(state) != SynSent && old(state) != Established) ==>
                net.una == old(net.una) && net.arrived == old(net.arrived) && fin == old(fin)
      ensures !s.rst && old(state) != SynSent && old(state) != Established ==> state == old(state) && !need
      ensures !s.rst && old(state) == SynSent ==>
                && (need <==> s.syn && s.hasAck && s.ack == old(sndNxt)) && state == (if need then Established else SynSent)
      ensures !s.rst && old(state) == Established ==>
                && state == Established && (need <==> s.data != [] || (fin && !old(fin)))
                && net.una == (if s.hasAck && a > old(net.una) then a else old(net.una))
                && net.arrived == old(net.arrived) + (if s.data != [] && pos == old(net.arrived) then Min(|s.data|, RX - old(len)) else 0)
                && (fin <==> old(fin) || (s.fin && net.arrived == |net.stream|))
    {
      hide Wire, Ring, Path.Valid, Received, Sending;
      if s.rst {
        state := Reset;
        return false;
      }
      match state {
        case SynSent =>
          need := s.syn && s.hasAck && s.ack == sndNxt;
          if need { TakeAnswer(net, s.num, s.ack); }
        case Established =>
          if s.hasAck { TakeAck(net, s.ack, a); }
          need := s.data != [];
          if need { TakeData(net, s.num, s.data, pos); }
          if s.fin {
            var last := TakeFin(net, s.num, |s.data|, pos);
            need := need || last;
          }
        case _ => return false;
      }
    }

    /** What turning to the network keeps: nothing is taken out, put in or forgotten on the client's side. */
    twostate predicate Onward(net: Path)
      reads this, net
    {
      && handed == old(handed) && net.sent == old(net.sent) && net.closing == old(net.closing)
      && net.iss == old(net.iss) && net.air == old(net.air) && sndNxt == old(sndNxt)
      && old(net.polled) <= net.polled && old(net.receipts) <= net.receipts && net.asked == old(net.asked) && net.when == old(net.when)
      && (old(net.agreed) ==> net.agreed) && net.una >= old(net.una) && old(net.taken) <= net.taken
      && net.arrived >= old(net.arrived) && (old(fin) ==> fin)
      && (state == SynSent ==> old(state) == SynSent) && (state == Closed ==> old(state) == Closed)
    }

    /** Time passes: the peer may take in what we sent, and something may reach us. */
    method Listen(net: Path) returns (r: Option<Segment>, pos: int, a: int)
      requires Valid(net)
      modifies net`taken, net`finTaken, net`polled
      ensures Valid(net) && old(net.taken) <= net.taken
      ensures r.Some? ==> net.PlausibleAt(r.value, pos, a) && net.polled == old(net.polled) + [Arrival(r.value, pos, a)]
      ensures r.None? ==> net.polled == old(net.polled)
    {
      hide Wire, Ring, Received, Path.Valid, Path.PlausibleAt;
      net.PeerTurn();
      r, pos, a := net.Poll();
    }

    /** Acknowledges everything that has arrived. */
    method Acknowledge(net: Path)
      requires Valid(net) && net.agreed
      modifies net`receipts
      ensures Valid(net) && Acknowledged(net)
    {
      hide Wire, Ring, Sending, Path.Valid;
      net.receipts := net.receipts + [Receipt(rcvNxt, net.arrived + if fin then 1 else 0)];
    }

    twostate predicate Acknowledged(net: Path)
      reads this, net
    { net.receipts == old(net.receipts) + [Receipt(rcvNxt, net.arrived + if fin then 1 else 0)] }

    /** Takes in what the network has, if anything, and acknowledges it if it asks for that. */
    method Pump(net: Path)
      requires Valid(net)
      modifies this, rx, net
      ensures Valid(net) && Onward(net)
      ensures net.polled == old(net.polled) ==> Seen(net) == old(Seen(net)) && net.receipts == old(net.receipts)
      ensures net.polled != old(net.polled) ==>
                && |net.polled| == |old(net.polled)| + 1
                && var x := net.polled[|old(net.polled)|];
                && Seen(net) == Took(old(Seen(net)), x, sndNxt, |net.stream|)
                && if Wants(old(Seen(net)), x, sndNxt, |net.stream|) then Acknowledged(net) else net.receipts == old(net.receipts)
    {
      hide Wire, Ring, Path.Valid, Received, Sending, Path.PlausibleAt, Took, Wants;
      var r, pos, a := Listen(net);
      if r.Some? {
        if state != Closed {
          var need := OnSegment(net, r.value, pos, a);
          if need { Acknowledge(net); }
        } else {
          ClosedTakesNothing(Seen(net), Arrival(r.value, pos, a), sndNxt, |net.stream|);
        }
      }
    }

    predicate Done(until: Until)
      reads this
    {
      match until
      case Answered => state != SynSent
      case Acked(end) => state != Established || Geq(sndUna, end)
      case Readable => len > 0 || fin || state != Established
      case Finished => fin || state != Established
    }

    /** Turns to the network until something is so, or time is up. */
    method Wait(net: Path, until: Until) returns (done: bool)
      requires Valid(net)
      modifies this, rx, net
      ensures Valid(net) && Onward(net) && (done <==> Done(until))
      ensures Seen(net) == TookAll(old(Seen(net)), net.polled[|old(net.polled)|..], sndNxt, |net.stream|)
    {
      hide Path.Valid, Received, Sending, Done, Took, Wants;
      var turns: int := *;
      while turns > 0
        invariant Valid(net) && Onward(net)
        invariant Seen(net) == TookAll(old(Seen(net)), net.polled[|old(net.polled)|..], sndNxt, |net.stream|)
      {
        turns := turns - 1;
        ghost var before := net.polled;
        Pump(net);
        if net.polled != before {
          var x := net.polled[|before|];
          assert net.polled == before + [x];
          TookMore(old(Seen(net)), before, |old(net.polled)|, x, sndNxt, |net.stream|);
        }
        if Done(until) { return true; }
      }
      return Done(until);
    }

    /** A fresh connection asks for an answer. */
    method Begin(net: Path, clock: nat)
      requires rx.Length == RX && net.Valid() && !net.agreed && net.sent == [] && !net.closing && net.air == [] && net.when == []
      requires net.arrived == 0 && net.receipts == []
      modifies this, net`iss, net`una
      ensures Valid(net) && handed == [] && Seen(net) == FRESH
    {
      hide Wire, Ring, Path.Valid, Add;
      var iss := clock % SPACE;
      WireAdd(iss, -1, 1);
      assert Wire(iss, -1) == iss by { BaseIsMinusOne(iss); }
      sndUna, sndNxt := iss, Add(iss, 1);
      net.iss, net.una := iss, -1;
      head, len, fin, rcvNxt, handed := 0, 0, false, 0, [];
      state := SynSent;
    }

    method Connect(net: Path, clock: nat) returns (r: Outcome<()>)
      requires rx.Length == RX && net.Valid() && !net.agreed && net.sent == [] && !net.closing && net.air == [] && net.when == []
      requires net.arrived == 0 && net.receipts == []
      modifies this, rx, net
      ensures Valid(net) && net.sent == [] && !net.closing && handed == []
      ensures r.Ok? <==> state == Established
      ensures r.Ok? ==> net.agreed
      ensures r.Err? ==> state == Closed
      ensures old(net.asked) < net.asked <= old(net.asked) + TRIES && old(net.polled) <= net.polled
      ensures var v := TookAll(FRESH, net.polled[|old(net.polled)|..], sndNxt, |net.stream|);
              && (r.Ok? <==> v.state == Established) && (r == Err(Refused) <==> v.state == Reset)
              && (r == Err(Timeout) ==> net.asked == old(net.asked) + TRIES)
    {
      hide Wire, Ring, Received, Sending, Path.Valid, TookAll;
      Begin(net, clock);
      TookNone(FRESH, net.polled, sndNxt, |net.stream|);
      var tries := 0;
      while tries < TRIES
        invariant Valid(net) && net.sent == [] && !net.closing && handed == [] && state == SynSent
        invariant tries <= TRIES && net.asked == old(net.asked) + tries && old(net.polled) <= net.polled
        invariant Seen(net) == TookAll(FRESH, net.polled[|old(net.polled)|..], sndNxt, |net.stream|)
      {
        net.asked := net.asked + 1;
        ghost var before := net.polled;
        var answered := Wait(net, Answered);
        TookSince(FRESH, |old(net.polled)|, before, net.polled, sndNxt, |net.stream|);
        if answered { break; }
        tries := tries + 1;
      }
      if state == Established { return Ok(()); }
      r := Err(if state == Reset then Refused else Timeout);
      state := Closed;
    }

    /** Puts a piece of the stream on the network. */
    method Transmit(net: Path, pos: nat, data: seq<byte>, last: bool)
      requires Valid(net) && pos + |data| <= |net.sent| && data == net.sent[pos..pos + |data|]
      requires (last ==> net.closing && pos + |data| == |net.sent|)
      modifies net`air, net`when
      ensures Valid(net) && net.air == old(net.air) + [Flight(pos, data, last)] && net.when == old(net.when) + [|net.polled|]
    {
      hide Wire, Ring;
      net.air, net.when := net.air + [Flight(pos, data, last)], net.when + [|net.polled|];
    }

    /** A chunk joins the stream. */
    method Append(net: Path, chunk: seq<byte>)
      requires Valid(net) && net.agreed && !net.closing && net.Next() - net.una + |chunk| < HALF
      modifies `sndNxt, net`sent
      ensures Valid(net) && net.sent == old(net.sent) + chunk && sndNxt == Add(old(sndNxt), |chunk|)
      ensures chunk != [] ==> net.una < |net.sent|
    {
      hide Wire, Ring;
      WireAdd(net.iss, net.Next(), |chunk|);
      sndNxt := Add(sndNxt, |chunk|);
      net.sent := net.sent + chunk;
    }

    /** An acknowledgement up to the end of what was sent means the peer has all of it. */
    lemma AllTaken(net: Path, end: nat)
      requires Valid(net) && net.agreed && !net.closing && end == Wire(net.iss, |net.sent|) && Geq(sndUna, end)
      ensures sndUna == sndNxt == end && net.una == |net.sent| && net.taken == net.sent
    {
      hide Wire, Geq, Received;
      GeqIs(net.iss, net.una, net.Next());
    }

    lemma NotAllTaken(net: Path, end: nat)
      requires Valid(net) && net.agreed && !net.closing && end == Wire(net.iss, |net.sent|) && !Geq(sndUna, end)
      ensures net.una < |net.sent|
    {
      hide Wire, Geq, Received;
      GeqIs(net.iss, net.una, net.Next());
    }

    /** Sends the end of the stream once, and waits for it to be acknowledged. */
    method Attempt(net: Path, chunk: seq<byte>, end: nat) returns (done: bool)
      requires Valid(net) && net.agreed && |chunk| <= |net.sent| && chunk == net.sent[|net.sent| - |chunk|..]
      modifies this, rx, net
      ensures Valid(net) && net.agreed && net.sent == old(net.sent) && net.closing == old(net.closing) && handed == old(handed)
      ensures sndNxt == old(sndNxt) && net.iss == old(net.iss) && net.una >= old(net.una) && (done <==> Done(Acked(end)))
      ensures net.air == old(net.air) + [Flight(|net.sent| - |chunk|, chunk, false)] && net.when == old(net.when) + [|old(net.polled)|]
      ensures old(net.polled) <= net.polled && Seen(net) == TookAll(old(Seen(net)), net.polled[|old(net.polled)|..], sndNxt, |net.stream|)
      ensures old(state) == Established ==> state == Established || state == Reset
    {
      hide Received, Sending, Path.Valid, TookAll, Geq;
      Transmit(net, |net.sent| - |chunk|, chunk, false);
      done := Wait(net, Acked(end));
    }

    /** Sends one chunk, up to five times, until it is acknowledged or the connection is gone. */
    method SendChunk(net: Path, chunk: seq<byte>) returns (acked: bool)
      requires Valid(net) && state == Established && !net.closing && 0 < |chunk| <= MSS && net.Next() - net.una + |chunk| < HALF
      modifies this, rx, net
      ensures Valid(net) && net.agreed && !net.closing && net.sent == old(net.sent) + chunk && handed == old(handed)
      ensures net.una >= old(net.una) && (acked <==> net.una == |net.sent|) && (!acked ==> net.una < |net.sent|)
      ensures acked ==> sndUna == sndNxt && net.taken == net.sent
      ensures (state == Established || state == Reset) && old(net.polled) <= net.polled
      ensures SentTimes(net, Flight(|old(net.sent)|, chunk, false), !acked && state == Established)
      ensures Seen(net) == TookAll(old(Seen(net)), net.polled[|old(net.polled)|..], sndNxt, |net.stream|)
      ensures forall j :: |old(net.air)| <= j < |net.air| ==> StillOpen(old(Seen(net)), |old(net.polled)|, net.when[j], net, |net.sent|)
    {
      hide Received, Path.Valid, Geq, Wire, Add, TookAll, OpenAt;
      ghost var v0, from := Seen(net), |net.polled|;
      var end := Add(sndNxt, |chunk|);
      WireAdd(net.iss, net.Next(), |chunk|);
      Append(net, chunk);
      acked := false;
      var tries := 0;
      ghost var f := Flight(|old(net.sent)|, chunk, false);
      OneMoreCopy(net.air, f, 0);
      TookNone(v0, net.polled, sndNxt, |net.stream|);
      while tries < TRIES
        invariant Valid(net) && net.agreed && !net.closing && net.sent == old(net.sent) + chunk && state == Established
        invariant handed == old(handed) && !acked && end == Wire(net.iss, |net.sent|) && old(net.una) <= net.una < |net.sent|
        invariant tries <= TRIES && net.air == old(net.air) + Copies(f, tries) && (tries > 0 ==> !Done(Acked(end)))
        invariant old(net.polled) <= net.polled && Seen(net) == TookAll(v0, net.polled[from..], sndNxt, |net.stream|)
        invariant forall j :: |old(net.air)| <= j < |net.air| ==> StillOpen(v0, from, net.when[j], net, |net.sent|)
      {
        NowOpen(net, v0, from);
        ghost var before, whens := net.polled, net.when;
        OneMoreCopy(old(net.air), f, tries);
        var done := Attempt(net, chunk, end);
        TookSince(v0, from, before, net.polled, sndNxt, |net.stream|);
        forall j | |old(net.air)| <= j < |net.air| ensures StillOpen(v0, from, net.when[j], net, |net.sent|) {
          assert j < |whens| ==> net.when[j] == whens[j];
          OpenThen(net, v0, from, before, net.when[j]);
        }
        if done {
          acked := Geq(sndUna, end);
          break;
        }
        NotAllTaken(net, end);
        tries := tries + 1;
      }
      if acked { AllTaken(net, end); } else { NotAllTaken(net, end); }
    }

    lemma NowOpen(net: Path, v: View, from: nat)
      requires from <= |net.polled| && Seen(net) == TookAll(v, net.polled[from..], sndNxt, |net.stream|)
      requires state == Established && net.una < |net.sent|
      ensures OpenAt(v, from, |net.polled|, net.polled, sndNxt, |net.stream|, |net.sent|)
    {
      assert net.polled[from..|net.polled|] == net.polled[from..];
    }

    lemma OpenThen(net: Path, v: View, from: nat, before: seq<Arrival>, k: nat)
      requires before <= net.polled && OpenAt(v, from, k, before, sndNxt, |net.stream|, |net.sent|)
      ensures StillOpen(v, from, k, net, |net.sent|)
    {
      assert net.polled[from..k] == before[from..k];
    }

    /** When `k` segments had reached us, the connection was open and something of `total` bytes was not acknowledged. */
    ghost predicate StillOpen(v: View, from: nat, k: nat, net: Path, total: nat)
      reads `sndNxt, net`polled
    { OpenAt(v, from, k, net.polled, sndNxt, |net.stream|, total) }

    /** The only thing put on the network was `f`, at least once and at most five times, and five times if `given up`. */
    twostate predicate SentTimes(net: Path, f: Flight, givenUp: bool)
      reads net
    { exists k :: 1 <= k <= TRIES && net.air == old(net.air) + Copies(f, k) && (givenUp ==> k == TRIES) }

    /** The last thing put on the network was put there five times over. */
    ghost predicate GaveUp(net: Path)
      reads net
    { exists f, rest :: net.air == rest + Copies(f, TRIES) }

    lemma FiveAtEnd(net: Path, before: seq<Flight>, f: Flight)
      requires exists k :: 1 <= k <= TRIES && net.air == before + Copies(f, k) && k == TRIES
      ensures GaveUp(net)
    {}

    /** Sends all of `data`, a segment at a time, each acknowledged before the next. */
    method Send(net: Path, data: seq<byte>) returns (r: Outcome<nat>)
      requires Valid(net) && (state == Established ==> !net.closing && net.Next() - net.una + Min(MSS, |data|) < HALF)
      modifies this, rx, net
      ensures Valid(net) && handed == old(handed)
      ensures old(net.sent) <= net.sent <= old(net.sent) + data
      ensures data == [] ==> r == Ok(0) && sndUna == old(sndUna) && sndNxt == old(sndNxt) && net.sent == old(net.sent)
      ensures data == [] ==> net.taken == old(net.taken)
      ensures old(state) != Established && data != [] ==> r == Err(NotOpen) && net.sent == old(net.sent) && net.air == old(net.air)
      ensures net.closing == old(net.closing)
      ensures r.Err? ==> data != [] && (r.error == Timeout || r.error == NotOpen)
      ensures r == Err(Timeout) ==> state == Established && net.una < |net.sent| && GaveUp(net)
      ensures r == Err(NotOpen) ==> state != Established
      ensures r.Ok? && data != [] ==> r.value == |data| && net.sent == old(net.sent) + data && sndUna == sndNxt
      ensures r.Ok? && data != [] ==> net.taken == net.sent
    {
      hide Received, Sending, Path.Valid;
      var i := 0;
      Piece(old(net.sent), data, 0, 0);
      while i < |data|
        invariant i <= |data| && Valid(net) && net.sent == old(net.sent) + data[..i] && handed == old(handed)
        invariant i == 0 ==> state == old(state) && net.una == old(net.una) && net.closing == old(net.closing) && net.air == old(net.air)
        invariant i > 0 ==> old(state) == Established
        invariant i == 0 ==> sndUna == old(sndUna) && sndNxt == old(sndNxt) && net.taken == old(net.taken)
        invariant i > 0 ==> net.agreed && !net.closing && net.una == |net.sent| && sndUna == sndNxt && net.taken == net.sent
      {
        if state != Established { return Err(NotOpen); }
        var n := Min(MSS, |data| - i);
        Piece(old(net.sent), data, i, n);
        ghost var before, at := net.air, |net.sent|;
        var acked := SendChunk(net, data[i..i + n]);
        if !acked && state == Established { FiveAtEnd(net, before, Flight(at, data[i..i + n], false)); }
        if !acked { return Err(if state == Reset then NotOpen else Timeout); }
        i := i + n;
      }
      Piece(old(net.sent), data, |data|, 0);
      return Ok(|data|);
    }

    /** Takes `n` bytes out of the ring. */
    method Pop(out: array<byte>, n: nat)
      requires rx.Length == RX && head < RX && n <= len <= RX && n <= out.Length && out != rx
      modifies out, `head, `len
      ensures head < RX && len == old(len) - n && out[..n] + Ring(rx[..], head, len) == Ring(old(rx[..]), old(head), old(len))
      ensures forall k :: n <= k < out.Length ==> out[k] == old(out[k])
    {
      hide Ring, Slot;
      for i := 0 to n
        invariant head < RX && len == old(len) - i && out[..i] + Ring(rx[..], head, len) == Ring(rx[..], old(head), old(len))
        invariant forall k :: i <= k < out.Length ==> out[k] == old(out[k])
      {
        RingPop(rx[..], head, len);
        ghost var front := out[..i];
        out[i] := rx[head];
        head := Slot(head, 1);
        len := len - 1;
        assert out[..i + 1] == front + [out[i]];
      }
    }

    /** Waits for data and hands out what there is room for. */
    method Recv(net: Path, out: array<byte>) returns (r: Outcome<nat>)
      requires Valid(net) && out != rx
      modifies this, rx, net, out
      ensures Valid(net)
      ensures r.Ok? ==> r.value <= out.Length && handed == old(handed) + out[..r.value]
      ensures r.Err? ==> handed == old(handed)
      ensures handed <= net.stream
      ensures out.Length > 0 && r == Ok(0) ==> handed == net.stream && fin
      ensures old(len) > 0 ==> r.Ok?
      ensures r.Ok? ==> (r.value == out.Length || len == 0) && (r.value == 0 < out.Length ==> fin)
      ensures r.Err? ==> len == 0 && !fin && (if state == Established then r.error == Timeout else r.error == NotOpen)
      ensures old(net.polled) <= net.polled
      ensures var v := TookAll(old(Seen(net)), net.polled[|old(net.polled)|..], sndNxt, |net.stream|);
              Seen(net) == v.(len := len) && len == v.len - (|handed| - |old(handed)|)
      ensures r.Ok? && r.value > 0 ==> net.receipts != [] && net.receipts[|net.receipts| - 1].pos == net.arrived + if fin then 1 else 0
    {
      hide Sending, Path.Valid, Wire, Ring;
      var ready := Wait(net, Readable);
      HandedIsPrefix(net);
      if !ready { return Err(Timeout); }
      if len == 0 { return if fin then Ok(0) else Err(NotOpen); }
      var n := Min(out.Length, len);
      ghost var m, ring := out[..], Ring(rx[..], head, len);
      Pop(out, n);
      Regroup(handed, out[..n], Ring(rx[..], head, len), net.stream, net.arrived);
      handed := handed + out[..n];
      Acknowledge(net);
      return Ok(n);
    }

    lemma HandedIsPrefix(net: Path)
      requires Valid(net)
      ensures handed <= net.stream
      ensures fin && len == 0 ==> handed == net.stream
    {
      hide Sending, Path.Valid, Wire;
      if net.agreed {
        assert handed == (handed + Ring(rx[..], head, len))[..|handed|];
      }
    }

    /** The end of our stream takes a number of its own. */
    method EndStream(net: Path)
      requires Valid(net) && net.agreed && !net.closing && net.Next() - net.una + 1 < HALF
      modifies `sndNxt, net`closing
      ensures Valid(net) && net.closing
    {
      hide Wire, Ring, Received, Add;
      WireAdd(net.iss, net.Next(), 1);
      sndNxt := Add(sndNxt, 1);
      net.closing := true;
    }

    /** Closes our half: the end of our stream is sent once, and nothing after it. */
    method Close(net: Path)
      requires Valid(net) && (state == Established ==> !net.closing && net.Next() - net.una + 1 < HALF)
      modifies this, rx, net
      ensures old(state) != Established ==> sndNxt == old(sndNxt) && net.air == old(net.air)
      ensures Valid(net) && state == Closed && handed == old(handed) && net.sent == old(net.sent)
      ensures net.closing <==> old(net.closing) || old(state) == Established
      ensures old(state) == Established ==> net.air == old(net.air) + [Flight(|net.sent|, [], true)]
    {
      hide Wire, Ring, Received, Sending, Path.Valid, Took, TookAll;
      if state == Established {
        EndStream(net);
        Transmit(net, |net.sent|, [], true);
        var acked := Wait(net, Acked(sndNxt));
        if !fin { acked := Wait(net, Finished); }
      }
      state := Closed;
    }
  }
}
