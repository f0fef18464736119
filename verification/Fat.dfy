/**
The read-only FAT reader: the chain of clusters through a one-sector cache, whole clusters in batches, and
parts of files.

What the table and a file mean is stated on the bytes of the disk; the reader is proved to give exactly that.
*/
module Fat {
  import opened Wrappers
  import opened Memory

  const SECTOR: nat := 512
  const BATCH: nat := 16
  const NOTHING: nat := 0xFFFF_FFFF_FFFF_FFFF

  datatype Kind = Fat12 | Fat16 | Fat32
  datatype Result<T> = Ok(value: T) | Err
  datatype DirEntry = DirEntry(cluster: nat, size: nat)

  // ---------------------------------------------------------------- the table

  function U16(b: seq<byte>, at: nat): nat
    requires at + 2 <= |b|
  { b[at] as int + 256 * (b[at + 1] as int) }

  function U32(b: seq<byte>, at: nat): nat
    requires at + 4 <= |b|
  { U16(b, at) + 0x1_0000 * U16(b, at + 2) }

  /** Where entry `c` starts in the table, and how many bytes hold it. */
  function EntryAt(kind: Kind, c: nat): nat {
    match kind
    case Fat12 => c * 3 / 2
    case Fat16 => c * 2
    case Fat32 => c * 4
  }

  function EntryWidth(kind: Kind): nat { if kind.Fat32? then 4 else 2 }

  predicate InTable(kind: Kind, t: seq<byte>, c: nat) { EntryAt(kind, c) + EntryWidth(kind) <= |t| }

  /** Entry `c` of a packed table. */
  function Entry(kind: Kind, t: seq<byte>, c: nat): nat
    requires InTable(kind, t, c)
  {
    match kind
    case Fat12 => (var raw := U16(t, c * 3 / 2); if c % 2 == 0 then raw % 0x1000 else raw / 16)
    case Fat16 => U16(t, c * 2)
    case Fat32 => U32(t, c * 4) % 0x1000_0000
  }

  function EndMark(kind: Kind): nat {
    match kind
    case Fat12 => 0xFF8
    case Fat16 => 0xFFF8
    case Fat32 => 0x0FFF_FFF8
  }

  function Next(kind: Kind, t: seq<byte>, c: nat): Option<nat>
    requires InTable(kind, t, c)
  { if Entry(kind, t, c) < EndMark(kind) then Some(Entry(kind, t, c)) else None }

  // ---------------------------------------------------------------- packing, the other way round

  /** Two 12-bit entries in three bytes; one on its own takes two. */
  function Pack12(es: seq<nat>): seq<byte> {
    if es == [] then []
    else if |es| == 1 then [es[0] % 256, Mid(es[0], 0)]
    else [es[0] % 256, Mid(es[0], es[1]), High(es[1])] + Pack12(es[2..])
  }

  /** The byte two entries share: the top of one and the bottom of the next. */
  function Mid(a: nat, b: nat): byte { a / 256 % 16 + 16 * (b % 16) }
  function High(b: nat): byte { b / 16 % 256 }

  function Pack16(es: seq<nat>): seq<byte> {
    if es == [] then [] else [es[0] % 256, es[0] / 256 % 256] + Pack16(es[1..])
  }

  /** The top four bits of an entry are not its own. */
  function Pack32(es: seq<nat>, top: nat): seq<byte> {
    if es == [] then []
    else [es[0] % 256, es[0] / 256 % 256, es[0] / 0x1_0000 % 256, es[0] / 0x100_0000 % 16 + 16 * (top % 16)] + Pack32(es[1..], top)
  }

  function Pack(kind: Kind, es: seq<nat>, top: nat): seq<byte> {
    match kind
    case Fat12 => Pack12(es)
    case Fat16 => Pack16(es)
    case Fat32 => Pack32(es, top)
  }

  predicate Fits(kind: Kind, es: seq<nat>) {
    forall i :: 0 <= i < |es| ==> es[i] < if kind.Fat12? then 0x1000 else if kind.Fat16? then 0x1_0000 else 0x1000_0000
  }

  lemma {:induction false} Packed12(es: seq<nat>, c: nat)
    requires Fits(Fat12, es) && c < |es|
    ensures InTable(Fat12, Pack12(es), c) && Entry(Fat12, Pack12(es), c) == es[c]
  {
    hide Entry, InTable;
    if c < 2 {
      FirstPair(es, c);
    } else {
      Packed12(es[2..], c - 2);
      PairBefore(Pack12(es)[..3], Pack12(es[2..]), c);
      assert Pack12(es) == Pack12(es)[..3] + Pack12(es[2..]);
    }
  }

  lemma FirstPair(es: seq<nat>, c: nat)
    requires Fits(Fat12, es) && c < 2 && c < |es|
    ensures InTable(Fat12, Pack12(es), c) && Entry(Fat12, Pack12(es), c) == es[c]
  {
    hide Entry, Mid, High;
    if |es| == 1 { Shared(es[0], 0); } else { Shared(es[0], es[1]); }
    if c == 0 { FirstOfPair(Pack12(es), es[0]); } else { SecondOfPair(Pack12(es), es[1]); }
  }

  lemma Shared(a: nat, b: nat)
    requires a < 0x1000 && b < 0x1000
    ensures Mid(a, b) % 16 == a / 256 && Mid(a, b) / 16 == b % 16 && High(b) == b / 16
  {
    Middle(a / 256 % 16, b % 16);
  }

  lemma Middle(x: nat, y: nat)
    requires x < 16 && y < 16
    ensures (x + 16 * y) % 16 == x && (x + 16 * y) / 16 == y
  {}

  lemma FirstOfPair(t: seq<byte>, a: nat)
    requires |t| >= 2 && a < 0x1000 && t[0] == a % 256 && t[1] % 16 == a / 256
    ensures Entry(Fat12, t, 0) == a
  {
    LowTwelve(t[0], t[1]);
  }

  lemma LowTwelve(x: int, y: int)
    requires 0 <= x < 256 && 0 <= y < 256
    ensures (x + 256 * y) % 0x1000 == x + 256 * (y % 16)
  {}

  lemma SecondOfPair(t: seq<byte>, b: nat)
    requires |t| >= 3 && b < 0x1000 && t[1] / 16 == b % 16 && t[2] == b / 16
    ensures Entry(Fat12, t, 1) == b
  {
    HighTwelve(t[1], t[2]);
  }

  lemma HighTwelve(x: int, y: int)
    requires 0 <= x < 256 && 0 <= y < 256
    ensures (x + 256 * y) / 16 == x / 16 + 16 * y
  {}

  lemma PairBefore(pair: seq<byte>, rest: seq<byte>, c: nat)
    requires |pair| == 3 && c >= 2 && InTable(Fat12, rest, c - 2)
    ensures InTable(Fat12, pair + rest, c) && Entry(Fat12, pair + rest, c) == Entry(Fat12, rest, c - 2)
  {
    assert c * 3 / 2 == (c - 2) * 3 / 2 + 3;
  }

  lemma {:induction false} Packed16(es: seq<nat>, c: nat)
    requires Fits(Fat16, es) && c < |es|
    ensures InTable(Fat16, Pack16(es), c) && Entry(Fat16, Pack16(es), c) == es[c]
  {
    if c > 0 { Packed16(es[1..], c - 1); }
  }

  lemma {:induction false} Packed32(es: seq<nat>, top: nat, c: nat)
    requires Fits(Fat32, es) && c < |es|
    ensures InTable(Fat32, Pack32(es, top), c) && Entry(Fat32, Pack32(es, top), c) == es[c]
  {
    if c > 0 { Packed32(es[1..], top, c - 1); } else { Quarters(es[0], top); }
  }

  lemma Quarters(a: nat, top: nat)
    requires a < 0x1000_0000
    ensures (a % 256 + 256 * (a / 256 % 256) + 0x1_0000 * (a / 0x1_0000 % 256 + 256 * (a / 0x100_0000 % 16 + 16 * (top % 16)))) % 0x1000_0000 == a
  {
    var lo, hi, t := a % 0x1_0000, a / 0x1_0000, top % 16;
    assert a % 256 + 256 * (a / 256 % 256) == lo;
    assert hi % 256 + 256 * (a / 0x100_0000 % 16) == hi by { assert a / 0x100_0000 == hi / 256; }
    TopBits(lo, hi, t);
  }

  lemma TopBits(lo: nat, hi: nat, t: nat)
    requires lo < 0x1_0000 && hi < 0x1000
    ensures (lo + 0x1_0000 * (hi + 0x1000 * t)) % 0x1000_0000 == lo + 0x1_0000 * hi
  {}

  /** Packing and reading undo each other, for entries that share a byte as for those that do not. */
  lemma PackedReads(kind: Kind, es: seq<nat>, top: nat, c: nat)
    requires Fits(kind, es) && c < |es|
    ensures InTable(kind, Pack(kind, es, top), c) && Entry(kind, Pack(kind, es, top), c) == es[c]
  {
    match kind {
      case Fat12 => Packed12(es, c);
      case Fat16 => Packed16(es, c);
      case Fat32 => Packed32(es, top, c);
    }
  }

  // ---------------------------------------------------------------- the device

  class Device {
    const disk: seq<byte>
    /** How often a read has failed although the sectors are there. */
    ghost var faults: nat

    constructor (disk: seq<byte>)
      ensures this.disk == disk
    {
      this.disk, faults := disk, 0;
    }

    /** Reads `count` sectors from `lba` into `out` at `at`; it may fail. */
    method Read(lba: nat, count: nat, out: array<byte>, at: nat) returns (ok: bool)
      requires at + count * SECTOR <= out.Length
      modifies this, out
      ensures Touches(old(out[..]), out[..], at, count * SECTOR) && faults >= old(faults)
      ensures ok ==> (lba + count) * SECTOR <= |disk|
      ensures ok ==> out[at..at + count * SECTOR] == disk[lba * SECTOR..(lba + count) * SECTOR]
      ensures !ok ==> (lba + count) * SECTOR > |disk| || faults > old(faults)
    {
      if (lba + count) * SECTOR > |disk| { return false; }
      var broken: bool := *;
      if broken { faults := faults + 1; return false; }
      for i := 0 to count * SECTOR
        invariant forall k :: 0 <= k < out.Length ==> out[k] == if at <= k < at + i then disk[lba * SECTOR + k - at] else old(out[k])
        invariant faults == old(faults)
      {
        out[at + i] := disk[lba * SECTOR + i];
      }
      return true;
    }
  }

  // ---------------------------------------------------------------- the volume

  datatype Volume = Volume(kind: Kind, sectorsPerCluster: nat, fatStart: nat, dataStart: nat)

  predicate Mounted(v: Volume, disk: seq<byte>) { v.sectorsPerCluster > 0 && v.fatStart < 0x1_0000_0000 && |disk| % SECTOR == 0 }

  function ClusterSize(v: Volume): nat { v.sectorsPerCluster * SECTOR }

  /** Where cluster `i` of a file starts in it. */
  function Offset(v: Volume, i: nat): nat { if i == 0 then 0 else Offset(v, i - 1) + ClusterSize(v) }

  lemma OffsetNext(v: Volume, i: nat)
    ensures Offset(v, 0) == 0 && Offset(v, i + 1) == Offset(v, i) + ClusterSize(v)
  {}

  lemma {:induction false} OffsetIs(v: Volume, i: nat)
    ensures Offset(v, i) == i * ClusterSize(v)
  {
    if i > 0 { OffsetIs(v, i - 1); }
  }

  lemma {:induction false} OffsetUp(v: Volume, i: nat, j: nat)
    requires i <= j
    ensures Offset(v, i) <= Offset(v, j)
    decreases j
  {
    hide Offset;
    if i < j {
      OffsetUp(v, i, j - 1);
      OffsetNext(v, j - 1);
    }
  }

  function Table(v: Volume, disk: seq<byte>): seq<byte> { if v.fatStart * SECTOR <= |disk| then disk[v.fatStart * SECTOR..] else [] }

  function ClusterLba(v: Volume, c: nat): nat
    requires c >= 2
  { v.dataStart + (c - 2) * v.sectorsPerCluster }

  predicate OnDisk(v: Volume, disk: seq<byte>, c: nat) {
    && 2 <= c < 0x1_0000_0000 && ClusterLba(v, c) < 0x1_0000_0000
    && ClusterLba(v, c) * SECTOR + ClusterSize(v) <= |disk|
  }

  function Cluster(v: Volume, disk: seq<byte>, c: nat): (r: seq<byte>)
    requires OnDisk(v, disk, c)
    ensures |r| == ClusterSize(v)
  { disk[ClusterLba(v, c) * SECTOR..ClusterLba(v, c) * SECTOR + ClusterSize(v)] }

  /** The clusters of a file of `size` bytes from `c` on, each on the disk, up to the end mark or as far as the size goes. A
      table whose entries lead around in a circle has such chains too, of any length. */
  ghost predicate IsChain(v: Volume, disk: seq<byte>, c: nat, cs: seq<nat>, size: nat) {
    && cs != [] && cs[0] == c
    && (forall i :: 0 <= i < |cs| ==> OnDisk(v, disk, cs[i]) && InTable(v.kind, Table(v, disk), cs[i]))
    && (forall i, j :: 0 <= i < j < |cs| && j == i + 1 ==> Next(v.kind, Table(v, disk), cs[i]) == Some(cs[j]))
    && (Next(v.kind, Table(v, disk), cs[|cs| - 1]) == None || size <= Offset(v, |cs|))
  }

  /** The bytes of clusters `cs`, one after the other. */
  function Bytes(v: Volume, disk: seq<byte>, cs: seq<nat>): (r: seq<byte>)
    requires forall i :: 0 <= i < |cs| ==> OnDisk(v, disk, cs[i])
    ensures |r| == Offset(v, |cs|)
  {
    OffsetNext(v, if cs == [] then 0 else |cs| - 1);
    if cs == [] then [] else Bytes(v, disk, cs[..|cs| - 1]) + Cluster(v, disk, cs[|cs| - 1])
  }

  /** Cluster `i` of a chain is bytes `i * size..(i + 1) * size` of it. */
  lemma {:induction false} BytesAt(v: Volume, disk: seq<byte>, cs: seq<nat>, i: nat)
    requires i < |cs| && forall i :: 0 <= i < |cs| ==> OnDisk(v, disk, cs[i])
    ensures Offset(v, i) + ClusterSize(v) == Offset(v, i + 1) <= Offset(v, |cs|)
    ensures Bytes(v, disk, cs)[Offset(v, i)..Offset(v, i + 1)] == Cluster(v, disk, cs[i])
  {
    hide Cluster, OnDisk, ClusterSize, Offset;
    var n := |cs|;
    var front, last := Bytes(v, disk, cs[..n - 1]), Cluster(v, disk, cs[n - 1]);
    OffsetNext(v, i);
    OffsetUp(v, i + 1, n);
    if i < n - 1 {
      BytesAt(v, disk, cs[..n - 1], i);
      FrontSlice(front, last, Offset(v, i), Offset(v, i + 1));
    } else {
      assert (front + last)[|front|..] == last;
    }
  }

  lemma FrontSlice(front: seq<byte>, last: seq<byte>, a: nat, b: nat)
    requires a <= b <= |front|
    ensures (front + last)[a..b] == front[a..b]
  {}

  /** Part of a cluster is part of the chain. */
  lemma PartAt(v: Volume, disk: seq<byte>, cs: seq<nat>, i: nat, pos: nat, n: nat)
    requires i < |cs| && pos + n <= ClusterSize(v) && forall i :: 0 <= i < |cs| ==> OnDisk(v, disk, cs[i])
    ensures Offset(v, i) + pos + n <= Offset(v, |cs|)
    ensures Bytes(v, disk, cs)[Offset(v, i) + pos..Offset(v, i) + pos + n] == Cluster(v, disk, cs[i])[pos..pos + n]
  {
    hide Cluster, Bytes, OnDisk, Offset;
    BytesAt(v, disk, cs, i);
    SubSlice(Bytes(v, disk, cs), Offset(v, i), Offset(v, i + 1), pos, n);
  }

  lemma SubSlice(s: seq<byte>, a: nat, b: nat, p: nat, n: nat)
    requires a <= b <= |s| && p + n <= b - a
    ensures s[a..b][p..p + n] == s[a + p..a + p + n]
  {
    var l, r := s[a..b][p..p + n], s[a + p..a + p + n];
    forall i | 0 <= i < n ensures l[i] == r[i] { assert s[a..b][p + i] == s[a + p + i]; }
  }

  /** The contents of a file: its clusters, cut off at its size. */
  ghost function File(v: Volume, disk: seq<byte>, e: DirEntry, cs: seq<nat>): (r: seq<byte>)
    requires e.size > 0 ==> IsChain(v, disk, e.cluster, cs, e.size)
    ensures |r| == if e.size == 0 then 0 else Min(e.size, Offset(v, |cs|))
  { if e.size == 0 then [] else Bytes(v, disk, cs)[..Min(e.size, Offset(v, |cs|))] }

  /** A sector of the table holds the bytes of the entries in it. */
  lemma SectorByte(v: Volume, disk: seq<byte>, lba: nat, off: nat)
    requires v.fatStart <= lba && (lba + 1) * SECTOR <= |disk| && lba - v.fatStart == off / SECTOR
    ensures off < |Table(v, disk)| && disk[lba * SECTOR..(lba + 1) * SECTOR][off % SECTOR] == Table(v, disk)[off]
  {
    assert lba * SECTOR + off % SECTOR == v.fatStart * SECTOR + off;
  }

  /** Without room for the sector there is no entry in it. */
  lemma SectorMissing(v: Volume, disk: seq<byte>, lba: nat, off: nat)
    requires |disk| % SECTOR == 0 && v.fatStart <= lba && lba - v.fatStart == off / SECTOR && (lba + 1) * SECTOR > |disk|
    ensures off >= |Table(v, disk)|
  {}

  lemma SameSector(off: nat, i: nat)
    requires off % SECTOR + i < SECTOR
    ensures (off + i) / SECTOR == off / SECTOR && (off + i) % SECTOR == off % SECTOR + i
  {}

  lemma RoomFor(c: nat)
    ensures c * 4 % SECTOR + 4 <= SECTOR && c * 2 % SECTOR + 2 <= SECTOR
  {}

  lemma Following(off: nat)
    requires off % SECTOR == SECTOR - 1
    ensures (off + 1) / SECTOR == off / SECTOR + 1 && (off + 1) % SECTOR == 0
  {}

  lemma SameU16(a: seq<byte>, i: nat, b: seq<byte>, j: nat)
    requires i + 2 <= |a| && j + 2 <= |b| && a[i..i + 2] == b[j..j + 2]
    ensures U16(a, i) == U16(b, j)
  {
    assert a[i..i + 2][0] == b[j..j + 2][0] && a[i..i + 2][1] == b[j..j + 2][1];
  }

  lemma SameU32(a: seq<byte>, i: nat, b: seq<byte>, j: nat)
    requires i + 4 <= |a| && j + 4 <= |b| && a[i..i + 4] == b[j..j + 4]
    ensures U32(a, i) == U32(b, j)
  {
    assert a[i..i + 2] == a[i..i + 4][..2] && a[i + 2..i + 4] == a[i..i + 4][2..];
    assert b[j..j + 2] == b[j..j + 4][..2] && b[j + 2..j + 4] == b[j..j + 4][2..];
    SameU16(a, i, b, j);
    SameU16(a, i + 2, b, j + 2);
  }

  lemma Joins(out: seq<byte>, disk: seq<byte>, was: seq<byte>, lba: nat, done: nat, n: nat)
    requires (done + n) * SECTOR <= |out| && (lba + done + n) * SECTOR <= |disk| && was == out[..done * SECTOR]
    requires done > 0 ==> was == disk[lba * SECTOR..(lba + done) * SECTOR]
    requires out[done * SECTOR..done * SECTOR + n * SECTOR] == disk[(lba + done) * SECTOR..(lba + done + n) * SECTOR]
    ensures out[..(done + n) * SECTOR] == disk[lba * SECTOR..(lba + done + n) * SECTOR]
  {
    assert out[..(done + n) * SECTOR] == out[..done * SECTOR] + out[done * SECTOR..done * SECTOR + n * SECTOR];
    assert disk[lba * SECTOR..(lba + done + n) * SECTOR]
        == disk[lba * SECTOR..(lba + done) * SECTOR] + disk[(lba + done) * SECTOR..(lba + done + n) * SECTOR];
  }

  /** What was copied goes on where it stopped. */
  lemma Grown(was: seq<byte>, out: seq<byte>, scratch: seq<byte>, whole: seq<byte>, cluster: seq<byte>, at: nat, pos: nat, n: nat)
    requires at + n <= |out| && at + n <= |whole| && pos + n <= |scratch| && pos + n <= |cluster|
    requires was == out[..at] && was == whole[..at] && out[at..at + n] == scratch[pos..pos + n]
    requires scratch[pos..pos + n] == cluster[pos..pos + n]
    requires whole[at..at + n] == cluster[pos..pos + n]
    ensures out[..at + n] == whole[..at + n]
  {
    assert out[..at + n] == out[..at] + out[at..at + n];
    assert whole[..at + n] == whole[..at] + whole[at..at + n];
  }

  /** How many bytes there are to read. */
  function Asked(e: DirEntry, offset: nat, n: nat): nat { if offset >= e.size then 0 else Min(n, e.size - offset) }

  /** `k` bytes of `file` from `offset` on are in `out` at `at`. */
  ghost predicate Delivers(file: seq<byte>, offset: nat, out: seq<byte>, at: nat, k: nat) {
    k > 0 ==> offset + k <= |file| && at + k <= |out| && out[at..at + k] == file[offset..offset + k]
  }

  lemma Delivered(v: Volume, disk: seq<byte>, e: DirEntry, cs: seq<nat>, offset: nat, out: seq<byte>, at: nat, k: nat)
    requires e.size > 0 && IsChain(v, disk, e.cluster, cs, e.size) && offset + k <= e.size && offset + k <= Offset(v, |cs|)
    requires at + k <= |out|
    requires out[at..at + k] == Bytes(v, disk, cs)[offset..offset + k]
    ensures Delivers(File(v, disk, e, cs), offset, out, at, k)
  {
    hide IsChain, Bytes, Offset;
    ChainOnDisk(v, disk, e.cluster, cs, e.size);
    var whole, n := Bytes(v, disk, cs), Min(e.size, Offset(v, |cs|));
    SubSlice(whole, 0, n, offset, k);
    assert whole[0..n] == whole[..n];
  }

  lemma ChainOnDisk(v: Volume, disk: seq<byte>, c: nat, cs: seq<nat>, size: nat)
    requires IsChain(v, disk, c, cs, size)
    ensures cs != [] && forall i :: 0 <= i < |cs| ==> OnDisk(v, disk, cs[i])
  {}

  lemma NoneAsked(v: Volume, disk: seq<byte>, e: DirEntry, cs: seq<nat>, offset: nat, out: seq<byte>, at: nat)
    requires e.size > 0 ==> IsChain(v, disk, e.cluster, cs, e.size)
    ensures Delivers(File(v, disk, e, cs), offset, out, at, 0)
  {}

  lemma FileSize(v: Volume, disk: seq<byte>, e: DirEntry, cs: seq<nat>)
    requires e.size > 0 && IsChain(v, disk, e.cluster, cs, e.size)
    ensures |File(v, disk, e, cs)| == Min(e.size, Offset(v, |cs|))
  {}

  lemma {:induction false} SameWay(v: Volume, disk: seq<byte>, c: nat, a: seq<nat>, b: seq<nat>, size: nat, i: nat)
    requires IsChain(v, disk, c, a, size) && IsChain(v, disk, c, b, size) && i < |a| && i < |b|
    ensures a[i] == b[i]
  {
    hide OnDisk, InTable, Table, Next, Offset;
    if i > 0 { SameWay(v, disk, c, a, b, size, i - 1); }
  }

  lemma {:induction false} BytesUpTo(v: Volume, disk: seq<byte>, cs: seq<nat>, k: nat)
    requires k <= |cs| && forall i :: 0 <= i < |cs| ==> OnDisk(v, disk, cs[i])
    ensures Offset(v, k) <= Offset(v, |cs|) && Bytes(v, disk, cs)[..Offset(v, k)] == Bytes(v, disk, cs[..k])
  {
    hide OnDisk, Cluster, Offset;
    OffsetUp(v, k, |cs|);
    if k < |cs| {
      var front := cs[..|cs| - 1];
      BytesUpTo(v, disk, front, k);
      assert front[..k] == cs[..k];
    } else {
      assert cs[..k] == cs;
    }
  }

  /** What a file holds does not depend on how far the chain is followed. */
  lemma OneFile(v: Volume, disk: seq<byte>, e: DirEntry, a: seq<nat>, b: seq<nat>)
    requires e.size > 0 ==> IsChain(v, disk, e.cluster, a, e.size) && IsChain(v, disk, e.cluster, b, e.size)
    ensures File(v, disk, e, a) == File(v, disk, e, b)
    decreases |a|
  {
    if e.size > 0 {
      if |a| > |b| { OneFile(v, disk, e, b, a); return; }
      forall i | 0 <= i < |a| ensures a[i] == b[i] { SameWay(v, disk, e.cluster, a, b, e.size, i); }
      assert a == b[..|a|];
      BytesUpTo(v, disk, b, |a|);
      if |a| < |b| { assert Next(v.kind, Table(v, disk), a[|a| - 1]) == Some(b[|a|]); }
    }
  }

  lemma ChainStarts(v: Volume, disk: seq<byte>, c: nat, cs: seq<nat>, size: nat)
    requires IsChain(v, disk, c, cs, size)
    ensures cs != [] && cs[0] == c
  {}

  lemma TouchesNothing(m: seq<byte>, at: nat, n: nat)
    ensures Touches(m, m, at, n)
  {}

  lemma TouchesMore(m: seq<byte>, m1: seq<byte>, m': seq<byte>, at: nat, n: nat, from: nat, k: nat)
    requires Touches(m, m1, at, n) && Touches(m1, m', from, k) && at <= from && from + k <= at + n
    ensures Touches(m, m', at, n)
  {}

  lemma GrownAt(was: seq<byte>, out: seq<byte>, scratch: seq<byte>, whole: seq<byte>, cluster: seq<byte>,
                at: nat, offset: nat, done: nat, pos: nat, k: nat)
    requires |was| == |out| && at + done + k <= |out| && offset + done + k <= |whole| && pos + k <= |scratch|
    requires pos + k <= |cluster|
    requires Touches(was, out, at + done, k) && (done > 0 ==> was[at..at + done] == whole[offset..offset + done])
    requires out[at + done..at + done + k] == scratch[pos..pos + k] && |cluster| <= |scratch| && scratch[..|cluster|] == cluster
    requires whole[offset + done..offset + done + k] == cluster[pos..pos + k]
    ensures out[at..at + done + k] == whole[offset..offset + done + k]
  {
    assert out[at..at + done] == was[at..at + done];
    SubSlice(scratch, 0, |cluster|, pos, k);
    assert scratch[0..|cluster|] == scratch[..|cluster|];
    assert out[at..at + done + k] == out[at..at + done] + out[at + done..at + done + k];
    assert whole[offset..offset + done + k] == whole[offset..offset + done] + whole[offset + done..offset + done + k];
  }

  class Reader {
    const v: Volume
    /** One sector of the table, and which. */
    var sector: seq<byte>
    var cached: nat

    ghost predicate Valid(dev: Device)
      reads this
    {
      && Mounted(v, dev.disk) && |sector| == SECTOR
      && (cached != NOTHING ==> (cached + 1) * SECTOR <= |dev.disk| && sector == dev.disk[cached * SECTOR..(cached + 1) * SECTOR])
    }

    constructor (v: Volume, dev: Device)
      requires Mounted(v, dev.disk)
      ensures Valid(dev) && this.v == v
    {
      this.v, sector, cached := v, seq(SECTOR, i => 0), NOTHING;
    }

    method FatSector(dev: Device, lba: nat) returns (ok: bool)
      requires Valid(dev) && lba < NOTHING
      modifies this, dev
      ensures Valid(dev) && dev.faults >= old(dev.faults)
      ensures ok ==> (lba + 1) * SECTOR <= |dev.disk| && sector == dev.disk[lba * SECTOR..(lba + 1) * SECTOR]
      ensures !ok ==> (lba + 1) * SECTOR > |dev.disk| || dev.faults > old(dev.faults)
    {
      if cached != lba {
        var tmp := new byte[SECTOR];
        ok := dev.Read(lba, 1, tmp, 0);
        if !ok { return; }
        assert tmp[..] == tmp[0..0 + 1 * SECTOR];
        sector := tmp[..];
        cached := lba;
      }
      return true;
    }

    method Next32(dev: Device, c: nat) returns (r: Result<Option<nat>>)
      requires Valid(dev) && c < 0x1_0000_0000
      modifies this, dev
      ensures Valid(dev) && dev.faults >= old(dev.faults)
      ensures r.Ok? ==> InTable(Fat32, Table(v, dev.disk), c) && r.value == Next(Fat32, Table(v, dev.disk), c)
      ensures r.Err? ==> !InTable(Fat32, Table(v, dev.disk), c) || dev.faults > old(dev.faults)
    {
      hide Table, U32, U16, Valid;
      var off := c * 4;
      NotPast(dev, off);
      var ok := FatSector(dev, v.fatStart + off / SECTOR);
      Missing(dev, off);
      if !ok { return Err; }
      RoomFor(c);
      InSector(dev, off, 4);
      SameU32(sector, off % SECTOR, Table(v, dev.disk), off);
      var e := U32(sector, off % SECTOR) % 0x1000_0000;
      return Ok(if e < 0x0FFF_FFF8 then Some(e) else None);
    }

    method Next16(dev: Device, c: nat) returns (r: Result<Option<nat>>)
      requires Valid(dev) && c < 0x1_0000_0000
      modifies this, dev
      ensures Valid(dev) && dev.faults >= old(dev.faults)
      ensures r.Ok? ==> InTable(Fat16, Table(v, dev.disk), c) && r.value == Next(Fat16, Table(v, dev.disk), c)
      ensures r.Err? ==> !InTable(Fat16, Table(v, dev.disk), c) || dev.faults > old(dev.faults)
    {
      hide Table, U16, Valid;
      var off := c * 2;
      NotPast(dev, off);
      var ok := FatSector(dev, v.fatStart + off / SECTOR);
      Missing(dev, off);
      if !ok { return Err; }
      RoomFor(c);
      InSector(dev, off, 2);
      SameU16(sector, off % SECTOR, Table(v, dev.disk), off);
      var e := U16(sector, off % SECTOR);
      return Ok(if e < 0xFFF8 then Some(e) else None);
    }

    method Next12(dev: Device, c: nat) returns (r: Result<Option<nat>>)
      requires Valid(dev) && c < 0x1_0000_0000
      modifies this, dev
      ensures Valid(dev) && dev.faults >= old(dev.faults)
      ensures r.Ok? ==> InTable(Fat12, Table(v, dev.disk), c) && r.value == Next(Fat12, Table(v, dev.disk), c)
      ensures r.Err? ==> !InTable(Fat12, Table(v, dev.disk), c) || dev.faults > old(dev.faults)
    {
      hide Table, Valid;
      var off := c * 3 / 2;
      NotPast(dev, off);
      var ok := FatSector(dev, v.fatStart + off / SECTOR);
      Missing(dev, off);
      if !ok { return Err; }
      InSector(dev, off, 1);
      var at := off % SECTOR;
      var lo := sector[at];
      assert lo == Table(v, dev.disk)[off] by { assert sector[at..at + 1][0] == Table(v, dev.disk)[off..off + 1][0]; }
      var hi;
      if at == 511 {
        Following(off);
        ok := FatSector(dev, v.fatStart + off / SECTOR + 1);
        Missing(dev, off + 1);
        if !ok { return Err; }
        InSector(dev, off + 1, 1);
        hi := sector[0];
        assert hi == Table(v, dev.disk)[off + 1] by { assert sector[0..1][0] == Table(v, dev.disk)[off + 1..off + 2][0]; }
      } else {
        InSector(dev, off, 2);
        hi := sector[at + 1];
        assert hi == Table(v, dev.disk)[off + 1] by { assert sector[at..at + 2][1] == Table(v, dev.disk)[off..off + 2][1]; }
      }
      var raw := lo as int + 256 * (hi as int);
      var e := if c % 2 == 0 then raw % 0x1000 else raw / 16;
      return Ok(if e < 0xFF8 then Some(e) else None);
    }

    /** The cluster after `c`: what the table on the disk says, whatever is cached. */
    method NextCluster(dev: Device, c: nat) returns (r: Result<Option<nat>>)
      requires Valid(dev) && c < 0x1_0000_0000
      modifies this, dev
      ensures Valid(dev) && dev.faults >= old(dev.faults)
      ensures r.Ok? ==> InTable(v.kind, Table(v, dev.disk), c) && r.value == Next(v.kind, Table(v, dev.disk), c)
      ensures r.Err? ==> !InTable(v.kind, Table(v, dev.disk), c) || dev.faults > old(dev.faults)
    {
      match v.kind {
        case Fat32 => r := Next32(dev, c);
        case Fat16 => r := Next16(dev, c);
        case Fat12 => r := Next12(dev, c);
      }
    }

    lemma NotPast(dev: Device, off: nat)
      requires off < 0x4_0000_0000 && Valid(dev)
      ensures v.fatStart + off / SECTOR + 1 < NOTHING && off % SECTOR < SECTOR
    {}

    /** The sector just fetched holds bytes `off..off + n` of the table. */
    lemma InSector(dev: Device, off: nat, n: nat)
      requires Valid(dev) && off % SECTOR + n <= SECTOR && n > 0
      requires var lba := v.fatStart + off / SECTOR; (lba + 1) * SECTOR <= |dev.disk| && sector == dev.disk[lba * SECTOR..(lba + 1) * SECTOR]
      ensures |sector| == SECTOR && off + n <= |Table(v, dev.disk)|
      ensures sector[off % SECTOR..off % SECTOR + n] == Table(v, dev.disk)[off..off + n]
    {
      var t, from := Table(v, dev.disk), off % SECTOR;
      SectorByte(v, dev.disk, v.fatStart + off / SECTOR, off + n - 1) by { SameSector(off, n - 1); }
      var a, b := sector[from..from + n], t[off..off + n];
      forall i | 0 <= i < n ensures a[i] == b[i] {
        SameSector(off, i);
        SectorByte(v, dev.disk, v.fatStart + off / SECTOR, off + i);
      }
    }

    lemma Missing(dev: Device, off: nat)
      requires Valid(dev)
      ensures (v.fatStart + off / SECTOR + 1) * SECTOR > |dev.disk| ==> off >= |Table(v, dev.disk)|
    {
      if (v.fatStart + off / SECTOR + 1) * SECTOR > |dev.disk| { SectorMissing(v, dev.disk, v.fatStart + off / SECTOR, off); }
    }

    /** Reads a cluster, sixteen sectors at a time. */
    method ReadCluster(dev: Device, c: nat, out: array<byte>) returns (ok: bool)
      requires Valid(dev) && 2 <= c < 0x1_0000_0000 && ClusterLba(v, c) < 0x1_0000_0000 && ClusterSize(v) <= out.Length
      modifies dev, out
      ensures dev.faults >= old(dev.faults)
      ensures ok ==> OnDisk(v, dev.disk, c) && out[..ClusterSize(v)] == Cluster(v, dev.disk, c)
      ensures !ok ==> !OnDisk(v, dev.disk, c) || dev.faults > old(dev.faults)
    {
      var lba, sectors, done := ClusterLba(v, c), v.sectorsPerCluster, 0;
      while done < sectors
        invariant done <= sectors && ((lba + done) * SECTOR <= |dev.disk| || done == 0)
        invariant done > 0 ==> out[..done * SECTOR] == dev.disk[lba * SECTOR..(lba + done) * SECTOR]
        invariant dev.faults >= old(dev.faults)
      {
        var n := Min(sectors - done, BATCH);
        ghost var was := out[..done * SECTOR];
        ok := dev.Read(lba + done, n, out, done * SECTOR);
        if !ok { return; }
        Joins(out[..], dev.disk, was, lba, done, n);
        done := done + n;
      }
      return true;
    }

    /** One step along a chain. */
    method Step(dev: Device, ghost cs: seq<nat>, ghost size: nat, ghost i: nat, c: nat) returns (r: Result<Option<nat>>)
      requires Valid(dev) && cs != [] && IsChain(v, dev.disk, cs[0], cs, size) && i < |cs| && c == cs[i]
      modifies this, dev
      ensures Valid(dev) && dev.faults >= old(dev.faults)
      ensures r.Ok? && i + 1 < |cs| ==> r.value == Some(cs[i + 1])
      ensures r.Ok? && i + 1 == |cs| && Offset(v, |cs|) < size ==> r.value == None
      ensures r.Err? ==> dev.faults > old(dev.faults)
    {
      hide Next, Table, InTable, Valid, ClusterLba;
      assert OnDisk(v, dev.disk, cs[i]) && InTable(v.kind, Table(v, dev.disk), cs[i]);
      r := NextCluster(dev, c);
    }

    /** Copies a whole file into `out`. */
    method ReadFile(dev: Device, e: DirEntry, scratch: array<byte>, out: array<byte>, ghost cs: seq<nat>) returns (r: Result<nat>)
      requires Valid(dev) && scratch != out && ClusterSize(v) <= scratch.Length && e.size <= out.Length
      requires (e.size > 0 ==> IsChain(v, dev.disk, e.cluster, cs, e.size))
      modifies this, dev, scratch, out
      ensures Valid(dev) && dev.faults >= old(dev.faults)
      ensures r.Ok? ==> r.value == |File(v, dev.disk, e, cs)| && out[..r.value] == File(v, dev.disk, e, cs)
      ensures r.Err? ==> dev.faults > old(dev.faults)
    {
      hide Valid, Bytes, Cluster, ClusterLba, Offset, ClusterSize, Table, InTable, Next;
      var cb, cluster, copied := ClusterSize(v), e.cluster, 0;
      ghost var i := 0;
      OffsetNext(v, 0);
      while copied < e.size && cluster >= 2
        invariant Valid(dev) && dev.faults >= old(dev.faults) && cb == ClusterSize(v)
        invariant e.size > 0 ==> i <= |cs| && copied == Min(e.size, Offset(v, i)) && copied <= Offset(v, |cs|)
        invariant copied < e.size ==> i < |cs| && cluster == cs[i]
        invariant e.size > 0 ==> out[..copied] == Bytes(v, dev.disk, cs)[..copied]
        invariant e.size == 0 ==> copied == 0
        decreases |cs| - i
      {
        assert OnDisk(v, dev.disk, cs[i]);
        var ok := ReadCluster(dev, cluster, scratch);
        if !ok { return Err; }
        var n := Min(e.size - copied, cb);
        PartAt(v, dev.disk, cs, i, 0, n);
        ghost var was := out[..copied];
        CopyTo(scratch, 0, out, copied, n);
        Grown(was, out[..], scratch[..], Bytes(v, dev.disk, cs), Cluster(v, dev.disk, cs[i]), copied, 0, n);
        copied := copied + n;
        OffsetNext(v, i);
        OffsetUp(v, i + 1, |cs|);
        var next := Step(dev, cs, e.size, i, cluster);
        if next.Err? { return Err; }
        if next.value.None? { break; }
        cluster := next.value.value;
        i := i + 1;
      }
      return Ok(copied);
    }

    /** Walks to the cluster that holds byte `start`. */
    method Seek(dev: Device, c: nat, start: nat, ghost cs: seq<nat>, ghost size: nat) returns (r: Result<(nat, nat)>, ghost i: nat)
      requires Valid(dev) && IsChain(v, dev.disk, c, cs, size) && start < size
      modifies this, dev
      ensures Valid(dev) && dev.faults >= old(dev.faults)
      ensures r.Ok? ==> i < |cs| && r.value.0 == cs[i] && r.value.1 < ClusterSize(v) && start == Offset(v, i) + r.value.1
      ensures r.Err? ==> dev.faults > old(dev.faults) || Offset(v, |cs|) <= start
    {
      hide IsChain, Offset;
      assert ClusterSize(v) > 0;
      hide Valid, ClusterSize;
      var pos, cluster, cb := start, c, ClusterSize(v);
      i := 0;
      OffsetNext(v, 0);
      assert cs != [] && cs[0] == c by { ChainStarts(v, dev.disk, c, cs, size); }
      while pos >= cb
        invariant Valid(dev) && dev.faults >= old(dev.faults) && i < |cs| && cluster == cs[i] && start == Offset(v, i) + pos
        decreases pos
      {
        OffsetNext(v, i);
        pos := pos - cb;
        var next := Step(dev, cs, size, i, cluster);
        if next.Err? || next.value.None? { return Err, i; }
        cluster := next.value.value;
        i := i + 1;
      }
      return Ok((cluster, pos)), i;
    }

    /** Copies up to `n` bytes of a file from `offset` on into `out` at `at`. */
    method ReadAt(dev: Device, e: DirEntry, offset: nat, scratch: array<byte>, out: array<byte>, at: nat, n: nat,
                  ghost cs: seq<nat>)
      returns (r: Result<nat>)
      requires Valid(dev) && scratch != out && at + n <= out.Length && (e.size > 0 ==> IsChain(v, dev.disk, e.cluster, cs, e.size))
      modifies this, dev, scratch, out
      ensures Valid(dev) && dev.faults >= old(dev.faults) && Touches(old(out[..]), out[..], at, n)
      ensures r.Ok? ==> r.value == if offset < e.size then Min(n, e.size - offset) else 0
      ensures r.Ok? ==> r.value == Asked(e, offset, n) && Delivers(File(v, dev.disk, e, cs), offset, out[..], at, r.value)
      ensures r.Err? ==> offset < e.size
      ensures r.Err? ==>
                || dev.faults > old(dev.faults) || scratch.Length < ClusterSize(v)
                || |File(v, dev.disk, e, cs)| < offset + Asked(e, offset, n)
    {
      hide Delivers, File, Valid, Bytes, Cluster, ClusterLba, Offset, ClusterSize, Table, InTable, Next, Touches;
      TouchesNothing(out[..], at, n);
      if offset >= e.size || n == 0 { NoneAsked(v, dev.disk, e, cs, offset, out[..], at); return Ok(0); }
      ChainOnDisk(v, dev.disk, e.cluster, cs, e.size);
      FileSize(v, dev.disk, e, cs);
      var want, cb := Min(n, e.size - offset), ClusterSize(v);
      if scratch.Length < cb { return Err; }
      var found;
      ghost var i: nat;
      found, i := Seek(dev, e.cluster, offset, cs, e.size);
      if found.Err? { return Err; }
      var (cluster, pos) := found.value;
      var done := 0;
      while done < want
        invariant done <= want && Valid(dev) && dev.faults >= old(dev.faults) && cb == ClusterSize(v)
        invariant Touches(old(out[..]), out[..], at, n)
        invariant done < want ==> i < |cs| && cluster == cs[i] && pos < cb && offset + done == Offset(v, i) + pos
        invariant offset + done <= Offset(v, |cs|) || done == 0
        invariant done > 0 ==> out[at..at + done] == Bytes(v, dev.disk, cs)[offset..offset + done]
        decreases want - done
      {
        assert OnDisk(v, dev.disk, cs[i]);
        var ok := ReadCluster(dev, cluster, scratch);
        if !ok { return Err; }
        var k := Min(want - done, cb - pos);
        PartAt(v, dev.disk, cs, i, pos, k);
        ghost var was := out[..];
        CopyTo(scratch, pos, out, at + done, k);
        TouchesMore(old(out[..]), was, out[..], at, n, at + done, k);
        GrownAt(was, out[..], scratch[..], Bytes(v, dev.disk, cs), Cluster(v, dev.disk, cs[i]), at, offset, done, pos, k);
        done := done + k;
        OffsetNext(v, i);
        if done < want {
          pos := 0;
          var next := Step(dev, cs, e.size, i, cluster);
          if next.Err? || next.value.None? { return Err; }
          cluster := next.value.value;
          i := i + 1;
        }
      }
      Delivered(v, dev.disk, e, cs, offset, out[..], at, done);
      return Ok(done);
    }
  }
}
