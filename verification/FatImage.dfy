/**
Making a volume, the other way round from reading one: clusters laid end to end after a head that holds the packed
table. What the reader is proved against on the bytes of a disk is here shown to be what was laid there.
*/
module FatImage {
  import opened Wrappers
  import opened Memory
  import opened Fat

  /** Pieces one after the other. */
  function Joined(d: seq<seq<byte>>): seq<byte> { if d == [] then [] else Joined(d[..|d| - 1]) + d[|d| - 1] }

  predicate Even(d: seq<seq<byte>>, n: nat) { forall i :: 0 <= i < |d| ==> |d[i]| == n }

  /** A disk: everything before the data area, then the clusters. */
  function Lay(head: seq<byte>, d: seq<seq<byte>>): seq<byte> { head + Joined(d) }

  lemma {:induction false} JoinedAt(d: seq<seq<byte>>, n: nat, i: nat)
    requires Even(d, n) && i < |d|
    ensures 0 <= i * n <= i * n + n <= |Joined(d)| == |d| * n && Joined(d)[i * n..i * n + n] == d[i]
  {
    var k := |d| - 1;
    var front, last := Joined(d[..k]), d[k];
    JoinedSize(d[..k], n);
    Times(k, n);
    if i < k {
      JoinedAt(d[..k], n, i);
      FrontSlice(front, last, i * n, i * n + n);
    } else {
      assert (front + last)[|front|..|front| + n] == last;
    }
  }

  lemma {:induction false} JoinedSize(d: seq<seq<byte>>, n: nat)
    requires Even(d, n)
    ensures |Joined(d)| == |d| * n
  {
    if d != [] {
      JoinedSize(d[..|d| - 1], n);
      Times(|d| - 1, n);
    }
  }

  lemma Times(k: nat, n: nat)
    ensures (k + 1) * n == k * n + n && k * n >= 0
  {}

  /** A volume whose head ends where the data area begins, and whose clusters have the right size. */
  predicate Laid(v: Volume, head: seq<byte>, d: seq<seq<byte>>) {
    && v.sectorsPerCluster > 0 && |head| == v.dataStart * SECTOR && Even(d, ClusterSize(v))
    && |Lay(head, d)| <= 0x1_0000_0000 * SECTOR
  }

  lemma Sectors(start: nat, i: nat, per: nat)
    ensures (start + i * per) * SECTOR == start * SECTOR + i * (per * SECTOR)
  {}

  lemma BelowLimit(lba: nat, size: nat)
    requires lba * SECTOR + size <= 0x1_0000_0000 * SECTOR && size > 0
    ensures lba < 0x1_0000_0000
  {}

  lemma BackSlice(head: seq<byte>, rest: seq<byte>, a: nat, n: nat)
    requires a + n <= |rest|
    ensures (head + rest)[|head| + a..|head| + a + n] == rest[a..a + n]
  {}

  /** Cluster numbers start at 2: cluster `c` of a disk is the one laid `c - 2` places into its data area. */
  lemma ClusterLaid(v: Volume, head: seq<byte>, d: seq<seq<byte>>, c: nat)
    requires Laid(v, head, d) && 2 <= c < 2 + |d| && c < 0x1_0000_0000
    ensures OnDisk(v, Lay(head, d), c) && Cluster(v, Lay(head, d), c) == d[c - 2]
  {
    hide Joined;
    var n, i := ClusterSize(v), c - 2;
    JoinedAt(d, n, i);
    Sectors(v.dataStart, i, v.sectorsPerCluster);
    BelowLimit(ClusterLba(v, c), n);
    BackSlice(head, Joined(d), i * n, n);
  }

  // ---------------------------------------------------------------- files

  function Picked(d: seq<seq<byte>>, cs: seq<nat>): (r: seq<seq<byte>>)
    requires forall i :: 0 <= i < |cs| ==> 2 <= cs[i] < 2 + |d|
    ensures |r| == |cs| && forall i :: 0 <= i < |cs| ==> r[i] == d[cs[i] - 2]
  { seq(|cs|, i requires 0 <= i < |cs| => d[cs[i] - 2]) }

  predicate Numbers(d: seq<seq<byte>>, cs: seq<nat>) {
    forall i :: 0 <= i < |cs| ==> 2 <= cs[i] < 2 + |d| && cs[i] < 0x1_0000_0000
  }

  lemma {:induction false} BytesLaid(v: Volume, head: seq<byte>, d: seq<seq<byte>>, cs: seq<nat>)
    requires Laid(v, head, d) && Numbers(d, cs)
    ensures (forall i :: 0 <= i < |cs| ==> OnDisk(v, Lay(head, d), cs[i])) && Bytes(v, Lay(head, d), cs) == Joined(Picked(d, cs))
  {
    hide OnDisk, Cluster, Lay, Offset, Laid;
    forall i | 0 <= i < |cs| ensures OnDisk(v, Lay(head, d), cs[i]) { ClusterLaid(v, head, d, cs[i]); }
    if cs != [] {
      var k := |cs| - 1;
      BytesLaid(v, head, d, cs[..k]);
      ClusterLaid(v, head, d, cs[k]);
      assert Picked(d, cs)[..k] == Picked(d, cs[..k]);
    }
  }

  /** The eight largest values an entry can have end a chain. */
  predicate Ends(kind: Kind, e: nat) {
    e + 8 > if kind.Fat12? then 0xFFF else if kind.Fat16? then 0xFFFF else 0xFFF_FFFF
  }

  /** The entries link `cs` into a chain: each names the next, and the last holds an end mark. */
  ghost predicate Linked(kind: Kind, es: seq<nat>, cs: seq<nat>) {
    && cs != [] && (forall i :: 0 <= i < |cs| ==> cs[i] < |es| && !Ends(kind, cs[i]))
    && (forall i, j :: 0 <= i < j < |cs| && j == i + 1 ==> es[cs[i]] == cs[j])
    && Ends(kind, es[cs[|cs| - 1]])
  }

  /** The packed table stands in the head where the volume says. */
  predicate HoldsTable(v: Volume, head: seq<byte>, es: seq<nat>, top: nat) {
    var t := Pack(v.kind, es, top);
    Fits(v.kind, es) && v.fatStart * SECTOR + |t| <= |head| && head[v.fatStart * SECTOR..v.fatStart * SECTOR + |t|] == t
  }

  lemma EntryOfPrefix(kind: Kind, t: seq<byte>, whole: seq<byte>, c: nat)
    requires InTable(kind, t, c) && t <= whole
    ensures InTable(kind, whole, c) && Entry(kind, whole, c) == Entry(kind, t, c)
  {}

  lemma EntryLaid(v: Volume, head: seq<byte>, d: seq<seq<byte>>, es: seq<nat>, top: nat, c: nat)
    requires HoldsTable(v, head, es, top) && c < |es|
    ensures InTable(v.kind, Table(v, Lay(head, d)), c) && Entry(v.kind, Table(v, Lay(head, d)), c) == es[c]
  {
    hide Joined, Entry, InTable, Pack;
    var t, disk, from := Pack(v.kind, es, top), Lay(head, d), v.fatStart * SECTOR;
    PackedReads(v.kind, es, top, c);
    assert disk[from..][..|t|] == head[from..from + |t|];
    EntryOfPrefix(v.kind, t, Table(v, disk), c);
  }

  /** Linked entries make a chain on the disk. */
  lemma ChainLaid(v: Volume, head: seq<byte>, d: seq<seq<byte>>, es: seq<nat>, top: nat, cs: seq<nat>, size: nat)
    requires Laid(v, head, d) && HoldsTable(v, head, es, top) && Linked(v.kind, es, cs) && Numbers(d, cs)
    ensures IsChain(v, Lay(head, d), cs[0], cs, size)
  {
    hide OnDisk, InTable, Entry, Lay, Table, Laid, HoldsTable;
    forall i | 0 <= i < |cs|
      ensures OnDisk(v, Lay(head, d), cs[i]) && InTable(v.kind, Table(v, Lay(head, d)), cs[i])
      ensures Entry(v.kind, Table(v, Lay(head, d)), cs[i]) == es[cs[i]]
    {
      ClusterLaid(v, head, d, cs[i]);
      EntryLaid(v, head, d, es, top, cs[i]);
    }
  }

  /** Making and reading undo each other: what the reader is proved to return for a file whose clusters the table links
      is those clusters as they were laid, one after the other, cut off at the file's size. */
  lemma FileLaid(v: Volume, head: seq<byte>, d: seq<seq<byte>>, es: seq<nat>, top: nat, cs: seq<nat>, size: nat)
    requires Laid(v, head, d) && HoldsTable(v, head, es, top) && Linked(v.kind, es, cs) && Numbers(d, cs)
    requires 0 < size <= |Joined(Picked(d, cs))|
    ensures IsChain(v, Lay(head, d), cs[0], cs, size)
    ensures File(v, Lay(head, d), DirEntry(cs[0], size), cs) == Joined(Picked(d, cs))[..size]
  {
    hide Laid, HoldsTable, Lay, Joined, Offset, IsChain;
    ChainLaid(v, head, d, es, top, cs, size);
    BytesLaid(v, head, d, cs);
  }
}
