/** Reading a file through the file service: the server's half on the client's shared buffer, and the client's loop. */
module FileService {
  import opened Wrappers
  import opened Memory
  import opened Fat

  const DATA_OFF: nat := 128
  const MAX_READ: nat := 32 * 1024
  const CHUNK: nat := 1024
  const MAX_OPEN: nat := 32

  datatype Status = OK | TOOBIG | BADF | NOSPC | IO
  datatype Reply = Reply(status: Status, n: nat)
  type OpenFiles = seq<Option<DirEntry>>

  /** A handle is a slot number plus one; 0 is none. */
  function HandleOf(open: OpenFiles, handle: nat): Option<DirEntry> {
    if handle == 0 || handle - 1 >= |open| then None else open[handle - 1]
  }

  ghost predicate FileChained(v: Volume, disk: seq<byte>, e: DirEntry, chains: map<DirEntry, seq<nat>>) {
    e.size > 0 ==> e in chains && IsChain(v, disk, e.cluster, chains[e], e.size)
  }

  /** The chains of the open files, as the disk has them. */
  ghost predicate Chained(v: Volume, disk: seq<byte>, open: OpenFiles, chains: map<DirEntry, seq<nat>>) {
    forall i :: 0 <= i < |open| && open[i].Some? ==> FileChained(v, disk, open[i].value, chains)
  }

  ghost function ChainOf(chains: map<DirEntry, seq<nat>>, e: DirEntry): seq<nat> { if e in chains then chains[e] else [] }

  /** What an open file holds. */
  ghost function Contents(v: Volume, disk: seq<byte>, open: OpenFiles, chains: map<DirEntry, seq<nat>>, e: DirEntry): seq<byte>
    requires Chained(v, disk, open, chains) && Some(e) in open
  { File(v, disk, e, ChainOf(chains, e)) }

  class Server {
    const fs: Reader
    const dev: Device
    const scratch: array<byte>
    var open: OpenFiles
    ghost var chains: map<DirEntry, seq<nat>>

    ghost predicate Valid()
      reads this, fs
    { fs.Valid(dev) && Chained(fs.v, dev.disk, open, chains) }

    constructor (fs: Reader, dev: Device, scratch: array<byte>)
      requires fs.Valid(dev)
      ensures this.fs == fs && this.dev == dev && this.scratch == scratch && Valid() && |open| == MAX_OPEN && forall h :: HandleOf(open, h).None?
    {
      this.fs, this.dev, this.scratch, open, chains := fs, dev, scratch, seq(MAX_OPEN, _ => None), map[];
    }

    /** Opens a file in the first free slot: its handle names it, and every other handle names what it did. */
    method Install(e: DirEntry, ghost cs: seq<nat>) returns (handle: nat)
      requires Valid() && (e.size > 0 ==> IsChain(fs.v, dev.disk, e.cluster, cs, e.size))
      modifies this
      ensures Valid() && |open| == |old(open)|
      ensures handle == 0 ==> open == old(open) && forall i :: 0 <= i < |open| ==> open[i].Some?
      ensures handle > 0 ==> HandleOf(old(open), handle).None? && HandleOf(open, handle) == Some(e)
      ensures forall h :: 0 < h < handle ==> HandleOf(old(open), h).Some?
      ensures handle > 0 ==> forall h :: h != handle ==> HandleOf(open, h) == HandleOf(old(open), h)
    {
      hide IsChain, Reader.Valid;
      for i := 0 to |open|
        invariant Valid() && open == old(open) && forall j :: 0 <= j < i ==> open[j].Some?
      {
        if open[i].None? {
          open, chains := open[i := Some(e)], chains[e := cs];
          return i + 1;
        }
      }
      return 0;
    }

    /** Closes a handle; one that names nothing is refused. */
    method Release(handle: nat) returns (ok: bool)
      requires Valid()
      modifies this
      ensures Valid() && ok == HandleOf(old(open), handle).Some? && (!ok ==> open == old(open))
      ensures ok ==> HandleOf(open, handle).None? && forall h :: h != handle ==> HandleOf(open, h) == HandleOf(old(open), h)
    {
      hide IsChain, Reader.Valid;
      if handle == 0 || handle - 1 >= |open| || open[handle - 1].None? { return false; }
      open := open[handle - 1 := None];
      return true;
    }

    /** Answers a read request in a client's buffer: the file's bytes go where the client asked, and nowhere else. */
    method OpRead(buf: array<byte>) returns (r: Reply)
      requires Valid() && DATA_OFF <= buf.Length && buf != scratch
      modifies fs, dev, scratch, buf
      ensures Valid() && dev.faults >= old(dev.faults)
      ensures var w := View(old(buf[..])); var handle, offset, dest, count := w(0), w(8), w(16), w(24);
              if count == 0 then r == Reply(OK, 0) && buf[..] == old(buf[..])
              else if count > MAX_READ then r == Reply(TOOBIG, 0) && buf[..] == old(buf[..])
              else if HandleOf(open, handle).None? then r == Reply(BADF, 0) && buf[..] == old(buf[..])
              else if dest + count > buf.Length then r == Reply(NOSPC, 0) && buf[..] == old(buf[..])
              else Answers(old(buf[..]), buf[..], HandleOf(open, handle).value, offset, dest, count, r, old(dev.faults))
    {
      hide View, Touches, Delivers, IsChain, Reader.Valid;
      var handle := Load(buf, 0);
      var offset := Load(buf, 8);
      var dest := Load(buf, 16);
      var count := Load(buf, 24);
      if count == 0 { return Reply(OK, 0); }
      if count > MAX_READ { return Reply(TOOBIG, 0); }
      var entry := HandleOf(open, handle);
      if entry.None? { return Reply(BADF, 0); }
      if dest + count > buf.Length { return Reply(NOSPC, 0); }
      var got := fs.ReadAt(dev, entry.value, offset, scratch, buf, dest, count, ChainOf(chains, entry.value));
      match got {
        case Ok(n) => return Reply(OK, n);
        case Err => return Reply(IO, 0);
      }
    }

    /** A read of an open file: all that was asked for and is there, or an error with a reason. */
    ghost predicate Answers(was: seq<byte>, now: seq<byte>, e: DirEntry, offset: nat, dest: nat, count: nat, r: Reply, faults: nat)
      reads this, dev, fs
      requires Chained(fs.v, dev.disk, open, chains) && Some(e) in open
    {
      var file := Contents(fs.v, dev.disk, open, chains, e);
      && Touches(was, now, dest, count) && (r.status == OK || r.status == IO)
      && (r.status == OK ==> r.n == (if offset < e.size then Min(count, e.size - offset) else 0) && Delivers(file, offset, now, dest, r.n))
      && (r.status == IO ==> offset < e.size)
      && (r.status == IO ==> dev.faults > faults || scratch.Length < ClusterSize(fs.v) || |file| < offset + Asked(e, offset, count))
    }
  }

  class FileClient {
    const shared: array<byte>

    constructor (shared: array<byte>)
      ensures this.shared == shared
    {
      this.shared := shared;
    }

    /** Reads up to `buf.Length` bytes at `offset` through the shared buffer. */
    method Read(srv: Server, f: nat, offset: nat, buf: array<byte>) returns (r: Result<nat>)
      requires srv.Valid() && f < 0x1_0000_0000 && offset < WORD && DATA_OFF <= shared.Length
      requires shared != srv.scratch && buf != shared && buf != srv.scratch
      modifies shared, buf, srv.fs, srv.dev, srv.scratch
      ensures srv.Valid() && srv.dev.faults >= old(srv.dev.faults)
      ensures r.Ok? && buf.Length > 0 ==> HandleOf(srv.open, f).Some? && var e := HandleOf(srv.open, f).value;
                && r.value == (if offset < e.size then Min(Min(buf.Length, MAX_READ), e.size - offset) else 0)
                && Delivers(Contents(srv.fs.v, srv.dev.disk, srv.open, srv.chains, e), offset, buf[..], 0, r.value)
      ensures r.Ok? && buf.Length == 0 ==> r.value == 0
      ensures r.Err? ==> Excused(srv, f, offset, Min(buf.Length, MAX_READ), old(srv.dev.faults))
    {
      hide View, Touches, IsChain, Reader.Valid, Chained, File;
      if buf.Length == 0 { return Ok(0); }
      if DATA_OFF + Min(buf.Length, MAX_READ) > shared.Length { return Err; }
      var count := Min(buf.Length, MAX_READ);
      Request(f, offset, count);
      var reply := srv.OpRead(shared);
      if reply.status != OK { return Err; }
      var n := Min(reply.n, count);
      CopyTo(shared, DATA_OFF, buf, 0, n);
      assert n > 0 ==> buf[..][0..n] == shared[..][DATA_OFF..DATA_OFF + n];
      return Ok(n);
    }

    /** The request block. */
    method Request(f: nat, offset: nat, count: nat)
      requires DATA_OFF <= shared.Length && f < WORD && offset < WORD && count < WORD
      modifies shared
      ensures var w := View(shared[..]); w(0) == f && w(8) == offset && w(16) == DATA_OFF && w(24) == count
    {
      hide View;
      Store(shared, 0, f);
      Store(shared, 8, offset);
      Store(shared, 16, DATA_OFF);
      Store(shared, 24, count);
    }

    /** Why a read may fail: no such handle, no room, a fault, or a chain shorter than its file. */
    ghost predicate Excused(srv: Server, f: nat, offset: nat, count: nat, faults: nat)
      reads srv, srv.fs, srv.dev
      requires srv.Valid()
    {
      || HandleOf(srv.open, f).None? || DATA_OFF + count > shared.Length || srv.dev.faults > faults || srv.scratch.Length < ClusterSize(srv.fs.v)
      || |Contents(srv.fs.v, srv.dev.disk, srv.open, srv.chains, HandleOf(srv.open, f).value)| < HandleOf(srv.open, f).value.size
    }

    /** Reads a whole file in pieces of 1024 bytes: what comes out is the file. */
    method ReadAll(srv: Server, f: nat, prefix: seq<byte>) returns (r: Result<nat>, out: seq<byte>)
      requires srv.Valid() && f < 0x1_0000_0000 && DATA_OFF <= shared.Length && shared != srv.scratch
      requires HandleOf(srv.open, f).Some? ==> HandleOf(srv.open, f).value.size < 0x1_0000_0000
      modifies shared, srv.fs, srv.dev, srv.scratch
      ensures srv.Valid() && srv.dev.faults >= old(srv.dev.faults)
      ensures r.Ok? ==> HandleOf(srv.open, f).Some? && var file := Contents(srv.fs.v, srv.dev.disk, srv.open, srv.chains, HandleOf(srv.open, f).value);
                out == prefix + file && r.value == |file| == HandleOf(srv.open, f).value.size
      ensures r.Err? ==> Excused(srv, f, 0, CHUNK, old(srv.dev.faults))
    {
      hide IsChain, Reader.Valid, Chained, File;
      var off, chunk := 0, new byte[CHUNK];
      out := prefix;
      while true
        invariant srv.Valid() && srv.dev.faults >= old(srv.dev.faults) && off < 0x1_0000_0000 && fresh(chunk)
        invariant off > 0 ==> HandleOf(srv.open, f).Some? && off <= HandleOf(srv.open, f).value.size
        invariant off > 0 ==> var file := Contents(srv.fs.v, srv.dev.disk, srv.open, srv.chains, HandleOf(srv.open, f).value);
                    off <= |file| && out == prefix + file[..off]
        invariant off == 0 ==> out == prefix
        decreases (if HandleOf(srv.open, f).Some? then HandleOf(srv.open, f).value.size else 0) - off
      {
        var n := Read(srv, f, off, chunk);
        if n.Err? { return Err, out; }
        if n.value == 0 { return Ok(off), out; }
        out := out + chunk[..n.value];
        off := off + n.value;
      }
    }
  }
}
