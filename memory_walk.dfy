/**
 * The address-space walk of dump_memory, as functions of what VirtualQueryEx
 * and ReadProcessMemory answer for one process handle: where the cursor
 * goes, which regions are streamed, and the bytes the sink receives.
 */
module MemoryWalk {
  import opened Wrappers
  import opened WinApi

  /** `State & MEM_COMMIT` and `Type & (MEM_IMAGE | MEM_MAPPED | MEM_PRIVATE)` are both set. */
  predicate Dumpable(info: MemoryInfo) {
    info.state & MEM_COMMIT != 0 && info.kind & (MEM_IMAGE | MEM_MAPPED | MEM_PRIVATE) != 0
  }

  /** The mask test reads as: committed, and of image, mapped or private type. */
  lemma DumpableMasks(info: MemoryInfo)
    ensures Dumpable(info) <==> (info.state & MEM_COMMIT != 0
                                 && (info.kind & MEM_IMAGE != 0 || info.kind & MEM_MAPPED != 0 || info.kind & MEM_PRIVATE != 0))
  {
  }

  /**
   * The walk moves forward at every step: the page size is positive and the
   * system never reports an empty committed region.
   */
  ghost predicate Progressing(k: Kernel) {
    && k.systemInfo.pageSize > 0
    && (forall h, a :: k.virtualQuery(h, a).Some? && Dumpable(k.virtualQuery(h, a).value)
          ==> k.virtualQuery(h, a).value.regionSize > 0)
  }

  /**
   * The next cursor: a failed query or a region that is not dumpable moves
   * one page, a dumpable region (read or not) moves by its RegionSize.
   */
  function Advance(k: Kernel, h: int, mem: int): (next: int)
    ensures Progressing(k) ==> next > mem
    ensures var q := k.virtualQuery(h, mem);
      if q.Some? && Dumpable(q.value) then next == mem + q.value.regionSize
      else next == mem + k.systemInfo.pageSize
  {
    match k.virtualQuery(h, mem)
    case None => mem + k.systemInfo.pageSize
    case Some(info) => if Dumpable(info) then mem + info.regionSize else mem + k.systemInfo.pageSize
  }

  /** `create_string_buffer(size)` after ReadProcessMemory copied `data` into it. */
  function Buffer(size: nat, data: seq<byte>): (b: seq<byte>)
    ensures |b| == size
    ensures forall i :: 0 <= i < size ==> b[i] == if i < |data| then data[i] else 0
  {
    seq(size, i requires 0 <= i < size => if i < |data| then data[i] else 0)
  }

  /** What is sent at cursor `mem`: the whole region buffer, when the region is dumpable and read. */
  function Chunk(k: Kernel, h: int, mem: int): (r: Option<seq<byte>>)
    ensures r.Some? <==> k.virtualQuery(h, mem).Some? && Dumpable(k.virtualQuery(h, mem).value)
                         && k.readMemory(h, mem, k.virtualQuery(h, mem).value.regionSize).Some?
    ensures r.Some? ==> |r.value| == k.virtualQuery(h, mem).value.regionSize
    ensures r.Some? ==> r.value == Buffer(k.virtualQuery(h, mem).value.regionSize,
                                          k.readMemory(h, mem, k.virtualQuery(h, mem).value.regionSize).value)
  {
    match k.virtualQuery(h, mem)
    case None => None
    case Some(info) =>
      if !Dumpable(info) then None
      else match k.readMemory(h, mem, info.regionSize)
        case None => None
        case Some(data) => Some(Buffer(info.regionSize, data))
  }

  /** The cursor positions the walk queries, from `mem` while below `maxAddr`. */
  function Cursors(k: Kernel, h: int, mem: int, maxAddr: int): (cs: seq<int>)
    requires Progressing(k)
    ensures cs == [] <==> mem >= maxAddr
    ensures cs != [] ==> cs[0] == mem
    decreases maxAddr - mem
  {
    if mem >= maxAddr then [] else [mem] + Cursors(k, h, Advance(k, h, mem), maxAddr)
  }

  /** One step of the walk: what is sent at `mem`, then the rest from the next cursor. */
  lemma ImageStep(k: Kernel, h: int, mem: int, maxAddr: int)
    requires Progressing(k) && mem < maxAddr
    ensures Image(k, h, mem, maxAddr)
         == (if Chunk(k, h, mem).Some? then [Chunk(k, h, mem).value] else []) + Image(k, h, Advance(k, h, mem), maxAddr)
  {
  }

  /** The byte stream the sink receives, chunk by chunk, from cursor `mem` on. */
  function Image(k: Kernel, h: int, mem: int, maxAddr: int): (r: seq<seq<byte>>)
    requires Progressing(k)
    ensures |r| <= |Cursors(k, h, mem, maxAddr)|
    decreases maxAddr - mem
  {
    if mem >= maxAddr then []
    else
      (match Chunk(k, h, mem) case Some(c) => [c] case None => []) + Image(k, h, Advance(k, h, mem), maxAddr)
  }

  /** The cursors among `cs` at which a chunk is sent, in their order. */
  function Streamed(k: Kernel, h: int, cs: seq<int>): (bs: seq<int>)
    ensures forall b :: b in bs <==> b in cs && Chunk(k, h, b).Some?
    ensures |bs| <= |cs|
  {
    if cs == [] then []
    else (if Chunk(k, h, cs[0]).Some? then [cs[0]] else []) + Streamed(k, h, cs[1..])
  }

  function ChunksAt(k: Kernel, h: int, bs: seq<int>): seq<seq<byte>>
    requires forall b :: b in bs ==> Chunk(k, h, b).Some?
  {
    if bs == [] then [] else [Chunk(k, h, bs[0]).value] + ChunksAt(k, h, bs[1..])
  }

  predicate Ascending(s: seq<int>) {
    forall i, j :: 0 <= i < j < |s| ==> s[i] < s[j]
  }

  /**
   * The cursor starts at `mem`, strictly increases, each step is the
   * Advance of the one before, all stay below `maxAddr`, and the step after
   * the last reaches `maxAddr`.
   */
  lemma {:induction false} CursorsWalk(k: Kernel, h: int, mem: int, maxAddr: int)
    requires Progressing(k)
    ensures var cs := Cursors(k, h, mem, maxAddr);
      && (mem < maxAddr <==> cs != [])
      && (cs != [] ==> cs[0] == mem && Advance(k, h, cs[|cs| - 1]) >= maxAddr)
      && (forall i :: 0 <= i < |cs| ==> mem <= cs[i] < maxAddr)
      && (forall i :: 0 <= i < |cs| - 1 ==> cs[i + 1] == Advance(k, h, cs[i]))
      && Ascending(cs)
    decreases maxAddr - mem
  {
    if mem < maxAddr {
      var next := Advance(k, h, mem);
      CursorsWalk(k, h, next, maxAddr);
      var rest := Cursors(k, h, next, maxAddr);
      var cs := Cursors(k, h, mem, maxAddr);
      assert cs == [mem] + rest;
      forall i | 0 <= i < |cs| - 1 ensures cs[i + 1] == Advance(k, h, cs[i]) {
        if i > 0 { assert cs[i] == rest[i - 1] && cs[i + 1] == rest[i]; }
      }
      forall i, j | 0 <= i < j < |cs| ensures cs[i] < cs[j] {
        if i > 0 { assert cs[i] == rest[i - 1] && cs[j] == rest[j - 1]; }
        else { assert cs[j] == rest[j - 1]; }
      }
    }
  }

  lemma {:induction false} StreamedAscending(k: Kernel, h: int, cs: seq<int>)
    requires Ascending(cs)
    ensures Ascending(Streamed(k, h, cs))
  {
    if cs != [] {
      StreamedAscending(k, h, cs[1..]);
      var rest := Streamed(k, h, cs[1..]);
      forall b | b in rest ensures cs[0] < b {
        var i :| 0 <= i < |cs[1..]| && cs[1..][i] == b;
        assert cs[i + 1] == b;
      }
      var bs := Streamed(k, h, cs);
      if Chunk(k, h, cs[0]).Some? {
        assert bs == [cs[0]] + rest;
        forall i, j | 0 <= i < j < |bs| ensures bs[i] < bs[j] {
          assert bs[j] == rest[j - 1];
          assert rest[j - 1] in rest;
          if i > 0 { assert bs[i] == rest[i - 1]; }
        }
      } else {
        assert bs == rest;
      }
    }
  }

  lemma {:induction false} ChunksAtAppend(k: Kernel, h: int, a: seq<int>, b: seq<int>)
    requires forall x :: x in a + b ==> Chunk(k, h, x).Some?
    ensures ChunksAt(k, h, a + b) == ChunksAt(k, h, a) + ChunksAt(k, h, b)
  {
    if a != [] {
      assert (a + b)[0] == a[0];
      assert (a + b)[1..] == a[1..] + b;
      ChunksAtAppend(k, h, a[1..], b);
      calc {
        ChunksAt(k, h, a + b);
        [Chunk(k, h, a[0]).value] + ChunksAt(k, h, a[1..] + b);
        [Chunk(k, h, a[0]).value] + (ChunksAt(k, h, a[1..]) + ChunksAt(k, h, b));
        ChunksAt(k, h, a) + ChunksAt(k, h, b);
      }
    } else {
      assert a + b == b;
    }
  }

  /**
   * The dump is exactly the chunks of the streamed cursors, in walk order:
   * the regions that are committed, of an image, mapped or private type and
   * read successfully, and no others.
   */
  lemma {:induction false} ImageIsStreamedChunks(k: Kernel, h: int, mem: int, maxAddr: int)
    requires Progressing(k)
    ensures Image(k, h, mem, maxAddr) == ChunksAt(k, h, Streamed(k, h, Cursors(k, h, mem, maxAddr)))
    decreases maxAddr - mem
  {
    if mem < maxAddr {
      var next := Advance(k, h, mem);
      ImageIsStreamedChunks(k, h, next, maxAddr);
      var cs := Cursors(k, h, mem, maxAddr);
      assert cs[0] == mem && cs[1..] == Cursors(k, h, next, maxAddr);
      var head := if Chunk(k, h, mem).Some? then [mem] else [];
      ChunksAtAppend(k, h, head, Streamed(k, h, cs[1..]));
    }
  }

  /** The sink receives one chunk per streamed region, in increasing address order, each of its full RegionSize. */
  lemma DumpedRegions(k: Kernel, h: int, mem: int, maxAddr: int)
    requires Progressing(k)
    ensures var bs := Streamed(k, h, Cursors(k, h, mem, maxAddr));
      && Ascending(bs)
      && (forall b :: b in bs ==> mem <= b < maxAddr)
      && Image(k, h, mem, maxAddr) == ChunksAt(k, h, bs)
  {
    CursorsWalk(k, h, mem, maxAddr);
    StreamedAscending(k, h, Cursors(k, h, mem, maxAddr));
    ImageIsStreamedChunks(k, h, mem, maxAddr);
  }
}
