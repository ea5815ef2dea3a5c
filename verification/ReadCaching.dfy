/** read_caching_device: reads of a remote file through 64 MB blocks kept in the block cache. */
module ReadCaching {
  import opened Numbers
  import opened Options
  import opened BlockCache
  import Decimal
  import Memory

  const BLOCK_SIZE: nat := 64 * 1024 * 1024

  // ---- Blocks and their keys ----

  function KeyName(filename: string, block: nat): string {
    filename + "////:" + Decimal.ToString(block)
  }

  /** Different files and different blocks never share a key, whatever the file names contain. */
  lemma KeysDistinct(f: string, j: nat, g: string, k: nat)
    requires KeyName(f, j) == KeyName(g, k)
    ensures f == g && j == k
  {
    var s, t := Decimal.ToString(j), Decimal.ToString(k);
    var a, b := KeyName(f, j), KeyName(g, k);
    assert a == (f + "////:") + s && b == (g + "////:") + t;
    var p, q := |f| + 5, |g| + 5;
    assert a[p - 1] == ':' && b[q - 1] == ':';
    assert forall i :: p <= i < |a| ==> a[i] == s[i - p];
    assert forall i :: q <= i < |b| ==> b[i] == t[i - q];
    assert p == q;
    assert a[p..] == s && b[q..] == t;
    assert a[..|f|] == f && b[..|g|] == g;
    Decimal.ToStringInjective(j, k);
  }

  function BlockStart(block: nat): nat { block * BLOCK_SIZE }

  function BlockEnd(size: nat, block: nat): nat {
    Min(BlockStart(block) + BLOCK_SIZE, size)
  }

  function BlockAt(pos: nat): nat { pos / BLOCK_SIZE }

  function OffsetAt(pos: nat): nat { pos % BLOCK_SIZE }

  /** The bytes lie within one block. */
  predicate OneBlock(pos: nat, count: nat) { 0 < count <= BLOCK_SIZE - OffsetAt(pos) }

  lemma Position(pos: nat)
    ensures BlockStart(BlockAt(pos)) + OffsetAt(pos) == pos && OffsetAt(pos) < BLOCK_SIZE
    ensures BlockStart(BlockAt(pos)) + BLOCK_SIZE - pos == BLOCK_SIZE - OffsetAt(pos)
  {
  }

  function Slice(content: string, block: nat): string {
    if BlockStart(block) <= |content| then content[BlockStart(block)..BlockEnd(|content|, block)] else ""
  }

  /** Whatever is stored under the key of a block of a file is a prefix of that block. */
  ghost predicate Agrees(store: map<string, string>, remote: map<string, string>, f: string, k: nat) {
    KeyName(f, k) in store ==> f in remote && store[KeyName(f, k)] <= Slice(remote[f], k)
  }

  ghost predicate Coherent(store: map<string, string>, remote: map<string, string>) {
    forall f: string, k: nat :: Agrees(store, remote, f, k)
  }

  lemma StoreKeeps(store: map<string, string>, remote: map<string, string>, f: string, k: nat, v: string)
    requires Coherent(store, remote) && f in remote && v <= Slice(remote[f], k)
    ensures Coherent(store[KeyName(f, k) := v], remote)
  {
    var grown := store[KeyName(f, k) := v];
    forall g: string, j: nat ensures Agrees(grown, remote, g, j) {
      assert Agrees(store, remote, g, j);
      if KeyName(g, j) == KeyName(f, k) { KeysDistinct(g, j, f, k); }
    }
  }

  /** What happens to one block fetch: the cache's read, how much the remote file delivers, the cache's write. */
  datatype FetchEnv = FetchEnv(read: ReadEnv, remoteBytes: nat, write: WriteEnv)

  datatype Result<+T> = Ok(value: T) | Unreadable

  /** The sizes remembered for files opened before. */
  class SizeCache {
    var sizes: map<string, nat>

    constructor ()
      ensures sizes == map[]
    {
      sizes := map[];
    }
  }

  ghost predicate SizesRight(sizes: map<string, nat>, remote: map<string, string>) {
    forall f :: f in sizes ==> f in remote && sizes[f] == |remote[f]|
  }

  /** The store is as it was, or has one block more of the file, at least in part. */
  ghost predicate StoredAtMost(store: map<string, string>, grown: map<string, string>, remote: map<string, string>,
    f: string, k: nat)
    requires f in remote
  {
    var key := KeyName(f, k);
    || grown == store
    || (key !in store && key in grown && grown == store[key := grown[key]] && grown[key] <= Slice(remote[f], k))
  }

  lemma StoringKeeps(store: map<string, string>, grown: map<string, string>, remote: map<string, string>, f: string,
    k: nat)
    requires f in remote && StoredAtMost(store, grown, remote, f, k)
    ensures Coherent(store, remote) ==> Coherent(grown, remote)
  {
    hide Coherent, KeyName, Slice;
    if grown != store && Coherent(store, remote) {
      StoreKeeps(store, remote, f, k, grown[KeyName(f, k)]);
    }
  }

  /** What the cache holds: the stored blocks and the open streams. */
  datatype Held = Held(files: map<string, string>, handles: map<string, Stream>)

  ghost function Holds(cache: BlockCache): Held
    reads cache
  {
    Held(cache.files, cache.handles)
  }

  /** A read of bytes from one block. If the store could serve it, they are the stored ones, the store is as
      it was, and a good stream is left for the next read; if the block was
      missing and the store can write, it is stored now, in full, and nothing else. */
  ghost predicate ReadOfBlock(was: Held, now: Held, remote: map<string, string>, f: string, k: nat, from: nat,
    bytes: string, serves: bool, writes: bool)
    requires f in remote
  {
    var key := KeyName(f, k);
    && (serves ==> now.files == was.files && key in now.files && from + |bytes| <= |now.files[key]| &&
                   bytes == now.files[key][from..from + |bytes|] && key in now.handles && now.handles[key].good)
    && (writes && key !in was.files ==> now == Held(was.files[key := Slice(remote[f], k)], was.handles))
  }

  datatype Way = Begin | Current | End

  class ReadCachingDevice {
    const filename: string
    const cache: BlockCache
    const sizes: SizeCache
    const writing: bool
    var fileSize: nat
    var filePos: int

    constructor (filename: string, write: bool, cache: BlockCache, sizes: SizeCache, remote: map<string, string>)
      requires !write ==> filename in remote
      modifies sizes
      ensures this.filename == filename && this.cache == cache && this.sizes == sizes && writing == write
        && filePos == 0
      ensures write ==> sizes.sizes == old(sizes.sizes) && fileSize == 0
      ensures !write ==>
        fileSize == (if filename in old(sizes.sizes) then old(sizes.sizes)[filename] else |remote[filename]|)
      ensures !write ==> sizes.sizes == old(sizes.sizes)[filename := fileSize]
      ensures !write && SizesRight(old(sizes.sizes), remote) ==> Sized(remote) && SizesRight(sizes.sizes, remote)
      ensures !write && SizesRight(old(sizes.sizes), remote) && cache.Valid() && Coherent(cache.files, remote) ==>
        Valid(remote)
    {
      this.filename, this.cache, this.sizes, writing, filePos := filename, cache, sizes, write, 0;
      fileSize := if write then 0 else if filename in sizes.sizes then sizes.sizes[filename] else |remote[filename]|;
      new;
      if !write { sizes.sizes := sizes.sizes[filename := fileSize]; }
    }

    /** The size remembered is the file's, and the position is in it. */
    ghost predicate Sized(remote: map<string, string>)
      reads this
    {
      filename in remote && fileSize == |remote[filename]| && 0 <= filePos <= fileSize
    }

    ghost predicate Valid(remote: map<string, string>)
      reads this, cache
    {
      Sized(remote) && cache.Valid() && Coherent(cache.files, remote)
    }

    /** A stored block serves this part of it whatever the remote file holds. */
    predicate Serves(block: nat, end: nat, env: ReadEnv)
      reads cache
    {
      var key := KeyName(filename, block);
      key in cache.files && end <= |cache.files[key]| && cache.Clear(key, env)
    }

    predicate ServesPart(pos: nat, count: nat, env: nat -> FetchEnv)
      reads cache
    {
      Serves(BlockAt(pos), OffsetAt(pos) + count, env(BlockAt(pos)).read)
    }

    /** How much of n there is to read. */
    function Count(n: nat): nat
      requires 0 <= filePos <= fileSize
      reads this
    {
      Min(n, fileSize - filePos)
    }

    /** Part of a stored block, if the cache can read it; the file's own bytes if the cache agrees with it. */
    method FetchCached(output: array<char>, off: nat, block: nat, startpos: nat, length: nat, env: ReadEnv,
      remote: map<string, string>) returns (ok: bool)
      requires cache.Valid() && Sized(remote) && length > 0 && off + length <= output.Length
      requires BlockStart(block) + startpos + length <= BlockEnd(fileSize, block)
      modifies cache, output
      ensures cache.Valid() && cache.files == old(cache.files)
      ensures ok ==> var key := KeyName(filename, block);
        && key in cache.files && startpos + length <= |cache.files[key]|
        && key in cache.handles && cache.handles[key].good
        && output[off..off + length] == cache.files[key][startpos..startpos + length]
      ensures ok && old(Coherent(cache.files, remote)) ==>
        output[off..off + length] ==
          remote[filename][BlockStart(block) + startpos..BlockStart(block) + startpos + length]
      ensures forall i :: 0 <= i < output.Length && !(off <= i < off + length) ==> output[i] == old(output[i])
      ensures old(Serves(block, startpos + length, env)) ==> ok
      ensures KeyName(filename, block) !in cache.files ==> !ok && cache.handles == old(cache.handles)
    {
      hide KeyName;
      var key := KeyName(filename, block);
      ghost var content := remote[filename];
      assert Agrees(cache.files, remote, filename, block) <== Coherent(cache.files, remote);
      var ret := cache.Read(key, output, off, startpos, startpos + length, env);
      ok := ret == length;
      if ok {
        Memory.SliceOfSlice(content, BlockStart(block), BlockEnd(fileSize, block), startpos, startpos + length);
        ghost var stored := cache.files[key];
        if stored <= Slice(content, block) {
          Memory.SliceOfPrefix(stored, Slice(content, block), startpos, startpos + length);
        }
      }
    }

    /** The whole block from the remote file, which is then stored if it can be. */
    method FetchRemote(output: array<char>, off: nat, block: nat, startpos: nat, length: nat, env: FetchEnv,
      remote: map<string, string>) returns (ok: bool)
      requires cache.Valid() && Sized(remote) && length > 0 && off + length <= output.Length
      requires BlockStart(block) + startpos + length <= BlockEnd(fileSize, block)
      modifies cache, output
      ensures cache.Valid() && StoredAtMost(old(cache.files), cache.files, remote, filename, block)
      ensures ok <==> env.remoteBytes >= BlockEnd(fileSize, block) - BlockStart(block)
      ensures ok ==>
        output[off..off + length] ==
          remote[filename][BlockStart(block) + startpos..BlockStart(block) + startpos + length]
      ensures forall i :: 0 <= i < output.Length && !(off <= i < off + length) ==> output[i] == old(output[i])
      ensures cache.handles == old(cache.handles)
      ensures ok && env.write.Writes? && KeyName(filename, block) !in old(cache.files) ==>
        cache.files == old(cache.files)[KeyName(filename, block) := Slice(remote[filename], block)]
    {
      hide KeyName;
      var key := KeyName(filename, block);
      var blockStart := BlockStart(block);
      var blockEnd := BlockEnd(fileSize, block);
      if env.remoteBytes < blockEnd - blockStart { return false; }
      Memory.SliceOfSlice(remote[filename], blockStart, blockEnd, startpos, startpos + length);
      var contents := remote[filename][blockStart..blockEnd];
      var written := cache.Write(key, contents, env.write);
      Memory.CopyInto(contents[startpos..startpos + length], output, off);
      ok := true;
    }

    /** One block, from the cache or else from the remote file. */
    method FetchBlock(output: array<char>, off: nat, block: nat, startpos: nat, length: nat, env: FetchEnv,
      remote: map<string, string>) returns (ok: bool)
      requires cache.Valid() && Sized(remote) && length > 0 && off + length <= output.Length
      requires BlockStart(block) + startpos + length <= BlockEnd(fileSize, block)
      modifies cache, output
      ensures cache.Valid() && StoredAtMost(old(cache.files), cache.files, remote, filename, block)
      ensures ok && old(Coherent(cache.files, remote)) ==>
        output[off..off + length] ==
          remote[filename][BlockStart(block) + startpos..BlockStart(block) + startpos + length]
      ensures !ok ==> env.remoteBytes < BlockEnd(fileSize, block) - BlockStart(block)
      ensures forall i :: 0 <= i < output.Length && !(off <= i < off + length) ==> output[i] == old(output[i])
      ensures old(Serves(block, startpos + length, env.read)) ==> ok
      ensures ok ==> ReadOfBlock(old(Holds(cache)), Holds(cache), remote, filename, block, startpos,
        output[off..off + length],
                                 old(Serves(block, startpos + length, env.read)), env.write.Writes?)
    {
      hide KeyName, BlockStart, BlockEnd, Coherent, Slice;
      ok := FetchCached(output, off, block, startpos, length, env.read, remote);
      if !ok { ok := FetchRemote(output, off, block, startpos, length, env, remote); }
    }

    /** As much of what is left as the block at the current position holds. */
    method FetchNext(buf: array<char>, ret: nat, left: nat, env: nat -> FetchEnv, remote: map<string, string>)
      returns (success: bool, nBytes: nat)
      requires cache.Valid() && Sized(remote) && 0 < left <= fileSize - filePos && ret + left <= buf.Length
      modifies cache, buf
      ensures cache.Valid() && StoredAtMost(old(cache.files), cache.files, remote, filename, BlockAt(filePos))
      ensures nBytes == Min(BLOCK_SIZE - OffsetAt(filePos), left) > 0 && (OneBlock(filePos, left) ==> nBytes == left)
      ensures success && old(Coherent(cache.files, remote)) ==>
        buf[ret..ret + nBytes] == remote[filename][filePos..filePos + nBytes]
      ensures !success ==> exists k: nat :: env(k).remoteBytes < BlockEnd(fileSize, k) - BlockStart(k)
      ensures forall i :: 0 <= i < buf.Length && !(ret <= i < ret + nBytes) ==> buf[i] == old(buf[i])
      ensures old(ServesPart(filePos, nBytes, env)) ==> success
      ensures success ==> ReadOfBlock(old(Holds(cache)), Holds(cache), remote, filename, BlockAt(filePos),
        OffsetAt(filePos), buf[ret..ret + nBytes],
        old(ServesPart(filePos, nBytes, env)), env(BlockAt(filePos)).write.Writes?)
    {
      hide Coherent, KeyName, Slice, StoredAtMost, BlockAt, OffsetAt, BlockStart, Serves;
      var blockNumber := BlockAt(filePos);
      var blockOffset := OffsetAt(filePos);
      Position(filePos);
      nBytes := Min(BlockStart(blockNumber) + BLOCK_SIZE - filePos, left);
      assert BlockStart(blockNumber) + blockOffset + nBytes <= BlockEnd(fileSize, blockNumber);
      success := FetchBlock(buf, ret, blockNumber, blockOffset, nBytes, env(blockNumber), remote);
    }

    /** The same, put behind what has been read already. */
    method AppendNext(buf: array<char>, ret: nat, left: nat, env: nat -> FetchEnv, remote: map<string, string>)
      returns (success: bool, nBytes: nat)
      requires cache.Valid() && Sized(remote) && 0 < left <= fileSize - filePos && ret + left <= buf.Length
      modifies cache, buf
      ensures cache.Valid() && StoredAtMost(old(cache.files), cache.files, remote, filename, BlockAt(filePos))
      ensures nBytes == Min(BLOCK_SIZE - OffsetAt(filePos), left) > 0 && (OneBlock(filePos, left) ==> nBytes == left)
      ensures buf[..ret] == old(buf[..ret])
      ensures
        success && old(Coherent(cache.files, remote)) && ret <= filePos
        && old(buf[..ret]) == remote[filename][filePos - ret..filePos] ==>
        buf[..ret + nBytes] == remote[filename][filePos - ret..filePos + nBytes]
      ensures !success ==> exists k: nat :: env(k).remoteBytes < BlockEnd(fileSize, k) - BlockStart(k)
      ensures forall i :: 0 <= i < buf.Length && !(ret <= i < ret + nBytes) ==> buf[i] == old(buf[i])
      ensures old(ServesPart(filePos, nBytes, env)) ==> success
      ensures success ==> ReadOfBlock(old(Holds(cache)), Holds(cache), remote, filename, BlockAt(filePos),
        OffsetAt(filePos), buf[ret..ret + nBytes],
        old(ServesPart(filePos, nBytes, env)), env(BlockAt(filePos)).write.Writes?)
    {
      hide Coherent, KeyName, Slice, StoredAtMost, ReadOfBlock, Serves, ServesPart, OneBlock, BlockAt, OffsetAt,
        BlockStart, BlockEnd;
      success, nBytes := FetchNext(buf, ret, left, env, remote);
      assert buf[..ret + nBytes] == buf[..ret] + buf[ret..ret + nBytes];
      if ret <= filePos { Memory.SliceJoin(remote[filename], filePos - ret, filePos, filePos + nBytes); }
    }

    /** Reads up to n bytes at the current position. It throws only if some fetch could not be served by the
        remote file; otherwise the count and the position are right whatever is cached, missing, dropped or
        broken. The bytes are the file's if the cache agrees with the remote files, and it goes on agreeing.
        Without that, a read within one block gives the bytes stored for it, and stores it if it was missing. */
    method Read(buf: array<char>, n: nat, env: nat -> FetchEnv, remote: map<string, string>) returns (r: Result<nat>)
      requires cache.Valid() && Sized(remote) && n <= buf.Length
      modifies this, cache, buf
      ensures cache.Valid() && Sized(remote) && (old(Coherent(cache.files, remote)) ==> Coherent(cache.files, remote))
      ensures r.Ok? ==> r.value == Min(n, fileSize - old(filePos)) && filePos == old(filePos) + r.value
      ensures old(filePos) <= filePos <= old(filePos) + n
      ensures old(Coherent(cache.files, remote)) ==>
        buf[..filePos - old(filePos)] == remote[filename][old(filePos)..filePos]
      ensures forall i :: Min(n, fileSize - old(filePos)) <= i < buf.Length ==> buf[i] == old(buf[i])
      ensures r.Unreadable? ==> exists k: nat :: env(k).remoteBytes < BlockEnd(fileSize, k) - BlockStart(k)
      ensures old(OneBlock(filePos, Count(n)) && ServesPart(filePos, Count(n), env)) ==> r.Ok?
      ensures old(OneBlock(filePos, Count(n))) && r.Ok? ==>
        ReadOfBlock(old(Holds(cache)), Holds(cache), remote, filename, BlockAt(old(filePos)), OffsetAt(old(filePos)),
          buf[..r.value],
                    old(ServesPart(filePos, Count(n), env)), env(BlockAt(old(filePos))).write.Writes?)
    {
      hide BlockCache.Valid, Holds, Coherent, KeyName, Slice, StoredAtMost, ReadOfBlock, Serves, ServesPart, BlockAt,
        OffsetAt, BlockStart, BlockEnd;
      var left := Min(n, fileSize - filePos);
      ghost var want, start := left, filePos;
      ghost var k, o := BlockAt(filePos), OffsetAt(filePos);
      ghost var was, one, served, coherent := Holds(cache), OneBlock(filePos, left), ServesPart(filePos, left, env),
        Coherent(cache.files, remote);
      ghost var tail := buf[want..];
      var ret := 0;
      while left > 0
        invariant cache.Valid() && Sized(remote) && fileSize == old(fileSize)
        invariant ret + left == want && filePos == start + ret && 0 <= ret && 0 <= left
        invariant coherent ==> Coherent(cache.files, remote) && buf[..ret] == remote[filename][start..filePos]
        invariant buf[want..] == tail
        invariant ret == 0 ==> unchanged(cache)
        invariant ret > 0 && one ==> ret == want
        invariant ret > 0 && one ==>
          ReadOfBlock(was, Holds(cache), remote, filename, k, o, buf[..ret], served, env(k).write.Writes?)
      {
        ghost var files := cache.files;
        var success, nBytes := AppendNext(buf, ret, left, env, remote);
        StoringKeeps(files, cache.files, remote, filename, BlockAt(filePos));
        if !success { return Unreadable; }
        left := left - nBytes;
        ret := ret + nBytes;
        filePos := filePos + nBytes;
      }
      r := Ok(ret);
    }

    /** The position stays in the file, except for a negative offset from the start. */
    method Seek(off: int, way: Way, remote: map<string, string>) returns (pos: int)
      requires Sized(remote)
      modifies `filePos
      ensures pos == filePos && (Sized(remote) <==> !(way.Begin? && off < 0))
      ensures way.Begin? ==> pos == Min(off, fileSize)
      ensures way.Current? ==> pos == Max(Min(old(filePos) + off, fileSize), 0)
      ensures way.End? ==> pos == Max(Min(fileSize + off - 1, fileSize), 0)
    {
      match way {
        case Begin => filePos := Min(off, fileSize);
        case Current =>
          filePos := Min(filePos + off, fileSize);
          filePos := Max(filePos, 0);
        case End =>
          filePos := Min(fileSize + off - 1, fileSize);
          filePos := Max(filePos, 0);
      }
      pos := filePos;
    }

    /** Blocks are evicted from 0 up to the first that is not there or cannot be deleted. */
    method EvictRun(fails: nat -> bool) returns (blocks: nat)
      requires cache.Valid()
      modifies cache
      ensures cache.Valid() && (KeyName(filename, blocks) !in old(cache.files) || fails(blocks))
      ensures forall j: nat :: j < blocks ==> KeyName(filename, j) in old(cache.files) && !fails(j)
      ensures cache.files == old(cache.files) - KeysBelow(filename, blocks)
      ensures cache.handles == old(cache.handles) - KeysBelow(filename, blocks + 1)
    {
      ghost var files, handles := cache.files, cache.handles;
      blocks := 0;
      while true
        invariant cache.Valid()
        invariant forall j: nat :: j < blocks ==> KeyName(filename, j) in files && !fails(j)
        invariant cache.files == files - KeysBelow(filename, blocks)
        invariant cache.handles == handles - KeysBelow(filename, blocks)
        decreases cache.files.Keys
      {
        OneMoreBelow(files, filename, blocks);
        OneMoreBelow(handles, filename, blocks);
        hide KeyName, KeysBelow;
        var evicted := cache.EvictKey(KeyName(filename, blocks), fails(blocks));
        if !evicted { break; }
        blocks := blocks + 1;
      }
    }

    /** Closing a written file forgets its size and its first run of cached blocks. That is all of them
        exactly when the cached blocks have no gap and each can be deleted. */
    method CloseWritten(fails: nat -> bool) returns (blocks: nat)
      requires writing && cache.Valid()
      modifies cache, sizes
      ensures cache.Valid() && (KeyName(filename, blocks) !in old(cache.files) || fails(blocks))
      ensures forall j: nat :: j < blocks ==> KeyName(filename, j) in old(cache.files) && !fails(j)
      ensures cache.files == old(cache.files) - KeysBelow(filename, blocks)
      ensures cache.handles == old(cache.handles) - KeysBelow(filename, blocks + 1)
      ensures sizes.sizes == old(sizes.sizes) - {filename}
      ensures NoneOf(filename, cache.files) <==>
        old(GapFree(cache.files, filename)) && old(AllDelete(cache.files, filename, fails))
    {
      blocks := EvictRun(fails);
      sizes.sizes := sizes.sizes - {filename};
      EvictionIsExact(old(cache.files), filename, fails, blocks);
    }
  }

  // ---- What a rewrite leaves behind ----

  ghost function KeysBelow(f: string, m: nat): set<string> {
    if m == 0 then {} else KeysBelow(f, m - 1) + {KeyName(f, m - 1)}
  }

  lemma {:induction false} KeyNotBelow(f: string, m: nat, k: nat)
    ensures KeyName(f, k) in KeysBelow(f, m) <==> k < m
  {
    if m > 0 {
      KeyNotBelow(f, m - 1, k);
      if KeyName(f, k) == KeyName(f, m - 1) { KeysDistinct(f, k, f, m - 1); }
    }
  }

  lemma OneMoreBelow<T>(m: map<string, T>, f: string, k: nat)
    ensures (m - KeysBelow(f, k)) - {KeyName(f, k)} == m - KeysBelow(f, k + 1)
    ensures KeyName(f, k) in m - KeysBelow(f, k) <==> KeyName(f, k) in m
  {
    KeyNotBelow(f, k, k);
  }

  /** The cached blocks of the file are an initial run. */
  ghost predicate GapFree(files: map<string, string>, f: string) {
    forall j: nat, k: nat :: j < k && KeyName(f, k) in files ==> KeyName(f, j) in files
  }

  ghost predicate AllDelete(files: map<string, string>, f: string, fails: nat -> bool) {
    forall k: nat :: KeyName(f, k) in files ==> !fails(k)
  }

  ghost predicate NoneOf(f: string, files: map<string, string>) {
    forall k: nat :: KeyName(f, k) !in files
  }

  /** Evicting the initial run clears the file exactly when the cached blocks are nothing more. */
  lemma EvictionIsExact(files: map<string, string>, f: string, fails: nat -> bool, m: nat)
    requires KeyName(f, m) !in files || fails(m)
    requires forall j: nat :: j < m ==> KeyName(f, j) in files && !fails(j)
    ensures NoneOf(f, files - KeysBelow(f, m)) <==> GapFree(files, f) && AllDelete(files, f, fails)
  {
    forall k: nat ensures KeyName(f, k) in KeysBelow(f, m) <==> k < m { KeyNotBelow(f, m, k); }
    hide KeyName, KeysBelow;
    if NoneOf(f, files - KeysBelow(f, m)) {
      forall k: nat ensures KeyName(f, k) in files <==> k < m {
        assert KeyName(f, k) !in files - KeysBelow(f, m);
      }
    }
    if GapFree(files, f) && AllDelete(files, f, fails) {
      forall k: nat ensures KeyName(f, k) !in files - KeysBelow(f, m) {
        assert k > m && KeyName(f, k) in files ==> KeyName(f, m) in files;
      }
    }
  }

  /** With no block of the file left, the cache agrees with the rewritten file, whatever it is. */
  lemma RewriteIsClean(files: map<string, string>, less: map<string, string>, remote: map<string, string>, f: string,
    content: string)
    requires Coherent(files, remote) && NoneOf(f, less) && forall key :: key in less ==>
      key in files && less[key] == files[key]
    ensures Coherent(less, remote[f := content])
  {
    var remote' := remote[f := content];
    forall g: string, k: nat ensures Agrees(less, remote', g, k) {
      assert Agrees(files, remote, g, k);
    }
  }

  /** A written file is closed, opened again and read somewhere: if its cached blocks had no gap and could be
      deleted, a read that does not throw gives the new bytes, however much of the old file was cached. */
  method RewriteThenRead(writer: ReadCachingDevice, content: string, fails: nat -> bool, from: nat, buf: array<char>,
    n: nat,
                         env: nat -> FetchEnv, remote: map<string, string>) returns (r: Result<nat>)
    requires writer.writing && writer.cache.Valid() && Coherent(writer.cache.files, remote)
      && SizesRight(writer.sizes.sizes, remote)
    requires GapFree(writer.cache.files, writer.filename) && AllDelete(writer.cache.files, writer.filename, fails)
    requires n <= buf.Length && from <= |content|
    modifies writer.cache, writer.sizes, buf
    ensures writer.cache.Valid() && Coherent(writer.cache.files, remote[writer.filename := content])
    ensures r.Ok? ==> r.value == Min(n, |content| - from) && buf[..r.value] == content[from..from + r.value]
  {
    hide KeyName, KeysBelow, Coherent, NoneOf, Slice;
    var f, cache, sizes := writer.filename, writer.cache, writer.sizes;
    ghost var files := cache.files;
    var blocks := writer.CloseWritten(fails);
    var remote' := remote[f := content];
    RewriteIsClean(files, cache.files, remote, f, content);
    assert SizesRight(sizes.sizes, remote');
    var reader := new ReadCachingDevice(f, false, cache, sizes, remote');
    var pos := reader.Seek(from, Begin, remote');
    r := reader.Read(buf, n, env, remote');
  }

  /** A cached block serves one read after the other: the second needs neither the remote file nor to open the
      block again, only that its stream does not break. */
  method ReadTwice(reader: ReadCachingDevice, buf: array<char>, n: nat, env: nat -> FetchEnv, later: nat -> FetchEnv,
                   remote: map<string, string>) returns (first: Result<nat>, second: Result<nat>)
    requires reader.cache.Valid() && reader.Sized(remote) && n <= buf.Length
    requires OneBlock(reader.filePos, reader.Count(n)) && reader.ServesPart(reader.filePos, reader.Count(n), env)
    requires later(BlockAt(reader.filePos)).read.breaksAfter.None?
    modifies reader, reader.cache, buf
    ensures first == second == Ok(old(reader.Count(n))) && reader.cache.files == old(reader.cache.files)
    ensures var from, count := old(OffsetAt(reader.filePos)), old(reader.Count(n));
      var key := KeyName(reader.filename, BlockAt(old(reader.filePos)));
      key in reader.cache.files && from + count <= |reader.cache.files[key]|
      && buf[..count] == reader.cache.files[key][from..from + count]
  {
    hide KeyName, Slice, Coherent, BlockAt, OffsetAt;
    var pos := reader.filePos;
    first := reader.Read(buf, n, env, remote);
    var _ := reader.Seek(pos, Begin, remote);
    second := reader.Read(buf, n, later, remote);
  }

  const SMOOTH: FetchEnv := FetchEnv(ReadEnv(false, None, {}), BLOCK_SIZE, Writes)

  /** A reader goes straight to a position and reads a byte: only the block there is in the cache afterwards. */
  method CacheOne(f: string, content: string, pos: nat) returns (cache: BlockCache, sizes: SizeCache)
    requires pos < |content|
    ensures fresh(cache) && fresh(sizes) && cache.Valid() && cache.handles == map[]
    ensures cache.files == map[KeyName(f, BlockAt(pos)) := Slice(content, BlockAt(pos))]
  {
    hide KeyName, Slice, Coherent, BlockAt;
    cache := new BlockCache();
    sizes := new SizeCache();
    var remote := map[f := content];
    var byte := new char[1];
    var reader := new ReadCachingDevice(f, false, cache, sizes, remote);
    Position(pos);
    var _ := reader.Seek(pos, Begin, remote);
    var _ := reader.Read(byte, 1, _ => SMOOTH, remote);
  }

  /** A device opened on a file of which a block is in the cache reads a cached byte. */
  method ReadOne(f: string, content: string, cache: BlockCache, sizes: SizeCache, pos: nat) returns (bytes: array<char>)
    requires pos < |content| && cache.Valid() && f !in sizes.sizes && cache.handles == map[]
    requires KeyName(f, BlockAt(pos)) in cache.files && |cache.files[KeyName(f, BlockAt(pos))]| > OffsetAt(pos)
    modifies cache, sizes
    ensures bytes.Length == 1 && bytes[0] == old(cache.files[KeyName(f, BlockAt(pos))][OffsetAt(pos)])
  {
    hide KeyName, Slice, Coherent, BlockAt, OffsetAt;
    var remote := map[f := content];
    bytes := new char[1];
    var reader := new ReadCachingDevice(f, false, cache, sizes, remote);
    Position(pos);
    var _ := reader.Seek(pos, Begin, remote);
    ghost var stored, o := cache.files[KeyName(f, BlockAt(pos))], OffsetAt(pos);
    var r := reader.Read(bytes, 1, _ => SMOOTH, remote);
    assert bytes[..1] == stored[o..o + 1];
    assert bytes[0] == bytes[..1][0];
  }

  /** The other case: with only a later block in the cache, closing the rewritten file evicts nothing, and a device
      opened on the new file reads the old byte, wherever in that block it is. */
  method OldBlockSurvives(f: string, before: string, after: string, pos: nat) returns (bytes: array<char>)
    requires 67108864 <= pos < |before| && pos < |after|
    ensures bytes.Length == 1 && bytes[0] == before[pos]
  {
    hide KeyName, Slice, Coherent, BlockAt, OffsetAt;
    var cache, sizes := CacheOne(f, before, pos);
    LaterBlock(before, pos);
    KeysDiffer(f, 0, BlockAt(pos));
    var writer := new ReadCachingDevice(f, true, cache, sizes, map[]);
    var evicted := writer.CloseWritten(_ => false);
    assert evicted == 0;
    bytes := ReadOne(f, after, cache, sizes, pos);
  }

  lemma KeysDiffer(f: string, j: nat, k: nat)
    requires j != k
    ensures KeyName(f, j) != KeyName(f, k)
  {
    if KeyName(f, j) == KeyName(f, k) { KeysDistinct(f, j, f, k); }
  }

  lemma LaterBlock(content: string, pos: nat)
    requires BLOCK_SIZE <= pos < |content|
    ensures BlockAt(pos) > 0
    ensures var block := Slice(content, BlockAt(pos)); |block| > OffsetAt(pos) && block[OffsetAt(pos)] == content[pos]
  {
    Position(pos);
  }
}
