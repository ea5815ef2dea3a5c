/** block_cache: a write-once store of blocks, read through a bounded set of open streams. */
module BlockCache {
  import opened Numbers
  import opened Options
  import Memory

  /** What the file system does to one read: whether the file can be opened, how many bytes the
      stream gives before it breaks, and which other streams the bounded set drops to make room. */
  datatype ReadEnv = ReadEnv(openFails: bool, breaksAfter: Option<nat>, drops: set<string>)

  datatype WriteEnv = Writes | CannotOpen | BreaksAfter(bytes: nat)

  /** An open stream: the bytes it sees, and whether its last use left it good. */
  datatype Stream = Stream(content: string, good: bool)

  class BlockCache {
    /** Stored blocks; a failed write leaves a shorter one behind. */
    var files: map<string, string>
    var handles: map<string, Stream>
    var created: set<string>

    constructor ()
      ensures files == map[] && handles == map[] && created == {}
    {
      files, handles, created := map[], map[], {};
    }

    /** An open stream sees what is stored: blocks are written once, and go together with their streams. */
    ghost predicate Valid()
      reads this
    {
      forall k :: k in handles ==> k in files && handles[k].content == files[k]
    }

    /** Nothing stands in the way of a read of this key: no bad stream is kept for it, and none breaks now. */
    predicate Clear(key: string, env: ReadEnv)
      reads this
    {
      (if key in handles then handles[key].good else !env.openFails) && env.breaksAfter.None?
    }

    /** Fails on an existing key; a broken write leaves a prefix. */
    method Write(key: string, value: string, env: WriteEnv) returns (ok: bool)
      requires Valid()
      modifies this
      ensures Valid() && (ok <==> key !in old(files) && env.Writes?)
      ensures key in old(files) || env.CannotOpen? ==> files == old(files) && created == old(created)
      ensures key !in old(files) && !env.CannotOpen? ==>
        key in files && files[key] <= value && files == old(files)[key := files[key]] && (ok ==> files[key] == value)
      ensures created == if ok then old(created) + {key} else old(created)
      ensures handles == old(handles)
    {
      if key in files { return false; }
      if env.CannotOpen? { return false; }
      if env.BreaksAfter? {
        files := files[key := value[..Min(env.bytes, |value|)]];
        return false;
      }
      files := files[key := value];
      created := created + {key};
      return true;
    }

    /** Copies [start, end) of the block to output[off..]; the length, or -1. A stream that turns bad leaves
        the bounded set if it came from there, but enters it if it was just opened, and then only ever fails. */
    method Read(key: string, output: array<char>, off: nat, start: nat, end: nat, env: ReadEnv) returns (ret: int)
      requires Valid() && start <= end && off + (end - start) <= output.Length
      modifies this, output
      ensures Valid() && files == old(files) && created == old(created)
      ensures ret == -1 || ret == end - start
      ensures ret > 0 ==>
        key in files && end <= |files[key]| && output[off..off + (end - start)] == files[key][start..end]
      ensures forall i :: 0 <= i < output.Length && !(off <= i < off + (end - start)) ==> output[i] == old(output[i])
      ensures key in files && end <= |files[key]| && old(Clear(key, env)) ==> ret == end - start
      ensures key !in files || (key in old(handles) && !old(handles)[key].good) ==> ret == -1 && handles == old(handles)
      ensures ret >= 0 ==> key in handles && handles[key].good && (key in old(handles) ==> handles == old(handles))
      ensures key in old(handles) && old(handles)[key].good && ret == -1 ==> handles == old(handles) - {key}
      ensures key !in old(handles) && key in files ==>
        if env.openFails then handles == old(handles) else key in handles && handles[key].good == (ret >= 0)
      ensures forall k :: k in handles && k != key ==> k in old(handles) && handles[k] == old(handles)[k]
      ensures forall k :: k in old(handles) && k != key && k !in env.drops ==> k in handles
    {
      var fromCache := key in handles;
      if !fromCache && (key !in files || env.openFails) { return -1; }
      if fromCache && !handles[key].good { return -1; }
      var content := if fromCache then handles[key].content else files[key];
      var length := end - start;
      var count := Min(length, if start < |content| then |content| - start else 0);
      if env.breaksAfter.Some? { count := Min(count, env.breaksAfter.value); }
      if count > 0 { Memory.CopyInto(content[start..start + count], output, off); }
      ret := if count == length && env.breaksAfter.None? then length else -1;
      if ret == -1 && fromCache {
        handles := handles - {key};
      }
      if !fromCache {
        handles := (handles - env.drops)[key := Stream(content, ret != -1)];
      }
    }

    /** True exactly if the block was there and could be deleted; its stream and record go in any case. */
    method EvictKey(key: string, deleteFails: bool) returns (ok: bool)
      requires Valid()
      modifies this
      ensures Valid() && (ok <==> key in old(files) && !deleteFails)
      ensures files == if ok then old(files) - {key} else old(files)
      ensures handles == old(handles) - {key} && created == old(created) - {key}
    {
      handles := handles - {key};
      created := created - {key};
      ok := key in files && !deleteFails;
      if ok { files := files - {key}; }
    }
  }
}
