/** file_handle_pool: files in use are deleted only when their last user lets go. */
module FileHandlePool {

  const SWEEP_EVERY: nat := 16 * 1024

  predicate IsCache(name: string) {
    "cache://" <= name
  }

  class FileOwnershipHandle {
    const file: string
    var deleteOnDestruction: bool
    var users: nat  // shared pointers; none left means destroyed

    constructor (file: string, deleteOnDestruction: bool)
      ensures this.file == file && this.deleteOnDestruction == deleteOnDestruction && users == 1
    {
      this.file, this.deleteOnDestruction, users := file, deleteOnDestruction, 1;
    }
  }

  datatype FileStatus = Missing | RegularFile | Directory

  class FileHandlePool {
    var handles: map<string, FileOwnershipHandle>  // weak pointers
    var registers: nat
    var files: set<string>                         // the file system
    ghost var live: set<FileOwnershipHandle>       // handles with users

    constructor (files: set<string>)
      ensures Valid() && this.files == files && live == {}
    {
      handles, registers, this.files, live := map[], 0, files, {};
    }

    /** Every handle with users is the one the pool knows for its file; so no two of them share a file. */
    ghost predicate Valid()
      reads this, live, handles.Values
    {
      && (forall h :: h in live ==> h.users > 0 && h.file in handles && handles[h.file] == h)
      && (forall name :: name in handles ==>
        handles[name].file == name && (handles[name].users > 0 ==> handles[name] in live))
    }

    ghost predicate InUse(name: string)
      reads this, live
    {
      exists h :: h in live && h.file == name
    }

    /** The live handle for a file; an expired entry goes away. Null stands for none. */
    method GetFileHandle(name: string) returns (h: FileOwnershipHandle?)
      requires Valid()
      modifies `handles
      ensures Valid() && (h == null <==> !InUse(name))
      ensures h != null ==> h in live && h.file == name && handles == old(handles)
      ensures h == null ==> handles == old(handles) - {name}
    {
      if name !in handles { return null; }
      h := handles[name];
      if h.users == 0 {
        handles := handles - {name};
        h := null;
      }
    }

    method RegisterFile(name: string) returns (h: FileOwnershipHandle)
      requires Valid()
      modifies `handles, `registers, `live, live`users
      ensures Valid() && registers == old(registers) + 1
      ensures Registered(name, h) && (old(InUse(name)) || fresh(h))
      ensures registers % 16384 == 0 ==> forall n :: n in handles ==> handles[n] in live
    {
      h := FindOrCreate(name);
      hide Registered;
      registers := registers + 1;
      if registers % SWEEP_EVERY == 0 { Sweep(); }
    }

    /** The one live handle for the name, with one user more; a new one only if there was none. */
    twostate predicate Registered(name: string, new h: FileOwnershipHandle)
      reads `live, live, h
    {
      && h.file == name && h in live
      && (if old(InUse(name)) then h in old(live) && live == old(live) && h.users == old(h.users) + 1
          else h !in old(live) && live == old(live) + {h} && h.users == 1 && h.deleteOnDestruction == IsCache(name))
      && forall x :: x in old(live) && x != h ==> unchanged(x)
    }

    method FindOrCreate(name: string) returns (h: FileOwnershipHandle)
      requires Valid()
      modifies `handles, `live, live`users
      ensures Valid() && Registered(name, h) && (old(InUse(name)) || fresh(h))
    {
      var found := GetFileHandle(name);
      if found == null {
        h := new FileOwnershipHandle(name, IsCache(name));
        handles := handles[name := h];
        live := live + {h};
      } else {
        h := found;
        h.users := h.users + 1;
      }
    }

    /** Exactly the expired entries go. */
    method Sweep()
      requires Valid()
      modifies `handles
      ensures Valid()
      ensures forall n :: n in handles <==> n in old(handles) && old(handles)[n] in live
      ensures forall n :: n in handles ==> handles[n] == old(handles)[n]
    {
      var todo := handles.Keys;
      while todo != {}
        invariant Valid() && todo <= handles.Keys
        invariant forall n :: n in handles ==> n in old(handles) && handles[n] == old(handles)[n]
        invariant forall n :: n in old(handles) && n !in todo ==> (n in handles <==> old(handles)[n] in live)
        invariant forall n :: n in todo ==> n in old(handles)
      {
        var name :| name in todo;
        todo := todo - {name};
        if handles[name].users == 0 {
          handles := handles - {name};
        }
      }
    }

    method MarkFileForDelete(name: string) returns (ok: bool)
      requires Valid()
      modifies `handles, live`deleteOnDestruction
      ensures Valid() && ok == InUse(name)
      ensures forall h :: h in live ==> h.deleteOnDestruction == (h.file == name || old(h.deleteOnDestruction))
    {
      var h := GetFileHandle(name);
      ok := h != null;
      if h != null { h.deleteOnDestruction := true; }
    }

    method UnmarkFileForDelete(name: string) returns (ok: bool)
      requires Valid()
      modifies `handles, live`deleteOnDestruction
      ensures Valid() && ok == InUse(name)
      ensures forall h :: h in live ==> h.deleteOnDestruction == (h.file != name && old(h.deleteOnDestruction))
    {
      var h := GetFileHandle(name);
      ok := h != null;
      if h != null { h.deleteOnDestruction := false; }
    }

    /** A user lets go. The last one deletes the file exactly if the handle's flag says so by then. */
    method Release(h: FileOwnershipHandle)
      requires Valid() && h in live
      modifies h`users, `live, `files
      ensures Valid() && h.users == old(h.users) - 1
      ensures live == if h.users == 0 then old(live) - {h} else old(live)
      ensures forall x :: x in live ==> (x.file in files <==> x.file in old(files))
      ensures files == if h.users == 0 && h.deleteOnDestruction && h.file != "" then old(files) - {h.file}
        else old(files)
    {
      h.users := h.users - 1;
      if h.users == 0 {
        live := live - {h};
        if h.deleteOnDestruction && h.file != "" {
          files := files - {h.file};
        }
      }
    }

    /** A file nobody uses, registered and let go: a cache file is gone afterwards, any other stays. */
    method UseOnce(name: string)
      requires Valid() && !InUse(name)
      modifies `handles, `registers, `live, `files, live`users
      ensures Valid() && live == old(live)
      ensures files == if |name| >= 8 && name[..8] == "cache://" then old(files) - {name} else old(files)
    {
      var h := RegisterFile(name);
      Release(h);
    }

    /** Deletes now, unless it is a regular file in use: then its last user will. */
    method DeletePath(path: string, status: FileStatus) returns (ok: bool)
      requires Valid()
      modifies `handles, `files, live`deleteOnDestruction
      ensures Valid() && (ok <==> !status.Missing?)
      ensures files == if status.Missing? || (status.RegularFile? && InUse(path)) then old(files)
        else old(files) - {path}
      ensures forall h :: h in live ==>
        h.deleteOnDestruction == ((status.RegularFile? && h.file == path) || old(h.deleteOnDestruction))
    {
      if status.Missing? { return false; }
      if status.RegularFile? {
        var marked := MarkFileForDelete(path);
        if marked { return true; }
      }
      files := files - {path};
      ok := true;
    }
  }
}
