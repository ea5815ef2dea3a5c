/** fixed_size_cache_manager: cache blocks that live in memory under a global budget, or on disk. */
module CacheManager {
  import opened Numbers
  import opened Sums

  /** The disk files behind spilled blocks. */
  class Disk {
    var files: map<string, string>

    constructor ()
      ensures files == map[]
    {
      files := map[];
    }
  }

  class CacheBlock {
    const id: string
    const owner: CacheManager
    var maximumCapacity: nat
    var capacity: nat
    var inMemory: bool   // the data pointer is not null
    var data: string      // the bytes in use; the block's size is their number
    var filename: string  // empty unless the block is on disk
    var holders: nat      // shared pointers outside the manager's map
    ghost var index: nat  // place among all blocks ever made

    constructor Raw(id: string, owner: CacheManager, ghost index: nat)
      ensures this.id == id && this.owner == owner && this.index == index
      ensures maximumCapacity == 0 && capacity == 0 && !inMemory && data == "" && filename == "" && holders == 0
    {
      this.id, this.owner, this.index := id, owner, index;
      maximumCapacity, capacity, inMemory, data, filename, holders := 0, 0, false, "", "", 0;
    }

    /** size <= capacity <= maximum_capacity; memory exactly when there is capacity; a file only without memory. */
    ghost predicate Ok(files: map<string, string>, initial: nat, perFile: nat)
      reads this
    {
      && |data| <= capacity <= maximumCapacity <= perFile
      && (inMemory <==> capacity > 0) && (capacity > 0 ==> initial > 0)
      && (filename == "" ==> capacity >= Min(initial, maximumCapacity))
      && (filename != "" ==> !inMemory && maximumCapacity == 0 && filename in files)
    }

    /** The byte string the block stands for. */
    ghost function Content(files: map<string, string>): string
      reads this
    {
      if filename == "" then data else if filename in files then files[filename] else ""
    }

    /** There is memory or a file to read from. */
    predicate Readable()
      reads this
    {
      filename != "" || inMemory
    }

    /** The block may grow to this capacity: its own bound, the allocator and the global budget permitting. */
    ghost predicate CanGrow(newCapacity: nat, memoryLeft: bool)
      reads this, owner
    {
      && inMemory && newCapacity <= maximumCapacity
      && (newCapacity <= capacity || (memoryLeft && owner.utilization + (newCapacity - capacity) <= owner.limit))
    }

    ghost predicate HasRoom(more: nat, memoryLeft: bool)
      reads this, owner
    {
      inMemory && (|data| + more <= capacity || CanGrow(|data| + more, memoryLeft))
    }

    method ExtendCapacity(newCapacity: nat, memoryLeft: bool) returns (ok: bool)
      requires owner.Valid() && owner.Owns(this)
      modifies `capacity, owner`utilization, owner`caps
      ensures owner.Valid()
      ensures ok <==>
        && old(inMemory) && newCapacity <= old(maximumCapacity)
        && (newCapacity <= old(capacity)
          || (memoryLeft && old(owner.utilization) + (newCapacity - old(capacity)) <= owner.limit))
      ensures ok && newCapacity <= old(capacity) ==> capacity == old(capacity)
      ensures ok && newCapacity > old(capacity) ==>
        var doubled := Min(Max(newCapacity, 2 * old(capacity)), old(maximumCapacity));
        capacity == if old(owner.utilization) + (doubled - old(capacity)) <= owner.limit then doubled else newCapacity
      ensures !ok ==> capacity == old(capacity) && owner.utilization == old(owner.utilization)
      ensures capacity >= old(capacity)
    {
      if !(inMemory && newCapacity <= maximumCapacity) { return false; }
      if newCapacity <= capacity { return true; }
      var target := Min(Max(newCapacity, capacity * 2), maximumCapacity);
      if owner.utilization + (target - capacity) > owner.limit {
        target := newCapacity;
        if owner.utilization + (target - capacity) > owner.limit { return false; }
      }
      if !memoryLeft { return false; }
      owner.SetCapacity(this, target);
      ok := true;
    }

    method WriteBytesToMemoryCache(c: string, memoryLeft: bool) returns (ok: bool)
      requires owner.Valid() && owner.Owns(this)
      modifies `capacity, `data, owner`utilization, owner`caps
      ensures owner.Valid()
      ensures ok ==> data == old(data) + c && filename == ""
      ensures !ok ==> data == old(data)
      ensures ok <==> old(HasRoom(|c|, memoryLeft))
      ensures |old(data)| + |c| <= old(capacity) && old(inMemory) ==> ok && capacity == old(capacity)
    {
      hide CacheManager.Valid;
      owner.Known(this);
      if !inMemory { return false; }
      ok := |data| + |c| <= capacity;
      if !ok { ok := ExtendCapacity(|data| + |c|, memoryLeft); }
      if ok { Append(c); }
    }

    method Append(c: string)
      requires owner.Valid() && owner.Owns(this) && inMemory && |data| + |c| <= capacity
      modifies `data
      ensures owner.Valid() && data == old(data) + c
    {
      hide CacheManager.Valid;
      owner.Known(this);
      data := data + c;
      owner.OneChanged(this);
    }

    /** Spilling keeps the bytes and gives all the memory back. */
    method WriteToFile(temp: string)
      requires owner.Valid() && owner.Owns(this) && filename == "" && !owner.LastHold(this)
      requires temp != "" && temp !in owner.disk.files
      modifies `filename, `capacity, `maximumCapacity, `data, `inMemory, owner`utilization, owner`caps, owner`fileOf,
        owner.disk
      ensures owner.Valid() && filename == temp && owner.OthersKept(this)
      ensures owner.disk.files == old(owner.disk.files)[temp := old(data)]
      ensures owner.utilization == old(owner.utilization) - old(capacity)
    {
      hide CacheManager.Valid;
      owner.Save(temp, data);
      owner.ReleaseMemory(this);
      owner.PointTo(this, temp);
    }

    /** Gives back whatever stands behind the block, in memory or on disk. */
    method Clear()
      requires owner.Valid() && owner.Owns(this)
      modifies `filename, `capacity, `maximumCapacity, `data, `inMemory, owner`utilization, owner`caps, owner.disk
      ensures owner.Valid() && filename == "" && data == "" && !inMemory && owner.OthersKept(this)
      ensures owner.disk.files == if old(filename) == "" then old(owner.disk.files)
        else old(owner.disk.files) - {old(filename)}
      ensures owner.utilization == old(owner.utilization) - old(capacity)
      ensures capacity == 0
    {
      if inMemory {
        owner.ReleaseMemory(this);
      } else if filename != "" {
        owner.disk.files := owner.disk.files - {filename};
        filename := "";
      }
    }

    method InitializeMemory(maxCapacity: nat)
      requires owner.Valid() && owner.Owns(this) && !owner.LastHold(this) && maxCapacity <= owner.limitPerFile
      requires owner.utilization - capacity + Min(owner.initialCapacity, maxCapacity) <= owner.limit
      modifies `filename, `capacity, `maximumCapacity, `data, `inMemory, owner`utilization, owner`caps, owner.disk
      ensures owner.Valid() && filename == "" && data == "" && maximumCapacity == maxCapacity && owner.OthersKept(this)
      ensures capacity == Min(owner.initialCapacity, maxCapacity) && inMemory == (capacity > 0)
      ensures owner.disk.files == if old(filename) == "" then old(owner.disk.files)
        else old(owner.disk.files) - {old(filename)}
      ensures owner.utilization == old(owner.utilization) - old(capacity) + capacity
    {
      Clear();
      owner.SetMemory(this, Min(owner.initialCapacity, maxCapacity), maxCapacity);
    }
  }

  class CacheManager {
    const disk: Disk
    const limit: nat         // maximum of all in-memory capacity
    const limitPerFile: nat
    const initialCapacity: nat
    var blocks: map<string, CacheBlock>
    var utilization: int
    ghost var all: set<CacheBlock>    // every block ever made
    ghost var slots: seq<CacheBlock>  // the same blocks in the order they were made
    ghost var caps: seq<nat>          // and their capacities
    ghost var fileOf: map<string, CacheBlock>  // which block a disk file last belonged to

    constructor (disk: Disk, limit: nat, limitPerFile: nat, initialCapacity: nat)
      ensures Valid() && blocks == map[] && all == {} && utilization == 0
      ensures this.disk == disk && this.limit == limit && this.limitPerFile == limitPerFile
        && this.initialCapacity == initialCapacity
    {
      this.disk, this.limit, this.limitPerFile, this.initialCapacity := disk, limit, limitPerFile, initialCapacity;
      blocks, utilization, all, slots, caps, fileOf := map[], 0, {}, [], [], map[];
    }

    /** Nothing points to the block any more. */
    predicate LastHold(b: CacheBlock)
      reads this, b
    {
      b.holders == 0 && !Named(b)
    }

    predicate Named(b: CacheBlock)
      reads this
    {
      b.id in blocks && blocks[b.id] == b
    }

    /** Blocks and budget are in order: whatever nothing points to has given back its memory or file, and
        utilization is the capacity of all blocks, within the maximum. */
    ghost predicate Valid()
      reads this, disk, all
    {
      && (forall b :: b in all ==> InOrder(b))
      && (forall id :: id in blocks ==> blocks[id] in all && blocks[id].id == id)
      && |caps| == |slots| && (forall i :: 0 <= i < |slots| ==> slots[i] in all && slots[i].index == i)
      && utilization == Sum(caps) <= limit
    }

    ghost predicate InOrder(b: CacheBlock)
      reads this, disk, b
    {
      && b.owner == this && b.Ok(disk.files, initialCapacity, limitPerFile)
      && b.index < |slots| && slots[b.index] == b && b.index < |caps| && caps[b.index] == b.capacity
      && (LastHold(b) ==> b.capacity == 0 && b.filename == "")
      && (b.filename != "" ==> b.filename in fileOf && fileOf[b.filename] == b)
    }

    ghost predicate Owns(b: CacheBlock)
      reads this, b
    {
      b in all && b.owner == this
    }

    /** Every other block keeps its place when this one's capacity changes. */
    lemma Apart(b: CacheBlock, capacity: nat)
      requires Valid() && b in all
      ensures b.index < |caps| && caps[b.index] == b.capacity
      ensures Sum(caps[b.index := capacity]) == Sum(caps) - b.capacity + capacity
      ensures forall x :: x in all && x != b ==>
        x.index < |caps| && x.index != b.index && caps[b.index := capacity][x.index] == x.capacity
    {
      SumUpdate(caps, b.index, capacity);
    }

    lemma Known(b: CacheBlock)
      requires Valid() && b in all
      ensures InOrder(b) && utilization == Sum(caps) <= limit
    {
    }

    /** When only one block has changed, and that is in order with the new sum, all are. */
    twostate lemma OneChanged(b: CacheBlock)
      requires old(Valid()) && b in all && all == old(all) && slots == old(slots) && blocks == old(blocks)
        && fileOf == old(fileOf)
      requires |caps| == |old(caps)| && forall i :: 0 <= i < |caps| && i != old(b.index) ==> caps[i] == old(caps)[i]
      requires unchanged(disk) && forall x :: x in all && x != b ==> unchanged(x)
      requires InOrder(b) && b.index == old(b.index) && utilization == Sum(caps) <= limit
      ensures Valid()
    {
      forall x | x in all && x != b ensures InOrder(x) {
        assert old(InOrder(x)) && old(InOrder(b));
        assert x.index != old(b.index);
      }
    }

    /** increment_utilization and the block's new capacity, together. */
    method SetCapacity(b: CacheBlock, capacity: nat)
      requires Valid() && Owns(b) && b.inMemory && b.capacity <= capacity <= b.maximumCapacity
      requires utilization + (capacity - b.capacity) <= limit
      modifies b`capacity, `utilization, `caps
      ensures Valid() && b.capacity == capacity && utilization == old(utilization) + (capacity - old(b.capacity))
    {
      hide CacheManager.Valid;
      Known(b);
      Apart(b, capacity);
      utilization := utilization + (capacity - b.capacity);
      caps := caps[b.index := capacity];
      b.capacity := capacity;
      OneChanged(b);
    }

    /** A new disk file, which no block has. */
    method Save(temp: string, bytes: string)
      requires Valid() && temp != "" && temp !in disk.files
      modifies disk
      ensures Valid() && disk.files == old(disk.files)[temp := bytes] && OthersKept(null)
      ensures forall b :: b in all ==> b.filename != temp
    {
      assert forall b :: b in all && b.Ok(disk.files, initialCapacity, limitPerFile) ==> b.filename != temp;
      disk.files := disk.files[temp := bytes];
    }

    method PointTo(b: CacheBlock, temp: string)
      requires Valid() && Owns(b) && !b.inMemory && b.maximumCapacity == 0 && b.data == "" && !LastHold(b)
      requires temp in disk.files && forall x :: x in all ==> x.filename != temp
      modifies b`filename, `fileOf
      ensures Valid() && b.filename == temp
    {
      b.filename := temp;
      fileOf := fileOf[temp := b];
    }

    /** A new memory for an empty block, none if the capacity is 0. */
    method SetMemory(b: CacheBlock, capacity: nat, maximum: nat)
      requires Valid() && Owns(b) && b.data == "" && capacity <= maximum <= limitPerFile
      requires if b.filename == "" then capacity >= Min(initialCapacity, maximum) else maximum == 0
      requires capacity > 0 ==> initialCapacity > 0 && !LastHold(b)
      requires utilization - b.capacity + capacity <= limit
      modifies b`capacity, b`maximumCapacity, b`inMemory, `utilization, `caps
      ensures Valid() && b.maximumCapacity == maximum && b.capacity == capacity && b.inMemory == (capacity > 0)
      ensures utilization == old(utilization) - old(b.capacity) + capacity
    {
      hide CacheManager.Valid;
      Known(b);
      Apart(b, capacity);
      if b.inMemory { utilization := utilization - b.capacity; }
      if capacity > 0 { utilization := utilization + capacity; }
      caps := caps[b.index := capacity];
      b.inMemory := capacity > 0;
      b.capacity := capacity;
      b.maximumCapacity := maximum;
      OneChanged(b);
    }

    method ForgetData(b: CacheBlock)
      requires Valid() && Owns(b)
      modifies b`data
      ensures Valid() && b.data == ""
    {
      b.data := "";
    }

    method ReleaseMemory(b: CacheBlock)
      requires Valid() && Owns(b)
      modifies b`capacity, b`maximumCapacity, b`data, b`inMemory, `utilization, `caps
      ensures Valid() && b.capacity == 0 && b.maximumCapacity == 0 && b.data == "" && !b.inMemory
      ensures utilization == old(utilization) - old(b.capacity)
    {
      assert utilization <= limit;
      hide CacheManager.Valid;
      ForgetData(b);
      SetMemory(b, 0, 0);
    }

    /** A block no one but the map points to, in memory and not empty. */
    ghost predicate Evictable(b: CacheBlock)
      reads b
    {
      b.holders == 0 && b.filename == "" && b.data != ""
    }

    /** The name of the largest evictable block, if there is one. */
    method LargestEvictable() returns (found: bool, name: string)
      requires Valid()
      ensures !found <==> forall id :: id in blocks ==> !Evictable(blocks[id])
      ensures found ==>
        name in blocks && blocks[name].holders == 0 && blocks[name].filename == "" && |blocks[name].data| > 0
      ensures forall id ::
        id in blocks && blocks[id].holders == 0 && blocks[id].filename == "" && |blocks[id].data| > 0 ==>
        found && |blocks[id].data| <= |blocks[name].data|
      ensures found ==> name in blocks && Evictable(blocks[name])
      ensures found ==> forall id :: id in blocks && Evictable(blocks[id]) ==> |blocks[id].data| <= |blocks[name].data|
    {
      var todo := blocks.Keys;
      name := "";
      var size := 0;
      while todo != {}
        invariant todo <= blocks.Keys
        invariant size > 0 ==> name in blocks && Evictable(blocks[name]) && |blocks[name].data| == size
        invariant forall id :: id in blocks && id !in todo && Evictable(blocks[id]) ==> |blocks[id].data| <= size
      {
        var id :| id in todo;
        todo := todo - {id};
        var b := blocks[id];
        if b.holders == 0 && b.filename == "" && |b.data| > size {
          name, size := id, |b.data|;
        }
      }
      found := size > 0;
    }

    /** The blocks made before, other than b, stand for the same bytes, have the same holders, and
        are untouched if they have any. */
    twostate predicate OthersKept(new b: CacheBlock?)
      reads this, disk, all
    {
      old(all) <= all && forall x :: x in old(all) && x != b ==> KeptBlock(x)
    }

    /** Blocks are only ever added. */
    twostate predicate Grown()
      reads this
    {
      old(all) <= all && fresh(all - old(all))
    }

    twostate predicate KeptBlock(x: CacheBlock)
      reads x, disk
    {
      && x.holders == old(x.holders) && (x.holders > 0 ==> unchanged(x))
      && x.Content(disk.files) == old(x.Content(disk.files)) && x.Readable() == old(x.Readable())
    }

    /** Spills the largest evictable block, if there is one. No byte string changes, and a block
        that is open anywhere is not touched at all. */
    method TryCacheEvict(temp: string) returns (evicted: bool, name: string)
      requires Valid() && temp != "" && temp !in disk.files
      modifies `utilization, `caps, `fileOf, disk, all
      ensures Valid()
      ensures !evicted <==> forall id :: id in blocks ==> !old(Evictable(blocks[id]))
      ensures evicted ==> name in blocks && old(Evictable(blocks[name])) && blocks[name].filename == temp
      ensures evicted ==> forall id :: id in blocks && old(Evictable(blocks[id])) ==>
        old(|blocks[id].data|) <= old(|blocks[name].data|)
      ensures all == old(all) && blocks == old(blocks) && OthersKept(null)
      ensures forall id :: id in blocks && !(evicted && blocks[id] == blocks[name]) ==> unchanged(blocks[id])
      ensures utilization == old(utilization) - if evicted then old(blocks[name].capacity) else 0
      ensures disk.files == if evicted then old(disk.files)[temp := old(blocks[name].data)] else old(disk.files)
    {
      evicted, name := LargestEvictable();
      if evicted {
        blocks[name].WriteToFile(temp);
      }
    }

    /** There is memory left, or a block to evict. */
    ghost predicate CanMakeRoom()
      reads this, blocks.Values
    {
      utilization < limit || exists id :: id in blocks && Evictable(blocks[id])
    }

    /** Evicts when the budget is used up, which nobody can tell by reading. */
    method MakeRoom(temp: string)
      requires Valid() && temp != "" && temp !in disk.files
      modifies `utilization, `caps, `fileOf, disk, all
      ensures Valid() && all == old(all) && blocks == old(blocks) && OthersKept(null)
      ensures utilization <= old(utilization) && (old(utilization) < limit ==> utilization == old(utilization))
      ensures NewMaximum() > 0 <==> old(CanMakeRoom()) && limitPerFile > 0
      ensures forall id :: id in blocks ==>
        unchanged(blocks[id]) || (old(Evictable(blocks[id])) && blocks[id].filename != "")
    {
      if utilization >= limit {
        var _, _ := TryCacheEvict(temp);
      }
    }

    /** An unused block under a name nothing is known by. */
    method AddBlock(id: string) returns (b: CacheBlock)
      requires Valid() && id !in blocks
      modifies `blocks, `all, `slots, `caps
      ensures Valid() && fresh(b) && Owns(b) && all == old(all) + {b} && blocks == old(blocks)[id := b]
      ensures b.id == id && b.filename == "" && b.capacity == 0 && b.maximumCapacity == 0 && b.holders == 0
    {
      b := new CacheBlock.Raw(id, this, |slots|);
      SumAppend(caps, 0);
      all, slots, caps, blocks := all + {b}, slots + [b], caps + [0], blocks[id := b];
      OneAdded(id, b);
    }

    /** A new last block, in order itself, leaves the others as they were. */
    twostate lemma OneAdded(id: string, new b: CacheBlock)
      requires old(Valid()) && id !in old(blocks) && b !in old(all) && all == old(all) + {b}
      requires slots == old(slots) + [b] && caps == old(caps) + [0] && blocks == old(blocks)[id := b]
        && fileOf == old(fileOf)
      requires unchanged(disk) && (forall x :: x in old(all) ==> unchanged(x)) && Sum(caps) == Sum(old(caps))
      requires utilization == old(utilization) && b.id == id && b.index == |old(slots)| && InOrder(b)
      ensures Valid()
    {
      forall x | x in old(all) ensures InOrder(x) {
        assert old(InOrder(x));
        assert LastHold(x) == old(LastHold(x));
      }
    }

    /** What a new entry may grow to, after making room if the budget is used up. */
    function NewMaximum(): (m: nat)
      reads this
      ensures m <= limitPerFile && (0 <= utilization <= limit ==> utilization + m <= limit)
      ensures 0 <= utilization <= limit ==> m == limitPerFile || utilization + m == limit
    {
      if 0 <= utilization < limit then Min(limitPerFile, limit - utilization) else 0
    }

    /** One more shared pointer. */
    method Hold(b: CacheBlock)
      requires Valid()
      modifies b`holders
      ensures Valid() && b.holders == old(b.holders) + 1
    {
      b.holders := b.holders + 1;
    }

    method CreateBlock(id: string) returns (b: CacheBlock)
      requires Valid() && id !in blocks
      modifies `blocks, `all, `slots, `caps, `utilization, disk
      ensures Valid() && b in all && b.id == id && fresh(b) && b.holders == 0 && blocks == old(blocks)[id := b]
      ensures b.Content(disk.files) == "" && b.filename == "" && b.maximumCapacity == old(NewMaximum())
      ensures b.inMemory == (Min(initialCapacity, b.maximumCapacity) > 0)
      ensures OthersKept(b) && Grown()
    {
      assert utilization <= limit;
      var newMax := NewMaximum();
      b := AddBlock(id);
      hide CacheManager.Valid;
      b.InitializeMemory(newMax);
    }

    /** The old bytes go; a block on disk comes back to memory with what the budget allows. */
    method Overwrite(b: CacheBlock)
      requires Valid() && b in all && !LastHold(b)
      modifies b, `caps, `utilization, disk
      ensures Valid() && b.Content(disk.files) == "" && b.filename == "" && b.holders == old(b.holders)
      ensures b.maximumCapacity == old(if b.filename == "" then b.maximumCapacity else NewMaximum())
      ensures b.inMemory == (Min(initialCapacity, b.maximumCapacity) > 0)
      ensures OthersKept(b)
    {
      assert b.owner == this && b.Ok(disk.files, initialCapacity, limitPerFile) && utilization <= limit;
      hide CacheManager.Valid;
      b.InitializeMemory(if b.filename == "" then b.maximumCapacity else NewMaximum());
    }

    method EmptyBlock(id: string) returns (b: CacheBlock)
      requires Valid()
      modifies `blocks, `all, `slots, `caps, `utilization, disk, all
      ensures Valid() && Owns(b) && b.id == id && blocks == old(blocks)[id := b]
      ensures if id in old(blocks) then b == old(blocks[id]) && b.holders == old(blocks[id].holders)
        else fresh(b) && b.holders == 0
      ensures b.Content(disk.files) == "" && b.filename == ""
      ensures b.maximumCapacity ==
        old(if id in blocks && blocks[id].filename == "" then blocks[id].maximumCapacity else NewMaximum())
      ensures b.inMemory == (Min(initialCapacity, b.maximumCapacity) > 0)
      ensures OthersKept(b) && Grown()
    {
      assert id in blocks ==> blocks[id] in all && blocks[id].id == id;
      hide CacheManager.Valid, CacheManager.KeptBlock;
      if id !in blocks {
        b := CreateBlock(id);
      } else {
        b := blocks[id];
        Overwrite(b);
      }
    }

    /** Whether a writer of this name gets memory: a block in memory keeps its bound, any other gets what
        is left of the budget after making room. */
    ghost predicate GetsMemory(id: string)
      reads this, blocks.Values
    {
      initialCapacity > 0 && if id in blocks && blocks[id].filename == "" then blocks[id].maximumCapacity > 0
        else CanMakeRoom() && limitPerFile > 0
    }

    lemma OldBlock(id: string)
      requires Valid() && id in blocks
      ensures blocks[id] in all && blocks[id].id == id && blocks[id].maximumCapacity <= limitPerFile
      ensures Evictable(blocks[id]) ==>
        CanMakeRoom() && blocks[id].maximumCapacity > 0 && limitPerFile > 0 && initialCapacity > 0
    {
      Known(blocks[id]);
    }

    /** An empty block under this name, held by the writer that asked for it. */
    method NewCache(id: string, temp: string) returns (b: CacheBlock)
      requires Valid() && temp != "" && temp !in disk.files
      modifies this, disk, all
      ensures Valid() && Owns(b) && b.id == id && blocks == old(blocks)[id := b]
      ensures if id in old(blocks) then b == old(blocks[id]) && b.holders == old(blocks[id].holders) + 1
        else fresh(b) && b.holders == 1
      ensures b.Content(disk.files) == "" && b.filename == ""
      ensures b.inMemory == old(GetsMemory(id)) && b.maximumCapacity <= limitPerFile
      ensures OthersKept(b) && Grown()
    {
      hide CacheManager.Valid, CacheManager.CanMakeRoom, CacheManager.NewMaximum, CacheManager.InOrder;
      if id in blocks { OldBlock(id); }
      MakeRoom(temp);
      b := EmptyBlock(id);
      Hold(b);
    }

    /** The block known by this name, held by the reader that asked; null stands for out_of_range. */
    method GetCache(id: string) returns (b: CacheBlock?)
      requires Valid()
      modifies all`holders
      ensures Valid() && (b == null <==> id !in blocks)
      ensures b != null ==> Owns(b) && b.id == id && b == blocks[id] && b.holders == old(blocks[id].holders) + 1
      ensures forall x :: x in all && x != b ==> unchanged(x)
    {
      if id !in blocks { return null; }
      b := blocks[id];
      Hold(b);
    }

    /** One shared pointer less, for a block that has given everything back if it was the last. */
    method Unhold(b: CacheBlock)
      requires Valid() && Owns(b) && b.holders > 0
      requires b.holders == 1 && !Named(b) ==> b.capacity == 0 && b.filename == ""
      modifies b`holders
      ensures Valid() && b.holders == old(b.holders) - 1
    {
      b.holders := b.holders - 1;
    }

    /** Lets go of one shared pointer; the last one takes the block's memory or file with it. */
    method Drop(b: CacheBlock)
      requires Valid() && Owns(b) && b.holders > 0
      modifies b, `utilization, `caps, disk
      ensures Valid() && b.holders == old(b.holders) - 1
      ensures OthersKept(b)
      ensures LastHold(b) ==> b.capacity == 0 && b.filename == "" && utilization == old(utilization) - old(b.capacity)
      ensures !LastHold(b) ==> b.Content(disk.files) == old(b.Content(disk.files)) && b.Readable() == old(b.Readable())
      ensures !LastHold(b) ==> utilization == old(utilization)
    {
      hide CacheManager.Valid;
      if b.holders == 1 && !Named(b) { b.Clear(); }
      Unhold(b);
    }

    /** Takes the name out of the map; false stands for the assertion that it is there. Whatever
        block has the name goes, which is another one than b if the name was freed and taken again. */
    method Free(b: CacheBlock) returns (ok: bool)
      requires Valid() && Owns(b) && b.holders > 0
      modifies `blocks, `utilization, `caps, disk, all
      ensures Valid() && ok == (b.id in old(blocks))
      ensures blocks == old(blocks) - {b.id} && all == old(all)
      ensures !ok ==> unchanged(this) && unchanged(disk) && forall x :: x in all ==> unchanged(x)
      ensures ok ==> OthersKept(old(blocks[b.id]))
      ensures ok && old(blocks[b.id].holders) > 0 ==> unchanged(old(blocks[b.id])) && utilization == old(utilization)
      ensures ok && old(blocks[b.id].holders) == 0 ==>
        old(blocks[b.id]).capacity == 0 && utilization == old(utilization) - old(blocks[b.id].capacity)
    {
      assert b.id in blocks ==> blocks[b.id] in all && blocks[b.id].owner == this && blocks[b.id].id == b.id;
      hide CacheManager.Valid;
      ok := b.id in blocks;
      if ok {
        var gone := blocks[b.id];
        if gone.holders == 0 { gone.Clear(); }
        Forget(gone);
      }
    }

    method Forget(b: CacheBlock)
      requires Valid() && Named(b) && (b.holders == 0 ==> b.capacity == 0 && b.filename == "")
      modifies `blocks
      ensures Valid() && blocks == old(blocks) - {b.id}
    {
      blocks := blocks - {b.id};
    }

    ghost function LiveCapacities(): (c: seq<nat>)
      reads this, slots
      ensures |c| == |slots|
    {
      seq(|slots|, i requires 0 <= i < |slots| reads this, slots => if LastHold(slots[i]) then 0 else slots[i].capacity)
    }

    /** The budget counts the capacity of live blocks and nothing else, and never exceeds the maximum. */
    lemma BudgetIsLive()
      requires Valid()
      ensures utilization == Sum(LiveCapacities()) <= limit
      ensures forall b :: b in all ==> |b.data| <= b.capacity <= b.maximumCapacity <= limitPerFile
    {
      assert caps == LiveCapacities() by {
        forall i | 0 <= i < |slots| ensures caps[i] == LiveCapacities()[i] {
          assert slots[i] in all && InOrder(slots[i]);
        }
      }
    }
  }
}
