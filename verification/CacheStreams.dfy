/** cache_stream_sink and cache_stream_source: a byte stream over a cache block, wherever it lives. */
module CacheStreams {
  import opened Numbers
  import opened CacheManager

  /** A name no file on the disk has. */
  method GetTempName(disk: Disk) returns (name: string)
    ensures name != "" && name !in disk.files
  {
    name := "x";
    var seen: set<string> := {};
    while name in disk.files
      invariant name != "" && seen <= disk.files.Keys
      invariant forall s :: s in seen ==> |s| < |name|
      decreases disk.files.Keys - seen
    {
      seen := seen + {name};
      name := name + "x";
    }
  }

  class CacheStreamSink {
    const manager: CacheManager
    const block: CacheBlock
    var outFile: string  // the open file's name, empty if there is none

    constructor (manager: CacheManager, id: string, temp: string)
      requires manager.Valid() && temp != "" && temp !in manager.disk.files
      modifies manager, manager.disk, manager.all
      ensures this.manager == manager && manager.Valid() && Ready() && fresh(this)
      ensures manager.blocks == old(manager.blocks)[id := block] && block.id == id
      ensures block.holders == (if id in old(manager.blocks) then old(manager.blocks[id].holders) else 0) + 1
      ensures block.filename == "" && block.inMemory == old(manager.GetsMemory(id))
      ensures block.Content(manager.disk.files) == "" && manager.OthersKept(block) && manager.Grown()
    {
      this.manager := manager;
      var b := manager.NewCache(id, temp);
      block, outFile := b, b.filename;
    }

    /** The sink is the block's one writer: it has the block's file open exactly when there is one. */
    ghost predicate Ready()
      reads this, manager, block
    {
      manager.Owns(block) && block.holders > 0 && outFile == block.filename
    }

    /** Appends, in memory if the block may grow, else in a file, where the block stays from then on. */
    method Write(c: string, memoryLeft: bool, temp: string)
      requires manager.Valid() && Ready()
      requires temp != "" && temp !in manager.disk.files
      modifies `outFile, block, manager`utilization, manager`caps, manager`fileOf, manager.disk
      ensures manager.Valid() && Ready() && block.holders == old(block.holders)
      ensures block.Content(manager.disk.files) == old(block.Content(manager.disk.files)) + c && block.Readable()
      ensures manager.OthersKept(block)
      ensures (outFile != "") == (old(outFile) != "" || !old(block.HasRoom(|c|, memoryLeft)))
    {
      if outFile == "" {
        var written := block.WriteBytesToMemoryCache(c, memoryLeft);
        if written { return; }
        block.WriteToFile(temp);
        outFile := block.filename;
      }
      AppendToFile(c);
    }

    method AppendToFile(c: string)
      requires manager.Valid() && Ready() && outFile != ""
      modifies manager.disk
      ensures manager.Valid() && manager.OthersKept(block)
      ensures block.Content(manager.disk.files) == old(block.Content(manager.disk.files)) + c
    {
      manager.disk.files := manager.disk.files[outFile := manager.disk.files[outFile] + c];
    }
  }

  /** A read gives bytes, or goes through a null stream pointer. */
  datatype ReadResult = Bytes(bytes: string) | NullStream

  class CacheStreamSource {
    const manager: CacheManager
    const block: CacheBlock
    const inArray: bool      // the array pointer is not null
    const arraySize: nat
    const inFile: string     // the open file's name; empty when no file was opened
    var position: nat
    ghost const bytes: string  // what the block stood for when the source was opened

    constructor (block: CacheBlock)
      requires block.owner.Valid() && block.owner.Owns(block)
      ensures this.block == block && manager == block.owner && bytes == block.Content(manager.disk.files)
      ensures Current() && position == 0
      ensures Reads() <==> block.Readable()
    {
      this.block, manager, position := block, block.owner, 0;
      bytes := block.Content(block.owner.disk.files);
      inArray := block.filename == "" && block.inMemory;
      arraySize := if block.filename == "" then |block.data| else 0;
      inFile := block.filename;
    }

    /** Nobody has written to the block since the source was opened. */
    ghost predicate Current()
      reads this, manager, manager.disk, block
    {
      && block.owner == manager && block.Content(manager.disk.files) == bytes && position <= |bytes|
      && inArray == (block.filename == "" && block.inMemory) && inFile == block.filename
      && (inArray ==> arraySize == |block.data|)
      && (inFile != "" ==> inFile in manager.disk.files)
    }

    /** There is something to read from, an array or a file. */
    ghost predicate Reads() { inArray || inFile != "" }

    /** The next bytes. A block that never had memory nor a write has neither array nor file: the one case
        that fails. */
    method Read(n: nat) returns (r: ReadResult)
      requires Current()
      modifies `position
      ensures Current()
      ensures r == NullStream <==> !Reads()
      ensures r.Bytes? ==> position == Min(old(position) + n, |bytes|) && r.bytes == bytes[old(position)..position]
      ensures r.NullStream? ==> position == old(position)
    {
      if inArray {
        var bytesRead := Min(n, arraySize - position);
        r := Bytes(block.data[position..position + bytesRead]);
        position := position + bytesRead;
      } else if inFile != "" {
        var content := manager.disk.files[inFile];
        var next := Min(position + n, |content|);
        r := Bytes(content[position..next]);
        position := next;
      } else {
        r := NullStream;
      }
    }
  }

  /** Opens a stream on a name; null stands for out_of_range. */
  method OpenSource(manager: CacheManager, id: string) returns (source: CacheStreamSource?)
    requires manager.Valid()
    modifies manager.all`holders
    ensures manager.Valid() && (source == null <==> id !in manager.blocks)
    ensures forall x :: x in manager.all && (source == null || x != source.block) ==> unchanged(x)
    ensures source != null ==>
      && fresh(source) && source.block == manager.blocks[id]
        && source.block.holders == old(manager.blocks[id].holders) + 1
      && source.manager == manager && source.Current() && source.position == 0
      && source.bytes == old(manager.blocks[id].Content(manager.disk.files))
        && (source.Reads() <==> old(manager.blocks[id].Readable()))
  {
    var block := manager.GetCache(id);
    if block == null { return null; }
    source := new CacheStreamSource(block);
  }

  /** Nothing a user of the block can tell has changed. */
  twostate predicate Undisturbed(manager: CacheManager, block: CacheBlock)
    reads manager, manager.disk, manager.all, block
  {
    && (manager.Valid() && manager.Owns(block))
    && block.id in manager.blocks && manager.blocks[block.id] == block
    && manager.KeptBlock(block)
  }

  /** What users of other names do: open a new stream and keep it, write a whole stream and let it go, open a
      reader, read and let it go, or remove a name. */
  datatype Other =
    | Create(id: string)
    | Fill(id: string, chunks: seq<string>, memoryLeft: bool)
    | Look(id: string, n: nat)
    | Remove(id: string)

  method OpenOther(manager: CacheManager, block: CacheBlock, id: string) returns (sink: CacheStreamSink)
    requires manager.Valid() && manager.Owns(block) && id != block.id
    requires block.id in manager.blocks && manager.blocks[block.id] == block
    modifies manager, manager.disk, manager.all
    ensures Undisturbed(manager, block) && manager.Grown()
    ensures fresh(sink) && sink.manager == manager && sink.Ready() && sink.block.id == id
    ensures fresh(sink.block) || sink.block in old(manager.all)
  {
    hide CacheManager.Valid, CacheManager.GetsMemory;
    var temp := GetTempName(manager.disk);
    sink := new CacheStreamSink(manager, id, temp);
  }

  method FillOther(manager: CacheManager, block: CacheBlock, id: string, chunks: seq<string>, memoryLeft: bool)
    requires manager.Valid() && manager.Owns(block) && id != block.id
    requires block.id in manager.blocks && manager.blocks[block.id] == block
    modifies manager, manager.disk, manager.all
    ensures Undisturbed(manager, block) && manager.Grown()
  {
    hide CacheManager.Valid, CacheManager.GetsMemory;
    var sink := OpenOther(manager, block, id);
    WriteChunks(sink, block, chunks, memoryLeft);
    manager.Drop(sink.block);
  }

  method WriteChunks(sink: CacheStreamSink, block: CacheBlock, chunks: seq<string>, memoryLeft: bool)
    requires sink.manager.Valid() && sink.Ready() && sink.block.id != block.id
    requires sink.manager.Owns(block) && block.id in sink.manager.blocks && sink.manager.blocks[block.id] == block
    modifies sink, sink.block, sink.manager`utilization, sink.manager`caps, sink.manager`fileOf, sink.manager.disk
    ensures Undisturbed(sink.manager, block) && sink.Ready()
  {
    hide CacheManager.Valid;
    if chunks != [] {
      var temp := GetTempName(sink.manager.disk);
      sink.Write(chunks[0], memoryLeft, temp);
      WriteChunks(sink, block, chunks[1..], memoryLeft);
    }
  }

  method LookOther(manager: CacheManager, block: CacheBlock, id: string, n: nat)
    requires manager.Valid() && manager.Owns(block) && id != block.id
    requires block.id in manager.blocks && manager.blocks[block.id] == block
    modifies manager, manager.disk, manager.all
    ensures Undisturbed(manager, block) && manager.Grown()
  {
    hide CacheManager.Valid;
    var source := OpenSource(manager, id);
    if source != null {
      var _ := source.Read(n);
      manager.Drop(source.block);
    }
  }

  method RemoveOther(manager: CacheManager, block: CacheBlock, id: string)
    requires manager.Valid() && manager.Owns(block) && id != block.id
    requires block.id in manager.blocks && manager.blocks[block.id] == block
    modifies manager, manager.disk, manager.all
    ensures Undisturbed(manager, block) && manager.Grown()
  {
    hide CacheManager.Valid;
    var b := manager.GetCache(id);
    if b != null {
      var _ := manager.Free(b);
      manager.Drop(b);
    }
  }

  method Disturb(manager: CacheManager, block: CacheBlock, others: seq<Other>)
    requires manager.Valid() && manager.Owns(block) && forall o :: o in others ==> o.id != block.id
    requires block.id in manager.blocks && manager.blocks[block.id] == block
    modifies manager, manager.disk, manager.all
    ensures Undisturbed(manager, block) && manager.Grown()
  {
    hide CacheManager.Valid;
    if others != [] {
      match others[0] {
        case Create(id) => var _ := OpenOther(manager, block, id);
        case Fill(id, chunks, memoryLeft) => FillOther(manager, block, id, chunks, memoryLeft);
        case Look(id, n) => LookOther(manager, block, id, n);
        case Remove(id) => RemoveOther(manager, block, id);
      }
      Disturb(manager, block, others[1..]);
    }
  }

  /** One write, whether the allocator can help it, and what others do after it. */
  datatype Turn = Turn(chunk: string, memoryLeft: bool, others: seq<Other>)

  function Written(turns: seq<Turn>): string {
    if turns == [] then "" else turns[0].chunk + Written(turns[1..])
  }

  ghost predicate OthersStayAway(turns: seq<Turn>, id: string) {
    forall t, o :: t in turns && o in t.others ==> o.id != id
  }

  /** The sink's block is the one known by its name. */
  ghost predicate Named(sink: CacheStreamSink)
    reads sink, sink.manager, sink.manager.disk, sink.manager.all, sink.block
  {
    && sink.manager.Valid() && sink.Ready()
    && sink.block.id in sink.manager.blocks && sink.manager.blocks[sink.block.id] == sink.block
  }

  method TakeTurn(sink: CacheStreamSink, turn: Turn)
    requires Named(sink) && forall o :: o in turn.others ==> o.id != sink.block.id
    modifies sink, sink.manager, sink.manager.disk, sink.manager.all
    ensures Named(sink) && sink.manager.Grown()
    ensures sink.block.Content(sink.manager.disk.files) == old(sink.block.Content(sink.manager.disk.files)) + turn.chunk
    ensures sink.block.holders == old(sink.block.holders) && sink.block.Readable()
  {
    hide CacheManager.Valid;
    var temp := GetTempName(sink.manager.disk);
    sink.Write(turn.chunk, turn.memoryLeft, temp);
    Disturb(sink.manager, sink.block, turn.others);
  }

  method WriteAll(sink: CacheStreamSink, turns: seq<Turn>)
    requires Named(sink) && OthersStayAway(turns, sink.block.id)
    modifies sink, sink.manager, sink.manager.disk, sink.manager.all
    ensures Named(sink) && sink.manager.Grown()
    ensures sink.block.Content(sink.manager.disk.files) ==
      old(sink.block.Content(sink.manager.disk.files)) + Written(turns)
    ensures sink.block.holders == old(sink.block.holders)
    ensures sink.block.Readable() <==> turns != [] || old(sink.block.Readable())
  {
    hide CacheManager.Valid;
    if turns != [] {
      TakeTurn(sink, turns[0]);
      WriteAll(sink, turns[1..]);
    }
  }

  method OpenSink(manager: CacheManager, id: string) returns (sink: CacheStreamSink)
    requires manager.Valid()
    modifies manager, manager.disk, manager.all
    ensures fresh(sink) && sink.manager == manager && sink.block.id == id && Named(sink) && manager.Grown()
    ensures fresh(sink.block) || sink.block in old(manager.all)
    ensures sink.block.holders == old(if id in manager.blocks then manager.blocks[id].holders else 0) + 1
    ensures sink.block.Content(manager.disk.files) == "" && sink.block.Readable() == old(manager.GetsMemory(id))
  {
    hide CacheManager.Valid, CacheManager.GetsMemory, CacheBlock.Content;
    var temp := GetTempName(manager.disk);
    sink := new CacheStreamSink(manager, id, temp);
  }

  /** A stream written under a name, whether it is new or overwrites an old one, held by others or not, and let go. */
  method WriteStream(manager: CacheManager, id: string, turns: seq<Turn>) returns (block: CacheBlock)
    requires manager.Valid() && OthersStayAway(turns, id)
    modifies manager, manager.disk, manager.all
    ensures manager.Valid() && manager.Owns(block) && manager.Grown()
    ensures id == block.id && id in manager.blocks && manager.blocks[id] == block
    ensures block.Content(manager.disk.files) == Written(turns)
    ensures block.holders == old(if id in manager.blocks then manager.blocks[id].holders else 0)
    ensures block.Readable() <==> turns != [] || old(manager.GetsMemory(id))
  {
    hide CacheManager.Valid, CacheManager.GetsMemory, CacheBlock.Content;
    var sink := OpenSink(manager, id);
    WriteAll(sink, turns);
    block := sink.block;
    manager.Drop(block);
  }

  /** The whole life of a cached stream: written under a name, new or overwritten, let go, perhaps evicted by
      others, opened again and read in one go. The bytes written come back; only a stream nothing was
      written to, under a name that got no memory, has nothing to read from. */
  method WriteThenRead(manager: CacheManager, id: string, turns: seq<Turn>, after: seq<Other>, n: nat)
    returns (r: ReadResult)
    requires manager.Valid() && OthersStayAway(turns, id) && forall o :: o in after ==> o.id != id
    modifies manager, manager.disk, manager.all
    ensures manager.Valid()
    ensures r == if turns != [] || old(manager.GetsMemory(id)) then Bytes(Written(turns)[..Min(n, |Written(turns)|)])
      else NullStream
  {
    hide CacheManager.Valid, CacheManager.GetsMemory;
    var block := WriteStream(manager, id, turns);
    Disturb(manager, block, after);
    var source := OpenSource(manager, id);
    r := source.Read(n);
  }

  /** With no budget at all, a stream opened and not written to cannot be read. */
  method NullStreamHappens() returns (r: ReadResult)
    ensures r == NullStream
  {
    var disk := new Disk();
    var manager := new CacheManager(disk, 0, 8, 4);
    r := WriteThenRead(manager, "a", [], [], 1);
  }
}
