/**
 * The chunk pipeline of Scripts/ChunkManager.cs.
 *
 * Chunks wait in three queues: persist (chunks leaving the world), populate (chunks without
 * block data) and build (chunks ready to be meshed); finished meshes wait in a fourth.  Each
 * ProcessChunks call takes one chunk from the first non-empty queue, in that order.  A persisted
 * chunk goes into a 64-entry LruCache; the chunk the cache evicts is written to its chunk file.
 * A populated chunk gets its blocks from the cache, else from its chunk file, else from the
 * terrain generator, and the counters record which.  The queues are plain sequences (the source
 * uses ConcurrentQueue for a worker thread, which is not modelled), and the file system is a map
 * from paths to the int32 cells of each file.
 */
module ChunkManager {

  import opened Blocks
  import opened Util
  import opened Chunks
  import Lru = LruCache
  import CB = ChunkBuilder
  import M = ChunkMesh

  /** ChunkManager.cacheSize (Scripts/ChunkManager.cs:17): the chunks of int32 cells that fit in 1 MiB. */
  const CacheSize: int := (1024 * 1024 * 1) / (ChunkSize * ChunkSize * ChunkSize * 4)

  lemma CacheSizeIs64()
    ensures CacheSize == 64
  {
  }

  /**
   * The file `ChunkFileName(chunkPos)` in directory `dir`.  The empty directory is a bare file
   * name, which the file system resolves against the working directory; Path.Combine with an
   * empty directory gives that bare name too.
   */
  datatype FilePath = FilePath(dir: string, chunkPos: Vec3)

  const WorkingDir: string := ""

  /** Every cell of a chunk file stands for a block type. */
  predicate ValidCodes(data: seq<int>)
  {
    forall i :: 0 <= i < |data| ==> 0 <= data[i] < 8
  }

  /** What WriteChunkToFile leaves in the file: the chunk's type codes, or an empty file for an unpopulated chunk. */
  function FileImage(c: Chunk): (r: seq<int>)
    reads c, c.blocks
    ensures ValidCodes(r)
    ensures c.blocks != null ==> |r| == c.blocks.Length
  {
    if c.blocks == null then [] else EncodeTypes(c.blocks[..])
  }

  /**
   * A chunk evicted to its chunk file is only found again by the populate step when the data
   * directory is the working directory: the write path is `Path.Combine(dataDir, name)`
   * (Scripts/ChunkManager.cs:87) and the read path the bare `name` (Scripts/ChunkManager.cs:150).
   */
  lemma EvictedChunkIsReadBackOnlyFromWorkingDir(disk: map<FilePath, seq<int>>, dataDir: string, pos: Vec3, image: seq<int>)
    requires FilePath(WorkingDir, pos) !in disk
    ensures FilePath(WorkingDir, pos) in disk[FilePath(dataDir, pos) := image] <==> dataDir == WorkingDir
  {
  }

  /** Reading back the file of an evicted populated chunk restores every block type it had. */
  lemma EvictedChunkRoundTrip(g: seq<Block>, i: int)
    requires |g| == ChunkVolume && 0 <= i < ChunkVolume
    ensures DecodeInto(EmptyGrid, EncodeTypes(g))[i].blockType == g[i].blockType
  {
    ReadOfWriteRestoresTypes(EmptyGrid, g, i);
  }

  /** Every chunk of `cs` belongs to world `w`. */
  predicate InWorld(cs: seq<Chunk>, w: WorldData)
  {
    forall i :: 0 <= i < |cs| ==> cs[i].world == w
  }

  /** Every chunk file holds block type codes. */
  predicate FilesOk(disk: map<FilePath, seq<int>>)
  {
    forall p :: p in disk ==> ValidCodes(disk[p])
  }

  /** LoadedTotal, LoadedFromCache, LoadedFromDisk and LoadedByBuilding. */
  datatype Tally = Tally(total: int, fromCache: int, fromDisk: int, byBuilding: int)

  /** Every loaded chunk is counted under exactly one source. */
  predicate Balanced(t: Tally)
  {
    t.total == t.fromCache + t.fromDisk + t.byBuilding
  }

  /**
   * The counters after a populate step that ran to its end (Scripts/ChunkManager.cs:138-170):
   * `hit` is a cache hit, `populated` whether the chunk had blocks after the cache check, and
   * `onDisk` whether its chunk file then existed.  A step adds one to the sources exactly when
   * a hit brought blocks, or a miss found none: a hit on an unpopulated cached chunk is counted
   * twice, and a chunk that was already populated not at all.
   */
  function CountPopulate(t: Tally, hit: bool, populated: bool, onDisk: bool): (r: Tally)
    ensures r.total == t.total + 1
    ensures r.fromCache + r.fromDisk + r.byBuilding - r.total ==
      t.fromCache + t.fromDisk + t.byBuilding - t.total + (if hit then 1 else 0) - (if populated then 1 else 0)
    ensures Balanced(t) ==> (Balanced(r) <==> hit == populated)
  {
    Tally(t.total + 1,
      t.fromCache + (if hit then 1 else 0),
      t.fromDisk + (if !populated && onDisk then 1 else 0),
      t.byBuilding + (if !populated && !onDisk then 1 else 0))
  }

  /** The lengths of the persist, populate, build and mesh queues. */
  datatype Lengths = Lengths(persist: nat, populate: nat, build: nat, meshes: nat)

  /** The queue lengths after one ProcessChunks call, `ok` when it did not throw. */
  function StepLengths(l: Lengths, ok: bool): Lengths
  {
    if l.persist > 0 then l.(persist := l.persist - 1)
    else if l.populate > 0 then l.(populate := l.populate - 1, build := l.build + if ok then 1 else 0)
    else if l.build > 0 then l.(build := l.build - 1, meshes := l.meshes + if ok then 1 else 0)
    else l
  }

  /** The ProcessChunks calls still needed: a chunk waiting to be populated needs two. */
  function Work(l: Lengths): nat
  {
    l.persist + 2 * l.populate + l.build
  }

  /** n ProcessChunks calls in a row, none of which throws. */
  function Steps(l: Lengths, n: nat): Lengths
    decreases n
  {
    if n == 0 then l else Steps(StepLengths(l, true), n - 1)
  }

  /**
   * Each call handles at most one chunk: a call that does not throw does one unit of work when
   * any is left, and nothing otherwise.
   */
  lemma StepDoesOneUnit(l: Lengths, ok: bool)
    ensures Work(l) > 0 && ok ==> Work(StepLengths(l, ok)) == Work(l) - 1
    ensures Work(l) == 0 ==> StepLengths(l, ok) == l
    ensures Work(StepLengths(l, ok)) <= Work(l)
  {
  }

  /**
   * When no call throws, Work(l) calls drain every queue, and every chunk that was waiting to be
   * populated or built has become exactly one mesh.
   */
  lemma {:induction false} StepsDrainQueues(l: Lengths, n: nat)
    requires n >= Work(l)
    ensures Work(Steps(l, n)) == 0
    ensures Steps(l, n).meshes == l.meshes + l.populate + l.build
    decreases n
  {
    if n > 0 {
      if Work(l) > 0 {
        StepDoesOneUnit(l, true);
      }
      StepsDrainQueues(StepLengths(l, true), n - 1);
    }
  }

  /** ChunkManager (Scripts/ChunkManager.cs:10-37). */
  class ChunkManager {
    var persistQueue: seq<Chunk>
    var populateQueue: seq<Chunk>
    var buildQueue: seq<Chunk>
    var chunkMeshQueue: seq<M.ChunkMesh>
    const chunkCache: Lru.LruCache<Vec3, Chunk>
    const world: WorldData
    /** `world.dataDir`, the directory chunk files are written to; WorldData has no such field, so it is a parameter. */
    const dataDir: string
    /** The chunk files of the file system. */
    var disk: map<FilePath, seq<int>>
    /** Set only by Start and Stop, which run the worker thread. */
    var isRunning: bool
    /** LoadedTotal, LoadedFromCache, LoadedFromDisk and LoadedByBuilding. */
    var loaded: Tally

    /** ChunkManager(worldData): empty queues and cache, OnEvict bound to WriteChunkToFile. */
    constructor (worldData: WorldData, dataDir: string, disk: map<FilePath, seq<int>>)
      requires forall p :: p in disk ==> ValidCodes(disk[p])
      ensures Valid() && world == worldData && this.dataDir == dataDir && this.disk == disk
      ensures Queues() == Lengths(0, 0, 0, 0) && Counters() == Tally(0, 0, 0, 0) && !isRunning
      ensures chunkCache.entries == []
    {
      persistQueue, populateQueue, buildQueue, chunkMeshQueue := [], [], [], [];
      chunkCache := new Lru.LruCache(CacheSize);
      world := worldData;
      this.dataDir := dataDir;
      this.disk := disk;
      isRunning := false;
      loaded := Tally(0, 0, 0, 0);
    }

    function Queues(): Lengths
      reads this
    {
      Lengths(|persistQueue|, |populateQueue|, |buildQueue|, |chunkMeshQueue|)
    }

    /** The queues, the chunk files and the run flag. */
    function Pipeline(): (seq<Chunk>, seq<Chunk>, seq<Chunk>, seq<M.ChunkMesh>, map<FilePath, seq<int>>, bool)
      reads this
    {
      (persistQueue, populateQueue, buildQueue, chunkMeshQueue, disk, isRunning)
    }

    function Counters(): Tally
      reads this
    {
      loaded
    }

    /** The cache is consistent and has capacity 64. */
    ghost predicate CacheOk()
      reads chunkCache, chunkCache.usageList
    {
      chunkCache.Valid() && chunkCache.capacity == CacheSize
    }

    /**
     * The cache is consistent, the chunks waiting to be populated or built belong to this
     * manager's world, and every chunk file holds block type codes.
     */
    ghost predicate Valid()
      reads this`populateQueue, this`buildQueue, this`disk, chunkCache, chunkCache.usageList
    {
      CacheOk() && InWorld(populateQueue, world) && InWorld(buildQueue, world) && FilesOk(disk)
    }

    /** ChunkManager.EnqueueChunk (Scripts/ChunkManager.cs:39-45): populated chunks to the build queue, others to the populate queue. */
    method EnqueueChunk(chunk: Chunk)
      requires Valid() && chunk.world == world
      modifies this`populateQueue, this`buildQueue
      ensures Valid()
      ensures chunk.IsPopulated() ==> buildQueue == old(buildQueue) + [chunk] && populateQueue == old(populateQueue)
      ensures !chunk.IsPopulated() ==> populateQueue == old(populateQueue) + [chunk] && buildQueue == old(buildQueue)
      ensures persistQueue == old(persistQueue) && chunkMeshQueue == old(chunkMeshQueue)
      ensures disk == old(disk) && Counters() == old(Counters()) && isRunning == old(isRunning)
    {
      if chunk.IsPopulated() {
        buildQueue := buildQueue + [chunk];
      } else {
        populateQueue := populateQueue + [chunk];
      }
    }

    /** ChunkManager.PersistChunkData (Scripts/ChunkManager.cs:47-50): only appends to the persist queue. */
    method PersistChunkData(chunk: Chunk)
      requires Valid()
      modifies this
      ensures Valid()
      ensures persistQueue == old(persistQueue) + [chunk]
      ensures populateQueue == old(populateQueue) && buildQueue == old(buildQueue) && chunkMeshQueue == old(chunkMeshQueue)
      ensures disk == old(disk) && Counters() == old(Counters()) && isRunning == old(isRunning)
    {
      persistQueue := persistQueue + [chunk];
    }

    /** ChunkManager.WriteChunkToFile (Scripts/ChunkManager.cs:85-94): creates or truncates the file in the data directory. */
    method WriteChunkToFile(chunkPos: Vec3, chunk: Chunk)
      modifies this`disk
      ensures disk == old(disk)[FilePath(dataDir, chunkPos) := FileImage(chunk)]
      ensures persistQueue == old(persistQueue) && populateQueue == old(populateQueue) && buildQueue == old(buildQueue)
      ensures chunkMeshQueue == old(chunkMeshQueue) && Counters() == old(Counters()) && isRunning == old(isRunning)
    {
      var _, written := chunk.WriteBinary();
      disk := disk[FilePath(dataDir, chunkPos) := written];
    }

    /** ChunkManager.GetNextMesh (Scripts/ChunkManager.cs:96-101): the oldest mesh, or `None` (null) when there is none. */
    method GetNextMesh() returns (r: Option<M.ChunkMesh>)
      requires Valid()
      modifies this
      ensures Valid()
      ensures old(chunkMeshQueue) == [] ==> r == None && chunkMeshQueue == []
      ensures old(chunkMeshQueue) != [] ==> r == Some(old(chunkMeshQueue)[0]) && chunkMeshQueue == old(chunkMeshQueue)[1..]
      ensures persistQueue == old(persistQueue) && populateQueue == old(populateQueue) && buildQueue == old(buildQueue)
      ensures disk == old(disk) && Counters() == old(Counters()) && isRunning == old(isRunning)
    {
      if chunkMeshQueue == [] {
        return None;
      }
      r := Some(chunkMeshQueue[0]);
      chunkMeshQueue := chunkMeshQueue[1..];
    }

    /**
     * ChunkManager.SerialProcessChunks (Scripts/ChunkManager.cs:112-118): one ProcessChunks
     * call unless the worker thread runs; reports whether it runs.
     */
    method SerialProcessChunks() returns (running: bool, ok: bool)
      requires Valid()
      modifies this, chunkCache, chunkCache.usageList, if populateQueue != [] then {populateQueue[0]} else {}
      ensures Valid()
      ensures running == old(isRunning) && isRunning == old(isRunning)
      ensures running ==> ok && Queues() == old(Queues()) && Counters() == old(Counters())
      ensures !running ==> Queues() == StepLengths(old(Queues()), ok)
      ensures old(populateQueue) != [] ==> var c := old(populateQueue)[0]; c.chunkPos == old(c.chunkPos)
    {
      if !isRunning {
        ok := ProcessChunks();
      } else {
        ok := true;
      }
      running := isRunning;
    }

    /**
     * ChunkManager.ProcessChunks (Scripts/ChunkManager.cs:120-190): one step on the first
     * non-empty queue of persist, populate and build; `false` when the step threw.
     */
    method ProcessChunks() returns (ok: bool)
      requires Valid()
      modifies this, chunkCache, chunkCache.usageList, if populateQueue != [] then {populateQueue[0]} else {}
      ensures Valid() && isRunning == old(isRunning)
      ensures Queues() == StepLengths(old(Queues()), ok)
      ensures old(populateQueue) != [] ==> var c := old(populateQueue)[0]; c.chunkPos == old(c.chunkPos)
      ensures old(persistQueue) != [] ==>
        ok && persistQueue == old(persistQueue)[1..]
        && populateQueue == old(populateQueue) && buildQueue == old(buildQueue) && Counters() == old(Counters())
      ensures old(persistQueue) == [] && old(populateQueue) != [] ==>
        populateQueue == old(populateQueue)[1..] && old(populateQueue)[0].IsPopulated()
        && buildQueue == old(buildQueue) + (if ok then [old(populateQueue)[0]] else [])
      ensures old(persistQueue) == [] && old(populateQueue) == [] && old(buildQueue) != [] ==>
        buildQueue == old(buildQueue)[1..] && chunkMeshQueue[..|old(chunkMeshQueue)|] == old(chunkMeshQueue)
        && Counters() == old(Counters())
      ensures old(persistQueue) == [] && old(populateQueue) == [] && old(buildQueue) == [] ==>
        ok && chunkMeshQueue == old(chunkMeshQueue) && Counters() == old(Counters()) && disk == old(disk)
        && chunkCache.entries == old(chunkCache.entries)
    {
      if persistQueue != [] {
        PersistStep();
        return true;
      }
      if populateQueue != [] {
        ok := PopulateStep();
        return;
      }
      if buildQueue != [] {
        ok := BuildStep();
        return;
      }
      ok := true;
    }

    /**
     * The persist branch (Scripts/ChunkManager.cs:125-132): the chunk goes into the cache under
     * its position; the entry the full cache evicts is written to its chunk file first.
     */
    method PersistStep()
      requires Valid() && persistQueue != []
      modifies this`persistQueue, this`disk, chunkCache, chunkCache.usageList
      ensures Valid()
      ensures persistQueue == old(persistQueue)[1..]
      ensures populateQueue == old(populateQueue) && buildQueue == old(buildQueue) && chunkMeshQueue == old(chunkMeshQueue)
      ensures Counters() == old(Counters()) && isRunning == old(isRunning)
      ensures var c := old(persistQueue)[0];
        var add := Lru.AddEntries(old(chunkCache.entries), CacheSize, c.chunkPos, c);
        chunkCache.entries == add.0
        && disk == if add.1.Evicted? then old(disk)[FilePath(dataDir, add.1.key) := FileImage(add.1.value)] else old(disk)
    {
      var chunk := persistQueue[0];
      persistQueue := persistQueue[1..];
      StoreInCache(chunk);
    }

    /** chunkCache.Add of the persist branch, with OnEvict writing the evicted entry to its chunk file. */
    method StoreInCache(chunk: Chunk)
      requires CacheOk() && FilesOk(disk)
      modifies this`disk, chunkCache, chunkCache.usageList
      ensures CacheOk() && FilesOk(disk)
      ensures var add := Lru.AddEntries(old(chunkCache.entries), CacheSize, chunk.chunkPos, chunk);
        chunkCache.entries == add.0
        && disk == if add.1.Evicted? then old(disk)[FilePath(dataDir, add.1.key) := FileImage(add.1.value)] else old(disk)
      ensures persistQueue == old(persistQueue) && populateQueue == old(populateQueue) && buildQueue == old(buildQueue)
      ensures chunkMeshQueue == old(chunkMeshQueue) && Counters() == old(Counters()) && isRunning == old(isRunning)
    {
      var r := chunkCache.Add(chunk.chunkPos, chunk);
      if r.Evicted? {
        WriteChunkToFile(r.key, r.value);
      }
    }

    /**
     * The populate branch (Scripts/ChunkManager.cs:134-175): blocks from the cached chunk of the
     * same position, else from the chunk file, else from the terrain generator; then the chunk
     * joins the build queue.  A chunk file shorter than a chunk makes ReadBinary throw.
     */
    method PopulateStep() returns (ok: bool)
      requires Valid() && populateQueue != []
      modifies this`populateQueue, this`buildQueue, this`loaded
      modifies chunkCache, populateQueue[0]
      ensures Valid()
      ensures populateQueue == old(populateQueue)[1..]
      ensures persistQueue == old(persistQueue) && chunkMeshQueue == old(chunkMeshQueue) && disk == old(disk) && isRunning == old(isRunning)
      ensures var c := old(populateQueue)[0];
        c.IsPopulated() && c.chunkPos == old(c.chunkPos)
        && chunkCache.entries == Lru.GetEntries(old(chunkCache.entries), c.chunkPos).0
        && buildQueue == old(buildQueue) + (if ok then [c] else [])
      ensures var c := old(populateQueue)[0]; var start := old(GridAfterCache(chunkCache, c));
        start != null ==> ok && c.blocks == start && c.blocks[..] == old(start[..])
      ensures var c := old(populateQueue)[0]; var path := FilePath(WorkingDir, c.chunkPos);
        old(GridAfterCache(chunkCache, c)) == null && path in disk ==>
          fresh(c.blocks) && c.blocks[..] == DecodeInto(EmptyGrid, disk[path]) && (ok <==> |disk[path]| >= ChunkVolume)
      ensures var c := old(populateQueue)[0]; var path := FilePath(WorkingDir, c.chunkPos);
        old(GridAfterCache(chunkCache, c)) == null && path !in disk ==>
          ok && fresh(c.blocks) && c.blocks[..] == CB.Retyped(EmptyGrid, c.chunkPos, p => CB.DetermineBlockTypeAsWritten(world.fields, p))
      ensures var c := old(populateQueue)[0]; var hit := old(CacheHit(chunkCache, c)).Some?;
        var populated := old(GridAfterCache(chunkCache, c)) != null;
        if ok then Counters() == CountPopulate(old(Counters()), hit, populated, FilePath(WorkingDir, c.chunkPos) in disk)
        else Counters() == old(Counters()).(total := old(loaded.total) + 1, fromCache := old(loaded.fromCache) + if hit then 1 else 0)
    {
      var chunk := populateQueue[0];
      populateQueue := populateQueue[1..];
      ok := PopulateChunk(chunk);
    }

    /** The populate branch after the dequeue (Scripts/ChunkManager.cs:138-172), on the dequeued chunk. */
    method PopulateChunk(chunk: Chunk) returns (ok: bool)
      requires Valid() && chunk.world == world
      modifies this`buildQueue, this`loaded, chunkCache, chunk
      ensures Valid()
      ensures populateQueue == old(populateQueue)
      ensures persistQueue == old(persistQueue) && chunkMeshQueue == old(chunkMeshQueue) && disk == old(disk) && isRunning == old(isRunning)
      ensures var c := chunk;
        c.IsPopulated() && c.chunkPos == old(c.chunkPos)
        && chunkCache.entries == Lru.GetEntries(old(chunkCache.entries), c.chunkPos).0
        && buildQueue == old(buildQueue) + (if ok then [c] else [])
      ensures var c := chunk; var start := old(GridAfterCache(chunkCache, c));
        start != null ==> ok && c.blocks == start && c.blocks[..] == old(start[..])
      ensures var c := chunk; var path := FilePath(WorkingDir, c.chunkPos);
        old(GridAfterCache(chunkCache, c)) == null && path in disk ==>
          fresh(c.blocks) && c.blocks[..] == DecodeInto(EmptyGrid, disk[path]) && (ok <==> |disk[path]| >= ChunkVolume)
      ensures var c := chunk; var path := FilePath(WorkingDir, c.chunkPos);
        old(GridAfterCache(chunkCache, c)) == null && path !in disk ==>
          ok && fresh(c.blocks) && c.blocks[..] == CB.Retyped(EmptyGrid, c.chunkPos, p => CB.DetermineBlockTypeAsWritten(world.fields, p))
      ensures var c := chunk; var hit := old(CacheHit(chunkCache, c)).Some?;
        var populated := old(GridAfterCache(chunkCache, c)) != null;
        if ok then Counters() == CountPopulate(old(Counters()), hit, populated, FilePath(WorkingDir, c.chunkPos) in disk)
        else Counters() == old(Counters()).(total := old(loaded.total) + 1, fromCache := old(loaded.fromCache) + if hit then 1 else 0)
    {
      var hit, fromDisk, built;
      hit, ok, fromDisk, built := FetchBlocks(chunk);
      loaded := Tally(loaded.total + 1,
        loaded.fromCache + (if hit then 1 else 0),
        loaded.fromDisk + (if fromDisk then 1 else 0),
        loaded.byBuilding + if built then 1 else 0);
      if ok {
        buildQueue := buildQueue + [chunk];
      }
    }

    /** The cache check, then the load, of the populate step (Scripts/ChunkManager.cs:141-170). */
    method FetchBlocks(chunk: Chunk)
      returns (hit: bool, ok: bool, fromDisk: bool, built: bool)
      requires chunkCache.Valid() && FilesOk(disk)
      modifies chunkCache, chunk
      ensures chunkCache.Valid() && chunk.IsPopulated() && chunk.chunkPos == old(chunk.chunkPos)
      ensures hit == old(CacheHit(chunkCache, chunk)).Some?
      ensures chunkCache.entries == Lru.GetEntries(old(chunkCache.entries), chunk.chunkPos).0
      ensures var path := FilePath(WorkingDir, chunk.chunkPos); var populated := old(GridAfterCache(chunkCache, chunk)) != null;
        fromDisk == (ok && !populated && path in disk) && built == (!populated && path !in disk)
      ensures Pipeline() == old(Pipeline()) && Counters() == old(Counters())
      ensures var start := old(GridAfterCache(chunkCache, chunk));
        start != null ==> ok && chunk.blocks == start && chunk.blocks[..] == old(start[..])
      ensures var path := FilePath(WorkingDir, chunk.chunkPos);
        old(GridAfterCache(chunkCache, chunk)) == null && path in disk ==>
          fresh(chunk.blocks) && chunk.blocks[..] == DecodeInto(EmptyGrid, disk[path]) && (ok <==> |disk[path]| >= ChunkVolume)
      ensures var path := FilePath(WorkingDir, chunk.chunkPos);
        old(GridAfterCache(chunkCache, chunk)) == null && path !in disk ==>
          ok && fresh(chunk.blocks) && chunk.blocks[..] == CB.Retyped(EmptyGrid, chunk.chunkPos, p => CB.DetermineBlockTypeAsWritten(chunk.world.fields, p))
    {
      hit := ShareCachedBlocks(chunkCache, chunk);
      ok, fromDisk, built := LoadBlocks(disk, chunk);
    }

    /**
     * The build branch (Scripts/ChunkManager.cs:177-187): a new mesh is built from the chunk and
     * queued; a face that throws leaves the mesh unqueued.
     */
    method BuildStep() returns (ok: bool)
      requires Valid() && buildQueue != []
      modifies this
      ensures Valid()
      ensures buildQueue == old(buildQueue)[1..]
      ensures persistQueue == old(persistQueue) && populateQueue == old(populateQueue) && disk == old(disk)
      ensures Counters() == old(Counters()) && isRunning == old(isRunning)
      ensures var c := old(buildQueue)[0];
        (!ok ==> chunkMeshQueue == old(chunkMeshQueue))
        && (ok ==> |chunkMeshQueue| == |old(chunkMeshQueue)| + 1 && chunkMeshQueue[..|old(chunkMeshQueue)|] == old(chunkMeshQueue)
                   && var mesh := chunkMeshQueue[|old(chunkMeshQueue)|];
                   fresh(mesh) && mesh.chunk == c && mesh.world == world && c.IsPopulated()
                   && mesh.view == old(M.ViewOf(c, world)) && M.BuiltFrom(M.EmptyMesh, mesh.view, mesh.Data(), true))
      ensures !old(buildQueue)[0].IsPopulated() ==> !ok
    {
      var chunk := buildQueue[0];
      var chunkMesh, built := BuildMesh(world, chunk);
      buildQueue := buildQueue[1..];
      ok := built;
      if ok {
        chunkMeshQueue := chunkMeshQueue + [chunkMesh];
      }
    }
  }

  /** The chunk `cache` holds for c's position. */
  ghost function CacheHit(cache: Lru.LruCache<Vec3, Chunk>, c: Chunk): Option<Chunk>
    reads cache, c
  {
    Lru.Lookup(cache.entries, c.chunkPos)
  }

  /** The grid c has after the cache check of the populate step: the cached chunk's on a hit. */
  ghost function GridAfterCache(cache: Lru.LruCache<Vec3, Chunk>, c: Chunk): array?<Block>
    reads cache, c, if CacheHit(cache, c).Some? then {CacheHit(cache, c).value} else {}
  {
    match CacheHit(cache, c)
    case Some(cached) => cached.blocks
    case None => c.blocks
  }

  /**
   * The cache check of the populate step (Scripts/ChunkManager.cs:141-146): on a hit the chunk
   * shares the cached chunk's grid, and the entry becomes the most recently used.
   */
  method ShareCachedBlocks(cache: Lru.LruCache<Vec3, Chunk>, chunk: Chunk) returns (hit: bool)
    requires cache.Valid()
    modifies cache, chunk`blocks
    ensures cache.Valid()
    ensures hit == old(CacheHit(cache, chunk)).Some?
    ensures cache.entries == Lru.GetEntries(old(cache.entries), chunk.chunkPos).0
    ensures chunk.blocks == old(GridAfterCache(cache, chunk))
  {
    var cached := cache.TryGetValue(chunk.chunkPos);
    hit := cached.Some?;
    if hit {
      chunk.blocks := cached.value.blocks;
    }
  }

  /**
   * The rest of the populate step (Scripts/ChunkManager.cs:148-170): an unpopulated chunk is
   * read from its chunk file when there is one, and generated otherwise; `fromDisk` and `built`
   * say which counter the step adds to.
   */
  method LoadBlocks(disk: map<FilePath, seq<int>>, chunk: Chunk) returns (ok: bool, fromDisk: bool, built: bool)
    requires FilesOk(disk)
    modifies chunk
    ensures chunk.IsPopulated() && chunk.chunkPos == old(chunk.chunkPos)
    ensures var path := FilePath(WorkingDir, chunk.chunkPos); var populated := old(chunk.blocks) != null;
      fromDisk == (ok && !populated && path in disk) && built == (!populated && path !in disk)
    ensures old(chunk.blocks) != null ==> ok && chunk.blocks == old(chunk.blocks) && chunk.blocks[..] == old(chunk.blocks[..])
    ensures var path := FilePath(WorkingDir, chunk.chunkPos);
      old(chunk.blocks) == null && path in disk ==>
        fresh(chunk.blocks) && chunk.blocks[..] == DecodeInto(EmptyGrid, disk[path]) && (ok <==> |disk[path]| >= ChunkVolume)
    ensures var path := FilePath(WorkingDir, chunk.chunkPos);
      old(chunk.blocks) == null && path !in disk ==>
        ok && fresh(chunk.blocks) && chunk.blocks[..] == CB.Retyped(EmptyGrid, chunk.chunkPos, p => CB.DetermineBlockTypeAsWritten(chunk.world.fields, p))
  {
    var path := FilePath(WorkingDir, chunk.chunkPos);
    ok, fromDisk, built := true, false, false;
    if !chunk.IsPopulated() && path in disk {
      ok := chunk.ReadBinary(disk[path]);
      if !ok {
        return;
      }
      fromDisk := true;
    }
    if !chunk.IsPopulated() {
      var _ := chunk.Populate();
      CB.Build(chunk);
      built := true;
    }
  }

  /**
   * `new ChunkMesh(world)` and its Build(chunk) (Scripts/ChunkManager.cs:180-181): a fresh mesh
   * of the chunk whose lists are the faces of the chunk as it stands at the call.
   */
  method BuildMesh(world: WorldData, chunk: Chunk) returns (mesh: M.ChunkMesh, ok: bool)
    ensures fresh(mesh) && mesh.chunk == chunk && mesh.world == world
    ensures !chunk.IsPopulated() ==> !ok && mesh.Data() == M.EmptyMesh
    ensures old(chunk.IsPopulated()) ==>
      mesh.view == old(M.ViewOf(chunk, chunk.world)) && M.BuiltFrom(M.EmptyMesh, mesh.view, mesh.Data(), ok)
  {
    mesh := new M.ChunkMesh(world);
    ok := mesh.Build(chunk);
  }

}
