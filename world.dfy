/**
 * The world around the player (Scripts/World.cs).
 *
 * The world keeps the live chunk map and the dirty set in its WorldData and drives the chunk
 * pipeline.  When the player moves into another chunk, every chunk position within
 * `buildDistance` recursive steps of the player's chunk is put into the map and queued for
 * population; every frame one finished mesh is attached and every chunk at `unloadDistance`
 * or more from the player is handed back for persisting and dropped from the map.
 */
module World {

  import opened Blocks
  import opened Util
  import opened Chunks
  import CB = ChunkBuilder
  import M = ChunkMesh
  import CM = ChunkManager
  import Noise

  /** World.buildDistance and World.unloadDistance (Scripts/World.cs:30-31). */
  const BuildDistance: nat := 4
  const UnloadDistance: int := 5

  /** The highest chunk row the recursive load steps up from (Scripts/World.cs:181). */
  const TopRow: int := CB.MaxHeight / ChunkSize

  /**
   * Whether LoadChunksRec(p, d) enqueues q (Scripts/World.cs:169-187): q is p itself or, with
   * one step less, reached from one of the four horizontal neighbours, from the one above unless
   * p is above TopRow, or from the one below while p is above row 0.
   */
  predicate Reached(p: Vec3, d: nat, q: Vec3)
    decreases d
  {
    q == p ||
    (d > 0 &&
      (Reached(Vec3(p.x + 1, p.y, p.z), d - 1, q) || Reached(Vec3(p.x - 1, p.y, p.z), d - 1, q)
      || Reached(Vec3(p.x, p.y, p.z + 1), d - 1, q) || Reached(Vec3(p.x, p.y, p.z - 1), d - 1, q)
      || (p.y <= TopRow && Reached(Vec3(p.x, p.y + 1, p.z), d - 1, q))
      || (p.y > 0 && Reached(Vec3(p.x, p.y - 1, p.z), d - 1, q))))
  }

  /** n is one of the at most six positions a call of LoadChunksRec at p recurses on. */
  predicate IsStep(p: Vec3, n: Vec3)
  {
    n == Vec3(p.x + 1, p.y, p.z) || n == Vec3(p.x - 1, p.y, p.z)
    || n == Vec3(p.x, p.y, p.z + 1) || n == Vec3(p.x, p.y, p.z - 1)
    || (p.y <= TopRow && n == Vec3(p.x, p.y + 1, p.z))
    || (p.y > 0 && n == Vec3(p.x, p.y - 1, p.z))
  }

  /** A reached position other than the start is reached from one of the steps. */
  lemma ReachStep(p: Vec3, d: nat, q: Vec3) returns (n: Vec3)
    requires Reached(p, d, q) && q != p
    ensures d > 0 && IsStep(p, n) && Reached(n, d - 1, q)
  {
    var e := d - 1;
    if Reached(Vec3(p.x + 1, p.y, p.z), e, q) {
      n := Vec3(p.x + 1, p.y, p.z);
    } else if Reached(Vec3(p.x - 1, p.y, p.z), e, q) {
      n := Vec3(p.x - 1, p.y, p.z);
    } else if Reached(Vec3(p.x, p.y, p.z + 1), e, q) {
      n := Vec3(p.x, p.y, p.z + 1);
    } else if Reached(Vec3(p.x, p.y, p.z - 1), e, q) {
      n := Vec3(p.x, p.y, p.z - 1);
    } else if p.y <= TopRow && Reached(Vec3(p.x, p.y + 1, p.z), e, q) {
      n := Vec3(p.x, p.y + 1, p.z);
    } else {
      n := Vec3(p.x, p.y - 1, p.z);
    }
  }

  /** The positions LoadChunksRec at p recurses on, in call order. */
  function StepList(p: Vec3): seq<Vec3>
  {
    [Vec3(p.x + 1, p.y, p.z), Vec3(p.x - 1, p.y, p.z), Vec3(p.x, p.y, p.z + 1), Vec3(p.x, p.y, p.z - 1)]
    + (if p.y <= TopRow then [Vec3(p.x, p.y + 1, p.z)] else [])
    + (if p.y > 0 then [Vec3(p.x, p.y - 1, p.z)] else [])
  }

  /** q is reached with d steps from one of the positions ns. */
  predicate ReachedAmong(ns: seq<Vec3>, d: nat, q: Vec3)
    decreases |ns|
  {
    |ns| > 0 && (Reached(ns[0], d, q) || ReachedAmong(ns[1..], d, q))
  }

  lemma {:induction false} ReachedAmongAppend(a: seq<Vec3>, b: seq<Vec3>, d: nat, q: Vec3)
    ensures ReachedAmong(a + b, d, q) <==> ReachedAmong(a, d, q) || ReachedAmong(b, d, q)
    decreases |a|
  {
    if a != [] {
      assert (a + b)[0] == a[0] && (a + b)[1..] == a[1..] + b;
      ReachedAmongAppend(a[1..], b, d, q);
    } else {
      assert a + b == b;
    }
  }

  lemma ReachedAmongOne(n: Vec3, d: nat, q: Vec3)
    ensures ReachedAmong([n], d, q) <==> Reached(n, d, q)
  {
    assert [n][1..] == [];
  }

  /** Reached unrolled once over the step list. */
  lemma ReachedUnfold(p: Vec3, d: nat, q: Vec3)
    requires d > 0
    ensures Reached(p, d, q) <==> q == p || ReachedAmong(StepList(p), d - 1, q)
  {
    var e := d - 1;
    var h := [Vec3(p.x + 1, p.y, p.z), Vec3(p.x - 1, p.y, p.z), Vec3(p.x, p.y, p.z + 1), Vec3(p.x, p.y, p.z - 1)];
    var up: seq<Vec3> := if p.y <= TopRow then [Vec3(p.x, p.y + 1, p.z)] else [];
    var down: seq<Vec3> := if p.y > 0 then [Vec3(p.x, p.y - 1, p.z)] else [];
    assert StepList(p) == h + (up + down);
    ReachedAmongAppend(h, up + down, e, q);
    ReachedAmongAppend(up, down, e, q);
    var E, W := Vec3(p.x + 1, p.y, p.z), Vec3(p.x - 1, p.y, p.z);
    var N, S := Vec3(p.x, p.y, p.z + 1), Vec3(p.x, p.y, p.z - 1);
    assert h == [E] + [W] + [N] + [S];
    ReachedAmongAppend([E] + [W] + [N], [S], e, q);
    ReachedAmongAppend([E] + [W], [N], e, q);
    ReachedAmongAppend([E], [W], e, q);
    ReachedAmongOne(E, e, q);
    ReachedAmongOne(W, e, q);
    ReachedAmongOne(N, e, q);
    ReachedAmongOne(S, e, q);
    if up != [] {
      ReachedAmongOne(up[0], e, q);
    }
    if down != [] {
      ReachedAmongOne(down[0], e, q);
    }
  }

  function Abs(n: int): nat
  {
    if n < 0 then -n else n
  }

  function Manhattan(a: Vec3, b: Vec3): nat
  {
    Abs(a.x - b.x) + Abs(a.y - b.y) + Abs(a.z - b.z)
  }

  function Min(a: int, b: int): int { if a < b then a else b }
  function Max(a: int, b: int): int { if a < b then b else a }

  /** Every reached position is at most d unit steps from the start. */
  lemma {:induction false} ReachWithin(p: Vec3, d: nat, q: Vec3)
    requires Reached(p, d, q)
    ensures Manhattan(p, q) <= d
    decreases d
  {
    if q != p {
      var n := ReachStep(p, d, q);
      ReachWithin(n, d - 1, q);
    }
  }

  /** Every position of p's own row within d horizontal unit steps is reached. */
  lemma {:induction false} ReachCoversRow(p: Vec3, d: nat, q: Vec3)
    requires q.y == p.y && Abs(q.x - p.x) + Abs(q.z - p.z) <= d
    ensures Reached(p, d, q)
    decreases d
  {
    if q != p {
      var e := d - 1;
      if q.x > p.x {
        ReachCoversRow(Vec3(p.x + 1, p.y, p.z), e, q);
      } else if q.x < p.x {
        ReachCoversRow(Vec3(p.x - 1, p.y, p.z), e, q);
      } else if q.z > p.z {
        ReachCoversRow(Vec3(p.x, p.y, p.z + 1), e, q);
      } else {
        ReachCoversRow(Vec3(p.x, p.y, p.z - 1), e, q);
      }
    }
  }

  /**
   * The load never steps below row 0 (unless it starts there) and never above the row over
   * TopRow (unless it starts there).
   */
  lemma {:induction false} ReachRows(p: Vec3, d: nat, q: Vec3)
    requires Reached(p, d, q)
    ensures Min(p.y, 0) <= q.y <= Max(p.y, TopRow + 1)
    decreases d
  {
    if q != p {
      var n := ReachStep(p, d, q);
      ReachRows(n, d - 1, q);
    }
  }

  /** The squared length of b - a, the integer under Vector3Int.Distance's square root. */
  function SqDistance(a: Vec3, b: Vec3): nat
  {
    (b.x - a.x) * (b.x - a.x) + (b.y - a.y) * (b.y - a.y) + (b.z - a.z) * (b.z - a.z)
  }

  /** `Vector3Int.Distance(reference, q) < unloadDistance`: q survives PruneChunks. */
  predicate Near(reference: Vec3, q: Vec3)
  {
    SqDistance(reference, q) < UnloadDistance * UnloadDistance
  }

  /** A chunk just loaded around the player is never pruned around the same position. */
  lemma LoadedIsNear(p: Vec3, d: nat, q: Vec3)
    requires Reached(p, d, q) && d <= BuildDistance
    ensures Near(p, q)
  {
    ReachWithin(p, d, q);
    CloseIsNear(p, q);
  }

  /** Positions at most BuildDistance unit steps apart are nearer than UnloadDistance. */
  lemma CloseIsNear(p: Vec3, q: Vec3)
    requires Manhattan(p, q) <= BuildDistance
    ensures Near(p, q)
  {
    var sa := SquareBound(q.x - p.x);
    var sb := SquareBound(q.y - p.y);
    var sc := SquareBound(q.z - p.z);
    assert SqDistance(p, q) == sa + sb + sc;
  }

  lemma SquareBound(n: int) returns (sq: int)
    requires Abs(n) <= BuildDistance
    ensures sq == n * n && sq <= BuildDistance * Abs(n)
  {
    sq := n * n;
    var a := Abs(n);
    assert sq == a * a;
    assert a * a <= BuildDistance * a by {
      assert a <= BuildDistance;
    }
  }

  /**
   * m1 is m0 plus a new chunk for each position the chunks `added` stand at: every new
   * position of m1 holds one of them, and each of them is mapped at its own position.
   */
  ghost predicate Grown(m0: map<Vec3, Chunk>, m1: map<Vec3, Chunk>, added: seq<Chunk>)
    reads added
  {
    (forall k :: k in m0 ==> k in m1 && m1[k] == m0[k])
    && (forall k :: k in m1 && k !in m0 ==> m1[k] in added)
    && (forall i :: 0 <= i < |added| ==>
          added[i].chunkPos in m1 && added[i].chunkPos !in m0 && m1[added[i].chunkPos] == added[i])
  }

  /** Mapping p, then everything its steps reach in d - 1, maps everything p reaches in d. */
  lemma ReachKeys(m0: map<Vec3, Chunk>, m1: map<Vec3, Chunk>, m2: map<Vec3, Chunk>, p: Vec3, d: nat)
    requires d > 0 && m1.Keys == m0.Keys + {p}
    requires forall q :: q in m2 <==> q in m1 || ReachedAmong(StepList(p), d - 1, q)
    ensures forall q :: q in m2 <==> q in m0 || Reached(p, d, q)
  {
    forall q
      ensures q in m2 <==> q in m0 || Reached(p, d, q)
    {
      ReachedUnfold(p, d, q);
      assert q in m1 <==> q in m0.Keys + {p};
    }
  }

  /** Growing m0 to m1 by a, then m1 to m2 by b, grows m0 to m2 by a + b. */
  lemma GrownConcat(m0: map<Vec3, Chunk>, m1: map<Vec3, Chunk>, m2: map<Vec3, Chunk>, a: seq<Chunk>, b: seq<Chunk>)
    requires Grown(m0, m1, a) && Grown(m1, m2, b)
    ensures Grown(m0, m2, a + b)
  {
    forall i | 0 <= i < |a + b|
      ensures (a + b)[i].chunkPos in m2 && (a + b)[i].chunkPos !in m0 && m2[(a + b)[i].chunkPos] == (a + b)[i]
    {
      if i < |a| {
        assert (a + b)[i] == a[i];
      } else {
        assert (a + b)[i] == b[i - |a|];
      }
    }
  }

  /** The manager's state besides the populate queue. */
  ghost function Others(cm: CM.ChunkManager): (seq<Chunk>, seq<Chunk>, seq<M.ChunkMesh>, map<CM.FilePath, seq<int>>, CM.Tally, bool)
    reads cm
  {
    (cm.persistQueue, cm.buildQueue, cm.chunkMeshQueue, cm.disk, cm.loaded, cm.isRunning)
  }

  /** A queued mesh whose chunk is still in the map (the condition of Scripts/World.cs:104). */
  predicate Live(mesh: M.ChunkMesh, chunks: map<Vec3, Chunk>)
    reads mesh, mesh.chunk
  {
    mesh.chunk != null && mesh.chunk.chunkPos in chunks
  }

  /** m without the positions of the chunks cs. */
  function Without(m: map<Vec3, Chunk>, cs: seq<Chunk>): map<Vec3, Chunk>
    reads cs
    decreases |cs|
  {
    if cs == [] then m else Without(m, cs[..|cs| - 1]) - {cs[|cs| - 1].chunkPos}
  }

  lemma {:induction false} WithoutKeys(m: map<Vec3, Chunk>, cs: seq<Chunk>, q: Vec3)
    ensures q in Without(m, cs) <==> q in m && forall j :: 0 <= j < |cs| ==> cs[j].chunkPos != q
    ensures q in Without(m, cs) ==> Without(m, cs)[q] == m[q]
    decreases |cs|
  {
    if cs != [] {
      var init := cs[..|cs| - 1];
      WithoutKeys(m, init, q);
      assert forall j :: 0 <= j < |init| ==> init[j] == cs[j];
    }
  }

  /**
   * cs lists chunks of m, each once and each at UnloadDistance or more from the reference
   * point.
   */
  ghost predicate FarList(m: map<Vec3, Chunk>, reference: Vec3, cs: seq<Chunk>)
    reads cs
  {
    forall j :: 0 <= j < |cs| ==>
      cs[j].chunkPos in m && m[cs[j].chunkPos] == cs[j] && !Near(reference, cs[j].chunkPos)
      && cs[j] !in cs[..j]
  }

  /**
   * The persist queue went from pq0 to pq by appending each far chunk of m exactly once and
   * nothing else.
   */
  ghost predicate Pruned(m: map<Vec3, Chunk>, reference: Vec3, pq0: seq<Chunk>, pq: seq<Chunk>)
    reads pq
  {
    |pq0| <= |pq| && pq[..|pq0|] == pq0 && FarList(m, reference, pq[|pq0|..])
    && (forall q :: q in m && !Near(reference, q) ==> m[q] in pq[|pq0|..])
  }

  /** Removing the listed far chunks of m, all of them, leaves exactly the near part of m. */
  lemma PrunedMap(m: map<Vec3, Chunk>, reference: Vec3, far: seq<Chunk>)
    requires forall p :: p in m ==> m[p].chunkPos == p
    requires FarList(m, reference, far)
    requires forall q :: q in m && !Near(reference, q) ==> m[q] in far
    ensures forall q :: q in Without(m, far) <==> q in m && Near(reference, q)
    ensures forall q :: q in Without(m, far) ==> Without(m, far)[q] == m[q]
  {
    forall q
      ensures q in Without(m, far) <==> q in m && Near(reference, q)
      ensures q in Without(m, far) ==> Without(m, far)[q] == m[q]
    {
      WithoutKeys(m, far, q);
      if q in m && !Near(reference, q) {
        var j :| 0 <= j < |far| && far[j] == m[q];
        assert far[j].chunkPos == q;
      }
    }
  }

  /** Queuing the listed far chunks of m after pq0, all of them, is a prune of m. */
  lemma PrunedQueue(m: map<Vec3, Chunk>, reference: Vec3, pq0: seq<Chunk>, far: seq<Chunk>)
    requires FarList(m, reference, far)
    requires forall q :: q in m && !Near(reference, q) ==> m[q] in far
    ensures Pruned(m, reference, pq0, pq0 + far)
  {
    assert (pq0 + far)[..|pq0|] == pq0;
    assert (pq0 + far)[|pq0|..] == far;
  }

  /**
   * World.GetChunkPos (Scripts/World.cs:189-192): the chunk whose 16-block cube holds the world
   * position, each coordinate divided by 16 and floored.  Coordinates are exact reals here.
   */
  function GetChunkPos(x: real, y: real, z: real): (c: Vec3)
    ensures (c.x * ChunkSize) as real <= x < ((c.x + 1) * ChunkSize) as real
    ensures (c.y * ChunkSize) as real <= y < ((c.y + 1) * ChunkSize) as real
    ensures (c.z * ChunkSize) as real <= z < ((c.z + 1) * ChunkSize) as real
  {
    Vec3(FloorDiv(x), FloorDiv(y), FloorDiv(z))
  }

  /** `Mathf.FloorToInt(v / chunkSize)`. */
  function FloorDiv(v: real): (k: int)
    ensures (k * ChunkSize) as real <= v < ((k + 1) * ChunkSize) as real
  {
    var k := (v / 16.0).Floor;
    assert k as real <= v / 16.0 < k as real + 1.0;
    k
  }

  /** The cube of the result is unique: it is the one chunk whose cube holds the position. */
  lemma FloorDivUnique(v: real, k: int)
    requires (k * ChunkSize) as real <= v < ((k + 1) * ChunkSize) as real
    ensures FloorDiv(v) == k
  {
    var f := FloorDiv(v);
    assert f * ChunkSize < (k + 1) * ChunkSize by {
      assert (f * ChunkSize) as real < ((k + 1) * ChunkSize) as real;
    }
    assert k * ChunkSize < (f + 1) * ChunkSize by {
      assert (k * ChunkSize) as real < ((f + 1) * ChunkSize) as real;
    }
  }

  /** Every block of a chunk, at any point of its unit cell, lies in that chunk. */
  lemma GetChunkPosOfBlock(c: Vec3, b: Vec3, fx: real, fy: real, fz: real)
    requires InChunk(b) && 0.0 <= fx < 1.0 && 0.0 <= fy < 1.0 && 0.0 <= fz < 1.0
    ensures var w := WorldPos(c).Plus(b);
      GetChunkPos(w.x as real + fx, w.y as real + fy, w.z as real + fz) == c
  {
    var w := WorldPos(c).Plus(b);
    FloorDivUnique(w.x as real + fx, c.x);
    FloorDivUnique(w.y as real + fy, c.y);
    FloorDivUnique(w.z as real + fz, c.z);
  }

  /** World (Scripts/World.cs:18-193), without its engine objects. */
  class World {
    const data: WorldData
    const chunkManager: CM.ChunkManager
    var previousChunkPos: Vec3
    var pruneList: seq<Chunk>

    /** The world data and the pipeline agree, and no prune is under way. */
    ghost predicate Valid()
      reads this, data, data.chunks.Values, chunkManager, chunkManager.chunkCache, chunkManager.chunkCache.usageList
    {
      Linked() && pruneList == []
    }

    /** The world data and the pipeline agree. */
    ghost predicate Linked()
      reads data, data.chunks.Values, chunkManager, chunkManager.chunkCache, chunkManager.chunkCache.usageList
    {
      data.Valid() && chunkManager.Valid() && chunkManager.world == data
    }

    /** The field initialisers and Start's construction of the manager (Scripts/World.cs:21-45). */
    constructor (fields: Noise.Fields, dataDir: string, disk: map<CM.FilePath, seq<int>>)
      requires forall p :: p in disk ==> CM.ValidCodes(disk[p])
      ensures Valid() && fresh(data) && fresh(chunkManager)
      ensures data.chunks == map[] && data.dirtyChunks == {} && previousChunkPos == Zero
      ensures chunkManager.Queues() == CM.Lengths(0, 0, 0, 0) && !chunkManager.isRunning
    {
      var d := new WorldData(fields);
      data := d;
      chunkManager := new CM.ChunkManager(d, dataDir, disk);
      previousChunkPos := Zero;
      pruneList := [];
    }

    /** The manager's state besides the populate queue and the world's dirty set are unchanged. */
    ghost predicate Untouched(others: (seq<Chunk>, seq<Chunk>, seq<M.ChunkMesh>, map<CM.FilePath, seq<int>>, CM.Tally, bool), dirty: set<Chunk>)
      reads data, chunkManager
    {
      Others(chunkManager) == others && data.dirtyChunks == dirty
    }

    /** World.EnqueueChunkPos (Scripts/World.cs:159-167): an absent position gets a new chunk, which is queued. */
    method EnqueueChunkPos(chunkPos: Vec3) returns (ghost added: seq<Chunk>)
      requires Valid()
      modifies data`chunks, chunkManager`populateQueue, chunkManager`buildQueue
      ensures Valid() && Untouched(old(Others(chunkManager)), old(data.dirtyChunks))
      ensures chunkPos in old(data.chunks) ==> added == []
      ensures chunkPos !in old(data.chunks) ==> |added| == 1 && added[0].chunkPos == chunkPos
      ensures Grown(old(data.chunks), data.chunks, added) && chunkPos in data.chunks
      ensures data.chunks.Keys == old(data.chunks).Keys + {chunkPos}
      ensures chunkManager.populateQueue == old(chunkManager.populateQueue) + added
      ensures forall i :: 0 <= i < |added| ==> fresh(added[i]) && !added[i].IsPopulated()
    {
      if chunkPos in data.chunks {
        return [];
      }
      var chunk := new Chunk(chunkPos, data);
      data.chunks := data.chunks[chunkPos := chunk];
      chunkManager.EnqueueChunk(chunk);
      added := [chunk];
    }

    /**
     * World.LoadChunksRec (Scripts/World.cs:169-187): afterwards every reached position is
     * mapped, and each position that was absent holds a new, unpopulated chunk, queued for
     * population.
     */
    method LoadChunksRec(chunkPos: Vec3, depth: nat) returns (ghost added: seq<Chunk>)
      requires Valid()
      modifies data`chunks, chunkManager`populateQueue, chunkManager`buildQueue
      ensures Valid() && Untouched(old(Others(chunkManager)), old(data.dirtyChunks))
      ensures Grown(old(data.chunks), data.chunks, added)
      ensures forall q :: q in data.chunks <==> q in old(data.chunks) || Reached(chunkPos, depth, q)
      ensures chunkManager.populateQueue == old(chunkManager.populateQueue) + added
      ensures forall i :: 0 <= i < |added| ==> fresh(added[i]) && !added[i].IsPopulated()
      decreases depth, 1, 0
    {
      ghost var m0 := data.chunks;
      added := EnqueueChunkPos(chunkPos);
      if depth > 0 {
        ghost var m1 := data.chunks;
        var more := LoadChunksFrom(StepList(chunkPos), depth - 1);
        GrownConcat(m0, m1, data.chunks, added, more);
        ReachKeys(m0, m1, data.chunks, chunkPos, depth);
        assert chunkManager.populateQueue == old(chunkManager.populateQueue) + (added + more);
        forall i | 0 <= i < |added + more|
          ensures fresh((added + more)[i]) && !(added + more)[i].IsPopulated()
        {
          if i < |added| {
            assert (added + more)[i] == added[i];
          } else {
            assert (added + more)[i] == more[i - |added|];
          }
        }
        added := added + more;
      }
    }

    /**
     * The recursive calls of one LoadChunksRec, on the steps ns in order (the four horizontal
     * neighbours, then the one above and the one below where the row allows them).
     */
    method LoadChunksFrom(ns: seq<Vec3>, depth: nat) returns (ghost added: seq<Chunk>)
      requires Valid()
      modifies data`chunks, chunkManager`populateQueue, chunkManager`buildQueue
      ensures Valid() && Untouched(old(Others(chunkManager)), old(data.dirtyChunks))
      ensures Grown(old(data.chunks), data.chunks, added)
      ensures forall q :: q in data.chunks <==> q in old(data.chunks) || ReachedAmong(ns, depth, q)
      ensures chunkManager.populateQueue == old(chunkManager.populateQueue) + added
      ensures forall i :: 0 <= i < |added| ==> fresh(added[i]) && !added[i].IsPopulated()
      decreases depth + 1, 0, |ns|
    {
      if ns == [] {
        return [];
      }
      ghost var m0 := data.chunks;
      var a := LoadChunksRec(ns[0], depth);
      ghost var m1 := data.chunks;
      var b := LoadChunksFrom(ns[1..], depth);
      GrownConcat(m0, m1, data.chunks, a, b);
      added := a + b;
    }

    /** World.LoadChunks (Scripts/World.cs:154-157). */
    method LoadChunks(chunkPos: Vec3) returns (ghost added: seq<Chunk>)
      requires Valid()
      modifies data`chunks, chunkManager`populateQueue, chunkManager`buildQueue
      ensures Valid() && Untouched(old(Others(chunkManager)), old(data.dirtyChunks))
      ensures Grown(old(data.chunks), data.chunks, added)
      ensures forall q :: q in data.chunks <==> q in old(data.chunks) || Reached(chunkPos, BuildDistance, q)
      ensures chunkManager.populateQueue == old(chunkManager.populateQueue) + added
      ensures forall i :: 0 <= i < |added| ==> fresh(added[i]) && !added[i].IsPopulated()
    {
      added := LoadChunksRec(chunkPos, BuildDistance);
    }

    /**
     * World.PruneChunks (Scripts/World.cs:125-147): every chunk at UnloadDistance or more from
     * the reference point is queued for persisting, once, and removed from the map; the map
     * keeps exactly the nearer chunks.  The map is walked in no particular order.
     */
    method PruneChunks(referencePoint: Vec3)
      requires Valid()
      modifies this`pruneList, data, chunkManager
      ensures Valid()
      ensures forall q :: q in data.chunks <==> q in old(data.chunks) && Near(referencePoint, q)
      ensures forall q :: q in data.chunks ==> data.chunks[q] == old(data.chunks)[q]
      ensures data.dirtyChunks == old(data.dirtyChunks)
      ensures Pruned(old(data.chunks), referencePoint, old(chunkManager.persistQueue), chunkManager.persistQueue)
      ensures chunkManager.populateQueue == old(chunkManager.populateQueue) && chunkManager.buildQueue == old(chunkManager.buildQueue)
      ensures chunkManager.chunkMeshQueue == old(chunkManager.chunkMeshQueue) && chunkManager.disk == old(chunkManager.disk)
    {
      ghost var m0, pq0 := data.chunks, chunkManager.persistQueue;
      CollectFar(referencePoint);
      ghost var far := pruneList;
      PersistPruned();
      PrunedMap(m0, referencePoint, far);
      PrunedQueue(m0, referencePoint, pq0, far);
      pruneList := [];
    }

    /** The first loop of PruneChunks (Scripts/World.cs:127-131): the far chunks into pruneList. */
    method CollectFar(referencePoint: Vec3)
      requires Linked() && pruneList == []
      modifies this`pruneList
      ensures FarList(data.chunks, referencePoint, pruneList)
      ensures forall q :: q in data.chunks && !Near(referencePoint, q) ==> data.chunks[q] in pruneList
    {
      var keys := data.chunks.Keys;
      while keys != {}
        invariant keys <= data.chunks.Keys
        invariant FarList(data.chunks, referencePoint, pruneList)
        invariant forall j :: 0 <= j < |pruneList| ==> pruneList[j].chunkPos !in keys
        invariant forall q :: q in data.chunks && q !in keys && !Near(referencePoint, q) ==> data.chunks[q] in pruneList
        decreases |keys|
      {
        var k :| k in keys;
        if !Near(referencePoint, data.chunks[k].chunkPos) {
          pruneList := pruneList + [data.chunks[k]];
        }
        keys := keys - {k};
      }
    }

    /** The second loop of PruneChunks (Scripts/World.cs:133-143): persist and unmap each listed chunk. */
    method PersistPruned()
      requires Linked()
      modifies data`chunks, chunkManager
      ensures Linked() && data.chunks == Without(old(data.chunks), pruneList)
      ensures chunkManager.persistQueue == old(chunkManager.persistQueue) + pruneList
      ensures chunkManager.populateQueue == old(chunkManager.populateQueue) && chunkManager.buildQueue == old(chunkManager.buildQueue)
      ensures chunkManager.chunkMeshQueue == old(chunkManager.chunkMeshQueue) && chunkManager.disk == old(chunkManager.disk)
    {
      for i := 0 to |pruneList|
        invariant Linked() && data.chunks == Without(old(data.chunks), pruneList[..i])
        invariant chunkManager.persistQueue == old(chunkManager.persistQueue) + pruneList[..i]
        invariant chunkManager.populateQueue == old(chunkManager.populateQueue) && chunkManager.buildQueue == old(chunkManager.buildQueue)
        invariant chunkManager.chunkMeshQueue == old(chunkManager.chunkMeshQueue) && chunkManager.disk == old(chunkManager.disk)
      {
        chunkManager.PersistChunkData(pruneList[i]);
        data.chunks := data.chunks - {pruneList[i].chunkPos};
        assert pruneList[..i + 1] == pruneList[..i] + [pruneList[i]];
      }
      assert pruneList[..|pruneList|] == pruneList;
    }

    /**
     * World.UpdateDirtyChunks (Scripts/World.cs:113-123): a fresh mesh is built for every
     * dirty chunk, each once, from the chunk as it stands; then the dirty set is cleared.  A
     * build that fails (an unpopulated chunk, a face without a texture) throws in the source,
     * so the set is left as it was.
     */
    method UpdateDirtyChunks() returns (meshes: seq<M.ChunkMesh>, ok: bool, ghost order: seq<Chunk>)
      modifies data`dirtyChunks
      ensures ok ==> data.dirtyChunks == {}
      ensures !ok ==> data.dirtyChunks == old(data.dirtyChunks)
      ensures |order| == |meshes|
      ensures forall i :: 0 <= i < |meshes| ==>
        fresh(meshes[i]) && meshes[i].chunk == order[i] && meshes[i].world == data && order[i] in old(data.dirtyChunks)
        && old(order[i].IsPopulated()) && meshes[i].view == old(M.ViewOf(order[i], order[i].world))
        && M.BuiltFrom(M.EmptyMesh, meshes[i].view, meshes[i].Data(), true)
      ensures forall i, j :: 0 <= i < j < |order| ==> order[i] != order[j]
      ensures ok ==> forall c :: c in old(data.dirtyChunks) <==> c in order
    {
      var rest := data.dirtyChunks;
      meshes, ok, order := [], true, [];
      while rest != {}
        invariant rest <= data.dirtyChunks && data.dirtyChunks == old(data.dirtyChunks)
        invariant |order| == |meshes|
        invariant forall i :: 0 <= i < |meshes| ==>
          fresh(meshes[i]) && meshes[i].chunk == order[i] && meshes[i].world == data && order[i] in old(data.dirtyChunks)
          && old(order[i].IsPopulated()) && meshes[i].view == old(M.ViewOf(order[i], order[i].world))
          && M.BuiltFrom(M.EmptyMesh, meshes[i].view, meshes[i].Data(), true)
        invariant forall i, j :: 0 <= i < j < |order| ==> order[i] != order[j]
        invariant forall c :: c in old(data.dirtyChunks) <==> c in rest || c in order
        invariant forall i :: 0 <= i < |order| ==> order[i] !in rest
        decreases |rest|
      {
        var chunk :| chunk in rest;
        var mesh, built := CM.BuildMesh(data, chunk);
        if !built {
          return meshes, false, order;
        }
        meshes, order := meshes + [mesh], order + [chunk];
        rest := rest - {chunk};
      }
      data.dirtyChunks := {};
    }

    /**
     * World.InsertNextChunkMesh (Scripts/World.cs:92-111): finished meshes are taken off the
     * manager's queue until one whose chunk is still mapped turns up (that one is attached and
     * true returned) or the queue runs dry (false).  The `skipped` meshes before it belonged to
     * chunks pruned since they were queued.
     */
    method InsertNextChunkMesh() returns (inserted: bool, attached: M.ChunkMesh?, ghost skipped: nat)
      requires Valid()
      modifies chunkManager
      ensures Valid()
      ensures var q := old(chunkManager.chunkMeshQueue);
        skipped <= |q| && (forall i :: 0 <= i < skipped ==> !Live(q[i], data.chunks))
      ensures var q := old(chunkManager.chunkMeshQueue);
        inserted ==>
          skipped < |q| && attached == q[skipped] && Live(attached, data.chunks)
          && chunkManager.chunkMeshQueue == q[skipped + 1..]
      ensures !inserted ==> skipped == |old(chunkManager.chunkMeshQueue)| && chunkManager.chunkMeshQueue == [] && attached == null
      ensures chunkManager.persistQueue == old(chunkManager.persistQueue) && chunkManager.populateQueue == old(chunkManager.populateQueue)
      ensures chunkManager.buildQueue == old(chunkManager.buildQueue) && chunkManager.disk == old(chunkManager.disk)
    {
      ghost var q := chunkManager.chunkMeshQueue;
      skipped := 0;
      while true
        invariant Valid() && skipped <= |q| && chunkManager.chunkMeshQueue == q[skipped..]
        invariant forall i :: 0 <= i < skipped ==> !Live(q[i], data.chunks)
        invariant chunkManager.persistQueue == old(chunkManager.persistQueue) && chunkManager.populateQueue == old(chunkManager.populateQueue)
        invariant chunkManager.buildQueue == old(chunkManager.buildQueue) && chunkManager.disk == old(chunkManager.disk)
        decreases |chunkManager.chunkMeshQueue|
      {
        var next := chunkManager.GetNextMesh();
        if next.None? {
          return false, null, skipped;
        }
        var mesh := next.value;
        if mesh.chunk != null && mesh.chunk.chunkPos in data.chunks {
          return true, mesh, skipped;
        }
        skipped := skipped + 1;
      }
    }

    /**
     * World.Update (Scripts/World.cs:73-85), from the player's chunk position: on entering a
     * new chunk everything within BuildDistance steps is loaded; one finished mesh is
     * attached; then every chunk at UnloadDistance or more is persisted and dropped.
     * `loaded` is the map between loading and pruning.
     */
    method Update(playerChunkPos: Vec3) returns (ghost loaded: map<Vec3, Chunk>)
      requires Valid()
      modifies this`previousChunkPos, this`pruneList, data, chunkManager
      ensures Valid() && previousChunkPos == playerChunkPos
      ensures var moved := playerChunkPos != old(previousChunkPos);
        forall q :: q in loaded <==> q in old(data.chunks) || (moved && Reached(playerChunkPos, BuildDistance, q))
      ensures forall q :: q in data.chunks <==> q in loaded && Near(playerChunkPos, q)
      ensures forall q :: q in data.chunks ==> data.chunks[q] == loaded[q]
      ensures playerChunkPos != old(previousChunkPos) ==>
        forall q :: Reached(playerChunkPos, BuildDistance, q) ==> q in data.chunks
      ensures Pruned(loaded, playerChunkPos, old(chunkManager.persistQueue), chunkManager.persistQueue)
      ensures data.dirtyChunks == old(data.dirtyChunks)
    {
      if playerChunkPos != previousChunkPos {
        previousChunkPos := playerChunkPos;
        ghost var added := LoadChunks(playerChunkPos);
      }
      loaded := data.chunks;
      var inserted, attached, skipped := InsertNextChunkMesh();
      PruneChunks(playerChunkPos);
      forall q | Reached(playerChunkPos, BuildDistance, q)
        ensures Near(playerChunkPos, q)
      {
        LoadedIsNear(playerChunkPos, BuildDistance, q);
      }
    }

    /**
     * World.SetupWorld (Scripts/World.cs:53-71), from the player's initial chunk position:
     * everything within BuildDistance steps is loaded, the manager takes one step unless its
     * worker runs, and every finished mesh is attached.  `ok` is false when that step threw.
     */
    method SetupWorld(initialChunkPos: Vec3) returns (ok: bool, running: bool)
      requires Valid()
      modifies data, chunkManager, chunkManager.chunkCache, chunkManager.chunkCache.usageList
      modifies if chunkManager.populateQueue != [] then {chunkManager.populateQueue[0]} else {}
      ensures Valid() && running == old(chunkManager.isRunning)
      ensures forall q :: q in data.chunks <==> q in old(data.chunks) || Reached(initialChunkPos, BuildDistance, q)
      ensures data.dirtyChunks == old(data.dirtyChunks)
      ensures ok ==> chunkManager.chunkMeshQueue == []
    {
      ghost var q0 := chunkManager.populateQueue;
      ghost var added := LoadChunks(initialChunkPos);
      ghost var m1 := data.chunks;
      assert chunkManager.populateQueue == q0 + added;
      if q0 != [] {
        assert chunkManager.populateQueue[0] == q0[0];
      } else if added != [] {
        assert chunkManager.populateQueue[0] == added[0] && fresh(added[0]);
      }
      running, ok := ProcessLoaded();
      assert data.chunks == m1;
      if !ok {
        return;
      }
      DrainMeshes();
      assert data.chunks == m1;
    }

    /** The `SerialProcessChunks` call of SetupWorld (Scripts/World.cs:63): the map is left as it is. */
    method ProcessLoaded() returns (running: bool, ok: bool)
      requires Valid()
      modifies chunkManager, chunkManager.chunkCache, chunkManager.chunkCache.usageList
      modifies if chunkManager.populateQueue != [] then {chunkManager.populateQueue[0]} else {}
      ensures Valid() && running == old(chunkManager.isRunning)
    {
      running, ok := chunkManager.SerialProcessChunks();
    }

    /** `while(InsertNextChunkMesh());` (Scripts/World.cs:64): the mesh queue is drained. */
    method DrainMeshes()
      requires Valid()
      modifies chunkManager
      ensures Valid() && chunkManager.chunkMeshQueue == []
    {
      var more := true;
      while more
        invariant Valid()
        invariant !more ==> chunkManager.chunkMeshQueue == []
        decreases |chunkManager.chunkMeshQueue|, more
      {
        var attached;
        ghost var skipped;
        more, attached, skipped := InsertNextChunkMesh();
      }
    }
  }
}
