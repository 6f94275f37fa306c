/**
 * The older world of World.cs and the queue of the older ChunkManager.cs it feeds.
 *
 * The older world has no dirty set and no persisting: PruneChunks only drops far chunks, a
 * chunk is a position (its grid and mesh are modelled by LegacyChunkBuilder and
 * LegacyChunkMesh), and the recursive load has no upper row limit.  The older manager only
 * queues chunks for its worker thread; the queue of finished meshes the world reads through
 * GetNextMesh is not defined by that manager, and is modelled here as a queue of the chunks
 * the meshes were built for.
 */
module LegacyWorld {

  import opened Blocks
  import opened Util
  import W = World

  /** A chunk of the older world (Chunk.cs:20-25), by its position. */
  class Chunk {
    var chunkPos: Vec3

    constructor (chunkPos: Vec3)
      ensures this.chunkPos == chunkPos
    {
      this.chunkPos := chunkPos;
    }
  }

  /**
   * Whether LoadChunksRec(p, d) of World.cs:152-169 enqueues q: as World.Reached, except that
   * the step up is always taken.
   */
  predicate Reached(p: Vec3, d: nat, q: Vec3)
    decreases d
  {
    q == p ||
    (d > 0 &&
      (Reached(Vec3(p.x + 1, p.y, p.z), d - 1, q) || Reached(Vec3(p.x - 1, p.y, p.z), d - 1, q)
      || Reached(Vec3(p.x, p.y, p.z + 1), d - 1, q) || Reached(Vec3(p.x, p.y, p.z - 1), d - 1, q)
      || Reached(Vec3(p.x, p.y + 1, p.z), d - 1, q)
      || (p.y > 0 && Reached(Vec3(p.x, p.y - 1, p.z), d - 1, q))))
  }

  /** The positions LoadChunksRec at p recurses on, in call order. */
  function StepList(p: Vec3): seq<Vec3>
  {
    [Vec3(p.x + 1, p.y, p.z), Vec3(p.x - 1, p.y, p.z), Vec3(p.x, p.y, p.z + 1), Vec3(p.x, p.y, p.z - 1),
     Vec3(p.x, p.y + 1, p.z)]
    + (if p.y > 0 then [Vec3(p.x, p.y - 1, p.z)] else [])
  }

  /** q is reached with d steps from one of the positions ns. */
  predicate ReachedAmong(ns: seq<Vec3>, d: nat, q: Vec3)
    decreases |ns|
  {
    |ns| > 0 && (Reached(ns[0], d, q) || ReachedAmong(ns[1..], d, q))
  }

  lemma {:induction false} ReachedAmongAppend(a: seq<Vec3>, b: seq<Vec3>, d: nat, q: Vec3)
    ensures ReachedAmong(a + b, d, q) <==> ReachedAmong(a, d, q) || ReachedAmong(b, d, q)
    decreases |a|
  {
    if a != [] {
      assert (a + b)[0] == a[0] && (a + b)[1..] == a[1..] + b;
      ReachedAmongAppend(a[1..], b, d, q);
    } else {
      assert a + b == b;
    }
  }

  lemma ReachedAmongOne(n: Vec3, d: nat, q: Vec3)
    ensures ReachedAmong([n], d, q) <==> Reached(n, d, q)
  {
    assert [n][1..] == [];
  }

  /** Reached unrolled once over the step list. */
  lemma ReachedUnfold(p: Vec3, d: nat, q: Vec3)
    requires d > 0
    ensures Reached(p, d, q) <==> q == p || ReachedAmong(StepList(p), d - 1, q)
  {
    var e := d - 1;
    var E, Wt := Vec3(p.x + 1, p.y, p.z), Vec3(p.x - 1, p.y, p.z);
    var N, S := Vec3(p.x, p.y, p.z + 1), Vec3(p.x, p.y, p.z - 1);
    var U := Vec3(p.x, p.y + 1, p.z);
    var down: seq<Vec3> := if p.y > 0 then [Vec3(p.x, p.y - 1, p.z)] else [];
    assert StepList(p) == [E] + [Wt] + [N] + [S] + [U] + down;
    ReachedAmongAppend([E] + [Wt] + [N] + [S] + [U], down, e, q);
    ReachedAmongAppend([E] + [Wt] + [N] + [S], [U], e, q);
    ReachedAmongAppend([E] + [Wt] + [N], [S], e, q);
    ReachedAmongAppend([E] + [Wt], [N], e, q);
    ReachedAmongAppend([E], [Wt], e, q);
    ReachedAmongOne(E, e, q);
    ReachedAmongOne(Wt, e, q);
    ReachedAmongOne(N, e, q);
    ReachedAmongOne(S, e, q);
    ReachedAmongOne(U, e, q);
    if down != [] {
      ReachedAmongOne(down[0], e, q);
    }
  }

  /** Every reached position is at most d unit steps from the start and not below row min(p.y, 0). */
  lemma {:induction false} ReachWithin(p: Vec3, d: nat, q: Vec3)
    requires Reached(p, d, q)
    ensures W.Manhattan(p, q) <= d && W.Min(p.y, 0) <= q.y
    decreases d
  {
    if q != p {
      var e := d - 1;
      var n;
      if Reached(Vec3(p.x + 1, p.y, p.z), e, q) {
        n := Vec3(p.x + 1, p.y, p.z);
      } else if Reached(Vec3(p.x - 1, p.y, p.z), e, q) {
        n := Vec3(p.x - 1, p.y, p.z);
      } else if Reached(Vec3(p.x, p.y, p.z + 1), e, q) {
        n := Vec3(p.x, p.y, p.z + 1);
      } else if Reached(Vec3(p.x, p.y, p.z - 1), e, q) {
        n := Vec3(p.x, p.y, p.z - 1);
      } else if Reached(Vec3(p.x, p.y + 1, p.z), e, q) {
        n := Vec3(p.x, p.y + 1, p.z);
      } else {
        n := Vec3(p.x, p.y - 1, p.z);
      }
      ReachWithin(n, e, q);
    }
  }

  /** With no upper limit, the load climbs d rows above any start row. */
  lemma {:induction false} ReachesStraightUp(p: Vec3, d: nat, k: nat)
    requires k <= d
    ensures Reached(p, d, Vec3(p.x, p.y + k, p.z))
    decreases k
  {
    if k > 0 {
      var u := Vec3(p.x, p.y + 1, p.z);
      ReachesStraightUp(u, d - 1, k - 1);
      assert Vec3(u.x, u.y + (k - 1), u.z) == Vec3(p.x, p.y + k, p.z);
    }
  }

  /** A chunk just loaded around the player is never pruned around the same position. */
  lemma LoadedIsNear(p: Vec3, d: nat, q: Vec3)
    requires Reached(p, d, q) && d <= W.BuildDistance
    ensures W.Near(p, q)
  {
    ReachWithin(p, d, q);
    W.CloseIsNear(p, q);
  }

  /**
   * The older ChunkManager (ChunkManager.cs:9-28) reduced to its queue, plus the queue of
   * finished meshes GetNextMesh reads, each mesh standing for the chunk it was built for.
   */
  class ChunkManager {
    var chunkQueue: seq<Chunk>
    var meshQueue: seq<Chunk>

    constructor ()
      ensures chunkQueue == [] && meshQueue == []
    {
      chunkQueue := [];
      meshQueue := [];
    }

    /** ChunkManager.EnqueueChunk (ChunkManager.cs:25-28): into the worker's queue, whatever the chunk. */
    method EnqueueChunk(chunk: Chunk)
      modifies this`chunkQueue
      ensures chunkQueue == old(chunkQueue) + [chunk]
    {
      chunkQueue := chunkQueue + [chunk];
    }

    /** The next finished mesh, first in first out, or None when there is none. */
    method GetNextMesh() returns (r: Option<Chunk>)
      modifies this`meshQueue
      ensures old(meshQueue) == [] ==> r == None && meshQueue == []
      ensures old(meshQueue) != [] ==> r == Some(old(meshQueue)[0]) && meshQueue == old(meshQueue)[1..]
    {
      if meshQueue == [] {
        return None;
      }
      r := Some(meshQueue[0]);
      meshQueue := meshQueue[1..];
    }
  }

  /** m1 is m0 plus the chunks `added`, each new and at its own new position. */
  ghost predicate Grown(m0: map<Vec3, Chunk>, m1: map<Vec3, Chunk>, added: seq<Chunk>)
    reads added
  {
    (forall k :: k in m0 ==> k in m1 && m1[k] == m0[k])
    && (forall k :: k in m1 && k !in m0 ==> m1[k] in added)
    && (forall i :: 0 <= i < |added| ==>
          added[i].chunkPos in m1 && added[i].chunkPos !in m0 && m1[added[i].chunkPos] == added[i])
  }

  /** m without the positions of the chunks cs. */
  function Without(m: map<Vec3, Chunk>, cs: seq<Chunk>): map<Vec3, Chunk>
    reads cs
    decreases |cs|
  {
    if cs == [] then m else Without(m, cs[..|cs| - 1]) - {cs[|cs| - 1].chunkPos}
  }

  lemma {:induction false} WithoutKeys(m: map<Vec3, Chunk>, cs: seq<Chunk>, q: Vec3)
    ensures q in Without(m, cs) <==> q in m && forall j :: 0 <= j < |cs| ==> cs[j].chunkPos != q
    ensures q in Without(m, cs) ==> Without(m, cs)[q] == m[q]
    decreases |cs|
  {
    if cs != [] {
      var init := cs[..|cs| - 1];
      WithoutKeys(m, init, q);
      assert forall j :: 0 <= j < |init| ==> init[j] == cs[j];
    }
  }

  /** World (World.cs:15-175), without its engine objects. */
  class World {
    var chunks: map<Vec3, Chunk>
    const chunkManager: ChunkManager
    var previousChunkPos: Vec3
    var pruneList: seq<Chunk>

    /** Every mapped chunk sits at its own position, and no prune is under way. */
    ghost predicate Valid()
      reads this, chunks.Values
    {
      Mapped() && pruneList == []
    }

    ghost predicate Mapped()
      reads this, chunks.Values
    {
      forall p :: p in chunks ==> chunks[p].chunkPos == p
    }

    /** The field initialisers and Start's construction of the manager (World.cs:18-39). */
    constructor ()
      ensures Valid() && chunks == map[] && previousChunkPos == Zero && fresh(chunkManager)
      ensures chunkManager.chunkQueue == [] && chunkManager.meshQueue == []
    {
      chunks := map[];
      chunkManager := new ChunkManager();
      previousChunkPos := Zero;
      pruneList := [];
    }

    /** World.EnqueueChunkPos (World.cs:142-150): an absent position gets a new chunk, which is queued. */
    method EnqueueChunkPos(chunkPos: Vec3) returns (ghost added: seq<Chunk>)
      requires Valid()
      modifies this`chunks, chunkManager`chunkQueue
      ensures Valid()
      ensures chunkPos in old(chunks) ==> added == []
      ensures chunkPos !in old(chunks) ==> |added| == 1 && added[0].chunkPos == chunkPos
      ensures Grown(old(chunks), chunks, added) && chunkPos in chunks
      ensures chunkManager.chunkQueue == old(chunkManager.chunkQueue) + added
      ensures forall i :: 0 <= i < |added| ==> fresh(added[i])
    {
      if chunkPos in chunks {
        return [];
      }
      var chunk := new Chunk(chunkPos);
      chunks := chunks[chunkPos := chunk];
      chunkManager.EnqueueChunk(chunk);
      added := [chunk];
    }

    /** World.LoadChunksRec (World.cs:152-169): afterwards every reached position is mapped. */
    method LoadChunksRec(chunkPos: Vec3, depth: nat) returns (ghost added: seq<Chunk>)
      requires Valid()
      modifies this`chunks, chunkManager`chunkQueue
      ensures Valid() && Grown(old(chunks), chunks, added)
      ensures forall q :: q in chunks <==> q in old(chunks) || Reached(chunkPos, depth, q)
      ensures chunkManager.chunkQueue == old(chunkManager.chunkQueue) + added
      ensures forall i :: 0 <= i < |added| ==> fresh(added[i])
      decreases depth, 1, 0
    {
      added := EnqueueChunkPos(chunkPos);
      if depth > 0 {
        var more := LoadChunksFrom(StepList(chunkPos), depth - 1);
        added := added + more;
        forall q {
          ReachedUnfold(chunkPos, depth, q);
        }
      }
    }

    /** The recursive calls of one LoadChunksRec, on the steps ns in order. */
    method LoadChunksFrom(ns: seq<Vec3>, depth: nat) returns (ghost added: seq<Chunk>)
      requires Valid()
      modifies this`chunks, chunkManager`chunkQueue
      ensures Valid() && Grown(old(chunks), chunks, added)
      ensures forall q :: q in chunks <==> q in old(chunks) || ReachedAmong(ns, depth, q)
      ensures chunkManager.chunkQueue == old(chunkManager.chunkQueue) + added
      ensures forall i :: 0 <= i < |added| ==> fresh(added[i])
      decreases depth + 1, 0, |ns|
    {
      if ns == [] {
        return [];
      }
      var a := LoadChunksRec(ns[0], depth);
      var b := LoadChunksFrom(ns[1..], depth);
      added := a + b;
    }

    /** World.LoadChunks (World.cs:137-140). */
    method LoadChunks(chunkPos: Vec3) returns (ghost added: seq<Chunk>)
      requires Valid()
      modifies this`chunks, chunkManager`chunkQueue
      ensures Valid() && Grown(old(chunks), chunks, added)
      ensures forall q :: q in chunks <==> q in old(chunks) || Reached(chunkPos, W.BuildDistance, q)
      ensures chunkManager.chunkQueue == old(chunkManager.chunkQueue) + added
      ensures forall i :: 0 <= i < |added| ==> fresh(added[i])
    {
      added := LoadChunksRec(chunkPos, W.BuildDistance);
    }

    /**
     * World.PruneChunks (World.cs:114-130): the chunks at UnloadDistance or more from the
     * reference point are dropped from the map, and nothing is persisted.
     */
    method PruneChunks(referencePoint: Vec3)
      requires Valid()
      modifies this`chunks, this`pruneList
      ensures Valid()
      ensures forall q :: q in chunks <==> q in old(chunks) && W.Near(referencePoint, q)
      ensures forall q :: q in chunks ==> chunks[q] == old(chunks)[q]
    {
      ghost var m0 := chunks;
      CollectFar(referencePoint);
      ghost var far := pruneList;
      DropListed();
      forall q {
        WithoutKeys(m0, far, q);
      }
      pruneList := [];
    }

    /** The first loop of PruneChunks (World.cs:116-120): the far chunks into pruneList. */
    method CollectFar(referencePoint: Vec3)
      requires Valid()
      modifies this`pruneList
      ensures forall j :: 0 <= j < |pruneList| ==>
        pruneList[j].chunkPos in chunks && !W.Near(referencePoint, pruneList[j].chunkPos)
      ensures forall q :: q in chunks && !W.Near(referencePoint, q) ==> chunks[q] in pruneList
    {
      var keys := chunks.Keys;
      while keys != {}
        invariant keys <= chunks.Keys
        invariant forall j :: 0 <= j < |pruneList| ==>
          pruneList[j].chunkPos in chunks && !W.Near(referencePoint, pruneList[j].chunkPos) && pruneList[j].chunkPos !in keys
        invariant forall q :: q in chunks && q !in keys && !W.Near(referencePoint, q) ==> chunks[q] in pruneList
        decreases |keys|
      {
        var k :| k in keys;
        if !W.Near(referencePoint, chunks[k].chunkPos) {
          pruneList := pruneList + [chunks[k]];
        }
        keys := keys - {k};
      }
    }

    /** The second loop of PruneChunks (World.cs:122-126): unmap each listed chunk. */
    method DropListed()
      requires Mapped()
      modifies this`chunks
      ensures Mapped() && chunks == Without(old(chunks), pruneList)
    {
      for i := 0 to |pruneList|
        invariant Mapped() && chunks == Without(old(chunks), pruneList[..i])
      {
        chunks := chunks - {pruneList[i].chunkPos};
        assert pruneList[..i + 1] == pruneList[..i] + [pruneList[i]];
      }
      assert pruneList[..|pruneList|] == pruneList;
    }

    /**
     * World.InsertNextChunkMesh (World.cs:80-112): finished meshes are taken off the queue
     * until one whose chunk is still mapped turns up (it is the one given a game object) or the
     * queue runs dry.
     */
    method InsertNextChunkMesh() returns (ghost attached: Option<Chunk>, ghost skipped: nat)
      modifies chunkManager`meshQueue
      ensures var q := old(chunkManager.meshQueue);
        skipped <= |q| && forall i :: 0 <= i < skipped ==> q[i].chunkPos !in chunks
      ensures var q := old(chunkManager.meshQueue);
        attached.Some? ==>
          skipped < |q| && attached.value == q[skipped] && attached.value.chunkPos in chunks
          && chunkManager.meshQueue == q[skipped + 1..]
      ensures attached.None? ==> skipped == |old(chunkManager.meshQueue)| && chunkManager.meshQueue == []
    {
      ghost var q := chunkManager.meshQueue;
      skipped := 0;
      while true
        invariant skipped <= |q| && chunkManager.meshQueue == q[skipped..]
        invariant forall i :: 0 <= i < skipped ==> q[i].chunkPos !in chunks
        decreases |chunkManager.meshQueue|
      {
        var next := chunkManager.GetNextMesh();
        if next.None? {
          return None, skipped;
        }
        if next.value.chunkPos in chunks {
          return next, skipped;
        }
        skipped := skipped + 1;
      }
    }

    /**
     * World.SetupWorld (World.cs:46-64), from the player's initial chunk position: only that
     * chunk is put into the map and queued, then one finished mesh, if any, is attached.
     */
    method SetupWorld(initialChunkPos: Vec3)
      requires Valid()
      modifies this`chunks, chunkManager
      ensures Valid()
      ensures forall q :: q in chunks <==> q in old(chunks) || q == initialChunkPos
      ensures initialChunkPos !in old(chunks) ==>
        |chunkManager.chunkQueue| == |old(chunkManager.chunkQueue)| + 1
        && chunkManager.chunkQueue[..|old(chunkManager.chunkQueue)|] == old(chunkManager.chunkQueue)
        && chunkManager.chunkQueue[|old(chunkManager.chunkQueue)|] == chunks[initialChunkPos]
      ensures initialChunkPos in old(chunks) ==> chunkManager.chunkQueue == old(chunkManager.chunkQueue)
    {
      ghost var added := EnqueueChunkPos(initialChunkPos);
      ghost var attached, skipped := InsertNextChunkMesh();
    }

    /**
     * World.Update (World.cs:66-78), from the player's chunk position: on entering a new chunk
     * everything within BuildDistance steps is loaded; one finished mesh is attached; then the
     * far chunks are dropped.
     */
    method Update(playerChunkPos: Vec3)
      requires Valid()
      modifies this`previousChunkPos, this`chunks, this`pruneList, chunkManager
      ensures Valid() && previousChunkPos == playerChunkPos
      ensures var moved := playerChunkPos != old(previousChunkPos);
        forall q :: q in chunks <==> (q in old(chunks) || (moved && Reached(playerChunkPos, W.BuildDistance, q))) && W.Near(playerChunkPos, q)
      ensures playerChunkPos != old(previousChunkPos) ==>
        forall q :: Reached(playerChunkPos, W.BuildDistance, q) ==> q in chunks
    {
      if playerChunkPos != previousChunkPos {
        previousChunkPos := playerChunkPos;
        ghost var added := LoadChunks(playerChunkPos);
      }
      ghost var attached, skipped := InsertNextChunkMesh();
      PruneChunks(playerChunkPos);
      forall q | Reached(playerChunkPos, W.BuildDistance, q)
        ensures W.Near(playerChunkPos, q)
      {
        LoadedIsNear(playerChunkPos, W.BuildDistance, q);
      }
    }
  }
}
