/**
 * Chunks and the shared world context (Chunk.cs, Scripts/Chunk.cs, Scripts/Util.cs,
 * WorldData in Scripts/World.cs).
 *
 * One Chunk class serves both snapshots.  Its grid is null until the chunk is populated, as in
 * Chunk.cs; Scripts/Chunk.cs allocates it at construction, which the `Allocated` constructor
 * models.  The grid is a 4096-element buffer in the row-major layout of Util.Idx.
 */
module Chunks {

  import opened Blocks
  import opened Util
  import Noise

  /** WorldData: the live chunk map, the dirty set and the generator the world uses. */
  class WorldData {
    var chunks: map<Vec3, Chunk>
    var dirtyChunks: set<Chunk>
    /** The noise fields `chunkBuilder` consults. */
    const fields: Noise.Fields

    constructor (fields: Noise.Fields)
      ensures chunks == map[] && dirtyChunks == {} && this.fields == fields
    {
      chunks := map[];
      dirtyChunks := {};
      this.fields := fields;
    }

    /** Every mapped chunk sits at its own position and belongs to this world. */
    ghost predicate Valid()
      reads this, chunks.Values
    {
      forall p :: p in chunks ==> chunks[p].chunkPos == p && chunks[p].world == this
    }
  }

  /** A chunk's grid: absent until the chunk is populated, else one cell per block position. */
  type Grid = a: array?<Block> | a == null || a.Length == ChunkVolume

  class Chunk {
    var chunkPos: Vec3
    var blocks: Grid
    const world: WorldData

    /** A chunk that is not yet populated (Chunk.cs:9, 22-25). */
    constructor (chunkPos: Vec3, world: WorldData)
      ensures this.chunkPos == chunkPos && this.world == world && blocks == null
    {
      this.chunkPos := chunkPos;
      this.world := world;
      blocks := null;
    }

    /** A chunk whose grid is allocated, all Air, at construction (Scripts/Chunk.cs:10, 29-33). */
    constructor Allocated(chunkPos: Vec3, world: WorldData)
      ensures this.chunkPos == chunkPos && this.world == world
      ensures blocks != null && fresh(blocks) && blocks[..] == seq(ChunkVolume, _ => EmptyBlock)
    {
      this.chunkPos := chunkPos;
      this.world := world;
      blocks := new Block[ChunkVolume](_ => EmptyBlock);
    }

    /** Chunk.IsPopulated (Chunk.cs:16). */
    predicate IsPopulated()
      reads this
    {
      blocks != null
    }

    /** Chunk.Populate (Chunk.cs:27-34): allocates an all-Air grid once; later calls keep it. */
    method Populate() returns (created: bool)
      modifies this
      ensures IsPopulated()
      ensures created == !old(IsPopulated())
      ensures !created ==> blocks == old(blocks)
      ensures created ==> fresh(blocks) && blocks[..] == seq(ChunkVolume, _ => EmptyBlock)
      ensures chunkPos == old(chunkPos)
    {
      if blocks != null {
        return false;
      }
      blocks := new Block[ChunkVolume](_ => EmptyBlock);
      return true;
    }

    /**
     * Chunk.WriteBinary (Chunk.cs:36-52): streams one int32 type code per block, x outer,
     * z inner; an unpopulated chunk writes nothing and reports false.
     */
    method WriteBinary() returns (ok: bool, written: seq<int>)
      ensures ok <==> IsPopulated()
      ensures !ok ==> written == []
      ensures ok ==> written == EncodeTypes(blocks[..])
    {
      if blocks == null {
        return false, [];
      }
      written := [];
      for x := 0 to ChunkSize
        invariant |written| == x * 256
        invariant forall i :: 0 <= i < |written| ==> written[i] == TypeCode(blocks[i].blockType)
      {
        for y := 0 to ChunkSize
          invariant |written| == x * 256 + y * 16
          invariant forall i :: 0 <= i < |written| ==> written[i] == TypeCode(blocks[i].blockType)
        {
          for z := 0 to ChunkSize
            invariant |written| == Idx(x, y, 0) + z
            invariant forall i :: 0 <= i < |written| ==> written[i] == TypeCode(blocks[i].blockType)
          {
            written := written + [TypeCode(blocks[Idx(x, y, z)].blockType)];
          }
        }
      }
      assert written == EncodeTypes(blocks[..]);
      ok := true;
    }

    /**
     * Chunk.ReadBinary (Chunk.cs:54-68): populates the chunk if needed, then sets the type of
     * every block from the stream in WriteBinary's order.  Overlays are left as they were.  A
     * stream shorter than a chunk throws EndOfStreamException after the cells it had: the
     * model then reports false with exactly those cells read.
     */
    method ReadBinary(data: seq<int>) returns (ok: bool)
      requires forall i :: 0 <= i < |data| && i < ChunkVolume ==> 0 <= data[i] < 8
      modifies this, blocks
      ensures IsPopulated() && chunkPos == old(chunkPos)
      ensures old(blocks) != null ==> blocks == old(blocks)
      ensures old(blocks) == null ==> fresh(blocks)
      ensures ok <==> |data| >= ChunkVolume
      ensures blocks[..] == DecodeInto(if old(blocks) == null then EmptyGrid else old(blocks[..]), data)
    {
      var _ := Populate();
      ReadTypes(blocks, data);
      ok := |data| >= ChunkVolume;
    }

    /** Chunk.IsDirty (Scripts/Chunk.cs:22-25): membership in the world's dirty set. */
    predicate IsDirty()
      reads this, world
    {
      this in world.dirtyChunks
    }

    /** Chunk.SetDirty (Scripts/Chunk.cs:76-82): adds this chunk to, or removes it from, the dirty set. */
    method SetDirty(dirty: bool)
      modifies world
      ensures world.dirtyChunks == if dirty then old(world.dirtyChunks) + {this} else old(world.dirtyChunks) - {this}
      ensures world.chunks == old(world.chunks)
      ensures IsDirty() == dirty
    {
      if dirty {
        world.dirtyChunks := world.dirtyChunks + {this};
      } else {
        world.dirtyChunks := world.dirtyChunks - {this};
      }
    }

    /**
     * Chunk.MarkNeighborsDirty (Scripts/Chunk.cs:56-74): dirties the mapped neighbour behind
     * every chunk face the block touches.
     */
    method MarkNeighborsDirty(blockPos: Vec3)
      modifies world
      ensures world.chunks == old(world.chunks)
      ensures world.dirtyChunks == old(world.dirtyChunks) + NeighborsToMark(world.chunks, chunkPos, blockPos)
    {
      MarkFace(chunkPos.Plus(DirLeft), blockPos.x == 0);
      MarkFace(chunkPos.Plus(DirRight), blockPos.x == ChunkSize - 1);
      MarkFace(chunkPos.Plus(DirDown), blockPos.y == 0);
      MarkFace(chunkPos.Plus(DirUp), blockPos.y == ChunkSize - 1);
      MarkFace(chunkPos.Plus(DirBack), blockPos.z == 0);
      MarkFace(chunkPos.Plus(DirForward), blockPos.z == ChunkSize - 1);
      Regroup(old(world.dirtyChunks), MarkedFace(world.chunks, chunkPos.Plus(DirLeft), blockPos.x == 0),
        MarkedFace(world.chunks, chunkPos.Plus(DirRight), blockPos.x == ChunkSize - 1),
        MarkedFace(world.chunks, chunkPos.Plus(DirDown), blockPos.y == 0),
        MarkedFace(world.chunks, chunkPos.Plus(DirUp), blockPos.y == ChunkSize - 1),
        MarkedFace(world.chunks, chunkPos.Plus(DirBack), blockPos.z == 0),
        MarkedFace(world.chunks, chunkPos.Plus(DirForward), blockPos.z == ChunkSize - 1));
      MarkedFacesAreNeighborsToMark(world.chunks, chunkPos, blockPos);
    }

    /** One face test of MarkNeighborsDirty: the neighbour at `key` is dirtied when the block touches its face. */
    method MarkFace(key: Vec3, touches: bool)
      modifies world
      ensures world.chunks == old(world.chunks)
      ensures world.dirtyChunks == old(world.dirtyChunks) + MarkedFace(world.chunks, key, touches)
    {
      if touches && key in world.chunks {
        world.dirtyChunks := world.dirtyChunks + {world.chunks[key]};
      }
    }

    /**
     * Chunk.UpdateBlockType (Scripts/Chunk.cs:40-48): sets the block's type, resets its
     * overlay, and dirties this chunk and the neighbours behind the faces the block touches.
     */
    method UpdateBlockType(blockPos: Vec3, t: BlockType)
      requires IsPopulated() && InChunk(blockPos)
      modifies blocks, world
      ensures blocks[..] == old(blocks[..])[IdxOf(blockPos) := Block(t, OverlayNone)]
      ensures world.chunks == old(world.chunks)
      ensures world.dirtyChunks == old(world.dirtyChunks) + {this} + NeighborsToMark(world.chunks, chunkPos, blockPos)
    {
      blocks[IdxOf(blockPos)] := Block(t, OverlayNone);
      SetDirty(true);
      MarkNeighborsDirty(blockPos);
    }

    /**
     * Chunk.UpdateBlockOverlay (Scripts/Chunk.cs:50-54): sets only the block's overlay and
     * dirties only this chunk.
     */
    method UpdateBlockOverlay(blockPos: Vec3, overlay: Overlay)
      requires IsPopulated() && InChunk(blockPos)
      modifies blocks, world
      ensures blocks[..] == old(blocks[..])[IdxOf(blockPos) := Block(old(blocks[IdxOf(blockPos)]).blockType, overlay)]
      ensures world.chunks == old(world.chunks)
      ensures world.dirtyChunks == old(world.dirtyChunks) + {this}
    {
      var i := IdxOf(blockPos);
      blocks[i] := Block(blocks[i].blockType, overlay);
      SetDirty(true);
    }
  }

  /** The mapped chunks an edit of block `blockPos` in the chunk at `chunkPos` dirties. */
  function NeighborsToMark(chunks: map<Vec3, Chunk>, chunkPos: Vec3, blockPos: Vec3): set<Chunk>
  {
    set d | d in FaceNeighborOffsets(blockPos) && chunkPos.Plus(d) in chunks :: chunks[chunkPos.Plus(d)]
  }

  /** A freshly allocated grid: every block Air with no overlay. */
  const EmptyGrid: seq<Block> := seq(ChunkVolume, _ => EmptyBlock)

  /** The stream WriteBinary produces from a grid: one type code per block, in grid order. */
  function EncodeTypes(g: seq<Block>): (r: seq<int>)
    ensures |r| == |g|
    ensures forall i :: 0 <= i < |r| ==> 0 <= r[i] < 8
  {
    seq(|g|, i requires 0 <= i < |g| => TypeCode(g[i].blockType))
  }

  /**
   * The grid ReadBinary leaves behind: the first cells of the stream replace the types of the
   * grid it started from, overlays stay, and cells past the end of a short stream are untouched.
   */
  function DecodeInto(prior: seq<Block>, data: seq<int>): (r: seq<Block>)
    requires forall i :: 0 <= i < |data| && i < |prior| ==> 0 <= data[i] < 8
    ensures |r| == |prior|
    ensures forall i :: 0 <= i < |r| ==> r[i].overlay == prior[i].overlay
  {
    seq(|prior|, i requires 0 <= i < |prior| =>
      if i < |data| then Block(TypeOfCode(data[i]).value, prior[i].overlay) else prior[i])
  }

  /**
   * The loops of ReadBinary (Chunk.cs:58-67) on the chunk's grid: in WriteBinary's x, y, z order,
   * each block takes the type of the next stream cell, until the stream ends.
   */
  method ReadTypes(grid: array<Block>, data: seq<int>)
    requires grid.Length == ChunkVolume
    requires forall i :: 0 <= i < |data| && i < ChunkVolume ==> 0 <= data[i] < 8
    modifies grid
    ensures grid[..] == DecodeInto(old(grid[..]), data)
  {
    ghost var prior := grid[..];
    var n := if |data| < ChunkVolume then |data| else ChunkVolume;
    var i := 0;
    for x := 0 to ChunkSize
      invariant i <= n
      invariant i == x * 256 || (n < x * 256 && i == n)
      invariant forall j :: 0 <= j < ChunkVolume ==>
        grid[j] == if j < i then Block(TypeOfCode(data[j]).value, prior[j].overlay) else prior[j]
    {
      for y := 0 to ChunkSize
        invariant i <= n
        invariant i == x * 256 + y * 16 || (n < x * 256 + y * 16 && i == n)
        invariant forall j :: 0 <= j < ChunkVolume ==>
          grid[j] == if j < i then Block(TypeOfCode(data[j]).value, prior[j].overlay) else prior[j]
      {
        for z := 0 to ChunkSize
          invariant i <= n
          invariant i == Idx(x, y, 0) + z || (n < Idx(x, y, 0) + z && i == n)
          invariant forall j :: 0 <= j < ChunkVolume ==>
            grid[j] == if j < i then Block(TypeOfCode(data[j]).value, prior[j].overlay) else prior[j]
        {
          if i < n {
            var k := Idx(x, y, z);
            assert k == i;
            grid[k] := Block(TypeOfCode(data[k]).value, grid[k].overlay);
            i := i + 1;
          }
        }
      }
    }
    assert i == n;
    assert grid[..] == DecodeInto(prior, data);
  }

  /** Reading a chunk's own stream back into it changes nothing. */
  lemma ReadOfWriteKeepsGrid(g: seq<Block>)
    ensures DecodeInto(g, EncodeTypes(g)) == g
  {
    forall i | 0 <= i < |g|
      ensures DecodeInto(g, EncodeTypes(g))[i] == g[i]
    {
      TypeCodeRoundTrip(g[i].blockType);
    }
  }

  /** Reading a stream into any grid of the same size restores every block type it encodes. */
  lemma ReadOfWriteRestoresTypes(prior: seq<Block>, g: seq<Block>, i: int)
    requires |prior| == |g| && 0 <= i < |g|
    ensures DecodeInto(prior, EncodeTypes(g))[i] == Block(g[i].blockType, prior[i].overlay)
  {
    TypeCodeRoundTrip(g[i].blockType);
  }

  /** Writing a chunk just read from a full stream reproduces that stream. */
  lemma WriteOfReadKeepsStream(prior: seq<Block>, data: seq<int>)
    requires |data| == |prior|
    requires forall i :: 0 <= i < |data| ==> 0 <= data[i] < 8
    ensures EncodeTypes(DecodeInto(prior, data)) == data
  {
    forall i | 0 <= i < |data|
      ensures EncodeTypes(DecodeInto(prior, data))[i] == data[i]
    {
      CodeTypeRoundTrip(data[i]);
    }
  }

  /** The chunk behind one face, when the block touches that face and the chunk is mapped. */
  function MarkedFace(chunks: map<Vec3, Chunk>, key: Vec3, touches: bool): set<Chunk>
  {
    if touches && key in chunks then {chunks[key]} else {}
  }

  lemma Regroup(d: set<Chunk>, a: set<Chunk>, b: set<Chunk>, c: set<Chunk>, e: set<Chunk>, g: set<Chunk>, h: set<Chunk>)
    ensures d + a + b + c + e + g + h == d + (a + b + c + e + g + h)
  {
  }

  /** The six face tests of MarkNeighborsDirty, one after the other. */
  function MarkedFaces(chunks: map<Vec3, Chunk>, chunkPos: Vec3, blockPos: Vec3): set<Chunk>
  {
    MarkedFace(chunks, chunkPos.Plus(DirLeft), blockPos.x == 0)
    + MarkedFace(chunks, chunkPos.Plus(DirRight), blockPos.x == ChunkSize - 1)
    + MarkedFace(chunks, chunkPos.Plus(DirDown), blockPos.y == 0)
    + MarkedFace(chunks, chunkPos.Plus(DirUp), blockPos.y == ChunkSize - 1)
    + MarkedFace(chunks, chunkPos.Plus(DirBack), blockPos.z == 0)
    + MarkedFace(chunks, chunkPos.Plus(DirForward), blockPos.z == ChunkSize - 1)
  }

  lemma MarkedFacesAreNeighborsToMark(chunks: map<Vec3, Chunk>, chunkPos: Vec3, blockPos: Vec3)
    ensures MarkedFaces(chunks, chunkPos, blockPos) == NeighborsToMark(chunks, chunkPos, blockPos)
  {
    forall c | c in NeighborsToMark(chunks, chunkPos, blockPos)
      ensures c in MarkedFaces(chunks, chunkPos, blockPos)
    {
      var d :| d in FaceNeighborOffsets(blockPos) && chunkPos.Plus(d) in chunks && c == chunks[chunkPos.Plus(d)];
      FaceNeighborMembership(blockPos, d);
    }
    FaceNeighborMembership(blockPos, DirLeft);
    FaceNeighborMembership(blockPos, DirRight);
    FaceNeighborMembership(blockPos, DirDown);
    FaceNeighborMembership(blockPos, DirUp);
    FaceNeighborMembership(blockPos, DirBack);
    FaceNeighborMembership(blockPos, DirForward);
  }

  /** Editing a block away from the chunk faces dirties no neighbour. */
  lemma InteriorEditMarksNoNeighbor(chunks: map<Vec3, Chunk>, chunkPos: Vec3, blockPos: Vec3)
    requires 0 < blockPos.x < ChunkSize - 1 && 0 < blockPos.y < ChunkSize - 1 && 0 < blockPos.z < ChunkSize - 1
    ensures NeighborsToMark(chunks, chunkPos, blockPos) == {}
  {
    InteriorBlockHasNoFaceNeighbors(blockPos);
  }

  /**
   * An edit at the -x face of a chunk dirties the chunk to its left, when that is mapped, and
   * an edit away from the -x face never dirties it (chunks are distinct per position).
   */
  lemma LeftNeighborMarkedExactlyOnLeftFace(chunks: map<Vec3, Chunk>, chunkPos: Vec3, blockPos: Vec3)
    requires InChunk(blockPos)
    requires chunkPos.Plus(DirLeft) in chunks
    requires forall p, q :: p in chunks && q in chunks && p != q ==> chunks[p] != chunks[q]
    ensures chunks[chunkPos.Plus(DirLeft)] in NeighborsToMark(chunks, chunkPos, blockPos) <==> blockPos.x == 0
  {
    var left := chunkPos.Plus(DirLeft);
    FaceNeighborMembership(blockPos, DirLeft);
    if chunks[left] in NeighborsToMark(chunks, chunkPos, blockPos) {
      var d :| d in FaceNeighborOffsets(blockPos) && chunkPos.Plus(d) in chunks && chunks[left] == chunks[chunkPos.Plus(d)];
      assert chunkPos.Plus(d) == left;
      assert d == DirLeft;
      FaceNeighborMembership(blockPos, d);
    }
  }

  /** Util.GetNeighboringChunkForBlock (Scripts/Util.cs:37-45): a lookup in the chunk map. */
  function GetNeighboringChunkForBlock(chunk: Chunk, x: int, y: int, z: int): (r: Option<Chunk>)
    reads chunk, chunk.world
    ensures r.Some? <==> chunk.chunkPos.Plus(NeighborChunkOffset(x, y, z)) in chunk.world.chunks
    ensures r.Some? ==> r.value == chunk.world.chunks[chunk.chunkPos.Plus(NeighborChunkOffset(x, y, z))]
  {
    var key := chunk.chunkPos.Plus(NeighborChunkOffset(x, y, z));
    if key in chunk.world.chunks then Some(chunk.world.chunks[key]) else None
  }

  /** The chunk and in-chunk position a block address resolves to. */
  datatype Resolved = Resolved(chunk: Chunk, pos: Vec3)

  /**
   * Util.ResolveBlock (Scripts/Util.cs:7-35): an in-chunk position resolves to itself; any
   * other resolves into the neighbouring chunk with wrapped indices, or fails when that
   * chunk is not mapped.
   */
  function ResolveBlock(chunk: Chunk, p: Vec3): (r: Option<Resolved>)
    reads chunk, chunk.world
    ensures r.Some? ==> InChunk(r.value.pos)
    ensures InChunk(p) ==> r == Some(Resolved(chunk, p))
    ensures !InChunk(p) ==>
      (r.Some? <==> chunk.chunkPos.Plus(NeighborChunkOffset(p.x, p.y, p.z)) in chunk.world.chunks)
    ensures !InChunk(p) && r.Some? ==>
      r.value.chunk == chunk.world.chunks[chunk.chunkPos.Plus(NeighborChunkOffset(p.x, p.y, p.z))] &&
      r.value.pos == NeighborBlockPos(p.x, p.y, p.z)
  {
    if BlockPosIsInChunk(p.x, p.y, p.z) then Some(Resolved(chunk, p))
    else
      match GetNeighboringChunkForBlock(chunk, p.x, p.y, p.z)
      case Some(neighbor) => Some(Resolved(neighbor, NeighborBlockPos(p.x, p.y, p.z)))
      case None => None
  }

  /**
   * In a consistent world, resolving a position at most one block outside the chunk names
   * the same world block it started from.
   */
  lemma ResolveBlockKeepsWorldBlock(chunk: Chunk, p: Vec3)
    requires chunk.world.Valid()
    requires -1 <= p.x <= ChunkSize && -1 <= p.y <= ChunkSize && -1 <= p.z <= ChunkSize
    requires ResolveBlock(chunk, p).Some?
    ensures var r := ResolveBlock(chunk, p).value;
      WorldPos(r.chunk.chunkPos).Plus(r.pos) == WorldPos(chunk.chunkPos).Plus(p)
  {
    if !InChunk(p) {
      var key := chunk.chunkPos.Plus(NeighborChunkOffset(p.x, p.y, p.z));
      assert chunk.world.chunks[key].chunkPos == key;
      NeighborAddressIsSameWorldBlock(chunk.chunkPos, p.x, p.y, p.z);
    }
  }
}
