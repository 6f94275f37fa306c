/**
 * Breaking and placing blocks (Scripts/Interaction.cs).
 *
 * The ray cast and the conversion of the hit point to a block position are floating point
 * and engine work; here HitBlock and InsertBlock start from what they produce: the chunk
 * position the hit point lies in and the block position inside (or just outside) that chunk.
 */
module Interaction {

  import opened Blocks
  import opened Util
  import opened Chunks

  /** The switch of HitBlock: soft blocks break at Crack2, ores and stone at Crack3, the rest never. */
  predicate DestroyedByHit(b: Block)
  {
    match b.blockType
    case Dirt | Grass => b.overlay == Crack2
    case Stone | Diamond | Redstone => b.overlay == Crack3
    case _ => false
  }

  /** The crack stage at which the next hit breaks a block of type t, if it can break at all. */
  function BreakStage(t: BlockType): Option<Overlay>
  {
    match t
    case Dirt | Grass => Some(Crack2)
    case Stone | Diamond | Redstone => Some(Crack3)
    case _ => None
  }

  /** What one hit does to a block: whether it registers, and the block it leaves. */
  datatype HitResult = HitResult(hit: bool, after: Block)

  function Hit(b: Block): (r: HitResult)
    ensures r.hit <==> b.blockType != Water
    ensures !r.hit ==> r.after == b
    ensures r.hit && DestroyedByHit(b) ==> r.after == Block(Air, OverlayNone)
    ensures r.hit && !DestroyedByHit(b) ==>
      r.after.blockType == b.blockType && r.after.overlay == NextOverlay(b.overlay)
  {
    if b.blockType == Water then HitResult(false, b)
    else if DestroyedByHit(b) then HitResult(true, Block(Air, OverlayNone))
    else HitResult(true, Block(b.blockType, NextOverlay(b.overlay)))
  }

  /** The block after n hits in a row on the same position. */
  function Hits(b: Block, n: nat): Block
    decreases n
  {
    if n == 0 then b else Hits(Hit(b).after, n - 1)
  }

  /** A hit breaks a block exactly when the block has reached its type's break stage. */
  lemma DestroyedAtBreakStage(b: Block)
    ensures DestroyedByHit(b) <==> BreakStage(b.blockType) == Some(b.overlay)
  {
  }

  /** Below its break stage, each hit adds one crack stage and leaves the type alone. */
  lemma {:induction false} CrackGrows(b: Block, k: nat)
    requires BreakStage(b.blockType).Some?
    requires 0 <= b.overlay as int && b.overlay as int + k <= BreakStage(b.blockType).value as int
    ensures Hits(b, k) == Block(b.blockType, (b.overlay as int + k) as Overlay)
    decreases k
  {
    if k > 0 {
      var s := BreakStage(b.blockType).value;
      assert b.overlay < s;
      var b' := Hit(b).after;
      assert b' == Block(b.blockType, (b.overlay as int + 1) as Overlay);
      CrackGrows(b', k - 1);
    }
  }

  /**
   * An uncracked breakable block survives stage-many hits and turns to Air on the next one:
   * Dirt and Grass on the third hit, Stone, Diamond and Redstone on the fourth.
   */
  lemma BreaksOnHit(t: BlockType)
    requires BreakStage(t).Some?
    ensures var n := BreakStage(t).value as int;
      Hits(Block(t, OverlayNone), n).blockType == t &&
      Hits(Block(t, OverlayNone), n + 1) == Block(Air, OverlayNone)
  {
    var n := BreakStage(t).value as int;
    CrackGrows(Block(t, OverlayNone), n);
    HitsSplit(Block(t, OverlayNone), n, 1);
  }

  lemma {:induction false} HitsSplit(b: Block, m: nat, n: nat)
    ensures Hits(b, m + n) == Hits(Hits(b, m), n)
    decreases m
  {
    if m > 0 {
      HitsSplit(Hit(b).after, m - 1, n);
    }
  }

  /** Hits on Water never register. */
  lemma {:induction false} WaterIgnoresHits(o: Overlay, n: nat)
    ensures Hits(Block(Water, o), n) == Block(Water, o)
  {
    if n > 0 {
      WaterIgnoresHits(o, n - 1);
    }
  }

  /**
   * Bedrock has no break stage: it stays Bedrock, and its overlay keeps counting up past
   * Crack4 (until the 16-bit value wraps).
   */
  lemma {:induction false} BedrockNeverBreaks(o: Overlay, n: nat)
    requires 0 <= o as int && o as int + n < 0x8000
    ensures Hits(Block(Bedrock, o), n) == Block(Bedrock, (o as int + n) as Overlay)
    decreases n
  {
    if n > 0 {
      BedrockNeverBreaks(o + 1, n - 1);
    }
  }

  /** The grid cell InsertBlock would write, if the target chunk is mapped and populated. */
  ghost function TargetGrid(chunk: Chunk, p: Vec3): set<object>
    reads chunk, chunk.world, chunk.world.chunks.Values
  {
    match ResolveBlock(chunk, p)
    case Some(r) => if r.chunk.blocks != null then {r.chunk.blocks} else {}
    case None => {}
  }

  class Interaction {
    const world: WorldData

    constructor (world: WorldData)
      ensures this.world == world
    {
      this.world := world;
    }

    /**
     * HitBlock after the ray cast (Scripts/Interaction.cs:26-57).  The hit lies on a rendered
     * face, so its chunk is mapped and populated and the block inside it.
     */
    method HitBlock(chunkPos: Vec3, blockPos: Vec3) returns (hit: bool)
      requires world.Valid() && chunkPos in world.chunks
      requires world.chunks[chunkPos].IsPopulated() && InChunk(blockPos)
      modifies world.chunks[chunkPos].blocks, world
      ensures world.chunks == old(world.chunks)
      ensures var c := world.chunks[chunkPos]; var b := old(c.blocks[IdxOf(blockPos)]);
        hit == Hit(b).hit && c.blocks[..] == old(c.blocks[..])[IdxOf(blockPos) := Hit(b).after]
      ensures var c := world.chunks[chunkPos]; var b := old(c.blocks[IdxOf(blockPos)]);
        world.dirtyChunks == old(world.dirtyChunks) +
          (if !hit then {} else {c}) +
          (if hit && DestroyedByHit(b) then NeighborsToMark(world.chunks, chunkPos, blockPos) else {})
    {
      var chunk := world.chunks[chunkPos];
      var block := chunk.blocks[IdxOf(blockPos)];
      if block.blockType == Water {
        return false;
      }
      if DestroyedByHit(block) {
        chunk.UpdateBlockType(blockPos, Air);
      } else {
        chunk.UpdateBlockOverlay(blockPos, NextOverlay(block.overlay));
      }
      hit := true;
    }

    /**
     * InsertBlock after the ray cast (Scripts/Interaction.cs:68-84): the block next to the hit
     * face may lie in a neighbouring chunk; it is placed when that chunk is mapped.
     */
    method InsertBlock(chunkPos: Vec3, blockPos: Vec3, t: BlockType) returns (placed: bool)
      requires world.Valid() && chunkPos in world.chunks
      modifies world, TargetGrid(world.chunks[chunkPos], blockPos)
      ensures world.chunks == old(world.chunks)
      ensures var r := old(ResolveBlock(world.chunks[chunkPos], blockPos));
        placed <==> r.Some? && old(r.value.chunk.IsPopulated())
      ensures var r := old(ResolveBlock(world.chunks[chunkPos], blockPos));
        placed ==>
          r.value.chunk.blocks[..] == old(r.value.chunk.blocks[..])[IdxOf(r.value.pos) := Block(t, OverlayNone)] &&
          world.dirtyChunks == old(world.dirtyChunks) + {r.value.chunk} +
            NeighborsToMark(world.chunks, r.value.chunk.chunkPos, r.value.pos)
      ensures !placed ==> world.dirtyChunks == old(world.dirtyChunks)
      ensures var r := old(ResolveBlock(world.chunks[chunkPos], blockPos));
        placed && -1 <= blockPos.x <= ChunkSize && -1 <= blockPos.y <= ChunkSize && -1 <= blockPos.z <= ChunkSize ==>
          WorldPos(r.value.chunk.chunkPos).Plus(r.value.pos) == WorldPos(chunkPos).Plus(blockPos)
    {
      var chunk := world.chunks[chunkPos];
      var r := ResolveBlock(chunk, blockPos);
      if r.None? || !r.value.chunk.IsPopulated() {
        return false;
      }
      var target := r.value.chunk;
      if -1 <= blockPos.x <= ChunkSize && -1 <= blockPos.y <= ChunkSize && -1 <= blockPos.z <= ChunkSize {
        ResolveBlockKeepsWorldBlock(chunk, blockPos);
      }
      assert target.world == world by {
        if !InChunk(blockPos) {
          assert target == world.chunks[chunkPos.Plus(NeighborChunkOffset(blockPos.x, blockPos.y, blockPos.z))];
        }
      }
      target.UpdateBlockType(r.value.pos, t);
      placed := true;
    }
  }
}
