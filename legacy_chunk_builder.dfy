/**
 * The older terrain generator of ChunkBuilder.cs: an early-return decision tree that tests
 * for caves before any height rule and never produces water.  Its stone height field is
 * built with an offset of 5 below the maximum height instead of 10; as a field of
 * Noise.Fields that difference lies in the input.
 */
module LegacyChunkBuilder {

  import opened Blocks
  import opened Util
  import opened Chunks
  import opened ChunkBuilder
  import Noise

  /** ChunkBuilder.DetermineBlockType (ChunkBuilder.cs:26-53). */
  function DetermineBlockType(f: Noise.Fields, p: Vec3): (t: BlockType)
    ensures t != Water
    ensures p.y == 0 ==> t == Bedrock
    ensures t == Bedrock ==> p.y == 0
    ensures p.y != 0 && InCave(f, p) ==> t == Air
    ensures t == Redstone <==> p.y != 0 && !InCave(f, p) && BelowStone(f, p) && InRedstoneBand(f, p)
    ensures t == Diamond <==>
      p.y != 0 && !InCave(f, p) && BelowStone(f, p) && !InRedstoneBand(f, p) && InDiamondBand(f, p)
    ensures t == Stone <==>
      p.y != 0 && !InCave(f, p) && BelowStone(f, p) && !InRedstoneBand(f, p) && !InDiamondBand(f, p)
    ensures t == Grass <==> p.y != 0 && !InCave(f, p) && !BelowStone(f, p) && p.y == f.worldHeight(p.x, p.z)
    ensures t == Dirt <==> p.y != 0 && !InCave(f, p) && !BelowStone(f, p) && p.y < f.worldHeight(p.x, p.z)
  {
    if p.y == 0 then Bedrock
    else if InCave(f, p) then Air
    else if BelowStone(f, p) then
      if InRedstoneBand(f, p) then Redstone
      else if InDiamondBand(f, p) then Diamond
      else Stone
    else
      var dirtHeight := f.worldHeight(p.x, p.z);
      if p.y == dirtHeight then Grass
      else if p.y < dirtHeight then Dirt
      else Air
  }

  /**
   * The two generations agree on every cell that is not flooded and not in both ore bands:
   * the newer one adds water and lets diamond win over redstone.
   */
  lemma AgreesWithNewerOffWaterAndOreOverlap(f: Noise.Fields, p: Vec3)
    requires !Flooded(f, p) && !(InRedstoneBand(f, p) && InDiamondBand(f, p))
    ensures DetermineBlockType(f, p) == ChunkBuilder.DetermineBlockType(f, p)
  {
  }

  /** ChunkBuilder.Build (ChunkBuilder.cs:9-24) over the older classifier. */
  method Build(chunk: Chunk, f: Noise.Fields)
    requires chunk.IsPopulated()
    modifies chunk.blocks
    ensures chunk.blocks[..] == Retyped(old(chunk.blocks[..]), chunk.chunkPos, p => DetermineBlockType(f, p))
  {
    FillTypes(chunk, p => DetermineBlockType(f, p));
  }

  /**
   * A chunk the older generator builds from a fresh grid holds only types of the older
   * snapshot's enum: no water.
   */
  lemma LegacyGridHasNoWater(chunkPos: Vec3, f: Noise.Fields, i: int)
    requires 0 <= i < ChunkVolume
    ensures IsLegacyType(Retyped(EmptyGrid, chunkPos, p => DetermineBlockType(f, p))[i].blockType)
  {
    var cell := WorldPos(chunkPos).Plus(PosOf(i));
    assert Retyped(EmptyGrid, chunkPos, p => DetermineBlockType(f, p))[i].blockType == DetermineBlockType(f, cell);
  }
}
