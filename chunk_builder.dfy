/**
 * The terrain generator of Scripts/ChunkBuilder.cs.
 *
 * `DetermineBlockType` classifies one world block position from the height and noise fields
 * (see module Noise); `Build` runs it over every block of a populated chunk.  The classifier
 * as it is written never yields Redstone: `DetermineBlockTypeAsWritten` models that text and is
 * what `Build` and the world generator use.  `DetermineBlockType`, the corrected classifier,
 * lets a block in the redstone band keep Redstone unless the diamond band takes it;
 * `BuildIntended` runs it.
 */
module ChunkBuilder {

  import opened Blocks
  import opened Util
  import opened Chunks
  import Noise

  /** ChunkBuilder.waterLevel: empty cells below this height fill with water. */
  const WaterLevel: int := 55

  /** ChunkBuilder.maxHeight: the top of the height fields, also the world's vertical reach. */
  const MaxHeight: int := 150

  /** Ore bands only occur below these heights. */
  const RedstoneCeiling: int := 20
  const DiamondCeiling: int := 40

  predicate BelowStone(f: Noise.Fields, p: Vec3)
  {
    p.y < f.stoneHeight(p.x, p.z)
  }

  predicate InCave(f: Noise.Fields, p: Vec3)
  {
    f.caveNoiseLow(p.x, p.y, p.z)
  }

  predicate InRedstoneBand(f: Noise.Fields, p: Vec3)
  {
    p.y < RedstoneCeiling && f.redstoneNoiseLow(p.x, p.y, p.z)
  }

  predicate InDiamondBand(f: Noise.Fields, p: Vec3)
  {
    p.y < DiamondCeiling && f.diamondNoiseLow(p.x, p.y, p.z)
  }

  /** The cell lies above both height fields and below the water level. */
  predicate Flooded(f: Noise.Fields, p: Vec3)
  {
    !BelowStone(f, p) && p.y > f.worldHeight(p.x, p.z) && p.y < WaterLevel
  }

  /** Cave carving (Scripts/ChunkBuilder.cs:57-58): everything but water becomes Air in a cave. */
  function Carve(f: Noise.Fields, p: Vec3, t: BlockType): (r: BlockType)
    ensures t == Water ==> r == Water
    ensures t != Water ==> (r == Air <==> t == Air || InCave(f, p))
    ensures r == t || r == Air
  {
    if t != Water && InCave(f, p) then Air else t
  }

  /**
   * ChunkBuilder.DetermineBlockType exactly as written (Scripts/ChunkBuilder.cs:28-61): the
   * Redstone assignment of the stone branch is always overwritten by the Diamond/Stone
   * if-else that follows it.
   */
  function DetermineBlockTypeAsWritten(f: Noise.Fields, p: Vec3): (t: BlockType)
    ensures p.y == 0 ==> t == Bedrock
    ensures t != Redstone
    ensures p.y != 0 && BelowStone(f, p) && !InCave(f, p) ==> t == (if InDiamondBand(f, p) then Diamond else Stone)
  {
    if p.y == 0 then Bedrock
    else
      var stoneHeight := f.stoneHeight(p.x, p.z);
      var dirtHeight := f.worldHeight(p.x, p.z);
      var classified :=
        if p.y < stoneHeight then
          var afterRedstone := if InRedstoneBand(f, p) then Redstone else Air;
          if InDiamondBand(f, p) then Diamond else Stone
        else if p.y == dirtHeight then Grass
        else if p.y < dirtHeight then Dirt
        else if p.y < WaterLevel then Water
        else Air;
      Carve(f, p, classified)
  }

  /**
   * The classifier as intended: Bedrock at the world floor; below the stone height Diamond in
   * the diamond band, else Redstone in the redstone band, else Stone; a one-block Grass layer at
   * the surface height with Dirt under it; Water above both heights up to the water level; Air
   * above; and caves carve everything except Bedrock and Water.
   */
  function DetermineBlockType(f: Noise.Fields, p: Vec3): (t: BlockType)
    ensures p.y == 0 ==> t == Bedrock
    ensures t == Bedrock ==> p.y == 0
    ensures t == Water <==> p.y != 0 && Flooded(f, p)
    ensures t == Diamond <==> p.y != 0 && BelowStone(f, p) && InDiamondBand(f, p) && !InCave(f, p)
    ensures t == Redstone <==>
      p.y != 0 && BelowStone(f, p) && !InDiamondBand(f, p) && InRedstoneBand(f, p) && !InCave(f, p)
    ensures t == Stone <==>
      p.y != 0 && BelowStone(f, p) && !InDiamondBand(f, p) && !InRedstoneBand(f, p) && !InCave(f, p)
    ensures t == Grass <==> p.y != 0 && !BelowStone(f, p) && p.y == f.worldHeight(p.x, p.z) && !InCave(f, p)
    ensures t == Dirt <==> p.y != 0 && !BelowStone(f, p) && p.y < f.worldHeight(p.x, p.z) && !InCave(f, p)
  {
    if p.y == 0 then Bedrock
    else
      var dirtHeight := f.worldHeight(p.x, p.z);
      var classified :=
        if BelowStone(f, p) then
          if InDiamondBand(f, p) then Diamond
          else if InRedstoneBand(f, p) then Redstone
          else Stone
        else if p.y == dirtHeight then Grass
        else if p.y < dirtHeight then Dirt
        else if p.y < WaterLevel then Water
        else Air;
      Carve(f, p, classified)
  }

  /** The two classifiers differ exactly where the intended one yields Redstone. */
  lemma AsWrittenLosesOnlyRedstone(f: Noise.Fields, p: Vec3)
    ensures DetermineBlockTypeAsWritten(f, p) ==
      if DetermineBlockType(f, p) == Redstone then Stone else DetermineBlockType(f, p)
  {
  }

  /** Noise fields under which the cell (0, 10, 0) is deep stone inside the redstone band only. */
  const RedstoneWitness: Noise.Fields := Noise.Fields(
    (x, z) => 64, (x, z) => 50,
    (x, y, z) => false, (x, y, z) => true, (x, y, z) => false)

  /** At that cell the written classifier yields Stone where Redstone was evidently meant. */
  lemma RedstoneLostAsWritten()
    ensures DetermineBlockTypeAsWritten(RedstoneWitness, Vec3(0, 10, 0)) == Stone
    ensures DetermineBlockType(RedstoneWitness, Vec3(0, 10, 0)) == Redstone
  {
  }

  /** The grid a classifier leaves in the chunk at `chunkPos`: new types, the old overlays. */
  function Retyped(prior: seq<Block>, chunkPos: Vec3, classify: Vec3 -> BlockType): (r: seq<Block>)
    requires |prior| == ChunkVolume
    ensures |r| == ChunkVolume
    ensures forall i :: 0 <= i < ChunkVolume ==> r[i].overlay == prior[i].overlay
  {
    seq(ChunkVolume, i requires 0 <= i < ChunkVolume =>
      Block(classify(WorldPos(chunkPos).Plus(PosOf(i))), prior[i].overlay))
  }

  /** Every block of a retyped grid holds the classification of its own world position. */
  lemma RetypedBlockType(prior: seq<Block>, chunkPos: Vec3, classify: Vec3 -> BlockType, p: Vec3)
    requires |prior| == ChunkVolume && InChunk(p)
    ensures Retyped(prior, chunkPos, classify)[IdxOf(p)].blockType == classify(WorldPos(chunkPos).Plus(p))
  {
    assert PosOf(IdxOf(p)) == p by {
      DivModIdx(p.x, p.y, p.z);
    }
  }

  /** A chunk of the bottom layer is floored with Bedrock. */
  lemma BottomLayerIsBedrock(prior: seq<Block>, chunkPos: Vec3, f: Noise.Fields, x: int, z: int)
    requires |prior| == ChunkVolume && chunkPos.y == 0
    requires 0 <= x < ChunkSize && 0 <= z < ChunkSize
    ensures Retyped(prior, chunkPos, p => DetermineBlockTypeAsWritten(f, p))[Idx(x, 0, z)].blockType == Bedrock
  {
    RetypedBlockType(prior, chunkPos, p => DetermineBlockTypeAsWritten(f, p), Vec3(x, 0, z));
  }

  /** The loop of ChunkBuilder.Build, z outer and x inner, has visited q before (x, y, z). */
  predicate VisitedBefore(q: Vec3, z: int, y: int, x: int)
  {
    q.z < z || (q.z == z && (q.y < y || (q.y == y && q.x < x)))
  }

  /**
   * The grid g, started from `prior`, holds the new type of every block the loop visited
   * before (x, y, z), and its prior block everywhere else.
   */
  ghost predicate FilledBefore(g: seq<Block>, prior: seq<Block>, origin: Vec3, classify: Vec3 -> BlockType,
    z: int, y: int, x: int)
  {
    |g| == ChunkVolume && |prior| == ChunkVolume &&
    forall q :: InChunk(q) ==>
      g[IdxOf(q)] == if VisitedBefore(q, z, y, x) then Block(classify(origin.Plus(q)), prior[IdxOf(q)].overlay)
        else prior[IdxOf(q)]
  }

  /**
   * The loop of ChunkBuilder.Build (both snapshots), z outer and x inner: each block of the
   * grid receives the classification of its world position; overlays are not touched.  The
   * middle and the inner loop are the methods FillLayer and FillRow.
   */
  method FillTypes(chunk: Chunk, classify: Vec3 -> BlockType)
    requires chunk.IsPopulated()
    modifies chunk.blocks
    ensures chunk.blocks[..] == Retyped(old(chunk.blocks[..]), chunk.chunkPos, classify)
  {
    var grid := chunk.blocks;
    ghost var prior := grid[..];
    var origin := WorldPos(chunk.chunkPos);
    for z := 0 to ChunkSize
      invariant FilledBefore(grid[..], prior, origin, classify, z, 0, 0)
    {
      FillLayer(grid, origin, classify, prior, z);
    }
    forall i | 0 <= i < ChunkVolume
      ensures grid[i] == Retyped(prior, chunk.chunkPos, classify)[i]
    {
      var q := PosOf(i);
      assert VisitedBefore(q, ChunkSize, 0, 0);
    }
  }

  /** The middle loop of ChunkBuilder.Build: the rows of the layer z, y ascending. */
  method FillLayer(grid: array<Block>, origin: Vec3, classify: Vec3 -> BlockType, ghost prior: seq<Block>, z: int)
    requires 0 <= z < ChunkSize && FilledBefore(grid[..], prior, origin, classify, z, 0, 0)
    modifies grid
    ensures FilledBefore(grid[..], prior, origin, classify, z + 1, 0, 0)
  {
    for y := 0 to ChunkSize
      invariant FilledBefore(grid[..], prior, origin, classify, z, y, 0)
    {
      FillRow(grid, origin, classify, prior, z, y);
    }
  }

  /** The inner loop of ChunkBuilder.Build: the blocks of the row (y, z), x ascending. */
  method FillRow(grid: array<Block>, origin: Vec3, classify: Vec3 -> BlockType, ghost prior: seq<Block>, z: int, y: int)
    requires 0 <= z < ChunkSize && 0 <= y < ChunkSize && FilledBefore(grid[..], prior, origin, classify, z, y, 0)
    modifies grid
    ensures FilledBefore(grid[..], prior, origin, classify, z, y + 1, 0)
  {
    for x := 0 to ChunkSize
      invariant FilledBefore(grid[..], prior, origin, classify, z, y, x)
    {
      var i := Idx(x, y, z);
      grid[i] := Block(classify(origin.Plus(Vec3(x, y, z))), grid[i].overlay);
    }
  }

  /**
   * ChunkBuilder.Build (Scripts/ChunkBuilder.cs:9-24) with the world's noise fields and the
   * classifier as written.
   */
  method Build(chunk: Chunk)
    requires chunk.IsPopulated()
    modifies chunk.blocks
    ensures chunk.blocks[..] ==
      Retyped(old(chunk.blocks[..]), chunk.chunkPos, p => DetermineBlockTypeAsWritten(chunk.world.fields, p))
  {
    FillTypes(chunk, p => DetermineBlockTypeAsWritten(chunk.world.fields, p));
  }

  /** The same loop over the corrected classifier: the generation the code evidently intends. */
  method BuildIntended(chunk: Chunk)
    requires chunk.IsPopulated()
    modifies chunk.blocks
    ensures chunk.blocks[..] ==
      Retyped(old(chunk.blocks[..]), chunk.chunkPos, p => DetermineBlockType(chunk.world.fields, p))
  {
    FillTypes(chunk, p => DetermineBlockType(chunk.world.fields, p));
  }

  /**
   * The two generations of one grid differ exactly in the blocks the corrected classifier
   * makes Redstone, which the written one leaves as Stone.
   */
  lemma BuildLosesOnlyRedstone(prior: seq<Block>, chunkPos: Vec3, f: Noise.Fields, i: int)
    requires |prior| == ChunkVolume && 0 <= i < ChunkVolume
    ensures Retyped(prior, chunkPos, p => DetermineBlockTypeAsWritten(f, p))[i].blockType ==
      if Retyped(prior, chunkPos, p => DetermineBlockType(f, p))[i].blockType == Redstone then Stone
      else Retyped(prior, chunkPos, p => DetermineBlockType(f, p))[i].blockType
  {
    AsWrittenLosesOnlyRedstone(f, WorldPos(chunkPos).Plus(PosOf(i)));
  }
}
