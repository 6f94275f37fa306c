/**
 * Chunk geometry and neighbour addressing (Scripts/Util.cs, Scripts/Chunk.cs, Chunk.cs).
 *
 * A chunk is a cube of ChunkSize^3 blocks.  Its grid `Block[16,16,16]` is stored, as .NET
 * stores a rectangular array, row-major: the block at (x, y, z) is element
 * `x * 256 + y * 16 + z` of a one-dimensional buffer.  That is also the x-outer, y, z-inner
 * order in which the binary readers and writers stream a chunk.
 */
module Util {

  import opened Blocks

  /** World.chunkSize. */
  const ChunkSize: int := 16

  /** Blocks per chunk. */
  const ChunkVolume: int := 4096

  /** Vector3Int (int32 wrap-around of the components is not modelled). */
  datatype Vec3 = Vec3(x: int, y: int, z: int)
  {
    function Plus(o: Vec3): Vec3 { Vec3(x + o.x, y + o.y, z + o.z) }
    function Minus(o: Vec3): Vec3 { Vec3(x - o.x, y - o.y, z - o.z) }
  }

  const Zero: Vec3 := Vec3(0, 0, 0)
  const One: Vec3 := Vec3(1, 1, 1)

  /** Chunk.BlockPosIsInChunk (Scripts/Chunk.cs:85-88). */
  predicate BlockPosIsInChunk(x: int, y: int, z: int)
  {
    0 <= x < ChunkSize && 0 <= y < ChunkSize && 0 <= z < ChunkSize
  }

  predicate InChunk(p: Vec3)
  {
    BlockPosIsInChunk(p.x, p.y, p.z)
  }

  /** Position of the block (x, y, z) in the row-major grid buffer. */
  function Idx(x: int, y: int, z: int): (i: int)
    requires BlockPosIsInChunk(x, y, z)
    ensures 0 <= i < ChunkVolume
  {
    x * 256 + y * 16 + z
  }

  function IdxOf(p: Vec3): int
    requires InChunk(p)
  {
    Idx(p.x, p.y, p.z)
  }

  /** The block coordinates stored at buffer position i. */
  function PosOf(i: int): (p: Vec3)
    requires 0 <= i < ChunkVolume
    ensures InChunk(p) && IdxOf(p) == i
  {
    Vec3(i / 256, (i / 16) % 16, i % 16)
  }

  /** The buffer layout is a bijection between the grid cube and [0, 4096). */
  lemma IdxInjective(x: int, y: int, z: int, x': int, y': int, z': int)
    requires BlockPosIsInChunk(x, y, z) && BlockPosIsInChunk(x', y', z')
    requires Idx(x, y, z) == Idx(x', y', z')
    ensures x == x' && y == y' && z == z'
  {
    var i := Idx(x, y, z);
    assert PosOf(i) == Vec3(x, y, z) by { DivModIdx(x, y, z); }
    assert PosOf(i) == Vec3(x', y', z') by { DivModIdx(x', y', z'); }
  }

  lemma DivModIdx(x: int, y: int, z: int)
    requires BlockPosIsInChunk(x, y, z)
    ensures Idx(x, y, z) / 256 == x && (Idx(x, y, z) / 16) % 16 == y && Idx(x, y, z) % 16 == z
  {
    var i := Idx(x, y, z);
    assert i == (x * 16 + y) * 16 + z;
    assert i / 16 == x * 16 + y;
    assert i / 256 == (i / 16) / 16;
  }

  /** Chunk.WorldPos: the block-coordinate origin of a chunk (Chunk.cs:10-14, Scripts/Chunk.cs:11-15). */
  function WorldPos(chunkPos: Vec3): (w: Vec3)
    ensures w.x == chunkPos.x * ChunkSize && w.y == chunkPos.y * ChunkSize && w.z == chunkPos.z * ChunkSize
  {
    Vec3(chunkPos.x * ChunkSize, chunkPos.y * ChunkSize, chunkPos.z * ChunkSize)
  }

  /** Util.GetNeighborBlockIndex: the index of a coordinate inside the neighbouring chunk. */
  function GetNeighborBlockIndex(v: int): (r: int)
    ensures 0 <= r < ChunkSize
    ensures v < 0 ==> r == ChunkSize - 1
    ensures v >= ChunkSize ==> r == 0
    ensures 0 <= v < ChunkSize ==> r == v
  {
    if v < 0 then ChunkSize - 1
    else if v >= ChunkSize then 0
    else v
  }

  /** Util.GetNeighborChunkOffset: which neighbouring chunk along one axis a coordinate falls in. */
  function GetNeighborChunkOffset(v: int): (r: int)
    ensures -1 <= r <= 1
    ensures r == 0 <==> 0 <= v < ChunkSize
    ensures r == -1 <==> v < 0
  {
    if v < 0 then -1
    else if v >= ChunkSize then 1
    else 0
  }

  /**
   * Crossing one chunk border keeps the world coordinate: for a coordinate at most one
   * block outside the chunk, offset * 16 + wrapped index is the coordinate itself.
   */
  lemma BorderCrossingPreservesCoordinate(v: int)
    requires -1 <= v <= ChunkSize
    ensures GetNeighborChunkOffset(v) * ChunkSize + GetNeighborBlockIndex(v) == v
  {
  }

  /** ... and further out the wrapped index no longer names the same block. */
  lemma FarCoordinateIsNotPreserved(v: int)
    requires v < -1 || v > ChunkSize
    ensures GetNeighborChunkOffset(v) * ChunkSize + GetNeighborBlockIndex(v) != v
  {
  }

  /** The chunk-grid offset of the chunk holding block (x, y, z) of the chunk at the origin. */
  function NeighborChunkOffset(x: int, y: int, z: int): Vec3
  {
    Vec3(GetNeighborChunkOffset(x), GetNeighborChunkOffset(y), GetNeighborChunkOffset(z))
  }

  /** The wrapped block position used inside that chunk. */
  function NeighborBlockPos(x: int, y: int, z: int): (p: Vec3)
    ensures InChunk(p)
  {
    Vec3(GetNeighborBlockIndex(x), GetNeighborBlockIndex(y), GetNeighborBlockIndex(z))
  }

  /**
   * For a block at most one step outside the chunk on each axis, the neighbour chunk and
   * the wrapped position name the same world block.
   */
  lemma NeighborAddressIsSameWorldBlock(chunkPos: Vec3, x: int, y: int, z: int)
    requires -1 <= x <= ChunkSize && -1 <= y <= ChunkSize && -1 <= z <= ChunkSize
    ensures WorldPos(chunkPos.Plus(NeighborChunkOffset(x, y, z))).Plus(NeighborBlockPos(x, y, z))
         == WorldPos(chunkPos).Plus(Vec3(x, y, z))
  {
    BorderCrossingPreservesCoordinate(x);
    BorderCrossingPreservesCoordinate(y);
    BorderCrossingPreservesCoordinate(z);
  }

  const DirLeft: Vec3 := Vec3(-1, 0, 0)
  const DirRight: Vec3 := Vec3(1, 0, 0)
  const DirDown: Vec3 := Vec3(0, -1, 0)
  const DirUp: Vec3 := Vec3(0, 1, 0)
  const DirBack: Vec3 := Vec3(0, 0, -1)
  const DirForward: Vec3 := Vec3(0, 0, 1)

  /**
   * The chunk-grid offsets of the neighbours an edit at block p must dirty: one for every
   * chunk face the block touches (Scripts/Chunk.cs:56-74).
   */
  function FaceNeighborOffsets(p: Vec3): set<Vec3>
  {
    (if p.x == 0 then {DirLeft} else {}) + (if p.x == ChunkSize - 1 then {DirRight} else {}) +
    (if p.y == 0 then {DirDown} else {}) + (if p.y == ChunkSize - 1 then {DirUp} else {}) +
    (if p.z == 0 then {DirBack} else {}) + (if p.z == ChunkSize - 1 then {DirForward} else {})
  }

  /** An offset is marked exactly when the block lies on the matching face of its chunk. */
  lemma FaceNeighborMembership(p: Vec3, d: Vec3)
    ensures d in FaceNeighborOffsets(p) <==>
      (d == DirLeft && p.x == 0) || (d == DirRight && p.x == ChunkSize - 1) ||
      (d == DirDown && p.y == 0) || (d == DirUp && p.y == ChunkSize - 1) ||
      (d == DirBack && p.z == 0) || (d == DirForward && p.z == ChunkSize - 1)
  {
  }

  /** A block away from every face of its chunk dirties no neighbour. */
  lemma InteriorBlockHasNoFaceNeighbors(p: Vec3)
    requires 0 < p.x < ChunkSize - 1 && 0 < p.y < ChunkSize - 1 && 0 < p.z < ChunkSize - 1
    ensures FaceNeighborOffsets(p) == {}
  {
    if d :| d in FaceNeighborOffsets(p) {
      assert false;
    }
  }

  /** The offsets one axis contributes: the negative face, the positive face, or neither. */
  function AxisFaceOffsets(v: int, neg: Vec3, pos: Vec3): (r: set<Vec3>)
    ensures |r| <= 1
  {
    if v == 0 then {neg} else if v == ChunkSize - 1 then {pos} else {}
  }

  /** Along one axis the source's two independent tests mark at most one face. */
  lemma AxisTestsAreExclusive(v: int, neg: Vec3, pos: Vec3)
    requires 0 <= v < ChunkSize
    ensures (if v == 0 then {neg} else {}) + (if v == ChunkSize - 1 then {pos} else {}) == AxisFaceOffsets(v, neg, pos)
  {
  }

  /** Any block dirties at most three neighbours, at most one along each axis. */
  lemma AtMostOneFaceNeighborPerAxis(p: Vec3)
    requires InChunk(p)
    ensures |FaceNeighborOffsets(p)| <= 3
    ensures !(DirLeft in FaceNeighborOffsets(p) && DirRight in FaceNeighborOffsets(p))
    ensures !(DirDown in FaceNeighborOffsets(p) && DirUp in FaceNeighborOffsets(p))
    ensures !(DirBack in FaceNeighborOffsets(p) && DirForward in FaceNeighborOffsets(p))
  {
    FaceNeighborMembership(p, DirLeft);
    FaceNeighborMembership(p, DirRight);
    FaceNeighborMembership(p, DirDown);
    FaceNeighborMembership(p, DirUp);
    FaceNeighborMembership(p, DirBack);
    FaceNeighborMembership(p, DirForward);
    CountFaceNeighbors(p);
  }

  lemma CountFaceNeighbors(p: Vec3)
    requires InChunk(p)
    ensures |FaceNeighborOffsets(p)| <= 3
  {
    var xs := AxisFaceOffsets(p.x, DirLeft, DirRight);
    var ys := AxisFaceOffsets(p.y, DirDown, DirUp);
    var zs := AxisFaceOffsets(p.z, DirBack, DirForward);
    AxisTestsAreExclusive(p.x, DirLeft, DirRight);
    AxisTestsAreExclusive(p.y, DirDown, DirUp);
    AxisTestsAreExclusive(p.z, DirBack, DirForward);
    SplitUnion(p);
    assert FaceNeighborOffsets(p) == xs + ys + zs;
    UnionOfSingletonsIsSmall(xs, ys, zs);
  }

  lemma UnionOfSingletonsIsSmall(xs: set<Vec3>, ys: set<Vec3>, zs: set<Vec3>)
    requires |xs| <= 1 && |ys| <= 1 && |zs| <= 1
    ensures |xs + ys + zs| <= 3
  {
    assert |xs + ys| <= |xs| + |ys|;
    assert |xs + ys + zs| <= |xs + ys| + |zs|;
  }

  lemma SplitUnion(p: Vec3)
    ensures FaceNeighborOffsets(p) ==
      ((if p.x == 0 then {DirLeft} else {}) + (if p.x == ChunkSize - 1 then {DirRight} else {})) +
      ((if p.y == 0 then {DirDown} else {}) + (if p.y == ChunkSize - 1 then {DirUp} else {})) +
      ((if p.z == 0 then {DirBack} else {}) + (if p.z == ChunkSize - 1 then {DirForward} else {}))
  {
  }

  /** The cell one step from (x, y, z) through a face, as BuildBlock probes it. */
  function SideStep(side: Side): Vec3
  {
    match side
    case Front => Vec3(0, 0, 1)
    case Back => Vec3(0, 0, -1)
    case Top => Vec3(0, 1, 0)
    case Bottom => Vec3(0, -1, 0)
    case Right => Vec3(1, 0, 0)
    case Left => Vec3(-1, 0, 0)
  }

  /** The order in which BuildBlock tests and emits the six faces. */
  const FaceOrder: seq<Side> := [Front, Back, Top, Bottom, Right, Left]

  /** Every side appears in the face order exactly once. */
  lemma FaceOrderCoversSides(side: Side)
    ensures multiset(FaceOrder)[side] == 1
  {
  }
}
