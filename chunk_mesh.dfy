/**
 * The face-culling mesh builder of Scripts/ChunkMesh.cs.
 *
 * Build walks the 16x16x16 cells of a chunk, z outer and x inner.  For every block that is not
 * Air it emits one quad per face whose neighbour cell is not solid: four vertices, four
 * normals, four block texture coordinates, four overlay texture coordinates and six indices.
 * The vertex offsets of the source are 0 or 1, so positions are integer vectors; a texture
 * coordinate is the atlas tag together with the corner of its tile.  A block type or overlay
 * without a texture makes the source throw after part of the face was appended: the model
 * returns `false` together with that partial mesh.
 *
 * The faces are specified once, as a value: `MeshFaces` lists the faces Build emits, in order,
 * from a `ChunkView` snapshot of the grids.  The mesh itself is a fold of the face emission
 * over that list (`Emit`).  The older builder (legacy_chunk_mesh.dfy) emits the same faces with
 * its own emission.
 */
module ChunkMesh {

  import opened Blocks
  import opened Util
  import opened Chunks
  import Atlas = TextureAtlas

  // ----- What the builder reads -----

  /** The chunk's position and grid, and the grid of every populated chunk of the world map. */
  datatype View = View(chunkPos: Vec3, grid: seq<Block>, grids: map<Vec3, seq<Block>>)

  predicate GridsSized(v: View)
  {
    |v.grid| == ChunkVolume && forall k :: k in v.grids ==> |v.grids[k]| == ChunkVolume
  }

  type ChunkView = v: View | GridsSized(v) witness View(Zero, EmptyGrid, map[])

  /** The block at in-chunk position p of the grid being meshed. */
  function BlockAt(v: ChunkView, p: Vec3): Block
    requires InChunk(p)
  {
    v.grid[IdxOf(p)]
  }

  /**
   * BlockNeighborIsSolid on a snapshot: a cell inside the chunk is read from its grid, any
   * other from the wrapped position in the neighbouring chunk, which counts as not solid when
   * it is not mapped or not populated.
   */
  function NeighborIsSolid(v: ChunkView, p: Vec3): bool
  {
    if InChunk(p) then IsSolid(v.grid[IdxOf(p)])
    else
      var key := v.chunkPos.Plus(NeighborChunkOffset(p.x, p.y, p.z));
      key in v.grids && IsSolid(v.grids[key][IdxOf(NeighborBlockPos(p.x, p.y, p.z))])
  }

  /** Grids(w): the grid arrays of the populated chunks of w's map. */
  ghost function Grids(w: WorldData): set<array?<Block>>
    reads w`chunks, w.chunks.Values
  {
    set p | p in w.chunks && w.chunks[p].blocks != null :: w.chunks[p].blocks
  }

  /** The snapshot of `chunk` and of the chunks of map `w` that a mesh build reads. */
  ghost function ViewOf(chunk: Chunk, w: WorldData): ChunkView
    requires chunk.IsPopulated()
    reads chunk, chunk.blocks, w`chunks, w.chunks.Values, Grids(w)
  {
    View(chunk.chunkPos, chunk.blocks[..],
      map p | p in w.chunks && w.chunks[p].blocks != null :: w.chunks[p].blocks[..])
  }

  /**
   * ChunkMesh.BlockNeighborIsSolid (Scripts/ChunkMesh.cs:82-96): a cell outside the chunk is
   * looked up through Util.GetNeighboringChunkForBlock in the chunk's own world.
   */
  function BlockNeighborIsSolid(chunk: Chunk, x: int, y: int, z: int): (r: bool)
    requires chunk.IsPopulated()
    reads chunk, chunk.blocks, chunk.world, chunk.world.chunks.Values, Grids(chunk.world)
    ensures r == NeighborIsSolid(ViewOf(chunk, chunk.world), Vec3(x, y, z))
  {
    if !BlockPosIsInChunk(x, y, z) then
      match GetNeighboringChunkForBlock(chunk, x, y, z)
      case Some(neighbor) =>
        neighbor.IsPopulated()
        && IsSolid(neighbor.blocks[Idx(GetNeighborBlockIndex(x), GetNeighborBlockIndex(y), GetNeighborBlockIndex(z))])
      case None => false
    else
      IsSolid(chunk.blocks[Idx(x, y, z)])
  }

  /**
   * For a cell one step outside the chunk, the neighbour test reads the block at the same
   * world position, in the chunk the map holds there.
   */
  lemma NeighborTestReadsSameWorldBlock(chunk: Chunk, p: Vec3)
    requires chunk.IsPopulated() && chunk.world.Valid() && !InChunk(p)
    requires -1 <= p.x <= ChunkSize && -1 <= p.y <= ChunkSize && -1 <= p.z <= ChunkSize
    requires ResolveBlock(chunk, p).Some?
    ensures var r := ResolveBlock(chunk, p).value;
      WorldPos(r.chunk.chunkPos).Plus(r.pos) == WorldPos(chunk.chunkPos).Plus(p)
      && (NeighborIsSolid(ViewOf(chunk, chunk.world), p) <==> r.chunk.IsPopulated() && IsSolid(r.chunk.blocks[IdxOf(r.pos)]))
  {
    ResolveBlockKeepsWorldBlock(chunk, p);
  }

  // ----- The faces Build emits -----

  /** One face quad: the block's position, the side, and the block it belongs to. */
  datatype Face = Face(pos: Vec3, side: Side, block: Block)

  /** The face `side` of the block at p, if the neighbour cell behind it is not solid. */
  function SideFaces(v: ChunkView, p: Vec3, side: Side): seq<Face>
    requires InChunk(p)
  {
    if NeighborIsSolid(v, p.Plus(SideStep(side))) then [] else [Face(p, side, BlockAt(v, p))]
  }

  /** The exposed faces among FaceOrder[j..]. */
  function ExposedFrom(v: ChunkView, p: Vec3, j: nat): seq<Face>
    requires InChunk(p)
    decreases |FaceOrder| - j
  {
    if j >= |FaceOrder| then [] else SideFaces(v, p, FaceOrder[j]) + ExposedFrom(v, p, j + 1)
  }

  /** The faces BuildBlock emits for the block at p, in its order: none for Air. */
  function CellFaces(v: ChunkView, p: Vec3): seq<Face>
    requires InChunk(p)
  {
    if BlockAt(v, p).blockType == Air then [] else ExposedFrom(v, p, 0)
  }

  /** The cells' face lists as one function value, so that the row, layer and chunk lists are built over it. */
  function Cells(v: ChunkView): Vec3 -> seq<Face>
  {
    p => if InChunk(p) then CellFaces(v, p) else []
  }

  /** 0, 1, ..., 15: the values each of Build's three loops runs through, in order. */
  function Span(): seq<int>
  {
    seq(ChunkSize, k => k)
  }

  /** `ks` lists 0, 1, ..., 15 in order. */
  predicate IsSpan(ks: seq<int>)
  {
    |ks| == ChunkSize && forall i | 0 <= i < |ks| :: ks[i] == i
  }

  lemma SpanIsSpan()
    ensures IsSpan(Span())
  {
  }

  lemma InSpan(ks: seq<int>, k: int)
    requires IsSpan(ks)
    ensures k in ks <==> 0 <= k < ChunkSize
  {
    if 0 <= k < ChunkSize {
      assert ks[k] == k;
    }
  }

  /** The loop values from k on: k first, then those from k + 1. */
  lemma SpanFrom(ks: seq<int>, k: int)
    requires IsSpan(ks) && 0 <= k < ChunkSize
    ensures |ks[k..]| > 0 && ks[k..][0] == k && ks[k..][1..] == ks[k + 1..]
  {
  }

  /**
   * One level of Build's loops: the face lists of the parts `ks` (cells of a row, rows of a
   * layer, or layers of the chunk), joined in loop order.
   */
  function Join(parts: int -> seq<Face>, ks: seq<int>): seq<Face>
    decreases |ks|
  {
    if ks == [] then [] else parts(ks[0]) + Join(parts, ks[1..])
  }

  /** The cells of row (y, z), by x. */
  function RowParts(cells: Vec3 -> seq<Face>, z: int, y: int): int -> seq<Face>
  {
    x => cells(Vec3(x, y, z))
  }

  /** The rows of layer z, by y, each row over the x values `ks`. */
  function LayerParts(cells: Vec3 -> seq<Face>, z: int, ks: seq<int>): int -> seq<Face>
  {
    y => Join(RowParts(cells, z, y), ks)
  }

  /** The layers of the chunk, by z, each over the y and x values `ks`. */
  function ChunkParts(cells: Vec3 -> seq<Face>, ks: seq<int>): int -> seq<Face>
  {
    z => Join(LayerParts(cells, z, ks), ks)
  }

  /** All faces Build emits, in emission order: z outer, then y, then x. */
  function MeshFaces(v: ChunkView): seq<Face>
  {
    Join(ChunkParts(Cells(v), Span()), Span())
  }

  /** Span() is the only listing of the loop values. */
  lemma SpanIsUnique(ks: seq<int>)
    requires IsSpan(ks)
    ensures ks == Span()
  {
  }

  /**
   * `data` with outcome `ok` is what emitting the faces of snapshot `v` leaves when it starts
   * from `start`.  The loop values are bound rather than spelt out, so that a caller holding
   * this fact does not expand the 4096 cells.
   */
  ghost predicate BuiltFrom(start: MeshData, v: ChunkView, data: MeshData, ok: bool)
  {
    forall ks | IsSpan(ks) :: Outcome(data, ok) == Emit(EmitFace, start, Join(ChunkParts(Cells(v), ks), ks))
  }

  lemma BuiltFromIsMeshFaces(start: MeshData, v: ChunkView, data: MeshData, ok: bool)
    ensures BuiltFrom(start, v, data, ok) <==> Outcome(data, ok) == Emit(EmitFace, start, MeshFaces(v))
  {
    SpanIsSpan();
    forall ks | IsSpan(ks) ensures ks == Span() {
      SpanIsUnique(ks);
    }
  }

  /** `f` is a visible face of the snapshot: a non-Air block of the chunk whose neighbour cell behind `f.side` is not solid. */
  predicate Visible(v: ChunkView, f: Face)
  {
    InChunk(f.pos) && f.block == BlockAt(v, f.pos) && f.block.blockType != Air
    && !NeighborIsSolid(v, f.pos.Plus(SideStep(f.side)))
  }

  lemma {:induction false} ExposedFromMembers(v: ChunkView, p: Vec3, j: nat, f: Face)
    requires InChunk(p) && j <= |FaceOrder|
    ensures f in ExposedFrom(v, p, j) <==>
      f.pos == p && f.block == BlockAt(v, p) && !NeighborIsSolid(v, p.Plus(SideStep(f.side))) && f.side in FaceOrder[j..]
    decreases |FaceOrder| - j
  {
    if j < |FaceOrder| {
      ExposedFromMembers(v, p, j + 1, f);
      assert FaceOrder[j..] == [FaceOrder[j]] + FaceOrder[j + 1..];
    }
  }

  lemma CellFacesMembers(v: ChunkView, p: Vec3, f: Face)
    requires InChunk(p)
    ensures f in CellFaces(v, p) <==> f.pos == p && Visible(v, f)
  {
    ExposedFromMembers(v, p, 0, f);
    FaceOrderCoversSides(f.side);
    assert FaceOrder[0..] == FaceOrder;
  }

  /** Every face a cell contributes carries that cell's position. */
  ghost predicate Local(cells: Vec3 -> seq<Face>)
  {
    forall p, f :: f in cells(p) ==> f.pos == p
  }

  /** Coordinate `axis` (0 = x, 1 = y, otherwise z) of p. */
  function Coord(p: Vec3, axis: int): int
  {
    if axis == 0 then p.x else if axis == 1 then p.y else p.z
  }

  /** Every face of part k has coordinate k along `axis`. */
  ghost predicate Keyed(parts: int -> seq<Face>, axis: int)
  {
    forall k, f :: f in parts(k) ==> Coord(f.pos, axis) == k
  }

  /** Membership in a concatenation. */
  lemma InConcat<T>(x: T, a: seq<T>, b: seq<T>)
    ensures x in a + b <==> x in a || x in b
  {
  }

  /** A face is in the joined parts i.. exactly when it is in the part its coordinate names. */
  lemma {:induction false} JoinMembers(parts: int -> seq<Face>, axis: int, ks: seq<int>, f: Face)
    requires Keyed(parts, axis)
    ensures f in Join(parts, ks) <==> Coord(f.pos, axis) in ks && f in parts(Coord(f.pos, axis))
    decreases |ks|
  {
    if ks != [] {
      var c := Coord(f.pos, axis);
      JoinMembers(parts, axis, ks[1..], f);
      InConcat(f, parts(ks[0]), Join(parts, ks[1..]));
      assert c in ks <==> c == ks[0] || c in ks[1..] by {
        assert ks == [ks[0]] + ks[1..];
        InConcat(c, [ks[0]], ks[1..]);
      }
    }
  }

  lemma CellsLocal(v: ChunkView)
    ensures Local(Cells(v))
  {
    forall p, g | g in Cells(v)(p) ensures g.pos == p {
      CellFacesMembers(v, p, g);
    }
  }

  /** The faces of row (y, z) are the faces of its cells. */
  lemma RowMembers(cells: Vec3 -> seq<Face>, z: int, y: int, ks: seq<int>, f: Face)
    requires Local(cells) && IsSpan(ks)
    ensures f in Join(RowParts(cells, z, y), ks) <==>
      f.pos.z == z && f.pos.y == y && 0 <= f.pos.x < ChunkSize && f in cells(f.pos)
  {
    forall x, g | g in RowParts(cells, z, y)(x) ensures g.pos.x == x {
      assert g in cells(Vec3(x, y, z));
    }
    JoinMembers(RowParts(cells, z, y), 0, ks, f);
    InSpan(ks, f.pos.x);
    assert f in RowParts(cells, z, y)(f.pos.x) <==> f in cells(Vec3(f.pos.x, y, z));
  }

  /** The faces of layer z are the faces of its cells. */
  lemma LayerMembers(cells: Vec3 -> seq<Face>, z: int, ks: seq<int>, f: Face)
    requires Local(cells) && IsSpan(ks)
    ensures f in Join(LayerParts(cells, z, ks), ks) <==>
      f.pos.z == z && 0 <= f.pos.y < ChunkSize && 0 <= f.pos.x < ChunkSize && f in cells(f.pos)
  {
    forall y, g | g in LayerParts(cells, z, ks)(y) ensures g.pos.y == y {
      RowMembers(cells, z, y, ks, g);
    }
    JoinMembers(LayerParts(cells, z, ks), 1, ks, f);
    InSpan(ks, f.pos.y);
    RowMembers(cells, z, f.pos.y, ks, f);
  }

  /** The faces of the chunk are the faces of its cells. */
  lemma ChunkMembers(cells: Vec3 -> seq<Face>, ks: seq<int>, f: Face)
    requires Local(cells) && IsSpan(ks)
    ensures f in Join(ChunkParts(cells, ks), ks) <==> InChunk(f.pos) && f in cells(f.pos)
  {
    forall z, g | g in ChunkParts(cells, ks)(z) ensures g.pos.z == z {
      LayerMembers(cells, z, ks, g);
    }
    JoinMembers(ChunkParts(cells, ks), 2, ks, f);
    InSpan(ks, f.pos.z);
    LayerMembers(cells, f.pos.z, ks, f);
  }

  /**
   * Build emits a face exactly for a non-Air block and a side whose neighbour cell is not
   * solid (Scripts/ChunkMesh.cs:100-113): hidden faces produce no quad.
   */
  lemma MeshFacesAreVisibleFaces(v: ChunkView, f: Face)
    ensures f in MeshFaces(v) <==> Visible(v, f)
  {
    MeshFacesMembers(v, f);
    if InChunk(f.pos) {
      CellFacesMembers(v, f.pos, f);
    }
  }

  lemma MeshFacesMembers(v: ChunkView, f: Face)
    ensures f in MeshFaces(v) <==> InChunk(f.pos) && f in Cells(v)(f.pos)
  {
    CellsLocal(v);
    SpanIsSpan();
    ChunkMembers(Cells(v), Span(), f);
  }

  /** A block with all six neighbours non-solid has six faces, one per side; one with all six solid has none. */
  lemma ExposedAndEnclosedBlocks(v: ChunkView, p: Vec3)
    requires InChunk(p)
    ensures BlockAt(v, p).blockType != Air && (forall s :: !NeighborIsSolid(v, p.Plus(SideStep(s)))) ==>
      CellFaces(v, p) == seq(6, k requires 0 <= k < 6 => Face(p, FaceOrder[k], BlockAt(v, p)))
    ensures (forall s :: NeighborIsSolid(v, p.Plus(SideStep(s)))) ==> CellFaces(v, p) == []
  {
  }

  // ----- Emission -----

  /** The result of an emission: the lists reached, and false when the source threw. */
  datatype Outcome<M> = Outcome(mesh: M, ok: bool)

  /** The faces emitted one after another, stopping at the first that throws. */
  function Emit<M>(emit: (M, Face) -> Outcome<M>, m: M, faces: seq<Face>): Outcome<M>
    decreases |faces|
  {
    if faces == [] then Outcome(m, true)
    else
      var o := emit(m, faces[0]);
      if !o.ok then o else Emit(emit, o.mesh, faces[1..])
  }

  /** Emitting s + t is emitting s, then, unless that threw, t. */
  lemma {:induction false} EmitConcat<M>(emit: (M, Face) -> Outcome<M>, m: M, s: seq<Face>, t: seq<Face>)
    ensures Emit(emit, m, s + t) ==
      var o := Emit(emit, m, s); if o.ok then Emit(emit, o.mesh, t) else o
    decreases |s|
  {
    if s == [] {
      assert s + t == t;
    } else {
      assert (s + t)[0] == s[0] && (s + t)[1..] == s[1..] + t;
      var o := emit(m, s[0]);
      if o.ok {
        EmitConcat(emit, o.mesh, s[1..], t);
      }
    }
  }

  /** One of Build's loops: `step` for each loop value of `ks` in turn, stopping at the first that throws. */
  function Loop<M>(step: (M, int) -> Outcome<M>, m: M, ks: seq<int>): Outcome<M>
    decreases |ks|
  {
    if ks == [] then Outcome(m, true)
    else
      var o := step(m, ks[0]);
      if o.ok then Loop(step, o.mesh, ks[1..]) else o
  }

  /** The x loop's step: the faces of cell (x, y, z). */
  function RowStep<M>(emit: (M, Face) -> Outcome<M>, cells: Vec3 -> seq<Face>, z: int, y: int): (M, int) -> Outcome<M>
  {
    (m, x) => Emit(emit, m, cells(Vec3(x, y, z)))
  }

  /** The y loop's step: a whole x loop. */
  function LayerStep<M>(emit: (M, Face) -> Outcome<M>, cells: Vec3 -> seq<Face>, z: int, ks: seq<int>): (M, int) -> Outcome<M>
  {
    (m, y) => Loop(RowStep(emit, cells, z, y), m, ks)
  }

  /** The z loop's step: a whole y loop. */
  function ChunkStep<M>(emit: (M, Face) -> Outcome<M>, cells: Vec3 -> seq<Face>, ks: seq<int>): (M, int) -> Outcome<M>
  {
    (m, z) => Loop(LayerStep(emit, cells, z, ks), m, ks)
  }

  /** A loop whose every step emits one part emits the parts joined. */
  lemma {:induction false} LoopIsEmit<M>(emit: (M, Face) -> Outcome<M>, step: (M, int) -> Outcome<M>, parts: int -> seq<Face>, m: M, ks: seq<int>)
    requires forall m', k {:trigger step(m', k)} :: step(m', k) == Emit(emit, m', parts(k))
    ensures Loop(step, m, ks) == Emit(emit, m, Join(parts, ks))
    decreases |ks|
  {
    if ks != [] {
      var k := ks[0];
      EmitConcat(emit, m, parts(k), Join(parts, ks[1..]));
      var o := Emit(emit, m, parts(k));
      assert step(m, k) == o;
      if o.ok {
        LoopIsEmit(emit, step, parts, o.mesh, ks[1..]);
      }
    }
  }

  lemma RowLoop<M>(emit: (M, Face) -> Outcome<M>, cells: Vec3 -> seq<Face>, z: int, y: int, ks: seq<int>, m: M)
    ensures Loop(RowStep(emit, cells, z, y), m, ks) == Emit(emit, m, Join(RowParts(cells, z, y), ks))
  {
    LoopIsEmit(emit, RowStep(emit, cells, z, y), RowParts(cells, z, y), m, ks);
  }

  lemma LayerLoop<M>(emit: (M, Face) -> Outcome<M>, cells: Vec3 -> seq<Face>, z: int, ks: seq<int>, m: M)
    ensures Loop(LayerStep(emit, cells, z, ks), m, ks) == Emit(emit, m, Join(LayerParts(cells, z, ks), ks))
  {
    forall m', y ensures LayerStep(emit, cells, z, ks)(m', y) == Emit(emit, m', LayerParts(cells, z, ks)(y)) {
      RowLoop(emit, cells, z, y, ks, m');
    }
    LoopIsEmit(emit, LayerStep(emit, cells, z, ks), LayerParts(cells, z, ks), m, ks);
  }

  /** Build's three nested loops emit the faces of the chunk in loop order. */
  lemma ChunkLoop<M>(emit: (M, Face) -> Outcome<M>, cells: Vec3 -> seq<Face>, ks: seq<int>, m: M)
    ensures Loop(ChunkStep(emit, cells, ks), m, ks) == Emit(emit, m, Join(ChunkParts(cells, ks), ks))
  {
    forall m', z ensures ChunkStep(emit, cells, ks)(m', z) == Emit(emit, m', ChunkParts(cells, ks)(z)) {
      LayerLoop(emit, cells, z, ks, m');
    }
    LoopIsEmit(emit, ChunkStep(emit, cells, ks), ChunkParts(cells, ks), m, ks);
  }

  /** The five lists of a ChunkMesh. */
  datatype MeshData = MeshData(vertices: seq<Vec3>, normals: seq<Vec3>, texCoords: seq<Atlas.UV>,
                               overlayTexCoords: seq<Atlas.UV>, indices: seq<int>)

  const EmptyMesh: MeshData := MeshData([], [], [], [], [])

  /** The corners of each face quad, offsets from the block position (Scripts/ChunkMesh.cs:215-220). */
  function FaceCorners(side: Side): (cs: seq<Vec3>)
    ensures |cs| == 4
  {
    match side
    case Front => [Vec3(0, 1, 1), Vec3(1, 1, 1), Vec3(1, 0, 1), Vec3(0, 0, 1)]
    case Back => [Vec3(1, 1, 0), Vec3(0, 1, 0), Vec3(0, 0, 0), Vec3(1, 0, 0)]
    case Top => [Vec3(0, 1, 0), Vec3(1, 1, 0), Vec3(1, 1, 1), Vec3(0, 1, 1)]
    case Bottom => [Vec3(0, 0, 1), Vec3(1, 0, 1), Vec3(1, 0, 0), Vec3(0, 0, 0)]
    case Right => [Vec3(1, 1, 1), Vec3(1, 1, 0), Vec3(1, 0, 0), Vec3(1, 0, 1)]
    case Left => [Vec3(0, 1, 0), Vec3(0, 1, 1), Vec3(0, 0, 1), Vec3(0, 0, 0)]
  }

  /** Vector3.forward, back, up, down, right and left: the normal BuildBlockSide gives each face. */
  function FaceNormal(side: Side): Vec3
  {
    match side
    case Front => Vec3(0, 0, 1)
    case Back => Vec3(0, 0, -1)
    case Top => Vec3(0, 1, 0)
    case Bottom => Vec3(0, -1, 0)
    case Right => Vec3(1, 0, 0)
    case Left => Vec3(-1, 0, 0)
  }

  /** The two triangles of a quad, as offsets into its four vertices (Scripts/ChunkMesh.cs:221). */
  const BlockSideIndices: seq<int> := [3, 1, 0, 3, 2, 1]

  /** A unit cube corner lies on the face of the cube that `d`, a unit axis step, points to. */
  predicate OnFaceToward(c: Vec3, d: Vec3)
  {
    0 <= c.x <= 1 && 0 <= c.y <= 1 && 0 <= c.z <= 1
    && (d.x != 0 ==> c.x == (if d.x > 0 then 1 else 0))
    && (d.y != 0 ==> c.y == (if d.y > 0 then 1 else 0))
    && (d.z != 0 ==> c.z == (if d.z > 0 then 1 else 0))
  }

  /**
   * The geometry matches the culling test: each quad is four distinct corners of the block's
   * unit cube on the face its normal points out of, and that normal is the step to the neighbour
   * cell BuildBlock looks at; the two triangles use all four corners.
   */
  lemma FaceGeometry(side: Side)
    ensures FaceNormal(side) == SideStep(side)
    ensures forall k :: 0 <= k < 4 ==> OnFaceToward(FaceCorners(side)[k], FaceNormal(side))
    ensures forall j, k :: 0 <= j < k < 4 ==> FaceCorners(side)[j] != FaceCorners(side)[k]
    ensures (set i | i in BlockSideIndices) == {0, 1, 2, 3}
  {
  }

  /**
   * ChunkMesh.GetBlockUVs (Scripts/ChunkMesh.cs:116-140): the tile of a block face; `None`
   * is the ArgumentException the source throws for any other type.
   */
  function GetBlockUVs(t: BlockType, side: Side): (r: Option<Atlas.TextureType>)
    ensures r.None? <==> t == Air || t == Water
    ensures t == Grass ==> r == Some(if side == Top then Atlas.GrassTop else if side == Bottom then Atlas.Dirt else Atlas.GrassSide)
  {
    match t
    case Grass =>
      if side == Top then Some(Atlas.GrassTop)
      else if side == Bottom then Some(Atlas.Dirt)
      else Some(Atlas.GrassSide)
    case Dirt => Some(Atlas.Dirt)
    case Stone => Some(Atlas.Stone)
    case Bedrock => Some(Atlas.Bedrock)
    case Redstone => Some(Atlas.Redstone)
    case Diamond => Some(Atlas.Diamond)
    case _ => None
  }

  /** Apart from Grass, a block shows one tile on every side, and distinct types show distinct tiles. */
  lemma BlockTilesDistinct(t: BlockType, u: BlockType, s: Side, s': Side)
    requires t != Grass && u != Grass && GetBlockUVs(t, s).Some?
    ensures GetBlockUVs(t, s) == GetBlockUVs(t, s')
    ensures GetBlockUVs(t, s) == GetBlockUVs(u, s') <==> t == u
  {
  }

  /** ChunkMesh.GetOverlayUVs (Scripts/ChunkMesh.cs:142-159): `None` for an overlay outside None..Crack4. */
  function GetOverlayUVs(o: Overlay): (r: Option<Atlas.TextureType>)
    ensures r.Some? <==> OverlayNone <= o <= Crack4
    ensures r.Some? ==> r.value == [Atlas.Crack0, Atlas.Crack1, Atlas.Crack2, Atlas.Crack3, Atlas.Crack4][o]
  {
    if o == OverlayNone then Some(Atlas.Crack0)
    else if o == Blocks.Crack1 then Some(Atlas.Crack1)
    else if o == Blocks.Crack2 then Some(Atlas.Crack2)
    else if o == Blocks.Crack3 then Some(Atlas.Crack3)
    else if o == Blocks.Crack4 then Some(Atlas.Crack4)
    else None
  }

  /** The four texture coordinates BuildBlockSide takes from a tile: corners 3, 2, 0, 1. */
  function TileUVs(t: Atlas.TextureType): seq<Atlas.UV>
  {
    [Atlas.UV(t, 3), Atlas.UV(t, 2), Atlas.UV(t, 0), Atlas.UV(t, 1)]
  }

  function Translated(cs: seq<Vec3>, p: Vec3): (r: seq<Vec3>)
    ensures |r| == |cs| && forall k :: 0 <= k < |cs| ==> r[k] == p.Plus(cs[k])
  {
    seq(|cs|, k requires 0 <= k < |cs| => p.Plus(cs[k]))
  }

  function Shifted(s: seq<int>, base: int): (r: seq<int>)
    ensures |r| == |s| && forall k :: 0 <= k < |s| ==> r[k] == base + s[k]
  {
    seq(|s|, k requires 0 <= k < |s| => base + s[k])
  }

  /** AddFaceVertices on the lists: the corners moved to the block, one normal each, and the quad's two triangles. */
  function AddQuad(m: MeshData, corners: seq<Vec3>, normal: Vec3, blockPos: Vec3): MeshData
  {
    m.(vertices := m.vertices + Translated(corners, blockPos),
       normals := m.normals + seq(|corners|, _ => normal),
       indices := m.indices + Shifted(BlockSideIndices, |m.vertices|))
  }

  /**
   * BuildBlockSide (Scripts/ChunkMesh.cs:161-213) for one face: AddFaceVertices appends the
   * quad, then the block tile and the overlay tile are looked up, each of which can throw.
   */
  function EmitFace(m: MeshData, f: Face): Outcome<MeshData>
  {
    var m1 := AddQuad(m, FaceCorners(f.side), FaceNormal(f.side), f.pos);
    match GetBlockUVs(f.block.blockType, f.side)
    case None => Outcome(m1, false)
    case Some(t) =>
      var m2 := m1.(texCoords := m1.texCoords + TileUVs(t));
      match GetOverlayUVs(f.block.overlay)
      case None => Outcome(m2, false)
      case Some(o) => Outcome(m2.(overlayTexCoords := m2.overlayTexCoords + TileUVs(o)), true)
  }

  /** The face can be emitted without an exception. */
  predicate Textured(f: Face)
  {
    GetBlockUVs(f.block.blockType, f.side).Some? && GetOverlayUVs(f.block.overlay).Some?
  }

  /**
   * The list shape every successful build leaves: one normal and two texture coordinates per
   * vertex, four vertices and six indices per quad, every index naming an existing vertex.
   */
  predicate Balanced(m: MeshData)
  {
    |m.normals| == |m.vertices| && |m.texCoords| == |m.vertices| && |m.overlayTexCoords| == |m.vertices|
    && |m.vertices| % 4 == 0 && |m.indices| == |m.vertices| / 4 * 6
    && forall i :: 0 <= i < |m.indices| ==> 0 <= m.indices[i] < |m.vertices|
  }

  /** Every list only grows: the new mesh starts with the old one. */
  predicate Extends(r: MeshData, m: MeshData)
  {
    |m.vertices| <= |r.vertices| && r.vertices[..|m.vertices|] == m.vertices
    && |m.normals| <= |r.normals| && r.normals[..|m.normals|] == m.normals
    && |m.texCoords| <= |r.texCoords| && r.texCoords[..|m.texCoords|] == m.texCoords
    && |m.overlayTexCoords| <= |r.overlayTexCoords| && r.overlayTexCoords[..|m.overlayTexCoords|] == m.overlayTexCoords
    && |m.indices| <= |r.indices| && r.indices[..|m.indices|] == m.indices
  }

  /** One textured face adds 4 vertices, 4 normals, 4 + 4 texture coordinates and the indices base + [3, 1, 0, 3, 2, 1]. */
  lemma EmitFaceShape(m: MeshData, f: Face)
    requires Balanced(m)
    ensures EmitFace(m, f).ok <==> Textured(f)
    ensures Textured(f) ==> var r := EmitFace(m, f).mesh;
      Balanced(r) && Extends(r, m) && |r.vertices| == |m.vertices| + 4 && |r.indices| == |m.indices| + 6
      && r.indices[|m.indices|..] == [|m.vertices| + 3, |m.vertices| + 1, |m.vertices|, |m.vertices| + 3, |m.vertices| + 2, |m.vertices| + 1]
  {
    if Textured(f) {
      var r := EmitFace(m, f).mesh;
      forall i | 0 <= i < |r.indices| ensures 0 <= r.indices[i] < |r.vertices| {
        if i >= |m.indices| {
          assert r.indices[i] == |m.vertices| + BlockSideIndices[i - |m.indices|];
        }
      }
    }
  }

  /**
   * Emitting F faces onto a balanced mesh succeeds exactly when every face is textured, and
   * then appends 4F vertices and 6F indices and keeps the mesh balanced.
   */
  lemma {:induction false} EmitShape(m: MeshData, faces: seq<Face>)
    requires Balanced(m)
    ensures Emit(EmitFace, m, faces).ok <==> forall k :: 0 <= k < |faces| ==> Textured(faces[k])
    ensures Emit(EmitFace, m, faces).ok ==> var r := Emit(EmitFace, m, faces).mesh;
      Balanced(r) && Extends(r, m) && |r.vertices| == |m.vertices| + 4 * |faces| && |r.indices| == |m.indices| + 6 * |faces|
    decreases |faces|
  {
    if faces != [] {
      EmitFaceShape(m, faces[0]);
      if Textured(faces[0]) {
        var m1 := EmitFace(m, faces[0]).mesh;
        EmitShape(m1, faces[1..]);
        assert forall k :: 1 <= k < |faces| ==> faces[k] == faces[1..][k - 1];
        if Emit(EmitFace, m, faces).ok {
          var r := Emit(EmitFace, m, faces).mesh;
          assert r.vertices[..|m.vertices|] == r.vertices[..|m1.vertices|][..|m.vertices|];
          assert r.normals[..|m.normals|] == r.normals[..|m1.normals|][..|m.normals|];
          assert r.texCoords[..|m.texCoords|] == r.texCoords[..|m1.texCoords|][..|m.texCoords|];
          assert r.overlayTexCoords[..|m.overlayTexCoords|] == r.overlayTexCoords[..|m1.overlayTexCoords|][..|m.overlayTexCoords|];
          assert r.indices[..|m.indices|] == r.indices[..|m1.indices|][..|m.indices|];
        }
      }
    }
  }

  /** An exposed block yields 24 vertices and 36 indices, a fully enclosed one nothing. */
  lemma ExposedBlockMesh(v: ChunkView, p: Vec3, m: MeshData)
    requires InChunk(p) && Balanced(m) && BlockAt(v, p).blockType != Air
    requires forall s :: !NeighborIsSolid(v, p.Plus(SideStep(s)))
    requires forall s :: Textured(Face(p, s, BlockAt(v, p)))
    ensures Emit(EmitFace, m, CellFaces(v, p)).ok
    ensures |Emit(EmitFace, m, CellFaces(v, p)).mesh.vertices| == |m.vertices| + 24
    ensures |Emit(EmitFace, m, CellFaces(v, p)).mesh.indices| == |m.indices| + 36
  {
    ExposedAndEnclosedBlocks(v, p);
    EmitShape(m, CellFaces(v, p));
  }

  // ----- The builder -----

  /** ChunkMesh (Scripts/ChunkMesh.cs:7-21): the five lists, the chunk last built and the world it was made for. */
  class ChunkMesh {
    var vertices: seq<Vec3>
    var normals: seq<Vec3>
    var texCoords: seq<Atlas.UV>
    var overlayTexCoords: seq<Atlas.UV>
    var indices: seq<int>
    /** ChunkMesh.Chunk: null until Build. */
    var chunk: Chunk?
    /** The world the mesh was made for; the builder itself reads neighbours through `chunk.world`. */
    const world: WorldData
    /** The snapshot of `chunk` and its world that the last Build read. */
    ghost var view: ChunkView

    constructor (worldData: WorldData)
      ensures Data() == EmptyMesh && chunk == null && world == worldData
    {
      vertices, normals, texCoords, overlayTexCoords, indices := [], [], [], [], [];
      chunk := null;
      world := worldData;
    }

    function Data(): MeshData
      reads this
    {
      MeshData(vertices, normals, texCoords, overlayTexCoords, indices)
    }

    /**
     * ChunkMesh.Build (Scripts/ChunkMesh.cs:23-37): appends the faces of every cell, z outer
     * and x inner, to the lists, which it does not clear; `false` when a face threw.
     */
    method Build(chunk: Chunk) returns (ok: bool)
      modifies this
      ensures this.chunk == chunk
      ensures !chunk.IsPopulated() ==> !ok && Data() == old(Data())
      ensures chunk.IsPopulated() ==>
        view == ViewOf(chunk, chunk.world) && BuiltFrom(old(Data()), view, Data(), ok)
    {
      this.chunk := chunk;
      if !chunk.IsPopulated() {
        // the first BuildBlock reads the missing grid and throws
        return false;
      }
      view := ViewOf(chunk, chunk.world);
      ghost var start := Data();
      SpanIsSpan();
      ok := BuildLayers(Span(), view);
      ChunkLoop(EmitFace, Cells(view), Span(), start);
      BuiltFromIsMeshFaces(start, view, Data(), ok);
    }

    /** The z loop of Build; `ks` are the loop values 0..15. */
    method BuildLayers(ghost ks: seq<int>, ghost v: ChunkView) returns (ok: bool)
      requires chunk != null && chunk.IsPopulated() && v == ViewOf(chunk, chunk.world) && IsSpan(ks)
      modifies this
      ensures chunk == old(chunk) && view == old(view) && chunk.IsPopulated() && v == ViewOf(chunk, chunk.world)
      ensures Outcome(Data(), ok) == Loop(ChunkStep(EmitFace, Cells(v), ks), old(Data()), ks)
    {
      for z := 0 to ChunkSize
        invariant chunk == old(chunk) && view == old(view) && chunk.IsPopulated() && v == ViewOf(chunk, chunk.world)
        invariant Loop(ChunkStep(EmitFace, Cells(v), ks), old(Data()), ks) == Loop(ChunkStep(EmitFace, Cells(v), ks), Data(), ks[z..])
      {
        SpanFrom(ks, z);
        ok := BuildLayer(z, ks, v);
        if !ok {
          return;
        }
      }
      ok := true;
    }

    /** The y loop of Build over layer z. */
    method BuildLayer(z: int, ghost ks: seq<int>, ghost v: ChunkView) returns (ok: bool)
      requires chunk != null && chunk.IsPopulated() && v == ViewOf(chunk, chunk.world) && IsSpan(ks) && 0 <= z < ChunkSize
      modifies this
      ensures chunk == old(chunk) && view == old(view) && chunk.IsPopulated() && v == ViewOf(chunk, chunk.world)
      ensures Outcome(Data(), ok) == Loop(LayerStep(EmitFace, Cells(v), z, ks), old(Data()), ks)
    {
      for y := 0 to ChunkSize
        invariant chunk == old(chunk) && view == old(view) && chunk.IsPopulated() && v == ViewOf(chunk, chunk.world)
        invariant Loop(LayerStep(EmitFace, Cells(v), z, ks), old(Data()), ks) == Loop(LayerStep(EmitFace, Cells(v), z, ks), Data(), ks[y..])
      {
        SpanFrom(ks, y);
        ok := BuildRow(z, y, ks, v);
        if !ok {
          return;
        }
      }
      ok := true;
    }

    /** The x loop of Build over row (y, z). */
    method BuildRow(z: int, y: int, ghost ks: seq<int>, ghost v: ChunkView) returns (ok: bool)
      requires chunk != null && chunk.IsPopulated() && v == ViewOf(chunk, chunk.world) && IsSpan(ks)
      requires 0 <= z < ChunkSize && 0 <= y < ChunkSize
      modifies this
      ensures chunk == old(chunk) && view == old(view) && chunk.IsPopulated() && v == ViewOf(chunk, chunk.world)
      ensures Outcome(Data(), ok) == Loop(RowStep(EmitFace, Cells(v), z, y), old(Data()), ks)
    {
      for x := 0 to ChunkSize
        invariant chunk == old(chunk) && view == old(view) && chunk.IsPopulated() && v == ViewOf(chunk, chunk.world)
        invariant Loop(RowStep(EmitFace, Cells(v), z, y), old(Data()), ks) == Loop(RowStep(EmitFace, Cells(v), z, y), Data(), ks[x..])
      {
        SpanFrom(ks, x);
        ok := BuildBlock(x, y, z, v);
        if !ok {
          return;
        }
      }
      ok := true;
    }

    /** ChunkMesh.BuildBlock (Scripts/ChunkMesh.cs:98-114): Air emits nothing; otherwise the six faces in turn. */
    method BuildBlock(x: int, y: int, z: int, ghost v: ChunkView) returns (ok: bool)
      requires chunk != null && chunk.IsPopulated() && v == ViewOf(chunk, chunk.world) && BlockPosIsInChunk(x, y, z)
      modifies this
      ensures chunk == old(chunk) && view == old(view) && chunk.IsPopulated() && v == ViewOf(chunk, chunk.world)
      ensures Outcome(Data(), ok) == Emit(EmitFace, old(Data()), Cells(v)(Vec3(x, y, z)))
    {
      if chunk.blocks[Idx(x, y, z)].blockType == Air {
        return true;
      }
      ghost var p := Vec3(x, y, z);
      EmitConcat(EmitFace, Data(), SideFaces(v, p, Front), ExposedFrom(v, p, 1));
      ok := BuildSideIfExposed(x, y, z, Front, v);
      if !ok {
        return;
      }
      EmitConcat(EmitFace, Data(), SideFaces(v, p, Back), ExposedFrom(v, p, 2));
      ok := BuildSideIfExposed(x, y, z, Back, v);
      if !ok {
        return;
      }
      EmitConcat(EmitFace, Data(), SideFaces(v, p, Top), ExposedFrom(v, p, 3));
      ok := BuildSideIfExposed(x, y, z, Top, v);
      if !ok {
        return;
      }
      EmitConcat(EmitFace, Data(), SideFaces(v, p, Bottom), ExposedFrom(v, p, 4));
      ok := BuildSideIfExposed(x, y, z, Bottom, v);
      if !ok {
        return;
      }
      EmitConcat(EmitFace, Data(), SideFaces(v, p, Right), ExposedFrom(v, p, 5));
      ok := BuildSideIfExposed(x, y, z, Right, v);
      if !ok {
        return;
      }
      EmitConcat(EmitFace, Data(), SideFaces(v, p, Left), ExposedFrom(v, p, 6));
      ok := BuildSideIfExposed(x, y, z, Left, v);
    }

    /** One test of BuildBlock: the face is built when BlockNeighborIsSolid is false for the cell behind it. */
    method BuildSideIfExposed(x: int, y: int, z: int, side: Side, ghost v: ChunkView) returns (ok: bool)
      requires chunk != null && chunk.IsPopulated() && v == ViewOf(chunk, chunk.world) && BlockPosIsInChunk(x, y, z)
      modifies this
      ensures chunk == old(chunk) && view == old(view) && chunk.IsPopulated() && v == ViewOf(chunk, chunk.world)
      ensures Outcome(Data(), ok) == Emit(EmitFace, old(Data()), SideFaces(v, Vec3(x, y, z), side))
    {
      var n := Vec3(x, y, z).Plus(SideStep(side));
      if !BlockNeighborIsSolid(chunk, n.x, n.y, n.z) {
        ok := BuildBlockSide(x, y, z, side, v);
      } else {
        ok := true;
      }
    }

    /** ChunkMesh.BuildBlockSide (Scripts/ChunkMesh.cs:175-213). */
    method BuildBlockSide(x: int, y: int, z: int, side: Side, ghost v: ChunkView) returns (ok: bool)
      requires chunk != null && chunk.IsPopulated() && v == ViewOf(chunk, chunk.world) && BlockPosIsInChunk(x, y, z)
      modifies this
      ensures chunk == old(chunk) && view == old(view) && chunk.IsPopulated() && v == ViewOf(chunk, chunk.world)
      ensures Outcome(Data(), ok) == EmitFace(old(Data()), Face(Vec3(x, y, z), side, chunk.blocks[Idx(x, y, z)]))
    {
      AddFaceVertices(FaceCorners(side), FaceNormal(side), Vec3(x, y, z));
      var block := chunk.blocks[Idx(x, y, z)];
      var blockUvs := GetBlockUVs(block.blockType, side);
      if blockUvs.None? {
        return false;
      }
      texCoords := texCoords + TileUVs(blockUvs.value);
      var overlayUvs := GetOverlayUVs(block.overlay);
      if overlayUvs.None? {
        return false;
      }
      overlayTexCoords := overlayTexCoords + TileUVs(overlayUvs.value);
      ok := true;
    }

    /** ChunkMesh.AddFaceVertices (Scripts/ChunkMesh.cs:161-173). */
    method AddFaceVertices(corners: seq<Vec3>, normal: Vec3, blockPos: Vec3)
      modifies this
      ensures chunk == old(chunk) && view == old(view) && Data() == AddQuad(old(Data()), corners, normal, blockPos)
    {
      var indexBase := |vertices|;
      for k := 0 to |corners|
        invariant chunk == old(chunk) && view == old(view) && texCoords == old(texCoords) && overlayTexCoords == old(overlayTexCoords)
        invariant indices == old(indices)
        invariant vertices == old(vertices) + Translated(corners[..k], blockPos)
        invariant normals == old(normals) + seq(k, _ => normal)
      {
        assert Translated(corners[..k + 1], blockPos) == Translated(corners[..k], blockPos) + [blockPos.Plus(corners[k])];
        vertices := vertices + [blockPos.Plus(corners[k])];
        normals := normals + [normal];
      }
      assert corners[..|corners|] == corners;
      for k := 0 to |BlockSideIndices|
        invariant chunk == old(chunk) && view == old(view) && texCoords == old(texCoords) && overlayTexCoords == old(overlayTexCoords)
        invariant vertices == old(vertices) + Translated(corners, blockPos)
        invariant normals == old(normals) + seq(|corners|, _ => normal)
        invariant indices == old(indices) + Shifted(BlockSideIndices[..k], indexBase)
      {
        assert Shifted(BlockSideIndices[..k + 1], indexBase) == Shifted(BlockSideIndices[..k], indexBase) + [indexBase + BlockSideIndices[k]];
        indices := indices + [indexBase + BlockSideIndices[k]];
      }
      assert BlockSideIndices[..|BlockSideIndices|] == BlockSideIndices;
    }
  }
}
