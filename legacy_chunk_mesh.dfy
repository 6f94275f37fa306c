/**
 * The older face-culling mesh builder of ChunkMesh.cs.
 *
 * It walks the cells in the same order and culls faces with the same neighbour test as the
 * Scripts/ChunkMesh.cs builder, so it emits the faces `ChunkMesh.MeshFaces` lists, but it reads
 * the neighbour chunks from the world it was constructed with, keeps four lists (no overlay
 * coordinates), places vertices at +-0.5 around the block centre and has tiles for Grass and
 * Dirt only.  Positions are doubled so that they stay integers: a stored vertex is twice the
 * source's.  For any other block type GetBlockUVs returns null and BuildBlockSide dereferences
 * it after the quad was appended; the model returns `false` with that partial mesh.
 */
module LegacyChunkMesh {

  import opened Blocks
  import opened Util
  import opened Chunks
  import M = ChunkMesh
  import Atlas = TextureAtlas

  /** The four lists of the older ChunkMesh (ChunkMesh.cs:9-12); vertices are doubled. */
  datatype MeshData = MeshData(vertices: seq<Vec3>, normals: seq<Vec3>, texCoords: seq<Atlas.UV>, indices: seq<int>)

  const EmptyMesh: MeshData := MeshData([], [], [], [])

  function Double(p: Vec3): Vec3
  {
    Vec3(2 * p.x, 2 * p.y, 2 * p.z)
  }

  /** Twice the corner offsets of ChunkMesh.cs:178-183. */
  function FaceCorners(side: Side): (cs: seq<Vec3>)
    ensures |cs| == 4
  {
    match side
    case Front => [Vec3(-1, 1, 1), Vec3(1, 1, 1), Vec3(1, -1, 1), Vec3(-1, -1, 1)]
    case Back => [Vec3(1, 1, -1), Vec3(-1, 1, -1), Vec3(-1, -1, -1), Vec3(1, -1, -1)]
    case Top => [Vec3(-1, 1, -1), Vec3(1, 1, -1), Vec3(1, 1, 1), Vec3(-1, 1, 1)]
    case Bottom => [Vec3(-1, -1, 1), Vec3(1, -1, 1), Vec3(1, -1, -1), Vec3(-1, -1, -1)]
    case Right => [Vec3(1, 1, 1), Vec3(1, 1, -1), Vec3(1, -1, -1), Vec3(1, -1, 1)]
    case Left => [Vec3(-1, 1, -1), Vec3(-1, 1, 1), Vec3(-1, -1, 1), Vec3(-1, -1, -1)]
  }

  /**
   * The two builders draw the same quads half a block apart: each older corner is the newer
   * corner of the same side and rank, moved by (-0.5, -0.5, -0.5), and the normals agree.
   */
  lemma CornersAreCentredNewerCorners(side: Side)
    ensures forall k :: 0 <= k < 4 ==> FaceCorners(side)[k] == Double(M.FaceCorners(side)[k]).Minus(One)
  {
  }

  /**
   * ChunkMesh.GetBlockUVs (ChunkMesh.cs:108-128): tiles for Grass and Dirt only, the same ones
   * the newer builder picks; `None` is the null the source returns for every other type.
   */
  function GetBlockUVs(t: BlockType, side: Side): (r: Option<Atlas.TextureType>)
    ensures r.Some? <==> t == Grass || t == Dirt
    ensures r.Some? ==> r == M.GetBlockUVs(t, side)
  {
    match t
    case Grass =>
      if side == Top then Some(Atlas.GrassTop)
      else if side == Bottom then Some(Atlas.Dirt)
      else Some(Atlas.GrassSide)
    case Dirt => Some(Atlas.Dirt)
    case _ => None
  }

  /** AddFaceVertices (ChunkMesh.cs:130-142) on the lists, with the block position doubled too. */
  function AddQuad(m: MeshData, corners: seq<Vec3>, normal: Vec3, blockPos: Vec3): MeshData
  {
    m.(vertices := m.vertices + M.Translated(corners, Double(blockPos)),
       normals := m.normals + seq(|corners|, _ => normal),
       indices := m.indices + M.Shifted(M.BlockSideIndices, |m.vertices|))
  }

  /**
   * BuildBlockSide (ChunkMesh.cs:144-176) for one face: the quad is appended, then the tile is
   * looked up; a missing tile throws on the first texture coordinate.
   */
  function EmitFace(m: MeshData, f: M.Face): M.Outcome<MeshData>
  {
    var m1 := AddQuad(m, FaceCorners(f.side), M.FaceNormal(f.side), f.pos);
    match GetBlockUVs(f.block.blockType, f.side)
    case None => M.Outcome(m1, false)
    case Some(t) => M.Outcome(m1.(texCoords := m1.texCoords + M.TileUVs(t)), true)
  }

  /** The face can be emitted without an exception. */
  predicate Textured(f: M.Face)
  {
    f.block.blockType == Grass || f.block.blockType == Dirt
  }

  /** One normal and one texture coordinate per vertex, four vertices and six indices per quad, every index naming a vertex. */
  predicate Balanced(m: MeshData)
  {
    |m.normals| == |m.vertices| && |m.texCoords| == |m.vertices|
    && |m.vertices| % 4 == 0 && |m.indices| == |m.vertices| / 4 * 6
    && forall i :: 0 <= i < |m.indices| ==> 0 <= m.indices[i] < |m.vertices|
  }

  /** Every list only grows: the new mesh starts with the old one. */
  predicate Extends(r: MeshData, m: MeshData)
  {
    |m.vertices| <= |r.vertices| && r.vertices[..|m.vertices|] == m.vertices
    && |m.normals| <= |r.normals| && r.normals[..|m.normals|] == m.normals
    && |m.texCoords| <= |r.texCoords| && r.texCoords[..|m.texCoords|] == m.texCoords
    && |m.indices| <= |r.indices| && r.indices[..|m.indices|] == m.indices
  }

  /**
   * One face adds 4 vertices, 4 normals and the indices base + [3, 1, 0, 3, 2, 1] whether or
   * not it is textured; it succeeds, and adds its 4 texture coordinates, exactly for Grass and Dirt.
   */
  lemma EmitFaceShape(m: MeshData, f: M.Face)
    requires Balanced(m)
    ensures EmitFace(m, f).ok <==> Textured(f)
    ensures var r := EmitFace(m, f).mesh;
      Extends(r, m) && |r.vertices| == |m.vertices| + 4 && |r.normals| == |m.normals| + 4 && |r.indices| == |m.indices| + 6
      && r.indices[|m.indices|..] == [|m.vertices| + 3, |m.vertices| + 1, |m.vertices|, |m.vertices| + 3, |m.vertices| + 2, |m.vertices| + 1]
      && (Textured(f) <==> Balanced(r))
  {
    var r := EmitFace(m, f).mesh;
    forall i | 0 <= i < |r.indices| ensures 0 <= r.indices[i] < |r.vertices| {
      if i >= |m.indices| {
        assert r.indices[i] == |m.vertices| + M.BlockSideIndices[i - |m.indices|];
      }
    }
    if !Textured(f) {
      assert |r.texCoords| == |m.texCoords|;
    }
  }

  /**
   * Emitting F faces onto a balanced mesh succeeds exactly when every face is Grass or Dirt,
   * and then appends 4F vertices and 6F indices and keeps the mesh balanced.
   */
  lemma {:induction false} EmitShape(m: MeshData, faces: seq<M.Face>)
    requires Balanced(m)
    ensures M.Emit(EmitFace, m, faces).ok <==> forall k :: 0 <= k < |faces| ==> Textured(faces[k])
    ensures M.Emit(EmitFace, m, faces).ok ==> var r := M.Emit(EmitFace, m, faces).mesh;
      Balanced(r) && Extends(r, m) && |r.vertices| == |m.vertices| + 4 * |faces| && |r.indices| == |m.indices| + 6 * |faces|
    decreases |faces|
  {
    if faces != [] {
      EmitFaceShape(m, faces[0]);
      if Textured(faces[0]) {
        var m1 := EmitFace(m, faces[0]).mesh;
        EmitShape(m1, faces[1..]);
        assert forall k :: 1 <= k < |faces| ==> faces[k] == faces[1..][k - 1];
        if M.Emit(EmitFace, m, faces).ok {
          var r := M.Emit(EmitFace, m, faces).mesh;
          assert r.vertices[..|m.vertices|] == r.vertices[..|m1.vertices|][..|m.vertices|];
          assert r.normals[..|m.normals|] == r.normals[..|m1.normals|][..|m.normals|];
          assert r.texCoords[..|m.texCoords|] == r.texCoords[..|m1.texCoords|][..|m.texCoords|];
          assert r.indices[..|m.indices|] == r.indices[..|m1.indices|][..|m.indices|];
        }
      }
    }
  }

  /**
   * A visible face of a block other than Grass or Dirt makes the older build throw: the
   * build of a chunk succeeds exactly when every visible face is Grass or Dirt.
   */
  lemma BuildSucceedsOnlyOnGrassAndDirt(v: M.ChunkView, m: MeshData)
    requires Balanced(m)
    ensures M.Emit(EmitFace, m, M.MeshFaces(v)).ok <==> forall f :: M.Visible(v, f) ==> Textured(f)
  {
    var faces := M.MeshFaces(v);
    EmitShape(m, faces);
    forall f | M.Visible(v, f) && (forall k :: 0 <= k < |faces| ==> Textured(faces[k])) ensures Textured(f) {
      M.MeshFacesAreVisibleFaces(v, f);
    }
    forall k | 0 <= k < |faces| && (forall f :: M.Visible(v, f) ==> Textured(f)) ensures Textured(faces[k]) {
      M.MeshFacesAreVisibleFaces(v, faces[k]);
    }
  }

  /** ChunkMesh (ChunkMesh.cs:7-20): the four lists, the chunk last built and the world whose map it reads. */
  class ChunkMesh {
    var vertices: seq<Vec3>
    var normals: seq<Vec3>
    var texCoords: seq<Atlas.UV>
    var indices: seq<int>
    /** ChunkMesh.Chunk: null until Build. */
    var chunk: Chunk?
    const world: WorldData

    constructor (worldData: WorldData)
      ensures Data() == EmptyMesh && chunk == null && world == worldData
    {
      vertices, normals, texCoords, indices := [], [], [], [];
      chunk := null;
      world := worldData;
    }

    function Data(): MeshData
      reads this
    {
      MeshData(vertices, normals, texCoords, indices)
    }

    /** A chunk is being built and it is populated. */
    ghost predicate Ready()
      reads this, chunk
    {
      chunk != null && chunk.IsPopulated()
    }

    /** ChunkMesh.GetNeighboringChunkForBlock (ChunkMesh.cs:48-56): a lookup in this mesh's world map. */
    function GetNeighboringChunkForBlock(x: int, y: int, z: int): (r: Option<Chunk>)
      requires chunk != null
      reads this, chunk, world
      ensures r.Some? <==> chunk.chunkPos.Plus(NeighborChunkOffset(x, y, z)) in world.chunks
      ensures r.Some? ==> r.value == world.chunks[chunk.chunkPos.Plus(NeighborChunkOffset(x, y, z))]
    {
      var key := chunk.chunkPos.Plus(Vec3(GetNeighborChunkOffset(x), GetNeighborChunkOffset(y), GetNeighborChunkOffset(z)));
      if key in world.chunks then Some(world.chunks[key]) else None
    }

    /**
     * ChunkMesh.BlockNeighborIsSolid (ChunkMesh.cs:74-88): the same test as the newer builder,
     * with the neighbours taken from this mesh's world.
     */
    function BlockNeighborIsSolid(x: int, y: int, z: int): (r: bool)
      requires Ready()
      reads this, chunk, chunk.blocks, world, world.chunks.Values, M.Grids(world)
      ensures r == M.NeighborIsSolid(M.ViewOf(chunk, world), Vec3(x, y, z))
    {
      if (x < 0 || x >= ChunkSize) || (y < 0 || y >= ChunkSize) || (z < 0 || z >= ChunkSize) then
        match GetNeighboringChunkForBlock(x, y, z)
        case Some(neighbor) =>
          neighbor.IsPopulated()
          && IsSolid(neighbor.blocks[Idx(GetNeighborBlockIndex(x), GetNeighborBlockIndex(y), GetNeighborBlockIndex(z))])
        case None => false
      else
        IsSolid(chunk.blocks[Idx(x, y, z)])
    }

    /**
     * ChunkMesh.Build (ChunkMesh.cs:22-36): appends the faces of every cell, z outer and x
     * inner, without clearing the lists; `false` when a face threw.
     */
    method Build(chunk: Chunk) returns (ok: bool)
      modifies this
      ensures this.chunk == chunk
      ensures !chunk.IsPopulated() ==> !ok && Data() == old(Data())
      ensures chunk.IsPopulated() ==>
        M.Outcome(Data(), ok) == M.Emit(EmitFace, old(Data()), M.MeshFaces(M.ViewOf(chunk, world)))
    {
      this.chunk := chunk;
      if !chunk.IsPopulated() {
        // the first BuildBlock reads the missing grid and throws
        return false;
      }
      ghost var v := M.ViewOf(chunk, world);
      ghost var start := Data();
      M.SpanIsSpan();
      ok := BuildLayers(M.Span(), v);
      M.ChunkLoop(EmitFace, M.Cells(v), M.Span(), start);
    }

    /** The z loop of Build; `ks` are the loop values 0..15. */
    method BuildLayers(ghost ks: seq<int>, ghost v: M.ChunkView) returns (ok: bool)
      requires Ready() && v == M.ViewOf(chunk, world) && M.IsSpan(ks)
      modifies this
      ensures chunk == old(chunk) && Ready() && v == M.ViewOf(chunk, world)
      ensures M.Outcome(Data(), ok) == M.Loop(M.ChunkStep(EmitFace, M.Cells(v), ks), old(Data()), ks)
    {
      for z := 0 to ChunkSize
        invariant chunk == old(chunk) && Ready() && v == M.ViewOf(chunk, world)
        invariant M.Loop(M.ChunkStep(EmitFace, M.Cells(v), ks), old(Data()), ks) == M.Loop(M.ChunkStep(EmitFace, M.Cells(v), ks), Data(), ks[z..])
      {
        M.SpanFrom(ks, z);
        ok := BuildLayer(z, ks, v);
        if !ok {
          return;
        }
      }
      ok := true;
    }

    /** The y loop of Build over layer z. */
    method BuildLayer(z: int, ghost ks: seq<int>, ghost v: M.ChunkView) returns (ok: bool)
      requires Ready() && v == M.ViewOf(chunk, world) && M.IsSpan(ks) && 0 <= z < ChunkSize
      modifies this
      ensures chunk == old(chunk) && Ready() && v == M.ViewOf(chunk, world)
      ensures M.Outcome(Data(), ok) == M.Loop(M.LayerStep(EmitFace, M.Cells(v), z, ks), old(Data()), ks)
    {
      for y := 0 to ChunkSize
        invariant chunk == old(chunk) && Ready() && v == M.ViewOf(chunk, world)
        invariant M.Loop(M.LayerStep(EmitFace, M.Cells(v), z, ks), old(Data()), ks) == M.Loop(M.LayerStep(EmitFace, M.Cells(v), z, ks), Data(), ks[y..])
      {
        M.SpanFrom(ks, y);
        ok := BuildRow(z, y, ks, v);
        if !ok {
          return;
        }
      }
      ok := true;
    }

    /** The x loop of Build over row (y, z). */
    method BuildRow(z: int, y: int, ghost ks: seq<int>, ghost v: M.ChunkView) returns (ok: bool)
      requires Ready() && v == M.ViewOf(chunk, world) && M.IsSpan(ks)
      requires 0 <= z < ChunkSize && 0 <= y < ChunkSize
      modifies this
      ensures chunk == old(chunk) && Ready() && v == M.ViewOf(chunk, world)
      ensures M.Outcome(Data(), ok) == M.Loop(M.RowStep(EmitFace, M.Cells(v), z, y), old(Data()), ks)
    {
      for x := 0 to ChunkSize
        invariant chunk == old(chunk) && Ready() && v == M.ViewOf(chunk, world)
        invariant M.Loop(M.RowStep(EmitFace, M.Cells(v), z, y), old(Data()), ks) == M.Loop(M.RowStep(EmitFace, M.Cells(v), z, y), Data(), ks[x..])
      {
        M.SpanFrom(ks, x);
        ok := BuildBlock(x, y, z, v);
        if !ok {
          return;
        }
      }
      ok := true;
    }

    /** ChunkMesh.BuildBlock (ChunkMesh.cs:90-106): Air emits nothing; otherwise the six faces in turn. */
    method BuildBlock(x: int, y: int, z: int, ghost v: M.ChunkView) returns (ok: bool)
      requires Ready() && v == M.ViewOf(chunk, world) && BlockPosIsInChunk(x, y, z)
      modifies this
      ensures chunk == old(chunk) && Ready() && v == M.ViewOf(chunk, world)
      ensures M.Outcome(Data(), ok) == M.Emit(EmitFace, old(Data()), M.Cells(v)(Vec3(x, y, z)))
    {
      if chunk.blocks[Idx(x, y, z)].blockType == Air {
        return true;
      }
      ghost var p := Vec3(x, y, z);
      M.EmitConcat(EmitFace, Data(), M.SideFaces(v, p, Front), M.ExposedFrom(v, p, 1));
      ok := BuildSideIfExposed(x, y, z, Front, v);
      if !ok {
        return;
      }
      M.EmitConcat(EmitFace, Data(), M.SideFaces(v, p, Back), M.ExposedFrom(v, p, 2));
      ok := BuildSideIfExposed(x, y, z, Back, v);
      if !ok {
        return;
      }
      M.EmitConcat(EmitFace, Data(), M.SideFaces(v, p, Top), M.ExposedFrom(v, p, 3));
      ok := BuildSideIfExposed(x, y, z, Top, v);
      if !ok {
        return;
      }
      M.EmitConcat(EmitFace, Data(), M.SideFaces(v, p, Bottom), M.ExposedFrom(v, p, 4));
      ok := BuildSideIfExposed(x, y, z, Bottom, v);
      if !ok {
        return;
      }
      M.EmitConcat(EmitFace, Data(), M.SideFaces(v, p, Right), M.ExposedFrom(v, p, 5));
      ok := BuildSideIfExposed(x, y, z, Right, v);
      if !ok {
        return;
      }
      M.EmitConcat(EmitFace, Data(), M.SideFaces(v, p, Left), M.ExposedFrom(v, p, 6));
      ok := BuildSideIfExposed(x, y, z, Left, v);
    }

    /** One test of BuildBlock: the face is built when BlockNeighborIsSolid is false for the cell behind it. */
    method BuildSideIfExposed(x: int, y: int, z: int, side: Side, ghost v: M.ChunkView) returns (ok: bool)
      requires Ready() && v == M.ViewOf(chunk, world) && BlockPosIsInChunk(x, y, z)
      modifies this
      ensures chunk == old(chunk) && Ready() && v == M.ViewOf(chunk, world)
      ensures M.Outcome(Data(), ok) == M.Emit(EmitFace, old(Data()), M.SideFaces(v, Vec3(x, y, z), side))
    {
      var n := Vec3(x, y, z).Plus(SideStep(side));
      if !BlockNeighborIsSolid(n.x, n.y, n.z) {
        ok := BuildBlockSide(x, y, z, side, v);
      } else {
        ok := true;
      }
    }

    /** ChunkMesh.BuildBlockSide (ChunkMesh.cs:144-176). */
    method BuildBlockSide(x: int, y: int, z: int, side: Side, ghost v: M.ChunkView) returns (ok: bool)
      requires Ready() && v == M.ViewOf(chunk, world) && BlockPosIsInChunk(x, y, z)
      modifies this
      ensures chunk == old(chunk) && Ready() && v == M.ViewOf(chunk, world)
      ensures M.Outcome(Data(), ok) == EmitFace(old(Data()), M.Face(Vec3(x, y, z), side, chunk.blocks[Idx(x, y, z)]))
    {
      AddFaceVertices(FaceCorners(side), M.FaceNormal(side), Vec3(x, y, z));
      var blockUvs := GetBlockUVs(chunk.blocks[Idx(x, y, z)].blockType, side);
      if blockUvs.None? {
        return false;
      }
      texCoords := texCoords + M.TileUVs(blockUvs.value);
      ok := true;
    }

    /** ChunkMesh.AddFaceVertices (ChunkMesh.cs:130-142). */
    method AddFaceVertices(corners: seq<Vec3>, normal: Vec3, blockPos: Vec3)
      modifies this
      ensures chunk == old(chunk) && Data() == AddQuad(old(Data()), corners, normal, blockPos)
    {
      var indexBase := |vertices|;
      var base := Double(blockPos);
      for k := 0 to |corners|
        invariant chunk == old(chunk) && texCoords == old(texCoords) && indices == old(indices)
        invariant vertices == old(vertices) + M.Translated(corners[..k], base)
        invariant normals == old(normals) + seq(k, _ => normal)
      {
        assert M.Translated(corners[..k + 1], base) == M.Translated(corners[..k], base) + [base.Plus(corners[k])];
        vertices := vertices + [base.Plus(corners[k])];
        normals := normals + [normal];
      }
      assert corners[..|corners|] == corners;
      for k := 0 to |M.BlockSideIndices|
        invariant chunk == old(chunk) && texCoords == old(texCoords)
        invariant vertices == old(vertices) + M.Translated(corners, base)
        invariant normals == old(normals) + seq(|corners|, _ => normal)
        invariant indices == old(indices) + M.Shifted(M.BlockSideIndices[..k], indexBase)
      {
        assert M.Shifted(M.BlockSideIndices[..k + 1], indexBase) == M.Shifted(M.BlockSideIndices[..k], indexBase) + [indexBase + M.BlockSideIndices[k]];
        indices := indices + [indexBase + M.BlockSideIndices[k]];
      }
      assert M.BlockSideIndices[..|M.BlockSideIndices|] == M.BlockSideIndices;
    }
  }
}
