# MineQuest voxel world, modelled in Dafny

MineQuest is a Unity voxel game. Its world is a map of 16 x 16 x 16 block chunks around the
player. Chunks are generated from noise fields, kept in an LRU cache of 64 entries, written
to per-chunk files or to one region file, meshed face by face, and attached to the scene one
mesh per frame. The repository has two snapshots of this core: the newer one under `Scripts/`,
and an older one at the top level (`Block.cs`, `Chunk.cs`, `ChunkBuilder.cs`, `ChunkMesh.cs`,
`World.cs`, `LruCache.cs`, `ChunkManager.cs`).

The project has one Dafny module per source file or group of files:

- `Blocks`: block types, overlays, sides, `IsSolid`.
- `Util`: the grid layout and the neighbour-index helpers.
- `Chunks`: `WorldData`, `Chunk`, the binary stream and `ResolveBlock`.
- `Noise`: the noise and height fields, as inputs.
- `TextureAtlas`: the texture tags.
- `LruCache`: the cache, a dictionary of nodes plus a usage list.
- `ChunkBuilder` and `LegacyChunkBuilder`: terrain classification and the fill loops.
- `ChunkMesh` and `LegacyChunkMesh`: face culling and quad emission.
- `ChunkManager`: the persist, populate and build pipeline.
- `Database`: the region file.
- `WorldBuilder`: the region-file generator.
- `Interaction`: breaking and placing blocks.
- `World` and `LegacyWorld`: the two worlds around the player.

Objects whose fields the source updates in place are classes with `modifies` frames. Chunk
grids are `array<Block>`. Pure computations are functions, each with lemmas that relate it to
an independent description.

## Model

| member | source | states |
|---|---|---|
| Blocks.TypeCode | Scripts/Block.cs:5-8 | each type has a code in 0..7; only Air has code 0 |
| Blocks.TypeOfCode | Scripts/Block.cs:5-8 | a code stands for a type exactly when it lies in 0..7, and that type's code is the code |
| Blocks.TypeCodeRoundTrip | Scripts/Block.cs:5-8 | decoding the code of a type gives back that type |
| Blocks.CodeTypeRoundTrip | Scripts/Block.cs:5-8 | encoding the type of a code in 0..7 gives back that code |
| Blocks.NextOverlay | Scripts/Interaction.cs:55 | `overlay + 1` on a short: one more, except that 0x7fff wraps to -0x8000 |
| Blocks.EmptyBlockNotSolid | Scripts/Block.cs:20-26 | the zero block is Air with no overlay, so it is not solid and has code 0 |
| Util.Idx | Scripts/Chunk.cs:10 | every in-chunk position has a buffer index in [0, 4096) |
| Util.PosOf | Scripts/Chunk.cs:10 | every buffer index is the index of an in-chunk position |
| Util.IdxInjective | Scripts/Chunk.cs:10 | distinct in-chunk positions have distinct buffer indices |
| Util.DivModIdx | Scripts/Chunk.cs:10 | x, y and z can be read back from the index by division and remainder |
| Util.GetNeighborBlockIndex | Scripts/Util.cs:48-56 | below 0 gives 15, from 16 gives 0, otherwise the coordinate itself |
| Util.GetNeighborChunkOffset | Scripts/Util.cs:58-66 | -1 exactly below 0, 0 exactly inside 0..15, otherwise +1 |
| Util.BorderCrossingPreservesCoordinate | Scripts/Util.cs:48-66 | up to one block outside, offset * 16 + wrapped index is the coordinate |
| Util.FarCoordinateIsNotPreserved | Scripts/Util.cs:48-66 | further out, the wrapped address names a different block |
| Util.NeighborBlockPos | Scripts/Util.cs:23 | the wrapped position lies inside the chunk |
| Util.NeighborAddressIsSameWorldBlock | Scripts/Util.cs:7-35 | up to one block outside, neighbour chunk plus wrapped position is the same world block |
| Util.FaceNeighborMembership | Scripts/Chunk.cs:56-74 | a neighbour offset is marked exactly when the block lies on that chunk face |
| Util.InteriorBlockHasNoFaceNeighbors | Scripts/Chunk.cs:56-74 | a block away from every face marks no neighbour |
| Util.AxisTestsAreExclusive | Scripts/Chunk.cs:58-73 | the two tests along one axis mark at most one of its faces |
| Util.AtMostOneFaceNeighborPerAxis | Scripts/Chunk.cs:56-74 | at most three neighbours are marked, never both faces of one axis |
| Util.FaceOrderCoversSides | Scripts/ChunkMesh.cs:100-113 | BuildBlock's face order lists each side exactly once |
| Chunks.WorldData.constructor | Scripts/World.cs:7-15 | an empty chunk map and dirty set, with the given noise fields |
| Chunks.Chunk.constructor | Chunk.cs:22-25 | a chunk at its position, in its world, with no grid |
| Chunks.Chunk.Allocated | Scripts/Chunk.cs:29-33 | a chunk whose grid is allocated and all Air |
| Chunks.Chunk.Populate | Chunk.cs:27-34 | allocates an all-Air grid only when none exists, and reports whether it did |
| Chunks.Chunk.WriteBinary | Chunk.cs:36-52 | a populated chunk writes exactly EncodeTypes of its grid; an unpopulated one writes nothing and reports false |
| Chunks.Chunk.ReadBinary | Chunk.cs:54-68 | the chunk becomes populated and its grid becomes DecodeInto of the stream over the old grid |
| Chunks.ReadTypes | Chunk.cs:58-67 | in x, y, z order each block takes the type of the next stream cell until the stream ends; overlays and unread blocks stay (DecodeInto) |
| Chunks.Chunk.SetDirty | Scripts/Chunk.cs:76-82 | the dirty set gains or loses exactly this chunk |
| Chunks.Chunk.MarkNeighborsDirty | Scripts/Chunk.cs:56-74 | the dirty set gains exactly NeighborsToMark for the block |
| Chunks.Chunk.UpdateBlockType | Scripts/Chunk.cs:40-48 | one cell gets the type and no overlay; this chunk and exactly the face neighbours become dirty |
| Chunks.Chunk.UpdateBlockOverlay | Scripts/Chunk.cs:50-54 | only the overlay of one cell changes; only this chunk becomes dirty |
| Chunks.EncodeTypes | Chunk.cs:40-49 | one code per block, each a code in 0..7 |
| Chunks.DecodeInto | Chunk.cs:56-66 | the grid keeps its length and every overlay |
| Chunks.ReadOfWriteKeepsGrid | Chunk.cs:36-68 | reading a chunk's own stream back into it changes nothing |
| Chunks.ReadOfWriteRestoresTypes | Chunk.cs:36-68 | reading a stream into any grid of the same size restores every type it encodes |
| Chunks.WriteOfReadKeepsStream | Chunk.cs:36-68 | writing a chunk just read from a full stream reproduces the stream |
| Chunks.MarkedFacesAreNeighborsToMark | Scripts/Chunk.cs:56-74 | the six face tests together mark exactly NeighborsToMark |
| Chunks.InteriorEditMarksNoNeighbor | Scripts/Chunk.cs:56-74 | an edit away from every chunk face marks no neighbour |
| Chunks.LeftNeighborMarkedExactlyOnLeftFace | Scripts/Chunk.cs:60-61 | the left neighbour is marked exactly when the block lies on the -x face and that chunk is mapped |
| Chunks.GetNeighboringChunkForBlock | Scripts/Util.cs:37-45 | the looked-up chunk is the one mapped at the offset position, if any |
| Chunks.ResolveBlock | Scripts/Util.cs:7-35 | an in-chunk position resolves to itself; another one resolves into the mapped neighbour with wrapped indices, otherwise fails |
| Chunks.ResolveBlockKeepsWorldBlock | Scripts/Util.cs:7-35 | up to one block outside, the resolved cell is the same world block |
| LruCache.Find | LruCache.cs:31 | a position holding the key; none exactly when no entry holds it |
| LruCache.Lookup | LruCache.cs:58-62 | a key has a binding exactly when some entry holds it |
| LruCache.AddStaysWithinCapacity | LruCache.cs:28-52 | with capacity at least 1, Add never leaves more entries than the capacity |
| LruCache.AddUpdatesBinding | LruCache.cs:28-52 | after Add, the key is bound to the value, the evicted key is gone and every other binding is kept |
| LruCache.LookupDistinct | LruCache.cs:54-71 | with distinct keys, looking up the key at position i gives that entry's value |
| LruCache.AddEvictsTail | LruCache.cs:37-43 | a new key evicts exactly when the cache is full; the victim is the tail, and the new entry takes the tail position |
| LruCache.GetMovesToHead | LruCache.cs:54-71 | a hit moves its entry to the head and keeps every entry; a miss changes nothing |
| LruCache.OverflowEvictsLastFitting | LruCache.cs:37-43 | adding distinct new keys until one past capacity evicts only the capacity-th inserted entry |
| LruCache.OverflowFromEmpty | LruCache.cs:37-43 | filling an empty cache of capacity n with n + 1 distinct keys evicts the n-th |
| LruCache.Node.constructor | LruCache.cs:46 | a node carrying the given pair |
| LruCache.WithoutOnce | LruCache.cs:60 | removing a node that occurs once leaves the list around it |
| LruCache.MoveToFront | LruCache.cs:60-61 | moving an element to the front keeps the elements and their distinctness |
| LruCache.ValidStateFind | LruCache.cs:31 | a mapped key is listed at its node; an unmapped key is listed nowhere |
| LruCache.MoveToHeadKeepsState | LruCache.cs:60-61 | after the move the cache is still consistent, with the moved entry at the head and the same nodes |
| LruCache.LruCache.constructor | LruCache.cs:23-26 | an empty cache of the given capacity |
| LruCache.LruCache.Count | LruCache.cs:9-12 | the number of entries |
| LruCache.LruCache.IsEmpty | LruCache.cs:14 | true exactly when the count is 0 |
| LruCache.LruCache.Add | LruCache.cs:28-52 | the entries become AddEntries of the old entries, and the evicted pair is reported |
| LruCache.LruCache.Append | LruCache.cs:44-48 | with room left, the pair goes to the tail on a new node |
| LruCache.LruCache.Replace | LruCache.cs:31-34 | a known key's node gets the new pair where it stands |
| LruCache.LruCache.Evict | LruCache.cs:37-43 | the tail pair is evicted and its node reused for the new pair |
| LruCache.LruCache.TryGetValue | LruCache.cs:54-71 | the result is the key's binding; the entries become GetEntries of the old entries |
| LruCache.LruCache.MoveToHead | LruCache.cs:60-61 | the node at position i moves to the head; the rest keep their order |
| LruCache.LruCache.Clear | LruCache.cs:73-77 | the cache is left consistent and empty |
| ChunkBuilder.Carve | Scripts/ChunkBuilder.cs:57-58 | in a cave, every type except Water becomes Air |
| ChunkBuilder.DetermineBlockTypeAsWritten | Scripts/ChunkBuilder.cs:28-61 | the classifier as written: never Redstone; Bedrock at y = 0; below the stone height and outside caves, Diamond in the diamond band and Stone otherwise |
| ChunkBuilder.DetermineBlockType | Scripts/ChunkBuilder.cs:28-61 | the intended classifier, each type exactly characterised: Bedrock exactly at y = 0; below the stone height Diamond, else Redstone, else Stone; Grass, Dirt and Water above it; Air in caves |
| ChunkBuilder.AsWrittenLosesOnlyRedstone | Scripts/ChunkBuilder.cs:39-44 | the two classifiers differ exactly where the intended one yields Redstone, and the written one yields Stone there |
| ChunkBuilder.RedstoneLostAsWritten | Scripts/ChunkBuilder.cs:39-44 | at a deep cell in the redstone band only, the written classifier yields Stone and the intended one Redstone |
| ChunkBuilder.Retyped | Scripts/ChunkBuilder.cs:11-23 | a full grid in which every cell keeps its old overlay |
| ChunkBuilder.RetypedBlockType | Scripts/ChunkBuilder.cs:11-23 | every block of a retyped grid holds the classification of its own world position |
| ChunkBuilder.BottomLayerIsBedrock | Scripts/ChunkBuilder.cs:30-31 | a chunk of the bottom row is floored with Bedrock |
| ChunkBuilder.FillTypes | Scripts/ChunkBuilder.cs:13-23 | the grid becomes Retyped of the old grid under the given classifier |
| ChunkBuilder.FillLayer | Scripts/ChunkBuilder.cs:15-22 | the rows of one layer are retyped and every other cell is kept |
| ChunkBuilder.FillRow | Scripts/ChunkBuilder.cs:17-21 | the cells of one row are retyped and every other cell is kept |
| ChunkBuilder.Build | Scripts/ChunkBuilder.cs:9-24 | the chunk's grid becomes Retyped under the classifier as written |
| ChunkBuilder.BuildIntended | Scripts/ChunkBuilder.cs:9-24 | the same loop with the intended classifier |
| ChunkBuilder.BuildLosesOnlyRedstone | Scripts/ChunkBuilder.cs:9-44 | the two builds of one grid differ exactly where the intended build has Redstone |
| LegacyChunkBuilder.DetermineBlockType | ChunkBuilder.cs:26-53 | the older classifier, each type exactly characterised: Bedrock exactly at y = 0, Air in caves, Redstone before Diamond, Grass and Dirt layers, never Water |
| LegacyChunkBuilder.AgreesWithNewerOffWaterAndOreOverlap | ChunkBuilder.cs:26-53 | the older classifier agrees with the newer intended one away from flooded cells and ore overlaps |
| LegacyChunkBuilder.Build | ChunkBuilder.cs:9-24 | the chunk's grid becomes Retyped under the older classifier |
| LegacyChunkBuilder.LegacyGridHasNoWater | ChunkBuilder.cs:9-53 | a chunk built from a fresh grid holds only types of the older enum |
| ChunkMesh.BlockNeighborIsSolid | Scripts/ChunkMesh.cs:82-96 | the test equals NeighborIsSolid on the chunk's snapshot: an inside cell comes from the grid, an outside one from the wrapped cell of the mapped, populated neighbour, and is otherwise not solid |
| ChunkMesh.NeighborTestReadsSameWorldBlock | Scripts/ChunkMesh.cs:82-96 | one step outside, the resolved cell is the same world block, and the test is true exactly when that chunk is populated and the block solid |
| ChunkMesh.BuiltFromIsMeshFaces | Scripts/ChunkMesh.cs:23-37 | a build outcome is exactly the emission of MeshFaces of the snapshot |
| ChunkMesh.ChunkMembers | Scripts/ChunkMesh.cs:27-36 | the faces of the chunk are exactly the faces of its cells |
| ChunkMesh.MeshFacesAreVisibleFaces | Scripts/ChunkMesh.cs:100-113 | a face is emitted exactly for a non-Air block and a side whose neighbour cell is not solid |
| ChunkMesh.ExposedAndEnclosedBlocks | Scripts/ChunkMesh.cs:98-114 | a block with six non-solid neighbours has six faces, one per side; a fully enclosed one has none |
| ChunkMesh.EmitConcat | Scripts/ChunkMesh.cs:23-37 | emitting s + t is emitting s then, unless that threw, t |
| ChunkMesh.ChunkLoop | Scripts/ChunkMesh.cs:27-36 | the three nested loops emit the faces of the chunk in z, y, x order |
| ChunkMesh.FaceCorners | Scripts/ChunkMesh.cs:215-220 | four corner offsets per side; FaceGeometry places them on the block |
| ChunkMesh.FaceGeometry | Scripts/ChunkMesh.cs:175-221 | each quad has four distinct corners on the cube face its normal points out of; the normal is the step to the neighbour cell BuildBlock looks at; the two triangles use all four corners |
| ChunkMesh.GetBlockUVs | Scripts/ChunkMesh.cs:116-140 | a tile for every type except Air and Water, where the source throws; Grass shows GrassTop on top, Dirt below and GrassSide on the sides |
| ChunkMesh.BlockTilesDistinct | Scripts/ChunkMesh.cs:116-140 | apart from Grass, a block shows one tile on every side, and distinct types show distinct tiles |
| ChunkMesh.GetOverlayUVs | Scripts/ChunkMesh.cs:142-159 | a crack tile for None..Crack4, and none beyond |
| ChunkMesh.EmitFaceShape | Scripts/ChunkMesh.cs:161-213 | one textured face adds 4 vertices, 4 normals, 4 + 4 texture coordinates and indices base + [3, 1, 0, 3, 2, 1] |
| ChunkMesh.EmitShape | Scripts/ChunkMesh.cs:161-213 | F faces succeed exactly when all are textured, and then add 4F vertices and 6F indices and keep the mesh balanced |
| ChunkMesh.ExposedBlockMesh | Scripts/ChunkMesh.cs:98-114 | an exposed block yields 24 vertices and 36 indices; an enclosed one yields nothing |
| ChunkMesh.ChunkMesh.constructor | Scripts/ChunkMesh.cs:9-21 | empty lists for the given world |
| ChunkMesh.ChunkMesh.Build | Scripts/ChunkMesh.cs:23-37 | for a populated chunk, the lists become BuiltFrom of the old lists and the chunk's snapshot, false when a face threw; an unpopulated chunk changes nothing and fails |
| ChunkMesh.ChunkMesh.BuildLayers | Scripts/ChunkMesh.cs:27-36 | the z loop emits the layers in order |
| ChunkMesh.ChunkMesh.BuildLayer | Scripts/ChunkMesh.cs:29-35 | the y loop emits the rows of one layer in order |
| ChunkMesh.ChunkMesh.BuildRow | Scripts/ChunkMesh.cs:31-34 | the x loop emits the cells of one row in order |
| ChunkMesh.ChunkMesh.BuildBlock | Scripts/ChunkMesh.cs:98-114 | Air emits nothing; otherwise the exposed faces of the block, in face order |
| ChunkMesh.ChunkMesh.BuildSideIfExposed | Scripts/ChunkMesh.cs:100-113 | a face is emitted exactly when its neighbour cell is not solid |
| ChunkMesh.ChunkMesh.BuildBlockSide | Scripts/ChunkMesh.cs:175-213 | the lists become EmitFace of the old lists |
| ChunkMesh.ChunkMesh.AddFaceVertices | Scripts/ChunkMesh.cs:161-173 | the lists gain the quad's corners, normals and indices |
| LegacyChunkMesh.FaceCorners | ChunkMesh.cs:178-183 | four doubled corner offsets per side |
| LegacyChunkMesh.CornersAreCentredNewerCorners | ChunkMesh.cs:178-183 | each doubled older corner is twice the newer corner of the same side and rank, minus (1, 1, 1): the same quad moved by half a block |
| LegacyChunkMesh.GetBlockUVs | ChunkMesh.cs:108-128 | tiles for Grass and Dirt only, the same ones the newer builder picks; none for every other type |
| LegacyChunkMesh.EmitFaceShape | ChunkMesh.cs:130-176 | one face adds 4 vertices, 4 normals and 6 indices; it succeeds exactly for Grass and Dirt |
| LegacyChunkMesh.EmitShape | ChunkMesh.cs:130-176 | F faces succeed exactly when all are Grass or Dirt, adding 4F vertices and 6F indices |
| LegacyChunkMesh.BuildSucceedsOnlyOnGrassAndDirt | ChunkMesh.cs:22-36 | the build of a chunk succeeds exactly when every visible face belongs to Grass or Dirt |
| LegacyChunkMesh.ChunkMesh.constructor | ChunkMesh.cs:9-20 | empty lists for the given world |
| LegacyChunkMesh.ChunkMesh.GetNeighboringChunkForBlock | ChunkMesh.cs:48-56 | the chunk mapped at the offset position in this mesh's world, if any |
| LegacyChunkMesh.ChunkMesh.BlockNeighborIsSolid | ChunkMesh.cs:74-88 | the newer builder's neighbour test, over this mesh's world |
| LegacyChunkMesh.ChunkMesh.Build | ChunkMesh.cs:22-36 | for a populated chunk, the lists become the emission of its visible faces over the old lists, false when a face threw; an unpopulated chunk changes nothing and fails |
| LegacyChunkMesh.ChunkMesh.BuildLayers | ChunkMesh.cs:26-35 | the z loop emits the layers in order |
| LegacyChunkMesh.ChunkMesh.BuildLayer | ChunkMesh.cs:28-34 | the y loop emits the rows of one layer in order |
| LegacyChunkMesh.ChunkMesh.BuildRow | ChunkMesh.cs:30-33 | the x loop emits the cells of one row in order |
| LegacyChunkMesh.ChunkMesh.BuildBlock | ChunkMesh.cs:90-106 | Air emits nothing; otherwise the exposed faces in turn |
| LegacyChunkMesh.ChunkMesh.BuildSideIfExposed | ChunkMesh.cs:92-105 | a face is emitted exactly when its neighbour cell is not solid |
| LegacyChunkMesh.ChunkMesh.BuildBlockSide | ChunkMesh.cs:144-176 | the lists become EmitFace of the old lists |
| LegacyChunkMesh.ChunkMesh.AddFaceVertices | ChunkMesh.cs:130-142 | the lists gain the doubled quad corners, normals and indices |
| ChunkManager.CacheSizeIs64 | Scripts/ChunkManager.cs:17 | 1 MiB over 16^3 four-byte cells is 64 chunks |
| ChunkManager.FileImage | Scripts/ChunkManager.cs:85-94 | the file holds block codes only, one per block of a populated chunk |
| ChunkManager.EvictedChunkIsReadBackOnlyFromWorkingDir | Scripts/ChunkManager.cs:87-151 | an evicted chunk's file is found again only when the data directory is the working directory |
| ChunkManager.EvictedChunkRoundTrip | Scripts/ChunkManager.cs:85-159 | reading back the file of an evicted populated chunk restores every block type |
| ChunkManager.CountPopulate | Scripts/ChunkManager.cs:138-170 | the total grows by one; the per-source counters stay balanced exactly when a hit brought blocks or a miss found none |
| ChunkManager.StepDoesOneUnit | Scripts/ChunkManager.cs:120-190 | a call that does not throw does one unit of work when any is left, and nothing when none is |
| ChunkManager.StepsDrainQueues | Scripts/ChunkManager.cs:120-190 | Work(l) calls drain every queue, and each chunk to populate or build becomes exactly one mesh |
| ChunkManager.ChunkManager.constructor | Scripts/ChunkManager.cs:32-37 | empty queues and cache, zero counters, not running |
| ChunkManager.ChunkManager.EnqueueChunk | Scripts/ChunkManager.cs:39-45 | a populated chunk goes to the build queue, any other to the populate queue |
| ChunkManager.ChunkManager.PersistChunkData | Scripts/ChunkManager.cs:47-50 | only the persist queue grows, by this chunk |
| ChunkManager.ChunkManager.WriteChunkToFile | Scripts/ChunkManager.cs:85-94 | the chunk's file in the data directory becomes FileImage of the chunk |
| ChunkManager.ChunkManager.GetNextMesh | Scripts/ChunkManager.cs:96-101 | the oldest mesh is removed and returned, or none when the queue is empty |
| ChunkManager.ChunkManager.SerialProcessChunks | Scripts/ChunkManager.cs:112-118 | one ProcessChunks step unless the worker runs, in which case nothing changes |
| ChunkManager.ChunkManager.ProcessChunks | Scripts/ChunkManager.cs:120-190 | one step on the first non-empty queue among persist, populate and build; the queue lengths follow StepLengths |
| ChunkManager.ChunkManager.PersistStep | Scripts/ChunkManager.cs:125-132 | the chunk enters the cache; an evicted entry's file is written first |
| ChunkManager.ChunkManager.StoreInCache | Scripts/ChunkManager.cs:128 | the cache entries become AddEntries, and the evicted entry's file is written |
| ChunkManager.ChunkManager.PopulateStep | Scripts/ChunkManager.cs:134-175 | the chunk is populated from the cache, its file or the generator, and joins the build queue |
| ChunkManager.ChunkManager.PopulateChunk | Scripts/ChunkManager.cs:138-172 | the chunk gets the cached grid, else its file's contents, else a generated grid; it joins the build queue unless the read threw; the counters become CountPopulate of what happened |
| ChunkManager.ChunkManager.FetchBlocks | Scripts/ChunkManager.cs:141-170 | the chunk gets the cached grid on a hit, else its file's contents when the file exists, else a generated grid; it reports which |
| ChunkManager.ChunkManager.BuildStep | Scripts/ChunkManager.cs:177-187 | the chunk leaves the build queue; a fresh mesh built from its snapshot is queued unless a face threw |
| ChunkManager.ShareCachedBlocks | Scripts/ChunkManager.cs:141-146 | on a hit the chunk takes the cached grid, and the entry moves to the head |
| ChunkManager.LoadBlocks | Scripts/ChunkManager.cs:148-170 | a populated chunk is kept; an unpopulated one is read from its file when it exists and generated otherwise; it reports which |
| ChunkManager.BuildMesh | Scripts/ChunkManager.cs:180-181 | a fresh mesh whose lists are BuiltFrom the chunk's snapshot at the call; an unpopulated chunk gives an empty, failed mesh |
| Database.RecordSizes | Scripts/Database.cs:14-15 | a record is 16384 bytes, two int16 cells per block; the header is 24 bytes |
| Database.Wrap32 | Scripts/Database.cs:78 | the value lies in the int32 range |
| Database.Wrap32Congruent | Scripts/Database.cs:78 | the wrapped value differs from the exact one by whole turns of 2^32 |
| Database.RegionSize | Scripts/Database.cs:24-27 | (Max - Min) + (1, 1, 1), each component wrapped to int32 |
| Database.PaddedHeader | Scripts/Database.cs:130 | a short header is padded to six cells; a full one is kept |
| Database.VecCells | Scripts/Database.cs:133-138 | three int32 cells, x first |
| Database.CreatedFile | Scripts/Database.cs:66-83 | bounds in the header and a zeroed record for every chunk of the box |
| Database.CreatedBoundsRoundTrip | Scripts/Database.cs:32-83 | opening a created file recovers the bounds it was created with |
| Database.CreatedFileHoldsEveryRecord | Scripts/Database.cs:78-79 | the created file's length is the header plus one record per chunk |
| Database.ChunkIndexInRange | Scripts/Database.cs:121-131 | the row-major index of every position of the box lies below the box volume |
| Database.ChunkIndexInjective | Scripts/Database.cs:121-131 | distinct positions of the box have distinct row-major indices |
| Database.ChunkIndexAsWrittenNonNegative | Scripts/Database.cs:128 | the written index of a position of the box is never negative |
| Database.ChunkIndexAsWrittenInRange | Scripts/Database.cs:128 | when sizeX <= sizeZ, the written index stays below the box volume |
| Database.AsWrittenAgreesOnSquareRegions | Scripts/Database.cs:128 | when sizeX == sizeZ, the written index is the row-major one |
| Database.AsWrittenIndexCollides | Scripts/Database.cs:128 | in a 1 x 2 x 2 region, (0, 0, 1) and (0, 1, 0) get the same written index |
| Database.CreatedFileHoldsRecord | Scripts/Database.cs:66-131 | in a created region with int32 volume and sizeX <= sizeZ, every record at the written index lies inside the file |
| Database.Interleave | Scripts/Database.cs:95-96 | the two sequences merged cell by cell, twice as long |
| Database.EncodeRecord | Scripts/Database.cs:85-102 | type code then overlay, block by block |
| Database.DecodeRecordInto | Scripts/Database.cs:104-119 | a block whose type cell was read gets that type, one whose overlay cell was read gets that overlay; the rest of the grid is kept |
| Database.DecodeCompleteRecord | Scripts/Database.cs:104-119 | a complete record replaces every block, whatever was there before |
| Database.DecodeOfEncodeRecord | Scripts/Database.cs:85-119 | ReadChunk of what WriteChunk wrote reproduces every block, type and overlay |
| Database.EncodeOfDecodeRecord | Scripts/Database.cs:85-119 | WriteChunk of what ReadChunk read from a complete record writes those cells back |
| Database.Splice | Scripts/Database.cs:87-99 | writing past the end grows the body, and the gap reads as zero |
| Database.RecordAt | Scripts/Database.cs:106-118 | the cells of one record at an offset, as far as the body reaches |
| Database.RecordAtSplice | Scripts/Database.cs:85-119 | reading a record at the offset it was written to yields it |
| Database.SpliceKeepsOtherRecords | Scripts/Database.cs:85-102 | writing a record keeps every non-overlapping complete record |
| Database.WellFormedDiskUpdate | Scripts/Database.cs:66-83 | replacing one file by a well-formed one keeps the file system well-formed |
| Database.Database.constructor | Scripts/Database.cs:7-30 | a closed store with zero bounds |
| Database.Database.Size | Scripts/Database.cs:24-27 | RegionSize of the bounds |
| Database.Database.Close | Scripts/Database.cs:52-64 | drops the stream and zeroes the bounds; a closed store stays as it is, and the disk never changes |
| Database.Database.Open | Scripts/Database.cs:32-50 | a missing file fails with the store closed; otherwise the store is open with the header's bounds, or fails on a short header |
| Database.Database.Create | Scripts/Database.cs:66-83 | the file becomes CreatedFile when the wrapped length is not negative, and is left empty otherwise |
| Database.Database.RecordCellOffset | Scripts/Database.cs:121-131 | the header cells plus the written index times the record size |
| Database.Database.WriteChunk | Scripts/Database.cs:85-102 | the body becomes Splice of the chunk's record at the written offset; the header is padded |
| Database.Database.ReadChunk | Scripts/Database.cs:104-119 | the grid becomes DecodeRecordInto of the record at the written offset; false when the record is cut short |
| Database.StreamRecord | Scripts/Database.cs:89-99 | the cells written are EncodeRecord of the grid |
| Database.ReadCells | Scripts/Database.cs:108-118 | the grid becomes DecodeRecordInto of the cells read |
| Database.WriteThenReadRecord | Scripts/Database.cs:85-119 | WriteChunk then ReadChunk at the same position reproduce the chunk |
| WorldBuilder.Volume32OfBox | Scripts/WorldBuilder.cs:61-65 | below 2^31 chunks, the int32 count equals the box volume |
| WorldBuilder.SampleBoxVolume | Samples/WorldStart.cs:11-12 | the sample world spans 9 x 11 x 9 = 891 chunks |
| WorldBuilder.Generated | Scripts/WorldBuilder.cs:48-50 | one block per position of the chunk (GeneratedBlock states each block) |
| WorldBuilder.GeneratedBlock | Scripts/WorldBuilder.cs:48-50 | every block of a generated chunk holds the written classification of its position, and no overlay |
| WorldBuilder.RetypedReusedGrid | Scripts/WorldBuilder.cs:41-50 | a reused grid without overlays generates what a fresh one does |
| WorldBuilder.BoxOrderCovers | Scripts/WorldBuilder.cs:42-46 | the visit order holds exactly the positions of the box |
| WorldBuilder.BoxOrderLength | Scripts/WorldBuilder.cs:42-46 | the box is visited once per position |
| WorldBuilder.DistinctRecords | Scripts/Database.cs:128 | in a square box, distinct positions have distinct records |
| WorldBuilder.SquareRecordsDisjoint | Scripts/Database.cs:128-130 | in a square box, the records of distinct positions do not overlap |
| WorldBuilder.WriteAllHolds | Scripts/WorldBuilder.cs:42-55 | after non-overlapping writes, each record holds what was written for it |
| WorldBuilder.BuildCoversBox | Scripts/WorldBuilder.cs:39-59 | in a square box, after the whole visit order each record holds its generated chunk |
| WorldBuilder.WrappedCountAdds | Scripts/WorldBuilder.cs:52 | adding to a wrapped int32 count and wrapping again gives the wrap of the exact count, so n unchecked increments from 0 leave Wrap32(n) |
| WorldBuilder.CounterStep | Scripts/WorldBuilder.cs:42-46 | the int32 increment: one more, except that int.MaxValue wraps to int.MinValue |
| WorldBuilder.GuardHoldsAtMaxValue | Scripts/WorldBuilder.cs:42-46 | with bound int.MaxValue, every int32 counter passes the guard and the top value wraps: the loop never ends |
| WorldBuilder.StepsVisitRange | Scripts/WorldBuilder.cs:42-46 | below int.MaxValue, the counter passes the guard for Extent(lo, hi) steps, visiting lo..hi in turn |
| WorldBuilder.StepsReachEnd | Scripts/WorldBuilder.cs:42-46 | after Extent(lo, hi) steps the counter stands at hi + 1, where the guard fails |
| WorldBuilder.WriteRegion | Scripts/WorldBuilder.cs:41-55 | every position of the box, x outer and z inner, is generated and its record written |
| WorldBuilder.WriteSlab | Scripts/WorldBuilder.cs:44-54 | the rows of one slab are written in y order |
| WorldBuilder.WriteRow | Scripts/WorldBuilder.cs:46-53 | the positions of one row are written in z order |
| WorldBuilder.WriteAt | Scripts/WorldBuilder.cs:48-52 | the chunk of the position is generated and its record written |
| WorldBuilder.GenerateAt | Scripts/WorldBuilder.cs:48-50 | the reused chunk moves to the position and is generated there |
| WorldBuilder.WriteGenerated | Scripts/WorldBuilder.cs:51 | the generated chunk's record is written |
| WorldBuilder.WorldBuilder.constructor | Scripts/WorldBuilder.cs:9-19 | not building, no chunks created, the store closed |
| WorldBuilder.WorldBuilder.TotalChunks | Scripts/WorldBuilder.cs:61-65 | the int32 product of the store's size: the box volume while open, 1 when closed |
| WorldBuilder.WorldBuilder.PlannedChunks | Scripts/WorldBuilder.cs:42-46 | the box volume of a build: zero exactly when some axis is inverted |
| WorldBuilder.WorldBuilder.Build | Scripts/WorldBuilder.cs:21-37 | a started builder refuses; otherwise, when Create throws, Build throws (reported as false) with the builder started and the store open on an empty file; else every position is written, CreatedChunks is the int32 wrap of the box volume (the volume itself below 2^31), and in a square box every record holds its chunk |
| WorldBuilder.WorldBuilder.RunWriter | Scripts/WorldBuilder.cs:33-34 | after a successful Create, the worker leaves the store closed, the file's header holding the box and its body holding every generated record in visit order, CreatedChunks the int32 wrap of the box volume, and in a square box every record holding its chunk |
| WorldBuilder.WorldBuilder.WriteChunks | Scripts/WorldBuilder.cs:39-59 | the body becomes WriteAll over the visit order; CreatedChunks is the int32 wrap of the box volume; the store is closed |
| Interaction.Hit | Scripts/Interaction.cs:35-57 | Water is not hit; a block at its break stage becomes Air; any other gains one crack stage |
| Interaction.DestroyedAtBreakStage | Scripts/Interaction.cs:40-49 | a hit breaks a block exactly when its overlay is its type's break stage |
| Interaction.CrackGrows | Scripts/Interaction.cs:52-55 | below the break stage, k hits add k crack stages and keep the type |
| Interaction.BreaksOnHit | Scripts/Interaction.cs:35-57 | Dirt and Grass break on the third hit; Stone, Diamond and Redstone on the fourth |
| Interaction.HitsSplit | Scripts/Interaction.cs:35-57 | m + n hits are m hits followed by n hits |
| Interaction.WaterIgnoresHits | Scripts/Interaction.cs:37-38 | any number of hits leaves Water unchanged |
| Interaction.BedrockNeverBreaks | Scripts/Interaction.cs:35-55 | Bedrock stays Bedrock, and its overlay keeps counting up |
| Interaction.Interaction.constructor | Scripts/Interaction.cs:9-12 | the interaction works on the given world |
| Interaction.Interaction.HitBlock | Scripts/Interaction.cs:26-57 | the cell becomes Hit of the block; the chunk, plus the face neighbours on a break, become dirty |
| Interaction.Interaction.InsertBlock | Scripts/Interaction.cs:68-84 | placed exactly when ResolveBlock finds a populated chunk; then that cell gets the type, and that chunk and its face neighbours become dirty |
| World.ReachStep | Scripts/World.cs:169-187 | one recursive call reaches its own steps with one depth less |
| World.ReachedUnfold | Scripts/World.cs:169-187 | reaching q from p unrolls into p itself or a step's reach |
| World.ReachWithin | Scripts/World.cs:169-187 | every reached position is within d unit steps of the start |
| World.ReachCoversRow | Scripts/World.cs:169-187 | every position of the start row within d steps is reached |
| World.ReachRows | Scripts/World.cs:169-187 | the load stays between rows min(p.y, 0) and max(p.y, TopRow + 1) |
| World.LoadedIsNear | Scripts/World.cs:125-187 | a chunk just loaded around the player is not pruned around the same position |
| World.CloseIsNear | Scripts/World.cs:129 | a position within BuildDistance (4) unit steps lies closer than the unload distance (5) |
| World.SquareBound | Scripts/World.cs:129 | on an axis at most BuildDistance steps long, the squared offset is at most BuildDistance times its length |
| World.WithoutKeys | Scripts/World.cs:133-136 | removing a list's positions leaves exactly the other keys, with their values |
| World.GetChunkPos | Scripts/World.cs:189-192 | the chunk whose 16-block cell contains the point on each axis |
| World.FloorDivUnique | Scripts/World.cs:189-192 | only one integer k satisfies k * 16 <= v < (k + 1) * 16 |
| World.GetChunkPosOfBlock | Scripts/World.cs:189-192 | any point inside block b of chunk c maps back to c |
| World.World.constructor | Scripts/World.cs:39-51 | an empty map and queues, a manager for the world's data |
| World.World.EnqueueChunkPos | Scripts/World.cs:159-167 | an absent position gets a new chunk, which is mapped and queued; a present one changes nothing |
| World.World.LoadChunksRec | Scripts/World.cs:169-187 | afterwards every position Reached from the start is mapped, and nothing else is added |
| World.ReachKeys | Scripts/World.cs:169-187 | mapping the start, then what its steps reach one level down, maps exactly what the start reaches |
| World.GrownConcat | Scripts/World.cs:169-187 | two successive loads grow the map by the new chunks of both, each at its own position |
| World.World.LoadChunksFrom | Scripts/World.cs:173-186 | the map gains exactly the positions some listed step reaches within the depth, each mapped chunk new and queued |
| World.World.LoadChunks | Scripts/World.cs:154-157 | the map gains exactly the positions reached within the build distance |
| World.World.PruneChunks | Scripts/World.cs:125-147 | the map keeps exactly its near chunks, and the far ones are queued for persisting |
| World.PrunedMap | Scripts/World.cs:125-145 | removing the listed far chunks, all of them, leaves exactly the near part of the map, with its chunks |
| World.PrunedQueue | Scripts/World.cs:133-135 | appending the listed far chunks to the persist queue is a prune: the old queue is kept and each far chunk follows once |
| World.World.CollectFar | Scripts/World.cs:127-131 | the prune list gets exactly the far chunks |
| World.World.PersistPruned | Scripts/World.cs:133-145 | each listed chunk is queued for persisting and unmapped |
| World.World.UpdateDirtyChunks | Scripts/World.cs:113-123 | each dirty chunk gets a fresh mesh of its snapshot; the dirty set is cleared unless a build threw |
| World.World.InsertNextChunkMesh | Scripts/World.cs:92-111 | meshes of pruned chunks are skipped; the first live one is attached, otherwise the queue is drained |
| World.World.Update | Scripts/World.cs:73-85 | after a move the map gains the reached positions; then it keeps only near chunks |
| World.World.SetupWorld | Scripts/World.cs:53-71 | the start position's reach is mapped and every mesh is drained |
| World.World.ProcessLoaded | Scripts/World.cs:63 | one serial pipeline step; the world stays consistent and the running flag is reported |
| World.World.DrainMeshes | Scripts/World.cs:64 | InsertNextChunkMesh is repeated until the mesh queue is empty |
| LegacyWorld.Chunk.constructor | Chunk.cs:22-25 | a chunk at the given position |
| LegacyWorld.ReachedUnfold | World.cs:152-169 | reaching q unrolls into p itself or a step's reach |
| LegacyWorld.ReachWithin | World.cs:152-169 | every reached position is within d unit steps and no lower than row min(p.y, 0) |
| LegacyWorld.ReachesStraightUp | World.cs:152-169 | the load climbs k rows above any start row for k <= d: no upper limit |
| LegacyWorld.LoadedIsNear | World.cs:114-169 | a chunk just loaded is not pruned around the same position |
| LegacyWorld.ChunkManager.constructor | ChunkManager.cs:20-23 | empty queues |
| LegacyWorld.ChunkManager.EnqueueChunk | ChunkManager.cs:25-28 | the queue grows by the chunk, whatever its state |
| LegacyWorld.ChunkManager.GetNextMesh | World.cs:86 | the oldest finished mesh is removed and returned, or none |
| LegacyWorld.WithoutKeys | World.cs:122-126 | removing a list's positions leaves exactly the other keys |
| LegacyWorld.World.constructor | World.cs:33-44 | an empty map and queues |
| LegacyWorld.World.EnqueueChunkPos | World.cs:142-150 | an absent position gets a new chunk, which is mapped and queued |
| LegacyWorld.World.LoadChunksRec | World.cs:152-169 | every reached position is mapped, and nothing else is added |
| LegacyWorld.World.LoadChunksFrom | World.cs:157-168 | the map gains exactly the positions some listed step reaches within the depth, each mapped chunk new and queued |
| LegacyWorld.World.LoadChunks | World.cs:137-140 | the map gains exactly the positions reached within the build distance |
| LegacyWorld.World.PruneChunks | World.cs:114-130 | the map keeps exactly its near chunks; nothing is persisted |
| LegacyWorld.World.CollectFar | World.cs:116-120 | the prune list gets exactly the far chunks |
| LegacyWorld.World.DropListed | World.cs:122-126 | each listed chunk is unmapped |
| LegacyWorld.World.InsertNextChunkMesh | World.cs:80-112 | meshes of unmapped chunks are skipped; the first mapped one is attached, otherwise the queue is drained |
| LegacyWorld.World.SetupWorld | World.cs:46-64 | only the start position is mapped and queued |
| LegacyWorld.World.Update | World.cs:66-78 | after a move the map gains the reached positions; then it keeps only near chunks |

## Left out

- The worker threads. ChunkManager's Start, Stop, Run and Sleep, and WorldBuilder's writer thread, are not modelled. `isRunning` is a flag, and a build's writer runs to its end inside Build.
- Blocks.BlockType: Water is code 7. `Scripts/Block.cs` lists seven types and has no Water, yet `Scripts/Interaction.cs:37` and the terrain code use `Block.Type.Water`. The enum that defines it is not part of this model.
- Chunk.ReadBinary requires every stream cell to be in 0..7. The source casts any int32 to `Block.Type` (Chunk.cs:64), and the model has no value for a code outside the enum.
- Chunks.ReadTypes requires every stream cell it reads to be in 0..7, as Chunk.ReadBinary does.
- Database.ReadChunk requires every type cell of the record to be in 0..7 (TypeCellsValid). The source casts any int16 to `Block.Type` (Scripts/Database.cs:114).
- ChunkManager.ChunkManager.PopulateStep requires every chunk file to hold block codes (FilesOk), for the same reason as Chunk.ReadBinary.
- The ChunkManager counters and the Chunk, World and Interaction coordinates are unbounded integers. Their int32 wrap-around is not modelled. Only the wraps the source evidently reaches are written out: the region size and volume (Database.Wrap32), the loop counters (WorldBuilder.CounterStep), WorldBuilder's CreatedChunks (WorldBuilder.WrappedCountAdds) and the 16-bit overlay (Blocks.NextOverlay).
- WorldBuilder.WorldBuilder.Build requires every upper bound to be below int.MaxValue. At int.MaxValue the source's loop never ends, as the Findings row shows.
- WorldBuilder.WorldBuilder.Build returns false where Database.Create's SetLength throws (Scripts/Database.cs:79). In the source that exception propagates out of Build (Scripts/WorldBuilder.cs:31), so Build never returns on that path. The state the model gives for it is the state the throw leaves.
- WorldBuilder.WorldBuilder.WriteChunks assigns CreatedChunks once, after the loops, rather than after each record; WorldBuilder.WrappedCountAdds shows the final value is the same.
- WorldBuilder.WorldBuilder.Build also requires the region size hi - lo + 1 to fit in int32 on each axis. The source accepts bounds whose size wraps, such as lo.x = -2^31 with hi.x = 0. Database.Create models that wrap, and so does the Volume32 test that decides whether Create fails. But once the size has wrapped, the file's length and the SeekToChunk offsets come from the wrapped size, while the loops still walk the whole box. The model does not state where those writes land, so Build's coverage and counting postconditions are stated only for sizes that fit.
- World.World.EnqueueChunkPos creates its chunk with Chunk.constructor, which leaves the grid null until Populate (Chunk.cs:9,16). At Scripts/World.cs:163 the newer World calls the Scripts/Chunk.cs:29-33 constructor, and the field initialiser at Scripts/Chunk.cs:10 allocates the grid first. The model follows Chunk.cs here because the newer manager calls IsPopulated and Populate (Scripts/ChunkManager.cs:41,148,164), which only Chunk.cs defines. So a newly loaded chunk goes to the populate queue rather than straight to the build queue. WorldBuilder models the same source call as Chunk.Allocated, because the builder needs a grid to fill.
- Database.Relative takes Util.MapValue(pos, Min, Max, 0, Max - Min) at Scripts/Database.cs:123-125 to be pos - Min, a linear map of [Min, Max] onto [0, Max - Min]. Util.MapValue is not part of this model, and the model does not capture any rounding or casting that MapValue performs.
- Noise: the floating-point fractal noise and `Mathf.Lerp` heights (Scripts/Noise.cs, ChunkBuilder.WorldHeight and StoneHeight) are the abstract `Noise.Fields` inputs: integer height functions and boolean threshold tests.
- World.GetChunkPos works on exact reals. Float rounding of `worldPos / chunkSize` is not modelled. The older GetChunkPos (World.cs:171-174) is the same function.
- The ray cast and DetermineBlockPosFromHit (Scripts/Interaction.cs:14-19, 23-31, 65-73). HitBlock and InsertBlock start from the chunk and block position the hit gives.
- Interaction.Interaction.HitBlock requires the hit chunk to be mapped and populated and the block to lie inside it. The hit lies on a rendered face. The source does not handle any other case.
- Interaction.Interaction.InsertBlock reports an unpopulated target chunk as not placed. The source would dereference its null grid and throw.
- Unity code: GameObjects, the chunk pool, Mesh objects, materials, the character controller, LateUpdate, the mesh attach of InsertNextChunkMesh and UpdateDirtyChunks, and ChunkCount.
- SetupWorld's player placement (`WorldHeight + 1`) is left out. SetupWorld takes the starting chunk position as a parameter.
- World.World.InsertNextChunkMesh treats a mesh with no chunk as not live. The source would throw on it.
- World distances: `Vector3Int.Distance` is compared as an exact squared integer distance against `unloadDistance^2`. Float rounding is not modelled.
- The six explicit recursive calls of LoadChunksRec are one recursion over the step list, World.World.LoadChunksFrom, in the same order.
- LegacyWorld.ChunkManager.GetNextMesh: the older ChunkManager.cs defines no GetNextMesh and no SerialProcessChunks, both of which World.cs calls. The mesh queue is modelled as a queue of the chunks the meshes were built for, and the SerialProcessChunks call of the older SetupWorld is left out.
- OnDestroy and ChunkManager.Stop (Scripts/World.cs:149-152, World.cs:132-135).
- File-system errors other than the ones the model names (disk full, permissions, concurrent access), and Path.Combine beyond the bare-name case.
- LruCache's OnEvict is a single handler, WriteChunkToFile. It is reported as a value rather than invoked as an event.

## Findings

| source | as written | input that shows it | evidently intended | confidence | as-written member | corrected member |
|---|---|---|---|---|---|---|
| Scripts/ChunkBuilder.cs:39-44 | in the stone branch, the Redstone assignment is always followed by an if-else that sets Diamond or Stone, so Redstone is overwritten | a cell at (0, 10, 0) below the stone height, inside the redstone band and outside the diamond band, as in `ChunkBuilder.RedstoneWitness`: the code yields Stone | Redstone in the redstone band unless Diamond applies | not executed | ChunkBuilder.DetermineBlockTypeAsWritten, ChunkBuilder.RedstoneLostAsWritten | ChunkBuilder.DetermineBlockType, ChunkBuilder.BuildIntended, ChunkBuilder.AsWrittenLosesOnlyRedstone |
| Scripts/Database.cs:128 | the record index is `x * sizeY * sizeZ + y * sizeX + z` | region size (1, 2, 2): positions (0, 0, 1) and (0, 1, 0) both get record 1, so the second write overwrites the first | row-major `x * sizeY * sizeZ + y * sizeZ + z`, one record per chunk | not executed | Database.ChunkIndexAsWrittenNonNegative, Database.AsWrittenIndexCollides | Database.ChunkIndexInjective, Database.ChunkIndexInRange |
| Scripts/WorldBuilder.cs:42-46 | `for (int x = min.x; x <= max.x; x++)` and the same for y and z, on int32 counters | max.x == int.MaxValue: every int32 value passes `x <= max.x`, and `x++` wraps to int.MinValue, so the loop never ends | a loop over min..max that stops after max | not executed | WorldBuilder.CounterStep, WorldBuilder.GuardHoldsAtMaxValue | WorldBuilder.StepsVisitRange, WorldBuilder.StepsReachEnd |

The region file and the world builder use the index as written. Their round trips and the
builder's full coverage are proved for square regions (sizeX == sizeZ), where
Database.AsWrittenAgreesOnSquareRegions shows the written index is the row-major one.
