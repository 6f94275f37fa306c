/**
 * The offline world generator of Scripts/WorldBuilder.cs: it creates a region store for a box
 * of chunk positions, generates every chunk of the box into one reused chunk object and
 * writes each into its record.
 *
 * The worker thread that runs `WriteChunks` is modelled as running to completion inside
 * `Build`.  The store `WorldData.database` is held by the builder itself, since the model's
 * WorldData carries only the chunk map, the dirty set and the noise fields.
 */
module WorldBuilder {

  import opened Blocks
  import opened Util
  import opened Chunks
  import DB = Database
  import ChunkBuilder
  import Noise

  /** The number of positions lo..hi, none when the range is inverted. */
  function Extent(lo: int, hi: int): (n: nat)
    ensures n == 0 <==> hi < lo
    ensures hi >= lo ==> n == hi - lo + 1
  {
    if hi >= lo then hi - lo + 1 else 0
  }

  /** The number of chunk positions of the box [min, max]. */
  function BoxVolume(min: Vec3, max: Vec3): nat
  {
    Extent(min.x, max.x) * Extent(min.y, max.y) * Extent(min.z, max.z)
  }

  /**
   * Below 2^31 chunks the int32 count of Database.Size equals the box volume: no factor and
   * no partial product wraps around.
   */
  lemma Volume32OfBox(min: Vec3, max: Vec3)
    ensures min.x <= max.x && min.y <= max.y && min.z <= max.z && BoxVolume(min, max) < 0x8000_0000
      ==> DB.Volume32(DB.RegionSize(min, max)) == BoxVolume(min, max)
  {
    if min.x <= max.x && min.y <= max.y && min.z <= max.z && BoxVolume(min, max) < 0x8000_0000 {
      var a := Extent(min.x, max.x);
      var b := Extent(min.y, max.y);
      var c := Extent(min.z, max.z);
      assert BoxVolume(min, max) == a * b * c;
      DB.MulAtLeast(c, a * b);
      DB.MulAtLeast(b, a);
      DB.MulAtLeast(a, b);
      DB.MulAtLeast(a * b, c);
      assert max.Minus(min).Plus(One) == Vec3(a, b, c);
      assert DB.RegionSize(min, max) == Vec3(a, b, c);
    }
  }

  /** The sample world of Samples/WorldStart.cs:11-12 spans 9 x 11 x 9 chunks. */
  lemma SampleBoxVolume()
    ensures BoxVolume(Vec3(-4, 0, -4), Vec3(4, 10, 4)) == 891
  {
  }

  /** The grid the generator leaves for the chunk at `p`, starting from a fresh grid. */
  function Generated(f: Noise.Fields, p: Vec3): (g: seq<Block>)
    ensures |g| == ChunkVolume
  {
    seq(ChunkVolume, i requires 0 <= i < ChunkVolume => GeneratedAt(f, p, i))
  }

  /** The block the generator leaves at buffer position i of the chunk at `p`. */
  function GeneratedAt(f: Noise.Fields, p: Vec3, i: int): Block
    requires 0 <= i < ChunkVolume
  {
    Block(ChunkBuilder.DetermineBlockTypeAsWritten(f, WorldPos(p).Plus(PosOf(i))), OverlayNone)
  }

  /**
   * Every block of a generated chunk holds the classification, as written, of its own world
   * position, and no overlay.
   */
  lemma GeneratedBlock(f: Noise.Fields, p: Vec3, q: Vec3)
    requires InChunk(q)
    ensures Generated(f, p)[IdxOf(q)] ==
      Block(ChunkBuilder.DetermineBlockTypeAsWritten(f, WorldPos(p).Plus(q)), OverlayNone)
  {
    DivModIdx(q.x, q.y, q.z);
    assert PosOf(IdxOf(q)) == q;
  }

  predicate NoOverlays(g: seq<Block>)
  {
    forall i :: 0 <= i < |g| ==> g[i].overlay == OverlayNone
  }

  /**
   * Retyping only keeps the overlays of the grid it starts from: a reused grid without
   * overlays generates exactly what a fresh one does, and keeps no overlay.
   */
  lemma RetypedReusedGrid(prior: seq<Block>, f: Noise.Fields, p: Vec3)
    requires |prior| == ChunkVolume && NoOverlays(prior)
    ensures ChunkBuilder.Retyped(prior, p, q => ChunkBuilder.DetermineBlockTypeAsWritten(f, q)) == Generated(f, p)
    ensures NoOverlays(Generated(f, p))
  {
    var a := ChunkBuilder.Retyped(prior, p, q => ChunkBuilder.DetermineBlockTypeAsWritten(f, q));
    var b := Generated(f, p);
    forall i | 0 <= i < ChunkVolume
      ensures a[i] == b[i]
    {
    }
  }

  /** The first cell of the record of the box position `q`, at the index the store computes. */
  function RecordStart(min: Vec3, max: Vec3, q: Vec3): (off: nat)
    requires DB.InBox(min, max, q)
  {
    DB.ChunkIndexAsWrittenNonNegative(max.Minus(min).Plus(One), DB.Relative(min, q));
    DB.CellOffset(DB.ChunkIndexAsWritten(max.Minus(min).Plus(One), DB.Relative(min, q)))
  }

  /** The x extent of the box equals its z extent: the boxes the store numbers without collisions. */
  predicate SquareRegion(min: Vec3, max: Vec3)
  {
    max.x - min.x == max.z - min.z
  }

  /** The cell offsets of the records of the box [min, max], at the index the store computes. */
  function RecordOffsets(min: Vec3, max: Vec3): Vec3 -> nat
  {
    q => if DB.InBox(min, max, q) then RecordStart(min, max, q) else 0
  }

  /** `offs` gives every position of the box the offset of its record. */
  ghost predicate Aligned(offs: Vec3 -> nat, min: Vec3, max: Vec3)
  {
    forall q {:trigger RecordStart(min, max, q)} :: DB.InBox(min, max, q) ==> offs(q) == RecordStart(min, max, q)
  }

  lemma RecordOffsetsAligned(min: Vec3, max: Vec3)
    ensures Aligned(RecordOffsets(min, max), min, max)
  {
    forall q | DB.InBox(min, max, q)
      ensures RecordOffsets(min, max)(q) == RecordStart(min, max, q)
    {
    }
  }

  /** The records a build writes: each position gets its encoded generated chunk. */
  function RecordsFor(f: Noise.Fields): Vec3 -> seq<DB.Int16>
  {
    q => DB.EncodeRecord(Generated(f, q))
  }

  /** `recs` gives each position its encoded generated chunk. */
  ghost predicate RecordsOf(recs: Vec3 -> seq<DB.Int16>, f: Noise.Fields)
  {
    forall q {:trigger Generated(f, q)} :: recs(q) == DB.EncodeRecord(Generated(f, q))
  }

  lemma RecordsForAreRecords(f: Noise.Fields)
    ensures RecordsOf(RecordsFor(f), f)
  {
    forall q
      ensures RecordsFor(f)(q) == DB.EncodeRecord(Generated(f, q))
    {
    }
  }

  /** Every record of `recs` is one record long. */
  ghost predicate RecordSized(recs: Vec3 -> seq<DB.Int16>)
  {
    forall q :: |recs(q)| == DB.RecordCells
  }

  lemma RecordsOfSized(recs: Vec3 -> seq<DB.Int16>, f: Noise.Fields)
    requires RecordsOf(recs, f)
    ensures RecordSized(recs)
  {
    forall q
      ensures |recs(q)| == DB.RecordCells
    {
      assert recs(q) == DB.EncodeRecord(Generated(f, q));
    }
  }

  /** The record of `q`, at offset offs(q), lies in the body and holds `recs(q)`. */
  ghost predicate Holds(body: seq<DB.Int16>, offs: Vec3 -> nat, recs: Vec3 -> seq<DB.Int16>, q: Vec3)
  {
    offs(q) + DB.RecordCells <= |body| && DB.RecordAt(body, offs(q)) == recs(q)
  }

  /** The record of box position `q` lies in the body and holds the generated chunk `q`. */
  ghost predicate HoldsChunk(body: seq<DB.Int16>, min: Vec3, max: Vec3, f: Noise.Fields, q: Vec3)
    requires DB.InBox(min, max, q)
  {
    RecordStart(min, max, q) + DB.RecordCells <= |body|
    && DB.RecordAt(body, RecordStart(min, max, q)) == DB.EncodeRecord(Generated(f, q))
  }

  lemma HoldsGenerated(body: seq<DB.Int16>, min: Vec3, max: Vec3, f: Noise.Fields, recs: Vec3 -> seq<DB.Int16>, q: Vec3)
    requires DB.InBox(min, max, q) && RecordsOf(recs, f) && Holds(body, RecordOffsets(min, max), recs, q)
    ensures HoldsChunk(body, min, max, f, q)
  {
    assert recs(q) == DB.EncodeRecord(Generated(f, q));
    assert RecordOffsets(min, max)(q) == RecordStart(min, max, q);
  }

  /** In a square box distinct positions have distinct records. */
  lemma DistinctRecords(min: Vec3, max: Vec3, p: Vec3, q: Vec3)
    requires DB.InBox(min, max, p) && DB.InBox(min, max, q) && p != q && SquareRegion(min, max)
    ensures RecordStart(min, max, p) != RecordStart(min, max, q)
  {
    var size := max.Minus(min).Plus(One);
    DB.AsWrittenAgreesOnSquareRegions(size, DB.Relative(min, p));
    DB.AsWrittenAgreesOnSquareRegions(size, DB.Relative(min, q));
    if DB.ChunkIndex(size, DB.Relative(min, p)) == DB.ChunkIndex(size, DB.Relative(min, q)) {
      DB.ChunkIndexInjective(size, DB.Relative(min, p), DB.Relative(min, q));
    }
  }

  /** Two records at these cell offsets do not overlap. */
  predicate Disjoint(a: int, b: int)
  {
    a + DB.RecordCells <= b || b + DB.RecordCells <= a
  }

  /** In a square box the records of distinct positions do not overlap. */
  lemma SquareRecordsDisjoint(min: Vec3, max: Vec3, p: Vec3, q: Vec3)
    requires DB.InBox(min, max, p) && DB.InBox(min, max, q) && p != q && SquareRegion(min, max)
    ensures Disjoint(RecordStart(min, max, p), RecordStart(min, max, q))
  {
    DistinctRecords(min, max, p, q);
    var size := max.Minus(min).Plus(One);
    DB.ChunkIndexAsWrittenNonNegative(size, DB.Relative(min, p));
    DB.ChunkIndexAsWrittenNonNegative(size, DB.Relative(min, q));
    var i := DB.ChunkIndexAsWritten(size, DB.Relative(min, p));
    var j := DB.ChunkIndexAsWritten(size, DB.Relative(min, q));
    assert RecordStart(min, max, p) == i * DB.RecordCells;
    assert RecordStart(min, max, q) == j * DB.RecordCells;
    if i < j {
      assert (j - i) * DB.RecordCells >= DB.RecordCells;
    } else {
      assert (i - j) * DB.RecordCells >= DB.RecordCells;
    }
  }

  /** `offs` puts the records of distinct positions of `ps` where they do not overlap. */
  ghost predicate DisjointOn(offs: Vec3 -> nat, ps: seq<Vec3>)
  {
    forall p, q :: p in ps && q in ps && p != q ==> Disjoint(offs(p), offs(q))
  }

  /** Writing a record leaves every record it does not overlap as it was. */
  lemma SpliceKeepsDisjoint(body: seq<DB.Int16>, a: nat, b: nat, rec: seq<DB.Int16>)
    requires |rec| == DB.RecordCells && Disjoint(a, b) && b + DB.RecordCells <= |body|
    ensures b + DB.RecordCells <= |DB.Splice(body, a, rec)|
    ensures DB.RecordAt(DB.Splice(body, a, rec), b) == DB.RecordAt(body, b)
  {
    var s := DB.Splice(body, a, rec);
    forall k | b <= k < b + DB.RecordCells
      ensures s[k] == body[k]
    {
    }
  }

  /** Writing the record of `p` stores it and keeps the record of every position it does not overlap. */
  lemma WriteHolds(body: seq<DB.Int16>, offs: Vec3 -> nat, recs: Vec3 -> seq<DB.Int16>, p: Vec3, q: Vec3)
    requires |recs(p)| == DB.RecordCells
    requires p == q || (Disjoint(offs(p), offs(q)) && Holds(body, offs, recs, q))
    ensures Holds(DB.Splice(body, offs(p), recs(p)), offs, recs, q)
  {
    if p == q {
      DB.RecordAtSplice(body, offs(p), recs(p));
    } else {
      SpliceKeepsDisjoint(body, offs(p), offs(q), recs(p));
    }
  }

  /** The positions (x, y, zlo) .. (x, y, zhi), in the order of the innermost loop. */
  function Row(x: int, y: int, zlo: int, zhi: int): (r: seq<Vec3>)
    decreases zhi - zlo
  {
    if zhi < zlo then [] else Row(x, y, zlo, zhi - 1) + [Vec3(x, y, zhi)]
  }

  /** The rows y = ylo .. yhi of the slab x, in the order of the middle loop. */
  function Slab(x: int, ylo: int, yhi: int, zlo: int, zhi: int): (r: seq<Vec3>)
    decreases yhi - ylo
  {
    if yhi < ylo then [] else Slab(x, ylo, yhi - 1, zlo, zhi) + Row(x, yhi, zlo, zhi)
  }

  /** The slabs x = xlo .. xhi: every position of a box in the order WriteChunks visits them. */
  function Order(xlo: int, xhi: int, ylo: int, yhi: int, zlo: int, zhi: int): (r: seq<Vec3>)
    decreases xhi - xlo
  {
    if xhi < xlo then [] else Order(xlo, xhi - 1, ylo, yhi, zlo, zhi) + Slab(xhi, ylo, yhi, zlo, zhi)
  }

  function BoxOrder(min: Vec3, max: Vec3): seq<Vec3>
  {
    Order(min.x, max.x, min.y, max.y, min.z, max.z)
  }

  lemma {:induction false} RowContains(x: int, y: int, zlo: int, zhi: int, z: int)
    requires zlo <= z <= zhi
    ensures Vec3(x, y, z) in Row(x, y, zlo, zhi)
    decreases zhi - zlo
  {
    if z < zhi {
      RowContains(x, y, zlo, zhi - 1, z);
    }
  }

  lemma {:induction false} SlabContains(x: int, ylo: int, yhi: int, zlo: int, zhi: int, q: Vec3)
    requires q.x == x && ylo <= q.y <= yhi && zlo <= q.z <= zhi
    ensures q in Slab(x, ylo, yhi, zlo, zhi)
    decreases yhi - ylo
  {
    assert Slab(x, ylo, yhi, zlo, zhi) == Slab(x, ylo, yhi - 1, zlo, zhi) + Row(x, yhi, zlo, zhi);
    if q.y == yhi {
      RowContains(x, yhi, zlo, zhi, q.z);
      assert q == Vec3(x, yhi, q.z);
    } else {
      SlabContains(x, ylo, yhi - 1, zlo, zhi, q);
    }
  }

  lemma {:induction false} OrderContains(xlo: int, xhi: int, ylo: int, yhi: int, zlo: int, zhi: int, q: Vec3)
    requires xlo <= q.x <= xhi && ylo <= q.y <= yhi && zlo <= q.z <= zhi
    ensures q in Order(xlo, xhi, ylo, yhi, zlo, zhi)
    decreases xhi - xlo
  {
    assert Order(xlo, xhi, ylo, yhi, zlo, zhi) == Order(xlo, xhi - 1, ylo, yhi, zlo, zhi) + Slab(xhi, ylo, yhi, zlo, zhi);
    if q.x == xhi {
      SlabContains(xhi, ylo, yhi, zlo, zhi, q);
    } else {
      OrderContains(xlo, xhi - 1, ylo, yhi, zlo, zhi, q);
    }
  }

  lemma {:induction false} RowWithin(x: int, y: int, zlo: int, zhi: int, q: Vec3)
    requires q in Row(x, y, zlo, zhi)
    ensures q.x == x && q.y == y && zlo <= q.z <= zhi
    decreases zhi - zlo
  {
    if q != Vec3(x, y, zhi) {
      RowWithin(x, y, zlo, zhi - 1, q);
    }
  }

  lemma {:induction false} SlabWithin(x: int, ylo: int, yhi: int, zlo: int, zhi: int, q: Vec3)
    requires q in Slab(x, ylo, yhi, zlo, zhi)
    ensures q.x == x && ylo <= q.y <= yhi && zlo <= q.z <= zhi
    decreases yhi - ylo
  {
    if q in Row(x, yhi, zlo, zhi) {
      RowWithin(x, yhi, zlo, zhi, q);
    } else {
      SlabWithin(x, ylo, yhi - 1, zlo, zhi, q);
    }
  }

  lemma {:induction false} OrderWithin(xlo: int, xhi: int, ylo: int, yhi: int, zlo: int, zhi: int, q: Vec3)
    requires q in Order(xlo, xhi, ylo, yhi, zlo, zhi)
    ensures xlo <= q.x <= xhi && ylo <= q.y <= yhi && zlo <= q.z <= zhi
    decreases xhi - xlo
  {
    if q in Slab(xhi, ylo, yhi, zlo, zhi) {
      SlabWithin(xhi, ylo, yhi, zlo, zhi, q);
    } else {
      OrderWithin(xlo, xhi - 1, ylo, yhi, zlo, zhi, q);
    }
  }

  /** The visit order holds exactly the positions of the box. */
  lemma BoxOrderCovers(min: Vec3, max: Vec3, q: Vec3)
    ensures q in BoxOrder(min, max) <==> DB.InBox(min, max, q)
  {
    if DB.InBox(min, max, q) {
      OrderContains(min.x, max.x, min.y, max.y, min.z, max.z, q);
    }
    if q in BoxOrder(min, max) {
      OrderWithin(min.x, max.x, min.y, max.y, min.z, max.z, q);
    }
  }

  lemma {:induction false} RowLength(x: int, y: int, zlo: int, zhi: int)
    ensures |Row(x, y, zlo, zhi)| == Extent(zlo, zhi)
    decreases zhi - zlo
  {
    if zhi >= zlo {
      RowLength(x, y, zlo, zhi - 1);
    }
  }

  lemma {:induction false} SlabLength(x: int, ylo: int, yhi: int, zlo: int, zhi: int)
    ensures |Slab(x, ylo, yhi, zlo, zhi)| == Extent(ylo, yhi) * Extent(zlo, zhi)
    decreases yhi - ylo
  {
    if yhi >= ylo {
      SlabLength(x, ylo, yhi - 1, zlo, zhi);
      RowLength(x, yhi, zlo, zhi);
      assert Extent(ylo, yhi) == Extent(ylo, yhi - 1) + 1;
    }
  }

  lemma {:induction false} OrderLength(xlo: int, xhi: int, ylo: int, yhi: int, zlo: int, zhi: int)
    ensures |Order(xlo, xhi, ylo, yhi, zlo, zhi)| == Extent(xlo, xhi) * (Extent(ylo, yhi) * Extent(zlo, zhi))
    decreases xhi - xlo
  {
    if xhi >= xlo {
      OrderLength(xlo, xhi - 1, ylo, yhi, zlo, zhi);
      SlabLength(xhi, ylo, yhi, zlo, zhi);
      assert Extent(xlo, xhi) == Extent(xlo, xhi - 1) + 1;
    }
  }

  /** The box is visited once per position: the visit order is as long as the box is large. */
  lemma BoxOrderLength(min: Vec3, max: Vec3)
    ensures |BoxOrder(min, max)| == BoxVolume(min, max)
  {
    OrderLength(min.x, max.x, min.y, max.y, min.z, max.z);
  }

  predicate AllInBox(min: Vec3, max: Vec3, ps: seq<Vec3>)
  {
    forall i :: 0 <= i < |ps| ==> DB.InBox(min, max, ps[i])
  }

  /** The body after the records `recs` of the positions `ps` were written in turn, at the offsets `offs`. */
  ghost function WriteAll(body: seq<DB.Int16>, offs: Vec3 -> nat, recs: Vec3 -> seq<DB.Int16>, ps: seq<Vec3>): seq<DB.Int16>
  {
    if ps == [] then body
    else
      var p := ps[|ps| - 1];
      DB.Splice(WriteAll(body, offs, recs, ps[..|ps| - 1]), offs(p), recs(p))
  }

  lemma InPrefix(ps: seq<Vec3>, q: Vec3)
    requires q in ps && q != ps[|ps| - 1]
    ensures q in ps[..|ps| - 1]
  {
    var k :| 0 <= k < |ps| && ps[k] == q;
    assert ps[..|ps| - 1][k] == q;
  }

  lemma DisjointOnPrefix(offs: Vec3 -> nat, ps: seq<Vec3>)
    requires ps != [] && DisjointOn(offs, ps)
    ensures DisjointOn(offs, ps[..|ps| - 1])
  {
    forall p, q | p in ps[..|ps| - 1] && q in ps[..|ps| - 1] && p != q
      ensures Disjoint(offs(p), offs(q))
    {
      assert p in ps && q in ps;
    }
  }

  /**
   * After the records of `ps` were written to places that do not overlap, the record of each
   * of them holds what was written for it.
   */
  lemma {:induction false} WriteAllHolds(body: seq<DB.Int16>, offs: Vec3 -> nat, recs: Vec3 -> seq<DB.Int16>, ps: seq<Vec3>, q: Vec3)
    requires RecordSized(recs) && DisjointOn(offs, ps) && q in ps
    ensures Holds(WriteAll(body, offs, recs, ps), offs, recs, q)
    decreases |ps|
  {
    var last := ps[|ps| - 1];
    var init := ps[..|ps| - 1];
    assert WriteAll(body, offs, recs, ps) == DB.Splice(WriteAll(body, offs, recs, init), offs(last), recs(last));
    if q != last {
      InPrefix(ps, q);
      DisjointOnPrefix(offs, ps);
      WriteAllHolds(body, offs, recs, init, q);
      assert Disjoint(offs(last), offs(q));
    }
    WriteHolds(WriteAll(body, offs, recs, init), offs, recs, last, q);
  }

  lemma WriteAllAppend(body: seq<DB.Int16>, offs: Vec3 -> nat, recs: Vec3 -> seq<DB.Int16>, ps: seq<Vec3>, p: Vec3)
    ensures WriteAll(body, offs, recs, ps + [p]) == DB.Splice(WriteAll(body, offs, recs, ps), offs(p), recs(p))
  {
    assert (ps + [p])[..|ps|] == ps;
  }

  /** In a square box the store's offsets keep the records of the whole visit order apart. */
  lemma BoxOrderDisjoint(min: Vec3, max: Vec3)
    requires SquareRegion(min, max)
    ensures DisjointOn(RecordOffsets(min, max), BoxOrder(min, max))
  {
    forall p, q | p in BoxOrder(min, max) && q in BoxOrder(min, max) && p != q
      ensures Disjoint(RecordOffsets(min, max)(p), RecordOffsets(min, max)(q))
    {
      BoxOrderCovers(min, max, p);
      BoxOrderCovers(min, max, q);
      SquareRecordsDisjoint(min, max, p, q);
    }
  }

  lemma UpdateTwice(m: map<string, DB.RegionFile>, k: string, v: DB.RegionFile, w: DB.RegionFile)
    ensures m[k := v][k := w] == m[k := w]
  {
  }

  lemma Assoc(a: seq<Vec3>, b: seq<Vec3>, c: seq<Vec3>)
    ensures (a + b) + c == a + (b + c)
  {
  }

  /** One step of the innermost loop: the position (x, y, z) joins the visited ones. */
  lemma RowStep(slab: seq<Vec3>, x: int, y: int, zlo: int, z: int)
    requires zlo <= z
    ensures (slab + Row(x, y, zlo, z - 1)) + [Vec3(x, y, z)] == slab + Row(x, y, zlo, z)
  {
    Assoc(slab, Row(x, y, zlo, z - 1), [Vec3(x, y, z)]);
  }

  /** One step of the middle loop: the row y joins the visited ones. */
  lemma SlabStep(done: seq<Vec3>, x: int, ylo: int, y: int, zlo: int, zhi: int)
    requires ylo <= y
    ensures (done + Slab(x, ylo, y - 1, zlo, zhi)) + Row(x, y, zlo, zhi) == done + Slab(x, ylo, y, zlo, zhi)
  {
    Assoc(done, Slab(x, ylo, y - 1, zlo, zhi), Row(x, y, zlo, zhi));
  }

  /** One step of the outer loop: the slab x joins the visited ones. */
  lemma OrderStep(xlo: int, x: int, ylo: int, yhi: int, zlo: int, zhi: int)
    requires xlo <= x
    ensures Order(xlo, x - 1, ylo, yhi, zlo, zhi) + Slab(x, ylo, yhi, zlo, zhi) == Order(xlo, x, ylo, yhi, zlo, zhi)
  {
  }

  /** When the inner loop stops, its row is the whole row. */
  lemma RowExit(x: int, y: int, zlo: int, z: int, zhi: int)
    requires zlo <= z && zhi < z && (z <= zhi + 1 || z == zlo)
    ensures Row(x, y, zlo, z - 1) == Row(x, y, zlo, zhi)
  {
    if z != zhi + 1 {
      assert Row(x, y, zlo, zhi) == [];
    }
  }

  /** When the middle loop stops, its slab is the whole slab. */
  lemma SlabExit(x: int, ylo: int, y: int, yhi: int, zlo: int, zhi: int)
    requires ylo <= y && yhi < y && (y <= yhi + 1 || y == ylo)
    ensures Slab(x, ylo, y - 1, zlo, zhi) == Slab(x, ylo, yhi, zlo, zhi)
  {
    if y != yhi + 1 {
      assert Slab(x, ylo, yhi, zlo, zhi) == [];
    }
  }

  /** When the outer loop stops, it has visited the whole box. */
  lemma OrderExit(xlo: int, x: int, xhi: int, ylo: int, yhi: int, zlo: int, zhi: int)
    requires xlo <= x && xhi < x && (x <= xhi + 1 || x == xlo)
    ensures Order(xlo, x - 1, ylo, yhi, zlo, zhi) == Order(xlo, xhi, ylo, yhi, zlo, zhi)
  {
    if x != xhi + 1 {
      assert Order(xlo, xhi, ylo, yhi, zlo, zhi) == [];
    }
  }

  /**
   * What a build writes: the file system outside the region file, the path and bounds the
   * store is open on, the header and body of the file when writing began, and the offset and
   * the record of each position.
   */
  datatype Plan = Plan(others: map<string, DB.RegionFile>, path: string, filePath: Option<string>,
    min: Vec3, max: Vec3, header: seq<DB.Int32>, body: seq<DB.Int16>,
    offs: Vec3 -> nat, recs: Vec3 -> seq<DB.Int16>, fields: Noise.Fields)

  /** A plan whose offsets and records are the ones a build of its noise fields writes. */
  type BuildPlan = w: Plan | RecordsOf(w.recs, w.fields) && Aligned(w.offs, w.min, w.max)
    ghost witness var f := Noise.Fields((x, z) => 0, (x, z) => 0, (x, y, z) => false, (x, y, z) => false, (x, y, z) => false);
      Plan(map[], "", None, Zero, Zero, [], [], RecordOffsets(Zero, Zero), RecordsFor(f), f)

  datatype Store = Store(valid: bool, isOpen: bool, disk: map<string, DB.RegionFile>, streamPath: string,
    filePath: Option<string>, min: Vec3, max: Vec3)

  ghost function StoreOf(db: DB.Database): Store
    reads db
  {
    Store(db.Valid(), db.isOpen, db.disk, db.streamPath, db.filePath, db.min, db.max)
  }

  ghost function Expected(w: Plan, visited: seq<Vec3>): Store
  {
    Store(true, true, w.others[w.path := DB.RegionFile(w.header, WriteAll(w.body, w.offs, w.recs, visited))],
      w.path, w.filePath, w.min, w.max)
  }

  /** The store is open on the plan's file and holds the records of the `visited` positions. */
  ghost predicate Writing(db: DB.Database, w: Plan, visited: seq<Vec3>)
    reads db
  {
    DB.IsInt32Vec(w.max.Minus(w.min).Plus(One)) && |w.header| == 6 && StoreOf(db) == Expected(w, visited)
  }

  /** The reused chunk of WriteChunks: a populated grid without overlays on the fields `f`. */
  ghost predicate Reusable(chunk: Chunk, f: Noise.Fields)
    reads chunk, chunk.blocks
  {
    chunk.IsPopulated() && chunk.world.fields == f && NoOverlays(chunk.blocks[..])
  }

  /**
   * WorldBuilder.WriteChunks (Scripts/WorldBuilder.cs:39-55) up to the final Close: every
   * position of the box, x outer and z inner, is generated into one reused chunk and written
   * to its record.  The result is the number of chunks written.  The middle and the inner
   * loop are the methods WriteSlab and WriteRow.
   */
  method WriteRegion(db: DB.Database, world: WorldData, ghost w: BuildPlan) returns (created: int)
    requires Writing(db, w, []) && w.fields == world.fields
    modifies db
    ensures Writing(db, w, BoxOrder(w.min, w.max))
    ensures created == |BoxOrder(w.min, w.max)|
  {
    var chunk := new Chunk.Allocated(Zero, world);
    var f := world.fields;
    var min, max := db.min, db.max;
    ghost var visited: seq<Vec3> := [];
    created := 0;
    var x := min.x;
    while x <= max.x
      invariant min.x <= x && (x <= max.x + 1 || x == min.x)
      invariant Writing(db, w, visited) && Reusable(chunk, f) && fresh(chunk.blocks)
      invariant visited == Order(min.x, x - 1, min.y, max.y, min.z, max.z) && created == |visited|
    {
      var n := WriteSlab(db, chunk, f, x, w, visited);
      OrderStep(min.x, x, min.y, max.y, min.z, max.z);
      visited := visited + Slab(x, min.y, max.y, min.z, max.z);
      created := created + n;
      x := x + 1;
    }
    OrderExit(min.x, x, max.x, min.y, max.y, min.z, max.z);
  }

  /** The middle loop of WriteChunks: the rows of the slab x, y ascending. */
  method WriteSlab(db: DB.Database, chunk: Chunk, f: Noise.Fields, x: int, ghost w: BuildPlan,
    ghost prefix: seq<Vec3>) returns (created: int)
    requires Writing(db, w, prefix) && w.fields == f && Reusable(chunk, f) && w.min.x <= x <= w.max.x
    modifies db, chunk, chunk.blocks
    ensures Writing(db, w, prefix + Slab(x, w.min.y, w.max.y, w.min.z, w.max.z))
    ensures Reusable(chunk, f) && chunk.blocks == old(chunk.blocks)
    ensures created == |Slab(x, w.min.y, w.max.y, w.min.z, w.max.z)|
  {
    var min, max := db.min, db.max;
    ghost var visited := prefix;
    created := 0;
    var y := min.y;
    while y <= max.y
      invariant min.y <= y && (y <= max.y + 1 || y == min.y)
      invariant Writing(db, w, visited) && Reusable(chunk, f) && chunk.blocks == old(chunk.blocks)
      invariant visited == prefix + Slab(x, min.y, y - 1, min.z, max.z)
      invariant created == |visited| - |prefix|
    {
      var n := WriteRow(db, chunk, f, x, y, w, visited);
      SlabStep(prefix, x, min.y, y, min.z, max.z);
      visited := visited + Row(x, y, min.z, max.z);
      created := created + n;
      y := y + 1;
    }
    SlabExit(x, min.y, y, max.y, min.z, max.z);
  }

  /** The inner loop of WriteChunks: the positions of the row (x, y), z ascending. */
  method WriteRow(db: DB.Database, chunk: Chunk, f: Noise.Fields, x: int, y: int, ghost w: BuildPlan,
    ghost prefix: seq<Vec3>) returns (created: int)
    requires Writing(db, w, prefix) && w.fields == f && Reusable(chunk, f)
    requires w.min.x <= x <= w.max.x && w.min.y <= y <= w.max.y
    modifies db, chunk, chunk.blocks
    ensures Writing(db, w, prefix + Row(x, y, w.min.z, w.max.z))
    ensures Reusable(chunk, f) && chunk.blocks == old(chunk.blocks)
    ensures created == |Row(x, y, w.min.z, w.max.z)|
  {
    var min, max := db.min, db.max;
    ghost var visited := prefix;
    created := 0;
    var z := min.z;
    while z <= max.z
      invariant min.z <= z && (z <= max.z + 1 || z == min.z)
      invariant Writing(db, w, visited) && Reusable(chunk, f) && chunk.blocks == old(chunk.blocks)
      invariant visited == prefix + Row(x, y, min.z, z - 1) && created == |visited| - |prefix|
    {
      WriteAt(db, chunk, f, Vec3(x, y, z), w, visited);
      RowStep(prefix, x, y, min.z, z);
      visited := visited + [Vec3(x, y, z)];
      created := created + 1;
      z := z + 1;
    }
    RowExit(x, y, min.z, z, max.z);
  }

  /** The loop body of WriteChunks: the chunk of `p` is generated and written to its record. */
  method WriteAt(db: DB.Database, chunk: Chunk, f: Noise.Fields, p: Vec3, ghost w: BuildPlan, ghost visited: seq<Vec3>)
    requires Writing(db, w, visited) && w.fields == f && Reusable(chunk, f) && DB.InBox(w.min, w.max, p)
    modifies db, chunk, chunk.blocks
    ensures Writing(db, w, visited + [p]) && Reusable(chunk, f) && chunk.blocks == old(chunk.blocks)
  {
    ghost var before := db.disk[w.path];
    GenerateAt(chunk, p);
    WriteGenerated(db, chunk, Generated(f, p));
    assert w.recs(p) == DB.EncodeRecord(Generated(f, p));
    assert w.offs(p) == RecordStart(w.min, w.max, p);
    WriteAllAppend(w.body, w.offs, w.recs, visited, p);
    UpdateTwice(w.others, w.path, before, db.disk[w.path]);
  }

  /** The first half of the loop body: the reused chunk moves to `p` and is generated there. */
  method GenerateAt(chunk: Chunk, p: Vec3)
    requires Reusable(chunk, chunk.world.fields)
    modifies chunk, chunk.blocks
    ensures Reusable(chunk, chunk.world.fields) && chunk.blocks == old(chunk.blocks) && chunk.chunkPos == p
    ensures chunk.blocks[..] == Generated(chunk.world.fields, p)
  {
    ghost var prior := chunk.blocks[..];
    chunk.chunkPos := p;
    ChunkBuilder.Build(chunk);
    RetypedReusedGrid(prior, chunk.world.fields, p);
  }

  /** The second half of the loop body: the generated chunk is written to its record. */
  method WriteGenerated(db: DB.Database, chunk: Chunk, ghost g: seq<Block>)
    requires db.Valid() && db.isOpen && DB.InBox(db.min, db.max, chunk.chunkPos)
    requires DB.IsInt32Vec(db.max.Minus(db.min).Plus(One))
    requires chunk.IsPopulated() && chunk.blocks[..] == g
    modifies db
    ensures db.Valid() && db.isOpen && db.streamPath == old(db.streamPath) && db.filePath == old(db.filePath)
    ensures db.min == old(db.min) && db.max == old(db.max)
    ensures db.disk == old(db.disk)[db.streamPath := DB.RegionFile(DB.PaddedHeader(old(db.disk[db.streamPath].header)),
      DB.Splice(old(db.disk[db.streamPath].body), RecordStart(db.min, db.max, chunk.chunkPos), DB.EncodeRecord(g)))]
  {
    assert RecordStart(db.min, db.max, chunk.chunkPos) == db.RecordCellOffset(chunk.chunkPos);
    var _ := db.WriteChunk(chunk);
  }

  /**
   * In a square box, once every position of the visit order was written, the record of each
   * position of the box holds its generated chunk.
   */
  lemma BuildCoversBox(body: seq<DB.Int16>, lo: Vec3, hi: Vec3, f: Noise.Fields)
    requires SquareRegion(lo, hi)
    ensures forall q :: DB.InBox(lo, hi, q) ==>
      HoldsChunk(WriteAll(body, RecordOffsets(lo, hi), RecordsFor(f), BoxOrder(lo, hi)), lo, hi, f, q)
  {
    var recs := RecordsFor(f);
    RecordsForAreRecords(f);
    RecordsOfSized(recs, f);
    BoxOrderDisjoint(lo, hi);
    forall q | DB.InBox(lo, hi, q)
      ensures HoldsChunk(WriteAll(body, RecordOffsets(lo, hi), recs, BoxOrder(lo, hi)), lo, hi, f, q)
    {
      BoxOrderCovers(lo, hi, q);
      WriteAllHolds(body, RecordOffsets(lo, hi), recs, BoxOrder(lo, hi), q);
      HoldsGenerated(WriteAll(body, RecordOffsets(lo, hi), recs, BoxOrder(lo, hi)), lo, hi, f, recs, q);
    }
  }

  /** The int32 increment `x++` of the loop counters of WriteChunks. */
  function CounterStep(x: int): (r: int)
    ensures -0x8000_0000 <= r < 0x8000_0000
    ensures -0x8000_0000 <= x < 0x7fff_ffff ==> r == x + 1
  {
    DB.Wrap32(x + 1)
  }

  /**
   * The unchecked int32 counter `CreatedChunks += 1`: adding k to a wrapped count and
   * wrapping again is the wrap of the exact count.  So after n increments from 0 the counter
   * holds Wrap32(n), and WriteChunks may assign that at once.
   */
  lemma {:induction false} WrappedCountAdds(c: int, k: int)
    ensures DB.Wrap32(DB.Wrap32(c) + k) == DB.Wrap32(c + k)
  {
    var m := 0x1_0000_0000;
    var q := (c + 0x8000_0000) / m;
    assert DB.Wrap32(c) == c - q * m by {
      assert c + 0x8000_0000 == q * m + (c + 0x8000_0000) % m;
    }
    ModShift(c + k + 0x8000_0000, -q);
  }

  /** Shifting by a multiple of 2^32 leaves the remainder. */
  lemma ModShift(v: int, q: int)
    ensures (v + q * 0x1_0000_0000) % 0x1_0000_0000 == v % 0x1_0000_0000
  {
    var m := 0x1_0000_0000;
    var r := v % m;
    assert v == (v / m) * m + r;
    assert v + q * m == (v / m + q) * m + r;
  }

  /**
   * With the bound int.MaxValue every int32 counter passes the guard `x <= max`, and the
   * increment wraps the top value around to int.MinValue: the loop never ends.
   */
  lemma GuardHoldsAtMaxValue(x: int)
    requires -0x8000_0000 <= x < 0x8000_0000
    ensures x <= 0x7fff_ffff && -0x8000_0000 <= CounterStep(x) <= 0x7fff_ffff
    ensures CounterStep(0x7fff_ffff) == -0x8000_0000
  {
    assert 0x7fff_ffff + 1 + 0x8000_0000 == 0x1_0000_0000;
  }

  /** The counter after k increments. */
  function Steps(x: int, k: nat): int
  {
    if k == 0 then x else CounterStep(Steps(x, k - 1))
  }

  /**
   * Below int.MaxValue the counter of `for (x = lo; x <= hi; x++)` passes the guard for the
   * first Extent(lo, hi) steps, visiting lo .. hi in turn, and then stands at hi + 1, where
   * the guard fails.
   */
  lemma {:induction false} StepsVisitRange(lo: int, hi: int, k: nat)
    requires -0x8000_0000 <= lo && hi < 0x7fff_ffff && k <= Extent(lo, hi)
    ensures Steps(lo, k) == lo + k
    ensures k < Extent(lo, hi) ==> Steps(lo, k) <= hi
  {
    if k > 0 {
      StepsVisitRange(lo, hi, k - 1);
    }
  }

  lemma StepsReachEnd(lo: int, hi: int)
    requires -0x8000_0000 <= lo <= hi < 0x7fff_ffff
    ensures Steps(lo, Extent(lo, hi)) == hi + 1 && Steps(lo, Extent(lo, hi)) > hi
  {
    StepsVisitRange(lo, hi, Extent(lo, hi));
  }

  class WorldBuilder {
    /** WorldBuilder.world, whose noise fields the generator uses. */
    const world: WorldData
    /** WorldData.database of the builder's world. */
    const database: DB.Database
    var isBuilding: bool
    var createdChunks: int
    var min: Vec3
    var max: Vec3
    var filePath: string

    ghost predicate Valid()
      reads this, database
    {
      database.Valid() && DB.IsInt32Vec(min) && DB.IsInt32Vec(max)
    }

    constructor (world: WorldData, disk: map<string, DB.RegionFile>)
      requires DB.WellFormedDisk(disk)
      ensures Valid() && !isBuilding && createdChunks == 0 && this.world == world
      ensures fresh(database) && database.disk == disk && !database.isOpen
    {
      this.world := world;
      database := new DB.Database(disk);
      isBuilding := false;
      createdChunks := 0;
      min := Zero;
      max := Zero;
      filePath := "";
    }

    /**
     * WorldBuilder.TotalChunks (Scripts/WorldBuilder.cs:14, 61-65): the int32 product of the
     * store's Size, which is the box volume while the store is open and 1 once it is closed.
     */
    function TotalChunks(): (n: int)
      reads this, database
      ensures !database.isOpen && database.min == Zero && database.max == Zero ==> n == 1
      ensures database.isOpen && BoxVolume(database.min, database.max) < 0x8000_0000
        && database.min.x <= database.max.x && database.min.y <= database.max.y && database.min.z <= database.max.z
        ==> n == BoxVolume(database.min, database.max)
    {
      Volume32OfBox(database.min, database.max);
      assert DB.Volume32(DB.RegionSize(Zero, Zero)) == 1;
      DB.Volume32(database.Size())
    }

    /** The number of chunks a build of the builder's box writes. */
    function PlannedChunks(): (n: nat)
      reads this
      ensures n == 0 <==> max.x < min.x || max.y < min.y || max.z < min.z
    {
      BoxVolume(min, max)
    }

    /**
     * WorldBuilder.Build (Scripts/WorldBuilder.cs:21-37), with the worker of WriteChunks run to
     * its end.  A builder that has started once refuses every later build and changes nothing.
     * Otherwise the builder records the box and the store is created for it; when the box's
     * int32 size is negative Create throws out of Build; the model reports that throw as
     * false, with the store left open on the empty file.  Else every position of the box is
     * written, CreatedChunks holds the int32 count of the box and the store is closed.
     */
    method Build(path: string, lo: Vec3, hi: Vec3) returns (r: bool)
      requires Valid() && DB.IsInt32Vec(lo) && DB.IsInt32Vec(hi) && DB.IsInt32Vec(hi.Minus(lo).Plus(One))
      requires hi.x < 0x7fff_ffff && hi.y < 0x7fff_ffff && hi.z < 0x7fff_ffff
      modifies this, database
      ensures Valid()
      ensures old(isBuilding) ==> !r && unchanged(this, database)
      ensures !old(isBuilding) ==> isBuilding && min == lo && max == hi && filePath == path
      ensures !old(isBuilding) ==> (r <==> DB.Volume32(DB.RegionSize(lo, hi)) >= 0)
      ensures !old(isBuilding) && !r ==>
        createdChunks == 0 && database.isOpen && database.streamPath == path
        && database.disk == old(database.disk)[path := DB.RegionFile([], [])]
      ensures r ==> createdChunks == DB.Wrap32(PlannedChunks()) && TotalChunks() == 1 && !database.isOpen
      ensures r && PlannedChunks() < 0x8000_0000 ==> createdChunks == PlannedChunks()
      ensures r ==> path in database.disk && database.disk == old(database.disk)[path := database.disk[path]]
      ensures r ==> DB.HeaderBounds(database.disk[path].header) == (lo, hi)
      ensures r ==>
        database.disk[path].body ==
        WriteAll(DB.CreatedFile(lo, hi).body, RecordOffsets(lo, hi), RecordsFor(world.fields), BoxOrder(lo, hi))
      ensures r && SquareRegion(lo, hi) ==> forall q :: DB.InBox(lo, hi, q) ==>
        HoldsChunk(database.disk[path].body, lo, hi, world.fields, q)
    {
      if isBuilding {
        return false;
      }
      min := lo;
      max := hi;
      filePath := path;
      createdChunks := 0;
      isBuilding := true;
      r := database.Create(path, lo, hi);
      if !r {
        return;
      }
      RunWriter(old(database.disk), path);
    }

    /**
     * The part of Build after a successful Create: the worker WriteChunks run on the created
     * file of the builder's box, which ends closed and holding every generated record.
     */
    method RunWriter(ghost others: map<string, DB.RegionFile>, path: string)
      requires Valid() && isBuilding && filePath == path && DB.IsInt32Vec(max.Minus(min).Plus(One))
      requires max.x < 0x7fff_ffff && max.y < 0x7fff_ffff && max.z < 0x7fff_ffff
      requires DB.Volume32(DB.RegionSize(min, max)) >= 0
      requires database.isOpen && database.streamPath == path && database.filePath == None
      requires database.min == min && database.max == max
      requires database.disk == others[path := DB.CreatedFile(min, max)]
      modifies this, database
      ensures Valid() && isBuilding && min == old(min) && max == old(max) && filePath == path
      ensures createdChunks == DB.Wrap32(PlannedChunks()) && TotalChunks() == 1 && !database.isOpen
      ensures path in database.disk && database.disk == others[path := database.disk[path]]
      ensures DB.HeaderBounds(database.disk[path].header) == (min, max)
      ensures database.disk[path].body ==
        WriteAll(DB.CreatedFile(min, max).body, RecordOffsets(min, max), RecordsFor(world.fields), BoxOrder(min, max))
      ensures SquareRegion(min, max) ==> forall q :: DB.InBox(min, max, q) ==>
        HoldsChunk(database.disk[path].body, min, max, world.fields, q)
    {
      var lo, hi := min, max;
      DB.CreatedBoundsRoundTrip(lo, hi);
      ghost var recs := RecordsFor(world.fields);
      RecordsForAreRecords(world.fields);
      ghost var file := DB.CreatedFile(lo, hi);
      ghost var offs := RecordOffsets(lo, hi);
      RecordOffsetsAligned(lo, hi);
      ghost var w: BuildPlan := Plan(others, path, None, lo, hi, file.header, file.body, offs, recs, world.fields);
      WriteChunks(w);
      if SquareRegion(lo, hi) {
        BuildCoversBox(file.body, lo, hi, world.fields);
      }
    }

    /**
     * WorldBuilder.WriteChunks (Scripts/WorldBuilder.cs:39-59), run on the store as the plan `w`
     * describes it: every position of the box, in the visit order, has its generated record
     * written, the int32 counter CreatedChunks ends at the wrapped count of the box and the
     * store is closed.
     */
    method WriteChunks(ghost w: BuildPlan)
      requires Valid() && Writing(database, w, []) && w.min == min && w.max == max
      requires w.fields == world.fields
      modifies this, database
      ensures Valid() && !database.isOpen && database.min == Zero && database.max == Zero
      ensures isBuilding == old(isBuilding) && min == old(min) && max == old(max) && filePath == old(filePath)
      ensures createdChunks == DB.Wrap32(BoxVolume(min, max))
      ensures database.streamPath == w.path
      ensures database.disk == w.others[w.path := DB.RegionFile(w.header, WriteAll(w.body, w.offs, w.recs, BoxOrder(min, max)))]
    {
      var n := WriteRegion(database, world, w);
      BoxOrderLength(min, max);
      createdChunks := DB.Wrap32(n);
      database.Close();
    }
  }
}
