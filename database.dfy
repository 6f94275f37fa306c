/**
 * The region store of Scripts/Database.cs: one file holding every chunk of a box of chunk
 * positions [Min, Max].
 *
 * A region file is a 24-byte header (Min then Max, three int32 each) followed by one
 * 16384-byte record per chunk; a record holds an int16 type code and an int16 overlay per
 * block, x outer and z inner.  The model keeps a file as its cells: `header`, the complete
 * int32 cells of its first 24 bytes, and `body`, the int16 cells after them.  The file system
 * the store opens files on is the `disk` map of the store.
 *
 * The record index of the code, x*sizeY*sizeZ + y*sizeX + z (`ChunkIndexAsWritten`), is what
 * the store uses.  It numbers the box without collisions only when sizeX == sizeZ;
 * `ChunkIndex`, the row-major index x*sizeY*sizeZ + y*sizeZ + z, is the evidently intended
 * one and agrees with it on those boxes.
 */
module Database {

  import opened Blocks
  import opened Util
  import opened Chunks

  newtype Int32 = c: int | -0x8000_0000 <= c < 0x8000_0000
  newtype Int16 = c: int | -0x8000 <= c < 0x8000

  /** Database.baseDataSize: the header length in bytes. */
  const BaseDataSize: int := 24

  /** Database.chunkDataSize: the record length in bytes, four per block. */
  const ChunkDataSize: int := 16384

  /** The int16 cells of one record: two per block. */
  const RecordCells: int := 8192

  lemma RecordSizes()
    ensures ChunkDataSize == ChunkVolume * 4 && RecordCells == 2 * ChunkVolume
    ensures BaseDataSize == 6 * 4 && ChunkDataSize == 2 * RecordCells
  {
  }

  /**
   * C# unchecked int arithmetic: the value brought into the int32 range by whole turns of
   * 2^32.
   */
  function Wrap32(v: int): (r: int)
    ensures -0x8000_0000 <= r < 0x8000_0000
    ensures -0x8000_0000 <= v < 0x8000_0000 ==> r == v
  {
    (v + 0x8000_0000) % 0x1_0000_0000 - 0x8000_0000
  }

  /** The wrapped value differs from the exact one by a whole number of turns of 2^32. */
  lemma Wrap32Congruent(v: int)
    ensures (Wrap32(v) - v) % 0x1_0000_0000 == 0
  {
    var q := (v + 0x8000_0000) / 0x1_0000_0000;
    assert v + 0x8000_0000 == q * 0x1_0000_0000 + (v + 0x8000_0000) % 0x1_0000_0000;
    assert Wrap32(v) - v == -q * 0x1_0000_0000;
  }

  predicate IsInt32Vec(v: Vec3)
  {
    -0x8000_0000 <= v.x < 0x8000_0000 && -0x8000_0000 <= v.y < 0x8000_0000 && -0x8000_0000 <= v.z < 0x8000_0000
  }

  /** Database.Size (Scripts/Database.cs:24-27): (Max - Min) + (1, 1, 1) in int32 arithmetic. */
  function RegionSize(min: Vec3, max: Vec3): (s: Vec3)
    ensures IsInt32Vec(s)
    ensures IsInt32Vec(max.Minus(min).Plus(One)) ==> s == max.Minus(min).Plus(One)
  {
    Vec3(Wrap32(max.x - min.x + 1), Wrap32(max.y - min.y + 1), Wrap32(max.z - min.z + 1))
  }

  /** The chunk count Create computes: sizeX * sizeY * sizeZ, each product an int32. */
  function Volume32(s: Vec3): int
  {
    Wrap32(Wrap32(s.x * s.y) * s.z)
  }

  /** The byte length Create computes is not negative: SetLength accepts it. */
  predicate Fits(s: Vec3)
  {
    Volume32(s) >= 0
  }

  /** The length in bytes Create gives the file. */
  function DataSize(min: Vec3, max: Vec3): int
  {
    BaseDataSize + Volume32(RegionSize(min, max)) * ChunkDataSize
  }

  /** A region file as cells.  The body is empty when the header is short of six cells. */
  datatype RegionFile = RegionFile(header: seq<Int32>, body: seq<Int16>)
  {
    predicate WellFormed()
    {
      |header| <= 6 && (|header| < 6 ==> body == [])
    }

    /** The file length in bytes. */
    function Length(): int
    {
      4 * |header| + 2 * |body|
    }
  }

  /**
   * The header after a record write: the write position lies past the header, so a header
   * short of six cells is extended with zero cells and a full one is kept.
   */
  function PaddedHeader(h: seq<Int32>): (r: seq<Int32>)
    requires |h| <= 6
    ensures |r| == 6 && r[..|h|] == h
    ensures forall i :: |h| <= i < 6 ==> r[i] == 0
    ensures |h| == 6 ==> r == h
  {
    h + seq(6 - |h|, _ => 0)
  }

  /** WriteVector3Int (Scripts/Database.cs:133-138): three int32 cells, x first. */
  function VecCells(v: Vec3): (r: seq<Int32>)
    requires IsInt32Vec(v)
    ensures |r| == 3
  {
    [v.x as Int32, v.y as Int32, v.z as Int32]
  }

  /** The file Create leaves: the bounds in the header and a zeroed record for every chunk. */
  function CreatedFile(min: Vec3, max: Vec3): (f: RegionFile)
    requires IsInt32Vec(min) && IsInt32Vec(max) && Volume32(RegionSize(min, max)) >= 0
    ensures f.WellFormed()
  {
    RegionFile(VecCells(min) + VecCells(max), seq(Volume32(RegionSize(min, max)) * RecordCells, _ => 0))
  }

  /** ReadVector3Int (Scripts/Database.cs:140-143) on three cells. */
  function CellsVec(c: seq<Int32>): Vec3
    requires |c| == 3
  {
    Vec3(c[0] as int, c[1] as int, c[2] as int)
  }

  /**
   * The bounds Open reads from a header: Min then Max, where a header that ends early stops
   * the reading and leaves the bounds not yet read at zero.
   */
  function HeaderBounds(h: seq<Int32>): (r: (Vec3, Vec3))
    ensures |h| < 3 ==> r == (Zero, Zero)
    ensures 3 <= |h| < 6 ==> r == (CellsVec(h[..3]), Zero)
    ensures |h| >= 6 ==> r == (CellsVec(h[..3]), CellsVec(h[3..6]))
  {
    if |h| < 3 then (Zero, Zero)
    else if |h| < 6 then (CellsVec(h[..3]), Zero)
    else (CellsVec(h[..3]), CellsVec(h[3..6]))
  }

  /** Open after Create recovers the bounds Create was given. */
  lemma CreatedBoundsRoundTrip(min: Vec3, max: Vec3)
    requires IsInt32Vec(min) && IsInt32Vec(max) && Volume32(RegionSize(min, max)) >= 0
    ensures HeaderBounds(CreatedFile(min, max).header) == (min, max)
  {
    var h := CreatedFile(min, max).header;
    assert h[..3] == VecCells(min) && h[3..6] == VecCells(max);
  }

  /** The file holds one record per chunk of the box: its length is what it must be. */
  lemma CreatedFileHoldsEveryRecord(min: Vec3, max: Vec3)
    requires IsInt32Vec(min) && IsInt32Vec(max) && Volume32(RegionSize(min, max)) >= 0
    ensures |CreatedFile(min, max).body| == Volume32(RegionSize(min, max)) * RecordCells
    ensures DataSize(min, max) == BaseDataSize + |CreatedFile(min, max).body| * 2
    ensures CreatedFile(min, max).Length() == DataSize(min, max)
  {
  }

  /** The offsets of a chunk position inside the box (Util.MapValue taken as pos - Min). */
  function Relative(min: Vec3, pos: Vec3): Vec3
  {
    pos.Minus(min)
  }

  predicate InBox(min: Vec3, max: Vec3, pos: Vec3)
  {
    min.x <= pos.x <= max.x && min.y <= pos.y <= max.y && min.z <= pos.z <= max.z
  }

  /** The index SeekToChunk computes (Scripts/Database.cs:128), as written. */
  function ChunkIndexAsWritten(size: Vec3, rel: Vec3): int
  {
    rel.x * size.y * size.z + rel.y * size.x + rel.z
  }

  /** The row-major record index: x outer, z inner. */
  function ChunkIndex(size: Vec3, rel: Vec3): int
  {
    rel.x * size.y * size.z + rel.y * size.z + rel.z
  }

  predicate InSize(size: Vec3, rel: Vec3)
  {
    0 <= rel.x < size.x && 0 <= rel.y < size.y && 0 <= rel.z < size.z
  }

  /** Every position of the box gets a record inside the file. */
  lemma ChunkIndexInRange(size: Vec3, rel: Vec3)
    requires InSize(size, rel)
    ensures 0 <= ChunkIndex(size, rel) < size.x * size.y * size.z
  {
    var yz := size.y * size.z;
    var inner := rel.y * size.z + rel.z;
    MulStep(rel.y, size.y, size.z);
    assert 0 <= inner < yz;
    MulStep(rel.x, size.x, yz);
    assert size.x * size.y * size.z == size.x * yz;
  }

  /** With 0 <= a < b and 0 < n, a * n + n <= b * n. */
  lemma MulStep(a: int, b: int, n: int)
    requires 0 <= a < b && 0 < n
    ensures 0 <= a * n && a * n + n <= b * n
  {
    assert b * n - a * n == (b - a) * n;
    MulAtLeast(b - a, n);
    if a > 0 {
      MulAtLeast(a, n);
    }
  }

  /** d * n >= n for d >= 1 and n > 0. */
  lemma {:induction false} MulAtLeast(d: int, n: int)
    requires d >= 1 && n > 0
    ensures d * n >= n
    decreases d
  {
    if d > 1 {
      MulAtLeast(d - 1, n);
      assert d * n == (d - 1) * n + n;
    }
  }

  /** Distinct positions of the box have distinct records. */
  lemma ChunkIndexInjective(size: Vec3, a: Vec3, b: Vec3)
    requires InSize(size, a) && InSize(size, b) && ChunkIndex(size, a) == ChunkIndex(size, b)
    ensures a == b
  {
    var yz := size.y * size.z;
    var ra := a.y * size.z + a.z;
    var rb := b.y * size.z + b.z;
    ChunkIndexInRange(Vec3(1, size.y, size.z), Vec3(0, a.y, a.z));
    ChunkIndexInRange(Vec3(1, size.y, size.z), Vec3(0, b.y, b.z));
    assert ChunkIndex(size, a) == a.x * yz + ra && ChunkIndex(size, b) == b.x * yz + rb;
    Unmix(a.x, ra, b.x, rb, yz);
    Unmix(a.y, a.z, b.y, b.z, size.z);
  }

  /** a * n + r determines a and r when 0 <= r < n. */
  lemma Unmix(a: int, r: int, b: int, s: int, n: int)
    requires 0 <= r < n && 0 <= s < n && a * n + r == b * n + s
    ensures a == b && r == s
  {
    assert (a - b) * n == s - r;
    if a > b {
      MulAtLeast(a - b, n);
    } else if b > a {
      MulAtLeast(b - a, n);
    }
  }

  /** The written index of a position of the box is never negative. */
  lemma ChunkIndexAsWrittenNonNegative(size: Vec3, rel: Vec3)
    requires InSize(size, rel)
    ensures ChunkIndexAsWritten(size, rel) >= 0
  {
    MulAtLeast(size.y, size.z);
    if rel.x > 0 {
      MulAtLeast(rel.x, size.y * size.z);
    }
    assert rel.x * size.y * size.z == rel.x * (size.y * size.z);
    if rel.y > 0 {
      MulAtLeast(rel.y, size.x);
    }
  }

  /**
   * When sizeX <= sizeZ the written index of every position of the box stays below the box
   * volume, so each record lies inside the created file.
   */
  lemma ChunkIndexAsWrittenInRange(size: Vec3, rel: Vec3)
    requires InSize(size, rel) && size.x <= size.z
    ensures 0 <= ChunkIndexAsWritten(size, rel) < size.x * size.y * size.z
  {
    ChunkIndexAsWrittenNonNegative(size, rel);
    ChunkIndexInRange(size, rel);
    assert rel.y * size.x <= rel.y * size.z by {
      if rel.y > 0 {
        assert rel.y * size.z - rel.y * size.x == rel.y * (size.z - size.x);
        if size.z > size.x {
          MulAtLeast(rel.y, size.z - size.x);
        }
      }
    }
  }

  /** With sizeX == sizeZ, as in a square region, the written index is the row-major one. */
  lemma AsWrittenAgreesOnSquareRegions(size: Vec3, rel: Vec3)
    requires size.x == size.z
    ensures ChunkIndexAsWritten(size, rel) == ChunkIndex(size, rel)
  {
  }

  /** In a 1 x 2 x 2 region the written index gives (0, 0, 1) and (0, 1, 0) the same record. */
  lemma AsWrittenIndexCollides()
    ensures InSize(Vec3(1, 2, 2), Vec3(0, 0, 1)) && InSize(Vec3(1, 2, 2), Vec3(0, 1, 0))
    ensures ChunkIndexAsWritten(Vec3(1, 2, 2), Vec3(0, 0, 1)) == ChunkIndexAsWritten(Vec3(1, 2, 2), Vec3(0, 1, 0))
    ensures ChunkIndex(Vec3(1, 2, 2), Vec3(0, 0, 1)) != ChunkIndex(Vec3(1, 2, 2), Vec3(0, 1, 0))
  {
  }

  /**
   * In a freshly created region whose chunk count fits an int32 and whose x extent is at most
   * its z extent, every position of the box has its whole record, at the written index, inside
   * the file.
   */
  lemma CreatedFileHoldsRecord(min: Vec3, max: Vec3, pos: Vec3)
    requires IsInt32Vec(min) && IsInt32Vec(max) && InBox(min, max, pos)
    requires IsInt32Vec(max.Minus(min).Plus(One)) && max.x - min.x <= max.z - min.z
    requires max.Minus(min).Plus(One).x * max.Minus(min).Plus(One).y * max.Minus(min).Plus(One).z < 0x8000_0000
    ensures Volume32(RegionSize(min, max)) >= 0
    ensures CellOffset(ChunkIndexAsWritten(max.Minus(min).Plus(One), Relative(min, pos))) + RecordCells
      <= |CreatedFile(min, max).body|
  {
    var s := max.Minus(min).Plus(One);
    assert RegionSize(min, max) == s;
    var xy := s.x * s.y;
    MulAtLeast(s.x, s.y);
    MulAtLeast(s.z, xy);
    assert xy * s.z == s.z * xy;
    assert Volume32(s) == xy * s.z;
    ChunkIndexAsWrittenInRange(s, Relative(min, pos));
    var k := ChunkIndexAsWritten(s, Relative(min, pos));
    assert k + 1 <= xy * s.z;
    assert (k + 1) * RecordCells <= xy * s.z * RecordCells;
  }

  /** The byte offset SeekToChunk seeks to (Scripts/Database.cs:130). */
  function RecordOffset(index: int): int
  {
    BaseDataSize + index * ChunkDataSize
  }

  /** The same offset counted in body cells. */
  function CellOffset(index: int): int
  {
    index * RecordCells
  }

  lemma OffsetsAgree(index: int)
    ensures RecordOffset(index) == 4 * 6 + 2 * CellOffset(index)
  {
  }

  /** Two cell sequences of one length merged cell by cell: t[0], o[0], t[1], o[1], ... */
  function Interleave(t: seq<Int16>, o: seq<Int16>): (r: seq<Int16>)
    requires |t| == |o|
    ensures |r| == 2 * |t|
    ensures forall i :: 0 <= i < |t| ==> r[2 * i] == t[i] && r[2 * i + 1] == o[i]
  {
    if |t| == 0 then [] else [t[0], o[0]] + Interleave(t[1..], o[1..])
  }

  /** The cells WriteChunk writes for a grid: type code then overlay, block by block. */
  function EncodeRecord(g: seq<Block>): (r: seq<Int16>)
    requires |g| == ChunkVolume
    ensures |r| == RecordCells
    ensures forall i :: 0 <= i < ChunkVolume ==> r[2 * i] as int == TypeCode(g[i].blockType)
    ensures forall i :: 0 <= i < ChunkVolume ==> r[2 * i + 1] as int == g[i].overlay as int
  {
    Interleave(seq(ChunkVolume, i requires 0 <= i < ChunkVolume => TypeCode(g[i].blockType) as Int16),
               seq(ChunkVolume, i requires 0 <= i < ChunkVolume => g[i].overlay as int as Int16))
  }

  /** Every type cell the record holds is a code of a block type. */
  predicate TypeCellsValid(cells: seq<Int16>)
  {
    forall i :: 0 <= i < ChunkVolume && 2 * i < |cells| ==> 0 <= cells[2 * i] < 8
  }

  /**
   * The grid ReadChunk leaves from the cells it could read: a block whose two cells were read
   * is replaced, a block whose type cell alone was read gets that type, the others are kept.
   */
  function DecodeRecordInto(prior: seq<Block>, cells: seq<Int16>): (r: seq<Block>)
    requires |prior| == ChunkVolume && TypeCellsValid(cells)
    ensures |r| == ChunkVolume
    ensures forall i :: 0 <= i < ChunkVolume && 2 * i < |cells| ==> TypeCode(r[i].blockType) == cells[2 * i] as int
    ensures forall i :: 0 <= i < ChunkVolume && 2 * i + 1 < |cells| ==> r[i].overlay as int == cells[2 * i + 1] as int
    ensures forall i :: 0 <= i < ChunkVolume && 2 * i + 1 >= |cells| ==> r[i].overlay == prior[i].overlay
    ensures forall i :: 0 <= i < ChunkVolume && 2 * i >= |cells| ==> r[i] == prior[i]
  {
    seq(ChunkVolume, i requires 0 <= i < ChunkVolume =>
      if 2 * i + 1 < |cells| then Block(TypeOfCode(cells[2 * i] as int).value, cells[2 * i + 1] as int as Overlay)
      else if 2 * i < |cells| then Block(TypeOfCode(cells[2 * i] as int).value, prior[i].overlay)
      else prior[i])
  }

  /** A complete record replaces every block; what was in the chunk before does not matter. */
  lemma DecodeCompleteRecord(prior: seq<Block>, prior': seq<Block>, cells: seq<Int16>)
    requires |prior| == ChunkVolume && |prior'| == ChunkVolume
    requires TypeCellsValid(cells) && |cells| >= RecordCells
    ensures DecodeRecordInto(prior, cells) == DecodeRecordInto(prior', cells)
  {
  }

  /** ReadChunk of what WriteChunk wrote reproduces every block, type and overlay. */
  lemma DecodeOfEncodeRecord(prior: seq<Block>, g: seq<Block>)
    requires |prior| == ChunkVolume && |g| == ChunkVolume
    ensures TypeCellsValid(EncodeRecord(g))
    ensures DecodeRecordInto(prior, EncodeRecord(g)) == g
  {
    var r := EncodeRecord(g);
    forall i | 0 <= i < ChunkVolume
      ensures DecodeRecordInto(prior, r)[i] == g[i]
    {
      TypeCodeRoundTrip(g[i].blockType);
    }
  }

  /** WriteChunk of what ReadChunk read from a complete record writes those cells back. */
  lemma EncodeOfDecodeRecord(prior: seq<Block>, cells: seq<Int16>)
    requires |prior| == ChunkVolume && |cells| == RecordCells && TypeCellsValid(cells)
    ensures EncodeRecord(DecodeRecordInto(prior, cells)) == cells
  {
    var g := DecodeRecordInto(prior, cells);
    var r := EncodeRecord(g);
    forall j | 0 <= j < RecordCells
      ensures r[j] == cells[j]
    {
      var i := j / 2;
      assert 0 <= i < ChunkVolume && 2 * i + 1 < |cells|;
      assert g[i] == Block(TypeOfCode(cells[2 * i] as int).value, cells[2 * i + 1] as int as Overlay);
      if j == 2 * i {
        CodeTypeRoundTrip(cells[j] as int);
        assert r[2 * i] as int == TypeCode(g[i].blockType);
      } else {
        assert j == 2 * i + 1;
        assert r[2 * i + 1] as int == g[i].overlay as int;
      }
    }
  }

  /**
   * The body after writing `rec` at cell offset `off`: writing past the end grows the file,
   * and the cells between the old end and the offset read as zero.
   */
  function Splice(body: seq<Int16>, off: nat, rec: seq<Int16>): (r: seq<Int16>)
    ensures |r| == if |body| >= off + |rec| then |body| else off + |rec|
  {
    seq(if |body| >= off + |rec| then |body| else off + |rec|, j requires 0 <= j =>
      if off <= j < off + |rec| then rec[j - off] else if j < |body| then body[j] else 0)
  }

  /** The cells of the record at cell offset `off`, as far as the body reaches. */
  function RecordAt(body: seq<Int16>, off: nat): (r: seq<Int16>)
    ensures |r| <= RecordCells
    ensures |body| >= off + RecordCells ==> |r| == RecordCells
  {
    if |body| <= off then []
    else if |body| >= off + RecordCells then body[off..off + RecordCells]
    else body[off..]
  }

  /** Reading a record back at the offset it was written to yields it. */
  lemma RecordAtSplice(body: seq<Int16>, off: nat, rec: seq<Int16>)
    requires |rec| == RecordCells
    ensures RecordAt(Splice(body, off, rec), off) == rec
  {
  }

  /** Writing a record leaves every other complete record of the body as it was. */
  lemma SpliceKeepsOtherRecords(body: seq<Int16>, i: nat, j: nat, rec: seq<Int16>)
    requires |rec| == RecordCells && i != j && CellOffset(j) + RecordCells <= |body|
    ensures RecordAt(Splice(body, CellOffset(i), rec), CellOffset(j)) == RecordAt(body, CellOffset(j))
  {
    var s := Splice(body, CellOffset(i), rec);
    var oi, oj := CellOffset(i), CellOffset(j);
    if i < j {
      assert oi + RecordCells <= oj by {
        assert oj - oi == (j - i) * RecordCells;
      }
    } else {
      assert oj + RecordCells <= oi by {
        assert oi - oj == (i - j) * RecordCells;
      }
    }
    forall k | oj <= k < oj + RecordCells
      ensures s[k] == body[k]
    {
    }
  }

  /** Every file of the file system is a well-formed region file. */
  ghost predicate WellFormedDisk(disk: map<string, RegionFile>)
  {
    forall p :: p in disk ==> disk[p].WellFormed()
  }

  /** Replacing one file by a well-formed one keeps the file system well-formed. */
  lemma WellFormedDiskUpdate(disk: map<string, RegionFile>, path: string, f: RegionFile)
    requires WellFormedDisk(disk) && f.WellFormed()
    ensures WellFormedDisk(disk[path := f])
  {
  }

  /** What Open reports: the file is missing, or its header ended before Max was read. */
  datatype OpenResult = Opened | FileNotFound | EndOfStream

  class Database {
    /** The file system the store opens its files on. */
    var disk: map<string, RegionFile>
    /** IsOpen: a file stream is held. */
    var isOpen: bool
    /** The path of the file the stream is on. */
    var streamPath: string
    /** FilePath: set by Open only. */
    var filePath: Option<string>
    var min: Vec3
    var max: Vec3

    ghost predicate Valid()
      reads this
    {
      WellFormedDisk(disk)
      && IsInt32Vec(min) && IsInt32Vec(max)
      && (isOpen ==> streamPath in disk)
      && (!isOpen ==> min == Zero && max == Zero && filePath == None)
      && (filePath.Some? ==> filePath.value == streamPath)
    }

    constructor (disk: map<string, RegionFile>)
      requires WellFormedDisk(disk)
      ensures Valid() && this.disk == disk && !isOpen
    {
      this.disk := disk;
      isOpen := false;
      streamPath := "";
      filePath := None;
      min := Zero;
      max := Zero;
    }

    /** Database.Size (Scripts/Database.cs:24-27). */
    function Size(): (s: Vec3)
      reads this
      ensures IsInt32Vec(s)
    {
      RegionSize(min, max)
    }

    /**
     * Database.Close (Scripts/Database.cs:52-64): drops the stream and zeroes the bounds; a
     * closed store is left as it is.
     */
    method Close()
      requires Valid()
      modifies this
      ensures Valid() && !isOpen && min == Zero && max == Zero && filePath == None
      ensures disk == old(disk) && streamPath == old(streamPath)
    {
      if isOpen {
        isOpen := false;
        filePath := None;
        min := Zero;
        max := Zero;
      }
    }

    /**
     * Database.Open (Scripts/Database.cs:32-50): closes, then opens an existing file and reads
     * Min and Max from its header.  A missing file throws FileNotFoundException with the store
     * closed; a header shorter than 24 bytes throws EndOfStreamException with the stream open
     * and the bounds read so far.
     */
    method Open(path: string) returns (r: OpenResult)
      requires Valid()
      modifies this
      ensures Valid() && disk == old(disk)
      ensures path !in disk ==> r == FileNotFound && !isOpen
      ensures path in disk ==> isOpen && streamPath == path && filePath == Some(path)
      ensures path in disk ==> (min, max) == HeaderBounds(disk[path].header)
      ensures path in disk ==> (r == Opened <==> |disk[path].header| == 6) && r != FileNotFound
    {
      Close();
      if path !in disk {
        return FileNotFound;
      }
      isOpen := true;
      streamPath := path;
      filePath := Some(path);
      var h := disk[path].header;
      if |h| < 3 {
        return EndOfStream;
      }
      min := CellsVec(h[..3]);
      if |h| < 6 {
        return EndOfStream;
      }
      max := CellsVec(h[3..6]);
      r := Opened;
    }

    /**
     * Database.Create (Scripts/Database.cs:66-83): closes, creates or truncates the file, sets
     * the bounds, sizes the file for every record of the box and writes the header.  A negative
     * length makes SetLength throw, leaving the stream open on the empty file.  FilePath is not
     * set.
     */
    method Create(path: string, lo: Vec3, hi: Vec3) returns (ok: bool)
      requires Valid() && IsInt32Vec(lo) && IsInt32Vec(hi)
      modifies this
      ensures Valid() && isOpen && streamPath == path && filePath == None && min == lo && max == hi
      ensures ok <==> Volume32(RegionSize(lo, hi)) >= 0
      ensures ok ==> disk == old(disk)[path := CreatedFile(lo, hi)]
      ensures !ok ==> disk == old(disk)[path := RegionFile([], [])]
    {
      // Size once Min and Max are set; SetLength below refuses a negative length
      ok := Fits(RegionSize(lo, hi));
      Close();
      WellFormedDiskUpdate(disk, path, RegionFile([], []));
      isOpen := true;
      streamPath := path;
      disk := disk[path := RegionFile([], [])];
      min := lo;
      max := hi;
      if !ok {
        return;
      }
      var file := CreatedFile(lo, hi);
      WellFormedDiskUpdate(disk, path, file);
      disk := disk[path := file];
    }

    /** The position may be sought: inside the box, whose extent fits the int32 arithmetic. */
    predicate CanSeek(pos: Vec3)
      reads this
    {
      InBox(min, max, pos) && IsInt32Vec(max.Minus(min).Plus(One))
    }

    /** The cell offset SeekToChunk (Scripts/Database.cs:121-131) selects, with the index as written. */
    function RecordCellOffset(pos: Vec3): (off: nat)
      requires CanSeek(pos)
      reads this
      ensures off == CellOffset(ChunkIndexAsWritten(max.Minus(min).Plus(One), Relative(min, pos)))
    {
      ChunkIndexAsWrittenNonNegative(max.Minus(min).Plus(One), Relative(min, pos));
      CellOffset(ChunkIndexAsWritten(max.Minus(min).Plus(One), Relative(min, pos)))
    }

    /**
     * Database.WriteChunk (Scripts/Database.cs:85-102): seeks to the chunk's record and writes
     * each block's type code and overlay as int16, x outer and z inner, growing the file when
     * the record lies past its end.
     */
    method WriteChunk(chunk: Chunk) returns (ok: bool)
      requires isOpen && streamPath in disk && disk[streamPath].WellFormed()
      requires chunk.IsPopulated() && CanSeek(chunk.chunkPos)
      modifies this
      ensures ok
      ensures isOpen && streamPath == old(streamPath) && filePath == old(filePath)
      ensures min == old(min) && max == old(max)
      ensures disk == old(disk)[streamPath := RegionFile(
        PaddedHeader(old(disk[streamPath].header)),
        Splice(old(disk[streamPath].body), RecordCellOffset(chunk.chunkPos), EncodeRecord(old(chunk.blocks[..]))))]
      ensures old(Valid()) ==> Valid()
    {
      var file := disk[streamPath];
      var off := RecordCellOffset(chunk.chunkPos);
      var written := StreamRecord(chunk.blocks);
      var body := Splice(file.body, off, written);
      var header := PaddedHeader(file.header);
      if Valid() {
        WellFormedDiskUpdate(disk, streamPath, RegionFile(header, body));
      }
      disk := disk[streamPath := RegionFile(header, body)];
      return true;
    }

    /**
     * Database.ReadChunk (Scripts/Database.cs:104-119): seeks to the chunk's record and sets
     * each block's type and overlay from the cells, in WriteChunk's order.  A record cut short
     * by the end of the file throws EndOfStreamException after the cells it had: the model
     * then reports false with exactly those cells read.
     */
    method ReadChunk(chunk: Chunk) returns (ok: bool)
      requires Valid() && isOpen && chunk.IsPopulated() && CanSeek(chunk.chunkPos)
      requires TypeCellsValid(RecordAt(disk[streamPath].body, RecordCellOffset(chunk.chunkPos)))
      modifies chunk.blocks
      ensures ok <==> |disk[streamPath].body| >= RecordCellOffset(chunk.chunkPos) + RecordCells
      ensures chunk.blocks[..] ==
        DecodeRecordInto(old(chunk.blocks[..]), RecordAt(disk[streamPath].body, RecordCellOffset(chunk.chunkPos)))
    {
      var off := RecordCellOffset(chunk.chunkPos);
      var cells := RecordAt(disk[streamPath].body, off);
      ReadCells(chunk.blocks, cells);
      ok := |cells| == RecordCells;
    }
  }

  /**
   * The write loop of WriteChunk: the cells the writer emits from the seek position on, a type
   * code and an overlay per block, x outer and z inner.
   */
  method StreamRecord(grid: array<Block>) returns (written: seq<Int16>)
    requires grid.Length == ChunkVolume
    ensures written == EncodeRecord(grid[..])
  {
    written := [];
    for x := 0 to ChunkSize
      invariant |written| == 2 * (x * 256)
      invariant forall i :: 0 <= i < |written| / 2 ==>
        written[2 * i] == TypeCode(grid[i].blockType) as Int16 && written[2 * i + 1] == grid[i].overlay as int as Int16
    {
      for y := 0 to ChunkSize
        invariant |written| == 2 * (x * 256 + y * 16)
        invariant forall i :: 0 <= i < |written| / 2 ==>
          written[2 * i] == TypeCode(grid[i].blockType) as Int16 && written[2 * i + 1] == grid[i].overlay as int as Int16
      {
        for z := 0 to ChunkSize
          invariant |written| == 2 * (x * 256 + y * 16 + z)
          invariant forall i :: 0 <= i < |written| / 2 ==>
            written[2 * i] == TypeCode(grid[i].blockType) as Int16 && written[2 * i + 1] == grid[i].overlay as int as Int16
        {
          var k := Idx(x, y, z);
          written := written + [TypeCode(grid[k].blockType) as Int16, grid[k].overlay as int as Int16];
        }
      }
    }
    SameRecord(written, grid[..]);
  }

  /** A cell sequence with a grid's type and overlay cells in place is that grid's record. */
  lemma SameRecord(cells: seq<Int16>, g: seq<Block>)
    requires |g| == ChunkVolume && |cells| == RecordCells
    requires forall i :: 0 <= i < ChunkVolume ==>
      cells[2 * i] == TypeCode(g[i].blockType) as Int16 && cells[2 * i + 1] == g[i].overlay as int as Int16
    ensures cells == EncodeRecord(g)
  {
    var r := EncodeRecord(g);
    forall j | 0 <= j < RecordCells
      ensures cells[j] == r[j]
    {
      var i := j / 2;
      assert 0 <= i < ChunkVolume;
      if j == 2 * i {
        assert cells[2 * i] == r[2 * i];
      } else {
        assert j == 2 * i + 1 && r[2 * i + 1] as int == g[i].overlay as int;
      }
    }
  }

  /** The read loop of ReadChunk over the cells the record has. */
  method ReadCells(grid: array<Block>, cells: seq<Int16>)
    requires grid.Length == ChunkVolume && TypeCellsValid(cells)
    modifies grid
    ensures grid[..] == DecodeRecordInto(old(grid[..]), cells)
  {
    ghost var prior := grid[..];
    ghost var dec := DecodeRecordInto(prior, cells);
    var n := |cells|;
    for x := 0 to ChunkSize
      invariant forall j :: 0 <= j < ChunkVolume ==> grid[j] == if j < x * 256 then dec[j] else prior[j]
    {
      for y := 0 to ChunkSize
        invariant forall j :: 0 <= j < ChunkVolume ==> grid[j] == if j < x * 256 + y * 16 then dec[j] else prior[j]
      {
        for z := 0 to ChunkSize
          invariant forall j :: 0 <= j < ChunkVolume ==> grid[j] == if j < x * 256 + y * 16 + z then dec[j] else prior[j]
        {
          var k := Idx(x, y, z);
          if 2 * k < n {
            grid[k] := grid[k].(blockType := TypeOfCode(cells[2 * k] as int).value);
          }
          if 2 * k + 1 < n {
            grid[k] := grid[k].(overlay := cells[2 * k + 1] as int as Overlay);
          }
        }
      }
    }
    assert grid[..] == dec;
  }

  /** WriteChunk then ReadChunk at the same position reproduce the chunk: the record read is the one written. */
  lemma WriteThenReadRecord(body: seq<Int16>, off: nat, prior: seq<Block>, g: seq<Block>)
    requires |prior| == ChunkVolume && |g| == ChunkVolume
    ensures TypeCellsValid(RecordAt(Splice(body, off, EncodeRecord(g)), off))
    ensures DecodeRecordInto(prior, RecordAt(Splice(body, off, EncodeRecord(g)), off)) == g
  {
    RecordAtSplice(body, off, EncodeRecord(g));
    DecodeOfEncodeRecord(prior, g);
  }
}
