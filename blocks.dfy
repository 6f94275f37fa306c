/**
 * Block values (Block.cs, Scripts/Block.cs).
 *
 * Both snapshots share one block model here.  The newer snapshot gives a block an overlay
 * (its crack stage); the older one has no overlay field, which in this model is the overlay
 * staying at None.  Water is used by the newer generator and by the interaction code but
 * is missing from both `Type` enums; the model adds it as the eighth type, code 7.
 */
module Blocks {

  datatype Option<T> = None | Some(value: T)

  /** Block.Type; the enum is backed by `short` in the newer snapshot. */
  datatype BlockType = Air | Grass | Dirt | Stone | Bedrock | Redstone | Diamond | Water

  /** The numeric value of a type: Air = 0 ... Diamond = 6, and 7 for the added Water. */
  function TypeCode(t: BlockType): (c: int)
    ensures 0 <= c < 8
    ensures c == 0 <==> t == Air
  {
    match t
    case Air => 0
    case Grass => 1
    case Dirt => 2
    case Stone => 3
    case Bedrock => 4
    case Redstone => 5
    case Diamond => 6
    case Water => 7
  }

  /** The type a stored code stands for, if it stands for one. */
  function TypeOfCode(c: int): (r: Option<BlockType>)
    ensures r.Some? <==> 0 <= c < 8
    ensures r.Some? ==> TypeCode(r.value) == c
  {
    if c == 0 then Some(Air)
    else if c == 1 then Some(Grass)
    else if c == 2 then Some(Dirt)
    else if c == 3 then Some(Stone)
    else if c == 4 then Some(Bedrock)
    else if c == 5 then Some(Redstone)
    else if c == 6 then Some(Diamond)
    else if c == 7 then Some(Water)
    else None
  }

  /** Decoding a written code gives back the type: the codes are a faithful encoding. */
  lemma TypeCodeRoundTrip(t: BlockType)
    ensures TypeOfCode(TypeCode(t)) == Some(t)
  {
    match t
    case Air =>
    case Grass =>
    case Dirt =>
    case Stone =>
    case Bedrock =>
    case Redstone =>
    case Diamond =>
    case Water =>
  }

  /** ... and encoding a decoded code gives back the code. */
  lemma CodeTypeRoundTrip(c: int)
    requires 0 <= c < 8
    ensures TypeOfCode(c).Some? && TypeCode(TypeOfCode(c).value) == c
  {
  }

  /** The older snapshot's `Type` enum: the seven types without Water (Block.cs:5-8). */
  predicate IsLegacyType(t: BlockType)
  {
    t != Water
  }

  /** The crack overlay as its `short` value; HitBlock keeps adding one past Crack4. */
  newtype Overlay = c: int | -0x8000 <= c < 0x8000

  const OverlayNone: Overlay := 0
  const Crack1: Overlay := 1
  const Crack2: Overlay := 2
  const Crack3: Overlay := 3
  const Crack4: Overlay := 4

  /** `overlay + 1` on a short-backed enum: unchecked, so it wraps at 16 bits. */
  function NextOverlay(o: Overlay): (r: Overlay)
    ensures o < 0x7fff ==> r as int == o as int + 1
    ensures o == 0x7fff ==> r as int == -0x8000
  {
    if o == 0x7fff then -0x8000 else o + 1
  }

  /** Block.Side. */
  datatype Side = Front | Back | Left | Right | Bottom | Top

  /** A block: its material and its crack overlay. */
  datatype Block = Block(blockType: BlockType, overlay: Overlay)

  /** `default(Block)`: every field zero, the value a freshly allocated grid holds. */
  const EmptyBlock: Block := Block(Air, OverlayNone)

  /** Block.IsSolid: everything except Air is solid (Water included). */
  predicate IsSolid(b: Block)
  {
    b.blockType != Air
  }

  /** A zero-initialised block is Air with no overlay, and so not solid. */
  lemma EmptyBlockNotSolid()
    ensures EmptyBlock.blockType == Air && EmptyBlock.overlay == OverlayNone
    ensures !IsSolid(EmptyBlock)
    ensures TypeCode(EmptyBlock.blockType) == 0 && EmptyBlock.overlay as int == 0
  {
  }
}
