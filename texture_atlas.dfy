/**
 * The texture tags of Scripts/TextureAtlas.cs and TextureAtlas.cs.
 *
 * The atlases map each tag to four floating-point UV corners of a tile.  The model keeps only
 * the tag and which of the four corners a coordinate is, which is all the mesh builders choose.
 */
module TextureAtlas {

  /** TextureType (Scripts/TextureAtlas.cs:5-9); the older atlas has the first seven tags only. */
  datatype TextureType =
    | GrassTop | GrassSide | Dirt | Stone | Bedrock | Redstone | Diamond
    | Crack0 | Crack1 | Crack2 | Crack3 | Crack4

  /** Corner `corner` (0..3) of the atlas tile of `texture`: one element of `GetCoords(texture)`. */
  datatype UV = UV(texture: TextureType, corner: int)
}
