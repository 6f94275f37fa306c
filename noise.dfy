/**
 * The noise and height fields the terrain classifiers consult.
 *
 * The source computes these with floating-point fractal noise built on Unity's Perlin noise
 * (Scripts/Noise.cs) and maps them into block heights with `Mathf.Lerp`.  Here they are
 * uninterpreted inputs: a height is any integer function of (x, z) and every threshold test
 * `BrownianMotion3d(...) < t` is any boolean function of the block's world position.
 */
module Noise {

  datatype Fields = Fields(
    /** ChunkBuilder.WorldHeight(x, z): the surface (grass) height. */
    worldHeight: (int, int) -> int,
    /** ChunkBuilder.StoneHeight(x, z): the stone/dirt boundary. */
    stoneHeight: (int, int) -> int,
    /** BrownianMotion3d(x, y, z, 0.1, 3) < 0.42: the block lies in a cave. */
    caveNoiseLow: (int, int, int) -> bool,
    /** BrownianMotion3d(x, y, z, 0.03, 3) < 0.41: the block lies in a redstone band. */
    redstoneNoiseLow: (int, int, int) -> bool,
    /** BrownianMotion3d(x, y, z, 0.01, 2) < 0.4: the block lies in a diamond band. */
    diamondNoiseLow: (int, int, int) -> bool)
}
