/**
 * What one chunk build consumes: the build parameters and the four collaborators
 * the worker calls but does not define (the height generator, the colour and
 * splat resolution of the texture splatter, and THREE.js's `normalize`).
 */
module TerrainParams {
  import opened Vectors

  /** `params.offset`, `params.width`, `params.resolution`. */
  datatype BuildParams = BuildParams(offset: Vec3, width: real, resolution: int)

  /** The builder divides by the resolution; callers send a positive integer. */
  predicate ValidParams(p: BuildParams) {
    p.resolution >= 1
  }

  /**
   * Why a build fails. Reading `s[k].strength` for a layer key that one of
   * the triangle's splat replies lacks, or `typeValues[t].key` when a reply
   * has fewer than four layers, throws a TypeError; `Rebuild` before `Init`
   * reads a field of an undefined `_params`.
   */
  datatype BuildError = SplatKeyMissing | TooFewSplatLayers | NotInitialised

  datatype Result<T> = Success(value: T) | Failure(error: BuildError)

  /** One layer of a splat reply: `{index, strength}`. */
  datatype Layer = Layer(index: int, strength: real)

  /**
   * A splat reply, a JavaScript object from layer key to layer: `keys` is
   * `Object.keys` order, `layers` the properties.
   */
  datatype SplatReply = SplatReply(keys: seq<string>, layers: map<string, Layer>)

  /** An object has each key once, and exactly the keys it lists. */
  predicate WellFormedReply(r: SplatReply) {
    (forall i, j :: 0 <= i < j < |r.keys| ==> r.keys[i] != r.keys[j]) &&
    (forall i :: 0 <= i < |r.keys| ==> r.keys[i] in r.layers) &&
    (forall k :: k in r.layers ==> k in r.keys)
  }

  type SplatMap = r: SplatReply | WellFormedReply(r) witness SplatReply([], map[])

  /**
   * The generators, as the builder sees them:
   * `height(x, y, z)` is `heightGenerators[0].Get(x, y, z)[0]`,
   * `colour(s)` is `colourGenerator.GetColour(s)` as (r, g, b),
   * `splat(ws, n, up)` is `colourGenerator.GetSplat(ws, n, up)`,
   * `normalize(v)` is `v.normalize()`.
   */
  datatype Generators = Generators(
    height: (real, real, real) -> real,
    colour: Vec3 -> Vec3,
    splat: (Vec3, Vec3, Vec3) -> SplatMap,
    normalize: Vec3 -> Vec3)

  /**
   * Vertices per grid row. The source's local `resolution` is the parameter
   * plus 2, and it steps rows by `resolution + 1`.
   */
  function Stride(p: BuildParams): int { p.resolution + 3 }

  /** Grid cells per row: the resolution plus the two padding cells. */
  function Cells(p: BuildParams): int { p.resolution + 2 }

  function VertexCount(p: BuildParams): int { Stride(p) * Stride(p) }

  /** Two triangles per grid cell. */
  function TriangleCount(p: BuildParams): int { 2 * Cells(p) * Cells(p) }
}
