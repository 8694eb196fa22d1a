/**
 The per-frame push-constant block `render` uploads (src/renderer.rs): twelve
 32-bit floats filling the declared push range of bytes 0..48.
 */
module PushConstants {
  import opened RendererState

  /** The pipeline's declared push-constant byte range is [PushRangeStart, PushRangeEnd). */
  const PushRangeStart: nat := 0
  const PushRangeEnd: nat := 48
  /** Bytes per f32. */
  const FloatBytes: nat := 4
  /** Number of floats in the block. */
  const BlockLength: nat := 12

  /**
   The block in upload order: viewport min corner, viewport max corner, `c`,
   `r * r`, the iteration budget as a float, and the four colours.
   */
  function Pack(s: State): (b: seq<real>)
    ensures |b| == BlockLength
    ensures |b| * FloatBytes == PushRangeEnd - PushRangeStart
  {
    [ s.pos.x - s.wind.x, s.pos.y - s.wind.y,
      s.pos.x + s.wind.x, s.pos.y + s.wind.y,
      s.c.x, s.c.y,
      s.r * s.r,
      s.iterations as real,
      s.colors.c0, s.colors.c1, s.colors.c2, s.colors.c3 ]
  }

  /** What the shader can read back from a block. */
  datatype Params = Params(
    center: Vec2, extent: Vec2, c: Vec2, radius4: real, iterations: real, colors: Colors)

  /** Read a block: the centre and half-extent come back from the two corners. */
  function Unpack(b: seq<real>): Params
    requires |b| == BlockLength
  {
    Params(
      Vec2((b[0] + b[2]) / 2.0, (b[1] + b[3]) / 2.0),
      Vec2((b[2] - b[0]) / 2.0, (b[3] - b[1]) / 2.0),
      Vec2(b[4], b[5]),
      b[6],
      b[7],
      Colors(b[8], b[9], b[10], b[11]))
  }

  /**
   Nothing the shader needs is lost in packing: the view centre, half-extent,
   `c`, `r` squared once more, the iteration budget and the colours are all
   recovered from the block.
   */
  lemma PackRoundTrip(s: State)
    ensures Unpack(Pack(s)) == Params(s.pos, s.wind, s.c, s.r * s.r, s.iterations as real, s.colors)
  {
  }

  /** With a positive half-extent the min corner lies strictly below and left of the max corner. */
  lemma PackViewportOrdered(s: State)
    requires s.wind.x > 0.0 && s.wind.y > 0.0
    ensures Pack(s)[0] < Pack(s)[2] && Pack(s)[1] < Pack(s)[3]
  {
  }

  /**
   On a radius-consistent state the seventh float is the fourth power of
   (1 + sqrt(1 + 4|c|)) / 2, since `r` is already a square and is squared again.
   */
  lemma PackRadiusFourthPower(s: State, sqrt: Sqrt)
    requires RadiusConsistent(s, sqrt)
    ensures var half := (1.0 + sqrt(1.0 + 4.0 * Magnitude(s.c, sqrt))) / 2.0;
      Pack(s)[6] == half * half * half * half
  {
  }
}
