/** The colour value: three real channels with scaling and channel-wise addition. */
module Colors {

  datatype Color = Color(r: real, g: real, b: real)

  /** Color(0, 0, 0), the start value of a weighted sum. */
  const Black := Color(0.0, 0.0, 0.0)

  /** `color * factor` */
  function Scale(c: Color, f: real): Color {
    Color(c.r * f, c.g * f, c.b * f)
  }

  /** `a + b` */
  function Add(a: Color, b: Color): Color {
    Color(a.r + b.r, a.g + b.g, a.b + b.b)
  }

  datatype Channel = Red | Green | Blue

  /** One channel of a colour. */
  function Get(c: Color, ch: Channel): real {
    match ch
    case Red => c.r
    case Green => c.g
    case Blue => c.b
  }

  /** Scaling distributes over a sum of factors. */
  lemma ScaleDistributes(c: Color, a: real, b: real)
    ensures Add(Scale(c, a), Scale(c, b)) == Scale(c, a + b)
  {
    assert c.r * a + c.r * b == c.r * (a + b);
    assert c.g * a + c.g * b == c.g * (a + b);
    assert c.b * a + c.b * b == c.b * (a + b);
  }

  /** Every channel lies in [0, 1]. */
  predicate InGamut(c: Color) {
    0.0 <= c.r <= 1.0 && 0.0 <= c.g <= 1.0 && 0.0 <= c.b <= 1.0
  }
}
