/** A gradient node: integer grid coordinates and the grid extents used to normalise them. */
module GradientNodes {
  import opened Errors
  import opened RealMath

  datatype GradientNode = GradientNode(x: int, y: int, maxX: int, maxY: int)

  /** The `GradientNode(x, y, max_x, max_y)` constructor: rejects a coordinate above its extent,
      x first; there is no lower bound and the extents themselves are not checked. */
  function MakeNode(x: int, y: int, maxX: int, maxY: int): (r: Result<GradientNode>)
    ensures x > maxX ==> r == Err(XTooBig)
    ensures x <= maxX && y > maxY ==> r == Err(YTooBig)
    ensures x <= maxX && y <= maxY ==> r == Ok(GradientNode(x, y, maxX, maxY))
  {
    if x > maxX then Err(XTooBig)
    else if y > maxY then Err(YTooBig)
    else Ok(GradientNode(x, y, maxX, maxY))
  }

  /** The bounds every node built by the graph satisfies. */
  predicate InGrid(n: GradientNode) {
    0 <= n.x <= n.maxX && 0 <= n.y <= n.maxY && 0 < n.maxX && 0 < n.maxY
  }

  /** The `absolute` property: the coordinates the node was constructed from. */
  function Absolute(n: GradientNode): (r: (int, int))
    ensures n.x <= n.maxX && n.y <= n.maxY ==> MakeNode(r.0, r.1, n.maxX, n.maxY) == Ok(n)
  {
    (n.x, n.y)
  }

  /** The `relative` property `(x / max_x, y / max_y)`; a zero extent raises
      ZeroDivisionError. */
  function Relative(n: GradientNode): (r: Result<(real, real)>)
    ensures r.Ok? <==> n.maxX != 0 && n.maxY != 0
    ensures r.Err? ==> r.error == ZeroDivision
    ensures r.Ok? ==> r.value.0 * n.maxX as real == n.x as real
    ensures r.Ok? ==> r.value.1 * n.maxY as real == n.y as real
    ensures InGrid(n) ==> r.Ok? && 0.0 <= r.value.0 <= 1.0 && 0.0 <= r.value.1 <= 1.0
  {
    if n.maxX == 0 || n.maxY == 0 then Err(ZeroDivision)
    else Ok((n.x as real / n.maxX as real, n.y as real / n.maxY as real))
  }

  /** `distance_relative(x, y)`: the Euclidean distance from a normalised query point to the
      node's normalised position, computed with the same normalisation as `relative`. */
  function DistanceRelative(n: GradientNode, m: SoundMath, qx: real, qy: real): (r: Result<real>)
    ensures r.Ok? <==> Relative(n).Ok?
    ensures r.Err? ==> r.error == ZeroDivision
    ensures r.Ok? ==> r.value == m.sqrt(SquaredOffset(qx, qy, Relative(n).value))
    ensures r.Ok? ==> 0.0 <= r.value
    ensures r.Ok? && qx == Relative(n).value.0 && qy == Relative(n).value.1 ==> r.value == 0.0
  {
    if n.maxX == 0 || n.maxY == 0 then Err(ZeroDivision)
    else
      var xNode := n.x as real / n.maxX as real;
      var yNode := n.y as real / n.maxY as real;
      SumOfSquares(qx - xNode, qy - yNode);
      SquaredOffsetAtPoint((xNode, yNode));
      Ok(m.sqrt(SquaredOffset(qx, qy, (xNode, yNode))))
  }

  /** `(qx - px) ** 2 + (qy - py) ** 2` */
  function SquaredOffset(qx: real, qy: real, p: (real, real)): (r: real)
    ensures 0.0 <= r
  {
    SumOfSquares(qx - p.0, qy - p.1);
    (qx - p.0) * (qx - p.0) + (qy - p.1) * (qy - p.1)
  }

  /** A point is at squared offset 0 from itself. */
  lemma SquaredOffsetAtPoint(p: (real, real))
    ensures SquaredOffset(p.0, p.1, p) == 0.0
  {
  }
}
