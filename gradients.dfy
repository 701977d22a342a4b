/** The gradient graph: a palette and a set of nodes fixed at construction, and the canvas loop
    that blends the palette at every grid cell. */
module Gradients {
  import opened Errors
  import opened Colors
  import opened RealMath
  import opened Palette
  import opened GradientNodes
  import opened Blends

  const MinGradientNodes: int := 4
  const MaxGradientNodes: int := 8
  const GradientXDim: int := 512
  const GradientYDim: int := 512

  /** Bytes in a SHA-256 digest, the seed the graph derives everything else from. */
  const DigestLength: int := 32

  /** A loop coordinate divided by its grid dimension lies in [0, 1). */
  lemma NormalisedCoordinateInRange(i: int, dim: int)
    requires 0 <= i < dim
    ensures 0.0 <= i as real / dim as real < 1.0
  {
  }

  class GradientGraph {
    const seed: seq<byte>
    /** The blend callable `self.blend`, applied as `blend(i_norm, j_norm, *nodes)`. */
    const blend: (real, real, seq<GradientNode>) -> Result<seq<real>>
    /** The policy the callable was built from, and the library functions it uses. */
    ghost const policy: Policy
    ghost const math: SoundMath
    const nNodes: int
    const palette: seq<Color>
    const nodes: seq<GradientNode>

    /** What construction establishes: the callable is the chosen policy, the digest is full, the
        node count is within the configured range, and there is one node per count, each on the
        grid with the grid's extents. */
    ghost predicate Valid() {
      (forall xn, yn, ns :: blend(xn, yn, ns) == BlendFactor(policy, math, xn, yn, ns)) &&
      |seed| == DigestLength &&
      MinGradientNodes <= nNodes <= MaxGradientNodes &&
      |nodes| == nNodes &&
      forall k :: 0 <= k < |nodes| ==>
        nodes[k].maxX == GradientXDim && nodes[k].maxY == GradientYDim && InGrid(nodes[k])
    }

    /** `GradientGraph(seed, scheme, blend_factor)`, given the digest of the seed, the colour
        conversion, and the values `random.randint` draws: the node count, then one (x, y) pair
        per node, each within its inclusive bounds. */
    constructor (digest: seq<byte>, scheme: string, policy: Policy, m: SoundMath,
                 hls: (real, real, real) -> Color, countDraw: int, coordinateDraws: seq<(int, int)>)
      requires |digest| == DigestLength
      requires MinGradientNodes <= countDraw <= MaxGradientNodes
      requires |coordinateDraws| == countDraw
      requires forall k :: 0 <= k < |coordinateDraws| ==>
        0 <= coordinateDraws[k].0 <= GradientXDim && 0 <= coordinateDraws[k].1 <= GradientYDim
      ensures Valid()
      ensures seed == digest && this.policy == policy && math == m && nNodes == countDraw
      ensures IsPalette(palette, digest, scheme, nNodes, hls)
      ensures |palette| == |nodes| <==> scheme == "analogous"
      ensures forall k :: 0 <= k < |nodes| ==>
        MakeNode(coordinateDraws[k].0, coordinateDraws[k].1, GradientXDim, GradientYDim) == Ok(nodes[k])
    {
      seed := digest;
      this.policy := policy;
      math := m;
      blend := (xn, yn, ns) => BlendFactor(policy, m, xn, yn, ns);
      nNodes := countDraw;
      var generated := GeneratePalette(digest, scheme, countDraw, hls);
      palette := generated.value;
      nodes := seq(|coordinateDraws|, k requires 0 <= k < |coordinateDraws| =>
        MakeNode(coordinateDraws[k].0, coordinateDraws[k].1, GradientXDim, GradientYDim).value);
      new;
      PaletteMatchesCount(palette, digest, scheme, countDraw, hls);
    }

    /** The colour `blend_colors(blend(i / X, j / Y, *nodes), palette)` of cell (i, j), or what it
        raises. */
    function Cell(i: int, j: int): (r: Result<Color>)
      ensures var w := blend(i as real / GradientXDim as real, j as real / GradientYDim as real, nodes);
        (r.Ok? <==> w.Ok? && |w.value| == |palette|) &&
        (w.Err? ==> r == Err(w.error)) &&
        (w.Ok? && |w.value| != |palette| ==> r == Err(LengthMismatch))
    {
      var iNorm := i as real / GradientXDim as real;
      var jNorm := j as real / GradientYDim as real;
      match blend(iNorm, jNorm, nodes)
      case Err(e) => Err(e)
      case Ok(factors) => Blended(factors, palette)
    }

    ghost predicate AllCellsOk()
    {
      forall j, i :: 0 <= j < GradientYDim && 0 <= i < GradientXDim ==> Cell(i, j).Ok?
    }

    /** `c` holds GradientYDim rows of GradientXDim colours, row j column i being cell (i, j). */
    ghost predicate IsCanvas(c: seq<seq<Color>>)
    {
      |c| == GradientYDim &&
      forall j :: 0 <= j < GradientYDim ==>
        |c[j]| == GradientXDim &&
        forall i :: 0 <= i < GradientXDim ==> Cell(i, j) == Ok(c[j][i])
    }

    /** Cell (i, j) raises `e` and every cell before it in row-major order succeeds. */
    ghost predicate FailsFirstAt(i: int, j: int, e: Error)
    {
      0 <= j < GradientYDim && 0 <= i < GradientXDim && Cell(i, j) == Err(e) &&
      (forall jj, ii :: 0 <= jj < j && 0 <= ii < GradientXDim ==> Cell(ii, jj).Ok?) &&
      (forall ii :: 0 <= ii < i ==> Cell(ii, j).Ok?)
    }

    ghost predicate FirstFailure(e: Error)
    {
      exists j, i :: FailsFirstAt(i, j, e)
    }

    /** `get_gradient`: rows 0 .. Y-1, each built from columns 0 .. X-1; the first cell that
        raises ends the call with that error. */
    method GetGradient() returns (r: Result<seq<seq<Color>>>)
      ensures r.Ok? <==> AllCellsOk()
      ensures r.Ok? ==> IsCanvas(r.value)
      ensures r.Err? ==> FirstFailure(r.error)
    {
      var canvas: seq<seq<Color>> := [];
      for j := 0 to GradientYDim
        invariant |canvas| == j
        invariant forall jj, ii :: 0 <= jj < j && 0 <= ii < GradientXDim ==> Cell(ii, jj).Ok?
        invariant forall jj :: 0 <= jj < j ==>
          |canvas[jj]| == GradientXDim &&
          forall ii :: 0 <= ii < GradientXDim ==> Cell(ii, jj) == Ok(canvas[jj][ii])
      {
        var row: seq<Color> := [];
        for i := 0 to GradientXDim
          invariant |row| == i
          invariant forall ii :: 0 <= ii < i ==> Cell(ii, j).Ok?
          invariant forall ii :: 0 <= ii < i ==> Cell(ii, j) == Ok(row[ii])
        {
          var iNorm := i as real / GradientXDim as real;
          var jNorm := j as real / GradientYDim as real;
          var factors := blend(iNorm, jNorm, nodes);
          if factors.Err? {
            assert FailsFirstAt(i, j, factors.error);
            return Err(factors.error);
          }
          var color := BlendColors(factors.value, palette);
          assert Cell(i, j) == color;
          if color.Err? {
            assert FailsFirstAt(i, j, color.error);
            return Err(color.error);
          }
          row := row + [color.value];
        }
        canvas := canvas + [row];
      }
      return Ok(canvas);
    }

    /** A canvas is determined by the graph: two canvases of the same graph are equal. */
    lemma CanvasUnique(c1: seq<seq<Color>>, c2: seq<seq<Color>>)
      requires IsCanvas(c1) && IsCanvas(c2)
      ensures c1 == c2
    {
      forall j | 0 <= j < GradientYDim
        ensures c1[j] == c2[j]
      {
        assert forall i :: 0 <= i < GradientXDim ==> Cell(i, j) == Ok(c1[j][i]) == Ok(c2[j][i]);
      }
    }

    /** The first failing cell, and so its error, is unique. */
    lemma FirstFailureUnique(e1: Error, e2: Error)
      requires FirstFailure(e1) && FirstFailure(e2)
      ensures e1 == e2
    {
      var j1, i1 :| FailsFirstAt(i1, j1, e1);
      var j2, i2 :| FailsFirstAt(i2, j2, e2);
      assert Cell(i1, j1) == Err(e1) && Cell(i2, j2) == Err(e2);
      if j1 < j2 || (j1 == j2 && i1 < i2) {
        assert false;
      } else if j2 < j1 || (j1 == j2 && i2 < i1) {
        assert false;
      }
    }

    /** Canvas production never changes the graph, so calling it twice gives equal results. */
    method GetGradientTwice() returns (first: Result<seq<seq<Color>>>,
                                       second: Result<seq<seq<Color>>>)
      ensures first == second
    {
      first := GetGradient();
      second := GetGradient();
      if first.Ok? {
        CanvasUnique(first.value, second.value);
      } else {
        FirstFailureUnique(first.error, second.error);
      }
    }

    /** The loop's normalised coordinates always pass the policies' range checks. */
    lemma CellNeverOutOfRange(i: int, j: int)
      requires Valid()
      requires 0 <= i < GradientXDim && 0 <= j < GradientYDim
      ensures Cell(i, j) != Err(XNormOutOfRange)
      ensures Cell(i, j) != Err(YNormOutOfRange)
    {
      NormalisedCoordinateInRange(i, GradientXDim);
      NormalisedCoordinateInRange(j, GradientYDim);
    }

    /** A palette whose length differs from the node count makes the very first cell raise, so
        `get_gradient` raises; past inverse-linear's division the error is `blend_colors`'s
        length check. */
    lemma MismatchFails()
      requires Valid()
      requires |palette| != |nodes|
      ensures Cell(0, 0).Err?
      ensures !AllCellsOk()
      ensures policy != InverseLinear ==> Cell(0, 0) == Err(LengthMismatch)
      ensures policy != InverseLinear ==> FirstFailure(LengthMismatch)
    {
      NormalisedCoordinateInRange(0, GradientXDim);
      assert forall k :: 0 <= k < |nodes| ==> DistanceRelative(nodes[k], math, 0.0, 0.0).Ok?;
      assert FailsFirstAt(0, 0, Cell(0, 0).error);
    }

    /** With one colour per node and a policy other than inverse-linear, every cell of a
        constructed graph succeeds. */
    lemma MatchingPaletteSucceeds()
      requires Valid()
      requires |palette| == |nodes|
      requires policy != InverseLinear
      ensures AllCellsOk()
    {
      forall j, i | 0 <= j < GradientYDim && 0 <= i < GradientXDim
        ensures Cell(i, j).Ok?
      {
        var xn, yn := i as real / GradientXDim as real, j as real / GradientYDim as real;
        NormalisedCoordinateInRange(i, GradientXDim);
        NormalisedCoordinateInRange(j, GradientYDim);
        assert forall k :: 0 <= k < |nodes| ==> DistanceRelative(nodes[k], math, xn, yn).Ok?;
      }
    }

    /** Only the analogous scheme supplies one colour per node; with any other scheme a
        constructed graph's `get_gradient` always raises. */
    lemma NonAnalogousSchemeFails(scheme: string, hls: (real, real, real) -> Color)
      requires Valid()
      requires IsPalette(palette, seed, scheme, nNodes, hls)
      requires scheme != "analogous"
      ensures !AllCellsOk()
    {
      PaletteMatchesCount(palette, seed, scheme, nNodes, hls);
      MismatchFails();
    }

    /** With the analogous scheme and a policy other than inverse-linear, a constructed graph's
        `get_gradient` never raises. */
    lemma AnalogousSchemeSucceeds(hls: (real, real, real) -> Color)
      requires Valid()
      requires IsPalette(palette, seed, "analogous", nNodes, hls)
      requires policy != InverseLinear
      ensures AllCellsOk()
    {
      PaletteMatchesCount(palette, seed, "analogous", nNodes, hls);
      MatchingPaletteSucceeds();
    }

    /** The inverse-linear policy divides by zero at a cell that every node sits on; with one
        colour per node a cell fails exactly when its distance to every node is 0. */
    lemma InverseLinearFailsAtSharedNode(i: int, j: int)
      requires Valid()
      requires policy == InverseLinear
      requires 0 <= i < GradientXDim && 0 <= j < GradientYDim
      ensures (forall k :: 0 <= k < |nodes| ==> nodes[k].x == i && nodes[k].y == j) ==>
        Cell(i, j) == Err(ZeroDivision)
      ensures |palette| == |nodes| ==>
        var ds := Distances(math, i as real / GradientXDim as real, j as real / GradientYDim as real, nodes);
        ds.Ok? && (Cell(i, j).Err? <==> forall k :: 0 <= k < |nodes| ==> ds.value[k] == 0.0)
    {
      var xn, yn := i as real / GradientXDim as real, j as real / GradientYDim as real;
      NormalisedCoordinateInRange(i, GradientXDim);
      NormalisedCoordinateInRange(j, GradientYDim);
      var ds := Distances(math, xn, yn, nodes);
      assert ds.Ok?;
      forall k | 0 <= k < |nodes| && nodes[k].x == i && nodes[k].y == j
        ensures ds.value[k] == 0.0
      {
        var rel := Relative(nodes[k]).value;
        assert rel.0 == xn && rel.1 == yn;
      }
      InverseLinearWeightsDistribution(math, xn, yn, nodes);
      assert blend(xn, yn, nodes) == InverseLinearBlendFactor(math, xn, yn, nodes);
    }
  }
}
