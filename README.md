# Seeded gradient generator: a Dafny model

This project models the core of a small Python gradient generator, found in `utils/graphics`.

- **Palette derivation** (`palette.py`). A byte digest gives a base hue, a saturation and a
  lightness. A scheme name picks a list of hue offsets. Each offset gives one colour with the hue
  wrapped mod 1. The list is then cut to `n` entries.
- **Blend policies and the colour combiner** (`blends.py`). There are four weighting functions:
  linear, inverse-linear, softmax and log-sigmoid. Each range-checks a normalised query point and
  returns one weight per node. `blend_colors` forms the weighted colour sum.
- **Nodes and the canvas loop** (`gradients.py`). A `GradientNode` holds grid coordinates and the
  grid extents, and computes the normalised position from them. A `GradientGraph` holds a seed digest, a blend
  callable, a node count, a palette and a node list. `get_gradient` builds a 512 × 512 canvas
  row by row.

How the model is laid out:

- Floats are Dafny `real`.
- Every Python exception the code can raise becomes an `Err` of a `Result`:
  - `IndexError` for a short digest;
  - `ValueError` for a node coordinate beyond its extent, a query outside [0, 1], or unequal
    lengths;
  - `ZeroDivisionError` for a zero extent or a zero total.
- `GeneratePalette`, `BlendColors` and `GradientGraph.GetGradient` keep the source's loops as
  methods with loop invariants. Each is proved against a function or predicate that states its
  result.
- `GradientGraph` is a class whose fields are the attributes its constructor sets. None of them
  is reassigned afterwards.
- The blend callable is a function-valued field, as in the source. The ghost policy and library
  functions it was built from are tied to it by `Valid()`.
- `math.sqrt`, `math.exp` and `math.log` are the fields of a `MathOps` value. The subset type
  `SoundMath` keeps only the values that satisfy four facts:
  - sqrt of a non-negative number is non-negative;
  - sqrt of a positive number is positive;
  - sqrt(0) = 0;
  - exp is positive.
- `colorsys.hls_to_rgb` followed by the `Color` constructor is a function parameter, `hls`, with no
  properties at all.

Behaviour of the code worth knowing:

- The base hue is divided by 65535, so it lies in [0, 1] and is exactly 1.0 when both bytes are
  0xFF; `% 1.0` then wraps it to 0.
- A digest shorter than 4 bytes is not left to the caller. The code raises at `digest[2]` or
  `digest[3]`, and the model returns `DigestTooShort`.
- The graph always requests at least 4 colours, so for every scheme other than analogous the
  palette is shorter than the node count and `get_gradient` always raises
  (`NonAnalogousSchemeFails`); for every policy other than inverse-linear the error is `blend_colors`'s
  length check (`MismatchFails`).
- `n` is any integer, not only n ≥ 1. `range` and the slice `[:n]` follow Python, including a
  negative `n`.
- Grid dimensions and node limits are class constants and are never checked. The node
  constructor checks only upper bounds.

## Model

| member | source | states |
|---|---|---|
| Palette.BaseHue | utils/graphics/palette.py:11 | the hue times 65535 is the big-endian value of bytes 0-1; it lies in [0, 1] and equals 1 exactly when both bytes are 0xFF |
| Palette.Saturation | utils/graphics/palette.py:13-17 | saturation lies in [0.45, 0.85] and is an affine image of byte 2 |
| Palette.Lightness | utils/graphics/palette.py:14-18 | lightness lies in [0.35, 0.65] and is an affine image of byte 3 |
| Palette.WrapHue | utils/graphics/palette.py:33 | `x % 1.0` lies in [0, 1) for every x, negative included, and differs from x by an integer |
| Palette.Take | utils/graphics/palette.py:37 | `s[:n]` is a prefix of s whose length follows Python's slice rule, negative n included |
| Palette.GeneratePalette | utils/graphics/palette.py:10-37 | fails exactly when the digest has fewer than 4 bytes; otherwise entry k is `hls((h + offsets[k]) % 1, l, s)` and the length is the slice length of the offsets cut at n |
| Palette.AnalogousOffsets | utils/graphics/palette.py:23-24 | a non-negative n gives 2*(n//2)+1 offsets with 0 at index n//2; a negative n gives none, as Python's empty `range` |
| Palette.Offsets | utils/graphics/palette.py:22-30 | every scheme but analogous gives 1 to 3 offsets starting at 0 and lying in [0, 1); analogous gives the comprehension's offsets |
| Palette.AnalogousOffsetsShape | utils/graphics/palette.py:22-24 | the analogous offsets number 2*(n//2)+1 ≥ n, start at -(n//2)*0.05, rise by 0.05, are 0 at the centre and are symmetric about it |
| Palette.OffsetsIncreasing | utils/graphics/palette.py:22-30 | every scheme's offsets are strictly increasing |
| Palette.AnalogousFive | utils/graphics/palette.py:22-24 | n = 5 gives -0.10, -0.05, 0, 0.05, 0.10 |
| Palette.AnalogousFourTruncated | utils/graphics/palette.py:22-37 | n = 4 computes five offsets and keeps -0.10 .. 0.05 |
| Palette.PaletteLength | utils/graphics/palette.py:22-37 | the palette has min(n, number of offsets) colours: n for analogous, and at most 2, 3 and 1 for complementary, triadic and any other name |
| Palette.PaletteMatchesCount | utils/graphics/palette.py:22-37 | for n ≥ 4 the palette has n colours exactly when the scheme is analogous |
| Palette.TruncationKeepsSmallestOffsets | utils/graphics/palette.py:32-37 | every kept offset is below every dropped one; analogous entry k uses offset (k - n//2)*0.05 |
| GradientNodes.MakeNode | utils/graphics/gradients.py:13-22 | x beyond max_x raises first, then y beyond max_y; otherwise the node holds the four arguments; there is no lower-bound check |
| GradientNodes.Absolute | utils/graphics/gradients.py:24-26 | `absolute` gives back coordinates that rebuild the same node |
| GradientNodes.Relative | utils/graphics/gradients.py:28-30 | fails exactly on a zero extent (division by zero); otherwise each coordinate times its extent is the grid coordinate, in [0, 1]² for an on-grid node |
| GradientNodes.SquaredOffset | utils/graphics/gradients.py:35 | `(x - x_node) ** 2 + (y - y_node) ** 2` is never negative |
| GradientNodes.DistanceRelative | utils/graphics/gradients.py:32-35 | fails exactly when `relative` does; otherwise it is sqrt of the squared offset from `relative`, non-negative, and 0 at the node's own position |
| RealMath.Sum | utils/graphics/blends.py:28 | Python's `sum`: the empty sum is the start value 0 and a one-element sum is that element |
| RealMath.Normalise | utils/graphics/blends.py:29 | `[w / total for w in …]`: one entry per input, each divided by the total |
| RealMath.SumNormalise | utils/graphics/blends.py:28-29 | dividing each entry by a total divides the sum by that total |
| RealMath.SumNonNegative | utils/graphics/blends.py:41 | a sum of non-negative values is non-negative, and 0 exactly when every value is 0 |
| RealMath.SumPositive | utils/graphics/blends.py:28 | a non-empty sum of positive values is positive |
| Blends.CheckQuery | utils/graphics/blends.py:18-22 | x_norm outside [0, 1] raises first, then y_norm outside [0, 1] |
| Blends.Distances | utils/graphics/blends.py:24 | one distance per node, in node order, each non-negative; fails only on a node with a zero extent |
| Blends.InverseDistances | utils/graphics/blends.py:26 | each `1 / (d + 1e-6)` of a non-negative distance is positive |
| Blends.SigmoidWeight | utils/graphics/blends.py:52 | `1 / (1 + exp(-d))` lies strictly between 0 and 1 |
| Blends.SigmoidWeights | utils/graphics/blends.py:52-63 | the comprehensions of the two sigmoid policies: one weight per distance, each softmax weight strictly between 0 and 1; that weight k depends on distance k alone is UnnormalisedWeightsAreLocal |
| Blends.LinearBlendFactor | utils/graphics/blends.py:17-29 | range checks as above; past them it fails only when a distance does, and gives one weight per node |
| Blends.InverseLinearBlendFactor | utils/graphics/blends.py:32-42 | range checks as above; past them the only error is a division by zero; one weight per node |
| Blends.SoftmaxBlendFactor | utils/graphics/blends.py:45-52 | range checks as above; one weight per node, each strictly between 0 and 1 |
| Blends.LogSigmoidBlendFactor | utils/graphics/blends.py:55-63 | range checks as above; one weight per node |
| Blends.BlendFactor | utils/graphics/blends.py:17-63 | the callable for each policy: range checks, one weight per node; past the checks only a node with a zero extent (any policy) or inverse-linear's zero total fails |
| Blends.LinearWeights | utils/graphics/blends.py:26-29 | one weight per distance (LinearWeightsFacts proves them positive and summing to 1) |
| Blends.InverseLinearWeights | utils/graphics/blends.py:41-42 | raises a division by zero exactly when the list is non-empty and its total is 0; otherwise one weight per distance, and the empty list gives no weights |
| Blends.InverseDistanceOrder | utils/graphics/blends.py:26 | a smaller distance has a larger inverse distance |
| Blends.LinearWeightsFacts | utils/graphics/blends.py:26-29 | linear weights of a non-empty list are positive and sum to 1 |
| Blends.LinearWeightsOrder | utils/graphics/blends.py:26-29 | a strictly smaller distance gets a strictly larger linear weight |
| Blends.LinearWeightsDistribution | utils/graphics/blends.py:24-29 | for the linear policy over non-empty nodes: weights positive, sum 1, a nearer node weighted more |
| Blends.InverseLinearWeightsFail | utils/graphics/blends.py:41-42 | over non-empty non-negative distances the division fails exactly when every distance is 0 |
| Blends.InverseLinearWeightsSum | utils/graphics/blends.py:41-42 | successful inverse-linear weights of a non-empty list sum to 1 |
| Blends.InverseLinearWeightsNonNegative | utils/graphics/blends.py:39-42 | non-negative distances give non-negative inverse-linear weights |
| Blends.InverseLinearWeightsDistribution | utils/graphics/blends.py:39-42 | for the inverse-linear policy over non-empty nodes: fails exactly when all distances are 0, else weights are non-negative, sum to 1, and weight k is distance k over the total distance |
| Blends.SoftmaxNotNormalised | utils/graphics/blends.py:52 | softmax weights are not renormalised: a single node's weights sum to less than 1 |
| Blends.UnnormalisedWeightsAreLocal | utils/graphics/blends.py:50-63 | for softmax and log-sigmoid, node k's weight is the weight it gets as the only node |
| Blends.UnnormalisedWeightsIgnoreOtherNodes | utils/graphics/blends.py:50-63 | for softmax and log-sigmoid, replacing one node leaves every other weight unchanged |
| Blends.BlendColors | utils/graphics/blends.py:6-14 | raises exactly on unequal lengths; otherwise the sum of `color * factor` from black; empty inputs give black |
| Blends.WeightedSum | utils/graphics/blends.py:10-14 | the sum from black: no colours give black, one colour gives that colour times its factor |
| Blends.Blended | utils/graphics/blends.py:6-14 | what `blend_colors` raises: a length mismatch exactly when the lengths differ |
| Blends.WeightedSumChannel | utils/graphics/blends.py:10-13 | each channel of the weighted sum is Σ factor_k · channel(color_k) |
| Blends.WeightedSumUniform | utils/graphics/blends.py:10-13 | a palette of one repeated colour blends to that colour scaled by the total weight |
| Blends.TermsBounded | utils/graphics/blends.py:12-13 | non-negative weights times values in [0, 1] sum to between 0 and the total weight |
| Blends.WeightedSumBounded | utils/graphics/blends.py:10-14 | with non-negative weights and in-gamut colours each channel lies between 0 and the total weight |
| Blends.NormalisedWeights | utils/graphics/blends.py:17-42 | linear and inverse-linear weights over non-empty nodes are non-negative and sum to 1 |
| Blends.NormalisedBlendInGamut | utils/graphics/blends.py:6-42 | under the two normalising policies an in-gamut palette blends to an in-gamut colour |
| Blends.NormalisedBlendUniform | utils/graphics/blends.py:6-42 | under the two normalising policies a one-colour palette blends to that colour |
| Gradients.NormalisedCoordinateInRange | utils/graphics/gradients.py:66-67 | `i / dim` lies in [0, 1) for 0 ≤ i < dim |
| Gradients.GradientGraph.constructor | utils/graphics/gradients.py:44-58 | the graph keeps the digest and callable, has 4..8 nodes made by the node constructor from the drawn coordinates, and holds the palette `generate_palette` gives for that count; it has one colour per node exactly for the analogous scheme |
| Gradients.GradientGraph.Cell | utils/graphics/gradients.py:66-69 | a cell succeeds exactly when the callable succeeds on (i/X, j/Y) and gives one weight per palette colour; the callable's error passes through, and a wrong weight count raises the length mismatch |
| Gradients.GradientGraph.GetGradient | utils/graphics/gradients.py:61-72 | succeeds exactly when every cell succeeds, and then returns Y rows of X cells with row j column i equal to `blend_colors(blend(i/X, j/Y, *nodes), palette)`; otherwise returns the error of the first failing cell in row-major order |
| Gradients.GradientGraph.CanvasUnique | utils/graphics/gradients.py:61-72 | the canvas of a graph is unique |
| Gradients.GradientGraph.FirstFailureUnique | utils/graphics/gradients.py:61-72 | the first failing cell, and so the raised error, is unique |
| Gradients.GradientGraph.GetGradientTwice | utils/graphics/gradients.py:61-72 | `get_gradient` changes nothing, so two calls give equal results |
| Gradients.GradientGraph.CellNeverOutOfRange | utils/graphics/gradients.py:66-68 | no cell of the loop ever hits a policy's range check |
| Gradients.GradientGraph.MismatchFails | utils/graphics/gradients.py:68-69 | a palette whose length differs from the node count makes cell (0, 0), and so `get_gradient`, raise; for every policy but inverse-linear the error is `blend_colors`'s length mismatch, and it is the first failure of the canvas |
| Gradients.GradientGraph.MatchingPaletteSucceeds | utils/graphics/gradients.py:61-72 | with one colour per node and any policy except inverse-linear, every cell succeeds |
| Gradients.GradientGraph.NonAnalogousSchemeFails | utils/graphics/gradients.py:50-69 | a graph built with any scheme but analogous always raises in `get_gradient` |
| Gradients.GradientGraph.AnalogousSchemeSucceeds | utils/graphics/gradients.py:50-69 | a graph built with the analogous scheme and any policy except inverse-linear never raises in `get_gradient` |
| Gradients.GradientGraph.InverseLinearFailsAtSharedNode | utils/graphics/gradients.py:66-69 | under inverse-linear a cell divides by zero when every node sits on it; with one colour per node a cell fails exactly when its distance to every node is 0 |

## Left out

- `_draw_gradient` and `_show_palette`: image and plot display through PIL and matplotlib, which is pure I/O.
- The two `__main__` blocks: driver code.
- `hashlib.sha256` seeding: the constructor takes the 32-byte digest as its input.
- `random.randint`: the node count and the coordinates are constructor parameters within randint's inclusive bounds. They are process-global random draws, not derived from the seed, so the model claims no seed determinism.
- `colorsys.hls_to_rgb` and the `Color` class (`utils/graphics/color.py`): `color.py` is not part of this model. The conversion is the opaque parameter `hls`, and a colour is a triple of reals with channel-wise `+` and scalar `*`. `Color.rgb()` and the 8-bit conversion are out of scope.
- `math.sqrt`, `math.exp`, `math.log`: ideal real functions with only the facts listed above. There is no IEEE rounding, overflow or NaN, so nothing about float accuracy is claimed.
- GradientNodes.DistanceRelative: is not stated to be positive away from the node, so "distance 0 means the query is at the node" is not proved, although it holds given the positive-sqrt fact; no proof uses that fact. Positivity of a sum of two squares of plain reals is within the solver's reach, but the step from there to the squared-offset function of the two coordinates, which sqrt is applied to, is not. For the same reason Gradients.GradientGraph.InverseLinearFailsAtSharedNode states its converse in terms of distances, not node positions.
- Blends.LogSigmoidBlendFactor: makes no claim about the sign or size of `log(1 + exp(-d))`, because `log` has no properties in the model.
- Default arguments: `generate_palette`'s `scheme="analogous"` and `n=5`, and `GradientGraph`'s `scheme="analogous"` and `blend_factor=linear_blend_factor`. `GeneratePalette` and the constructor take every argument explicitly; the defaults are one choice of those arguments.
- The class attribute `nodes = list`: a placeholder that `__init__` overwrites.
- Callables other than the four policies: `blend_factor` can be any Python callable, but the model allows only the four defined in `blends.py`.
