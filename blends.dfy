/** The four node-weighting policies and the weighted colour sum that combines their weights
    with a palette. */
module Blends {
  import opened Errors
  import opened Colors
  import opened RealMath
  import opened GradientNodes

  /** The four blend callables a gradient graph can be given. */
  datatype Policy = Linear | InverseLinear | Softmax | LogSigmoid

  /** The chained comparison `0 <= v <= 1`. */
  predicate InUnit(v: real) { 0.0 <= v <= 1.0 }

  /** The guard every policy starts with: x_norm is checked first, then y_norm; past the guard
      the only failure left is a division by zero. */
  predicate Guarded<T>(xn: real, yn: real, r: Result<T>) {
    (!InUnit(xn) ==> r == Err(XNormOutOfRange)) &&
    (InUnit(xn) && !InUnit(yn) ==> r == Err(YNormOutOfRange)) &&
    (InUnit(xn) && InUnit(yn) && r.Err? ==> r.error == ZeroDivision)
  }

  function CheckQuery(xn: real, yn: real): (r: Result<()>)
    ensures Guarded(xn, yn, r)
  {
    if !InUnit(xn) then Err(XNormOutOfRange)
    else if !InUnit(yn) then Err(YNormOutOfRange)
    else Ok(())
  }

  /** `[node.distance_relative(x_norm, y_norm) for node in nodes]`; the only failure is a node
      with a zero extent. */
  function Distances(m: SoundMath, xn: real, yn: real, nodes: seq<GradientNode>)
    : (r: Result<seq<real>>)
    ensures r.Ok? <==> forall k :: 0 <= k < |nodes| ==> DistanceRelative(nodes[k], m, xn, yn).Ok?
    ensures r.Err? ==> r.error == ZeroDivision
    ensures r.Ok? ==> |r.value| == |nodes|
    ensures r.Ok? ==> forall k :: 0 <= k < |nodes| ==>
      r.value[k] == DistanceRelative(nodes[k], m, xn, yn).value
    ensures r.Ok? ==> forall k :: 0 <= k < |nodes| ==> 0.0 <= r.value[k]
  {
    if forall k :: 0 <= k < |nodes| ==> DistanceRelative(nodes[k], m, xn, yn).Ok? then
      Ok(seq(|nodes|, k requires 0 <= k < |nodes| => DistanceRelative(nodes[k], m, xn, yn).value))
    else
      Err(ZeroDivision)
  }

  const Epsilon: real := 0.000001

  /** `[1 / (d + 1e-6) for d in distances]`, then each divided by their sum. */
  function LinearWeights(ds: seq<real>): (w: seq<real>)
    requires forall k :: 0 <= k < |ds| ==> 0.0 <= ds[k]
    ensures |w| == |ds|
  {
    var weights := InverseDistances(ds);
    if |weights| == 0 then []
    else
      SumPositive(weights);
      Normalise(weights, Sum(weights))
  }

  function InverseDistances(ds: seq<real>): (w: seq<real>)
    requires forall k :: 0 <= k < |ds| ==> 0.0 <= ds[k]
    ensures |w| == |ds|
    ensures forall k :: 0 <= k < |ds| ==> 0.0 < w[k]
  {
    seq(|ds|, k requires 0 <= k < |ds| => 1.0 / (ds[k] + Epsilon))
  }

  /** `[w / total for w in distances]` with `total = sum(distances)`; the empty list divides by
      nothing, a zero total otherwise raises. */
  function InverseLinearWeights(ds: seq<real>): (r: Result<seq<real>>)
    ensures r.Err? <==> |ds| > 0 && Sum(ds) == 0.0
    ensures r.Err? ==> r.error == ZeroDivision
    ensures r.Ok? ==> |r.value| == |ds|
  {
    if |ds| == 0 then Ok([])
    else if Sum(ds) == 0.0 then Err(ZeroDivision)
    else Ok(Normalise(ds, Sum(ds)))
  }

  /** `1 / (1 + exp(-d))` */
  function SigmoidWeight(m: SoundMath, d: real): (w: real)
    ensures 0.0 < w < 1.0
  {
    assert 0.0 < m.exp(-d);
    1.0 / (1.0 + m.exp(-d))
  }

  /** The per-node weights of a sigmoid policy, each computed from its own distance. */
  function SigmoidWeights(p: Policy, m: SoundMath, ds: seq<real>): (w: seq<real>)
    ensures |w| == |ds|
    ensures p == Softmax ==> forall k :: 0 <= k < |ds| ==> 0.0 < w[k] < 1.0
  {
    seq(|ds|, k requires 0 <= k < |ds| =>
      if p == Softmax then SigmoidWeight(m, ds[k]) else m.log(1.0 + m.exp(-ds[k])))
  }

  /** `linear_blend_factor`: inverse distances, normalised. */
  function LinearBlendFactor(m: SoundMath, xn: real, yn: real, nodes: seq<GradientNode>)
    : (r: Result<seq<real>>)
    ensures Guarded(xn, yn, r)
    ensures InUnit(xn) && InUnit(yn) ==> (r.Ok? <==> Distances(m, xn, yn, nodes).Ok?)
    ensures r.Ok? ==> |r.value| == |nodes|
  {
    if CheckQuery(xn, yn).Err? then Err(CheckQuery(xn, yn).error)
    else match Distances(m, xn, yn, nodes)
      case Err(e) => Err(e)
      case Ok(ds) => Ok(LinearWeights(ds))
  }

  /** `inverse_linear_blend_factor`: distances, normalised. */
  function InverseLinearBlendFactor(m: SoundMath, xn: real, yn: real, nodes: seq<GradientNode>)
    : (r: Result<seq<real>>)
    ensures Guarded(xn, yn, r)
    ensures r.Ok? ==> |r.value| == |nodes|
  {
    if CheckQuery(xn, yn).Err? then Err(CheckQuery(xn, yn).error)
    else match Distances(m, xn, yn, nodes)
      case Err(e) => Err(e)
      case Ok(ds) => InverseLinearWeights(ds)
  }

  /** `softmax_blend_factor`: the sigmoid of each distance, not renormalised. */
  function SoftmaxBlendFactor(m: SoundMath, xn: real, yn: real, nodes: seq<GradientNode>)
    : (r: Result<seq<real>>)
    ensures Guarded(xn, yn, r)
    ensures InUnit(xn) && InUnit(yn) ==> (r.Ok? <==> Distances(m, xn, yn, nodes).Ok?)
    ensures r.Ok? ==> |r.value| == |nodes|
    ensures r.Ok? ==> forall k :: 0 <= k < |nodes| ==> 0.0 < r.value[k] < 1.0
  {
    if CheckQuery(xn, yn).Err? then Err(CheckQuery(xn, yn).error)
    else match Distances(m, xn, yn, nodes)
      case Err(e) => Err(e)
      case Ok(ds) => Ok(SigmoidWeights(Softmax, m, ds))
  }

  /** `log_sigmoid_blend_factor`: `log(1 + exp(-d))` of each distance, not renormalised. */
  function LogSigmoidBlendFactor(m: SoundMath, xn: real, yn: real, nodes: seq<GradientNode>)
    : (r: Result<seq<real>>)
    ensures Guarded(xn, yn, r)
    ensures InUnit(xn) && InUnit(yn) ==> (r.Ok? <==> Distances(m, xn, yn, nodes).Ok?)
    ensures r.Ok? ==> |r.value| == |nodes|
  {
    if CheckQuery(xn, yn).Err? then Err(CheckQuery(xn, yn).error)
    else match Distances(m, xn, yn, nodes)
      case Err(e) => Err(e)
      case Ok(ds) => Ok(SigmoidWeights(LogSigmoid, m, ds))
  }

  /** The blend callable a policy stands for. */
  function BlendFactor(p: Policy, m: SoundMath, xn: real, yn: real, nodes: seq<GradientNode>)
    : (r: Result<seq<real>>)
    ensures Guarded(xn, yn, r)
    ensures r.Ok? ==> |r.value| == |nodes|
    ensures p != InverseLinear && InUnit(xn) && InUnit(yn) && Distances(m, xn, yn, nodes).Ok?
      ==> r.Ok?
  {
    match p
    case Linear => LinearBlendFactor(m, xn, yn, nodes)
    case InverseLinear => InverseLinearBlendFactor(m, xn, yn, nodes)
    case Softmax => SoftmaxBlendFactor(m, xn, yn, nodes)
    case LogSigmoid => LogSigmoidBlendFactor(m, xn, yn, nodes)
  }

  /** A smaller distance has a strictly larger inverse distance. */
  lemma InverseDistanceOrder(ds: seq<real>, i: int, j: int)
    requires forall k :: 0 <= k < |ds| ==> 0.0 <= ds[k]
    requires 0 <= i < |ds| && 0 <= j < |ds| && ds[i] < ds[j]
    ensures InverseDistances(ds)[j] < InverseDistances(ds)[i]
  {
    var a, b := ds[i] + Epsilon, ds[j] + Epsilon;
    assert 0.0 < a < b;
    var x, y := 1.0 / a, 1.0 / b;
    assert x * a == 1.0 && y * b == 1.0;
    MulLess(x, a, b);
    if x <= y {
      MulLess(b, x, y);
    }
  }

  /** Dividing by a positive total keeps the order. */
  lemma DivideKeepsOrder(a: real, b: real, total: real)
    requires a < b && 0.0 < total
    ensures a / total < b / total
  {
  }

  /** Linear weights over non-negative distances: positive and summing to 1 when there are any. */
  lemma LinearWeightsFacts(ds: seq<real>)
    requires forall k :: 0 <= k < |ds| ==> 0.0 <= ds[k]
    requires |ds| > 0
    ensures Sum(LinearWeights(ds)) == 1.0
    ensures forall k :: 0 <= k < |ds| ==> 0.0 < LinearWeights(ds)[k]
  {
    var inv := InverseDistances(ds);
    SumPositive(inv);
    var total := Sum(inv);
    SumNormalise(inv, total);
    assert LinearWeights(ds) == Normalise(inv, total);
  }

  /** A strictly smaller distance gets a strictly larger linear weight. */
  lemma LinearWeightsOrder(ds: seq<real>, i: int, j: int)
    requires forall k :: 0 <= k < |ds| ==> 0.0 <= ds[k]
    requires 0 <= i < |ds| && 0 <= j < |ds| && ds[i] < ds[j]
    ensures LinearWeights(ds)[j] < LinearWeights(ds)[i]
  {
    var inv := InverseDistances(ds);
    SumPositive(inv);
    var total := Sum(inv);
    assert LinearWeights(ds) == Normalise(inv, total);
    InverseDistanceOrder(ds, i, j);
    DivideKeepsOrder(inv[j], inv[i], total);
  }

  /** Linear policy: the weights of a non-empty node list are positive and sum to 1, and a
      strictly nearer node gets a strictly larger weight. */
  lemma LinearWeightsDistribution(m: SoundMath, xn: real, yn: real, nodes: seq<GradientNode>)
    requires LinearBlendFactor(m, xn, yn, nodes).Ok?
    requires |nodes| > 0
    ensures Sum(LinearBlendFactor(m, xn, yn, nodes).value) == 1.0
    ensures forall k :: 0 <= k < |nodes| ==> 0.0 < LinearBlendFactor(m, xn, yn, nodes).value[k]
    ensures forall i, j :: 0 <= i < |nodes| && 0 <= j < |nodes| ==>
      (Distances(m, xn, yn, nodes).value[i] < Distances(m, xn, yn, nodes).value[j] ==>
       LinearBlendFactor(m, xn, yn, nodes).value[j] < LinearBlendFactor(m, xn, yn, nodes).value[i])
  {
    var ds := Distances(m, xn, yn, nodes).value;
    assert LinearBlendFactor(m, xn, yn, nodes).value == LinearWeights(ds);
    LinearWeightsFacts(ds);
    forall i, j | 0 <= i < |ds| && 0 <= j < |ds| && ds[i] < ds[j]
      ensures LinearWeights(ds)[j] < LinearWeights(ds)[i]
    {
      LinearWeightsOrder(ds, i, j);
    }
  }

  /** Inverse-linear weights over non-negative distances fail exactly when every distance is 0. */
  lemma InverseLinearWeightsFail(ds: seq<real>)
    requires forall k :: 0 <= k < |ds| ==> 0.0 <= ds[k]
    requires |ds| > 0
    ensures InverseLinearWeights(ds).Err? <==> forall k :: 0 <= k < |ds| ==> ds[k] == 0.0
    ensures InverseLinearWeights(ds).Err? ==> InverseLinearWeights(ds).error == ZeroDivision
  {
    SumNonNegative(ds);
  }

  /** A successful inverse-linear weighting of a non-empty list sums to 1. */
  lemma InverseLinearWeightsSum(ds: seq<real>, w: seq<real>)
    requires |ds| > 0
    requires InverseLinearWeights(ds) == Ok(w)
    ensures |w| == |ds|
    ensures Sum(w) == 1.0
  {
    var total := Sum(ds);
    assert w == Normalise(ds, total);
    SumNormalise(ds, total);
    DivideBySelf(total);
  }

  /** Non-negative distances give non-negative inverse-linear weights. */
  lemma InverseLinearWeightsNonNegative(ds: seq<real>, w: seq<real>)
    requires forall k :: 0 <= k < |ds| ==> 0.0 <= ds[k]
    requires InverseLinearWeights(ds) == Ok(w)
    ensures forall k :: 0 <= k < |w| ==> 0.0 <= w[k]
  {
    if |ds| > 0 {
      SumNonNegative(ds);
      assert w == Normalise(ds, Sum(ds));
    }
  }

  /** Inverse-linear policy: over a non-empty node list the weights are non-negative, sum to 1 and
      are proportional to the distances; the call fails exactly when every distance is 0. */
  lemma InverseLinearWeightsDistribution(m: SoundMath, xn: real, yn: real, nodes: seq<GradientNode>)
    requires InUnit(xn) && InUnit(yn)
    requires Distances(m, xn, yn, nodes).Ok?
    requires |nodes| > 0
    ensures var r := InverseLinearBlendFactor(m, xn, yn, nodes);
      r == Err(ZeroDivision) <==>
      forall k :: 0 <= k < |nodes| ==> Distances(m, xn, yn, nodes).value[k] == 0.0
    ensures var r := InverseLinearBlendFactor(m, xn, yn, nodes);
      r.Ok? ==> Sum(r.value) == 1.0
    ensures var r := InverseLinearBlendFactor(m, xn, yn, nodes);
      r.Ok? ==> forall k :: 0 <= k < |nodes| ==>
        (0.0 <= r.value[k] &&
         r.value[k] == Distances(m, xn, yn, nodes).value[k] / Sum(Distances(m, xn, yn, nodes).value))
  {
    var d := Distances(m, xn, yn, nodes);
    var ds := d.value;
    assert InverseLinearBlendFactor(m, xn, yn, nodes) == InverseLinearWeights(ds);
    InverseLinearWeightsFail(ds);
    if InverseLinearWeights(ds).Ok? {
      var w := InverseLinearWeights(ds).value;
      InverseLinearWeightsSum(ds, w);
      InverseLinearWeightsNonNegative(ds, w);
    }
  }

  /** Softmax weights are not renormalised. This shows it for one node only: a lone node's
      weight, below 1 by `SoftmaxBlendFactor`'s own bound, sums to less than 1. */
  lemma SoftmaxNotNormalised(m: SoundMath, xn: real, yn: real, node: GradientNode)
    requires SoftmaxBlendFactor(m, xn, yn, [node]).Ok?
    ensures Sum(SoftmaxBlendFactor(m, xn, yn, [node]).value) < 1.0
  {
    var w := SoftmaxBlendFactor(m, xn, yn, [node]).value;
    assert w[..0] == [];
  }

  /** The two sigmoid policies weigh each node by its own distance alone: node k gets the weight
      it would get if it were the only node. */
  lemma UnnormalisedWeightsAreLocal(p: Policy, m: SoundMath, xn: real, yn: real,
                                    nodes: seq<GradientNode>, k: int)
    requires p == Softmax || p == LogSigmoid
    requires BlendFactor(p, m, xn, yn, nodes).Ok?
    requires 0 <= k < |nodes|
    ensures BlendFactor(p, m, xn, yn, [nodes[k]]) == Ok([BlendFactor(p, m, xn, yn, nodes).value[k]])
  {
    var ds := Distances(m, xn, yn, nodes).value;
    var single := Distances(m, xn, yn, [nodes[k]]);
    assert [nodes[k]][0] == nodes[k];
    assert single.Ok? && |single.value| == 1 && single.value[0] == ds[k];
    assert single.value == [ds[k]];
    assert SigmoidWeights(p, m, [ds[k]]) == [SigmoidWeights(p, m, ds)[k]];
  }

  /** Replacing one node leaves every other node's sigmoid-policy weight unchanged. */
  lemma UnnormalisedWeightsIgnoreOtherNodes(p: Policy, m: SoundMath, xn: real, yn: real,
                                            nodes: seq<GradientNode>, k: int, n: GradientNode)
    requires p == Softmax || p == LogSigmoid
    requires 0 <= k < |nodes|
    requires BlendFactor(p, m, xn, yn, nodes).Ok?
    requires BlendFactor(p, m, xn, yn, nodes[k := n]).Ok?
    ensures forall i :: 0 <= i < |nodes| && i != k ==>
      BlendFactor(p, m, xn, yn, nodes[k := n]).value[i] == BlendFactor(p, m, xn, yn, nodes).value[i]
  {
    forall i | 0 <= i < |nodes| && i != k
      ensures BlendFactor(p, m, xn, yn, nodes[k := n]).value[i] == BlendFactor(p, m, xn, yn, nodes).value[i]
    {
      UnnormalisedWeightsAreLocal(p, m, xn, yn, nodes, i);
      UnnormalisedWeightsAreLocal(p, m, xn, yn, nodes[k := n], i);
      assert nodes[k := n][i] == nodes[i];
    }
  }

  /** The colour `Σ factor_k * color_k`, accumulated left to right from black. */
  function WeightedSum(factors: seq<real>, colors: seq<Color>): (c: Color)
    requires |factors| == |colors|
    ensures |factors| == 0 ==> c == Black
    ensures |factors| == 1 ==> c == Scale(colors[0], factors[0])
    decreases |factors|
  {
    if |factors| == 0 then Black
    else
      var n := |factors| - 1;
      Add(WeightedSum(factors[..n], colors[..n]), Scale(colors[n], factors[n]))
  }

  /** What `blend_colors(factors, colors)` returns or raises. */
  function Blended(factors: seq<real>, colors: seq<Color>): (r: Result<Color>)
    ensures r.Err? <==> |factors| != |colors|
    ensures r.Err? ==> r.error == LengthMismatch
  {
    if |factors| != |colors| then Err(LengthMismatch) else Ok(WeightedSum(factors, colors))
  }

  /** `blend_colors`: rejects unequal lengths, otherwise sums `color * factor` into black. */
  method BlendColors(factors: seq<real>, colors: seq<Color>) returns (r: Result<Color>)
    ensures r.Err? <==> |factors| != |colors|
    ensures r.Err? ==> r.error == LengthMismatch
    ensures r.Ok? ==> r.value == WeightedSum(factors, colors)
    ensures |factors| == |colors| == 0 ==> r == Ok(Black)
  {
    if |factors| != |colors| {
      return Err(LengthMismatch);
    }
    var result := Black;
    for k := 0 to |factors|
      invariant result == WeightedSum(factors[..k], colors[..k])
    {
      assert factors[..k + 1][..k] == factors[..k];
      assert colors[..k + 1][..k] == colors[..k];
      result := Add(result, Scale(colors[k], factors[k]));
    }
    assert factors[..|factors|] == factors && colors[..|colors|] == colors;
    return Ok(result);
  }

  /** `[f * x for f, x in zip(factors, xs)]` */
  function Terms(factors: seq<real>, xs: seq<real>): (t: seq<real>)
    requires |factors| == |xs|
    ensures |t| == |factors|
  {
    seq(|factors|, k requires 0 <= k < |factors| => factors[k] * xs[k])
  }

  /** One channel of every colour of a list. */
  function Channels(cs: seq<Color>, ch: Channel): (s: seq<real>)
    ensures |s| == |cs|
  {
    seq(|cs|, k requires 0 <= k < |cs| => Get(cs[k], ch))
  }

  lemma TermsPrefix(factors: seq<real>, xs: seq<real>, n: nat)
    requires |factors| == |xs| && n <= |factors|
    ensures Terms(factors, xs)[..n] == Terms(factors[..n], xs[..n])
  {
    assert forall k :: 0 <= k < n ==> Terms(factors, xs)[..n][k] == Terms(factors[..n], xs[..n])[k];
  }

  lemma ChannelsPrefix(cs: seq<Color>, ch: Channel, n: nat)
    requires n <= |cs|
    ensures Channels(cs, ch)[..n] == Channels(cs[..n], ch)
  {
    assert forall k :: 0 <= k < n ==> Channels(cs, ch)[..n][k] == Channels(cs[..n], ch)[k];
  }

  /** Each channel of the weighted sum is the sum of the factor-times-channel terms. */
  lemma {:induction false} WeightedSumChannel(factors: seq<real>, colors: seq<Color>, ch: Channel)
    requires |factors| == |colors|
    ensures Get(WeightedSum(factors, colors), ch) == Sum(Terms(factors, Channels(colors, ch)))
    decreases |factors|
  {
    if |factors| > 0 {
      var n := |factors| - 1;
      var xs := Channels(colors, ch);
      var t := Terms(factors, xs);
      WeightedSumChannel(factors[..n], colors[..n], ch);
      ChannelsPrefix(colors, ch, n);
      TermsPrefix(factors, xs, n);
      assert t[n] == Get(Scale(colors[n], factors[n]), ch);
      assert Sum(t) == Sum(t[..n]) + t[n];
    }
  }

  /** Blending a palette of one repeated colour scales that colour by the total weight. */
  lemma {:induction false} WeightedSumUniform(factors: seq<real>, colors: seq<Color>, c: Color)
    requires |factors| == |colors|
    requires forall k :: 0 <= k < |colors| ==> colors[k] == c
    ensures WeightedSum(factors, colors) == Scale(c, Sum(factors))
    decreases |factors|
  {
    if |factors| > 0 {
      var n := |factors| - 1;
      WeightedSumUniform(factors[..n], colors[..n], c);
      assert colors[n] == c;
      ScaleDistributes(c, Sum(factors[..n]), factors[n]);
    }
  }

  /** A sum of non-negative weights times values in [0, 1] lies between 0 and the total weight. */
  lemma {:induction false} TermsBounded(factors: seq<real>, xs: seq<real>)
    requires |factors| == |xs|
    requires forall k :: 0 <= k < |factors| ==> 0.0 <= factors[k]
    requires forall k :: 0 <= k < |xs| ==> 0.0 <= xs[k] <= 1.0
    ensures 0.0 <= Sum(Terms(factors, xs)) <= Sum(factors)
    decreases |factors|
  {
    if |factors| > 0 {
      var n := |factors| - 1;
      TermsPrefix(factors, xs, n);
      TermsBounded(factors[..n], xs[..n]);
      var f, x := factors[n], xs[n];
      var t := Terms(factors, xs);
      assert t[n] == f * x;
      ProductBounded(t[n], f, x);
      assert Sum(t) == Sum(t[..n]) + t[n];
      assert Sum(factors) == Sum(factors[..n]) + f;
    }
  }

  lemma ProductBounded(p: real, f: real, x: real)
    requires p == f * x
    requires 0.0 <= f && 0.0 <= x <= 1.0
    ensures 0.0 <= p <= f
  {
    assert f * x <= f * 1.0;
  }

  /** Non-negative weights keep every channel between 0 and the total weight when the colours are
      in gamut. */
  lemma WeightedSumBounded(factors: seq<real>, colors: seq<Color>)
    requires |factors| == |colors|
    requires forall k :: 0 <= k < |factors| ==> 0.0 <= factors[k]
    requires forall k :: 0 <= k < |colors| ==> InGamut(colors[k])
    ensures 0.0 <= WeightedSum(factors, colors).r <= Sum(factors)
    ensures 0.0 <= WeightedSum(factors, colors).g <= Sum(factors)
    ensures 0.0 <= WeightedSum(factors, colors).b <= Sum(factors)
  {
    forall ch: Channel
      ensures 0.0 <= Get(WeightedSum(factors, colors), ch) <= Sum(factors)
    {
      WeightedSumChannel(factors, colors, ch);
      TermsBounded(factors, Channels(colors, ch));
    }
    assert WeightedSum(factors, colors).r == Get(WeightedSum(factors, colors), Red);
    assert WeightedSum(factors, colors).g == Get(WeightedSum(factors, colors), Green);
    assert WeightedSum(factors, colors).b == Get(WeightedSum(factors, colors), Blue);
  }

  /** The two normalising policies give non-negative weights summing to 1. */
  lemma NormalisedWeights(p: Policy, m: SoundMath, xn: real, yn: real, nodes: seq<GradientNode>)
    requires p == Linear || p == InverseLinear
    requires BlendFactor(p, m, xn, yn, nodes).Ok?
    requires |nodes| > 0
    ensures Sum(BlendFactor(p, m, xn, yn, nodes).value) == 1.0
    ensures forall k :: 0 <= k < |nodes| ==> 0.0 <= BlendFactor(p, m, xn, yn, nodes).value[k]
  {
    if p == Linear {
      LinearWeightsDistribution(m, xn, yn, nodes);
    } else {
      InverseLinearWeightsDistribution(m, xn, yn, nodes);
    }
  }

  /** With the two normalising policies, blending a palette of in-gamut colours with a matching
      node list gives an in-gamut colour. */
  lemma NormalisedBlendInGamut(p: Policy, m: SoundMath, xn: real, yn: real,
                               nodes: seq<GradientNode>, palette: seq<Color>)
    requires p == Linear || p == InverseLinear
    requires BlendFactor(p, m, xn, yn, nodes).Ok?
    requires |palette| == |nodes| > 0
    requires forall k :: 0 <= k < |palette| ==> InGamut(palette[k])
    ensures InGamut(WeightedSum(BlendFactor(p, m, xn, yn, nodes).value, palette))
  {
    var w := BlendFactor(p, m, xn, yn, nodes).value;
    NormalisedWeights(p, m, xn, yn, nodes);
    WeightedSumBounded(w, palette);
  }

  /** With the two normalising policies, a palette of one repeated colour blends to that colour. */
  lemma NormalisedBlendUniform(p: Policy, m: SoundMath, xn: real, yn: real,
                               nodes: seq<GradientNode>, palette: seq<Color>)
    requires p == Linear || p == InverseLinear
    requires BlendFactor(p, m, xn, yn, nodes).Ok?
    requires |palette| == |nodes| > 0
    requires forall k :: 0 <= k < |palette| ==> palette[k] == palette[0]
    ensures WeightedSum(BlendFactor(p, m, xn, yn, nodes).value, palette) == palette[0]
  {
    var w := BlendFactor(p, m, xn, yn, nodes).value;
    NormalisedWeights(p, m, xn, yn, nodes);
    WeightedSumUniform(w, palette, palette[0]);
  }
}
