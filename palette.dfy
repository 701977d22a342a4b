/** Palette derivation: a base hue, saturation and lightness taken from digest bytes, a list of
    hue offsets chosen by the scheme name, one colour per offset, cut to the requested count. */
module Palette {
  import opened Errors
  import opened Colors

  type byte = x: int | 0 <= x < 256

  /** The hue `int.from_bytes(digest[0:2], "big") / 65535`. */
  function BaseHue(d: seq<byte>): (h: real)
    requires |d| >= 2
    ensures 0.0 <= h <= 1.0
    ensures h * 65535.0 == (d[0] as int * 256 + d[1] as int) as real
    ensures h == 1.0 <==> d[0] == 255 && d[1] == 255
  {
    (d[0] as int * 256 + d[1] as int) as real / 65535.0
  }

  /** The saturation, byte 2 mapped affinely onto [0.45, 0.85]. */
  function Saturation(d: seq<byte>): (s: real)
    requires |d| >= 3
    ensures 0.45 <= s <= 0.85
    ensures (s - 0.45) * 637.5 == d[2] as real
  {
    0.45 + (d[2] as real / 255.0) * 0.4
  }

  /** The lightness, byte 3 mapped affinely onto [0.35, 0.65]. */
  function Lightness(d: seq<byte>): (l: real)
    requires |d| >= 4
    ensures 0.35 <= l <= 0.65
    ensures (l - 0.35) * 850.0 == d[3] as real
  {
    0.35 + (d[3] as real / 255.0) * 0.3
  }

  const Step: real := 0.05

  /** `[i * 0.05 for i in range(-(n // 2), n // 2 + 1)]`; for a divisor of 2 Dafny's `/` on int
      rounds down, as Python's `//` does. */
  function AnalogousOffsets(n: int): (r: seq<real>)
    ensures n >= 0 ==> |r| == 2 * (n / 2) + 1 && r[n / 2] == 0.0
    ensures n < 0 ==> r == []
  {
    var half := n / 2;
    var count := if 2 * half + 1 >= 0 then 2 * half + 1 else 0;
    seq(count, k requires 0 <= k < count => (k - half) as real * Step)
  }

  /** The hue offsets of a scheme. */
  function Offsets(scheme: string, n: int): (r: seq<real>)
    ensures scheme != "analogous" ==> 1 <= |r| <= 3 && r[0] == 0.0
    ensures scheme != "analogous" ==> forall k :: 0 <= k < |r| ==> 0.0 <= r[k] < 1.0
  {
    if scheme == "analogous" then AnalogousOffsets(n)
    else if scheme == "complementary" then [0.0, 0.5]
    else if scheme == "triadic" then [0.0, 1.0 / 3.0, 2.0 / 3.0]
    else [0.0]
  }

  /** `x % 1.0`: the position of a hue on the unit circle. */
  function WrapHue(x: real): (r: real)
    ensures 0.0 <= r < 1.0
    ensures (x - r).Floor as real == x - r
  {
    x - x.Floor as real
  }

  /** The length of the Python slice `s[:n]` of a sequence of length `len`. */
  function SliceLength(len: nat, n: int): nat {
    if n >= 0 then (if n <= len then n else len)
    else (if len + n >= 0 then len + n else 0)
  }

  /** The Python slice `s[:n]`, a negative `n` counting from the end. */
  function Take<T>(s: seq<T>, n: int): (r: seq<T>)
    ensures |r| == SliceLength(|s|, n)
    ensures r <= s
  {
    s[..SliceLength(|s|, n)]
  }

  /** What a generated palette is: the first `n` entries, in the Python slice sense, of one colour
      per scheme offset, entry k converting the wrapped hue `(h + offsets[k]) % 1.0` with the
      digest's lightness and saturation. */
  ghost predicate IsPalette(p: seq<Color>, d: seq<byte>, scheme: string, n: int,
                            hls: (real, real, real) -> Color)
    requires |d| >= 4
  {
    var offsets := Offsets(scheme, n);
    |p| == SliceLength(|offsets|, n) &&
    forall k :: 0 <= k < |p| ==>
      p[k] == hls(WrapHue(BaseHue(d) + offsets[k]), Lightness(d), Saturation(d))
  }

  /** `generate_palette(digest, scheme, n)`; `hls` is `colorsys.hls_to_rgb` followed by the
      Color constructor. */
  method GeneratePalette(digest: seq<byte>, scheme: string, n: int,
                         hls: (real, real, real) -> Color)
    returns (r: Result<seq<Color>>)
    ensures r.Err? <==> |digest| < 4
    ensures r.Err? ==> r.error == DigestTooShort
    ensures r.Ok? ==> IsPalette(r.value, digest, scheme, n, hls)
  {
    if |digest| < 4 {
      return Err(DigestTooShort);
    }
    var h := BaseHue(digest);
    var s := Saturation(digest);
    var l := Lightness(digest);
    var offsets := Offsets(scheme, n);
    var palette := [];
    for k := 0 to |offsets|
      invariant |palette| == k
      invariant forall i :: 0 <= i < k ==> palette[i] == hls(WrapHue(h + offsets[i]), l, s)
    {
      var newH := WrapHue(h + offsets[k]);
      palette := palette + [hls(newH, l, s)];
    }
    var result := Take(palette, n);
    assert forall k :: 0 <= k < |result| ==> result[k] == palette[k];
    return Ok(result);
  }

  /** The analogous offsets run from -(n//2)*0.05 to (n//2)*0.05 in steps of 0.05, centred on 0,
      symmetric, and number 2*(n//2)+1, at least n. */
  lemma AnalogousOffsetsShape(n: int)
    requires n >= 0
    ensures |AnalogousOffsets(n)| == 2 * (n / 2) + 1 >= n
    ensures AnalogousOffsets(n)[0] == -((n / 2) as real) * Step
    ensures AnalogousOffsets(n)[n / 2] == 0.0
    ensures forall k :: 0 < k < |AnalogousOffsets(n)| ==>
      AnalogousOffsets(n)[k] == AnalogousOffsets(n)[k - 1] + Step
    ensures forall k :: 0 <= k < |AnalogousOffsets(n)| ==>
      AnalogousOffsets(n)[k] == -AnalogousOffsets(n)[|AnalogousOffsets(n)| - 1 - k]
  {
  }

  /** The offsets of a scheme are strictly increasing. */
  lemma OffsetsIncreasing(scheme: string, n: int, i: int, j: int)
    requires 0 <= i < j < |Offsets(scheme, n)|
    ensures Offsets(scheme, n)[i] < Offsets(scheme, n)[j]
  {
  }

  /** n = 5 gives the offsets -0.10, -0.05, 0, 0.05, 0.10. */
  lemma AnalogousFive()
    ensures AnalogousOffsets(5) == [-0.10, -0.05, 0.0, 0.05, 0.10]
  {
  }

  /** n = 4 computes five offsets and keeps the four smallest. */
  lemma AnalogousFourTruncated()
    ensures AnalogousOffsets(4) == [-0.10, -0.05, 0.0, 0.05, 0.10]
    ensures Take(AnalogousOffsets(4), 4) == [-0.10, -0.05, 0.0, 0.05]
  {
  }

  /** Palette lengths: never more than a non-negative n; exactly n for the analogous scheme;
      otherwise as many as the scheme's offsets allow (2, 3 or 1). */
  lemma PaletteLength(p: seq<Color>, d: seq<byte>, scheme: string, n: int,
                      hls: (real, real, real) -> Color)
    requires |d| >= 4
    requires IsPalette(p, d, scheme, n, hls)
    requires n >= 0
    ensures |p| <= n
    ensures scheme == "analogous" ==> |p| == n
    ensures scheme == "complementary" ==> |p| == if n < 2 then n else 2
    ensures scheme == "triadic" ==> |p| == if n < 3 then n else 3
    ensures scheme !in {"analogous", "complementary", "triadic"} ==> |p| == if n < 1 then n else 1
  {
    if scheme == "analogous" {
      AnalogousOffsetsShape(n);
    }
  }

  /** With at least four nodes' worth of colours requested, only the analogous scheme supplies
      one colour per node. */
  lemma PaletteMatchesCount(p: seq<Color>, d: seq<byte>, scheme: string, n: int,
                            hls: (real, real, real) -> Color)
    requires |d| >= 4
    requires IsPalette(p, d, scheme, n, hls)
    requires n >= 4
    ensures |p| == n <==> scheme == "analogous"
  {
    PaletteLength(p, d, scheme, n, hls);
  }

  /** Truncation drops from the top: every kept offset is smaller than every dropped one, and the
      analogous entry k uses offset (k - n//2) * 0.05. */
  lemma TruncationKeepsSmallestOffsets(p: seq<Color>, d: seq<byte>, scheme: string, n: int,
                                       hls: (real, real, real) -> Color)
    requires |d| >= 4
    requires IsPalette(p, d, scheme, n, hls)
    ensures forall k, k' :: 0 <= k < |p| <= k' < |Offsets(scheme, n)| ==>
      Offsets(scheme, n)[k] < Offsets(scheme, n)[k']
    ensures scheme == "analogous" ==> forall k :: 0 <= k < |p| ==>
      p[k] == hls(WrapHue(BaseHue(d) + (k - n / 2) as real * Step), Lightness(d), Saturation(d))
  {
    forall k, k' | 0 <= k < |p| <= k' < |Offsets(scheme, n)|
      ensures Offsets(scheme, n)[k] < Offsets(scheme, n)[k']
    {
      OffsetsIncreasing(scheme, n, k, k');
    }
  }
}
