/** The closed-form helpers of the cloud shader in cloud-material.js, over exact reals:
    the flow-map sampling of the vertex shader (`remap`, `FlowUVW`), and the fragment
    shader's distance colouring, depth fade and alpha. Texture reads and the depth
    unpacking that feed them are inputs here. */
module CloudShading {

  datatype Vec2 = Vec2(x: real, y: real)
  {
    function Plus(o: Vec2): Vec2 { Vec2(x + o.x, y + o.y) }
    function Minus(o: Vec2): Vec2 { Vec2(x - o.x, y - o.y) }
    function Scale(k: real): Vec2 { Vec2(k * x, k * y) }
  }

  datatype Vec3 = Vec3(x: real, y: real, z: real)

  function Abs(x: real): real { if x < 0.0 then -x else x }

  /** GLSL `clamp(x, lo, hi)`. */
  function Clamp(x: real, lo: real, hi: real): (r: real)
    requires lo <= hi
    ensures lo <= r <= hi
    ensures lo <= x <= hi ==> r == x
    ensures x < lo ==> r == lo
    ensures x > hi ==> r == hi
  {
    if x < lo then lo else if x > hi then hi else x
  }

  /** `saturate(a)`, i.e. `clamp(a, 0.0, 1.0)`. */
  function Saturate(x: real): (r: real)
    ensures 0.0 <= r <= 1.0
    ensures 0.0 <= x <= 1.0 ==> r == x
    ensures x < 0.0 ==> r == 0.0
    ensures x > 1.0 ==> r == 1.0
  {
    Clamp(x, 0.0, 1.0)
  }

  /** GLSL `fract(x)`: `x - floor(x)`. */
  function Fract(x: real): (r: real)
    ensures 0.0 <= r < 1.0
    ensures (x - r).Floor as real == x - r
  {
    x - x.Floor as real
  }

  /** `pow(x, n)` for the whole-number exponents the shader passes. */
  function Pow(x: real, n: nat): real
  {
    if n == 0 then 1.0 else x * Pow(x, n - 1)
  }

  /** A power of a number in [0, 1] stays in [0, 1]. */
  lemma {:induction false} PowUnit(x: real, n: nat)
    requires 0.0 <= x <= 1.0
    ensures 0.0 <= Pow(x, n) <= 1.0
  {
    if n > 0 {
      PowUnit(x, n - 1);
      var p := Pow(x, n - 1);
      assert 0.0 <= x * p by { assert 0.0 <= x && 0.0 <= p; }
      assert x * p <= p by { assert (1.0 - x) * p >= 0.0; }
      assert Pow(x, n) == x * p;
    }
  }

  /** On non-negative numbers, powers are monotone. */
  lemma {:induction false} PowMonotone(x: real, y: real, n: nat)
    requires 0.0 <= x <= y
    ensures 0.0 <= Pow(x, n) <= Pow(y, n)
  {
    if n > 0 {
      PowMonotone(x, y, n - 1);
      assert x * Pow(x, n - 1) <= y * Pow(x, n - 1) <= y * Pow(y, n - 1);
    }
  }

  /** Powers of 0 and 1. */
  lemma {:induction false} PowEnds(n: nat)
    ensures Pow(1.0, n) == 1.0
    ensures n > 0 ==> Pow(0.0, n) == 0.0
  {
    if n > 0 {
      PowEnds(n - 1);
    }
  }

  /** `remap` (cloud-material.js:42-44): the affine map taking [InMin, InMax] to
      [OutMin, OutMax], each pair packed as `(x, y)`. */
  function Remap(target: real, inMinMax: Vec2, outMinMax: Vec2): real
    requires inMinMax.x != inMinMax.y
  {
    outMinMax.x + (target - inMinMax.x) * (outMinMax.y - outMinMax.x) / (inMinMax.y - inMinMax.x)
  }

  /** `remap` sends the ends of the input range to the ends of the output range, and
      moves its result by a fixed slope times the move of its argument. */
  lemma RemapAffine(t1: real, t2: real, inMinMax: Vec2, outMinMax: Vec2)
    requires inMinMax.x != inMinMax.y
    ensures Remap(inMinMax.x, inMinMax, outMinMax) == outMinMax.x
    ensures Remap(inMinMax.y, inMinMax, outMinMax) == outMinMax.y
    ensures Remap(t2, inMinMax, outMinMax) - Remap(t1, inMinMax, outMinMax)
            == (t2 - t1) * ((outMinMax.y - outMinMax.x) / (inMinMax.y - inMinMax.x))
  {
    var d := inMinMax.y - inMinMax.x;
    var k := (outMinMax.y - outMinMax.x) / d;
    SlopeForm(t1, inMinMax, outMinMax);
    SlopeForm(t2, inMinMax, outMinMax);
    SlopeForm(inMinMax.x, inMinMax, outMinMax);
    SlopeForm(inMinMax.y, inMinMax, outMinMax);
    assert d * k == outMinMax.y - outMinMax.x;
    assert (t2 - inMinMax.x) * k - (t1 - inMinMax.x) * k == (t2 - t1) * k;
  }

  /** `remap` as its value at InMin plus the slope times the distance from InMin. */
  lemma SlopeForm(target: real, inMinMax: Vec2, outMinMax: Vec2)
    requires inMinMax.x != inMinMax.y
    ensures Remap(target, inMinMax, outMinMax)
            == outMinMax.x + (target - inMinMax.x) * ((outMinMax.y - outMinMax.x) / (inMinMax.y - inMinMax.x))
  {
    var a, b, d := target - inMinMax.x, outMinMax.y - outMinMax.x, inMinMax.y - inMinMax.x;
    assert a * b / d == a * (b / d);
  }

  /** The phase offset of the two flow samples: 0 for A, 0.5 for B. */
  function PhaseOffset(flowB: bool): real { if flowB then 0.5 else 0.0 }

  /** The blend weight of a flow sample at some progress: a triangle that is 0 at
      progress 0 and 1 at progress 0.5. */
  function FlowWeight(progress: real): real
  {
    1.0 - Abs(1.0 - 2.0 * progress)
  }

  /** `FlowUVW` (cloud-material.js:45-55): the distorted texture coordinate and the
      sample's blend weight. */
  function FlowUVW(uv: Vec2, flowVector: Vec2, jump: Vec2, flowOffset: real, tiling: real, time: real, flowB: bool): Vec3
  {
    var phaseOffset := PhaseOffset(flowB);
    var progress := Fract(time + phaseOffset);
    var xy := uv.Minus(flowVector.Scale(progress + flowOffset))
                .Scale(tiling)
                .Plus(Vec2(phaseOffset, phaseOffset))
                .Plus(jump.Scale(time - progress));
    Vec3(xy.x, xy.y, FlowWeight(progress))
  }

  /** The weight lies in [0, 1] over a progress in [0, 1), and is 0 at progress 0 and
      1 at progress 0.5. */
  lemma FlowWeightShape(progress: real)
    requires 0.0 <= progress < 1.0
    ensures 0.0 <= FlowWeight(progress) <= 1.0
    ensures progress == 0.0 <==> FlowWeight(progress) == 0.0
    ensures progress == 0.5 <==> FlowWeight(progress) == 1.0
  {
  }

  /** The progress of sample B is that of sample A shifted by half a period. */
  lemma {:induction false} HalfPeriodShift(time: real)
    ensures Fract(time) < 0.5 ==> Fract(time + 0.5) == Fract(time) + 0.5
    ensures Fract(time) >= 0.5 ==> Fract(time + 0.5) == Fract(time) - 0.5
  {
    var f := time.Floor;
    if Fract(time) < 0.5 {
      assert f as real <= time + 0.5 < (f + 1) as real;
      assert (time + 0.5).Floor == f;
    } else {
      assert (f + 1) as real <= time + 0.5 < (f + 2) as real;
      assert (time + 0.5).Floor == f + 1;
    }
  }

  /** The two samples of a point, half a period apart, have weights that sum to
      exactly 1 at any time (cloud-material.js:74-75), so their blend never fades. */
  lemma FlowWeightsSumToOne(uv: Vec2, flowVector: Vec2, jump: Vec2, flowOffset: real, tiling: real, time: real)
    ensures FlowUVW(uv, flowVector, jump, flowOffset, tiling, time, false).z
          + FlowUVW(uv, flowVector, jump, flowOffset, tiling, time, true).z == 1.0
  {
    HalfPeriodShift(time);
    assert time + 0.0 == time;
  }

  /** With the shader's tiling 1 and offset 0 (cloud-material.js:60-64), sample A is
      the point pushed back along the flow by its progress, plus the jump times a
      whole number: the jump only moves when the progress wraps around. */
  lemma FlowSampleA(uv: Vec2, flowVector: Vec2, jump: Vec2, time: real)
    ensures var uvw := FlowUVW(uv, flowVector, jump, 0.0, 1.0, time, false);
      && uvw.x == uv.x - flowVector.x * Fract(time) + jump.x * time.Floor as real
      && uvw.y == uv.y - flowVector.y * Fract(time) + jump.y * time.Floor as real
      && uvw.z == FlowWeight(Fract(time))
  {
    assert time + 0.0 == time;
  }

  /** `getDepthFade` (cloud-material.js:126-128) for a whole-number falloff. */
  function DepthFade(fragmentDepth: real, sceneDepth: real, depthScale: real, depthFalloff: nat): real
    requires depthScale > 0.0
  {
    Pow(Saturate(1.0 - (fragmentDepth - sceneDepth) / depthScale), depthFalloff)
  }

  /** The fade lies in [0, 1]. */
  lemma DepthFadeRange(fragmentDepth: real, sceneDepth: real, depthScale: real, depthFalloff: nat)
    requires depthScale > 0.0
    ensures 0.0 <= DepthFade(fragmentDepth, sceneDepth, depthScale, depthFalloff) <= 1.0
  {
    PowUnit(Saturate(1.0 - (fragmentDepth - sceneDepth) / depthScale), depthFalloff);
  }

  /** The fade the shader uses: depth scale 25, falloff 3 (cloud-material.js:149-151). */
  const DepthScale: real := 25.0
  const DepthFalloff: nat := 3

  function SceneFade(fragmentDepth: real, sceneDepth: real): real
  {
    DepthFade(fragmentDepth, sceneDepth, DepthScale, DepthFalloff)
  }

  /** The fade is full where the fragment is not behind the scene, gone 25 units
      behind it, and never grows as the gap widens. */
  lemma SceneFadeShape(f1: real, s1: real, f2: real, s2: real)
    ensures f1 - s1 <= 0.0 ==> SceneFade(f1, s1) == 1.0
    ensures f1 - s1 >= DepthScale ==> SceneFade(f1, s1) == 0.0
    ensures f1 - s1 <= f2 - s2 ==> SceneFade(f2, s2) <= SceneFade(f1, s1)
  {
    PowEnds(DepthFalloff);
    var x1 := Saturate(1.0 - (f1 - s1) / DepthScale);
    var x2 := Saturate(1.0 - (f2 - s2) / DepthScale);
    if f1 - s1 <= 0.0 {
      assert x1 == 1.0;
    }
    if f1 - s1 >= DepthScale {
      assert x1 == 0.0;
    }
    if f1 - s1 <= f2 - s2 {
      assert (f1 - s1) / DepthScale <= (f2 - s2) / DepthScale;
      PowMonotone(x2, x1, DepthFalloff);
    }
  }

  /** The alpha selection (cloud-material.js:155). */
  function Alpha(mask: real, sceneFade: real): real
  {
    if mask < 1.0 then 1.0 - sceneFade else 1.0
  }

  /** Alpha is exactly 1 where the mask reaches 1, one minus the fade elsewhere, and so
      always in [0, 1]. */
  lemma AlphaRange(mask: real, fragmentDepth: real, sceneDepth: real)
    ensures mask >= 1.0 ==> Alpha(mask, SceneFade(fragmentDepth, sceneDepth)) == 1.0
    ensures mask < 1.0 ==> Alpha(mask, SceneFade(fragmentDepth, sceneDepth)) == 1.0 - SceneFade(fragmentDepth, sceneDepth)
    ensures 0.0 <= Alpha(mask, SceneFade(fragmentDepth, sceneDepth)) <= 1.0
  {
    DepthFadeRange(fragmentDepth, sceneDepth, DepthScale, DepthFalloff);
  }

  /** Half the width of the cloud plane (cloud-material.js:136-137). */
  const CloudHalfWidth: real := 2500.0 * 0.5

  /** `distanceLerp` (cloud-material.js:138), given the distance of the fragment from
      the plane's centre. */
  function DistanceLerp(distance: real): real
  {
    Clamp(distance / CloudHalfWidth, 0.0, 1.0)
  }

  /** The lerp rises linearly from the centre and is 1 from the half width outwards. */
  lemma DistanceLerpShape(distance: real)
    ensures CloudHalfWidth == 1250.0
    ensures 0.0 <= DistanceLerp(distance) <= 1.0
    ensures 0.0 <= distance <= 1250.0 ==> DistanceLerp(distance) == distance / 1250.0
    ensures distance >= 1250.0 ==> DistanceLerp(distance) == 1.0
  {
  }

  /** GLSL `mix(a, b, t)`, componentwise. */
  function Mix(a: Vec3, b: Vec3, t: real): Vec3
  {
    Vec3(a.x * (1.0 - t) + b.x * t, a.y * (1.0 - t) + b.y * t, a.z * (1.0 - t) + b.z * t)
  }

  const White := Vec3(1.0, 1.0, 1.0)
  const ValleyBlue := Vec3(0.310, 0.585, 0.970)

  /** The fragment colour (cloud-material.js:139-142): valleys shade from blue at the
      centre to white at the rim, peaks are white, and the noise height blends the
      two. */
  function CloudColor(distance: real, noise: real): Vec3
  {
    var lerp := DistanceLerp(distance);
    Mix(Mix(ValleyBlue, White, lerp), Mix(White, White, lerp), noise)
  }

  /** Peaks are white everywhere, and from the rim outwards the whole cloud is. */
  lemma CloudColorShape(distance: real, noise: real)
    ensures CloudColor(distance, noise) == Mix(Mix(ValleyBlue, White, DistanceLerp(distance)), White, noise)
    ensures distance >= CloudHalfWidth ==> CloudColor(distance, noise) == White
    ensures distance <= 0.0 ==> CloudColor(distance, noise) == Mix(ValleyBlue, White, noise)
  {
  }
}
