/**
 * The arithmetic skeleton of the nebula fragment shader: the integer helpers
 * of the classic Perlin noise (component-wise on vec4 in GLSL, modelled here
 * on one component), the quintic fade curve, the [-1,1] to [0,1] remap, the
 * six-step domain warp of `nebula` and the alpha clamp of `main`.  The noise
 * kernel `cnoise` is a parameter: its floating-point body is not modelled.
 */
module NebulaShader {
  import opened Vectors
  import Gl

  // ---- mod289 and permute ----

  /** mod289(x) = x - floor(x / 289) * 289: the representative of x modulo 289 in [0, 289). */
  function Mod289(x: real): (r: real)
    ensures 0.0 <= r < 289.0
    ensures (((x - r) / 289.0).Floor as real) * 289.0 == x - r
  {
    var q := (x / 289.0).Floor;
    x - (q as real) * 289.0
  }

  /** On an integer, mod289 is the Euclidean remainder by 289. */
  lemma {:induction false} Mod289OfInt(n: int)
    ensures Mod289(n as real) == (n % 289) as real
  {
    var q, m := n / 289, n % 289;
    assert n == 289 * q + m && 0 <= m < 289;
    assert (n as real) / 289.0 == (q as real) + (m as real) / 289.0;
    assert ((n as real) / 289.0).Floor == q;
  }

  /** permute(x) = mod289((34x + 1) x), which lies in [0, 289) like any mod289 result. */
  function Permute(x: real): (r: real)
    ensures 0.0 <= r < 289.0
  {
    Mod289((x * 34.0 + 1.0) * x)
  }

  /** The integer permutation polynomial that permute evaluates. */
  function PermuteInt(n: int): int
  {
    ((34 * n + 1) * n) % 289
  }

  /** On an integer, permute is exactly the integer polynomial reduced modulo 289. */
  lemma {:induction false} PermuteOfInt(n: int)
    ensures Permute(n as real) == PermuteInt(n) as real
  {
    var m := (34 * n + 1) * n;
    assert ((n as real) * 34.0 + 1.0) * (n as real) == m as real;
    Mod289OfInt(m);
  }

  /** The integer permutation has period 289: inputs equal modulo 289 give the same result. */
  lemma {:induction false} PermutePeriodic(n: int)
    ensures PermuteInt(n + 289) == PermuteInt(n)
    ensures 0 <= PermuteInt(n) < 289
  {
    var k := 68 * n + 1 + 34 * 289;
    assert (34 * (n + 289) + 1) * (n + 289) == (34 * n + 1) * n + 289 * k;
    ShiftMod((34 * n + 1) * n, k);
  }

  /** Adding a multiple of 289 leaves the remainder unchanged. */
  lemma ShiftMod(a: int, k: int)
    ensures (a + 289 * k) % 289 == a % 289
  {
    var q, m := a / 289, a % 289;
    assert a + 289 * k == 289 * (q + k) + m;
  }

  // ---- fade ----

  /** fade(t) = t^3 (t (6t - 15) + 10), the quintic interpolation curve, fixed at both ends. */
  function Fade(t: real): (r: real)
    ensures t == 0.0 ==> r == 0.0
    ensures t == 1.0 ==> r == 1.0
  {
    t * t * t * (t * (t * 6.0 - 15.0) + 10.0)
  }

  /** The curve is point-symmetric about (1/2, 1/2). */
  lemma {:induction false} FadeSymmetric(t: real)
    ensures Fade(1.0 - t) == 1.0 - Fade(t)
  {
    var s := 1.0 - t;
    assert s * s == 1.0 - 2.0 * t + t * t;
    assert s * s * s == 1.0 - 3.0 * t + 3.0 * t * t - t * t * t;
  }

  lemma SquareNonnegative(a: real)
    ensures a * a >= 0.0
  {
    if a < 0.0 {
      assert a * a == (-a) * (-a);
    }
  }

  /** fade is nonnegative on the nonnegative reals: its quadratic factor has no real root. */
  lemma {:induction false} FadeNonnegative(t: real)
    requires 0.0 <= t
    ensures Fade(t) >= 0.0
  {
    var q := t * (t * 6.0 - 15.0) + 10.0;
    SquareNonnegative(t - 1.25);
    assert q == 6.0 * ((t - 1.25) * (t - 1.25)) + 0.625;
    assert t * t * t >= 0.0;
    assert Fade(t) == (t * t * t) * q;
  }

  /** fade maps the unit interval into itself, so the interpolation weights stay convex. */
  lemma {:induction false} FadeRange(t: real)
    requires 0.0 <= t <= 1.0
    ensures 0.0 <= Fade(t) <= 1.0
  {
    FadeNonnegative(t);
    FadeNonnegative(1.0 - t);
    FadeSymmetric(t);
  }

  // ---- noise and the domain warp ----

  /** noise(p) = 0.5 cnoise(vec4(p, 0)) + 0.5: the kernel value remapped from [-1,1] towards [0,1]. */
  function Noise(cnoise: Vec4 -> real, p: Vec3): real
  {
    0.5 * cnoise(Vec4(p.x, p.y, p.z, 0.0)) + 0.5
  }

  /** A kernel value in [-1, 1] is remapped into [0, 1]. */
  lemma NoiseRange(cnoise: Vec4 -> real, p: Vec3)
    requires -1.0 <= cnoise(Vec4(p.x, p.y, p.z, 0.0)) <= 1.0
    ensures 0.0 <= Noise(cnoise, p) <= 1.0
  {
  }

  /** The number of warp steps of `nebula`. */
  const Steps: nat := 6

  /** The scale in force at step k: 2^6 halved k times. */
  function ScaleAt(k: nat): real
  {
    if k == 0 then Gl.Pow2(Steps) as real else ScaleAt(k - 1) * 0.5
  }

  /** The scale is 2^(6-k) at step k, starting at 64 and reaching 1 for the final sample. */
  lemma {:induction false} ScaleSchedule(k: nat)
    requires k <= Steps
    ensures ScaleAt(k) == Gl.Pow2(Steps - k) as real
    ensures ScaleAt(0) == 64.0 && ScaleAt(Steps) == 1.0
  {
    if k > 0 {
      ScaleSchedule(k - 1);
      assert Gl.Pow2(Steps - (k - 1)) == 2 * Gl.Pow2(Steps - k);
    }
    assert ScaleAt(0) == 64.0;
    assert ScaleAt(1) == 32.0 && ScaleAt(2) == 16.0 && ScaleAt(3) == 8.0;
    assert ScaleAt(4) == 4.0 && ScaleAt(5) == 2.0;
  }

  /** The three sample points of one warp step, in call order. */
  function StepPoints(p: Vec3, displace: Vec3, scale: real): seq<Vec3>
  {
    [Add(Mul(p, scale), displace), Add(Mul(Yzx(p), scale), displace), Add(Mul(Zxy(p), scale), displace)]
  }

  /** One warp step: the new displacement is the noise at the step's three sample points. */
  function Warp(cnoise: Vec4 -> real, p: Vec3, displace: Vec3, scale: real): Vec3
  {
    var pts := StepPoints(p, displace, scale);
    Vec3(Noise(cnoise, pts[0]), Noise(cnoise, pts[1]), Noise(cnoise, pts[2]))
  }

  /** The displacement after k warp steps that started from `init`. */
  function DisplaceAfter(cnoise: Vec4 -> real, p: Vec3, init: Vec3, k: nat): Vec3
  {
    if k == 0 then init else Warp(cnoise, p, DisplaceAfter(cnoise, p, init, k - 1), ScaleAt(k - 1))
  }

  /** The noise sample points of the first k warp steps, in call order. */
  function WarpPoints(cnoise: Vec4 -> real, p: Vec3, init: Vec3, k: nat): (pts: seq<Vec3>)
    ensures |pts| == 3 * k
  {
    if k == 0 then []
    else WarpPoints(cnoise, p, init, k - 1) + StepPoints(p, DisplaceAfter(cnoise, p, init, k - 1), ScaleAt(k - 1))
  }

  /** Every noise call of `nebula`: the 3 x 6 warp samples followed by the final sample. */
  function NebulaPoints(cnoise: Vec4 -> real, p: Vec3, init: Vec3): seq<Vec3>
  {
    var d := DisplaceAfter(cnoise, p, init, Steps);
    WarpPoints(cnoise, p, init, Steps) + [Add(Mul(p, ScaleAt(Steps)), d)]
  }

  /** The value of `nebula` when its displacement starts at `init`. */
  function NebulaFrom(cnoise: Vec4 -> real, p: Vec3, init: Vec3): real
  {
    Noise(cnoise, Add(Mul(p, ScaleAt(Steps)), DisplaceAfter(cnoise, p, init, Steps)))
  }

  /**
   * nebula(p) as written: `displace` is declared without an initialiser, so
   * its value before the first step is whatever the driver leaves there,
   * passed in as `init`.  The loop keeps the scale at 2^(6-i), feeds every
   * step's displacement into the next step's samples, and ends with one
   * sample at scale 1.  `samples` lists the arguments of the noise calls in
   * call order.
   */
  method Nebula(cnoise: Vec4 -> real, p: Vec3, init: Vec3) returns (value: real, samples: seq<Vec3>)
    ensures value == NebulaFrom(cnoise, p, init)
    ensures samples == NebulaPoints(cnoise, p, init)
    ensures |samples| == 3 * Steps + 1 && value == Noise(cnoise, samples[|samples| - 1])
  {
    var scale := Gl.Pow2(Steps) as real;
    var displace := init;
    samples := [];
    var i := 0;
    while i < Steps
      invariant 0 <= i <= Steps
      invariant scale == ScaleAt(i)
      invariant displace == DisplaceAfter(cnoise, p, init, i)
      invariant samples == WarpPoints(cnoise, p, init, i)
    {
      var a := Add(Mul(p, scale), displace);
      var b := Add(Mul(Yzx(p), scale), displace);
      var c := Add(Mul(Zxy(p), scale), displace);
      displace := Vec3(Noise(cnoise, a), Noise(cnoise, b), Noise(cnoise, c));
      samples := samples + [a, b, c];
      scale := scale * 0.5;
      i := i + 1;
    }
    var last := Add(Mul(p, scale), displace);
    samples := samples + [last];
    value := Noise(cnoise, last);
  }

  /**
   * Step k of the warp samples at the scaled point and its two swizzles,
   * displaced by the result of step k - 1.
   */
  lemma {:induction false} WarpPointsAt(cnoise: Vec4 -> real, p: Vec3, init: Vec3, n: nat, k: nat)
    requires k < n
    ensures WarpPoints(cnoise, p, init, n)[3 * k .. 3 * k + 3]
         == StepPoints(p, DisplaceAfter(cnoise, p, init, k), ScaleAt(k))
  {
    if k < n - 1 {
      WarpPointsAt(cnoise, p, init, n - 1, k);
      var prefix := WarpPoints(cnoise, p, init, n - 1);
      assert WarpPoints(cnoise, p, init, n)[..3 * (n - 1)] == prefix;
      assert WarpPoints(cnoise, p, init, n)[3 * k .. 3 * k + 3] == prefix[3 * k .. 3 * k + 3];
    }
  }

  /**
   * The noise schedule of `nebula`: 19 calls, step k's three samples at
   * scale 2^(6-k) displaced by step k - 1, and the last one at scale 1
   * displaced by the sixth step.
   */
  lemma NebulaSchedule(cnoise: Vec4 -> real, p: Vec3, init: Vec3, k: nat)
    requires k < Steps
    ensures |NebulaPoints(cnoise, p, init)| == 19
    ensures NebulaPoints(cnoise, p, init)[3 * k .. 3 * k + 3]
         == StepPoints(p, DisplaceAfter(cnoise, p, init, k), Gl.Pow2(Steps - k) as real)
    ensures NebulaPoints(cnoise, p, init)[18] == Add(p, DisplaceAfter(cnoise, p, init, Steps))
  {
    ScaleSchedule(k);
    ScaleSchedule(Steps);
    WarpPointsAt(cnoise, p, init, Steps, k);
    var w := WarpPoints(cnoise, p, init, Steps);
    assert NebulaPoints(cnoise, p, init)[..18] == w;
    assert Mul(p, 1.0) == p;
  }

  /** With a kernel bounded by 1 in magnitude, nebula lies in [0, 1]. */
  lemma NebulaRange(cnoise: Vec4 -> real, p: Vec3, init: Vec3)
    requires forall v :: -1.0 <= cnoise(v) <= 1.0
    ensures 0.0 <= NebulaFrom(cnoise, p, init) <= 1.0
  {
    var d := DisplaceAfter(cnoise, p, init, Steps);
    var q := Add(Mul(p, ScaleAt(Steps)), d);
    assert -1.0 <= cnoise(Vec4(q.x, q.y, q.z, 0.0)) <= 1.0;
    NoiseRange(cnoise, q);
  }

  /**
   * nebula(p) with `displace` initialised to zero, as the first step
   * evidently means: the value the rest of the shader uses.
   */
  function NebulaValue(cnoise: Vec4 -> real, p: Vec3): real
  {
    NebulaFrom(cnoise, p, Zero3)
  }

  /** Corrected nebula: the loop started from a zero displacement. */
  method NebulaZeroed(cnoise: Vec4 -> real, p: Vec3) returns (value: real, samples: seq<Vec3>)
    ensures value == NebulaValue(cnoise, p)
    ensures samples == NebulaPoints(cnoise, p, Zero3)
    ensures samples[..3] == [Mul(p, 64.0), Mul(Yzx(p), 64.0), Mul(Zxy(p), 64.0)]
  {
    value, samples := Nebula(cnoise, p, Zero3);
    NebulaSchedule(cnoise, p, Zero3, 0);
    assert Add(Mul(p, 64.0), Zero3) == Mul(p, 64.0);
  }

  /**
   * As written, the first three noise samples are shifted by the undefined
   * initial displacement: starting from (1, 0, 0) instead of zero moves them
   * off the scaled point, whatever the kernel.
   */
  lemma UndefinedDisplaceShiftsSamples(cnoise: Vec4 -> real, p: Vec3)
    ensures NebulaPoints(cnoise, p, Vec3(1.0, 0.0, 0.0))[0] != Mul(p, 64.0)
  {
    NebulaSchedule(cnoise, p, Vec3(1.0, 0.0, 0.0), 0);
  }

  /**
   * A stand-in kernel for the counterexample: the ramp 2 v.x - 1, clamped, so
   * that it never leaves [-1, 1], the range cnoise's factor 2.2 aims at.
   */
  function RampKernel(v: Vec4): (r: real)
    ensures -1.0 <= r <= 1.0
  {
    if v.x < 0.0 then -1.0 else if v.x > 1.0 then 1.0 else 2.0 * v.x - 1.0
  }

  /**
   * ... and the shift reaches the result: with a kernel bounded by 1 in
   * magnitude, a zero start gives 0 at the origin and the start (1, 0, 0)
   * gives 1.
   */
  lemma UndefinedDisplaceChangesValue()
    ensures forall v :: -1.0 <= RampKernel(v) <= 1.0
    ensures NebulaFrom(RampKernel, Zero3, Zero3) == 0.0
    ensures NebulaFrom(RampKernel, Zero3, Vec3(1.0, 0.0, 0.0)) == 1.0
  {
    NebulaAtOrigin(Zero3);
    NebulaAtOrigin(Vec3(1.0, 0.0, 0.0));
  }

  /** At the origin every sample of a step is the displacement itself. */
  lemma WarpAtOrigin(d: Vec3, scale: real)
    requires 0.0 <= d.x <= 1.0
    ensures Warp(RampKernel, Zero3, d, scale) == Vec3(d.x, d.x, d.x)
  {
    assert Mul(Zero3, scale) == Zero3;
    assert StepPoints(Zero3, d, scale) == [d, d, d];
    assert Noise(RampKernel, d) == d.x;
  }

  /** At the origin the warp keeps copying the first coordinate of the start into every axis. */
  lemma {:induction false} DisplaceAtOrigin(init: Vec3, k: nat)
    requires k > 0 && 0.0 <= init.x <= 1.0
    ensures DisplaceAfter(RampKernel, Zero3, init, k) == Vec3(init.x, init.x, init.x)
  {
    var d := DisplaceAfter(RampKernel, Zero3, init, k - 1);
    if k > 1 {
      DisplaceAtOrigin(init, k - 1);
    }
    WarpAtOrigin(d, ScaleAt(k - 1));
  }

  /** At the origin, nebula under the stand-in kernel returns the first coordinate of the start. */
  lemma NebulaAtOrigin(init: Vec3)
    requires 0.0 <= init.x <= 1.0
    ensures NebulaFrom(RampKernel, Zero3, init) == init.x
  {
    var d := DisplaceAfter(RampKernel, Zero3, init, Steps);
    DisplaceAtOrigin(init, Steps);
    assert Add(Mul(Zero3, ScaleAt(Steps)), d) == d;
    assert Noise(RampKernel, d) == d.x;
  }

  // ---- main ----

  /** The alpha base of `main`: min(1, nebula * intensity), never above 1. */
  function AlphaBase(n: real, intensity: real): (c: real)
    ensures c <= 1.0
    ensures c == 1.0 || c == n * intensity
    ensures n * intensity <= 1.0 ==> c == n * intensity
  {
    if n * intensity < 1.0 then n * intensity else 1.0
  }

  /** For a nebula value in [0, 1] and a nonnegative intensity, the alpha base lies in [0, 1]. */
  lemma AlphaBaseRange(n: real, intensity: real)
    requires 0.0 <= n <= 1.0 && 0.0 <= intensity
    ensures 0.0 <= AlphaBase(n, intensity) <= 1.0
  {
    if n > 0.0 && intensity > 0.0 {
      assert n * intensity > 0.0;
    }
  }
}
