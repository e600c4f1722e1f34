/**
 * The schedule of Skybox::generate as pure functions of the random draws:
 * the face tables, the star populations and their vertex data, the nebula
 * pass parameters, the stopping rule of the pass loop, and the sequence of
 * GL events the generator produces.
 */
module SkyboxSchedule {
  import opened Wrappers
  import opened Vectors
  import opened Gl
  import opened Random

  // ---- face tables ----

  /** CUBEMAP_ENUMS: the face targets in draw order. */
  const CubemapEnums: seq<nat> := [
    TEXTURE_CUBE_MAP_POSITIVE_X, TEXTURE_CUBE_MAP_NEGATIVE_X,
    TEXTURE_CUBE_MAP_POSITIVE_Y, TEXTURE_CUBE_MAP_NEGATIVE_Y,
    TEXTURE_CUBE_MAP_POSITIVE_Z, TEXTURE_CUBE_MAP_NEGATIVE_Z]

  /** CAPTURE_VIEWS: one view per face, as opaque table entries. */
  const CaptureViews: seq<Matrix> := seq(CubeFaces, i requires 0 <= i => CaptureView(i))

  /**
   * Entry i of the face table is GL_TEXTURE_CUBE_MAP_POSITIVE_X + i, so the
   * star pass (which indexes the table) and the nebula pass (which adds the
   * offset) attach the same face for view i.
   */
  lemma CubemapEnumsAreOffsets(i: nat)
    requires i < CubeFaces
    ensures |CubemapEnums| == CubeFaces && |CaptureViews| == CubeFaces
    ensures CubemapEnums[i] == TEXTURE_CUBE_MAP_POSITIVE_X + i
    ensures IsCubeFace(CubemapEnums[i]) && FaceOf(CubemapEnums[i]) == i
    ensures CaptureViews[i] == CaptureView(i)
  {
  }

  /** The colour every face is cleared to. */
  const Black: Vec4 := Vec4(0.0, 0.0, 0.0, 1.0)

  // ---- stars ----

  /** One entry of the star parameter table. */
  datatype Population = Population(count: nat, particleSize: real)

  /** The star parameter table: many tiny stars, then a few bigger ones. */
  const Populations: seq<Population> := [Population(20000, 0.05), Population(100, 0.2)]

  /** Random draws per star: three for the position, three for the colour, one for the brightness. */
  const DrawsPerStar: nat := 7

  /** StarVertex: position, brightness and colour, in memory order. */
  datatype StarVertex = StarVertex(position: Vec3, brightness: real, color: Vec4)

  /** Floats of one StarVertex and its size in bytes (vec3 + float + vec4). */
  const StarFloats: nat := 8
  const StarBytes: nat := StarFloats * FloatBytes

  /**
   * The star built from the seven draws at `at`: the position from three
   * draws in [-1,1), then the colour from three draws in [0.9,1) with alpha 1,
   * then the brightness from one draw in [0.7,1).
   */
  function StarAt(draws: seq<real>, at: nat): StarVertex
    requires at + DrawsPerStar <= |draws|
  {
    StarVertex(
      Vec3(Uniform(-1.0, 1.0, draws[at]), Uniform(-1.0, 1.0, draws[at + 1]), Uniform(-1.0, 1.0, draws[at + 2])),
      Uniform(0.7, 1.0, draws[at + 6]),
      Vec4(Uniform(0.9, 1.0, draws[at + 3]), Uniform(0.9, 1.0, draws[at + 4]), Uniform(0.9, 1.0, draws[at + 5]), 1.0))
  }

  /** A star drawn from canonical draws has every component in its distribution's range. */
  lemma StarRanges(draws: seq<real>, at: nat)
    requires at + DrawsPerStar <= |draws| && UnitDraws(draws, at, at + DrawsPerStar)
    ensures var s := StarAt(draws, at);
      && -1.0 <= s.position.x < 1.0 && -1.0 <= s.position.y < 1.0 && -1.0 <= s.position.z < 1.0
      && 0.7 <= s.brightness < 1.0
      && 0.9 <= s.color.x < 1.0 && 0.9 <= s.color.y < 1.0 && 0.9 <= s.color.z < 1.0 && s.color.w == 1.0
  {
    assert 0.0 <= draws[at + 6] < 1.0;
  }

  /** The memory image of one star: pos.x, pos.y, pos.z, brightness, r, g, b, a. */
  function VertexFloats(s: StarVertex): (f: seq<real>)
    ensures |f| == StarFloats
  {
    [s.position.x, s.position.y, s.position.z, s.brightness, s.color.x, s.color.y, s.color.z, s.color.w]
  }

  /** The `n` stars whose draws start at `at`, seven draws each, in stream order. */
  function StarsOf(draws: seq<real>, at: nat, n: nat): (stars: seq<StarVertex>)
    requires at + DrawsPerStar * n <= |draws|
    ensures |stars| == n
  {
    seq(n, i requires 0 <= i < n => StarAt(draws, at + DrawsPerStar * i))
  }

  /** The memory image of a star array: the stars' floats one after the other. */
  function Flatten(stars: seq<StarVertex>): (f: seq<real>)
    ensures |f| == StarFloats * |stars|
  {
    if stars == [] then [] else Flatten(stars[..|stars| - 1]) + VertexFloats(stars[|stars| - 1])
  }

  /** Star i of a star array occupies floats [8i, 8i + 8) of its memory image. */
  lemma {:induction false} FlattenAt(stars: seq<StarVertex>, i: nat)
    requires i < |stars|
    ensures Flatten(stars)[StarFloats * i .. StarFloats * i + StarFloats] == VertexFloats(stars[i])
  {
    var n := |stars|;
    var prefix := Flatten(stars[..n - 1]);
    assert Flatten(stars)[..StarFloats * (n - 1)] == prefix;
    if i < n - 1 {
      FlattenAt(stars[..n - 1], i);
      assert Flatten(stars)[StarFloats * i .. StarFloats * i + StarFloats]
          == prefix[StarFloats * i .. StarFloats * i + StarFloats];
    }
  }

  /** The vertex buffer of `n` stars whose draws start at `at`. */
  function StarBuffer(draws: seq<real>, at: nat, n: nat): (f: seq<real>)
    requires at + DrawsPerStar * n <= |draws|
    ensures |f| == StarFloats * n
  {
    Flatten(StarsOf(draws, at, n))
  }

  /** Star i of the buffer occupies floats [8i, 8i + 8) and comes from draws [at + 7i, at + 7i + 7). */
  lemma StarBufferAt(draws: seq<real>, at: nat, n: nat, i: nat)
    requires at + DrawsPerStar * n <= |draws| && i < n
    ensures StarBuffer(draws, at, n)[StarFloats * i .. StarFloats * i + StarFloats]
         == VertexFloats(StarAt(draws, at + DrawsPerStar * i))
  {
    FlattenAt(StarsOf(draws, at, n), i);
  }

  /** The attribute layout of the star buffer: stride 32 bytes, offsets 0, 12 and 16 bytes. */
  const PositionAttrib: Attrib := Attrib(0, 3, StarBytes, 0)
  const BrightnessAttrib: Attrib := Attrib(0, 1, StarBytes, 3 * FloatBytes)
  const ColorAttrib: Attrib := Attrib(0, 4, StarBytes, 3 * FloatBytes + FloatBytes)

  /** The float that component c of attribute `a` reads for vertex i. */
  function AttribFloat(buffer: seq<real>, a: Attrib, i: nat, c: nat): real
    requires (a.stride * i + a.offset) / FloatBytes + c < |buffer|
  {
    buffer[(a.stride * i + a.offset) / FloatBytes + c]
  }

  /** Float c of star i in the buffer is component c of its memory image. */
  lemma StarBufferFloat(draws: seq<real>, at: nat, n: nat, i: nat, c: nat)
    requires at + DrawsPerStar * n <= |draws| && i < n && c < StarFloats
    ensures StarBuffer(draws, at, n)[StarFloats * i + c] == VertexFloats(StarAt(draws, at + DrawsPerStar * i))[c]
  {
    StarBufferAt(draws, at, n, i);
    var b := StarBuffer(draws, at, n);
    assert b[StarFloats * i + c] == b[StarFloats * i .. StarFloats * i + StarFloats][c];
  }

  /**
   * Reading the star buffer through the three attribute pointers gives back
   * each star's position, brightness and colour: the pointer offsets agree
   * with the StarVertex layout.
   */
  lemma StarAttribLayout(draws: seq<real>, at: nat, n: nat, i: nat)
    requires at + DrawsPerStar * n <= |draws| && i < n
    ensures var b, s := StarBuffer(draws, at, n), StarAt(draws, at + DrawsPerStar * i);
      && Vec3(AttribFloat(b, PositionAttrib, i, 0), AttribFloat(b, PositionAttrib, i, 1),
              AttribFloat(b, PositionAttrib, i, 2)) == s.position
      && AttribFloat(b, BrightnessAttrib, i, 0) == s.brightness
      && Vec4(AttribFloat(b, ColorAttrib, i, 0), AttribFloat(b, ColorAttrib, i, 1),
              AttribFloat(b, ColorAttrib, i, 2), AttribFloat(b, ColorAttrib, i, 3)) == s.color
  {
    assert (StarBytes * i + 0) / FloatBytes == StarFloats * i;
    assert (StarBytes * i + 3 * FloatBytes) / FloatBytes == StarFloats * i + 3;
    assert (StarBytes * i + 3 * FloatBytes + FloatBytes) / FloatBytes == StarFloats * i + 4;
    StarBufferFloat(draws, at, n, i, 0);
    StarBufferFloat(draws, at, n, i, 1);
    StarBufferFloat(draws, at, n, i, 2);
    StarBufferFloat(draws, at, n, i, 3);
    StarBufferFloat(draws, at, n, i, 4);
    StarBufferFloat(draws, at, n, i, 5);
    StarBufferFloat(draws, at, n, i, 6);
    StarBufferFloat(draws, at, n, i, 7);
  }

  /** Stream index where population k starts: after all stars of the earlier populations. */
  function PopulationStart(k: nat): nat
    requires k <= |Populations|
  {
    if k == 0 then 0 else PopulationStart(k - 1) + DrawsPerStar * Populations[k - 1].count
  }

  /** The stream index at which the nebula loop starts. */
  const NebulaStart: nat := 140700

  /** The star phase consumes 7 x (20000 + 100) = 140700 draws. */
  lemma StarPhaseDraws()
    ensures NebulaStart == PopulationStart(|Populations|) == DrawsPerStar * (20000 + 100)
    ensures PopulationStart(1) == 140000
  {
    assert PopulationStart(1) == DrawsPerStar * Populations[0].count;
    assert PopulationStart(2) == PopulationStart(1) + DrawsPerStar * Populations[1].count;
  }

  /** Population k reads its 7 x count draws from PopulationStart(k) on, all before the nebula draws. */
  lemma PopulationFits(k: nat)
    requires k < |Populations|
    ensures PopulationStart(k) + DrawsPerStar * Populations[k].count == PopulationStart(k + 1) <= NebulaStart
  {
    StarPhaseDraws();
  }

  // ---- nebula passes ----

  /** Random draws per nebula pass: nine parameters and the termination draw. */
  const DrawsPerPass: nat := 10

  /** Vertices of the skybox cube: 6 sides, 2 triangles each. */
  const NebulaVertexCount: nat := 36

  datatype PassParams = PassParams(scale: real, intensity: real, color: Vec4, falloff: real, offset: Vec3)

  /** The nine parameter draws of a pass, mapped affinely in call order. */
  function PassParamsAt(draws: seq<real>, at: nat): PassParams
    requires at + DrawsPerPass - 1 <= |draws|
  {
    PassParams(
      draws[at] * 0.5 + 0.25,
      draws[at + 1] * 0.2 + 0.9,
      Vec4(draws[at + 2], draws[at + 3], draws[at + 4], 1.0),
      draws[at + 5] * 3.0 + 3.0,
      Vec3(draws[at + 6] * 2000.0 - 1000.0, draws[at + 7] * 2000.0 - 1000.0, draws[at + 8] * 2000.0 - 1000.0))
  }

  /** On canonical draws every nebula parameter lands in its half-open range. */
  lemma PassParamRanges(draws: seq<real>, at: nat)
    requires at + DrawsPerPass - 1 <= |draws| && UnitDraws(draws, at, at + DrawsPerPass - 1)
    ensures var q := PassParamsAt(draws, at);
      && 0.25 <= q.scale < 0.75
      && 0.9 <= q.intensity < 1.1
      && 3.0 <= q.falloff < 6.0
      && 0.0 <= q.color.x < 1.0 && 0.0 <= q.color.y < 1.0 && 0.0 <= q.color.z < 1.0 && q.color.w == 1.0
      && -1000.0 <= q.offset.x < 1000.0 && -1000.0 <= q.offset.y < 1000.0 && -1000.0 <= q.offset.z < 1000.0
  {
    assert 0.0 <= draws[at] < 1.0 && 0.0 <= draws[at + 1] < 1.0 && 0.0 <= draws[at + 5] < 1.0;
    assert 0.0 <= draws[at + 6] < 1.0 && 0.0 <= draws[at + 7] < 1.0 && 0.0 <= draws[at + 8] < 1.0;
  }

  /** Stream index of the first draw of pass p. */
  function PassStart(p: nat): nat
  {
    NebulaStart + DrawsPerPass * p
  }

  /** The termination draw of pass p. */
  function StopDraw(draws: seq<real>, p: nat): real
    requires PassStart(p) + DrawsPerPass <= |draws|
  {
    draws[PassStart(p) + DrawsPerPass - 1]
  }

  /**
   * The number of passes the loop runs when it has reached pass p: it stops
   * after the first pass whose termination draw is below 0.5.  None when the
   * stream ends first.
   */
  function PassCount(draws: seq<real>, p: nat): (r: Option<nat>)
    ensures r.Some? ==> r.value > p && PassStart(r.value) <= |draws|
    decreases |draws| - PassStart(p)
  {
    if PassStart(p) + DrawsPerPass > |draws| then None
    else if StopDraw(draws, p) < 0.5 then Some(p + 1)
    else PassCount(draws, p + 1)
  }

  /**
   * The loop runs exactly n passes iff the last of them is the first whose
   * termination draw is below 0.5; in particular it always draws at least one.
   */
  lemma {:induction false} PassCountExact(draws: seq<real>, p: nat, n: nat)
    ensures PassCount(draws, p) == Some(n) <==>
      && p < n && PassStart(n) <= |draws|
      && StopDraw(draws, n - 1) < 0.5
      && forall q :: p <= q < n - 1 ==> StopDraw(draws, q) >= 0.5
    decreases |draws| - PassStart(p)
  {
    if PassStart(p) + DrawsPerPass > |draws| {
    } else if StopDraw(draws, p) < 0.5 {
    } else {
      PassCountExact(draws, p + 1, n);
      if p < n && PassStart(n) <= |draws| && StopDraw(draws, n - 1) < 0.5
         && (forall q :: p <= q < n - 1 ==> StopDraw(draws, q) >= 0.5) {
        assert p + 1 < n;
      }
    }
  }

  // ---- events ----

  /** The six clears, face 0 to face 5. */
  function Clears(tex: nat): (e: seq<Event>)
    ensures |e| == CubeFaces
  {
    seq(CubeFaces, i requires 0 <= i => Clear(CubeFace(tex, i), Black))
  }

  /** The additive blending set up before the stars. */
  const BlendEvents: seq<Event> := [Event.BlendFunc(SRC_ALPHA, ONE), BlendEquation(FUNC_ADD, FUNC_ADD)]

  /** One population drawn on every face, as points, with the capture view of that face. */
  function StarDraws(tex: nat, pop: Population, buffer: seq<real>): (e: seq<Event>)
    ensures |e| == CubeFaces
  {
    seq(CubeFaces, i requires 0 <= i => StarDraw(tex, pop, buffer, i))
  }

  /** The draw of a population on face i. */
  function StarDraw(tex: nat, pop: Population, buffer: seq<real>, i: nat): Event
  {
    Draw(CubeFace(tex, i), POINTS, pop.count, Stars(StarUniforms(CaptureProjection, CaptureView(i), pop.particleSize)), buffer)
  }

  /** Population k's draws: its buffer is built from the draws starting at PopulationStart(k). */
  function PopulationDraws(tex: nat, draws: seq<real>, k: nat): (e: seq<Event>)
    requires k < |Populations| && NebulaStart <= |draws|
    ensures |e| == CubeFaces
  {
    StarPhaseDraws();
    StarDraws(tex, Populations[k], StarBuffer(draws, PopulationStart(k), Populations[k].count))
  }

  /** The draws of the first k populations. */
  function StarPhase(tex: nat, draws: seq<real>, k: nat): (e: seq<Event>)
    requires k <= |Populations| && NebulaStart <= |draws|
    ensures |e| == CubeFaces * k
  {
    if k == 0 then [] else StarPhase(tex, draws, k - 1) + PopulationDraws(tex, draws, k - 1)
  }

  /** One nebula pass drawn on every face, as triangles over the skybox cube. */
  function PassDraws(tex: nat, mesh: seq<real>, q: PassParams): (e: seq<Event>)
    ensures |e| == CubeFaces
  {
    seq(CubeFaces, i requires 0 <= i => PassDraw(tex, mesh, q, i))
  }

  /** The draw of a nebula pass on face i. */
  function PassDraw(tex: nat, mesh: seq<real>, q: PassParams, i: nat): Event
  {
    Draw(CubeFace(tex, i), TRIANGLES, NebulaVertexCount,
         Nebula(NebulaUniforms(CaptureProjection, CaptureView(i), q.scale, q.intensity, q.color, q.falloff, q.offset)),
         mesh)
  }

  /** The draws of the first n nebula passes. */
  function NebulaDraws(tex: nat, mesh: seq<real>, draws: seq<real>, n: nat): (e: seq<Event>)
    requires PassStart(n) <= |draws|
    ensures |e| == CubeFaces * n
  {
    if n == 0 then [] else NebulaDraws(tex, mesh, draws, n - 1) + PassDraws(tex, mesh, PassParamsAt(draws, PassStart(n - 1)))
  }

  /**
   * The events of generate(seed, width) into the texture `tex`.  With a
   * positive width: six clears, the blend set-up, both star populations, the
   * nebula passes, and the mipmap generation.  Otherwise the faces have no
   * storage, every clear, draw and mipmap request is refused, and only the
   * blend set-up takes effect.
   */
  function GenerateTrace(tex: nat, mesh: seq<real>, draws: seq<real>, width: int): seq<Event>
    requires PassCount(draws, 0).Some?
  {
    if width > 0 then
      Clears(tex) + BlendEvents + StarPhase(tex, draws, |Populations|)
      + NebulaDraws(tex, mesh, draws, PassCount(draws, 0).value)
      + [GenerateMipmap(tex)]
    else BlendEvents
  }

  // ---- properties of the event sequence ----

  /** The view a draw was rendered with. */
  function ViewOf(l: Layer): Matrix
  {
    match l
    case Stars(u) => u.view
    case Nebula(u) => u.view
  }

  /** A draw lands on a face of `tex` and uses the capture view of that same face. */
  predicate FaceMatched(tex: nat, e: Event)
  {
    e.Draw? ==> e.target.CubeFace? && e.target.texture == tex && e.target.face < CubeFaces
                && ViewOf(e.layer) == CaptureView(e.target.face)
  }

  /** Event 6p + i of the nebula draws is the draw of pass p on face i. */
  lemma {:induction false} NebulaDrawsAt(tex: nat, mesh: seq<real>, draws: seq<real>, n: nat, p: nat, i: nat)
    requires PassStart(n) <= |draws| && p < n && i < CubeFaces
    ensures NebulaDraws(tex, mesh, draws, n)[CubeFaces * p + i] == PassDraws(tex, mesh, PassParamsAt(draws, PassStart(p)))[i]
  {
    if p < n - 1 {
      NebulaDrawsAt(tex, mesh, draws, n - 1, p, i);
      assert NebulaDraws(tex, mesh, draws, n)[CubeFaces * p + i] == NebulaDraws(tex, mesh, draws, n - 1)[CubeFaces * p + i];
    }
  }

  /** Every nebula event is a draw. */
  lemma NebulaDrawIsDraw(tex: nat, mesh: seq<real>, draws: seq<real>, n: nat, j: nat)
    requires PassStart(n) <= |draws| && j < CubeFaces * n
    ensures NebulaDraws(tex, mesh, draws, n)[j].Draw?
  {
    NebulaDrawsAt(tex, mesh, draws, n, j / CubeFaces, j % CubeFaces);
  }

  /** A successful generate's events as their six segments. */
  lemma GenerateTraceSegments(tex: nat, mesh: seq<real>, draws: seq<real>, width: int, n: nat)
    requires PassCount(draws, 0) == Some(n) && width > 0
    ensures GenerateTrace(tex, mesh, draws, width)
      == Clears(tex) + BlendEvents + PopulationDraws(tex, draws, 0) + PopulationDraws(tex, draws, 1)
         + NebulaDraws(tex, mesh, draws, n) + [GenerateMipmap(tex)]
  {
    assert StarPhase(tex, draws, |Populations|) == PopulationDraws(tex, draws, 0) + PopulationDraws(tex, draws, 1);
  }

  /**
   * Event j of a successful generate, segment by segment: 6 clears, 2 blend
   * settings, 6 + 6 star draws, 6 draws per nebula pass, one mipmap request.
   */
  lemma GenerateTraceAt(tex: nat, mesh: seq<real>, draws: seq<real>, width: int, n: nat, j: nat)
    requires PassCount(draws, 0) == Some(n) && width > 0
    ensures var t := GenerateTrace(tex, mesh, draws, width);
      && |t| == 21 + CubeFaces * n
      && (j < 6 ==> t[j] == Clears(tex)[j])
      && (6 <= j < 8 ==> t[j] == BlendEvents[j - 6])
      && (8 <= j < 14 ==> t[j] == PopulationDraws(tex, draws, 0)[j - 8])
      && (14 <= j < 20 ==> t[j] == PopulationDraws(tex, draws, 1)[j - 14])
      && (20 <= j < 20 + CubeFaces * n ==> t[j] == NebulaDraws(tex, mesh, draws, n)[j - 20])
      && (j == 20 + CubeFaces * n ==> t[j] == GenerateMipmap(tex))
  {
    GenerateTraceSegments(tex, mesh, draws, width, n);
    var a := Clears(tex) + BlendEvents;
    var b := a + PopulationDraws(tex, draws, 0);
    var c := b + PopulationDraws(tex, draws, 1);
    var d := c + NebulaDraws(tex, mesh, draws, n);
    var t := d + [GenerateMipmap(tex)];
    assert GenerateTrace(tex, mesh, draws, width) == t;
    if j < 20 + CubeFaces * n {
      assert t[j] == d[j];
      if j < 20 {
        assert d[j] == c[j];
        if j < 14 {
          assert c[j] == b[j];
          if j < 8 {
            assert b[j] == a[j];
          }
        }
      }
    }
  }

  /**
   * The six faces are cleared first, in order, and nothing else clears: every
   * face is black before any star or nebula lands on it.
   */
  lemma ClearsFirst(tex: nat, mesh: seq<real>, draws: seq<real>, width: int, n: nat, j: nat)
    requires PassCount(draws, 0) == Some(n) && width > 0 && j < |GenerateTrace(tex, mesh, draws, width)|
    ensures j < CubeFaces ==> GenerateTrace(tex, mesh, draws, width)[j] == Clear(CubeFace(tex, j), Black)
    ensures GenerateTrace(tex, mesh, draws, width)[j].Clear? <==> j < CubeFaces
  {
    GenerateTraceAt(tex, mesh, draws, width, n, j);
    if 20 <= j < 20 + CubeFaces * n {
      NebulaDrawIsDraw(tex, mesh, draws, n, j - 20);
    }
  }

  /** The additive blend is set once, right after the clears, and never changed again. */
  lemma BlendSetOnce(tex: nat, mesh: seq<real>, draws: seq<real>, width: int, n: nat, j: nat)
    requires PassCount(draws, 0) == Some(n) && width > 0 && j < |GenerateTrace(tex, mesh, draws, width)|
    ensures GenerateTrace(tex, mesh, draws, width)[j].BlendFunc? <==> j == 6
    ensures GenerateTrace(tex, mesh, draws, width)[j].BlendEquation? <==> j == 7
    ensures GenerateTrace(tex, mesh, draws, width)[6] == Event.BlendFunc(SRC_ALPHA, ONE)
    ensures GenerateTrace(tex, mesh, draws, width)[7] == BlendEquation(FUNC_ADD, FUNC_ADD)
  {
    GenerateTraceAt(tex, mesh, draws, width, n, 6);
    GenerateTraceAt(tex, mesh, draws, width, n, 7);
    GenerateTraceAt(tex, mesh, draws, width, n, j);
    if 20 <= j < 20 + CubeFaces * n {
      NebulaDrawIsDraw(tex, mesh, draws, n, j - 20);
    }
  }

  /** Mipmaps are generated once, as the very last event, after every draw. */
  lemma MipmapsLast(tex: nat, mesh: seq<real>, draws: seq<real>, width: int, n: nat, j: nat)
    requires PassCount(draws, 0) == Some(n) && width > 0 && j < |GenerateTrace(tex, mesh, draws, width)|
    ensures GenerateTrace(tex, mesh, draws, width)[j].GenerateMipmap? <==> j == |GenerateTrace(tex, mesh, draws, width)| - 1
    ensures GenerateTrace(tex, mesh, draws, width)[|GenerateTrace(tex, mesh, draws, width)| - 1] == GenerateMipmap(tex)
  {
    GenerateTraceAt(tex, mesh, draws, width, n, j);
    GenerateTraceAt(tex, mesh, draws, width, n, 20 + CubeFaces * n);
    if 20 <= j < 20 + CubeFaces * n {
      NebulaDrawIsDraw(tex, mesh, draws, n, j - 20);
    }
  }

  /**
   * The star draws: population k (20000 stars, then 100) on face i, as
   * points, with as many vertices as stars and the population's particle size.
   */
  lemma StarDrawSchedule(tex: nat, mesh: seq<real>, draws: seq<real>, width: int, n: nat, k: nat, i: nat)
    requires PassCount(draws, 0) == Some(n) && width > 0 && k < |Populations| && i < CubeFaces
    ensures var pop := Populations[k];
      GenerateTrace(tex, mesh, draws, width)[8 + CubeFaces * k + i]
      == Draw(CubeFace(tex, i), POINTS, pop.count,
              Stars(StarUniforms(CaptureProjection, CaptureView(i), pop.particleSize)),
              StarBuffer(draws, PopulationStart(k), pop.count))
    ensures Populations[0].count == 20000 && Populations[1].count == 100
  {
    GenerateTraceAt(tex, mesh, draws, width, n, 8 + CubeFaces * k + i);
    PopulationFits(k);
    StarPhaseDraws();
    assert PopulationDraws(tex, draws, k)[i]
        == StarDraw(tex, Populations[k], StarBuffer(draws, PopulationStart(k), Populations[k].count), i);
  }

  /**
   * The nebula draws: pass p on face i draws the 36 cube vertices as
   * triangles with the capture view of face i and the parameters read from
   * draws [140700 + 10p, 140700 + 10p + 9).
   */
  lemma NebulaDrawSchedule(tex: nat, mesh: seq<real>, draws: seq<real>, width: int, n: nat, p: nat, i: nat)
    requires PassCount(draws, 0) == Some(n) && width > 0 && p < n && i < CubeFaces
    ensures var q := PassParamsAt(draws, PassStart(p));
      GenerateTrace(tex, mesh, draws, width)[20 + CubeFaces * p + i]
      == Draw(CubeFace(tex, i), TRIANGLES, NebulaVertexCount,
              Nebula(NebulaUniforms(CaptureProjection, CaptureView(i), q.scale, q.intensity, q.color, q.falloff, q.offset)),
              mesh)
  {
    GenerateTraceAt(tex, mesh, draws, width, n, 20 + CubeFaces * p + i);
    NebulaDrawsAt(tex, mesh, draws, n, p, i);
  }

  /** Every draw of `events` lands on a face of `tex` with that face's capture view. */
  ghost predicate AllMatched(tex: nat, events: seq<Event>)
  {
    forall j :: 0 <= j < |events| ==> FaceMatched(tex, events[j])
  }

  /** Every nebula draw matches its face. */
  lemma {:induction false} NebulaDrawsMatched(tex: nat, mesh: seq<real>, draws: seq<real>, n: nat)
    requires PassStart(n) <= |draws|
    ensures AllMatched(tex, NebulaDraws(tex, mesh, draws, n))
  {
    if n > 0 {
      NebulaDrawsMatched(tex, mesh, draws, n - 1);
      var q := PassParamsAt(draws, PassStart(n - 1));
      assert AllMatched(tex, PassDraws(tex, mesh, q)) by {
        forall i | 0 <= i < CubeFaces
          ensures FaceMatched(tex, PassDraws(tex, mesh, q)[i])
        {
          assert PassDraws(tex, mesh, q)[i] == PassDraw(tex, mesh, q, i);
        }
      }
    }
  }

  /**
   * Every draw of generate lands on a face of the result texture and is
   * rendered with the capture view of that same face, whether it comes from
   * the face table (stars) or from the +X offset (nebulas).
   */
  lemma DrawsMatchFaces(tex: nat, mesh: seq<real>, draws: seq<real>, width: int)
    requires PassCount(draws, 0).Some?
    ensures AllMatched(tex, GenerateTrace(tex, mesh, draws, width))
  {
    if width > 0 {
      var n := PassCount(draws, 0).value;
      var c := Clears(tex) + BlendEvents + StarPhase(tex, draws, |Populations|);
      StarSegmentsMatched(tex, draws);
      NebulaDrawsMatched(tex, mesh, draws, n);
      MatchedConcat(tex, c, NebulaDraws(tex, mesh, draws, n));
      MatchedConcat(tex, c + NebulaDraws(tex, mesh, draws, n), [GenerateMipmap(tex)]);
    }
  }

  /** The clears, the blend set-up and both star populations match their faces. */
  lemma StarSegmentsMatched(tex: nat, draws: seq<real>)
    requires NebulaStart <= |draws|
    ensures AllMatched(tex, Clears(tex) + BlendEvents + StarPhase(tex, draws, |Populations|))
  {
    var a := Clears(tex) + BlendEvents;
    assert AllMatched(tex, a);
    PopulationDrawsMatched(tex, draws, 0);
    MatchedConcat(tex, a, PopulationDraws(tex, draws, 0));
    PopulationDrawsMatched(tex, draws, 1);
    MatchedConcat(tex, a + PopulationDraws(tex, draws, 0), PopulationDraws(tex, draws, 1));
    assert StarPhase(tex, draws, |Populations|) == PopulationDraws(tex, draws, 0) + PopulationDraws(tex, draws, 1);
    assert a + StarPhase(tex, draws, |Populations|) == a + PopulationDraws(tex, draws, 0) + PopulationDraws(tex, draws, 1);
  }

  /** Matching is preserved by concatenation. */
  lemma MatchedConcat(tex: nat, a: seq<Event>, b: seq<Event>)
    requires AllMatched(tex, a) && AllMatched(tex, b)
    ensures AllMatched(tex, a + b)
  {
    forall j | 0 <= j < |a + b|
      ensures FaceMatched(tex, (a + b)[j])
    {
      if j >= |a| {
        assert (a + b)[j] == b[j - |a|];
      }
    }
  }

  /** Each population's six draws match their faces. */
  lemma PopulationDrawsMatched(tex: nat, draws: seq<real>, k: nat)
    requires k < |Populations| && NebulaStart <= |draws|
    ensures AllMatched(tex, PopulationDraws(tex, draws, k))
  {
    StarPhaseDraws();
    var pop := Populations[k];
    forall i | 0 <= i < CubeFaces
      ensures FaceMatched(tex, PopulationDraws(tex, draws, k)[i])
    {
      assert PopulationDraws(tex, draws, k)[i] == StarDraw(tex, pop, StarBuffer(draws, PopulationStart(k), pop.count), i);
    }
  }

  /** SKYBOX_VERTICES: the 36 corners of the skybox cube's 12 triangles, three floats each. */
  const SkyboxVertices: seq<real> := [
    -1.0, 1.0, -1.0, -1.0, -1.0, -1.0, 1.0, -1.0, -1.0,
    1.0, -1.0, -1.0, 1.0, 1.0, -1.0, -1.0, 1.0, -1.0,
    -1.0, -1.0, 1.0, -1.0, -1.0, -1.0, -1.0, 1.0, -1.0,
    -1.0, 1.0, -1.0, -1.0, 1.0, 1.0, -1.0, -1.0, 1.0,
    1.0, -1.0, -1.0, 1.0, -1.0, 1.0, 1.0, 1.0, 1.0,
    1.0, 1.0, 1.0, 1.0, 1.0, -1.0, 1.0, -1.0, -1.0,
    -1.0, -1.0, 1.0, -1.0, 1.0, 1.0, 1.0, 1.0, 1.0,
    1.0, 1.0, 1.0, 1.0, -1.0, 1.0, -1.0, -1.0, 1.0,
    -1.0, 1.0, -1.0, 1.0, 1.0, -1.0, 1.0, 1.0, 1.0,
    1.0, 1.0, 1.0, -1.0, 1.0, 1.0, -1.0, 1.0, -1.0,
    -1.0, -1.0, -1.0, -1.0, -1.0, 1.0, 1.0, -1.0, -1.0,
    1.0, -1.0, -1.0, -1.0, -1.0, 1.0, 1.0, -1.0, 1.0
  ]
}
