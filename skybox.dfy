/**
 * Space3d::Skybox: the cube-map owner `Result`, the skybox mesh, and
 * generate(), which renders the star populations and the nebula passes into
 * the six faces of a fresh cube map.
 */
module Skybox {
  import opened Wrappers
  import opened Vectors
  import opened Gl
  import opened Random
  import opened SkyboxSchedule
  import Vao
  import Vbo

  // ---- the texture a Result configures ----

  /** The face map after level 0 of faces 0 .. n-1 has been (re)allocated as `img`. */
  function FacesUpTo(faces: map<nat, Image>, n: nat, img: Image): map<nat, Image>
  {
    if n == 0 then faces else FacesUpTo(faces, n - 1, img)[n - 1 := img]
  }

  /** Faces below n hold `img`; every other face keeps its image. */
  lemma {:induction false} FacesUpToAt(faces: map<nat, Image>, n: nat, img: Image, f: nat)
    ensures f < n ==> f in FacesUpTo(faces, n, img) && FacesUpTo(faces, n, img)[f] == img
    ensures n <= f ==> (f in FacesUpTo(faces, n, img) <==> f in faces)
    ensures n <= f && f in faces ==> FacesUpTo(faces, n, img)[f] == faces[f]
  {
    if n > 0 {
      FacesUpToAt(faces, n - 1, img, f);
    }
  }

  /**
   * The texture after setStorage(width, internalFormat, format, type): six
   * width x width level-0 faces (when the width is accepted), linear
   * filtering, and clamp-to-edge wrapping on S and T.
   */
  function WithStorage(t: CubeTexture, width: int, internalFormat: nat, format: nat, pixelType: nat): CubeTexture
  {
    var faces := if width >= 0 then FacesUpTo(t.faces, CubeFaces, Image(width, width, internalFormat, format, pixelType))
                 else t.faces;
    t.(faces := faces, minFilter := LINEAR, magFilter := LINEAR, wrapS := CLAMP_TO_EDGE, wrapT := CLAMP_TO_EDGE)
  }

  /** Face f can be rendered into: it has a level-0 image of positive size. */
  predicate FaceDrawable(t: CubeTexture, f: nat)
  {
    f in t.faces && t.faces[f].width > 0 && t.faces[f].height > 0
  }

  /**
   * setStorage allocates all six faces at width x width, so with a positive
   * width the cube map is complete and every face can be drawn into; with
   * width <= 0 on a fresh texture no face can.
   */
  lemma StorageCovers(t: CubeTexture, width: int, internalFormat: nat, format: nat, pixelType: nat, f: nat)
    requires f < CubeFaces
    ensures var s := WithStorage(t, width, internalFormat, format, pixelType);
      && (width >= 0 ==> f in s.faces && s.faces[f] == Image(width, width, internalFormat, format, pixelType))
      && (width > 0 ==> CubeComplete(s) && FaceDrawable(s, f))
      && (width <= 0 && t.faces == map[] ==> !FaceDrawable(s, f))
      && s.wrapS == CLAMP_TO_EDGE && s.wrapT == CLAMP_TO_EDGE && s.minFilter == LINEAR && s.magFilter == LINEAR
  {
    var img := Image(width, width, internalFormat, format, pixelType);
    FacesUpToAt(t.faces, CubeFaces, img, f);
    if width > 0 {
      forall g | 0 <= g < CubeFaces
        ensures g in FacesUpTo(t.faces, CubeFaces, img) && FacesUpTo(t.faces, CubeFaces, img)[g] == img
      {
        FacesUpToAt(t.faces, CubeFaces, img, g);
      }
    }
    if width == 0 && t.faces == map[] {
      assert FacesUpTo(t.faces, CubeFaces, img)[f] == img;
    }
  }

  /** The texture after generateMipmaps(): the mip chain when the cube map is complete, trilinear minification. */
  function WithMipmaps(t: CubeTexture): CubeTexture
  {
    var levels := if CubeComplete(t) then MipLevels(t.faces[0].width) else t.mipLevels;
    t.(mipLevels := levels, minFilter := LINEAR_MIPMAP_LINEAR, magFilter := LINEAR)
  }

  /** A Result owns one cube-map texture name; 0 owns nothing. */
  class Result {
    var ref: nat

    /** The owned name is 0 or live: the owner may still free it. */
    ghost predicate Valid(gl: Context)
      reads this, gl`textures
    {
      ref == 0 || ref in gl.textures
    }

    /** Result(): acquires a fresh texture name. */
    constructor (gl: Context)
      requires gl.Valid()
      modifies gl`next, gl`textures
      ensures gl.Valid() && Valid(gl)
      ensures ref != 0 && ref !in old(gl.textures) && gl.textures == old(gl.textures) + {ref}
      ensures gl.CubeMapOf(ref) == NewCubeTexture
    {
      var h := gl.GenTexture();
      ref := h;
    }

    /** ~Result(): deletes the owned texture when the name is nonzero, and does nothing otherwise. */
    method Destroy(gl: Context)
      requires gl.Valid() && Valid(gl)
      modifies gl`textures, gl`cubeMaps, gl`cubeMapBinding, gl`attachments
      ensures gl.Valid()
      ensures gl.textures == old(gl.textures) - {ref}
      ensures ref != 0 ==> gl.cubeMaps == old(gl.cubeMaps) - {ref}
      ensures ref == 0 ==>
        gl.cubeMaps == old(gl.cubeMaps) && gl.cubeMapBinding == old(gl.cubeMapBinding) && gl.attachments == old(gl.attachments)
      ensures ref != 0 ==> gl.cubeMapBinding == if old(gl.cubeMapBinding) == ref then 0 else old(gl.cubeMapBinding)
      ensures ref != 0 ==>
        gl.attachments ==
          if gl.framebufferBinding in old(gl.attachments) && old(gl.attachments)[gl.framebufferBinding].Attached?
             && old(gl.attachments)[gl.framebufferBinding].texture == ref
          then old(gl.attachments)[gl.framebufferBinding := Detached] else old(gl.attachments)
    {
      if ref != 0 {
        gl.DeleteTexture(ref);
      }
    }

    /** bind(): texture unit 0 becomes active and the owned name its cube map. */
    method Bind(gl: Context)
      requires gl.Valid() && Valid(gl)
      modifies gl`activeTexture, gl`cubeMapBinding, gl`error
      ensures gl.Valid()
      ensures gl.activeTexture == TEXTURE0 && gl.cubeMapBinding == ref && gl.error == old(gl.error)
    {
      gl.ActiveTexture(TEXTURE0);
      gl.BindCubeMap(ref);
    }

    /**
     * setStorage(width, internalFormat, format, type): allocates level 0 of
     * the six faces, in order, then sets linear filtering and clamp-to-edge
     * wrapping.  A negative width is refused face by face, but the parameters
     * are still set.
     */
    method SetStorage(gl: Context, width: int, internalFormat: nat, format: nat, pixelType: nat)
      requires gl.Valid() && Valid(gl)
      modifies gl`activeTexture, gl`cubeMapBinding, gl`cubeMaps, gl`error
      ensures gl.Valid()
      ensures gl.activeTexture == TEXTURE0 && gl.cubeMapBinding == ref
      ensures gl.cubeMaps == old(gl.cubeMaps)[ref := WithStorage(old(gl.CubeMapOf(ref)), width, internalFormat, format, pixelType)]
      ensures width >= 0 ==> gl.error == old(gl.error)
      ensures width < 0 ==> gl.error == Raised(old(gl.error), InvalidValue)
    {
      Bind(gl);
      AllocateFaces(gl, width, internalFormat, format, pixelType);
      SetSampling(gl);
    }

    /** The parameter calls of setStorage: linear filtering, clamp-to-edge on S and T. */
    method SetSampling(gl: Context)
      requires gl.Valid() && gl.cubeMapBinding == ref
      modifies gl`cubeMaps, gl`error
      ensures gl.Valid() && gl.error == old(gl.error)
      ensures gl.cubeMaps == old(gl.cubeMaps)[ref := old(gl.CubeMapOf(ref)).(
        minFilter := LINEAR, magFilter := LINEAR, wrapS := CLAMP_TO_EDGE, wrapT := CLAMP_TO_EDGE)]
    {
      gl.TexParameteri(TEXTURE_MIN_FILTER, LINEAR);
      gl.TexParameteri(TEXTURE_MAG_FILTER, LINEAR);
      gl.TexParameteri(TEXTURE_WRAP_S, CLAMP_TO_EDGE);
      gl.TexParameteri(TEXTURE_WRAP_T, CLAMP_TO_EDGE);
    }

    /** The face loop of setStorage: glTexImage2D on faces +X, -X, +Y, -Y, +Z, -Z of the bound cube map. */
    method AllocateFaces(gl: Context, width: int, internalFormat: nat, format: nat, pixelType: nat)
      requires gl.Valid() && gl.cubeMapBinding == ref
      modifies gl`cubeMaps, gl`error
      ensures gl.Valid()
      ensures width >= 0 ==> gl.error == old(gl.error)
      ensures width >= 0 ==>
        gl.cubeMaps == old(gl.cubeMaps)[ref := old(gl.CubeMapOf(ref)).(faces :=
          FacesUpTo(old(gl.CubeMapOf(ref)).faces, CubeFaces, Image(width, width, internalFormat, format, pixelType)))]
      ensures width < 0 ==> gl.cubeMaps == old(gl.cubeMaps) && gl.error == Raised(old(gl.error), InvalidValue)
    {
      ghost var t := gl.CubeMapOf(ref);
      var img := Image(width, width, internalFormat, format, pixelType);
      if width < 0 {
        for i := 0 to CubeFaces
          invariant gl.Valid() && gl.cubeMapBinding == ref && gl.cubeMaps == old(gl.cubeMaps)
          invariant gl.error == if i == 0 then old(gl.error) else Raised(old(gl.error), InvalidValue)
        {
          gl.TexImage2D(TEXTURE_CUBE_MAP_POSITIVE_X + i, internalFormat, width, width, format, pixelType);
        }
      } else {
        for i := 0 to CubeFaces
          invariant gl.Valid() && gl.cubeMapBinding == ref && gl.error == old(gl.error)
          invariant i == 0 ==> gl.cubeMaps == old(gl.cubeMaps)
          invariant i > 0 ==> gl.cubeMaps == old(gl.cubeMaps)[ref := t.(faces := FacesUpTo(t.faces, i, img))]
        {
          gl.TexImage2D(TEXTURE_CUBE_MAP_POSITIVE_X + i, internalFormat, width, width, format, pixelType);
        }
      }
    }

    /**
     * generateMipmaps(): builds the mip chain of the owned cube map (refused
     * when it is not cube complete), then selects trilinear minification.
     */
    method GenerateMipmaps(gl: Context)
      requires gl.Valid() && Valid(gl)
      modifies gl`activeTexture, gl`cubeMapBinding, gl`cubeMaps, gl`trace, gl`error
      ensures gl.Valid()
      ensures gl.activeTexture == TEXTURE0 && gl.cubeMapBinding == ref
      ensures gl.cubeMaps == old(gl.cubeMaps)[ref := WithMipmaps(old(gl.CubeMapOf(ref)))]
      ensures CubeComplete(old(gl.CubeMapOf(ref))) ==>
        gl.trace == old(gl.trace) + [GenerateMipmap(ref)] && gl.error == old(gl.error)
      ensures !CubeComplete(old(gl.CubeMapOf(ref))) ==>
        gl.trace == old(gl.trace) && gl.error == Raised(old(gl.error), InvalidOperation)
    {
      Bind(gl);
      gl.GenerateMipmapCubeMap();
      SetMipmapFiltering(gl);
    }

    /** The parameter calls of generateMipmaps: trilinear minification, linear magnification. */
    method SetMipmapFiltering(gl: Context)
      requires gl.Valid() && gl.cubeMapBinding == ref
      modifies gl`cubeMaps, gl`error
      ensures gl.Valid() && gl.error == old(gl.error)
      ensures gl.cubeMaps == old(gl.cubeMaps)[ref := old(gl.CubeMapOf(ref)).(minFilter := LINEAR_MIPMAP_LINEAR, magFilter := LINEAR)]
    {
      gl.TexParameteri(TEXTURE_MIN_FILTER, LINEAR_MIPMAP_LINEAR);
      gl.TexParameteri(TEXTURE_MAG_FILTER, LINEAR);
    }

    /** release(): forgets the owned name without deleting it; the GL state is untouched. */
    method Release()
      modifies this
      ensures ref == 0
    {
      ref := 0;
    }

    /** swap(other): exchanges the two owned names. */
    method Swap(other: Result)
      modifies this, other
      ensures ref == old(other.ref) && other.ref == old(ref)
    {
      ref, other.ref := other.ref, ref;
    }

    /** Result(Result&& other): takes over the name of `other`, which is left owning nothing. */
    constructor Move(other: Result)
      modifies other
      ensures ref == old(other.ref) && other.ref == 0
    {
      ref := 0;
      new;
      Swap(other);
    }

    /** operator=(Result&& other): a swap, except that assigning an owner to itself changes nothing. */
    method MoveAssign(other: Result)
      modifies this, other
      ensures other == this ==> ref == old(ref)
      ensures other != this ==> ref == old(other.ref) && other.ref == old(ref)
      ensures Distinct(this, other) == old(Distinct(this, other))
    {
      if this != other {
        Swap(other);
      }
    }
  }

  /** Two different owners never own the same nonzero name. */
  ghost predicate Distinct(a: Result, b: Result)
    reads a, b
  {
    a != b ==> a.ref == 0 || a.ref != b.ref
  }

  // ---- generate ----

  /**
   * The state generate renders in: the result texture and the temporary
   * framebuffer are live, the framebuffer is bound, and either every face of
   * the texture can be drawn into (`on`) or none can.
   */
  ghost predicate Rendering(gl: Context, tex: nat, fbo: nat, on: bool)
    reads gl`textures, gl`framebuffers, gl`framebufferBinding, gl`cubeMaps
  {
    && tex in gl.textures && fbo in gl.framebuffers && gl.framebufferBinding == fbo
    && forall f :: 0 <= f < CubeFaces ==> FaceDrawable(gl.CubeMapOf(tex), f) == on
  }

  /**
   * glFramebufferTexture2D(GL_FRAMEBUFFER, GL_COLOR_ATTACHMENT0, target, tex, 0)
   * for face i: later clears and draws land on that face, or are refused when
   * the faces have no storage.
   */
  method AttachFace(gl: Context, tex: nat, fbo: nat, ghost on: bool, target: nat)
    requires gl.Valid() && Rendering(gl, tex, fbo, on) && IsCubeFace(target)
    modifies gl`attachments, gl`error
    ensures gl.Valid() && Rendering(gl, tex, fbo, on) && gl.error == old(gl.error)
    ensures gl.attachments == old(gl.attachments)[fbo := Attached(tex, FaceOf(target))]
    ensures gl.CurrentTarget() == if on then Some(CubeFace(tex, FaceOf(target))) else None
  {
    gl.FramebufferTexture2D(target, tex);
    assert FaceDrawable(gl.CubeMapOf(tex), FaceOf(target)) == on;
  }

  /** One step of a face loop: the event is recorded when the faces are drawable, refused otherwise. */
  ghost predicate Stepped(gl: Context, on: bool, oldTrace: seq<Event>, oldError: Option<GlError>, e: Event)
    reads gl`trace, gl`error
  {
    if on then gl.trace == oldTrace + [e] && gl.error == oldError
    else gl.trace == oldTrace && gl.error == Raised(oldError, InvalidFramebufferOperation)
  }

  /** After i steps of a face loop: the first i events recorded, or nothing recorded and the error raised once. */
  ghost predicate SteppedUpTo(gl: Context, on: bool, oldTrace: seq<Event>, oldError: Option<GlError>, events: seq<Event>, i: nat)
    requires i <= |events|
    reads gl`trace, gl`error
  {
    if on then gl.trace == oldTrace + events[..i] && gl.error == oldError
    else gl.trace == oldTrace && gl.error == if i == 0 then oldError else Raised(oldError, InvalidFramebufferOperation)
  }

  /**
   * A sequence of attempted events: all recorded when the faces are drawable;
   * otherwise none recorded, and the error raised unless nothing was attempted.
   */
  ghost predicate Recorded(gl: Context, on: bool, oldTrace: seq<Event>, oldError: Option<GlError>, events: seq<Event>)
    reads gl`trace, gl`error
  {
    Logged(on, gl.trace, gl.error, oldTrace, oldError, events)
  }

  /** Recorded, over a trace and an error flag given as values. */
  ghost predicate Logged(on: bool, trace: seq<Event>, error: Option<GlError>,
                         oldTrace: seq<Event>, oldError: Option<GlError>, events: seq<Event>)
  {
    if on then trace == oldTrace + events && error == oldError
    else trace == oldTrace && error == if events == [] then oldError else Raised(oldError, InvalidFramebufferOperation)
  }

  /** Two attempted sequences one after the other are the attempt of their concatenation. */
  lemma LoggedThen(on: bool, t0: seq<Event>, e0: Option<GlError>, t1: seq<Event>, e1: Option<GlError>,
                   t2: seq<Event>, e2: Option<GlError>, a: seq<Event>, b: seq<Event>)
    requires Logged(on, t1, e1, t0, e0, a) && Logged(on, t2, e2, t1, e1, b)
    ensures Logged(on, t2, e2, t0, e0, a + b)
  {
    if !on && a + b == [] {
      assert |a| + |b| == 0;
    }
  }

  /** A finished face loop has recorded all of its events. */
  lemma LoopRecorded(gl: Context, on: bool, t0: seq<Event>, e0: Option<GlError>, events: seq<Event>)
    requires SteppedUpTo(gl, on, t0, e0, events, |events|)
    ensures Recorded(gl, on, t0, e0, events)
  {
    assert events[..|events|] == events;
  }

  /** A step extends the prefix of the face loop by one event. */
  lemma StepExtends(gl: Context, on: bool, t0: seq<Event>, e0: Option<GlError>, t1: seq<Event>, e1: Option<GlError>,
                    events: seq<Event>, i: nat)
    requires i < |events|
    requires on ==> t1 == t0 + events[..i] && e1 == e0
    requires !on ==> t1 == t0 && e1 == if i == 0 then e0 else Raised(e0, InvalidFramebufferOperation)
    requires Stepped(gl, on, t1, e1, events[i])
    ensures SteppedUpTo(gl, on, t0, e0, events, i + 1)
  {
    assert events[..i + 1] == events[..i] + [events[i]];
  }

  /** Face i of the clear loop: attach it, clear it to black. */
  method ClearFace(gl: Context, tex: nat, fbo: nat, ghost on: bool, i: nat)
    requires gl.Valid() && Rendering(gl, tex, fbo, on) && i < CubeFaces
    modifies gl`attachments, gl`trace, gl`error
    ensures gl.Valid() && Rendering(gl, tex, fbo, on)
    ensures gl.attachments == old(gl.attachments)[fbo := Attached(tex, i)]
    ensures Stepped(gl, on, old(gl.trace), old(gl.error), Clear(CubeFace(tex, i), Black))
  {
    CubemapEnumsAreOffsets(i);
    AttachFace(gl, tex, fbo, on, CubemapEnums[i]);
    gl.ClearColor(Black);
  }

  /** The clear loop: every face, in order, is attached and cleared to black. */
  method ClearFaces(gl: Context, tex: nat, fbo: nat, ghost on: bool)
    requires gl.Valid() && Rendering(gl, tex, fbo, on)
    modifies gl`attachments, gl`trace, gl`error
    ensures gl.Valid() && Rendering(gl, tex, fbo, on)
    ensures gl.attachments == old(gl.attachments)[fbo := Attached(tex, CubeFaces - 1)]
    ensures Recorded(gl, on, old(gl.trace), old(gl.error), Clears(tex))
  {
    for i := 0 to CubeFaces
      invariant gl.Valid() && Rendering(gl, tex, fbo, on)
      invariant gl.attachments == if i == 0 then old(gl.attachments) else old(gl.attachments)[fbo := Attached(tex, i - 1)]
      invariant SteppedUpTo(gl, on, old(gl.trace), old(gl.error), Clears(tex), i)
    {
      ghost var t1, e1 := gl.trace, gl.error;
      ClearFace(gl, tex, fbo, on, i);
      StepExtends(gl, on, old(gl.trace), old(gl.error), t1, e1, Clears(tex), i);
    }
    LoopRecorded(gl, on, old(gl.trace), old(gl.error), Clears(tex));
  }

  /** The attachment of one face followed by one draw into it with the program and vertex array in use. */
  method DrawOnFace(gl: Context, tex: nat, fbo: nat, ghost on: bool, target: nat, primitive: nat, count: nat)
    requires gl.Valid() && Rendering(gl, tex, fbo, on) && IsCubeFace(target)
    requires gl.program.Some? && gl.vertexArrayBinding != 0
    modifies gl`attachments, gl`trace, gl`error
    ensures gl.Valid() && Rendering(gl, tex, fbo, on)
    ensures gl.attachments == old(gl.attachments)[fbo := Attached(tex, FaceOf(target))]
    ensures Stepped(gl, on, old(gl.trace), old(gl.error),
                    Draw(CubeFace(tex, FaceOf(target)), primitive, count, gl.LayerOf(gl.program.value), gl.Vertices()))
  {
    AttachFace(gl, tex, fbo, on, target);
    gl.DrawArrays(primitive, count);
  }

  /** Face i of a star population: the capture view, the attachment taken from the face table, one draw of points. */
  method StarFace(gl: Context, tex: nat, fbo: nat, ghost on: bool, pop: Population, ghost buffer: seq<real>, i: nat)
    requires gl.Valid() && Rendering(gl, tex, fbo, on) && i < CubeFaces
    requires gl.program == Some(StarsProgram) && gl.vertexArrayBinding != 0 && gl.Vertices() == buffer
    requires gl.starUniforms.projection == CaptureProjection && gl.starUniforms.particleSize == pop.particleSize
    modifies gl`starUniforms, gl`nebulaUniforms, gl`attachments, gl`trace, gl`error
    ensures gl.Valid() && Rendering(gl, tex, fbo, on)
    ensures gl.starUniforms == old(gl.starUniforms).(view := CaptureView(i)) && gl.nebulaUniforms == old(gl.nebulaUniforms)
    ensures gl.attachments == old(gl.attachments)[fbo := Attached(tex, i)]
    ensures Stepped(gl, on, old(gl.trace), old(gl.error), StarDraw(tex, pop, buffer, i))
  {
    CubemapEnumsAreOffsets(i);
    gl.SetView(StarsProgram, CaptureViews[i]);
    assert gl.LayerOf(StarsProgram) == Stars(StarUniforms(CaptureProjection, CaptureView(i), pop.particleSize));
    DrawOnFace(gl, tex, fbo, on, CubemapEnums[i], POINTS, pop.count);
  }

  /** The star face loop: one draw of the population per face, in face order. */
  method StarFaces(gl: Context, tex: nat, fbo: nat, ghost on: bool, pop: Population, ghost buffer: seq<real>)
    requires gl.Valid() && Rendering(gl, tex, fbo, on)
    requires gl.program == Some(StarsProgram) && gl.vertexArrayBinding != 0 && gl.Vertices() == buffer
    requires gl.starUniforms.projection == CaptureProjection && gl.starUniforms.particleSize == pop.particleSize
    modifies gl`starUniforms, gl`nebulaUniforms, gl`attachments, gl`trace, gl`error
    ensures gl.Valid() && Rendering(gl, tex, fbo, on)
    ensures gl.starUniforms == old(gl.starUniforms).(view := CaptureView(CubeFaces - 1)) && gl.nebulaUniforms == old(gl.nebulaUniforms)
    ensures gl.attachments == old(gl.attachments)[fbo := Attached(tex, CubeFaces - 1)]
    ensures Recorded(gl, on, old(gl.trace), old(gl.error), StarDraws(tex, pop, buffer))
  {
    for i := 0 to CubeFaces
      invariant gl.Valid() && Rendering(gl, tex, fbo, on)
      invariant gl.starUniforms == if i == 0 then old(gl.starUniforms) else old(gl.starUniforms).(view := CaptureView(i - 1))
      invariant gl.nebulaUniforms == old(gl.nebulaUniforms)
      invariant gl.attachments == if i == 0 then old(gl.attachments) else old(gl.attachments)[fbo := Attached(tex, i - 1)]
      invariant SteppedUpTo(gl, on, old(gl.trace), old(gl.error), StarDraws(tex, pop, buffer), i)
    {
      ghost var t1, e1 := gl.trace, gl.error;
      StarFace(gl, tex, fbo, on, pop, buffer, i);
      StepExtends(gl, on, old(gl.trace), old(gl.error), t1, e1, StarDraws(tex, pop, buffer), i);
    }
    LoopRecorded(gl, on, old(gl.trace), old(gl.error), StarDraws(tex, pop, buffer));
  }

  /** The nebula uniforms hold the capture projection and the parameters of pass q. */
  ghost predicate PassUniforms(u: NebulaUniforms, q: PassParams)
  {
    u.projection == CaptureProjection && u.scale == q.scale && u.intensity == q.intensity &&
    u.color == q.color && u.falloff == q.falloff && u.offset == q.offset
  }

  /** Face i of a nebula pass: the capture view, the attachment by offset from +X, one draw of the cube. */
  method NebulaFace(gl: Context, tex: nat, fbo: nat, ghost on: bool, ghost mesh: seq<real>, ghost q: PassParams, i: nat)
    requires gl.Valid() && Rendering(gl, tex, fbo, on) && i < CubeFaces
    requires gl.program == Some(NebulaProgram) && gl.vertexArrayBinding != 0 && gl.Vertices() == mesh
    requires PassUniforms(gl.nebulaUniforms, q)
    modifies gl`starUniforms, gl`nebulaUniforms, gl`attachments, gl`trace, gl`error
    ensures gl.Valid() && Rendering(gl, tex, fbo, on)
    ensures gl.nebulaUniforms == old(gl.nebulaUniforms).(view := CaptureView(i)) && gl.starUniforms == old(gl.starUniforms)
    ensures gl.attachments == old(gl.attachments)[fbo := Attached(tex, i)]
    ensures Stepped(gl, on, old(gl.trace), old(gl.error), PassDraw(tex, mesh, q, i))
  {
    gl.SetView(NebulaProgram, CaptureViews[i]);
    assert gl.LayerOf(NebulaProgram) ==
      Nebula(NebulaUniforms(CaptureProjection, CaptureView(i), q.scale, q.intensity, q.color, q.falloff, q.offset));
    DrawOnFace(gl, tex, fbo, on, TEXTURE_CUBE_MAP_POSITIVE_X + i, TRIANGLES, NebulaVertexCount);
  }

  /** The nebula face loop: one draw of the cube per face, in face order. */
  method NebulaFaces(gl: Context, tex: nat, fbo: nat, ghost on: bool, ghost mesh: seq<real>, ghost q: PassParams)
    requires gl.Valid() && Rendering(gl, tex, fbo, on)
    requires gl.program == Some(NebulaProgram) && gl.vertexArrayBinding != 0 && gl.Vertices() == mesh
    requires PassUniforms(gl.nebulaUniforms, q)
    modifies gl`starUniforms, gl`nebulaUniforms, gl`attachments, gl`trace, gl`error
    ensures gl.Valid() && Rendering(gl, tex, fbo, on)
    ensures gl.nebulaUniforms == old(gl.nebulaUniforms).(view := CaptureView(CubeFaces - 1)) && gl.starUniforms == old(gl.starUniforms)
    ensures gl.attachments == old(gl.attachments)[fbo := Attached(tex, CubeFaces - 1)]
    ensures Recorded(gl, on, old(gl.trace), old(gl.error), PassDraws(tex, mesh, q))
  {
    for i := 0 to CubeFaces
      invariant gl.Valid() && Rendering(gl, tex, fbo, on)
      invariant gl.nebulaUniforms == if i == 0 then old(gl.nebulaUniforms) else old(gl.nebulaUniforms).(view := CaptureView(i - 1))
      invariant gl.starUniforms == old(gl.starUniforms)
      invariant gl.attachments == if i == 0 then old(gl.attachments) else old(gl.attachments)[fbo := Attached(tex, i - 1)]
      invariant SteppedUpTo(gl, on, old(gl.trace), old(gl.error), PassDraws(tex, mesh, q), i)
    {
      ghost var t1, e1 := gl.trace, gl.error;
      NebulaFace(gl, tex, fbo, on, mesh, q, i);
      StepExtends(gl, on, old(gl.trace), old(gl.error), t1, e1, PassDraws(tex, mesh, q), i);
    }
    LoopRecorded(gl, on, old(gl.trace), old(gl.error), PassDraws(tex, mesh, q));
  }

  // ---- the star populations ----

  /**
   * The `stars` vector of one population, resized to n and filled in
   * place: per star three position draws, three colour draws and one
   * brightness draw, in that order.
   */
  method MakeStars(rng: Stream, n: nat) returns (stars: array<StarVertex>)
    requires rng.cursor + DrawsPerStar * n <= |rng.draws|
    modifies rng`cursor
    ensures fresh(stars)
    ensures stars[..] == StarsOf(rng.draws, old(rng.cursor), n)
    ensures rng.cursor == old(rng.cursor) + DrawsPerStar * n
  {
    stars := new StarVertex[n](_ => StarVertex(Zero3, 0.0, Vec4(0.0, 0.0, 0.0, 0.0)));
    for i := 0 to n
      invariant rng.cursor == old(rng.cursor) + DrawsPerStar * i
      invariant forall j :: 0 <= j < i ==> stars[j] == StarAt(rng.draws, old(rng.cursor) + DrawsPerStar * j)
    {
      var x := rng.Next();
      var y := rng.Next();
      var z := rng.Next();
      var r := rng.Next();
      var g := rng.Next();
      var b := rng.Next();
      var brightness := rng.Next();
      stars[i] := StarVertex(
        Vec3(Uniform(-1.0, 1.0, x), Uniform(-1.0, 1.0, y), Uniform(-1.0, 1.0, z)),
        Uniform(0.7, 1.0, brightness),
        Vec4(Uniform(0.9, 1.0, r), Uniform(0.9, 1.0, g), Uniform(0.9, 1.0, b), 1.0));
    }
  }

  /** The vertex array a population is drawn from: position, brightness and colour read from `buffer`. */
  function StarArray(buffer: nat): VertexArray
  {
    VertexArray({0, 1, 2}, map[0 := PositionAttrib.(buffer := buffer),
                               1 := BrightnessAttrib.(buffer := buffer),
                               2 := ColorAttrib.(buffer := buffer)])
  }

  /** glEnableVertexAttribArray(index) and glVertexAttribPointer for attribute `a`, reading the bound buffer. */
  method SetAttrib(gl: Context, index: nat, a: Attrib)
    requires gl.Valid() && gl.vertexArrayBinding != 0 && gl.arrayBufferBinding != 0
    modifies gl`vertexArrayState, gl`error
    ensures gl.Valid() && gl.error == old(gl.error)
    ensures var v := old(gl.VertexArrayOf(gl.vertexArrayBinding));
      gl.vertexArrayState == old(gl.vertexArrayState)[gl.vertexArrayBinding :=
        VertexArray(v.enabled + {index}, v.attribs[index := a.(buffer := gl.arrayBufferBinding)])]
    ensures gl.TargetsKept() && gl.DrawingKept()
  {
    gl.EnableVertexAttribArray(index);
    gl.VertexAttribPointer(index, a.size, a.stride, a.offset);
  }

  /** The three star attributes of the bound (fresh) vertex array, all reading the bound buffer. */
  method SetStarAttribs(gl: Context)
    requires gl.Valid() && gl.vertexArrayBinding != 0 && gl.arrayBufferBinding != 0
    requires gl.vertexArrayBinding !in gl.vertexArrayState
    modifies gl`vertexArrayState, gl`error
    ensures gl.Valid() && gl.error == old(gl.error)
    ensures gl.vertexArrayState == old(gl.vertexArrayState)[gl.vertexArrayBinding := StarArray(gl.arrayBufferBinding)]
    ensures gl.TargetsKept() && gl.DrawingKept()
  {
    SetAttrib(gl, 0, PositionAttrib);
    SetAttrib(gl, 1, BrightnessAttrib);
    SetAttrib(gl, 2, ColorAttrib);
    assert gl.VertexArrayOf(gl.vertexArrayBinding) == StarArray(gl.arrayBufferBinding);
  }

  /** `Vao vaoStars; vaoStars.bind(); Vbo vboStars; vboStars.bind();`: two fresh names, both bound. */
  method CreateStarObjects(gl: Context) returns (vao: Vao.Vao, vbo: Vbo.Vbo)
    requires gl.Valid()
    modifies gl`next, gl`vertexArrays, gl`buffers, gl`vertexArrayBinding, gl`arrayBufferBinding, gl`error
    ensures gl.Valid() && vao.Valid(gl) && vbo.Valid(gl) && fresh(vao) && fresh(vbo)
    ensures vao.ref !in old(gl.vertexArrays) && gl.vertexArrays == old(gl.vertexArrays) + {vao.ref}
    ensures vbo.ref !in old(gl.buffers) && gl.buffers == old(gl.buffers) + {vbo.ref}
    ensures vao.ref !in gl.vertexArrayState && vbo.ref !in gl.bufferStore
    ensures gl.vertexArrayBinding == vao.ref != 0 && gl.arrayBufferBinding == vbo.ref != 0
    ensures gl.error == old(gl.error)
    ensures gl.TargetsKept() && gl.DrawingKept()
  {
    vao := new Vao.Vao(gl);
    vao.Bind(gl);
    vbo := new Vbo.Vbo(gl);
    vbo.Bind(gl);
  }

  /**
   * The objects of a population after upload: on top of the objects that
   * existed before, a fresh buffer holding `floats` and a fresh vertex array
   * reading the star attributes from it, both bound.
   */
  ghost predicate Uploaded(gl: Context, vao: Vao.Vao, vbo: Vbo.Vbo, floats: seq<real>, buffers: set<nat>,
                           store: map<nat, Store>, arrays: set<nat>, state: map<nat, VertexArray>)
    reads gl`buffers, gl`bufferStore, gl`vertexArrays, gl`vertexArrayState, gl`vertexArrayBinding, gl`arrayBufferBinding
    reads vao`ref, vbo`ref
  {
    UploadedObjects(gl.buffers, gl.bufferStore, gl.vertexArrays, gl.vertexArrayState, gl.vertexArrayBinding,
                    gl.arrayBufferBinding, vao.ref, vbo.ref, floats, buffers, store, arrays, state)
  }

  ghost predicate UploadedObjects(buffers': set<nat>, store': map<nat, Store>, arrays': set<nat>, state': map<nat, VertexArray>,
                                  arrayBinding: nat, bufferBinding: nat, vao: nat, vbo: nat, floats: seq<real>,
                                  buffers: set<nat>, store: map<nat, Store>, arrays: set<nat>, state: map<nat, VertexArray>)
  {
    && vbo != 0 && vbo !in buffers && vbo !in store
    && buffers' == buffers + {vbo} && store' == store[vbo := Store(FloatBytes * |floats|, floats)]
    && vao != 0 && vao !in arrays && vao !in state
    && arrays' == arrays + {vao} && state' == state[vao := StarArray(vbo)]
    && arrayBinding == vao && bufferBinding == vbo
  }

  /** The objects are the given ones again and neither a vertex array nor an array buffer is bound. */
  ghost predicate Released(gl: Context, buffers: set<nat>, store: map<nat, Store>, arrays: set<nat>, state: map<nat, VertexArray>)
    reads gl`buffers, gl`bufferStore, gl`vertexArrays, gl`vertexArrayState, gl`vertexArrayBinding, gl`arrayBufferBinding
  {
    && gl.buffers == buffers && gl.bufferStore == store && gl.vertexArrays == arrays && gl.vertexArrayState == state
    && gl.vertexArrayBinding == 0 && gl.arrayBufferBinding == 0
  }

  /**
   * vaoStars and vboStars: a fresh vertex array and a fresh buffer holding
   * `floats`, with the three star attributes enabled; both stay bound.
   */
  method UploadStars(gl: Context, floats: seq<real>) returns (vao: Vao.Vao, vbo: Vbo.Vbo)
    requires gl.Valid()
    modifies gl`next, gl`vertexArrays, gl`buffers, gl`vertexArrayBinding, gl`arrayBufferBinding
    modifies gl`bufferStore, gl`vertexArrayState, gl`error
    ensures gl.Valid() && fresh(vao) && fresh(vbo)
    ensures Uploaded(gl, vao, vbo, floats, old(gl.buffers), old(gl.bufferStore), old(gl.vertexArrays), old(gl.vertexArrayState))
    ensures gl.error == old(gl.error)
    ensures gl.Vertices() == floats
    ensures gl.TargetsKept() && gl.DrawingKept()
  {
    vao, vbo := CreateStarObjects(gl);
    vbo.BufferData(gl, floats, FloatBytes * |floats|);
    assert floats[..FloatBytes * |floats| / FloatBytes] == floats;
    SetStarAttribs(gl);
  }

  /**
   * The stars of one population, built from the stream and uploaded into a
   * fresh vertex array and buffer.
   */
  method PreparePopulation(gl: Context, rng: Stream, pop: Population) returns (vao: Vao.Vao, vbo: Vbo.Vbo, floats: seq<real>)
    requires gl.Valid() && rng.cursor + DrawsPerStar * pop.count <= |rng.draws|
    modifies gl`next, gl`vertexArrays, gl`buffers, gl`vertexArrayBinding, gl`arrayBufferBinding
    modifies gl`bufferStore, gl`vertexArrayState, gl`error, rng`cursor
    ensures gl.Valid() && fresh(vao) && fresh(vbo)
    ensures rng.cursor == old(rng.cursor) + DrawsPerStar * pop.count
    ensures floats == StarBuffer(rng.draws, old(rng.cursor), pop.count)
    ensures Uploaded(gl, vao, vbo, floats, old(gl.buffers), old(gl.bufferStore), old(gl.vertexArrays), old(gl.vertexArrayState))
    ensures gl.error == old(gl.error) && gl.Vertices() == floats
    ensures gl.TargetsKept() && gl.DrawingKept()
  {
    var stars := MakeStars(rng, pop.count);
    floats := Flatten(stars[..]);
    vao, vbo := UploadStars(gl, floats);
  }

  /** shaderStars.use() with the capture projection and the particle size of the population. */
  method UseStarProgram(gl: Context, pop: Population)
    modifies gl`program, gl`starUniforms, gl`nebulaUniforms
    ensures gl.program == Some(StarsProgram) && gl.nebulaUniforms == old(gl.nebulaUniforms)
    ensures gl.starUniforms == old(gl.starUniforms).(projection := CaptureProjection, particleSize := pop.particleSize)
  {
    gl.UseProgram(StarsProgram);
    gl.SetProjection(StarsProgram, CaptureProjection);
    gl.SetParticleSize(pop.particleSize);
  }

  /**
   * The end of the scope of vaoStars and vboStars: the buffer is freed, then
   * the vertex array, which leaves the objects as they were before the two
   * were made.
   */
  method FreeStars(gl: Context, vao: Vao.Vao, vbo: Vbo.Vbo, ghost floats: seq<real>, ghost buffers: set<nat>,
                   ghost store: map<nat, Store>, ghost arrays: set<nat>, ghost state: map<nat, VertexArray>)
    requires gl.Valid() && Uploaded(gl, vao, vbo, floats, buffers, store, arrays, state)
    modifies gl`vertexArrays, gl`buffers, gl`vertexArrayBinding, gl`arrayBufferBinding, gl`bufferStore, gl`vertexArrayState
    ensures gl.Valid() && Released(gl, buffers, store, arrays, state)
    ensures gl.TargetsKept() && gl.DrawingKept() && gl.error == old(gl.error)
  {
    vbo.Destroy(gl);
    RemoveAdded(store, vbo.ref, Store(FloatBytes * |floats|, floats));
    vao.Destroy(gl);
    RemoveAdded(state, vao.ref, StarArray(vbo.ref));
  }

  /** The uploaded stars of one population drawn on every face with the star program. */
  method RenderPopulation(gl: Context, tex: nat, fbo: nat, ghost on: bool, pop: Population, ghost floats: seq<real>)
    requires gl.Valid() && Rendering(gl, tex, fbo, on)
    requires gl.vertexArrayBinding != 0 && gl.Vertices() == floats
    requires fbo in gl.attachments && gl.attachments[fbo] == Attached(tex, CubeFaces - 1)
    modifies gl`error, gl`program, gl`starUniforms, gl`nebulaUniforms, gl`attachments, gl`trace
    ensures gl.Valid() && Rendering(gl, tex, fbo, on)
    ensures gl.program == Some(StarsProgram) && gl.nebulaUniforms == old(gl.nebulaUniforms)
    ensures gl.attachments == old(gl.attachments)
    ensures Recorded(gl, on, old(gl.trace), old(gl.error), StarDraws(tex, pop, floats))
    ensures gl.buffers == old(gl.buffers) && gl.bufferStore == old(gl.bufferStore) && gl.arrayBufferBinding == old(gl.arrayBufferBinding)
    ensures gl.vertexArrays == old(gl.vertexArrays) && gl.vertexArrayState == old(gl.vertexArrayState) && gl.vertexArrayBinding == old(gl.vertexArrayBinding)
  {
    UseStarProgram(gl, pop);
    StarFaces(gl, tex, fbo, on, pop, floats);
    UpdateSame(old(gl.attachments), fbo, Attached(tex, CubeFaces - 1));
  }

  /** Population k built from the stream, uploaded, and drawn on every face; its objects are still alive. */
  method ShowPopulation(gl: Context, rng: Stream, tex: nat, fbo: nat, ghost on: bool, k: nat)
    returns (vao: Vao.Vao, vbo: Vbo.Vbo, ghost floats: seq<real>)
    requires gl.Valid() && Rendering(gl, tex, fbo, on) && k < |Populations|
    requires rng.cursor == PopulationStart(k) && NebulaStart <= |rng.draws|
    requires fbo in gl.attachments && gl.attachments[fbo] == Attached(tex, CubeFaces - 1)
    modifies gl`next, gl`vertexArrays, gl`buffers, gl`vertexArrayBinding, gl`arrayBufferBinding
    modifies gl`bufferStore, gl`vertexArrayState, gl`error, gl`program, gl`starUniforms, gl`nebulaUniforms
    modifies gl`attachments, gl`trace, rng`cursor
    ensures gl.Valid() && Rendering(gl, tex, fbo, on)
    ensures rng.cursor == PopulationStart(k + 1)
    ensures Uploaded(gl, vao, vbo, floats, old(gl.buffers), old(gl.bufferStore), old(gl.vertexArrays), old(gl.vertexArrayState))
    ensures gl.program == Some(StarsProgram) && gl.nebulaUniforms == old(gl.nebulaUniforms)
    ensures gl.attachments == old(gl.attachments)
    ensures Recorded(gl, on, old(gl.trace), old(gl.error), PopulationDraws(tex, rng.draws, k))
  {
    PopulationFits(k);
    assert PopulationDraws(tex, rng.draws, k)
        == StarDraws(tex, Populations[k], StarBuffer(rng.draws, PopulationStart(k), Populations[k].count));
    vao, vbo, floats := PreparePopulation(gl, rng, Populations[k]);
    RenderPopulation(gl, tex, fbo, on, Populations[k], floats);
  }

  /**
   * One iteration of the population loop: population k drawn on every face,
   * after which its vertex array and buffer are freed again as they leave
   * scope (the buffer first).
   */
  method DrawPopulation(gl: Context, rng: Stream, tex: nat, fbo: nat, ghost on: bool, k: nat)
    requires gl.Valid() && Rendering(gl, tex, fbo, on) && k < |Populations|
    requires rng.cursor == PopulationStart(k) && NebulaStart <= |rng.draws|
    requires fbo in gl.attachments && gl.attachments[fbo] == Attached(tex, CubeFaces - 1)
    modifies gl`next, gl`vertexArrays, gl`buffers, gl`vertexArrayBinding, gl`arrayBufferBinding
    modifies gl`bufferStore, gl`vertexArrayState, gl`error, gl`program, gl`starUniforms, gl`nebulaUniforms
    modifies gl`attachments, gl`trace, rng`cursor
    ensures gl.Valid() && Rendering(gl, tex, fbo, on)
    ensures rng.cursor == PopulationStart(k + 1)
    ensures Released(gl, old(gl.buffers), old(gl.bufferStore), old(gl.vertexArrays), old(gl.vertexArrayState))
    ensures gl.program == Some(StarsProgram) && gl.nebulaUniforms == old(gl.nebulaUniforms)
    ensures gl.attachments == old(gl.attachments)
    ensures Recorded(gl, on, old(gl.trace), old(gl.error), PopulationDraws(tex, rng.draws, k))
  {
    var vao, vbo, floats := ShowPopulation(gl, rng, tex, fbo, on, k);
    FreeStars(gl, vao, vbo, floats, old(gl.buffers), old(gl.bufferStore), old(gl.vertexArrays), old(gl.vertexArrayState));
  }

  /**
   * The population loop: both populations, in order, each drawn on every
   * face and freed again, so the objects are as they were before.
   */
  method DrawStars(gl: Context, rng: Stream, tex: nat, fbo: nat, ghost on: bool)
    requires gl.Valid() && Rendering(gl, tex, fbo, on)
    requires rng.cursor == PopulationStart(0) && NebulaStart <= |rng.draws|
    requires fbo in gl.attachments && gl.attachments[fbo] == Attached(tex, CubeFaces - 1)
    modifies gl`next, gl`vertexArrays, gl`buffers, gl`vertexArrayBinding, gl`arrayBufferBinding
    modifies gl`bufferStore, gl`vertexArrayState, gl`error, gl`program, gl`starUniforms, gl`nebulaUniforms
    modifies gl`attachments, gl`trace, rng`cursor
    ensures gl.Valid() && Rendering(gl, tex, fbo, on)
    ensures rng.cursor == NebulaStart
    ensures gl.buffers == old(gl.buffers) && gl.bufferStore == old(gl.bufferStore)
    ensures gl.vertexArrays == old(gl.vertexArrays) && gl.vertexArrayState == old(gl.vertexArrayState)
    ensures gl.attachments == old(gl.attachments)
    ensures Recorded(gl, on, old(gl.trace), old(gl.error), StarPhase(tex, rng.draws, |Populations|))
    ensures gl.arrayBufferBinding == 0
  {
    StarPhaseDraws();
    for k := 0 to |Populations|
      invariant gl.Valid() && Rendering(gl, tex, fbo, on)
      invariant rng.cursor == PopulationStart(k)
      invariant gl.buffers == old(gl.buffers) && gl.bufferStore == old(gl.bufferStore)
      invariant gl.vertexArrays == old(gl.vertexArrays) && gl.vertexArrayState == old(gl.vertexArrayState)
      invariant gl.attachments == old(gl.attachments)
      invariant Recorded(gl, on, old(gl.trace), old(gl.error), StarPhase(tex, rng.draws, k))
      invariant k > 0 ==> gl.arrayBufferBinding == 0
    {
      ghost var t1, e1 := gl.trace, gl.error;
      DrawPopulation(gl, rng, tex, fbo, on, k);
      LoggedThen(on, old(gl.trace), old(gl.error), t1, e1, gl.trace, gl.error,
                 StarPhase(tex, rng.draws, k), PopulationDraws(tex, rng.draws, k));
    }
  }

  // ---- the nebulas ----

  /**
   * The nine parameter draws of one pass, set on the nebula program in call
   * order: scale, intensity, colour, falloff, offset.  The [0,1)
   * distribution hands out the canonical draw itself.
   */
  method SetPassParams(gl: Context, rng: Stream) returns (ghost q: PassParams)
    requires rng.cursor + DrawsPerPass - 1 <= |rng.draws|
    modifies gl`nebulaUniforms, rng`cursor
    ensures q == PassParamsAt(rng.draws, old(rng.cursor))
    ensures rng.cursor == old(rng.cursor) + DrawsPerPass - 1
    ensures gl.nebulaUniforms == old(gl.nebulaUniforms).(scale := q.scale, intensity := q.intensity, color := q.color,
                                                          falloff := q.falloff, offset := q.offset)
  {
    var u := rng.Next();
    gl.SetScale(u * 0.5 + 0.25);
    u := rng.Next();
    gl.SetIntensity(u * 0.2 + 0.9);
    var r := rng.Next();
    var g := rng.Next();
    var b := rng.Next();
    gl.SetColor(Vec4(r, g, b, 1.0));
    u := rng.Next();
    gl.SetFalloff(u * 3.0 + 3.0);
    var x := rng.Next();
    var y := rng.Next();
    var z := rng.Next();
    gl.SetOffset(Vec3(x * 2000.0 - 1000.0, y * 2000.0 - 1000.0, z * 2000.0 - 1000.0));
    q := PassParamsAt(rng.draws, old(rng.cursor));
  }

  /** The state the nebula loop runs in: the nebula program and the skybox cube ready, the texture attached. */
  ghost predicate NebulaReady(gl: Context, tex: nat, fbo: nat, on: bool, mesh: seq<real>)
    reads gl`next, gl`textures, gl`buffers, gl`vertexArrays, gl`framebuffers
    reads gl`cubeMaps, gl`bufferStore, gl`vertexArrayState, gl`attachments
    reads gl`cubeMapBinding, gl`arrayBufferBinding, gl`vertexArrayBinding, gl`framebufferBinding
    reads gl`program, gl`nebulaUniforms
  {
    && gl.Valid() && Rendering(gl, tex, fbo, on)
    && gl.program == Some(NebulaProgram) && gl.vertexArrayBinding != 0 && gl.Vertices() == mesh
    && gl.nebulaUniforms.projection == CaptureProjection
  }

  /**
   * The state of the nebula loop after p passes: ready for the next pass,
   * the attachments as they were, the cursor at pass p, and the draws of the
   * first p passes recorded since (t0, e0).
   */
  ghost predicate PassesDrawn(gl: Context, rng: Stream, tex: nat, fbo: nat, on: bool, mesh: seq<real>,
                              t0: seq<Event>, e0: Option<GlError>, a0: map<nat, Attachment>, p: nat)
    reads gl`next, gl`textures, gl`buffers, gl`vertexArrays, gl`framebuffers
    reads gl`cubeMaps, gl`bufferStore, gl`vertexArrayState, gl`attachments
    reads gl`cubeMapBinding, gl`arrayBufferBinding, gl`vertexArrayBinding, gl`framebufferBinding
    reads gl`program, gl`nebulaUniforms, gl`trace, gl`error, rng
  {
    && NebulaReady(gl, tex, fbo, on, mesh) && gl.attachments == a0
    && rng.cursor == PassStart(p) && PassStart(p) <= |rng.draws|
    && Recorded(gl, on, t0, e0, NebulaDraws(tex, mesh, rng.draws, p))
  }

  /**
   * One iteration of the nebula loop, pass p: its parameters, one draw per
   * face, and the termination draw, which asks to stop when below 0.5 (and
   * the loop then ends with p + 1 passes).
   */
  method NebulaPass(gl: Context, rng: Stream, tex: nat, fbo: nat, ghost on: bool, ghost mesh: seq<real>, ghost p: nat,
                    ghost t0: seq<Event>, ghost e0: Option<GlError>, ghost a0: map<nat, Attachment>)
    returns (stop: bool)
    requires PassesDrawn(gl, rng, tex, fbo, on, mesh, t0, e0, a0, p) && PassCount(rng.draws, p).Some?
    requires fbo in gl.attachments && gl.attachments[fbo] == Attached(tex, CubeFaces - 1)
    modifies gl`starUniforms, gl`nebulaUniforms, gl`attachments, gl`trace, gl`error, rng`cursor
    ensures PassesDrawn(gl, rng, tex, fbo, on, mesh, t0, e0, a0, p + 1) && gl.starUniforms == old(gl.starUniforms)
    ensures stop <==> StopDraw(rng.draws, p) < 0.5
    ensures stop ==> PassCount(rng.draws, p) == Some(p + 1)
    ensures !stop ==> PassCount(rng.draws, p + 1) == PassCount(rng.draws, p)
  {
    assert PassStart(p + 1) <= |rng.draws|;
    DrawPass(gl, rng, tex, fbo, on, mesh, p, t0, e0);
    var u := rng.Next();
    stop := u < 0.5;
  }

  /** The parameters of pass p set from its nine draws, then its six face draws. */
  method DrawPass(gl: Context, rng: Stream, tex: nat, fbo: nat, ghost on: bool, ghost mesh: seq<real>, ghost p: nat,
                  ghost t0: seq<Event>, ghost e0: Option<GlError>)
    requires NebulaReady(gl, tex, fbo, on, mesh) && rng.cursor == PassStart(p) && PassStart(p + 1) <= |rng.draws|
    requires fbo in gl.attachments && gl.attachments[fbo] == Attached(tex, CubeFaces - 1)
    requires Recorded(gl, on, t0, e0, NebulaDraws(tex, mesh, rng.draws, p))
    modifies gl`starUniforms, gl`nebulaUniforms, gl`attachments, gl`trace, gl`error, rng`cursor
    ensures NebulaReady(gl, tex, fbo, on, mesh) && gl.starUniforms == old(gl.starUniforms)
    ensures gl.attachments == old(gl.attachments) && rng.cursor == PassStart(p) + DrawsPerPass - 1
    ensures Recorded(gl, on, t0, e0, NebulaDraws(tex, mesh, rng.draws, p + 1))
  {
    var q := SetPassParams(gl, rng);
    NebulaFaces(gl, tex, fbo, on, mesh, q);
    UpdateSame(old(gl.attachments), fbo, Attached(tex, CubeFaces - 1));
    LoggedThen(on, t0, e0, old(gl.trace), old(gl.error), gl.trace, gl.error,
               NebulaDraws(tex, mesh, rng.draws, p), PassDraws(tex, mesh, PassParamsAt(rng.draws, PassStart(p))));
  }

  /** Vertex array h is live and its enabled attribute 0 reads a buffer holding `mesh`. */
  ghost predicate ReadsMesh(gl: Context, h: nat, mesh: seq<real>)
    reads gl`vertexArrays, gl`vertexArrayState, gl`bufferStore
  {
    && h != 0 && h in gl.vertexArrays
    && var v := gl.VertexArrayOf(h);
       0 in v.enabled && 0 in v.attribs && v.attribs[0].buffer in gl.bufferStore
       && gl.bufferStore[v.attribs[0].buffer].floats == mesh
  }

  /** shaderNebula.use() with the capture projection, and the skybox cube's vertex array bound. */
  method UseNebulaProgram(gl: Context, vao: Vao.Vao, ghost mesh: seq<real>)
    requires gl.Valid() && ReadsMesh(gl, vao.ref, mesh)
    modifies gl`program, gl`starUniforms, gl`nebulaUniforms, gl`vertexArrayBinding, gl`error
    ensures gl.Valid() && gl.error == old(gl.error)
    ensures gl.program == Some(NebulaProgram) && gl.vertexArrayBinding == vao.ref && gl.Vertices() == mesh
    ensures gl.nebulaUniforms.projection == CaptureProjection
    ensures gl.TargetsKept() && gl.trace == old(gl.trace)
  {
    gl.UseProgram(NebulaProgram);
    gl.SetProjection(NebulaProgram, CaptureProjection);
    vao.Bind(gl);
  }

  /**
   * The nebula loop: passes until a termination draw falls
   * below 0.5; it always runs at least one pass.
   */
  method NebulaLoop(gl: Context, rng: Stream, tex: nat, fbo: nat, ghost on: bool, ghost mesh: seq<real>)
    requires NebulaReady(gl, tex, fbo, on, mesh)
    requires rng.cursor == PassStart(0) && PassCount(rng.draws, 0).Some?
    requires fbo in gl.attachments && gl.attachments[fbo] == Attached(tex, CubeFaces - 1)
    modifies gl`starUniforms, gl`nebulaUniforms, gl`attachments, gl`trace, gl`error, rng`cursor
    ensures PassesDrawn(gl, rng, tex, fbo, on, mesh, old(gl.trace), old(gl.error), old(gl.attachments),
                        PassCount(rng.draws, 0).value)
  {
    ghost var p: nat := 0;
    ghost var n := PassCount(rng.draws, 0).value;
    while true
      invariant PassesDrawn(gl, rng, tex, fbo, on, mesh, old(gl.trace), old(gl.error), old(gl.attachments), p)
      invariant PassCount(rng.draws, p) == Some(n)
      decreases n - p
    {
      var stop := NebulaPass(gl, rng, tex, fbo, on, mesh, p, old(gl.trace), old(gl.error), old(gl.attachments));
      p := p + 1;
      if stop {
        break;
      }
    }
  }

  /** The nebula phase: the program and the cube set up once, then the pass loop. */
  method DrawNebulas(gl: Context, rng: Stream, tex: nat, fbo: nat, ghost on: bool, vao: Vao.Vao, ghost mesh: seq<real>)
    requires gl.Valid() && Rendering(gl, tex, fbo, on) && ReadsMesh(gl, vao.ref, mesh)
    requires rng.cursor == PassStart(0) && PassCount(rng.draws, 0).Some?
    requires fbo in gl.attachments && gl.attachments[fbo] == Attached(tex, CubeFaces - 1)
    modifies gl`program, gl`starUniforms, gl`nebulaUniforms, gl`vertexArrayBinding
    modifies gl`attachments, gl`trace, gl`error, rng`cursor
    ensures gl.Valid() && Rendering(gl, tex, fbo, on)
    ensures gl.program == Some(NebulaProgram) && gl.vertexArrayBinding == vao.ref
    ensures gl.attachments == old(gl.attachments)
    ensures rng.cursor == PassStart(PassCount(rng.draws, 0).value)
    ensures Recorded(gl, on, old(gl.trace), old(gl.error), NebulaDraws(tex, mesh, rng.draws, PassCount(rng.draws, 0).value))
  {
    UseNebulaProgram(gl, vao, mesh);
    NebulaLoop(gl, rng, tex, fbo, on, mesh);
  }

  // ---- the skybox ----

  /** The vertex array of the skybox cube: attribute 0 reads three floats per vertex from `buffer`. */
  function MeshArray(buffer: nat): VertexArray
  {
    VertexArray({0}, map[0 := Attrib(buffer, 3, 3 * FloatBytes, 0)])
  }

  /** The members of the skybox mesh, a vertex array and then a buffer, made and then bound in that order. */
  method CreateMeshObjects(gl: Context) returns (vao: Vao.Vao, vbo: Vbo.Vbo)
    requires gl.Valid()
    modifies gl`next, gl`vertexArrays, gl`buffers, gl`vertexArrayBinding, gl`arrayBufferBinding, gl`error
    ensures gl.Valid() && vao.Valid(gl) && vbo.Valid(gl) && fresh(vao) && fresh(vbo)
    ensures vao.ref !in old(gl.vertexArrays) && gl.vertexArrays == old(gl.vertexArrays) + {vao.ref}
    ensures vbo.ref !in old(gl.buffers) && gl.buffers == old(gl.buffers) + {vbo.ref}
    ensures vao.ref !in gl.vertexArrayState && vbo.ref !in gl.bufferStore
    ensures gl.vertexArrayBinding == vao.ref != 0 && gl.arrayBufferBinding == vbo.ref != 0
    ensures gl.error == old(gl.error)
    ensures gl.TargetsKept() && gl.DrawingKept()
  {
    vao := new Vao.Vao(gl);
    vbo := new Vbo.Vbo(gl);
    vao.Bind(gl);
    vbo.Bind(gl);
  }

  /**
   * The cube's 108 floats uploaded into `vbo`, and attribute 0 of the bound
   * (fresh) vertex array set to read them three at a time.
   */
  method UploadMesh(gl: Context, vbo: Vbo.Vbo)
    requires gl.Valid() && vbo.Valid(gl) && vbo.ref != 0
    requires gl.vertexArrayBinding != 0 && gl.vertexArrayBinding !in gl.vertexArrayState
    modifies gl`arrayBufferBinding, gl`bufferStore, gl`vertexArrayState, gl`error
    ensures gl.Valid() && gl.error == old(gl.error) && gl.arrayBufferBinding == vbo.ref
    ensures gl.bufferStore == old(gl.bufferStore)[vbo.ref := Store(FloatBytes * |SkyboxVertices|, SkyboxVertices)]
    ensures gl.vertexArrayState == old(gl.vertexArrayState)[gl.vertexArrayBinding := MeshArray(vbo.ref)]
    ensures gl.TargetsKept() && gl.DrawingKept()
  {
    vbo.BufferData(gl, SkyboxVertices, FloatBytes * |SkyboxVertices|);
    assert SkyboxVertices[..FloatBytes * |SkyboxVertices| / FloatBytes] == SkyboxVertices;
    gl.EnableVertexAttribArray(0);
    gl.VertexAttribPointer(0, 3, 3 * FloatBytes, 0);
    assert gl.VertexArrayOf(gl.vertexArrayBinding) == MeshArray(vbo.ref);
  }

  /**
   * The drawing of generate composed: with drawable faces the clears, the
   * blend set-up and the drawn content are all recorded; otherwise only the
   * blend set-up is, and the clears raise the framebuffer error (unless an
   * error was already recorded).
   */
  lemma PhasesCompose(on: bool, tex: nat, t0: seq<Event>, e0: Option<GlError>, t1: seq<Event>, e1: Option<GlError>,
                      t2: seq<Event>, e2: Option<GlError>, content: seq<Event>)
    requires on ==> t1 == t0 + Clears(tex) + BlendEvents && e1 == e0
    requires !on ==> t1 == t0 + BlendEvents && e1 == Raised(e0, InvalidFramebufferOperation)
    requires Logged(on, t2, e2, t1, e1, content)
    ensures on ==> t2 == t0 + (Clears(tex) + BlendEvents + content) && e2 == e0
    ensures !on ==> t2 == t0 + BlendEvents && e2 == Raised(e0, InvalidFramebufferOperation)
  {
    if on {
      assert t2 == t0 + Clears(tex) + BlendEvents + content;
    }
  }

  /** `Result result; result.setStorage(width, GL_RGB8, GL_RGB, GL_UNSIGNED_BYTE);` */
  method CreateResult(gl: Context, width: int) returns (result: Result)
    requires gl.Valid()
    modifies gl`next, gl`textures, gl`activeTexture, gl`cubeMapBinding, gl`cubeMaps, gl`error
    ensures gl.Valid() && fresh(result) && result.Valid(gl)
    ensures result.ref != 0 && result.ref !in old(gl.textures) && gl.textures == old(gl.textures) + {result.ref}
    ensures gl.cubeMaps == old(gl.cubeMaps)[result.ref := WithStorage(NewCubeTexture, width, RGB8, RGB, UNSIGNED_BYTE)]
    ensures gl.error == if width < 0 then Raised(old(gl.error), InvalidValue) else old(gl.error)
  {
    result := new Result(gl);
    result.SetStorage(gl, width, RGB8, RGB, UNSIGNED_BYTE);
  }

  /** A fresh framebuffer, bound, and the viewport over a whole face. */
  method BindTarget(gl: Context, width: int) returns (fbo: nat)
    requires gl.Valid()
    modifies gl`next, gl`framebuffers, gl`framebufferBinding, gl`viewport, gl`error
    ensures gl.Valid() && gl.framebufferBinding == fbo
    ensures fbo !in old(gl.framebuffers) && gl.framebuffers == old(gl.framebuffers) + {fbo} && fbo !in gl.attachments
    ensures gl.error == if width < 0 then Raised(old(gl.error), InvalidValue) else old(gl.error)
    ensures width >= 0 ==> gl.viewport == Rect(0, 0, width, width)
    ensures width < 0 ==> gl.viewport == old(gl.viewport)
  {
    fbo := gl.GenFramebuffer();
    gl.BindFramebuffer(fbo);
    gl.Viewport(0, 0, width, width);
  }

  /**
   * The start of generate: the result texture with its storage, a fresh
   * framebuffer bound, and the viewport.  The faces can be drawn into
   * exactly when the width is positive; a negative width is refused.
   */
  method BeginRender(gl: Context, width: int) returns (result: Result, fbo: nat)
    requires gl.Valid()
    modifies gl`next, gl`textures, gl`activeTexture, gl`cubeMapBinding, gl`cubeMaps
    modifies gl`framebuffers, gl`framebufferBinding, gl`viewport, gl`error
    ensures gl.Valid() && fresh(result) && result.Valid(gl) && Rendering(gl, result.ref, fbo, width > 0)
    ensures result.ref != 0 && result.ref !in old(gl.textures) && gl.textures == old(gl.textures) + {result.ref}
    ensures gl.cubeMaps == old(gl.cubeMaps)[result.ref := WithStorage(NewCubeTexture, width, RGB8, RGB, UNSIGNED_BYTE)]
    ensures fbo !in old(gl.framebuffers) && gl.framebuffers == old(gl.framebuffers) + {fbo} && fbo !in gl.attachments
    ensures gl.error == if width < 0 then Raised(old(gl.error), InvalidValue) else old(gl.error)
    ensures gl.ObjectsKept() && gl.trace == old(gl.trace) && gl.attachments == old(gl.attachments)
    ensures width >= 0 ==> gl.viewport == Rect(0, 0, width, width)
    ensures width < 0 ==> gl.viewport == old(gl.viewport)
  {
    result := CreateResult(gl, width);
    fbo := BindTarget(gl, width);
    FreshStorageDrawable(width);
  }

  /** The faces of a fresh texture given storage can be drawn into exactly when the width is positive. */
  lemma FreshStorageDrawable(width: int)
    ensures forall f :: 0 <= f < CubeFaces ==>
      FaceDrawable(WithStorage(NewCubeTexture, width, RGB8, RGB, UNSIGNED_BYTE), f) == (width > 0)
  {
    forall f | 0 <= f < CubeFaces
      ensures FaceDrawable(WithStorage(NewCubeTexture, width, RGB8, RGB, UNSIGNED_BYTE), f) == (width > 0)
    {
      StorageCovers(NewCubeTexture, width, RGB8, RGB, UNSIGNED_BYTE, f);
    }
  }

  /** The clear loop, then the additive blend set-up, which takes effect whether or not the faces can be drawn. */
  method ClearAndBlend(gl: Context, tex: nat, fbo: nat, ghost on: bool)
    requires gl.Valid() && Rendering(gl, tex, fbo, on)
    modifies gl`attachments, gl`trace, gl`error, gl`blendFunc, gl`blendEquation
    ensures gl.Valid() && Rendering(gl, tex, fbo, on)
    ensures gl.attachments == old(gl.attachments)[fbo := Attached(tex, CubeFaces - 1)]
    ensures gl.blendFunc == (SRC_ALPHA, ONE) && gl.blendEquation == (FUNC_ADD, FUNC_ADD)
    ensures on ==> gl.trace == old(gl.trace) + Clears(tex) + BlendEvents && gl.error == old(gl.error)
    ensures !on ==> gl.trace == old(gl.trace) + BlendEvents && gl.error == Raised(old(gl.error), InvalidFramebufferOperation)
  {
    ClearFaces(gl, tex, fbo, on);
    gl.BlendFunc(SRC_ALPHA, ONE);
    gl.BlendEquationSeparate(FUNC_ADD, FUNC_ADD);
  }

  /** The star populations and then the nebula passes, drawn into the attached faces. */
  method DrawContent(gl: Context, rng: Stream, tex: nat, fbo: nat, ghost on: bool, vao: Vao.Vao, ghost mesh: seq<real>)
    requires gl.Valid() && Rendering(gl, tex, fbo, on) && ReadsMesh(gl, vao.ref, mesh)
    requires fbo in gl.attachments && gl.attachments[fbo] == Attached(tex, CubeFaces - 1)
    requires rng.cursor == 0 && PassCount(rng.draws, 0).Some?
    modifies gl`next, gl`vertexArrays, gl`buffers, gl`vertexArrayBinding, gl`arrayBufferBinding
    modifies gl`bufferStore, gl`vertexArrayState, gl`error, gl`program, gl`starUniforms, gl`nebulaUniforms
    modifies gl`attachments, gl`trace, rng`cursor
    ensures gl.Valid() && Rendering(gl, tex, fbo, on)
    ensures gl.buffers == old(gl.buffers) && gl.bufferStore == old(gl.bufferStore)
    ensures gl.vertexArrays == old(gl.vertexArrays) && gl.vertexArrayState == old(gl.vertexArrayState)
    ensures gl.attachments == old(gl.attachments)
    ensures Recorded(gl, on, old(gl.trace), old(gl.error),
                     StarPhase(tex, rng.draws, |Populations|) + NebulaDraws(tex, mesh, rng.draws, PassCount(rng.draws, 0).value))
    ensures gl.program == Some(NebulaProgram) && gl.vertexArrayBinding == vao.ref && gl.arrayBufferBinding == 0
  {
    DrawStars(gl, rng, tex, fbo, on);
    ghost var t1, e1 := gl.trace, gl.error;
    DrawNebulas(gl, rng, tex, fbo, on, vao, mesh);
    LoggedThen(on, old(gl.trace), old(gl.error), t1, e1, gl.trace, gl.error,
               StarPhase(tex, rng.draws, |Populations|), NebulaDraws(tex, mesh, rng.draws, PassCount(rng.draws, 0).value));
  }

  /**
   * The drawing of generate: the clears and the blend set-up, then the
   * stars and the nebulas, all into the attached faces.
   */
  method Render(gl: Context, rng: Stream, tex: nat, fbo: nat, ghost on: bool, vao: Vao.Vao, ghost mesh: seq<real>)
    requires gl.Valid() && Rendering(gl, tex, fbo, on) && ReadsMesh(gl, vao.ref, mesh)
    requires rng.cursor == 0 && PassCount(rng.draws, 0).Some?
    modifies gl`next, gl`vertexArrays, gl`buffers, gl`vertexArrayBinding, gl`arrayBufferBinding
    modifies gl`bufferStore, gl`vertexArrayState, gl`error, gl`program, gl`starUniforms, gl`nebulaUniforms
    modifies gl`attachments, gl`trace, gl`blendFunc, gl`blendEquation, rng`cursor
    ensures gl.Valid() && Rendering(gl, tex, fbo, on)
    ensures gl.buffers == old(gl.buffers) && gl.bufferStore == old(gl.bufferStore)
    ensures gl.vertexArrays == old(gl.vertexArrays) && gl.vertexArrayState == old(gl.vertexArrayState)
    ensures gl.attachments == old(gl.attachments)[fbo := Attached(tex, CubeFaces - 1)]
    ensures gl.blendFunc == (SRC_ALPHA, ONE) && gl.blendEquation == (FUNC_ADD, FUNC_ADD)
    ensures on ==> (gl.error == old(gl.error) &&
      gl.trace == old(gl.trace) + (Clears(tex) + BlendEvents + StarPhase(tex, rng.draws, |Populations|)
                                   + NebulaDraws(tex, mesh, rng.draws, PassCount(rng.draws, 0).value)))
    ensures !on ==> gl.trace == old(gl.trace) + BlendEvents && gl.error == Raised(old(gl.error), InvalidFramebufferOperation)
    ensures gl.textures == old(gl.textures) && gl.cubeMaps == old(gl.cubeMaps) && gl.framebuffers == old(gl.framebuffers)
    ensures gl.program == Some(NebulaProgram) && gl.vertexArrayBinding == vao.ref && gl.arrayBufferBinding == 0
  {
    ClearAndBlend(gl, tex, fbo, on);
    ghost var t1, e1 := gl.trace, gl.error;
    DrawContent(gl, rng, tex, fbo, on, vao, mesh);
    PhasesCompose(on, tex, old(gl.trace), old(gl.error), t1, e1, gl.trace, gl.error,
                  StarPhase(tex, rng.draws, |Populations|) + NebulaDraws(tex, mesh, rng.draws, PassCount(rng.draws, 0).value));
  }

  /**
   * The end of generate: the framebuffer deleted, the default one rebound,
   * and the mipmaps of the result, which are refused unless its faces are
   * complete.
   */
  method FinishRender(gl: Context, result: Result, fbo: nat)
    requires gl.Valid() && result.Valid(gl) && fbo in gl.framebuffers
    modifies gl`framebuffers, gl`attachments, gl`framebufferBinding, gl`error
    modifies gl`activeTexture, gl`cubeMapBinding, gl`cubeMaps, gl`trace
    ensures gl.Valid() && result.Valid(gl)
    ensures gl.framebuffers == old(gl.framebuffers) - {fbo} && gl.attachments == old(gl.attachments) - {fbo}
    ensures gl.framebufferBinding == 0
    ensures gl.cubeMaps == old(gl.cubeMaps)[result.ref := WithMipmaps(old(gl.CubeMapOf(result.ref)))]
    ensures CubeComplete(old(gl.CubeMapOf(result.ref))) ==>
      gl.trace == old(gl.trace) + [GenerateMipmap(result.ref)] && gl.error == old(gl.error)
    ensures !CubeComplete(old(gl.CubeMapOf(result.ref))) ==>
      gl.trace == old(gl.trace) && gl.error == Raised(old(gl.error), InvalidOperation)
    ensures gl.ObjectsKept() && gl.BlendKept() && gl.textures == old(gl.textures)
    ensures gl.activeTexture == TEXTURE0 && gl.cubeMapBinding == result.ref
  {
    ReleaseTarget(gl, fbo);
    result.GenerateMipmaps(gl);
  }

  /** The temporary framebuffer deleted and the default one bound again. */
  method ReleaseTarget(gl: Context, fbo: nat)
    requires gl.Valid() && fbo in gl.framebuffers
    modifies gl`framebuffers, gl`attachments, gl`framebufferBinding, gl`error
    ensures gl.Valid() && gl.framebufferBinding == 0 && gl.error == old(gl.error)
    ensures gl.framebuffers == old(gl.framebuffers) - {fbo} && gl.attachments == old(gl.attachments) - {fbo}
  {
    gl.DeleteFramebuffer(fbo);
    gl.BindFramebuffer(0);
  }

  /**
   * Everything generate does once the target is bound: the drawing, then
   * the framebuffer released and the mipmaps, which are built exactly when
   * the faces could be drawn into.
   */
  method DrawAndFinish(gl: Context, rng: Stream, result: Result, fbo: nat, ghost on: bool, vao: Vao.Vao, ghost mesh: seq<real>)
    requires gl.Valid() && result.Valid(gl) && Rendering(gl, result.ref, fbo, on) && ReadsMesh(gl, vao.ref, mesh)
    requires CubeComplete(gl.CubeMapOf(result.ref)) == on && fbo !in gl.attachments
    requires rng.cursor == 0 && PassCount(rng.draws, 0).Some?
    modifies gl, rng`cursor
    ensures gl.Valid() && result.Valid(gl)
    ensures gl.ObjectsKept() && gl.textures == old(gl.textures)
    ensures gl.framebuffers == old(gl.framebuffers) - {fbo} && gl.attachments == old(gl.attachments) && gl.framebufferBinding == 0
    ensures gl.cubeMaps == old(gl.cubeMaps)[result.ref := WithMipmaps(old(gl.CubeMapOf(result.ref)))]
    ensures gl.blendFunc == (SRC_ALPHA, ONE) && gl.blendEquation == (FUNC_ADD, FUNC_ADD)
    ensures on ==> (gl.error == old(gl.error) &&
      gl.trace == old(gl.trace) + (Clears(result.ref) + BlendEvents + StarPhase(result.ref, rng.draws, |Populations|)
                                   + NebulaDraws(result.ref, mesh, rng.draws, PassCount(rng.draws, 0).value)
                                   + [GenerateMipmap(result.ref)]))
    ensures !on ==> gl.trace == old(gl.trace) + BlendEvents && gl.error == Raised(old(gl.error), InvalidFramebufferOperation)
    ensures gl.activeTexture == TEXTURE0 && gl.cubeMapBinding == result.ref
    ensures gl.program == Some(NebulaProgram) && gl.vertexArrayBinding == vao.ref && gl.arrayBufferBinding == 0
    ensures gl.viewport == old(gl.viewport)
  {
    Render(gl, rng, result.ref, fbo, on, vao, mesh);
    FinishRender(gl, result, fbo);
    RemoveAdded(old(gl.attachments), fbo, Attached(result.ref, CubeFaces - 1));
  }

  /**
   * Space3d::Skybox: the skybox cube mesh (its vertex array and buffer),
   * used by every generate call.
   */
  class Skybox {
    const meshVao: Vao.Vao
    const meshVbo: Vbo.Vbo

    /** The mesh objects are live and hold the 36 vertices of the cube, read by attribute 0. */
    ghost predicate Valid(gl: Context)
      reads meshVao, meshVbo, gl`vertexArrays, gl`vertexArrayState, gl`buffers, gl`bufferStore
    {
      && meshVao.ref != 0 && meshVao.ref in gl.vertexArrays && gl.VertexArrayOf(meshVao.ref) == MeshArray(meshVbo.ref)
      && meshVbo.ref != 0 && meshVbo.ref in gl.buffers && meshVbo.ref in gl.bufferStore
      && gl.bufferStore[meshVbo.ref] == Store(FloatBytes * |SkyboxVertices|, SkyboxVertices)
    }

    /**
     * Skybox(): the mesh's vertex array and buffer are made and bound, the
     * cube's vertices uploaded, and attribute 0 set to read them.  (The two
     * shader programs are compiled here too; they are not modelled.)
     */
    constructor (gl: Context)
      requires gl.Valid()
      modifies gl`next, gl`vertexArrays, gl`buffers, gl`vertexArrayBinding, gl`arrayBufferBinding
      modifies gl`bufferStore, gl`vertexArrayState, gl`error
      ensures gl.Valid() && Valid(gl) && fresh(meshVao) && fresh(meshVbo)
      ensures gl.vertexArrays == old(gl.vertexArrays) + {meshVao.ref} && meshVao.ref !in old(gl.vertexArrays)
      ensures gl.buffers == old(gl.buffers) + {meshVbo.ref} && meshVbo.ref !in old(gl.buffers)
      ensures gl.vertexArrayBinding == meshVao.ref && gl.arrayBufferBinding == meshVbo.ref
      ensures gl.error == old(gl.error)
      ensures gl.TargetsKept() && gl.DrawingKept()
    {
      var vao, vbo := CreateMeshObjects(gl);
      UploadMesh(gl, vbo);
      meshVao, meshVbo := vao, vbo;
    }

    /**
     * generate(seed, width): a fresh cube map of width x width faces holding
     * the rendered sky, with mipmaps.  `draws` is the sequence of canonical
     * draws the engine seeded with `seed` produces; it must reach a stopping
     * draw, or the nebula loop would not end.  Every temporary object is
     * freed again.
     */
    method Generate(gl: Context, draws: seq<real>, width: int) returns (result: Result)
      requires gl.Valid() && Valid(gl) && PassCount(draws, 0).Some?
      modifies gl
      ensures gl.Valid() && Valid(gl) && fresh(result) && result.Valid(gl)
      ensures result.ref != 0 && result.ref !in old(gl.textures) && gl.textures == old(gl.textures) + {result.ref}
      ensures gl.CubeMapOf(result.ref) == WithMipmaps(WithStorage(NewCubeTexture, width, RGB8, RGB, UNSIGNED_BYTE))
      ensures gl.cubeMaps == old(gl.cubeMaps)[result.ref := WithMipmaps(WithStorage(NewCubeTexture, width, RGB8, RGB, UNSIGNED_BYTE))]
      ensures gl.trace == old(gl.trace) + GenerateTrace(result.ref, SkyboxVertices, draws, width)
      ensures gl.error == if width > 0 then old(gl.error)
                          else if width == 0 then Raised(old(gl.error), InvalidFramebufferOperation)
                          else Raised(old(gl.error), InvalidValue)
      ensures gl.framebuffers == old(gl.framebuffers) && gl.attachments == old(gl.attachments) && gl.framebufferBinding == 0
      ensures gl.buffers == old(gl.buffers) && gl.bufferStore == old(gl.bufferStore)
      ensures gl.vertexArrays == old(gl.vertexArrays) && gl.vertexArrayState == old(gl.vertexArrayState)
      ensures gl.blendFunc == (SRC_ALPHA, ONE) && gl.blendEquation == (FUNC_ADD, FUNC_ADD)
      ensures gl.activeTexture == TEXTURE0 && gl.cubeMapBinding == result.ref
      ensures gl.program == Some(NebulaProgram) && gl.vertexArrayBinding == meshVao.ref && gl.arrayBufferBinding == 0
      ensures width >= 0 ==> gl.viewport == Rect(0, 0, width, width)
      ensures width < 0 ==> gl.viewport == old(gl.viewport)
    {
      var rng := new Stream(draws);
      var fbo;
      result, fbo := BeginRender(gl, width);
      StorageCovers(NewCubeTexture, width, RGB8, RGB, UNSIGNED_BYTE, 0);
      DrawAndFinish(gl, rng, result, fbo, width > 0, meshVao, SkyboxVertices);
    }
  }

  /** Updating a key to the value it already has changes nothing. */
  lemma UpdateSame<K, V>(m: map<K, V>, k: K, v: V)
    requires k in m && m[k] == v
    ensures m[k := v] == m
  {
  }

  /** Removing a key that was just added restores the map. */
  lemma RemoveAdded<K, V>(m: map<K, V>, k: K, v: V)
    requires k !in m
    ensures m[k := v] - {k} == m
  {
  }
}
