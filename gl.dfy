/**
 * An abstract OpenGL 3.3 core context: the part of the GL state that the
 * skybox generator, the texture owner and the buffer and vertex-array owners
 * read or change.
 *
 * Object names are handed out by one allocator and never reused; a name is
 * live from its Gen call until its Delete call, and deleting a name that is
 * not live is refused by the precondition of every Delete method, so that a
 * double free is a verification failure.  Calls that render (clears, draws,
 * blend-state changes, mipmap generation) are recorded in `trace` when they
 * take effect.  A call that GL rejects changes nothing and raises an error:
 * only the first error is kept, as glGetError reports it.
 */
module Gl {
  import opened Wrappers
  import opened Vectors

  // Enumerants, with the values of the OpenGL headers.
  const TEXTURE0: nat := 0x84C0
  const TEXTURE_CUBE_MAP: nat := 0x8513
  const TEXTURE_CUBE_MAP_POSITIVE_X: nat := 0x8515
  const TEXTURE_CUBE_MAP_NEGATIVE_X: nat := 0x8516
  const TEXTURE_CUBE_MAP_POSITIVE_Y: nat := 0x8517
  const TEXTURE_CUBE_MAP_NEGATIVE_Y: nat := 0x8518
  const TEXTURE_CUBE_MAP_POSITIVE_Z: nat := 0x8519
  const TEXTURE_CUBE_MAP_NEGATIVE_Z: nat := 0x851A
  const TEXTURE_MAG_FILTER: nat := 0x2800
  const TEXTURE_MIN_FILTER: nat := 0x2801
  const TEXTURE_WRAP_S: nat := 0x2802
  const TEXTURE_WRAP_T: nat := 0x2803
  const TEXTURE_WRAP_R: nat := 0x8072
  const LINEAR: nat := 0x2601
  const NEAREST_MIPMAP_LINEAR: nat := 0x2702
  const LINEAR_MIPMAP_LINEAR: nat := 0x2703
  const REPEAT: nat := 0x2901
  const CLAMP_TO_EDGE: nat := 0x812F
  const RGB: nat := 0x1907
  const RGB8: nat := 0x8051
  const UNSIGNED_BYTE: nat := 0x1401
  const ZERO: nat := 0
  const ONE: nat := 1
  const SRC_ALPHA: nat := 0x0302
  const FUNC_ADD: nat := 0x8006
  const POINTS: nat := 0x0000
  const TRIANGLES: nat := 0x0004

  /** Bytes in one GL float. */
  const FloatBytes: nat := 4

  /** Number of faces of a cube map. */
  const CubeFaces: nat := 6

  predicate IsCubeFace(target: nat) {
    TEXTURE_CUBE_MAP_POSITIVE_X <= target < TEXTURE_CUBE_MAP_POSITIVE_X + CubeFaces
  }

  /** The face index (0 = +X, 1 = -X, 2 = +Y, 3 = -Y, 4 = +Z, 5 = -Z) of a face target. */
  function FaceOf(target: nat): (face: nat)
    requires IsCubeFace(target)
    ensures face < CubeFaces && target == TEXTURE_CUBE_MAP_POSITIVE_X + face
  {
    target - TEXTURE_CUBE_MAP_POSITIVE_X
  }

  datatype GlError = InvalidEnum | InvalidValue | InvalidOperation | InvalidFramebufferOperation

  /** The error flag after `e` is raised: an error already recorded is kept. */
  function Raised(flag: Option<GlError>, e: GlError): Option<GlError> {
    if flag.Some? then flag else Some(e)
  }

  /** Level 0 of one cube-map face. */
  datatype Image = Image(width: int, height: int, internalFormat: nat, format: nat, pixelType: nat)

  /** A cube-map texture object: level-0 faces by face index, sampling parameters, mip chain. */
  datatype CubeTexture = CubeTexture(
    faces: map<nat, Image>,
    minFilter: nat, magFilter: nat,
    wrapS: nat, wrapT: nat, wrapR: nat,
    mipLevels: nat)

  /** The state of a texture object that nothing has configured yet (the GL defaults). */
  const NewCubeTexture: CubeTexture :=
    CubeTexture(map[], NEAREST_MIPMAP_LINEAR, LINEAR, REPEAT, REPEAT, REPEAT, 0)

  /** Cube completeness: six identical, square level-0 images of positive size. */
  predicate CubeComplete(t: CubeTexture) {
    && 0 in t.faces
    && t.faces[0].width > 0
    && t.faces[0].width == t.faces[0].height
    && forall f :: 0 <= f < CubeFaces ==> f in t.faces && t.faces[f] == t.faces[0]
  }

  /** 2^n; MipLevels relies on its being positive. */
  function Pow2(n: nat): (r: nat)
    ensures r >= 1
  {
    if n == 0 then 1 else 2 * Pow2(n - 1)
  }

  /** Number of levels of a full mip chain over a base of `width` texels: floor(log2 width) + 1. */
  function MipLevels(width: nat): (levels: nat)
    requires width > 0
    ensures levels >= 1
    ensures Pow2(levels - 1) <= width < Pow2(levels)
  {
    if width == 1 then 1 else 1 + MipLevels(width / 2)
  }

  function WithFace(t: CubeTexture, face: nat, image: Image): CubeTexture {
    t.(faces := t.faces[face := image])
  }

  predicate IsTextureParameter(pname: nat) {
    pname == TEXTURE_MIN_FILTER || pname == TEXTURE_MAG_FILTER ||
    pname == TEXTURE_WRAP_S || pname == TEXTURE_WRAP_T || pname == TEXTURE_WRAP_R
  }

  function WithParameter(t: CubeTexture, pname: nat, value: nat): CubeTexture
    requires IsTextureParameter(pname)
  {
    if pname == TEXTURE_MIN_FILTER then t.(minFilter := value)
    else if pname == TEXTURE_MAG_FILTER then t.(magFilter := value)
    else if pname == TEXTURE_WRAP_S then t.(wrapS := value)
    else if pname == TEXTURE_WRAP_T then t.(wrapT := value)
    else t.(wrapR := value)
  }

  /** A buffer object's data store: its size in bytes and the floats it holds. */
  datatype Store = Store(bytes: nat, floats: seq<real>)

  /** A float vertex attribute: its source buffer, component count, stride and offset in bytes. */
  datatype Attrib = Attrib(buffer: nat, size: nat, stride: nat, offset: nat)

  datatype VertexArray = VertexArray(enabled: set<nat>, attribs: map<nat, Attrib>)

  const NewVertexArray: VertexArray := VertexArray({}, map[])

  /** Colour attachment 0 of a framebuffer object. */
  datatype Attachment = Detached | Attached(texture: nat, face: nat)

  /** Where a clear or a draw lands: the window, or one face of a cube-map texture. */
  datatype Target = Window | CubeFace(texture: nat, face: nat)

  /** The matrices the generator uploads, by table entry: the capture projection or a capture view. */
  datatype Matrix = NoMatrix | CaptureProjection | CaptureView(face: nat)

  /** The two compiled programs of the generator. */
  datatype Program = StarsProgram | NebulaProgram

  /** Uniforms of the star program; `particleSize` is both components of the vec2. */
  datatype StarUniforms = StarUniforms(projection: Matrix, view: Matrix, particleSize: real)

  /** Uniforms of the nebula program. */
  datatype NebulaUniforms = NebulaUniforms(
    projection: Matrix, view: Matrix,
    scale: real, intensity: real, color: Vec4, falloff: real, offset: Vec3)

  const NewStarUniforms: StarUniforms := StarUniforms(NoMatrix, NoMatrix, 0.0)
  const NewNebulaUniforms: NebulaUniforms :=
    NebulaUniforms(NoMatrix, NoMatrix, 0.0, 0.0, Vec4(0.0, 0.0, 0.0, 0.0), 0.0, Zero3)

  /** What a draw renders: the program in use with the uniform values it held. */
  datatype Layer = Stars(stars: StarUniforms) | Nebula(nebula: NebulaUniforms)

  datatype Event =
    | Clear(target: Target, color: Vec4)
    | BlendFunc(src: nat, dst: nat)
    | BlendEquation(rgb: nat, alpha: nat)
    | Draw(target: Target, primitive: nat, count: nat, layer: Layer, vertices: seq<real>)
    | GenerateMipmap(texture: nat)

  datatype Viewport = Rect(x: int, y: int, width: int, height: int)

  ghost predicate Consistent(next: nat, textures: set<nat>, buffers: set<nat>, vertexArrays: set<nat>, framebuffers: set<nat>,
                             cubeMaps: map<nat, CubeTexture>, bufferStore: map<nat, Store>, vertexArrayState: map<nat, VertexArray>,
                             attachments: map<nat, Attachment>, cubeMapBinding: nat, arrayBufferBinding: nat,
                             vertexArrayBinding: nat, framebufferBinding: nat)
    {
    && 0 < next
    && 0 !in textures && 0 !in buffers && 0 !in vertexArrays && 0 !in framebuffers
    && (forall h :: h in textures ==> h < next)
    && (forall h :: h in buffers ==> h < next)
    && (forall h :: h in vertexArrays ==> h < next)
    && (forall h :: h in framebuffers ==> h < next)
    && (forall h :: h in cubeMaps ==> h == 0 || h in textures)
    && (forall h :: h in bufferStore ==> h in buffers)
    && (forall h :: h in vertexArrayState ==> h in vertexArrays)
    && (forall h :: h in attachments ==> h in framebuffers)
    && (cubeMapBinding == 0 || cubeMapBinding in textures)
    && (arrayBufferBinding == 0 || arrayBufferBinding in buffers)
    && (vertexArrayBinding == 0 || vertexArrayBinding in vertexArrays)
    && (framebufferBinding == 0 || framebufferBinding in framebuffers)
  }


  class Context {
    /** Every name handed out so far is below `next`. */
    var next: nat

    var textures: set<nat>
    var cubeMaps: map<nat, CubeTexture>
    var activeTexture: nat
    var cubeMapBinding: nat

    var buffers: set<nat>
    var bufferStore: map<nat, Store>
    var arrayBufferBinding: nat

    var vertexArrays: set<nat>
    var vertexArrayState: map<nat, VertexArray>
    var vertexArrayBinding: nat

    var framebuffers: set<nat>
    var attachments: map<nat, Attachment>
    var framebufferBinding: nat

    var viewport: Viewport
    var blendFunc: (nat, nat)
    var blendEquation: (nat, nat)
    var program: Option<Program>
    var starUniforms: StarUniforms
    var nebulaUniforms: NebulaUniforms

    var trace: seq<Event>
    var error: Option<GlError>

    ghost predicate Valid()
      reads this`next, this`textures, this`buffers, this`vertexArrays, this`framebuffers
      reads this`cubeMaps, this`bufferStore, this`vertexArrayState, this`attachments
      reads this`cubeMapBinding, this`arrayBufferBinding, this`vertexArrayBinding, this`framebufferBinding
    {
      Consistent(next, textures, buffers, vertexArrays, framebuffers, cubeMaps, bufferStore, vertexArrayState, attachments,
                 cubeMapBinding, arrayBufferBinding, vertexArrayBinding, framebufferBinding)
    }

    /** The render targets are as they were: textures, their images, framebuffers and their attachments. */
    twostate predicate TargetsKept()
      reads this`textures, this`cubeMaps, this`framebuffers, this`framebufferBinding, this`attachments
    {
      && textures == old(textures) && cubeMaps == old(cubeMaps)
      && framebuffers == old(framebuffers) && framebufferBinding == old(framebufferBinding)
      && attachments == old(attachments)
    }

    /** The program state and the recorded events are as they were. */
    twostate predicate DrawingKept()
      reads this`program, this`starUniforms, this`nebulaUniforms, this`trace
    {
      program == old(program) && starUniforms == old(starUniforms) && nebulaUniforms == old(nebulaUniforms) && trace == old(trace)
    }

    /** The texture objects and their images are as they were. */
    twostate predicate TexturesKept()
      reads this`textures, this`cubeMaps
    {
      textures == old(textures) && cubeMaps == old(cubeMaps)
    }

    /** The buffer and vertex-array objects and their contents are as they were. */
    twostate predicate ObjectsKept()
      reads this`buffers, this`bufferStore, this`vertexArrays, this`vertexArrayState
    {
      buffers == old(buffers) && bufferStore == old(bufferStore) &&
      vertexArrays == old(vertexArrays) && vertexArrayState == old(vertexArrayState)
    }

    /** The blend function and equation are as they were. */
    twostate predicate BlendKept()
      reads this`blendFunc, this`blendEquation
    {
      blendFunc == old(blendFunc) && blendEquation == old(blendEquation)
    }

    /** A fresh context with nothing allocated and nothing drawn. */
    constructor (windowWidth: nat, windowHeight: nat)
      ensures Valid()
      ensures textures == {} && buffers == {} && vertexArrays == {} && framebuffers == {}
      ensures cubeMaps == map[] && bufferStore == map[] && vertexArrayState == map[] && attachments == map[]
      ensures cubeMapBinding == 0 && arrayBufferBinding == 0 && vertexArrayBinding == 0 && framebufferBinding == 0
      ensures program == None && trace == [] && error == None
    {
      next := 1;
      textures, cubeMaps, activeTexture, cubeMapBinding := {}, map[], TEXTURE0, 0;
      buffers, bufferStore, arrayBufferBinding := {}, map[], 0;
      vertexArrays, vertexArrayState, vertexArrayBinding := {}, map[], 0;
      framebuffers, attachments, framebufferBinding := {}, map[], 0;
      viewport := Rect(0, 0, windowWidth, windowHeight);
      blendFunc, blendEquation := (ONE, ZERO), (FUNC_ADD, FUNC_ADD);
      program, starUniforms, nebulaUniforms := None, NewStarUniforms, NewNebulaUniforms;
      trace, error := [], None;
    }

    function CubeMapOf(h: nat): CubeTexture
      reads this`cubeMaps
    {
      if h in cubeMaps then cubeMaps[h] else NewCubeTexture
    }

    function VertexArrayOf(h: nat): VertexArray
      reads this`vertexArrayState
    {
      if h in vertexArrayState then vertexArrayState[h] else NewVertexArray
    }

    /**
     * The render target of the bound framebuffer, or None when the bound
     * framebuffer object is incomplete: its colour attachment must be a cube
     * face whose level-0 image has positive size.
     */
    function CurrentTarget(): Option<Target>
      reads this`framebufferBinding, this`attachments, this`cubeMaps
    {
      if framebufferBinding == 0 then Some(Window)
      else if framebufferBinding in attachments && attachments[framebufferBinding].Attached? then
        var a := attachments[framebufferBinding];
        var t := CubeMapOf(a.texture);
        if a.face in t.faces && t.faces[a.face].width > 0 && t.faces[a.face].height > 0
        then Some(CubeFace(a.texture, a.face)) else None
      else None
    }

    /** The floats that attribute 0 of the bound vertex array reads from. */
    function Vertices(): seq<real>
      reads this`vertexArrayState, this`vertexArrayBinding, this`bufferStore
    {
      var v := VertexArrayOf(vertexArrayBinding);
      if 0 in v.enabled && 0 in v.attribs && v.attribs[0].buffer in bufferStore
      then bufferStore[v.attribs[0].buffer].floats else []
    }

    function LayerOf(p: Program): Layer
      reads this`starUniforms, this`nebulaUniforms
    {
      match p
      case StarsProgram => Stars(starUniforms)
      case NebulaProgram => Nebula(nebulaUniforms)
    }

    // ---- textures ----

    /** glGenTextures(1, &h). */
    method GenTexture() returns (h: nat)
      requires Valid()
      modifies this`next, this`textures
      ensures Valid()
      ensures h != 0 && h !in old(textures) && textures == old(textures) + {h}
      ensures CubeMapOf(h) == NewCubeTexture
    {
      h := next;
      next := next + 1;
      textures := textures + {h};
    }

    /** glDeleteTextures(1, &h): unbinds `h` and detaches it from the bound framebuffer. */
    method DeleteTexture(h: nat)
      requires Valid() && h in textures
      modifies this`textures, this`cubeMaps, this`cubeMapBinding, this`attachments
      ensures Valid()
      ensures textures == old(textures) - {h} && cubeMaps == old(cubeMaps) - {h}
      ensures cubeMapBinding == if old(cubeMapBinding) == h then 0 else old(cubeMapBinding)
      ensures attachments ==
        if framebufferBinding in old(attachments) && old(attachments)[framebufferBinding].Attached?
           && old(attachments)[framebufferBinding].texture == h
        then old(attachments)[framebufferBinding := Detached] else old(attachments)
    {
      textures := textures - {h};
      cubeMaps := cubeMaps - {h};
      if cubeMapBinding == h {
        cubeMapBinding := 0;
      }
      if framebufferBinding in attachments && attachments[framebufferBinding].Attached?
         && attachments[framebufferBinding].texture == h {
        attachments := attachments[framebufferBinding := Detached];
      }
    }

    /** glActiveTexture(unit). The model keeps the cube-map binding of one unit. */
    method ActiveTexture(unit: nat)
      modifies this`activeTexture
      ensures activeTexture == unit
    {
      activeTexture := unit;
    }

    /** glBindTexture(GL_TEXTURE_CUBE_MAP, h): a name that was never generated is refused. */
    method BindCubeMap(h: nat)
      requires Valid()
      modifies this`cubeMapBinding, this`error
      ensures Valid()
      ensures h == 0 || h in textures ==> cubeMapBinding == h && error == old(error)
      ensures !(h == 0 || h in textures) ==>
        cubeMapBinding == old(cubeMapBinding) && error == Raised(old(error), InvalidOperation)
    {
      if h == 0 || h in textures {
        cubeMapBinding := h;
      } else {
        error := Raised(error, InvalidOperation);
      }
    }

    /** glTexImage2D(target, 0, internalFormat, width, height, 0, format, type, nullptr) on the bound cube map. */
    method TexImage2D(target: nat, internalFormat: nat, width: int, height: int, format: nat, pixelType: nat)
      requires Valid()
      modifies this`cubeMaps, this`error
      ensures Valid()
      ensures !IsCubeFace(target) ==> cubeMaps == old(cubeMaps) && error == Raised(old(error), InvalidEnum)
      ensures IsCubeFace(target) && (width < 0 || height < 0 || width != height) ==>
        cubeMaps == old(cubeMaps) && error == Raised(old(error), InvalidValue)
      ensures IsCubeFace(target) && 0 <= width && width == height ==>
        error == old(error) &&
        cubeMaps == old(cubeMaps)[cubeMapBinding := WithFace(old(CubeMapOf(cubeMapBinding)), FaceOf(target),
                                                             Image(width, height, internalFormat, format, pixelType))]
    {
      if !IsCubeFace(target) {
        error := Raised(error, InvalidEnum);
      } else if width < 0 || height < 0 || width != height {
        error := Raised(error, InvalidValue);
      } else {
        cubeMaps := cubeMaps[cubeMapBinding := WithFace(CubeMapOf(cubeMapBinding), FaceOf(target),
                                                        Image(width, height, internalFormat, format, pixelType))];
      }
    }

    /** glTexParameteri(GL_TEXTURE_CUBE_MAP, pname, value) on the bound cube map. */
    method TexParameteri(pname: nat, value: nat)
      requires Valid()
      modifies this`cubeMaps, this`error
      ensures Valid()
      ensures IsTextureParameter(pname) ==>
        error == old(error) &&
        cubeMaps == old(cubeMaps)[cubeMapBinding := WithParameter(old(CubeMapOf(cubeMapBinding)), pname, value)]
      ensures !IsTextureParameter(pname) ==> cubeMaps == old(cubeMaps) && error == Raised(old(error), InvalidEnum)
    {
      if IsTextureParameter(pname) {
        cubeMaps := cubeMaps[cubeMapBinding := WithParameter(CubeMapOf(cubeMapBinding), pname, value)];
      } else {
        error := Raised(error, InvalidEnum);
      }
    }

    /** glGenerateMipmap(GL_TEXTURE_CUBE_MAP): refused unless the bound cube map is cube complete. */
    method GenerateMipmapCubeMap()
      requires Valid()
      modifies this`cubeMaps, this`trace, this`error
      ensures Valid()
      ensures CubeComplete(old(CubeMapOf(cubeMapBinding))) ==>
        error == old(error) && trace == old(trace) + [GenerateMipmap(cubeMapBinding)] &&
        cubeMaps == old(cubeMaps)[cubeMapBinding :=
          old(CubeMapOf(cubeMapBinding)).(mipLevels := MipLevels(old(CubeMapOf(cubeMapBinding)).faces[0].width))]
      ensures !CubeComplete(old(CubeMapOf(cubeMapBinding))) ==>
        cubeMaps == old(cubeMaps) && trace == old(trace) && error == Raised(old(error), InvalidOperation)
    {
      var t := CubeMapOf(cubeMapBinding);
      if CubeComplete(t) {
        cubeMaps := cubeMaps[cubeMapBinding := t.(mipLevels := MipLevels(t.faces[0].width))];
        trace := trace + [GenerateMipmap(cubeMapBinding)];
      } else {
        error := Raised(error, InvalidOperation);
      }
    }

    // ---- buffer objects ----

    /** glGenBuffers(1, &h). */
    method GenBuffer() returns (h: nat)
      requires Valid()
      modifies this`next, this`buffers
      ensures Valid()
      ensures h != 0 && h !in old(buffers) && buffers == old(buffers) + {h}
      ensures h !in bufferStore
      ensures TargetsKept() && DrawingKept()
    {
      h := next;
      next := next + 1;
      buffers := buffers + {h};
    }

    /** glDeleteBuffers(1, &h): frees the data store and unbinds `h` from GL_ARRAY_BUFFER. */
    method DeleteBuffer(h: nat)
      requires Valid() && h in buffers
      modifies this`buffers, this`bufferStore, this`arrayBufferBinding
      ensures Valid()
      ensures buffers == old(buffers) - {h} && bufferStore == old(bufferStore) - {h}
      ensures arrayBufferBinding == if old(arrayBufferBinding) == h then 0 else old(arrayBufferBinding)
      ensures TargetsKept() && DrawingKept()
    {
      buffers := buffers - {h};
      bufferStore := bufferStore - {h};
      if arrayBufferBinding == h {
        arrayBufferBinding := 0;
      }
    }

    /** glBindBuffer(GL_ARRAY_BUFFER, h): a name that was never generated is refused. */
    method BindArrayBuffer(h: nat)
      requires Valid()
      modifies this`arrayBufferBinding, this`error
      ensures Valid()
      ensures h == 0 || h in buffers ==> arrayBufferBinding == h && error == old(error)
      ensures !(h == 0 || h in buffers) ==>
        arrayBufferBinding == old(arrayBufferBinding) && error == Raised(old(error), InvalidOperation)
      ensures TargetsKept() && DrawingKept()
    {
      if h == 0 || h in buffers {
        arrayBufferBinding := h;
      } else {
        error := Raised(error, InvalidOperation);
      }
    }

    /**
     * glBufferData(GL_ARRAY_BUFFER, size, data, GL_STATIC_DRAW): the store of
     * the bound buffer becomes the first `size` bytes of `data`, which holds
     * floats.  The caller must supply at least `size` bytes.
     */
    method BufferData(data: seq<real>, size: nat)
      requires Valid() && size <= FloatBytes * |data|
      modifies this`bufferStore, this`error
      ensures Valid()
      ensures arrayBufferBinding == 0 ==> bufferStore == old(bufferStore) && error == Raised(old(error), InvalidOperation)
      ensures arrayBufferBinding != 0 ==>
        error == old(error) &&
        bufferStore == old(bufferStore)[arrayBufferBinding := Store(size, data[..size / FloatBytes])]
      ensures TargetsKept() && DrawingKept()
    {
      if arrayBufferBinding == 0 {
        error := Raised(error, InvalidOperation);
      } else {
        bufferStore := bufferStore[arrayBufferBinding := Store(size, data[..size / FloatBytes])];
      }
    }

    // ---- vertex-array objects ----

    /** glGenVertexArrays(1, &h). */
    method GenVertexArray() returns (h: nat)
      requires Valid()
      modifies this`next, this`vertexArrays
      ensures Valid()
      ensures h != 0 && h !in old(vertexArrays) && vertexArrays == old(vertexArrays) + {h}
      ensures h !in vertexArrayState
      ensures TargetsKept() && DrawingKept()
    {
      h := next;
      next := next + 1;
      vertexArrays := vertexArrays + {h};
    }

    /** glDeleteVertexArrays(1, &h): unbinds `h` if it is bound. */
    method DeleteVertexArray(h: nat)
      requires Valid() && h in vertexArrays
      modifies this`vertexArrays, this`vertexArrayState, this`vertexArrayBinding
      ensures Valid()
      ensures vertexArrays == old(vertexArrays) - {h} && vertexArrayState == old(vertexArrayState) - {h}
      ensures vertexArrayBinding == if old(vertexArrayBinding) == h then 0 else old(vertexArrayBinding)
      ensures TargetsKept() && DrawingKept()
    {
      vertexArrays := vertexArrays - {h};
      vertexArrayState := vertexArrayState - {h};
      if vertexArrayBinding == h {
        vertexArrayBinding := 0;
      }
    }

    /** glBindVertexArray(h): a name that was never generated is refused. */
    method BindVertexArray(h: nat)
      requires Valid()
      modifies this`vertexArrayBinding, this`error
      ensures Valid()
      ensures h == 0 || h in vertexArrays ==> vertexArrayBinding == h && error == old(error)
      ensures !(h == 0 || h in vertexArrays) ==>
        vertexArrayBinding == old(vertexArrayBinding) && error == Raised(old(error), InvalidOperation)
      ensures TargetsKept() && DrawingKept()
    {
      if h == 0 || h in vertexArrays {
        vertexArrayBinding := h;
      } else {
        error := Raised(error, InvalidOperation);
      }
    }

    /** glEnableVertexAttribArray(index) on the bound vertex array. */
    method EnableVertexAttribArray(index: nat)
      requires Valid()
      modifies this`vertexArrayState, this`error
      ensures Valid()
      ensures vertexArrayBinding == 0 ==>
        vertexArrayState == old(vertexArrayState) && error == Raised(old(error), InvalidOperation)
      ensures vertexArrayBinding != 0 ==>
        error == old(error) &&
        vertexArrayState == old(vertexArrayState)[vertexArrayBinding :=
          old(VertexArrayOf(vertexArrayBinding)).(enabled := old(VertexArrayOf(vertexArrayBinding)).enabled + {index})]
      ensures TargetsKept() && DrawingKept()
    {
      if vertexArrayBinding == 0 {
        error := Raised(error, InvalidOperation);
      } else {
        var v := VertexArrayOf(vertexArrayBinding);
        vertexArrayState := vertexArrayState[vertexArrayBinding := v.(enabled := v.enabled + {index})];
      }
    }

    /**
     * glVertexAttribPointer(index, size, GL_FLOAT, GL_FALSE, stride, offset):
     * attribute `index` of the bound vertex array reads from the bound array buffer.
     */
    method VertexAttribPointer(index: nat, size: nat, stride: nat, offset: nat)
      requires Valid()
      modifies this`vertexArrayState, this`error
      ensures Valid()
      ensures vertexArrayBinding == 0 || arrayBufferBinding == 0 ==>
        vertexArrayState == old(vertexArrayState) && error == Raised(old(error), InvalidOperation)
      ensures vertexArrayBinding != 0 && arrayBufferBinding != 0 ==>
        error == old(error) &&
        vertexArrayState == old(vertexArrayState)[vertexArrayBinding :=
          old(VertexArrayOf(vertexArrayBinding)).(attribs :=
            old(VertexArrayOf(vertexArrayBinding)).attribs[index := Attrib(arrayBufferBinding, size, stride, offset)])]
      ensures TargetsKept() && DrawingKept()
    {
      if vertexArrayBinding == 0 || arrayBufferBinding == 0 {
        error := Raised(error, InvalidOperation);
      } else {
        var v := VertexArrayOf(vertexArrayBinding);
        vertexArrayState := vertexArrayState[vertexArrayBinding :=
          v.(attribs := v.attribs[index := Attrib(arrayBufferBinding, size, stride, offset)])];
      }
    }

    // ---- framebuffer objects ----

    /** glGenFramebuffers(1, &h). */
    method GenFramebuffer() returns (h: nat)
      requires Valid()
      modifies this`next, this`framebuffers
      ensures Valid()
      ensures h != 0 && h !in old(framebuffers) && framebuffers == old(framebuffers) + {h}
      ensures h !in attachments
    {
      h := next;
      next := next + 1;
      framebuffers := framebuffers + {h};
    }

    /** glDeleteFramebuffers(1, &h): a bound framebuffer falls back to the window. */
    method DeleteFramebuffer(h: nat)
      requires Valid() && h in framebuffers
      modifies this`framebuffers, this`attachments, this`framebufferBinding
      ensures Valid()
      ensures framebuffers == old(framebuffers) - {h} && attachments == old(attachments) - {h}
      ensures framebufferBinding == if old(framebufferBinding) == h then 0 else old(framebufferBinding)
    {
      framebuffers := framebuffers - {h};
      attachments := attachments - {h};
      if framebufferBinding == h {
        framebufferBinding := 0;
      }
    }

    /** glBindFramebuffer(GL_FRAMEBUFFER, h): a name that was never generated is refused. */
    method BindFramebuffer(h: nat)
      requires Valid()
      modifies this`framebufferBinding, this`error
      ensures Valid()
      ensures h == 0 || h in framebuffers ==> framebufferBinding == h && error == old(error)
      ensures !(h == 0 || h in framebuffers) ==>
        framebufferBinding == old(framebufferBinding) && error == Raised(old(error), InvalidOperation)
    {
      if h == 0 || h in framebuffers {
        framebufferBinding := h;
      } else {
        error := Raised(error, InvalidOperation);
      }
    }

    /**
     * glFramebufferTexture2D(GL_FRAMEBUFFER, GL_COLOR_ATTACHMENT0, target, tex, 0):
     * attaches one face of a cube map to the bound framebuffer object; 0 detaches.
     */
    method FramebufferTexture2D(target: nat, tex: nat)
      requires Valid()
      modifies this`attachments, this`error
      ensures Valid()
      ensures framebufferBinding == 0 ==> attachments == old(attachments) && error == Raised(old(error), InvalidOperation)
      ensures framebufferBinding != 0 && !IsCubeFace(target) ==>
        attachments == old(attachments) && error == Raised(old(error), InvalidEnum)
      ensures framebufferBinding != 0 && IsCubeFace(target) && tex != 0 && tex !in textures ==>
        attachments == old(attachments) && error == Raised(old(error), InvalidOperation)
      ensures framebufferBinding != 0 && IsCubeFace(target) && (tex == 0 || tex in textures) ==>
        error == old(error) &&
        attachments == old(attachments)[framebufferBinding := if tex == 0 then Detached else Attached(tex, FaceOf(target))]
    {
      if framebufferBinding == 0 {
        error := Raised(error, InvalidOperation);
      } else if !IsCubeFace(target) {
        error := Raised(error, InvalidEnum);
      } else if tex != 0 && tex !in textures {
        error := Raised(error, InvalidOperation);
      } else {
        attachments := attachments[framebufferBinding := if tex == 0 then Detached else Attached(tex, FaceOf(target))];
      }
    }

    /** glViewport(x, y, width, height). */
    method Viewport(x: int, y: int, width: int, height: int)
      modifies this`viewport, this`error
      ensures width < 0 || height < 0 ==> viewport == old(viewport) && error == Raised(old(error), InvalidValue)
      ensures 0 <= width && 0 <= height ==> viewport == Rect(x, y, width, height) && error == old(error)
    {
      if width < 0 || height < 0 {
        error := Raised(error, InvalidValue);
      } else {
        viewport := Rect(x, y, width, height);
      }
    }

    /** glClearBufferfv(GL_COLOR, 0, color): clears the current target; refused on an incomplete framebuffer. */
    method ClearColor(color: Vec4)
      modifies this`trace, this`error
      ensures CurrentTarget().Some? ==> trace == old(trace) + [Clear(CurrentTarget().value, color)] && error == old(error)
      ensures CurrentTarget().None? ==> trace == old(trace) && error == Raised(old(error), InvalidFramebufferOperation)
    {
      var t := CurrentTarget();
      if t.Some? {
        trace := trace + [Clear(t.value, color)];
      } else {
        error := Raised(error, InvalidFramebufferOperation);
      }
    }

    // ---- blending ----

    /** glBlendFunc(src, dst). */
    method BlendFunc(src: nat, dst: nat)
      modifies this`blendFunc, this`trace
      ensures blendFunc == (src, dst) && trace == old(trace) + [Event.BlendFunc(src, dst)]
    {
      blendFunc := (src, dst);
      trace := trace + [Event.BlendFunc(src, dst)];
    }

    /** glBlendEquationSeparate(rgb, alpha). */
    method BlendEquationSeparate(rgb: nat, alpha: nat)
      modifies this`blendEquation, this`trace
      ensures blendEquation == (rgb, alpha) && trace == old(trace) + [BlendEquation(rgb, alpha)]
    {
      blendEquation := (rgb, alpha);
      trace := trace + [BlendEquation(rgb, alpha)];
    }

    // ---- programs: the compiled-program capability (use, uniform setters, draw) ----

    /** Shader::use(). */
    method UseProgram(p: Program)
      modifies this`program
      ensures program == Some(p)
    {
      program := Some(p);
    }

    /** Shader::setMat4("projectionMatrix", m). */
    method SetProjection(p: Program, m: Matrix)
      modifies this`starUniforms, this`nebulaUniforms
      ensures p == StarsProgram ==> starUniforms == old(starUniforms).(projection := m) && nebulaUniforms == old(nebulaUniforms)
      ensures p == NebulaProgram ==> nebulaUniforms == old(nebulaUniforms).(projection := m) && starUniforms == old(starUniforms)
    {
      if p == StarsProgram {
        starUniforms := starUniforms.(projection := m);
      } else {
        nebulaUniforms := nebulaUniforms.(projection := m);
      }
    }

    /** Shader::setMat4("viewMatrix", m). */
    method SetView(p: Program, m: Matrix)
      modifies this`starUniforms, this`nebulaUniforms
      ensures p == StarsProgram ==> starUniforms == old(starUniforms).(view := m) && nebulaUniforms == old(nebulaUniforms)
      ensures p == NebulaProgram ==> nebulaUniforms == old(nebulaUniforms).(view := m) && starUniforms == old(starUniforms)
    {
      if p == StarsProgram {
        starUniforms := starUniforms.(view := m);
      } else {
        nebulaUniforms := nebulaUniforms.(view := m);
      }
    }

    /** Shader::setVec2("particleSize", {size, size}) on the star program. */
    method SetParticleSize(size: real)
      modifies this`starUniforms
      ensures starUniforms == old(starUniforms).(particleSize := size)
    {
      starUniforms := starUniforms.(particleSize := size);
    }

    /** Shader::setFloat("uScale", v) on the nebula program. */
    method SetScale(v: real)
      modifies this`nebulaUniforms
      ensures nebulaUniforms == old(nebulaUniforms).(scale := v)
    {
      nebulaUniforms := nebulaUniforms.(scale := v);
    }

    /** Shader::setFloat("uIntensity", v) on the nebula program. */
    method SetIntensity(v: real)
      modifies this`nebulaUniforms
      ensures nebulaUniforms == old(nebulaUniforms).(intensity := v)
    {
      nebulaUniforms := nebulaUniforms.(intensity := v);
    }

    /** Shader::setVec4("uColor", c) on the nebula program. */
    method SetColor(c: Vec4)
      modifies this`nebulaUniforms
      ensures nebulaUniforms == old(nebulaUniforms).(color := c)
    {
      nebulaUniforms := nebulaUniforms.(color := c);
    }

    /** Shader::setFloat("uFalloff", v) on the nebula program. */
    method SetFalloff(v: real)
      modifies this`nebulaUniforms
      ensures nebulaUniforms == old(nebulaUniforms).(falloff := v)
    {
      nebulaUniforms := nebulaUniforms.(falloff := v);
    }

    /** Shader::setVec3("uOffset", o) on the nebula program. */
    method SetOffset(o: Vec3)
      modifies this`nebulaUniforms
      ensures nebulaUniforms == old(nebulaUniforms).(offset := o)
    {
      nebulaUniforms := nebulaUniforms.(offset := o);
    }

    /**
     * Shader::drawArrays(primitive, count): draws with the program in use and
     * the bound vertex array into the current target.  Refused without a
     * program or a vertex array, and on an incomplete framebuffer.
     */
    method DrawArrays(primitive: nat, count: nat)
      modifies this`trace, this`error
      ensures program.None? || vertexArrayBinding == 0 ==>
        trace == old(trace) && error == Raised(old(error), InvalidOperation)
      ensures program.Some? && vertexArrayBinding != 0 && CurrentTarget().None? ==>
        trace == old(trace) && error == Raised(old(error), InvalidFramebufferOperation)
      ensures program.Some? && vertexArrayBinding != 0 && CurrentTarget().Some? ==>
        error == old(error) &&
        trace == old(trace) + [Draw(CurrentTarget().value, primitive, count, LayerOf(program.value), Vertices())]
    {
      if program.None? || vertexArrayBinding == 0 {
        error := Raised(error, InvalidOperation);
      } else {
        var t := CurrentTarget();
        if t.None? {
          error := Raised(error, InvalidFramebufferOperation);
        } else {
          trace := trace + [Draw(t.value, primitive, count, LayerOf(program.value), Vertices())];
        }
      }
    }
  }
}
