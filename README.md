# space-3d skybox generator: a Dafny model

This project models the procedural skybox of the space-3d OpenGL demo.
`Space3d::Skybox::generate(seed, width)` renders a star field and a random
number of nebula layers into the six faces of a fresh cube-map texture,
then builds its mipmaps. The model covers:

- the generation schedule itself;
- the face tables `CUBEMAP_ENUMS` and `CAPTURE_VIEWS`;
- the integer and schedule skeleton of the nebula fragment shader
  (`mod289`, `permute`, `fade`, `noise`, `nebula`, the clamp in `main`);
- the three move-only owners of GPU names: `Skybox::Result`, `Vbo` and
  `Vao`.

Modules:

- `Gl` is the OpenGL context the code talks to, as an abstract class.
  - Its state is what the code observes:
    - the sets of live texture, buffer, vertex-array and framebuffer names;
    - the bindings;
    - the cube-map images and sampling parameters;
    - the buffer contents and vertex-array attribute layouts;
    - the framebuffer attachments;
    - the blend state;
    - the current program's uniforms.
  - Each call is a method that raises the errors the code can reach:
    - `GL_INVALID_VALUE` for a negative size;
    - `GL_INVALID_FRAMEBUFFER_OPERATION` for a clear or draw into a face
      without storage;
    - `GL_INVALID_OPERATION` for mipmaps of a texture that is not cube
      complete.
  - Implementation limits, out-of-memory and enumerant validation are not
    modelled (see "## Left out").
  - A failing call leaves the state alone and raises the first pending error,
    as `glGetError` would report it.
  - A clear or draw that takes effect is appended to `trace` as an event.
  - Deleting a name that is not live is a precondition violation, so a double
    free is a verification error. GL itself ignores such a call; the
    precondition makes the model prove that the code never makes one.
  - The `Gl` methods stand for library calls. They are the collaborator, not
    part of the modelled program, and have no rows below.
- `Random` holds the engine seeded by `seed`. It is abstracted to the
  sequence of canonical draws in [0,1) that it produces, with a cursor.
  - `Random.Uniform` is `uniform_real_distribution`.
  - Every distribution call consumes exactly one draw.
- `SkyboxSchedule` has pure definitions of what `generate` does:
  - the face tables and the two star populations;
  - the star vertex layout;
  - where each star and each nebula pass reads the stream;
  - the nebula parameter maps;
  - the pass count (`PassCount`);
  - the complete event trace of a call (`GenerateTrace`).
  It also proves lemmas about the trace:
  - the six clears come first;
  - the blend is set once;
  - every draw targets the face its view belongs to;
  - the mipmaps are generated last.
- `Skybox` has the imperative model:
  - the class `Result`;
  - the methods that make up `generate`, each proved against the
    `SkyboxSchedule` definitions;
  - the class `Skybox`, whose `Generate` ensures that the trace is
    `GenerateTrace` and that the texture ends with storage and mipmaps;
  - every temporary object freed again.
- `NebulaShader` holds the GLSL helpers over the reals. The 6-step domain
  warp of `nebula` is a method with a loop, specified by a recursive
  function.
- `Vbo` and `Vao` hold the two owner classes.

Two places where the model follows the code:

- Pass length. Each nebula pass reads nine parameter draws and one
  termination draw, so a pass consumes ten draws (`DrawsPerPass`).
- Width. `generate` does not check `width`.
  - A negative width is refused by `glTexImage2D` and `glViewport` with
    `GL_INVALID_VALUE`.
  - A zero width gives a framebuffer without drawable storage. Every clear
    and draw is then refused with `GL_INVALID_FRAMEBUFFER_OPERATION`, and the
    mipmap build is refused too.
  - `Generate` states the resulting error flag for each case. It does not
    treat `width <= 0` as a rejected input.
  - A positive width is taken to be within the implementation's limits (see
    the `Skybox.Skybox.Generate` lines under "## Left out").

## Model

| member | source | states |
|---|---|---|
| Vbo.Vbo.constructor | src/Vbo.cpp:3-5 | a fresh nonzero buffer name is acquired; it was not live before, and the live set grows by exactly that name |
| Vbo.Vbo.Destroy | src/Vbo.cpp:7-11 | a nonzero name is deleted and its contents and bindings go with it; a zero name deletes nothing and changes nothing |
| Vbo.Vbo.BufferData | src/Vbo.cpp:13-16 | the owned buffer becomes the bound array buffer and its contents become the given bytes with the given size |
| Vbo.Vbo.Bind | src/Vbo.cpp:18-20 | only the array-buffer binding changes, and it becomes the owned name |
| Vbo.Vbo.Move | src/Vbo.cpp:22-24 | the new owner holds the source's former name and the source holds 0 |
| Vbo.Vbo.Swap | src/Vbo.cpp:26-28 | the two names are exchanged and nothing else changes |
| Vbo.Vbo.MoveAssign | src/Vbo.cpp:30-35 | self-assignment changes nothing; otherwise the names are swapped; no two owners end up holding the same nonzero name unless they did before |
| Vao.Vao.constructor | src/Vao.cpp:3-5 | a fresh nonzero vertex-array name is acquired and added to the live set |
| Vao.Vao.Destroy | src/Vao.cpp:7-11 | a nonzero name is deleted (with its layout and binding); a zero name changes nothing |
| Vao.Vao.Bind | src/Vao.cpp:13-15 | the vertex-array binding becomes the owned name |
| Vao.Vao.Move | src/Vao.cpp:17-19 | the handle is transferred and the source is left at 0 |
| Vao.Vao.Swap | src/Vao.cpp:21-23 | the two names are exchanged |
| Vao.Vao.MoveAssign | src/Vao.cpp:25-30 | self-assignment is a no-op, otherwise a swap; distinct ownership is preserved |
| Skybox.Result.constructor | src/Skybox.cpp:503-505 | a fresh nonzero texture name is acquired and its cube map starts empty |
| Skybox.Result.Destroy | src/Skybox.cpp:507-511 | a nonzero name is deleted, unbound when it was bound, and detached from the bound framebuffer when attached there, every other attachment staying as it was; a zero name leaves the GL state untouched |
| Skybox.Result.Bind | src/Skybox.cpp:513-516 | texture unit 0 is active and the owned name is its cube-map binding |
| Skybox.Result.SetStorage | src/Skybox.cpp:518-531 | the owned cube map gets the six width x width level-0 images, linear filtering and clamp-to-edge on S and T; a negative width raises GL_INVALID_VALUE and leaves the faces alone |
| Skybox.Result.AllocateFaces | src/Skybox.cpp:521-523 | faces +X..-Z, in order, receive the image; a negative width refuses every face |
| Skybox.Result.SetSampling | src/Skybox.cpp:525-530 | min and mag filters become LINEAR and wrapping on S and T becomes CLAMP_TO_EDGE, nothing else changes |
| Skybox.Result.GenerateMipmaps | src/Skybox.cpp:533-538 | a cube-complete texture gets its full mip chain and a GenerateMipmap event; otherwise GL_INVALID_OPERATION is raised; either way minification becomes LINEAR_MIPMAP_LINEAR |
| Skybox.Result.SetMipmapFiltering | src/Skybox.cpp:536-537 | minification becomes LINEAR_MIPMAP_LINEAR and magnification LINEAR |
| Skybox.Result.Release | src/Skybox.cpp:540-542 | the owner holds 0 and no GL call is made, so the name stays live |
| Skybox.Result.Swap | src/Skybox.cpp:548-550 | the two names are exchanged |
| Skybox.Result.Move | src/Skybox.cpp:544-546 | the new owner has the source's name and the source holds 0 |
| Skybox.Result.MoveAssign | src/Skybox.cpp:552-557 | self move-assignment is a no-op, otherwise a swap; distinct ownership is preserved |
| Skybox.StorageCovers | src/Skybox.cpp:518-531 | after setStorage a face can be drawn into exactly when the width is positive |
| Skybox.FacesUpToAt | src/Skybox.cpp:521-523 | after the first i iterations of the face loop, exactly faces 0..i-1 hold the new image |
| Skybox.Skybox.constructor | src/Skybox.cpp:559-568 | the mesh vertex array and buffer are fresh and bound, the buffer holds the 108 floats of the cube, and attribute 0 reads three floats per vertex |
| Skybox.CreateMeshObjects | src/Skybox.cpp:563-564 | two fresh names, a vertex array and a buffer, both bound |
| Skybox.UploadMesh | src/Skybox.cpp:565-567 | the buffer holds the cube's vertices and the bound vertex array reads them through attribute 0 |
| Skybox.Skybox.Generate | src/Skybox.cpp:573-710 | returns a fresh live texture with storage of the given width (with mipmaps when complete); the GL trace grows by exactly GenerateTrace; the error flag follows the sign of width; every other texture's cube map is unchanged; framebuffers, buffers and vertex arrays are as before and the default framebuffer is bound; the additive blend stays set; the result stays bound on texture unit 0, and the nebula program and the mesh vertex array stay in use; no array buffer stays bound, since the star buffer was deleted while bound; the viewport is left at (0, 0, width, width) (unchanged for a negative width) |
| Skybox.CreateResult | src/Skybox.cpp:577-578 | a fresh owner whose texture has the RGB8 storage of the given width |
| Skybox.BindTarget | src/Skybox.cpp:581-586 | a fresh framebuffer, bound, with nothing attached; the viewport becomes (0, 0, width, width), while a negative width raises GL_INVALID_VALUE and leaves the viewport as it was |
| Skybox.BeginRender | src/Skybox.cpp:577-586 | the texture and framebuffer are live and bound, and the faces are drawable exactly when width > 0; the viewport covers a whole face (unchanged for a negative width); nothing has been drawn yet |
| Skybox.FreshStorageDrawable | src/Skybox.cpp:578 | every face of the new texture is drawable exactly when width > 0 |
| Skybox.AttachFace | src/Skybox.cpp:591 | the framebuffer's colour attachment is face FaceOf(target) of the texture, and it becomes the draw target when the faces are drawable |
| Skybox.ClearFace | src/Skybox.cpp:590-593 | face i is attached and cleared to opaque black, or the clear is refused |
| Skybox.ClearFaces | src/Skybox.cpp:589-593 | the six clears in face order are recorded and face 5 is left attached |
| Skybox.ClearAndBlend | src/Skybox.cpp:589-597 | the clears are recorded (or the error is raised), then the additive blend is set whether or not the faces are drawable |
| Skybox.DrawOnFace | src/Skybox.cpp:671-672 | the face is attached and one draw of `count` vertices with the current program, uniforms and vertices is recorded |
| Skybox.StarFace | src/Skybox.cpp:669-672 | the star view becomes CAPTURE_VIEWS[i] and one draw of the population lands on face CUBEMAP_ENUMS[i] |
| Skybox.StarFaces | src/Skybox.cpp:668-673 | one draw of the population per face, in face order, is recorded |
| Skybox.MakeStars | src/Skybox.cpp:628-635 | the filled star array is StarsOf the stream at the cursor, and the cursor advances by 7 per star |
| Skybox.CreateStarObjects | src/Skybox.cpp:639-643 | a fresh vertex array and a fresh buffer, both bound, neither holding data |
| Skybox.SetAttrib | src/Skybox.cpp:647-657 | the bound vertex array's attribute gets the given layout and is enabled, reading the bound buffer |
| Skybox.SetStarAttribs | src/Skybox.cpp:646-657 | the bound vertex array gets the position, brightness and colour attributes of StarVertex over the bound buffer |
| Skybox.UploadStars | src/Skybox.cpp:639-657 | the new buffer holds the star floats and the new vertex array reads them; nothing else is added |
| Skybox.PreparePopulation | src/Skybox.cpp:623-657 | the uploaded floats are StarBuffer of the stream at the cursor, and the cursor advances by 7 draws per star |
| Skybox.UseStarProgram | src/Skybox.cpp:663-665 | the star program is in use with the capture projection and the population's particle size |
| Skybox.FreeStars | src/Skybox.cpp:639-674 | at the end of the loop body the population's buffer and vertex array are deleted again, restoring the objects as they were before |
| Skybox.RenderPopulation | src/Skybox.cpp:663-673 | the population's six draws are recorded, and no object changes |
| Skybox.ShowPopulation | src/Skybox.cpp:622-673 | population k is read from the stream at PopulationStart(k) and its six draws are recorded |
| Skybox.DrawPopulation | src/Skybox.cpp:622-674 | as ShowPopulation, and the temporary objects are gone again |
| Skybox.DrawStars | src/Skybox.cpp:607-674 | both populations are drawn in order, the cursor stops at NebulaStart = 140700, and buffers and vertex arrays are as before, with no array buffer bound |
| Skybox.SetPassParams | src/Skybox.cpp:683-688 | the nebula uniforms hold PassParamsAt of the nine draws at the cursor, and the cursor advances by nine |
| Skybox.NebulaFace | src/Skybox.cpp:691-694 | the nebula view becomes CAPTURE_VIEWS[i] and one draw of 36 vertices lands on face POSITIVE_X + i |
| Skybox.NebulaFaces | src/Skybox.cpp:690-695 | the six draws of a pass, in face order |
| Skybox.DrawPass | src/Skybox.cpp:683-695 | pass p draws with the parameters read at PassStart(p), and the recorded nebula draws grow from p passes to p + 1 |
| Skybox.NebulaPass | src/Skybox.cpp:683-699 | one loop iteration: the pass is drawn, the termination draw is read, and `stop` holds exactly when it is < 0.5, in which case p + 1 is the pass count |
| Skybox.UseNebulaProgram | src/Skybox.cpp:677-680 | the nebula program is in use with the capture projection, and the cube's vertices are bound |
| Skybox.NebulaLoop | src/Skybox.cpp:682-700 | the loop draws exactly PassCount passes and leaves the cursor at the start of the pass that would follow |
| Skybox.DrawNebulas | src/Skybox.cpp:676-700 | the nebula phase records NebulaDraws for PassCount passes and leaves the cursor after the last stopping draw |
| Skybox.DrawContent | src/Skybox.cpp:599-700 | the stars and then the nebulas are recorded; every temporary object is freed again |
| Skybox.PhasesCompose | src/Skybox.cpp:588-700 | clears, blend set-up and drawing compose to one trace; without drawable faces only the blend events appear and GL_INVALID_FRAMEBUFFER_OPERATION is raised |
| Skybox.Render | src/Skybox.cpp:588-700 | the trace grows by the clears, the blend events, the star phase and the nebula draws, or only by the blend events when the faces are not drawable |
| Skybox.ReleaseTarget | src/Skybox.cpp:702-704 | the temporary framebuffer is deleted along with its attachment, and framebuffer 0 is bound |
| Skybox.FinishRender | src/Skybox.cpp:702-707 | the framebuffer is gone, the default one is bound, and the mipmaps of the result are generated |
| Skybox.DrawAndFinish | src/Skybox.cpp:588-707 | the complete body after set-up: the trace is the clears, the blend events, the draws and one final GenerateMipmap, and no framebuffer or attachment is left behind; the viewport is untouched |
| SkyboxSchedule.CubemapEnumsAreOffsets | src/Skybox.cpp:475-495 | CUBEMAP_ENUMS[i] == GL_TEXTURE_CUBE_MAP_POSITIVE_X + i, so the star loop's table lookup and the nebula loop's offset name the same face; CAPTURE_VIEWS[i] is view i |
| SkyboxSchedule.StarRanges | src/Skybox.cpp:624-635 | for unit draws the three position draws of a star lie in [-1,1), its colour channels in [0.9,1) with alpha 1, and its brightness in [0.7,1) |
| SkyboxSchedule.VertexFloats | src/Skybox.cpp:497-501 | a star vertex is 8 floats: position, brightness, colour |
| SkyboxSchedule.StarsOf | src/Skybox.cpp:628-635 | n stars are read from n consecutive groups of 7 draws |
| SkyboxSchedule.Flatten | src/Skybox.cpp:644 | the buffer of a star array has 8 floats per star |
| SkyboxSchedule.FlattenAt | src/Skybox.cpp:644 | star i occupies floats 8i..8i+7 of the uploaded buffer |
| SkyboxSchedule.StarBuffer | src/Skybox.cpp:631-644 | the uploaded floats of a population have 8 floats per star |
| SkyboxSchedule.StarBufferAt | src/Skybox.cpp:631-644 | star i of the buffer is the star made from draws at + 7i .. at + 7i + 6 |
| SkyboxSchedule.StarBufferFloat | src/Skybox.cpp:631-644 | float c of star i in the buffer is component c of that star |
| SkyboxSchedule.StarAttribLayout | src/Skybox.cpp:646-660 | attributes 0, 1 and 2 read position, brightness and colour of star i at its stride and offsets |
| SkyboxSchedule.StarPhaseDraws | src/Skybox.cpp:607-635 | the stars consume 7 x (20000 + 100) = 140700 draws, and the second population starts at 140000 |
| SkyboxSchedule.PopulationFits | src/Skybox.cpp:622-635 | each population's draws end where the next one's begin, within the first 140700 draws |
| SkyboxSchedule.PassParamRanges | src/Skybox.cpp:683-688 | for unit draws scale is in [0.25,0.75), intensity in [0.9,1.1), falloff in [3,6), each colour channel in [0,1) with alpha 1, and each offset axis in [-1000,1000) |
| SkyboxSchedule.PassCount | src/Skybox.cpp:682-700 | a defined pass count from pass p is greater than p, and all its draws fit in the stream |
| SkyboxSchedule.PassCountExact | src/Skybox.cpp:682-700 | the pass count is n exactly when n > p, every pass before n - 1 reads a termination draw >= 0.5, and pass n - 1 reads one < 0.5: at least one pass, stopping at the first draw < 0.5 |
| SkyboxSchedule.Clears | src/Skybox.cpp:589-593 | six clear events |
| SkyboxSchedule.StarDraws | src/Skybox.cpp:668-673 | six draw events per population |
| SkyboxSchedule.PopulationDraws | src/Skybox.cpp:622-673 | six events for population k |
| SkyboxSchedule.StarPhase | src/Skybox.cpp:622-674 | six events per population |
| SkyboxSchedule.PassDraws | src/Skybox.cpp:690-695 | six events per nebula pass |
| SkyboxSchedule.NebulaDraws | src/Skybox.cpp:682-700 | six events per pass |
| SkyboxSchedule.NebulaDrawsAt | src/Skybox.cpp:682-695 | event 6p + i of the nebula phase is face i of pass p, drawn with the parameters read at PassStart(p) |
| SkyboxSchedule.NebulaDrawIsDraw | src/Skybox.cpp:690-695 | every event of the nebula phase is a draw |
| SkyboxSchedule.GenerateTraceSegments | src/Skybox.cpp:588-707 | the trace of a call with positive width is the clears, the two blend events, 12 star draws, 6n nebula draws and one GenerateMipmap |
| SkyboxSchedule.GenerateTraceAt | src/Skybox.cpp:588-707 | each position of the trace is the event its segment prescribes |
| SkyboxSchedule.ClearsFirst | src/Skybox.cpp:588-593 | the first six events clear faces 0..5 in order to black, and no later event is a clear |
| SkyboxSchedule.BlendSetOnce | src/Skybox.cpp:595-597 | events 6 and 7 set the additive blend and no other event sets it |
| SkyboxSchedule.MipmapsLast | src/Skybox.cpp:702-707 | the only GenerateMipmap event is the last one, after every draw |
| SkyboxSchedule.StarDrawSchedule | src/Skybox.cpp:607-673 | event 8 + 6k + i draws population k (sizes 20000 and 100) with as many points as it has stars, on face i with view i |
| SkyboxSchedule.NebulaDrawSchedule | src/Skybox.cpp:683-695 | the draw for face i of pass p is 36 triangle vertices on face i with view i and the parameters of pass p |
| SkyboxSchedule.NebulaDrawsMatched | src/Skybox.cpp:690-695 | every nebula draw targets the face of its own view |
| SkyboxSchedule.StarSegmentsMatched | src/Skybox.cpp:588-674 | every clear and star draw targets the face of its own view |
| SkyboxSchedule.PopulationDrawsMatched | src/Skybox.cpp:668-673 | every star draw of a population targets the face of its own view |
| SkyboxSchedule.DrawsMatchFaces | src/Skybox.cpp:588-707 | throughout generate, every draw lands on the face its view belongs to |
| Random.Stream.constructor | src/Skybox.cpp:574 | the engine's stream starts at its first draw |
| Random.Stream.Next | src/Skybox.cpp:683 | a distribution call returns the draw at the cursor and advances the cursor by one |
| Random.Uniform | src/Skybox.cpp:624-626 | uniform_real_distribution(lo, hi) maps a draw in [0,1) into [lo, hi), and the least draw to lo |
| NebulaShader.Mod289 | src/Skybox.cpp:123-126 | the result lies in [0,289) and differs from x by a multiple of 289 |
| NebulaShader.Mod289OfInt | src/Skybox.cpp:123-126 | on an integer, mod289 is the integer remainder modulo 289 |
| NebulaShader.Permute | src/Skybox.cpp:128-131 | the result lies in [0,289) |
| NebulaShader.PermuteOfInt | src/Skybox.cpp:128-131 | on an integer, permute is ((34x + 1)x) mod 289 computed on integers |
| NebulaShader.PermutePeriodic | src/Skybox.cpp:128-131 | the integer permute has period 289 and stays in [0,289) |
| NebulaShader.Fade | src/Skybox.cpp:138-140 | fade(0) = 0 and fade(1) = 1 |
| NebulaShader.FadeSymmetric | src/Skybox.cpp:138-140 | fade(1 - t) = 1 - fade(t) |
| NebulaShader.FadeNonnegative | src/Skybox.cpp:138-140 | fade is nonnegative for t >= 0 |
| NebulaShader.FadeRange | src/Skybox.cpp:138-140 | fade maps [0,1] into [0,1] |
| NebulaShader.NoiseRange | src/Skybox.cpp:412-414 | noise maps a cnoise value in [-1,1] to [0,1] |
| NebulaShader.ScaleSchedule | src/Skybox.cpp:416-428 | after k steps the warp scale is 2^(6-k): 64 at the start and 1 at the final sample |
| NebulaShader.WarpPoints | src/Skybox.cpp:420-427 | k warp steps sample three points each |
| NebulaShader.Nebula | src/Skybox.cpp:416-429 | the loop computes NebulaFrom for the given start of `displace`; it makes 3 x 6 + 1 = 19 noise samples, the last of which is the value |
| NebulaShader.WarpPointsAt | src/Skybox.cpp:420-427 | step k samples the three axis permutations of p, displaced by the displacement after k steps, at scale 2^(6-k) |
| NebulaShader.NebulaSchedule | src/Skybox.cpp:416-429 | 19 samples; step k's samples use the displacement of step k - 1; the final sample is p plus the last displacement |
| NebulaShader.NebulaRange | src/Skybox.cpp:412-429 | with cnoise in [-1,1], nebula lies in [0,1] |
| NebulaShader.NebulaZeroed | src/Skybox.cpp:416-429 | the corrected nebula with `displace` starting at zero: its value is NebulaValue, and its first samples are p, p.yzx and p.zxy scaled by 64 |
| NebulaShader.UndefinedDisplaceShiftsSamples | src/Skybox.cpp:419-422 | a nonzero initial `displace` moves the first noise sample away from 64p, whatever the noise |
| NebulaShader.UndefinedDisplaceChangesValue | src/Skybox.cpp:419-428 | for a stand-in kernel bounded by 1 in magnitude (the range cnoise's 2.2 factor aims at but does not guarantee), evaluated at the origin, nebula is 0 with `displace` zero and 1 with it starting at (1,0,0) |
| NebulaShader.AlphaBase | src/Skybox.cpp:433 | min(1, n * intensity) is at most 1 and equals the product when that is at most 1 |
| NebulaShader.AlphaBaseRange | src/Skybox.cpp:433 | with n in [0,1] and a nonnegative intensity the value lies in [0,1] |

## Left out

- The shader objects and their compilation. The `Shader` class is not part
  of this model. The two programs are values of `Gl.Program`, and
  `setMat4`, `setVec2`, `setFloat`, `setVec3` and `setVec4` are setters of
  modelled uniforms.
- Rasterisation and blending arithmetic are left out, because they are GPU
  behaviour. This covers the geometry-shader billboards, the star sprite
  falloff and the nebula colour. A draw is recorded as an event carrying
  the program, the uniforms, the face, the primitive and the vertex floats
  it reads, not as pixels.
- `glDrawBuffers` (src/Skybox.cpp:584-585) is left out. The modelled
  framebuffer has only colour attachment 0, which is the buffer selected
  there.
- `CAPTURE_PROJECTION` and `CAPTURE_VIEWS` are opaque matrices (`CaptureProjection`, `CaptureView(i)`):
  glm's `perspective` and `lookAt` are library math.
- Skybox.MakeStars: a star's position is its three raw draws in [-1,1). The
  code's `normalize(...) * 100` (glm vector math, including the zero-vector
  case) is not applied, so the model does not say that a stored position lies
  on the sphere of radius 100.
- SkyboxSchedule.StarAt: builds the position from the raw draws, without
  `normalize(...) * 100`. StarsOf, StarBuffer and the star draw events
  (StarDraws, PopulationDraws, StarPhase, GenerateTrace) therefore carry the
  raw draws as the position.
- SkyboxSchedule.StarRanges: bounds the three raw position draws in [-1,1).
  It does not bound the stored position, which the code scales to length 100.
- The engine `std::mt19937_64` and the sampling inside
  `std::uniform_real_distribution<float>` are left out. The stream is the
  sequence of draws the engine yields for the seed, given to `Generate`
  as `draws` in place of `seed`.
- Random.Uniform: float rounding is not modelled. Every value is a real, so
  `lo + (hi - lo) * u` stays below `hi`.
- Skybox.Skybox.Generate: requires the stream to contain a stopping draw
  (`PassCount(draws, 0).Some?`). Without one the source's `while (true)`
  loop would not end, and a terminating method cannot model that.
- Skybox.Skybox.Generate: implementation limits are not modelled. These are
  `GL_MAX_CUBE_MAP_TEXTURE_SIZE` and `GL_MAX_VIEWPORT_DIMS`, above which GL
  raises `GL_INVALID_VALUE` and leaves the faces without storage.
  `GL_OUT_OF_MEMORY` is not modelled either. The promise "width > 0 gives
  full storage, the complete trace and no new error" therefore holds only
  for a width the implementation accepts and memory it can allocate.
- Skybox.Skybox.Generate: the `Gl` calls do not validate enumerants
  (internal format, format, pixel type). The code passes only the fixed
  valid values `GL_RGB8`, `GL_RGB` and `GL_UNSIGNED_BYTE`.
- The body of `cnoise` (src/Skybox.cpp:143-275) is left out. It is
  floating-point gradient noise, so `NebulaShader` takes it as a function
  parameter. `pnoise` (278-410) is never called and `taylorInvSqrt` feeds
  only `cnoise`, so both are left out too.
- Floating-point widths are not modelled. GLSL `float` and C++ `float` are
  reals throughout.
- The main of the nebula fragment shader is left out apart from the clamp
  `min(1.0, ...)` (`AlphaBase`), because the rest is colour arithmetic.
- The `Skybox` destructor is left out. Its members' destructors free the
  mesh objects at the end of the program, which is not part of `generate`.
- Result's deleted copy operations and `get()` are left out. The first are
  compile-time rules. `get()` is the field `ref`.
- src/Window.cpp and src/Window.hpp are not part of this model. They hold
  the window, the event loop and the seeding from `std::random_device`.

## Findings

| source | as written | input that shows it | evidently intended | confidence | as-written member | corrected member |
|---|---|---|---|---|---|---|
| src/Skybox.cpp:419 | `vec3 displace;` is declared without a value and then read in the first warp step (`p.xyz + displace`), so the first samples depend on an undefined register value | any initial `displace` other than zero, e.g. (1,0,0): the first sample is no longer 64p, and with a kernel bounded by 1 in magnitude (the range cnoise's 2.2 factor aims at), at the origin, the result is 1 instead of 0 | `displace` starts at vec3(0), so the first step samples the undisplaced point | not executed | NebulaShader.UndefinedDisplaceChangesValue | NebulaShader.NebulaZeroed |
