# sphere-generator texture and geometry core, in Dafny

sphere-generator is a Blockbench plugin. It builds a sphere out of boxes and
textures the boxes with views of a sphere map. The map is either one
equirectangular panorama or six cube-face images. This project models the
parts of the plugin that decide what is drawn, uploaded, named and built, and
it proves what those parts promise.

- **WebGL texture pipeline** (`src/texture/*`):
  - The loader that `mapping` selects fills a cubemap.
  - The cube loader paints six faces, one after another on one canvas, each
    turned by quarter turns, and uploads the canvas after each face.
  - The panorama loader renders the six faces through a framebuffer.
  - Six orthographic hemisphere views are then rendered and named after the
    six sides.
- **three.js texture pipeline** (`src/texture.ts`): the source-selection rule,
  the face/angle table and one capture per face.
- **Voxelizer** (`src/geometry.ts`): a Fibonacci-sphere sampler filtered to the
  octant x > 0, z > 0, one box per kept sample, and the UV rule.
- **The first version** (`old/old-generator.js`): its UV rule, its boxes, its
  grid sampler, its cube-face upload table, and the face-to-ray table and
  quaternion rotation in its shader strings.

How the model is organised:

- **One module per source file.** Modules `Common`, `Cubemap`, `Equirectangular`,
  `Orthographic`, `TextureIndex`, `ThreeTexture`, `Geometry` and `OldGenerator`
  follow the source files. `Wrappers`, `Vectors`, `Canvas2D` and `WebGL` model
  the libraries those files call.
- **The WebGL context** is the class `WebGL.Gl`. It holds:
  - a log of every call;
  - the bound framebuffer;
  - the live textures and framebuffers;
  - the program in use and each program's uniforms;
  - what the canvas shows.

  What the driver answers is fixed when the context is made. This covers which
  create calls return null and which shader sources fail to compile.
- **Runs.** Each stretch of GL work is specified by a `Run` function. The
  function gives the result, the commands appended to the log, and the next
  create call. Each method's `ensures` ties it to its `Run`. The lemmas about
  the `Run` functions state the pipeline's properties: pass counts,
  face-to-uniform pairing, the order of the views, the filters, the cleanup and
  the error exits.
- **The 2-D canvas** is the class `Canvas2D.Canvas`. It holds:
  - a transformation made of quarter turns and a translation;
  - a save stack;
  - a grid of pixels, painted pixel by pixel: a pixel takes a paint when its
    centre lies in the rectangle. Solid fills and opaque images replace what
    the pixel held; any other image is composited source-over onto it.
- **Angles** that are multiples of pi/2 are whole numbers of quarter turns.
- **Numbers** from JavaScript are `real`.

## Model

| member | source | states |
|---|---|---|
| Common.SidesAreTheSixDirections | src/texture/common.ts:9-16 | SIDES has six pairwise distinct entries and every direction is among them |
| Common.WithSide | src/texture/equirectangular.ts:15-17 | `opts[side] = src` sets that side's source and changes no other side and no other option |
| Common.LoadImg | src/texture/common.ts:75-87 | a missing or empty source resolves to no image and never fails; otherwise the load succeeds iff the source decodes, yielding that image, and fails with the message naming the source |
| Common.ShaderRun | src/texture/common.ts:32-41 | the shader is made iff its create call returns an object and its source compiles; it is then the object of that call |
| Common.ProgramRunSucceedsIff | src/texture/common.ts:43-53 | a program comes out iff the program and both shader objects are created and both sources compile, and it is the program object |
| Common.ProgramRunAbortsBeforeLink | src/texture/common.ts:47-51 | on any failure no shader is attached and nothing is linked |
| Common.ProgramRunOrder | src/texture/common.ts:43-53 | the vertex shader is created before the fragment shader; a successful run ends by attaching both and linking |
| Common.CreateShader | src/texture/common.ts:32-41 | the method's result and log follow ShaderRun, including the info-log-or-default error message |
| Common.CreateProgram | src/texture/common.ts:43-53 | the method's result and log follow ProgramRun |
| Common.QuadCorners | src/texture/common.ts:58 | the quad is 8 floats, each 1 or -1, forming (-1,-1), (-1,1), (1,-1), (1,1) |
| Common.UseProgram | src/texture/common.ts:55-65 | the program becomes current and the quad is bound and fed to the 2-float position attribute |
| Common.DefaultTexSettings | src/texture/common.ts:67-73 | four parameters on the target: MAG and MIN filters equal, LINEAR iff smoothing; both wrap modes CLAMP_TO_EDGE |
| Common.DefaultTex | src/texture/common.ts:67-73 | the method appends exactly those four parameter calls |
| Canvas2D.AboutCentreOnPixels | src/texture/cubemap.ts:55-63 | a quarter-turn rotation about the centre maps the w x w square's pixel centres onto pixel centres of the same square |
| Cubemap.AboutCentreFixesCentre | src/texture/cubemap.ts:55-63 | translate-rotate-translate back is a rotation about the centre: the centre is fixed |
| Cubemap.FaceContentCoversGrid | src/texture/cubemap.ts:38-42 | the placeholder or an opaque image covers the whole canvas, so the face does not depend on what the canvas held |
| Cubemap.CanvasAfterCovered | src/texture/cubemap.ts:18-53 | on the shared canvas, once face i is painted the canvas is face i alone when it is the placeholder or an opaque image, whatever the earlier faces left |
| Cubemap.PlaceholderPattern | src/texture/cubemap.ts:65-71 | on an even-sided canvas the placeholder is magenta exactly where (x < w/2) = (y < w/2), and an odd number of quarter turns swaps the diagonals |
| Cubemap.ImageFillsFace | src/texture/cubemap.ts:38-39 | a face drawn from an image shows, at every pixel, the point of the image the turn carries there, inside the square: that texel for an opaque image, otherwise that texel composited onto what the pixel held |
| Cubemap.ImageFaceIsNotPlaceholder | src/texture/cubemap.ts:38-42 | a face drawn from an image, opaque or not and over whatever the canvas held, is never the placeholder, whatever the turns |
| Cubemap.CubeSources | src/texture/cubemap.ts:15 | six sources, source i being `opts[SIDES[i]]` |
| Cubemap.LoadAll | src/texture/cubemap.ts:14-16 | all six load iff each does, giving each `loadImg` result in order; a failure is the failure of one of the sources |
| Cubemap.CubeRunUploadsSixFaces | src/texture/cubemap.ts:4-19 | a successful load uploads exactly six canvases, upload i to target POSITIVE_X + i, each textureLength square, after the six set-up calls, and draws nothing |
| Cubemap.CubeRunDrawsNothing | src/texture/cubemap.ts:4-19 | the cube loader never draws |
| Cubemap.CubeRunLoadFailureUploadsNothing | src/texture/cubemap.ts:14-18 | if any source fails to load, the loader fails and nothing is uploaded: no placeholder replaces a failed image |
| Cubemap.CubeRunPlaceholderExactlyForAbsent | src/texture/cubemap.ts:18-42 | after a successful load face i is the placeholder iff its source is absent; otherwise it is its image, turned, painted over the canvas the previous faces left, and exactly the turned image when the image is opaque |
| Cubemap.RotateFace | src/texture/cubemap.ts:55-63 | the transformation becomes translate(w/2), rotate(k quarter turns), translate(-w/2) applied to the old one |
| Cubemap.DrawMissingTexture | src/texture/cubemap.ts:65-71 | the canvas holds the black square with the two magenta quarters painted over it |
| Cubemap.RenderFace | src/texture/cubemap.ts:21-53 | without a 2-D context it fails with its message, uploads nothing and leaves the canvas; otherwise it paints face index, turned by FaceTurns[index], over what the canvas holds, uploads that canvas to POSITIVE_X + index, and restores the untransformed canvas state while the paint stays |
| Cubemap.RenderFaces | src/texture/cubemap.ts:18 | on a fresh canvas the six faces are uploaded in order, upload i being the canvas with faces 0 to i painted on it, or the 2-D context failure is returned before any upload |
| Cubemap.StartCube | src/texture/cubemap.ts:4-16 | up to the `await`: the cubemap is created, bound and given its four parameters, and a fresh blank canvas of textureLength and the six loads of the side sources are held |
| Cubemap.FinishCube | src/texture/cubemap.ts:14-18 | after the `await`: result and log follow FinishRun, a failed load rejecting with its error and otherwise the six faces being rendered |
| Cubemap.LoadCube | src/texture/cubemap.ts:4-19 | awaited to the end, the method's result and log follow CubeRun |
| Equirectangular.ClearedSides | src/texture/equirectangular.ts:15-17 | after clearing k sides, the first k sides are undefined and every other side and option is unchanged |
| Equirectangular.TextureRun | src/texture/equirectangular.ts:35-43 | the panorama texture is made iff its create call succeeds, and it is the object of that call |
| Equirectangular.EmptyFaces | src/texture/equirectangular.ts:54-66 | six empty textureLength square faces, face i at POSITIVE_X + i |
| Equirectangular.CubeMapRun | src/texture/equirectangular.ts:45-68 | the cubemap is made iff its create call succeeds, and it is the object of that call |
| Equirectangular.PassesShape | src/texture/equirectangular.ts:78-88 | pass i attaches face i, then sets `face` to i, then draws |
| Equirectangular.PassesDraws | src/texture/equirectangular.ts:78-88 | k passes draw exactly k times |
| Equirectangular.FramebufferRun | src/texture/equirectangular.ts:70-90 | the framebuffer step never fails and yields the object of its create call, null or not |
| Equirectangular.ErpRunSucceedsIff | src/texture/equirectangular.ts:7-33 | with a panorama the loader succeeds iff the program, the panorama texture and the cubemap are all created; without one it succeeds; a failed load fails at once with no command issued |
| Equirectangular.ConvertRunShape | src/texture/equirectangular.ts:22-32 | a successful conversion is draw-free set-up, the six passes into the cubemap, then unbinding and deleting the framebuffer and the panorama texture |
| Equirectangular.ErpRunRendersEveryFace | src/texture/equirectangular.ts:70-90 | a successful conversion draws exactly six times, once into each face i right after attaching it and setting `face` to i |
| Equirectangular.ErpRunFailureDrawsNothing | src/texture/equirectangular.ts:22-27 | a failing run draws nothing |
| Equirectangular.ErpRunFlipsBeforeUpload | src/texture/equirectangular.ts:24-25 | UNPACK_FLIP_Y is set before the panorama is uploaded |
| Equirectangular.ErpRunCleansUp | src/texture/equirectangular.ts:29-32 | a successful conversion ends by unbinding the framebuffer and deleting the framebuffer and the panorama texture it created |
| Equirectangular.FallbackAllPlaceholders | src/texture/equirectangular.ts:14-18 | without a panorama the queued part of the cube loader uploads the placeholder, turned, to all six faces, whatever the side sources held, or fails with nothing uploaded when there is no 2-D context |
| Equirectangular.FallbackBuildsNoProgram | src/texture/equirectangular.ts:13-20 | without a panorama the loader succeeds; no shader, program or framebuffer is created, uploads are not flipped, the only object created is the cubemap, and nothing is uploaded before the loader returns |
| Equirectangular.ConvertLeavesNothingQueued | src/texture/equirectangular.ts:13-33 | with a panorama, or when loading it fails, nothing is left queued |
| Equirectangular.CreateEquirectangular2dTexture | src/texture/equirectangular.ts:35-43 | result and log follow TextureRun; the texture joins the live textures |
| Equirectangular.CreateCubeMap | src/texture/equirectangular.ts:45-68 | result and log follow CubeMapRun; the cubemap joins the live textures |
| Equirectangular.CreateFrameBuffer | src/texture/equirectangular.ts:70-90 | log follows FramebufferRun; the new framebuffer stays bound |
| Equirectangular.Fallback | src/texture/equirectangular.ts:14-19 | the options become ClearedSides(opts, 6), the cube loader runs up to its `await`, and what it holds there is returned: a fresh blank canvas and the loads of the cleared sources |
| Equirectangular.RenderAndCleanUp | src/texture/equirectangular.ts:27-32 | afterwards no framebuffer is bound or live, and the panorama texture is gone |
| Equirectangular.Build | src/texture/equirectangular.ts:23-32 | result and log follow BuildRun; on success only the cubemap is left among the new objects |
| Equirectangular.Convert | src/texture/equirectangular.ts:22-32 | result and log follow ConvertRun; on success the cubemap is the one new live texture |
| Equirectangular.LoadEquirectangular | src/texture/equirectangular.ts:7-33 | result and log follow ErpRun; the options are cleared exactly in the no-panorama case, and exactly then the cube loader is returned pending; a successful conversion leaves only the cubemap live and no framebuffer bound |
| Orthographic.HemisphereRunViews | src/texture/orthographic.ts:26-37 | six views in render order: (0, i quarter turns) for i < 4, then (pi/2, pi) and (-pi/2, pi), all with the same rotation and program |
| Orthographic.HemisphereRunShape | src/texture/orthographic.ts:23-29 | a successful run is 15 set-up commands without a draw or uniform, the rotation, and the six renders |
| Orthographic.HemisphereRunOrder | src/texture/orthographic.ts:13-37 | the rotation is set exactly once, before any draw; each view then sets its angle, draws and captures, in that order |
| Orthographic.RendersDraws | src/texture/orthographic.ts:32-37 | k renders draw exactly k times |
| Orthographic.HemisphereRunDraws | src/texture/orthographic.ts:18-39 | a successful run draws exactly six times; a failed one never draws |
| Orthographic.HemisphereRunOnCanvas | src/texture/orthographic.ts:13-15 | when drawing to the canvas the captures do not depend on what it showed before |
| Orthographic.RenderHemisphere | src/texture/orthographic.ts:6-16 | sets the angle uniform, draws, captures the canvas, and the program's uniforms gain that angle |
| Orthographic.RenderView | src/texture/orthographic.ts:33-37 | view k captures View k of the program |
| Orthographic.RenderViews | src/texture/orthographic.ts:32-38 | the log gains the six renders and the output is the six views in order |
| Orthographic.SetRotation | src/texture/orthographic.ts:24-29 | the program is current and holds only the rotation uniform |
| Orthographic.RenderOrthogonalHemispheres | src/texture/orthographic.ts:18-39 | result and log follow HemisphereRun |
| TextureIndex.GenerateRunNeedsWebGL | src/texture/common.ts:22-23 | without a WebGL context nothing is issued and the call fails with 'WebGL failed to load' |
| TextureIndex.GenerateRunOutputs | src/texture/index.ts:13-18 | a successful run yields six textures; texture i is named and identified by SIDES[i] and holds hemisphere view i with the requested rotation |
| TextureIndex.GenerateRunDraws | src/texture/index.ts:9-13 | a failed load returns its error before any draw; otherwise the conversion's six draws (panorama case) come before the hemispheres' six, and the work the loader left queued does not draw |
| TextureIndex.GenerateRunFallbackUploadsLast | src/texture/index.ts:9-13 | without a panorama the six placeholder uploads are the last commands, right after the last capture, and nothing is uploaded before them: every view is captured before the cubemap receives a face |
| TextureIndex.GenerateTextures | src/texture/index.ts:7-19 | result and commands follow GenerateRun: the loader, then the hemispheres, then whatever the loader left queued |
| TextureIndex.Load | src/texture/index.ts:9-12 | 'equirectangular' runs the panorama loader and 'cube' the cube loader; on success no framebuffer is bound; a cube loader left pending is returned with a blank canvas, and its queued commands are LoaderDeferred |
| ThreeTexture.FacesTable | src/texture.ts:35-42 | six entries in SIDES order with the hemisphere renderer's angles; the first four are (0, i) |
| ThreeTexture.CubeUrls | src/texture.ts:103-107 | six URLs in SIDES order; URL i is the side's own source iff it is truthy and mapping is 'cube', otherwise the placeholder |
| ThreeTexture.PanoramaWithoutImageIsAllMissing | src/texture.ts:104-106 | in panorama mode the cube path gets six placeholders |
| ThreeTexture.CubeModeKeepsSetSources | src/texture.ts:104-106 | in cube mode a side keeps its source exactly when it is set |
| ThreeTexture.LoadUrls | src/texture.ts:103-107 | succeeds iff every URL decodes, with the images in order; otherwise fails naming a URL that does not |
| ThreeTexture.LoadTexture | src/texture.ts:79-109 | the panorama is used iff mapping is 'equirectangular' with a truthy source that decodes, at textureLength; otherwise six face images |
| ThreeTexture.LoadTextureSources | src/texture.ts:93-108 | the panorama path fails only on the panorama; the cube path succeeds iff the six URLs decode, face i being URL i's image |
| ThreeTexture.PlaneMaterial.constructor | src/texture.ts:56-66 | the material holds the texture, filter and rotation, with a zero angle |
| ThreeTexture.GenerateTextures | src/texture.ts:44-77 | fails iff loading fails, with its error; otherwise six textures in SIDES order, each rendered at its face's angle with the rotation, linear magnification iff smoothing |
| Geometry.MapUV | src/geometry.ts:7-11 | four UVs with u0 + u2 = 16 and v0 + v2 = 16 |
| Geometry.MapUVOppositeFaces | src/geometry.ts:7-11 | opposite faces receive identical UVs |
| Geometry.MapUVInTexture | src/geometry.ts:7-11 | for a point of the unit cube, every UV of the point scaled by 8 lies in [0, 16] |
| Geometry.SampleCount | src/geometry.ts:63 | no index is visited iff points <= 0, otherwise 4 points |
| Geometry.AcosArgumentInDomain | src/geometry.ts:66-68 | the `acos` argument 1 - i/n lies in (0, 1] for every visited i |
| Geometry.OctantSamples | src/geometry.ts:66-73 | at most k samples are kept, all with x > 0 and z > 0 |
| Geometry.OctantSamplesMembers | src/geometry.ts:61-75 | a point is kept iff it is one of the visited samples and lies in the octant |
| Geometry.OctantSamplesExtend | src/geometry.ts:66-73 | one more index appends its sample exactly when it is in the octant, preserving visiting order |
| Geometry.SubdivideOctant | src/geometry.ts:61-75 | the loop's result is the octant samples of indices 0 .. 4 points - 1 in order, at most 4 points of them, empty when points <= 0 |
| Geometry.CubeAtSpansPoint | src/geometry.ts:29-37 | to + from = 2 origin and to - from = p (x) size |
| Geometry.CubeAtFaces | src/geometry.ts:43-48 | face i gets texture i and UVs from 8 p summing to 16, inside [0, 16] for a point of the unit cube |
| Geometry.BuildCube | src/geometry.ts:31-50 | the box's corners come from the unscaled point, and the point is then scaled by 8 in place and used for the UVs |
| Geometry.BuildElements | src/geometry.ts:29-50 | one box per kept sample, in sample order, box i being CubeAt of sample i |
| OldGenerator.OldSidesSwapsWestAndSouth | old/old-generator.js:4 | the old side order swaps west and south and agrees elsewhere |
| OldGenerator.GetUV | old/old-generator.js:953-957 | the old UV rule is the current one, with u0 + u2 = v0 + v2 = 16 |
| OldGenerator.OldCubeAtMatchesCurrent | old/old-generator.js:958-991 | the old box has the current corners (to + from = 2 center) and face k carries sides[k] |
| OldGenerator.OldBuildCube | old/old-generator.js:958-991 | the point is scaled by 8 only after both corners are computed, and the box is OldCubeAt of the unscaled point |
| OldGenerator.Rotate | old/old-generator.js:1001 | `unshift(pop())` moves the last entry to the front |
| OldGenerator.RotationsCycle | old/old-generator.js:998-1001 | faces 0, 1, 2 hold the constant 1 in x, y, z respectively, and three rotations restore the template |
| OldGenerator.CornerOnCubeFace | old/old-generator.js:998-1009 | every grid corner of face f has coordinate f equal to 1 and the other two in [0, 1] |
| OldGenerator.GridSize | old/old-generator.js:1000-1013 | f faces of an n x n grid give f n^2 points |
| OldGenerator.GridMembers | old/old-generator.js:1000-1013 | every point is the midpoint of the normalized corners of one grid cell of one face |
| OldGenerator.PointsOfSubdividedOctant | old/old-generator.js:996-1015 | the nested loops, with the template rotated before each face, return Grid of the three faces (3 n^2 points) |
| OldGenerator.FaceRayFixesOneAxis | old/old-generator.js:72-77 | faces 0/1 fix y = 1/-1, faces 2/3 fix x, faces 4/5 fix z; the other components are u and v up to sign |
| OldGenerator.FaceRayInjective | old/old-generator.js:72-77 | each face's map from (u, v) is one-to-one |
| OldGenerator.FaceRayOnCube | old/old-generator.js:72-77 | for u, v in [-1, 1] the largest absolute component is exactly 1 |
| OldGenerator.ColourDefinedInsideDisc | old/old-generator.js:130-131 | the fragment colour is defined iff u^2 + v^2 <= 1; outside the disc the shader returns before assigning it, leaving it undefined, and does not discard the fragment |
| OldGenerator.RotateByIdentity | old/old-generator.js:138 | with no vector part the formula returns the direction unchanged |
| OldGenerator.RotateIsAlternativeConjugated | old/old-generator.js:138-139 | the formula in use equals the commented-out one applied with q.xyz negated |
| OldGenerator.RotateByUnitQuatPreservesLength | old/old-generator.js:138 | for a unit quaternion the formula preserves length |
| OldGenerator.OldUploadsAreCurrentUploads | old/old-generator.js:287-338 | the old six uploads use the same quarter-turn table and targets as the current cube loader |
| OldGenerator.NoImagesAllPlaceholders | old/old-generator.js:263-284 | without images every upload is the placeholder in its turned pattern |
| OldGenerator.TextureMap.constructor | old/old-generator.js:33-41 | the map holds its context, face length and smoothing flag |
| OldGenerator.TextureMap.SetTexParameters | old/old-generator.js:188-195 | the same four parameter calls as the current defaultTex |
| OldGenerator.TextureMap.PaintRotated | old/old-generator.js:263-284 | restoring and saving first, then turning about the centre, the face is painted, turned, over what the canvas holds |
| OldGenerator.TextureMap.Upload | old/old-generator.js:291-298 | paints face i with its turns over the canvas and uploads the canvas to POSITIVE_X + i |
| OldGenerator.TextureMap.UploadAll | old/old-generator.js:291-338 | on a fresh canvas, the six uploads in target order, upload i being the canvas with faces 0 to i painted on it |
| OldGenerator.TextureMap.LoadFromFaces | old/old-generator.js:258-339 | creates and binds the cubemap, sets its parameters, then uploads north, south, west, east, up, down to POSITIVE_X .. NEGATIVE_Z |

## Left out

- **Numerics.** Transcendental and floating-point maths are not modelled. Each
  such function is a parameter:
  - `Math.acos`, the golden-angle theta and `setFromSphericalCoords`
    (`Geometry.Maths`);
  - three.js `normalize` (`OldGenerator.PointsOfSubdividedOctant`);
  - the Euler-to-quaternion conversion (`toQuat`).

  The GLSL reprojection (`asin`, `atan`, `cos`, `sin`) is not modelled, and
  neither is the `length(texCoord)` the fragment test uses (rho is given).
  JavaScript doubles are `real`, so rounding is not modelled.
- **Sign of y.** The y-sign of the Fibonacci samples (y = 1 - i/n under
  three.js's convention) depends on that library and is not stated.
- **Pixels.** Shader output is not modelled. A draw to the canvas is captured
  as the program and its uniform values (`Frame`), and a `toDataURL` data URL
  is that captured frame. Canvas painting is pixel-centre sampling, with no
  anti-aliasing or image scaling filters.
- **Colours.** A pixel's colour is a term: a solid colour, a texel of an
  opaque image, or a texel of any other image composited over the colour
  beneath (`Canvas2D.Over`). An image records only whether all its texels are
  opaque; alpha values and the blending arithmetic are not modelled. Terms are
  compared as terms, so two different terms may still look the same (a fully
  transparent texel over black looks black).
- Cubemap.FaceContentCoversGrid: holds for the placeholder and opaque images
  only; over a translucent image the previous faces show through, as
  `Cubemap.ImageFillsFace` states.
- Cubemap.ImageFaceIsNotPlaceholder: compares colour terms, so a fully
  transparent image drawn over a placeholder is a different face though it
  looks the same.
- Cubemap.CubeRunPlaceholderExactlyForAbsent: compares colour terms as above;
  for a translucent image it states the face as that image painted over the
  previous faces, not how the result looks.
- **WebGL calls left out.** These calls are not logged:
  - `getUniformLocation` and `getAttribLocation`, since the locations are
    assumed to resolve;
  - `createBuffer` in `useProgram`;
  - `viewport`.
- **Canvas size.** `createContext` sizes its canvas with the ambient global
  `length` rather than `opts.textureLength`. That is host state, so the model
  does not give the WebGL canvas a size.
- **Async order.** In the panorama loader's fallback `loadCube` is not awaited
  (src/texture/equirectangular.ts:18). The model follows the JavaScript job
  order: `loadCube` runs up to its `await` inside the loader; the rest of it
  runs after `generateTextures` has rendered and captured all six views, so
  the outputs are rendered from a cubemap that has no faces yet
  (`TextureIndex.GenerateRunFallbackUploadsLast`). Its failure reaches no one.
  Captured frames do not record texture contents, so that consequence is
  stated through the command order only. Work of other tasks that could run
  in between is not modelled.
- **`Promise.all` failure.** It rejects with the first failure in time.
  `Cubemap.LoadAll` and `ThreeTexture.LoadUrls` report the first in source
  order, and their contracts state only that the error comes from one of the
  failing sources.
- **No cleanup on failure.** A throw in the panorama loader leaves the textures
  created before it alive. The model keeps that, and states no release on
  failure.
- **Option keys.** The WebGL panorama loader reads `opts.texture`; the three.js
  loader reads `opts.equirectangular`. Both keys are kept as separate fields.
- **three.js library.** `WebGLRenderer`, `WebGLCubeRenderTarget.fromEquirectangularTexture`
  and the texture loaders are not modelled. A loaded cube texture is a value
  (`ThreeTexture.CubeTexture`), and a loader rejection is identified by the URL
  that failed. `renderer.render` followed by `toDataURL` is
  `ThreeTexture.PlaneMaterial.Render`, whose `Capture` is the material's state
  at that moment and nothing more.
- **Host collaborators.** `Undo`, `Group`, `Cube`, `Face`, `Texture.fromDataURL`,
  `Texture.add` and `Blockbench` messages are not modelled. The boxes and
  textures are returned as values instead.
- **Old side order.** In old/old-generator.js the side order swaps west and
  south, so the old code names the hemisphere view at theta = pi/2 'west'
  where the current code names it 'south'. Only the order itself is modelled
  (`OldGenerator.OldSidesSwapsWestAndSouth`).
- **Old TextureMap.**
  - The constructor's `initProgram` and `loadShaderSources` are not modelled,
    and they check for no errors.
  - The conversion branch of `loadFromEquirectangular` is not modelled; it is
    the same six-pass scheme as src/texture/equirectangular.ts. Its no-image
    branch is `LoadFromFaces` with no images (`OldGenerator.NoImagesAllPlaceholders`).
  - `renderSphereSides` is not modelled; it is the scheme of
    src/texture/orthographic.ts.
  - `renderAnimationAtlas` and `valueAt` are not modelled; they are slerp and
    float work.
- **Old element count.** The element count the old dialog displays is UI text
  and is not modelled.
- **Geometry types.** src/geometry.ts declares `textures: Texture[]`, but
  `generateTextures` from src/texture.ts returns face/texture records.
  `Geometry.BuildElements` is generic over the texture type.
- OldGenerator.OldCubeAt: requires six sides, since JavaScript would throw on
  `undefined.uuid` with fewer.
- Geometry.SubdivideOctant: returns the samples as values. Each `Vector3` is a
  fresh object in the source, so no aliasing between them is lost.
- **Out of scope.** src/gen.ts, src/generate.ts, the dialog, the UI builders
  and the plugin registration are not part of this model.
