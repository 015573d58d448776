/** src/texture/equirectangular.ts: converting one panorama into the cubemap by
    rendering each cube face with a shader into a framebuffer whose colour
    attachment is that face; without a panorama, the six placeholder faces. */
module Equirectangular {
  import opened Wrappers
  import opened Canvas2D
  import opened WebGL
  import opened Common
  import opened Cubemap

  const TextureError := "Texture could not be created"
  const CubemapError := "Cubemap texture could not be created"

  /** The sources of the panorama-to-cube shaders (src/shaders/erpToCube.vert and .frag). */
  const ErpVert := "erpToCube.vert"
  const ErpFrag := "erpToCube.frag"

  /** The options with the first k of the six side sources cleared, in Sides order. */
  function ClearedSides(opts: Options, k: nat): (r: Options)
    requires k <= 6
    ensures forall j :: 0 <= j < k ==> SideSource(r, Sides[j]) == None
    ensures forall j :: k <= j < 6 ==> SideSource(r, Sides[j]) == SideSource(opts, Sides[j])
    ensures r.(north := opts.north, south := opts.south, west := opts.west,
               east := opts.east, up := opts.up, down := opts.down) == opts
  {
    if k == 0 then opts
    else
      SidesAreTheSixDirections();
      WithSide(ClearedSides(opts, k - 1), Sides[k - 1], None)
  }

  /** `createEquirectangular2dTexture(ctx, img)` from create call n. */
  function TextureRun(d: Driver, n: nat, img: Image, smoothing: bool): (r: Run<Handle>)
    ensures r.next == n + 1
    ensures r.result.Success? <==> n !in d.refused
    ensures r.result.Success? ==> r.result.value == Handle(n)
  {
    var t := Created(d, n);
    if t.None? then Run(Failure(Error(TextureError)), [CreateTexture(None)], n + 1)
    else Run(Success(t.value),
             [CreateTexture(t), BindTexture(Texture2D, t), TexImage2D(Texture2D, ImagePixels(img))]
             + DefaultTexCmds(Texture2D, smoothing), n + 1)
  }

  /** Six empty w x w faces, face i to target POSITIVE_X + i. */
  function EmptyFaces(w: nat): (cmds: seq<Cmd>)
    ensures |cmds| == 6
    ensures forall i :: 0 <= i < 6 ==> cmds[i] == TexImage2D(CubeFace(i), Unfilled(w, w))
  {
    seq(6, i => TexImage2D(CubeFace(i), Unfilled(w, w)))
  }

  /** `createCubeMap(ctx)` from create call n. */
  function CubeMapRun(d: Driver, n: nat, w: nat, smoothing: bool): (r: Run<Handle>)
    ensures r.next == n + 1
    ensures r.result.Success? <==> n !in d.refused
    ensures r.result.Success? ==> r.result.value == Handle(n)
  {
    var c := Created(d, n);
    if c.None? then Run(Failure(Error(CubemapError)), [CreateTexture(None)], n + 1)
    else Run(Success(c.value),
             [CreateTexture(c), BindTexture(CubeMap, c)] + DefaultTexCmds(CubeMap, smoothing) + EmptyFaces(w),
             n + 1)
  }

  /** Command j of the face loop: pass j / 3 attaches face j / 3, sets `face` to
      j / 3 and draws. */
  function PassCmd(cubemap: Option<Handle>, j: nat): Cmd
  {
    var i := j / 3;
    if j % 3 == 0 then FramebufferTexture2D(CubeFace(i), cubemap)
    else if j % 3 == 1 then SetUniform(FaceUniform, Int1(i))
    else DrawQuad
  }

  /** The first k passes of the face loop. */
  function Passes(cubemap: Option<Handle>, k: nat): (cmds: seq<Cmd>)
    ensures |cmds| == 3 * k
  {
    seq(3 * k, j requires 0 <= j => PassCmd(cubemap, j))
  }

  /** Pass i is three commands at 3i: it renders into face i, telling the shader
      that it is face i. */
  lemma PassesShape(cubemap: Option<Handle>, k: nat, i: nat)
    requires i < k
    ensures Passes(cubemap, k)[3 * i] == FramebufferTexture2D(CubeFace(i), cubemap)
    ensures Passes(cubemap, k)[3 * i + 1] == SetUniform(FaceUniform, Int1(i))
    ensures Passes(cubemap, k)[3 * i + 2] == DrawQuad
  {
    assert (3 * i) / 3 == i && (3 * i + 1) / 3 == i && (3 * i + 2) / 3 == i;
  }

  /** One more turn of the loop appends one pass. */
  lemma PassesStep(cubemap: Option<Handle>, k: nat)
    ensures Passes(cubemap, k + 1)
         == Passes(cubemap, k) + [FramebufferTexture2D(CubeFace(k), cubemap), SetUniform(FaceUniform, Int1(k)), DrawQuad]
  {
    PassesShape(cubemap, k + 1, k);
    var a, b := Passes(cubemap, k + 1), Passes(cubemap, k);
    assert forall j :: 0 <= j < 3 * k ==> a[j] == b[j];
  }

  lemma OneDraw(a: Cmd, b: Cmd)
    requires a != DrawQuad && b != DrawQuad
    ensures Draws([a, b, DrawQuad]) == 1
  {
    assert [a, b, DrawQuad][..2] == [a, b];
    NoDraws([a, b]);
  }

  /** The face loop draws once per pass. */
  lemma {:induction false} PassesDraws(cubemap: Option<Handle>, k: nat)
    ensures Draws(Passes(cubemap, k)) == k
  {
    if k > 0 {
      var last := [FramebufferTexture2D(CubeFace(k - 1), cubemap), SetUniform(FaceUniform, Int1(k - 1)), DrawQuad];
      PassesStep(cubemap, k - 1);
      PassesDraws(cubemap, k - 1);
      DrawsAppend(Passes(cubemap, k - 1), last);
      OneDraw(last[0], last[1]);
    } else {
      assert Passes(cubemap, k) == [];
    }
  }

  /** `createFrameBuffer(gl, prog, cubemap)` from create call n: never fails, since
      the framebuffer is not checked for null. */
  function FramebufferRun(d: Driver, n: nat, cubemap: Handle): (r: Run<Option<Handle>>)
    ensures r.next == n + 1 && r.result == Success(Created(d, n))
  {
    var f := Created(d, n);
    Run(Success(f), [CreateFramebuffer(f), BindFramebuffer(f)] + Passes(Some(cubemap), 6), n + 1)
  }

  /** The face loop and the cleanup, from create call n on. */
  function RenderRun(d: Driver, n: nat, texture: Handle, cubemap: Handle): Run<()>
  {
    var fr := FramebufferRun(d, n, cubemap);
    Run(Success(()), fr.cmds + [BindFramebuffer(None), DeleteFramebuffer(fr.result.value), DeleteTexture(Some(texture))], fr.next)
  }

  /** Everything after the program is built (as p) from create call n on: use the
      program, flip uploads, make both textures, render the faces, clean up. */
  function BuildRun(d: Driver, n: nat, p: Handle, img: Image, opts: Options): Run<()>
  {
    var setup := UseCmds(p) + [PixelStoreFlipY];
    var tr := TextureRun(d, n, img, opts.smoothing);
    if tr.result.Failure? then Run(Failure(tr.result.error), setup + tr.cmds, tr.next)
    else
      var cr := CubeMapRun(d, tr.next, opts.textureLength, opts.smoothing);
      if cr.result.Failure? then Run(Failure(cr.result.error), setup + tr.cmds + cr.cmds, cr.next)
      else
        var rr := RenderRun(d, cr.next, tr.result.value, cr.result.value);
        Run(Success(()), setup + tr.cmds + cr.cmds + rr.cmds, rr.next)
  }

  /** The conversion of the decoded panorama img from create call n on. */
  function ConvertRun(d: Driver, n: nat, img: Image, opts: Options): Run<()>
  {
    var pr := ProgramRun(d, n, ErpVert, ErpFrag);
    if pr.result.Failure? then Run(Failure(pr.result.error), pr.cmds, pr.next)
    else
      var rest := BuildRun(d, pr.next, pr.result.value, img, opts);
      Run(rest.result, pr.cmds + rest.cmds, rest.next)
  }

  /** `loadEquirectangular(ctx)` from create call n, with its options. */
  function ErpRun(d: Driver, n: nat, opts: Options, host: Host): Run<()>
  {
    var img := LoadImg(host, opts.texture);
    if img.Failure? then Run(Failure(img.error), [], n)
    else if img.value.None? then
      // loadCube is started and not awaited: it runs up to its own await, and
      // neither its uploads nor its outcome belong to this call.
      Run(Success(()), CubeHead(d, n, ClearedSides(opts, 6)), n + 1)
    else ConvertRun(d, n, img.value.value, opts)
  }

  /** Without a panorama, the part of the cube loader left queued when
      `loadEquirectangular` returns; it runs only after the caller's own
      continuation. Nothing is left queued otherwise. */
  function Deferred(opts: Options, host: Host): Run<()>
  {
    if LoadImg(host, opts.texture) == Success(None) then
      FinishRun(0, opts.textureLength, LoadAll(host, CubeSources(ClearedSides(opts, 6))), host)
    else Run(Success(()), [], 0)
  }

  /** The panorama is decoded and converted, i.e. the conversion is attempted. */
  predicate Converts(opts: Options, host: Host)
  {
    LoadImg(host, opts.texture).Success? && LoadImg(host, opts.texture).value.Some?
  }

  /** The create call numbers of the panorama texture and the cubemap. */
  function TextureCall(d: Driver, n: nat): nat { ProgramRun(d, n, ErpVert, ErpFrag).next }

  function CubemapCall(d: Driver, n: nat): nat { TextureCall(d, n) + 1 }

  /** The conversion succeeds exactly when the program is built and both textures
      are created; without a panorama the call succeeds whatever the cube loader does. */
  lemma ErpRunSucceedsIff(d: Driver, n: nat, opts: Options, host: Host)
    ensures Converts(opts, host) ==>
      (ErpRun(d, n, opts, host).result.Success? <==>
         (ProgramRun(d, n, ErpVert, ErpFrag).result.Success?
          && TextureCall(d, n) !in d.refused && CubemapCall(d, n) !in d.refused))
    ensures LoadImg(host, opts.texture) == Success(None) ==> ErpRun(d, n, opts, host).result.Success?
    ensures LoadImg(host, opts.texture).Failure? ==>
      ErpRun(d, n, opts, host) == Run(Failure(LoadImg(host, opts.texture).error), [], n)
  {
  }

  /** A successful conversion is: commands without a draw, the six passes into
      the cubemap, and the cleanup. */
  lemma ConvertRunShape(d: Driver, n: nat, img: Image, opts: Options) returns (before: seq<Cmd>)
    requires ConvertRun(d, n, img, opts).result.Success?
    ensures ConvertRun(d, n, img, opts).cmds
         == before + Passes(Some(Handle(CubemapCall(d, n))), 6)
            + [BindFramebuffer(None), DeleteFramebuffer(Created(d, CubemapCall(d, n) + 1)),
               DeleteTexture(Some(Handle(TextureCall(d, n))))]
    ensures forall i :: 0 <= i < |before| ==> before[i] != DrawQuad
  {
    var pr := ProgramRun(d, n, ErpVert, ErpFrag);
    var m := pr.next;
    var tr := TextureRun(d, m, img, opts.smoothing);
    var cr := CubeMapRun(d, m + 1, opts.textureLength, opts.smoothing);
    var f := Created(d, m + 2);
    var x := UseCmds(pr.result.value) + [PixelStoreFlipY] + tr.cmds + cr.cmds;
    var y := [CreateFramebuffer(f), BindFramebuffer(f)];
    var p := Passes(Some(Handle(CubemapCall(d, n))), 6);
    var c := [BindFramebuffer(None), DeleteFramebuffer(f), DeleteTexture(Some(Handle(TextureCall(d, n))))];
    assert BuildRun(d, m, pr.result.value, img, opts).cmds == x + ((y + p) + c);
    ConcatAssoc(pr.cmds, x, (y + p) + c);
    ConcatAssoc(pr.cmds + x, y + p, c);
    ConcatAssoc(pr.cmds + x, y, p);
    ProgramRunDrawsNothing(d, n, ErpVert, ErpFrag);
    before := pr.cmds + x + y;
  }

  /** The six passes between draw-free commands draw six times. */
  lemma PassesBetweenDraws(before: seq<Cmd>, cubemap: Option<Handle>, after: seq<Cmd>)
    requires forall i :: 0 <= i < |before| ==> before[i] != DrawQuad
    requires forall i :: 0 <= i < |after| ==> after[i] != DrawQuad
    ensures Draws(before + Passes(cubemap, 6) + after) == 6
  {
    PassesDraws(cubemap, 6);
    NoDraws(before);
    NoDraws(after);
    DrawsAppend(before, Passes(cubemap, 6));
    DrawsAppend(before + Passes(cubemap, 6), after);
  }

  /** Somewhere in cmds, face i of the cubemap is attached, `face` is set to i,
      and the quad is drawn, in three consecutive commands. */
  predicate RendersFace(cmds: seq<Cmd>, cubemap: Option<Handle>, i: int)
  {
    exists j :: 0 <= j < |cmds| - 2
      && cmds[j] == FramebufferTexture2D(CubeFace(i), cubemap)
      && cmds[j + 1] == SetUniform(FaceUniform, Int1(i))
      && cmds[j + 2] == DrawQuad
  }

  /** In the six passes, each face i is drawn right after it is attached and
      `face` is set to i. */
  lemma PassesBetweenFaces(cmds: seq<Cmd>, before: seq<Cmd>, cubemap: Option<Handle>, after: seq<Cmd>, i: nat)
    requires i < 6 && cmds == before + Passes(cubemap, 6) + after
    ensures RendersFace(cmds, cubemap, i)
  {
    var passes := Passes(cubemap, 6);
    PassesShape(cubemap, 6, i);
    var j := |before| + 3 * i;
    assert cmds[j] == passes[3 * i];
    assert cmds[j + 1] == passes[3 * i + 1];
    assert cmds[j + 2] == passes[3 * i + 2];
  }

  /** A successful conversion draws six times, once into each face of the cubemap,
      with `face` set to that face's index. */
  lemma ErpRunRendersEveryFace(d: Driver, n: nat, opts: Options, host: Host)
    requires Converts(opts, host) && ErpRun(d, n, opts, host).result.Success?
    ensures Draws(ErpRun(d, n, opts, host).cmds) == 6
    ensures forall i :: 0 <= i < 6 ==> RendersFace(ErpRun(d, n, opts, host).cmds, Some(Handle(CubemapCall(d, n))), i)
  {
    var img := LoadImg(host, opts.texture).value.value;
    assert ErpRun(d, n, opts, host) == ConvertRun(d, n, img, opts);
    var before := ConvertRunShape(d, n, img, opts);
    var cleanup := [BindFramebuffer(None), DeleteFramebuffer(Created(d, CubemapCall(d, n) + 1)),
                    DeleteTexture(Some(Handle(TextureCall(d, n))))];
    var cmds := ErpRun(d, n, opts, host).cmds;
    assert cmds == before + Passes(Some(Handle(CubemapCall(d, n))), 6) + cleanup;
    PassesBetweenDraws(before, Some(Handle(CubemapCall(d, n))), cleanup);
    forall i | 0 <= i < 6
      ensures RendersFace(cmds, Some(Handle(CubemapCall(d, n))), i)
    {
      PassesBetweenFaces(cmds, before, Some(Handle(CubemapCall(d, n))), cleanup, i);
    }
  }

  /** Building a program issues no draw call. */
  lemma ProgramRunDrawsNothing(d: Driver, n: nat, vert: string, frag: string)
    ensures var cmds := ProgramRun(d, n, vert, frag).cmds;
      forall i :: 0 <= i < |cmds| ==> cmds[i] != DrawQuad
  {
  }

  /** A run that fails draws nothing: the failure comes before the face loop. */
  lemma ErpRunFailureDrawsNothing(d: Driver, n: nat, opts: Options, host: Host)
    requires ErpRun(d, n, opts, host).result.Failure?
    ensures Draws(ErpRun(d, n, opts, host).cmds) == 0
  {
    var img := LoadImg(host, opts.texture);
    if img.Success? && img.value.Some? {
      ConvertRunFailureDrawsNothing(d, n, img.value.value, opts);
    }
    NoDraws(ErpRun(d, n, opts, host).cmds);
  }

  lemma ConvertRunFailureDrawsNothing(d: Driver, n: nat, img: Image, opts: Options)
    requires ConvertRun(d, n, img, opts).result.Failure?
    ensures var cmds := ConvertRun(d, n, img, opts).cmds;
      forall i :: 0 <= i < |cmds| ==> cmds[i] != DrawQuad
  {
    ProgramRunDrawsNothing(d, n, ErpVert, ErpFrag);
  }

  /** Flipping is switched on before the panorama is uploaded. */
  lemma ErpRunFlipsBeforeUpload(d: Driver, n: nat, opts: Options, host: Host)
    requires Converts(opts, host)
    ensures var cmds := ErpRun(d, n, opts, host).cmds;
      forall j :: 0 <= j < |cmds| && cmds[j].TexImage2D? && cmds[j].pixels.ImagePixels? ==>
        exists i :: 0 <= i < j && cmds[i] == PixelStoreFlipY
  {
    var pr := ProgramRun(d, n, ErpVert, ErpFrag);
    if pr.result.Success? {
      var cmds := ErpRun(d, n, opts, host).cmds;
      var setup := pr.cmds + UseCmds(pr.result.value) + [PixelStoreFlipY];
      assert cmds[..|setup|] == setup;
      forall j | 0 <= j < |cmds| && cmds[j].TexImage2D? && cmds[j].pixels.ImagePixels?
        ensures exists i :: 0 <= i < j && cmds[i] == PixelStoreFlipY
      {
        ProgramRunUploadsNothing(d, n, ErpVert, ErpFrag);
        assert cmds[|setup| - 1] == PixelStoreFlipY;
      }
    }
  }

  /** Building a program uploads no texture data. */
  lemma ProgramRunUploadsNothing(d: Driver, n: nat, vert: string, frag: string)
    ensures var cmds := ProgramRun(d, n, vert, frag).cmds;
      forall i :: 0 <= i < |cmds| ==> !cmds[i].TexImage2D?
  {
  }

  /** A successful conversion ends by unbinding the framebuffer, then deleting the
      framebuffer and the panorama texture it created. */
  lemma ErpRunCleansUp(d: Driver, n: nat, opts: Options, host: Host)
    requires Converts(opts, host) && ErpRun(d, n, opts, host).result.Success?
    ensures var cmds := ErpRun(d, n, opts, host).cmds;
      var fbo := Created(d, CubemapCall(d, n) + 1);
      && |cmds| >= 3
      && cmds[|cmds| - 3..] == [BindFramebuffer(None), DeleteFramebuffer(fbo), DeleteTexture(Some(Handle(TextureCall(d, n))))]
      && CreateFramebuffer(fbo) in cmds
      && CreateTexture(Some(Handle(TextureCall(d, n)))) in cmds
  {
    var cmds := ErpRun(d, n, opts, host).cmds;
    var pr := ProgramRun(d, n, ErpVert, ErpFrag);
    var setup := pr.cmds + UseCmds(pr.result.value) + [PixelStoreFlipY];
    assert cmds[|setup|] == CreateTexture(Some(Handle(TextureCall(d, n))));
  }

  /** Without a panorama every face becomes the placeholder: all six side
      sources are cleared before the cube loader starts, whatever they held, so
      the queued part of the loader uploads six placeholders, or nothing when
      the 2D context is missing. */
  lemma FallbackAllPlaceholders(opts: Options, host: Host)
    requires LoadImg(host, opts.texture) == Success(None)
    ensures var cmds := Deferred(opts, host).cmds;
      && (!host.context2d ==> cmds == [] && Deferred(opts, host).result == Failure(Error(Context2dError)))
      && (host.context2d ==> |cmds| == 6 && forall i :: 0 <= i < 6 ==>
            cmds[i] == TexImage2D(CubeFace(i), CanvasPixels(FacePixels(opts.textureLength, None, FaceTurns[i]))))
  {
    var srcs := CubeSources(ClearedSides(opts, 6));
    var images := LoadAll(host, srcs);
    assert images.Success?;
    forall i | 0 <= i < 6 ensures images.value[i] == None {
      assert srcs[i] == None;
    }
    if host.context2d {
      var cmds := Deferred(opts, host).cmds;
      assert cmds == Uploads(opts.textureLength, images.value);
      forall i | 0 <= i < 6
        ensures cmds[i] == TexImage2D(CubeFace(i), CanvasPixels(FacePixels(opts.textureLength, None, FaceTurns[i])))
      {
        CanvasAfterCovered(opts.textureLength, images.value, FaceTurns, i);
      }
    }
  }

  /** Without a panorama no conversion is attempted: no shader, program or
      framebuffer is created, uploads are not flipped, the only object created
      is the cubemap of the cube loader, and nothing is uploaded before
      `loadEquirectangular` returns. */
  lemma FallbackBuildsNoProgram(d: Driver, n: nat, opts: Options, host: Host)
    requires LoadImg(host, opts.texture) == Success(None)
    ensures var run := ErpRun(d, n, opts, host);
      && run.result.Success?
      && run.next == n + 1
      && run.cmds[0] == CreateTexture(Created(d, n))
      && forall i :: 0 <= i < |run.cmds| ==>
           !run.cmds[i].CreateProgram? && !run.cmds[i].CreateShader?
           && !run.cmds[i].CreateFramebuffer? && run.cmds[i] != PixelStoreFlipY
           && !run.cmds[i].TexImage2D? && (i > 0 ==> !run.cmds[i].CreateTexture?)
  {
  }

  /** With a panorama, nothing is left queued. */
  lemma ConvertLeavesNothingQueued(opts: Options, host: Host)
    requires LoadImg(host, opts.texture) != Success(None)
    ensures Deferred(opts, host) == Run(Success(()), [], 0)
  {
  }

  /** `createEquirectangular2dTexture(ctx, img)`. */
  method CreateEquirectangular2dTexture(gl: Gl, img: Image, smoothing: bool) returns (r: Result<Handle, Error>)
    requires gl.Valid()
    modifies gl`log, gl`next, gl`textures
    ensures gl.Valid()
    ensures var run := TextureRun(gl.driver, old(gl.next), img, smoothing);
      r == run.result && gl.log == old(gl.log) + run.cmds && gl.next == run.next
    ensures gl.textures == if r.Success? then old(gl.textures) + {r.value} else old(gl.textures)
  {
    var texture := gl.CreateTexture();
    if texture.None? {
      return Failure(Error(TextureError));
    }
    gl.BindTexture(Texture2D, texture);
    gl.TexImage2D(Texture2D, ImagePixels(img));
    DefaultTex(gl, Texture2D, smoothing);
    r := Success(texture.value);
  }

  /** `createCubeMap(ctx)`. */
  method CreateCubeMap(gl: Gl, textureLength: nat, smoothing: bool) returns (r: Result<Handle, Error>)
    requires gl.Valid()
    modifies gl`log, gl`next, gl`textures
    ensures gl.Valid()
    ensures var run := CubeMapRun(gl.driver, old(gl.next), textureLength, smoothing);
      r == run.result && gl.log == old(gl.log) + run.cmds && gl.next == run.next
    ensures gl.textures == if r.Success? then old(gl.textures) + {r.value} else old(gl.textures)
  {
    var cubemap := gl.CreateTexture();
    if cubemap.None? {
      return Failure(Error(CubemapError));
    }
    gl.BindTexture(CubeMap, cubemap);
    DefaultTex(gl, CubeMap, smoothing);
    ghost var head := gl.log;
    for i := 0 to 6
      invariant gl.log == head + EmptyFaces(textureLength)[..i]
      invariant gl.Valid() && gl.next == old(gl.next) + 1 && gl.textures == old(gl.textures) + {cubemap.value}
    {
      gl.TexImage2D(CubeFace(i), Unfilled(textureLength, textureLength));
      assert EmptyFaces(textureLength)[..i + 1] == EmptyFaces(textureLength)[..i] + [EmptyFaces(textureLength)[i]];
    }
    assert EmptyFaces(textureLength)[..6] == EmptyFaces(textureLength);
    r := Success(cubemap.value);
  }

  /** `createFrameBuffer(gl, prog, cubemap)`: the program in use renders each face
      into the cubemap through a framebuffer, which stays bound. */
  method CreateFrameBuffer(gl: Gl, cubemap: Handle) returns (fbo: Option<Handle>)
    requires gl.Valid() && (gl.program.Some? ==> gl.program.value.id < gl.next)
    modifies gl`log, gl`next, gl`framebuffers, gl`framebuffer, gl`uniforms, gl`canvas
    ensures gl.Valid()
    ensures var run := FramebufferRun(gl.driver, old(gl.next), cubemap);
      Success(fbo) == run.result && gl.log == old(gl.log) + run.cmds && gl.next == run.next
    ensures gl.framebuffers == if fbo.Some? then old(gl.framebuffers) + {fbo.value} else old(gl.framebuffers)
    ensures gl.framebuffer == fbo
    ensures fbo.Some? ==> gl.canvas == old(gl.canvas)
  {
    fbo := gl.CreateFramebuffer();
    gl.BindFramebuffer(fbo);
    ghost var head := gl.log;
    assert Passes(Some(cubemap), 0) == [];
    for i := 0 to 6
      invariant gl.log == head + Passes(Some(cubemap), i)
      invariant gl.Valid() && gl.next == old(gl.next) + 1 && gl.framebuffer == fbo
      invariant gl.framebuffers == if fbo.Some? then old(gl.framebuffers) + {fbo.value} else old(gl.framebuffers)
      invariant fbo.Some? ==> gl.canvas == old(gl.canvas)
    {
      gl.FramebufferTexture2D(CubeFace(i), Some(cubemap));
      gl.SetUniform(FaceUniform, Int1(i));
      gl.DrawQuad();
      PassesStep(Some(cubemap), i);
    }
    ConcatAssoc(old(gl.log), [CreateFramebuffer(fbo), BindFramebuffer(fbo)], Passes(Some(cubemap), 6));
  }

  /** The no-panorama branch: clear the six side sources, then start the cube
      loader without awaiting it; what it holds across its `await` is returned. */
  method Fallback(ctx: Ctx, host: Host) returns (pending: Pending)
    requires ctx.gl.Valid()
    modifies ctx`opts, ctx.gl`log, ctx.gl`next, ctx.gl`textures
    ensures ctx.gl.Valid()
    ensures ctx.opts == ClearedSides(old(ctx.opts), 6)
    ensures ctx.gl.log == old(ctx.gl.log) + CubeHead(ctx.gl.driver, old(ctx.gl.next), ctx.opts)
    ensures ctx.gl.next == old(ctx.gl.next) + 1
    ensures fresh(pending.canvas) && pending.canvas.Valid() && pending.canvas.width == ctx.opts.textureLength
    ensures pending.canvas.pixels == Blank(pending.canvas.width)
    ensures pending.canvas.ctm == Identity && pending.canvas.stack == []
    ensures pending.images == LoadAll(host, CubeSources(ctx.opts))
  {
    for i := 0 to 6
      invariant ctx.opts == ClearedSides(old(ctx.opts), i)
      invariant unchanged(ctx.gl)
    {
      ctx.opts := WithSide(ctx.opts, Sides[i], None);
    }
    pending := StartCube(ctx, host);
  }

  /** `createFrameBuffer` and the cleanup that follows it. */
  method RenderAndCleanUp(gl: Gl, texture: Handle, cubemap: Handle) returns (ghost fbo: Option<Handle>)
    requires gl.Valid() && (gl.program.Some? ==> gl.program.value.id < gl.next)
    modifies gl`log, gl`next, gl`textures, gl`framebuffers, gl`framebuffer, gl`uniforms, gl`canvas
    ensures gl.Valid()
    ensures var run := RenderRun(gl.driver, old(gl.next), texture, cubemap);
      gl.log == old(gl.log) + run.cmds && gl.next == run.next
    ensures gl.framebuffer == None && gl.framebuffers == old(gl.framebuffers)
    ensures gl.textures == old(gl.textures) - {texture}
  {
    var f := CreateFrameBuffer(gl, cubemap);
    gl.BindFramebuffer(None);
    gl.DeleteFramebuffer(f);
    gl.DeleteTexture(Some(texture));
    fbo := f;
  }

  /** Appending in steps is appending the whole. */
  lemma ConcatAssoc(a: seq<Cmd>, b: seq<Cmd>, c: seq<Cmd>)
    ensures a + (b + c) == a + b + c
  {
  }

  /** Everything after the program p is built. */
  method Build(gl: Gl, p: Handle, img: Image, opts: Options) returns (r: Result<(), Error>)
    requires gl.Valid() && p.id < gl.next
    modifies gl`log, gl`next, gl`textures, gl`framebuffers, gl`framebuffer, gl`program, gl`uniforms, gl`canvas
    ensures gl.Valid()
    ensures var run := BuildRun(gl.driver, old(gl.next), p, img, opts);
      r == run.result && gl.log == old(gl.log) + run.cmds && gl.next == run.next
    ensures r.Success? ==>
      && gl.framebuffer == None
      && gl.framebuffers == old(gl.framebuffers)
      && gl.textures == old(gl.textures) + {Handle(old(gl.next) + 1)}
  {
    ghost var log0, d, n := gl.log, gl.driver, gl.next;
    ghost var setup := UseCmds(p) + [PixelStoreFlipY];
    ghost var tr := TextureRun(d, n, img, opts.smoothing);
    ghost var cr := CubeMapRun(d, n + 1, opts.textureLength, opts.smoothing);
    Common.UseProgram(gl, p);
    gl.PixelStoreFlipY();
    ghost var log1 := gl.log;
    assert log1 == log0 + setup;
    var texture := CreateEquirectangular2dTexture(gl, img, opts.smoothing);
    ghost var log2 := gl.log;
    ConcatAssoc(log0, setup, tr.cmds);
    if texture.Failure? {
      return Failure(texture.error);
    }
    var cubemap := CreateCubeMap(gl, opts.textureLength, opts.smoothing);
    ghost var log3 := gl.log;
    ConcatAssoc(log0, setup + tr.cmds, cr.cmds);
    if cubemap.Failure? {
      return Failure(cubemap.error);
    }
    assert texture.value !in old(gl.textures);
    ghost var rr := RenderRun(d, n + 2, texture.value, cubemap.value);
    ghost var fbo := RenderAndCleanUp(gl, texture.value, cubemap.value);
    ConcatAssoc(log0, setup + tr.cmds + cr.cmds, rr.cmds);
    assert BuildRun(d, n, p, img, opts).cmds == setup + tr.cmds + cr.cmds + rr.cmds;
    r := Success(());
  }

  /** The conversion proper, once the panorama has loaded. */
  method Convert(gl: Gl, img: Image, opts: Options) returns (r: Result<(), Error>)
    requires gl.Valid()
    modifies gl`log, gl`next, gl`textures, gl`framebuffers, gl`framebuffer,
             gl`shaderSources, gl`compiled, gl`program, gl`uniforms, gl`canvas
    ensures gl.Valid()
    ensures var run := ConvertRun(gl.driver, old(gl.next), img, opts);
      r == run.result && gl.log == old(gl.log) + run.cmds && gl.next == run.next
    ensures r.Success? ==>
      && gl.framebuffer == None
      && gl.framebuffers == old(gl.framebuffers)
      && gl.textures == old(gl.textures) + {Handle(CubemapCall(gl.driver, old(gl.next)))}
  {
    var program := Common.CreateProgram(gl, ErpVert, ErpFrag);
    if program.Failure? {
      return Failure(program.error);
    }
    ProgramRunSucceedsIff(gl.driver, old(gl.next), ErpVert, ErpFrag);
    ghost var log1 := gl.log;
    r := Build(gl, program.value, img, opts);
    ghost var pr := ProgramRun(gl.driver, old(gl.next), ErpVert, ErpFrag);
    ConcatAssoc(old(gl.log), pr.cmds, BuildRun(gl.driver, pr.next, program.value, img, opts).cmds);
  }

  /** `loadEquirectangular(ctx)`. Without a panorama the cube loader it started
      is returned pending; the caller's continuation runs before it resumes. */
  method LoadEquirectangular(ctx: Ctx, host: Host) returns (r: Result<(), Error>, pending: Option<Pending>)
    requires ctx.gl.Valid()
    modifies ctx`opts, ctx.gl`log, ctx.gl`next, ctx.gl`textures, ctx.gl`framebuffers, ctx.gl`framebuffer,
             ctx.gl`shaderSources, ctx.gl`compiled, ctx.gl`program, ctx.gl`uniforms, ctx.gl`canvas
    ensures ctx.gl.Valid()
    ensures var run := ErpRun(ctx.gl.driver, old(ctx.gl.next), old(ctx.opts), host);
      r == run.result && ctx.gl.log == old(ctx.gl.log) + run.cmds && ctx.gl.next == run.next
    ensures ctx.opts == if LoadImg(host, old(ctx.opts).texture) == Success(None)
                        then ClearedSides(old(ctx.opts), 6) else old(ctx.opts)
    ensures Converts(old(ctx.opts), host) && r.Success? ==>
      && ctx.gl.framebuffer == None
      && ctx.gl.framebuffers == old(ctx.gl.framebuffers)
      && ctx.gl.textures == old(ctx.gl.textures) + {Handle(CubemapCall(ctx.gl.driver, old(ctx.gl.next)))}
    ensures !Converts(old(ctx.opts), host) ==> ctx.gl.framebuffer == old(ctx.gl.framebuffer)
    ensures pending.Some? <==> LoadImg(host, old(ctx.opts).texture) == Success(None)
    ensures pending.Some? ==>
      && fresh(pending.value.canvas) && pending.value.canvas.Valid()
      && pending.value.canvas.width == old(ctx.opts).textureLength
      && pending.value.canvas.pixels == Blank(pending.value.canvas.width)
      && pending.value.canvas.ctm == Identity && pending.value.canvas.stack == []
      && pending.value.images == LoadAll(host, CubeSources(ClearedSides(old(ctx.opts), 6)))
  {
    pending := None;
    var img := LoadImg(host, ctx.opts.texture);
    if img.Failure? {
      return Failure(img.error), None;
    }
    if img.value.None? {
      var p := Fallback(ctx, host);
      return Success(()), Some(p);
    }
    r := Convert(ctx.gl, img.value.value, ctx.opts);
  }
}
