/** src/texture/index.ts: the texture pipeline. A WebGL context is created, the
    loader the mapping selects fills the cubemap, and the six hemisphere views
    become the output textures, named after the six sides. */
module TextureIndex {
  import opened Wrappers
  import opened Vectors
  import opened WebGL
  import opened Common
  import opened Canvas2D
  import Cubemap
  import Equirectangular
  import Orthographic

  const WebGLError := "WebGL failed to load"

  /** A generated texture: `new Texture({name, id}).fromDataURL(dataUrl)`, with
      the captured canvas standing for the data URL. */
  datatype OutTexture = OutTexture(name: Direction, id: Direction, image: Option<Frame>)

  /** `.map((dataUrl, i) => new Texture({name: SIDES[i], id: SIDES[i]}) ...)`. */
  function Named(frames: seq<Option<Frame>>): (ts: seq<OutTexture>)
    requires |frames| <= 6
    ensures |ts| == |frames|
  {
    seq(|frames|, i requires 0 <= i < |frames| => OutTexture(Sides[i], Sides[i], frames[i]))
  }

  /** The loader `opts.mapping` selects, run on a fresh context. */
  function LoaderRun(d: Driver, opts: Options, host: Host): Run<()>
  {
    match opts.mapping
    case Equirectangular => Equirectangular.ErpRun(d, 0, opts, host)
    case Cube => Cubemap.CubeRun(d, 0, opts, host)
  }

  /** What the selected loader leaves queued when its promise settles: only the
      panorama loader without a panorama, which does not await the cube loader. */
  function LoaderDeferred(opts: Options, host: Host): seq<Cmd>
  {
    match opts.mapping
    case Equirectangular => Equirectangular.Deferred(opts, host).cmds
    case Cube => []
  }

  /** `generateTextures(opts)`: `webgl` is the context the canvas hands out, if
      any. The continuation after the loader's promise renders the hemispheres;
      whatever the loader left queued runs after it, whether it succeeds or throws. */
  function GenerateRun(webgl: Option<Driver>, opts: Options, host: Host, q: Orthographic.Quat): Run<seq<OutTexture>>
  {
    if webgl.None? then Run(Failure(Error(WebGLError)), [], 0)
    else
      var lr := LoaderRun(webgl.value, opts, host);
      if lr.result.Failure? then Run(Failure(lr.result.error), lr.cmds, lr.next)
      else
        var hr := Orthographic.HemisphereRun(webgl.value, lr.next, q, true, None);
        var later := LoaderDeferred(opts, host);
        if hr.result.Failure? then Run(Failure(hr.result.error), lr.cmds + hr.cmds + later, hr.next)
        else Run(Success(Named(hr.result.value)), lr.cmds + hr.cmds + later, hr.next)
  }

  /** Without a WebGL context nothing is issued and the call fails with its message. */
  lemma GenerateRunNeedsWebGL(opts: Options, host: Host, q: Orthographic.Quat)
    ensures GenerateRun(None, opts, host, q) == Run(Failure(Error(WebGLError)), [], 0)
  {
  }

  /** A successful run yields six textures; texture i is named and identified by
      side i and holds the view rendered with angle i of the hemisphere table,
      with the requested rotation. */
  lemma GenerateRunOutputs(d: Driver, opts: Options, host: Host, q: Orthographic.Quat)
    requires GenerateRun(Some(d), opts, host, q).result.Success?
    ensures var ts := GenerateRun(Some(d), opts, host, q).result.value;
      && |ts| == 6
      && forall i :: 0 <= i < 6 ==>
           && ts[i].name == Sides[i] && ts[i].id == Sides[i]
           && ts[i].image.Some?
           && ts[i].image.value.uniforms[AngleUniform]
                == QuarterTurns2(Orthographic.HemisphereAngles[i].0, Orthographic.HemisphereAngles[i].1)
           && ts[i].image.value.uniforms[RotationUniform] == Orthographic.RotationValue(q)
  {
    var lr := LoaderRun(d, opts, host);
    Orthographic.HemisphereRunViews(d, lr.next, q, None);
  }

  /** A failed load returns its own error and nothing is drawn; otherwise the
      equirectangular conversion draws its six passes first and the hemispheres
      draw six more, and nothing the loader left queued draws. */
  lemma GenerateRunDraws(d: Driver, opts: Options, host: Host, q: Orthographic.Quat)
    ensures var run := GenerateRun(Some(d), opts, host, q);
      var lr := LoaderRun(d, opts, host);
      && (lr.result.Failure? ==> run.result == Failure(lr.result.error) && Draws(run.cmds) == 0)
      && (run.result.Success? ==>
            Draws(run.cmds) == if opts.mapping == Equirectangular && Equirectangular.Converts(opts, host) then 12 else 6)
  {
    var lr := LoaderRun(d, opts, host);
    if opts.mapping == Equirectangular {
      if lr.result.Failure? {
        Equirectangular.ErpRunFailureDrawsNothing(d, 0, opts, host);
      } else if Equirectangular.Converts(opts, host) {
        Equirectangular.ErpRunRendersEveryFace(d, 0, opts, host);
      } else {
        NoDraws(lr.cmds);
      }
    } else {
      Cubemap.CubeRunDrawsNothing(d, 0, opts, host);
    }
    if lr.result.Success? {
      var hr := Orthographic.HemisphereRun(d, lr.next, q, true, None);
      var later := LoaderDeferred(opts, host);
      Orthographic.HemisphereRunDraws(d, lr.next, q, true, None);
      NoDraws(later);
      DrawsAppend(lr.cmds, hr.cmds);
      DrawsAppend(lr.cmds + hr.cmds, later);
    }
  }

  /** Without a panorama the cube loader's six placeholder uploads are the very
      last commands: every view has been drawn and captured from the cubemap
      before any face reaches it, so the placeholder never shows in the output. */
  lemma GenerateRunFallbackUploadsLast(d: Driver, opts: Options, host: Host, q: Orthographic.Quat)
    requires opts.mapping == Equirectangular && LoadImg(host, opts.texture) == Success(None) && host.context2d
    requires GenerateRun(Some(d), opts, host, q).result.Success?
    ensures var cmds := GenerateRun(Some(d), opts, host, q).cmds;
      && |cmds| >= 7
      && cmds[|cmds| - 7] == ReadCanvas
      && (forall j :: 0 <= j < |cmds| - 6 ==> !cmds[j].TexImage2D?)
      && forall i :: 0 <= i < 6 ==>
           cmds[|cmds| - 6 + i] == TexImage2D(CubeFace(i), CanvasPixels(Cubemap.FacePixels(opts.textureLength, None, Cubemap.FaceTurns[i])))
  {
    var lr := LoaderRun(d, opts, host);
    var hr := Orthographic.HemisphereRun(d, lr.next, q, true, None);
    var later := LoaderDeferred(opts, host);
    Equirectangular.FallbackBuildsNoProgram(d, 0, opts, host);
    Equirectangular.FallbackAllPlaceholders(opts, host);
    var head := Orthographic.HemisphereRunShape(d, lr.next, q, true, None);
    Equirectangular.ProgramRunUploadsNothing(d, lr.next, Orthographic.HemiVert, Orthographic.HemiFrag);
    var cmds := lr.cmds + hr.cmds + later;
    assert |later| == 6;
    assert hr.cmds[|hr.cmds| - 1] == ReadCanvas;
    assert forall j :: 0 <= j < |hr.cmds| ==> !hr.cmds[j].TexImage2D?;
    forall j | 0 <= j < |cmds| - 6
      ensures !cmds[j].TexImage2D?
    {
      if j < |lr.cmds| {
        assert cmds[j] == lr.cmds[j];
      } else {
        assert cmds[j] == hr.cmds[j - |lr.cmds|];
      }
    }
  }

  /** `generateTextures(opts)`. The commands issued are returned alongside the textures. */
  method GenerateTextures(webgl: Option<Driver>, opts: Options, host: Host, toQuat: Vec3 -> Orthographic.Quat)
      returns (r: Result<seq<OutTexture>, Error>, ghost cmds: seq<Cmd>)
    ensures r == GenerateRun(webgl, opts, host, toQuat(opts.rotation)).result
    ensures cmds == GenerateRun(webgl, opts, host, toQuat(opts.rotation)).cmds
  {
    if webgl.None? {
      return Failure(Error(WebGLError)), [];
    }
    var gl := new Gl(webgl.value);
    var ctx := new Ctx(gl, opts);
    var loaded, pending := Load(ctx, host);
    if loaded.Failure? {
      return Failure(loaded.error), gl.log;
    }
    ghost var lr := LoaderRun(webgl.value, opts, host);
    ghost var shown := gl.canvas;
    var views := Orthographic.RenderOrthogonalHemispheres(gl, opts.rotation, toQuat);
    Orthographic.HemisphereRunOnCanvas(webgl.value, lr.next, toQuat(opts.rotation), shown);
    if pending.Some? {
      // The cube loader resumes only now; its outcome reaches no one.
      var ignored := Cubemap.FinishCube(gl, pending.value, host);
    }
    if views.Failure? {
      return Failure(views.error), gl.log;
    }
    r, cmds := Success(Named(views.value)), gl.log;
  }

  /** The `{equirectangular: loadEquirectangular, cube: loadCube}[opts.mapping]`
      dispatch on a fresh context; on success no framebuffer is left bound. A cube
      loader started and not awaited is returned pending. */
  method Load(ctx: Ctx, host: Host) returns (r: Result<(), Error>, pending: Option<Cubemap.Pending>)
    requires ctx.gl.Valid() && ctx.gl.log == [] && ctx.gl.next == 0 && ctx.gl.framebuffer == None
    modifies ctx`opts, ctx.gl`log, ctx.gl`next, ctx.gl`textures, ctx.gl`framebuffers, ctx.gl`framebuffer,
             ctx.gl`shaderSources, ctx.gl`compiled, ctx.gl`program, ctx.gl`uniforms, ctx.gl`canvas
    ensures ctx.gl.Valid()
    ensures var lr := LoaderRun(ctx.gl.driver, old(ctx.opts), host);
      r == lr.result && ctx.gl.log == lr.cmds && ctx.gl.next == lr.next
    ensures r.Success? ==> ctx.gl.framebuffer == None
    ensures pending.Some? ==>
      && r.Success?
      && fresh(pending.value.canvas) && pending.value.canvas.Valid()
      && pending.value.canvas.pixels == Blank(pending.value.canvas.width)
      && pending.value.canvas.ctm == Identity && pending.value.canvas.stack == []
      && (pending.value.images.Success? ==> |pending.value.images.value| == 6)
      && Cubemap.FinishRun(ctx.gl.next, pending.value.canvas.width, pending.value.images, host).cmds
           == LoaderDeferred(old(ctx.opts), host)
    ensures pending.None? ==> LoaderDeferred(old(ctx.opts), host) == []
  {
    match ctx.opts.mapping
    case Equirectangular =>
      r, pending := Equirectangular.LoadEquirectangular(ctx, host);
    case Cube =>
      r := Cubemap.LoadCube(ctx, host);
      pending := None;
  }
}
