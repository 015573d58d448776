/** src/texture/cubemap.ts: building the cubemap from six face images. Each
    face is painted on one shared square canvas, turned about the canvas centre
    by its fixed number of quarter turns, and uploaded to its cube face; a face
    without an image gets a magenta and black checkerboard instead. */
module Cubemap {
  import opened Wrappers
  import opened Canvas2D
  import opened WebGL
  import opened Common

  /** The quarter turns face i is rotated by (`Math.PI * [-1, 1, 2, 0, -1, -1][i] / 2`). */
  const FaceTurns: seq<int> := [-1, 1, 2, 0, -1, -1]

  const Context2dError := "2D Canvas Context could not be created"

  /** The canvas after `drawMissingTexture` under the transformation m: black over
      the whole square, then magenta over the top-left quarter and over a w x w
      square from the centre, which the canvas clips to the bottom-right quarter. */
  function Placeholder(pixels: seq<seq<Color>>, w: nat, m: Transform): (g: seq<seq<Color>>)
    requires IsGrid(pixels, w)
    ensures IsGrid(g, w)
  {
    var side, half := w as real, w as real / 2.0;
    var black := Painted(pixels, w, m, Rect(0.0, 0.0, side, side), Solid(Black));
    var first := Painted(black, w, m, Rect(0.0, 0.0, half, half), Solid(Magenta));
    Painted(first, w, m, Rect(half, half, side, side), Solid(Magenta))
  }

  /** The canvas after `drawImage(image, 0, 0, w, w)` under m. */
  function Drawn(pixels: seq<seq<Color>>, w: nat, m: Transform, img: Image): (g: seq<seq<Color>>)
    requires IsGrid(pixels, w)
    ensures IsGrid(g, w)
  {
    Painted(pixels, w, m, Rect(0.0, 0.0, w as real, w as real), Picture(img))
  }

  /** The canvas after one face is painted over `pixels`, turned by k quarter turns. */
  function FaceContent(pixels: seq<seq<Color>>, w: nat, image: Option<Image>, k: int): (g: seq<seq<Color>>)
    requires IsGrid(pixels, w)
    ensures IsGrid(g, w)
  {
    var m := AboutCentre(k, w as real / 2.0);
    if image.Some? then Drawn(pixels, w, m, image.value) else Placeholder(pixels, w, m)
  }

  /** The square uploaded for a face: what a face paints over a blank canvas. */
  function FacePixels(w: nat, image: Option<Image>, k: int): (g: seq<seq<Color>>)
    ensures IsGrid(g, w)
  {
    FaceContent(Blank(w), w, image, k)
  }

  /** The shared canvas after the first k faces, face j painted over the one
      before it, turned by turns[j]. The canvas is never cleared between faces. */
  function CanvasAfter(w: nat, images: seq<Option<Image>>, turns: seq<int>, k: nat): (g: seq<seq<Color>>)
    requires |images| == 6 && |turns| == 6 && k <= 6
    ensures IsGrid(g, w)
  {
    if k == 0 then Blank(w)
    else FaceContent(CanvasAfter(w, images, turns, k - 1), w, images[k - 1], turns[k - 1])
  }

  /** The placeholder and an opaque image cover the whole canvas, so nothing of
      the previous face shows through: the upload depends only on this face's
      image and turn. */
  lemma FaceContentCoversGrid(pixels: seq<seq<Color>>, w: nat, image: Option<Image>, k: int)
    requires IsGrid(pixels, w)
    requires image.None? || image.value.isOpaque
    ensures FaceContent(pixels, w, image, k) == FacePixels(w, image, k)
  {
    var a, b := FaceContent(pixels, w, image, k), FacePixels(w, image, k);
    forall y | 0 <= y < w
      ensures a[y] == b[y]
    {
      forall x | 0 <= x < w
        ensures a[y][x] == b[y][x]
      {
        AboutCentreOnPixels(k, w, x, y);
      }
    }
  }

  lemma CentreBelowHalf(s: int, w: nat)
    requires w % 2 == 0
    ensures (Centre(s) < w as real / 2.0) <==> s < w / 2
  {
  }

  /** Rotations about the centre fix the centre. */
  lemma AboutCentreFixesCentre(k: int, c: real)
    ensures ToDevice(AboutCentre(k, c), c, c) == (c, c)
  {
    var co, si := QCos(k) as real, QSin(k) as real;
    var m := AboutCentre(k, c);
    assert Translated(Identity, c, c) == Transform(0, c, c);
    assert m == Transform(k, c - co * c + si * c, c - si * c - co * c);
  }

  /** On an even-sided canvas the placeholder is magenta exactly where
      (x < w/2) == (y < w/2), black elsewhere; an odd number of quarter turns
      swaps the two diagonals, an even number leaves them in place. */
  lemma PlaceholderPattern(w: nat, k: int, x: int, y: int)
    requires w % 2 == 0 && 0 <= x < w && 0 <= y < w
    ensures FacePixels(w, None, k)[y][x]
         == if ((x < w / 2) == (y < w / 2)) != (k % 2 == 1) then Magenta else Black
  {
    PlaceholderAt(w, k, x, y);
    PatternSwap(w, k, x, y);
  }

  /** Which half of the unrotated square a pixel's source lies in, per axis. */
  lemma PatternSwap(w: nat, k: int, x: int, y: int)
    requires w % 2 == 0 && 0 <= x < w && 0 <= y < w
    ensures var (sx, sy) := SourcePixel(k, w, x, y);
      var half := w as real / 2.0;
      ((Centre(sx) < half) == (Centre(sy) < half)) == (((x < w / 2) == (y < w / 2)) != (k % 2 == 1))
  {
    var (sx, sy) := SourcePixel(k, w, x, y);
    CentreBelowHalf(sx, w);
    CentreBelowHalf(sy, w);
    HalvesSwap(w, k, x, y);
  }

  lemma HalvesSwap(w: nat, k: int, x: int, y: int)
    requires w % 2 == 0 && 0 <= x < w && 0 <= y < w
    ensures var (sx, sy) := SourcePixel(k, w, x, y);
      ((sx < w / 2) == (sy < w / 2)) == (((x < w / 2) == (y < w / 2)) != (k % 2 == 1))
  {
    var h := w / 2;
    assert w == 2 * h;
    var r := k % 4;
    ParityOfQuarterTurns(k);
    if r == 0 {
    } else if r == 1 {
      assert (w - 1 - x < h) == !(x < h);
    } else if r == 2 {
      assert (w - 1 - x < h) == !(x < h) && (w - 1 - y < h) == !(y < h);
    } else {
      assert (w - 1 - y < h) == !(y < h);
    }
  }

  lemma ParityOfQuarterTurns(k: int)
    ensures (k % 2 == 1) == (k % 4 == 1 || k % 4 == 3)
  {
    var q := k / 4;
    assert k == 4 * q + k % 4;
    assert k == 2 * (2 * q) + k % 4;
  }

  /** The placeholder pixel read back in the unrotated square. */
  lemma PlaceholderAt(w: nat, k: int, x: int, y: int)
    requires 0 <= x < w && 0 <= y < w
    ensures var (sx, sy) := SourcePixel(k, w, x, y);
      var half := w as real / 2.0;
      FacePixels(w, None, k)[y][x] == if (Centre(sx) < half) == (Centre(sy) < half) then Magenta else Black
  {
    AboutCentreOnPixels(k, w, x, y);
  }

  /** Once face i is painted, the canvas is that face alone when it is the
      placeholder or an opaque image, whatever the faces before it left. */
  lemma CanvasAfterCovered(w: nat, images: seq<Option<Image>>, turns: seq<int>, i: nat)
    requires |images| == 6 && |turns| == 6 && i < 6
    requires images[i].None? || images[i].value.isOpaque
    ensures CanvasAfter(w, images, turns, i + 1) == FacePixels(w, images[i], turns[i])
  {
    FaceContentCoversGrid(CanvasAfter(w, images, turns, i), w, images[i], turns[i]);
  }

  /** A face drawn from an image shows, at every pixel, the point of that image
      the turn carries there, which lies inside the square: the texel itself when
      the image is opaque, otherwise that texel composited over what the pixel
      held before. */
  lemma ImageFillsFace(pixels: seq<seq<Color>>, w: nat, img: Image, k: int, x: int, y: int)
    requires IsGrid(pixels, w) && 0 <= x < w && 0 <= y < w
    ensures var (sx, sy) := SourcePixel(k, w, x, y);
      && 0 <= sx < w && 0 <= sy < w
      && FaceContent(pixels, w, Some(img), k)[y][x]
           == if img.isOpaque then Texel(img, Centre(sx), Centre(sy)) else Over(img, Centre(sx), Centre(sy), pixels[y][x])
  {
    AboutCentreOnPixels(k, w, x, y);
  }

  /** A face drawn from an image, opaque or not and over whatever the canvas
      held, is never the placeholder (on a non-empty canvas). */
  lemma ImageFaceIsNotPlaceholder(pixels: seq<seq<Color>>, w: nat, img: Image, k: int, k': int)
    requires IsGrid(pixels, w) && w > 0
    ensures FaceContent(pixels, w, Some(img), k) != FacePixels(w, None, k')
  {
    ImageFillsFace(pixels, w, img, k, 0, 0);
    AboutCentreOnPixels(k', w, 0, 0);
  }

  /** `SIDES.map(side => opts[side])`. */
  function CubeSources(opts: Options): (srcs: seq<Option<string>>)
    ensures |srcs| == 6
    ensures forall i :: 0 <= i < 6 ==> srcs[i] == SideSource(opts, Sides[i])
  {
    seq(6, i requires 0 <= i < 6 => SideSource(opts, Sides[i]))
  }

  /** `Promise.all(srcs.map(loadImg))`: every image, or the first failure in order. */
  function LoadAll(host: Host, srcs: seq<Option<string>>): (r: Result<seq<Option<Image>>, Error>)
    ensures r.Success? <==> forall i :: 0 <= i < |srcs| ==> LoadImg(host, srcs[i]).Success?
    ensures r.Success? ==> (|r.value| == |srcs|
      && forall i :: 0 <= i < |srcs| ==> r.value[i] == LoadImg(host, srcs[i]).value)
    ensures r.Failure? ==> exists i :: 0 <= i < |srcs| && LoadImg(host, srcs[i]) == Failure(r.error)
  {
    if srcs == [] then Success([])
    else
      var first := LoadImg(host, srcs[0]);
      if first.Failure? then Failure(first.error)
      else
        var rest := LoadAll(host, srcs[1..]);
        if rest.Failure? then
          assert forall i :: 1 <= i < |srcs| ==> srcs[i] == srcs[1..][i - 1];
          Failure(rest.error)
        else
          assert forall i :: 1 <= i < |srcs| ==> srcs[i] == srcs[1..][i - 1];
          Success([first.value] + rest.value)
  }

  /** The six uploads, face i to cube target POSITIVE_X + i: the shared canvas
      once faces 0 to i are painted on it. */
  function Uploads(w: nat, images: seq<Option<Image>>): (cmds: seq<Cmd>)
    requires |images| == 6
    ensures |cmds| == 6
  {
    seq(6, i requires 0 <= i < 6 => TexImage2D(CubeFace(i), CanvasPixels(CanvasAfter(w, images, FaceTurns, i + 1))))
  }

  /** What `loadCube` holds across its `await`: the canvas and the settled loads. */
  datatype Pending = Pending(canvas: Canvas, images: Result<seq<Option<Image>>, Error>)

  /** The part of `loadCube(ctx)` before the `await`, from create call n: the
      cubemap is created, bound and given its parameters. */
  function CubeHead(d: Driver, n: nat, opts: Options): (cmds: seq<Cmd>)
    ensures |cmds| == 6
  {
    var cubemap := Created(d, n);
    [CreateTexture(cubemap), BindTexture(CubeMap, cubemap)] + DefaultTexCmds(CubeMap, opts.smoothing)
  }

  /** The part of `loadCube(ctx)` after the `await`, on a w x w canvas: a failed
      load rejects, otherwise the six faces are rendered. */
  function FinishRun(n: nat, w: nat, images: Result<seq<Option<Image>>, Error>, host: Host): Run<()>
    requires images.Success? ==> |images.value| == 6
  {
    if images.Failure? then Run(Failure(images.error), [], n)
    else if !host.context2d then Run(Failure(Error(Context2dError)), [], n)
    else Run(Success(()), Uploads(w, images.value), n)
  }

  /** `loadCube(ctx)` from create call n on, awaited to the end. */
  function CubeRun(d: Driver, n: nat, opts: Options, host: Host): Run<()>
  {
    var finish := FinishRun(n + 1, opts.textureLength, LoadAll(host, CubeSources(opts)), host);
    Run(finish.result, CubeHead(d, n, opts) + finish.cmds, n + 1)
  }

  /** A successful load uploads exactly six faces, in increasing order, face i to
      target POSITIVE_X + i, each the size of the canvas, and draws nothing. */
  lemma CubeRunUploadsSixFaces(d: Driver, n: nat, opts: Options, host: Host)
    requires CubeRun(d, n, opts, host).result.Success?
    ensures var cmds := CubeRun(d, n, opts, host).cmds;
      && |cmds| == 12
      && (forall i :: 0 <= i < 6 ==> (cmds[6 + i].TexImage2D? && cmds[6 + i].target == CubeFace(i)
            && IsGrid(cmds[6 + i].pixels.grid, opts.textureLength)))
      && (forall i :: 0 <= i < 6 ==> !cmds[i].TexImage2D?)
      && Draws(cmds) == 0
  {
    var cmds := CubeRun(d, n, opts, host).cmds;
    NoDraws(cmds);
  }

  /** Loading the cube never draws, whatever its outcome. */
  lemma CubeRunDrawsNothing(d: Driver, n: nat, opts: Options, host: Host)
    ensures Draws(CubeRun(d, n, opts, host).cmds) == 0
  {
    NoDraws(CubeRun(d, n, opts, host).cmds);
  }

  /** If any of the six sources fails to load, nothing is uploaded: the failure
      is never replaced by a placeholder. */
  lemma CubeRunLoadFailureUploadsNothing(d: Driver, n: nat, opts: Options, host: Host, i: nat)
    requires i < 6 && LoadImg(host, SideSource(opts, Sides[i])).Failure?
    ensures CubeRun(d, n, opts, host).result.Failure?
    ensures var cmds := CubeRun(d, n, opts, host).cmds;
      forall j :: 0 <= j < |cmds| ==> !cmds[j].TexImage2D?
  {
  }

  /** After a successful load, face i is the checkerboard exactly when its source
      is absent (missing or empty); otherwise it is its image, turned, painted
      over the canvas the previous faces left, which shows through only where
      the image is not opaque. */
  lemma CubeRunPlaceholderExactlyForAbsent(d: Driver, n: nat, opts: Options, host: Host, i: nat)
    requires i < 6 && opts.textureLength > 0
    requires CubeRun(d, n, opts, host).result.Success?
    ensures var face := CubeRun(d, n, opts, host).cmds[6 + i].pixels.grid;
      var src := SideSource(opts, Sides[i]);
      var w, images := opts.textureLength, LoadAll(host, CubeSources(opts)).value;
      && (face == FacePixels(w, None, FaceTurns[i]) <==> !Truthy(src))
      && (Truthy(src) ==>
            && |images| == 6 && images[i] == Some(host.decodable[src.value])
            && face == FaceContent(CanvasAfter(w, images, FaceTurns, i), w, images[i], FaceTurns[i]))
      && (Truthy(src) && host.decodable[src.value].isOpaque ==>
            face == FacePixels(w, Some(host.decodable[src.value]), FaceTurns[i]))
  {
    var src := SideSource(opts, Sides[i]);
    var w, images := opts.textureLength, LoadAll(host, CubeSources(opts)).value;
    if Truthy(src) {
      ImageFaceIsNotPlaceholder(CanvasAfter(w, images, FaceTurns, i), w, host.decodable[src.value], FaceTurns[i], FaceTurns[i]);
    }
    if !Truthy(src) || host.decodable[src.value].isOpaque {
      CanvasAfterCovered(w, images, FaceTurns, i);
    }
  }

  /** `rotateFace(ctx, width, k * pi / 2)`: translate to the centre, turn, translate back. */
  method RotateFace(canvas: Canvas, width: real, k: int)
    modifies canvas`ctm
    ensures canvas.ctm == Translated(Rotated(Translated(old(canvas.ctm), width / 2.0, width / 2.0), k), -width / 2.0, -width / 2.0)
  {
    canvas.Translate(width / 2.0, width / 2.0);
    canvas.Rotate(k);
    canvas.Translate(-width / 2.0, -width / 2.0);
  }

  /** `drawMissingTexture(ctx, width)`. */
  method DrawMissingTexture(canvas: Canvas, width: nat)
    requires canvas.Valid() && canvas.width == width
    modifies canvas`pixels, canvas`fillStyle
    ensures canvas.Valid()
    ensures canvas.pixels == Placeholder(old(canvas.pixels), width, canvas.ctm)
    ensures canvas.fillStyle == Magenta
  {
    canvas.SetFillStyle(Black);
    canvas.FillRect(0.0, 0.0, width as real, width as real);
    canvas.SetFillStyle(Magenta);
    canvas.FillRect(0.0, 0.0, width as real / 2.0, width as real / 2.0);
    canvas.FillRect(width as real / 2.0, width as real / 2.0, width as real, width as real);
  }

  /** `renderFace(image, index)`: between `save` and `restore` the face is turned,
      painted over what the canvas holds and uploaded, so no turn carries over
      to the next face, while the paint does. */
  method RenderFace(gl: Gl, canvas: Canvas, host: Host, image: Option<Image>, index: nat) returns (r: Result<(), Error>)
    requires index < 6
    requires canvas.Valid() && canvas.ctm == Identity && canvas.stack == []
    modifies gl`log, canvas`pixels, canvas`ctm, canvas`stack, canvas`fillStyle
    ensures canvas.Valid() && canvas.ctm == Identity && canvas.stack == []
    ensures !host.context2d ==> r == Failure(Error(Context2dError)) && gl.log == old(gl.log) && canvas.pixels == old(canvas.pixels)
    ensures host.context2d ==> (r == Success(())
      && canvas.pixels == FaceContent(old(canvas.pixels), canvas.width, image, FaceTurns[index])
      && gl.log == old(gl.log) + [TexImage2D(CubeFace(index), CanvasPixels(canvas.pixels))])
  {
    if !host.context2d {
      return Failure(Error(Context2dError));
    }
    var width := canvas.width;
    canvas.Save();
    RotateFace(canvas, width as real, FaceTurns[index]);
    assert canvas.ctm == AboutCentre(FaceTurns[index], width as real / 2.0);
    if image.Some? {
      canvas.DrawImage(image.value, 0.0, 0.0, width as real, width as real);
    } else {
      DrawMissingTexture(canvas, width);
    }
    gl.TexImage2D(CubeFace(index), CanvasPixels(canvas.pixels));
    canvas.Restore();
    r := Success(());
  }

  /** `images.forEach(renderFace)` on a fresh canvas: the six faces in order,
      stopping at the first face that fails. */
  method RenderFaces(gl: Gl, canvas: Canvas, host: Host, images: seq<Option<Image>>) returns (r: Result<(), Error>)
    requires |images| == 6
    requires canvas.Valid() && canvas.pixels == Blank(canvas.width) && canvas.ctm == Identity && canvas.stack == []
    modifies gl`log, canvas`pixels, canvas`ctm, canvas`stack, canvas`fillStyle
    ensures !host.context2d ==> r == Failure(Error(Context2dError)) && gl.log == old(gl.log)
    ensures host.context2d ==> (r == Success(()) && gl.log == old(gl.log) + Uploads(canvas.width, images))
  {
    for i := 0 to 6
      invariant canvas.Valid() && canvas.ctm == Identity && canvas.stack == []
      invariant canvas.pixels == CanvasAfter(canvas.width, images, FaceTurns, i)
      invariant gl.log == old(gl.log) + Uploads(canvas.width, images)[..i]
      invariant i > 0 ==> host.context2d
    {
      var face := RenderFace(gl, canvas, host, images[i], i);
      if face.Failure? {
        return face;
      }
      assert Uploads(canvas.width, images)[..i + 1] == Uploads(canvas.width, images)[..i] + [Uploads(canvas.width, images)[i]];
    }
    assert Uploads(canvas.width, images)[..6] == Uploads(canvas.width, images);
    r := Success(());
  }

  /** `loadCube(ctx)` up to its `await`: the canvas is made, the cubemap is
      created, bound and set up, and the six loads are started. */
  method StartCube(ctx: Ctx, host: Host) returns (p: Pending)
    requires ctx.gl.Valid()
    modifies ctx.gl`log, ctx.gl`next, ctx.gl`textures
    ensures ctx.gl.Valid()
    ensures ctx.gl.log == old(ctx.gl.log) + CubeHead(ctx.gl.driver, old(ctx.gl.next), ctx.opts) && ctx.gl.next == old(ctx.gl.next) + 1
    ensures fresh(p.canvas) && p.canvas.Valid() && p.canvas.width == ctx.opts.textureLength
    ensures p.canvas.pixels == Blank(p.canvas.width) && p.canvas.ctm == Identity && p.canvas.stack == []
    ensures p.images == LoadAll(host, CubeSources(ctx.opts))
  {
    var gl, opts := ctx.gl, ctx.opts;
    var canvas := new Canvas(opts.textureLength);
    var cubemap := gl.CreateTexture();
    gl.BindTexture(CubeMap, cubemap);
    DefaultTex(gl, CubeMap, opts.smoothing);
    p := Pending(canvas, LoadAll(host, CubeSources(opts)));
  }

  /** `loadCube(ctx)` after its `await`: a failed load rejects, otherwise the
      faces are rendered on the pending canvas. */
  method FinishCube(gl: Gl, p: Pending, host: Host) returns (r: Result<(), Error>)
    requires p.images.Success? ==> |p.images.value| == 6
    requires p.canvas.Valid() && p.canvas.pixels == Blank(p.canvas.width) && p.canvas.ctm == Identity && p.canvas.stack == []
    modifies gl`log, p.canvas`pixels, p.canvas`ctm, p.canvas`stack, p.canvas`fillStyle
    ensures var finish := FinishRun(gl.next, p.canvas.width, p.images, host);
      r == finish.result && gl.log == old(gl.log) + finish.cmds
  {
    if p.images.Failure? {
      return Failure(p.images.error);
    }
    r := RenderFaces(gl, p.canvas, host, p.images.value);
  }

  /** `loadCube(ctx)`, awaited to the end. */
  method LoadCube(ctx: Ctx, host: Host) returns (r: Result<(), Error>)
    requires ctx.gl.Valid()
    modifies ctx.gl`log, ctx.gl`next, ctx.gl`textures
    ensures ctx.gl.Valid()
    ensures var run := CubeRun(ctx.gl.driver, old(ctx.gl.next), ctx.opts, host);
      r == run.result && ctx.gl.log == old(ctx.gl.log) + run.cmds && ctx.gl.next == run.next
  {
    var p := StartCube(ctx, host);
    r := FinishCube(ctx.gl, p, host);
  }
}
