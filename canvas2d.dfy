/** The 2-D drawing surface the cube loader paints each face on: a square grid of
    pixels, the current transformation and the save/restore stack of the
    canvas API. Every angle the source rotates by is a multiple of pi/2, so the
    transformation is kept exactly as a whole number of quarter turns followed
    by a translation. A pixel takes a paint when its centre lies in the painted
    shape; partial coverage (anti-aliasing) is not represented. */
module Canvas2D {

  /** A decoded raster image: its identity, and whether every one of its texels
      is fully opaque (an image with an alpha channel may not be). */
  datatype Image = Image(id: nat, isOpaque: bool)

  /** What a pixel holds: nothing yet, a solid colour, the point (u, v) of an
      opaque image, or the point (u, v) of an image that may be translucent
      composited source-over onto what the pixel held before. Colours are
      compared as terms: equal terms are the same colour, while two different
      terms may still look alike (a fully transparent texel over `below` looks
      like `below`). */
  datatype Color =
    | Transparent
    | Black
    | Magenta
    | Texel(image: Image, u: real, v: real)
    | Over(image: Image, u: real, v: real, below: Color)

  /** Cosine and sine of k quarter turns. */
  function QCos(k: int): int { var r := k % 4; if r == 0 then 1 else if r == 2 then -1 else 0 }

  function QSin(k: int): int { var r := k % 4; if r == 1 then 1 else if r == 3 then -1 else 0 }

  /** The current transformation: a user point p lands on the device point
      R(turns) p + (tx, ty), where R(k) rotates by k quarter turns the way the
      canvas `rotate` does (clockwise on screen, since y grows downwards). */
  datatype Transform = Transform(turns: int, tx: real, ty: real)

  const Identity := Transform(0, 0.0, 0.0)

  /** `translate(dx, dy)`: the translation is applied to user points first. */
  function Translated(m: Transform, dx: real, dy: real): (r: Transform)
    ensures r.turns == m.turns
  {
    var c, s := QCos(m.turns) as real, QSin(m.turns) as real;
    Transform(m.turns, m.tx + c * dx - s * dy, m.ty + s * dx + c * dy)
  }

  /** `rotate(k * pi / 2)`. */
  function Rotated(m: Transform, k: int): (r: Transform)
    ensures r.turns == m.turns + k
  {
    Transform(m.turns + k, m.tx, m.ty)
  }

  function ToDevice(m: Transform, ux: real, uy: real): (real, real)
  {
    var c, s := QCos(m.turns) as real, QSin(m.turns) as real;
    (c * ux - s * uy + m.tx, s * ux + c * uy + m.ty)
  }

  /** The user point that the transformation sends to the device point (dx, dy). */
  function ToUser(m: Transform, dx: real, dy: real): (real, real)
  {
    var c, s := QCos(m.turns) as real, QSin(m.turns) as real;
    var ex, ey := dx - m.tx, dy - m.ty;
    (c * ex + s * ey, c * ey - s * ex)
  }

  /** ToUser undoes ToDevice, so painting "where the inverse lands in the shape"
      is painting the transformed shape. */
  lemma ToUserUndoesToDevice(m: Transform, ux: real, uy: real)
    ensures ToUser(m, ToDevice(m, ux, uy).0, ToDevice(m, ux, uy).1) == (ux, uy)
  {
    var r := m.turns % 4;
    if r == 0 {
      assert QCos(m.turns) == 1 && QSin(m.turns) == 0;
    } else if r == 1 {
      assert QCos(m.turns) == 0 && QSin(m.turns) == 1;
    } else if r == 2 {
      assert QCos(m.turns) == -1 && QSin(m.turns) == 0;
    } else {
      assert QCos(m.turns) == 0 && QSin(m.turns) == -1;
    }
  }

  /** The transformation `translate(c, c); rotate(k pi/2); translate(-c, -c)` builds
      from the identity: a rotation about the point (c, c). */
  function AboutCentre(k: int, c: real): Transform
  {
    Translated(Rotated(Translated(Identity, c, c), k), -c, -c)
  }

  /** The centre of pixel i along one axis. */
  function Centre(i: int): real { i as real + 0.5 }

  /** The pixel of an unrotated w x w grid whose centre a rotation by k quarter
      turns about the grid's centre carries to pixel (x, y). */
  function SourcePixel(k: int, w: int, x: int, y: int): (int, int)
  {
    var r := k % 4;
    if r == 0 then (x, y)
    else if r == 1 then (y, w - 1 - x)
    else if r == 2 then (w - 1 - x, w - 1 - y)
    else (w - 1 - y, x)
  }

  /** A rotation by quarter turns about the centre of the square maps the centres
      of its pixels onto centres of its pixels: the square onto itself. */
  lemma AboutCentreOnPixels(k: int, w: nat, x: int, y: int)
    requires 0 <= x < w && 0 <= y < w
    ensures var (sx, sy) := SourcePixel(k, w, x, y);
      && 0 <= sx < w && 0 <= sy < w
      && ToUser(AboutCentre(k, w as real / 2.0), Centre(x), Centre(y)) == (Centre(sx), Centre(sy))
  {
    var c := w as real / 2.0;
    var r := k % 4;
    var m := AboutCentre(k, c);
    assert Translated(Identity, c, c) == Transform(0, c, c);
    if r == 0 {
      assert QCos(k) == 1 && QSin(k) == 0;
      assert m == Transform(k, 0.0, 0.0);
    } else if r == 1 {
      assert QCos(k) == 0 && QSin(k) == 1;
      assert m == Transform(k, 2.0 * c, 0.0);
    } else if r == 2 {
      assert QCos(k) == -1 && QSin(k) == 0;
      assert m == Transform(k, 2.0 * c, 2.0 * c);
    } else {
      assert QCos(k) == 0 && QSin(k) == -1;
      assert m == Transform(k, 0.0, 2.0 * c);
    }
  }

  /** An axis-aligned rectangle of the user space, half-open on its far sides. */
  datatype Rect = Rect(x: real, y: real, w: real, h: real)

  predicate Covers(r: Rect, ux: real, uy: real)
  {
    r.x <= ux < r.x + r.w && r.y <= uy < r.y + r.h
  }

  /** What a drawing call lays down: a fill colour, or an image stretched over the rectangle. */
  datatype Paint = Solid(color: Color) | Picture(image: Image)

  /** The colour a paint lays at the user-space point (ux, uy) over `below`:
      solid fills and opaque images replace it, other images are composited onto it. */
  function PaintAt(p: Paint, ux: real, uy: real, below: Color): Color
  {
    match p
    case Solid(c) => c
    case Picture(img) => if img.isOpaque then Texel(img, ux, uy) else Over(img, ux, uy, below)
  }

  /** The colour of pixel (x, y) after painting the rectangle r under m over `before`. */
  function PixelAfter(before: Color, m: Transform, r: Rect, p: Paint, x: int, y: int): Color
  {
    var u := ToUser(m, Centre(x), Centre(y));
    if Covers(r, u.0, u.1) then PaintAt(p, u.0, u.1, before) else before
  }

  /** A w x w grid of pixels, row by row. */
  ghost predicate IsGrid(pixels: seq<seq<Color>>, w: nat)
  {
    |pixels| == w && forall y :: 0 <= y < w ==> |pixels[y]| == w
  }

  function Blank(w: nat): (g: seq<seq<Color>>)
    ensures IsGrid(g, w)
    ensures forall y, x :: 0 <= y < w && 0 <= x < w ==> g[y][x] == Transparent
  {
    seq(w, _ => seq(w, _ => Transparent))
  }

  /** The grid after one rectangle is painted under m: pixels outside the canvas
      do not exist, so whatever overruns the grid is clipped. */
  function Painted(pixels: seq<seq<Color>>, w: nat, m: Transform, r: Rect, p: Paint): (g: seq<seq<Color>>)
    requires IsGrid(pixels, w)
    ensures IsGrid(g, w)
    ensures forall y, x :: 0 <= y < w && 0 <= x < w ==> g[y][x] == PixelAfter(pixels[y][x], m, r, p, x, y)
  {
    seq(w, y requires 0 <= y < w => seq(w, x requires 0 <= x < w => PixelAfter(pixels[y][x], m, r, p, x, y)))
  }

  class Canvas {
    const width: nat
    var pixels: seq<seq<Color>>
    var ctm: Transform
    var stack: seq<Transform>
    var fillStyle: Color

    ghost predicate Valid()
      reads this
    {
      IsGrid(pixels, width)
    }

    /** A fresh canvas: transparent, untransformed, black fill style. */
    constructor (width: nat)
      ensures Valid() && this.width == width
      ensures pixels == Blank(width) && ctm == Identity && stack == [] && fillStyle == Black
    {
      this.width := width;
      pixels := Blank(width);
      ctm := Identity;
      stack := [];
      fillStyle := Black;
    }

    method Save()
      modifies this`stack
      ensures stack == old(stack) + [ctm]
    {
      stack := stack + [ctm];
    }

    /** `restore()` pops the saved state; with nothing saved it does nothing. */
    method Restore()
      modifies this`stack, this`ctm
      ensures old(stack) == [] ==> stack == [] && ctm == old(ctm)
      ensures old(stack) != [] ==> stack == old(stack)[..|old(stack)| - 1] && ctm == old(stack)[|old(stack)| - 1]
    {
      if stack != [] {
        ctm := stack[|stack| - 1];
        stack := stack[..|stack| - 1];
      }
    }

    method Translate(dx: real, dy: real)
      modifies this`ctm
      ensures ctm == Translated(old(ctm), dx, dy)
    {
      ctm := Translated(ctm, dx, dy);
    }

    /** `rotate(quarters * pi / 2)`. */
    method Rotate(quarters: int)
      modifies this`ctm
      ensures ctm == Rotated(old(ctm), quarters)
    {
      ctm := Rotated(ctm, quarters);
    }

    method SetFillStyle(c: Color)
      modifies this`fillStyle
      ensures fillStyle == c
    {
      fillStyle := c;
    }

    method FillRect(x: real, y: real, w: real, h: real)
      requires Valid()
      modifies this`pixels
      ensures Valid()
      ensures pixels == Painted(old(pixels), width, ctm, Rect(x, y, w, h), Solid(fillStyle))
    {
      pixels := Painted(pixels, width, ctm, Rect(x, y, w, h), Solid(fillStyle));
    }

    method DrawImage(img: Image, x: real, y: real, w: real, h: real)
      requires Valid()
      modifies this`pixels
      ensures Valid()
      ensures pixels == Painted(old(pixels), width, ctm, Rect(x, y, w, h), Picture(img))
    {
      pixels := Painted(pixels, width, ctm, Rect(x, y, w, h), Picture(img));
    }
  }
}
