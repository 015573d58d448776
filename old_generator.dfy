/** old/old-generator.js: the first version of the generator. Its geometry uses
    a grid sampler instead of the Fibonacci one, its shaders are GLSL strings,
    and its `TextureMap` class assembles the cubemap on a 2-D canvas. */
module OldGenerator {
  import opened Wrappers
  import opened Vectors
  import opened Canvas2D
  import opened WebGL
  import opened Common
  import Cubemap
  import Geometry
  import Orthographic

  /** The old face order: west and south are swapped against `Sides`. */
  const OldSides: seq<Direction> := [North, West, South, East, Up, Down]

  lemma OldSidesSwapsWestAndSouth()
    ensures |OldSides| == 6
    ensures OldSides[1] == Sides[2] && OldSides[2] == Sides[1]
    ensures forall i :: 0 <= i < 6 && i != 1 && i != 2 ==> OldSides[i] == Sides[i]
  {
  }

  /** `getUV(face, point)`: the same rule as the current `mapUV`. */
  function GetUV(face: Direction, point: Vec3): (uv: seq<real>)
    ensures uv == Geometry.MapUV(face, point)
    ensures uv[0] + uv[2] == 16.0 && uv[1] + uv[3] == 16.0
  {
    var a := if face in [West, East] then point.z else point.x;
    var b := if face in [Up, Down] then point.z else point.y;
    [8.0 - a, 8.0 - b, 8.0 + a, 8.0 + b]
  }

  // ---------------------------------------------------------------- boxes

  /** The box `generateSphere` builds for the point p: face k is `SIDES[k]`
      with texture `sides[k]` and UVs from 8 p. */
  function OldCubeAt<T>(center: Vec3, size: Vec3, p: Vec3, sides: seq<T>): Geometry.Cuboid<T>
    requires |sides| >= 6
  {
    var corner := Mul(p, Geometry.Half(size));
    Geometry.Cuboid(Add(Neg(corner), center), Add(corner, center), center,
      seq(6, k requires 0 <= k < 6 => Geometry.Face(Some(sides[k]), GetUV(OldSides[k], Scale(8.0, p)))))
  }

  /** The old box has the same corners as the current one, so it is centred on
      the centre and spans p scaled by the size; face k carries the texture of
      the same index, named after that face. */
  lemma OldCubeAtMatchesCurrent<T>(center: Vec3, size: Vec3, p: Vec3, sides: seq<T>)
    requires |sides| >= 6
    ensures var was, now := OldCubeAt(center, size, p, sides), Geometry.CubeAt(center, size, p, sides);
      && was.from == now.from && was.to == now.to && was.origin == now.origin
      && Add(was.to, was.from) == Scale(2.0, center) && Sub(was.to, was.from) == Mul(p, size)
      && forall k :: 0 <= k < 6 ==> was.faces[k].texture == Some(sides[k])
  {
    Geometry.CubeAtSpansPoint(center, size, p, sides);
  }

  /** The body of the `forEach` in `generateSphere`: both corners are computed
      before the point is scaled by 8 in place. */
  method OldBuildCube<T>(point: Vector3, size: Vec3, center: Vec3, sides: seq<T>) returns (cube: Geometry.Cuboid<T>)
    requires |sides| >= 6
    modifies point
    ensures point.Value() == Scale(8.0, old(point.Value()))
    ensures cube == OldCubeAt(center, size, old(point.Value()), sides)
  {
    ghost var p := point.Value();
    var corner := point.Clone();
    corner.Multiply(Geometry.Half(size));
    var to := corner.Clone();
    to.AddVec(center);
    corner.Negate();
    corner.AddVec(center);
    point.MultiplyScalar(8.0);
    var faces := [];
    for k := 0 to |OldSides|
      invariant |faces| == k
      invariant forall j :: 0 <= j < k ==> faces[j] == Geometry.Face(Some(sides[j]), GetUV(OldSides[j], point.Value()))
    {
      faces := faces + [Geometry.Face(Some(sides[k]), GetUV(OldSides[k], point.Value()))];
    }
    cube := Geometry.Cuboid(corner.Value(), to.Value(), center, faces);
  }

  // ---------------------------------------------------------------- grid sampler

  /** The entries of the coordinate template: `i / n`, `j / n` and `1`. */
  datatype Coord = IOverN | JOverN | One

  const Template: seq<Coord> := [IOverN, JOverN, One]

  /** `template.unshift(template.pop())`: the last entry moves to the front. */
  function Rotate(t: seq<Coord>): (r: seq<Coord>)
    requires |t| == 3
    ensures r == [t[2], t[0], t[1]]
  {
    [t[2]] + t[..2]
  }

  /** The template after k rotations. */
  function Rotations(k: nat): (t: seq<Coord>)
    ensures |t| == 3
  {
    if k == 0 then Template else Rotate(Rotations(k - 1))
  }

  /** The template face f is sampled with: it is rotated once before each face. */
  function FaceTemplate(f: nat): (t: seq<Coord>)
    ensures |t| == 3
  {
    Rotations(f + 1)
  }

  /** Face f uses the template rotated f + 1 times, which puts the constant 1 at
      coordinate f; after the three faces the template is back where it started. */
  lemma RotationsCycle()
    ensures FaceTemplate(0) == [One, IOverN, JOverN]
    ensures FaceTemplate(1) == [JOverN, One, IOverN]
    ensures FaceTemplate(2) == Template && Rotations(3) == Template
  {
    assert Rotations(1) == [One, IOverN, JOverN];
    assert Rotations(2) == [JOverN, One, IOverN];
  }

  function CoordValue(c: Coord, i: int, j: int, n: nat): real
    requires n > 0
  {
    match c
    case IOverN => i as real / n as real
    case JOverN => j as real / n as real
    case One => 1.0
  }

  /** `getCoords(i, j)`: the template evaluated at (i, j). */
  function Coords(t: seq<Coord>, i: int, j: int, n: nat): Vec3
    requires |t| == 3 && n > 0
  {
    Vec3(CoordValue(t[0], i, j, n), CoordValue(t[1], i, j, n), CoordValue(t[2], i, j, n))
  }

  /** A grid corner of face f lies on the face of the unit cube where
      coordinate f is 1, with the other two coordinates in [0, 1]. */
  lemma CornerOnCubeFace(f: nat, i: int, j: int, n: nat)
    requires f < 3 && n > 0 && 0 <= i <= n && 0 <= j <= n
    ensures var c := Coords(FaceTemplate(f), i, j, n);
      && (f == 0 ==> c.x == 1.0 && 0.0 <= c.y <= 1.0 && 0.0 <= c.z <= 1.0)
      && (f == 1 ==> c.y == 1.0 && 0.0 <= c.x <= 1.0 && 0.0 <= c.z <= 1.0)
      && (f == 2 ==> c.z == 1.0 && 0.0 <= c.x <= 1.0 && 0.0 <= c.y <= 1.0)
  {
    RotationsCycle();
    FractionInUnit(i, n);
    FractionInUnit(j, n);
  }

  lemma FractionInUnit(i: int, n: nat)
    requires n > 0 && 0 <= i <= n
    ensures 0.0 <= i as real / n as real <= 1.0
  {
    var r := i as real / n as real;
    assert r * (n as real) == i as real;
  }

  /** three.js `a.lerp(b, alpha)`. */
  function Lerp(a: Vec3, b: Vec3, alpha: real): Vec3
  {
    Add(a, Scale(alpha, Sub(b, a)))
  }

  /** The point of cell (i, j) under the template t: halfway between its two
      normalized diagonal corners. */
  function GridPoint(normalize: Vec3 -> Vec3, t: seq<Coord>, n: nat, i: int, j: int): Vec3
    requires |t| == 3 && n > 0
  {
    Lerp(normalize(Coords(t, i, j, n)), normalize(Coords(t, i + 1, j + 1, n)), 0.5)
  }

  /** The first k cells of row i. */
  function Row(normalize: Vec3 -> Vec3, t: seq<Coord>, n: nat, i: int, k: nat): (r: seq<Vec3>)
    requires |t| == 3 && n > 0
    ensures |r| == k
  {
    seq(k, j requires 0 <= j < k => GridPoint(normalize, t, n, i, j))
  }

  /** The first i rows of a face, each of n cells. */
  function Rows(normalize: Vec3 -> Vec3, t: seq<Coord>, n: nat, i: nat): seq<Vec3>
    requires |t| == 3
  {
    if i == 0 || n == 0 then [] else Rows(normalize, t, n, i - 1) + Row(normalize, t, n, i - 1, n)
  }

  /** The points of the first f faces. */
  function Grid(normalize: Vec3 -> Vec3, n: nat, f: nat): seq<Vec3>
  {
    if f == 0 then [] else Grid(normalize, n, f - 1) + Rows(normalize, FaceTemplate(f - 1), n, n)
  }

  lemma {:induction false} RowsSize(normalize: Vec3 -> Vec3, t: seq<Coord>, n: nat, i: nat)
    requires |t| == 3
    ensures |Rows(normalize, t, n, i)| == i * n
  {
    if i > 0 && n > 0 {
      RowsSize(normalize, t, n, i - 1);
    }
  }

  /** The sampler returns 3 n^2 points. */
  lemma {:induction false} GridSize(normalize: Vec3 -> Vec3, n: nat, f: nat)
    ensures |Grid(normalize, n, f)| == f * n * n
  {
    if f > 0 {
      GridSize(normalize, n, f - 1);
      RowsSize(normalize, FaceTemplate(f - 1), n, n);
    }
  }

  /** Every point of the first i rows is the point of a cell (r, j) with r < i and j < n. */
  lemma {:induction false} RowsMembers(normalize: Vec3 -> Vec3, t: seq<Coord>, n: nat, i: nat, p: Vec3)
    requires |t| == 3 && p in Rows(normalize, t, n, i)
    ensures n > 0 && exists r, j :: 0 <= r < i && 0 <= j < n && p == GridPoint(normalize, t, n, r, j)
  {
    var row := Row(normalize, t, n, i - 1, n);
    if p in Rows(normalize, t, n, i - 1) {
      RowsMembers(normalize, t, n, i - 1, p);
    } else {
      var j :| 0 <= j < n && row[j] == p;
      assert p == GridPoint(normalize, t, n, i - 1, j);
    }
  }

  /** Every sampled point is the midpoint of the normalized diagonal corners of a
      cell (i, j), i, j < n, of one of the three faces. */
  lemma {:induction false} GridMembers(normalize: Vec3 -> Vec3, n: nat, f: nat, p: Vec3)
    requires p in Grid(normalize, n, f)
    ensures n > 0 && exists g, i, j :: 0 <= g < f && 0 <= i < n && 0 <= j < n && p == GridPoint(normalize, FaceTemplate(g), n, i, j)
  {
    if p in Grid(normalize, n, f - 1) {
      GridMembers(normalize, n, f - 1, p);
      var g, i, j :| 0 <= g < f - 1 && 0 <= i < n && 0 <= j < n && p == GridPoint(normalize, FaceTemplate(g), n, i, j);
      assert 0 <= g < f;
    } else {
      RowsMembers(normalize, FaceTemplate(f - 1), n, n, p);
      var i, j :| 0 <= i < n && 0 <= j < n && p == GridPoint(normalize, FaceTemplate(f - 1), n, i, j);
    }
  }

  /** `pointsOfSubdividedOctant(n)`, with three.js `normalize` given as `normalize`. */
  method PointsOfSubdividedOctant(n: int, normalize: Vec3 -> Vec3) returns (points: seq<Vec3>)
    ensures points == Grid(normalize, if n > 0 then n else 0, 3)
  {
    ghost var size: nat := if n > 0 then n else 0;
    points := [];
    var template := Template;
    for face := 0 to 3
      invariant template == Rotations(face)
      invariant points == Grid(normalize, size, face)
    {
      template := [template[2]] + template[..2];
      assert template == FaceTemplate(face);
      ghost var before := points;
      var i := 0;
      while i < n
        invariant 0 <= i && (n > 0 ==> i <= n) && (n <= 0 ==> i == 0)
        invariant points == before + Rows(normalize, template, size, i)
      {
        ghost var rowStart := points;
        var j := 0;
        while j < n
          invariant 0 <= j <= n
          invariant points == rowStart + Row(normalize, template, size, i, j)
        {
          var corner1 := normalize(Coords(template, i, j, n));
          var corner2 := normalize(Coords(template, i + 1, j + 1, n));
          points := points + [Lerp(corner1, corner2, 0.5)];
          assert Row(normalize, template, size, i, j + 1) == Row(normalize, template, size, i, j) + [GridPoint(normalize, template, size, i, j)];
          j := j + 1;
        }
        i := i + 1;
      }
    }
  }

  // ---------------------------------------------------------------- shaders

  /** The vertex shader of the panorama conversion: the point of cube face
      `face` that quad position (u, v) stands for. For a face outside 0 .. 5 the
      varying is never assigned. */
  function FaceRay(face: int, u: real, v: real): Option<Vec3>
  {
    if face == 0 then Some(Vec3(-v, 1.0, -u))
    else if face == 1 then Some(Vec3(-v, -1.0, u))
    else if face == 2 then Some(Vec3(1.0, u, v))
    else if face == 3 then Some(Vec3(-1.0, u, -v))
    else if face == 4 then Some(Vec3(-v, u, 1.0))
    else if face == 5 then Some(Vec3(-v, -u, -1.0))
    else None
  }

  /** Faces 0 and 1 fix y to 1 and -1, faces 2 and 3 fix x, faces 4 and 5 fix z;
      the other two coordinates are u and v up to sign. */
  lemma FaceRayFixesOneAxis(face: int, u: real, v: real)
    requires 0 <= face < 6
    ensures FaceRay(face, u, v).Some?
    ensures var r := FaceRay(face, u, v).value;
      && (face == 0 ==> r.y == 1.0) && (face == 1 ==> r.y == -1.0)
      && (face == 2 ==> r.x == 1.0) && (face == 3 ==> r.x == -1.0)
      && (face == 4 ==> r.z == 1.0) && (face == 5 ==> r.z == -1.0)
      && (face < 2 ==> Abs(r.x) == Abs(v) && Abs(r.z) == Abs(u))
      && (2 <= face ==> Abs(r.y) == Abs(u))
      && (2 <= face < 4 ==> Abs(r.z) == Abs(v))
      && (4 <= face ==> Abs(r.x) == Abs(v))
  {
  }

  /** Each face's map is one-to-one. */
  lemma FaceRayInjective(face: int, u: real, v: real, u': real, v': real)
    requires 0 <= face < 6 && FaceRay(face, u, v) == FaceRay(face, u', v')
    ensures u == u' && v == v'
  {
  }

  function MaxAbs(r: Vec3): real
  {
    var a := if Abs(r.x) < Abs(r.y) then Abs(r.y) else Abs(r.x);
    if a < Abs(r.z) then Abs(r.z) else a
  }

  /** For positions in the quad, the point lies on the surface of the cube
      [-1, 1]^3: its largest coordinate in absolute value is exactly 1. */
  lemma FaceRayOnCube(face: int, u: real, v: real)
    requires 0 <= face < 6 && -1.0 <= u <= 1.0 && -1.0 <= v <= 1.0
    ensures MaxAbs(FaceRay(face, u, v).value) == 1.0
  {
  }

  /** The hemisphere fragment shader: `rho = length(texCoord)`; when `rho > 1` it
      returns before assigning `gl_FragColor`, so the colour is undefined (None)
      and the fragment is still written, not discarded; otherwise it is the
      colour the projection `shade` computes. */
  function HemisphereFragment<C>(u: real, v: real, rho: real, shade: (real, real) -> C): Option<C>
  {
    if rho > 1.0 then None else Some(shade(u, v))
  }

  /** With rho the length of (u, v), the colour is defined exactly inside the
      unit disc; outside it the shader leaves the colour undefined. */
  lemma ColourDefinedInsideDisc<C>(u: real, v: real, rho: real, shade: (real, real) -> C)
    requires 0.0 <= rho && rho * rho == u * u + v * v
    ensures HemisphereFragment(u, v, rho, shade).Some? <==> u * u + v * v <= 1.0
  {
    if rho > 1.0 {
      assert rho * rho > 1.0 * rho;
    } else {
      assert rho * rho <= 1.0 * rho;
    }
  }

  function Xyz(q: Orthographic.Quat): Vec3
  {
    Vec3(q.x, q.y, q.z)
  }

  /** Line 138 of the hemisphere shader: `d + 2 cross(cross(d, q.xyz) + q.w d, q.xyz)`. */
  function RotateByQuat(d: Vec3, q: Orthographic.Quat): Vec3
  {
    Add(d, Scale(2.0, Cross(Add(Cross(d, Xyz(q)), Scale(q.w, d)), Xyz(q))))
  }

  /** The commented-out line 139: `d + 2 cross(q.xyz, cross(q.xyz, d) + q.w d)`. */
  function RotateByQuatAlternative(d: Vec3, q: Orthographic.Quat): Vec3
  {
    Add(d, Scale(2.0, Cross(Xyz(q), Add(Cross(Xyz(q), d), Scale(q.w, d)))))
  }

  function Conjugate(q: Orthographic.Quat): Orthographic.Quat
  {
    Orthographic.Quat(-q.x, -q.y, -q.z, q.w)
  }

  /** A quaternion with no vector part leaves every direction unchanged. */
  lemma RotateByIdentity(d: Vec3, q: Orthographic.Quat)
    requires q.x == 0.0 && q.y == 0.0 && q.z == 0.0
    ensures RotateByQuat(d, q) == d
  {
    var zero := Vec3(0.0, 0.0, 0.0);
    assert Xyz(q) == zero;
    assert Cross(Add(Cross(d, zero), Scale(q.w, d)), zero) == zero;
    assert Scale(2.0, zero) == zero;
  }

  /** The formula in use is the commented-out one applied with the conjugate
      quaternion, i.e. the inverse rotation. */
  lemma RotateIsAlternativeConjugated(d: Vec3, q: Orthographic.Quat)
    ensures RotateByQuat(d, q) == RotateByQuatAlternative(d, Conjugate(q))
  {
    var a := Xyz(q);
    assert Xyz(Conjugate(q)) == Neg(a);
    assert Cross(d, a) == Neg(Cross(a, d));
    assert Cross(Neg(a), d) == Neg(Cross(a, d));
    var t := Add(Neg(Cross(a, d)), Scale(q.w, d));
    assert Cross(t, a) == Cross(Neg(a), t);
  }

  lemma Lagrange(a: Vec3, b: Vec3)
    ensures Dot(Cross(a, b), Cross(a, b)) == Dot(a, a) * Dot(b, b) - Dot(a, b) * Dot(a, b)
  {
  }

  lemma TripleProduct(a: Vec3, b: Vec3, c: Vec3)
    ensures Dot(a, Cross(b, c)) == Dot(b, Cross(c, a))
    ensures Dot(a, Cross(a, c)) == 0.0 && Dot(c, Cross(a, c)) == 0.0
  {
  }

  lemma DotAddScale(x: Vec3, y: Vec3, z: Vec3, w: real)
    ensures Dot(Add(x, Scale(w, y)), z) == Dot(x, z) + w * Dot(y, z)
  {
  }

  /** For a unit quaternion the formula preserves lengths, as a rotation must. */
  lemma RotateByUnitQuatPreservesLength(d: Vec3, q: Orthographic.Quat)
    requires q.x * q.x + q.y * q.y + q.z * q.z + q.w * q.w == 1.0
    ensures var r := RotateByQuat(d, q); Dot(r, r) == Dot(d, d)
  {
    var a, w := Xyz(q), q.w;
    var c := Cross(d, a);
    var t := Add(c, Scale(w, d));
    var e := Cross(t, a);
    var D, A, P, C := Dot(d, d), Dot(a, a), Dot(d, a), Dot(c, c);
    assert A == 1.0 - w * w;
    var r := RotateByQuat(d, q);
    assert r == Add(d, Scale(2.0, e));
    assert Dot(r, r) == D + 4.0 * Dot(d, e) + 4.0 * Dot(e, e);
    TripleProduct(d, t, a);
    TripleProduct(d, d, a);
    TripleProduct(a, d, a);
    assert Dot(a, Cross(d, a)) == 0.0;
    assert Dot(d, e) == Dot(t, Cross(a, d));
    assert Cross(a, d) == Neg(c);
    DotAddScale(c, d, c, w);
    assert Dot(t, c) == C + w * Dot(d, c);
    assert Dot(d, e) == -C;
    Lagrange(t, a);
    Lagrange(d, a);
    DotAddScale(c, d, t, w);
    DotAddScale(c, d, d, w);
    assert Dot(c, t) == Dot(t, c) && Dot(d, t) == Dot(t, d);
    assert Dot(t, t) == C + w * w * D;
    DotAddScale(c, d, a, w);
    assert Dot(t, a) == w * P;
    assert Dot(e, e) == (C + w * w * D) * A - (w * P) * (w * P);
    assert C == D * A - P * P;
  }

  // ---------------------------------------------------------------- texture map

  /** The quarter turns `loadFromFaces` gives the six uploads, in target order
      +X, -X, +Y, -Y, +Z, -Z. */
  const OldFaceTurns: seq<int> := [-1, 1, 2, 0, -1, -1]

  /** The six uploads of `loadFromFaces`, images in target order: the shared
      canvas once faces 0 to i are painted on it. */
  function OldUploads(length: nat, images: seq<Option<Image>>): (cmds: seq<Cmd>)
    requires |images| == 6
    ensures |cmds| == 6
  {
    seq(6, i requires 0 <= i < 6 => TexImage2D(CubeFace(i), CanvasPixels(Cubemap.CanvasAfter(length, images, OldFaceTurns, i + 1))))
  }

  /** The old table is the one the current cube loader uses, so both upload the
      same faces for the same images. */
  lemma OldUploadsAreCurrentUploads(length: nat, images: seq<Option<Image>>)
    requires |images| == 6
    ensures OldUploads(length, images) == Cubemap.Uploads(length, images)
  {
    assert OldFaceTurns == Cubemap.FaceTurns;
  }

  /** Without images every upload is the checkerboard, turned by the face's
      quarter turns: magenta where (x < w/2) = (y < w/2) on an even number of
      turns, on the other diagonal on an odd number. */
  lemma NoImagesAllPlaceholders(length: nat, i: nat, x: int, y: int)
    requires i < 6 && length % 2 == 0 && 0 <= x < length && 0 <= y < length
    ensures var up := OldUploads(length, [None, None, None, None, None, None])[i];
      && up.target == CubeFace(i)
      && up.pixels.grid[y][x] == if ((x < length / 2) == (y < length / 2)) != (OldFaceTurns[i] % 2 == 1) then Magenta else Black
  {
    Cubemap.CanvasAfterCovered(length, [None, None, None, None, None, None], OldFaceTurns, i);
    Cubemap.PlaceholderPattern(length, OldFaceTurns[i], x, y);
  }

  /** The commands of `loadFromFaces` on a context whose next create call is n. */
  function LoadFromFacesCmds(d: Driver, n: nat, length: nat, smoothing: bool, images: seq<Option<Image>>): seq<Cmd>
    requires |images| == 6
  {
    [CreateTexture(Created(d, n)), BindTexture(CubeMap, Created(d, n))] + DefaultTexCmds(CubeMap, smoothing)
      + OldUploads(length, images)
  }

  /** `class TextureMap`: a WebGL context with the side length of its faces and
      the smoothing flag. */
  class TextureMap {
    const gl: Gl
    const length: nat
    const smoothing: bool

    constructor (gl: Gl, length: nat, smoothing: bool)
      ensures this.gl == gl && this.length == length && this.smoothing == smoothing
    {
      this.gl, this.length, this.smoothing := gl, length, smoothing;
    }

    /** `setTexParameters(textureType)`. */
    method SetTexParameters(target: Target)
      modifies gl`log
      ensures gl.log == old(gl.log) + DefaultTexCmds(target, smoothing)
    {
      DefaultTex(gl, target, smoothing);
    }

    /** The inner `rotate(image, theta)`: the saved state is restored and saved
        again, the canvas is turned about its centre and painted over what it holds. */
    method PaintRotated(canvas: Canvas, image: Option<Image>, k: int)
      requires canvas.Valid() && canvas.width == length
      requires (canvas.stack == [] && canvas.ctm == Identity) || canvas.stack == [Identity]
      modifies canvas`pixels, canvas`ctm, canvas`stack, canvas`fillStyle
      ensures canvas.Valid() && canvas.stack == [Identity]
      ensures canvas.pixels == Cubemap.FaceContent(old(canvas.pixels), length, image, k)
    {
      canvas.Restore();
      canvas.Save();
      Cubemap.RotateFace(canvas, length as real, k);
      assert canvas.ctm == AboutCentre(k, length as real / 2.0);
      if image.Some? {
        canvas.DrawImage(image.value, 0.0, 0.0, length as real, length as real);
      } else {
        Cubemap.DrawMissingTexture(canvas, length);
      }
    }

    /** Paints face i on the canvas and uploads the canvas to target i. */
    method Upload(canvas: Canvas, image: Option<Image>, i: nat)
      requires i < 6 && canvas.Valid() && canvas.width == length
      requires (canvas.stack == [] && canvas.ctm == Identity) || canvas.stack == [Identity]
      modifies gl`log, canvas`pixels, canvas`ctm, canvas`stack, canvas`fillStyle
      ensures canvas.Valid() && canvas.stack == [Identity]
      ensures canvas.pixels == Cubemap.FaceContent(old(canvas.pixels), length, image, OldFaceTurns[i])
      ensures gl.log == old(gl.log) + [TexImage2D(CubeFace(i), CanvasPixels(canvas.pixels))]
    {
      PaintRotated(canvas, image, OldFaceTurns[i]);
      gl.TexImage2D(CubeFace(i), CanvasPixels(canvas.pixels));
    }

    /** `loadFromFaces(north, west, south, east, up, down)`: a cubemap is created
        and the six faces are uploaded, south to -X and west to +Y. */
    method LoadFromFaces(north: Option<Image>, west: Option<Image>, south: Option<Image>,
                         east: Option<Image>, up: Option<Image>, down: Option<Image>)
      requires gl.Valid()
      modifies gl`log, gl`next, gl`textures
      ensures gl.Valid()
      ensures gl.log == old(gl.log)
        + LoadFromFacesCmds(gl.driver, old(gl.next), length, smoothing, [north, south, west, east, up, down])
    {
      var canvas := new Canvas(length);
      var cubemap := gl.CreateTexture();
      gl.BindTexture(CubeMap, cubemap);
      SetTexParameters(CubeMap);
      UploadAll(canvas, [north, south, west, east, up, down]);
    }

    /** The six `texImage2D` calls of `loadFromFaces`, images in target order. */
    method UploadAll(canvas: Canvas, images: seq<Option<Image>>)
      requires |images| == 6 && canvas.Valid() && canvas.width == length
      requires canvas.pixels == Blank(length) && canvas.stack == [] && canvas.ctm == Identity
      modifies gl`log, canvas`pixels, canvas`ctm, canvas`stack, canvas`fillStyle
      ensures gl.log == old(gl.log) + OldUploads(length, images)
    {
      var ups := OldUploads(length, images);
      Upload(canvas, images[0], 0);
      assert canvas.pixels == Cubemap.CanvasAfter(length, images, OldFaceTurns, 1);
      Upload(canvas, images[1], 1);
      assert canvas.pixels == Cubemap.CanvasAfter(length, images, OldFaceTurns, 2);
      Upload(canvas, images[2], 2);
      assert canvas.pixels == Cubemap.CanvasAfter(length, images, OldFaceTurns, 3);
      assert gl.log == old(gl.log) + [ups[0]] + [ups[1]] + [ups[2]];
      Upload(canvas, images[3], 3);
      assert canvas.pixels == Cubemap.CanvasAfter(length, images, OldFaceTurns, 4);
      Upload(canvas, images[4], 4);
      assert canvas.pixels == Cubemap.CanvasAfter(length, images, OldFaceTurns, 5);
      Upload(canvas, images[5], 5);
      assert gl.log == old(gl.log) + [ups[0]] + [ups[1]] + [ups[2]] + [ups[3]] + [ups[4]] + [ups[5]];
      assert ups == [ups[0]] + [ups[1]] + [ups[2]] + [ups[3]] + [ups[4]] + [ups[5]];
    }
  }
}
