/** src/geometry.ts: the voxelizer. Points sampled on the octant x > 0, z > 0
    of the unit sphere become boxes centred on the origin, each face textured
    with one of the six generated textures and given UVs from the point. */
module Geometry {
  import opened Wrappers
  import opened Vectors
  import opened Common

  /** `mapUV(face, point)`: the horizontal UV offset is z on west/east and x
      elsewhere, the vertical one z on up/down and y elsewhere, both around 8. */
  function MapUV(face: Direction, point: Vec3): (uv: seq<real>)
    ensures |uv| == 4
    ensures uv[0] + uv[2] == 16.0 && uv[1] + uv[3] == 16.0
  {
    var a := if face == West || face == East then point.z else point.x;
    var b := if face == Up || face == Down then point.z else point.y;
    [8.0 - a, 8.0 - b, 8.0 + a, 8.0 + b]
  }

  /** Opposite faces of a box receive the same UVs. */
  lemma MapUVOppositeFaces(point: Vec3)
    ensures MapUV(North, point) == MapUV(South, point)
    ensures MapUV(West, point) == MapUV(East, point)
    ensures MapUV(Up, point) == MapUV(Down, point)
  {
  }

  /** For a point in the unit cube, the UVs of the point scaled by 8 stay within
      the 16 x 16 texture. */
  lemma MapUVInTexture(face: Direction, point: Vec3)
    requires Abs(point.x) <= 1.0 && Abs(point.y) <= 1.0 && Abs(point.z) <= 1.0
    ensures forall k :: 0 <= k < 4 ==> 0.0 <= MapUV(face, Scale(8.0, point))[k] <= 16.0
  {
    var uv := MapUV(face, Scale(8.0, point));
    assert -8.0 <= 8.0 * point.x <= 8.0 && -8.0 <= 8.0 * point.y <= 8.0 && -8.0 <= 8.0 * point.z <= 8.0;
  }

  /** The maths the sampler calls: `Math.acos`, the Fibonacci angle
      `2 * PI * i / goldenRatio` of sample i, and three.js
      `setFromSphericalCoords(1, phi, theta)`. */
  datatype Maths = Maths(acos: real -> real, angle: nat -> real, fromSpherical: (real, real) -> Vec3)

  /** `n = points * 4`, as the number of indices the loop visits. */
  function SampleCount(points: int): (n: nat)
    ensures n == 0 <==> points <= 0
    ensures points > 0 ==> n == 4 * points
  {
    if points > 0 then 4 * points else 0
  }

  /** The argument `1 - i / n` of `acos` for sample i. */
  function AcosArgument(i: nat, n: nat): real
    requires i < n
  {
    1.0 - (i as real) / (n as real)
  }

  /** The argument of `acos` is always within its domain: in (0, 1]. */
  lemma AcosArgumentInDomain(i: nat, n: nat)
    requires i < n
    ensures 0.0 < AcosArgument(i, n) <= 1.0
  {
    var r := (i as real) / (n as real);
    assert r * (n as real) == i as real;
    assert 0.0 <= r;
  }

  /** Sample i of n on the unit sphere. */
  function Sample(m: Maths, i: nat, n: nat): Vec3
    requires i < n
  {
    m.fromSpherical(m.acos(AcosArgument(i, n)), m.angle(i))
  }

  predicate InOctant(v: Vec3)
  {
    v.x > 0.0 && v.z > 0.0
  }

  /** The samples among the first k of n that lie in the octant, in index order. */
  function OctantSamples(m: Maths, n: nat, k: nat): (vs: seq<Vec3>)
    requires k <= n
    ensures |vs| <= k
    ensures forall v :: v in vs ==> InOctant(v)
  {
    if k == 0 then []
    else
      var v := Sample(m, k - 1, n);
      OctantSamples(m, n, k - 1) + (if InOctant(v) then [v] else [])
  }

  /** A point is kept exactly when it is one of the samples and lies in the octant. */
  lemma {:induction false} OctantSamplesMembers(m: Maths, n: nat, k: nat, v: Vec3)
    requires k <= n
    ensures v in OctantSamples(m, n, k) <==> InOctant(v) && exists i :: 0 <= i < k && Sample(m, i, n) == v
  {
    if k > 0 {
      OctantSamplesMembers(m, n, k - 1, v);
      if InOctant(v) && exists i :: 0 <= i < k && Sample(m, i, n) == v {
        var i :| 0 <= i < k && Sample(m, i, n) == v;
        if i < k - 1 {
          assert v in OctantSamples(m, n, k - 1);
        }
      }
    }
  }

  /** Samples are kept in increasing index order: one more index extends the
      previous result, by that sample when it lies in the octant. */
  lemma OctantSamplesExtend(m: Maths, n: nat, k: nat)
    requires k < n
    ensures var before, after := OctantSamples(m, n, k), OctantSamples(m, n, k + 1);
      after[..|before|] == before
      && |after| == |before| + (if InOctant(Sample(m, k, n)) then 1 else 0)
      && (InOctant(Sample(m, k, n)) ==> after[|before|] == Sample(m, k, n))
  {
  }

  /** `subdivideOctant(points)`: indices 0 .. 4 * points - 1 in increasing order,
      keeping the samples with x > 0 and z > 0. */
  method SubdivideOctant(points: int, m: Maths) returns (verts: seq<Vec3>)
    ensures verts == OctantSamples(m, SampleCount(points), SampleCount(points))
    ensures |verts| <= SampleCount(points) && forall v :: v in verts ==> InOctant(v)
    ensures points <= 0 ==> verts == []
  {
    var n := points * 4;
    ghost var count := SampleCount(points);
    verts := [];
    var i := 0;
    while i < n
      invariant 0 <= i && (n > 0 ==> i <= n) && (n <= 0 ==> i == 0)
      invariant n > 0 ==> n == count
      invariant verts == OctantSamples(m, count, i)
    {
      AcosArgumentInDomain(i, count);
      var phi := m.acos(1.0 - (i as real) / (n as real));
      var vert := m.fromSpherical(phi, m.angle(i));
      if vert.x > 0.0 && vert.z > 0.0 {
        verts := verts + [vert];
      }
      i := i + 1;
    }
  }

  /** A face of a generated box: its texture (`undefined` past the end of the
      texture list) and its UV rectangle. */
  datatype Face<T> = Face(texture: Option<T>, uv: seq<real>)

  /** A generated box: corners, rotation origin, and its faces in side order. */
  datatype Cuboid<T> = Cuboid(from: Vec3, to: Vec3, origin: Vec3, faces: seq<Face<T>>)

  /** `size.map(i => i / 2)`. */
  function Half(size: Vec3): Vec3
  {
    Vec3(size.x / 2.0, size.y / 2.0, size.z / 2.0)
  }

  /** `textures[i]`. */
  function TextureAt<T>(textures: seq<T>, i: nat): Option<T>
  {
    if i < |textures| then Some(textures[i]) else None
  }

  /** The box generated for the sample p. */
  function CubeAt<T>(origin: Vec3, size: Vec3, p: Vec3, textures: seq<T>): Cuboid<T>
  {
    var corner := Mul(p, Half(size));
    Cuboid(Add(Neg(corner), origin), Add(corner, origin), origin,
           seq(6, i requires 0 <= i < 6 => Face(TextureAt(textures, i), MapUV(Sides[i], Scale(8.0, p)))))
  }

  /** The box is centred on the origin and spans p scaled by the size. */
  lemma CubeAtSpansPoint<T>(origin: Vec3, size: Vec3, p: Vec3, textures: seq<T>)
    ensures var c := CubeAt(origin, size, p, textures);
      Add(c.to, c.from) == Scale(2.0, origin) && Sub(c.to, c.from) == Mul(p, size)
  {
    var c := CubeAt(origin, size, p, textures);
    assert p.x * (size.x / 2.0) + p.x * (size.x / 2.0) == p.x * size.x;
    assert p.y * (size.y / 2.0) + p.y * (size.y / 2.0) == p.y * size.y;
    assert p.z * (size.z / 2.0) + p.z * (size.z / 2.0) == p.z * size.z;
  }

  /** Face i of the box is side i, with texture i and UVs from 8 p; a point of
      the unit cube gives UVs inside the texture. */
  lemma CubeAtFaces<T>(origin: Vec3, size: Vec3, p: Vec3, textures: seq<T>, i: nat)
    requires i < 6
    ensures var f := CubeAt(origin, size, p, textures).faces[i];
      && (i < |textures| ==> f.texture == Some(textures[i]))
      && |f.uv| == 4 && f.uv[0] + f.uv[2] == 16.0 && f.uv[1] + f.uv[3] == 16.0
      && (Abs(p.x) <= 1.0 && Abs(p.y) <= 1.0 && Abs(p.z) <= 1.0 ==> forall k :: 0 <= k < 4 ==> 0.0 <= f.uv[k] <= 16.0)
  {
    if Abs(p.x) <= 1.0 && Abs(p.y) <= 1.0 && Abs(p.z) <= 1.0 {
      MapUVInTexture(Sides[i], p);
    }
  }

  /** The body of the `map` over the samples: the corner is taken from the point
      before the point is scaled by 8 in place, and `to` is cloned from the corner
      before the corner is negated in place. */
  method BuildCube<T>(point: Vector3, scaling: Vec3, origin: Vec3, textures: seq<T>) returns (cube: Cuboid<T>)
    modifies point
    ensures point.Value() == Scale(8.0, old(point.Value()))
    ensures cube.to == Add(Mul(old(point.Value()), scaling), origin)
    ensures cube.from == Add(Neg(Mul(old(point.Value()), scaling)), origin)
    ensures cube.origin == origin && |cube.faces| == 6
    ensures forall i :: 0 <= i < 6 ==> cube.faces[i] == Face(TextureAt(textures, i), MapUV(Sides[i], point.Value()))
  {
    var corner := point.Clone();
    corner.Multiply(scaling);
    point.MultiplyScalar(8.0);
    var to := corner.Clone();
    to.AddVec(origin);
    corner.Negate();
    corner.AddVec(origin);
    var faces := [];
    for i := 0 to |Sides|
      invariant |faces| == i
      invariant forall j :: 0 <= j < i ==> faces[j] == Face(TextureAt(textures, j), MapUV(Sides[j], point.Value()))
    {
      faces := faces + [Face(TextureAt(textures, i), MapUV(Sides[i], point.Value()))];
    }
    cube := Cuboid(corner.Value(), to.Value(), origin, faces);
  }

  /** The element-building part of `generate(opts)`, once the textures are loaded: one box per
      kept sample, in sample order. */
  method BuildElements<T>(opts: Options, textures: seq<T>, m: Maths) returns (elements: seq<Cuboid<T>>)
    ensures var samples := OctantSamples(m, SampleCount(opts.geometryDetail), SampleCount(opts.geometryDetail));
      |elements| == |samples|
      && forall i :: 0 <= i < |samples| ==> elements[i] == CubeAt(opts.origin, opts.size, samples[i], textures)
  {
    var scaling := Half(opts.size);
    var verts := SubdivideOctant(opts.geometryDetail, m);
    elements := [];
    for i := 0 to |verts|
      invariant |elements| == i
      invariant forall j :: 0 <= j < i ==> elements[j] == CubeAt(opts.origin, opts.size, verts[j], textures)
    {
      var point := new Vector3(verts[i]);
      var cube := BuildCube(point, scaling, opts.origin, textures);
      assert cube == CubeAt(opts.origin, opts.size, verts[i], textures);
      elements := elements + [cube];
    }
  }
}
