/** src/texture/orthographic.ts: rendering the cubemap into six orthographic
    hemisphere views. One program is built and given the model rotation; each
    view sets the viewing angle, draws the quad and captures the canvas. */
module Orthographic {
  import opened Wrappers
  import opened Vectors
  import opened WebGL
  import opened Common

  /** The sources of the cube-to-hemisphere shaders (src/shaders/cubeToHemi.vert and .frag). */
  const HemiVert := "cubeToHemi.vert"
  const HemiFrag := "cubeToHemi.frag"

  /** The (phi, theta) of the six views in quarter turns: (0, i) for i = 0..3,
      then (pi/2, pi) and (-pi/2, pi). */
  const HemisphereAngles: seq<(int, int)> := [(0, 0), (0, 1), (0, 2), (0, 3), (1, 2), (-1, 2)]

  /** A unit quaternion (x, y, z, w). */
  datatype Quat = Quat(x: real, y: real, z: real, w: real)

  /** The `rotation` uniform: `uniform4f(quat.x, quat.y, quat.z, quat.w)`. */
  function RotationValue(q: Quat): UniformValue
  {
    Float4(q.x, q.y, q.z, q.w)
  }

  /** The `angle` uniform of view i. */
  function AngleValue(i: nat): UniformValue
    requires i < 6
  {
    QuarterTurns2(HemisphereAngles[i].0, HemisphereAngles[i].1)
  }

  /** Command j of the six renders: view j / 3 sets the angle, draws, captures. */
  function RenderCmd(j: nat): Cmd
    requires j < 18
  {
    if j % 3 == 0 then SetUniform(AngleUniform, AngleValue(j / 3))
    else if j % 3 == 1 then DrawQuad
    else ReadCanvas
  }

  /** The first k renders. */
  function Renders(k: nat): (cmds: seq<Cmd>)
    requires k <= 6
    ensures |cmds| == 3 * k
  {
    seq(3 * k, j requires 0 <= j < 3 * k => RenderCmd(j))
  }

  lemma RendersStep(k: nat)
    requires k < 6
    ensures Renders(k + 1) == Renders(k) + [SetUniform(AngleUniform, AngleValue(k)), DrawQuad, ReadCanvas]
  {
    assert (3 * k) / 3 == k && (3 * k + 1) / 3 == k && (3 * k + 2) / 3 == k;
    var a, b := Renders(k + 1), Renders(k);
    assert forall j :: 0 <= j < 3 * k ==> a[j] == b[j];
  }

  /** What view i captures when the program p with rotation q draws to the canvas. */
  function View(p: Handle, q: Quat, i: nat): Frame
    requires i < 6
  {
    Frame(Some(p), map[RotationUniform := RotationValue(q), AngleUniform := AngleValue(i)])
  }

  /** The six captures: the views when drawing to the canvas, otherwise whatever
      the canvas showed before. */
  function Views(p: Handle, q: Quat, toCanvas: bool, shown: Option<Frame>): (frames: seq<Option<Frame>>)
    ensures |frames| == 6
  {
    seq(6, i requires 0 <= i < 6 => if toCanvas then Some(View(p, q, i)) else shown)
  }

  /** The uniforms of a fresh program after the rotation and k views. */
  function UniformsAfter(q: Quat, k: nat): map<Uniform, UniformValue>
    requires k <= 6
  {
    if k == 0 then map[RotationUniform := RotationValue(q)]
    else map[RotationUniform := RotationValue(q), AngleUniform := AngleValue(k - 1)]
  }

  /** `renderOrthogonalHemispheres(ctx)` from create call n, with the canvas as
      target when `toCanvas` (no framebuffer bound), otherwise the captures all
      show the previous canvas `shown`. */
  function HemisphereRun(d: Driver, n: nat, q: Quat, toCanvas: bool, shown: Option<Frame>): Run<seq<Option<Frame>>>
  {
    var pr := ProgramRun(d, n, HemiVert, HemiFrag);
    if pr.result.Failure? then Run(Failure(pr.result.error), pr.cmds, pr.next)
    else
      var p := pr.result.value;
      Run(Success(Views(p, q, toCanvas, shown)), pr.cmds + (UseCmds(p) + [SetUniform(RotationUniform, RotationValue(q))] + Renders(6)), pr.next)
  }

  /** Six views, in render order, with phi 0 and theta 0..3 quarter turns for the
      first four, then (pi/2, pi) and (-pi/2, pi); every view has the same rotation. */
  lemma HemisphereRunViews(d: Driver, n: nat, q: Quat, shown: Option<Frame>)
    requires HemisphereRun(d, n, q, true, shown).result.Success?
    ensures var frames := HemisphereRun(d, n, q, true, shown).result.value;
      && |frames| == 6
      && (forall i :: 0 <= i < 4 ==> frames[i].Some? && frames[i].value.uniforms[AngleUniform] == QuarterTurns2(0, i))
      && frames[4].Some? && frames[4].value.uniforms[AngleUniform] == QuarterTurns2(1, 2)
      && frames[5].Some? && frames[5].value.uniforms[AngleUniform] == QuarterTurns2(-1, 2)
      && (forall i :: 0 <= i < 6 ==>
            (frames[i].value.uniforms[RotationUniform] == RotationValue(q) && frames[i].value.program == Some(Handle(n))))
  {
    ProgramRunSucceedsIff(d, n, HemiVert, HemiFrag);
  }

  /** A successful run is 15 set-up commands without a draw or a rotation, the
      rotation, and the six renders. */
  lemma HemisphereRunShape(d: Driver, n: nat, q: Quat, toCanvas: bool, shown: Option<Frame>) returns (head: seq<Cmd>)
    requires HemisphereRun(d, n, q, toCanvas, shown).result.Success?
    ensures HemisphereRun(d, n, q, toCanvas, shown).cmds == head + [SetUniform(RotationUniform, RotationValue(q))] + Renders(6)
    ensures |head| == 15 && forall j :: 0 <= j < 15 ==> !head[j].SetUniform? && head[j] != DrawQuad
  {
    ProgramRunOrder(d, n, HemiVert, HemiFrag);
    var pr := ProgramRun(d, n, HemiVert, HemiFrag);
    head := pr.cmds + UseCmds(pr.result.value);
    ConcatAssocAll([], pr.cmds, UseCmds(pr.result.value) + [SetUniform(RotationUniform, RotationValue(q))], Renders(6));
  }

  /** The rotation is set exactly once, before the first draw; then each view sets
      its angle, draws and captures, in that order. */
  predicate RendersInOrder(cmds: seq<Cmd>, q: Quat)
  {
    && |cmds| == 34
    && cmds[15] == SetUniform(RotationUniform, RotationValue(q))
    && (forall j :: 0 <= j < |cmds| && j != 15 ==> cmds[j] != SetUniform(RotationUniform, RotationValue(q)))
    && (forall j :: 0 <= j < 16 ==> cmds[j] != DrawQuad)
    && (forall i :: 0 <= i < 6 ==>
          cmds[16 + 3 * i .. 19 + 3 * i] == [SetUniform(AngleUniform, AngleValue(i)), DrawQuad, ReadCanvas])
  }

  lemma LayoutInOrder(cmds: seq<Cmd>, head: seq<Cmd>, q: Quat)
    requires cmds == head + [SetUniform(RotationUniform, RotationValue(q))] + Renders(6)
    requires |head| == 15 && forall j :: 0 <= j < 15 ==> !head[j].SetUniform? && head[j] != DrawQuad
    ensures RendersInOrder(cmds, q)
  {
    var renders := Renders(6);
    forall j | 0 <= j < |cmds| && j != 15
      ensures cmds[j] != SetUniform(RotationUniform, RotationValue(q))
    {
      if j >= 16 {
        assert cmds[j] == renders[j - 16];
      } else {
        assert cmds[j] == head[j];
      }
    }
    forall i | 0 <= i < 6
      ensures cmds[16 + 3 * i .. 19 + 3 * i] == [SetUniform(AngleUniform, AngleValue(i)), DrawQuad, ReadCanvas]
    {
      assert (3 * i) / 3 == i && (3 * i + 1) / 3 == i && (3 * i + 2) / 3 == i;
      assert cmds[16 + 3 * i] == renders[3 * i];
      assert cmds[17 + 3 * i] == renders[3 * i + 1];
      assert cmds[18 + 3 * i] == renders[3 * i + 2];
    }
  }

  lemma HemisphereRunOrder(d: Driver, n: nat, q: Quat, toCanvas: bool, shown: Option<Frame>)
    requires HemisphereRun(d, n, q, toCanvas, shown).result.Success?
    ensures RendersInOrder(HemisphereRun(d, n, q, toCanvas, shown).cmds, q)
  {
    var head := HemisphereRunShape(d, n, q, toCanvas, shown);
    LayoutInOrder(HemisphereRun(d, n, q, toCanvas, shown).cmds, head, q);
  }

  lemma {:induction false} RendersDraws(k: nat)
    requires k <= 6
    ensures Draws(Renders(k)) == k
  {
    if k > 0 {
      var last := [SetUniform(AngleUniform, AngleValue(k - 1)), DrawQuad, ReadCanvas];
      RendersStep(k - 1);
      RendersDraws(k - 1);
      DrawsAppend(Renders(k - 1), last);
      assert last[..2] == [SetUniform(AngleUniform, AngleValue(k - 1)), DrawQuad];
      assert [SetUniform(AngleUniform, AngleValue(k - 1)), DrawQuad][..1] == [SetUniform(AngleUniform, AngleValue(k - 1))];
      NoDraws([SetUniform(AngleUniform, AngleValue(k - 1))]);
    }
  }

  /** A successful run draws exactly six times, one draw per view; a failed one
      never draws. */
  lemma HemisphereRunDraws(d: Driver, n: nat, q: Quat, toCanvas: bool, shown: Option<Frame>)
    ensures var run := HemisphereRun(d, n, q, toCanvas, shown);
      Draws(run.cmds) == if run.result.Success? then 6 else 0
  {
    var run := HemisphereRun(d, n, q, toCanvas, shown);
    if run.result.Success? {
      var head := HemisphereRunShape(d, n, q, toCanvas, shown);
      var rotation := [SetUniform(RotationUniform, RotationValue(q))];
      NoDraws(head + rotation);
      RendersDraws(6);
      DrawsAppend(head + rotation, Renders(6));
    } else {
      NoDraws(run.cmds);
    }
  }

  /** The captured views do not depend on what the canvas showed before when the
      views are drawn to the canvas. */
  lemma HemisphereRunOnCanvas(d: Driver, n: nat, q: Quat, shown: Option<Frame>)
    ensures HemisphereRun(d, n, q, true, shown) == HemisphereRun(d, n, q, true, None)
  {
    var pr := ProgramRun(d, n, HemiVert, HemiFrag);
    if pr.result.Success? {
      assert Views(pr.result.value, q, true, shown) == Views(pr.result.value, q, true, None);
    }
  }

  lemma UniformsStep(q: Quat, k: nat)
    requires k < 6
    ensures UniformsAfter(q, k)[AngleUniform := AngleValue(k)] == UniformsAfter(q, k + 1)
  {
  }

  /** `renderHemisphere(ctx, angleLocation, phi, theta)`, angles in quarter turns. */
  method RenderHemisphere(gl: Gl, phi: int, theta: int) returns (f: Option<Frame>)
    requires gl.Valid() && (gl.program.Some? ==> gl.program.value.id < gl.next)
    modifies gl`log, gl`uniforms, gl`canvas
    ensures gl.Valid()
    ensures gl.log == old(gl.log) + [SetUniform(AngleUniform, QuarterTurns2(phi, theta)), DrawQuad, ReadCanvas]
    ensures gl.program.Some? ==>
      gl.uniforms == old(gl.uniforms)[gl.program.value := old(gl.UniformsOf(gl.program.value))[AngleUniform := QuarterTurns2(phi, theta)]]
    ensures f == gl.canvas
    ensures f == if gl.framebuffer.None? && gl.program.Some? then Some(Frame(gl.program, gl.UniformsOf(gl.program.value))) else old(gl.canvas)
  {
    gl.SetUniform(AngleUniform, QuarterTurns2(phi, theta));
    gl.DrawQuad();
    f := gl.ReadCanvas();
  }

  /** One view rendered with the program p after k others. */
  method RenderView(gl: Gl, p: Handle, q: Quat, k: nat, phi: int, theta: int, ghost toCanvas: bool, ghost shown: Option<Frame>)
      returns (f: Option<Frame>)
    requires k < 6 && (phi, theta) == HemisphereAngles[k]
    requires gl.Valid() && gl.program == Some(p) && p.id < gl.next
    requires gl.UniformsOf(p) == UniformsAfter(q, k)
    requires toCanvas == gl.framebuffer.None? && (toCanvas || gl.canvas == shown)
    modifies gl`log, gl`uniforms, gl`canvas
    ensures gl.Valid() && gl.UniformsOf(p) == UniformsAfter(q, k + 1)
    ensures toCanvas || gl.canvas == shown
    ensures gl.log == old(gl.log) + [SetUniform(AngleUniform, AngleValue(k)), DrawQuad, ReadCanvas]
    ensures f == Views(p, q, toCanvas, shown)[k]
  {
    f := RenderHemisphere(gl, phi, theta);
    UniformsStep(q, k);
  }

  /** The six views with the program p, rotation already set: four at phi 0 in
      a loop, then the two polar views. */
  method RenderViews(gl: Gl, p: Handle, q: Quat) returns (output: seq<Option<Frame>>)
    requires gl.Valid() && gl.program == Some(p) && p.id < gl.next
    requires gl.UniformsOf(p) == UniformsAfter(q, 0)
    modifies gl`log, gl`uniforms, gl`canvas
    ensures gl.Valid()
    ensures gl.log == old(gl.log) + Renders(6)
    ensures output == Views(p, q, gl.framebuffer.None?, old(gl.canvas))
  {
    ghost var toCanvas, shown := gl.framebuffer.None?, gl.canvas;
    ghost var frames := Views(p, q, toCanvas, shown);
    output := [];
    assert Renders(0) == [];
    for i := 0 to 4
      invariant gl.Valid() && gl.UniformsOf(p) == UniformsAfter(q, i)
      invariant toCanvas || gl.canvas == shown
      invariant gl.log == old(gl.log) + Renders(i)
      invariant output == frames[..i]
    {
      var f := RenderView(gl, p, q, i, 0, i, toCanvas, shown);
      output := output + [f];
      RendersStep(i);
    }
    var up := RenderView(gl, p, q, 4, 1, 2, toCanvas, shown);
    output := output + [up];
    RendersStep(4);
    var down := RenderView(gl, p, q, 5, -1, 2, toCanvas, shown);
    output := output + [down];
    RendersStep(5);
    assert frames[..6] == frames;
  }

  /** Binds the program p with the quad and sets the rotation uniform once. */
  method SetRotation(gl: Gl, p: Handle, q: Quat)
    requires gl.Valid() && p.id < gl.next && p !in gl.uniforms
    modifies gl`log, gl`program, gl`uniforms
    ensures gl.Valid() && gl.program == Some(p) && gl.UniformsOf(p) == UniformsAfter(q, 0)
    ensures gl.log == old(gl.log) + (UseCmds(p) + [SetUniform(RotationUniform, RotationValue(q))])
  {
    Common.UseProgram(gl, p);
    gl.SetUniform(RotationUniform, RotationValue(q));
  }

  /** `renderOrthogonalHemispheres(ctx)`, with the Euler-to-quaternion conversion
      of the 3-D library given as `toQuat`. */
  method RenderOrthogonalHemispheres(gl: Gl, rotation: Vec3, toQuat: Vec3 -> Quat) returns (r: Result<seq<Option<Frame>>, Error>)
    requires gl.Valid()
    modifies gl`log, gl`next, gl`shaderSources, gl`compiled, gl`program, gl`uniforms, gl`canvas
    ensures gl.Valid()
    ensures var run := HemisphereRun(gl.driver, old(gl.next), toQuat(rotation), gl.framebuffer.None?, old(gl.canvas));
      r == run.result && gl.log == old(gl.log) + run.cmds && gl.next == run.next
  {
    var q := toQuat(rotation);
    var program := Common.CreateProgram(gl, HemiVert, HemiFrag);
    if program.Failure? {
      return Failure(program.error);
    }
    ProgramRunSucceedsIff(gl.driver, old(gl.next), HemiVert, HemiFrag);
    var p := program.value;
    ghost var pr := ProgramRun(gl.driver, old(gl.next), HemiVert, HemiFrag);
    assert gl.log == old(gl.log) + pr.cmds && p == pr.result.value;
    SetRotation(gl, p, q);
    var output := RenderViews(gl, p, q);
    ConcatAssocAll(old(gl.log), pr.cmds, UseCmds(p) + [SetUniform(RotationUniform, RotationValue(q))], Renders(6));
    r := Success(output);
  }

  lemma ConcatAssocAll(a: seq<Cmd>, b: seq<Cmd>, c: seq<Cmd>, e: seq<Cmd>)
    ensures a + b + c + e == a + (b + (c + e))
    ensures a + (b + (c + e)) == a + (b + c + e)
  {
  }
}
