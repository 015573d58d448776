/** src/texture/common.ts: the six directions, the options record, image
    loading, shader and program creation, the full-screen quad and the texture
    filtering defaults. */
module Common {
  import opened Wrappers
  import opened Vectors
  import opened Canvas2D
  import opened WebGL

  datatype Direction = North | South | West | East | Up | Down

  /** The canonical order in which faces, uploads and output textures are indexed. */
  const Sides: seq<Direction> := [North, South, West, East, Up, Down]

  lemma SidesAreTheSixDirections()
    ensures |Sides| == 6
    ensures forall i, j :: 0 <= i < j < |Sides| ==> Sides[i] != Sides[j]
    ensures forall d: Direction :: d in Sides
  {
    forall d: Direction ensures d in Sides {
      match d
      case North => assert Sides[0] == d;
      case South => assert Sides[1] == d;
      case West => assert Sides[2] == d;
      case East => assert Sides[3] == d;
      case Up => assert Sides[4] == d;
      case Down => assert Sides[5] == d;
    }
  }

  datatype Mapping = Equirectangular | Cube

  /** The options the dialog hands over. `texture` is the panorama key the WebGL
      loader reads, `equirectangular` the one the 3-D library loader reads. */
  datatype Options = Options(
    mapping: Mapping,
    textureLength: nat,
    rotation: Vec3,
    origin: Vec3,
    size: Vec3,
    geometryDetail: int,
    smoothing: bool,
    texture: Option<string>,
    equirectangular: Option<string>,
    north: Option<string>,
    south: Option<string>,
    west: Option<string>,
    east: Option<string>,
    up: Option<string>,
    down: Option<string>)

  /** `opts[side]`. */
  function SideSource(opts: Options, d: Direction): Option<string>
  {
    match d
    case North => opts.north
    case South => opts.south
    case West => opts.west
    case East => opts.east
    case Up => opts.up
    case Down => opts.down
  }

  /** `opts[side] = src`: only that side's field changes. */
  function WithSide(opts: Options, d: Direction, src: Option<string>): (r: Options)
    ensures SideSource(r, d) == src
    ensures forall e :: e != d ==> SideSource(r, e) == SideSource(opts, e)
    ensures r.(north := opts.north, south := opts.south, west := opts.west,
               east := opts.east, up := opts.up, down := opts.down) == opts
  {
    match d
    case North => opts.(north := src)
    case South => opts.(south := src)
    case West => opts.(west := src)
    case East => opts.(east := src)
    case Up => opts.(up := src)
    case Down => opts.(down := src)
  }

  /** What the host environment answers: the image sources that load and decode,
      and whether a 2-D canvas context can be obtained. */
  datatype Host = Host(decodable: map<string, Image>, context2d: bool)

  /** JavaScript truthiness of an optional string: absent and "" are both false. */
  predicate Truthy(src: Option<string>)
  {
    src.Some? && src.value != ""
  }

  /** The rejection message; the source opens a quote before the name and never closes it. */
  function LoadErrorMessage(src: string): string
  {
    "Texture could not be loaded from file '" + src
  }

  /** `loadImg(src)`: no source means no image, which is not an error; a source
      that does not load is an error naming it. */
  function LoadImg(host: Host, src: Option<string>): (r: Result<Option<Image>, Error>)
    ensures !Truthy(src) ==> r == Success(None)
    ensures Truthy(src) ==> (r.Success? <==> src.value in host.decodable)
    ensures r.Success? && r.value.Some? ==> Truthy(src) && r.value.value == host.decodable[src.value]
    ensures r.Failure? ==> Truthy(src) && r.error == Error(LoadErrorMessage(src.value))
  {
    if !Truthy(src) then Success(None)
    else if src.value in host.decodable then Success(Some(host.decodable[src.value]))
    else Failure(Error(LoadErrorMessage(src.value)))
  }

  /** The `{gl, canvas, opts}` record every stage receives; the loaders overwrite `opts` in place. */
  class Ctx {
    const gl: Gl
    var opts: Options

    constructor (gl: Gl, opts: Options)
      ensures this.gl == gl && this.opts == opts
    {
      this.gl := gl;
      this.opts := opts;
    }
  }

  /** A stretch of GL work as the driver answers it: its outcome, the commands it
      issues and the number of the next create call afterwards. */
  datatype Run<T> = Run(result: Result<T, Error>, cmds: seq<Cmd>, next: nat)

  const ShaderCreateError := "WebGL Shader failed to be created"
  const ShaderCompileError := "Shader failed to compile"
  const ProgramCreateError := "WebGL program failed to be created"

  /** `getShaderInfoLog(shader) ?? 'Shader failed to compile'`. */
  function CompileMessage(infoLog: Option<string>): string
  {
    if infoLog.Some? then infoLog.value else ShaderCompileError
  }

  /** `createShader` made at create call n. */
  function ShaderRun(d: Driver, n: nat, kind: ShaderKind, src: string): (r: Run<Handle>)
    ensures r.next == n + 1
    ensures r.result.Success? <==> n !in d.refused && src !in d.rejected
    ensures r.result.Success? ==> r.result.value == Handle(n)
  {
    if n in d.refused then
      Run(Failure(Error(ShaderCreateError)), [Cmd.CreateShader(kind, None)], n + 1)
    else
      var h := Handle(n);
      var cmds := [Cmd.CreateShader(kind, Some(h)), ShaderSource(h, src), CompileShader(h)];
      if src in d.rejected then Run(Failure(Error(CompileMessage(d.rejected[src]))), cmds, n + 1)
      else Run(Success(h), cmds, n + 1)
  }

  /** `createProgram` made from create call n on. */
  function ProgramRun(d: Driver, n: nat, vert: string, frag: string): (r: Run<Handle>)
    ensures r.next >= n + 1
  {
    if n in d.refused then
      Run(Failure(Error(ProgramCreateError)), [Cmd.CreateProgram(None)], n + 1)
    else
      var p := Handle(n);
      var vs := ShaderRun(d, n + 1, VertexShader, vert);
      if vs.result.Failure? then Run(Failure(vs.result.error), [Cmd.CreateProgram(Some(p))] + vs.cmds, vs.next)
      else
        var fs := ShaderRun(d, vs.next, FragmentShader, frag);
        if fs.result.Failure? then Run(Failure(fs.result.error), [Cmd.CreateProgram(Some(p))] + vs.cmds + fs.cmds, fs.next)
        else
          Run(Success(p),
              [Cmd.CreateProgram(Some(p))] + vs.cmds + fs.cmds
              + [AttachShader(p, vs.result.value), AttachShader(p, fs.result.value), LinkProgram(p)],
              fs.next)
  }

  /** A program comes out exactly when the program object and both shader objects
      are created and both sources compile. */
  lemma ProgramRunSucceedsIff(d: Driver, n: nat, vert: string, frag: string)
    ensures ProgramRun(d, n, vert, frag).result.Success?
        <==> n !in d.refused && n + 1 !in d.refused && vert !in d.rejected
             && n + 2 !in d.refused && frag !in d.rejected
    ensures ProgramRun(d, n, vert, frag).result.Success? ==> ProgramRun(d, n, vert, frag).result.value == Handle(n)
  {
  }

  /** On any failure nothing is attached or linked. */
  lemma ProgramRunAbortsBeforeLink(d: Driver, n: nat, vert: string, frag: string)
    requires ProgramRun(d, n, vert, frag).result.Failure?
    ensures var cmds := ProgramRun(d, n, vert, frag).cmds;
      forall i :: 0 <= i < |cmds| ==> !cmds[i].AttachShader? && !cmds[i].LinkProgram?
  {
  }

  /** The vertex shader is created and compiled before the fragment shader, and a
      successful run ends by attaching both and linking. */
  lemma ProgramRunOrder(d: Driver, n: nat, vert: string, frag: string)
    ensures var cmds := ProgramRun(d, n, vert, frag).cmds;
      forall i, j ::
        (0 <= i < |cmds| && 0 <= j < |cmds| && cmds[i].CreateShader? && cmds[j].CreateShader?
         && cmds[i].kind == VertexShader && cmds[j].kind == FragmentShader) ==> i < j
    ensures var r := ProgramRun(d, n, vert, frag);
      r.result.Success? ==>
        (|r.cmds| == 10 && r.cmds[7..] ==
         [AttachShader(Handle(n), Handle(n + 1)), AttachShader(Handle(n), Handle(n + 2)), LinkProgram(Handle(n))])
  {
  }

  /** `createShader(ctx, type, src)`. */
  method CreateShader(gl: Gl, kind: ShaderKind, src: string) returns (r: Result<Handle, Error>)
    modifies gl`log, gl`next, gl`shaderSources, gl`compiled
    ensures var run := ShaderRun(gl.driver, old(gl.next), kind, src);
      r == run.result && gl.log == old(gl.log) + run.cmds && gl.next == run.next
  {
    var shader := gl.CreateShader(kind);
    if shader.None? {
      return Failure(Error(ShaderCreateError));
    }
    gl.ShaderSource(shader.value, src);
    gl.CompileShader(shader.value);
    if !gl.CompileStatus(shader.value) {
      return Failure(Error(CompileMessage(gl.ShaderInfoLog(shader.value))));
    }
    r := Success(shader.value);
  }

  /** `createProgram(ctx, vertSrc, fragSrc)`. */
  method CreateProgram(gl: Gl, vert: string, frag: string) returns (r: Result<Handle, Error>)
    modifies gl`log, gl`next, gl`shaderSources, gl`compiled
    ensures var run := ProgramRun(gl.driver, old(gl.next), vert, frag);
      r == run.result && gl.log == old(gl.log) + run.cmds && gl.next == run.next
  {
    var program := gl.CreateProgram();
    if program.None? {
      return Failure(Error(ProgramCreateError));
    }
    var vertShader := CreateShader(gl, VertexShader, vert);
    if vertShader.Failure? {
      return Failure(vertShader.error);
    }
    var fragShader := CreateShader(gl, FragmentShader, frag);
    if fragShader.Failure? {
      return Failure(fragShader.error);
    }
    gl.AttachShader(program.value, vertShader.value);
    gl.AttachShader(program.value, fragShader.value);
    gl.LinkProgram(program.value);
    r := Success(program.value);
  }

  /** The vertex data of the full-screen quad: (-1,-1), (-1,1), (1,-1), (1,1). */
  const Quad: seq<real> := [-1.0, -1.0, -1.0, 1.0, 1.0, -1.0, 1.0, 1.0]

  /** Vertex i of the quad as a triangle strip. */
  function QuadVertex(i: nat): (real, real)
    requires i < 4
  {
    (Quad[2 * i], Quad[2 * i + 1])
  }

  /** The quad's four vertices are the four corners of the clip square, each once. */
  lemma QuadCorners()
    ensures |Quad| == 8
    ensures forall k :: 0 <= k < 8 ==> Quad[k] == 1.0 || Quad[k] == -1.0
    ensures [QuadVertex(0), QuadVertex(1), QuadVertex(2), QuadVertex(3)]
         == [(-1.0, -1.0), (-1.0, 1.0), (1.0, -1.0), (1.0, 1.0)]
  {
  }

  function UseCmds(p: Handle): seq<Cmd>
  {
    [Cmd.UseProgram(p), BindArrayBuffer, BufferData(Quad), VertexAttribPointer(2), EnableVertexAttribArray]
  }

  /** `useProgram(ctx, prog)`: make prog current and feed it the quad as `position`. */
  method UseProgram(gl: Gl, p: Handle)
    modifies gl`log, gl`program
    ensures gl.program == Some(p)
    ensures gl.log == old(gl.log) + UseCmds(p)
  {
    gl.UseProgram(p);
    gl.BindArrayBuffer();
    gl.BufferData(Quad);
    gl.VertexAttribPointer(2);
    gl.EnableVertexAttribArray();
  }

  function FilterFor(smoothing: bool): Filter
  {
    if smoothing then Linear else Nearest
  }

  function DefaultTexCmds(target: Target, smoothing: bool): seq<Cmd>
  {
    var f := FilterFor(smoothing);
    [TexParameteri(target, MagFilter(f)), TexParameteri(target, MinFilter(f)),
     TexParameteri(target, WrapS(ClampToEdge)), TexParameteri(target, WrapT(ClampToEdge))]
  }

  /** Both filters get the same value, linear exactly when smoothing, and both
      wrap modes clamp to the edge. */
  lemma DefaultTexSettings(target: Target, smoothing: bool)
    ensures var cmds := DefaultTexCmds(target, smoothing);
      && |cmds| == 4
      && (forall i :: 0 <= i < 4 ==> cmds[i].TexParameteri? && cmds[i].target == target)
      && cmds[0].param.MagFilter? && cmds[1].param.MinFilter?
      && cmds[0].param.filter == cmds[1].param.filter
      && (cmds[0].param.filter == Linear <==> smoothing)
      && cmds[2].param == WrapS(ClampToEdge) && cmds[3].param == WrapT(ClampToEdge)
  {
  }

  /** `defaultTex(ctx, type)`. */
  method DefaultTex(gl: Gl, target: Target, smoothing: bool)
    modifies gl`log
    ensures gl.log == old(gl.log) + DefaultTexCmds(target, smoothing)
  {
    var filter := FilterFor(smoothing);
    gl.TexParameteri(target, MagFilter(filter));
    gl.TexParameteri(target, MinFilter(filter));
    gl.TexParameteri(target, WrapS(ClampToEdge));
    gl.TexParameteri(target, WrapT(ClampToEdge));
  }
}
