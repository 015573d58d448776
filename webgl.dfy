/** The WebGL rendering context as the pipeline sees it: every call it makes is
    appended to a command log, and the state later calls depend on is kept
    beside the log (the bound framebuffer, the live textures and framebuffers,
    the program in use and each program's uniform values). What the driver
    answers (which `create*` calls return null, which shader sources fail to
    compile and with what log) is fixed when the context is made. */
module WebGL {
  import opened Wrappers
  import opened Canvas2D

  /** A GL object; `id` is the number of the create call that made it. */
  datatype Handle = Handle(id: nat)

  /** Texture targets; `CubeFace(i)` is TEXTURE_CUBE_MAP_POSITIVE_X + i. */
  datatype Target = Texture2D | CubeMap | CubeFace(index: int)

  datatype Filter = Linear | Nearest

  datatype Wrap = ClampToEdge

  datatype TexParameter = MagFilter(filter: Filter) | MinFilter(filter: Filter) | WrapS(mode: Wrap) | WrapT(mode: Wrap)

  datatype ShaderKind = VertexShader | FragmentShader

  /** The uniforms the pipeline's shaders declare: `face`, `angle` and `rotation`. */
  datatype Uniform = FaceUniform | AngleUniform | RotationUniform

  /** `uniform1i`, `uniform2f` with both angles whole multiples of pi/2 (counted in
      quarter turns), and `uniform4f`. */
  datatype UniformValue = Int1(i: int) | QuarterTurns2(phi: int, theta: int) | Float4(x: real, y: real, z: real, w: real)

  /** The data of a `texImage2D` call. */
  datatype Pixels = CanvasPixels(grid: seq<seq<Color>>) | ImagePixels(image: Image) | Unfilled(width: nat, height: nat)

  /** What a draw into the default framebuffer leaves on the canvas: the program
      that drew it and that program's uniform values at the time. */
  datatype Frame = Frame(program: Option<Handle>, uniforms: map<Uniform, UniformValue>)

  datatype Cmd =
    | CreateTexture(texture: Option<Handle>)
    | BindTexture(target: Target, texture: Option<Handle>)
    | TexParameteri(target: Target, param: TexParameter)
    | TexImage2D(target: Target, pixels: Pixels)
    | PixelStoreFlipY
    | CreateShader(kind: ShaderKind, created: Option<Handle>)
    | ShaderSource(shader: Handle, source: string)
    | CompileShader(shader: Handle)
    | CreateProgram(createdProgram: Option<Handle>)
    | AttachShader(program: Handle, shader: Handle)
    | LinkProgram(program: Handle)
    | UseProgram(program: Handle)
    | BindArrayBuffer
    | BufferData(data: seq<real>)
    | VertexAttribPointer(size: nat)
    | EnableVertexAttribArray
    | CreateFramebuffer(framebuffer: Option<Handle>)
    | BindFramebuffer(framebuffer: Option<Handle>)
    | FramebufferTexture2D(target: Target, texture: Option<Handle>)
    | SetUniform(uniform: Uniform, value: UniformValue)
    | DrawQuad
    | DeleteFramebuffer(framebuffer: Option<Handle>)
    | DeleteTexture(texture: Option<Handle>)
    | ReadCanvas

  /** The driver's answers: the create calls (by number) that return null, and the
      shader sources that fail to compile, with the info log they report (None for null). */
  datatype Driver = Driver(refused: set<nat>, rejected: map<string, Option<string>>)

  /** What create call number n returns. */
  function Created(d: Driver, n: nat): (h: Option<Handle>)
    ensures h.Some? <==> n !in d.refused
    ensures h.Some? ==> h.value.id == n
  {
    if n in d.refused then None else Some(Handle(n))
  }

  /** The number of draw calls in a stretch of the log. */
  function Draws(cmds: seq<Cmd>): nat
  {
    if cmds == [] then 0 else Draws(cmds[..|cmds| - 1]) + (if cmds[|cmds| - 1] == DrawQuad then 1 else 0)
  }

  lemma {:induction false} DrawsAppend(a: seq<Cmd>, b: seq<Cmd>)
    ensures Draws(a + b) == Draws(a) + Draws(b)
  {
    if b != [] {
      assert (a + b)[..|a + b| - 1] == a + b[..|b| - 1];
      DrawsAppend(a, b[..|b| - 1]);
    } else {
      assert a + b == a;
    }
  }

  lemma {:induction false} NoDraws(cmds: seq<Cmd>)
    requires forall i :: 0 <= i < |cmds| ==> cmds[i] != DrawQuad
    ensures Draws(cmds) == 0
  {
    if cmds != [] {
      NoDraws(cmds[..|cmds| - 1]);
    }
  }

  class Gl {
    const driver: Driver
    var log: seq<Cmd>
    var next: nat
    var textures: set<Handle>
    var framebuffers: set<Handle>
    var framebuffer: Option<Handle>
    var shaderSources: map<Handle, string>
    var compiled: set<Handle>
    var program: Option<Handle>
    var uniforms: map<Handle, map<Uniform, UniformValue>>
    var canvas: Option<Frame>

    /** Every object the context knows of came from an earlier create call. */
    ghost predicate Valid()
      reads this
    {
      && (forall h :: h in textures ==> h.id < next)
      && (forall h :: h in framebuffers ==> h.id < next)
      && (forall h :: h in uniforms ==> h.id < next)
    }

    constructor (driver: Driver)
      ensures Valid() && this.driver == driver
      ensures log == [] && next == 0 && textures == {} && framebuffers == {} && framebuffer == None
      ensures shaderSources == map[] && compiled == {} && program == None && uniforms == map[] && canvas == None
    {
      this.driver := driver;
      log, next := [], 0;
      textures, framebuffers, framebuffer := {}, {}, None;
      shaderSources, compiled := map[], {};
      program, uniforms, canvas := None, map[], None;
    }

    /** The uniform values of program p (all unset for a program never given one). */
    function UniformsOf(p: Handle): map<Uniform, UniformValue>
      reads this
    {
      if p in uniforms then uniforms[p] else map[]
    }

    method CreateTexture() returns (t: Option<Handle>)
      requires Valid()
      modifies this`log, this`next, this`textures
      ensures Valid()
      ensures t == Created(driver, old(next)) && next == old(next) + 1
      ensures textures == if t.Some? then old(textures) + {t.value} else old(textures)
      ensures log == old(log) + [Cmd.CreateTexture(t)]
    {
      t := Created(driver, next);
      next := next + 1;
      if t.Some? {
        textures := textures + {t.value};
      }
      log := log + [Cmd.CreateTexture(t)];
    }

    method BindTexture(target: Target, t: Option<Handle>)
      modifies this`log
      ensures log == old(log) + [Cmd.BindTexture(target, t)]
    {
      log := log + [Cmd.BindTexture(target, t)];
    }

    method TexParameteri(target: Target, param: TexParameter)
      modifies this`log
      ensures log == old(log) + [Cmd.TexParameteri(target, param)]
    {
      log := log + [Cmd.TexParameteri(target, param)];
    }

    method TexImage2D(target: Target, pixels: Pixels)
      modifies this`log
      ensures log == old(log) + [Cmd.TexImage2D(target, pixels)]
    {
      log := log + [Cmd.TexImage2D(target, pixels)];
    }

    /** `pixelStorei(UNPACK_FLIP_Y_WEBGL, true)`. */
    method PixelStoreFlipY()
      modifies this`log
      ensures log == old(log) + [Cmd.PixelStoreFlipY]
    {
      log := log + [Cmd.PixelStoreFlipY];
    }

    method CreateShader(kind: ShaderKind) returns (s: Option<Handle>)
      modifies this`log, this`next
      ensures s == Created(driver, old(next)) && next == old(next) + 1
      ensures log == old(log) + [Cmd.CreateShader(kind, s)]
    {
      s := Created(driver, next);
      next := next + 1;
      log := log + [Cmd.CreateShader(kind, s)];
    }

    method ShaderSource(s: Handle, src: string)
      modifies this`log, this`shaderSources
      ensures shaderSources == old(shaderSources)[s := src]
      ensures log == old(log) + [Cmd.ShaderSource(s, src)]
    {
      shaderSources := shaderSources[s := src];
      log := log + [Cmd.ShaderSource(s, src)];
    }

    /** Compiling succeeds unless the driver rejects the shader's source. */
    method CompileShader(s: Handle)
      modifies this`log, this`compiled
      ensures compiled == if s in shaderSources && shaderSources[s] !in driver.rejected
                          then old(compiled) + {s} else old(compiled) - {s}
      ensures log == old(log) + [Cmd.CompileShader(s)]
    {
      if s in shaderSources && shaderSources[s] !in driver.rejected {
        compiled := compiled + {s};
      } else {
        compiled := compiled - {s};
      }
      log := log + [Cmd.CompileShader(s)];
    }

    /** `getShaderParameter(s, COMPILE_STATUS)`. */
    function CompileStatus(s: Handle): bool
      reads this
    {
      s in compiled
    }

    /** `getShaderInfoLog(s)`: the driver's message for a rejected source. */
    function ShaderInfoLog(s: Handle): Option<string>
      reads this
    {
      if s in shaderSources && shaderSources[s] in driver.rejected then driver.rejected[shaderSources[s]] else Some("")
    }

    method CreateProgram() returns (p: Option<Handle>)
      modifies this`log, this`next
      ensures p == Created(driver, old(next)) && next == old(next) + 1
      ensures log == old(log) + [Cmd.CreateProgram(p)]
    {
      p := Created(driver, next);
      next := next + 1;
      log := log + [Cmd.CreateProgram(p)];
    }

    method AttachShader(p: Handle, s: Handle)
      modifies this`log
      ensures log == old(log) + [Cmd.AttachShader(p, s)]
    {
      log := log + [Cmd.AttachShader(p, s)];
    }

    method LinkProgram(p: Handle)
      modifies this`log
      ensures log == old(log) + [Cmd.LinkProgram(p)]
    {
      log := log + [Cmd.LinkProgram(p)];
    }

    method UseProgram(p: Handle)
      modifies this`log, this`program
      ensures program == Some(p)
      ensures log == old(log) + [Cmd.UseProgram(p)]
    {
      program := Some(p);
      log := log + [Cmd.UseProgram(p)];
    }

    /** `bindBuffer(ARRAY_BUFFER, createBuffer())`; the buffer object itself is not tracked. */
    method BindArrayBuffer()
      modifies this`log
      ensures log == old(log) + [Cmd.BindArrayBuffer]
    {
      log := log + [Cmd.BindArrayBuffer];
    }

    method BufferData(data: seq<real>)
      modifies this`log
      ensures log == old(log) + [Cmd.BufferData(data)]
    {
      log := log + [Cmd.BufferData(data)];
    }

    method VertexAttribPointer(size: nat)
      modifies this`log
      ensures log == old(log) + [Cmd.VertexAttribPointer(size)]
    {
      log := log + [Cmd.VertexAttribPointer(size)];
    }

    method EnableVertexAttribArray()
      modifies this`log
      ensures log == old(log) + [Cmd.EnableVertexAttribArray]
    {
      log := log + [Cmd.EnableVertexAttribArray];
    }

    /** `createFramebuffer()`; the source never checks this one for null. */
    method CreateFramebuffer() returns (f: Option<Handle>)
      requires Valid()
      modifies this`log, this`next, this`framebuffers
      ensures Valid()
      ensures f == Created(driver, old(next)) && next == old(next) + 1
      ensures framebuffers == if f.Some? then old(framebuffers) + {f.value} else old(framebuffers)
      ensures log == old(log) + [Cmd.CreateFramebuffer(f)]
    {
      f := Created(driver, next);
      next := next + 1;
      if f.Some? {
        framebuffers := framebuffers + {f.value};
      }
      log := log + [Cmd.CreateFramebuffer(f)];
    }

    method BindFramebuffer(f: Option<Handle>)
      modifies this`log, this`framebuffer
      ensures framebuffer == f
      ensures log == old(log) + [Cmd.BindFramebuffer(f)]
    {
      framebuffer := f;
      log := log + [Cmd.BindFramebuffer(f)];
    }

    method FramebufferTexture2D(target: Target, t: Option<Handle>)
      modifies this`log
      ensures log == old(log) + [Cmd.FramebufferTexture2D(target, t)]
    {
      log := log + [Cmd.FramebufferTexture2D(target, t)];
    }

    /** `uniform*(location, value)` for a location of the program in use; with no
        program in use the call fails and changes nothing but the log. */
    method SetUniform(u: Uniform, v: UniformValue)
      requires Valid()
      requires program.Some? ==> program.value.id < next
      modifies this`log, this`uniforms
      ensures Valid()
      ensures uniforms == if old(program).Some? then old(uniforms)[program.value := old(UniformsOf(program.value))[u := v]] else old(uniforms)
      ensures log == old(log) + [Cmd.SetUniform(u, v)]
    {
      if program.Some? {
        uniforms := uniforms[program.value := UniformsOf(program.value)[u := v]];
      }
      log := log + [Cmd.SetUniform(u, v)];
    }

    /** `drawArrays(TRIANGLE_STRIP, 0, 4)`: with no framebuffer bound the canvas
        shows what the program in use drew with its current uniforms. */
    method DrawQuad()
      modifies this`log, this`canvas
      ensures canvas == if framebuffer.None? && program.Some? then Some(Frame(program, UniformsOf(program.value))) else old(canvas)
      ensures log == old(log) + [Cmd.DrawQuad]
    {
      if framebuffer.None? && program.Some? {
        canvas := Some(Frame(program, UniformsOf(program.value)));
      }
      log := log + [Cmd.DrawQuad];
    }

    /** Deleting the bound framebuffer also unbinds it. */
    method DeleteFramebuffer(f: Option<Handle>)
      modifies this`log, this`framebuffers, this`framebuffer
      ensures framebuffers == if f.Some? then old(framebuffers) - {f.value} else old(framebuffers)
      ensures framebuffer == if f.Some? && old(framebuffer) == f then None else old(framebuffer)
      ensures log == old(log) + [Cmd.DeleteFramebuffer(f)]
    {
      if f.Some? {
        framebuffers := framebuffers - {f.value};
        if framebuffer == f {
          framebuffer := None;
        }
      }
      log := log + [Cmd.DeleteFramebuffer(f)];
    }

    method DeleteTexture(t: Option<Handle>)
      modifies this`log, this`textures
      ensures textures == if t.Some? then old(textures) - {t.value} else old(textures)
      ensures log == old(log) + [Cmd.DeleteTexture(t)]
    {
      if t.Some? {
        textures := textures - {t.value};
      }
      log := log + [Cmd.DeleteTexture(t)];
    }

    /** `canvas.toDataURL()`: what the last draw to the canvas left there. */
    method ReadCanvas() returns (f: Option<Frame>)
      modifies this`log
      ensures f == canvas
      ensures log == old(log) + [Cmd.ReadCanvas]
    {
      f := canvas;
      log := log + [Cmd.ReadCanvas];
    }
  }
}
