/**
 * The WebGL 2 context as the renderer sees it: an object that records every call issued to it.
 * Object handles are opaque integers drawn from a counter, so two successful creations never
 * return the same handle. What the driver answers to queries (whether an object could be
 * created, `getError`, `checkFramebufferStatus`, compile and link status) is not decided here:
 * the operations that ask take the answer as a parameter.
 */
module WebGL {
  import opened Wrappers

  /** An opaque WebGL object (buffer, texture, framebuffer, shader, program, ...). */
  type Handle = int

  /** MAX_COMBINED_TEXTURE_IMAGE_UNITS; WebGL 2 guarantees at least 32. */
  type UnitCount = n: nat | n >= 32 witness 32

  // Enumerants, with the values the WebGL 2 specification gives them.
  const NO_ERROR: int := 0
  const POINTS: int := 0x0000
  const TRIANGLES: int := 0x0004
  const SRC_ALPHA: int := 0x0302
  const ONE_MINUS_SRC_ALPHA: int := 0x0303
  const CCW: int := 0x0901
  const CULL_FACE: int := 0x0B44
  const DEPTH_TEST: int := 0x0B71
  const BLEND: int := 0x0BE2
  const TEXTURE_2D: int := 0x0DE1
  const UNSIGNED_BYTE: int := 0x1401
  const FLOAT: int := 0x1406
  const HALF_FLOAT: int := 0x140B
  const RGBA: int := 0x1908
  const NEAREST: int := 0x2600
  const LINEAR: int := 0x2601
  const TEXTURE_MAG_FILTER: int := 0x2800
  const TEXTURE_MIN_FILTER: int := 0x2801
  const TEXTURE_WRAP_S: int := 0x2802
  const TEXTURE_WRAP_T: int := 0x2803
  const COLOR_BUFFER_BIT: int := 0x4000
  const CLAMP_TO_EDGE: int := 0x812F
  const TEXTURE0: int := 0x84C0
  const RGBA32F: int := 0x8814
  const RGBA16F: int := 0x881A
  const ARRAY_BUFFER: int := 0x8892
  const STATIC_DRAW: int := 0x88E4
  const DYNAMIC_COPY: int := 0x88EA
  const FRAGMENT_SHADER: int := 0x8B30
  const VERTEX_SHADER: int := 0x8B31
  const RASTERIZER_DISCARD: int := 0x8C89
  const SEPARATE_ATTRIBS: int := 0x8C8D
  const TRANSFORM_FEEDBACK_BUFFER: int := 0x8C8E
  const FRAMEBUFFER_COMPLETE: int := 0x8CD5
  const COLOR_ATTACHMENT0: int := 0x8CE0
  const FRAMEBUFFER: int := 0x8D40
  const HALF_FLOAT_OES: int := 0x8D61
  const TRANSFORM_FEEDBACK: int := 0x8E22
  const UNPACK_FLIP_Y_WEBGL: int := 0x9240

  datatype Viewport = Viewport(x: int, y: int, width: int, height: int)

  datatype Color = Color(r: real, g: real, b: real, a: real)

  /** A decoded image as the host hands it over (its pixels are not modelled). */
  datatype Image = Image(id: int, width: int, height: int)

  /** What a texture upload reads from: a typed array of texels, or an image element. */
  datatype PixelSource = Texels(values: seq<real>) | ImageElement(image: Image)

  /** The extensions `getExtension` reports as available. */
  datatype Extensions = Extensions(
    floatLinear: bool,        // OES_texture_float_linear
    halfFloat: bool,          // OES_texture_half_float
    halfFloatLinear: bool,    // OES_texture_half_float_linear
    colorBufferFloat: bool    // EXT_color_buffer_float
  )

  datatype ObjectKind =
    | BufferObject | TextureObject | FramebufferObject | ShaderObject(stage: int) | ProgramObject
    | VertexArrayObject | TransformFeedbackObject

  /** A JavaScript number as far as this model needs one: a finite value, or NaN. */
  datatype Num = Finite(value: real) | NaN

  /** Finite numbers, one per value. */
  function Finites(xs: seq<real>): (ns: seq<Num>)
    ensures |ns| == |xs| && forall i :: 0 <= i < |xs| ==> ns[i] == Finite(xs[i])
  {
    seq(|xs|, i requires 0 <= i < |xs| => Finite(xs[i]))
  }

  /** The uniform setters, by WebGL name. */
  datatype UniformKind =
    | Uniform1f | Uniform2f | Uniform3f | Uniform1i
    | Uniform1fv | Uniform2fv | Uniform3fv | Uniform4fv | UniformMatrix3fv | UniformMatrix4fv

  /** One call issued to the context. */
  datatype Call =
    | CreateObject(kind: ObjectKind, result: Option<Handle>)
    | PixelStorei(pname: int, flag: bool)
    | UseProgram(program: Option<Handle>)
    | BindVertexArray(vao: Option<Handle>)
    | ActiveTexture(unitEnum: int)
    | BindTexture(target: int, texture: Option<Handle>)
    | Enable(cap: int)
    | Disable(cap: int)
    | BlendFunc(src: int, dst: int)
    | BindFramebuffer(target: int, framebuffer: Option<Handle>)
    | SetViewport(viewport: Viewport)
    | ClearColor(r: real, g: real, b: real, a: real)
    | Clear(mask: int)
    | FrontFace(mode: int)
    | BindBuffer(target: int, buffer: Option<Handle>)
    | BufferData(target: int, data: seq<real>, usage: int)
    | TexParameteri(target: int, pname: int, param: int)
    | TexImage2DSized(internalFormat: int, width: int, height: int, format: int, texelType: int, pixels: Option<PixelSource>)
    | TexImage2DSource(internalFormat: int, format: int, texelType: int, source: PixelSource)
    | FramebufferTexture2D(attachedTexture: Handle)
    | ShaderSource(compiled: Handle, text: string)
    | CompileShader(compiled: Handle)
    | AttachShader(linked: Handle, attached: Handle)
    | TransformFeedbackVaryings(linked: Handle, varyings: seq<string>, bufferMode: int)
    | LinkProgram(linked: Handle)
    | Uniform(location: string, setter: UniformKind, values: seq<Num>)
    | BindTransformFeedback(feedback: Option<Handle>)
    | BindBufferBase(index: int, buffer: Option<Handle>)
    | BeginTransformFeedback(mode: int)
    | EndTransformFeedback
    | DrawArrays(mode: int, first: int, count: int)
    | DeleteBuffer(deleted: Handle)
    | DeleteTexture(deleted: Handle)
    | DeleteFramebuffer(deleted: Handle)
    | DeleteShader(deleted: Handle)
    | DeleteProgram(deleted: Handle)
    | DeleteVertexArray(deleted: Handle)
    | DeleteTransformFeedback(deleted: Handle)

  /**
   * The binding and enable state that the issued calls establish in the context: the state the
   * binding cache of gl-state.ts is meant to mirror. Texture bindings are per texture unit.
   */
  datatype Bindings = Bindings(
    program: Option<Handle>,
    vao: Option<Handle>,
    activeUnit: int,
    textures: map<int, Option<Handle>>,
    blend: bool,
    depthTest: bool,
    cullFace: bool,
    framebuffer: Option<Handle>,
    viewport: Viewport,
    clearColor: Color,
    frontFace: int
  )

  /** The texture bound to TEXTURE_2D on a unit (nothing, until a bind says otherwise). */
  function TextureAt(b: Bindings, unit: int): Option<Handle> {
    if unit in b.textures then b.textures[unit] else None
  }

  function SetCapability(b: Bindings, cap: int, on: bool): Bindings {
    if cap == BLEND then b.(blend := on)
    else if cap == DEPTH_TEST then b.(depthTest := on)
    else if cap == CULL_FACE then b.(cullFace := on)
    else b
  }

  /** The effect of one call on the binding state; calls that bind nothing leave it alone. */
  function Apply(b: Bindings, c: Call): Bindings {
    match c
    case UseProgram(p) => b.(program := p)
    case BindVertexArray(v) => b.(vao := v)
    case ActiveTexture(t) => b.(activeUnit := t - TEXTURE0)
    case BindTexture(target, t) =>
      if target == TEXTURE_2D then b.(textures := b.textures[b.activeUnit := t]) else b
    case Enable(cap) => SetCapability(b, cap, true)
    case Disable(cap) => SetCapability(b, cap, false)
    case BindFramebuffer(target, f) => if target == FRAMEBUFFER then b.(framebuffer := f) else b
    case SetViewport(v) => b.(viewport := v)
    case ClearColor(r, g, bl, a) => b.(clearColor := Color(r, g, bl, a))
    case FrontFace(mode) => b.(frontFace := mode)
    case _ => b
  }

  /** The binding state after issuing `calls`, in order, from `start`. */
  function Replay(start: Bindings, calls: seq<Call>): Bindings
    decreases |calls|
  {
    if calls == [] then start else Apply(Replay(start, calls[..|calls| - 1]), calls[|calls| - 1])
  }

  /** The decimal digits of `n`, as `String(n)` writes a non-negative integer. */
  function DigitString(n: nat): (s: string)
    ensures |s| >= 1 && forall i :: 0 <= i < |s| ==> '0' <= s[i] <= '9'
  {
    if n < 10 then ["0123456789"[n]] else DigitString(n / 10) + ["0123456789"[n % 10]]
  }

  /** `String(n)` for an integer `n`. */
  function IntString(n: int): string {
    if n < 0 then "-" + DigitString(-n) else DigitString(n)
  }

  /**
   * Issuing one more call moves the replayed state by that call, so a `bound` that only ever
   * changes through `Driver.Issue` stays equal to the replay of the log from `initial`.
   */
  lemma ReplayStep(start: Bindings, calls: seq<Call>, c: Call)
    ensures Replay(start, calls + [c]) == Apply(Replay(start, calls), c)
  {
    assert (calls + [c])[..|calls|] == calls;
  }

  /**
   * A call that changes none of the state `Bindings` records: object creation and deletion,
   * buffer and texture-parameter calls, uniforms, transform feedback, draws, and enabling or
   * disabling a capability other than blending, depth testing and face culling.
   */
  predicate Inert(c: Call) {
    || c.CreateObject? || c.PixelStorei? || c.BlendFunc? || c.Clear? || c.BindBuffer? || c.BufferData?
    || c.Uniform? || c.BindTransformFeedback? || c.BindBufferBase? || c.BeginTransformFeedback?
    || c.EndTransformFeedback? || c.DrawArrays? || c.FramebufferTexture2D?
    || c.DeleteBuffer? || c.DeleteTexture? || c.DeleteFramebuffer? || c.DeleteVertexArray? || c.DeleteTransformFeedback?
    || c.ShaderSource? || c.CompileShader? || c.AttachShader? || c.TransformFeedbackVaryings? || c.LinkProgram?
    || c.DeleteShader? || c.DeleteProgram?
    || ((c.Enable? || c.Disable?) && c.cap != BLEND && c.cap != DEPTH_TEST && c.cap != CULL_FACE)
  }

  /** Replaying inert calls leaves the binding state as it was. */
  lemma {:induction false} ReplayInert(b: Bindings, cs: seq<Call>)
    requires forall i :: 0 <= i < |cs| ==> Inert(cs[i])
    ensures Replay(b, cs) == b
    decreases |cs|
  {
    if cs != [] {
      ReplayInert(b, cs[..|cs| - 1]);
    }
  }

  /** The HTML canvas the context draws into. */
  class Canvas {
    var width: int
    var height: int
    var clientWidth: real
    var clientHeight: real

    constructor (width: int, height: int, clientWidth: real, clientHeight: real)
      ensures this.width == width && this.height == height
      ensures this.clientWidth == clientWidth && this.clientHeight == clientHeight
    {
      this.width, this.height := width, height;
      this.clientWidth, this.clientHeight := clientWidth, clientHeight;
    }
  }

  /**
   * The WebGL 2 rendering context: a log of issued calls, the binding state those calls have
   * established, and a handle allocator.
   */
  class Driver {
    var calls: seq<Call>
    var nextHandle: Handle
    const maxTextureUnits: UnitCount
    const extensions: Extensions
    const canvas: Canvas
    ghost const initial: Bindings
    /** The binding state the context is in now. */
    ghost var bound: Bindings

    constructor (maxTextureUnits: UnitCount, extensions: Extensions, canvas: Canvas, ghost initial: Bindings)
      ensures calls == [] && bound == initial
      ensures this.maxTextureUnits == maxTextureUnits && this.extensions == extensions
      ensures this.canvas == canvas && this.initial == initial
    {
      this.maxTextureUnits, this.extensions, this.canvas := maxTextureUnits, extensions, canvas;
      this.initial, bound := initial, initial;
      calls, nextHandle := [], 0;
    }

    /** Issues one call. */
    method Issue(c: Call)
      modifies this`calls, this`bound
      ensures calls == old(calls) + [c]
      ensures bound == Apply(old(bound), c)
    {
      calls, bound := calls + [c], Apply(bound, c);
    }

    /** Issues `cs`, one call after another. */
    method IssueAll(cs: seq<Call>)
      modifies this`calls, this`bound
      ensures calls == old(calls) + cs
      ensures bound == Replay(old(bound), cs)
    {
      for i := 0 to |cs|
        invariant calls == old(calls) + cs[..i]
        invariant bound == Replay(old(bound), cs[..i])
      {
        ReplayStep(old(bound), cs[..i], cs[i]);
        assert cs[..i + 1] == cs[..i] + [cs[i]];
        Issue(cs[i]);
      }
      assert cs[..|cs|] == cs;
    }

    /** Issues calls that bind nothing: the binding state stays as it was. */
    method IssueInert(cs: seq<Call>)
      requires forall i :: 0 <= i < |cs| ==> Inert(cs[i])
      modifies this`calls, this`bound
      ensures calls == old(calls) + cs && bound == old(bound)
    {
      ReplayInert(bound, cs);
      IssueAll(cs);
    }

    /** `gl.createX()`: a fresh handle, or null when `ok` is false (the driver could not create it). */
    method CreateObject(kind: ObjectKind, ok: bool) returns (h: Option<Handle>)
      modifies this`calls, this`bound, this`nextHandle
      ensures h == (if ok then Some(old(nextHandle)) else None)
      ensures nextHandle == (if ok then old(nextHandle) + 1 else old(nextHandle))
      ensures calls == old(calls) + [Call.CreateObject(kind, h)]
      ensures bound == old(bound)
    {
      h := if ok then Some(nextHandle) else None;
      if ok {
        nextHandle := nextHandle + 1;
      }
      Issue(Call.CreateObject(kind, h));
    }
  }
}
