/**
 * The binding cache of gl-state.ts: a record of the last program, vertex array, textures,
 * enable flags, framebuffer, viewport and clear colour issued through it. Every setter compares
 * the request with the record and skips the driver call when they are equal.
 */
module GlState {
  import opened Wrappers
  import opened WebGL

  /** What a compare-and-skip setter issues: nothing when the cache already holds `wanted`. */
  function Switch<T(==)>(cached: T, wanted: T, call: Call): seq<Call> {
    if cached == wanted then [] else [call]
  }

  /**
   * `enable(cap)` for a truthy flag and `disable(cap)` otherwise; restoreState can hand
   * setBlending a null flag, which JavaScript treats as false.
   */
  function CapabilityCall(cap: int, enable: Option<bool>): Call {
    if enable == Some(true) then Enable(cap) else Disable(cap)
  }

  const ZERO_VIEWPORT: Viewport := Viewport(0, 0, 0, 0)
  const ZERO_COLOR: Color := Color(0.0, 0.0, 0.0, 0.0)

  /** The clear colours agree on red, green and blue (the driver is always sent alpha 1). */
  predicate SameRGB(c: Color, d: Color) {
    c.r == d.r && c.g == d.g && c.b == d.b
  }

  /** A context in the state the cache assumes when it is created or reset. */
  ghost predicate MatchesInitialCache(b: Bindings) {
    && b.program == None && b.vao == None && b.framebuffer == None
    && b.viewport == ZERO_VIEWPORT && SameRGB(b.clearColor, ZERO_COLOR)
    && forall u :: TextureAt(b, u) == None
  }

  /**
   * The result of saveState: a shallow copy of the cache record, so `boundTextures` is the
   * cache's own array, not a copy of it.
   */
  datatype Snapshot = Snapshot(
    program: Option<Handle>,
    vao: Option<Handle>,
    activeTexture: Option<int>,
    boundTextures: array<Option<Handle>>,
    blendEnabled: Option<bool>,
    framebuffer: Option<Handle>,
    viewport: Viewport,
    clearColor: Color,
    depthTest: Option<bool>,
    cullFace: Option<bool>,
    frontFace: Option<int>
  )

  class GLState {
    const gl: Driver
    var program: Option<Handle>
    var vao: Option<Handle>
    var activeTexture: Option<int>
    var boundTextures: array<Option<Handle>>
    var blendEnabled: Option<bool>
    var framebuffer: Option<Handle>
    var viewport: Viewport
    var clearColor: Color
    var depthTest: Option<bool>
    var cullFace: Option<bool>
    var frontFace: Option<int>

    /** One cache slot per combined texture unit. */
    ghost predicate Valid()
      reads this
    {
      boundTextures.Length == gl.maxTextureUnits
    }

    /** The record built by the constructor and by reset. */
    ghost predicate Initial()
      reads this, boundTextures
    {
      && program == None && vao == None && activeTexture == None
      && blendEnabled == None && framebuffer == None
      && viewport == ZERO_VIEWPORT && clearColor == ZERO_COLOR
      && depthTest == None && cullFace == None && frontFace == None
      && forall u :: 0 <= u < boundTextures.Length ==> boundTextures[u] == None
    }

    /**
     * The cache tells the truth about the context: every field it knows (a null flag or
     * active unit means "unknown") equals the binding state the issued calls produced.
     */
    ghost predicate Coherent()
      reads this, boundTextures, gl`bound
    {
      Mirrors(gl.bound)
    }

    /** Every field the cache knows (a null flag or active unit means "unknown") equals `b`'s. */
    ghost predicate Mirrors(b: Bindings)
      reads this, boundTextures
    {
      && program == b.program
      && vao == b.vao
      && (blendEnabled.Some? ==> b.blend == blendEnabled.value)
      && framebuffer == b.framebuffer
      && viewport == b.viewport
      && TexturesMirror(b)
      && FixedFunctionMirrors(b)
    }

    ghost predicate TexturesMirror(b: Bindings)
      reads this`activeTexture, this`boundTextures, boundTextures
    {
      && (activeTexture.Some? ==> b.activeUnit == activeTexture.value)
      && forall u :: 0 <= u < boundTextures.Length ==> boundTextures[u] == TextureAt(b, u)
    }

    ghost predicate FixedFunctionMirrors(b: Bindings)
      reads this`clearColor, this`depthTest, this`cullFace, this`frontFace
    {
      && SameRGB(clearColor, b.clearColor)
      && (depthTest.Some? ==> b.depthTest == depthTest.value)
      && (cullFace.Some? ==> b.cullFace == cullFace.value)
      && (frontFace.Some? ==> b.frontFace == frontFace.value)
    }

    constructor (gl: Driver)
      modifies gl`calls, gl`bound
      ensures this.gl == gl && Valid() && Initial() && fresh(boundTextures)
      ensures gl.calls == old(gl.calls) + [PixelStorei(UNPACK_FLIP_Y_WEBGL, true)]
      ensures MatchesInitialCache(old(gl.bound)) ==> Coherent()
    {
      this.gl := gl;
      program, vao, activeTexture := None, None, None;
      boundTextures := new Option<Handle>[gl.maxTextureUnits](_ => None);
      blendEnabled, framebuffer := None, None;
      viewport, clearColor := ZERO_VIEWPORT, ZERO_COLOR;
      depthTest, cullFace, frontFace := None, None, None;
      new;
      gl.Issue(PixelStorei(UNPACK_FLIP_Y_WEBGL, true));
    }

    method UseProgram(p: Option<Handle>) returns (changed: bool)
      modifies this`program, gl`calls, gl`bound
      ensures changed == (old(program) != p) && program == p
      ensures gl.calls == old(gl.calls) + Switch(old(program), p, Call.UseProgram(p))
      ensures old(Coherent()) ==> Coherent()
    {
      changed := program != p;
      if changed {
        gl.Issue(Call.UseProgram(p));
        program := p;
      }
    }

    method BindVAO(v: Option<Handle>) returns (changed: bool)
      modifies this`vao, gl`calls, gl`bound
      ensures changed == (old(vao) != v) && vao == v
      ensures gl.calls == old(gl.calls) + Switch(old(vao), v, BindVertexArray(v))
      ensures old(Coherent()) ==> Coherent()
    {
      changed := vao != v;
      if changed {
        gl.Issue(BindVertexArray(v));
        vao := v;
      }
    }

    method ActiveTexture(unit: int) returns (changed: bool)
      modifies this`activeTexture, gl`calls, gl`bound
      ensures changed == (old(activeTexture) != Some(unit)) && activeTexture == Some(unit)
      ensures gl.calls == old(gl.calls) + Switch(old(activeTexture), Some(unit), Call.ActiveTexture(TEXTURE0 + unit))
      ensures old(Coherent()) ==> Coherent()
    {
      changed := activeTexture != Some(unit);
      if changed {
        gl.Issue(Call.ActiveTexture(TEXTURE0 + unit));
        activeTexture := Some(unit);
      }
    }

    /** Makes `unit` active, then binds `texture` to TEXTURE_2D there unless the cache has it. */
    method BindTexture(texture: Option<Handle>, unit: int) returns (changed: bool)
      requires 0 <= unit < boundTextures.Length
      modifies this`activeTexture, boundTextures, gl`calls, gl`bound
      ensures activeTexture == Some(unit) && boundTextures[unit] == texture
      ensures forall u :: 0 <= u < boundTextures.Length && u != unit ==> boundTextures[u] == old(boundTextures[u])
      ensures changed == (old(boundTextures[unit]) != texture)
      ensures gl.calls == old(gl.calls)
        + Switch(old(activeTexture), Some(unit), Call.ActiveTexture(TEXTURE0 + unit))
        + Switch(old(boundTextures[unit]), texture, Call.BindTexture(TEXTURE_2D, texture))
      ensures old(Coherent()) ==> Coherent()
    {
      var _ := ActiveTexture(unit);
      changed := boundTextures[unit] != texture;
      if changed {
        gl.Issue(Call.BindTexture(TEXTURE_2D, texture));
        boundTextures[unit] := texture;
      }
    }

    /**
     * The TypeScript signature says boolean, but restoreState passes the saved flag, which may
     * be null: then `disable(BLEND)` is issued and null is cached.
     */
    method SetBlending(enable: Option<bool>) returns (changed: bool)
      modifies this`blendEnabled, gl`calls, gl`bound
      ensures changed == (old(blendEnabled) != enable) && blendEnabled == enable
      ensures gl.calls == old(gl.calls) + Switch(old(blendEnabled), enable, CapabilityCall(BLEND, enable))
      ensures old(Coherent()) ==> Coherent()
    {
      changed := blendEnabled != enable;
      if changed {
        gl.Issue(CapabilityCall(BLEND, enable));
        blendEnabled := enable;
      }
    }

    /**
     * Calls the program issues on the context directly, around the cache: when they bind
     * nothing, the cache stays truthful.
     */
    method PassThrough(cs: seq<Call>)
      requires forall i :: 0 <= i < |cs| ==> Inert(cs[i])
      modifies gl`calls, gl`bound
      ensures gl.calls == old(gl.calls) + cs && gl.bound == old(gl.bound)
      ensures old(Coherent()) ==> Coherent()
    {
      gl.IssueInert(cs);
    }

    /** Not cached: always issued. */
    method SetBlendFunc(src: int, dst: int)
      modifies gl`calls, gl`bound
      ensures gl.calls == old(gl.calls) + [BlendFunc(src, dst)]
      ensures old(Coherent()) ==> Coherent()
    {
      gl.Issue(BlendFunc(src, dst));
    }

    method BindFramebuffer(fb: Option<Handle>) returns (changed: bool)
      modifies this`framebuffer, gl`calls, gl`bound
      ensures changed == (old(framebuffer) != fb) && framebuffer == fb
      ensures gl.calls == old(gl.calls) + Switch(old(framebuffer), fb, Call.BindFramebuffer(FRAMEBUFFER, fb))
      ensures old(Coherent()) ==> Coherent()
    {
      changed := framebuffer != fb;
      if changed {
        gl.Issue(Call.BindFramebuffer(FRAMEBUFFER, fb));
        framebuffer := fb;
      }
    }

    /** The four components are compared together. */
    method SetViewport(x: int, y: int, width: int, height: int) returns (changed: bool)
      modifies this`viewport, gl`calls, gl`bound
      ensures changed == (old(viewport) != Viewport(x, y, width, height))
      ensures viewport == Viewport(x, y, width, height)
      ensures gl.calls == old(gl.calls) + Switch(old(viewport), viewport, Call.SetViewport(viewport))
      ensures old(Coherent()) ==> Coherent()
    {
      var v := Viewport(x, y, width, height);
      changed := viewport != v;
      if changed {
        gl.Issue(Call.SetViewport(v));
        viewport := v;
      }
    }

    /** Caches the caller's alpha but always sends alpha 1.0 to the driver. */
    method SetClearColor(r: real, g: real, b: real, a: real) returns (changed: bool)
      modifies this`clearColor, gl`calls, gl`bound
      ensures changed == (old(clearColor) != Color(r, g, b, a))
      ensures clearColor == Color(r, g, b, a)
      ensures gl.calls == old(gl.calls) + Switch(old(clearColor), clearColor, ClearColor(r, g, b, 1.0))
      ensures old(Coherent()) ==> Coherent()
    {
      var c := Color(r, g, b, a);
      changed := clearColor != c;
      if changed {
        gl.Issue(ClearColor(r, g, b, 1.0));
        clearColor := c;
      }
    }

    method SetDepthTest(enable: bool) returns (changed: bool)
      modifies this`depthTest, gl`calls, gl`bound
      ensures changed == (old(depthTest) != Some(enable)) && depthTest == Some(enable)
      ensures gl.calls == old(gl.calls) + Switch(old(depthTest), Some(enable), CapabilityCall(DEPTH_TEST, Some(enable)))
      ensures old(Coherent()) ==> Coherent()
    {
      changed := depthTest != Some(enable);
      if changed {
        gl.Issue(CapabilityCall(DEPTH_TEST, Some(enable)));
        depthTest := Some(enable);
      }
    }

    method SetCullFace(enable: bool) returns (changed: bool)
      modifies this`cullFace, gl`calls, gl`bound
      ensures changed == (old(cullFace) != Some(enable)) && cullFace == Some(enable)
      ensures gl.calls == old(gl.calls) + Switch(old(cullFace), Some(enable), CapabilityCall(CULL_FACE, Some(enable)))
      ensures old(Coherent()) ==> Coherent()
    {
      changed := cullFace != Some(enable);
      if changed {
        gl.Issue(CapabilityCall(CULL_FACE, Some(enable)));
        cullFace := Some(enable);
      }
    }

    method SetFrontFace(mode: int) returns (changed: bool)
      modifies this`frontFace, gl`calls, gl`bound
      ensures changed == (old(frontFace) != Some(mode)) && frontFace == Some(mode)
      ensures gl.calls == old(gl.calls) + Switch(old(frontFace), Some(mode), Call.FrontFace(mode))
      ensures old(Coherent()) ==> Coherent()
    {
      changed := frontFace != Some(mode);
      if changed {
        gl.Issue(Call.FrontFace(mode));
        frontFace := Some(mode);
      }
    }

    /**
     * Re-sends the cached colour (alpha 1.0) and, after clearing, the cached viewport, so a
     * context whose state drifted is brought back in line with the cache. The cache is untouched.
     */
    method Clear(mask: int)
      modifies gl`calls, gl`bound
      ensures gl.calls == old(gl.calls) + [
        ClearColor(clearColor.r, clearColor.g, clearColor.b, 1.0),
        Call.Clear(mask),
        Call.SetViewport(viewport)]
      ensures SameRGB(gl.bound.clearColor, clearColor) && gl.bound.viewport == viewport
      ensures old(Coherent()) ==> Coherent()
    {
      gl.Issue(ClearColor(clearColor.r, clearColor.g, clearColor.b, 1.0));
      gl.Issue(Call.Clear(mask));
      gl.Issue(Call.SetViewport(viewport));
    }

    /** Forgets everything, without a driver call (used after the context is lost). */
    method Reset()
      modifies this
      ensures Valid() && Initial() && fresh(boundTextures)
      ensures gl.calls == old(gl.calls)
      ensures MatchesInitialCache(gl.bound) ==> Coherent()
    {
      program, vao, activeTexture := None, None, None;
      boundTextures := new Option<Handle>[gl.maxTextureUnits](_ => None);
      blendEnabled, framebuffer := None, None;
      viewport, clearColor := ZERO_VIEWPORT, ZERO_COLOR;
      depthTest, cullFace, frontFace := None, None, None;
    }

    /** A shallow copy: the snapshot holds the cache's own `boundTextures` array. */
    method SaveState() returns (s: Snapshot)
      ensures s.boundTextures == boundTextures
      ensures s == Snapshot(program, vao, activeTexture, boundTextures, blendEnabled,
                            framebuffer, viewport, clearColor, depthTest, cullFace, frontFace)
    {
      s := Snapshot(program, vao, activeTexture, boundTextures, blendEnabled,
                    framebuffer, viewport, clearColor, depthTest, cullFace, frontFace);
    }

    /**
     * Brings back program, vertex array, blend flag, framebuffer and viewport, each through its
     * own setter and only when it differs; every other field of the cache is left as it is.
     */
    method RestoreState(s: Snapshot)
      modifies this`program, this`vao, this`blendEnabled, this`framebuffer, this`viewport, gl`calls, gl`bound
      ensures program == s.program && vao == s.vao && blendEnabled == s.blendEnabled
      ensures framebuffer == s.framebuffer && viewport == s.viewport
      ensures activeTexture == old(activeTexture) && boundTextures == old(boundTextures)
      ensures clearColor == old(clearColor) && depthTest == old(depthTest)
      ensures cullFace == old(cullFace) && frontFace == old(frontFace)
      ensures gl.calls == old(gl.calls)
        + Switch(old(program), s.program, Call.UseProgram(s.program))
        + Switch(old(vao), s.vao, BindVertexArray(s.vao))
        + Switch(old(blendEnabled), s.blendEnabled, CapabilityCall(BLEND, s.blendEnabled))
        + Switch(old(framebuffer), s.framebuffer, Call.BindFramebuffer(FRAMEBUFFER, s.framebuffer))
        + Switch(old(viewport), s.viewport, Call.SetViewport(s.viewport))
      ensures old(Coherent()) ==> Coherent()
    {
      RestoreDrawing(s);
      RestoreTarget(s);
    }

    /** The first half of restoreState: program, vertex array and blend flag. */
    method RestoreDrawing(s: Snapshot)
      modifies this`program, this`vao, this`blendEnabled, gl`calls, gl`bound
      ensures program == s.program && vao == s.vao && blendEnabled == s.blendEnabled
      ensures gl.calls == old(gl.calls)
        + Switch(old(program), s.program, Call.UseProgram(s.program))
        + Switch(old(vao), s.vao, BindVertexArray(s.vao))
        + Switch(old(blendEnabled), s.blendEnabled, CapabilityCall(BLEND, s.blendEnabled))
      ensures old(Coherent()) ==> Coherent()
    {
      ghost var c0 := gl.calls;
      if s.program != program {
        var _ := UseProgram(s.program);
      }
      assert gl.calls == c0 + Switch(old(program), s.program, Call.UseProgram(s.program));
      ghost var c1 := gl.calls;
      if s.vao != vao {
        var _ := BindVAO(s.vao);
      }
      assert gl.calls == c1 + Switch(old(vao), s.vao, BindVertexArray(s.vao));
      ghost var c2 := gl.calls;
      if s.blendEnabled != blendEnabled {
        var _ := SetBlending(s.blendEnabled);
      }
      assert gl.calls == c2 + Switch(old(blendEnabled), s.blendEnabled, CapabilityCall(BLEND, s.blendEnabled));
    }

    /** The second half of restoreState: framebuffer and viewport. */
    method RestoreTarget(s: Snapshot)
      modifies this`framebuffer, this`viewport, gl`calls, gl`bound
      ensures framebuffer == s.framebuffer && viewport == s.viewport
      ensures gl.calls == old(gl.calls)
        + Switch(old(framebuffer), s.framebuffer, Call.BindFramebuffer(FRAMEBUFFER, s.framebuffer))
        + Switch(old(viewport), s.viewport, Call.SetViewport(s.viewport))
      ensures old(Coherent()) ==> Coherent()
    {
      ghost var c3 := gl.calls;
      if s.framebuffer != framebuffer {
        var _ := BindFramebuffer(s.framebuffer);
      }
      assert gl.calls == c3 + Switch(old(framebuffer), s.framebuffer, Call.BindFramebuffer(FRAMEBUFFER, s.framebuffer));
      ghost var c4 := gl.calls;
      if s.viewport != viewport {
        var _ := SetViewport(s.viewport.x, s.viewport.y, s.viewport.width, s.viewport.height);
      }
      assert gl.calls == c4 + Switch(old(viewport), s.viewport, Call.SetViewport(s.viewport));
    }
  }
}
