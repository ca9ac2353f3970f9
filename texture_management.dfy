/**
 * texture-management.ts: creating a texture with the probed format, falling back once to
 * RGBA/UNSIGNED_BYTE when the driver reports an error, and creating a framebuffer around such a
 * texture with the same single retry when the framebuffer is incomplete.
 */
module TextureManagement {
  import opened Wrappers
  import opened WebGL
  import opened TextureConfig

  /** The optional fields a caller may pass; `None` is an absent (undefined) field. */
  datatype TextureOptions = TextureOptions(
    width: Option<int>,
    height: Option<int>,
    internalFormat: Option<int>,
    format: Option<int>,
    pixelType: Option<int>,   // `type` in the source
    minFilter: Option<int>,
    magFilter: Option<int>,
    wrap: Option<int>,
    data: Option<PixelSource>
  )

  const NO_OPTIONS: TextureOptions := TextureOptions(None, None, None, None, None, None, None, None, None)

  /** The options after defaulting: only the size and the data may still be absent. */
  datatype ResolvedTexture = ResolvedTexture(
    width: Option<int>,
    height: Option<int>,
    internalFormat: int,
    format: int,
    pixelType: int,
    minFilter: int,
    magFilter: int,
    wrap: int,
    data: Option<PixelSource>
  )

  function OrElse(o: Option<int>, default: int): int {
    if o.Some? then o.value else default
  }

  /**
   * The destructuring with defaults at the top of createAndSetupTexture: the probed format and
   * filter, CLAMP_TO_EDGE wrapping and no data, each replaced by the caller's value if given.
   */
  function Resolve(options: TextureOptions, cfg: TextureConfigOptions): (r: ResolvedTexture)
    ensures r.width == options.width && r.height == options.height && r.data == options.data
    ensures r.internalFormat == (if options.internalFormat.Some? then options.internalFormat.value else cfg.internalFormat)
    ensures r.format == (if options.format.Some? then options.format.value else cfg.format)
    ensures r.pixelType == (if options.pixelType.Some? then options.pixelType.value else cfg.pixelType)
    ensures r.minFilter == (if options.minFilter.Some? then options.minFilter.value else cfg.filterMode)
    ensures r.magFilter == (if options.magFilter.Some? then options.magFilter.value else cfg.filterMode)
    ensures r.wrap == (if options.wrap.Some? then options.wrap.value else CLAMP_TO_EDGE)
  {
    ResolvedTexture(
      options.width, options.height,
      OrElse(options.internalFormat, cfg.internalFormat),
      OrElse(options.format, cfg.format),
      OrElse(options.pixelType, cfg.pixelType),
      OrElse(options.minFilter, cfg.filterMode),
      OrElse(options.magFilter, cfg.filterMode),
      OrElse(options.wrap, CLAMP_TO_EDGE),
      options.data)
  }

  /** JavaScript truthiness of an optional size: present and not zero. */
  predicate Truthy(n: Option<int>) {
    n.Some? && n.value != 0
  }

  /** The upload: sized when width and height are both truthy, else from the data if any, else none. */
  function UploadCalls(r: ResolvedTexture): seq<Call> {
    if Truthy(r.width) && Truthy(r.height) then
      [TexImage2DSized(r.internalFormat, r.width.value, r.height.value, r.format, r.pixelType, r.data)]
    else if r.data.Some? then
      [TexImage2DSource(r.internalFormat, r.format, r.pixelType, r.data.value)]
    else []
  }

  /** At most one upload, and one exactly when there is a size or data to upload. */
  lemma UploadChoice(r: ResolvedTexture)
    ensures |UploadCalls(r)| <= 1
    ensures |UploadCalls(r)| == 1 <==> (Truthy(r.width) && Truthy(r.height)) || r.data.Some?
    ensures Truthy(r.width) && Truthy(r.height) ==> UploadCalls(r)[0].TexImage2DSized?
  {
  }

  function ParameterCalls(r: ResolvedTexture): seq<Call> {
    [ TexParameteri(TEXTURE_2D, TEXTURE_MIN_FILTER, r.minFilter),
      TexParameteri(TEXTURE_2D, TEXTURE_MAG_FILTER, r.magFilter),
      TexParameteri(TEXTURE_2D, TEXTURE_WRAP_S, r.wrap),
      TexParameteri(TEXTURE_2D, TEXTURE_WRAP_T, r.wrap) ]
  }

  /** The options of the retry: the caller's options with the byte format and LINEAR filtering. */
  function Fallback(options: TextureOptions): TextureOptions {
    options.(internalFormat := Some(RGBA), format := Some(RGBA), pixelType := Some(UNSIGNED_BYTE),
             minFilter := Some(LINEAR), magFilter := Some(LINEAR))
  }

  /** The retry keeps size, wrapping and data, and is basic, so it cannot fall back again. */
  lemma FallbackIsBasic(options: TextureOptions, cfg: TextureConfigOptions)
    ensures var r := Resolve(Fallback(options), cfg);
      IsBasic(r.internalFormat, r.pixelType) && r.format == RGBA
      && r.minFilter == LINEAR && r.magFilter == LINEAR
    ensures var r, q := Resolve(Fallback(options), cfg), Resolve(options, cfg);
      r.width == q.width && r.height == q.height && r.wrap == q.wrap && r.data == q.data
  {
  }

  /** What the driver does during one attempt: whether createTexture succeeds, and getError. */
  datatype TexAttempt = TexAttempt(created: bool, error: int)

  /** An attempt that created its texture but hit an error under a non-basic format. */
  predicate NeedsFallback(r: ResolvedTexture, a: TexAttempt) {
    a.created && a.error != NO_ERROR && !IsBasic(r.internalFormat, r.pixelType)
  }

  /** Whether createAndSetupTexture returns a texture rather than null. */
  predicate TextureCreated(r: ResolvedTexture, first: TexAttempt, retry: TexAttempt) {
    first.created && (!NeedsFallback(r, first) || retry.created)
  }

  /** One attempt: create, and when that succeeds bind, set the four parameters and upload. */
  function AttemptCalls(h: Handle, created: bool, r: ResolvedTexture): seq<Call> {
    if !created then [Call.CreateObject(TextureObject, None)]
    else [Call.CreateObject(TextureObject, Some(h)), BindTexture(TEXTURE_2D, Some(h))] + ParameterCalls(r) + UploadCalls(r)
  }

  const UNBIND_TEXTURE: Call := BindTexture(TEXTURE_2D, None)

  /** Binds the new texture, sets its parameters and uploads. */
  method SetUp(gl: Driver, h: Handle, r: ResolvedTexture)
    modifies gl`calls, gl`bound
    ensures gl.calls == old(gl.calls) + [BindTexture(TEXTURE_2D, Some(h))] + ParameterCalls(r) + UploadCalls(r)
  {
    gl.Issue(BindTexture(TEXTURE_2D, Some(h)));
    gl.Issue(TexParameteri(TEXTURE_2D, TEXTURE_MIN_FILTER, r.minFilter));
    gl.Issue(TexParameteri(TEXTURE_2D, TEXTURE_MAG_FILTER, r.magFilter));
    gl.Issue(TexParameteri(TEXTURE_2D, TEXTURE_WRAP_S, r.wrap));
    gl.Issue(TexParameteri(TEXTURE_2D, TEXTURE_WRAP_T, r.wrap));
    if Truthy(r.width) && Truthy(r.height) {
      gl.Issue(TexImage2DSized(r.internalFormat, r.width.value, r.height.value, r.format, r.pixelType, r.data));
    } else if r.data.Some? {
      gl.Issue(TexImage2DSource(r.internalFormat, r.format, r.pixelType, r.data.value));
    }
  }

  /** The calls of createAndSetupTexture when the next free handle is `h`. */
  function TextureCalls(h: Handle, options: TextureOptions, cfg: TextureConfigOptions,
                        first: TexAttempt, retry: TexAttempt): seq<Call>
  {
    var r := Resolve(options, cfg);
    AttemptCalls(h, first.created, r)
      + if NeedsFallback(r, first) then
          AttemptCalls(h + 1, retry.created, Resolve(Fallback(options), cfg))
          + (if retry.created then [UNBIND_TEXTURE] else [])
        else if first.created then [UNBIND_TEXTURE] else []
  }

  /**
   * createAndSetupTexture. `first` and `retry` are the driver's answers to the first attempt and
   * to the fallback attempt. The texture of a failed first attempt is neither unbound nor deleted.
   */
  method CreateAndSetupTexture(gl: Driver, options: TextureOptions, first: TexAttempt, retry: TexAttempt)
      returns (texture: Option<Handle>)
    modifies gl`calls, gl`bound, gl`nextHandle
    decreases if IsBasic(Resolve(options, GetTextureConfig(gl.extensions)).internalFormat,
                         Resolve(options, GetTextureConfig(gl.extensions)).pixelType) then 0 else 1
    ensures var r := Resolve(options, GetTextureConfig(gl.extensions));
      texture.Some? <==> TextureCreated(r, first, retry)
    ensures texture.Some? ==> old(gl.nextHandle) <= texture.value < gl.nextHandle
    ensures gl.nextHandle == old(gl.nextHandle) + (if first.created then 1 else 0)
      + (if NeedsFallback(Resolve(options, GetTextureConfig(gl.extensions)), first) && retry.created then 1 else 0)
    ensures old(gl.nextHandle) <= gl.nextHandle <= old(gl.nextHandle) + 2
    ensures texture.Some? ==> |gl.calls| > 0 && gl.calls[|gl.calls| - 1] == UNBIND_TEXTURE
    ensures gl.calls == old(gl.calls) + TextureCalls(old(gl.nextHandle), options, GetTextureConfig(gl.extensions), first, retry)
    ensures texture.Some? ==> texture.value == old(gl.nextHandle) + (if NeedsFallback(Resolve(options, GetTextureConfig(gl.extensions)), first) then 1 else 0)
  {
    var cfg := GetTextureConfig(gl.extensions);
    var r := Resolve(options, cfg);
    var h := gl.CreateObject(TextureObject, first.created);
    if h.None? {
      return None;
    }
    SetUp(gl, h.value, r);
    assert gl.calls == old(gl.calls) + AttemptCalls(h.value, true, r);
    if first.error != NO_ERROR && !IsBasic(r.internalFormat, r.pixelType) {
      FallbackIsBasic(options, cfg);
      texture := CreateAndSetupTexture(gl, Fallback(options), retry, retry);
      return;
    }
    gl.Issue(UNBIND_TEXTURE);
    texture := h;
  }

  const TEXTURE_FAILED: string := "Failed to create texture for framebuffer"
  const FRAMEBUFFER_FAILED: string := "Unable to create framebuffer"

  /** The message thrown for an incomplete framebuffer. */
  function Incomplete(status: int): string {
    "Framebuffer is not complete: " + IntString(status)
  }

  /** The single-use framebuffer and the texture attached to it. */
  datatype FramebufferTexture = FramebufferTexture(framebuffer: Handle, texture: Handle)

  /** What the driver does during one createFramebufferWithTexture attempt. */
  datatype FramebufferAttempt = FramebufferAttempt(
    first: TexAttempt,
    retry: TexAttempt,
    framebufferCreated: bool,
    status: int
  )

  function Over<T>(given: Option<T>, default: Option<T>): Option<T> {
    if given.Some? then given else default
  }

  /** `{width, height, internalFormat, format, type} ` from the probe, overridden by `...options`. */
  function FramebufferTextureOptions(width: int, height: int, cfg: TextureConfigOptions, options: TextureOptions): TextureOptions {
    options.(
      width := Over(options.width, Some(width)),
      height := Over(options.height, Some(height)),
      internalFormat := Over(options.internalFormat, Some(cfg.internalFormat)),
      format := Over(options.format, Some(cfg.format)),
      pixelType := Over(options.pixelType, Some(cfg.pixelType)))
  }

  /** The retry test reads the caller's raw options: an absent format counts as non-basic. */
  predicate IsBasicRequest(options: TextureOptions) {
    options.internalFormat == Some(RGBA) && options.pixelType == Some(UNSIGNED_BYTE)
  }

  function BasicRequest(options: TextureOptions): TextureOptions {
    options.(internalFormat := Some(RGBA), format := Some(RGBA), pixelType := Some(UNSIGNED_BYTE))
  }

  /** The attempt made a texture and a framebuffer, and the framebuffer is complete. */
  predicate AttemptSucceeds(r: ResolvedTexture, a: FramebufferAttempt) {
    TextureCreated(r, a.first, a.retry) && a.framebufferCreated && a.status == FRAMEBUFFER_COMPLETE
  }

  /** The attempt made a texture and a framebuffer, but the framebuffer is incomplete. */
  predicate AttemptIncomplete(r: ResolvedTexture, a: FramebufferAttempt) {
    TextureCreated(r, a.first, a.retry) && a.framebufferCreated && a.status != FRAMEBUFFER_COMPLETE
  }

  /** The texture a first attempt resolves: the caller's options over the probed ones. */
  function FirstResolved(width: int, height: int, ext: Extensions, options: TextureOptions): ResolvedTexture {
    var cfg := GetTextureConfig(ext);
    Resolve(FramebufferTextureOptions(width, height, cfg, options), cfg)
  }

  /** How the part of one createFramebufferWithTexture attempt before the status test ended. */
  datatype AttachOutcome =
    | TextureFailed
    | FramebufferFailed
    | Attached(framebuffer: Handle, texture: Handle)

  /** The texture an attempt attaches when the next free handle is `h`: the retry's when the upload fell back. */
  function AttemptTexture(h: Handle, r: ResolvedTexture, a: FramebufferAttempt): Handle {
    h + if NeedsFallback(r, a.first) then 1 else 0
  }

  /** The objects an attempt made, or where it stopped, when the next free handle is `h`. */
  function AttachOutcomeOf(h: Handle, r: ResolvedTexture, a: FramebufferAttempt): AttachOutcome {
    if !TextureCreated(r, a.first, a.retry) then TextureFailed
    else if !a.framebufferCreated then FramebufferFailed
    else Attached(AttemptTexture(h, r, a) + 1, AttemptTexture(h, r, a))
  }

  /** The next free handle after the steps of an attempt before the completeness test. */
  function AttachNext(h: Handle, r: ResolvedTexture, a: FramebufferAttempt): Handle {
    h + (if a.first.created then 1 else 0)
      + (if NeedsFallback(r, a.first) && a.retry.created then 1 else 0)
      + (if TextureCreated(r, a.first, a.retry) && a.framebufferCreated then 1 else 0)
  }

  /** The calls of an attempt up to the completeness test, when the next free handle is `h`. */
  function AttachCalls(h: Handle, textureOptions: TextureOptions, cfg: TextureConfigOptions, a: FramebufferAttempt): seq<Call> {
    var r := Resolve(textureOptions, cfg);
    var texture := AttemptTexture(h, r, a);
    TextureCalls(h, textureOptions, cfg, a.first, a.retry)
      + if !TextureCreated(r, a.first, a.retry) then []
        else if !a.framebufferCreated then [Call.CreateObject(FramebufferObject, None)]
        else [Call.CreateObject(FramebufferObject, Some(texture + 1)),
              Call.BindFramebuffer(FRAMEBUFFER, Some(texture + 1)),
              FramebufferTexture2D(texture)]
  }

  /** The error one attempt throws when it is not retried, in the order the code meets them. */
  function AttemptError(r: ResolvedTexture, a: FramebufferAttempt): (e: Option<string>)
    ensures e.None? <==> AttemptSucceeds(r, a)
  {
    if !TextureCreated(r, a.first, a.retry) then Some(TEXTURE_FAILED)
    else if !a.framebufferCreated then Some(FRAMEBUFFER_FAILED)
    else if a.status != FRAMEBUFFER_COMPLETE then Some(Incomplete(a.status))
    else None
  }

  /**
   * Creates the texture and the framebuffer, binds the framebuffer and attaches the texture:
   * the first steps of createFramebufferWithTexture, up to the completeness test.
   */
  method Attach(gl: Driver, width: int, height: int, options: TextureOptions, a: FramebufferAttempt)
      returns (outcome: AttachOutcome)
    modifies gl`calls, gl`bound, gl`nextHandle
    ensures outcome == AttachOutcomeOf(old(gl.nextHandle), FirstResolved(width, height, gl.extensions, options), a)
    ensures gl.nextHandle == AttachNext(old(gl.nextHandle), FirstResolved(width, height, gl.extensions, options), a)
    ensures var cfg := GetTextureConfig(gl.extensions);
      gl.calls == old(gl.calls) + AttachCalls(old(gl.nextHandle), FramebufferTextureOptions(width, height, cfg, options), cfg, a)
  {
    var cfg := GetTextureConfig(gl.extensions);
    ghost var h, r := gl.nextHandle, FirstResolved(width, height, gl.extensions, options);
    ghost var textureCalls := TextureCalls(h, FramebufferTextureOptions(width, height, cfg, options), cfg, a.first, a.retry);
    var texture := CreateAndSetupTexture(gl, FramebufferTextureOptions(width, height, cfg, options), a.first, a.retry);
    assert gl.calls == old(gl.calls) + textureCalls;
    if texture.None? {
      return TextureFailed;
    }
    assert texture.value == AttemptTexture(h, r, a) && gl.nextHandle == texture.value + 1;
    var framebuffer := gl.CreateObject(FramebufferObject, a.framebufferCreated);
    if framebuffer.None? {
      return FramebufferFailed;
    }
    gl.Issue(Call.BindFramebuffer(FRAMEBUFFER, framebuffer));
    gl.Issue(FramebufferTexture2D(texture.value));
    outcome := Attached(framebuffer.value, texture.value);
  }

  /** An incomplete first attempt with a format other than RGBA bytes is retried with them. */
  predicate Retried(r: ResolvedTexture, a: FramebufferAttempt, options: TextureOptions) {
    AttemptIncomplete(r, a) && !IsBasicRequest(options)
  }

  /** The calls after an attempt's completeness test: unbind on success, and nothing on a throw. */
  function Unbound(r: ResolvedTexture, a: FramebufferAttempt): seq<Call> {
    if AttemptSucceeds(r, a) then [Call.BindFramebuffer(FRAMEBUFFER, None)] else []
  }

  /**
   * createFramebufferWithTexture, with the thrown errors as `Err`. An incomplete framebuffer is
   * retried once with the byte format after deleting both objects; incomplete again, it throws.
   */
  method CreateFramebufferWithTexture(gl: Driver, width: int, height: int, options: TextureOptions,
                                      first: FramebufferAttempt, retry: FramebufferAttempt)
      returns (result: Result<FramebufferTexture>)
    modifies gl`calls, gl`bound, gl`nextHandle
    decreases if IsBasicRequest(options) then 0 else 1
    ensures var r1 := FirstResolved(width, height, gl.extensions, options);
            var r2 := FirstResolved(width, height, gl.extensions, BasicRequest(options));
      result.Ok? <==> (AttemptSucceeds(r1, first) || (Retried(r1, first, options) && AttemptSucceeds(r2, retry)))
    ensures var r1 := FirstResolved(width, height, gl.extensions, options);
            var r2 := FirstResolved(width, height, gl.extensions, BasicRequest(options));
            var e := if Retried(r1, first, options) then AttemptError(r2, retry) else AttemptError(r1, first);
      e.Some? ==> result == Err(e.value)
    ensures var h, r1 := old(gl.nextHandle), FirstResolved(width, height, gl.extensions, options);
            var r2 := FirstResolved(width, height, gl.extensions, BasicRequest(options));
            var h2 := AttachNext(h, r1, first);
            var o := if Retried(r1, first, options) then AttachOutcomeOf(h2, r2, retry) else AttachOutcomeOf(h, r1, first);
      result.Ok? ==> o.Attached? && result.value == FramebufferTexture(o.framebuffer, o.texture)
    ensures result.Ok? ==>
      old(gl.nextHandle) <= result.value.texture < result.value.framebuffer < gl.nextHandle
    ensures var h, cfg := old(gl.nextHandle), GetTextureConfig(gl.extensions);
            var r1 := FirstResolved(width, height, gl.extensions, options);
      !Retried(r1, first, options) ==>
        gl.calls == old(gl.calls) + AttachCalls(h, FramebufferTextureOptions(width, height, cfg, options), cfg, first)
          + Unbound(r1, first)
    ensures var h, cfg := old(gl.nextHandle), GetTextureConfig(gl.extensions);
            var r1 := FirstResolved(width, height, gl.extensions, options);
            var r2 := FirstResolved(width, height, gl.extensions, BasicRequest(options));
            var texture := AttemptTexture(h, r1, first);
      Retried(r1, first, options) ==>
        gl.calls == old(gl.calls) + AttachCalls(h, FramebufferTextureOptions(width, height, cfg, options), cfg, first)
          + [DeleteFramebuffer(texture + 1), DeleteTexture(texture)]
          + AttachCalls(texture + 2, FramebufferTextureOptions(width, height, cfg, BasicRequest(options)), cfg, retry)
          + Unbound(r2, retry)
    ensures old(gl.nextHandle) <= gl.nextHandle <= old(gl.nextHandle) + 6
    ensures IsBasicRequest(options) ==> gl.nextHandle <= old(gl.nextHandle) + 3
  {
    ghost var h, cfg := gl.nextHandle, GetTextureConfig(gl.extensions);
    ghost var r1 := FirstResolved(width, height, gl.extensions, options);
    ghost var firstCalls := AttachCalls(h, FramebufferTextureOptions(width, height, cfg, options), cfg, first);
    var outcome := Attach(gl, width, height, options, first);
    assert gl.calls == old(gl.calls) + firstCalls;
    match outcome
    case TextureFailed =>
      assert !Retried(r1, first, options) && AttemptError(r1, first) == Some(TEXTURE_FAILED);
      result := Err(TEXTURE_FAILED);
    case FramebufferFailed =>
      assert !Retried(r1, first, options) && AttemptError(r1, first) == Some(FRAMEBUFFER_FAILED);
      result := Err(FRAMEBUFFER_FAILED);
    case Attached(framebuffer, texture) =>
      assert texture == AttemptTexture(h, r1, first) && framebuffer == texture + 1;
      assert gl.nextHandle == texture + 2;
      if first.status != FRAMEBUFFER_COMPLETE {
        if options.internalFormat != Some(RGBA) || options.pixelType != Some(UNSIGNED_BYTE) {
          assert Retried(r1, first, options);
          gl.Issue(DeleteFramebuffer(framebuffer));
          gl.Issue(DeleteTexture(texture));
          assert gl.calls == old(gl.calls) + firstCalls + [DeleteFramebuffer(framebuffer), DeleteTexture(texture)];
          result := CreateFramebufferWithTexture(gl, width, height, BasicRequest(options), retry, retry);
        } else {
          assert !Retried(r1, first, options) && AttemptError(r1, first) == Some(Incomplete(first.status));
          result := Err(Incomplete(first.status));
        }
      } else {
        assert !Retried(r1, first, options) && AttemptSucceeds(r1, first);
        gl.Issue(Call.BindFramebuffer(FRAMEBUFFER, None));
        result := Ok(FramebufferTexture(framebuffer, texture));
      }
  }
}
