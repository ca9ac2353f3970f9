/**
 * resource-manager.ts: the registry of GPU objects. Buffers, textures and framebuffers are
 * tracked by handle with a record of what they are; shaders and programs are tracked by name.
 * Deletion looks the handle up and issues the delete call its kind needs; `dispose` deletes
 * everything and empties the three maps.
 */
module ResourceManagement {
  import opened Wrappers
  import opened WebGL
  import opened JsMap
  import opened TextureConfig
  import opened TextureManagement
  import WebGLUtils

  /**
   * What the registry remembers about a tracked object. The texture record keeps the creation
   * options without their `type` key: the source strips it before spreading the options into
   * the record, so the record's own `type` tag stays 'texture'.
   */
  datatype ResourceInfo =
    | BufferInfo(data: seq<real>, usage: int)
    | TextureInfo(options: TextureOptions)
    | FramebufferInfo

  /** The options a texture record keeps: all but `type`. */
  function Untyped(options: TextureOptions): (kept: TextureOptions)
    ensures kept.pixelType.None?
    ensures kept.(pixelType := options.pixelType) == options
  {
    options.(pixelType := None)
  }

  /** The delete call `deleteResource` issues for a tracked object, chosen by its record. */
  function DeleteCall(h: Handle, info: ResourceInfo): (c: Call)
    ensures c.DeleteTexture? <==> info.TextureInfo?
    ensures c.DeleteBuffer? <==> info.BufferInfo?
    ensures c.DeleteFramebuffer? <==> info.FramebufferInfo?
    ensures (c.DeleteTexture? || c.DeleteBuffer? || c.DeleteFramebuffer?) && c.deleted == h
  {
    match info
    case TextureInfo(_) => DeleteTexture(h)
    case BufferInfo(_, _) => DeleteBuffer(h)
    case FramebufferInfo => DeleteFramebuffer(h)
  }

  /** The delete calls for the tracked objects `keys`, in that order. */
  function DeleteCalls(keys: seq<Handle>, info: map<Handle, ResourceInfo>): (calls: seq<Call>)
    requires forall k :: k in keys ==> k in info
    ensures |calls| == |keys|
    decreases |keys|
  {
    if keys == [] then []
    else DeleteCalls(keys[..|keys| - 1], info) + [DeleteCall(keys[|keys| - 1], info[keys[|keys| - 1]])]
  }

  /** The `i`-th delete call is the one for the `i`-th key. */
  lemma {:induction false} DeleteCallsAt(keys: seq<Handle>, info: map<Handle, ResourceInfo>)
    requires forall k :: k in keys ==> k in info
    ensures forall i :: 0 <= i < |keys| ==> DeleteCalls(keys, info)[i] == DeleteCall(keys[i], info[keys[i]])
    decreases |keys|
  {
    if keys != [] {
      DeleteCallsAt(keys[..|keys| - 1], info);
    }
  }

  /** One `deleteShader` per handle, in order. */
  function DeleteShaders(handles: seq<Handle>): (calls: seq<Call>)
    ensures |calls| == |handles|
    ensures forall i :: 0 <= i < |handles| ==> calls[i] == DeleteShader(handles[i])
    decreases |handles|
  {
    if handles == [] then []
    else DeleteShaders(handles[..|handles| - 1]) + [DeleteShader(handles[|handles| - 1])]
  }

  /** One `deleteProgram` per handle, in order. */
  function DeletePrograms(handles: seq<Handle>): (calls: seq<Call>)
    ensures |calls| == |handles|
    ensures forall i :: 0 <= i < |handles| ==> calls[i] == DeleteProgram(handles[i])
    decreases |handles|
  {
    if handles == [] then []
    else DeletePrograms(handles[..|handles| - 1]) + [DeleteProgram(handles[|handles| - 1])]
  }

  /**
   * Disposing deletes every tracked object exactly once: the delete calls name pairwise distinct
   * objects, each tracked object is named by one of them with the call its kind needs, and
   * nothing untracked is named.
   */
  lemma DeleteCallsOnce(keys: seq<Handle>, info: map<Handle, ResourceInfo>)
    requires Distinct(keys) && forall k :: k in info <==> k in keys
    ensures var calls := DeleteCalls(keys, info);
      && (forall i :: 0 <= i < |calls| ==> calls[i] == DeleteCall(keys[i], info[keys[i]]))
      && (forall i, j :: 0 <= i < j < |calls| ==> calls[i].deleted != calls[j].deleted)
      && (forall k :: k in info ==> DeleteCall(k, info[k]) in calls)
      && (forall i :: 0 <= i < |calls| ==> calls[i].deleted in info)
  {
    var calls := DeleteCalls(keys, info);
    DeleteCallsAt(keys, info);
    forall k | k in info
      ensures DeleteCall(k, info[k]) in calls
    {
      var i :| 0 <= i < |keys| && keys[i] == k;
      assert calls[i] == DeleteCall(k, info[k]);
    }
  }

  /** Visiting one more key appends its delete call. */
  lemma DeleteCallsSnoc(keys: seq<Handle>, i: nat, info: map<Handle, ResourceInfo>)
    requires i < |keys| && forall k :: k in keys ==> k in info
    ensures DeleteCalls(keys[..i + 1], info) == DeleteCalls(keys[..i], info) + [DeleteCall(keys[i], info[keys[i]])]
  {
    assert keys[..i + 1][..i] == keys[..i];
  }

  /** The registry entries still to visit: the keys `keys`, with their records from `info`. */
  ghost function Remaining(keys: seq<Handle>, info: map<Handle, ResourceInfo>): OrderedMap<Handle, ResourceInfo> {
    OrderedMap(keys, map k | k in keys && k in info :: info[k])
  }

  /** Deleting the first entry still to visit leaves the rest still to visit. */
  lemma RemainingDeleteHead(keys: seq<Handle>, info: map<Handle, ResourceInfo>)
    requires keys != [] && Distinct(keys) && forall k :: k in keys ==> k in info
    ensures Remaining(keys, info).Valid() && Remaining(keys, info).Has(keys[0])
    ensures Remaining(keys, info).values[keys[0]] == info[keys[0]]
    ensures Remaining(keys, info).Delete(keys[0]) == Remaining(keys[1..], info)
  {
    WithoutHead(keys);
    DistinctHead(keys);
  }

  /** The answer of `fetch('shaders/' + name)`: whether the response was ok, and its text. */
  datatype Fetched = Fetched(ok: bool, text: string)

  /** Everything the outside world answers while loading one shader. */
  datatype ShaderLoad = ShaderLoad(response: Fetched, created: bool, compiled: bool)

  /** Everything the outside world answers while building one program. */
  datatype ProgramBuild = ProgramBuild(vertex: ShaderLoad, fragment: ShaderLoad, created: bool, linked: bool)

  /** The error `loadShader` throws, if any. */
  function LoadError(name: string, load: ShaderLoad): (e: Option<string>)
    ensures e.None? <==> load.response.ok && load.created && load.compiled
  {
    if !load.response.ok then Some("Failed to load shader: " + name)
    else if !(load.created && load.compiled) then Some("Failed to compile shader: " + name)
    else None
  }

  /** The error `createProgram` throws, if any: the first step that fails decides it. */
  function ProgramError(name: string, vertexName: string, fragmentName: string, build: ProgramBuild): (e: Option<string>)
    ensures e.None? <==> (LoadError(vertexName + ".vert", build.vertex).None?
                          && LoadError(fragmentName + ".frag", build.fragment).None?
                          && build.created && build.linked)
  {
    if LoadError(vertexName + ".vert", build.vertex).Some? then LoadError(vertexName + ".vert", build.vertex)
    else if LoadError(fragmentName + ".frag", build.fragment).Some? then LoadError(fragmentName + ".frag", build.fragment)
    else if !(build.created && build.linked) then Some("Failed to create program: " + name)
    else None
  }

  /** The calls a shader load issues when the next handle is `h`: none unless the fetch succeeded. */
  function LoadCalls(h: Handle, stage: int, load: ShaderLoad): seq<Call> {
    if load.response.ok
    then WebGLUtils.ShaderCalls(h, stage, load.response.text, load.created, load.compiled)
    else []
  }

  /** The shader was fetched, created and compiled: what `loadShader` needs to succeed. */
  predicate Loaded(load: ShaderLoad) {
    load.response.ok && load.created && load.compiled
  }

  /** The usage `createBuffer` defaults to. */
  const DEFAULT_USAGE: int := DYNAMIC_COPY

  class ResourceManager {
    const gl: Driver
    var resources: OrderedMap<Handle, ResourceInfo>
    var shaders: OrderedMap<string, Handle>
    var programs: OrderedMap<string, Handle>

    /** The three maps are well formed and every tracked object was handed out by the context. */
    ghost predicate Valid()
      reads this, gl`nextHandle
    {
      && resources.Valid() && shaders.Valid() && programs.Valid()
      && (forall h :: h in resources.values ==> h < gl.nextHandle)
    }

    constructor (gl: Driver)
      ensures this.gl == gl && Valid()
      ensures resources == Empty() && shaders == Empty() && programs == Empty()
    {
      this.gl := gl;
      resources, shaders, programs := Empty(), Empty(), Empty();
    }

    /**
     * loadShader. `load` holds the fetch response and the driver's answers; a failed fetch issues
     * no call and a shader that does not compile is not recorded.
     */
    method LoadShader(name: string, stage: int, load: ShaderLoad) returns (shader: Result<Handle>)
      requires Valid()
      modifies this`shaders, gl`calls, gl`bound, gl`nextHandle
      ensures Valid()
      ensures shader.Err? <==> LoadError(name, load).Some?
      ensures shader.Err? ==> shader.message == LoadError(name, load).value && shaders == old(shaders)
      ensures shader.Ok? ==> shader.value == old(gl.nextHandle) && shaders == old(shaders).Set(name, shader.value)
      ensures gl.calls == old(gl.calls) + LoadCalls(old(gl.nextHandle), stage, load)
      ensures gl.nextHandle == old(gl.nextHandle) + (if load.response.ok && load.created then 1 else 0)
      ensures gl.bound == old(gl.bound)
    {
      if !load.response.ok {
        return Err("Failed to load shader: " + name);
      }
      var created := WebGLUtils.CreateShader(gl, stage, load.response.text, load.created, load.compiled);
      if created.None? {
        return Err("Failed to compile shader: " + name);
      }
      shaders := shaders.Set(name, created.value);
      shader := Ok(created.value);
    }

    /**
     * createProgram: the vertex shader `<vertexName>.vert`, then the fragment shader
     * `<fragmentName>.frag`, then the program; the first failure is rethrown. Only a linked
     * program is recorded, and shaders loaded before the failure stay recorded.
     */
    method CreateProgram(name: string, vertexName: string, fragmentName: string,
                         varyings: Option<seq<string>>, build: ProgramBuild)
        returns (program: Result<Handle>)
      requires Valid()
      modifies this`shaders, this`programs, gl`calls, gl`bound, gl`nextHandle
      ensures Valid()
      ensures program.Err? <==> ProgramError(name, vertexName, fragmentName, build).Some?
      ensures program.Err? ==> program.message == ProgramError(name, vertexName, fragmentName, build).value
      ensures program.Err? ==> programs == old(programs)
      ensures !Loaded(build.vertex) ==> shaders == old(shaders)
      ensures Loaded(build.vertex) && !Loaded(build.fragment) ==>
        shaders == old(shaders).Set(vertexName + ".vert", old(gl.nextHandle))
      ensures Loaded(build.vertex) && Loaded(build.fragment) ==>
        shaders == old(shaders).Set(vertexName + ".vert", old(gl.nextHandle)).Set(fragmentName + ".frag", old(gl.nextHandle) + 1)
      ensures var n := old(gl.nextHandle);
        program.Ok? ==> program.value == n + 2 && programs == old(programs).Set(name, n + 2)
      ensures var n := old(gl.nextHandle);
        !Loaded(build.vertex) ==> gl.calls == old(gl.calls) + LoadCalls(n, VERTEX_SHADER, build.vertex)
      ensures var n := old(gl.nextHandle);
        Loaded(build.vertex) && !Loaded(build.fragment) ==>
          gl.calls == old(gl.calls) + LoadCalls(n, VERTEX_SHADER, build.vertex) + LoadCalls(n + 1, FRAGMENT_SHADER, build.fragment)
      ensures var n := old(gl.nextHandle);
        Loaded(build.vertex) && Loaded(build.fragment) ==>
          gl.calls == old(gl.calls) + LoadCalls(n, VERTEX_SHADER, build.vertex) + LoadCalls(n + 1, FRAGMENT_SHADER, build.fragment)
            + WebGLUtils.ProgramCalls(n + 2, n, n + 1, varyings, build.created, build.linked)
      ensures old(gl.nextHandle) <= gl.nextHandle
      ensures gl.bound == old(gl.bound)
    {
      ghost var start, n := gl.calls, gl.nextHandle;
      ghost var vertexCalls := LoadCalls(n, VERTEX_SHADER, build.vertex);
      ghost var fragmentCalls := LoadCalls(n + 1, FRAGMENT_SHADER, build.fragment);
      var vertex := LoadShader(vertexName + ".vert", VERTEX_SHADER, build.vertex);
      if vertex.Err? {
        assert gl.calls == start + vertexCalls;
        return Err(vertex.message);
      }
      ghost var afterVertex := gl.calls;
      var fragment := LoadShader(fragmentName + ".frag", FRAGMENT_SHADER, build.fragment);
      assert gl.calls == afterVertex + fragmentCalls;
      if fragment.Err? {
        assert gl.calls == start + vertexCalls + fragmentCalls;
        return Err(fragment.message);
      }
      assert gl.nextHandle == n + 2 && programs == old(programs);
      ghost var afterFragment := gl.calls;
      program := Link(name, vertex.value, fragment.value, varyings, build.created, build.linked);
      assert gl.calls == afterFragment + WebGLUtils.ProgramCalls(n + 2, n, n + 1, varyings, build.created, build.linked);
    }

    /** The last step of createProgram: link the two shaders and record the program if it links. */
    method Link(name: string, vertexShader: Handle, fragmentShader: Handle,
                varyings: Option<seq<string>>, created: bool, linked: bool)
        returns (program: Result<Handle>)
      requires Valid()
      modifies this`programs, gl`calls, gl`bound, gl`nextHandle
      ensures Valid()
      ensures program == if created && linked then Ok(old(gl.nextHandle)) else Err("Failed to create program: " + name)
      ensures programs == if program.Ok? then old(programs).Set(name, program.value) else old(programs)
      ensures gl.calls == old(gl.calls)
        + WebGLUtils.ProgramCalls(old(gl.nextHandle), vertexShader, fragmentShader, varyings, created, linked)
      ensures gl.nextHandle == old(gl.nextHandle) + (if created then 1 else 0)
      ensures gl.bound == old(gl.bound)
    {
      var linkedProgram := WebGLUtils.CreateProgram(gl, vertexShader, fragmentShader, varyings, created, linked);
      if linkedProgram.None? {
        return Err("Failed to create program: " + name);
      }
      programs := programs.Set(name, linkedProgram.value);
      program := Ok(linkedProgram.value);
    }

    /** createBuffer: a thrown creation failure leaves the registry as it was. */
    method CreateBuffer(data: seq<real>, usage: int, created: bool) returns (buffer: Result<Handle>)
      requires Valid()
      modifies this`resources, gl`calls, gl`bound, gl`nextHandle
      ensures Valid()
      ensures buffer == if created then Ok(old(gl.nextHandle)) else Err(WebGLUtils.BUFFER_FAILED)
      ensures buffer.Err? ==> resources == old(resources)
      ensures buffer.Ok? ==>
        && resources.keys == old(resources.keys) + [buffer.value]
        && resources.values == old(resources.values)[buffer.value := BufferInfo(data, usage)]
      ensures gl.calls == old(gl.calls) + WebGLUtils.BufferCalls(old(gl.nextHandle), data, usage, created)
      ensures gl.nextHandle == old(gl.nextHandle) + (if created then 1 else 0)
      ensures gl.bound == old(gl.bound)
    {
      buffer := WebGLUtils.CreateBuffer(gl, data, usage, created);
      if buffer.Ok? {
        resources := resources.Set(buffer.value, BufferInfo(data, usage));
      }
    }

    /** createTexture: registered exactly when a texture came back. */
    method CreateTexture(options: TextureOptions, first: TexAttempt, retry: TexAttempt)
        returns (texture: Option<Handle>)
      requires Valid()
      modifies this`resources, gl`calls, gl`bound, gl`nextHandle
      ensures Valid()
      ensures texture.Some? <==> TextureCreated(Resolve(options, GetTextureConfig(gl.extensions)), first, retry)
      ensures texture.None? ==> resources == old(resources)
      ensures texture.Some? ==>
        && old(gl.nextHandle) <= texture.value < gl.nextHandle
        && texture.value == old(gl.nextHandle) + (if NeedsFallback(Resolve(options, GetTextureConfig(gl.extensions)), first) then 1 else 0)
        && resources.keys == old(resources.keys) + [texture.value]
        && resources.values == old(resources.values)[texture.value := TextureInfo(Untyped(options))]
      ensures gl.calls == old(gl.calls) + TextureCalls(old(gl.nextHandle), options, GetTextureConfig(gl.extensions), first, retry)
      ensures old(gl.nextHandle) <= gl.nextHandle
    {
      texture := CreateAndSetupTexture(gl, options, first, retry);
      if texture.Some? {
        resources := resources.Set(texture.value, TextureInfo(Untyped(options)));
      }
    }

    /** createFramebuffer: registered exactly when the context hands one out. */
    method CreateFramebuffer(created: bool) returns (framebuffer: Option<Handle>)
      requires Valid()
      modifies this`resources, gl`calls, gl`bound, gl`nextHandle
      ensures Valid()
      ensures framebuffer == (if created then Some(old(gl.nextHandle)) else None)
      ensures framebuffer.None? ==> resources == old(resources)
      ensures framebuffer.Some? ==>
        && resources.keys == old(resources.keys) + [framebuffer.value]
        && resources.values == old(resources.values)[framebuffer.value := FramebufferInfo]
      ensures gl.calls == old(gl.calls) + [Call.CreateObject(FramebufferObject, framebuffer)]
      ensures gl.nextHandle == old(gl.nextHandle) + (if created then 1 else 0)
      ensures gl.bound == old(gl.bound)
    {
      framebuffer := gl.CreateObject(FramebufferObject, created);
      if framebuffer.Some? {
        resources := resources.Set(framebuffer.value, FramebufferInfo);
      }
    }

    /**
     * deleteResource: an untracked handle is ignored; a tracked one gets the one delete call its
     * record asks for and leaves the registry.
     */
    method DeleteResource(resource: Handle)
      requires Valid()
      modifies this`resources, gl`calls, gl`bound
      ensures Valid()
      ensures !old(resources.Has(resource)) ==> resources == old(resources) && gl.calls == old(gl.calls)
      ensures old(resources.Has(resource)) ==>
        && resources == old(resources).Delete(resource)
        && gl.calls == old(gl.calls) + [DeleteCall(resource, old(resources.values[resource]))]
      ensures gl.bound == old(gl.bound)
    {
      var info := resources.Get(resource);
      if info.None? {
        return;
      }
      gl.Issue(DeleteCall(resource, info.value));
      resources := resources.Delete(resource);
    }

    /**
     * dispose: every tracked object deleted in insertion order, then every recorded shader, then
     * every recorded program; the three maps end empty.
     */
    method Dispose()
      requires Valid()
      modifies this`resources, this`shaders, this`programs, gl`calls, gl`bound
      ensures Valid()
      ensures resources == Empty() && shaders == Empty() && programs == Empty()
      ensures gl.calls == old(gl.calls)
        + DeleteCalls(old(resources.keys), old(resources.values))
        + DeleteShaders(old(shaders.Values()))
        + DeletePrograms(old(programs.Values()))
      ensures gl.bound == old(gl.bound)
    {
      DeleteAllResources();
      DeleteShaderHandles(shaders.Values());
      shaders := Empty();
      DeleteProgramHandles(programs.Values());
      programs := Empty();
    }

    /** The `resources.forEach(deleteResource)` loop of dispose. */
    method DeleteAllResources()
      requires Valid()
      modifies this`resources, gl`calls, gl`bound
      ensures Valid() && resources == Empty()
      ensures gl.calls == old(gl.calls) + DeleteCalls(old(resources.keys), old(resources.values))
      ensures gl.bound == old(gl.bound)
    {
      var keys := resources.keys;
      ghost var info := resources.values;
      var i := 0;
      while i < |keys|
        invariant 0 <= i <= |keys|
        invariant Valid() && resources == Remaining(keys[i..], info)
        invariant gl.calls == old(gl.calls) + DeleteCalls(keys[..i], info)
        invariant gl.bound == old(gl.bound)
      {
        DeleteAt(keys, i, info);
        DeleteCallsSnoc(keys, i, info);
        i := i + 1;
      }
      assert keys[..i] == keys;
    }

    /** One step of the `forEach`: `deleteResource` on the entry at position `i` of `keys`. */
    method DeleteAt(keys: seq<Handle>, i: nat, ghost info: map<Handle, ResourceInfo>)
      requires Valid() && i < |keys| && forall k :: k in keys ==> k in info
      requires resources == Remaining(keys[i..], info)
      modifies this`resources, gl`calls, gl`bound
      ensures Valid() && resources == Remaining(keys[i + 1..], info)
      ensures gl.calls == old(gl.calls) + [DeleteCall(keys[i], info[keys[i]])]
      ensures gl.bound == old(gl.bound)
    {
      assert keys[i..][1..] == keys[i + 1..];
      RemainingDeleteHead(keys[i..], info);
      DeleteResource(keys[i]);
    }

    /** The `shaders.forEach(deleteShader)` loop of dispose. */
    method DeleteShaderHandles(handles: seq<Handle>)
      modifies gl`calls, gl`bound
      ensures gl.calls == old(gl.calls) + DeleteShaders(handles)
      ensures gl.bound == old(gl.bound)
    {
      for j := 0 to |handles|
        invariant gl.calls == old(gl.calls) + DeleteShaders(handles[..j])
        invariant gl.bound == old(gl.bound)
      {
        assert handles[..j + 1][..j] == handles[..j];
        gl.Issue(DeleteShader(handles[j]));
      }
      assert handles[..|handles|] == handles;
    }

    /** The `programs.forEach(deleteProgram)` loop of dispose. */
    method DeleteProgramHandles(handles: seq<Handle>)
      modifies gl`calls, gl`bound
      ensures gl.calls == old(gl.calls) + DeletePrograms(handles)
      ensures gl.bound == old(gl.bound)
    {
      for j := 0 to |handles|
        invariant gl.calls == old(gl.calls) + DeletePrograms(handles[..j])
        invariant gl.bound == old(gl.bound)
      {
        assert handles[..j + 1][..j] == handles[..j];
        gl.Issue(DeleteProgram(handles[j]));
      }
      assert handles[..|handles|] == handles;
    }

    /** getProgram. */
    function GetProgram(name: string): (p: Option<Handle>)
      reads this`programs
      ensures p.Some? <==> HasProgram(name)
      ensures p.Some? ==> p.value == programs.values[name]
    {
      programs.Get(name)
    }

    /** hasProgram. */
    predicate HasProgram(name: string)
      reads this`programs
    {
      programs.Has(name)
    }

    /** getShader. */
    function GetShader(name: string): (s: Option<Handle>)
      reads this`shaders
      ensures s.Some? <==> HasShader(name)
      ensures s.Some? ==> s.value == shaders.values[name]
    {
      shaders.Get(name)
    }

    /** hasShader. */
    predicate HasShader(name: string)
      reads this`shaders
    {
      shaders.Has(name)
    }
  }
}
