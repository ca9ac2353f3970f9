# dust: a model of the WebGL 2 particle renderer

dust turns an uploaded image into a field of particles. A transform-feedback program moves the
particles over a flow field and pulls them toward the edges found in the image. A second
program draws them as blended points. This project models the TypeScript core of that renderer
in Dafny and proves what each part promises:

- **GLState** (`gl_state.dfy`): the cache of context state. Each setter issues its WebGL call
  only when the wanted value differs from the cached one. Every setter keeps the invariant
  `Coherent()`: the cache agrees with the binding state replayed from the calls issued so far.
  `saveState` and `restoreState` take and restore a snapshot.
- **Texture configuration and creation** (`texture_config.dfy`, `texture_management.dfy`):
  - the float, half-float or byte format the extensions allow;
  - how a texture request falls back to the byte format after a driver error;
  - how a framebuffer-with-texture request retries once before it throws.
- **webgl-utils** (`webgl_utils.dfy`):
  - `hexToRGB`, including the NaN channels it gives for malformed input;
  - `getRandomColor` and `getRandomValue`;
  - the uniform dispatch of `setUniforms`;
  - canvas resizing;
  - shader, program and buffer creation, with the cleanup each does on failure.
- **ResourceManager** (`resource_manager.dfy`, `js_map.dfy`): registries of buffers, textures,
  framebuffers, shaders and programs. They are JavaScript `Map`s, with insertion order, and
  `dispose` deletes their objects in that order.
- **ParticleSystem** (`particle_system.dfy`):
  - construction and its error cases;
  - the initial attribute arrays;
  - the ping-pong buffer pairs and vertex arrays;
  - the edge-detection pass of `processImage`;
  - the transform-feedback `update` and the blended `render`;
  - `dispose`.
- **The engine** (`particle_engine.dfy`):
  - the animation life cycle of `particle-engine.ts`: start, stop, animate, toggle, the two
    halves of a safe restart, and the restart decision of `updateConfig` and
    `randomizeInputs`;
  - `calculateDivisibleDimensions`;
  - the attraction-strength formula.

The WebGL context is a `Driver` object (`webgl.dfy`). It appends every call it receives to a
trace, `calls`. It hands out object handles from a counter. Its ghost `bound` records the
bindings that the trace leaves in place. Every operation that issues calls states the exact
trace it appends, on its failure paths as well as on success, and every operation that
registers objects states the registry it leaves. Anything else the outside world decides is a parameter of the operation:

- what the driver answers: a null from `create*`, `getError`, a completeness status, a compile
  or link status;
- what `fetch` answers;
- what `Math.random` draws.

A thrown exception is an `Err` or `None` result.

## Model

| member | source | states |
|---|---|---|
| GlState.GLState.constructor | src/lib/webgl/gl-state/gl-state.ts:26-46 | every cached binding and flag starts null (unknown), the viewport and clear colour at zero, with one empty slot per combined texture unit; the only call is the `UNPACK_FLIP_Y_WEBGL` pixel store; the cache is coherent with a context whose bindings match those values |
| GlState.GLState.UseProgram | src/lib/webgl/gl-state/gl-state.ts:48-55 | the result is true exactly when the program differs from the cached one, and only then is `useProgram` issued; coherence is kept |
| GlState.GLState.BindVAO | src/lib/webgl/gl-state/gl-state.ts:57-64 | `bindVertexArray` is issued iff the vertex array changes, the cache records it, coherence is kept |
| GlState.GLState.ActiveTexture | src/lib/webgl/gl-state/gl-state.ts:66-73 | `activeTexture(TEXTURE0 + unit)` is issued iff the active unit changes; coherence is kept |
| GlState.GLState.BindTexture | src/lib/webgl/gl-state/gl-state.ts:75-83 | the unit is always activated through the cache; the texture is bound and recorded on that unit iff it differs; every other unit's entry is unchanged; coherence is kept |
| GlState.GLState.SetBlending | src/lib/webgl/gl-state/gl-state.ts:85-96 | `enable` or `disable(BLEND)` is issued iff the wanted state differs from the cached one; coherence is kept |
| GlState.GLState.SetBlendFunc | src/lib/webgl/gl-state/gl-state.ts:98-100 | `blendFunc` is always issued, uncached, and coherence is kept |
| GlState.GLState.BindFramebuffer | src/lib/webgl/gl-state/gl-state.ts:102-109 | `bindFramebuffer` is issued iff the framebuffer changes; coherence is kept |
| GlState.GLState.SetViewport | src/lib/webgl/gl-state/gl-state.ts:111-126 | `viewport` is issued iff any of the four numbers changes; coherence is kept |
| GlState.GLState.SetClearColor | src/lib/webgl/gl-state/gl-state.ts:128-143 | the four components are compared and cached, but the call always sends alpha 1.0; coherence on the RGB part is kept |
| GlState.GLState.SetDepthTest | src/lib/webgl/gl-state/gl-state.ts:145-156 | the depth-test capability is switched iff it differs from the cache; coherence is kept |
| GlState.GLState.SetCullFace | src/lib/webgl/gl-state/gl-state.ts:158-169 | the cull-face capability is switched iff it differs from the cache; coherence is kept |
| GlState.GLState.SetFrontFace | src/lib/webgl/gl-state/gl-state.ts:171-178 | `frontFace` is issued iff the mode differs from the cache; coherence is kept |
| GlState.GLState.Clear | src/lib/webgl/gl-state/gl-state.ts:180-188 | the cached colour is re-sent with alpha 1.0, the buffer is cleared, and the cached viewport is re-sent after it; afterwards the context's clear colour and viewport match the cache |
| GlState.GLState.Reset | src/lib/webgl/gl-state/gl-state.ts:190-206 | the cache returns to its initial unknown state with a fresh texture table and issues nothing |
| GlState.GLState.SaveState | src/lib/webgl/gl-state/gl-state.ts:208-210 | the snapshot holds every cached field, and it shares the texture table (the same array, not a copy) |
| GlState.GLState.RestoreState | src/lib/webgl/gl-state/gl-state.ts:212-236 | program, vertex array, blending, framebuffer and viewport are restored through the cached setters; the other six fields are untouched; coherence is kept |
| GlState.GLState.RestoreDrawing | src/lib/webgl/gl-state/gl-state.ts:213-223 | the drawing half of a restore: program, vertex array and blending equal the snapshot's |
| GlState.GLState.RestoreTarget | src/lib/webgl/gl-state/gl-state.ts:224-235 | the target half of a restore: framebuffer and viewport equal the snapshot's |
| GlState.GLState.PassThrough | src/lib/webgl/particle-system/particle-system.ts:257-268 | calls made directly on the context (uniforms, draws) that bind nothing leave the cache coherent |
| JsMap.OrderedMap.Get | src/lib/webgl/resource-manager/resource-manager.ts:110-111 | `Map.get` finds a value exactly for a present key, and it is that key's value |
| JsMap.OrderedMap.Set | src/lib/webgl/resource-manager/resource-manager.ts:85 | `Map.set` maps the key to the value; a new key goes last in iteration order, and an existing key keeps its place |
| JsMap.OrderedMap.Delete | src/lib/webgl/resource-manager/resource-manager.ts:126 | `Map.delete` drops the key from both the mapping and the iteration order |
| JsMap.OrderedMap.Values | src/lib/webgl/resource-manager/resource-manager.ts:136-144 | `forEach` visits the values in key insertion order |
| JsMap.SetThenGet | src/lib/webgl/resource-manager/resource-manager.ts:85-94 | after `set(k, v)`, `get(k)` is `v` and every other key reads as before |
| JsMap.SetThenDeleteFresh | src/lib/webgl/resource-manager/resource-manager.ts:85-126 | adding a new key and deleting it gives back the same map, order included |
| JsMap.DeleteTwice | src/lib/webgl/resource-manager/resource-manager.ts:126 | deleting is idempotent, and the key is absent afterwards |
| TextureConfig.GetTextureConfig | src/lib/webgl/texture/texture-config.ts:3-35 | the format is always RGBA. 32-bit float is chosen iff linear-filterable float textures and float colour buffers are both available, half float otherwise when both the half-float and the half-float-linear extensions are present, bytes otherwise. Filtering is NEAREST iff neither linear-filtering extension is present |
| TextureConfig.ConfigIsFilterable | src/lib/webgl/texture/texture-config.ts:20-32 | a float format is picked only when its own linear-filtering extension is present (RGBA32F with the float one, RGBA16F with the half-float one), and NEAREST is picked only for the RGBA/UNSIGNED_BYTE fallback |
| TextureConfig.NoExtensions | src/lib/webgl/texture/texture-config.ts:6-11 | with no extensions the configuration is RGBA bytes with NEAREST filtering |
| TextureManagement.Resolve | src/lib/webgl/texture/texture-management.ts:10-20 | each option the caller leaves out takes the probed default (format, type, filters) or CLAMP_TO_EDGE for wrapping; size and data pass through |
| TextureManagement.UploadChoice | src/lib/webgl/texture/texture-management.ts:34-55 | at most one upload is made: the sized upload when width and height are both truthy, the source upload when only data is given, none otherwise |
| TextureManagement.FallbackIsBasic | src/lib/webgl/texture/texture-management.ts:61-71 | the fallback request is RGBA bytes with linear filters, keeps size, wrapping and data, and so cannot fall back again |
| TextureManagement.SetUp | src/lib/webgl/texture/texture-management.ts:27-55 | a created texture is bound, its four parameters set and its data uploaded, in that order |
| TextureManagement.CreateAndSetupTexture | src/lib/webgl/texture/texture-management.ts:4-76 | a texture comes back iff it is created, and, after a driver error under a non-byte format, its one fallback is created too. The handle is the fallback's when that path is taken. The exact call sequence ends by unbinding the texture |
| TextureManagement.Attach | src/lib/webgl/texture/texture-management.ts:84-108 | the first steps of an attempt: fail on the texture, fail on the framebuffer, or bind the framebuffer and attach the texture, which was created first; the outcome, the handles used and the exact calls are stated |
| TextureManagement.AttemptError | src/lib/webgl/texture/texture-management.ts:94-126 | an attempt that is not retried throws nothing exactly when its texture and framebuffer are created and the framebuffer is complete |
| TextureManagement.CreateFramebufferWithTexture | src/lib/webgl/texture/texture-management.ts:78-131 | success iff the first attempt is complete, or it is incomplete under a non-byte request and the single byte-format retry is complete. The error thrown is the first failure of the attempt that decides the outcome, the retry's when there is one. Without a retry the calls are the attempt's, then the unbind on success. With a retry they are the first attempt's, then `deleteFramebuffer` and `deleteTexture` of its two objects, then the byte-format attempt's, then the unbind on success. The objects returned are those the deciding attempt attached. At most 6 objects are created, and at most 3 for a byte request |
| WebGLUtils.Slice | src/lib/webgl/utils/webgl-utils.ts:108-110 | `String.prototype.slice` with in-range indices is the subsequence, and is shorter otherwise |
| WebGLUtils.ParseTwoDigits | src/lib/webgl/utils/webgl-utils.ts:108-110 | `parseInt` in base 16 of two hex digits is 16 times the first digit plus the second |
| WebGLUtils.ChannelOfTwoDigits | src/lib/webgl/utils/webgl-utils.ts:108-110 | a channel of two hex digits is the byte they spell divided by 255 |
| WebGLUtils.HexToRGBOfColor | src/lib/webgl/utils/webgl-utils.ts:107-112 | for `#rrggbb` the three channels are the three bytes over 255 |
| WebGLUtils.HexToRGBInRange | src/lib/webgl/utils/webgl-utils.ts:107-112 | every channel of a well-formed colour is a finite number in [0, 1] |
| WebGLUtils.HexRoundTrip | src/lib/webgl/utils/webgl-utils.ts:107-121 | printing three bytes as `#rrggbb` and reading it back with hexToRGB gives the bytes over 255 |
| WebGLUtils.HexColorBytes | src/lib/webgl/utils/webgl-utils.ts:107-121 | the bytes read back from a printed colour are the bytes printed |
| WebGLUtils.ColorOfBytes | src/lib/webgl/utils/webgl-utils.ts:107-112 | two colours with the same bytes read back the same |
| WebGLUtils.BlackIsZero | src/lib/webgl/utils/webgl-utils.ts:107-112 | the bytes (0, 0, 0) format as `#000000`, which parses to (0, 0, 0) |
| WebGLUtils.WhiteIsOne | src/lib/webgl/utils/webgl-utils.ts:107-112 | `#FFFFFF` is (1, 1, 1) |
| WebGLUtils.NoLeadingDigitIsNaN | src/lib/webgl/utils/webgl-utils.ts:107-112 | for every string and every position, a channel whose first character is past the end, or is neither a hex digit nor white space nor a sign, is NaN, as `parseInt` gives: a malformed colour is not rejected |
| WebGLUtils.NoColourIsNaN | src/lib/webgl/utils/webgl-utils.ts:107-112 | a string none of whose positions 1, 3 and 5 can start a number (the empty string among them) gives three NaN channels |
| WebGLUtils.GetRandomColor | src/lib/webgl/utils/webgl-utils.ts:114-121 | the result is `#` and six upper-case hex digits, the i-th chosen by the i-th draw |
| WebGLUtils.RandomColorParses | src/lib/webgl/utils/webgl-utils.ts:107-121 | a random colour reads back with hexToRGB into three channels in [0, 1] |
| WebGLUtils.GetRandomValue | src/lib/webgl/utils/webgl-utils.ts:123-126 | the value is a number iff the step is non-zero; a zero step gives NaN |
| WebGLUtils.GetRandomValueInRange | src/lib/webgl/utils/webgl-utils.ts:123-126 | with a positive step the value is `min + k * step` for one of the `steps` indices, so it lies in [min, max - step]; a range narrower than one step gives `min` |
| WebGLUtils.UniformCall | src/lib/webgl/utils/webgl-utils.ts:77-103 | every value becomes one uniform call on its own name |
| WebGLUtils.UniformDispatch | src/lib/webgl/utils/webgl-utils.ts:77-103 | arrays of 2, 3, 4, 9 or 16 numbers go to the setter of that arity and any other length to `uniform1fv`; a number or a boolean is one component, a boolean as 1 or 0 through `uniform1i`; no component is lost or changed |
| WebGLUtils.UniformCalls | src/lib/webgl/utils/webgl-utils.ts:74-104 | only names that have a location produce a call, and every call is a uniform of such a name |
| WebGLUtils.UniformCallsComplete | src/lib/webgl/utils/webgl-utils.ts:74-104 | every entry with a location gets its call, and when all have locations there is exactly one call per entry |
| WebGLUtils.SetUniforms | src/lib/webgl/utils/webgl-utils.ts:68-105 | the program is bound directly on the context, and then one call is made per located entry, in order |
| WebGLUtils.ResizeCanvasToDisplaySize | src/lib/webgl/utils/webgl-utils.ts:160-173 | the canvas takes the floored display size times the multiplier, and the result is true iff either side changed |
| WebGLUtils.CreationCleansUp | src/lib/webgl/utils/webgl-utils.ts:1-66 | a shader that fails to compile and a program that fails to link are deleted last, a successful one is never deleted, and a buffer is unbound after its upload |
| WebGLUtils.CreateShader | src/lib/webgl/utils/webgl-utils.ts:1-20 | a shader is returned iff it is created and compiles; the exact source, compile and cleanup calls are issued |
| WebGLUtils.CreateProgram | src/lib/webgl/utils/webgl-utils.ts:22-51 | a program is returned iff it is created and links; both shaders are attached, the varyings are declared separately when given, and a failed link deletes the program |
| WebGLUtils.CreateBuffer | src/lib/webgl/utils/webgl-utils.ts:53-66 | creation failure is the thrown error; otherwise the data is uploaded with the usage and the array buffer is unbound |
| ResourceManagement.Untyped | src/lib/webgl/resource-manager/resource-manager.ts:93-94 | the recorded texture options are the caller's, with only the pixel type removed |
| ResourceManagement.DeleteCall | src/lib/webgl/resource-manager/resource-manager.ts:114-124 | a texture record gets `deleteTexture`, a buffer `deleteBuffer`, a framebuffer `deleteFramebuffer`, always of the given handle |
| ResourceManagement.DeleteCallsAt | src/lib/webgl/resource-manager/resource-manager.ts:132-134 | the i-th call of the dispose loop is the delete call of the i-th registered object |
| ResourceManagement.DeleteCallsOnce | src/lib/webgl/resource-manager/resource-manager.ts:129-134 | dispose deletes every registered object exactly once, with the call its kind needs, and deletes nothing unregistered |
| ResourceManagement.DeleteShaders | src/lib/webgl/resource-manager/resource-manager.ts:136-138 | one `deleteShader` per recorded shader, in order |
| ResourceManagement.DeletePrograms | src/lib/webgl/resource-manager/resource-manager.ts:141-143 | one `deleteProgram` per recorded program, in order |
| ResourceManagement.RemainingDeleteHead | src/lib/webgl/resource-manager/resource-manager.ts:132-134 | deleting the first registered object while iterating leaves exactly the objects still to visit, so the loop visits each once |
| ResourceManagement.LoadError | src/lib/webgl/resource-manager/resource-manager.ts:26-43 | loading succeeds iff the fetch is ok and the shader is created and compiles; otherwise the message names the failed step and the file |
| ResourceManagement.ProgramError | src/lib/webgl/resource-manager/resource-manager.ts:45-78 | a program builds iff both shader loads succeed and it is created and links; the first failure decides the message |
| ResourceManagement.ResourceManager.constructor | src/lib/webgl/resource-manager/resource-manager.ts:19-24 | the three registries start empty |
| ResourceManagement.ResourceManager.LoadShader | src/lib/webgl/resource-manager/resource-manager.ts:26-43 | an error is thrown exactly as LoadError says, and nothing is recorded then; a compiled shader is recorded under its name |
| ResourceManagement.ResourceManager.CreateProgram | src/lib/webgl/resource-manager/resource-manager.ts:45-78 | it fails exactly as ProgramError says. A shader that loaded stays recorded under its file name whatever fails later: the vertex shader alone after a fragment failure, both after a link failure. Only a linked program is recorded. The calls are the vertex load's, then the fragment load's if the vertex one succeeded, then the program's if both did |
| ResourceManagement.ResourceManager.Link | src/lib/webgl/resource-manager/resource-manager.ts:61-73 | a created and linked program is recorded under its name and returned; otherwise "Failed to create program" is thrown and nothing is recorded |
| ResourceManagement.ResourceManager.CreateBuffer | src/lib/webgl/resource-manager/resource-manager.ts:80-87 | a created buffer is registered last with its data and usage; a failure registers nothing |
| ResourceManagement.ResourceManager.CreateTexture | src/lib/webgl/resource-manager/resource-manager.ts:89-97 | the texture is registered iff one came back, with the options minus the pixel type |
| ResourceManagement.ResourceManager.CreateFramebuffer | src/lib/webgl/resource-manager/resource-manager.ts:99-105 | the framebuffer is registered iff it was created, and null is returned otherwise |
| ResourceManagement.ResourceManager.DeleteResource | src/lib/webgl/resource-manager/resource-manager.ts:107-127 | an unregistered handle is ignored; a registered one gets its one delete call and leaves the registry |
| ResourceManagement.ResourceManager.DeleteAllResources | src/lib/webgl/resource-manager/resource-manager.ts:132-134 | the loop issues the delete calls of the registered objects in insertion order and ends with an empty registry |
| ResourceManagement.ResourceManager.Dispose | src/lib/webgl/resource-manager/resource-manager.ts:129-145 | the objects, then the shaders, then the programs are deleted in insertion order, and all three registries end empty |
| ResourceManagement.ResourceManager.GetProgram | src/lib/webgl/resource-manager/resource-manager.ts:147-153 | a program is found iff `hasProgram` holds, and it is the recorded one |
| ResourceManagement.ResourceManager.GetShader | src/lib/webgl/resource-manager/resource-manager.ts:155-161 | a shader is found iff `hasShader` holds, and it is the recorded one |
| ParticleConfig.Use3DNoise | src/lib/webgl/particle-system/particle-system.ts:306-309 | the shader flag is 1 for 3D noise and 0 for 2D noise |
| ParticleAttributes.ParticleDraws | src/lib/webgl/particle-system/particle-system.ts:172-180 | particle p takes its position from draws 4p and 4p+1, and its velocity from the jitter of draws 4p+2 and 4p+3 |
| ParticleAttributes.InitialAttributes | src/lib/webgl/particle-system/particle-system.ts:167-180 | the three arrays are fresh and two components per particle long, positions and velocities come from the draws, and every target is -1 |
| ParticleAttributes.JitterRange | src/lib/webgl/particle-system/particle-system.ts:176-177 | every initial velocity component lies in [-0.0005, 0.0005) |
| Particles.SlotsDisjoint | src/lib/webgl/particle-system/particle-system.ts:182-197 | the two slots of the buffer pairs share no buffer, and neither slot holds the quad, so an update never reads what it writes |
| Particles.CreatePair | src/lib/webgl/particle-system/particle-system.ts:182-193 | a pair of buffers with the same data is made iff both `createBuffer` calls succeed; when the second one fails the first stays registered, and the trace holds each attempt |
| Particles.CreatePairs | src/lib/webgl/particle-system/particle-system.ts:182-193 | the position, velocity and target pairs are made in that order with their attribute arrays; the first failing `createBuffer` ends it, leaving everything made before it registered and traced |
| Particles.CreateBuffers | src/lib/webgl/particle-system/particle-system.ts:182-197 | the seven buffers are all registered iff all are created, on consecutive handles, each pair with its attribute's initial data and the quad with its vertices; on a failure the registry and the trace are those of the attempts made before it |
| Particles.CreateParticleVAO | src/lib/webgl/particle-system/particle-system.ts:217-236 | the vertex array is created and bound through the cache, and then reads slot `index` of the position, velocity and target pairs; when creation fails only the failed `createVertexArray` is issued and the cache is untouched |
| Particles.CreateEdgeVAO | src/lib/webgl/particle-system/particle-system.ts:203-215 | the edge vertex array is created and bound through the cache, and then reads the quad; when creation fails only the failed `createVertexArray` is issued and the cache is untouched |
| Particles.CreateVAOs | src/lib/webgl/particle-system/particle-system.ts:199-200 | the edge array and then both particle arrays are created on consecutive handles, or the first failure is the error; the trace and the cached vertex array are those of the arrays attempted up to it |
| Particles.InitBuffers | src/lib/webgl/particle-system/particle-system.ts:166-201 | the geometry exists iff every buffer and vertex array is created, on consecutive handles; a buffer failure is reported before a vertex array failure and stops before any vertex array is attempted; the registry and trace are stated on every path |
| Particles.Rgba8NeverFallsBack | src/lib/webgl/particle-system/particle-system.ts:137-146 | a byte-format request never takes the texture fallback, so it succeeds iff creation succeeds |
| Particles.EdgeTargetError | src/lib/webgl/particle-system/particle-system.ts:129-164 | edge detection is set up iff the framebuffer and texture are created and the framebuffer is complete |
| Particles.CreateEdgeObjects | src/lib/webgl/particle-system/particle-system.ts:132-149 | the framebuffer and then a canvas-sized RGBA byte texture are registered, or the first failure is thrown; the calls are the framebuffer's creation and, when it succeeds, the texture's |
| Particles.SetupEdgeDetection | src/lib/webgl/particle-system/particle-system.ts:129-164 | it succeeds exactly as EdgeTargetError says. When both objects exist, the framebuffer is bound through the cache, the texture is attached with `framebufferTexture2D`, and the framebuffer is unbound through the cache only when it is complete; an incomplete one stays bound in the cache and the framebuffer and texture stay registered. When an object is missing, only the creation calls are issued, and a framebuffer made before a failed texture stays registered |
| Particles.ConstructionError | src/lib/webgl/particle-system/particle-system.ts:55-85 | construction succeeds iff the three programs are loaded and the transform feedback, buffers, vertex arrays and edge target are all created and complete; missing programs is the first error checked |
| Particles.BuildGeometry | src/lib/webgl/particle-system/particle-system.ts:83-84 | initBuffers then setupEdgeDetection: it succeeds iff neither fails, with the first failure's message; the trace and the registry are those of each step up to the first failure |
| Particles.Construct | src/lib/webgl/particle-system/particle-system.ts:76-84 | the transform feedback object, then initBuffers, then setupEdgeDetection, on consecutive handles; it fails with the first step's error, and the trace and registry hold every step up to it |
| Particles.Create | src/lib/webgl/particle-system/particle-system.ts:55-85 | it succeeds exactly as ConstructionError says. The system holds the "update", "particle" and "edge" programs and starts at slot 0 and time 0. The noise seed is the draw times 1000, and every buffer and edge object is registered. Missing programs issue no call and register nothing; otherwise the trace and the registry are those of every step up to the first failure, so objects made before a later failure stay registered |
| Particles.ParticleSystem.constructor | src/lib/webgl/particle-system/particle-system.ts:30-53 | the system stores the objects it was built with, at slot 0 and time 0 |
| Particles.ParticleSystem.Update | src/lib/webgl/particle-system/particle-system.ts:281-343 | time advances by deltaTime/1000 and the slot flips. The update program is bound through the cache with its eight uniforms. The current slot's vertex array is drawn with transform feedback into the other slot. Coherence is kept |
| Particles.ParticleSystem.Render | src/lib/webgl/particle-system/particle-system.ts:345-366 | the render program and the current slot's vertex array are bound through the cache, and the particle colour goes through hexToRGB. Points are drawn with blending on, and blending ends off |
| Particles.ParticleSystem.ProcessImage | src/lib/webgl/particle-system/particle-system.ts:238-279 | the image becomes a texture, and the edge program draws it into the edge framebuffer. The input texture is then deleted. The update program is left bound with the edge texture on unit 0 and the default framebuffer |
| Particles.ParticleSystem.Dispose | src/lib/webgl/particle-system/particle-system.ts:368-372 | exactly the transform feedback, the edge vertex array and both particle vertex arrays are deleted |
| Particles.ParticleSystem.DisposeDeletesOwnObjects | src/lib/webgl/particle-system/particle-system.ts:368-372 | the four deletions name four distinct objects, none of them a buffer or an edge object the resource manager owns |
| Particles.FeedbackPassAttaches | src/lib/webgl/particle-system/particle-system.ts:313-329 | before the draw, the transform feedback is bound and the three output slots are the other slot's buffers |
| Particles.FeedbackPassDraws | src/lib/webgl/particle-system/particle-system.ts:331-333 | the points are drawn while capture is active and rasterization discarded |
| Particles.FeedbackPassEnds | src/lib/webgl/particle-system/particle-system.ts:334-335 | capture ends and rasterization resumes |
| Particles.FeedbackPassDetaches | src/lib/webgl/particle-system/particle-system.ts:337-340 | after the pass no feedback object or output buffer is left bound |
| Particles.RunFeedbackPass | src/lib/webgl/particle-system/particle-system.ts:311-340 | the slot's vertex array is bound through the cache, the feedback pass is issued, and coherence is kept |
| Particles.DrawBlendedPoints | src/lib/webgl/particle-system/particle-system.ts:362-365 | blending is switched on through the cache around the draw, and it is off afterwards in the cache and in the context |
| Particles.EdgePass | src/lib/webgl/particle-system/particle-system.ts:253-271 | the edge framebuffer, canvas viewport, edge program, image on unit 0 and quad vertex array are set through the cache, and six vertices are drawn |
| Particles.EdgeSetup | src/lib/webgl/particle-system/particle-system.ts:253-265 | the edge framebuffer, canvas viewport and edge program are bound, with the resolution and threshold uniforms |
| Particles.EdgeDraw | src/lib/webgl/particle-system/particle-system.ts:267-271 | the image goes on unit 0, and the quad is drawn as two triangles |
| Particles.DiscardInput | src/lib/webgl/particle-system/particle-system.ts:273 | a created input texture is deleted and unregistered, and the registry is as it was before the image |
| Particles.Finish | src/lib/webgl/particle-system/particle-system.ts:274-278 | the default framebuffer, the update program and the edge texture on unit 0 are left bound |
| ParticleEngine.ScaleToFit | src/lib/webgl/particle-engine.ts:504-518 | both sides are non-negative multiples of 4, and one of them is derived from the other by the aspect ratio |
| ParticleEngine.CalculateDivisibleDimensions | src/lib/webgl/particle-engine.ts:499-532 | the result fits within `maxSize`, both sides are multiples of 4, and one side is the other scaled by the image's aspect ratio, rounded down to a multiple of 4; the repair loop terminates |
| ParticleEngine.HeightFor | src/lib/webgl/particle-engine.ts:517 | the height derived from a width is a multiple of 4, and is not negative for a non-negative width |
| ParticleEngine.WidthFor | src/lib/webgl/particle-engine.ts:514 | the width derived from a height is a multiple of 4, and is not negative for a non-negative height |
| ParticleEngine.HeightBound | src/lib/webgl/particle-engine.ts:517 | a derived height is at most the exact height for that width at the aspect ratio |
| ParticleEngine.WidthBound | src/lib/webgl/particle-engine.ts:514 | a derived width is at most the exact width for that height at the aspect ratio |
| ParticleEngine.WidthForMonotone | src/lib/webgl/particle-engine.ts:525-528 | lowering the height by 4 does not raise the derived width |
| ParticleEngine.WidthBelowDerivedHeight | src/lib/webgl/particle-engine.ts:521-528 | the width derived from one step below a derived height is narrower than the width it came from, so the repair loop makes progress |
| ParticleEngine.PaletteColorsWellFormed | src/lib/webgl/particle-engine.ts:20-39 | every palette colour is `#` and six hex digits, so hexToRGB reads it without NaN |
| ParticleEngine.PaletteIndex | src/lib/webgl/particle-engine.ts:378-380 | a draw in [0, 1) picks a valid palette index |
| ParticleEngine.Pick | src/lib/webgl/particle-engine.ts:407 | a stepped random value for a configured range lies within it |
| ParticleEngine.AttractionBounds | src/lib/webgl/particle-engine.ts:418-426 | the new attraction strength is at most its maximum, and at least the maximum times the speed ratio less 0.3 |
| ParticleEngine.AttractionCanBeNegative | src/lib/webgl/particle-engine.ts:418-426 | with the default ranges, the slowest speed and the smallest draw give -55, which is below the control's minimum |
| ParticleEngine.Randomized | src/lib/webgl/particle-engine.ts:385-426 | randomizing keeps every range's bounds and steps |
| ParticleEngine.RandomizedInRange | src/lib/webgl/particle-engine.ts:385-426 | every randomized value except the attraction strength lies within its range, and the strength is at most its maximum. The particle colour is the palette's, and the noise type is 3D iff the draw is at least 0.5 |
| ParticleEngine.Engine.constructor | src/lib/webgl/particle-engine.ts:20-51 | no image, no system, not animating, not playing, not restarting, and the initial background and settings |
| ParticleEngine.Engine.StopAnimation | src/lib/webgl/particle-engine.ts:295-301 | animation stops and a held frame is cancelled; nothing else changes |
| ParticleEngine.Engine.StartAnimation | src/lib/webgl/particle-engine.ts:336-342 | only when idle, not restarting and with a system: the clock resets and one frame is requested |
| ParticleEngine.Engine.BeginRestart | src/lib/webgl/particle-engine.ts:303-316 | nothing happens without an image or while restarting. Otherwise the animation stops, the system is disposed and dropped, the canvas is cleared and the completion is scheduled, keeping the life-cycle invariant |
| ParticleEngine.Engine.CompleteRestart | src/lib/webgl/particle-engine.ts:316-333 | a built system is installed and processes the current image, and playback and animation start. If building throws, the restart ends with no system. If only processImage throws, the new system stays installed and nothing is animated. Either way the restart is over |
| ParticleEngine.Engine.Animate | src/lib/webgl/particle-engine.ts:344-363 | without a system or during a restart, animation only stops. Otherwise a frame is drawn with the elapsed time, 0 on the first frame. The next frame is requested iff animating and playing. A failed frame begins a restart and requests nothing |
| ParticleEngine.Engine.TogglePlayPause | src/lib/webgl/particle-engine.ts:365-373 | nothing during a restart; otherwise playing flips, starting or stopping the animation accordingly |
| ParticleEngine.Engine.UpdateConfig | src/lib/webgl/particle-engine.ts:462-496 | nothing during a restart. A background colour is applied without a rebuild. Any other key rebuilds iff it is outside the seven drawing-only keys and an image is loaded |
| ParticleEngine.Engine.RandomizeInputs | src/lib/webgl/particle-engine.ts:375-460 | nothing during a restart. Otherwise a palette entry sets both colours, the settings are randomized and the background applied, and a restart begins iff an image is loaded |
| ParticleEngine.Engine.ImageLoaded | src/lib/webgl/particle-engine.ts:243-247 | the animation stops, the canvas clears and the image becomes current, and a restart is begun or, if one is in progress, it will use the new image |

## Left out

- Network and files: `fetch` of shader sources and the FileReader image load are replaced by their answers (`ShaderLoad`, an `Image` value); handleImageUpload's file checks, alerts and `resizeCanvasToImage` are not modelled.
- Random numbers: every `Math.random()` result is a parameter in [0, 1).
- Floating point: numbers are mathematical reals; Float32Array rounding, IEEE infinities and the exact results of `Math.floor` on non-finite values are not modelled. NaN appears only where hexToRGB and getRandomValue produce it.
- The GPU: shader execution, what the transform-feedback pass writes and what the edge pass renders are outside the model; the trace records the calls only.
- The attribute layout calls of the vertex-array setup (`getAttribLocation`, `enableVertexAttribArray` and the per-attribute format call) are not traced; only the buffer bindings are.
- `initUniformLocations` is left out: uniform calls name their uniform instead of a location, and `setUniforms` takes the set of names that have a location.
- WebGL's implicit unbinding of a deleted object is not modelled, so the cache is not claimed coherent after `deleteResource`; ProcessImage, SetupEdgeDetection and Create promise the cache fields they set, not coherence.
- Particles.Create: the registry after construction is stated as its map of objects, not the order of its keys; the resource manager's own operations state that order.
- WebGLUtils.HexToRGB: strings are sequences of Unicode characters, whereas JavaScript slices UTF-16 code units. On a string with a character outside the Basic Multilingual Plane, such as "#😀a", the source's `slice(3, 5)` is "a" (green 10/255) while the model reads a different slice and gives NaN.
- Particles.Create: the `ParticleSystem` constructor, which throws, is the method `Create` returning a `Result`; the class constructor only stores what Create built.
- The engine records its calls into the particle system, the context cache, the timer and `requestAnimationFrame` as `Effect` values instead of running the ParticleSystem model; the values `updateConfig` writes into CONFIG are not modelled beyond the background colour.
- ParticleEngine.CalculateDivisibleDimensions: requires positive finite sizes; the source does not check its inputs, and NaN or Infinity there is not modelled.
- `cleanup`, `initWebGL`, the GUI (`dat.GUI` controllers, buttons, keyboard), video recording, `saveImage`, `chooseRandomPalette`, `loadTexture`, `getMaxTextureSize`, `createFullscreenQuad`, `isWebGL2Supported` and `logWebGLCapabilities` are not part of this model.
- GlState.GLState.RestoreState: follows the code, which restores only program, vertex array, blending, framebuffer and viewport. A restore followed by a save therefore does not reproduce the snapshot's active unit, textures, clear colour, depth test, cull face or front face.
- GlState.GLState.SetClearColor: coherence covers the RGB part only; the alpha the cache stores is never sent, because the call always passes 1.0.
- ParticleEngine.AttractionBounds: the lower bound of the attraction-strength control is not enforced by the code, and the model keeps the formula as written (see AttractionCanBeNegative).
