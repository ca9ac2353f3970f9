/**
 * particle-system.ts: the simulation. Particle attributes (position, velocity, target) live in
 * three pairs of GPU buffers. Each update runs the update program with transform feedback,
 * reading one buffer of every pair through a vertex array object and writing the other; the
 * pair index then flips, so render always draws what the last update wrote.
 */
/** initBuffers' initial attribute values, filled particle by particle from random draws. */
module ParticleAttributes {

  // ---------------------------------------------------------------------------------------------
  // initBuffers: the initial attribute arrays

  /** "No target yet": the value every target component starts at. */
  const TARGET_UNSET: real := -1.0

  /** A velocity component from a draw r: `(r - 0.5) * 0.001`. */
  function Jitter(r: real): real {
    (r - 0.5) * 0.001
  }

  /**
   * The initial positions from the draws (the `Math.random()` results, in call order): each
   * particle takes four draws, the first two being its position.
   */
  function Positions(draws: seq<real>): (ps: seq<real>)
    requires |draws| % 4 == 0
    ensures |ps| == |draws| / 2
    decreases |draws|
  {
    if draws == [] then []
    else Positions(draws[..|draws| - 4]) + [draws[|draws| - 4], draws[|draws| - 3]]
  }

  /** The initial velocities: the last two of each particle's four draws, jittered. */
  function Velocities(draws: seq<real>): (vs: seq<real>)
    requires |draws| % 4 == 0
    ensures |vs| == |draws| / 2
    decreases |draws|
  {
    if draws == [] then []
    else Velocities(draws[..|draws| - 4]) + [Jitter(draws[|draws| - 2]), Jitter(draws[|draws| - 1])]
  }

  /** Particle `p` owns components `2p` and `2p + 1`, filled from draws `4p` to `4p + 3`. */
  lemma {:induction false} ParticleDraws(draws: seq<real>, p: nat)
    requires |draws| % 4 == 0 && 4 * p + 3 < |draws|
    ensures Positions(draws)[2 * p] == draws[4 * p] && Positions(draws)[2 * p + 1] == draws[4 * p + 1]
    ensures Velocities(draws)[2 * p] == Jitter(draws[4 * p + 2])
    ensures Velocities(draws)[2 * p + 1] == Jitter(draws[4 * p + 3])
    decreases |draws|
  {
    var n := |draws| - 4;
    if 4 * p < n {
      ParticleDraws(draws[..n], p);
    }
  }

  /** Taking one more particle's draws appends its two positions and two velocities. */
  lemma AttributesSnoc(draws: seq<real>, i: nat)
    requires 4 * (i + 1) <= |draws|
    ensures Positions(draws[..4 * (i + 1)]) == Positions(draws[..4 * i]) + [draws[4 * i], draws[4 * i + 1]]
    ensures Velocities(draws[..4 * (i + 1)]) == Velocities(draws[..4 * i]) + [Jitter(draws[4 * i + 2]), Jitter(draws[4 * i + 3])]
  {
    assert draws[..4 * (i + 1)][..4 * i] == draws[..4 * i];
  }

  /** The targets' initial contents: every component unset. */
  function Unset(n: nat): (ts: seq<real>)
    ensures |ts| == n && forall j :: 0 <= j < n ==> ts[j] == TARGET_UNSET
  {
    seq(n, _ => TARGET_UNSET)
  }

  /** One more particle's target components are unset too. */
  lemma UnsetSnoc(i: nat)
    ensures Unset(2 * (i + 1)) == Unset(2 * i) + [TARGET_UNSET, TARGET_UNSET]
  {
  }

  /** Writing components `2i` and `2i + 1` of `a` extends its first `2i` components by `x, y`. */
  method FillPair(a: array<real>, i: nat, x: real, y: real)
    requires 2 * i + 1 < a.Length
    modifies a
    ensures a[..2 * (i + 1)] == old(a[..2 * i]) + [x, y]
  {
    a[2 * i] := x;
    a[2 * i + 1] := y;
  }

  /** One pass of initBuffers' loop: particle `i` takes draws `4i` to `4i + 3`. */
  method FillParticle(positions: array<real>, velocities: array<real>, targets: array<real>, i: nat, draws: seq<real>)
    requires 2 * i + 1 < positions.Length && 2 * i + 1 < velocities.Length && 2 * i + 1 < targets.Length
    requires 4 * i + 3 < |draws|
    requires positions != velocities && positions != targets && velocities != targets
    modifies positions, velocities, targets
    ensures positions[..2 * (i + 1)] == old(positions[..2 * i]) + [draws[4 * i], draws[4 * i + 1]]
    ensures velocities[..2 * (i + 1)] == old(velocities[..2 * i]) + [Jitter(draws[4 * i + 2]), Jitter(draws[4 * i + 3])]
    ensures targets[..2 * (i + 1)] == old(targets[..2 * i]) + [TARGET_UNSET, TARGET_UNSET]
  {
    FillPair(positions, i, draws[4 * i], draws[4 * i + 1]);
    FillPair(velocities, i, Jitter(draws[4 * i + 2]), Jitter(draws[4 * i + 3]));
    FillPair(targets, i, TARGET_UNSET, TARGET_UNSET);
  }

  /**
   * initBuffers' loop over the particles: positions and velocities are filled from the draws
   * particle by particle, and every target component is set to the sentinel.
   */
  method InitialAttributes(count: nat, draws: seq<real>)
      returns (positions: array<real>, velocities: array<real>, targets: array<real>)
    requires |draws| == 4 * count
    ensures fresh(positions) && fresh(velocities) && fresh(targets)
    ensures positions[..] == Positions(draws) && velocities[..] == Velocities(draws)
    ensures targets[..] == Unset(2 * count)
  {
    positions := new real[2 * count](_ => 0.0);
    velocities := new real[2 * count](_ => 0.0);
    targets := new real[2 * count](_ => 0.0);
    for i := 0 to count
      invariant positions[..2 * i] == Positions(draws[..4 * i])
      invariant velocities[..2 * i] == Velocities(draws[..4 * i])
      invariant targets[..2 * i] == Unset(2 * i)
    {
      AttributesSnoc(draws, i);
      UnsetSnoc(i);
      FillParticle(positions, velocities, targets, i, draws);
    }
    assert draws[..4 * count] == draws;
    assert positions[..] == positions[..2 * count];
    assert velocities[..] == velocities[..2 * count];
    assert targets[..] == targets[..2 * count];
  }

  /** Every velocity component lies in [-0.0005, 0.0005) when its draw lies in [0, 1). */
  lemma JitterRange(r: real)
    requires 0.0 <= r < 1.0
    ensures -0.0005 <= Jitter(r) < 0.0005
  {
    assert -0.5 <= r - 0.5 < 0.5;
  }
}

module Particles {
  import opened Wrappers
  import opened TextureConfig
  import opened WebGL
  import opened JsMap
  import opened TextureManagement
  import opened GlState
  import opened ResourceManagement
  import opened ParticleConfig
  import opened WebGLUtils
  import opened ParticleAttributes

  /** The full-screen quad: two triangles, six vertices of two floats each. */
  const QUAD: seq<real> := [-1.0, -1.0, 1.0, -1.0, -1.0, 1.0, -1.0, 1.0, 1.0, -1.0, 1.0, 1.0]

  // ---------------------------------------------------------------------------------------------
  // initBuffers: the buffers and vertex arrays

  /**
   * The attribute buffers: a pair per attribute (`positionBuffers`, `velocityBuffers`,
   * `targetBuffers`) and the quad.
   */
  datatype Buffers = Buffers(positions: seq<Handle>, velocities: seq<Handle>, targets: seq<Handle>, quad: Handle) {

    /** Two buffers per attribute, the seven handles handed out in creation order. */
    predicate Valid() {
      && |positions| == 2 && |velocities| == 2 && |targets| == 2
      && positions[0] < positions[1] < velocities[0] < velocities[1] < targets[0] < targets[1] < quad
    }

    /** The buffers of one slot, in the order the shader's outputs are numbered. */
    function Slot(slot: int): seq<Handle>
      requires Valid() && 0 <= slot < 2
    {
      [positions[slot], velocities[slot], targets[slot]]
    }
  }

  /** The buffers initBuffers makes from handle `n`: seven consecutive handles in source order. */
  function BuffersFrom(n: Handle): (b: Buffers)
    ensures b.Valid() && b.positions[0] == n && b.quad == n + 6
  {
    Buffers([n, n + 1], [n + 2, n + 3], [n + 4, n + 5], n + 6)
  }

  /** The two slots never share a buffer: reading one slot while writing the other is safe. */
  lemma SlotsDisjoint(b: Buffers, slot: int)
    requires b.Valid() && 0 <= slot < 2
    ensures forall h :: h in b.Slot(slot) ==> h !in b.Slot(1 - slot)
    ensures b.quad !in b.Slot(0) && b.quad !in b.Slot(1)
  {
  }

  const VAO_FAILED: string := "Unable to create VAO"

  /**
   * Two `resourceManager.createBuffer(data)` calls on the same data: both slots of a pair start
   * from the same array. The first failure throws.
   */
  /** The calls of a pair of `createBuffer(data)` calls starting at handle `n`: the second runs only if the first succeeded. */
  function PairCalls(n: Handle, data: seq<real>, first: bool, second: bool): seq<Call> {
    WebGLUtils.BufferCalls(n, data, DEFAULT_USAGE, first)
      + (if first then WebGLUtils.BufferCalls(n + 1, data, DEFAULT_USAGE, second) else [])
  }

  /** The registry after a pair: each buffer that came back is recorded, up to the first failure. */
  ghost function PairRegistered(values: map<Handle, ResourceInfo>, n: Handle, data: seq<real>, first: bool, second: bool)
    : map<Handle, ResourceInfo>
  {
    if !first then values
    else if !second then values[n := BufferInfo(data, DEFAULT_USAGE)]
    else values[n := BufferInfo(data, DEFAULT_USAGE)][n + 1 := BufferInfo(data, DEFAULT_USAGE)]
  }

  method CreatePair(rm: ResourceManager, data: seq<real>, first: bool, second: bool)
      returns (pair: Result<seq<Handle>>)
    requires rm.Valid()
    modifies rm`resources, rm.gl`calls, rm.gl`bound, rm.gl`nextHandle
    ensures rm.Valid()
    ensures pair.Ok? <==> first && second
    ensures pair.Err? ==> pair.message == BUFFER_FAILED
    ensures pair.Ok? ==> var n := old(rm.gl.nextHandle);
      && pair.value == [n, n + 1] && rm.gl.nextHandle == n + 2
    ensures rm.resources.values == PairRegistered(old(rm.resources.values), old(rm.gl.nextHandle), data, first, second)
    ensures rm.gl.calls == old(rm.gl.calls) + PairCalls(old(rm.gl.nextHandle), data, first, second)
    ensures old(rm.gl.nextHandle) <= rm.gl.nextHandle
    ensures rm.gl.bound == old(rm.gl.bound)
  {
    var a := rm.CreateBuffer(data, DEFAULT_USAGE, first);
    if a.Err? {
      return Err(a.message);
    }
    var b := rm.CreateBuffer(data, DEFAULT_USAGE, second);
    if b.Err? {
      return Err(b.message);
    }
    pair := Ok([a.value, b.value]);
  }

  /** The registry after the seven attribute buffers of `b` were recorded. */
  ghost function WithBuffers(values: map<Handle, ResourceInfo>, b: Buffers, count: nat, draws: seq<real>): map<Handle, ResourceInfo>
    requires b.Valid() && |draws| == 4 * count
  {
    values
      [b.positions[0] := BufferInfo(Positions(draws), DEFAULT_USAGE)][b.positions[1] := BufferInfo(Positions(draws), DEFAULT_USAGE)]
      [b.velocities[0] := BufferInfo(Velocities(draws), DEFAULT_USAGE)][b.velocities[1] := BufferInfo(Velocities(draws), DEFAULT_USAGE)]
      [b.targets[0] := BufferInfo(Unset(2 * count), DEFAULT_USAGE)][b.targets[1] := BufferInfo(Unset(2 * count), DEFAULT_USAGE)]
      [b.quad := BufferInfo(QUAD, DEFAULT_USAGE)]
  }

  /** The six attribute buffers (the first six answers) all came back. */
  predicate PairsMade(created: seq<bool>)
    requires |created| >= 6
  {
    created[0] && created[1] && created[2] && created[3] && created[4] && created[5]
  }

  /** All seven buffers of initBuffers came back. */
  predicate BuffersMade(created: seq<bool>) {
    |created| == 7 && PairsMade(created) && created[6]
  }

  /**
   * The trace `calls` followed by the three pairs of `createBuffer` calls of initBuffers from
   * handle `n` (positions, velocities, targets), up to and including the first that fails.
   */
  function PairsCalls(calls: seq<Call>, n: Handle, count: nat, draws: seq<real>, created: seq<bool>): seq<Call>
    requires |draws| == 4 * count && |created| >= 6
  {
    var p := calls + PairCalls(n, Positions(draws), created[0], created[1]);
    if !(created[0] && created[1]) then p else
    var v := p + PairCalls(n + 2, Velocities(draws), created[2], created[3]);
    if !(created[2] && created[3]) then v else v + PairCalls(n + 4, Unset(2 * count), created[4], created[5])
  }

  /** The registry after those calls: every buffer created before the first failure stays recorded. */
  ghost function PairsRegistered(values: map<Handle, ResourceInfo>, n: Handle, count: nat, draws: seq<real>,
                                 created: seq<bool>): map<Handle, ResourceInfo>
    requires |draws| == 4 * count && |created| >= 6
  {
    var p := PairRegistered(values, n, Positions(draws), created[0], created[1]);
    if !(created[0] && created[1]) then p else
    var v := PairRegistered(p, n + 2, Velocities(draws), created[2], created[3]);
    if !(created[2] && created[3]) then v else PairRegistered(v, n + 4, Unset(2 * count), created[4], created[5])
  }

  /** `PairsCalls` and then, if all six came back, the quad's `createBuffer`. */
  function BuffersCalls(calls: seq<Call>, n: Handle, count: nat, draws: seq<real>, created: seq<bool>): seq<Call>
    requires |draws| == 4 * count && |created| == 7
  {
    var t := PairsCalls(calls, n, count, draws, created);
    if PairsMade(created) then t + WebGLUtils.BufferCalls(n + 6, QUAD, DEFAULT_USAGE, created[6]) else t
  }

  /** `PairsRegistered` and then the quad, if it came back. */
  ghost function BuffersRegistered(values: map<Handle, ResourceInfo>, n: Handle, count: nat, draws: seq<real>,
                                   created: seq<bool>): map<Handle, ResourceInfo>
    requires |draws| == 4 * count && |created| == 7
  {
    var t := PairsRegistered(values, n, count, draws, created);
    if BuffersMade(created) then t[n + 6 := BufferInfo(QUAD, DEFAULT_USAGE)] else t
  }

  /** The three pairs of initBuffers, from the attribute arrays its loop fills. */
  method CreatePairs(rm: ResourceManager, count: nat, draws: seq<real>, created: seq<bool>)
      returns (pairs: Result<(seq<Handle>, seq<Handle>, seq<Handle>)>)
    requires rm.Valid() && |draws| == 4 * count && |created| == 7
    modifies rm`resources, rm.gl`calls, rm.gl`bound, rm.gl`nextHandle
    ensures rm.Valid()
    ensures pairs.Ok? <==> PairsMade(created)
    ensures pairs.Err? ==> pairs.message == BUFFER_FAILED
    ensures pairs.Ok? ==> var n := old(rm.gl.nextHandle);
      && pairs.value == ([n, n + 1], [n + 2, n + 3], [n + 4, n + 5]) && rm.gl.nextHandle == n + 6
    ensures rm.resources.values == PairsRegistered(old(rm.resources.values), old(rm.gl.nextHandle), count, draws, created)
    ensures rm.gl.calls == PairsCalls(old(rm.gl.calls), old(rm.gl.nextHandle), count, draws, created)
    ensures old(rm.gl.nextHandle) <= rm.gl.nextHandle
    ensures rm.gl.bound == old(rm.gl.bound)
  {
    var positions, velocities, targets := InitialAttributes(count, draws);
    var p := CreatePair(rm, positions[..], created[0], created[1]);
    if p.Err? {
      return Err(p.message);
    }
    var v := CreatePair(rm, velocities[..], created[2], created[3]);
    if v.Err? {
      return Err(v.message);
    }
    var t := CreatePair(rm, targets[..], created[4], created[5]);
    if t.Err? {
      return Err(t.message);
    }
    pairs := Ok((p.value, v.value, t.value));
  }

  /** The buffer part of initBuffers: the three pairs and then the quad. */
  method CreateBuffers(rm: ResourceManager, count: nat, draws: seq<real>, created: seq<bool>)
      returns (buffers: Result<Buffers>)
    requires rm.Valid() && |draws| == 4 * count && |created| == 7
    modifies rm`resources, rm.gl`calls, rm.gl`bound, rm.gl`nextHandle
    ensures rm.Valid()
    ensures buffers.Ok? <==> BuffersMade(created)
    ensures buffers.Err? ==> buffers.message == BUFFER_FAILED
    ensures buffers.Ok? ==> var b := buffers.value;
      && b == BuffersFrom(old(rm.gl.nextHandle)) && b.quad + 1 == rm.gl.nextHandle
      && rm.resources.values == WithBuffers(old(rm.resources.values), b, count, draws)
    ensures rm.resources.values == BuffersRegistered(old(rm.resources.values), old(rm.gl.nextHandle), count, draws, created)
    ensures rm.gl.calls == BuffersCalls(old(rm.gl.calls), old(rm.gl.nextHandle), count, draws, created)
    ensures old(rm.gl.nextHandle) <= rm.gl.nextHandle
    ensures rm.gl.bound == old(rm.gl.bound)
  {
    var pairs := CreatePairs(rm, count, draws, created);
    if pairs.Err? {
      return Err(pairs.message);
    }
    var q := rm.CreateBuffer(QUAD, DEFAULT_USAGE, created[6]);
    if q.Err? {
      return Err(q.message);
    }
    buffers := Ok(Buffers(pairs.value.0, pairs.value.1, pairs.value.2, q.value));
  }

  /** The calls that set up the vertex array of slot `index`: one attribute buffer each. */
  function AttributeCalls(buffers: Buffers, index: int): seq<Call>
    requires buffers.Valid() && 0 <= index < 2
  {
    [BindBuffer(ARRAY_BUFFER, Some(buffers.positions[index])),
     BindBuffer(ARRAY_BUFFER, Some(buffers.velocities[index])),
     BindBuffer(ARRAY_BUFFER, Some(buffers.targets[index]))]
  }

  /**
   * createParticleVAO: a vertex array reading slot `index` of every pair (attribute 0 the
   * positions, 1 the velocities, 2 the targets), bound through the cache.
   */
  method CreateParticleVAO(glState: GLState, buffers: Buffers, index: int, created: bool)
      returns (vao: Result<Handle>)
    requires buffers.Valid() && 0 <= index < 2
    modifies glState`vao, glState.gl`calls, glState.gl`bound, glState.gl`nextHandle
    ensures vao.Ok? <==> created
    ensures vao.Err? ==> vao.message == VAO_FAILED
    ensures vao.Ok? ==> vao.value == old(glState.gl.nextHandle) && glState.vao == Some(vao.value)
    ensures vao.Err? ==> (glState.vao == old(glState.vao)
      && glState.gl.calls == old(glState.gl.calls) + [Call.CreateObject(VertexArrayObject, None)])
    ensures vao.Ok? ==> (glState.gl.calls == old(glState.gl.calls)
      + [Call.CreateObject(VertexArrayObject, Some(vao.value))]
      + Switch(old(glState.vao), Some(vao.value), BindVertexArray(Some(vao.value)))
      + AttributeCalls(buffers, index))
    ensures glState.gl.nextHandle == old(glState.gl.nextHandle) + (if created then 1 else 0)
    ensures old(glState.Coherent()) ==> glState.Coherent()
  {
    var gl := glState.gl;
    var h := gl.CreateObject(VertexArrayObject, created);
    if h.None? {
      return Err(VAO_FAILED);
    }
    var _ := glState.BindVAO(h);
    gl.Issue(BindBuffer(ARRAY_BUFFER, Some(buffers.positions[index])));
    gl.Issue(BindBuffer(ARRAY_BUFFER, Some(buffers.velocities[index])));
    gl.Issue(BindBuffer(ARRAY_BUFFER, Some(buffers.targets[index])));
    vao := Ok(h.value);
  }

  /** createEdgeVAO: a vertex array reading the quad, bound through the cache. */
  method CreateEdgeVAO(glState: GLState, quad: Handle, created: bool) returns (vao: Result<Handle>)
    modifies glState`vao, glState.gl`calls, glState.gl`bound, glState.gl`nextHandle
    ensures vao.Ok? <==> created
    ensures vao.Err? ==> vao.message == VAO_FAILED
    ensures vao.Ok? ==> vao.value == old(glState.gl.nextHandle) && glState.vao == Some(vao.value)
    ensures vao.Err? ==> (glState.vao == old(glState.vao)
      && glState.gl.calls == old(glState.gl.calls) + [Call.CreateObject(VertexArrayObject, None)])
    ensures vao.Ok? ==> (glState.gl.calls == old(glState.gl.calls)
      + [Call.CreateObject(VertexArrayObject, Some(vao.value))]
      + Switch(old(glState.vao), Some(vao.value), BindVertexArray(Some(vao.value)))
      + [BindBuffer(ARRAY_BUFFER, Some(quad))])
    ensures glState.gl.nextHandle == old(glState.gl.nextHandle) + (if created then 1 else 0)
    ensures old(glState.Coherent()) ==> glState.Coherent()
  {
    var gl := glState.gl;
    var h := gl.CreateObject(VertexArrayObject, created);
    if h.None? {
      return Err(VAO_FAILED);
    }
    var _ := glState.BindVAO(h);
    gl.Issue(BindBuffer(ARRAY_BUFFER, Some(quad)));
    vao := Ok(h.value);
  }


  /** The calls that create the vertex array `h` of slot `index` and point it at that slot. */
  function ParticleVAOCalls(buffers: Buffers, h: Handle, index: int): seq<Call>
    requires buffers.Valid() && 0 <= index < 2
  {
    [Call.CreateObject(VertexArrayObject, Some(h)), BindVertexArray(Some(h))] + AttributeCalls(buffers, index)
  }

  /**
   * The trace `calls` followed by the three vertex-array creations of initBuffers from handle
   * `n` (the edge quad's, then slots 0 and 1), up to and including the first that fails; `bound`
   * is the cached vertex array before them.
   */
  function VAOsCalls(calls: seq<Call>, bound: Option<Handle>, n: Handle, buffers: Buffers, created: seq<bool>): seq<Call>
    requires buffers.Valid() && |created| == 3
  {
    if !created[0] then calls + [Call.CreateObject(VertexArrayObject, None)] else
    var e := calls + [Call.CreateObject(VertexArrayObject, Some(n))]
      + Switch(bound, Some(n), BindVertexArray(Some(n))) + [BindBuffer(ARRAY_BUFFER, Some(buffers.quad))];
    if !created[1] then e + [Call.CreateObject(VertexArrayObject, None)] else
    var f := e + ParticleVAOCalls(buffers, n + 1, 0);
    if !created[2] then f + [Call.CreateObject(VertexArrayObject, None)] else f + ParticleVAOCalls(buffers, n + 2, 1)
  }

  /** The cached vertex array after a failed creation: the last one that was made and bound. */
  function VAOsBound(bound: Option<Handle>, n: Handle, created: seq<bool>): Option<Handle>
    requires |created| == 3
  {
    if !created[0] then bound else if !created[1] then Some(n) else if !created[2] then Some(n + 1) else Some(n + 2)
  }

  /** All three vertex arrays of initBuffers came back. */
  predicate VAOsMade(created: seq<bool>) {
    |created| == 3 && created[0] && created[1] && created[2]
  }

  /** The vertex-array part of initBuffers: the edge quad's, then one per slot. */
  method CreateVAOs(glState: GLState, buffers: Buffers, created: seq<bool>)
      returns (vaos: Result<seq<Handle>>)
    requires buffers.Valid() && |created| == 3
    modifies glState`vao, glState.gl`calls, glState.gl`bound, glState.gl`nextHandle
    ensures vaos.Ok? <==> VAOsMade(created)
    ensures vaos.Err? ==> vaos.message == VAO_FAILED
    ensures vaos.Ok? ==> var n := old(glState.gl.nextHandle);
      && vaos.value == [n, n + 1, n + 2] && glState.gl.nextHandle == n + 3 && glState.vao == Some(n + 2)
    ensures vaos.Err? ==> glState.vao == VAOsBound(old(glState.vao), old(glState.gl.nextHandle), created)
    ensures glState.gl.calls == VAOsCalls(old(glState.gl.calls), old(glState.vao), old(glState.gl.nextHandle), buffers, created)
    ensures old(glState.gl.nextHandle) <= glState.gl.nextHandle
    ensures old(glState.Coherent()) ==> glState.Coherent()
  {
    var edge := CreateEdgeVAO(glState, buffers.quad, created[0]);
    if edge.Err? {
      return Err(edge.message);
    }
    var first := CreateParticleVAO(glState, buffers, 0, created[1]);
    if first.Err? {
      return Err(first.message);
    }
    var second := CreateParticleVAO(glState, buffers, 1, created[2]);
    if second.Err? {
      return Err(second.message);
    }
    vaos := Ok([edge.value, first.value, second.value]);
  }

  /** The objects initBuffers leaves behind. */
  datatype Geometry = Geometry(buffers: Buffers, edgeVAO: Handle, vaos: seq<Handle>)

  /**
   * What the driver and `Math.random` answer while a particle system is set up: the draw behind
   * `noiseSeed`, whether each created object comes back, the attribute draws, the edge texture's
   * two attempts and the framebuffer status.
   */
  datatype SetupAnswers = SetupAnswers(
    noiseDraw: real,
    feedbackCreated: bool,
    draws: seq<real>,
    buffersCreated: seq<bool>,
    vaosCreated: seq<bool>,
    framebufferCreated: bool,
    textureFirst: TexAttempt,
    textureRetry: TexAttempt,
    status: int
  )

  /** Answers for `count` particles: four draws each, seven buffers, three vertex arrays. */
  predicate Answers(count: nat, a: SetupAnswers) {
    |a.draws| == 4 * count && |a.buffersCreated| == 7 && |a.vaosCreated| == 3
  }

  /**
   * initBuffers: the buffers (registered with the resource manager), then the vertex arrays.
   * A failed creation throws; what was created before it stays registered.
   */
  method InitBuffers(rm: ResourceManager, glState: GLState, count: nat, a: SetupAnswers) returns (g: Result<Geometry>)
    requires rm.gl == glState.gl && rm.Valid() && Answers(count, a)
    modifies rm`resources, rm.gl`calls, rm.gl`bound, rm.gl`nextHandle, glState`vao
    ensures rm.Valid()
    ensures g.Ok? <==> BuffersMade(a.buffersCreated) && VAOsMade(a.vaosCreated)
    ensures g.Err? ==> g.message == (if !BuffersMade(a.buffersCreated) then BUFFER_FAILED else VAO_FAILED)
    ensures g.Ok? ==> var b := g.value.buffers;
      && g.value == Geometry(BuffersFrom(old(rm.gl.nextHandle)), b.quad + 1, [b.quad + 2, b.quad + 3])
      && rm.gl.nextHandle == b.quad + 4 && glState.vao == Some(g.value.vaos[1])
    ensures rm.resources.values
      == BuffersRegistered(old(rm.resources.values), old(rm.gl.nextHandle), count, a.draws, a.buffersCreated)
    ensures var n, made := old(rm.gl.nextHandle), BuffersCalls(old(rm.gl.calls), old(rm.gl.nextHandle), count, a.draws, a.buffersCreated);
      rm.gl.calls == if !BuffersMade(a.buffersCreated) then made
                     else VAOsCalls(made, old(glState.vao), n + 7, BuffersFrom(n), a.vaosCreated)
    ensures old(rm.gl.nextHandle) <= rm.gl.nextHandle
  {
    var buffers := CreateBuffers(rm, count, a.draws, a.buffersCreated);
    if buffers.Err? {
      g := Err(buffers.message);
    } else {
      var vaos := CreateVAOs(glState, buffers.value, a.vaosCreated);
      g := if vaos.Err? then Err(vaos.message) else Ok(Geometry(buffers.value, vaos.value[0], vaos.value[1..]));
    }
  }

  // ---------------------------------------------------------------------------------------------
  // setupEdgeDetection

  const EDGE_FRAMEBUFFER_FAILED: string := "Failed to create framebuffer"
  const EDGE_TEXTURE_FAILED: string := "Failed to create texture"

  /** The request for a linear, edge-clamped RGBA8 texture of the given size, optionally with pixels. */
  function Rgba8Options(width: int, height: int, data: Option<PixelSource>): TextureOptions {
    TextureOptions(Some(width), Some(height), Some(RGBA), Some(RGBA), Some(UNSIGNED_BYTE),
                   Some(LINEAR), Some(LINEAR), Some(CLAMP_TO_EDGE), data)
  }

  /** The RGBA8 request is always a basic format, so its upload never falls back. */
  lemma Rgba8NeverFallsBack(width: int, height: int, data: Option<PixelSource>, ext: Extensions, a: TexAttempt, retry: TexAttempt)
    ensures !NeedsFallback(Resolve(Rgba8Options(width, height, data), GetTextureConfig(ext)), a)
    ensures TextureCreated(Resolve(Rgba8Options(width, height, data), GetTextureConfig(ext)), a, retry) <==> a.created
  {
  }

  /** Whether the edge texture of a `width` x `height` canvas comes back. */
  predicate EdgeTextureCreated(ext: Extensions, width: int, height: int, a: SetupAnswers) {
    TextureCreated(Resolve(Rgba8Options(width, height, None), GetTextureConfig(ext)), a.textureFirst, a.textureRetry)
  }

  /** The error setupEdgeDetection throws, if any, checked in the order the code meets them. */
  function EdgeTargetError(ext: Extensions, width: int, height: int, a: SetupAnswers): (e: Option<string>)
    ensures e.None? <==> a.framebufferCreated && EdgeTextureCreated(ext, width, height, a) && a.status == FRAMEBUFFER_COMPLETE
  {
    if !a.framebufferCreated then Some(EDGE_FRAMEBUFFER_FAILED)
    else if !EdgeTextureCreated(ext, width, height, a) then Some(EDGE_TEXTURE_FAILED)
    else if a.status != FRAMEBUFFER_COMPLETE then Some(Incomplete(a.status))
    else None
  }

  /** The framebuffer the edge pass renders into, and its colour texture. */
  datatype EdgeTarget = EdgeTarget(framebuffer: Handle, texture: Handle)

  /** The registry after the edge framebuffer and its texture were recorded. */
  function EdgeRegistered(values: map<Handle, ResourceInfo>, t: EdgeTarget, width: int, height: int): map<Handle, ResourceInfo> {
    values[t.framebuffer := FramebufferInfo][t.texture := TextureInfo(Untyped(Rgba8Options(width, height, None)))]
  }

  /**
   * The calls creating the edge framebuffer and, when that succeeds, its texture, when the next
   * free handle is `h`.
   */
  function EdgeObjectCalls(h: Handle, ext: Extensions, width: int, height: int, a: SetupAnswers): seq<Call> {
    [Call.CreateObject(FramebufferObject, if a.framebufferCreated then Some(h) else None)]
      + if a.framebufferCreated
        then TextureCalls(h + 1, Rgba8Options(width, height, None), GetTextureConfig(ext), a.textureFirst, a.textureRetry)
        else []
  }

  /**
   * The registry after the edge objects' creation from handle `h`: the framebuffer is recorded
   * as soon as it exists, the texture only when it is made too.
   */
  function EdgeObjectsRegistered(values: map<Handle, ResourceInfo>, h: Handle, ext: Extensions, width: int, height: int,
                                 a: SetupAnswers): map<Handle, ResourceInfo>
  {
    if !a.framebufferCreated then values
    else if !EdgeTextureCreated(ext, width, height, a) then values[h := FramebufferInfo]
    else EdgeRegistered(values, EdgeTarget(h, h + 1), width, height)
  }

  /** The two objects of setupEdgeDetection, both registered: the framebuffer, then the texture. */
  method CreateEdgeObjects(rm: ResourceManager, width: int, height: int, a: SetupAnswers) returns (t: Result<EdgeTarget>)
    requires rm.Valid()
    modifies rm`resources, rm.gl`calls, rm.gl`bound, rm.gl`nextHandle
    ensures rm.Valid()
    ensures t.Ok? <==> a.framebufferCreated && EdgeTextureCreated(rm.gl.extensions, width, height, a)
    ensures t.Err? ==> t.message == if a.framebufferCreated then EDGE_TEXTURE_FAILED else EDGE_FRAMEBUFFER_FAILED
    ensures t.Ok? ==>
      && t.value.framebuffer == old(rm.gl.nextHandle) < t.value.texture < rm.gl.nextHandle
      && rm.resources.values == EdgeRegistered(old(rm.resources.values), t.value, width, height)
    ensures t.Ok? ==> t.value.texture == t.value.framebuffer + 1
    ensures rm.resources.values
      == EdgeObjectsRegistered(old(rm.resources.values), old(rm.gl.nextHandle), rm.gl.extensions, width, height, a)
    ensures rm.gl.calls == old(rm.gl.calls) + EdgeObjectCalls(old(rm.gl.nextHandle), rm.gl.extensions, width, height, a)
    ensures old(rm.gl.nextHandle) <= rm.gl.nextHandle
  {
    Rgba8NeverFallsBack(width, height, None, rm.gl.extensions, a.textureFirst, a.textureRetry);
    var framebuffer := rm.CreateFramebuffer(a.framebufferCreated);
    if framebuffer.None? {
      return Err(EDGE_FRAMEBUFFER_FAILED);
    }
    var texture := rm.CreateTexture(Rgba8Options(width, height, None), a.textureFirst, a.textureRetry);
    if texture.None? {
      return Err(EDGE_TEXTURE_FAILED);
    }
    t := Ok(EdgeTarget(framebuffer.value, texture.value));
  }

  /**
   * setupEdgeDetection: a framebuffer and a canvas-sized texture, both registered; the texture is
   * attached while the framebuffer is bound through the cache, and the framebuffer is unbound
   * again only when it is complete.
   */
  method SetupEdgeDetection(rm: ResourceManager, glState: GLState, a: SetupAnswers) returns (t: Result<EdgeTarget>)
    requires rm.gl == glState.gl && rm.Valid()
    modifies rm`resources, rm.gl`calls, rm.gl`bound, rm.gl`nextHandle, glState`framebuffer
    ensures rm.Valid()
    ensures t.Ok? <==> EdgeTargetError(rm.gl.extensions, rm.gl.canvas.width, rm.gl.canvas.height, a).None?
    ensures t.Err? ==> t.message == EdgeTargetError(rm.gl.extensions, rm.gl.canvas.width, rm.gl.canvas.height, a).value
    ensures t.Ok? ==>
      && t.value == EdgeTarget(old(rm.gl.nextHandle), old(rm.gl.nextHandle) + 1) && t.value.texture < rm.gl.nextHandle
      && rm.resources.values == EdgeRegistered(old(rm.resources.values), t.value, rm.gl.canvas.width, rm.gl.canvas.height)
      && glState.framebuffer == None
    ensures rm.resources.values == EdgeObjectsRegistered(old(rm.resources.values), old(rm.gl.nextHandle),
                                                         rm.gl.extensions, rm.gl.canvas.width, rm.gl.canvas.height, a)
    ensures rm.gl.calls == EdgeSetupCalls(old(rm.gl.calls), old(glState.framebuffer), old(rm.gl.nextHandle),
                                          rm.gl.extensions, rm.gl.canvas.width, rm.gl.canvas.height, a)
    ensures !(a.framebufferCreated && EdgeTextureCreated(rm.gl.extensions, rm.gl.canvas.width, rm.gl.canvas.height, a))
      ==> glState.framebuffer == old(glState.framebuffer)
    ensures a.framebufferCreated && EdgeTextureCreated(rm.gl.extensions, rm.gl.canvas.width, rm.gl.canvas.height, a)
      ==> glState.framebuffer == (if a.status == FRAMEBUFFER_COMPLETE then None else Some(old(rm.gl.nextHandle)))
    ensures old(rm.gl.nextHandle) <= rm.gl.nextHandle
  {
    var gl := rm.gl;
    ghost var h := gl.nextHandle;
    ghost var objectCalls := EdgeObjectCalls(h, gl.extensions, gl.canvas.width, gl.canvas.height, a);
    ghost var expected := EdgeSetupCalls(old(gl.calls), old(glState.framebuffer), h, gl.extensions, gl.canvas.width, gl.canvas.height, a);
    t := CreateEdgeObjects(rm, gl.canvas.width, gl.canvas.height, a);
    assert gl.calls == old(gl.calls) + objectCalls;
    if t.Err? {
      assert expected == gl.calls;
    } else {
      assert t.value == EdgeTarget(h, h + 1);
      ghost var attached := old(gl.calls) + objectCalls
        + Switch(old(glState.framebuffer), Some(h), Call.BindFramebuffer(FRAMEBUFFER, Some(h)))
        + [FramebufferTexture2D(h + 1)];
      var _ := glState.BindFramebuffer(Some(t.value.framebuffer));
      gl.Issue(FramebufferTexture2D(t.value.texture));
      assert gl.calls == attached;
      if a.status != FRAMEBUFFER_COMPLETE {
        assert expected == attached + [];
        t := Err(Incomplete(a.status));
      } else {
        var _ := glState.BindFramebuffer(None);
        assert gl.calls == attached + [Call.BindFramebuffer(FRAMEBUFFER, None)] == expected;
      }
    }
  }

  // ---------------------------------------------------------------------------------------------
  // The particle system

  const PROGRAMS_MISSING: string := "Required programs not initialized"
  const FEEDBACK_FAILED: string := "Unable to create transform feedback"

  /** The three programs the system draws with are loaded: "update", "particle" and "edge". */
  predicate HasPrograms(rm: ResourceManager)
    reads rm`programs
  {
    rm.HasProgram("update") && rm.HasProgram("particle") && rm.HasProgram("edge")
  }

  /** The error the constructor throws, if any, in the order the code meets them. */
  function ConstructionError(hasPrograms: bool, ext: Extensions, width: int, height: int, a: SetupAnswers): (e: Option<string>)
    ensures e.None? <==>
      && hasPrograms && a.feedbackCreated && BuffersMade(a.buffersCreated) && VAOsMade(a.vaosCreated)
      && a.framebufferCreated && EdgeTextureCreated(ext, width, height, a) && a.status == FRAMEBUFFER_COMPLETE
    ensures !hasPrograms ==> e == Some(PROGRAMS_MISSING)
  {
    if !hasPrograms then Some(PROGRAMS_MISSING)
    else if !a.feedbackCreated then Some(FEEDBACK_FAILED)
    else GeometryError(ext, width, height, a)
  }

  /** The error initBuffers or setupEdgeDetection throws, if any, in the order the code meets them. */
  function GeometryError(ext: Extensions, width: int, height: int, a: SetupAnswers): (e: Option<string>)
    ensures e.None? <==>
      && BuffersMade(a.buffersCreated) && VAOsMade(a.vaosCreated)
      && a.framebufferCreated && EdgeTextureCreated(ext, width, height, a) && a.status == FRAMEBUFFER_COMPLETE
  {
    if !BuffersMade(a.buffersCreated) then Some(BUFFER_FAILED)
    else if !VAOsMade(a.vaosCreated) then Some(VAO_FAILED)
    else EdgeTargetError(ext, width, height, a)
  }

  /**
   * The trace `calls` followed by setupEdgeDetection's calls from handle `h`, with `bound` the
   * cached framebuffer before them: the objects, then, if both exist, the attachment and, on a
   * complete framebuffer, the unbind.
   */
  function EdgeSetupCalls(calls: seq<Call>, bound: Option<Handle>, h: Handle, ext: Extensions, width: int, height: int,
                          a: SetupAnswers): seq<Call>
  {
    var made := calls + EdgeObjectCalls(h, ext, width, height, a);
    if !(a.framebufferCreated && EdgeTextureCreated(ext, width, height, a)) then made
    else (made + Switch(bound, Some(h), Call.BindFramebuffer(FRAMEBUFFER, Some(h))) + [FramebufferTexture2D(h + 1)]
          + (if a.status == FRAMEBUFFER_COMPLETE then [Call.BindFramebuffer(FRAMEBUFFER, None)] else []))
  }

  /**
   * The trace `calls` followed by initBuffers' and then setupEdgeDetection's calls from handle
   * `n`, each only if everything before it succeeded. `vao` and `framebuffer` are the cached
   * bindings before them.
   */
  function GeometryCalls(calls: seq<Call>, vao: Option<Handle>, framebuffer: Option<Handle>, n: Handle,
                         ext: Extensions, width: int, height: int, count: nat, a: SetupAnswers): seq<Call>
    requires Answers(count, a)
  {
    var b := BuffersCalls(calls, n, count, a.draws, a.buffersCreated);
    if !BuffersMade(a.buffersCreated) then b else
    var v := VAOsCalls(b, vao, n + 7, BuffersFrom(n), a.vaosCreated);
    if !VAOsMade(a.vaosCreated) then v else EdgeSetupCalls(v, framebuffer, n + 10, ext, width, height, a)
  }

  /**
   * The registry after initBuffers and setupEdgeDetection from handle `n`: the buffers made
   * before the first failure and, when initBuffers completed, the edge objects made before the
   * first failure.
   */
  ghost function GeometryRegistered(values: map<Handle, ResourceInfo>, n: Handle, ext: Extensions, width: int,
                                    height: int, count: nat, a: SetupAnswers): map<Handle, ResourceInfo>
    requires Answers(count, a)
  {
    var b := BuffersRegistered(values, n, count, a.draws, a.buffersCreated);
    if !BuffersMade(a.buffersCreated) || !VAOsMade(a.vaosCreated) then b
    else EdgeObjectsRegistered(b, n + 10, ext, width, height, a)
  }

  /** When initBuffers fails, its own trace and registry are all that `GeometryCalls` and `GeometryRegistered` hold. */
  lemma GeometryStops(calls: seq<Call>, made: seq<Call>, vao: Option<Handle>, framebuffer: Option<Handle>,
                      values: map<Handle, ResourceInfo>, madeValues: map<Handle, ResourceInfo>,
                      n: Handle, ext: Extensions, width: int, height: int, count: nat, a: SetupAnswers)
    requires Answers(count, a) && !(BuffersMade(a.buffersCreated) && VAOsMade(a.vaosCreated))
    requires made == (var b := BuffersCalls(calls, n, count, a.draws, a.buffersCreated);
                      if !BuffersMade(a.buffersCreated) then b else VAOsCalls(b, vao, n + 7, BuffersFrom(n), a.vaosCreated))
    requires madeValues == BuffersRegistered(values, n, count, a.draws, a.buffersCreated)
    ensures made == GeometryCalls(calls, vao, framebuffer, n, ext, width, height, count, a)
    ensures madeValues == GeometryRegistered(values, n, ext, width, height, count, a)
  {
  }

  /**
   * When initBuffers succeeds from handle `n`, leaving handle `h` next and the cached
   * framebuffer `bound`, setupEdgeDetection's trace and registry from there are
   * `GeometryCalls` and `GeometryRegistered`.
   */
  lemma GeometryThrough(calls: seq<Call>, made: seq<Call>, final: seq<Call>, vao: Option<Handle>,
                        framebuffer: Option<Handle>, bound: Option<Handle>, values: map<Handle, ResourceInfo>,
                        madeValues: map<Handle, ResourceInfo>, finalValues: map<Handle, ResourceInfo>,
                        n: Handle, h: Handle, ext: Extensions, width: int, height: int, count: nat, a: SetupAnswers)
    requires Answers(count, a) && BuffersMade(a.buffersCreated) && VAOsMade(a.vaosCreated)
    requires h == n + 10 && bound == framebuffer
    requires made == VAOsCalls(BuffersCalls(calls, n, count, a.draws, a.buffersCreated), vao, n + 7, BuffersFrom(n), a.vaosCreated)
    requires madeValues == BuffersRegistered(values, n, count, a.draws, a.buffersCreated)
    requires final == EdgeSetupCalls(made, bound, h, ext, width, height, a)
    requires finalValues == EdgeObjectsRegistered(madeValues, h, ext, width, height, a)
    ensures final == GeometryCalls(calls, vao, framebuffer, n, ext, width, height, count, a)
    ensures finalValues == GeometryRegistered(values, n, ext, width, height, count, a)
  {
  }

  /** When nothing fails, the registry holds the seven buffers and the edge target and nothing else new. */
  lemma GeometryRegisteredWhenMade(values: map<Handle, ResourceInfo>, n: Handle, ext: Extensions, width: int,
                                   height: int, count: nat, a: SetupAnswers)
    requires Answers(count, a) && GeometryError(ext, width, height, a).None?
    ensures GeometryRegistered(values, n, ext, width, height, count, a)
      == EdgeRegistered(WithBuffers(values, BuffersFrom(n), count, a.draws), EdgeTarget(n + 10, n + 11), width, height)
  {
  }

  /** The trace after the constructor's own calls: the transform feedback object, then `GeometryCalls`. */
  function ConstructionCalls(calls: seq<Call>, vao: Option<Handle>, framebuffer: Option<Handle>, n: Handle,
                             ext: Extensions, width: int, height: int, count: nat, a: SetupAnswers): seq<Call>
    requires Answers(count, a)
  {
    var f := calls + [Call.CreateObject(TransformFeedbackObject, if a.feedbackCreated then Some(n) else None)];
    if !a.feedbackCreated then f else GeometryCalls(f, vao, framebuffer, n + 1, ext, width, height, count, a)
  }

  /** The registry after the constructor: `GeometryRegistered` once the transform feedback object exists. */
  ghost function ConstructionRegistered(values: map<Handle, ResourceInfo>, n: Handle, ext: Extensions, width: int,
                                        height: int, count: nat, a: SetupAnswers): map<Handle, ResourceInfo>
    requires Answers(count, a)
  {
    if !a.feedbackCreated then values else GeometryRegistered(values, n + 1, ext, width, height, count, a)
  }

  class ParticleSystem {
    const gl: Driver
    const glState: GLState
    const resourceManager: ResourceManager
    const particleCount: int
    const noiseSeed: real
    const updateProgram: Handle
    const renderProgram: Handle
    const edgeProgram: Handle
    const transformFeedback: Handle
    const edgeFramebuffer: Handle
    const edgeTexture: Handle
    const buffers: Buffers
    const edgeVAO: Handle
    const vaos: seq<Handle>
    /** The slot the next update reads and the next render draws. */
    var currentIndex: int
    /** Seconds of simulated time. */
    var time: real

    /**
     * The slot index is 0 or 1, there are two buffers per attribute and two particle vertex
     * arrays, the objects were handed out in the order the constructor creates them, and the
     * system shares one context with its cache and resource manager.
     */
    ghost predicate Valid()
      reads this
    {
      && (currentIndex == 0 || currentIndex == 1)
      && buffers.Valid() && |vaos| == 2
      && transformFeedback < buffers.positions[0]
      && buffers.quad < edgeVAO < vaos[0] < vaos[1] < edgeFramebuffer < edgeTexture
      && glState.gl == gl && resourceManager.gl == gl
    }

    /** Stores what the constructor created; `Create` below runs the constructor's steps. */
    constructor (gl: Driver, glState: GLState, resourceManager: ResourceManager, particleCount: int, noiseSeed: real,
                 programs: seq<Handle>, transformFeedback: Handle, g: Geometry, t: EdgeTarget)
      requires |programs| == 3 && g.buffers.Valid() && |g.vaos| == 2
      requires transformFeedback < g.buffers.positions[0]
      requires g.buffers.quad < g.edgeVAO < g.vaos[0] < g.vaos[1] < t.framebuffer < t.texture
      requires glState.gl == gl && resourceManager.gl == gl
      ensures Valid() && currentIndex == 0 && time == 0.0
      ensures this.gl == gl && this.glState == glState && this.resourceManager == resourceManager
      ensures this.particleCount == particleCount && this.noiseSeed == noiseSeed
      ensures [updateProgram, renderProgram, edgeProgram] == programs && this.transformFeedback == transformFeedback
      ensures buffers == g.buffers && edgeVAO == g.edgeVAO && vaos == g.vaos
      ensures edgeFramebuffer == t.framebuffer && edgeTexture == t.texture
    {
      this.gl, this.glState, this.resourceManager := gl, glState, resourceManager;
      this.particleCount, this.noiseSeed := particleCount, noiseSeed;
      updateProgram, renderProgram, edgeProgram := programs[0], programs[1], programs[2];
      this.transformFeedback := transformFeedback;
      buffers, edgeVAO, vaos := g.buffers, g.edgeVAO, g.vaos;
      edgeFramebuffer, edgeTexture := t.framebuffer, t.texture;
      currentIndex, time := 0, 0.0;
    }

    /**
     * update: the simulation step. The update program reads the current slot through its vertex
     * array and writes the other slot by transform feedback with rasterization off; the slots
     * then swap, so the slot just written becomes the current one.
     */
    method Update(deltaTime: real, settings: Settings)
      requires Valid()
      modifies this`currentIndex, this`time, glState`program, glState`vao, gl`calls, gl`bound
      ensures Valid()
      ensures time == old(time) + deltaTime * 0.001 && currentIndex == 1 - old(currentIndex)
      ensures glState.program == Some(updateProgram) && glState.vao == Some(vaos[old(currentIndex)])
      ensures gl.calls == old(gl.calls)
        + Switch(old(glState.program), Some(updateProgram), Call.UseProgram(Some(updateProgram)))
        + UpdateUniforms(deltaTime, gl.canvas.width, gl.canvas.height, time, noiseSeed, settings)
        + (Switch(old(glState.vao), Some(vaos[old(currentIndex)]), BindVertexArray(Some(vaos[old(currentIndex)])))
           + FeedbackPass(transformFeedback, buffers.Slot(currentIndex), particleCount))
      ensures old(glState.Coherent()) ==> glState.Coherent()
    {
      var read := currentIndex;
      time := time + deltaTime * 0.001;
      var _ := glState.UseProgram(Some(updateProgram));
      var uniforms := UpdateUniforms(deltaTime, gl.canvas.width, gl.canvas.height, time, noiseSeed, settings);
      UniformsInert(uniforms);
      glState.PassThrough(uniforms);
      RunFeedbackPass(glState, vaos[read], transformFeedback, buffers.Slot(1 - read), particleCount);
      currentIndex := 1 - read;
    }

    /**
     * render: the particles of the current slot as blended points. The colour uniform is the
     * particle colour parsed by hexToRGB; blending is switched on for the draw and off after it.
     */
    method Render(settings: Settings)
      requires Valid()
      modifies glState`program, glState`vao, glState`blendEnabled, gl`calls, gl`bound
      ensures Valid()
      ensures glState.program == Some(renderProgram) && glState.vao == Some(vaos[currentIndex])
      ensures glState.blendEnabled == Some(false)
      ensures gl.calls == old(gl.calls)
        + Switch(old(glState.program), Some(renderProgram), Call.UseProgram(Some(renderProgram)))
        + Switch(old(glState.vao), Some(vaos[currentIndex]), BindVertexArray(Some(vaos[currentIndex])))
        + RenderUniforms(HexToRGB(settings.particleColor), settings)
        + BlendedDraw(old(glState.blendEnabled), particleCount)
      ensures old(glState.Coherent()) ==> glState.Coherent() && !gl.bound.blend
    {
      var _ := glState.UseProgram(Some(renderProgram));
      var _ := glState.BindVAO(Some(vaos[currentIndex]));
      var uniforms := RenderUniforms(HexToRGB(settings.particleColor), settings);
      UniformsInert(uniforms);
      glState.PassThrough(uniforms);
      DrawBlendedPoints(glState, particleCount);
    }

    /**
     * processImage: the image is uploaded to a registered texture, the edge program draws it into
     * the edge framebuffer over the whole canvas, the input texture is deleted (and so no longer
     * registered), and the edge texture is left on unit 0 for the update program.
     */
    method ProcessImage(image: Image, settings: Settings, first: TexAttempt, retry: TexAttempt)
      requires Valid() && resourceManager.Valid() && glState.Valid()
      modifies resourceManager`resources, gl`calls, gl`bound, gl`nextHandle
      modifies glState`framebuffer, glState`viewport, glState`program, glState`activeTexture, glState.boundTextures, glState`vao
      ensures Valid() && resourceManager.Valid() && glState.Valid()
      ensures resourceManager.resources == old(resourceManager.resources)
      ensures glState.framebuffer == None && glState.program == Some(updateProgram) && glState.vao == Some(edgeVAO)
      ensures glState.viewport == Viewport(0, 0, gl.canvas.width, gl.canvas.height)
      ensures glState.activeTexture == Some(0) && glState.boundTextures[0] == Some(edgeTexture)
      ensures forall u :: 1 <= u < glState.boundTextures.Length ==> glState.boundTextures[u] == old(glState.boundTextures[u])
      ensures var input := InputTexture(old(gl.nextHandle), first);
        gl.calls == old(gl.calls)
          + TextureCalls(old(gl.nextHandle), ImageOptions(image), GetTextureConfig(gl.extensions), first, retry)
          + EdgePassCalls(old(ViewOf(glState)), edgeFramebuffer, gl.canvas.width, gl.canvas.height, edgeProgram,
                          input, settings.edgeThreshold.value, edgeVAO)
          + (if input.Some? then [DeleteTexture(input.value)] else [])
          + FinishCalls(edgeProgram, updateProgram, input, edgeTexture)
    {
      Rgba8NeverFallsBack(image.width, image.height, Some(ImageElement(image)), gl.extensions, first, retry);
      var input := resourceManager.CreateTexture(ImageOptions(image), first, retry);
      EdgePass(glState, edgeFramebuffer, gl.canvas.width, gl.canvas.height, edgeProgram, input,
               settings.edgeThreshold.value, edgeVAO);
      DiscardInput(resourceManager, input, old(resourceManager.resources), ImageOptions(image));
      Finish(glState, edgeProgram, updateProgram, input, edgeTexture);
    }

    /** dispose: the transform feedback object and the three vertex arrays, in that order. */
    method Dispose()
      requires Valid()
      modifies gl`calls, gl`bound
      ensures gl.calls == old(gl.calls) + DisposeCalls(transformFeedback, edgeVAO, vaos)
      ensures gl.bound == old(gl.bound)
    {
      gl.Issue(DeleteTransformFeedback(transformFeedback));
      gl.Issue(DeleteVertexArray(edgeVAO));
      for i := 0 to |vaos|
        invariant gl.calls == old(gl.calls) + DisposeCalls(transformFeedback, edgeVAO, vaos[..i])
        invariant gl.bound == old(gl.bound)
      {
        assert vaos[..i + 1] == vaos[..i] + [vaos[i]];
        gl.Issue(DeleteVertexArray(vaos[i]));
      }
      assert vaos[..|vaos|] == vaos;
    }

    /**
     * dispose deletes the four objects the system made itself, each once, and none of the
     * objects the resource manager owns: the buffers, the edge framebuffer and the edge texture.
     */
    lemma DisposeDeletesOwnObjects()
      requires Valid()
      ensures DisposeCalls(transformFeedback, edgeVAO, vaos)
        == [DeleteTransformFeedback(transformFeedback), DeleteVertexArray(edgeVAO),
            DeleteVertexArray(vaos[0]), DeleteVertexArray(vaos[1])]
      ensures forall i, j :: 0 <= i < j < 4 ==>
        DisposeCalls(transformFeedback, edgeVAO, vaos)[i].deleted != DisposeCalls(transformFeedback, edgeVAO, vaos)[j].deleted
      ensures forall i :: 0 <= i < 4 ==>
        DisposeCalls(transformFeedback, edgeVAO, vaos)[i].deleted
          !in buffers.Slot(0) + buffers.Slot(1) + [buffers.quad, edgeFramebuffer, edgeTexture]
    {
      var first := [DeleteTransformFeedback(transformFeedback), DeleteVertexArray(edgeVAO)];
      assert vaos[..1][..0] == [] && vaos[..|vaos| - 1] == vaos[..1];
      assert DisposeCalls(transformFeedback, edgeVAO, vaos[..1]) == first + [DeleteVertexArray(vaos[0])];
      assert DisposeCalls(transformFeedback, edgeVAO, vaos) == first + [DeleteVertexArray(vaos[0])] + [DeleteVertexArray(vaos[1])];
    }
  }

  /**
   * The rest of the constructor's geometry once initBuffers returned `g`, having started from
   * handle `n` on the trace `calls` and the registry `values`, with `vao` and `framebuffer` the
   * cached bindings before it: its error, or setupEdgeDetection.
   */
  method FinishGeometry(rm: ResourceManager, glState: GLState, count: nat, a: SetupAnswers, g: Result<Geometry>,
                        ghost calls: seq<Call>, ghost values: map<Handle, ResourceInfo>, ghost n: Handle,
                        ghost vao: Option<Handle>, ghost framebuffer: Option<Handle>)
      returns (r: Result<(Geometry, EdgeTarget)>)
    requires rm.gl == glState.gl && rm.Valid() && Answers(count, a)
    requires g.Ok? <==> BuffersMade(a.buffersCreated) && VAOsMade(a.vaosCreated)
    requires g.Err? ==> g.message == (if !BuffersMade(a.buffersCreated) then BUFFER_FAILED else VAO_FAILED)
    requires g.Ok? ==> g.value == Geometry(BuffersFrom(n), n + 7, [n + 8, n + 9]) && rm.gl.nextHandle == n + 10
    requires n <= rm.gl.nextHandle && glState.framebuffer == framebuffer
    requires rm.resources.values == BuffersRegistered(values, n, count, a.draws, a.buffersCreated)
    requires var made := BuffersCalls(calls, n, count, a.draws, a.buffersCreated);
      rm.gl.calls == if !BuffersMade(a.buffersCreated) then made else VAOsCalls(made, vao, n + 7, BuffersFrom(n), a.vaosCreated)
    modifies rm`resources, rm.gl`calls, rm.gl`bound, rm.gl`nextHandle, glState`framebuffer
    ensures rm.Valid()
    ensures r.Ok? <==> GeometryError(rm.gl.extensions, rm.gl.canvas.width, rm.gl.canvas.height, a).None?
    ensures r.Err? ==> r.message == GeometryError(rm.gl.extensions, rm.gl.canvas.width, rm.gl.canvas.height, a).value
    ensures r.Ok? ==>
      && r.value.0 == Geometry(BuffersFrom(n), n + 7, [n + 8, n + 9]) && r.value.1 == EdgeTarget(n + 10, n + 11)
      && glState.framebuffer == None
    ensures rm.gl.calls == GeometryCalls(calls, vao, framebuffer, n, rm.gl.extensions, rm.gl.canvas.width, rm.gl.canvas.height, count, a)
    ensures rm.resources.values == GeometryRegistered(values, n, rm.gl.extensions, rm.gl.canvas.width, rm.gl.canvas.height, count, a)
    ensures n <= rm.gl.nextHandle
  {
    if g.Err? {
      GeometryStops(calls, rm.gl.calls, vao, framebuffer, values, rm.resources.values,
                    n, rm.gl.extensions, rm.gl.canvas.width, rm.gl.canvas.height, count, a);
      return Err(g.message);
    }
    ghost var made, madeValues := rm.gl.calls, rm.resources.values;
    var t := SetupEdgeDetection(rm, glState, a);
    GeometryThrough(calls, made, rm.gl.calls, vao, framebuffer, framebuffer, values, madeValues, rm.resources.values,
                    n, n + 10, rm.gl.extensions, rm.gl.canvas.width, rm.gl.canvas.height, count, a);
    r := if t.Err? then Err(t.message) else Ok((g.value, t.value));
  }

  /** initBuffers then setupEdgeDetection, as the constructor runs them; the first failure ends it. */
  method BuildGeometry(rm: ResourceManager, glState: GLState, count: nat, a: SetupAnswers)
      returns (r: Result<(Geometry, EdgeTarget)>)
    requires rm.gl == glState.gl && rm.Valid() && Answers(count, a)
    modifies rm`resources, rm.gl`calls, rm.gl`bound, rm.gl`nextHandle, glState`vao, glState`framebuffer
    ensures rm.Valid()
    ensures r.Ok? <==> GeometryError(rm.gl.extensions, rm.gl.canvas.width, rm.gl.canvas.height, a).None?
    ensures r.Err? ==> r.message == GeometryError(rm.gl.extensions, rm.gl.canvas.width, rm.gl.canvas.height, a).value
    ensures r.Ok? ==> var n := old(rm.gl.nextHandle);
      && r.value.0 == Geometry(BuffersFrom(n), n + 7, [n + 8, n + 9]) && r.value.1 == EdgeTarget(n + 10, n + 11)
      && glState.framebuffer == None
    ensures rm.gl.calls == GeometryCalls(old(rm.gl.calls), old(glState.vao), old(glState.framebuffer), old(rm.gl.nextHandle),
                                         rm.gl.extensions, rm.gl.canvas.width, rm.gl.canvas.height, count, a)
    ensures rm.resources.values == GeometryRegistered(old(rm.resources.values), old(rm.gl.nextHandle),
                                                      rm.gl.extensions, rm.gl.canvas.width, rm.gl.canvas.height, count, a)
    ensures old(rm.gl.nextHandle) <= rm.gl.nextHandle
  {
    ghost var calls, values, n := rm.gl.calls, rm.resources.values, rm.gl.nextHandle;
    var g := InitBuffers(rm, glState, count, a);
    r := FinishGeometry(rm, glState, count, a, g, calls, values, n, old(glState.vao), old(glState.framebuffer));
  }

  /**
   * The constructor's steps after its `createTransformFeedback`, which answered `tf` when the
   * trace was `calls`, the registry `values`, the next handle `n` and the cached bindings
   * `vao` and `framebuffer`: its error, or initBuffers and setupEdgeDetection.
   */
  method FinishConstruct(rm: ResourceManager, glState: GLState, count: nat, a: SetupAnswers, tf: Option<Handle>,
                         ghost calls: seq<Call>, ghost values: map<Handle, ResourceInfo>, ghost n: Handle,
                         ghost vao: Option<Handle>, ghost framebuffer: Option<Handle>)
      returns (r: Result<(Handle, Geometry, EdgeTarget)>)
    requires rm.gl == glState.gl && rm.Valid() && Answers(count, a)
    requires tf == (if a.feedbackCreated then Some(n) else None)
    requires rm.gl.nextHandle == (if a.feedbackCreated then n + 1 else n)
    requires rm.gl.calls == calls + [Call.CreateObject(TransformFeedbackObject, tf)]
    requires rm.resources.values == values && glState.vao == vao && glState.framebuffer == framebuffer
    modifies rm`resources, rm.gl`calls, rm.gl`bound, rm.gl`nextHandle, glState`vao, glState`framebuffer
    ensures rm.Valid()
    ensures r.Ok? <==> ConstructionError(true, rm.gl.extensions, rm.gl.canvas.width, rm.gl.canvas.height, a).None?
    ensures r.Err? ==> r.message == ConstructionError(true, rm.gl.extensions, rm.gl.canvas.width, rm.gl.canvas.height, a).value
    ensures r.Ok? ==>
      && r.value.0 == n && r.value.1 == Geometry(BuffersFrom(n + 1), n + 8, [n + 9, n + 10])
      && r.value.2 == EdgeTarget(n + 11, n + 12)
      && rm.resources.values == EdgeRegistered(WithBuffers(values, r.value.1.buffers, count, a.draws),
                                               r.value.2, rm.gl.canvas.width, rm.gl.canvas.height)
      && glState.framebuffer == None
    ensures rm.gl.calls == ConstructionCalls(calls, vao, framebuffer, n, rm.gl.extensions, rm.gl.canvas.width, rm.gl.canvas.height, count, a)
    ensures rm.resources.values == ConstructionRegistered(values, n, rm.gl.extensions, rm.gl.canvas.width, rm.gl.canvas.height, count, a)
    ensures n <= rm.gl.nextHandle
  {
    if tf.None? {
      return Err(FEEDBACK_FAILED);
    }
    var g := BuildGeometry(rm, glState, count, a);
    if g.Ok? {
      GeometryRegisteredWhenMade(values, n + 1, rm.gl.extensions, rm.gl.canvas.width, rm.gl.canvas.height, count, a);
    }
    r := if g.Err? then Err(g.message) else Ok((tf.value, g.value.0, g.value.1));
  }

  /**
   * The constructor's steps once the programs are found: the transform feedback object, then
   * initBuffers, then setupEdgeDetection. The first failure ends it with its message.
   */
  method Construct(rm: ResourceManager, glState: GLState, count: nat, a: SetupAnswers)
      returns (r: Result<(Handle, Geometry, EdgeTarget)>)
    requires rm.gl == glState.gl && rm.Valid() && Answers(count, a)
    modifies rm`resources, rm.gl`calls, rm.gl`bound, rm.gl`nextHandle, glState`vao, glState`framebuffer
    ensures rm.Valid()
    ensures r.Ok? <==> ConstructionError(true, rm.gl.extensions, rm.gl.canvas.width, rm.gl.canvas.height, a).None?
    ensures r.Err? ==> r.message == ConstructionError(true, rm.gl.extensions, rm.gl.canvas.width, rm.gl.canvas.height, a).value
    ensures r.Ok? ==> var n := old(rm.gl.nextHandle);
      && r.value.0 == n && r.value.1 == Geometry(BuffersFrom(n + 1), n + 8, [n + 9, n + 10])
      && r.value.2 == EdgeTarget(n + 11, n + 12)
      && rm.resources.values == EdgeRegistered(WithBuffers(old(rm.resources.values), r.value.1.buffers, count, a.draws),
                                               r.value.2, rm.gl.canvas.width, rm.gl.canvas.height)
      && glState.framebuffer == None
    ensures rm.gl.calls == ConstructionCalls(old(rm.gl.calls), old(glState.vao), old(glState.framebuffer), old(rm.gl.nextHandle),
                                             rm.gl.extensions, rm.gl.canvas.width, rm.gl.canvas.height, count, a)
    ensures rm.resources.values == ConstructionRegistered(old(rm.resources.values), old(rm.gl.nextHandle),
                                                          rm.gl.extensions, rm.gl.canvas.width, rm.gl.canvas.height, count, a)
    ensures old(rm.gl.nextHandle) <= rm.gl.nextHandle
  {
    ghost var calls, values, n := rm.gl.calls, rm.resources.values, rm.gl.nextHandle;
    var tf := rm.gl.CreateObject(TransformFeedbackObject, a.feedbackCreated);
    r := FinishConstruct(rm, glState, count, a, tf, calls, values, n, old(glState.vao), old(glState.framebuffer));
  }

  /**
   * The constructor of particle-system.ts: the programs are looked up, the transform feedback
   * object is created, then initBuffers and setupEdgeDetection run; each failure throws, here an
   * `Err` with the same message. `noiseSeed` is `Math.random() * 1000`.
   */
  method Create(gl: Driver, particleCount: nat, rm: ResourceManager, glState: GLState, a: SetupAnswers)
      returns (r: Result<ParticleSystem>)
    requires rm.gl == gl && glState.gl == gl && rm.Valid() && Answers(particleCount, a)
    modifies rm`resources, gl`calls, gl`bound, gl`nextHandle, glState`vao, glState`framebuffer
    ensures rm.Valid()
    ensures r.Ok? <==> ConstructionError(HasPrograms(rm), gl.extensions, gl.canvas.width, gl.canvas.height, a).None?
    ensures r.Err? ==> r.message == ConstructionError(HasPrograms(rm), gl.extensions, gl.canvas.width, gl.canvas.height, a).value
    ensures r.Ok? ==> var ps := r.value;
      && fresh(ps) && ps.Valid() && ps.gl == gl && ps.glState == glState && ps.resourceManager == rm
      && ps.particleCount == particleCount && ps.currentIndex == 0 && ps.time == 0.0
      && ps.noiseSeed == a.noiseDraw * 1000.0
      && rm.GetProgram("update") == Some(ps.updateProgram) && rm.GetProgram("particle") == Some(ps.renderProgram)
      && rm.GetProgram("edge") == Some(ps.edgeProgram)
      && ps.transformFeedback == old(gl.nextHandle)
      && rm.resources.values == EdgeRegistered(WithBuffers(old(rm.resources.values), ps.buffers, particleCount, a.draws),
                                               EdgeTarget(ps.edgeFramebuffer, ps.edgeTexture), gl.canvas.width, gl.canvas.height)
      && glState.framebuffer == None
    ensures !HasPrograms(rm) ==> gl.calls == old(gl.calls) && rm.resources == old(rm.resources)
    ensures HasPrograms(rm) ==>
      && gl.calls == ConstructionCalls(old(gl.calls), old(glState.vao), old(glState.framebuffer), old(gl.nextHandle),
                                       gl.extensions, gl.canvas.width, gl.canvas.height, particleCount, a)
      && rm.resources.values == ConstructionRegistered(old(rm.resources.values), old(gl.nextHandle),
                                                       gl.extensions, gl.canvas.width, gl.canvas.height, particleCount, a)
  {
    var update := rm.GetProgram("update");
    var render := rm.GetProgram("particle");
    var edge := rm.GetProgram("edge");
    if update.None? || render.None? || edge.None? {
      return Err(PROGRAMS_MISSING);
    }
    var made := Construct(rm, glState, particleCount, a);
    if made.Err? {
      return Err(made.message);
    }
    var (tf, g, t) := made.value;
    var ps := new ParticleSystem(gl, glState, rm, particleCount, a.noiseDraw * 1000.0,
                                 [update.value, render.value, edge.value], tf, g, t);
    r := Ok(ps);
  }

  // ---------------------------------------------------------------------------------------------
  // update, render and dispose: the calls

  /** The update program's uniforms, in the order update sets them. */
  function UpdateUniforms(deltaTime: real, width: int, height: int, time: real, noiseSeed: real, settings: Settings): seq<Call> {
    [Uniform("deltaTime", Uniform1f, [Finite(deltaTime * 0.001)]),
     Uniform("resolution", Uniform2f, [Finite(width as real), Finite(height as real)]),
     Uniform("time", Uniform1f, [Finite(time)]),
     Uniform("particleSpeed", Uniform1f, [Finite(settings.particleSpeed.value)]),
     Uniform("attractionStrength", Uniform1f, [Finite(settings.attractionStrength.value)]),
     Uniform("noiseSeed", Uniform1f, [Finite(noiseSeed)]),
     Uniform("flowFieldScale", Uniform1f, [Finite(settings.flowFieldScale.value)]),
     Uniform("use3DNoise", Uniform1i, [Finite(Use3DNoise(settings.noiseType))])]
  }

  /** The render program's uniforms: the particle colour as hexToRGB reads it, opacity and size. */
  function RenderUniforms(rgb: RGB, settings: Settings): seq<Call> {
    [Uniform("uParticleColor", Uniform3f, [rgb.r, rgb.g, rgb.b]),
     Uniform("uParticleOpacity", Uniform1f, [Finite(settings.particleOpacity.value)]),
     Uniform("particleSize", Uniform1f, [Finite(settings.particleSize.value)])]
  }

  lemma UniformsInert(cs: seq<Call>)
    requires forall i :: 0 <= i < |cs| ==> cs[i].Uniform?
    ensures forall i :: 0 <= i < |cs| ==> Inert(cs[i])
  {
  }

  /**
   * The transform feedback pass of update, once the slot being read is bound: every output
   * buffer of `written` on its binding point, the draw with rasterization discarded, and then
   * every binding undone.
   */
  function FeedbackPass(feedback: Handle, written: seq<Handle>, count: int): seq<Call>
    requires |written| == 3
  {
    [BindBuffer(ARRAY_BUFFER, None), BindTransformFeedback(Some(feedback)),
     BindBufferBase(0, Some(written[0])), BindBufferBase(1, Some(written[1])), BindBufferBase(2, Some(written[2])),
     Enable(RASTERIZER_DISCARD), BeginTransformFeedback(POINTS), DrawArrays(POINTS, 0, count), EndTransformFeedback,
     Disable(RASTERIZER_DISCARD), BindTransformFeedback(None),
     BindBufferBase(0, None), BindBufferBase(1, None), BindBufferBase(2, None)]
  }

  lemma FeedbackPassInert(feedback: Handle, written: seq<Handle>, count: int)
    requires |written| == 3
    ensures forall i :: 0 <= i < |FeedbackPass(feedback, written, count)| ==> Inert(FeedbackPass(feedback, written, count)[i])
  {
  }

  /**
   * The transform-feedback side of the context: the bound feedback object, the three indexed
   * buffer binding points, rasterizer discard and whether capture is active.
   */
  datatype Capture = Capture(feedback: Option<Handle>, points: seq<Option<Handle>>, discard: bool, active: bool)

  const NO_CAPTURE: Capture := Capture(None, [None, None, None], false, false)

  function CaptureStep(s: Capture, c: Call): Capture {
    match c
    case BindTransformFeedback(f) => s.(feedback := f)
    case BindBufferBase(i, h) => if 0 <= i < |s.points| then s.(points := s.points[i := h]) else s
    case Enable(cap) => if cap == RASTERIZER_DISCARD then s.(discard := true) else s
    case Disable(cap) => if cap == RASTERIZER_DISCARD then s.(discard := false) else s
    case BeginTransformFeedback(_) => s.(active := true)
    case EndTransformFeedback => s.(active := false)
    case _ => s
  }

  /** The capture state after issuing `calls`, in order, from `start`. */
  function CaptureReplay(start: Capture, calls: seq<Call>): Capture
    decreases |calls|
  {
    if calls == [] then start else CaptureStep(CaptureReplay(start, calls[..|calls| - 1]), calls[|calls| - 1])
  }

  lemma CaptureAppend(start: Capture, calls: seq<Call>, c: Call)
    ensures CaptureReplay(start, calls + [c]) == CaptureStep(CaptureReplay(start, calls), c)
  {
    assert (calls + [c])[..|calls|] == calls;
  }

  lemma SetPoints(points: seq<Option<Handle>>, a: Option<Handle>, b: Option<Handle>, c: Option<Handle>)
    requires |points| == 3
    ensures points[0 := a][1 := b][2 := c] == [a, b, c]
  {
  }

  /** The binding points of the pass, as far as the fifth call: object bound, outputs attached. */
  lemma {:induction false} FeedbackPassAttaches(feedback: Handle, written: seq<Handle>, count: int, start: Capture)
    requires |written| == 3 && |start.points| == 3
    ensures CaptureReplay(start, FeedbackPass(feedback, written, count)[..5])
      == start.(feedback := Some(feedback), points := [Some(written[0]), Some(written[1]), Some(written[2])])
  {
    var c0, c1, c2, c3, c4 := BindBuffer(ARRAY_BUFFER, None), BindTransformFeedback(Some(feedback)), BindBufferBase(0, Some(written[0])), BindBufferBase(1, Some(written[1])), BindBufferBase(2, Some(written[2]));
    assert FeedbackPass(feedback, written, count)[..5] == [] + [c0] + [c1] + [c2] + [c3] + [c4];
    CaptureAppend(start, [], c0);
    CaptureAppend(start, [] + [c0], c1);
    CaptureAppend(start, [] + [c0] + [c1], c2);
    CaptureAppend(start, [] + [c0] + [c1] + [c2], c3);
    CaptureAppend(start, [] + [c0] + [c1] + [c2] + [c3], c4);
    SetPoints(start.points, Some(written[0]), Some(written[1]), Some(written[2]));
  }

  /**
   * The draw of the update pass runs with capture active, rasterization discarded and the three
   * outputs bound to the written slot.
   */
  lemma {:induction false} FeedbackPassDraws(feedback: Handle, written: seq<Handle>, count: int, start: Capture)
    requires |written| == 3 && |start.points| == 3
    ensures FeedbackPass(feedback, written, count)[7] == DrawArrays(POINTS, 0, count)
    ensures CaptureReplay(start, FeedbackPass(feedback, written, count)[..7])
      == Capture(Some(feedback), [Some(written[0]), Some(written[1]), Some(written[2])], true, true)
  {
    var pass := FeedbackPass(feedback, written, count);
    FeedbackPassAttaches(feedback, written, count, start);
    assert pass[..7] == pass[..5] + [Enable(RASTERIZER_DISCARD)] + [BeginTransformFeedback(POINTS)];
    CaptureAppend(start, pass[..5], Enable(RASTERIZER_DISCARD));
    CaptureAppend(start, pass[..5] + [Enable(RASTERIZER_DISCARD)], BeginTransformFeedback(POINTS));
  }

  /** Capture ended and rasterization back on after the tenth call; the object and outputs still bound. */
  lemma {:induction false} FeedbackPassEnds(feedback: Handle, written: seq<Handle>, count: int, start: Capture)
    requires |written| == 3 && |start.points| == 3
    ensures CaptureReplay(start, FeedbackPass(feedback, written, count)[..10])
      == Capture(Some(feedback), [Some(written[0]), Some(written[1]), Some(written[2])], false, false)
  {
    var pass := FeedbackPass(feedback, written, count);
    FeedbackPassDraws(feedback, written, count, start);
    var c7, c8, c9 := DrawArrays(POINTS, 0, count), EndTransformFeedback, Disable(RASTERIZER_DISCARD);
    assert pass[..10] == pass[..7] + [c7] + [c8] + [c9];
    CaptureAppend(start, pass[..7], c7);
    CaptureAppend(start, pass[..7] + [c7], c8);
    CaptureAppend(start, pass[..7] + [c7] + [c8], c9);
  }

  /** After the pass every binding of the capture is undone, whatever the state before it. */
  lemma {:induction false} FeedbackPassDetaches(feedback: Handle, written: seq<Handle>, count: int, start: Capture)
    requires |written| == 3 && |start.points| == 3
    ensures CaptureReplay(start, FeedbackPass(feedback, written, count)) == NO_CAPTURE
  {
    var pass := FeedbackPass(feedback, written, count);
    FeedbackPassEnds(feedback, written, count, start);
    var c10, c11, c12, c13 := BindTransformFeedback(None), BindBufferBase(0, None), BindBufferBase(1, None), BindBufferBase(2, None);
    assert pass == pass[..10] + [c10] + [c11] + [c12] + [c13];
    CaptureAppend(start, pass[..10], c10);
    CaptureAppend(start, pass[..10] + [c10], c11);
    CaptureAppend(start, pass[..10] + [c10] + [c11], c12);
    CaptureAppend(start, pass[..10] + [c10] + [c11] + [c12], c13);
    SetPoints([Some(written[0]), Some(written[1]), Some(written[2])], None, None, None);
  }

  /** The deletions of dispose. */
  function DisposeCalls(feedback: Handle, edgeVAO: Handle, vaos: seq<Handle>): seq<Call>
    decreases |vaos|
  {
    if vaos == [] then [DeleteTransformFeedback(feedback), DeleteVertexArray(edgeVAO)]
    else DisposeCalls(feedback, edgeVAO, vaos[..|vaos| - 1]) + [DeleteVertexArray(vaos[|vaos| - 1])]
  }

  /** The blended draw of render: blending on (unless the cache has it on), the draw, blending off. */
  function BlendedDraw(blendEnabled: Option<bool>, count: int): seq<Call> {
    Switch(blendEnabled, Some(true), Enable(BLEND))
      + [BlendFunc(SRC_ALPHA, ONE_MINUS_SRC_ALPHA), DrawArrays(POINTS, 0, count), Disable(BLEND)]
  }

  /** The draw of render, with blending switched on through the cache around it. */
  method DrawBlendedPoints(glState: GLState, count: int)
    modifies glState`blendEnabled, glState.gl`calls, glState.gl`bound
    ensures glState.gl.calls == old(glState.gl.calls) + BlendedDraw(old(glState.blendEnabled), count)
    ensures glState.blendEnabled == Some(false)
    ensures old(glState.Coherent()) ==> glState.Coherent() && !glState.gl.bound.blend
  {
    var _ := glState.SetBlending(Some(true));
    glState.SetBlendFunc(SRC_ALPHA, ONE_MINUS_SRC_ALPHA);
    glState.PassThrough([DrawArrays(POINTS, 0, count)]);
    var _ := glState.SetBlending(Some(false));
  }

  /** The second half of update: the read slot's vertex array bound through the cache, then the pass. */
  method RunFeedbackPass(glState: GLState, vao: Handle, feedback: Handle, written: seq<Handle>, count: int)
    requires |written| == 3
    modifies glState`vao, glState.gl`calls, glState.gl`bound
    ensures glState.vao == Some(vao)
    ensures glState.gl.calls == old(glState.gl.calls)
      + (Switch(old(glState.vao), Some(vao), BindVertexArray(Some(vao))) + FeedbackPass(feedback, written, count))
    ensures old(glState.Coherent()) ==> glState.Coherent()
  {
    var _ := glState.BindVAO(Some(vao));
    FeedbackPassInert(feedback, written, count);
    glState.PassThrough(FeedbackPass(feedback, written, count));
  }

  // ---------------------------------------------------------------------------------------------
  // processImage

  /** The upload request for an image: RGBA8, linear, clamped, sized as the image. */
  function ImageOptions(image: Image): TextureOptions {
    Rgba8Options(image.width, image.height, Some(ImageElement(image)))
  }

  /** The texture processImage gets back when the next free handle is `h`. */
  function InputTexture(h: Handle, first: TexAttempt): Option<Handle> {
    if first.created then Some(h) else None
  }

  /** The cache fields processImage goes through. */
  datatype CacheView = View(
    framebuffer: Option<Handle>, viewport: Viewport, program: Option<Handle>,
    activeTexture: Option<int>, texture0: Option<Handle>, vao: Option<Handle>)

  function ViewOf(glState: GLState): CacheView
    reads glState, glState.boundTextures
    requires glState.boundTextures.Length > 0
  {
    View(glState.framebuffer, glState.viewport, glState.program, glState.activeTexture,
              glState.boundTextures[0], glState.vao)
  }

  /** The edge pass of processImage, from a cache holding `v`. */
  function EdgePassCalls(v: CacheView, framebuffer: Handle, width: int, height: int, program: Handle,
                         input: Option<Handle>, threshold: real, vao: Handle): seq<Call> {
    EdgeTargetCalls(v, framebuffer, width, height, program, threshold) + EdgeDrawCalls(v, input, vao)
  }

  /** Its first half: the framebuffer, the viewport, the edge program and its uniforms. */
  function EdgeTargetCalls(v: CacheView, framebuffer: Handle, width: int, height: int, program: Handle,
                           threshold: real): seq<Call> {
    Switch(v.framebuffer, Some(framebuffer), BindFramebuffer(FRAMEBUFFER, Some(framebuffer)))
      + Switch(v.viewport, Viewport(0, 0, width, height), SetViewport(Viewport(0, 0, width, height)))
      + Switch(v.program, Some(program), UseProgram(Some(program)))
      + [Uniform("uResolution", Uniform2f, [Finite(width as real), Finite(height as real)]),
         Uniform("threshold", Uniform1f, [Finite(threshold)])]
  }

  /** Its second half: the image on unit 0, the quad's vertex array, six vertices drawn. */
  function EdgeDrawCalls(v: CacheView, input: Option<Handle>, vao: Handle): seq<Call> {
    Switch(v.activeTexture, Some(0), ActiveTexture(TEXTURE0))
      + Switch(v.texture0, input, BindTexture(TEXTURE_2D, input))
      + [Uniform("uImage", Uniform1i, [Finite(0.0)])]
      + Switch(v.vao, Some(vao), BindVertexArray(Some(vao)))
      + [DrawArrays(TRIANGLES, 0, 6)]
  }

  /** The edge pass: the image on unit 0, the edge program drawing the quad into the framebuffer. */
  method EdgePass(glState: GLState, framebuffer: Handle, width: int, height: int, program: Handle,
                  input: Option<Handle>, threshold: real, vao: Handle)
    requires glState.Valid()
    modifies glState`framebuffer, glState`viewport, glState`program, glState`activeTexture, glState.boundTextures
    modifies glState`vao, glState.gl`calls, glState.gl`bound
    ensures glState.framebuffer == Some(framebuffer) && glState.viewport == Viewport(0, 0, width, height)
    ensures glState.program == Some(program) && glState.vao == Some(vao)
    ensures glState.activeTexture == Some(0) && glState.boundTextures[0] == input
    ensures forall u :: 1 <= u < glState.boundTextures.Length ==> glState.boundTextures[u] == old(glState.boundTextures[u])
    ensures glState.gl.calls == old(glState.gl.calls)
      + EdgePassCalls(old(ViewOf(glState)), framebuffer, width, height, program, input, threshold, vao)
  {
    ghost var v := ViewOf(glState);
    EdgeSetup(glState, framebuffer, width, height, program, threshold);
    EdgeDraw(glState, input, vao);
    assert ViewOf(glState) == v.(framebuffer := Some(framebuffer), viewport := Viewport(0, 0, width, height),
                                 program := Some(program), activeTexture := Some(0), texture0 := input, vao := Some(vao));
  }

  method EdgeSetup(glState: GLState, framebuffer: Handle, width: int, height: int, program: Handle, threshold: real)
    requires glState.Valid()
    modifies glState`framebuffer, glState`viewport, glState`program, glState.gl`calls, glState.gl`bound
    ensures glState.framebuffer == Some(framebuffer) && glState.viewport == Viewport(0, 0, width, height)
    ensures glState.program == Some(program)
    ensures glState.gl.calls == old(glState.gl.calls)
      + EdgeTargetCalls(old(ViewOf(glState)), framebuffer, width, height, program, threshold)
  {
    ghost var v := ViewOf(glState);
    var _ := glState.BindFramebuffer(Some(framebuffer));
    var _ := glState.SetViewport(0, 0, width, height);
    var _ := glState.UseProgram(Some(program));
    glState.gl.Issue(Uniform("uResolution", Uniform2f, [Finite(width as real), Finite(height as real)]));
    glState.gl.Issue(Uniform("threshold", Uniform1f, [Finite(threshold)]));
    AppendFour(old(glState.gl.calls), Switch(v.framebuffer, Some(framebuffer), BindFramebuffer(FRAMEBUFFER, Some(framebuffer))),
               Switch(v.viewport, Viewport(0, 0, width, height), SetViewport(Viewport(0, 0, width, height))),
               Switch(v.program, Some(program), UseProgram(Some(program))),
               [Uniform("uResolution", Uniform2f, [Finite(width as real), Finite(height as real)]),
                Uniform("threshold", Uniform1f, [Finite(threshold)])]);
  }

  /** Appending four pieces one after another appends their concatenation. */
  lemma AppendFour<T>(s: seq<T>, a: seq<T>, b: seq<T>, c: seq<T>, d: seq<T>)
    ensures s + a + b + c + d == s + (a + b + c + d)
  {
  }

  method EdgeDraw(glState: GLState, input: Option<Handle>, vao: Handle)
    requires glState.Valid()
    modifies glState`activeTexture, glState.boundTextures, glState`vao, glState.gl`calls, glState.gl`bound
    ensures glState.vao == Some(vao) && glState.activeTexture == Some(0) && glState.boundTextures[0] == input
    ensures forall u :: 1 <= u < glState.boundTextures.Length ==> glState.boundTextures[u] == old(glState.boundTextures[u])
    ensures glState.gl.calls == old(glState.gl.calls) + EdgeDrawCalls(old(ViewOf(glState)), input, vao)
  {
    var _ := glState.BindTexture(input, 0);
    glState.gl.Issue(Uniform("uImage", Uniform1i, [Finite(0.0)]));
    var _ := glState.BindVAO(Some(vao));
    glState.gl.Issue(DrawArrays(TRIANGLES, 0, 6));
  }

  /** The input texture deleted again, which leaves the registry as it was before the upload. */
  method DiscardInput(rm: ResourceManager, input: Option<Handle>, ghost before: OrderedMap<Handle, ResourceInfo>,
                      ghost options: TextureOptions)
    requires rm.Valid() && before.Valid()
    requires input.None? ==> rm.resources == before
    requires input.Some? ==> !before.Has(input.value) && rm.resources == before.Set(input.value, TextureInfo(Untyped(options)))
    modifies rm`resources, rm.gl`calls, rm.gl`bound
    ensures rm.Valid() && rm.resources == before && rm.gl.bound == old(rm.gl.bound)
    ensures rm.gl.calls == old(rm.gl.calls) + (if input.Some? then [DeleteTexture(input.value)] else [])
  {
    if input.Some? {
      rm.DeleteResource(input.value);
      SetThenDeleteFresh(before, input.value, TextureInfo(Untyped(options)));
    }
  }

  /** The end of processImage, from the state the edge pass leaves. */
  function FinishCalls(edgeProgram: Handle, updateProgram: Handle, input: Option<Handle>, edgeTexture: Handle): seq<Call> {
    [BindFramebuffer(FRAMEBUFFER, None)]
      + Switch(Some(edgeProgram), Some(updateProgram), UseProgram(Some(updateProgram)))
      + [Uniform("edgeTexture", Uniform1i, [Finite(0.0)])]
      + Switch(input, Some(edgeTexture), BindTexture(TEXTURE_2D, Some(edgeTexture)))
  }

  /** The framebuffer unbound, the update program bound, and the edge texture put on unit 0. */
  method Finish(glState: GLState, edgeProgram: Handle, updateProgram: Handle, input: Option<Handle>, edgeTexture: Handle)
    requires glState.Valid() && glState.framebuffer.Some? && glState.program == Some(edgeProgram)
    requires glState.activeTexture == Some(0) && glState.boundTextures[0] == input
    modifies glState`framebuffer, glState`program, glState`activeTexture, glState.boundTextures, glState.gl`calls, glState.gl`bound
    ensures glState.framebuffer == None && glState.program == Some(updateProgram)
    ensures glState.activeTexture == Some(0) && glState.boundTextures[0] == Some(edgeTexture)
    ensures forall u :: 1 <= u < glState.boundTextures.Length ==> glState.boundTextures[u] == old(glState.boundTextures[u])
    ensures glState.gl.calls == old(glState.gl.calls) + FinishCalls(edgeProgram, updateProgram, input, edgeTexture)
  {
    var _ := glState.BindFramebuffer(None);
    var _ := glState.UseProgram(Some(updateProgram));
    glState.gl.Issue(Uniform("edgeTexture", Uniform1i, [Finite(0.0)]));
    var _ := glState.BindTexture(Some(edgeTexture), 0);
  }
}
