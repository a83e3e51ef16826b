/** `Material`: a shader program compiled from two sources, with the tables of
    attribute, uniform and sampler locations it resolves and one placeholder
    texture per sampler; and `MaterialDescriptor`, the serialisable recipe of
    a material with its defaults, `copy` and `clone`. */
module Materials {
  import opened Results
  import opened GL

  /** The messages `compile` throws; a link failure throws a fixed message
      instead of the program info log. */
  const MaterialMessages: Messages := Messages(
    "Failed to create vertex shader",
    "Failed to create fragment shader",
    "Failed to create shader program",
    Some("Failed to link shader program"))

  /** The texture allocated for each sampler: one level-0 RGBA image of 1 by 1 pixel. */
  const Placeholder: Call := TexImage2D(1, 1)

  /** Sampler iteration i: `samplerLocations[name] = getUniformLocation(program, name);
      uniform1i(samplerLocations[name], i)` binds the sampler to texture unit i. */
  function SamplerStep(gl: Context, program: Handle): (nat, string) -> Step<Option<Location>>
  {
    (i: nat, name: string) =>
      Step(gl.uniformLocation(program, name),
           [GetUniformLocation(name), Uniform1i(gl.uniformLocation(program, name), i)])
  }

  /** Texture iteration i: the i-th `createTexture()`, made active on unit i,
      bound and given a 1 by 1 image. */
  function TextureStep(gl: Context): (nat, string) -> Step<Option<Handle>>
  {
    (i: nat, name: string) =>
      Step(gl.createTexture(i), [CreateTexture, ActiveTexture(i), BindTexture(gl.createTexture(i)), Placeholder])
  }

  /** What a successful `compile` leaves in the material. */
  datatype Compiled = Compiled(
    vertexShader: Handle,
    fragmentShader: Handle,
    shaderProgram: Handle,
    attributeLocations: map<string, int>,
    uniformLocations: map<string, Option<Location>>,
    samplerLocations: map<string, Option<Location>>,
    textureBuffers: map<string, Option<Handle>>)

  /** The sampler loop binds every sampler name to its uniform location. */
  lemma SamplerTable(gl: Context, program: Handle, samplers: seq<string>)
    ensures var r := Resolve(SamplerStep(gl, program), samplers, 0, map[]);
            && r.table.Keys == Elements(samplers)
            && forall k :: k in samplers ==> r.table[k] == gl.uniformLocation(program, k)
  {
    ResolveTable(SamplerStep(gl, program), samplers, 0, map[]);
    forall k | k in samplers
      ensures Resolve(SamplerStep(gl, program), samplers, 0, map[]).table[k] == gl.uniformLocation(program, k)
    {
      ResolveFinds(SamplerStep(gl, program), samplers, 0, map[], k);
    }
  }

  /** The texture loop fills one entry per sampler name. */
  lemma TextureKeys(gl: Context, samplers: seq<string>)
    ensures Resolve(TextureStep(gl), samplers, 0, map[]).table.Keys == Elements(samplers)
    ensures Distinct(samplers) ==> |Resolve(TextureStep(gl), samplers, 0, map[]).table| == |samplers|
  {
    ResolveTable(TextureStep(gl), samplers, 0, map[]);
    if Distinct(samplers) {
      DistinctCardinality(samplers);
    }
  }

  /** For distinct sampler names, sampler i holds the i-th texture created. */
  lemma TextureOfSampler(gl: Context, samplers: seq<string>, i: nat)
    requires Distinct(samplers) && i < |samplers|
    ensures samplers[i] in Resolve(TextureStep(gl), samplers, 0, map[]).table
    ensures Resolve(TextureStep(gl), samplers, 0, map[]).table[samplers[i]] == gl.createTexture(i)
  {
    DistinctNotLater(samplers, i);
    ResolveLastWins(TextureStep(gl), samplers, 0, map[], i);
    assert TextureStep(gl)(0 + i, samplers[i]).value == gl.createTexture(i);
  }

  /** For distinct names, every sampler i holds the i-th texture created. */
  lemma TexturesOfSamplers(gl: Context, samplers: seq<string>)
    ensures Distinct(samplers) ==>
              forall i :: 0 <= i < |samplers| ==>
                && samplers[i] in Resolve(TextureStep(gl), samplers, 0, map[]).table
                && Resolve(TextureStep(gl), samplers, 0, map[]).table[samplers[i]] == gl.createTexture(i)
  {
    if Distinct(samplers) {
      forall i | 0 <= i < |samplers|
        ensures samplers[i] in Resolve(TextureStep(gl), samplers, 0, map[]).table
        ensures Resolve(TextureStep(gl), samplers, 0, map[]).table[samplers[i]] == gl.createTexture(i)
      {
        TextureOfSampler(gl, samplers, i);
      }
    }
  }

  /** The number of occurrences of `x` in each iteration of the four loops. */
  lemma StepCounts(gl: Context, program: Handle, i: nat, k: string, x: Call)
    requires x == Placeholder || x == CreateTexture
    ensures Count(AttributeStep(gl, program)(i, k).calls, x) == 0
    ensures Count(UniformStep(gl, program)(i, k).calls, x) == 0
    ensures Count(SamplerStep(gl, program)(i, k).calls, x) == 0
    ensures OnlyBindingCalls(AttributeStep(gl, program)(i, k).calls)
    ensures OnlyBindingCalls(UniformStep(gl, program)(i, k).calls)
    ensures OnlyBindingCalls(SamplerStep(gl, program)(i, k).calls)
    ensures OnlyBindingCalls(TextureStep(gl)(i, k).calls)
  {
    CountAbsent(AttributeStep(gl, program)(i, k).calls, x);
    CountAbsent(UniformStep(gl, program)(i, k).calls, x);
    CountAbsent(SamplerStep(gl, program)(i, k).calls, x);
  }

  /** Each texture iteration creates one texture and one placeholder image. */
  lemma TextureStepCount(gl: Context, i: nat, k: string, x: Call)
    requires x == Placeholder || x == CreateTexture
    ensures Count(TextureStep(gl)(i, k).calls, x) == 1
  {
    var calls := TextureStep(gl)(i, k).calls;
    assert calls == [CreateTexture, ActiveTexture(i), BindTexture(gl.createTexture(i)), Placeholder];
    assert Count(calls[3..], x) == (if x == Placeholder then 1 else 0) by {
      assert calls[3..][1..] == [];
    }
    assert Count(calls[1..], x) == Count(calls[3..], x) by {
      assert calls[1..][1..] == calls[2..] && calls[2..][1..] == calls[3..];
    }
  }

  /** The loops after linking make binding calls only, and allocate exactly
      one texture and one placeholder image per sampler entry. */
  lemma LoopCounts(gl: Context, program: Handle, attributes: seq<string>, uniforms: seq<string>,
                   samplers: seq<string>, x: Call)
    requires x == Placeholder || x == CreateTexture
    ensures Count(Resolve(AttributeStep(gl, program), attributes, 0, map[]).trace, x) == 0
    ensures Count(Resolve(UniformStep(gl, program), uniforms, 0, map[]).trace, x) == 0
    ensures Count(Resolve(SamplerStep(gl, program), samplers, 0, map[]).trace, x) == 0
    ensures Count(Resolve(TextureStep(gl), samplers, 0, map[]).trace, x) == |samplers|
    ensures OnlyBindingCalls(Resolve(SamplerStep(gl, program), samplers, 0, map[]).trace)
    ensures OnlyBindingCalls(Resolve(TextureStep(gl), samplers, 0, map[]).trace)
  {
    forall i, k
      ensures Count(AttributeStep(gl, program)(i, k).calls, x) == 0
      ensures Count(UniformStep(gl, program)(i, k).calls, x) == 0
      ensures Count(SamplerStep(gl, program)(i, k).calls, x) == 0
      ensures Count(TextureStep(gl)(i, k).calls, x) == 1
      ensures OnlyBindingCalls(SamplerStep(gl, program)(i, k).calls)
      ensures OnlyBindingCalls(TextureStep(gl)(i, k).calls)
    {
      StepCounts(gl, program, i, k, x);
      TextureStepCount(gl, i, k, x);
    }
    ResolveCount(AttributeStep(gl, program), attributes, 0, map[], x, 0);
    ResolveCount(UniformStep(gl, program), uniforms, 0, map[], x, 0);
    ResolveCount(SamplerStep(gl, program), samplers, 0, map[], x, 0);
    ResolveCount(TextureStep(gl), samplers, 0, map[], x, 1);
    ResolveOnlyBinds(SamplerStep(gl, program), samplers, 0, map[]);
    ResolveOnlyBinds(TextureStep(gl), samplers, 0, map[]);
  }

  /** The tables the loops after linking fill, and the calls they make. */
  datatype Bindings = Bindings(
    attributeLocations: map<string, int>,
    uniformLocations: map<string, Option<Location>>,
    samplerLocations: map<string, Option<Location>>,
    textureBuffers: map<string, Option<Handle>>,
    trace: seq<Call>)

  /** The four loops of `compile` after `useProgram`, in order: attributes,
      uniforms, sampler units, placeholder textures. */
  function Bind(gl: Context, program: Handle, attributes: seq<string>, uniforms: seq<string>,
                samplers: seq<string>): (b: Bindings)
    ensures b.attributeLocations.Keys == Elements(attributes)
    ensures b.uniformLocations.Keys == Elements(uniforms)
    ensures b.samplerLocations.Keys == Elements(samplers)
    ensures b.textureBuffers.Keys == Elements(samplers)
    ensures forall k :: k in attributes ==> b.attributeLocations[k] == gl.attribLocation(program, k)
    ensures forall k :: k in uniforms ==> b.uniformLocations[k] == gl.uniformLocation(program, k)
    ensures forall k :: k in samplers ==> b.samplerLocations[k] == gl.uniformLocation(program, k)
    ensures Distinct(samplers) ==>
              && |b.textureBuffers| == |samplers|
              && forall i :: 0 <= i < |samplers| ==> b.textureBuffers[samplers[i]] == gl.createTexture(i)
  {
    var attrs := Resolve(AttributeStep(gl, program), attributes, 0, map[]);
    var unis := Resolve(UniformStep(gl, program), uniforms, 0, map[]);
    var samps := Resolve(SamplerStep(gl, program), samplers, 0, map[]);
    var texs := Resolve(TextureStep(gl), samplers, 0, map[]);
    AttributesResolved(gl, program, attributes, map[]);
    UniformsResolved(gl, program, uniforms, map[]);
    SamplerTable(gl, program, samplers);
    TextureKeys(gl, samplers);
    TexturesOfSamplers(gl, samplers);
    Bindings(attrs.table, unis.table, samps.table, texs.table,
             attrs.trace + unis.trace + samps.trace + texs.trace)
  }

  /** The trace of the loops, segment by segment. */
  lemma BindSegments(gl: Context, program: Handle, attributes: seq<string>, uniforms: seq<string>,
                     samplers: seq<string>)
    ensures Bind(gl, program, attributes, uniforms, samplers).trace
         == Resolve(AttributeStep(gl, program), attributes, 0, map[]).trace
          + Resolve(UniformStep(gl, program), uniforms, 0, map[]).trace
          + Resolve(SamplerStep(gl, program), samplers, 0, map[]).trace
          + Resolve(TextureStep(gl), samplers, 0, map[]).trace
  {
  }

  /** The sampler loop sets sampler i to texture unit i. */
  lemma BindUnits(gl: Context, program: Handle, attributes: seq<string>, uniforms: seq<string>,
                  samplers: seq<string>)
    ensures forall i :: 0 <= i < |samplers| ==>
              Uniform1i(gl.uniformLocation(program, samplers[i]), i)
                in Bind(gl, program, attributes, uniforms, samplers).trace
  {
    BindSegments(gl, program, attributes, uniforms, samplers);
    var samps := Resolve(SamplerStep(gl, program), samplers, 0, map[]);
    forall i | 0 <= i < |samplers|
      ensures Uniform1i(gl.uniformLocation(program, samplers[i]), i) in samps.trace
    {
      var calls := SamplerStep(gl, program)(i, samplers[i]).calls;
      assert calls[1] == Uniform1i(gl.uniformLocation(program, samplers[i]), i);
      ResolveIssues(SamplerStep(gl, program), samplers, 0, map[], i);
    }
  }

  /** The loops allocate exactly one texture and one placeholder image per sampler entry. */
  lemma BindCounts(gl: Context, program: Handle, attributes: seq<string>, uniforms: seq<string>,
                   samplers: seq<string>)
    ensures Count(Bind(gl, program, attributes, uniforms, samplers).trace, Placeholder) == |samplers|
    ensures Count(Bind(gl, program, attributes, uniforms, samplers).trace, CreateTexture) == |samplers|
  {
    BindSegments(gl, program, attributes, uniforms, samplers);
    var attrs := Resolve(AttributeStep(gl, program), attributes, 0, map[]);
    var unis := Resolve(UniformStep(gl, program), uniforms, 0, map[]);
    var samps := Resolve(SamplerStep(gl, program), samplers, 0, map[]);
    var texs := Resolve(TextureStep(gl), samplers, 0, map[]);
    LoopCounts(gl, program, attributes, uniforms, samplers, Placeholder);
    LoopCounts(gl, program, attributes, uniforms, samplers, CreateTexture);
    CountSegments(attrs.trace, unis.trace, samps.trace, texs.trace, Placeholder);
    CountSegments(attrs.trace, unis.trace, samps.trace, texs.trace, CreateTexture);
  }

  /** The loops make binding calls only. */
  lemma BindOnlyBinds(gl: Context, program: Handle, attributes: seq<string>, uniforms: seq<string>,
                      samplers: seq<string>)
    ensures OnlyBindingCalls(Bind(gl, program, attributes, uniforms, samplers).trace)
  {
    BindSegments(gl, program, attributes, uniforms, samplers);
    AttributesResolved(gl, program, attributes, map[]);
    UniformsResolved(gl, program, uniforms, map[]);
    LoopCounts(gl, program, attributes, uniforms, samplers, Placeholder);
  }

  /** Counting over the segments of a trace. */
  lemma CountSegments(a: seq<Call>, b: seq<Call>, c: seq<Call>, d: seq<Call>, x: Call)
    ensures Count(a + b + c + d, x) == Count(a, x) + Count(b, x) + Count(c, x) + Count(d, x)
  {
    CountAppend(a, b, x);
    CountAppend(a + b, c, x);
    CountAppend(a + b + c, d, x);
  }

  /** Appending `useProgram` and the binding loops to a build trace adds no
      shader stage and no texture. */
  lemma AfterLinking(built: seq<Call>, program: Handle, binds: seq<Call>)
    requires forall c :: c in built ==> !IsBindingCall(c)
    requires OnlyBindingCalls(binds)
    ensures CreateShader(FragmentShader) in built + [UseProgram(program)] + binds
            <==> CreateShader(FragmentShader) in built
    ensures CreateProgram in built + [UseProgram(program)] + binds <==> CreateProgram in built
    ensures Count(built + [UseProgram(program)] + binds, Placeholder) == Count(binds, Placeholder)
    ensures Count(built + [UseProgram(program)] + binds, CreateTexture) == Count(binds, CreateTexture)
    ensures UseProgram(program) in built + [UseProgram(program)] + binds
    ensures forall c :: c in binds ==> c in built + [UseProgram(program)] + binds
  {
    CountAbsent(built, Placeholder);
    CountAbsent(built, CreateTexture);
    CountSegments(built, [UseProgram(program)], binds, [], Placeholder);
    CountSegments(built, [UseProgram(program)], binds, [], CreateTexture);
    assert built + [UseProgram(program)] + binds + [] == built + [UseProgram(program)] + binds;
  }

  /** `compile(gl, vertexSource, fragmentSource, attributes, uniforms, textureSamplers)`
      on a fresh material, whose location tables start empty. */
  function Compile(gl: Context, vertexSource: string, fragmentSource: string,
                   attributes: seq<string>, uniforms: seq<string>, samplers: seq<string>)
    : (r: Run<Compiled, string>)
    // The vertex stage comes first, the fragment stage second, the program last.
    ensures CreateShader(FragmentShader) in r.trace <==> Accepts(gl, VertexShader, vertexSource)
    ensures CreateProgram in r.trace <==>
              Accepts(gl, VertexShader, vertexSource) && Accepts(gl, FragmentShader, fragmentSource)
    ensures r.result.Ok? <==>
              && Accepts(gl, VertexShader, vertexSource)
              && Accepts(gl, FragmentShader, fragmentSource)
              && Links(gl)
    // What each failure throws.
    ensures gl.createShader(VertexShader).None? ==> r.result == Err("Failed to create vertex shader")
    ensures gl.createShader(VertexShader).Some? && !Accepts(gl, VertexShader, vertexSource) ==>
              r.result == Err(gl.compile(gl.createShader(VertexShader).value, vertexSource).infoLog)
    ensures Accepts(gl, VertexShader, vertexSource) && gl.createShader(FragmentShader).None? ==>
              r.result == Err("Failed to create fragment shader")
    ensures (Accepts(gl, VertexShader, vertexSource) && gl.createShader(FragmentShader).Some?
             && !Accepts(gl, FragmentShader, fragmentSource)) ==>
              r.result == Err(gl.compile(gl.createShader(FragmentShader).value, fragmentSource).infoLog)
    ensures (Accepts(gl, VertexShader, vertexSource) && Accepts(gl, FragmentShader, fragmentSource)
             && gl.createProgram.None?) ==> r.result == Err("Failed to create shader program")
    ensures (Accepts(gl, VertexShader, vertexSource) && Accepts(gl, FragmentShader, fragmentSource)
             && gl.createProgram.Some? && !Links(gl)) ==> r.result == Err("Failed to link shader program")
    // A failed compile never uses the program, resolves a name or touches a texture.
    ensures r.result.Err? ==> forall c :: c in r.trace ==> !IsBindingCall(c) && !c.UseProgram?
    // A successful one binds every requested name, and sampler i to unit i.
    ensures r.result.Ok? ==>
              && gl.createProgram == Some(r.result.value.shaderProgram)
              && UseProgram(r.result.value.shaderProgram) in r.trace
              && r.result.value.attributeLocations.Keys == Elements(attributes)
              && r.result.value.uniformLocations.Keys == Elements(uniforms)
              && r.result.value.samplerLocations.Keys == Elements(samplers)
              && r.result.value.textureBuffers.Keys == Elements(samplers)
              && (forall k :: k in attributes ==>
                    r.result.value.attributeLocations[k] == gl.attribLocation(r.result.value.shaderProgram, k))
              && (forall k :: k in uniforms ==>
                    r.result.value.uniformLocations[k] == gl.uniformLocation(r.result.value.shaderProgram, k))
              && (forall k :: k in samplers ==>
                    r.result.value.samplerLocations[k] == gl.uniformLocation(r.result.value.shaderProgram, k))
              && (forall i :: 0 <= i < |samplers| ==>
                    Uniform1i(gl.uniformLocation(r.result.value.shaderProgram, samplers[i]), i) in r.trace)
    // One 1 by 1 placeholder texture per sampler entry.
    ensures r.result.Ok? ==> Count(r.trace, Placeholder) == |samplers| && Count(r.trace, CreateTexture) == |samplers|
    ensures r.result.Ok? && Distinct(samplers) ==>
              && |r.result.value.textureBuffers| == |samplers|
              && forall i :: 0 <= i < |samplers| ==> r.result.value.textureBuffers[samplers[i]] == gl.createTexture(i)
  {
    var built := BuildProgram(gl, vertexSource, fragmentSource, MaterialMessages);
    match built.result
    case Err(e) => Run(Err(e), built.trace)
    case Ok(linked) =>
      var program := linked.program;
      var b := Bind(gl, program, attributes, uniforms, samplers);
      BindUnits(gl, program, attributes, uniforms, samplers);
      BindCounts(gl, program, attributes, uniforms, samplers);
      BindOnlyBinds(gl, program, attributes, uniforms, samplers);
      AfterLinking(built.trace, program, b.trace);
      var compiled := Compiled(linked.vertexShader, linked.fragmentShader, program, b.attributeLocations,
                               b.uniformLocations, b.samplerLocations, b.textureBuffers);
      Run(Ok(compiled), built.trace + [UseProgram(program)] + b.trace)
  }

  // ---------------------------------------------------------------------
  // The material object.

  datatype Material = Material(
    /** The context the material was built with; `None` for a null context. */
    glContext: Option<Context>,
    vertexSource: string,
    fragmentSource: string,
    attributes: seq<string>,
    uniforms: seq<string>,
    textureSamplers: seq<string>,
    vertexShader: Option<Handle>,
    fragmentShader: Option<Handle>,
    shaderProgram: Option<Handle>,
    attributeLocations: map<string, int>,
    uniformLocations: map<string, Option<Location>>,
    samplerLocations: map<string, Option<Location>>,
    textureBuffers: map<string, Option<Handle>>)

  /** `new Material(glContext, vertexSource, fragmentSource, attributes, uniforms,
      textureSamplers)`: store the arguments, then compile unless the context
      is null. An error thrown by `compile` escapes the constructor. */
  function NewMaterial(gl: Option<Context>, vertexSource: string, fragmentSource: string,
                       attributes: seq<string>, uniforms: seq<string>, samplers: seq<string>)
    : (r: Run<Material, string>)
    // The stored lists are the arguments (an empty argument keeps the empty default).
    ensures r.result.Ok? ==>
              && r.result.value.glContext == gl
              && r.result.value.vertexSource == vertexSource
              && r.result.value.fragmentSource == fragmentSource
              && r.result.value.attributes == attributes
              && r.result.value.uniforms == uniforms
              && r.result.value.textureSamplers == samplers
    // Without a context nothing is compiled.
    ensures gl.None? ==>
              && r.result.Ok? && r.trace == []
              && r.result.value.shaderProgram.None?
              && r.result.value.vertexShader.None? && r.result.value.fragmentShader.None?
              && r.result.value.attributeLocations == map[] && r.result.value.uniformLocations == map[]
              && r.result.value.samplerLocations == map[] && r.result.value.textureBuffers == map[]
    // With one, the constructor succeeds exactly when every stage does, and
    // then holds the program and the tables its compile produced.
    ensures gl.Some? ==>
              (r.result.Ok? <==>
                 && Accepts(gl.value, VertexShader, vertexSource)
                 && Accepts(gl.value, FragmentShader, fragmentSource)
                 && Links(gl.value))
    ensures gl.Some? && r.result.Ok? ==>
              && r.result.value.shaderProgram.Some?
              && r.result.value.shaderProgram == gl.value.createProgram
              && r.result.value.vertexShader == gl.value.createShader(VertexShader)
              && r.result.value.fragmentShader == gl.value.createShader(FragmentShader)
              && r.result.value.attributeLocations.Keys == Elements(attributes)
              && r.result.value.uniformLocations.Keys == Elements(uniforms)
              && r.result.value.samplerLocations.Keys == Elements(samplers)
              && r.result.value.textureBuffers.Keys == Elements(samplers)
    ensures gl.Some? && r.result.Ok? && r.result.value.shaderProgram.Some? ==>
              && (forall k :: k in attributes ==>
                    r.result.value.attributeLocations[k]
                      == gl.value.attribLocation(r.result.value.shaderProgram.value, k))
              && (forall k :: k in uniforms ==>
                    r.result.value.uniformLocations[k]
                      == gl.value.uniformLocation(r.result.value.shaderProgram.value, k))
              && (forall k :: k in samplers ==>
                    r.result.value.samplerLocations[k]
                      == gl.value.uniformLocation(r.result.value.shaderProgram.value, k))
              && (Distinct(samplers) ==>
                    forall i :: 0 <= i < |samplers| ==>
                      r.result.value.textureBuffers[samplers[i]] == gl.value.createTexture(i))
    ensures gl.Some? && r.result.Err? ==>
              r.result.error == Compile(gl.value, vertexSource, fragmentSource, attributes, uniforms, samplers).result.error
  {
    var storedAttributes := if |attributes| > 0 then attributes else [];
    var storedUniforms := if |uniforms| > 0 then uniforms else [];
    var storedSamplers := if |samplers| > 0 then samplers else [];
    var stored := Material(gl, vertexSource, fragmentSource, storedAttributes, storedUniforms, storedSamplers,
                          None, None, None, map[], map[], map[], map[]);
    match gl
    case None => Run(Ok(stored), [])
    case Some(context) =>
      var c := Compile(context, vertexSource, fragmentSource, storedAttributes, storedUniforms, storedSamplers);
      match c.result
      case Err(e) => Run(Err(e), c.trace)
      case Ok(v) =>
        Run(Ok(stored.(vertexShader := Some(v.vertexShader), fragmentShader := Some(v.fragmentShader),
                      shaderProgram := Some(v.shaderProgram), attributeLocations := v.attributeLocations,
                      uniformLocations := v.uniformLocations, samplerLocations := v.samplerLocations,
                      textureBuffers := v.textureBuffers)),
            c.trace)
  }

  // ---------------------------------------------------------------------
  // The material descriptor.

  /** The serialisable recipe of a material; `textureSamplers` maps a sampler
      name to the image it loads. */
  datatype MaterialDescriptor = MaterialDescriptor(
    fetchShader: bool,
    vertexSource: string,
    fragmentSource: string,
    attributes: seq<string>,
    uniforms: seq<string>,
    textureSamplers: map<string, string>)

  /** `new MaterialDescriptor(textureSamplers, vertexSource, fragmentSource)`. */
  function NewDescriptor(textureSamplers: map<string, string> := map[], vertexSource: string := "",
                         fragmentSource: string := ""): (d: MaterialDescriptor)
    ensures !d.fetchShader
    ensures d.attributes == ["vPosition", "vNormal", "vColor", "vTexCoord"]
    ensures d.uniforms == ["uM", "uV", "uP", "uMV", "uMVn", "uMVP", "uDirLight"]
    ensures d.textureSamplers == textureSamplers
    ensures d.vertexSource == vertexSource && d.fragmentSource == fragmentSource
  {
    MaterialDescriptor(false, vertexSource, fragmentSource,
                       ["vPosition", "vNormal", "vColor", "vTexCoord"],
                       ["uM", "uV", "uP", "uMV", "uMVn", "uMVP", "uDirLight"],
                       textureSamplers)
  }

  /** `receiver.copy(m)`: every field of the receiver takes `m`'s value, and
      the receiver is returned. */
  function Copy(receiver: MaterialDescriptor, m: MaterialDescriptor): (r: MaterialDescriptor)
    ensures r == m
  {
    receiver.(fetchShader := m.fetchShader, vertexSource := m.vertexSource,
              fragmentSource := m.fragmentSource, attributes := m.attributes,
              uniforms := m.uniforms, textureSamplers := m.textureSamplers)
  }

  /** `d.clone()`: a default descriptor with `d` copied into it. */
  function Clone(d: MaterialDescriptor): (r: MaterialDescriptor)
    ensures r == d
  {
    Copy(NewDescriptor(), d)
  }
}
