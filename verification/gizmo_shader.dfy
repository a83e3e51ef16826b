/** The transform gizmo's `compileShader`: build a program from a vertex and a
    fragment source, then overwrite every entry of the attribute and uniform
    dictionaries with the location the linked program reports. */
module GizmoShader {
  import opened Results
  import opened GL

  /** The messages thrown when the context hands out no object; a stage that
      does not compile or link throws the GL info log itself. */
  const GizmoMessages: Messages := Messages(
    "Failed to create point vertex shader.",
    "Failed to create point fragment shader.",
    "Failed to create point shader program.",
    None)

  /** The dictionaries the gizmo starts from, with their key order. */
  const PointAttributeKeys: seq<string> := ["vPosition", "vSize", "vColor"]
  const AxisAttributeKeys: seq<string> := ["vPosition", "vColor"]
  const UniformKeys: seq<string> := ["uMV", "uP", "uMVn", "uMVP"]

  /** A dictionary whose every listed key maps to the placeholder `v`. */
  function Placeholders<V>(keys: seq<string>, v: V): (m: map<string, V>)
    ensures m.Keys == Elements(keys)
    ensures forall k :: k in m ==> m[k] == v
  {
    map k | k in Elements(keys) :: v
  }

  /** A linked program and the dictionaries after the location loops. */
  datatype ShaderBinding = ShaderBinding(
    program: Handle,
    attributes: map<string, int>,
    uniforms: map<string, Option<Location>>)

  /** `compileShader(vertexSource, fragmentSource, attributes, uniforms)`.
      `attributeKeys` and `uniformKeys` are the dictionaries' keys in the
      order `for ... in` visits them. */
  function CompileShader(gl: Context, vertexSource: string, fragmentSource: string,
                         attributeKeys: seq<string>, attributes: map<string, int>,
                         uniformKeys: seq<string>, uniforms: map<string, Option<Location>>)
    : (r: Run<ShaderBinding, string>)
    requires Elements(attributeKeys) == attributes.Keys && Elements(uniformKeys) == uniforms.Keys
    // The vertex stage comes first, the fragment stage second, the program last.
    ensures CreateShader(FragmentShader) in r.trace <==> Accepts(gl, VertexShader, vertexSource)
    ensures CreateProgram in r.trace <==>
              Accepts(gl, VertexShader, vertexSource) && Accepts(gl, FragmentShader, fragmentSource)
    ensures r.result.Ok? <==>
              && Accepts(gl, VertexShader, vertexSource)
              && Accepts(gl, FragmentShader, fragmentSource)
              && Links(gl)
    // What each failure throws.
    ensures gl.createShader(VertexShader).None? ==> r.result == Err("Failed to create point vertex shader.")
    ensures gl.createShader(VertexShader).Some? && !Accepts(gl, VertexShader, vertexSource) ==>
              r.result == Err(gl.compile(gl.createShader(VertexShader).value, vertexSource).infoLog)
    ensures Accepts(gl, VertexShader, vertexSource) && gl.createShader(FragmentShader).None? ==>
              r.result == Err("Failed to create point fragment shader.")
    ensures (Accepts(gl, VertexShader, vertexSource) && gl.createShader(FragmentShader).Some?
             && !Accepts(gl, FragmentShader, fragmentSource)) ==>
              r.result == Err(gl.compile(gl.createShader(FragmentShader).value, fragmentSource).infoLog)
    ensures (Accepts(gl, VertexShader, vertexSource) && Accepts(gl, FragmentShader, fragmentSource)
             && gl.createProgram.None?) ==> r.result == Err("Failed to create point shader program.")
    ensures (Accepts(gl, VertexShader, vertexSource) && Accepts(gl, FragmentShader, fragmentSource)
             && gl.createProgram.Some? && !Links(gl)) ==>
              r.result == Err(gl.link(gl.createProgram.value, gl.createShader(VertexShader).value,
                                      gl.createShader(FragmentShader).value).infoLog)
    // A failed pipeline never reaches the location loops.
    ensures r.result.Err? ==> forall c :: c in r.trace ==> !IsBindingCall(c)
    // A successful one overwrites every key with its resolved location, and enables each attribute.
    ensures r.result.Ok? ==>
              && gl.createProgram == Some(r.result.value.program)
              && r.result.value.attributes.Keys == attributes.Keys
              && r.result.value.uniforms.Keys == uniforms.Keys
              && (forall k :: k in attributes ==>
                    r.result.value.attributes[k] == gl.attribLocation(r.result.value.program, k))
              && (forall k :: k in uniforms ==>
                    r.result.value.uniforms[k] == gl.uniformLocation(r.result.value.program, k))
              && (forall k :: k in attributes ==>
                    EnableVertexAttribArray(gl.attribLocation(r.result.value.program, k)) in r.trace)
  {
    var built := BuildProgram(gl, vertexSource, fragmentSource, GizmoMessages);
    match built.result
    case Err(e) => Run(Err(e), built.trace)
    case Ok(linked) =>
      var l := ResolveLocations(gl, linked.program, attributeKeys, attributes, uniformKeys, uniforms);
      AfterLinking(built.trace, l.trace);
      Run(Ok(ShaderBinding(linked.program, l.attributes, l.uniforms)), built.trace + l.trace)
  }

  /** The dictionaries after the two location loops, and the calls the loops made. */
  datatype Locations = Locations(attributes: map<string, int>, uniforms: map<string, Option<Location>>,
                                 trace: seq<Call>)

  /** The attribute loop and then the uniform loop of `compileShader`. */
  function ResolveLocations(gl: Context, program: Handle, attributeKeys: seq<string>, attributes: map<string, int>,
                            uniformKeys: seq<string>, uniforms: map<string, Option<Location>>): (l: Locations)
    requires Elements(attributeKeys) == attributes.Keys && Elements(uniformKeys) == uniforms.Keys
    ensures l.attributes.Keys == attributes.Keys && l.uniforms.Keys == uniforms.Keys
    ensures forall k :: k in attributes ==> l.attributes[k] == gl.attribLocation(program, k)
    ensures forall k :: k in uniforms ==> l.uniforms[k] == gl.uniformLocation(program, k)
    ensures forall k :: k in attributes ==> EnableVertexAttribArray(gl.attribLocation(program, k)) in l.trace
    ensures OnlyBindingCalls(l.trace)
  {
    var attrs := Resolve(AttributeStep(gl, program), attributeKeys, 0, attributes);
    var unis := Resolve(UniformStep(gl, program), uniformKeys, 0, uniforms);
    AttributesResolved(gl, program, attributeKeys, attributes);
    UniformsResolved(gl, program, uniformKeys, uniforms);
    Locations(attrs.table, unis.table, attrs.trace + unis.trace)
  }

  /** The location loops add no shader stage to a build trace, and the trace
      keeps every call they make. */
  lemma AfterLinking(built: seq<Call>, binds: seq<Call>)
    requires forall c :: c in built ==> !IsBindingCall(c)
    requires OnlyBindingCalls(binds)
    ensures CreateShader(FragmentShader) in built + binds <==> CreateShader(FragmentShader) in built
    ensures CreateProgram in built + binds <==> CreateProgram in built
    ensures forall c :: c in binds ==> c in built + binds
  {
    assert !IsBindingCall(CreateShader(FragmentShader)) && !IsBindingCall(CreateProgram);
  }

  /** `init`'s first call: the point shader, from dictionaries holding -1 and null. */
  function CompilePointShader(gl: Context, vertexSource: string, fragmentSource: string)
    : (r: Run<ShaderBinding, string>)
    ensures r.result.Ok? ==>
              && r.result.value.attributes.Keys == {"vPosition", "vSize", "vColor"}
              && r.result.value.uniforms.Keys == {"uMV", "uP", "uMVn", "uMVP"}
              && r.result.value.attributes["vSize"] == gl.attribLocation(r.result.value.program, "vSize")
  {
    assert Elements(PointAttributeKeys) == {"vPosition", "vSize", "vColor"};
    assert Elements(UniformKeys) == {"uMV", "uP", "uMVn", "uMVP"};
    CompileShader(gl, vertexSource, fragmentSource, PointAttributeKeys, Placeholders(PointAttributeKeys, -1),
                  UniformKeys, Placeholders(UniformKeys, None))
  }

  /** `init`'s second call: the axis-line shader, which has no size attribute. */
  function CompileAxisShader(gl: Context, vertexSource: string, fragmentSource: string)
    : (r: Run<ShaderBinding, string>)
    ensures r.result.Ok? ==>
              && r.result.value.attributes.Keys == {"vPosition", "vColor"}
              && r.result.value.uniforms.Keys == {"uMV", "uP", "uMVn", "uMVP"}
              && r.result.value.attributes["vColor"] == gl.attribLocation(r.result.value.program, "vColor")
  {
    assert Elements(AxisAttributeKeys) == {"vPosition", "vColor"};
    assert Elements(UniformKeys) == {"uMV", "uP", "uMVn", "uMVP"};
    CompileShader(gl, vertexSource, fragmentSource, AxisAttributeKeys, Placeholders(AxisAttributeKeys, -1),
                  UniformKeys, Placeholders(UniformKeys, None))
  }
}
