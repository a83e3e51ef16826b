/** The slice of the WebGL API that the editor's shader pipelines use.
    The GL context is an oracle: a record of total functions answering each
    query (shader creation, compile status, link status, locations, texture
    creation). A pipeline returns the GL calls it issued, in order, next to
    its result, so that "X happens before Y" and "Y never happens" can be
    stated about the trace. */
module GL {
  import opened Results

  datatype ShaderKind = VertexShader | FragmentShader

  /** An opaque GL object (shader, program or texture). */
  datatype Handle = Handle(id: nat)

  /** An opaque uniform location. */
  datatype Location = Location(id: nat)

  /** A compile or link status together with the info log on failure. */
  datatype Status = Passed | Failed(infoLog: string)

  datatype Context = Context(
    /** `createShader(kind)`; `None` models a null return. */
    createShader: ShaderKind -> Option<Handle>,
    /** `COMPILE_STATUS` (and `getShaderInfoLog`) after compiling a source. */
    compile: (Handle, string) -> Status,
    /** `createProgram()`; `None` models a null return. */
    createProgram: Option<Handle>,
    /** `LINK_STATUS` (and `getProgramInfoLog`) of a program linked from two shaders. */
    link: (Handle, Handle, Handle) -> Status,
    /** `getAttribLocation(program, name)`; -1 when the attribute is absent. */
    attribLocation: (Handle, string) -> int,
    /** `getUniformLocation(program, name)`; `None` when the uniform is absent. */
    uniformLocation: (Handle, string) -> Option<Location>,
    /** The texture returned by the i-th `createTexture()` of a compile. */
    createTexture: nat -> Option<Handle>)

  /** The GL calls that change GL state, as recorded in a trace. */
  datatype Call =
    | CreateShader(kind: ShaderKind)
    | ShaderSource(shader: Handle, source: string)
    | CompileShader(shader: Handle)
    | CreateProgram
    | AttachShader(program: Handle, shader: Handle)
    | LinkProgram(program: Handle)
    | UseProgram(program: Handle)
    | GetAttribLocation(name: string)
    | EnableVertexAttribArray(index: int)
    | GetUniformLocation(name: string)
    | Uniform1i(location: Option<Location>, unit: nat)
    | CreateTexture
    | ActiveTexture(unit: nat)
    | BindTexture(texture: Option<Handle>)
    | TexImage2D(width: nat, height: nat)

  /** Calls made after linking, while resolving names or allocating textures. */
  predicate IsBindingCall(c: Call)
  {
    || c.GetAttribLocation? || c.EnableVertexAttribArray? || c.GetUniformLocation?
    || c.Uniform1i? || c.CreateTexture? || c.ActiveTexture? || c.BindTexture? || c.TexImage2D?
  }

  predicate OnlyBindingCalls(calls: seq<Call>)
  {
    forall c :: c in calls ==> IsBindingCall(c)
  }

  /** The outcome of a pipeline (a value or a thrown error) and the calls it made. */
  datatype Run<+T, +E> = Run(result: Result<T, E>, trace: seq<Call>)

  /** The number of occurrences of `c` in a trace. */
  function Count(trace: seq<Call>, c: Call): nat
  {
    if trace == [] then 0 else (if trace[0] == c then 1 else 0) + Count(trace[1..], c)
  }

  lemma {:induction false} CountAppend(a: seq<Call>, b: seq<Call>, c: Call)
    ensures Count(a + b, c) == Count(a, c) + Count(b, c)
  {
    if a != [] {
      assert (a + b)[1..] == a[1..] + b;
      CountAppend(a[1..], b, c);
    } else {
      assert a + b == b;
    }
  }

  // ---------------------------------------------------------------------
  // Building a program: vertex stage, fragment stage, link.

  /** True iff the context creates a shader of this kind and compiles `source` in it. */
  predicate Accepts(gl: Context, kind: ShaderKind, source: string)
  {
    gl.createShader(kind).Some? && gl.compile(gl.createShader(kind).value, source).Passed?
  }

  /** True iff, once both stages compiled, a program is created and links. */
  predicate Links(gl: Context)
    requires gl.createShader(VertexShader).Some? && gl.createShader(FragmentShader).Some?
  {
    gl.createProgram.Some?
    && gl.link(gl.createProgram.value, gl.createShader(VertexShader).value,
               gl.createShader(FragmentShader).value).Passed?
  }

  /** The messages a pipeline throws. `linkFailed == None` means the program
      info log itself is thrown. A stage that does not compile always throws
      its shader info log. */
  datatype Messages = Messages(
    vertexNotCreated: string,
    fragmentNotCreated: string,
    programNotCreated: string,
    linkFailed: Option<string>)

  datatype Linked = Linked(vertexShader: Handle, fragmentShader: Handle, program: Handle)

  /** Creates and compiles one shader stage. */
  function CompileStage(gl: Context, kind: ShaderKind, source: string, notCreated: string): (r: Run<Handle, string>)
    ensures r.result.Ok? <==> Accepts(gl, kind, source)
    ensures r.result.Ok? ==> gl.createShader(kind) == Some(r.result.value)
    ensures gl.createShader(kind).None? ==> r.result == Err(notCreated)
    ensures gl.createShader(kind).Some? && !Accepts(gl, kind, source) ==>
              r.result == Err(gl.compile(gl.createShader(kind).value, source).infoLog)
    ensures |r.trace| > 0 && r.trace[0] == CreateShader(kind)
    ensures forall c :: c in r.trace ==> c == CreateShader(kind) || c.ShaderSource? || c.CompileShader?
  {
    match gl.createShader(kind)
    case None => Run(Err(notCreated), [CreateShader(kind)])
    case Some(shader) =>
      var calls := [CreateShader(kind), ShaderSource(shader, source), CompileShader(shader)];
      match gl.compile(shader, source)
      case Failed(log) => Run(Err(log), calls)
      case Passed => Run(Ok(shader), calls)
  }

  /** Compiles the vertex stage, then the fragment stage, then creates and
      links the program; the first failure throws and nothing later happens. */
  function BuildProgram(gl: Context, vertexSource: string, fragmentSource: string, msg: Messages): (r: Run<Linked, string>)
    // Each stage is attempted exactly when every earlier one succeeded.
    ensures CreateShader(FragmentShader) in r.trace <==> Accepts(gl, VertexShader, vertexSource)
    ensures CreateProgram in r.trace <==>
              Accepts(gl, VertexShader, vertexSource) && Accepts(gl, FragmentShader, fragmentSource)
    ensures r.result.Ok? <==>
              && Accepts(gl, VertexShader, vertexSource)
              && Accepts(gl, FragmentShader, fragmentSource)
              && Links(gl)
    // The error thrown by each failing stage.
    ensures gl.createShader(VertexShader).None? ==> r.result == Err(msg.vertexNotCreated)
    ensures gl.createShader(VertexShader).Some? && !Accepts(gl, VertexShader, vertexSource) ==>
              r.result == Err(gl.compile(gl.createShader(VertexShader).value, vertexSource).infoLog)
    ensures Accepts(gl, VertexShader, vertexSource) && gl.createShader(FragmentShader).None? ==>
              r.result == Err(msg.fragmentNotCreated)
    ensures (Accepts(gl, VertexShader, vertexSource) && gl.createShader(FragmentShader).Some?
             && !Accepts(gl, FragmentShader, fragmentSource)) ==>
              r.result == Err(gl.compile(gl.createShader(FragmentShader).value, fragmentSource).infoLog)
    ensures (Accepts(gl, VertexShader, vertexSource) && Accepts(gl, FragmentShader, fragmentSource)
             && gl.createProgram.None?) ==> r.result == Err(msg.programNotCreated)
    ensures (Accepts(gl, VertexShader, vertexSource) && Accepts(gl, FragmentShader, fragmentSource)
             && gl.createProgram.Some? && !Links(gl)) ==>
              r.result == Err(
                if msg.linkFailed.Some? then msg.linkFailed.value
                else gl.link(gl.createProgram.value, gl.createShader(VertexShader).value,
                             gl.createShader(FragmentShader).value).infoLog)
    // A successful build hands out exactly the objects the context created.
    ensures r.result.Ok? ==>
              && gl.createShader(VertexShader) == Some(r.result.value.vertexShader)
              && gl.createShader(FragmentShader) == Some(r.result.value.fragmentShader)
              && gl.createProgram == Some(r.result.value.program)
    // Building never resolves a name or touches a texture.
    ensures forall c :: c in r.trace ==> !IsBindingCall(c)
  {
    var vs := CompileStage(gl, VertexShader, vertexSource, msg.vertexNotCreated);
    if vs.result.Err? then Run(Err(vs.result.error), vs.trace)
    else
      var fs := CompileStage(gl, FragmentShader, fragmentSource, msg.fragmentNotCreated);
      var upToFragment := vs.trace + fs.trace;
      if fs.result.Err? then Run(Err(fs.result.error), upToFragment)
      else
        match gl.createProgram
        case None => Run(Err(msg.programNotCreated), upToFragment + [CreateProgram])
        case Some(program) =>
          var calls := upToFragment + [CreateProgram, AttachShader(program, vs.result.value),
                                       AttachShader(program, fs.result.value), LinkProgram(program)];
          match gl.link(program, vs.result.value, fs.result.value)
          case Failed(log) =>
            Run(Err(if msg.linkFailed.Some? then msg.linkFailed.value else log), calls)
          case Passed => Run(Ok(Linked(vs.result.value, fs.result.value, program)), calls)
  }

  // ---------------------------------------------------------------------
  // Resolving a list of names after linking.

  /** What one iteration of a resolving loop finds for a name, and the calls it makes. */
  datatype Step<+L> = Step(value: L, calls: seq<Call>)

  /** A table filled by a resolving loop and the calls the loop made. */
  datatype Bound<+L> = Bound(table: map<string, L>, trace: seq<Call>)

  /** The loop `for (i = from; ...) { table[names[i]] = <found>; <calls> }` over
      `names`, iteration i doing what `step(i, names[i])` says. */
  function Resolve<L>(step: (nat, string) -> Step<L>, names: seq<string>, from: nat,
                      table: map<string, L>): Bound<L>
    decreases |names|
  {
    if names == [] then Bound(table, [])
    else
      var s := step(from, names[0]);
      var rest := Resolve(step, names[1..], from + 1, table[names[0] := s.value]);
      Bound(rest.table, s.calls + rest.trace)
  }

  /** The loop's table has the original keys and every listed name; a key the
      loop does not visit keeps its value. */
  lemma {:induction false} ResolveTable<L>(step: (nat, string) -> Step<L>, names: seq<string>, from: nat,
                                           table: map<string, L>)
    ensures Resolve(step, names, from, table).table.Keys == table.Keys + Elements(names)
    ensures forall k :: k in table && k !in names ==> Resolve(step, names, from, table).table[k] == table[k]
    decreases |names|
  {
    if names != [] {
      var s := step(from, names[0]);
      var table' := table[names[0] := s.value];
      ResolveTable(step, names[1..], from + 1, table');
      assert Elements(names) == {names[0]} + Elements(names[1..]);
      assert Resolve(step, names, from, table).table == Resolve(step, names[1..], from + 1, table').table;
    }
  }

  /** A name's entry holds what the last iteration that visited it found. */
  lemma {:induction false} ResolveLastWins<L>(step: (nat, string) -> Step<L>, names: seq<string>, from: nat,
                                              table: map<string, L>, j: nat)
    requires j < |names| && names[j] !in names[j + 1..]
    ensures names[j] in Resolve(step, names, from, table).table
    ensures Resolve(step, names, from, table).table[names[j]] == step(from + j, names[j]).value
    decreases |names|
  {
    var s := step(from, names[0]);
    var table' := table[names[0] := s.value];
    var rest := Resolve(step, names[1..], from + 1, table');
    assert Resolve(step, names, from, table).table == rest.table;
    if j == 0 {
      ResolveTable(step, names[1..], from + 1, table');
      assert names[0] in table' && names[0] !in names[1..];
    } else {
      var tail := names[1..];
      assert tail[j - 1] == names[j] && tail[j..] == names[j + 1..];
      ResolveLastWins(step, tail, from + 1, table', j - 1);
    }
  }

  /** The calls of every iteration appear in the loop's trace. */
  lemma {:induction false} ResolveIssues<L>(step: (nat, string) -> Step<L>, names: seq<string>, from: nat,
                                            table: map<string, L>, j: nat)
    requires j < |names|
    ensures forall c :: c in step(from + j, names[j]).calls ==> c in Resolve(step, names, from, table).trace
    decreases |names|
  {
    if j > 0 {
      var s := step(from, names[0]);
      assert names[1..][j - 1] == names[j];
      ResolveIssues(step, names[1..], from + 1, table[names[0] := s.value], j - 1);
    }
  }

  /** When every iteration issues `c` exactly `n` times, the loop issues it `n` times per name. */
  lemma {:induction false} ResolveCount<L>(step: (nat, string) -> Step<L>, names: seq<string>, from: nat,
                                           table: map<string, L>, c: Call, n: nat)
    requires forall i, k :: Count(step(i, k).calls, c) == n
    ensures Count(Resolve(step, names, from, table).trace, c) == n * |names|
    decreases |names|
  {
    if names != [] {
      var s := step(from, names[0]);
      var rest := Resolve(step, names[1..], from + 1, table[names[0] := s.value]);
      ResolveCount(step, names[1..], from + 1, table[names[0] := s.value], c, n);
      assert Resolve(step, names, from, table).trace == s.calls + rest.trace;
      CountBlocks(s.calls, rest.trace, c, n, |names[1..]|);
    } else {
      assert Resolve(step, names, from, table).trace == [];
    }
  }

  lemma CountBlocks(block: seq<Call>, rest: seq<Call>, c: Call, n: nat, m: nat)
    requires Count(block, c) == n && Count(rest, c) == n * m
    ensures Count(block + rest, c) == n * (m + 1)
  {
    CountAppend(block, rest, c);
  }

  /** A resolving loop makes binding calls only, when each iteration does. */
  lemma {:induction false} ResolveOnlyBinds<L>(step: (nat, string) -> Step<L>, names: seq<string>, from: nat,
                                               table: map<string, L>)
    requires forall i, k :: OnlyBindingCalls(step(i, k).calls)
    ensures OnlyBindingCalls(Resolve(step, names, from, table).trace)
    decreases |names|
  {
    if names != [] {
      var s := step(from, names[0]);
      var rest := Resolve(step, names[1..], from + 1, table[names[0] := s.value]);
      ResolveOnlyBinds(step, names[1..], from + 1, table[names[0] := s.value]);
      assert Resolve(step, names, from, table).trace == s.calls + rest.trace;
    } else {
      assert Resolve(step, names, from, table).trace == [];
    }
  }

  /** A name's entry holds what any iteration would find for it, when what is
      found does not depend on the iteration. */
  lemma {:induction false} ResolveFinds<L>(step: (nat, string) -> Step<L>, names: seq<string>, from: nat,
                                           table: map<string, L>, k: string)
    requires k in names
    requires forall i: nat :: step(i, k).value == step(0, k).value
    ensures k in Resolve(step, names, from, table).table
    ensures Resolve(step, names, from, table).table[k] == step(0, k).value
    decreases |names|
  {
    var s := step(from, names[0]);
    var table' := table[names[0] := s.value];
    assert Resolve(step, names, from, table).table == Resolve(step, names[1..], from + 1, table').table;
    if k in names[1..] {
      ResolveFinds(step, names[1..], from + 1, table', k);
    } else {
      ResolveTable(step, names[1..], from + 1, table');
      assert names[0] == k;
    }
  }

  // ---------------------------------------------------------------------
  // The iterations shared by the shader pipelines.

  /** `location = getAttribLocation(program, name); <table>[name] = location;
      enableVertexAttribArray(location)`. */
  function AttributeStep(gl: Context, program: Handle): (nat, string) -> Step<int>
  {
    (i: nat, name: string) =>
      Step(gl.attribLocation(program, name),
           [GetAttribLocation(name), EnableVertexAttribArray(gl.attribLocation(program, name))])
  }

  /** `<table>[name] = getUniformLocation(program, name)`. */
  function UniformStep(gl: Context, program: Handle): (nat, string) -> Step<Option<Location>>
  {
    (i: nat, name: string) => Step(gl.uniformLocation(program, name), [GetUniformLocation(name)])
  }

  /** Resolving attributes fills every listed name with its location and enables it. */
  lemma AttributesResolved(gl: Context, program: Handle, names: seq<string>, table: map<string, int>)
    ensures var r := Resolve(AttributeStep(gl, program), names, 0, table);
            && r.table.Keys == table.Keys + Elements(names)
            && (forall k :: k in names ==> r.table[k] == gl.attribLocation(program, k))
            && (forall k :: k in names ==> EnableVertexAttribArray(gl.attribLocation(program, k)) in r.trace)
            && OnlyBindingCalls(r.trace)
  {
    var step := AttributeStep(gl, program);
    var r := Resolve(step, names, 0, table);
    ResolveTable(step, names, 0, table);
    forall k | k in names
      ensures r.table[k] == gl.attribLocation(program, k)
      ensures EnableVertexAttribArray(gl.attribLocation(program, k)) in r.trace
    {
      ResolveFinds(step, names, 0, table, k);
      var j :| 0 <= j < |names| && names[j] == k;
      ResolveIssues(step, names, 0, table, j);
      assert EnableVertexAttribArray(gl.attribLocation(program, k)) in step(j, names[j]).calls;
    }
    forall i, k ensures OnlyBindingCalls(step(i, k).calls) {
    }
    ResolveOnlyBinds(step, names, 0, table);
  }

  /** Resolving uniforms fills every listed name with its (possibly absent) location. */
  lemma UniformsResolved(gl: Context, program: Handle, names: seq<string>, table: map<string, Option<Location>>)
    ensures var r := Resolve(UniformStep(gl, program), names, 0, table);
            && r.table.Keys == table.Keys + Elements(names)
            && (forall k :: k in names ==> r.table[k] == gl.uniformLocation(program, k))
            && OnlyBindingCalls(r.trace)
  {
    var step := UniformStep(gl, program);
    ResolveTable(step, names, 0, table);
    forall k | k in names
      ensures Resolve(step, names, 0, table).table[k] == gl.uniformLocation(program, k)
    {
      ResolveFinds(step, names, 0, table, k);
    }
    forall i, k ensures OnlyBindingCalls(step(i, k).calls) {
    }
    ResolveOnlyBinds(step, names, 0, table);
  }

  /** A call that does not occur in a trace is counted zero times. */
  lemma {:induction false} CountAbsent(trace: seq<Call>, c: Call)
    requires c !in trace
    ensures Count(trace, c) == 0
  {
    if trace != [] {
      assert trace[0] != c;
      CountAbsent(trace[1..], c);
    }
  }
}
