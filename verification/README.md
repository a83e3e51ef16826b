# White-Dwarf editor core, modelled in Dafny

This project models three pieces of the White-Dwarf editor's sequential logic and proves properties about them:

- **The transform gizmo** (`EditorViewPortWebGLTransformSystem`).
  - Each frame it picks the axis tip nearest the pointer. A tip qualifies only when it is strictly closer than 10 px, and ties go to x before y before z.
  - It enlarges the hovered tip.
  - It turns pointer movement along the dragged axis into a change of one position coordinate.
  - Its `compileShader` builds the point and line shader programs and resolves their attribute and uniform locations.
  - `init` uploads fixed vertex, size and colour tables.
- **`Material`** (`Material.ts`).
  - The staged `compile` pipeline: vertex shader, fragment shader, program, link, `useProgram`, then attribute, uniform and sampler locations and one 1x1 placeholder texture per sampler.
  - The constructor, which stores its arguments and compiles only when it has a context.
  - `MaterialDescriptor`: its defaults, `copy` and `clone`.
- **The entity inspector** (`EditorInspectorSystem`).
  - The selection setter.
  - The filter that decides which component fields are shown.
  - The edit handler that merges parsed text back into a component.
  - The "Add Component" lookup.

WebGL is an oracle, the record `GL.Context`. It is made of total functions that answer shader creation, compile status, link status, locations and texture creation. Each pipeline returns its result together with the trace of GL calls it issued. "Stage B happens only after stage A succeeded" is stated as "B's first call is in the trace exactly when A succeeded". Geometry uses `real`. The frame compares squared viewport distances against 10 squared. A lemma shows this selects the same axis as the source's Euclidean distances against 10. Inspector values are a JSON-like `Value` datatype. A component is a sequence of (key, value) fields in own-key order.

Modules, one per file:

- `Results`: `Option`, `Result`, and distinctness of sequences.
- `GL`: the oracle and the trace. It also holds the shared compile pipeline `BuildProgram` and the shared name-resolving loop `Resolve`.
- `GizmoGeometry`: axes, vectors and the static tables.
- `GizmoControl`: hover, drag and one frame of `drawInspectEntity`.
- `GizmoShader`: the gizmo's `compileShader`.
- `Materials`: `Material` and `MaterialDescriptor`.
- `Inspector`: the inspector's data logic.

Where the code departs from the intended behaviour, the model follows the code:

- The code colours the y axis blue and the z axis green, rather than the usual red, green, blue for x, y, z.
- The code does not guard the division by the squared length of the projected axis. Here a non-zero length is a precondition, `DragDefined`.
- `Material.compile` throws the fixed message "Failed to link shader program" on a link failure. The gizmo's `compileShader` throws the program info log.

## Model

| member | source | states |
|---|---|---|
| GizmoGeometry.AxisIndex | src/Editor/System/EditorViewPortWebGlSystems/EditorViewPortWebGLTransformSystem.ts:298-310 | the dragged axis x, y, z moves coordinate 0, 1, 2 (always below 3) |
| GizmoGeometry.AxisAt | src/Editor/System/EditorViewPortWebGlSystems/EditorViewPortWebGLTransformSystem.ts:298-310 | coordinate i below 3 is moved by exactly one axis, the inverse of AxisIndex |
| GizmoGeometry.AxisIndexInjective | src/Editor/System/EditorViewPortWebGlSystems/EditorViewPortWebGLTransformSystem.ts:298-310 | distinct axes move distinct coordinates |
| GizmoGeometry.ParseAxis | src/Editor/System/EditorViewPortWebGlSystems/EditorViewPortWebGLTransformSystem.ts:297-313 | "x", "y", "z" select the axis with that name; every other name selects none (the `default` case) |
| GizmoGeometry.ParseAxisName | src/Editor/System/EditorViewPortWebGlSystems/EditorViewPortWebGLTransformSystem.ts:279-308 | the highlight names "x", "y", "z" parse back to their own axis |
| GizmoGeometry.UnitVector | src/Editor/System/EditorViewPortWebGlSystems/EditorViewPortWebGLTransformSystem.ts:96-105 | the unit end point of an axis is 1 at its own coordinate and 0 at the other two |
| GizmoGeometry.PointVertices | src/Editor/System/EditorViewPortWebGlSystems/EditorViewPortWebGLTransformSystem.ts:60 | the point handle is the single model-space origin |
| GizmoGeometry.PointSizes | src/Editor/System/EditorViewPortWebGlSystems/EditorViewPortWebGLTransformSystem.ts:72 | the point handle has the normal tip size 10 |
| GizmoGeometry.PointColors | src/Editor/System/EditorViewPortWebGlSystems/EditorViewPortWebGLTransformSystem.ts:54 | the point handle is white |
| GizmoGeometry.AxisVertices | src/Editor/System/EditorViewPortWebGlSystems/EditorViewPortWebGLTransformSystem.ts:96-105 | six line vertices; pair i runs from the origin to the unit point of axis i |
| GizmoGeometry.AxisColors | src/Editor/System/EditorViewPortWebGlSystems/EditorViewPortWebGLTransformSystem.ts:117-126 | both vertices of pair i carry axis i's colour: x red, y blue, z green |
| GizmoGeometry.AxisTipVertices | src/Editor/System/EditorViewPortWebGlSystems/EditorViewPortWebGLTransformSystem.ts:138-144 | tip i is the second vertex of line pair i |
| GizmoGeometry.AxisTipSizes | src/Editor/System/EditorViewPortWebGlSystems/EditorViewPortWebGLTransformSystem.ts:156 | before any hover all three tips have size 10 |
| GizmoGeometry.AxisTipColors | src/Editor/System/EditorViewPortWebGlSystems/EditorViewPortWebGLTransformSystem.ts:168-174 | tip i has the colour of both vertices of line pair i |
| GizmoControl.Min3 | src/Editor/System/EditorViewPortWebGlSystems/EditorViewPortWebGLTransformSystem.ts:271 | `Math.min` of three: at most each argument and equal to one of them |
| GizmoControl.NearestAxis | src/Editor/System/EditorViewPortWebGlSystems/EditorViewPortWebGLTransformSystem.ts:271-294 | axis a is highlighted iff its distance is below the limit, no tip is closer and no earlier axis is as close; nothing is highlighted iff all three are at least the limit; tip i is 20 exactly at the highlighted index and 10 elsewhere |
| GizmoControl.SameOrderSameHover | src/Editor/System/EditorViewPortWebGlSystems/EditorViewPortWebGLTransformSystem.ts:271-294 | the selection depends only on how the distances compare with each other and with the limit |
| GizmoControl.SquaredSelectsSameAxis | src/Editor/System/EditorViewPortWebGlSystems/EditorViewPortWebGLTransformSystem.ts:258-294 | for non-negative distances, squared distances against the squared limit give the same highlight and tip sizes |
| GizmoControl.TipDistances | src/Editor/System/EditorViewPortWebGlSystems/EditorViewPortWebGLTransformSystem.ts:258-269 | each entry is the squared viewport distance from the pointer to that axis's projected tip |
| GizmoControl.DraggedAxis | src/Editor/System/EditorViewPortWebGlSystems/EditorViewPortWebGLTransformSystem.ts:297-313 | a dragged axis is the one whose name `movingAxis` holds; no axis is dragged when it is null or names none of "x", "y", "z" |
| GizmoControl.AxisMove | src/Editor/System/EditorViewPortWebGlSystems/EditorViewPortWebGLTransformSystem.ts:611-622 | the drag amount times the squared axis length equals the dot product of the axis with the pointer delta; `AxisMoveAlongAxis`, `AxisMovePerpendicular`, `AxisMoveLinear` and `AxisMoveScaleInvariant` state what that means |
| GizmoControl.AxisMoveAlongAxis | src/Editor/System/EditorViewPortWebGlSystems/EditorViewPortWebGLTransformSystem.ts:610-622 | moving the pointer t projected unit axes along the axis gives a drag amount of t |
| GizmoControl.AxisMovePerpendicular | src/Editor/System/EditorViewPortWebGlSystems/EditorViewPortWebGLTransformSystem.ts:610-622 | pointer movement orthogonal to the projected axis gives a drag amount of 0 |
| GizmoControl.AxisMoveLinear | src/Editor/System/EditorViewPortWebGlSystems/EditorViewPortWebGLTransformSystem.ts:618-622 | the drag amount is linear in the pointer delta |
| GizmoControl.AxisMoveScaleInvariant | src/Editor/System/EditorViewPortWebGlSystems/EditorViewPortWebGLTransformSystem.ts:618-622 | scaling axis direction and pointer delta by the same non-zero k leaves the drag amount unchanged |
| GizmoControl.MoveAxis | src/Editor/System/EditorViewPortWebGlSystems/EditorViewPortWebGLTransformSystem.ts:610-627 | with an inspected transform, only coordinate `axisIndex` changes, by dot(axisDir, delta)/\|axisDir\|^2; with none, nothing is moved |
| GizmoControl.DrawInspectEntity | src/Editor/System/EditorViewPortWebGlSystems/EditorViewPortWebGLTransformSystem.ts:255-325 | outside the canvas nothing changes; inside, the highlight satisfies the nearest-axis rule on the three tip distances, exactly one tip is 20 iff an axis is highlighted (all others 10), and only the dragged axis's coordinate moves, by that axis's drag amount; without a drag the position is unchanged |
| GizmoControl.FrameMatchesEuclideanSelection | src/Editor/System/EditorViewPortWebGlSystems/EditorViewPortWebGLTransformSystem.ts:256-294 | a frame in the canvas highlights the axis, and uploads the tip sizes, that the strict 10 px test on Euclidean distances selects |
| GizmoControl.DragScenario | src/Editor/System/EditorViewPortWebGlSystems/EditorViewPortWebGLTransformSystem.ts:255-325 | a concrete frame: pointer 2 px beyond the x tip moving 2 px right while dragging x highlights x, sizes [20,10,10] and moves x by 0.2 |
| GL.CompileStage | src/Editor/System/EditorViewPortWebGlSystems/EditorViewPortWebGLTransformSystem.ts:531-549 | a stage succeeds iff its shader is created and compiles; a missing shader throws the given message, a compile failure throws the shader info log; the stage starts with `createShader` |
| GL.BuildProgram | src/Editor/System/EditorViewPortWebGlSystems/EditorViewPortWebGLTransformSystem.ts:531-588 | the fragment shader is created iff the vertex stage passed; the program is created iff both passed; success iff both passed and the program links; each failure's message; success returns the created shader and program handles; no name is resolved |
| GL.Resolve | src/Core/Render/Material.ts:141-194 | the shared name loop; its contract is stated by `GL.ResolveTable`, `GL.ResolveLastWins`, `GL.ResolveIssues`, `GL.ResolveCount`, `GL.ResolveOnlyBinds` and `GL.ResolveFinds` |
| GL.ResolveTable | src/Editor/System/EditorViewPortWebGlSystems/EditorViewPortWebGLTransformSystem.ts:591-600 | the loop's table has exactly the original keys plus every listed name; keys not listed keep their value |
| GL.ResolveLastWins | src/Core/Render/Material.ts:165-194 | a name's entry is what its last visiting iteration found |
| GL.ResolveIssues | src/Core/Render/Material.ts:165-194 | the calls of every iteration appear in the loop's trace |
| GL.ResolveCount | src/Core/Render/Material.ts:174-194 | when each iteration issues a call n times, the loop issues it n times per listed name |
| GL.ResolveOnlyBinds | src/Editor/System/EditorViewPortWebGlSystems/EditorViewPortWebGLTransformSystem.ts:591-600 | the loop issues only location and texture calls when each iteration does |
| GL.ResolveFinds | src/Editor/System/EditorViewPortWebGlSystems/EditorViewPortWebGLTransformSystem.ts:591-600 | when what is found does not depend on the iteration, every listed name's entry is that value |
| GL.AttributeStep | src/Editor/System/EditorViewPortWebGlSystems/EditorViewPortWebGLTransformSystem.ts:590-595 | one attribute iteration; `GL.AttributesResolved` states that the loop maps each attribute to its location and enables it |
| GL.UniformStep | src/Editor/System/EditorViewPortWebGlSystems/EditorViewPortWebGLTransformSystem.ts:597-600 | one uniform iteration; `GL.UniformsResolved` states that the loop maps each uniform to its location |
| GL.AttributesResolved | src/Editor/System/EditorViewPortWebGlSystems/EditorViewPortWebGLTransformSystem.ts:591-595 | each listed attribute maps to `getAttribLocation` of the program, and each of those locations is enabled |
| GL.UniformsResolved | src/Editor/System/EditorViewPortWebGlSystems/EditorViewPortWebGLTransformSystem.ts:597-600 | each listed uniform maps to `getUniformLocation` of the program |
| GizmoShader.Placeholders | src/Editor/System/EditorViewPortWebGlSystems/EditorViewPortWebGLTransformSystem.ts:14-37 | the initial dictionaries have exactly the listed keys, each holding the placeholder |
| GizmoShader.CompileShader | src/Editor/System/EditorViewPortWebGlSystems/EditorViewPortWebGLTransformSystem.ts:525-603 | vertex failure stops before the fragment shader is created; fragment failure stops before the program is created; success iff all stages pass and the program links; each failure's message, the link failure's being the program info log; a failure resolves no name; on success every dictionary key is overwritten with its location and every attribute is enabled |
| GizmoShader.ResolveLocations | src/Editor/System/EditorViewPortWebGlSystems/EditorViewPortWebGLTransformSystem.ts:590-600 | every dictionary key is overwritten with its location, no key is added, every attribute location is enabled, and only location calls are made |
| GizmoShader.AfterLinking | src/Editor/System/EditorViewPortWebGlSystems/EditorViewPortWebGLTransformSystem.ts:577-600 | appending the location loops to a build trace adds no shader or program creation and keeps every loop call |
| GizmoShader.CompilePointShader | src/Editor/System/EditorViewPortWebGlSystems/EditorViewPortWebGLTransformSystem.ts:187-192 | the point program's tables have the keys vPosition, vSize, vColor and uMV, uP, uMVn, uMVP |
| GizmoShader.CompileAxisShader | src/Editor/System/EditorViewPortWebGlSystems/EditorViewPortWebGLTransformSystem.ts:194-199 | the line program's tables have the keys vPosition, vColor and uMV, uP, uMVn, uMVP |
| Materials.SamplerTable | src/Core/Render/Material.ts:164-172 | every sampler name maps to its uniform location |
| Materials.SamplerStep | src/Core/Render/Material.ts:164-172 | one sampler iteration; `Materials.SamplerTable` and `Materials.BindUnits` state that sampler i maps to its location and is set to unit i |
| Materials.TextureKeys | src/Core/Render/Material.ts:174-194 | one texture entry per sampler name; for distinct names as many entries as samplers |
| Materials.TextureOfSampler | src/Core/Render/Material.ts:174-194 | for distinct names, sampler i holds the i-th texture created |
| Materials.TexturesOfSamplers | src/Core/Render/Material.ts:174-194 | for distinct names, every sampler i holds the i-th texture created |
| Materials.TextureStep | src/Core/Render/Material.ts:174-194 | one texture iteration; `Materials.TextureStepCount` and `Materials.TextureOfSampler` state that it makes one texture and one 1x1 image and that sampler i holds the i-th texture |
| Materials.StepCounts | src/Core/Render/Material.ts:141-194 | each attribute, uniform and sampler iteration creates no texture and no image, and every iteration makes binding calls only |
| Materials.TextureStepCount | src/Core/Render/Material.ts:174-194 | each texture iteration creates one texture and one 1x1 image |
| Materials.LoopCounts | src/Core/Render/Material.ts:141-194 | the four loops together create one texture and one 1x1 image per sampler entry |
| Materials.Bind | src/Core/Render/Material.ts:141-194 | every requested attribute, uniform and sampler has an entry holding its location; for distinct sampler names, sampler i holds texture i |
| Materials.BindUnits | src/Core/Render/Material.ts:164-172 | the loops set sampler i to texture unit i |
| Materials.BindCounts | src/Core/Render/Material.ts:141-194 | the loops create exactly one texture and one 1x1 image per sampler entry |
| Materials.BindOnlyBinds | src/Core/Render/Material.ts:141-194 | the loops make location, uniform and texture calls only, never a shader or program call |
| Materials.AfterLinking | src/Core/Render/Material.ts:139-194 | `useProgram` and the loops add no shader stage and no texture to the build trace |
| Materials.Compile | src/Core/Render/Material.ts:82-195 | vertex failure aborts before the fragment shader, fragment failure before the program; each failure's message, the link failure's being "Failed to link shader program"; a failure neither uses the program nor resolves any name; on success the program is used, every attribute, uniform and sampler name has an entry, sampler i is set to unit i, one 1x1 texture is made per sampler, and for distinct names sampler i holds texture i |
| Materials.NewMaterial | src/Core/Render/Material.ts:47-80 | the stored sources and lists are the arguments (an empty list keeps the empty default); without a context nothing is compiled and the program stays null; with one the constructor succeeds iff every compile stage does and then holds the created program and shaders, the location of every attribute, uniform and sampler name, and for distinct sampler names the i-th texture created at sampler i |
| Materials.NewDescriptor | src/Core/Render/Material.ts:244-260 | fetchShader is false, the attributes are vPosition, vNormal, vColor, vTexCoord, the seven uniforms are uM, uV, uP, uMV, uMVn, uMVP, uDirLight, and the samplers and sources are the arguments (none and "" by default) |
| Materials.Copy | src/Core/Render/Material.ts:262-270 | the returned receiver equals the copied descriptor in all six fields |
| Materials.Clone | src/Core/Render/Material.ts:272-274 | a clone equals the original fieldwise |
| Inspector.UpdateEntityInspector | src/Editor/System/EditorInspectorSystem.ts:26-30 | the inspected entity becomes the argument, including null |
| Inspector.ComponentEntries | src/Editor/System/EditorInspectorSystem.ts:165-177 | a field is kept iff it is an own field of the component whose key the schema declares with a type other than Ref; kept fields carry the component's own value |
| Inspector.EntriesInOrder | src/Editor/System/EditorInspectorSystem.ts:170-176 | the kept fields follow the component's own key order |
| Inspector.EntriesUnique | src/Editor/System/EditorInspectorSystem.ts:169-177 | the kept fields have distinct keys, one per serialised entry |
| Inspector.SetField | src/Editor/System/EditorInspectorSystem.ts:100 | `component[key] = value`; `Inspector.SetFieldLookup` and `Inspector.SetFieldKeys` state that the key then holds the value, every other key keeps its value, and an existing key keeps its place |
| Inspector.SetFieldLookup | src/Editor/System/EditorInspectorSystem.ts:100 | after `component[key] = value` the key holds the value and every other key holds what it held |
| Inspector.SetFieldKeys | src/Editor/System/EditorInspectorSystem.ts:100 | an existing key keeps its place among the own keys; a new key is added after all others |
| Inspector.Merge | src/Editor/System/EditorInspectorSystem.ts:98-101 | every parsed key overwrites its field; every field absent from the parsed object is unchanged |
| Inspector.EditedText | src/Editor/System/EditorInspectorSystem.ts:98 | a null or empty text reads as "{}"; any other text is parsed as it is |
| Inspector.OnInput | src/Editor/System/EditorInspectorSystem.ts:95-106 | a parse failure leaves the component unchanged; a successful parse overwrites exactly the parsed keys |
| Inspector.EmptyEditChangesNothing | src/Editor/System/EditorInspectorSystem.ts:98 | an empty or null text box leaves every field as it was |
| Inspector.FindByName | src/Editor/System/EditorInspectorSystem.ts:148-150 | returns the first registered type with the name, or none exactly when no type has it |
| Inspector.OnAddComponent | src/Editor/System/EditorInspectorSystem.ts:143-158 | the first registered type with the selected name is added and the entity re-selected; with no match the entity and the selection are unchanged |

## Left out

- WebGL buffer creation and upload, `vertexAttribPointer`, `drawArrays`, depth-test toggling and `setUniforms` are not modelled. They are foreign calls with no effect on the modelled state. The static tables are modelled as the values uploaded.
- Matrix products and projections (`mat4.multiply`, `mat3.normalFromMat4`, `vec3.transformMat4`) come from gl-matrix, which is not part of this model. The frame takes the projected origin and end points as inputs.
- IEEE floating point is not modelled: NaN, rounding and `Float32Array` storage. Reals are used instead.
- `vec2.distance`'s square root is not modelled. The frame compares squared distances, and `GizmoControl.FrameMatchesEuclideanSelection` connects them to the distances.
- The fourth branch of the hover chain, which would leave `highlightAxis` as it was, is unreachable: on reals the minimum always equals one of the distances, and with a NaN distance the minimum is NaN and the `else` branch runs. `GizmoControl.NearestAxis` proves the branch unreachable (`assert false`).
- GizmoControl.MoveAxis: requires a non-zero squared length of the projected axis. The source divides without a guard.
- GizmoControl.DrawInspectEntity: requires the same non-zero squared length (`DragDefined`) for the same reason.
- Where `mouseInCanvas`, `mousePosition`, `mouseDelta` and `movingAxis` are set is not modelled. That is the viewport base system, which is not part of this model. They are frame inputs. An empty `movingAxis` is treated like null.
- The `getMutableComponent` change notification after a drag is not modelled; it is an ecsy internal.
- That `init` compiles the point program before the line program is not modelled, nor what happens to the second compile when the first throws. Each compile is modelled on its own.
- `Material.use` and `Material.loadTexture` are not modelled. `use` is a single foreign call. `loadTexture` is an asynchronous DOM image load.
- Materials.Compile: models a freshly constructed material, whose location tables start empty. Calling `compile` a second time, which would merge into non-empty tables, is not modelled.
- Materials.NewMaterial: on a thrown error, no material is returned. The fields that `compile` set before throwing cannot be observed.
- Materials.Copy: the copy shares the attribute and uniform arrays and the sampler object with the source. Sequences here are values, so aliasing is not modelled.
- Materials.Compile: the state of `textureBuffers` for repeated sampler names is stated only for distinct names. For a repeated name, `GL.ResolveLastWins` gives the last texture created for it.
- The `MaterialDescriptorType` registration with ecsy's `copyCopyable` and `cloneClonable` is not modelled; it is library glue.
- DOM construction in `displayEntityInspector` is not modelled: the inspector panels, the remove button, and the `onComponentChanged` refresh of the text box.
- `JSON.parse` and `JSON.stringify` formatting are not modelled. Parsing is an oracle `string -> Parse`. Stringifying is replaced by the sequence of shown entries.
- Inspector.SetFieldKeys: states that a new key is added after all others. JavaScript instead orders integer-like keys ahead of string keys, so adding "0" to an object with key "a" gives own keys "0", "a". The same holds for the keys `Inspector.Merge` and `Inspector.OnInput` add; their lookup properties do not depend on key order.
- Inspector.ComponentEntries: JavaScript's ordering of integer-like keys ahead of other keys is not modelled. Own keys are taken in the order given.
- The `console.error` of a parse failure and of a missing component type, and the `console.log` of the selected name, are not modelled. They are logging with no effect on the modelled state.
- Inspector.OnAddComponent: ecsy's `addComponent` is modelled as appending the type. Its handling of a type already on the entity is not part of this model.
