# Scene viewer core in Dafny

The viewer loads Wavefront OBJ meshes into objects with a placement (position,
angle, scale) and per-group materials. It rebuilds point and spot lights every
frame from the materials that are active light sources, and drives a
first-person camera from the mouse and the W/S/A/D keys. A key handler selects
objects and edits their placement and materials. This project models the
parts of that logic that do not depend on the graphics library.

Modules:

- `Wrappers`: `Option` and `Result`.
- `Vectors`: the glm vectors used, on reals, and componentwise clamping to [0, 1].
- `Materials` (Object.h): `Vertex`, `MaterialGroup` (name, start, count) and `MaterialProperties` with its constructor defaults.
- `ObjTokens` (Object.cpp, `process_vertex`):
  - splitting a face token on `/`, as repeated `std::getline` does;
  - `std::stoi` with its two exceptions;
  - index resolution against the `v`/`vt`/`vn` lists read so far.
- `ObjParser`: LoadOBJ as a specification. It gives one step per line, the file as a left fold (`Fold`), and the closing of the last group (`Load`), with the properties proved about them.
- `Objects` (Object.cpp):
  - `class Object` with the imperative `LoadOBJ` loop, proved equal to `ObjParser.Load`;
  - `Move`, `Scale` and `Rotate` on the placement fields;
  - the cached model matrix that only the constructor and `Draw` rebuild.
- `Cameras` (Camera.cpp): the two bounds checks, the four guarded keyboard moves applied in sequence, and the mouse-look update with its pitch clamp. It also has `class Camera`.
- `Lighting` (main.cpp, SetupLighting): the light lists as functions of the objects' names, cached matrices and materials.
- `Rendering` (main.cpp): `class Renderer` with the nested light-collection loop and the key handler.

Modelling choices:

- Floats are reals.
- The camera's sky check `length(p + d) < 198` is stated on squared lengths.
- Matrix algebra is left uninterpreted:
  - `model * vec4(p, 1)` and `normalize(cross(a, b))` are the two functions of a `Numerics` value;
  - a model matrix is the symbolic `TRS(translation, angle, axis, scale)`. Equality of these records is finer than matrix equality: a full turn or a zero scale gives equal matrices. "The cached matrix is current" is therefore a statement about the record;
  - the camera's new front vector is a function parameter of `ProcessMouseMovement`;
  - `normalize(cross(front, up))` is the `right` parameter of `ProcessKeyboard`.
- A file is `Option<seq<Line>>`: `None` is a path that cannot be opened. Each line is pre-classified by its first word.
- Reads that are undefined behaviour in the C++ become the error `MalformedGeometry`:
  - a face token with fewer than three `/` fields (`indices[1]`, `indices[2]`);
  - an index past the end of a list;
  - a position index below 1.
- `std::stoi` failures are `NotANumber` and `NumberOutOfRange`, with `int` taken as 32 bits. The exception leaves the constructor, so no object is created.
- A word that `operator>>` cannot read leaves its string unchanged:
  - missing face words are empty strings, which are malformed;
  - a bare `usemtl` keeps the current material name.

## Model

| member | source | states |
|---|---|---|
| Vectors.ClampUnitCube | main.cpp:101-107 | `glm::clamp(v, 0, 1)` always lands in the unit cube and leaves a vector already inside unchanged |
| Materials.NewMaterial | Object.h:33-57 | each constructor argument goes to its field, and `isActive` is false whatever the arguments |
| Materials.DefaultMaterial | Object.h:19-44 | a material built with no arguments has emission 0, shininess 32, reflections 1, attenuation 1/0.09/0.032, cut-offs -1, direction (0,0,-1), and is neither a light source nor active |
| ObjTokens.SplitSlashRebuildsToken | Object.cpp:115 | the fields that repeated `getline(ss, f, '/')` returns contain no `/`, and joined back with `/` they give the token again, except that an empty last field is dropped |
| ObjTokens.Stoi | Object.cpp:116 | `std::stoi` either gives a value in the 32-bit `int` range or fails with invalid-argument or out-of-range for that field |
| ObjTokens.StoiDecimal | Object.cpp:116 | `std::stoi` reads back every decimal numeral, with or without a minus sign, and is out of range exactly past the `int` bounds |
| ObjTokens.FieldIndices | Object.cpp:115-117 | one index per field when no conversion fails (an empty field counts as 0) |
| ObjTokens.FieldIndicesPrefixFailure | Object.cpp:115-117 | once a field fails to convert, the whole token fails with that error, whatever follows |
| ObjTokens.ReadIndices | Object.cpp:110-117 | the character-by-character split-and-convert loop computes exactly the split-then-convert specification, including its first error |
| ObjTokens.FaceVertices | Object.cpp:127-129 | a face that succeeds has one vertex per token |
| ObjTokens.FaceVerticesSound | Object.cpp:127-129 | in a face that succeeds, each position holds the vertex its own token resolves to |
| ObjTokens.FaceVerticesAll | Object.cpp:127-129 | when every token resolves, the face yields exactly those vertices in token order |
| ObjTokens.FaceVerticesFailure | Object.cpp:127-129 | the first token that fails decides the face's error |
| ObjTokens.ProcessVertex | Object.cpp:110-122 | the `process_vertex` lambda yields the vertex that the token's indices name, or the token's error |
| ObjTokens.FaceTokenIndices | Object.cpp:115-117 | the token `p/t/n` (or `p//n` when t = 0) reads back as the indices [p, t, n] |
| ObjTokens.FaceTokenRoundTrip | Object.cpp:115-122 | a token with in-range indices yields the position p, the texture coordinate t (or (0,0) when t = 0) and the normal n (or (0,1,0) when n = 0) |
| ObjTokens.ShortTokenIsMalformed | Object.cpp:120-122 | tokens `p` and `p/t` make the code read past its index vector, and are reported as malformed |
| ObjTokens.SplitTrailingSlash | Object.cpp:115 | a trailing `/` ends the second field and yields no empty third field |
| ObjTokens.DoubleSlashMalformed | Object.cpp:115-122 | the token `p//` has two fields only, so the code reads `indices[2]` past the end; it is reported as malformed |
| ObjTokens.TrailingSlashMalformed | Object.cpp:115-122 | the token `p/t/` has two fields only and is reported as malformed |
| ObjTokens.ShortIndicesMalformed | Object.cpp:119-122 | any token with fewer than three indices is malformed, whatever the lists hold |
| ObjTokens.FieldIndicesTwo | Object.cpp:115-117 | two fields that convert give their two indices in order |
| ObjParser.CloseGroup | Object.cpp:98-100 | closing the open group keeps every group start within the vertices emitted |
| ObjParser.FaceTriple | Object.cpp:107-108 | an `f` line uses its first three words, with an empty string for each missing word; further words are ignored |
| ObjParser.Step | Object.cpp:82-130 | a line that succeeds keeps the parse state well formed: a current material implies a group, and every group starts within the vertex buffer |
| ObjParser.Fold | Object.cpp:77-131 | the parse state after any prefix of the file that succeeds is well formed |
| ObjParser.FoldFailurePropagates | Object.cpp:77-131 | once a line fails, the parse fails with that error whatever lines follow |
| ObjParser.FoldVertexCount | Object.cpp:106-129 | the vertex buffer holds exactly three vertices per `f` line |
| ObjParser.FoldPositions | Object.cpp:82-86 | the position list that face indices resolve against is exactly the `v` lines so far, in order |
| ObjParser.LoadVertexCount | Object.cpp:106-135 | a loaded mesh has exactly three vertices per `f` line of the file |
| ObjParser.StepKeepsGroups | Object.cpp:82-130 | only a `usemtl` line touches the groups or the current material |
| ObjParser.FoldNoGroups | Object.cpp:97-105 | with no `usemtl` line, no group is ever opened and no material is current |
| ObjParser.NoUseMtlNoGroups | Object.cpp:98-135 | a file without `usemtl` yields no groups, whatever vertices it emits |
| ObjParser.StepOpenTiled | Object.cpp:97-105 | with a named `usemtl`, the closed groups stay contiguous; the last group is the current material's, with count 0 and a start within the buffer; the group names grow by that name |
| ObjParser.FoldOpenTiled | Object.cpp:77-131 | when every `usemtl` names a material, the open-tiling invariant holds after every prefix, and the group names are the `usemtl` names in order |
| ObjParser.LoadTiles | Object.cpp:97-135 | when every `usemtl` names a material, the final groups are contiguous and the last ends at the last vertex; zero-count groups are kept, one group per `usemtl` in order |
| ObjParser.CloseGroupStarts | Object.cpp:98-100 | closing the open group changes its count, never any group's start |
| ObjParser.StepStarts | Object.cpp:97-104 | a `usemtl` line opens one group starting at the number of vertices emitted so far; no other line opens one |
| ObjParser.FoldStarts | Object.cpp:77-131 | whatever the `usemtl` lines name, group i starts at three times the number of `f` lines before the i-th `usemtl` line |
| ObjParser.LoadGroupRanges | Object.cpp:97-135 | a loaded mesh has one group per `usemtl` line, each starting where its line found the vertex buffer; when every `usemtl` names a material, each group runs exactly to the next one's start and the last to three vertices per `f` line of the file |
| ObjParser.CloseTiles | Object.cpp:98-100 | closing the open group of a well-formed state tiles the buffer up to its end and keeps the names |
| ObjParser.UseMtlOpenTiled | Object.cpp:97-104 | a named `usemtl` closes the open group at the buffer's end and opens the next there, adding its name |
| ObjParser.FoldSnoc | Object.cpp:77-131 | one more line is one more step of the loop |
| ObjParser.FoldPrefixStep | Object.cpp:77-131 | after a prefix that parsed, the next line is one step from the prefix's state |
| ObjParser.ThreePositions | Object.cpp:82-86 | three `v` lines give the position list [a, b, c] and nothing else |
| ObjParser.FirstUseMtl | Object.cpp:97-104 | the first `usemtl` closes nothing and pushes (name, start = vertices so far, count 0) |
| ObjParser.FaceStep | Object.cpp:106-129 | an `f` line whose three words resolve appends exactly their three vertices, in order |
| ObjParser.FaceStepFails | Object.cpp:106-129 | an `f` line fails with the error of its first word that does not resolve |
| ObjParser.LoadFailsAt | Object.cpp:77-131 | a line that fails after a successful prefix makes the load fail with its error |
| ObjParser.FoldFace | Object.cpp:106-129 | after any successful prefix, a resolving `f` line appends its three vertices |
| ObjParser.SingleTriangle | Object.cpp:97-135 | `usemtl name` and one resolving triangle load as exactly those three vertices and the single group (name, 0, 3) |
| ObjParser.NamedUseMtlThenFace | Object.cpp:97-129 | a first named `usemtl` and one resolving triangle leave that material current, its group (name, 0, 0) open and the three vertices emitted |
| ObjParser.CloseSingleGroup | Object.cpp:133-135 | closing the only group, opened at vertex 0 under the current material, gives it every vertex emitted |
| ObjParser.BareUseMtlThenFace | Object.cpp:97-104 | a bare first `usemtl` pushes a group with an empty name that is never closed |
| ObjParser.BareUseMtlBreaksTiling | Object.cpp:97-135 | with a bare `usemtl` before a triangle, the groups are (empty, 0, 0) and (name, 3, 0) and do not tile the buffer |
| ObjParser.PlainIndicesMalformed | Object.cpp:115-122 | the line `f 1 2 3` (indices without slashes) is malformed: the code reads `indices[1]` past the end |
| Objects.RotationAxis | Object.cpp:25-27 | `axis` 0 selects X and 2 selects Z; every other value selects Y |
| Objects.Object.Init | Object.cpp:11-16 | the member initialisers: the path as name, the materials, the position and scale given, angle 0, and empty mesh lists |
| Objects.Object.Create | Object.cpp:11-30 | an object exists iff the load succeeds, otherwise the load error is raised; it holds exactly the loaded vertices and groups, angle 0 (the angle argument is ignored) and the matrix of its placement |
| Objects.Object.LoadOBJ | Object.cpp:63-138 | the imperative parse loop succeeds iff `Load` does; on success it appends exactly `Load`'s vertices and groups; it fails with `Load`'s error; an unopenable path changes nothing |
| Objects.Object.ReadLine | Object.cpp:78-129 | one pass of the loop body fails exactly when `Step` does, with its error; otherwise the temporary lists, current material, vertex count and both output lists become those of `Step`'s state |
| Objects.Object.CloseOpenGroup | Object.cpp:98-100 | patching `materialGroups.back()` in place produces the groups of the closed specification state |
| Objects.Object.EmitFace | Object.cpp:106-130 | three `process_vertex` calls append the vertices of one `Step` on the `f` line, or report its error |
| Objects.Object.Move | Object.cpp:221-224 | x and y grow by dx and dy; z never changes, even though the declaration takes dz; the cached placement record stops matching the fields iff the position moved |
| Objects.Object.Scale | Object.cpp:226-228 | the scale is multiplied by the factor, not added to; the cached placement record stops matching the fields iff the factor is not 1 |
| Objects.Object.Rotate | Object.cpp:230-232 | the angle grows by the delta; the cached placement record stops matching the fields iff the delta is not 0 (as a matrix, a full turn would leave it equal) |
| Objects.Object.ScaleThenInverse | Object.cpp:226-228 | scaling by f and then by 1/f restores the scale, for f ≠ 0 |
| Objects.Object.Draw | Object.cpp:173-181 | Draw rebuilds the cached matrix from the current placement |
| Objects.Object.GetModelMatrix | Object.cpp:234-236 | the stored matrix is returned, not recomputed; it reflects the placement only while the matrix is current (after the constructor or Draw, before the next Move, Scale or Rotate) |
| Cameras.GuardedMoveKeepsBounds | Camera.cpp:9-18 | a move gated by both checks never takes an in-bounds camera (inside the sky sphere, above height 1) out of bounds |
| Cameras.KeyboardMoveKeepsBounds | Camera.cpp:59-82 | whatever keys are down, ProcessKeyboard keeps an in-bounds camera in bounds |
| Cameras.NoKeyNoMove | Camera.cpp:59-82 | with no key down the camera stays where it is |
| Cameras.UpFromLow | Camera.cpp:63-67 | from height 1.2, W looking straight up is accepted and lifts the camera to 1.7 |
| Cameras.DownFromHigh | Camera.cpp:68-72 | from height 1.7, S looking straight up is accepted and lowers the camera to 1.2 |
| Cameras.SequentialGating | Camera.cpp:63-72 | W and S together from height 1.2 looking up return the camera to 1.2: S is checked against the position W already moved |
| Cameras.IndependentGating | Camera.cpp:63-72 | if every key were checked against the starting position, the same input would end at 1.7, so the two readings differ |
| Cameras.UpContribution | Camera.cpp:63-67 | from 1.2, the W step checked against the start is accepted |
| Cameras.DownContribution | Camera.cpp:68-72 | from 1.2, the S step checked against the start is rejected (it would reach height 0.7) |
| Cameras.ClampPitch | Camera.cpp:53-54 | pitch ends in [-89, 89]; an in-range pitch is kept; a pitch outside goes to the nearer bound |
| Cameras.MouseLook | Camera.cpp:34-54 | after any sample the pitch is in [-89, 89], the last cursor position is the sample, and the first-sample flag is cleared |
| Cameras.FirstSampleRecordsOnly | Camera.cpp:35-51 | the first sample only records the cursor: both offsets are zero, yaw is unchanged and pitch is only clamped |
| Cameras.LaterSampleTurns | Camera.cpp:41-54 | later samples add 0.3·(x − lastX) to yaw and 0.3·(lastY − y) to pitch, then clamp |
| Cameras.RepeatedSampleIsStill | Camera.cpp:34-54 | feeding the same cursor position twice turns the camera only once |
| Cameras.Camera.LookState | Camera.h:30-33 | the mouse-look fields of the camera, read together |
| Cameras.Camera.constructor | Camera.cpp:19-30 | starts at the given position looking down -Z with Y up, yaw -90, pitch 0, waiting for a first sample at the window centre |
| Cameras.Camera.ProcessMouseMovement | Camera.cpp:34-57 | the fields change exactly as `MouseLook` says, the pitch stays in [-89, 89], and front is recomputed from the new yaw and pitch |
| Cameras.Camera.ProcessKeyboard | Camera.cpp:59-84 | position becomes the result of the four guarded moves in order, and a camera in bounds stays in bounds |
| Cameras.Camera.GetPosition | Camera.cpp:101-103 | the current position, unchanged |
| Lighting.MaterialSources | main.cpp:665-667 | an object yields at most one light source per material |
| Lighting.SourcesQualify | main.cpp:664-667 | every light source is an active light-source material of one of the objects |
| Lighting.MaterialSourcesQualify | main.cpp:665-667 | every light source of one object is one of its active light-source materials |
| Lighting.SourcesComplete | main.cpp:664-667 | every active light-source material of every object is a light source |
| Lighting.MaterialSourcesComplete | main.cpp:665-667 | every active light-source material of one object is among its light sources |
| Lighting.LightCount | main.cpp:667-711 | the point and spot lists together have exactly one light per light source |
| Lighting.PointLightsSound | main.cpp:699-711 | every point light comes from a source with cut-off ≤ -0.9. It sits at the model origin, copies the emission and attenuation, and has ambient 0.05, diffuse 0.8 and specular 0.5 |
| Lighting.PointLightsComplete | main.cpp:699-711 | every source with cut-off ≤ -0.9 yields its point light |
| Lighting.SpotLightsSound | main.cpp:668-698 | every spot light comes from a source with cut-off > -0.9. It copies emission, both cut-offs and attenuation, and has ambient 0.05, diffuse 0.8 and specular 0.8. The giant uses its eye anchors and the flashlight its front and centroid; every other object gets no position or direction |
| Lighting.SpotLightsComplete | main.cpp:668-698 | every source with cut-off > -0.9 yields its spot light |
| Lighting.PointLightsSnoc | main.cpp:699-711 | one more source appends at most one point light |
| Lighting.SpotLightsSnoc | main.cpp:668-698 | one more source appends at most one spot light |
| Lighting.MaterialSourcesSnoc | main.cpp:665-667 | one more material appends it iff it qualifies |
| Lighting.MaterialSourcesPrefix | main.cpp:665-667 | the material at index i is added after those before it iff it qualifies |
| Lighting.LightSourcesPrefix | main.cpp:664-667 | the object at index k adds its qualifying materials after those of the objects before it |
| Lighting.LightSourcesSnoc | main.cpp:664-667 | one more object appends its qualifying materials after all earlier objects' |
| Lighting.LightSourcesAppend | main.cpp:664-667 | light sources are ordered by object: the sources of a concatenated scene are the concatenation |
| Lighting.PointLightsAppend | main.cpp:699-711 | point lights keep the order of their sources |
| Lighting.SpotLightsAppend | main.cpp:668-698 | spot lights keep the order of their sources |
| Lighting.NoActiveNoLights | main.cpp:664-667 | with no active material anywhere there are no light sources and both lists are empty |
| Lighting.NoActiveMaterials | main.cpp:665-667 | an object with no active material contributes no light source |
| Lighting.DefaultCutOffIsPoint | main.cpp:668 | a light-source material built without a cut-off (default -1) is a point light, not a spot light |
| Rendering.SelectionInRange | main.cpp:86-92 | digit key k selects object k−1 exactly when it exists; no other key changes the selection, so it stays -1 or a valid index |
| Rendering.AmbientControls | main.cpp:97-108 | O flips the flag and sets ambient to 0.1; I/U act only while ambient light is enabled; ambient stays in [0, 1] |
| Rendering.AmbientStep | main.cpp:101-108 | I raises and U lowers each of the three components by 0.1, stopping at 1 and 0 |
| Rendering.Adjusted | main.cpp:143-150 | one pass of an edit loop keeps the number of materials |
| Rendering.MaterialsAfterKeepsLights | main.cpp:143-194 | E/R/T/Y leave light-source materials untouched. They change only diffuse (E, R) or specular (T, Y) reflection, and leave it in [0, 1] |
| Rendering.DoubleStep | main.cpp:143-168 | two clamped 0.1 steps from inside [0, 1] equal one clamped 0.2 step |
| Rendering.EPressStep | main.cpp:143-168 | because the E block appears twice, one E press raises an in-range diffuse reflection by 0.2, up to 1 |
| Rendering.HasLightSource | main.cpp:196-203 | the early-exit loop answers whether some material is a light source |
| Rendering.AdjustReflections | main.cpp:143-150 | the in-place loop over the materials gives every non-light material its clamped step, and keeps the rest |
| Rendering.EditSelected | main.cpp:109-206 | the selected object's key effects: RIGHT/LEFT move x by ±0.5 and K/J move y; UP/DOWN change nothing (Move drops z); Z/C rotate by ±0.05; V/B multiply the scale by 0.1/−0.1; E/R/T/Y edit the materials; ToggleLights is called iff the key is F and some material is a light source |
| Rendering.Renderer.constructor | main.cpp:50-64 | no selection, filled polygons, ambient light enabled, directional light toward the origin from (0,150,0), ambient 0.2, diffuse 0.02, specular 0.2, no lights yet |
| Rendering.Renderer.SetupLighting | main.cpp:645-714 | both lists are rebuilt as exactly the point and spot lights of the scene's light sources, so a second call on unchanged objects gives the same lists; ambient is blacked out while disabled |
| Rendering.Renderer.CollectLights | main.cpp:660-714 | the cleared lists become exactly the point and spot lights of the light sources of all objects, in object then material order |
| Rendering.Renderer.CollectObject | main.cpp:665-713 | the inner loop appends the lights of one object's qualifying materials in index order |
| Rendering.Renderer.AddLight | main.cpp:668-711 | a qualifying material appends one light: a spot light when its cut-off is above -0.9, with the giant's or flashlight's anchors, and a point light otherwise |
| Rendering.Renderer.SceneKeys | main.cpp:86-108 | digit keys select as `Selection` says and keep the selection valid; P flips the polygon mode; O/I/U change the flag and ambient as `AmbientAfter` says; the light's direction, diffuse and specular are kept |
| Rendering.Renderer.HandleKeyInput | main.cpp:83-210 | only presses and repeats act: on any other action no object changes. The selection, polygon mode and ambient change as specified. Only the newly selected object changes: its x, y, angle, scale and materials as `EditSelected` states, while its z, cached matrix, axis, name and mesh stay as they were (so UP/DOWN change nothing). The selection stays valid. ToggleLights is called only for a valid selection |

## Left out

- OpenGL, GLEW and GLFW calls are not modelled: window and context, shaders, VAO/VBO, uniform uploads, draw calls, buffer swaps and key polling. They are foreign calls with no stated behaviour. `ProcessKeyboard` takes the four key states as booleans instead of polling.
- Texture loading (`LoadTexture`) and shader-file reading are not modelled; they are I/O through libraries.
- Trigonometry and matrix algebra are not modelled: `UpdateCameraVectors`, `GetViewMatrix`, `GetProjectionMatrix`, glm translate/rotate/scale, `cross` and `normalize`. They appear as uninterpreted values or function parameters.
- Single-precision rounding is not modelled; `0.1f` steps and clamps are exact on reals.
- Parsing the numbers of `v`, `vt` and `vn` lines is not modelled: these lines carry values already read. A malformed number there is not modelled.
- The scene table in `LoadObjects` is not modelled; it is constant configuration, and the renderer takes the objects as an argument.
- The body of `ToggleLights` is not part of this model. `HandleKeyInput` returns whether it would be called.
- The write-only global `eyeDirection` is not kept: SetupLighting stores the giant's spot direction there, and nothing reads it.
- `Run`, `RenderFrame` (including the per-frame rotation of the sphere) and the static callback dispatch are frame-loop glue with no logic beyond the calls modelled here. The same holds for the debug output.
- Draw's indexing of `materials[i]` and `textures[i]` for every group without a size check (Object.cpp:199, 211) is not modelled. Only the matrix rebuild is.
- Spot lights on objects other than the giant and the flashlight have no position or direction (`None`): the code leaves them uninitialised.
- Objects.Object.LoadOBJ: on an error after some lines, the vertices and groups already appended are not described. The exception that reports the error discards the object anyway.
- ObjTokens.FieldIndices: it states the length of a successful result but not each element. The elementwise relation is proved for the three-field tokens that matter (`FieldIndicesThree`, `FaceTokenIndices`) rather than in general.

## Notes on the source

- Object.h:70 declares an `_angle` constructor parameter, and main.cpp passes one. Object.cpp:14 has no such parameter and always starts the angle at 0. The model follows Object.cpp: `Create` accepts the argument and ignores it.
- Object.h:75 declares `Move(dx, dy, dz)`, and the key handler passes z offsets for UP and DOWN. Object.cpp:221 defines `Move(dx, dy)`, which changes only x and y. The model takes all three arguments and follows the definition, so UP and DOWN change nothing.
- `GetModelMatrix` returns the matrix cached by the constructor or the last `Draw`. It does not recompute it, so after `Move`, `Scale` or `Rotate` the lights use the old placement until the next `Draw`.
- A material is a spot light when its cut-off is above -0.9, not above the default -1. Cut-offs in (-1, -0.9] therefore give point lights.
- The four keyboard moves are checked one after another, each against the position the previous accepted move produced. They are not checked independently against the starting position (`SequentialGating` against `IndependentGating`).
- A face written as `f 1 2 3`, without slashes, reads `indices[1]` and `indices[2]` past the end of the index vector. It is reported as malformed (`PlainIndicesMalformed`). Tokens need three `/`-separated fields, such as `1//0` or `1/0/0`. Because `getline` yields no empty last field after a trailing `/`, `p//` and `p/t/` have only two fields and are malformed too (`DoubleSlashMalformed`, `TrailingSlashMalformed`).
- The B key multiplies the scale by -0.1, which mirrors the object. The V key multiplies it by 0.1. The model keeps both factors as written.
- `Camera::GetPosition` is defined in Camera.cpp:101 and used by the renderer. Camera.h does not declare it.
