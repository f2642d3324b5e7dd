# Shader registry and camera of the ImGui cube example, in Dafny

This project models two pieces of an OpenGL demo that draws a spinning cube
with selectable shaders.

**The shader program registry (`class Shader`).** The registry holds:

- a path map for the vertex shaders (normal, wave, breathing);
- a path map for the fragment shaders (normal, pulse, rainbow);
- a map from the composite key `v + "_" + f` to a linked program handle;
- the current program, where 0 means none.

What the registry does:

- Initialisation resolves the paths. It reads them from an INI file, and falls back to built-in defaults when the file cannot be loaded.
- It then links one program for every (vertex, fragment) pair, walking the two path maps in their iteration order. It stops at the first program that fails to link.
- When every program links, `normal_normal` becomes current.
- Programs are selected by key, or by a pair of UI indices. An out-of-range index falls back to 0.
- Uniforms are written to the current program only.
- Cleanup deletes every program and empties the registry.

**The camera (`class Camera`).** The camera keeps:

- its distance from the cube, which the scroll wheel changes and which is clamped to [2, 10];
- two rotation angles, which the arrow keys turn by 2 per poll.

The modules are:

- `Gl` (gl.dfy): the GL driver and the file system as an oracle (`Driver`), and the log of GL calls that change driver state (`Call`).
- `ShaderConfig` (shader_config.dfy): the fixed shader names, the default paths, and the paths the INI loader builds.
- `ShaderPrograms` (shader_programs.dfy):
  - `createShader`, both as written and corrected;
  - the composite key and how it splits back into its names;
  - the build loops as a fold (`BuildAll`) over the entries of the path maps, with lemmas;
  - the index-to-name selection and the teardown call sequence.
- `ShaderRegistry` (shader.dfy): `class Shader`. Its methods are proved against the functions of the modules above.
- `CameraControl` (camera.dfy): the camera's step functions, a replay of any sequence of events, and `class Camera`.

How the model stands in for things it cannot see:

- **Iteration order.** `std::unordered_map` iteration order is unspecified. Initialisation and cleanup take the order as a parameter (`vOrder`, `fOrder`, `order`). The parameter must enumerate the map's keys once each (`Enumerates`). Every property is proved for every such order.
- **GL effects.** GL calls that change driver state are appended to the `calls` field: `glUseProgram`, `glDeleteProgram`, `glDeleteShader` and the uniform uploads.
- **GL queries.** Link status, object names and uniform locations come from the `driver` oracle.
- **The INI file.** It is a map from (section, key) to value. `None` stands for a file that failed to load.

Three behaviours of the code that the model keeps:

- Initialisation returns at the first program handle that is 0. That key is already stored with value 0. Later pairs are not built, and the current program is left as it was; building does not carry on past a failed variant.
- `createShader` does not look at the compile results (shader.cpp:186-187). Only the link status decides whether it returns 0. A stage that failed to compile is passed on as object 0.
- When linking fails, `createShader` deletes the program but not its two stage objects (see Findings). The registry is built with the corrected `CreateShader`, which also releases the stages. `BuildPrograms` states the log of both: the source's own loops (`BuildAllAsWritten`) leave the same registry and failed key, and their GL calls are the model's without the final two `glDeleteShader` calls of the failing pair (`LeakedStages`).

## Model

| member | source | states |
|---|---|---|
| ShaderConfig.IniPaths | shader.cpp:228-232 | a loader loop writes a path for exactly the listed names, each the section's directory, "/" and the name's file |
| ShaderConfig.VertexPathsFor | shader.cpp:12-23 | the vertex path map initialisation adds has exactly the keys normal, wave, breathing, whether it comes from the INI file or the defaults |
| ShaderConfig.FragmentPathsFor | shader.cpp:12-23 | the fragment path map initialisation adds has exactly the keys normal, pulse, rainbow, whether it comes from the INI file or the defaults |
| ShaderPrograms.KeyRoundTrip | shader.cpp:30 | a composite key splits at its first "_" back into the vertex and fragment names it was made of, when the vertex name has no "_" |
| ShaderPrograms.CreateShaderAsWritten | shader.cpp:181-210 | createShader as written returns 0 exactly when linking fails, else the created program; on success both stage objects are deleted |
| ShaderPrograms.AsWrittenLeaksStages | shader.cpp:196-204 | when linking fails, createShader as written deletes neither compiled stage object |
| ShaderPrograms.CreateShader | shader.cpp:181-210 | createShader returns 0 exactly when linking fails, else the created program; both stage objects are released on every path; a failed program is deleted and a linked one is not |
| ShaderPrograms.Entries | shader.cpp:26-28 | the entries the loops visit, one per name of the iteration order, each name with its path from the map |
| ShaderPrograms.EntriesMembers | shader.cpp:26-28 | an entry is visited exactly when its name is in the iteration order and its path is the map's |
| ShaderPrograms.RowMembers | shader.cpp:28-29 | one pass of the inner loop visits one pair per fragment entry: exactly the pairs (v, f) for f among the fragment entries |
| ShaderPrograms.PairsMembers | shader.cpp:26-29 | the nested loops visit exactly the pairs of a vertex entry and a fragment entry |
| ShaderPrograms.PairsLength | shader.cpp:26-29 | the nested loops visit (number of vertex entries) x (number of fragment entries) pairs |
| ShaderPrograms.StepFacts | shader.cpp:30-32 | one iteration stores the pair's program under v_f, keeps every other entry, fails exactly when that program is 0, and only appends to the GL call log |
| ShaderPrograms.BuildAppends | shader.cpp:26-38 | building never removes a key and only appends to the GL call log |
| ShaderPrograms.FirstFailure | shader.cpp:31-36 | the index at which building stops: every earlier pair links and the pair there does not |
| ShaderPrograms.BuildOutcome | shader.cpp:31-36 | building fails exactly when some pair's program is 0, and then reports the key of the first such pair |
| ShaderPrograms.BuildKeys | shader.cpp:26-38 | the keys building adds are exactly those of the pairs up to and including the first failure |
| ShaderPrograms.BuildKept | shader.cpp:31 | every registry entry whose key no built pair has keeps its handle |
| ShaderPrograms.BuildValues | shader.cpp:30-32 | every pair built maps to the program createShader made for it, and every other entry of the registry keeps its handle |
| ShaderPrograms.BeforeFailureNonzero | shader.cpp:32-36 | every pair before the first failure has a nonzero program |
| ShaderPrograms.BuildComplete | shader.cpp:26-38 | when building does not fail, every pair is stored under its key with its nonzero program |
| ShaderPrograms.BuildFailure | shader.cpp:32-36 | when building fails, it fails at a pair whose program is 0, and that key stays in the registry with value 0 |
| ShaderPrograms.AsWrittenBuildDiffers | shader.cpp:26-38 | the loops with the corrected createShader leave the registry and failed key of the loops as written, and their GL calls followed by the two glDeleteShader calls of the failing pair, if any |
| ShaderPrograms.GridFacts | shader.cpp:26-30 | initialisation visits a pair exactly when it is a vertex name and a fragment name with the paths the maps give them, and no two pairs share a key |
| ShaderPrograms.GridOncePerPair | shader.cpp:26-30 | initialisation visits 3 x 3 pairs and none of them twice, so with GridFacts each vertex name meets each fragment name exactly once |
| ShaderPrograms.GridBuildComplete | shader.cpp:26-38 | when initialisation does not fail, in any iteration order, all 3 x 3 keys map to the nonzero program linked from their two paths |
| ShaderPrograms.GridBuildFailure | shader.cpp:32-36 | when initialisation fails, the reported key is some v_f whose program is 0, and it is stored with 0 |
| ShaderPrograms.GridBuildKeys | shader.cpp:26-41 | initialisation adds only keys v_f of a vertex name and a fragment name, and stores normal_normal when it does not fail |
| ShaderPrograms.VertexKey | shader.cpp:142-156 | index 0, 1, 2 selects the vertex shader at that position of normal, wave, breathing, and any other index selects normal |
| ShaderPrograms.FragmentKey | shader.cpp:158-172 | index 0, 1, 2 selects the fragment shader at that position of normal, pulse, rainbow, and any other index selects normal |
| ShaderPrograms.ProgramName | shader.cpp:175 | the key useShaderProgram looks up is always one of the 3 x 3 keys initialisation builds |
| ShaderPrograms.ProgramNameInjective | shader.cpp:142-178 | two index pairs select the same program exactly when they agree once an out-of-range index is read as 0 |
| ShaderPrograms.DeleteAll | shader.cpp:46-49 | the cleanup loop makes one glDeleteProgram per visited key, the i-th deleting the program of the i-th key |
| ShaderPrograms.DeleteAllNext | shader.cpp:46-49 | each iteration of the cleanup loop appends one glDeleteProgram of the visited entry |
| ShaderPrograms.DeleteAllCoversRegistry | shader.cpp:46-49 | cleanup makes exactly one glDeleteProgram per registry entry, and deletes every registered program |
| ShaderRegistry.UploadCallsAgree | shader.cpp:62-120 | two setUniform calls make the same GL call exactly when they write to the same location and GL receives the same value: no two overloads collide, except that a bool and the int 1 or 0 are written alike (shader.cpp:105 and :117) |
| ShaderRegistry.IniPathsNext | shader.cpp:228-232 | one iteration of a loader loop extends the paths written so far by the next name's path |
| ShaderRegistry.WritePaths | shader.cpp:228-240 | a loader loop writes into the path map the directory, "/" and file of every listed name, keeping other entries |
| ShaderRegistry.NextRow | shader.cpp:26-28 | the outer loop's next iteration is the next vertex entry's row, followed by the later rows |
| ShaderRegistry.NextPair | shader.cpp:28-31 | the inner loop's next iteration is one build step for the next fragment entry |
| ShaderRegistry.Shader.constructor | shader.h:170-174 | a new registry has no paths, no programs and current program 0 |
| ShaderRegistry.Shader.LoadShaderPathsFromIni | shader.cpp:212-243 | returns false and changes nothing when the file cannot be loaded; otherwise adds the INI paths for the fixed names and returns true |
| ShaderRegistry.Shader.SetDefaultPaths | shader.cpp:16-22 | adds the six default paths to the path maps, keeping other entries |
| ShaderRegistry.Shader.ResolvePaths | shader.cpp:12-23 | the path maps gain the INI paths when the file loads and the default paths when it does not, so they then hold every fixed name |
| ShaderRegistry.Shader.BuildRow | shader.cpp:28-37 | the inner loop stores each fragment entry's program under v_f and returns the key of the first 0 program; its effect is the fold over that row |
| ShaderRegistry.Shader.BuildPrograms | shader.cpp:26-38 | the nested loops leave exactly the registry, GL calls and failed key of the fold `BuildAll` over all pairs (one step per pair, stopping after the first program that is 0); the registry and failed key are those of the loops as written, and the calls theirs followed by the release of the failing pair's two stages |
| ShaderRegistry.Shader.BuildRegistry | shader.cpp:26-41 | the registry and calls are those of the fold over the path maps; on failure the current program is untouched, otherwise it is the handle of normal_normal |
| ShaderRegistry.Shader.Init | shader.cpp:9-42 | initialisation keeps keys within the fixed names, adds the resolved paths, and leaves the registry, calls and current program the fold over the path maps determines: on failure the current program is untouched, otherwise it is normal_normal's handle |
| ShaderRegistry.Shader.Cleanup | shader.cpp:44-52 | deletes the program of every entry in the map's order, empties the registry, sets the current program to 0, and does nothing more on an empty registry, so a second cleanup changes nothing |
| ShaderRegistry.Shader.Use | shader.cpp:54-60 | binds the current program, and makes no call when it is 0 |
| ShaderRegistry.Shader.SetUniform | shader.cpp:62-120 | writes the uniform only when there is a current program and the uniform's location is not -1, and the write is `UploadCall(location, value)`, the overload's own glUniform call |
| ShaderRegistry.Shader.SetCurrentProgram | shader.cpp:122-134 | an unknown name changes nothing; a known one becomes current with exactly its handle and is bound when nonzero; the registry is never changed |
| ShaderRegistry.Shader.UseShaderProgram | shader.cpp:136-179 | behaves as SetCurrentProgram of the names at the two indices, an out-of-range index read as 0 |
| CameraControl.Scrolled | camera.cpp:47-51 | the distance after a scroll is in [2, 10]; it is the moved distance when that is in range, 2 below it and 10 above it, the nearest point of [2, 10]; scrolling forward never increases it and back never decreases it |
| CameraControl.Turned | camera.cpp:27-42 | a poll turns Y by 2 x (right - left) and X by 2 x (down - up), opposite keys cancel, and the distance is unchanged |
| CameraControl.Apply | camera.cpp:19-52 | a scroll changes only the distance and leaves it in [2, 10]; a poll leaves the distance unchanged |
| CameraControl.Replay | camera.cpp:19-52 | any sequence of polls alone leaves the distance unchanged, and any sequence of scrolls alone leaves both rotations unchanged |
| CameraControl.ReplayKeepsDistanceInRange | camera.cpp:47-51 | any sequence of scrolls and polls keeps a distance in [2, 10] within it |
| CameraControl.DistanceInRangeFromInitial | camera.cpp:11-17 | starting from init, the distance stays in [2, 10] whatever the events |
| CameraControl.DistanceOnlyFromScrolls | camera.cpp:19-43 | the final distance is what the scrolls alone give; the polls between them do not affect it |
| CameraControl.RotationOnlyFromPolls | camera.cpp:45-52 | the final rotation is what the polls alone give; the scrolls between them do not affect it |
| CameraControl.Camera.constructor | camera.h:85-87 | the fields start at distance 5 with no rotation |
| CameraControl.Camera.Init | camera.cpp:11-17 | init sets distance 5 and both rotations 0 |
| CameraControl.Camera.HandleInput | camera.cpp:19-43 | escape sets the window's close flag and leaves it set otherwise; the fields change as one poll of the arrow keys does |
| CameraControl.Camera.HandleScroll | camera.cpp:45-52 | the fields change as one scroll does: distance clamped to [2, 10], rotations unchanged |

## Left out

- GL info logs, `std::cerr` messages and `checkShaderErrors` (declared at shader.h:168) are diagnostics only. `checkShaderErrors` is not part of this model.
- `compileShader` and `loadShaderSource` are abstracted into the driver oracle's `compile` and `readSource`. That covers a failed compile deleting its object and returning 0, and an unreadable file giving "". Reading files and the GL shader compiler are outside the model.
- SimpleIni parsing is left out. A loaded INI file is a (section, key) to value map, and a failed load is `None`. `ShaderConfig.GetValue` stands in for SimpleIni's `GetValue` with the default "".
- `glAttachShader`, `glLinkProgram`, `glCreateProgram` and `glGetUniformLocation` are queries or object wiring. They appear in the model only through their results. `glCreateProgram` is assumed never to return 0.
- `Camera::setCameraUniforms` (glm `lookAt`/`perspective`/`rotate`), main.cpp, ui.cpp and cube.cpp are window, UI and matrix plumbing.
- `createShaderProgram` and `deleteShaderProgram` (shader.h:118,124) are declared but never defined.
- The getters, the singletons' `getInstance` and the `Shader` destructor (which calls `cleanup`) are left out. They hold no logic beyond what is modelled.
- `float` arithmetic and rounding are modelled as exact `real`s. The clamp properties do not depend on rounding.
- `GLuint` is modelled as an unbounded `nat`, and `static_cast<float>(yoffset)` is not modelled.
- `std::unordered_map` iteration order is a parameter of initialisation and cleanup. The model proves the properties for every order but does not pick one.
- ShaderRegistry.Shader.Init: the source is one function. The model splits it into `ResolvePaths`, `BuildRegistry`, `BuildPrograms` and `BuildRow` so that each proof stays small. The statements and their order are those of shader.cpp:9-42, except that programs are created with the corrected `CreateShader`. After a link failure the model's call log therefore ends with two `glDeleteShader` calls that the source does not make. `BuildPrograms` states the source's own log exactly.
- ShaderRegistry.Shader.BuildRow: its call log is that of the corrected `CreateShader`, so after a link failure it ends with two `glDeleteShader` calls that the source does not make (the same reason as for `Init`). `BuildPrograms` states the source's own log exactly.
- ShaderRegistry.Shader.BuildRegistry: its call log is that of the corrected `CreateShader`, so after a link failure it ends with two `glDeleteShader` calls that the source does not make (the same reason as for `Init`). `BuildPrograms` states the source's own log exactly.
- CameraControl.Camera.HandleScroll: a NaN `yoffset` is outside the model. In the source it makes the distance NaN, both tests at camera.cpp:48 and :50 are then false, and the distance stays NaN. The [2, 10] bound proved here, and by `DistanceInRangeFromInitial`, therefore holds for non-NaN offsets only. Infinite offsets still clamp to 2 or 10.
- The driver's `compile` and `createProgram` are functions: the same source always compiles to the same object, and the same two stages link into the same program. Real GL hands out a fresh name on every call. No property proved here relies on names being fresh or distinct.
- The key presses of `handleInput` are five booleans (escape and the four arrows) polled once per call. `glfwSetWindowShouldClose` is the returned close flag.

## Findings

| source | as written | input that shows it | evidently intended | confidence | as-written member | corrected member |
|---|---|---|---|---|---|---|
| shader.cpp:196-204 | when linking fails, createShader deletes the program and returns 0 without calling glDeleteShader on the two compiled stage objects | two sources that compile (nonzero stage objects) but do not link together | the stage objects are released whether or not linking succeeds, as they are on the success path (shader.cpp:206-207) | not executed | ShaderPrograms.CreateShaderAsWritten, ShaderPrograms.AsWrittenLeaksStages, ShaderPrograms.AsWrittenBuildDiffers | ShaderPrograms.CreateShader |
