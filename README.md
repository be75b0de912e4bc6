# Scene viewer input and mesh bookkeeping, in Dafny

This project models the sequential core of `draw_scene.cc`, a small OpenGL
scene viewer. That core covers:

- the keyboard callback, which keeps a 1024-entry held-key vector and raises the window's should-close flag on Escape;
- the per-frame pose update, which turns held W, S, A and D into camera-controller moves;
- the cursor callback, which seeds its remembered position on the first call and then reports yaw and pitch offsets;
- the two literal meshes (a square pyramid and a cube), built by block assignment into 8-row vertex matrices;
- the loops that draw every model with its texture and delete every model at exit.

Modules, leaf first:

- `Optional` holds `Option`.
- `Glfw` holds the GLFW 3 key codes and action codes: A 65, D 68, S 83, W 87, Escape 256, release 0, press 1, repeat 2.
- `Keyboard` holds the held-key vector as a class over an `array<bool>`. Its specification function is `KeyTransition`. `Replay` extends it over a run of events, and a lemma gives the vector's meaning.
- `CameraInput` holds the pose update and the cursor tracker. The camera controller is an external collaborator, so the calls made on it are returned as values.
- `Meshes` holds the literal tables and the block-assignment builders. A vertex matrix is an `array2<Option<real>>`. `None` marks an entry never assigned, because a new Eigen `MatrixXf` is left uninitialised. Every literal is a small integer that a 32-bit float holds exactly, so `real` values model them exactly.
- `Scene` holds the model vector, `ConstructModels`, `RenderScene`, `DeleteModels` and the lifecycle from construction to clean-up.

Where the code does more or less than its own comments announce, the model follows the code:

- The range guard of `KeyCallback` (lines 108-114) sits under a "Camera position" comment, yet it records every key code in `[0,1024)`. That includes Escape (256), whose press also closes the window (`Keyboard.EscapePressIsAlsoHeld`).
- The comments "Cube Vertex 4" to "Cube Vertex 7" (lines 379-391) announce four more vertices of the 8-column cube matrix. Their block writes target columns 0-3 again, so columns 4-7 are never assigned (see Findings).

## Model

| member | source | states |
|---|---|---|
| `Keyboard.KeyTransition` | draw_scene.cc:108-114 | one key event keeps the held-key vector at 1024 entries |
| `Keyboard.KeyboardInput.constructor` | draw_scene.cc:70-71 | the held-key vector has 1024 entries, all released, and the window is not asked to close |
| `Keyboard.KeyboardInput.KeyCallback` | draw_scene.cc:99-115 | the new vector is `KeyTransition` of the old one; an in-range press sets entry `key`, an in-range release clears it; every other entry is unchanged; should-close is raised exactly by an Escape press and never cleared |
| `Keyboard.PressSetsOnlyThatKey` | draw_scene.cc:108-110 | a press of key `k` in `[0,1024)` sets entry `k` and leaves every other entry unchanged |
| `Keyboard.ReleaseClearsOnlyThatKey` | draw_scene.cc:111-112 | a release of key `k` in `[0,1024)` clears entry `k` and leaves every other entry unchanged |
| `Keyboard.IgnoredEventsLeaveVector` | draw_scene.cc:108-114 | a key code below 0 or from 1024 up, or an action other than press or release (repeat), leaves the vector unchanged |
| `Keyboard.EscapePressIsAlsoHeld` | draw_scene.cc:108-110 | Escape passes the range guard, so its press sets the Escape entry of the vector and leaves every other entry unchanged, like any other key |
| `Keyboard.Replay` | draw_scene.cc:108-114 | the vector after any run of events keeps 1024 entries |
| `Keyboard.LastTransition` | draw_scene.cc:108-114 | reference definition: the latest press or release of a key in a run, found only if some event carries that key |
| `Keyboard.HeldIffLastTransitionIsPress` | draw_scene.cc:108-114 | after any run of events, a key is held exactly when its latest press-or-release was a press, and keeps its initial value when it had none |
| `Keyboard.OutOfRangeEventsIgnored` | draw_scene.cc:108 | a run of events whose key codes are all out of range leaves the vector unchanged |
| `CameraInput.KeyOf` | draw_scene.cc:83-94 | the four movement keys W, S, A, D are valid indices of the held-key vector |
| `CameraInput.UpdateCameraPose` | draw_scene.cc:81-95 | the moves issued are in the order front, back, left, right, none twice, and a move is issued exactly when its key is held |
| `CameraInput.HeldMovesIssued` | draw_scene.cc:81-95 | the held keys' moves listed in check order are in strict order and contain a move exactly when its key is held |
| `CameraInput.OrderedWithSameMembersEqual` | draw_scene.cc:81-95 | two strictly ordered move sequences with the same members are equal, so the order of the checks fixes the output |
| `CameraInput.IssuedIsHeldMoves` | draw_scene.cc:81-95 | the moves of one pose update are determined by the held keys: the held keys' moves in check order |
| `CameraInput.IssuedOncePerHeldKey` | draw_scene.cc:81-95 | each move occurs once when its key is held and not at all otherwise |
| `CameraInput.FrontAndLeftCompose` | draw_scene.cc:83-91 | W with A gives exactly MoveFront then MoveLeft; a diagonal is two moves, not normalised |
| `CameraInput.FrontAndBackBothIssued` | draw_scene.cc:83-88 | W with S gives both MoveFront and MoveBack; they do not cancel |
| `CameraInput.CursorTracker.constructor` | draw_scene.cc:122-124 | the static state starts with the first-call flag set and zeroed positions |
| `CameraInput.CursorTracker.MouseCallback` | draw_scene.cc:119-140 | the yaw offset is sensitivity times (x minus the remembered x) and the pitch offset is sensitivity times (the remembered y minus y); on the first call the remembered position is the current one, so both are zero; afterwards the remembered position is the current one and the first-call flag is clear |
| `CameraInput.Displacements` | draw_scene.cc:126-139 | successive calls report one displacement per position, and a first call reports zero |
| `CameraInput.DisplacementAt` | draw_scene.cc:126-139 | displacement i is position i minus the seed on the first step and minus position i - 1 afterwards |
| `CameraInput.TrackCursor` | draw_scene.cc:119-140 | feeding positions one by one to `MouseCallback` yields yaw offsets equal to the sensitivity times the x displacements and pitch offsets equal to the sensitivity times the negated y displacements, and leaves the last position remembered, or the tracker untouched on an empty run |
| `CameraInput.DisplacementsTelescope` | draw_scene.cc:126-139 | over any run of calls the displacements add up to the last position minus the position remembered before the run |
| `CameraInput.FreshTrackerTotal` | draw_scene.cc:124-139 | from a fresh tracker the displacements add up to the last minus the first position, whatever was stored before |
| `Meshes.Attributes` | draw_scene.cc:324-326 | a vertex fills 8 rows: position from row 0, colour from row 3, texel from row 6 |
| `Meshes.CubeColumnsAsWritten` | draw_scene.cc:362-394 | the cube matrix as written has 8 columns |
| `Meshes.PyramidIndicesWellFormed` | draw_scene.cc:315-322 | the pyramid has 18 indices, 6 whole triangles, each index below its 5 columns |
| `Meshes.CubeIndicesWellFormed` | draw_scene.cc:349-362 | the cube has 36 indices, 12 whole triangles, each index below its 8 columns |
| `Meshes.PyramidColumnsAssigned` | draw_scene.cc:315-342 | every column the pyramid's indices name is fully assigned |
| `Meshes.CubeAsWrittenReadsUnassignedColumn` | draw_scene.cc:349-394 | in the cube as written, columns 0-3 hold vertices 4-7, and index 7 (the 4 of triangle 0, 4, 1) names column 4, which was never assigned |
| `Meshes.CubeColumnsAssigned` | draw_scene.cc:349-394 | with vertex i in column i, every column the cube's indices name is fully assigned |
| `Meshes.NewMatrix` | draw_scene.cc:322 | a new 8-row matrix has no entry assigned |
| `Meshes.AssignVec3` | draw_scene.cc:324-325 | a 3-row block write sets three entries of one column and nothing else |
| `Meshes.AssignVec2` | draw_scene.cc:326 | a 2-row block write sets two entries of one column and nothing else |
| `Meshes.AssignVertex` | draw_scene.cc:323-326 | the three block writes of one vertex replace exactly that column with the vertex's attributes |
| `Meshes.PyramidMatrix` | draw_scene.cc:322-342 | the pyramid's writes leave column i holding pyramid vertex i, for all 5 columns |
| `Meshes.CubeMatrixAsWritten` | draw_scene.cc:362-394 | the cube's writes leave vertices 4-7 in columns 0-3 and columns 4-7 unassigned, so an index names an unassigned column |
| `Meshes.CubeMatrix` | draw_scene.cc:362-394 | with the vertex 4-7 writes aimed at columns 4-7, column i holds cube vertex i and every referenced column is assigned |
| `Scene.ModelsWellFormed` | draw_scene.cc:313-398 | the pyramid and the corrected cube are whole triangles over assigned columns; the cube as written is not |
| `Scene.ModelVector.constructor` | draw_scene.cc:460 | the model vector starts empty |
| `Scene.ModelVector.PushBack` | draw_scene.cc:346 | `push_back` appends one model |
| `Scene.ConstructModels` | draw_scene.cc:313-399 | appends exactly two models, the pyramid and then the cube as its block writes build it |
| `Scene.ConstructModelsFixed` | draw_scene.cc:313-399 | appends the pyramid and the corrected cube, both well-formed |
| `Scene.RenderScene` | draw_scene.cc:303-305 | draws every model once in vector order, model i with `texture_ids[i]`, provided the texture array has an entry per model |
| `Scene.DeleteModels` | draw_scene.cc:404-406 | deletes every model exactly once in vector order and does not change the vector |
| `Scene.RenderFrames` | draw_scene.cc:479-488 | each loop iteration draws both models, so draw k is model k mod 2 with texture k mod 2 |
| `Scene.AlternatingDraws` | draw_scene.cc:479-488 | over a two-model vector, even draws are model 0 with texture 0 and odd draws model 1 with texture 1, each well-formed exactly when its model is |
| `Scene.SceneLifecycle` | draw_scene.cc:459-491 | with the models `ConstructModels` builds, each frame draws the pyramid with the first texture and the cube as written with the second; the two-entry texture array suffices because exactly two models were built; a draw is of a well-formed model exactly when it is a pyramid draw; clean-up deletes both models once |
| `Scene.SceneLifecycleFixed` | draw_scene.cc:459-491 | the same driver over the corrected construction: each frame draws the pyramid and the corrected cube, and every drawn model is well-formed |

## Findings

| source | as written | input that shows it | evidently intended | confidence | as-written member | corrected member |
|---|---|---|---|---|---|---|
| draw_scene.cc:379-394 | the blocks commented "Cube Vertex 4..7" write columns 0-3 of the 8 x 8 matrix again | none needed: the literal data; index 7 of the cube (the 4 of triangle 0, 4, 1, line 352) names column 4, and no write touches columns 4-7 | vertex i is written to column i, for i from 4 to 7 | not executed | `Meshes.CubeMatrixAsWritten` | `Meshes.CubeMatrix` |

`Meshes.CubeAsWrittenReadsUnassignedColumn` and `Scene.ModelsWellFormed` prove the discrepancy about the value tables. `Scene.ConstructModels` keeps the as-written cube, and `Scene.SceneLifecycle`, which follows `main`, draws it on every odd draw. `Scene.ConstructModelsFixed` builds the corrected cube, and `Scene.SceneLifecycleFixed` uses it.

## Left out

- OpenGL, GLEW and GLFW calls are not modelled. They are foreign device and window-system calls with no visible semantics here. This covers window hints, the viewport, clearing, polygon mode, buffer swap, event polling, shader compilation and `glBindVertexArray(0)`.
- `LoadTexture` is not modelled. It relies on CImg loading and `permute_axes` (a foreign library) plus texture uploads. The two texture ids are parameters of `Scene.SceneLifecycle`.
- The camera controller is not modelled, because its source is not part of this model. `MoveFront`, `MoveBack`, `MoveLeft`, `MoveRight`, `AddYawOffset` and `AddPitchOffset` are returned as values.
- Model upload and drawing are not modelled, because their source is not part of this model. `SetVerticesIntoGpu` is not recorded. `Draw` is recorded only with its model and texture id; the shader program, projection and view passed to it are the same on every call and are not recorded.
- Floating-point math is not modelled: the perspective matrix, degree-to-radian conversion and the sensitivity scaling. Sensitivity is a `real` multiplier; `CameraInput.RotationOffset` multiplies exactly, without single-precision rounding.
- `aspect_ratio` (line 469) divides the integers 640 and 480 before the cast, giving 1. It feeds only the projection matrix, which is left out.
- `CameraInput.CursorTracker.MouseCallback`: positions are integers. The source stores a double cursor position into `int` fields with truncation (lines 127-128, 138-139), so for non-integer positions the first offsets are not exactly zero there.
- `ScrollCallback` (lines 142-146) only forwards the vertical offset to `AdjustZoom`, so there is nothing to state.
- The first `ErrorCallback` (lines 77-79) logs the description and terminates the process through `LOG(FATAL)`. Process termination is outside the model, and GLFW errors are not modelled.
- The second `ErrorCallback` and second `KeyCallback` (lines 195-205) duplicate the first definitions and would not compile beside them. The first `KeyCallback` is the one modelled.
- Wiring in `main` is not modelled. `MouseCallback` and `ScrollCallback` are never registered. `camera_controller_ptr` and `movement_vector_ptr` are never assigned. `UpdateCameraPose` is never called. `FLAGS_brick_filepath` and `FLAGS_stone_filepath` are undefined.
- `Keyboard.KeyboardInput.constructor` assumes a held-key vector of 1024 released keys. The source never allocates one. Its `at` calls would throw on a shorter vector.
- `main`'s start-up failure paths and exit codes are not modelled.
- `Scene.RenderScene` requires a texture id for every model. The source reads `texture_ids[i]` unchecked, which is undefined behaviour past the end.
- `Scene.DeleteModels` records the deletions only. Models are values here, so the dangling pointers the vector holds afterwards are not modelled.
