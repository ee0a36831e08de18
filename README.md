# A verified model of the Computer-Graphics-OpenGL scene renderer

The renderer is a Java/LWJGL program. It groups entities by textured model, draws them with a choice of
shaders, and answers mouse clicks by GPU picking:

- A picking pass draws every entity with its running number as colour.
- The pixel under the cursor is read back.
- The number is mapped to the entity.

Alongside this, it loads Wavefront OBJ meshes and images into OpenGL buffers and textures, and it
generates a flat terrain tile.

This project models the sequential, integer- and sequence-level logic of that program in Dafny:

- **Render list and double buffer.** The render list (`Rendering`, `Batching`) and the two-map double
  buffer with its camera registry (`GlStartResources`, `GlCodeResources`, `CameraCycle`).
- **Picking chain.** The picking pass of the entity renderer (`EntityRendering`), the picking framebuffer
  (`Picking`) and the click callback (`MouseCallbacks`). Together these prove that the number a drawn
  entity receives is the number that looks it up again.
- **Small state machines.** `Light` (`Lights`), `Camera` (`Cameras`), the movable camera
  (`MovableCameras`) and `Entity` (`Entities`).
- **Shader light slots.** The light-slot padding and uniform naming of the terrain and flat shaders
  (`Shaders`).
- **Loader side.**
  - The terrain grid (`Terrains`).
  - The OBJ face builder (`ObjBuilding`, `ObjBuildSystem`) and the OBJ loader (`ObjLoading`).
  - The texture byte conversion (`TextureLoading`) and the GPU id registry (`Loading`).

How each kind of Java state appears in the model:

- **Java objects with mutable fields** become Dafny classes. Their methods' `ensures` clauses state the
  whole new state.
- **Float arithmetic** is exact `real` arithmetic.
- **Java `int` overflow** is written out with `Wrap32`.
- **Java exceptions** become `Result`/`Outcome` values.
- **OpenGL effects** become call or event traces. Ids that OpenGL generates, framebuffer status and sampled
  texels are parameters.
- **Float matrix maths** is kept abstract: functions handed to the camera in a `Geometry` value.
- **Java's `HashMap<TexturedModel, List<Entity>>`** becomes an `EntityBatch`: a key order (the iteration
  order) plus a map. Keys are `TexturedModel` objects compared by reference, as in Java, where the class
  defines no `equals`.

## Model

| member | source | states |
|---|---|---|
| Batching.WithEntity | src/render/Render.java:99-117 | the entity is appended to the list under its model (a fresh `[e]` when absent); every other key keeps its list; the key set gains only that model |
| Batching.WithEntityGrowsPass | src/render/Render.java:99-117 | adding an entity keeps the batch well formed and raises the total entity count by exactly one |
| Batching.WithNewKeyAppends | src/render/Render.java:104-116 | for a model not yet present, the flattened draw order is the old one followed by the new entity |
| Batching.NewKeyKeepsWellFormed | src/render/Render.java:104-113 | inserting a new key keeps the key order duplicate-free and covering the map |
| Batching.SubmitAllGroupsInOrder | src/render/Render.java:99-117 | after any sequence of submissions a model has a list exactly when something was submitted under it, that list is the submissions under it in submission order, and the total count equals the number of submissions |
| Batching.SameContentsSeparateGroups | src/render/Render.java:104 | two distinct `TexturedModel` objects with equal vao, vertex count and texture still form two separate groups |
| Batching.EntityBatch.constructor | src/render/Render.java:64 | a new map is empty |
| Batching.EntityBatch.Get | src/render/Render.java:104 | `get` yields the stored list exactly when the key is present, null otherwise |
| Batching.EntityBatch.Put | src/render/Render.java:111 | `put` stores the list and appends a new key to the iteration order, keeping the batch well formed |
| Batching.EntityBatch.Clear | src/render/Render.java:91 | `clear` leaves an empty map |
| Rendering.Render.constructor | src/render/Render.java:59-65 | the renderer starts with a fresh empty entity map |
| Rendering.Render.ProcessEntity | src/render/Render.java:99-117 | the map afterwards is `WithEntity` of the map before, under the entity's own model |
| Rendering.Render.Render | src/render/Render.java:73-92 | rendering succeeds exactly when a light and an in-range active camera exist; the first light is loaded whenever one exists, even when the camera lookup then throws; on success it loads the active camera, draws the entities in map order and clears the map; otherwise it throws, loads no camera, draws nothing and leaves the map untouched |
| GlStartResources.Rotated | src/glStart/RenderResources.java:96-99 | moving the deque head to the tail: same length, old head last, the rest shifted forward |
| GlStartResources.RotatedPairSwaps | src/glStart/RenderResources.java:98 | on a two-map deque a rotation swaps the two maps |
| GlStartResources.RotatedPairTwiceRestores | src/glStart/RenderResources.java:98 | two consecutive swaps restore the original roles |
| GlStartResources.RotatedKeepsElements | src/glStart/RenderResources.java:98 | a rotation neither loses nor duplicates a map |
| GlStartResources.RenderResources.constructor | src/glStart/RenderResources.java:70-83 | black sky, no cameras or lights, camera index 0, and two distinct new empty maps |
| GlStartResources.RenderResources.GetActiveEntityBuffer | src/glStart/RenderResources.java:89-91 | returns the deque head, which is not the last-used map |
| GlStartResources.RenderResources.GetLastUsedEntityBuffer | src/glStart/RenderResources.java:105-107 | returns the deque tail, which is not the active map |
| GlStartResources.RenderResources.SwapEntityBuffer | src/glStart/RenderResources.java:96-99 | the formerly active map becomes last-used and vice versa, neither map's contents change, and nothing else changes |
| GlStartResources.RenderResources.AddCamera | src/glStart/RenderResources.java:114-117 | appends the camera and changes nothing else |
| GlStartResources.RenderResources.AddShader | src/glStart/RenderResources.java:124-127 | throws a null-pointer exception while the shader list is missing, which the constructor never creates; with a list it appends; nothing else changes |
| GlStartResources.RenderResources.AddLight | src/glStart/RenderResources.java:133-136 | appends the light and changes nothing else |
| GlStartResources.RenderResources.SetActiveCamera | src/glStart/RenderResources.java:143-164 | an absent camera is appended first; afterwards the index selects the camera's first occurrence; lights and maps are untouched |
| GlStartResources.RenderResources.NextCamera | src/glStart/RenderResources.java:169-182 | the index moves to `NextIndex` (0 after the last camera) |
| GlStartResources.RenderResources.PreviousCamera | src/glStart/RenderResources.java:187-200 | the index moves to `PreviousIndex` (`size - 1` from index 0 or below) |
| GlStartResources.RenderResources.GetActiveCamera | src/glStart/RenderResources.java:207-210 | the selected camera when the index is in range, an index-out-of-bounds exception otherwise |
| GlStartResources.RenderResources.GetShaderList | src/glStart/RenderResources.java:225-228 | copying a missing shader list throws a null-pointer exception; otherwise the copy holds the shaders |
| GlStartResources.RenderResources.GetCameraList | src/glStart/RenderResources.java:233-236 | returns the cameras as a value, so later changes to it cannot reach the registry |
| GlStartResources.RenderResources.GetLightList | src/glStart/RenderResources.java:241-244 | returns the lights in list order (as a value, not the live list) |
| GlStartResources.RenderResources.SetSkyColour | src/glStart/RenderResources.java:257-260 | sets the sky colour only |
| GlStartResources.RenderResources.SetPickEngine | src/glStart/RenderResources.java:273-276 | sets the picking engine only |
| GlCodeResources.RenderResources.constructor | src/glCode/RenderResources.java:51-59 | empty camera and light lists, camera index 0, no shader list |
| GlCodeResources.RenderResources.AddCamera | src/glCode/RenderResources.java:66-69 | appends the camera and changes nothing else |
| GlCodeResources.RenderResources.AddShader | src/glCode/RenderResources.java:76-79 | throws a null-pointer exception while the shader list is missing, which the constructor never creates; with a list it appends; nothing else changes |
| GlCodeResources.RenderResources.AddLight | src/glCode/RenderResources.java:85-88 | appends the light and changes nothing else |
| GlCodeResources.RenderResources.SetActiveCamera | src/glCode/RenderResources.java:95-116 | an absent camera is appended first; afterwards the index selects the camera's first occurrence |
| GlCodeResources.RenderResources.NextCamera | src/glCode/RenderResources.java:121-134 | the index moves to `NextIndex` |
| GlCodeResources.RenderResources.PreviousCamera | src/glCode/RenderResources.java:139-152 | the index moves to `PreviousIndex` |
| GlCodeResources.RenderResources.GetActiveCamera | src/glCode/RenderResources.java:159-162 | the selected camera when the index is in range, an index-out-of-bounds exception otherwise |
| GlCodeResources.RenderResources.GetShaderList | src/glCode/RenderResources.java:177-180 | copying a missing shader list throws a null-pointer exception; otherwise the copy holds the shaders |
| GlCodeResources.RenderResources.GetCameraList | src/glCode/RenderResources.java:185-188 | returns a copy of the cameras |
| GlCodeResources.RenderResources.GetLightList | src/glCode/RenderResources.java:193-196 | returns the lights in list order (as a value, not the live list) |
| CameraCycle.IndexOf | src/glStart/RenderResources.java:146 | `indexOf`: -1 exactly when absent, otherwise the first position holding the camera |
| CameraCycle.SelectionStaysInRange | src/glStart/RenderResources.java:169-200 | on a non-empty list with an in-range index, next and previous keep the index in range |
| CameraCycle.NextAndPreviousAreInverse | src/glStart/RenderResources.java:169-200 | next then previous, and previous then next, return to the same camera |
| CameraCycle.PreviousOnEmptyList | src/glCode/RenderResources.java:139-152 | on an empty list previous sets the index to -1 |
| CameraCycle.NextTimesAdd | src/glStart/RenderResources.java:169-182 | a run of a + b next steps is a run of a steps followed by a run of b steps |
| CameraCycle.NextTimesClimbs | src/glStart/RenderResources.java:169-182 | k next steps from index c below the last camera land on c + k |
| CameraCycle.FullCycleReturns | src/glStart/RenderResources.java:169-182 | as many next steps as there are cameras return to the starting camera |
| EntityRendering.ScanPrepare | src/render/EntityRenderer.java:160-194 | binding a group disables culling exactly when its texture has transparency and leaves the draw record unchanged |
| EntityRendering.ScanUnbind | src/render/EntityRenderer.java:199-214 | unbinding a group re-enables culling |
| EntityRendering.ScanInstance | src/render/EntityRenderer.java:86-107 | one entity's uniform loads and draw call add exactly one draw, with this entity's transform and the group's vertex count |
| EntityRendering.ScanList | src/render/EntityRenderer.java:86-107 | a group's entity loop adds one draw per entity, in list order |
| EntityRendering.ScanGroups | src/render/EntityRenderer.java:79-111 | the whole map adds one draw per entity of the flattened map, in key order, and leaves culling on |
| EntityRendering.GroupPassCount | src/render/EntityRenderer.java:131-134 | the picking counter advances once per entity in the map |
| EntityRendering.PickingNumbersInstances | src/render/EntityRenderer.java:114-153 | the entity at 0-based position n of the flattened map is drawn with the picking shader and object index n + 1, using its group's vertex count and culling setting; culling is on afterwards |
| EntityRendering.RenderDrawsInstances | src/render/EntityRenderer.java:74-112 | each entity is drawn once, in flattened order: with `flat` through the flat shader without a texture offset, otherwise through the static shader with its own texture offset |
| EntityRendering.GroupWireframe | src/render/EntityRenderer.java:185 | every wireframe uniform load of a render pass carries the pass's `wireframe` flag |
| EntityRendering.PickingWithoutWireframe | src/render/EntityRenderer.java:126 | the picking pass only ever loads wireframe off |
| EntityRendering.EntityRenderer.constructor | src/render/EntityRenderer.java:58-67 | a new renderer has issued no GL calls |
| EntityRendering.EntityRenderer.PrepareTexturedModel | src/render/EntityRenderer.java:160-194 | appends the group-binding calls |
| EntityRendering.EntityRenderer.UnbindTexturedModel | src/render/EntityRenderer.java:199-214 | appends the unbinding calls, culling first |
| EntityRendering.EntityRenderer.PrepareNormalInstance | src/render/EntityRenderer.java:221-235 | loads the transform into the static shader, then the texture offset |
| EntityRendering.EntityRenderer.PrepareFlatShadingInstance | src/render/EntityRenderer.java:242-251 | loads the transform into the flat shader only |
| EntityRendering.EntityRenderer.PreparePickingInstance | src/render/EntityRenderer.java:258-267 | loads the transform into the picking shader only |
| EntityRendering.EntityRenderer.RenderInstances | src/render/EntityRenderer.java:86-107 | the inner loop of `render` appends one instance's calls per entity |
| EntityRendering.EntityRenderer.RenderPickingInstances | src/render/EntityRenderer.java:131-148 | the inner loop of `renderForPicking` appends the numbered calls and returns the counter advanced by the list length |
| EntityRendering.EntityRenderer.Render | src/render/EntityRenderer.java:74-112 | appends exactly `RenderTrace` of the map, whose draws `RenderDrawsInstances` describes |
| EntityRendering.EntityRenderer.RenderForPicking | src/render/EntityRenderer.java:114-153 | appends exactly `PickingTrace` of the map, whose draws `PickingNumbersInstances` describes |
| MouseCallbacks.EntityAtOutside | src/callbacks/MouseButtonCallback.java:120-160 | an object id of 0 or below, or above the total entity count, yields no entity |
| MouseCallbacks.FindInstance | src/callbacks/MouseButtonCallback.java:125-160 | the list-skipping loop returns element n of the concatenated lists, or null when n is out of range; empty lists consume no index |
| MouseCallbacks.PickedNumberNamesDrawnEntity | src/callbacks/MouseButtonCallback.java:113-163 | the number drawn for the n-th entity by the picking pass looks up that same entity |
| MouseCallbacks.LookedUpNumberWasDrawn | src/render/EntityRenderer.java:134 | an id that finds an entity is in 1..count, and it is the object index of exactly one draw, the one that drew that entity |
| MouseCallbacks.MouseButtonCallback.constructor | src/callbacks/MouseButtonCallback.java:39-43 | keeps the resources and a zero cursor buffer |
| MouseCallbacks.MouseButtonCallback.GetEntityById | src/callbacks/MouseButtonCallback.java:113-163 | a null pick throws a null-pointer exception; otherwise the result is the entity the integer id names in the last-used map (never the active one) |
| MouseCallbacks.MouseButtonCallback.Invoke | src/callbacks/MouseButtonCallback.java:50-81 | only a left-button press acts; it stores the cursor, reads the pixel at the flipped row, and runs the found entity's callback once when it has one; an incomplete framebuffer throws |
| Common.JavaIntCast | src/callbacks/MouseButtonCallback.java:62-63 | a float-to-int cast truncates toward zero |
| Picking.FromBuffer | src/picking/PickedPixel.java:35-42 | object, draw and primitive ids are buffer elements 0, 1 and 2; a shorter buffer throws |
| Picking.FromBufferInvertsSamples | src/picking/PickedPixel.java:35-42 | decoding the three samples of a pixel gives back that pixel |
| Picking.FromBufferIgnoresRest | src/picking/PickedPixel.java:37-39 | elements past the third do not matter |
| Picking.FlipY | src/picking/PickingEngine.java:243 | the sampled row plus the window row is `HEIGHT`: window rows 0..HEIGHT-1 go to rows 1..HEIGHT, and row 0 to `HEIGHT` |
| Picking.FlipYMissesByOne | src/picking/PickingEngine.java:243 | for window rows 0..HEIGHT-1 the sampled row is 1..HEIGHT; window row 0 samples row HEIGHT |
| Picking.FlipYCorrected | src/picking/PickingEngine.java:243 | the sampled row plus the window row is `HEIGHT - 1`, so a row in 0..HEIGHT-1 stays in 0..HEIGHT-1 |
| Picking.FlipYCorrectedIsBijection | src/picking/PickingEngine.java:243 | the corrected flip maps 0..HEIGHT-1 onto itself and is its own inverse |
| Picking.Attached | src/picking/PickingEngine.java:59-91 | after attaching the new textures the framebuffers are unbound only when complete, the read buffer and texture binding are reset, and size, framebuffer id and deletion records stay |
| Picking.PickingEngine.constructor | src/picking/PickingEngine.java:44-50 | stores the window size and runs `init` |
| Picking.PickingEngine.Init | src/picking/PickingEngine.java:59-91 | returns true exactly when the framebuffer is complete and no GL error is pending; on incompleteness it returns early and leaves the framebuffer bound |
| Picking.PickingEngine.RegenerateTextures | src/picking/PickingEngine.java:152-186 | updates the size, deletes the two old textures and attaches new ones; returns early with the framebuffer bound when incomplete |
| Picking.PickingEngine.Cleanup | src/picking/PickingEngine.java:193-202 | deletes both textures and the framebuffer and always returns true |
| Picking.PickingEngine.EnableWriting | src/picking/PickingEngine.java:207-210 | binds the picking framebuffer for drawing |
| Picking.PickingEngine.DisableWriting | src/picking/PickingEngine.java:215-218 | unbinds the draw framebuffer |
| Picking.PickingEngine.ReadPixel | src/picking/PickingEngine.java:227-269 | an incomplete framebuffer yields null and changes nothing; otherwise it decodes the texel at `(x, HEIGHT - y)` and resets the read buffer and read framebuffer |
| Entities.TexturedModel.constructor | src/entity/model/TexturedModel.java:25-31 | stores vao id, vertex count and texture |
| Entities.Entity.constructor | src/entity/Entity.java:58-71 | stores the six arguments; no callback is set |
| Entities.Entity.IncreasePosition | src/entity/Entity.java:78-83 | adds the deltas to the position and changes nothing else |
| Entities.Entity.IncreaseRotation | src/entity/Entity.java:90-95 | adds the deltas to the three rotations and changes nothing else |
| Entities.Entity.SetModel | src/entity/Entity.java:108-111 | changes the model only |
| Entities.Entity.SetPosition | src/entity/Entity.java:124-127 | changes the position only |
| Entities.Entity.SetRotationX | src/entity/Entity.java:140-143 | changes the x rotation only |
| Entities.Entity.SetRotationY | src/entity/Entity.java:156-159 | changes the y rotation only |
| Entities.Entity.SetRotationZ | src/entity/Entity.java:172-175 | changes the z rotation only |
| Entities.Entity.SetScale | src/entity/Entity.java:188-191 | changes the scale only |
| Entities.Entity.SetCallback | src/entity/Entity.java:200-203 | replaces any previous callback; `None` (Java's `null`) clears it |
| Entities.Entity.DoAction | src/entity/Entity.java:210-216 | invokes the callback exactly once, with this entity, when one is set; otherwise does nothing |
| Lights.Toggled | src/entity/light/Light.java:104-118 | a locked light is unchanged; otherwise `on` flips, and position, attenuation, backup and lock stay |
| Lights.ToggledConsistent | src/entity/light/Light.java:104-118 | toggling keeps the colour equal to the backup when on and zero when off |
| Lights.ToggleTwiceRestores | src/entity/light/Light.java:104-118 | two toggles restore the exact colour and on-flag |
| Lights.OffThenOnShowsBackup | src/entity/light/Light.java:111-117 | switching off shows black, switching on again shows the backup colour |
| Lights.ColorSetWhileOffShines | src/entity/light/Light.java:95-99 | setting a colour on a switched-off light makes it shine while flagged off, and two toggles no longer restore it |
| Lights.ColorSetKeepingSwitch | src/entity/light/Light.java:95-99 | the corrected `setColor` always updates the backup and keeps the switch state |
| Lights.ColorSetKeepingSwitchConsistent | src/entity/light/Light.java:95-99 | the corrected `setColor` keeps a consistent light consistent, so toggling twice restores it |
| Lights.Light.constructor | src/entity/light/Light.java:31-40 | on, toggleable, colour and backup as given, attenuation (1,0,0) |
| Lights.Light.WithAttenuation | src/entity/light/Light.java:47-56 | as the two-argument constructor but with the given attenuation |
| Lights.Light.SetPosition | src/entity/light/Light.java:77-82 | changes the position only |
| Lights.Light.SetColor | src/entity/light/Light.java:95-99 | sets colour and backup, whatever the switch state |
| Lights.Light.Toggle | src/entity/light/Light.java:104-118 | the new state is `Toggled` of the old |
| Lights.Light.SetToggleMode | src/entity/light/Light.java:124-126 | changes the lock only |
| Cameras.ClampAngle | src/camera/Camera.java:411 | the result lies in [-90, 90], equals the input inside that range and the nearer bound outside it |
| Cameras.ClampZoom | src/camera/Camera.java:331-334 | the result is the input when non-negative and 0 otherwise |
| Cameras.ClampsAreIdempotent | src/camera/Camera.java:405-417 | clamping twice is clamping once |
| Cameras.ConstructedConsistent | src/camera/Camera.java:90-116 | a new camera has a view matrix built from its fields, angles that are the negated pitch and yaw, roll 0 (with the argument kept as original), zoom 5, and a target taken from its view |
| Cameras.OrbitedConsistent | src/camera/Camera.java:172-235 | recomputing the position places the camera on its orbit about the target, with yaw = -horizontal angle, pitch = -vertical angle, a fresh view matrix, and roll, zoom, target and angles unchanged |
| Cameras.ResetLeavesViewStale | src/camera/Camera.java:306-320 | after a reset of a moved camera the view matrix is the old one, so it no longer matches the restored position, and the target is taken from that stale view |
| Cameras.ResetCorrected | src/camera/Camera.java:306-320 | a reset that rebuilds the view matrix before finding the target leaves the camera consistent |
| Cameras.ResetCorrectedRestoresConstruction | src/camera/Camera.java:306-320 | for a camera created with roll argument 0, the corrected reset at standard zoom gives exactly the state the constructor built |
| Cameras.ResetRestoresRollArgument | src/camera/Camera.java:306-320 | the constructor sets roll 0 but records the roll argument, which reset restores; for a non-zero argument neither reset returns the constructed state |
| Cameras.ForwardAxis | src/camera/Camera.java:440 | the forward axis is the third row of the view rotation |
| Cameras.RightAxis | src/camera/Camera.java:492 | the right axis is the first row of the view rotation |
| Cameras.UpAxisAsWritten | src/camera/Camera.java:517 | the up axis as written takes its last component from the third row |
| Cameras.UpAxisAsWrittenSkewed | src/camera/Camera.java:517 | for an orthonormal rotation with those entries the up axis as written is not perpendicular to the right axis |
| Cameras.UpAxisCorrected | src/camera/Camera.java:517 | the corrected up axis is the second row of the view rotation |
| Cameras.MovementAxesOrthogonal | src/camera/Camera.java:424-529 | for an orthonormal rotation the right, corrected up and forward axes are pairwise perpendicular |
| Cameras.Camera.constructor | src/camera/Camera.java:90-116 | the state is `Constructed`, with no light attached |
| Cameras.Camera.CalculateTargetPoint | src/camera/Camera.java:121-136 | the target becomes the world point found from the view matrix; nothing else changes |
| Cameras.Camera.CalculateRelativePositionToTarget | src/camera/Camera.java:172-235 | the state becomes `Orbited`; an attached light moves to the new position |
| Cameras.Camera.CalculateCameraRotations | src/camera/Camera.java:240-251 | yaw and pitch become the negated horizontal and vertical angles |
| Cameras.Camera.UpdateViewMatrix | src/camera/Camera.java:343-346 | the view matrix is rebuilt from pitch, yaw, roll and position |
| Cameras.Camera.Reset | src/camera/Camera.java:306-320 | restores position and rotations and their negated angles, then recomputes the target without rebuilding the view matrix |
| Cameras.Camera.UpdateZoom | src/camera/Camera.java:327-338 | the zoom becomes `ClampZoom(zoom + dx)`; position and view are not recomputed |
| Cameras.Camera.UpdateTargetPosition | src/camera/Camera.java:355-382 | the target moves by (dx, dy, dz) and the camera re-orbits it |
| Cameras.Camera.MoveRelative | src/camera/MovableCamera.java:36-39 | exactly `updateTargetPosition` |
| Cameras.Camera.UpdateHorAngle | src/camera/Camera.java:389-398 | the horizontal angle grows by dx and the camera re-orbits |
| Cameras.Camera.UpdateVerAngle | src/camera/Camera.java:405-417 | the vertical angle grows by dx, is clamped to [-90, 90], and the camera re-orbits |
| Cameras.Camera.MoveForward | src/camera/Camera.java:424-471 | one target move by the normalised forward axis scaled by -dz |
| Cameras.Camera.MoveRight | src/camera/Camera.java:478-508 | one target move by the normalised right axis scaled by dx |
| Cameras.Camera.MoveUp | src/camera/Camera.java:515-529 | one target move by the as-written up axis scaled by dy |
| Cameras.Camera.AttachLight | src/camera/Camera.java:536-540 | the light is attached and moved to the camera position at once |
| Cameras.Camera.DetachLight | src/camera/Camera.java:545-547 | no light is attached any more; the camera state is unchanged |
| MovableCameras.Moved | src/entity/camera/MovableCamera.java:29-34 | each coordinate moves by its own delta |
| MovableCameras.MovedHorizontal | src/entity/camera/MovableCamera.java:40-43 | only x changes: it is the general move with the y and z deltas 0 |
| MovableCameras.MovedVertical | src/entity/camera/MovableCamera.java:49-52 | only y changes: it is the general move with the x and z deltas 0 |
| MovableCameras.MovedOut | src/entity/camera/MovableCamera.java:58-61 | only z changes: it is the general move with the x and y deltas 0 |
| MovableCameras.MoveIsThreeAxisMoves | src/entity/camera/MovableCamera.java:29-61 | `move` equals the three single-axis moves, in either order |
| MovableCameras.MovesCompose | src/entity/camera/MovableCamera.java:29-34 | two moves add up, and a move by the negated deltas undoes one |
| MovableCameras.MovableCamera.constructor | src/entity/camera/MovableCamera.java:20-23 | stores position and rotations |
| MovableCameras.MovableCamera.Move | src/entity/camera/MovableCamera.java:29-34 | the position becomes `Moved`; rotations stay |
| MovableCameras.MovableCamera.MoveHorizontal | src/entity/camera/MovableCamera.java:40-43 | the position becomes `MovedHorizontal`; rotations stay |
| MovableCameras.MovableCamera.MoveVertical | src/entity/camera/MovableCamera.java:49-52 | the position becomes `MovedVertical`; rotations stay |
| MovableCameras.MovableCamera.MoveOut | src/entity/camera/MovableCamera.java:58-61 | the position becomes `MovedOut`; rotations stay |
| Shaders.DecimalString | src/shader/TerrainShader.java:121 | the decimal text of a slot number is never empty |
| Shaders.DecimalStringInjective | src/shader/TerrainShader.java:121 | different slot numbers have different decimal texts |
| Shaders.UniformName | src/shader/TerrainShader.java:121-123 | `name + "[" + i + "]"`: the array name, then the bracketed index |
| Shaders.UniformNameInjective | src/shader/TerrainShader.java:120-124 | different slots of one array get different uniform names |
| Shaders.LightArraysHaveDistinctNames | src/shader/TerrainShader.java:121-123 | no slot of one light array shares a name with a slot of another |
| Shaders.States | src/shader/TerrainShader.java:168-175 | the light values read by `loadLights`, one per light |
| Shaders.TerrainLightUploadsAt | src/shader/TerrainShader.java:165-183 | slot i gets the position, colour and attenuation of light i when there is one, and (0,0,0), (0,0,0), (1,0,0) otherwise, at slot i's locations |
| Shaders.TerrainLightUploadsLength | src/shader/TerrainShader.java:167 | exactly three uploads per slot, for all `MAX_LIGHTS_IN_SHADERS` slots |
| Shaders.TerrainIgnoresExtraLights | src/shader/TerrainShader.java:167-168 | lights beyond the slot count are never loaded |
| Shaders.FlatLightUploadsAt | src/shader/FlatShader.java:143-159 | slot i gets the position and colour of light i when there is one, and (0,0,0) twice otherwise; no attenuation |
| Shaders.FlatLightUploadsLength | src/shader/FlatShader.java:145 | exactly two uploads per slot |
| Shaders.LocateLightSlot | src/shader/TerrainShader.java:121-123 | slot i of each location array gets the location of its array's name for slot i; the other slots are untouched |
| Shaders.LocateLightArrays | src/shader/TerrainShader.java:117-124 | three new arrays of the slot count, each slot holding the location of its uniform name |
| Shaders.LocateFlatLightArrays | src/shader/FlatShader.java:97-102 | two new arrays of length 2, each slot holding the location of its uniform name |
| Shaders.TerrainShader.constructor | src/shader/TerrainShader.java:79-83 | locates every uniform; nothing is uploaded |
| Shaders.TerrainShader.GetAllUniformVarLocations | src/shader/TerrainShader.java:106-125 | afterwards every scalar and every light slot holds its uniform's location |
| Shaders.TerrainShader.LocateScalars | src/shader/TerrainShader.java:108-114 | the six scalar uniforms hold their locations |
| Shaders.TerrainShader.LoadLights | src/shader/TerrainShader.java:165-183 | appends exactly `TerrainLightUploads` for the current lights |
| Shaders.TerrainShader.LoadLightSlot | src/shader/TerrainShader.java:168-181 | one loop pass appends slot i's three uploads |
| Shaders.TerrainShader.LoadShineVariables | src/shader/TerrainShader.java:191-197 | damper to `shineDamper`, then reflectivity to `reflectivity` |
| Shaders.TerrainShader.LoadSkyColour | src/shader/TerrainShader.java:203-206 | the colour to `skyColour` |
| Shaders.FlatShader.constructor | src/shader/FlatShader.java:63-67 | locates every uniform; nothing is uploaded |
| Shaders.FlatShader.GetAllUniformVarLocations | src/shader/FlatShader.java:90-103 | afterwards both light slots hold their uniform's location |
| Shaders.FlatShader.LoadLights | src/shader/FlatShader.java:143-159 | appends exactly `FlatLightUploads` for the current lights |
| Terrains.OriginIgnoresRow | src/terrain/Terrain.java:54-56 | the origin does not depend on `gridZ`; off the diagonal, z differs from `gridZ * SIZE` |
| Terrains.OriginCorrectedInjective | src/terrain/Terrain.java:54-56 | with z from `gridZ`, different grid cells get different origins |
| Terrains.SlotParts | src/terrain/Terrain.java:78-100 | row i, column j is stored at slot `i * VC + j`, and the slot determines both |
| Terrains.GridPointPlacement | src/terrain/Terrain.java:83-97 | grid point (i, j) sits at (j/(VC-1) * SIZE, 0, i/(VC-1) * SIZE) with texture (j/(VC-1), i/(VC-1)), from (0,0,0) to (SIZE,0,SIZE) |
| Terrains.PutGridPoint | src/terrain/Terrain.java:82-100 | one inner pass writes that point's vertex, up normal and texture coordinates and leaves earlier slots alone |
| Terrains.GenerateVertices | src/terrain/Terrain.java:70-102 | all `VC * VC` slots hold their grid point, the up normal (0,1,0) and their texture coordinates |
| Terrains.QuadSlotParts | src/terrain/Terrain.java:106-108 | quads are numbered row-major, and the number determines the quad |
| Terrains.QuadPlacement | src/terrain/Terrain.java:110-119 | quad (gz, gx) occupies its six consecutive index entries |
| Terrains.IndicesNameGridVertices | src/terrain/Terrain.java:110-119 | every index names a vertex, and the two triangles of a quad share the top-right and bottom-left corners |
| Terrains.PutQuad | src/terrain/Terrain.java:110-119 | one inner pass writes topLeft, bottomLeft, topRight, topRight, bottomLeft, bottomRight and nothing else |
| Terrains.FillQuads | src/terrain/Terrain.java:105-121 | the loops fill the first `6 (VC-1)^2` entries in row-major quad order and leave the rest |
| Terrains.GenerateIndicesAsWritten | src/terrain/Terrain.java:74-121 | the array is `6 (VC-1) VC` long; its last `6 (VC-1)` entries stay 0 |
| Terrains.GenerateIndicesCorrected | src/terrain/Terrain.java:105-121 | an array of exactly `6 (VC-1)^2` entries, each a quad corner below `VC * VC` |
| Terrains.Terrain.constructor | src/terrain/Terrain.java:48-60 | origin as written, the generated vertex, normal and texture arrays, and the as-written index array |
| ObjBuilding.Resolve | src/loader/ObjBuilder.java:183-202 | a 1-based index k selects element k-1; a negative n selects element size+n-1; 0 and out-of-range indices select nothing |
| ObjBuilding.RelativeIndexMissesByOne | src/loader/ObjBuilder.java:186-191 | -1 selects the second-to-last element (nothing in a one-element list), and -size is rejected |
| ObjBuilding.ResolveCorrected | src/loader/ObjBuilder.java:186-191 | the Wavefront convention: a negative n selects element size+n |
| ObjBuilding.ResolveCorrectedAgrees | src/loader/ObjBuilder.java:186-191 | with the correction, k and k-size-1 name the same element |
| ObjBuilding.Select | src/loader/ObjBuilder.java:193-202 | a valid index replaces the carried component; an invalid one keeps the previous triple's; either way the result is the carried component or an element of the list |
| ObjBuilding.FaceVerticesAt | src/loader/ObjBuilder.java:177-270 | the m-th appended vertex has index base + m and the components carried through the first m+1 triples |
| ObjBuilding.FaceVerticesLength | src/loader/ObjBuilder.java:177-270 | one vertex per complete triple |
| ObjBuilding.CarriedComponentsComeFromPools | src/loader/ObjBuilder.java:166-258 | every carried component is null or an element of its list |
| ObjBuilding.NumberingExtends | src/loader/ObjBuilder.java:261-265 | appending a vertex whose index is the list size keeps each index equal to its position |
| ObjBuilding.ObjBuilder.constructor | src/loader/ObjBuilder.java:83-93 | no name, empty lists, no current material, empty material library |
| ObjBuilding.ObjBuilder.SetObjFilename | src/loader/ObjBuilder.java:100-103 | sets the name only |
| ObjBuilding.ObjBuilder.AddVertexGeometric | src/loader/ObjBuilder.java:110-114 | appends the position only |
| ObjBuilding.ObjBuilder.AddVertexTexture | src/loader/ObjBuilder.java:121-125 | appends the texture coordinate only |
| ObjBuilding.ObjBuilder.AddVertexNormal | src/loader/ObjBuilder.java:132-135 | appends the normal only |
| ObjBuilding.ObjBuilder.AddPoints | src/loader/ObjBuilder.java:142-146 | changes nothing |
| ObjBuilding.ObjBuilder.AddLine | src/loader/ObjBuilder.java:153-157 | changes nothing |
| ObjBuilding.ObjBuilder.NewMtl | src/loader/ObjBuilder.java:351-355 | changes nothing, so the material library stays empty |
| ObjBuilding.ObjBuilder.SetCurrentUseMaterial | src/loader/ObjBuilder.java:341-344 | the current material is the library entry or null; with the library empty it is always null |
| ObjBuilding.ObjBuilder.AddFace | src/loader/ObjBuilder.java:164-279 | appends one numbered vertex per complete triple; a length not divisible by 3 throws after the complete triples |
| ObjBuildSystem.VertexGroup.constructor | src/loader/ObjBuildSystem/VertexGroup.java:33-39 | fixed material and map, empty vertex list |
| ObjBuildSystem.VertexGroup.AddVertex | src/loader/ObjBuildSystem/VertexGroup.java:45-47 | appends at the end and keeps the earlier vertices in order |
| ObjLoading.KindOf | src/loader/OBJLoader.java:42-68 | a line is a vertex, texture, normal or face line exactly when it starts with "v ", "vt ", "vn " or "f " |
| ObjLoading.AttributesOfPrefix | src/loader/OBJLoader.java:42-67 | the attribute phase up to line k depends only on the first k lines |
| ObjLoading.AttributeFailureStays | src/loader/OBJLoader.java:109-112 | once an attribute line throws, later lines add nothing |
| ObjLoading.FirstFaceFrom | src/loader/OBJLoader.java:38-76 | the first face line at or after k, or the end of the file |
| ObjLoading.FirstFaceIsUnique | src/loader/OBJLoader.java:68-76 | a line that is a face line with no face line before it is the first face |
| ObjLoading.InsertionKeepsFirstFace | src/loader/OBJLoader.java:68-76 | a line inserted after the first face does not move it |
| ObjLoading.InsertionKeepsAttributes | src/loader/OBJLoader.java:42-67 | a line inserted after the first face does not change the attributes read |
| ObjLoading.PutTexture | src/loader/OBJLoader.java:155-156 | writing a texture slot changes neither the indices, the normals, nor the array length |
| ObjLoading.PutNormal | src/loader/OBJLoader.java:158-160 | writing a normal slot changes neither the indices, the texture slots, nor the array length |
| ObjLoading.CornerWritesItsVertexSlots | src/loader/OBJLoader.java:152-160 | a corner appends p-1 and writes (u, 1-v) and the normal into the slots of vertex p-1, overwriting earlier values |
| ObjLoading.FittingCornerStep | src/loader/OBJLoader.java:152-153 | a corner whose indices fit appends its vertex index and keeps the arrays sized |
| ObjLoading.FittingLineStep | src/loader/OBJLoader.java:89-100 | a fitting face line contributes exactly its first three corners |
| ObjLoading.FittingFacesIndexInOrder | src/loader/OBJLoader.java:80-104 | the index list is the corners' vertex indices in file order |
| ObjLoading.WrappedCornerWritesAnotherVertex | src/loader/OBJLoader.java:155-156 | `p * 2` wraps in Java `int`, so the corner index -2147483646 writes the texture slots of vertex 1 |
| ObjLoading.FacesRunFailureStays | src/loader/OBJLoader.java:109-112 | once a face line throws, later lines change nothing |
| ObjLoading.NonFaceLineIgnored | src/loader/OBJLoader.java:83-87 | in the face phase, removing a non-face line changes nothing |
| ObjLoading.LateLineIgnored | src/loader/OBJLoader.java:80-87 | a non-face line inserted after the first face, even a "v " line, does not change the result |
| ObjLoading.NoFaceLeavesArraysNull | src/loader/OBJLoader.java:28-76 | a file without a face line leaves the texture and normal arrays null and no indices |
| ObjLoading.CoordinatesOfVertex | src/loader/OBJLoader.java:118-124 | entries 3k, 3k+1 and 3k+2 of the flattened array are x, y and z of vertex k |
| ObjLoading.ProcessVertex | src/loader/OBJLoader.java:144-162 | appends the index and writes the arrays exactly as `CornerStep`, or reports the exception it throws |
| ObjLoading.WriteTexture | src/loader/OBJLoader.java:155-156 | the two texture writes, as `PutTexture` |
| ObjLoading.WriteNormal | src/loader/OBJLoader.java:158-160 | the three normal writes, as `PutNormal` |
| ObjLoading.ReadAttributes | src/loader/OBJLoader.java:38-77 | the first loop reads the attributes before the first face line, or stops at the line that throws |
| ObjLoading.ReadFaces | src/loader/OBJLoader.java:80-104 | the second loop's arrays, indices and exception are those of `FacesRun` on the remaining lines |
| ObjLoading.FlattenVertices | src/loader/OBJLoader.java:115-124 | the flattened array holds x, y, z of each vertex in order |
| ObjLoading.CopyIndices | src/loader/OBJLoader.java:116-130 | the index array copies the index list in order |
| ObjLoading.LoadObjModel | src/loader/OBJLoader.java:14-133 | the arrays handed to the loader: flattened vertices, the texture and normal arrays (null without a face line), and the indices; an array size that overflows `int` throws |
| TextureLoading.Converted | src/loader/TextureLoader.java:92-124 | four output bytes per complete input pixel, each from its own pixel, in pixel order |
| TextureLoading.OutputByteOfPixel | src/loader/TextureLoader.java:92-124 | ABGR pixels come out as (b3, b2, b1, b0); BGR pixels as (b2, b1, b0, alpha) |
| TextureLoading.FourByteConversionIsInvolution | src/loader/TextureLoader.java:92-98 | reversing four-byte pixels twice gives the raster back |
| TextureLoading.ThreeByteConversionInjective | src/loader/TextureLoader.java:115-124 | different BGR rasters give different RGBA buffers |
| TextureLoading.WideImageOverflows | src/loader/TextureLoader.java:88-89 | an image wider than tall overflows the `height * height * 4` buffer |
| TextureLoading.TallImageLoads | src/loader/TextureLoader.java:84-98 | an image at least as tall as wide is converted completely |
| TextureLoading.CorrectedCapacityFits | src/loader/TextureLoader.java:88-89 | with capacity `width * height * 4` every well-formed image is converted completely |
| TextureLoading.RgbPixelsNearlyTransparent | src/loader/TextureLoader.java:123 | every converted BGR pixel gets alpha byte 1 |
| TextureLoading.RgbPixelsOpaqueWhenCorrected | src/loader/TextureLoader.java:115-124 | with alpha 255 each BGR pixel becomes an opaque RGBA pixel with its channels reversed |
| TextureLoading.PutPixel | src/loader/TextureLoader.java:94-97 | one loop pass writes the four output bytes of one pixel and leaves earlier bytes alone |
| TextureLoading.FillBuffer | src/loader/TextureLoader.java:84-124 | the copy loop fills the buffer with `Converted` bytes, or overflows the buffer, or reads past a trailing partial pixel |
| TextureLoading.TextureLoader.constructor | src/loader/TextureLoader.java:48-51 | keeps the decoded image, or none |
| TextureLoading.TextureLoader.LoadTexture | src/loader/TextureLoader.java:58-164 | no image gives 0 and no texture; otherwise the converted buffer is uploaded under the generated id, or the exception of `PixelBuffer` is thrown |
| Loading.StoreCallsTrace | src/loader/Loader.java:142-177 | storing an attribute sets one attribute pointer (index, size) and uploads the floats to an array buffer |
| Loading.IndexCallsTrace | src/loader/Loader.java:184-196 | binding indices sets no attribute pointer and uploads the ints to an element buffer |
| Loading.LoadToVaoLayout | src/loader/Loader.java:84-109 | positions go to attribute 0 with size 3 and texture coordinates to attribute 1 with size 2; no normals; the uploads are positions, texture coordinates and indices, in that order |
| Loading.DeleteCalls | src/loader/Loader.java:58-61 | one delete call per id, in order |
| Loading.CleanUpNeverDeletesBuffers | src/loader/Loader.java:64-68 | no delete call ever has kind "buffer": each VBO id is passed to the vertex-array delete |
| Loading.CleanUpCorrectedReleasesEverything | src/loader/Loader.java:55-74 | with the correction every recorded id is deleted as its own kind |
| Loading.Loader.constructor | src/loader/Loader.java:44-50 | empty VAO, VBO and texture id lists |
| Loading.Loader.CreateVao | src/loader/Loader.java:117-125 | records and returns the generated VAO id |
| Loading.Loader.StoreDataInVao | src/loader/Loader.java:142-177 | records the generated VBO id and appends the attribute-buffer calls |
| Loading.Loader.BindIndicesBuffer | src/loader/Loader.java:184-196 | records the generated VBO id and appends the index-buffer calls |
| Loading.Loader.LoadToVao | src/loader/Loader.java:84-109 | one new VAO id and three VBO ids recorded; returns a model whose vertex count is the number of indices |
| Loading.Loader.LoadTexture | src/loader/Loader.java:226-239 | the returned id is recorded even when it is 0; an exception leaves the lists unchanged |
| Loading.Loader.DeleteEach | src/loader/Loader.java:58-61 | one delete call per id of the list |
| Loading.Loader.CleanUp | src/loader/Loader.java:55-74 | appends the deletes for every recorded id and keeps the lists |

## Left out

- Window, context and input plumbing (GLFW, the display helpers, key/char/resize handlers) and the OpenGL
  calls themselves are not part of this model. GL effects appear only as traces, and generated ids,
  framebuffer status, GL errors and read-back texels are parameters.
- Float matrix maths is kept abstract, as functions inside the camera's `Geometry` value:
  - matrix inversion and view-matrix construction;
  - the orbit position;
  - axis normalisation.
- Float rounding is not modelled. Floats are exact reals.
- Reading files (`loadSource`, `BufferedReader`) and decoding images (`ImageIO`) are left out. Parsing numbers
  out of an OBJ line is a parameter of each line (`Float.parseFloat`, `Integer.parseInt`, `split`).
- Debug output to `System.out` and `System.err` has no effect in the model. Only the reads it makes (the
  first four raster bytes in `TextureLoader.loadTexture`) are kept.
- `MAX_LIGHTS_IN_SHADERS` and `EMPTY_VERTEX_VALUE` come from interfaces that are not part of this model. They
  are constructor parameters.
- `Terrain.generateTerrain` and `OBJLoader.loadObjModel` hand their arrays to a four-argument `loadToVAO` that
  `Loader` does not declare. The model stops at the arrays they pass.
- `Entity.getTextureXOffset`/`getTextureYOffset` are called by the entity renderer but are not declared. The
  texture-offset upload carries the entity instead of two numbers.
- `ObjBuilding.ObjBuilder.AddFace` does not keep the per-face `VertexGroup`, which Java builds and then
  discards. The final `vertexCoord == null` check is left out because it only prints.
- The remaining `ObjBuilder` setters (`addObjectName` … `doneParsingObj`) have empty bodies and are not
  modelled. `ObjBuilding.ObjBuilder.AddPoints`, `AddLine` and `NewMtl` stand for them.
- Getters that only return a field are not modelled: `Entity`, `Light`, `Camera`, `Vertex`, `PickedPixel`,
  `Terrain` and `Model`. `Vertex`, `PickedPixel` and `Model` are immutable datatypes, so their fields cannot
  change.
- `Rendering.Render.Render` does not model the shader start/stop or the `prepare` call. It records what is
  loaded and drawn.
- The shader matrix loaders (`loadTransformationMatrix`, `loadProjectionMatrix`, `loadviewMatrix`) and
  `bindAttributes` are thin wrappers over a uniform upload and are not modelled.
- `PickingEngine.debugTexture`, `getPickingTextureID` and texture/FBO creation (`generatePrimitiveTexture`,
  `generateDepthTexture`) are GL-only. They appear only as the new texture ids.
- The picking engine's static fields are modelled as fields of one engine object, which the callback is
  given.
- Java list size limits are not modelled. Neither are `int` overflow of loop indices over byte arrays near
  2^31 bytes, nor the renderer's float object counter losing precision beyond 2^24 entities.
- `Loading.Loader.LoadToVao`: the float and int buffer conversions (`storeDataInFloatBuffer`,
  `storeDataInIntBuffer`) are taken as the identity, and null array arguments are not modelled.
- Java's `Vector3f` is mutable and shared by reference. `Entity`'s constructor keeps the caller's vector
  (`src/entity/Entity.java:66`), and `increasePosition` (`src/entity/Entity.java:80-82`) and the
  `MovableCamera.move*` methods (`src/entity/camera/MovableCamera.java:31-60`) change that vector in place.
  `Light`'s constructor stores one vector as both `color` and `colorBackup` (`src/entity/light/Light.java:34-35`),
  and `getLightList` in both `RenderResources` classes hands out the live list
  (`src/glStart/RenderResources.java:241-244`,
  `src/glCode/RenderResources.java:193-196`). The model keeps positions, colours and lists as values, so a
  change made in place is not seen through other references to the same vector or list.
- `src/callbacks/MouseButtonCallback.java:118` assigns the float `getObjectID()` to an `int` without a cast,
  which Java does not compile. Like the missing `getTextureXOffset` and four-argument `loadToVAO`, the model
  reads the intended code: here a truncating cast (`Common.JavaIntCast`).
- `Common.JavaIntCast`: saturation at ±2^31 and NaN → 0 are not modelled.
- `HashMap` iteration order is not known. Every lemma holds for any key order, and new keys are placed last.

## Findings

| source | as written | input that shows it | evidently intended | confidence | as-written member | corrected member |
|---|---|---|---|---|---|---|
| src/picking/PickingEngine.java:243 | the sampled row is `HEIGHT - y` | a click on window row 0 samples row `HEIGHT`, one past the texture | `HEIGHT - 1 - y`, a bijection on the rows | high, not executed | Picking.FlipYMissesByOne | Picking.FlipYCorrectedIsBijection |
| src/loader/ObjBuilder.java:186-191 | a negative index n becomes `size + n - 1` | face index -1 with 3 vertices selects vertex 2 (the second-to-last) | the OBJ convention `size + n`, -1 being the last | high, not executed | ObjBuilding.RelativeIndexMissesByOne | ObjBuilding.ResolveCorrectedAgrees |
| src/loader/TextureLoader.java:88-89 | buffer capacity `height * height * 4` | a 2x1 RGBA image needs 8 bytes, capacity 4: overflow | `width * height * 4` | high, not executed | TextureLoading.WideImageOverflows | TextureLoading.CorrectedCapacityFits |
| src/loader/TextureLoader.java:123 | RGB pixels get alpha byte 1 | any BGR image comes out with alpha byte 1 instead of 255 | alpha 255, opaque | medium, not executed | TextureLoading.RgbPixelsNearlyTransparent | TextureLoading.RgbPixelsOpaqueWhenCorrected |
| src/terrain/Terrain.java:56 | `z = gridX * SIZE` | tiles (0,0) and (0,1) get the same origin | `z = gridZ * SIZE` | high, not executed | Terrains.OriginIgnoresRow | Terrains.OriginCorrectedInjective |
| src/terrain/Terrain.java:74 | the index array has `6 (VC-1) VC` entries | with VC = 128 the last 762 entries stay 0 and draw degenerate triangles | `6 (VC-1)^2` entries | high, not executed | Terrains.GenerateIndicesAsWritten | Terrains.GenerateIndicesCorrected |
| src/loader/Loader.java:66 | VBO ids are released with the vertex-array delete | any loaded model: its three buffers are never deleted as buffers | the buffer delete for VBO ids | high, not executed | Loading.CleanUpNeverDeletesBuffers | Loading.CleanUpCorrectedReleasesEverything |
| src/camera/Camera.java:517 | the up axis is (m01, m11, m12) | the view rotation with rows (0,0,1), (1,0,0), (0,1,0): the up axis as written is (1,0,1), whose dot product with the right axis (0,0,1) is 1 | the second row (m01, m11, m21) | medium, not executed | Cameras.UpAxisAsWrittenSkewed | Cameras.MovementAxesOrthogonal |
| src/camera/Camera.java:306-320 | `reset` finds the target from the old view matrix; it also restores the roll argument, which the constructor replaced by 0 (`Cameras.ResetRestoresRollArgument`) | reset after any orbit: the target is computed from the moved camera's view; a camera built with roll 5 gets roll 5 back instead of 0 | rebuild the view matrix, then find the target; for roll argument 0 the reset then returns the constructed state | medium, not executed | Cameras.ResetLeavesViewStale | Cameras.ResetCorrectedRestoresConstruction |
| src/entity/light/Light.java:95-99 | `setColor` sets the visible colour even while the light is off | a switched-off light given colour (0.5,0.5,0.5) shines, and two toggles then change it | update the backup; show the colour only when on | low, not executed | Lights.ColorSetWhileOffShines | Lights.ColorSetKeepingSwitchConsistent |
