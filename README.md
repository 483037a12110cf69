# bevy-shaders, modelled in Dafny

This project models the logic of a set of Bevy rendering examples. The modelled parts are:

- **The free-fly camera.** A `CustomCamera` (position, yaw, pitch, up, fov, aspect ratio, near, far) with its `rotate`, `translate` and `zoom` mutators. On top of them sit the three input systems: WASD movement, mouse look and scroll zoom.
- **Three instanced materials.** These are the custom material, the point-light material and the light material. For each one the model covers:
  - how per-instance values become the words of the instance buffer;
  - the instance vertex layout that the pipeline's `specialize` pushes;
  - the uniforms bind group and its agreement with its layout;
  - the prepare system;
  - the `DrawMeshInstanced` and `SetUniformsBindGroup` render commands;
  - the queue system that adds `Transparent3d` items.
- **The 2D custom mesh.** This covers the extraction of visible `CustomMesh2d` entities and their queueing into the `Transparent2d` phase. It also covers the colour uniform: written in the prepare stage, bound by a bind group made in the queue stage, and used by `SetCustomColorBindGroup`.
- **The application.** This covers the LoadAssets → Main state machine and the extraction of the camera into the render world. It also covers the camera that `setup` inserts and the 36-vertex cube tables. Each table is written as the concatenation of its six faces, following the `// Face k` grouping of main.rs; the values and their order are those of main.rs.

How the model represents the program:

- **Floats.** Vectors and matrices are glam's `Vec2`, `Vec3`, `Vec4` and column-major `Mat4`, over `real`.
- **Library math.** `sin`, `cos`, `sqrt`, π and glam's `look_at_rh` and `perspective_rh` are fields of a `MathEnv` value. Their laws are the predicate `Lawful`: sin² + cos² = 1, the square-root law, and a few exact values. Properties that need these laws require `Lawful(m)`.
- **GPU buffers.**
  - A buffer the examples create is the sequence of its 32-bit float words, as `bytemuck::cast_slice` lays them out.
  - An engine-owned buffer is an opaque `Engine(id)`.
  - A byte offset `o` is word `o / 4`.
- **Panics.** A panicking `unwrap` is `Outcome.Panicked(reason)`.
- **Engine calls.** These are recorded rather than executed:
  - `commands.entity(e).insert(c)` appends to `Commands.queued`.
  - `transparent_phase.add` appends to `RenderPhase.items`.
  - Every call on a `TrackedRenderPass` appends a `PassCommand`.
- **The u32 cast.** `length as u32` keeps the low 32 bits (`AsU32`).

Modules and files:

| module | file | models |
|---|---|---|
| `Glam` | glam.dfy | vectors, matrices, their word encodings, `MathEnv` |
| `Camera` | camera.dfy | src/camera.rs |
| `Render` | render.dfy | the engine vocabulary the other modules share: meshes, bind groups, vertex layouts, the tracked render pass, phases, `Commands` |
| `CustomMaterial` | custom_material.dfy | src/custom_material.rs |
| `PointLightMaterial` | point_light_material.dfy | src/point_light_material.rs |
| `LightMaterial` | light_material.dfy | src/light_material.rs |
| `CustomMesh` | custom_mesh.dfy | src/custom_mesh.rs |
| `App` | app.dfy | src/main.rs |

The three material files carry identical `DrawMeshInstanced::render`, `SetUniformsBindGroup::render` and queue systems. These are modelled once, in `CustomMaterial`. The point-light and light modules each have a lemma that applies that render command to the buffers their own prepare system makes.

The files do not agree with one another at this revision. Each file is modelled as written:

- main.rs uses `LightInstances`, `LightInstance`, `MaterialInstances` and `CustomMaterial`, which no shown file defines.
- light_material.rs reads `.position` from the elements of `InstanceMaterialData`, but the shown element type `InstanceData` has only `model` (src/custom_material.rs:48-50). `LightMaterial` therefore gives its instances a position of their own.
- `ColorUniform` (light_material.rs) is not defined in any shown file. It is modelled as a `Vec4`, the 16 bytes its layout entry asks for.
- custom_mesh.rs takes its layout from `pipeline.color_bind_group_layout`. The shown `CustomMesh2dPipeline` has a `bind_group_layout` field instead (src/custom_mesh_pipeline.rs:20). The colour bind group's layout is therefore a parameter.

## Model

| member | source | states |
|---|---|---|
| Camera.RawDirectionIsUnit | src/camera.rs:105-110 | under sin² + cos² = 1 the vector that `get_direction` normalises already has squared length 1 |
| Camera.DirectionIsUnit | src/camera.rs:105-112 | `get_direction`'s normalisation leaves the vector unchanged, and the direction is a unit vector |
| Camera.RightIsOrthogonal | src/camera.rs:119-121 | `right()` is orthogonal to the direction, for any math functions and any up vector |
| Camera.RightIsUnit | src/camera.rs:119-121 | `right()` is a unit vector unless the direction is parallel to up |
| Camera.ZoomedFov | src/camera.rs:130-133 | whatever the fov and amount, the zoomed fov is in [1, 45]; it is exactly fov − amount when that is in range |
| Camera.ZoomSaturates | src/camera.rs:130-133 | out of range, zoom lands on the nearer bound, 1 or 45 |
| Camera.NoKeysNoTranslation | src/camera.rs:29-46 | with none of W, A, S, D held the move system's translation is zero |
| Camera.OppositeKeysCancel | src/camera.rs:33-44 | holding W with S, or A with D, gives the same translation as holding neither |
| Camera.ForwardStep | src/camera.rs:29-46 | W held without S, A or D, whatever other keys are held, moves by 2.5·dt times the unit direction, a step of squared length (2.5·dt)² |
| Camera.LookIsOneSummedRotation | src/camera.rs:54-61 | the look system's yaw change is the summed mouse x, in radians, times 2·dt; the pitch change is the negated summed mouse y, times 2·dt |
| Camera.ZoomAllInRange | src/camera.rs:69-73 | after any non-empty frame of wheel events the fov is in [1, 45]; a frame that starts in range stays in range |
| Camera.CustomCamera.FromState | src/camera.rs:77-89 | a camera built from its eight fields holds exactly those fields |
| Camera.CustomCamera.Rotate | src/camera.rs:114-117 | yaw and pitch grow by the given amounts, without clamping; no other field changes, so rotate(0, 0) changes nothing |
| Camera.CustomCamera.Translate | src/camera.rs:123-128 | position becomes position + translation; no other field changes, so translating by zero changes nothing |
| Camera.CustomCamera.Zoom | src/camera.rs:130-133 | only fov changes, to the clamped fov − amount, and it ends in [1, 45] |
| Camera.CustomCamera.CopyFrom | src/camera.rs:77 | `clone` copies all eight fields |
| Camera.CustomCamera.CameraMoveSystem | src/camera.rs:20-47 | only the position changes, by ±2.5·dt of the direction for W/S and of the right vector for D/A, both taken before the move |
| Camera.CustomCamera.CameraLookSystem | src/camera.rs:49-62 | one rotate per mouse-motion event: yaw and pitch grow by the summed per-event deltas and nothing else changes |
| Camera.CustomCamera.CameraZoomSystem | src/camera.rs:64-74 | one zoom per wheel event, in order: only fov changes, to the fold of the clamped zoom over the events |
| Glam.TranslationMovesOrigin | src/light_material.rs:115 | `Mat4::from_translation(t)` has (t, 1) as its last column and w = 0 in the other three |
| Glam.Mat4Words | src/custom_material.rs:197 | a matrix is 16 words, column k at words 4k up to 4k + 4 |
| Glam.MatricesWords | src/custom_material.rs:197 | a buffer of matrices has 16 words per matrix, matrix i at words 16i up to 16i + 16 |
| Glam.MatrixColumnWords | src/custom_material.rs:197 | column k of matrix i of a matrix buffer is the four words from 16i + 4k |
| Glam.NormalizeUnit | src/camera.rs:110 | normalising a unit vector leaves it unchanged |
| Glam.NormalizedIsUnit | src/camera.rs:120 | normalising a non-zero vector gives a unit vector |
| Render.AsU32 | src/custom_material.rs:458 | `as u32` is below 2³², keeps every value below 2³², and changes every value from 2³² up |
| Render.ConformingGroupServesEachBindingOnce | src/custom_material.rs:223-256 | in a bind group that agrees with a layout with distinct bindings, each layout binding is served by exactly one entry |
| Render.PackedTiles | src/custom_material.rs:363-389 | in a packed vertex layout no two attributes overlap and each lies inside the stride |
| Render.InstanceLayoutPacked | src/custom_material.rs:363-389 | n Float32x4 attributes at offsets 16k are packed exactly when the stride is 16n, and sit at locations first + k |
| Render.TrackedRenderPass.SetVertexBuffer | src/custom_material.rs:448-449 | records the vertex buffer bound at the slot and nothing else |
| Render.TrackedRenderPass.SetIndexBuffer | src/custom_material.rs:457 | records the index buffer, offset and format |
| Render.TrackedRenderPass.DrawIndexed | src/custom_material.rs:458 | records the indexed draw |
| Render.TrackedRenderPass.Draw | src/custom_material.rs:461 | records the draw |
| Render.TrackedRenderPass.SetBindGroup | src/custom_material.rs:482 | records the bind group at its index, with its dynamic offsets |
| Render.RenderPhase.Add | src/custom_material.rs:158-163 | appends one phase item |
| Render.Commands.Insert | src/custom_material.rs:200-203 | queues one component insertion for the entity |
| CustomMaterial.InstanceWords | src/custom_material.rs:194-199 | the instance buffer is each `InstanceData`'s model matrix in order, 16 words per instance |
| CustomMaterial.InstanceBufferFor | src/custom_material.rs:200-203 | the stored length equals the number of instances, and the buffer holds 16 words per instance |
| CustomMaterial.UniformsBindGroup | src/custom_material.rs:208-256 | entries 0 to 6 are view, proj, base texture and sampler, mix texture and sampler, and offset; the group agrees with the seven-entry layout in kinds and minimum sizes |
| CustomMaterial.PrepareEntity | src/custom_material.rs:194-257 | an entity first gets its instance buffer; it panics exactly when a texture is not loaded; otherwise it also gets exactly the uniforms bind group over `UNIFORMS_LAYOUT` built from its view, projection, both loaded images and its offset, which conforms to that layout |
| CustomMaterial.PanicIsFinal | src/custom_material.rs:205-206 | once `prepare_buffers` panics no later entity is processed |
| CustomMaterial.PrepareBuffersFinishes | src/custom_material.rs:194-206 | the system finishes exactly when every entity's base and mix textures are loaded |
| CustomMaterial.PrepareBuffersInserts | src/custom_material.rs:194-257 | a finished run queues two insertions per entity, in query order: its instance buffer of length = instance count, then the uniforms bind group over its view, projection, loaded base and mix images and offset |
| CustomMaterial.PrepareBuffers | src/custom_material.rs:179-259 | queues exactly the insertions of the reference run; panics exactly when it does, with its reason |
| CustomMaterial.PrepareOne | src/custom_material.rs:195-257 | one query row queues its instance buffer, then panics with the missing texture's reason or queues its uniforms bind group, exactly as the reference step does |
| CustomMaterial.CustomInstanceLayout | src/custom_material.rs:363-389 | four Float32x4 attributes at offsets 0, 16, 32, 48, locations 3 to 6, per instance, tiling the 64-byte `InstanceData` stride |
| CustomMaterial.InstanceAttributesReadModelColumns | src/custom_material.rs:46-50 | location 3 + k of instance i reads column k of that instance's model matrix |
| CustomMaterial.DrawMeshInstanced | src/custom_material.rs:435-467 | panics exactly without a mesh handle; Failure exactly when there is an instance buffer but the mesh is not loaded; nothing recorded without an instance buffer or mesh; otherwise mesh at slot 0, instances at slot 1, and one final draw over instances 0..length as u32 |
| CustomMaterial.DrawIndexedMesh | src/custom_material.rs:448-459 | for an indexed mesh the commands are the two vertex buffers, the index buffer at offset 0, then draw_indexed(0..count, 0, 0..length) |
| CustomMaterial.DrawNonIndexedMesh | src/custom_material.rs:448-449 | for a non-indexed mesh the commands are the two vertex buffers, then draw(0..vertex_count, 0..length) |
| CustomMaterial.PreparedInstancesAreDrawn | src/custom_material.rs:200-203 | an entity's prepared instance buffer is bound at slot 1 and drawn over exactly its instance count |
| CustomMaterial.RenderDrawMeshInstanced | src/custom_material.rs:435-467 | on a tracked pass, records exactly the commands of DrawMeshInstanced and returns its result |
| CustomMaterial.SetUniformsBindGroup | src/custom_material.rs:475-486 | always Success; binds the item's uniforms at group I when they exist, and nothing otherwise |
| CustomMaterial.RenderSetUniformsBindGroup | src/custom_material.rs:475-486 | on a tracked pass, records exactly SetUniformsBindGroup's commands |
| CustomMaterial.LoadedMeshesFilter | src/custom_material.rs:151-152 | an entity is kept exactly when it is queried and its mesh is loaded |
| CustomMaterial.LoadedMeshesKeepOrder | src/custom_material.rs:151-152 | the filter keeps query order: what it keeps from the first k entities is a prefix of what it keeps from all |
| CustomMaterial.QueuedOnePerLoadedMesh | src/custom_material.rs:151-165 | one `Transparent3d` per entity with a loaded mesh, in query order, keyed by MSAA and topology and at the view's distance to its transform |
| CustomMaterial.QueueCustomMaterial | src/custom_material.rs:132-167 | each view's own phase gets exactly its queued items, appended |
| CustomMaterial.QueueMaterialView | src/custom_material.rs:150-164 | one view's phase gets, appended in query order, one item per entity whose mesh is loaded |
| PointLightMaterial.ToRenderInstances | src/point_light_material.rs:146-157 | keeps count and order; each output is the translation to the light's position with its ambient, diffuse and specular |
| PointLightMaterial.AttenuationIsDropped | src/point_light_material.rs:34-52 | the constant, linear and quadratic terms do not reach the render instance |
| PointLightMaterial.RenderInstanceWords | src/point_light_material.rs:45-52 | a render instance is 28 words: matrix, ambient, diffuse, specular |
| PointLightMaterial.PointLightWords | src/point_light_material.rs:144-158 | the buffer is each light's render instance in order, 28 words apiece |
| PointLightMaterial.PointLightBuffer | src/point_light_material.rs:160-163 | the stored length equals the number of lights |
| PointLightMaterial.PointLightInstanceLayout | src/point_light_material.rs:253-293 | seven Float32x4 attributes at offsets 16k, locations 3 to 9, tiling the 112-byte stride |
| PointLightMaterial.PointLightAttributesReadFields | src/point_light_material.rs:254-293 | locations 3 to 6 of instance i read the columns of its translation matrix; 7, 8, 9 read its ambient, diffuse and specular |
| PointLightMaterial.PointLightBindGroup | src/point_light_material.rs:165-188 | exactly two buffer entries, view and proj, that agree with the two vertex-visible Mat4-sized layout entries |
| PointLightMaterial.MatchingLightsFilter | src/point_light_material.rs:138-143 | only entities tagged `PointLightMaterial` that carry `PointLightInstances` are prepared |
| PointLightMaterial.PointLightInsertionsPerEntity | src/point_light_material.rs:143-190 | matched entity i gets, at 2i, a buffer of its lights with length = their count, then the bind group of the camera's view and proj |
| PointLightMaterial.PreparePointLightMaterialBuffers | src/point_light_material.rs:136-191 | queues exactly those insertions, with the render-world camera's view and projection |
| PointLightMaterial.PreparedLightsAreDrawn | src/point_light_material.rs:346-371 | a prepared entity's light buffer is bound at slot 1 and drawn over one instance per light |
| LightMaterial.TranslationMatrices | src/light_material.rs:112-118 | one translation matrix per instance, in input order |
| LightMaterial.LightBuffer | src/light_material.rs:121-124 | the stored length equals the instance count |
| LightMaterial.LightInstanceLayout | src/light_material.rs:235-261 | four Float32x4 attributes at offsets 16k and locations 3 to 6, per instance, tiling the 64-byte Mat4 stride |
| LightMaterial.LightAttributesReadTranslation | src/light_material.rs:235-261 | location 3 + k of instance i reads column k of that instance's translation matrix, and location 6 reads (position, 1) |
| LightMaterial.LightBindGroup | src/light_material.rs:126-158 | view and proj at bindings 0 and 1 for the vertex stage, the colour at 2 for the fragment stage, agreeing with the layout's kinds and minimum sizes |
| LightMaterial.LightInsertionsPerRow | src/light_material.rs:109-159 | row i gets, at 2i, the buffer of its translations with length = its count, then its bind group |
| LightMaterial.LightInsertionsStep | src/light_material.rs:109-160 | one more row extends the insertions by that row's buffer and bind group, after those of the earlier rows |
| LightMaterial.PrepareLightRow | src/light_material.rs:110-159 | one row queues its translation buffer, whose length is its instance count, then its bind group over the given view, projection and the row's colour |
| LightMaterial.PrepareLightMaterialBuffers | src/light_material.rs:102-161 | queues exactly the insertions of `LightInsertions` over the rows in query order, with the render-world camera's `get_view()` and `get_proj()`; with `LightInsertionsPerRow` and `LightBindGroup`, binding 0 of every row's group carries the view words and binding 1 the projection words |
| LightMaterial.PreparedLightInstancesAreDrawn | src/light_material.rs:313-338 | a prepared entity's translation buffer is bound at slot 1 and drawn over one instance per element |
| CustomMesh.VisibleMatchesAppend | src/custom_mesh.rs:122-129 | extraction keeps iteration order: the batch of a + b is the batch of a, then the batch of b |
| CustomMesh.VisibleMatchesExactly | src/custom_mesh.rs:122-129 | exactly the visible entities matching the query are extracted, each with its shader |
| CustomMesh.InvisibleIsDropped | src/custom_mesh.rs:123-125 | an invisible entity contributes nothing, wherever it is |
| CustomMesh.ExtractCustomMesh2d.constructor | src/custom_mesh.rs:117 | the `Local` length hint starts at zero |
| CustomMesh.ExtractCustomMesh2d.Run | src/custom_mesh.rs:115-132 | the spawned batch is the visible matches in order, and `previous_len` becomes its length |
| CustomMesh.Mesh2dKeyKeepsMsaa | src/custom_mesh.rs:156-167 | the key always has the MSAA bits, and is the MSAA key alone when the mesh is not loaded |
| CustomMesh.EntityKey | src/custom_mesh.rs:163-167 | the key the loop computes is the reference key |
| CustomMesh.NoCustomMeshesNoItems | src/custom_mesh.rs:145-147 | with no custom meshes no view gets an item |
| CustomMesh.Queued2dOnePerMatch | src/custom_mesh.rs:159-190 | one item per visible matching entity, in visible order, sorted by its transform's translation z, with no batch range |
| CustomMesh.QueueView | src/custom_mesh.rs:159-191 | one view's phase gets exactly its queued items, appended |
| CustomMesh.QueueCustomMesh2d | src/custom_mesh.rs:135-193 | with no custom meshes no phase changes; otherwise each view's own phase gets its items appended |
| CustomMesh.ColorBindGroupConforms | src/custom_mesh.rs:103-109 | the one-entry colour bind group over the 16-byte buffer agrees with a layout exactly when that layout is one uniform entry at binding 0 asking for at most 16 bytes |
| CustomMesh.CustomColorMeta.constructor | src/custom_mesh.rs:40-54 | the plugin makes a 16-byte buffer and no bind group |
| CustomMesh.CustomColorMeta.WriteBuffer | src/custom_mesh.rs:90-94 | the data replaces the words from the offset; the words around them are kept |
| CustomMesh.CustomColorMeta.PrepareCustomColor | src/custom_mesh.rs:84-95 | panics unless there is exactly one colour; otherwise the buffer holds that colour's four words |
| CustomMesh.CustomColorMeta.QueueCustomColorBindGroup | src/custom_mesh.rs:98-112 | afterwards the bind group is present, with one entry at binding 0 over the whole buffer |
| CustomMesh.CustomColorMeta.SetCustomColorBindGroup | src/custom_mesh.rs:214-224 | panics without a bind group; otherwise binds it at group I and returns Success |
| CustomMesh.CustomColorMeta.Frame | src/custom_mesh.rs:57-60 | prepare, then queue, then draw: with exactly one colour the draw binds a group over that colour at group 2 and succeeds; otherwise the frame panics |
| App.InitialCameraLooksAtOrigin | src/main.rs:309-318 | the initial fov is 45, the top of the zoom range; the aspect ratio is the 800×600 window's; under the laws it looks down −z, at the origin |
| App.InitialCameraCannotZoomOut | src/main.rs:314 | zooming the initial camera out keeps the fov at 45 |
| App.ExtractCustomCamera | src/main.rs:259-263 | the render camera becomes a copy of the main camera when one exists and is kept otherwise |
| App.RenderCameraAfterExtract | src/main.rs:224-226 | the render app's camera, made by `init_resource` from the derived Default and then extracted once, is the main world's camera when there is one, and otherwise all zeros, with a fov outside the zoom range |
| App.AllLoadedEach | src/main.rs:249-251 | all textures are loaded exactly when each is; an empty list is vacuously loaded |
| App.AppWorld.constructor | src/main.rs:210-217 | the app starts in LoadAssets with no texture handles |
| App.AppWorld.LoadAssetsSystem | src/main.rs:230-239 | the resource becomes Some of exactly two handles, diffuse then specular; the state is kept |
| App.AppWorld.AssetsLoadedSystem | src/main.rs:241-257 | the resource is kept; the state becomes Main exactly when the handles are known and all loaded; with None nothing changes |
| App.AppWorld.Startup | src/main.rs:217-219 | entering LoadAssets and one update reach Main exactly when both textures are loaded |
| App.CubeTablesAgree | src/main.rs:59-192 | the three tables have 36 entries each, 6 faces of 6 vertices |
| App.CubeNormalsPerFace | src/main.rs:149-192 | within each face the normal is that face's unit axis vector |
| App.CubeVerticesOnHalfUnits | src/main.rs:59-102 | every vertex coordinate is ±0.5 |
| App.CubeVerticesOnFaces | src/main.rs:59-192 | every vertex lies on its face's plane, half a unit out along the face's normal |
| App.CubeUvsOnCorners | src/main.rs:104-147 | every UV coordinate is 0 or 1 |
| App.CubeFaceIsQuad | src/main.rs:59-102 | each face of the positions is a, b, c, c, d, a over four distinct corners |
| App.CubeUvFaceIsQuad | src/main.rs:104-147 | each face of the UVs is a, b, c, c, d, a over four distinct corners |

## Left out

- Bevy plumbing is not modelled. This covers plugin `build`, the `ExtractComponent` impls, ECS query iteration, the asset server, windows and the cursor. Queries become sequences or maps. `RenderDevice` buffer and bind-group creation becomes values, and deferred `Commands` become a recorded list.
- src/custom_mesh_pipeline.rs is not part of this model. It builds a descriptor of engine constants and a layout from a library call whose code is not shown.
- The pipeline descriptors that `specialize` edits are not modelled: shaders, depth-stencil state, primitive state and the bind group layout list. Only the pushed instance vertex layout is.
- f32 arithmetic is modelled as real arithmetic. There is no rounding and no NaN from `clamp` or from `normalize` of a zero vector. `Glam.Normalize` returns a zero vector unchanged, where glam yields non-finite values.
- The bodies of glam's `look_at_rh` and `perspective_rh` are not modelled; they are opaque fields of `MathEnv`. `sin`, `cos`, `sqrt` and π are opaque too, constrained only by `Lawful`.
- `move_light` is not modelled. It is driven by the clock and `sin`, and it uses `LightInstances`, which no shown file defines.
- The texture and sampler descriptors in `setup` are not modelled. Neither are the entities it spawns, whose component types are not all defined in the shown files. Of `setup`, only the camera it inserts is modelled.
- Time enters as a `deltaSeconds` parameter, and key and mouse input as sets and sequences of events.
- GPU submission is not modelled. Draw and bind calls are recorded as pass commands.
- The `get_id().unwrap()` of the draw function and the pipeline cache's `specialize(...).unwrap()` are not modelled. Draw functions are registered by each plugin, so the draw function id is a parameter; specialisation is a total function.
- `SetItemPipeline`, `SetMesh2dViewBindGroup`, `SetMesh2dBindGroup` and `DrawMesh2d` are engine render commands and are not modelled. Of `DrawCustomMesh2d`, only `SetCustomColorBindGroup<2>` is.
- CustomMesh.CustomColorMeta.QueueCustomColorBindGroup: the bind group holds a snapshot of the buffer's words rather than a reference to the buffer. Prepare runs before queue in each frame, so the snapshot is the latest write.
- CustomMesh.ExtractCustomMesh2d.Run: `Vec::with_capacity(previous_len)` only reserves memory, so the hint has no effect on the result and is modelled only as the stored length.
- The `queue_point_light_material` and `queue_light_material` systems, and those files' `DrawMeshInstanced::render` and `SetUniformsBindGroup::render`, are not modelled separately. Their code is identical to custom_material.rs's, which is modelled once as `CustomMaterial.QueueCustomMaterial`, `CustomMaterial.DrawMeshInstanced` and `CustomMaterial.SetUniformsBindGroup`.
- Camera.CustomCamera.CopyFrom: the render world's camera is overwritten directly, where `commands.insert_resource` defers the insertion to the end of the extract stage.
- App.AppWorld.AssetsLoadedSystem: `state.set(Main).unwrap()` cannot fail here, because the system only runs while the state is LoadAssets and nothing else queues a transition. Its error path is therefore not modelled; the requirement `state == LoadAssets` stands for it.
- The `MouseWheel` event's unit (lines or pixels) is not modelled; the zoom system does not look at it.
