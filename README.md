# Multi-scene renderer: scene state and shader sync

This project models the scene-state manager of a Babylon.js illumination demo, the
`Renderer` class of `src/renderer.js`. The renderer holds two scene records. Each record
has a Babylon scene, a background colour, a materials map from keys such as
`illum_gouraud` and `ground_phong` to shader materials, a ground mesh with its material
metadata, a camera, an ambient colour, a light list and a model list. On top of these it
keeps three fields: the active scene index, the active light index and the name of the
shading algorithm.

The operations modelled are these:
- the constructor, with its two scene builders;
- the algorithm switch, which re-binds every mesh in every scene to the materials of the new algorithm;
- the height-scale change on every ground;
- the two index setters, which do no checking;
- the lookup of the active Babylon scene;
- `updateShaderUniforms`, which flattens the light list into position and colour arrays;
- the before-render callback, which syncs the `illum_` and `ground_` materials of the algorithm that is current when the frame runs.

Layout:
- `scene_model.dfy` (module `SceneModel`) holds the records, the material lookup, the
  binding invariant `Bound` and the per-scene rewrites `Reshade` and `Rescale`, with their lemmas.
- `shader_sync.dfy` (module `ShaderSync`) holds the uniform set, the flattening of the
  lights and the read-back a shader does, and `FrameSync`, the writes made by one run of
  the before-render callback.
- `star_mesh.dfy` (module `StarMesh`) holds the star's index list: as written, and corrected.
- `rendering.dfy` (module `Rendering`) holds the `Renderer` class. Its methods are
  proved against the functions above.

Babylon objects (scenes, meshes, textures, shader materials) are instances of the empty
class `SceneModel.Handle`. `new Handle()` stands for the library call that creates one, so
two scenes' Babylon objects are distinct. The material callback and the ground-mesh
callback come from the host, so they are constructor parameters. Camera and light
coordinates are only copied, never computed, so they are `real`.

The code does no validation:
- `setActiveScene` and `setActiveLight` take any index and raise no index error.
- `setShadingAlgorithm` takes any name and raises no unknown-algorithm error. A missing
  key binds the mesh to `undefined` (`None` here).
- The frame callback looks up two materials by key, `illum_` and `ground_` of the current
  algorithm. It does not sync the map's other materials. On a valid renderer those two are
  the materials the meshes carry (`FrameSyncTargetsBoundMaterials`). Only when `illum_` is
  missing does the ground's material go unsynced.
- If one of those two keys is missing, the call on `undefined` throws. That ends the
  callback after the writes already made. `FrameResult.missing` records the key.

## Model

| member | source | states |
|---|---|---|
| `Rendering.Renderer.constructor` | src/renderer.js:16-52 | Two scene records with distinct fresh Babylon scenes. The active scene is 0, the active light is 0 and the algorithm is `gouraud`. Scene 0 is everything `Scene0Built` says and scene 1 everything `Scene1Built` says, for the literal's background colours, subdivisions (50, 50) and ambient (0.2, 0.2, 0.2), and the maps and ground meshes the callbacks return for each scene. That covers the whole cameras (position, target, up vector, field of view and clip planes), the exact light lists, the models' shapes, height scale 1 and binding to `gouraud`. `Valid` holds. |
| `Rendering.Renderer.CreateScene0` | src/renderer.js:54-134 | `Scene0Built`: the record keeps the seed's scene, colours and subdivisions and the given map and ground. Its camera is at (0, 1.8, 10) aimed at (0, 1.8, 0), with up vector (0, 1, 0), a 35° field of view and clip planes 0.1 and 100. It has exactly the two lights `light0` (green) and `light1` (white), in that order. Its ground has height scale 1. Its two models are a 32-segment sphere and a 2×1×1 box. Ground and models are bound to the current algorithm's materials of the given map. |
| `Rendering.Renderer.CreateScene1` | src/renderer.js:136-309 | `Scene1Built`: the record keeps the seed and the given map and ground. Its camera is the same but aimed at (0, 5, 0). It has exactly one light `light0` (pink). Its ground has height scale 1. Its one model is the five-pointed star of `StarMesh.IsStar`, all of whose indices name existing vertices. Every mesh is bound to the current algorithm. |
| `Rendering.Renderer.UpdateShaderUniforms` | src/renderer.js:311-324 | The write goes to the given shader. Camera position and ambient come from scene `i` only. `num_lights` is the light count. The positions have length 3·n, with entries 3k, 3k+1 and 3k+2 equal to light k's x, y and z in list order. Colour k is light k's diffuse colour. All of this equals `ShaderUniforms` of the record. |
| `Rendering.Renderer.BeforeRender` | src/renderer.js:126-133 | One frame of scene `i` is `FrameSync` of that scene's current record under the algorithm current at call time, not at registration time. |
| `Rendering.Renderer.GetActiveScene` | src/renderer.js:326-328 | Returns the Babylon scene of the active record. No other record holds that scene, so the result identifies the active index. |
| `Rendering.Renderer.SetActiveScene` | src/renderer.js:330-332 | Sets the active scene to the given index unconditionally. Scenes, active light and algorithm stay unchanged, and so does `Valid`. |
| `Rendering.Renderer.SetShadingAlgorithm` | src/renderer.js:334-346 | The algorithm becomes `a`. Every scene, not only the active one, becomes `Reshade(old scene, a)`. The scene count, active scene and active light are unchanged, and `Valid` is kept. |
| `Rendering.Renderer.SetHeightScale` | src/renderer.js:348-353 | Every scene becomes `Rescale(old scene, s)` for any `s`. The scene count, algorithm and indices are unchanged, and `Valid` is kept. |
| `Rendering.Renderer.SetActiveLight` | src/renderer.js:355-358 | Sets the active light to the given index unconditionally. Nothing else changes. |
| `Rendering.SwitchThenRender` | src/renderer.js:126-133 | The algorithm becomes `a` and `Valid` is kept. For any scene `i` and algorithm `a`, a switch to `a` followed by a frame of scene `i` gives `FrameSync` of the scene's record from before the switch. When both keys of `a` are in that scene's map, the frame writes the old record's uniforms into `illum_` and then `ground_` of the old map, and completes. |
| `Rendering.SwitchAgain` | src/renderer.js:334-346 | On a valid renderer, switching to the algorithm already in force leaves every scene record as it was. It changes only the scenes and the algorithm: both indices stay unchanged. |
| `SceneModel.RebindModels` | src/renderer.js:342-344 | Every model gets the given material and nothing else in it changes. The count and order are kept. |
| `SceneModel.Reshade` | src/renderer.js:337-345 | The ground is bound to `materials['ground_' + a]` and every model to `materials['illum_' + a]` of that scene's own map (`Bound`). Everything else is unchanged: lights, model geometry and metadata, ground metadata, camera, materials map (`SameExceptMaterials`). |
| `SceneModel.Rescale` | src/renderer.js:349-352 | The ground's `height_scalar` becomes `s`. No other metadata field, ground field or record field changes. |
| `SceneModel.RebindModelsTwice` | src/renderer.js:342-344 | Re-binding the models twice equals re-binding once with the second material. |
| `SceneModel.BoundDetermines` | src/renderer.js:334-346 | A record that differs from `rec` only in its bindings and is bound to `a` is exactly `Reshade(rec, a)`. The new state depends only on the algorithm, not on the previous bindings. |
| `SceneModel.ReshadeLastWins` | src/renderer.js:334-346 | Switching to `a` and then to `b` equals switching to `b`. |
| `SceneModel.ReshadeIdempotent` | src/renderer.js:334-346 | Switching twice to the same algorithm equals switching once. |
| `SceneModel.ReshadeBoundIsIdentity` | src/renderer.js:334-346 | A scene already bound to `a` is unchanged by switching to `a`. |
| `SceneModel.RescaleKeepsBinding` | src/renderer.js:348-353 | Changing the height scale neither creates nor breaks the binding to any algorithm. |
| `SceneModel.RescaleReshadeCommute` | src/renderer.js:334-353 | The height-scale change and the algorithm switch commute. |
| `ShaderSync.FlattenPositions` | src/renderer.js:316-319 | Length 3·n. Entries 3k, 3k+1 and 3k+2 are light k's x, y and z, in list order. |
| `ShaderSync.LightColors` | src/renderer.js:317-320 | One colour per light. Entry k is light k's diffuse colour. |
| `ShaderSync.UnflattenFlatten` | src/renderer.js:318-322 | Read back as `vec3`s, the flattened array gives n vectors, and vector k is light k's position: the flattening loses nothing and keeps the order. |
| `ShaderSync.ShaderUniforms` | src/renderer.js:311-324 | Camera position and ambient are the record's. `num_lights` is the light count. There are 3·n positions, with entries 3k, 3k+1 and 3k+2 equal to light k's x, y and z, and n colours, colour k being light k's diffuse colour. |
| `ShaderSync.FrameSync` | src/renderer.js:126-133 | A frame completes (`missing` is `None`) exactly when both `illum_` and `ground_` of the algorithm are in the scene's own map. A key it stops on really is absent. It makes at most two writes, each carrying that scene's uniforms into a material of that scene's map. |
| `ShaderSync.FrameSyncComplete` | src/renderer.js:126-133 | Case by case: no write and `missing` = `illum_` key when `illum_` is absent; only the `illum_` write and `missing` = `ground_` key when only `ground_` is absent; otherwise the same uniforms into `illum_` and then `ground_`. |
| `ShaderSync.FrameSyncTargetsBoundMaterials` | src/renderer.js:126-133 | In a scene bound to the current algorithm, the first write targets the material every model carries and the second targets the ground's material. |
| `ShaderSync.FrameAfterSwitch` | src/renderer.js:301-308 | After a switch to `a`, a frame syncs the `a` materials, whatever the previous binding was. The uniform values are unchanged by the switch. |
| `ShaderSync.FrameIgnoresHeightScale` | src/renderer.js:311-324 | Changing the height scale does not change what a frame writes. |
| `StarMesh.AsWrittenIndexOutOfRange` | src/renderer.js:187-230 | The builder's loop runs for i = 0, 1. Each pass pushes 9 numbers, plus 9 more in the block guarded by i > 0 (`PassPushes`), 27 in all, so 9 vertices. The index list that replaces the generated one names vertex 9, which does not exist. |
| `StarMesh.StarIndices` | src/renderer.js:180-230 | The corrected star of P ≥ 3 points has 12P indices, and every index is below 2P + 2, the vertex count. |
| `StarMesh.StarTriangles` | src/renderer.js:180-230 | Front triangle t is (t, t+1 mod 2P, front apex). Triangle t of the back cap, the second half of the list, is the same rim edge reversed, closed on the back apex, so the two caps have opposite winding. |
| `StarMesh.StarShapeIsStar` | src/renderer.js:180-230 | The corrected shape is a star in the sense of `IsStar`: 2P + 2 vertices, 12P indices all in range, and every front and back triangle as in `StarTriangles`. |

## Findings

| source | as written | input that shows it | evidently intended | confidence | as-written member | corrected member |
|---|---|---|---|---|---|---|
| src/renderer.js:187-230 | The star's `positions` loop pushes 27 numbers (9 vertices). `indices` is then overwritten with `[0, 1, 2, 4, 5, 6, 7, 8, 9]`. | Entry 8 of the index list is 9, but the vertex count is 27 / 3 = 9. | A closed star of 4P triangles over 2P rim vertices plus a front and a back apex, with every index in range. | not executed; medium (the file is visibly work in progress) | `StarMesh.AsWrittenIndexOutOfRange` | `StarMesh.StarIndices` |

`Rendering.Renderer.CreateScene1` builds the star's shape as `StarMesh.StarShape(5)`: the
index list `StarMesh.StarIndices(5)` over `StarMesh.StarVertexCount(5)` vertices.

## Left out

- Babylon construction and drawing are foreign library calls. This covers `new Scene`, `UniversalCamera`, `PointLight`, `CreateSphere`, `CreateBox`, `RawTexture` and `Texture` loading, `new Mesh`, `VertexData.applyToMesh`, and the shader's `setVector3`, `setColor3`, `setInt`, `setArray3` and `setColor3Array`. Each created object is an opaque `Handle`, and each uniform call is one field of a `UniformWrite`.
- The `canvas` and `engine` constructor parameters, `attachControl`, `clearColor`, `useRightHandedSystem` and the copy of the ambient colour into the Babylon scene are rendering settings. The uniform `ambient` is read from the record's ambient colour, which is what that copy holds.
- The camera's field of view is kept as 35 degrees. The conversion to radians (`35 * PI / 180`) is floating point.
- Camera movement through the attached controls and light movement by keyboard are external input. The camera position written to the shader is the one the builder set. The keyboard handler is outside src/renderer.js and is not part of this model.
- The star's vertex positions (src/renderer.js:187-228) are cosine and sine numerics. The index lists that loop pushes are dead, because line 230 overwrites them. The commented-out star tables (src/renderer.js:239-278) are dead code. The star model keeps Babylon's default position, the origin.
- `console.log` calls have no effect on state.
- `src/main.js` is a configuration literal and a Vue mount. It is page bootstrapping with no renderer logic.
- Registration of the callback with `onBeforeRenderObservable` and the host's frame loop are not modelled. `BeforeRender(i)` is the body of scene `i`'s callback. The callback captures the materials map at build time; the model reads the record's map, and no operation ever changes it.
- `this['createScene' + idx]` name dispatch is an `if` on the index. Only indices 0 and 1 occur.
- Ground meshes and models are values inside the scene records. If the host's ground-mesh callback returned the same mesh object to both scenes, the JavaScript updates would alias across scenes. The model does not capture that.
- Rendering.Renderer.SetHeightScale: takes a `real`. JavaScript accepts any value, including non-numbers and NaN.
- Rendering.Renderer.CreateScene1: gives the star the corrected index list rather than the hardcoded one (see Findings). Vertex data beyond the index list and the vertex count is not modelled.
- Rendering.Renderer.GetActiveScene: requires an in-range active index. The JavaScript reads `undefined` and then throws on an out-of-range index.
