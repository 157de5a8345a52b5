/**
 * The data the renderer keeps per scene, and the two bulk rewrites it applies to a
 * scene record: re-binding every mesh to the shader material of one shading
 * algorithm, and changing the ground's height scale.
 */
module SceneModel {

  datatype Option<T> = None | Some(value: T)

  /** An opaque Babylon.js object: a scene, a mesh, a texture or a shader material.
      Only its identity matters here; `new Handle()` stands for the library call
      that creates the object. */
  class Handle {
    constructor() {}
  }

  datatype Vec2 = Vec2(x: real, y: real)
  datatype Vec3 = Vec3(x: real, y: real, z: real)
  datatype Color3 = Color3(r: real, g: real, b: real)
  datatype Color4 = Color4(r: real, g: real, b: real, a: real)

  /** The camera settings a scene builder installs (the field of view in degrees). */
  datatype Camera = Camera(position: Vec3, target: Vec3, up: Vec3, fovDegrees: real, minZ: real, maxZ: real)

  /** A point light: its name, position and diffuse and specular colours. */
  datatype Light = Light(name: string, position: Vec3, diffuse: Color3, specular: Color3)

  /** The material metadata attached to every mesh. */
  datatype Surface = Surface(color: Color3, texture: Handle, specular: Color3, shininess: int, textureScale: Vec2)

  /** The ground's metadata: a surface plus the height scale and the heightmap texture. */
  datatype GroundMetadata = GroundMetadata(surface: Surface, heightScalar: real, heightmap: Handle)

  /** The ground mesh: the mesh object, its scaling, its metadata and the material bound to it
      (`None` when the lookup that produced it found no entry). */
  datatype GroundMesh = GroundMesh(mesh: Handle, scaling: Vec3, metadata: GroundMetadata, material: Option<Handle>)

  /** How a model's geometry was made: by a Babylon builder, or from vertex data. */
  datatype Shape =
    | Sphere(segments: nat)
    | Box(width: real, height: real, depth: real)
    | Custom(vertexCount: nat, indices: seq<nat>)

  datatype Model = Model(mesh: Handle, name: string, shape: Shape, position: Vec3, metadata: Surface, material: Option<Handle>)

  /** One entry of the renderer's scene list, after its builder has run. */
  datatype SceneRecord = SceneRecord(
    scene: Handle,
    backgroundColor: Color4,
    materials: map<string, Handle>,
    groundSubdivisions: (nat, nat),
    groundMesh: GroundMesh,
    camera: Camera,
    ambient: Color3,
    lights: seq<Light>,
    models: seq<Model>)

  /** The materials-map key of the ground shader for an algorithm. */
  function GroundKey(alg: string): string { "ground_" + alg }

  /** The materials-map key of the model shader for an algorithm. */
  function IllumKey(alg: string): string { "illum_" + alg }

  /** Indexing a JavaScript object by a string key: a missing key yields `undefined`. */
  function Lookup(materials: map<string, Handle>, key: string): Option<Handle>
  {
    if key in materials then Some(materials[key]) else None
  }

  /** The hot-swap invariant: every mesh of the scene carries the material that the
      scene's own materials map holds for `alg` (the ground one for the ground mesh,
      the illumination one for every model). */
  ghost predicate Bound(rec: SceneRecord, alg: string)
  {
    && rec.groundMesh.material == Lookup(rec.materials, GroundKey(alg))
    && forall k :: 0 <= k < |rec.models| ==> rec.models[k].material == Lookup(rec.materials, IllumKey(alg))
  }

  /** `a` and `b` agree in everything except the materials bound to their meshes. */
  ghost predicate SameExceptMaterials(a: SceneRecord, b: SceneRecord)
  {
    && a.scene == b.scene
    && a.backgroundColor == b.backgroundColor
    && a.materials == b.materials
    && a.groundSubdivisions == b.groundSubdivisions
    && a.camera == b.camera
    && a.ambient == b.ambient
    && a.lights == b.lights
    && a.groundMesh.(material := b.groundMesh.material) == b.groundMesh
    && |a.models| == |b.models|
    && forall k :: 0 <= k < |a.models| ==> a.models[k].(material := b.models[k].material) == b.models[k]
  }

  /** The inner loop of the algorithm switch: give every model the same material. */
  function RebindModels(models: seq<Model>, material: Option<Handle>): (r: seq<Model>)
    ensures |r| == |models|
    ensures forall k :: 0 <= k < |r| ==> r[k] == models[k].(material := material)
  {
    if models == [] then [] else [models[0].(material := material)] + RebindModels(models[1..], material)
  }

  /** One scene's part of the algorithm switch: the ground takes the scene's
      `ground_` material and every model its `illum_` material for `alg`. */
  function Reshade(rec: SceneRecord, alg: string): (r: SceneRecord)
    ensures Bound(r, alg)
    ensures SameExceptMaterials(rec, r)
  {
    rec.(groundMesh := rec.groundMesh.(material := Lookup(rec.materials, GroundKey(alg))),
         models := RebindModels(rec.models, Lookup(rec.materials, IllumKey(alg))))
  }

  /** One scene's part of the height-scale change. */
  function Rescale(rec: SceneRecord, scale: real): (r: SceneRecord)
    ensures r.groundMesh.metadata.heightScalar == scale
    ensures r.groundMesh.metadata.(heightScalar := rec.groundMesh.metadata.heightScalar) == rec.groundMesh.metadata
    ensures r.groundMesh.(metadata := rec.groundMesh.metadata) == rec.groundMesh
    ensures r.(groundMesh := rec.groundMesh) == rec
  {
    rec.(groundMesh := rec.groundMesh.(metadata := rec.groundMesh.metadata.(heightScalar := scale)))
  }

  /** Rebinding twice is rebinding once with the second material. */
  lemma RebindModelsTwice(models: seq<Model>, m1: Option<Handle>, m2: Option<Handle>)
    ensures RebindModels(RebindModels(models, m1), m2) == RebindModels(models, m2)
  {
  }

  /** A record that differs from `rec` only in its bindings, and is bound to `alg`,
      is exactly `Reshade(rec, alg)`: the switch is determined by the algorithm alone. */
  lemma BoundDetermines(rec: SceneRecord, r: SceneRecord, alg: string)
    requires SameExceptMaterials(rec, r)
    requires Bound(r, alg)
    ensures r == Reshade(rec, alg)
  {
  }

  /** Only the last switch matters: switching to `a` and then to `b` is switching to `b`. */
  lemma ReshadeLastWins(rec: SceneRecord, a: string, b: string)
    ensures Reshade(Reshade(rec, a), b) == Reshade(rec, b)
  {
  }

  /** The algorithm switch is idempotent. */
  lemma ReshadeIdempotent(rec: SceneRecord, alg: string)
    ensures Reshade(Reshade(rec, alg), alg) == Reshade(rec, alg)
  {
  }

  /** A scene already bound to `alg` is left as it is by switching to `alg`. */
  lemma ReshadeBoundIsIdentity(rec: SceneRecord, alg: string)
    requires Bound(rec, alg)
    ensures Reshade(rec, alg) == rec
  {
  }

  /** Changing the height scale keeps every binding, whatever the algorithm. */
  lemma RescaleKeepsBinding(rec: SceneRecord, scale: real, alg: string)
    ensures Bound(Rescale(rec, scale), alg) <==> Bound(rec, alg)
  {
  }

  /** The height scale and the algorithm switch touch disjoint fields, so their order does not matter. */
  lemma RescaleReshadeCommute(rec: SceneRecord, scale: real, alg: string)
    ensures Rescale(Reshade(rec, alg), scale) == Reshade(Rescale(rec, scale), alg)
  {
  }
}
