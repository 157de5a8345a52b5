/**
 * The uniform set the renderer writes into a shader material, and what the
 * before-render callback of a scene writes each frame.
 */
module ShaderSync {
  import opened SceneModel

  /** The uniforms of one write: camera position, ambient colour, light count,
      the light positions flattened to x, y, z triples, and the diffuse colours. */
  datatype Uniforms = Uniforms(
    cameraPosition: Vec3,
    ambient: Color3,
    numLights: int,
    lightPositions: seq<real>,
    lightColors: seq<Color3>)

  /** One `updateShaderUniforms` call: the shader written and what was written. */
  datatype UniformWrite = UniformWrite(shader: Handle, uniforms: Uniforms)

  /** One run of the before-render callback: the writes made, in order, and the
      key whose lookup came back `undefined` when the callback stopped on it. */
  datatype FrameResult = FrameResult(writes: seq<UniformWrite>, missing: Option<string>)

  /** The light positions pushed one light at a time, three numbers per light. */
  function FlattenPositions(lights: seq<Light>): (r: seq<real>)
    ensures |r| == 3 * |lights|
    ensures forall k :: 0 <= k < |lights| ==>
      r[3 * k] == lights[k].position.x && r[3 * k + 1] == lights[k].position.y && r[3 * k + 2] == lights[k].position.z
  {
    if lights == [] then []
    else
      var last := lights[|lights| - 1];
      FlattenPositions(lights[..|lights| - 1]) + [last.position.x, last.position.y, last.position.z]
  }

  /** The diffuse colours, one per light. */
  function LightColors(lights: seq<Light>): (r: seq<Color3>)
    ensures |r| == |lights|
    ensures forall k :: 0 <= k < |lights| ==> r[k] == lights[k].diffuse
  {
    if lights == [] then [] else LightColors(lights[..|lights| - 1]) + [lights[|lights| - 1].diffuse]
  }

  /** How a shader reads a flat array of numbers as a `vec3` array. */
  function Unflatten(flat: seq<real>): (r: seq<Vec3>)
    requires |flat| % 3 == 0
  {
    if flat == [] then []
    else
      var n := |flat|;
      Unflatten(flat[..n - 3]) + [Vec3(flat[n - 3], flat[n - 2], flat[n - 1])]
  }

  /** Read back as `vec3`s, the flattened positions are the lights' positions, in list order. */
  lemma {:induction false} UnflattenFlatten(lights: seq<Light>)
    ensures |Unflatten(FlattenPositions(lights))| == |lights|
    ensures forall k :: 0 <= k < |lights| ==> Unflatten(FlattenPositions(lights))[k] == lights[k].position
  {
    if lights != [] {
      var init := lights[..|lights| - 1];
      var flat := FlattenPositions(lights);
      UnflattenFlatten(init);
      assert flat[..|flat| - 3] == FlattenPositions(init);
    }
  }

  /** What `updateShaderUniforms` writes for a scene record. */
  function ShaderUniforms(rec: SceneRecord): (u: Uniforms)
    ensures u.cameraPosition == rec.camera.position && u.ambient == rec.ambient
    ensures u.numLights == |rec.lights|
    ensures |u.lightPositions| == 3 * |rec.lights| && |u.lightColors| == |rec.lights|
    ensures forall k :: 0 <= k < |rec.lights| ==>
      && u.lightPositions[3 * k] == rec.lights[k].position.x
      && u.lightPositions[3 * k + 1] == rec.lights[k].position.y
      && u.lightPositions[3 * k + 2] == rec.lights[k].position.z
      && u.lightColors[k] == rec.lights[k].diffuse
  {
    Uniforms(rec.camera.position, rec.ambient, |rec.lights|, FlattenPositions(rec.lights), LightColors(rec.lights))
  }

  /** The before-render callback of a scene, run with the algorithm current at frame
      time: sync the `illum_` material, then the `ground_` material. An `undefined`
      material makes the call on it throw, which ends the callback. */
  function FrameSync(rec: SceneRecord, alg: string): (f: FrameResult)
    ensures f.missing == None <==> IllumKey(alg) in rec.materials && GroundKey(alg) in rec.materials
    ensures f.missing.Some? ==> f.missing.value !in rec.materials
    ensures |f.writes| <= 2
    ensures forall w :: w in f.writes ==> w.uniforms == ShaderUniforms(rec) && w.shader in rec.materials.Values
  {
    var u := ShaderUniforms(rec);
    match Lookup(rec.materials, IllumKey(alg))
    case None => FrameResult([], Some(IllumKey(alg)))
    case Some(illum) =>
      match Lookup(rec.materials, GroundKey(alg))
      case None => FrameResult([UniformWrite(illum, u)], Some(GroundKey(alg)))
      case Some(ground) => FrameResult([UniformWrite(illum, u), UniformWrite(ground, u)], None)
  }

  /** The writes of a frame, case by case: nothing when `illum_` is missing; the
      `illum_` write alone when only `ground_` is missing; otherwise the same uniforms
      into `illum_` and then `ground_`. */
  lemma FrameSyncComplete(rec: SceneRecord, alg: string)
    ensures var f := FrameSync(rec, alg); var m := rec.materials; var u := ShaderUniforms(rec);
      && (IllumKey(alg) !in m ==> f == FrameResult([], Some(IllumKey(alg))))
      && (IllumKey(alg) in m && GroundKey(alg) !in m ==>
            f == FrameResult([UniformWrite(m[IllumKey(alg)], u)], Some(GroundKey(alg))))
      && (IllumKey(alg) in m && GroundKey(alg) in m ==>
            f == FrameResult([UniformWrite(m[IllumKey(alg)], u), UniformWrite(m[GroundKey(alg)], u)], None))
  {
  }

  /** In a scene bound to the current algorithm, a frame writes into precisely the
      materials its meshes carry: the first into every model's, the second into the ground's. */
  lemma FrameSyncTargetsBoundMaterials(rec: SceneRecord, alg: string)
    requires Bound(rec, alg)
    ensures var f := FrameSync(rec, alg);
      && (|f.writes| >= 1 ==> forall k :: 0 <= k < |rec.models| ==> rec.models[k].material == Some(f.writes[0].shader))
      && (|f.writes| == 2 ==> rec.groundMesh.material == Some(f.writes[1].shader))
  {
  }

  /** The callback looks the algorithm up when it runs: a frame after switching to `a`
      syncs the `a` materials whatever the scene was bound to before, with unchanged uniforms. */
  lemma FrameAfterSwitch(rec: SceneRecord, previous: string, a: string)
    ensures FrameSync(Reshade(rec, previous), a) == FrameSync(rec, a)
    ensures ShaderUniforms(Reshade(rec, previous)) == ShaderUniforms(rec)
  {
  }

  /** The height scale is not a uniform of this set: changing it leaves every frame's writes as they were. */
  lemma FrameIgnoresHeightScale(rec: SceneRecord, scale: real, alg: string)
    ensures FrameSync(Rescale(rec, scale), alg) == FrameSync(rec, alg)
  {
  }
}
