/**
 * The renderer: two scene records built once, the indices of the active scene and
 * light, and the name of the shading algorithm every mesh is bound to.
 */
module Rendering {
  import opened SceneModel
  import opened ShaderSync
  import StarMesh

  /** A scene-list entry as the constructor's literal gives it, before the
      callbacks and the scene builder fill in the rest. */
  datatype SceneSeed = SceneSeed(scene: Handle, backgroundColor: Color4, groundSubdivisions: (nat, nat), ambient: Color3)

  const White: Color3 := Color3(1.0, 1.0, 1.0)
  const UnitScale: Vec2 := Vec2(1.0, 1.0)

  /** The star of scene 1 has five points. */
  const StarPoints: nat := 5

  /** What the builder of scene 0 gives a record: the seed's scene, background and
      ambient colour, the host's materials map and ground mesh, a camera at
      (0, 1.8, 10) aimed at (0, 1.8, 0) with up vector (0, 1, 0), a 35-degree field of
      view and clip planes at 0.1 and 100, a green and a white light, a ground of height
      scale 1, a 32-segment sphere and a 2 x 1 x 1 box, every mesh bound to `alg`. */
  ghost predicate Scene0Built(rec: SceneRecord, seed: SceneSeed, materials: map<string, Handle>, ground: Handle, alg: string)
  {
    && rec.scene == seed.scene && rec.backgroundColor == seed.backgroundColor
    && rec.ambient == seed.ambient && rec.groundSubdivisions == seed.groundSubdivisions
    && rec.materials == materials && rec.groundMesh.mesh == ground
    && rec.camera == Camera(Vec3(0.0, 1.8, 10.0), Vec3(0.0, 1.8, 0.0), Vec3(0.0, 1.0, 0.0), 35.0, 0.1, 100.0)
    && rec.lights == [Light("light0", Vec3(1.0, 1.0, 5.0), Color3(0.1, 1.0, 0.1), White),
                      Light("light1", Vec3(0.0, 3.0, 0.0), White, White)]
    && rec.groundMesh.metadata.heightScalar == 1.0
    && |rec.models| == 2 && rec.models[0].shape == Sphere(32) && rec.models[1].shape == Box(2.0, 1.0, 1.0)
    && Bound(rec, alg)
  }

  /** What the builder of scene 1 gives a record: as for scene 0 but with the camera
      aimed at (0, 5, 0), one pink light and the five-pointed star, whose indices all
      name existing vertices. */
  ghost predicate Scene1Built(rec: SceneRecord, seed: SceneSeed, materials: map<string, Handle>, ground: Handle, alg: string)
  {
    && rec.scene == seed.scene && rec.backgroundColor == seed.backgroundColor
    && rec.ambient == seed.ambient && rec.groundSubdivisions == seed.groundSubdivisions
    && rec.materials == materials && rec.groundMesh.mesh == ground
    && rec.camera == Camera(Vec3(0.0, 1.8, 10.0), Vec3(0.0, 5.0, 0.0), Vec3(0.0, 1.0, 0.0), 35.0, 0.1, 100.0)
    && rec.lights == [Light("light0", Vec3(1.0, 1.0, 5.0), Color3(0.977, 0.469, 0.996), White)]
    && rec.groundMesh.metadata.heightScalar == 1.0
    && |rec.models| == 1 && StarMesh.IsStar(rec.models[0].shape, StarPoints)
    && Bound(rec, alg)
  }

  /** The two entries of the constructor's scene-list literal. */
  function Seed0(scene: Handle): SceneSeed { SceneSeed(scene, Color4(0.1, 0.1, 0.1, 1.0), (50, 50), Color3(0.2, 0.2, 0.2)) }
  function Seed1(scene: Handle): SceneSeed { SceneSeed(scene, Color4(0.173, 0.004, 0.258, 1.0), (50, 50), Color3(0.2, 0.2, 0.2)) }

  class Renderer {
    var scenes: seq<SceneRecord>
    var activeScene: int
    var activeLight: int
    var shadingAlg: string

    /** What every public operation keeps: two scenes with distinct Babylon scenes,
        the light and model counts their builders gave them, and every mesh bound to
        the current algorithm's material of its own scene. */
    ghost predicate Valid()
      reads this
    {
      && |scenes| == 2
      && scenes[0].scene != scenes[1].scene
      && |scenes[0].lights| == 2 && |scenes[0].models| == 2
      && |scenes[1].lights| == 1 && |scenes[1].models| == 1
      && forall i :: 0 <= i < |scenes| ==> Bound(scenes[i], shadingAlg)
    }

    /** Builds both scenes. `materialCallback` gives a scene its materials map and
        `groundMeshCallback` its ground mesh; both are supplied by the host. */
    constructor (materialCallback: Handle -> map<string, Handle>, groundMeshCallback: (Handle, (nat, nat)) -> Handle)
      ensures Valid()
      ensures activeScene == 0 && activeLight == 0 && shadingAlg == "gouraud"
      ensures fresh(scenes[0].scene) && fresh(scenes[1].scene)
      ensures var s := scenes[0].scene;
        Scene0Built(scenes[0], Seed0(s), materialCallback(s), groundMeshCallback(s, (50, 50)), "gouraud")
      ensures var s := scenes[1].scene;
        Scene1Built(scenes[1], Seed1(s), materialCallback(s), groundMeshCallback(s, (50, 50)), "gouraud")
    {
      var scene0 := new Handle();
      var scene1 := new Handle();
      var seeds := [Seed0(scene0), Seed1(scene1)];
      scenes := [];
      activeScene := 0;
      activeLight := 0;
      shadingAlg := "gouraud";
      new;
      var idx := 0;
      while idx < |seeds|
        invariant 0 <= idx <= |seeds| && |scenes| == idx
        invariant activeScene == 0 && activeLight == 0 && shadingAlg == "gouraud"
        invariant idx > 0 ==>
          Scene0Built(scenes[0], seeds[0], materialCallback(scene0), groundMeshCallback(scene0, (50, 50)), shadingAlg)
        invariant idx > 1 ==>
          Scene1Built(scenes[1], seeds[1], materialCallback(scene1), groundMeshCallback(scene1, (50, 50)), shadingAlg)
      {
        var seed := seeds[idx];
        var materials := materialCallback(seed.scene);
        var ground := groundMeshCallback(seed.scene, seed.groundSubdivisions);
        var rec;
        if idx == 0 {
          rec := CreateScene0(seed, materials, ground);
        } else {
          rec := CreateScene1(seed, materials, ground);
        }
        scenes := scenes + [rec];
        idx := idx + 1;
      }
    }

    /** Scene 0: a camera at (0, 1.8, 10), a green and a white light, the ground,
        a sphere and a box, every mesh bound to the current algorithm. */
    method CreateScene0(seed: SceneSeed, materials: map<string, Handle>, ground: Handle) returns (rec: SceneRecord)
      ensures Scene0Built(rec, seed, materials, ground, shadingAlg)
    {
      var camera := Camera(Vec3(0.0, 1.8, 10.0), Vec3(0.0, 1.8, 0.0), Vec3(0.0, 1.0, 0.0), 35.0, 0.1, 100.0);

      var lights: seq<Light> := [];
      lights := lights + [Light("light0", Vec3(1.0, 1.0, 5.0), Color3(0.1, 1.0, 0.1), White)];
      lights := lights + [Light("light1", Vec3(0.0, 3.0, 0.0), White, White)];

      var whiteTexture := new Handle();
      var heightmap := new Handle();
      var groundSurface := Surface(Color3(0.10, 0.65, 0.15), whiteTexture, Color3(0.0, 0.0, 0.0), 1, UnitScale);
      var groundMesh := GroundMesh(ground, Vec3(20.0, 1.0, 20.0), GroundMetadata(groundSurface, 1.0, heightmap),
                                   Lookup(materials, GroundKey(shadingAlg)));

      var models: seq<Model> := [];
      var sphere := new Handle();
      models := models + [Model(sphere, "sphere", Sphere(32), Vec3(1.0, 0.5, 3.0),
                                Surface(Color3(0.10, 0.35, 0.88), whiteTexture, Color3(0.8, 0.8, 0.8), 16, UnitScale),
                                Lookup(materials, IllumKey(shadingAlg)))];
      var box := new Handle();
      models := models + [Model(box, "box", Box(2.0, 1.0, 1.0), Vec3(-1.0, 0.5, 2.0),
                                Surface(Color3(0.75, 0.15, 0.05), whiteTexture, Color3(0.4, 0.4, 0.4), 4, UnitScale),
                                Lookup(materials, IllumKey(shadingAlg)))];

      rec := SceneRecord(seed.scene, seed.backgroundColor, materials, seed.groundSubdivisions, groundMesh,
                         camera, seed.ambient, lights, models);
    }

    /** Scene 1: a camera at (0, 1.8, 10) aimed higher, one pink light, the ground
        and the custom star, every mesh bound to the current algorithm. */
    method CreateScene1(seed: SceneSeed, materials: map<string, Handle>, ground: Handle) returns (rec: SceneRecord)
      ensures Scene1Built(rec, seed, materials, ground, shadingAlg)
    {
      var camera := Camera(Vec3(0.0, 1.8, 10.0), Vec3(0.0, 5.0, 0.0), Vec3(0.0, 1.0, 0.0), 35.0, 0.1, 100.0);

      var lights: seq<Light> := [];
      lights := lights + [Light("light0", Vec3(1.0, 1.0, 5.0), Color3(0.977, 0.469, 0.996), White)];

      var whiteTexture := new Handle();
      var heightmap := new Handle();
      var groundSurface := Surface(Color3(0.173, 0.004, 0.258), whiteTexture, Color3(0.0, 0.0, 0.0), 1, UnitScale);
      var groundMesh := GroundMesh(ground, Vec3(20.0, 1.0, 20.0), GroundMetadata(groundSurface, 1.0, heightmap),
                                   Lookup(materials, GroundKey(shadingAlg)));

      var models: seq<Model> := [];
      var star := new Handle();
      var starShape := StarMesh.StarShape(StarPoints);
      StarMesh.StarShapeIsStar(StarPoints);
      models := models + [Model(star, "custom", starShape, Vec3(0.0, 0.0, 0.0),
                                Surface(Color3(0.75, 0.15, 0.05), whiteTexture, Color3(0.4, 0.4, 0.4), 5, UnitScale),
                                Lookup(materials, IllumKey(shadingAlg)))];

      rec := SceneRecord(seed.scene, seed.backgroundColor, materials, seed.groundSubdivisions, groundMesh,
                         camera, seed.ambient, lights, models);
    }

    /** Writes into `shader` the camera position, ambient colour and lights of scene
        `sceneIdx`, the positions flattened in list order. */
    method UpdateShaderUniforms(sceneIdx: nat, shader: Handle) returns (w: UniformWrite)
      requires sceneIdx < |scenes|
      ensures w.shader == shader
      ensures var rec := scenes[sceneIdx]; var u := w.uniforms;
        && u.cameraPosition == rec.camera.position
        && u.ambient == rec.ambient
        && u.numLights == |rec.lights|
        && |u.lightPositions| == 3 * |rec.lights|
        && (forall k :: 0 <= k < |rec.lights| ==>
              && u.lightPositions[3 * k] == rec.lights[k].position.x
              && u.lightPositions[3 * k + 1] == rec.lights[k].position.y
              && u.lightPositions[3 * k + 2] == rec.lights[k].position.z)
        && |u.lightColors| == |rec.lights|
        && (forall k :: 0 <= k < |rec.lights| ==> u.lightColors[k] == rec.lights[k].diffuse)
      ensures w.uniforms == ShaderUniforms(scenes[sceneIdx])
    {
      var current := scenes[sceneIdx];
      var lightPositions: seq<real> := [];
      var lightColors: seq<Color3> := [];
      var k := 0;
      while k < |current.lights|
        invariant 0 <= k <= |current.lights|
        invariant lightPositions == FlattenPositions(current.lights[..k])
        invariant lightColors == LightColors(current.lights[..k])
      {
        var light := current.lights[k];
        lightPositions := lightPositions + [light.position.x, light.position.y, light.position.z];
        lightColors := lightColors + [light.diffuse];
        assert current.lights[..k + 1][..k] == current.lights[..k];
        k := k + 1;
      }
      assert current.lights[..k] == current.lights;
      w := UniformWrite(shader, Uniforms(current.camera.position, current.ambient, |current.lights|,
                                         lightPositions, lightColors));
    }

    /** The before-render callback of scene `sceneIdx`: it looks up the materials of
        the algorithm current when the frame runs and syncs `illum_`, then `ground_`. */
    method BeforeRender(sceneIdx: nat) returns (r: FrameResult)
      requires sceneIdx < |scenes|
      ensures r == FrameSync(scenes[sceneIdx], shadingAlg)
    {
      var materials := scenes[sceneIdx].materials;
      var illum := Lookup(materials, IllumKey(shadingAlg));
      if illum.None? {
        return FrameResult([], Some(IllumKey(shadingAlg)));
      }
      var first := UpdateShaderUniforms(sceneIdx, illum.value);
      var ground := Lookup(materials, GroundKey(shadingAlg));
      if ground.None? {
        return FrameResult([first], Some(GroundKey(shadingAlg)));
      }
      var second := UpdateShaderUniforms(sceneIdx, ground.value);
      r := FrameResult([first, second], None);
    }

    /** The Babylon scene of the active record; no other record has it. */
    function GetActiveScene(): (h: Handle)
      reads this
      requires Valid() && 0 <= activeScene < |scenes|
      ensures forall i :: 0 <= i < |scenes| ==> (scenes[i].scene == h <==> i == activeScene)
    {
      scenes[activeScene].scene
    }

    /** Selects a scene; the index is not checked. */
    method SetActiveScene(idx: int)
      modifies this`activeScene
      ensures activeScene == idx
      ensures scenes == old(scenes) && activeLight == old(activeLight) && shadingAlg == old(shadingAlg)
      ensures old(Valid()) ==> Valid()
    {
      activeScene := idx;
    }

    /** Switches every mesh of every scene, active or not, to the algorithm's materials. */
    method SetShadingAlgorithm(algorithm: string)
      modifies this`shadingAlg, this`scenes
      ensures shadingAlg == algorithm
      ensures |scenes| == |old(scenes)|
      ensures forall i :: 0 <= i < |scenes| ==> scenes[i] == Reshade(old(scenes)[i], algorithm)
      ensures activeScene == old(activeScene) && activeLight == old(activeLight)
      ensures old(Valid()) ==> Valid()
    {
      shadingAlg := algorithm;
      var i := 0;
      while i < |scenes|
        invariant 0 <= i <= |scenes| && |scenes| == |old(scenes)|
        invariant shadingAlg == algorithm
        invariant forall j :: 0 <= j < i ==> scenes[j] == Reshade(old(scenes)[j], algorithm)
        invariant forall j :: i <= j < |scenes| ==> scenes[j] == old(scenes)[j]
      {
        var rec := scenes[i];
        var groundMesh := rec.groundMesh.(material := Lookup(rec.materials, GroundKey(shadingAlg)));
        var models := rec.models;
        var k := 0;
        while k < |models|
          invariant 0 <= k <= |models| && |models| == |rec.models|
          invariant forall j :: 0 <= j < k ==> models[j] == rec.models[j].(material := Lookup(rec.materials, IllumKey(shadingAlg)))
          invariant forall j :: k <= j < |models| ==> models[j] == rec.models[j]
        {
          models := models[k := models[k].(material := Lookup(rec.materials, IllumKey(shadingAlg)))];
          k := k + 1;
        }
        assert models == RebindModels(rec.models, Lookup(rec.materials, IllumKey(algorithm)));
        scenes := scenes[i := rec.(groundMesh := groundMesh, models := models)];
        i := i + 1;
      }
    }

    /** Sets the ground's height scale in every scene; any value is taken. */
    method SetHeightScale(scale: real)
      modifies this`scenes
      ensures |scenes| == |old(scenes)|
      ensures forall i :: 0 <= i < |scenes| ==> scenes[i] == Rescale(old(scenes)[i], scale)
      ensures old(Valid()) ==> Valid()
    {
      var i := 0;
      while i < |scenes|
        invariant 0 <= i <= |scenes| && |scenes| == |old(scenes)|
        invariant forall j :: 0 <= j < i ==> scenes[j] == Rescale(old(scenes)[j], scale)
        invariant forall j :: i <= j < |scenes| ==> scenes[j] == old(scenes)[j]
      {
        var groundMesh := scenes[i].groundMesh;
        scenes := scenes[i := scenes[i].(groundMesh := groundMesh.(metadata := groundMesh.metadata.(heightScalar := scale)))];
        i := i + 1;
      }
    }

    /** Selects a light; the index is not checked. */
    method SetActiveLight(idx: int)
      modifies this`activeLight
      ensures activeLight == idx
      ensures scenes == old(scenes) && activeScene == old(activeScene) && shadingAlg == old(shadingAlg)
      ensures old(Valid()) ==> Valid()
    {
      activeLight := idx;
    }
  }

  /** A switch followed by a frame: whatever the scenes were bound to before, the
      frame of scene `i` is the frame of its old record under `a`, and when both keys
      of `a` exist it writes the old record's uniforms into `illum_` then `ground_`. */
  method SwitchThenRender(renderer: Renderer, a: string, i: nat) returns (frame: FrameResult)
    requires i < |renderer.scenes|
    modifies renderer`scenes, renderer`shadingAlg
    ensures renderer.shadingAlg == a
    ensures old(renderer.Valid()) ==> renderer.Valid()
    ensures frame == FrameSync(old(renderer.scenes)[i], a)
    ensures var m := old(renderer.scenes)[i].materials; var u := ShaderUniforms(old(renderer.scenes)[i]);
      IllumKey(a) in m && GroundKey(a) in m ==>
        frame == FrameResult([UniformWrite(m[IllumKey(a)], u), UniformWrite(m[GroundKey(a)], u)], None)
  {
    var before := renderer.scenes[i];
    renderer.SetShadingAlgorithm(a);
    frame := renderer.BeforeRender(i);
    FrameAfterSwitch(before, a, a);
    FrameSyncComplete(before, a);
  }

  /** Switching to the algorithm already in force leaves every scene as it is. */
  method SwitchAgain(renderer: Renderer)
    requires renderer.Valid()
    modifies renderer`scenes, renderer`shadingAlg
    ensures renderer.scenes == old(renderer.scenes) && renderer.shadingAlg == old(renderer.shadingAlg)
    ensures renderer.activeScene == old(renderer.activeScene) && renderer.activeLight == old(renderer.activeLight)
    ensures renderer.Valid()
  {
    var once := renderer.scenes;
    renderer.SetShadingAlgorithm(renderer.shadingAlg);
    ReshadeBoundIsIdentity(once[0], renderer.shadingAlg);
    ReshadeBoundIsIdentity(once[1], renderer.shadingAlg);
  }
}
