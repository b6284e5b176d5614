/**
  The Renderer of main.cpp, reduced to the state its key handler and its light
  set-up change: the scene's objects, the selected object, the polygon-mode
  flag, the directional light, and the point and spot lights rebuilt each
  frame. Window, shader and uniform handling are not modelled.
 */
module Rendering {
  import opened Wrappers
  import opened Vectors
  import opened Materials
  import opened Objects
  import opened Lighting

  /** GLFW key and action codes the handler compares against. */
  const KeyOne: int := 49
  const KeyNine: int := 57
  const KeyB: int := 66
  const KeyC: int := 67
  const KeyE: int := 69
  const KeyF: int := 70
  const KeyI: int := 73
  const KeyJ: int := 74
  const KeyK: int := 75
  const KeyO: int := 79
  const KeyP: int := 80
  const KeyR: int := 82
  const KeyT: int := 84
  const KeyU: int := 85
  const KeyV: int := 86
  const KeyY: int := 89
  const KeyZ: int := 90
  const KeyRight: int := 262
  const KeyLeft: int := 263
  const KeyDown: int := 264
  const KeyUp: int := 265
  const Press: int := 1
  const Repeat: int := 2

  datatype DirLight = DirLight(direction: Vec3, ambient: Vec3, diffuse: Vec3, specular: Vec3)

  /** The selection after a key: a digit key picks its object when there is one; nothing else changes it. */
  function Selection(selected: int, key: int, count: nat): (r: int)
  {
    if KeyOne <= key <= KeyNine && key - KeyOne < count then key - KeyOne else selected
  }

  /** A selection that names an object or none keeps doing so, and only a digit key moves it. */
  lemma SelectionInRange(selected: int, key: int, count: nat)
    requires -1 <= selected < count
    ensures var r := Selection(selected, key, count);
      && -1 <= r < count
      && (r != selected ==> KeyOne <= key <= KeyNine && r == key - KeyOne)
      && (KeyOne <= key <= KeyNine && key - KeyOne < count ==> r == key - KeyOne)
  {
  }

  /** The flag and the ambient colour after the O, I and U keys. */
  function AmbientAfter(enabled: bool, ambient: Vec3, key: int): (bool, Vec3)
  {
    if key == KeyO then (!enabled, Splat(0.1))
    else if key == KeyI && enabled then (enabled, ClampUnitCube(Plus(ambient, Splat(0.1))))
    else if key == KeyU && enabled then (enabled, ClampUnitCube(Minus(ambient, Splat(0.1))))
    else (enabled, ambient)
  }

  /**
    The ambient colour stays in the unit cube; while ambient light is disabled
    only O changes anything; and only O flips the flag.
   */
  lemma AmbientControls(enabled: bool, ambient: Vec3, key: int)
    ensures var (e, a) := AmbientAfter(enabled, ambient, key);
      && (InUnitCube(ambient) ==> InUnitCube(a))
      && (!enabled && key != KeyO ==> a == ambient)
      && (e != enabled <==> key == KeyO)
      && (key == KeyO ==> a == Vec3(0.1, 0.1, 0.1))
  {
  }

  /** I raises and U lowers every component by 0.1 while enabled, stopping at the ends of [0, 1]. */
  lemma AmbientStep(ambient: Vec3, key: int)
    requires InUnitCube(ambient)
    ensures key == KeyI ==>
      AmbientAfter(true, ambient, key).1 ==
        Vec3(if ambient.x + 0.1 > 1.0 then 1.0 else ambient.x + 0.1,
             if ambient.y + 0.1 > 1.0 then 1.0 else ambient.y + 0.1,
             if ambient.z + 0.1 > 1.0 then 1.0 else ambient.z + 0.1)
    ensures key == KeyU ==>
      AmbientAfter(true, ambient, key).1 ==
        Vec3(if ambient.x - 0.1 < 0.0 then 0.0 else ambient.x - 0.1,
             if ambient.y - 0.1 < 0.0 then 0.0 else ambient.y - 0.1,
             if ambient.z - 0.1 < 0.0 then 0.0 else ambient.z - 0.1)
  {
  }

  /** One pass of a reflection-editing loop over one material; light sources are skipped. */
  function AdjustOne(m: MaterialProperties, delta: real, specular: bool): MaterialProperties {
    if m.isLightSource then m
    else if specular then m.(specularReflection := ClampUnitCube(Plus(m.specularReflection, Splat(delta))))
    else m.(diffuseReflection := ClampUnitCube(Plus(m.diffuseReflection, Splat(delta))))
  }

  /** One pass of a reflection-editing loop over all materials. */
  function Adjusted(ms: seq<MaterialProperties>, delta: real, specular: bool): (r: seq<MaterialProperties>)
    ensures |r| == |ms|
  {
    seq(|ms|, i requires 0 <= i < |ms| => AdjustOne(ms[i], delta, specular))
  }

  /** The materials after a key: E and R run their loop twice, T and Y once. */
  function MaterialsAfter(ms: seq<MaterialProperties>, key: int): seq<MaterialProperties> {
    if key == KeyE then Adjusted(Adjusted(ms, 0.1, false), 0.1, false)
    else if key == KeyR then Adjusted(Adjusted(ms, -0.1, false), -0.1, false)
    else if key == KeyT then Adjusted(ms, 0.1, true)
    else if key == KeyY then Adjusted(ms, -0.1, true)
    else ms
  }

  /**
    A key edits only non-light-source materials, only the reflection it is for,
    and leaves that reflection in the unit cube.
   */
  lemma MaterialsAfterKeepsLights(ms: seq<MaterialProperties>, key: int, i: nat)
    requires i < |ms|
    ensures |MaterialsAfter(ms, key)| == |ms|
    ensures ms[i].isLightSource ==> MaterialsAfter(ms, key)[i] == ms[i]
    ensures var m := MaterialsAfter(ms, key)[i];
      m.(diffuseReflection := ms[i].diffuseReflection, specularReflection := ms[i].specularReflection) == ms[i]
    ensures (key == KeyE || key == KeyR) && !ms[i].isLightSource ==>
      InUnitCube(MaterialsAfter(ms, key)[i].diffuseReflection)
      && MaterialsAfter(ms, key)[i].specularReflection == ms[i].specularReflection
    ensures (key == KeyT || key == KeyY) && !ms[i].isLightSource ==>
      InUnitCube(MaterialsAfter(ms, key)[i].specularReflection)
      && MaterialsAfter(ms, key)[i].diffuseReflection == ms[i].diffuseReflection
  {
  }

  /** Two clamped steps of 0.1 from inside [0, 1] make one clamped step of 0.2. */
  lemma DoubleStep(c: real, delta: real)
    requires 0.0 <= c <= 1.0
    requires delta == 0.1 || delta == -0.1
    ensures ClampUnit(ClampUnit(c + delta) + delta) == ClampUnit(c + 2.0 * delta)
  {
  }

  /** So one E press raises a diffuse reflection inside the unit cube by 0.2, up to 1. */
  lemma {:induction false} EPressStep(ms: seq<MaterialProperties>, i: nat)
    requires i < |ms| && !ms[i].isLightSource && InUnitCube(ms[i].diffuseReflection)
    ensures MaterialsAfter(ms, KeyE)[i].diffuseReflection
      == ClampUnitCube(Plus(ms[i].diffuseReflection, Splat(0.2)))
  {
    var d := ms[i].diffuseReflection;
    DoubleStep(d.x, 0.1);
    DoubleStep(d.y, 0.1);
    DoubleStep(d.z, 0.1);
  }

  /** The x offset a key gives the selected object (RIGHT and LEFT). */
  function DeltaX(key: int): real {
    if key == KeyRight then 0.5 else if key == KeyLeft then -0.5 else 0.0
  }

  /** The y offset a key gives the selected object (K and J). UP and DOWN pass a z offset, which Move drops. */
  function DeltaY(key: int): real {
    if key == KeyK then 0.5 else if key == KeyJ then -0.5 else 0.0
  }

  function DeltaAngle(key: int): real {
    if key == KeyZ then 0.05 else if key == KeyC then -0.05 else 0.0
  }

  function ScaleFactor(key: int): real {
    if key == KeyV then 0.1 else if key == KeyB then -0.1 else 1.0
  }

  /** Whether some material is a light source: the loop with an early exit behind the F key. */
  method HasLightSource(ms: seq<MaterialProperties>) returns (b: bool)
    ensures b <==> exists i :: 0 <= i < |ms| && ms[i].isLightSource
  {
    b := false;
    var i := 0;
    while i < |ms|
      invariant 0 <= i <= |ms|
      invariant !b
      invariant forall j :: 0 <= j < i ==> !ms[j].isLightSource
    {
      if ms[i].isLightSource {
        b := true;
        break;
      }
      i := i + 1;
    }
  }

  /** The in-place loop over a material vector that steps one reflection of every non-light material. */
  method AdjustReflections(obj: Object, delta: real, specular: bool)
    modifies obj`materials
    ensures obj.materials == Adjusted(old(obj.materials), delta, specular)
  {
    ghost var ms := obj.materials;
    var i := 0;
    while i < |obj.materials|
      invariant 0 <= i <= |obj.materials| == |ms|
      invariant forall j :: 0 <= j < i ==> obj.materials[j] == AdjustOne(ms[j], delta, specular)
      invariant forall j :: i <= j < |ms| ==> obj.materials[j] == ms[j]
    {
      var mat := obj.materials[i];
      if !mat.isLightSource {
        if specular {
          var s := Plus(mat.specularReflection, Splat(delta));
          s := ClampUnitCube(s);
          obj.materials := obj.materials[i := mat.(specularReflection := s)];
        } else {
          var d := Plus(mat.diffuseReflection, Splat(delta));
          d := ClampUnitCube(d);
          obj.materials := obj.materials[i := mat.(diffuseReflection := d)];
        }
      }
      i := i + 1;
    }
  }

  /**
    The key blocks that act on the selected object, in the order the handler
    runs them. Returns whether ToggleLights is called on the object.
   */
  method EditSelected(obj: Object, key: int) returns (toggleLights: bool)
    modifies obj`xPos, obj`yPos, obj`scale, obj`angle, obj`materials
    ensures obj.xPos == old(obj.xPos) + DeltaX(key) && obj.yPos == old(obj.yPos) + DeltaY(key)
    ensures obj.angle == old(obj.angle) + DeltaAngle(key)
    ensures obj.scale == old(obj.scale) * ScaleFactor(key)
    ensures obj.materials == MaterialsAfter(old(obj.materials), key)
    ensures toggleLights <==> key == KeyF && exists i :: 0 <= i < |obj.materials| && obj.materials[i].isLightSource
  {
    if key == KeyZ { obj.Rotate(0.05); }
    if key == KeyC { obj.Rotate(-0.05); }
    if key == KeyRight { obj.Move(0.5, 0.0, 0.0); }
    if key == KeyLeft { obj.Move(-0.5, 0.0, 0.0); }
    if key == KeyUp { obj.Move(0.0, 0.0, 0.5); }
    if key == KeyDown { obj.Move(0.0, 0.0, -0.5); }
    if key == KeyJ { obj.Move(0.0, -0.5, 0.0); }
    if key == KeyK { obj.Move(0.0, 0.5, 0.0); }
    if key == KeyV { obj.Scale(0.1); }
    if key == KeyB { obj.Scale(-0.1); }
    if key == KeyE { AdjustReflections(obj, 0.1, false); }
    if key == KeyR { AdjustReflections(obj, -0.1, false); }
    if key == KeyE { AdjustReflections(obj, 0.1, false); }
    if key == KeyR { AdjustReflections(obj, -0.1, false); }
    if key == KeyT { AdjustReflections(obj, 0.1, true); }
    if key == KeyY { AdjustReflections(obj, -0.1, true); }
    toggleLights := false;
    if key == KeyF {
      toggleLights := HasLightSource(obj.materials);
    }
  }

  /** The light-collection view of a scene's objects, as SetupLighting reads them. */
  function Views(objs: seq<Object>): seq<ObjectView>
    reads objs
  {
    seq(|objs|, k reads objs requires 0 <= k < |objs| => ObjectView(objs[k].name, objs[k].model, objs[k].materials))
  }

  class Renderer {
    var objects: seq<Object>
    var selectedObjectIndex: int
    /** A global next to the class in the source; it belongs to the renderer's state here. */
    var polygonalMode: bool
    var ambientLightEnabled: bool
    var dirLight: DirLight
    var pointLights: seq<PointLight>
    var spotLights: seq<SpotLight>

    /** The selection is an object of the scene or -1. */
    predicate SelectionValid()
      reads this
    {
      -1 <= selectedObjectIndex < |objects|
    }

    /**
      The member initialisers and the constructor body; the scene table of
      LoadObjects is the `objs` argument. The light points from (0, 150, 0)
      at the origin, so its normalised direction is (0, -1, 0).
     */
    constructor (objs: seq<Object>)
      ensures objects == objs && selectedObjectIndex == -1 && SelectionValid()
      ensures !polygonalMode && ambientLightEnabled
      ensures dirLight == DirLight(Vec3(0.0, -1.0, 0.0), Splat(0.2), Splat(0.02), Splat(0.2))
      ensures pointLights == [] && spotLights == []
    {
      objects := objs;
      selectedObjectIndex := -1;
      polygonalMode := false;
      ambientLightEnabled := true;
      dirLight := DirLight(Vec3(0.0, -1.0, 0.0), Splat(0.2), Splat(0.02), Splat(0.2));
      pointLights := [];
      spotLights := [];
    }

    /**
      Rebuilds both light lists from the objects' active light-source
      materials, and blacks out the ambient colour while ambient light is
      disabled. The lists depend on the objects alone, so a second call on
      unchanged objects rebuilds the same lists.
     */
    method SetupLighting(nx: Numerics)
      modifies this`dirLight, this`pointLights, this`spotLights
      ensures pointLights == PointLights(nx, LightSources(Views(objects)))
      ensures spotLights == SpotLights(nx, LightSources(Views(objects)))
      ensures dirLight == old(dirLight).(direction := Vec3(0.0, -1.0, 0.0),
        ambient := if ambientLightEnabled then old(dirLight.ambient) else Splat(0.0))
    {
      dirLight := dirLight.(direction := Vec3(0.0, -1.0, 0.0));
      dirLight := dirLight.(ambient := if ambientLightEnabled then dirLight.ambient else Splat(0.0));
      CollectLights(nx);
    }

    /** The outer loop of SetupLighting: both lists cleared, then each object's lights appended in turn. */
    method CollectLights(nx: Numerics)
      modifies this`pointLights, this`spotLights
      ensures pointLights == PointLights(nx, LightSources(Views(objects)))
      ensures spotLights == SpotLights(nx, LightSources(Views(objects)))
    {
      pointLights := [];
      spotLights := [];
      var objs := objects;
      ghost var views := Views(objs);
      var k := 0;
      while k < |objs|
        invariant 0 <= k <= |objs| == |views|
        invariant forall j :: 0 <= j < |objs| ==> views[j] == ObjectView(objs[j].name, objs[j].model, objs[j].materials)
        invariant pointLights == PointLights(nx, LightSources(views[..k]))
        invariant spotLights == SpotLights(nx, LightSources(views[..k]))
      {
        var obj := objs[k];
        ghost var done := LightSources(views[..k]);
        assert views[k] == ObjectView(obj.name, obj.model, obj.materials);
        CollectObject(nx, obj, views[k], done);
        LightSourcesPrefix(views, k);
        k := k + 1;
      }
      assert views[..|objs|] == views;
      assert views == Views(objs);
    }

    /** The inner loop of SetupLighting: the lights of one object's materials, appended in index order. */
    method CollectObject(nx: Numerics, obj: Object, ghost view: ObjectView, ghost done: seq<Source>)
      requires view == ObjectView(obj.name, obj.model, obj.materials)
      requires pointLights == PointLights(nx, done) && spotLights == SpotLights(nx, done)
      modifies this`pointLights, this`spotLights
      ensures pointLights == PointLights(nx, done + MaterialSources(view, view.materials))
      ensures spotLights == SpotLights(nx, done + MaterialSources(view, view.materials))
    {
      var ms := obj.materials;
      ghost var acc := done;
      assert ms[..0] == [];
      var i := 0;
      while i < |ms|
        invariant 0 <= i <= |ms|
        invariant acc == done + MaterialSources(view, ms[..i])
        invariant pointLights == PointLights(nx, acc) && spotLights == SpotLights(nx, acc)
      {
        var mat := ms[i];
        MaterialSourcesPrefix(view, ms, i);
        if mat.isLightSource && mat.isActive {
          AddLight(nx, obj, mat, view, acc);
          acc := acc + [Source(view, mat)];
        }
        i := i + 1;
      }
      assert ms[..|ms|] == ms;
    }

    /** The body of the inner loop for a qualifying material: a spot or a point light is appended. */
    method AddLight(nx: Numerics, obj: Object, mat: MaterialProperties, ghost view: ObjectView, ghost before: seq<Source>)
      requires view.name == obj.name && view.model == obj.model
      requires pointLights == PointLights(nx, before) && spotLights == SpotLights(nx, before)
      modifies this`pointLights, this`spotLights
      ensures pointLights == PointLights(nx, before + [Source(view, mat)])
      ensures spotLights == SpotLights(nx, before + [Source(view, mat)])
    {
      PointLightsSnoc(nx, before, Source(view, mat));
      SpotLightsSnoc(nx, before, Source(view, mat));
      if mat.cutOff > -0.9 {
        var model := obj.GetModelMatrix();
        var position: Option<Vec3> := None;
        var direction: Option<Vec3> := None;
        if obj.name == GiantPath {
          var eyeCentroidNew := nx.transform(model, EyeCentroid);
          var eyeLeftNew := nx.transform(model, EyeLeft);
          position := Some(eyeCentroidNew);
          var leftVector := Minus(eyeLeftNew, eyeCentroidNew);
          direction := Some(nx.normalizedCross(leftVector, Vec3(0.0, 1.0, 0.0)));
        } else if obj.name == FlashlightPath {
          var centroidNew := nx.transform(model, FlashlightCentroid);
          var frontNew := nx.transform(model, FlashlightFront);
          position := Some(centroidNew);
          direction := Some(Minus(frontNew, centroidNew));
        }
        var light := SpotLight(position, direction, mat.emission, mat.cutOff, mat.outerCutOff,
          mat.constant, mat.linear, mat.quadratic, Splat(0.05), Splat(0.8), Splat(0.8));
        spotLights := spotLights + [light];
      } else {
        var model := obj.GetModelMatrix();
        var light := PointLight(nx.transform(model, Vec3(0.0, 0.0, 0.0)), mat.emission,
          mat.constant, mat.linear, mat.quadratic, Splat(0.05), Splat(0.8), Splat(0.5));
        pointLights := pointLights + [light];
      }
    }

    /**
      One key event. Only presses and repeats act. Digit keys select, P flips
      the polygon mode, O/I/U drive the ambient light, and the remaining keys
      edit the selected object if there is one. Returns whether the selected
      object's ToggleLights is called.
     */
    method HandleKeyInput(key: int, action: int) returns (toggleLights: bool)
      requires SelectionValid()
      modifies this`selectedObjectIndex, this`polygonalMode, this`ambientLightEnabled, this`dirLight
      modifies objects
      ensures SelectionValid()
      ensures var acts := action == Press || action == Repeat;
        && selectedObjectIndex == (if acts then Selection(old(selectedObjectIndex), key, |objects|) else old(selectedObjectIndex))
        && polygonalMode == (if acts && key == KeyP then !old(polygonalMode) else old(polygonalMode))
        && (ambientLightEnabled, dirLight.ambient) ==
             (if acts then AmbientAfter(old(ambientLightEnabled), old(dirLight.ambient), key)
              else (old(ambientLightEnabled), old(dirLight.ambient)))
      ensures dirLight.direction == old(dirLight.direction) && dirLight.diffuse == old(dirLight.diffuse)
      ensures dirLight.specular == old(dirLight.specular)
      ensures var acts := action == Press || action == Repeat;
        acts && 0 <= selectedObjectIndex ==>
          var obj := objects[selectedObjectIndex];
          && obj.xPos == old(obj.xPos) + DeltaX(key) && obj.yPos == old(obj.yPos) + DeltaY(key)
          && obj.angle == old(obj.angle) + DeltaAngle(key)
          && obj.scale == old(obj.scale) * ScaleFactor(key)
          && obj.materials == MaterialsAfter(old(obj.materials), key)
          && obj.zPos == old(obj.zPos) && obj.model == old(obj.model) && obj.axis == old(obj.axis)
          && obj.name == old(obj.name) && obj.vertices == old(obj.vertices)
          && obj.materialGroups == old(obj.materialGroups)
          && (toggleLights <==> key == KeyF && exists i :: 0 <= i < |obj.materials| && obj.materials[i].isLightSource)
      ensures forall j :: 0 <= j < |objects| ==>
        ((action == Press || action == Repeat) && 0 <= selectedObjectIndex && objects[j] == objects[selectedObjectIndex])
        || unchanged(objects[j])
      ensures !(0 <= selectedObjectIndex && (action == Press || action == Repeat)) ==> !toggleLights
    {
      toggleLights := false;
      if action == Press || action == Repeat {
        SceneKeys(key);
        if 0 <= selectedObjectIndex < |objects| {
          var selectedObj := objects[selectedObjectIndex];
          toggleLights := EditSelected(selectedObj, key);
        }
      }
    }

    /** The part of the key handler that acts on the renderer itself: selection, polygon mode and ambient light. */
    method SceneKeys(key: int)
      requires SelectionValid()
      modifies this`selectedObjectIndex, this`polygonalMode, this`ambientLightEnabled, this`dirLight
      ensures SelectionValid()
      ensures selectedObjectIndex == Selection(old(selectedObjectIndex), key, |objects|)
      ensures polygonalMode == (if key == KeyP then !old(polygonalMode) else old(polygonalMode))
      ensures (ambientLightEnabled, dirLight.ambient) == AmbientAfter(old(ambientLightEnabled), old(dirLight.ambient), key)
      ensures dirLight.direction == old(dirLight.direction) && dirLight.diffuse == old(dirLight.diffuse)
      ensures dirLight.specular == old(dirLight.specular)
    {
      if KeyOne <= key <= KeyNine {
        var index := key - KeyOne;
        if index < |objects| {
          selectedObjectIndex := index;
        }
      }
      if key == KeyP {
        polygonalMode := !polygonalMode;
      }
      if key == KeyO {
        ambientLightEnabled := !ambientLightEnabled;
        dirLight := dirLight.(ambient := Splat(0.1));
      }
      if key == KeyI && ambientLightEnabled {
        dirLight := dirLight.(ambient := Plus(dirLight.ambient, Splat(0.1)));
        dirLight := dirLight.(ambient := ClampUnitCube(dirLight.ambient));
      }
      if key == KeyU && ambientLightEnabled {
        dirLight := dirLight.(ambient := Minus(dirLight.ambient, Splat(0.1)));
        dirLight := dirLight.(ambient := ClampUnitCube(dirLight.ambient));
      }
    }
  }
}
