/**
  The light lists SetupLighting rebuilds every frame (main.cpp:660-714): one
  light per (object, material) pair whose material is an active light source,
  in object order and then material order; a spot light when the material's
  cut-off is above -0.9, a point light otherwise.

  The matrix algebra is not modelled: `model * vec4(p, 1.0f)` and
  `normalize(cross(a, b))` are the two functions of a `Numerics` value the
  caller supplies.
 */
module Lighting {
  import opened Wrappers
  import opened Vectors
  import opened Materials
  import opened Objects

  /** The glm operations the light collection uses, left uninterpreted. */
  datatype Numerics = Numerics(
    transform: (ModelMatrix, Vec3) -> Vec3,
    normalizedCross: (Vec3, Vec3) -> Vec3)

  /** What SetupLighting reads of one object: its path, its cached model matrix and its materials. */
  datatype ObjectView = ObjectView(name: string, model: ModelMatrix, materials: seq<MaterialProperties>)

  datatype PointLight = PointLight(
    position: Vec3,
    color: Vec3,
    constant: real,
    linear: real,
    quadratic: real,
    ambient: Vec3,
    diffuse: Vec3,
    specular: Vec3)

  /**
    A spot light. Its position and direction are assigned only for the giant
    and the flashlight; for any other object they are left uninitialised,
    which is `None` here.
   */
  datatype SpotLight = SpotLight(
    position: Option<Vec3>,
    direction: Option<Vec3>,
    color: Vec3,
    cutOff: real,
    outerCutOff: real,
    constant: real,
    linear: real,
    quadratic: real,
    ambient: Vec3,
    diffuse: Vec3,
    specular: Vec3)

  /** A material that produces a light, together with the object carrying it. */
  datatype Source = Source(obj: ObjectView, mat: MaterialProperties)

  const GiantPath: string := "models/giant.obj"
  const FlashlightPath: string := "models/flashlight.obj"

  /** Anchor points in the giant's and the flashlight's model space (main.cpp:42-46). */
  const EyeLeft: Vec3 := Vec3(0.75865, 8.79846, 1.0)
  const EyeCentroid: Vec3 := Vec3(0.03, 8.79846, 1.0)
  const FlashlightCentroid: Vec3 := Vec3(-0.0432864, -0.05, -0.274723)
  const FlashlightFront: Vec3 := Vec3(-0.0432864, -0.05, -0.574723)

  predicate Qualifies(m: MaterialProperties) {
    m.isLightSource && m.isActive
  }

  predicate IsSpot(m: MaterialProperties) {
    m.cutOff > -0.9
  }

  /** The qualifying materials of `ms`, in index order, each paired with `o`. */
  function MaterialSources(o: ObjectView, ms: seq<MaterialProperties>): (r: seq<Source>)
    ensures |r| <= |ms|
  {
    if ms == [] then []
    else
      var m := ms[|ms| - 1];
      MaterialSources(o, ms[..|ms| - 1]) + (if Qualifies(m) then [Source(o, m)] else [])
  }

  /** The qualifying (object, material) pairs of a scene: by object, then by material index. */
  function LightSources(objs: seq<ObjectView>): (r: seq<Source>)
  {
    if objs == [] then []
    else
      var o := objs[|objs| - 1];
      LightSources(objs[..|objs| - 1]) + MaterialSources(o, o.materials)
  }

  /** The point light built from a qualifying material whose cut-off is not above -0.9. */
  function PointLightOf(nx: Numerics, s: Source): PointLight {
    PointLight(
      nx.transform(s.obj.model, Splat(0.0)),
      s.mat.emission,
      s.mat.constant, s.mat.linear, s.mat.quadratic,
      Splat(0.05), Splat(0.8), Splat(0.5))
  }

  /** Where a spot light sits and points, by the path of the object carrying it. */
  function SpotPosition(nx: Numerics, o: ObjectView): Option<Vec3> {
    if o.name == GiantPath then Some(nx.transform(o.model, EyeCentroid))
    else if o.name == FlashlightPath then Some(nx.transform(o.model, FlashlightCentroid))
    else None
  }

  function SpotDirection(nx: Numerics, o: ObjectView): Option<Vec3> {
    if o.name == GiantPath then
      Some(nx.normalizedCross(Minus(nx.transform(o.model, EyeLeft), nx.transform(o.model, EyeCentroid)),
                              Vec3(0.0, 1.0, 0.0)))
    else if o.name == FlashlightPath then
      Some(Minus(nx.transform(o.model, FlashlightFront), nx.transform(o.model, FlashlightCentroid)))
    else None
  }

  function SpotLightOf(nx: Numerics, s: Source): SpotLight {
    SpotLight(
      SpotPosition(nx, s.obj), SpotDirection(nx, s.obj),
      s.mat.emission, s.mat.cutOff, s.mat.outerCutOff,
      s.mat.constant, s.mat.linear, s.mat.quadratic,
      Splat(0.05), Splat(0.8), Splat(0.8))
  }

  /** The point lights of a sequence of sources, in order. */
  function PointLights(nx: Numerics, srcs: seq<Source>): seq<PointLight> {
    if srcs == [] then []
    else
      var s := srcs[|srcs| - 1];
      PointLights(nx, srcs[..|srcs| - 1]) + (if IsSpot(s.mat) then [] else [PointLightOf(nx, s)])
  }

  /** The spot lights of a sequence of sources, in order. */
  function SpotLights(nx: Numerics, srcs: seq<Source>): seq<SpotLight> {
    if srcs == [] then []
    else
      var s := srcs[|srcs| - 1];
      SpotLights(nx, srcs[..|srcs| - 1]) + (if IsSpot(s.mat) then [SpotLightOf(nx, s)] else [])
  }

  /** A point light carries its source's colour and attenuation, the point presets, and sits at the model origin. */
  predicate PointFrom(nx: Numerics, l: PointLight, s: Source) {
    && l.position == nx.transform(s.obj.model, Vec3(0.0, 0.0, 0.0))
    && l.color == s.mat.emission
    && l.constant == s.mat.constant && l.linear == s.mat.linear && l.quadratic == s.mat.quadratic
    && l.ambient == Vec3(0.05, 0.05, 0.05) && l.diffuse == Vec3(0.8, 0.8, 0.8)
    && l.specular == Vec3(0.5, 0.5, 0.5)
  }

  /** A spot light carries its source's colour, cones and attenuation, the spot presets, and the anchors of its object. */
  predicate SpotFrom(nx: Numerics, l: SpotLight, s: Source) {
    && l.color == s.mat.emission
    && l.cutOff == s.mat.cutOff && l.outerCutOff == s.mat.outerCutOff
    && l.constant == s.mat.constant && l.linear == s.mat.linear && l.quadratic == s.mat.quadratic
    && l.ambient == Vec3(0.05, 0.05, 0.05) && l.diffuse == Vec3(0.8, 0.8, 0.8)
    && l.specular == Vec3(0.8, 0.8, 0.8)
    && (s.obj.name == GiantPath ==>
          && l.position == Some(nx.transform(s.obj.model, EyeCentroid))
          && l.direction == Some(nx.normalizedCross(
                Minus(nx.transform(s.obj.model, EyeLeft), nx.transform(s.obj.model, EyeCentroid)),
                Vec3(0.0, 1.0, 0.0))))
    && (s.obj.name == FlashlightPath ==>
          && l.position == Some(nx.transform(s.obj.model, FlashlightCentroid))
          && l.direction == Some(Minus(nx.transform(s.obj.model, FlashlightFront),
                                       nx.transform(s.obj.model, FlashlightCentroid))))
    && (s.obj.name != GiantPath && s.obj.name != FlashlightPath ==>
          l.position.None? && l.direction.None?)
  }

  /** Peeling the last source off the point list. */
  lemma PointLightsSnoc(nx: Numerics, srcs: seq<Source>, s: Source)
    ensures PointLights(nx, srcs + [s]) == PointLights(nx, srcs) + (if IsSpot(s.mat) then [] else [PointLightOf(nx, s)])
  {
    assert (srcs + [s])[..|srcs + [s]| - 1] == srcs;
  }

  lemma SpotLightsSnoc(nx: Numerics, srcs: seq<Source>, s: Source)
    ensures SpotLights(nx, srcs + [s]) == SpotLights(nx, srcs) + (if IsSpot(s.mat) then [SpotLightOf(nx, s)] else [])
  {
    assert (srcs + [s])[..|srcs + [s]| - 1] == srcs;
  }

  lemma MaterialSourcesSnoc(o: ObjectView, ms: seq<MaterialProperties>, m: MaterialProperties)
    ensures MaterialSources(o, ms + [m]) == MaterialSources(o, ms) + (if Qualifies(m) then [Source(o, m)] else [])
  {
    assert (ms + [m])[..|ms + [m]| - 1] == ms;
  }

  /** One more material of a prefix adds that material's source, if it qualifies. */
  lemma MaterialSourcesPrefix(o: ObjectView, ms: seq<MaterialProperties>, i: nat)
    requires i < |ms|
    ensures MaterialSources(o, ms[..i + 1]) == MaterialSources(o, ms[..i]) + (if Qualifies(ms[i]) then [Source(o, ms[i])] else [])
  {
    assert ms[..i + 1] == ms[..i] + [ms[i]];
    MaterialSourcesSnoc(o, ms[..i], ms[i]);
  }

  /** One more object of a prefix adds that object's sources. */
  lemma LightSourcesPrefix(objs: seq<ObjectView>, k: nat)
    requires k < |objs|
    ensures LightSources(objs[..k + 1]) == LightSources(objs[..k]) + MaterialSources(objs[k], objs[k].materials)
  {
    assert objs[..k + 1] == objs[..k] + [objs[k]];
    LightSourcesSnoc(objs[..k], objs[k]);
  }

  lemma LightSourcesSnoc(objs: seq<ObjectView>, o: ObjectView)
    ensures LightSources(objs + [o]) == LightSources(objs) + MaterialSources(o, o.materials)
  {
    assert (objs + [o])[..|objs + [o]| - 1] == objs;
  }

  /** Every light source of a scene is an active light-source material of one of its objects. */
  lemma {:induction false} SourcesQualify(objs: seq<ObjectView>)
    ensures forall s :: s in LightSources(objs) ==>
      Qualifies(s.mat) && s.obj in objs && s.mat in s.obj.materials
  {
    if objs != [] {
      var o := objs[|objs| - 1];
      var init := objs[..|objs| - 1];
      SourcesQualify(init);
      MaterialSourcesQualify(o, o.materials);
      assert objs == init + [o];
    }
  }

  lemma {:induction false} MaterialSourcesQualify(o: ObjectView, ms: seq<MaterialProperties>)
    ensures forall s :: s in MaterialSources(o, ms) ==> Qualifies(s.mat) && s.obj == o && s.mat in ms
  {
    if ms != [] {
      var init := ms[..|ms| - 1];
      MaterialSourcesQualify(o, init);
      assert ms == init + [ms[|ms| - 1]];
    }
  }

  /** Conversely, every active light-source material of every object is a light source of the scene. */
  lemma {:induction false} SourcesComplete(objs: seq<ObjectView>, k: nat, i: nat)
    requires k < |objs| && i < |objs[k].materials|
    requires Qualifies(objs[k].materials[i])
    ensures Source(objs[k], objs[k].materials[i]) in LightSources(objs)
  {
    var o := objs[|objs| - 1];
    var init := objs[..|objs| - 1];
    if k < |objs| - 1 {
      SourcesComplete(init, k, i);
    } else {
      MaterialSourcesComplete(o, o.materials, i);
    }
  }

  lemma {:induction false} MaterialSourcesComplete(o: ObjectView, ms: seq<MaterialProperties>, i: nat)
    requires i < |ms| && Qualifies(ms[i])
    ensures Source(o, ms[i]) in MaterialSources(o, ms)
  {
    if i < |ms| - 1 {
      MaterialSourcesComplete(o, ms[..|ms| - 1], i);
    }
  }

  /** Every source yields exactly one light: the two lists together are as long as the sources. */
  lemma {:induction false} LightCount(nx: Numerics, srcs: seq<Source>)
    ensures |PointLights(nx, srcs)| + |SpotLights(nx, srcs)| == |srcs|
  {
    if srcs != [] {
      LightCount(nx, srcs[..|srcs| - 1]);
    }
  }

  /** Each point light comes from a point-classified source of the list and carries what the code copies. */
  lemma {:induction false} PointLightsSound(nx: Numerics, srcs: seq<Source>)
    ensures forall l :: l in PointLights(nx, srcs) ==>
      exists s :: s in srcs && !IsSpot(s.mat) && PointFrom(nx, l, s)
  {
    if srcs != [] {
      var init := srcs[..|srcs| - 1];
      var s := srcs[|srcs| - 1];
      PointLightsSound(nx, init);
      assert srcs == init + [s];
      forall l | l in PointLights(nx, srcs)
        ensures exists s' :: s' in srcs && !IsSpot(s'.mat) && PointFrom(nx, l, s')
      {
        if l !in PointLights(nx, init) {
          assert PointFrom(nx, l, s);
        }
      }
    }
  }

  /** Each point-classified source yields its point light. */
  lemma {:induction false} PointLightsComplete(nx: Numerics, srcs: seq<Source>, i: nat)
    requires i < |srcs| && !IsSpot(srcs[i].mat)
    ensures PointLightOf(nx, srcs[i]) in PointLights(nx, srcs)
  {
    if i < |srcs| - 1 {
      PointLightsComplete(nx, srcs[..|srcs| - 1], i);
    }
  }

  /** Each spot light comes from a spot-classified source of the list and carries what the code copies. */
  lemma {:induction false} SpotLightsSound(nx: Numerics, srcs: seq<Source>)
    ensures forall l :: l in SpotLights(nx, srcs) ==>
      exists s :: s in srcs && IsSpot(s.mat) && SpotFrom(nx, l, s)
  {
    if srcs != [] {
      var init := srcs[..|srcs| - 1];
      var s := srcs[|srcs| - 1];
      SpotLightsSound(nx, init);
      assert srcs == init + [s];
      forall l | l in SpotLights(nx, srcs)
        ensures exists s' :: s' in srcs && IsSpot(s'.mat) && SpotFrom(nx, l, s')
      {
        if l !in SpotLights(nx, init) {
          assert SpotFrom(nx, l, s);
        }
      }
    }
  }

  /** Each spot-classified source yields its spot light. */
  lemma {:induction false} SpotLightsComplete(nx: Numerics, srcs: seq<Source>, i: nat)
    requires i < |srcs| && IsSpot(srcs[i].mat)
    ensures SpotLightOf(nx, srcs[i]) in SpotLights(nx, srcs)
  {
    if i < |srcs| - 1 {
      SpotLightsComplete(nx, srcs[..|srcs| - 1], i);
    }
  }

  /** The lists of a scene split along its objects: the first objects' lights come first. */
  lemma {:induction false} LightSourcesAppend(a: seq<ObjectView>, b: seq<ObjectView>)
    ensures LightSources(a + b) == LightSources(a) + LightSources(b)
  {
    if b == [] {
      assert a + b == a;
    } else {
      var init := b[..|b| - 1];
      var o := b[|b| - 1];
      var tail := MaterialSources(o, o.materials);
      assert (a + b)[..|a + b| - 1] == a + init;
      assert (a + b)[|a + b| - 1] == o;
      calc {
        LightSources(a + b);
        LightSources(a + init) + tail;
        { LightSourcesAppend(a, init); }
        LightSources(a) + LightSources(init) + tail;
        LightSources(a) + (LightSources(init) + tail);
      }
    }
  }

  lemma {:induction false} PointLightsAppend(nx: Numerics, a: seq<Source>, b: seq<Source>)
    ensures PointLights(nx, a + b) == PointLights(nx, a) + PointLights(nx, b)
  {
    if b == [] {
      assert a + b == a;
    } else {
      var init := b[..|b| - 1];
      var x := b[|b| - 1];
      var tail := (if IsSpot(x.mat) then [] else [PointLightOf(nx, x)]);
      assert (a + b)[..|a + b| - 1] == a + init;
      assert (a + b)[|a + b| - 1] == x;
      calc {
        PointLights(nx, a + b);
        PointLights(nx, a + init) + tail;
        { PointLightsAppend(nx, a, init); }
        PointLights(nx, a) + PointLights(nx, init) + tail;
        PointLights(nx, a) + (PointLights(nx, init) + tail);
      }
    }
  }

  lemma {:induction false} SpotLightsAppend(nx: Numerics, a: seq<Source>, b: seq<Source>)
    ensures SpotLights(nx, a + b) == SpotLights(nx, a) + SpotLights(nx, b)
  {
    if b == [] {
      assert a + b == a;
    } else {
      var init := b[..|b| - 1];
      var x := b[|b| - 1];
      var tail := (if IsSpot(x.mat) then [SpotLightOf(nx, x)] else []);
      assert (a + b)[..|a + b| - 1] == a + init;
      assert (a + b)[|a + b| - 1] == x;
      calc {
        SpotLights(nx, a + b);
        SpotLights(nx, a + init) + tail;
        { SpotLightsAppend(nx, a, init); }
        SpotLights(nx, a) + SpotLights(nx, init) + tail;
        SpotLights(nx, a) + (SpotLights(nx, init) + tail);
      }
    }
  }

  /** A scene none of whose materials is active has no light sources, hence no lights at all. */
  lemma {:induction false} NoActiveNoLights(nx: Numerics, objs: seq<ObjectView>)
    requires forall k, i :: 0 <= k < |objs| && 0 <= i < |objs[k].materials| ==> !objs[k].materials[i].isActive
    ensures LightSources(objs) == []
    ensures PointLights(nx, LightSources(objs)) == [] && SpotLights(nx, LightSources(objs)) == []
  {
    if objs != [] {
      var o := objs[|objs| - 1];
      NoActiveNoLights(nx, objs[..|objs| - 1]);
      NoActiveMaterials(o, o.materials);
    }
  }

  lemma {:induction false} NoActiveMaterials(o: ObjectView, ms: seq<MaterialProperties>)
    requires forall i :: 0 <= i < |ms| ==> !ms[i].isActive
    ensures MaterialSources(o, ms) == []
  {
    if ms != [] {
      NoActiveMaterials(o, ms[..|ms| - 1]);
    }
  }

  /**
    A light-source material built without a cut-off keeps the -1 default and
    is therefore a point light.
   */
  lemma DefaultCutOffIsPoint(nx: Numerics, o: ObjectView, emission: Vec3)
    ensures var m := NewMaterial(emission := emission, isLightSource := true).(isActive := true);
      PointLights(nx, [Source(o, m)]) == [PointLightOf(nx, Source(o, m))] && SpotLights(nx, [Source(o, m)]) == []
  {
  }
}
