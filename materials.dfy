/**
  The plain records of Object.h: a vertex of the flat vertex buffer, the
  per-group material record with its defaults, and a material group.
 */
module Materials {
  import opened Vectors

  /** One entry of the un-indexed vertex buffer. */
  datatype Vertex = Vertex(position: Vec3, textureCoord: Vec2, normal: Vec3)

  /** A material group: `(name, (start, count))`, a range of the vertex buffer. */
  datatype MaterialGroup = MaterialGroup(name: string, start: nat, count: nat)

  datatype MaterialProperties = MaterialProperties(
    emission: Vec3,
    shininess: real,
    diffuseReflection: Vec3,
    specularReflection: Vec3,
    isLightSource: bool,
    constant: real,
    linear: real,
    quadratic: real,
    cutOff: real,
    outerCutOff: real,
    direction: Vec3,
    isActive: bool)

  /**
    The MaterialProperties constructor. Every parameter has the default of the
    C++ declaration; `isActive` is not a parameter: the initialiser list always
    sets it to false.
   */
  function NewMaterial(
    emission: Vec3 := Splat(0.0),
    diffuseReflection: Vec3 := Splat(1.0),
    specularReflection: Vec3 := Splat(1.0),
    shininess: real := 32.0,
    isLightSource: bool := false,
    constant: real := 1.0,
    linear: real := 0.09,
    quadratic: real := 0.032,
    cutOff: real := -1.0,
    outerCutOff: real := -1.0,
    direction: Vec3 := Vec3(0.0, 0.0, -1.0)): (m: MaterialProperties)
    ensures !m.isActive
    ensures m.emission == emission && m.shininess == shininess
    ensures m.diffuseReflection == diffuseReflection && m.specularReflection == specularReflection
    ensures m.isLightSource == isLightSource
    ensures m.constant == constant && m.linear == linear && m.quadratic == quadratic
    ensures m.cutOff == cutOff && m.outerCutOff == outerCutOff && m.direction == direction
  {
    MaterialProperties(emission, shininess, diffuseReflection, specularReflection, isLightSource,
                       constant, linear, quadratic, cutOff, outerCutOff, direction, false)
  }

  /** The values a material built with no arguments carries. */
  lemma DefaultMaterial()
    ensures var m := NewMaterial();
      && m.emission == Splat(0.0) && m.shininess == 32.0
      && m.diffuseReflection == Splat(1.0) && m.specularReflection == Splat(1.0)
      && !m.isLightSource && !m.isActive
      && m.constant == 1.0 && m.linear == 0.09 && m.quadratic == 0.032
      && m.cutOff == -1.0 && m.outerCutOff == -1.0
      && m.direction == Vec3(0.0, 0.0, -1.0)
  {
  }
}
