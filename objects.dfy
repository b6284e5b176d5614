/**
  Object.cpp: a loaded model with its placement. The mesh is read once by
  LoadOBJ; Move, Scale and Rotate update the placement fields in place; the
  model matrix is a cached value rebuilt only by the constructor and Draw.
 */
module Objects {
  import opened Wrappers
  import opened Vectors
  import opened Materials
  import opened ObjTokens
  import opened ObjParser

  /**
    glm::scale(glm::rotate(glm::translate(I, t), angle, axis), vec3(s)),
    kept symbolic: the record of the placement the matrix was built from.
    Two records are equal only when their arguments are, which is finer than
    matrix equality (a full turn or a zero scale gives equal matrices); the
    matrix algebra itself is not part of this model.
   */
  datatype ModelMatrix = TRS(translation: Vec3, angle: real, axis: Vec3, scale: real)

  /** The rotation axis selected by the `axis` field: 0 is X, 2 is Z, anything else Y. */
  function RotationAxis(axis: int): (r: Vec3)
    ensures r == Vec3(1.0, 0.0, 0.0) || r == Vec3(0.0, 1.0, 0.0) || r == Vec3(0.0, 0.0, 1.0)
    ensures r.x == 1.0 <==> axis == 0
    ensures r.z == 1.0 <==> axis == 2
  {
    if axis == 0 then Vec3(1.0, 0.0, 0.0)
    else if axis == 2 then Vec3(0.0, 0.0, 1.0)
    else Vec3(0.0, 1.0, 0.0)
  }

  /** The matrix the constructor and Draw compute from the placement fields. */
  function BuildModel(x: real, y: real, z: real, angle: real, axis: int, scale: real): ModelMatrix {
    TRS(Vec3(x, y, z), angle, RotationAxis(axis), scale)
  }

  class Object {
    var name: string
    var materials: seq<MaterialProperties>
    var model: ModelMatrix
    var xPos: real
    var yPos: real
    var zPos: real
    var scale: real
    var angle: real
    var vertices: seq<Vertex>
    var materialGroups: seq<MaterialGroup>
    var axis: int

    /** The cached placement record agrees with the placement fields, as right after the constructor or Draw. */
    ghost predicate ModelCurrent()
      reads this
    {
      model == BuildModel(xPos, yPos, zPos, angle, axis, scale)
    }

    /**
      The member initialisers of the constructor, before LoadOBJ runs. The
      angle always starts at 0; the matrix is set once loading succeeded.
     */
    constructor Init(objPath: string, matProperties: seq<MaterialProperties>,
                     x: real, y: real, z: real, s: real, axis: int)
      ensures name == objPath && materials == matProperties
      ensures xPos == x && yPos == y && zPos == z && scale == s && angle == 0.0 && this.axis == axis
      ensures vertices == [] && materialGroups == []
    {
      name := objPath;
      materials := matProperties;
      xPos, yPos, zPos := x, y, z;
      scale := s;
      angle := 0.0;
      this.axis := axis;
      vertices := [];
      materialGroups := [];
      model := TRS(Vec3(0.0, 0.0, 0.0), 0.0, Vec3(0.0, 1.0, 0.0), 1.0);
    }

    /**
      The constructor as a whole: the object exists only when LoadOBJ
      succeeded (it throws otherwise, with the load error), and then holds the
      loaded mesh and a matrix built from its placement. The `angle` argument
      is accepted and ignored: the rotation always starts at 0.
     */
    static method Create(objPath: string, file: Option<seq<Line>>, matProperties: seq<MaterialProperties>,
                         x: real, y: real, z: real, s: real, angleArg: real, axis: int)
      returns (r: Result<Object, LoadError>)
      ensures r.Success? <==> Load(file).Success?
      ensures r.Failure? ==> r.error == Load(file).error
      ensures r.Success? ==> fresh(r.value)
      ensures r.Success? ==>
        var o := r.value;
        && o.name == objPath && o.materials == matProperties
        && o.xPos == x && o.yPos == y && o.zPos == z && o.scale == s && o.angle == 0.0 && o.axis == axis
        && o.vertices == Load(file).value.vertices && o.materialGroups == Load(file).value.groups
        && o.model == BuildModel(x, y, z, 0.0, axis, s)
    {
      var o := new Object.Init(objPath, matProperties, x, y, z, s, axis);
      var err := o.LoadOBJ(file);
      if err.Some? {
        return Failure(err.value);
      }
      o.model := BuildModel(o.xPos, o.yPos, o.zPos, o.angle, o.axis, o.scale);
      return Success(o);
    }

    /**
      The parse loop. It appends the vertices and groups of the file to the
      two lists (the constructor calls it on empty ones), with group starts
      counted from the first vertex it emits. A file that cannot be opened
      changes nothing; any other error leaves whatever was emitted before it,
      as the exception that reports it abandons the object.
     */
    method LoadOBJ(file: Option<seq<Line>>) returns (err: Option<LoadError>)
      modifies this`vertices, this`materialGroups
      ensures err.None? <==> Load(file).Success?
      ensures err.Some? ==> Load(file) == Failure(err.value)
      ensures err.None? ==> vertices == old(vertices) + Load(file).value.vertices
      ensures err.None? ==> materialGroups == old(materialGroups) + Load(file).value.groups
      ensures file.None? ==> vertices == old(vertices) && materialGroups == old(materialGroups)
    {
      if file.None? {
        return Some(CannotOpen);
      }
      var lines := file.value;
      ghost var baseVertices, baseGroups := vertices, materialGroups;
      var positions: seq<Vec3> := [];
      var texcoords: seq<Vec2> := [];
      var normals: seq<Vec3> := [];
      var currentMaterial: string := [];
      var vertexCount: nat := 0;
      ghost var st := Start;
      var i := 0;
      while i < |lines|
        invariant 0 <= i <= |lines|
        invariant Fold(lines[..i]) == Success(st) && Valid(st)
        invariant st.positions == positions && st.texcoords == texcoords && st.normals == normals
        invariant st.currentMaterial == currentMaterial
        invariant vertices == baseVertices + st.vertices
        invariant materialGroups == baseGroups + st.groups
        invariant vertexCount == |st.vertices|
      {
        FoldPrefixStep(lines, i, st);
        var failure;
        positions, texcoords, normals, currentMaterial, vertexCount, failure :=
          ReadLine(lines[i], positions, texcoords, normals, currentMaterial, vertexCount, st, baseVertices, baseGroups);
        if failure.Some? {
          LoadFailsAt(lines, i, st, failure.value);
          return failure;
        }
        st := Step(st, lines[i]).value;
        i := i + 1;
      }
      assert lines[..i] == lines;
      CloseOpenGroup(currentMaterial, vertexCount, st, baseGroups);
      return None;
    }

    /**
      One iteration of the parse loop: the line's directive updates the
      temporary lists, the current material and the vertex count, and appends
      to the two output lists, exactly as one `Step` of the specification.
     */
    method ReadLine(line: Line, positions: seq<Vec3>, texcoords: seq<Vec2>, normals: seq<Vec3>,
                    currentMaterial: string, vertexCount: nat,
                    ghost st: ParseState, ghost baseVertices: seq<Vertex>, ghost baseGroups: seq<MaterialGroup>)
      returns (positions': seq<Vec3>, texcoords': seq<Vec2>, normals': seq<Vec3>,
               currentMaterial': string, vertexCount': nat, failure: Option<LoadError>)
      requires Valid(st) && st.positions == positions && st.texcoords == texcoords && st.normals == normals
      requires st.currentMaterial == currentMaterial && vertexCount == |st.vertices|
      requires vertices == baseVertices + st.vertices && materialGroups == baseGroups + st.groups
      modifies this`vertices, this`materialGroups
      ensures failure.Some? ==> Step(st, line) == Failure(failure.value)
      ensures failure.None? ==> Step(st, line).Success?
      ensures failure.None? ==>
        var next := Step(st, line).value;
        && next.positions == positions' && next.texcoords == texcoords' && next.normals == normals'
        && next.currentMaterial == currentMaterial' && vertexCount' == |next.vertices|
        && vertices == baseVertices + next.vertices && materialGroups == baseGroups + next.groups
    {
      positions', texcoords', normals', currentMaterial', vertexCount' :=
        positions, texcoords, normals, currentMaterial, vertexCount;
      failure := None;
      match line {
        case VertexLine(p) =>
          positions' := positions + [p];
        case TexCoordLine(uv) =>
          texcoords' := texcoords + [uv];
        case NormalLine(n) =>
          normals' := normals + [n];
        case UseMtlLine(word) =>
          CloseOpenGroup(currentMaterial, vertexCount, st, baseGroups);
          if word != [] {
            currentMaterial' := word;
          }
          materialGroups := materialGroups + [MaterialGroup(currentMaterial', vertexCount, 0)];
        case FaceLine(tokens) =>
          failure := EmitFace(tokens, positions, texcoords, normals, st, baseVertices);
          if failure.None? {
            vertexCount' := vertexCount + 3;
          }
        case OtherLine =>
      }
    }

    /**
      `materialGroups.back().second.second = vertex_count - start` when a
      material is open: the closing done before each `usemtl` and at the end.
     */
    method CloseOpenGroup(currentMaterial: string, vertexCount: nat, ghost st: ParseState, ghost baseGroups: seq<MaterialGroup>)
      requires Valid(st) && st.currentMaterial == currentMaterial && vertexCount == |st.vertices|
      requires materialGroups == baseGroups + st.groups
      modifies this`materialGroups
      ensures materialGroups == baseGroups + CloseGroup(st).groups
    {
      if currentMaterial != [] {
        var last := materialGroups[|materialGroups| - 1];
        assert last == st.groups[|st.groups| - 1];
        materialGroups := materialGroups[|materialGroups| - 1 := last.(count := vertexCount - last.start)];
      }
    }

    /**
      An `f` line: `process_vertex` on the first three words in order, each
      appending its vertex; the first word that fails stops the load.
     */
    method EmitFace(tokens: seq<string>, positions: seq<Vec3>, texcoords: seq<Vec2>, normals: seq<Vec3>,
                    ghost st: ParseState, ghost baseVertices: seq<Vertex>)
      returns (failure: Option<LoadError>)
      requires Valid(st) && st.positions == positions && st.texcoords == texcoords && st.normals == normals
      requires vertices == baseVertices + st.vertices
      modifies this`vertices
      ensures failure.None? ==> Step(st, FaceLine(tokens)).Success?
      ensures failure.None? ==> vertices == baseVertices + Step(st, FaceLine(tokens)).value.vertices
      ensures failure.None? ==> |Step(st, FaceLine(tokens)).value.vertices| == |st.vertices| + 3
      ensures failure.Some? ==> Step(st, FaceLine(tokens)) == Failure(failure.value)
    {
      var t := FaceTriple(tokens);
      var r1 := ProcessVertex(t[0], positions, texcoords, normals);
      if r1.Failure? {
        FaceStepFails(st, tokens, [], 0);
        return Some(r1.error);
      }
      vertices := vertices + [r1.value];
      var r2 := ProcessVertex(t[1], positions, texcoords, normals);
      if r2.Failure? {
        FaceStepFails(st, tokens, [r1.value], 1);
        return Some(r2.error);
      }
      vertices := vertices + [r2.value];
      var r3 := ProcessVertex(t[2], positions, texcoords, normals);
      if r3.Failure? {
        FaceStepFails(st, tokens, [r1.value, r2.value], 2);
        return Some(r3.error);
      }
      vertices := vertices + [r3.value];
      FaceStep(st, tokens, r1.value, r2.value, r3.value);
      ghost var face := [r1.value, r2.value, r3.value];
      ghost var before := baseVertices + st.vertices;
      assert vertices == before + [r1.value] + [r2.value] + [r3.value];
      assert before + [r1.value] + [r2.value] + [r3.value] == before + face;
      assert before + face == baseVertices + (st.vertices + face);
      return None;
    }

    /**
      Adds to the position. The declaration takes dx, dy and dz but the
      definition only adds dx and dy: zPos never changes, and neither does the
      cached matrix, whose placement record no longer matches once the
      position moves.
     */
    method Move(dx: real, dy: real, dz: real)
      modifies this`xPos, this`yPos
      ensures xPos == old(xPos) + dx && yPos == old(yPos) + dy
      ensures old(ModelCurrent()) ==> (ModelCurrent() <==> dx == 0.0 && dy == 0.0)
    {
      xPos := xPos + dx;
      yPos := yPos + dy;
    }

    /** Multiplies the scale factor. */
    method Scale(factor: real)
      modifies this`scale
      ensures scale == old(scale) * factor
      ensures old(ModelCurrent()) && old(scale) != 0.0 ==> (ModelCurrent() <==> factor == 1.0)
    {
      scale := scale * factor;
    }

    /** Adds to the rotation angle. */
    method Rotate(angleDelta: real)
      modifies this`angle
      ensures angle == old(angle) + angleDelta
      ensures old(ModelCurrent()) ==> (ModelCurrent() <==> angleDelta == 0.0)
    {
      angle := angle + angleDelta;
    }

    /** Scaling by a non-zero factor and then by its inverse restores the scale. */
    method ScaleThenInverse(factor: real)
      requires factor != 0.0
      modifies this`scale
      ensures scale == old(scale)
    {
      Scale(factor);
      Scale(1.0 / factor);
    }

    /**
      The part of Draw this model keeps: it rebuilds the cached matrix from the
      current placement. The uniform uploads and draw calls are not modelled.
     */
    method Draw(meshActive: bool)
      modifies this`model
      ensures ModelCurrent()
    {
      model := BuildModel(xPos, yPos, zPos, angle, axis, scale);
    }

    /** The cached matrix, as of the constructor or the last Draw; nothing is recomputed. */
    function GetModelMatrix(): (m: ModelMatrix)
      reads this
      ensures ModelCurrent() ==> m == BuildModel(xPos, yPos, zPos, angle, axis, scale)
      ensures m == model
    {
      model
    }
  }
}
