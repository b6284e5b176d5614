/**
  Object::LoadOBJ as a specification: the state the parse loop keeps, what
  one line does to it, the whole file as a left fold over its lines, and the
  final closing of the open material group. The imperative loop itself is
  Objects.Object.LoadOBJ, proved equal to Load.
 */
module ObjParser {
  import opened Wrappers
  import opened Vectors
  import opened Materials
  import opened ObjTokens

  /**
    One line of an OBJ file, classified by its first word (`iss >> type`).
    The numbers of `v`, `vt` and `vn` lines are taken as already read; a
    `usemtl` line carries its next word, or "" when it has none; an `f` line
    carries all its blank-separated words.
   */
  datatype Line =
    | VertexLine(position: Vec3)
    | TexCoordLine(uv: Vec2)
    | NormalLine(normal: Vec3)
    | UseMtlLine(name: string)
    | FaceLine(tokens: seq<string>)
    | OtherLine

  /** The locals of LoadOBJ (temp_*, current_material) and the two lists it fills. */
  datatype ParseState = ParseState(
    positions: seq<Vec3>,
    texcoords: seq<Vec2>,
    normals: seq<Vec3>,
    currentMaterial: string,
    vertices: seq<Vertex>,
    groups: seq<MaterialGroup>)

  datatype Mesh = Mesh(vertices: seq<Vertex>, groups: seq<MaterialGroup>)

  const Start: ParseState := ParseState([], [], [], [], [], [])

  /** What keeps `materialGroups.back()` and `vertex_count - start` well defined. */
  predicate Valid(st: ParseState) {
    && (st.currentMaterial != [] ==> st.groups != [])
    && forall i :: 0 <= i < |st.groups| ==> st.groups[i].start <= |st.vertices|
  }

  /** If a material is open, its group's count becomes the vertices emitted since its start. */
  function CloseGroup(st: ParseState): (r: ParseState)
    requires Valid(st)
    ensures Valid(r)
  {
    if st.currentMaterial != [] then
      var last := st.groups[|st.groups| - 1];
      st.(groups := st.groups[|st.groups| - 1 := last.(count := |st.vertices| - last.start)])
    else
      st
  }

  /** `iss >> v1 >> v2 >> v3`: the first three words, "" for each one missing. */
  function FaceTriple(tokens: seq<string>): (t: seq<string>)
    ensures |t| == 3
    ensures forall i :: 0 <= i < 3 ==> t[i] == if i < |tokens| then tokens[i] else ""
  {
    (tokens + ["", "", ""])[..3]
  }

  /** One iteration of the `while (std::getline(file, line))` loop. */
  function Step(st: ParseState, line: Line): (r: Result<ParseState, LoadError>)
    requires Valid(st)
    ensures r.Success? ==> Valid(r.value)
  {
    match line
    case VertexLine(p) => Success(st.(positions := st.positions + [p]))
    case TexCoordLine(uv) => Success(st.(texcoords := st.texcoords + [uv]))
    case NormalLine(n) => Success(st.(normals := st.normals + [n]))
    case UseMtlLine(name) =>
      var closed := CloseGroup(st);
      var material := if name != [] then name else st.currentMaterial;
      Success(closed.(currentMaterial := material,
                      groups := closed.groups + [MaterialGroup(material, |st.vertices|, 0)]))
    case FaceLine(tokens) =>
      var vs :- FaceVertices(FaceTriple(tokens), st.positions, st.texcoords, st.normals);
      Success(st.(vertices := st.vertices + vs))
    case OtherLine => Success(st)
  }

  /** The state after the given lines; the first failing line stops the parse. */
  function Fold(lines: seq<Line>): (r: Result<ParseState, LoadError>)
    ensures r.Success? ==> Valid(r.value)
  {
    if lines == [] then Success(Start)
    else
      var st :- Fold(lines[..|lines| - 1]);
      Step(st, lines[|lines| - 1])
  }

  /** LoadOBJ on a file that cannot be opened (None) or has the given lines. */
  function Load(file: Option<seq<Line>>): Result<Mesh, LoadError> {
    match file
    case None => Failure(CannotOpen)
    case Some(lines) =>
      var st :- Fold(lines);
      var closed := CloseGroup(st);
      Success(Mesh(closed.vertices, closed.groups))
  }

  // ---------------------------------------------------------------------------
  // Counting functions over the lines
  // ---------------------------------------------------------------------------

  function FaceCount(lines: seq<Line>): nat {
    if lines == [] then 0
    else FaceCount(lines[..|lines| - 1]) + if lines[|lines| - 1].FaceLine? then 1 else 0
  }

  function VertexPositions(lines: seq<Line>): seq<Vec3> {
    if lines == [] then []
    else VertexPositions(lines[..|lines| - 1]) + PositionOf(lines[|lines| - 1])
  }

  function PositionOf(line: Line): seq<Vec3> {
    if line.VertexLine? then [line.position] else []
  }

  function UseMtlNames(lines: seq<Line>): seq<string> {
    if lines == [] then []
    else UseMtlNames(lines[..|lines| - 1]) + NameOf(lines[|lines| - 1])
  }

  function NameOf(line: Line): seq<string> {
    if line.UseMtlLine? then [line.name] else []
  }

  /** For each `usemtl` line in order, the vertex count when it is read: three per earlier `f` line. */
  function UseMtlStarts(lines: seq<Line>): seq<nat> {
    if lines == [] then []
    else
      var init := lines[..|lines| - 1];
      UseMtlStarts(init) + (if lines[|lines| - 1].UseMtlLine? then [3 * FaceCount(init)] else [])
  }

  function GroupStarts(groups: seq<MaterialGroup>): seq<nat> {
    seq(|groups|, i requires 0 <= i < |groups| => groups[i].start)
  }

  function GroupNames(groups: seq<MaterialGroup>): (names: seq<string>)
    ensures |names| == |groups|
    ensures forall i :: 0 <= i < |groups| ==> names[i] == groups[i].name
  {
    if groups == [] then [] else GroupNames(groups[..|groups| - 1]) + [groups[|groups| - 1].name]
  }

  /** Every `usemtl` line names a material. */
  predicate NamedUseMtl(lines: seq<Line>) {
    forall i :: 0 <= i < |lines| && lines[i].UseMtlLine? ==> lines[i].name != []
  }

  // ---------------------------------------------------------------------------
  // Properties
  // ---------------------------------------------------------------------------

  lemma {:induction false} FoldFailurePropagates(pre: seq<Line>, lines: seq<Line>)
    requires pre <= lines && Fold(pre).Failure?
    ensures Fold(lines) == Failure(Fold(pre).error)
    decreases |lines|
  {
    if |lines| > |pre| {
      assert pre <= lines[..|lines| - 1];
      FoldFailurePropagates(pre, lines[..|lines| - 1]);
    } else {
      assert pre == lines;
    }
  }

  /** Every `f` line emits exactly three vertices and nothing else emits any. */
  lemma {:induction false} FoldVertexCount(lines: seq<Line>)
    requires Fold(lines).Success?
    ensures |Fold(lines).value.vertices| == 3 * FaceCount(lines)
  {
    if lines != [] {
      FoldVertexCount(lines[..|lines| - 1]);
    }
  }

  /**
    The position list a face token indexes holds exactly the `v` lines seen
    before it, in file order.
   */
  lemma {:induction false} FoldPositions(lines: seq<Line>)
    requires Fold(lines).Success?
    ensures Fold(lines).value.positions == VertexPositions(lines)
  {
    if lines != [] {
      FoldPositions(lines[..|lines| - 1]);
    }
  }

  lemma LoadVertexCount(lines: seq<Line>)
    requires Load(Some(lines)).Success?
    ensures |Load(Some(lines)).value.vertices| == 3 * FaceCount(lines)
  {
    FoldVertexCount(lines);
  }

  /** Only a `usemtl` line touches the groups or the current material. */
  lemma StepKeepsGroups(st: ParseState, line: Line)
    requires Valid(st) && !line.UseMtlLine? && Step(st, line).Success?
    ensures Step(st, line).value.groups == st.groups
    ensures Step(st, line).value.currentMaterial == st.currentMaterial
  {
  }

  lemma {:induction false} FoldNoGroups(lines: seq<Line>)
    requires UseMtlNames(lines) == [] && Fold(lines).Success?
    ensures Fold(lines).value.groups == [] && Fold(lines).value.currentMaterial == []
  {
    if lines != [] {
      var init := lines[..|lines| - 1];
      assert UseMtlNames(init) == [];
      FoldNoGroups(init);
      StepKeepsGroups(Fold(init).value, lines[|lines| - 1]);
    }
  }

  /** A file without `usemtl` lines yields no groups, whatever vertices it emits. */
  lemma NoUseMtlNoGroups(lines: seq<Line>)
    requires UseMtlNames(lines) == [] && Load(Some(lines)).Success?
    ensures Load(Some(lines)).value.groups == []
  {
    FoldNoGroups(lines);
  }

  /** The groups are contiguous, and the last one ends at the last vertex. */
  predicate Tiled(groups: seq<MaterialGroup>, total: nat) {
    && (forall i :: 0 <= i < |groups| - 1 ==> groups[i].start + groups[i].count == groups[i + 1].start)
    && (groups != [] ==> groups[|groups| - 1].start + groups[|groups| - 1].count == total)
  }

  /** While parsing: all but the last group are closed and contiguous; the last is open. */
  predicate OpenTiled(st: ParseState) {
    && (st.groups == [] <==> st.currentMaterial == [])
    && (forall i :: 0 <= i < |st.groups| - 1 ==> st.groups[i].start + st.groups[i].count == st.groups[i + 1].start)
    && (st.groups != [] ==>
          var last := st.groups[|st.groups| - 1];
          last.name == st.currentMaterial && last.count == 0 && last.start <= |st.vertices|)
  }

  lemma StepOpenTiled(st: ParseState, line: Line)
    requires Valid(st) && OpenTiled(st)
    requires line.UseMtlLine? ==> line.name != []
    requires Step(st, line).Success?
    ensures OpenTiled(Step(st, line).value)
    ensures GroupNames(Step(st, line).value.groups) == GroupNames(st.groups) + NameOf(line)
  {
    if line.UseMtlLine? {
      UseMtlOpenTiled(st, line.name);
    } else {
      assert Step(st, line).value.groups == st.groups;
    }
  }

  /** The `usemtl` case of StepOpenTiled: the open group is closed up to the buffer's end, and a new one opens there. */
  lemma UseMtlOpenTiled(st: ParseState, name: string)
    requires Valid(st) && OpenTiled(st) && name != []
    ensures OpenTiled(Step(st, UseMtlLine(name)).value)
    ensures GroupNames(Step(st, UseMtlLine(name)).value.groups) == GroupNames(st.groups) + [name]
  {
    var r := Step(st, UseMtlLine(name)).value;
    var closed := CloseGroup(st);
    var g := MaterialGroup(name, |st.vertices|, 0);
    assert r.groups == closed.groups + [g] && r.currentMaterial == name;
    CloseTiles(st);
    TiledThenOpen(closed.groups, g);
    assert GroupNames(r.groups) == GroupNames(closed.groups) + [name] by {
      assert r.groups[..|r.groups| - 1] == closed.groups;
    }
  }

  /** Closing the open group of a state under construction tiles the buffer, keeping the names. */
  lemma CloseTiles(st: ParseState)
    requires Valid(st) && OpenTiled(st)
    ensures Tiled(CloseGroup(st).groups, |st.vertices|)
    ensures GroupNames(CloseGroup(st).groups) == GroupNames(st.groups)
  {
    var closed := CloseGroup(st);
    var n := |st.groups|;
    assert |closed.groups| == n;
    assert forall i :: 0 <= i < n - 1 ==> closed.groups[i] == st.groups[i];
    assert forall i :: 0 <= i < n ==> closed.groups[i].name == st.groups[i].name;
  }

  /** A group opened where tiled groups end keeps all but the new last group contiguous. */
  lemma TiledThenOpen(groups: seq<MaterialGroup>, g: MaterialGroup)
    requires Tiled(groups, g.start)
    ensures var gs := groups + [g];
      forall i :: 0 <= i < |gs| - 1 ==> gs[i].start + gs[i].count == gs[i + 1].start
  {
    var gs := groups + [g];
    forall i | 0 <= i < |gs| - 1
      ensures gs[i].start + gs[i].count == gs[i + 1].start
    {
      assert gs[i] == groups[i];
      if i < |groups| - 1 {
        assert gs[i + 1] == groups[i + 1];
      }
    }
  }

  lemma {:induction false} FoldOpenTiled(lines: seq<Line>)
    requires NamedUseMtl(lines) && Fold(lines).Success?
    ensures OpenTiled(Fold(lines).value)
    ensures GroupNames(Fold(lines).value.groups) == UseMtlNames(lines)
  {
    if lines != [] {
      var init := lines[..|lines| - 1];
      assert NamedUseMtl(init) by {
        forall i | 0 <= i < |init| && init[i].UseMtlLine? ensures init[i].name != [] {
          assert init[i] == lines[i];
        }
      }
      FoldOpenTiled(init);
      StepOpenTiled(Fold(init).value, lines[|lines| - 1]);
    }
  }

  /**
    When every `usemtl` line names a material, the groups of the loaded
    mesh are exactly one per `usemtl` line, in file order (empty ones kept),
    and they tile the vertex buffer from the first group's start to its end.
   */
  lemma LoadTiles(lines: seq<Line>)
    requires NamedUseMtl(lines) && Load(Some(lines)).Success?
    ensures Tiled(Load(Some(lines)).value.groups, |Load(Some(lines)).value.vertices|)
    ensures GroupNames(Load(Some(lines)).value.groups) == UseMtlNames(lines)
  {
    FoldOpenTiled(lines);
    var st := Fold(lines).value;
    assert GroupNames(CloseGroup(st).groups) == GroupNames(st.groups);
  }

  /** Closing a group changes a count, never a start. */
  lemma CloseGroupStarts(st: ParseState)
    requires Valid(st)
    ensures GroupStarts(CloseGroup(st).groups) == GroupStarts(st.groups)
  {
    var closed := CloseGroup(st);
    assert |closed.groups| == |st.groups|;
    forall i | 0 <= i < |st.groups| ensures closed.groups[i].start == st.groups[i].start {
    }
  }

  /** A `usemtl` line opens a group starting at the vertices emitted so far; other lines open none. */
  lemma StepStarts(st: ParseState, line: Line)
    requires Valid(st) && Step(st, line).Success?
    ensures GroupStarts(Step(st, line).value.groups) ==
      GroupStarts(st.groups) + (if line.UseMtlLine? then [|st.vertices|] else [])
  {
    var r := Step(st, line).value;
    if line.UseMtlLine? {
      var closed := CloseGroup(st);
      CloseGroupStarts(st);
      assert r.groups == closed.groups + [MaterialGroup(r.currentMaterial, |st.vertices|, 0)];
      assert GroupStarts(r.groups) == GroupStarts(closed.groups) + [|st.vertices|];
    } else {
      assert r.groups == st.groups;
    }
  }

  /**
    Whatever the `usemtl` lines name, group i starts at the vertex count
    reached when the i-th `usemtl` line is read.
   */
  lemma {:induction false} FoldStarts(lines: seq<Line>)
    requires Fold(lines).Success?
    ensures GroupStarts(Fold(lines).value.groups) == UseMtlStarts(lines)
  {
    if lines != [] {
      var init := lines[..|lines| - 1];
      FoldStarts(init);
      FoldVertexCount(init);
      StepStarts(Fold(init).value, lines[|lines| - 1]);
    }
  }

  /**
    The range of every group of a loaded mesh: group i starts where the i-th
    `usemtl` line found the vertex buffer; when every `usemtl` names a
    material, each group then runs up to the next one's start and the last
    up to the end of the buffer, three vertices per `f` line.
   */
  lemma LoadGroupRanges(lines: seq<Line>)
    requires Load(Some(lines)).Success?
    ensures var g := Load(Some(lines)).value.groups;
      var s := UseMtlStarts(lines);
      && |g| == |s|
      && (forall i :: 0 <= i < |g| ==> g[i].start == s[i])
      && (NamedUseMtl(lines) ==>
            && (forall i :: 0 <= i < |g| - 1 ==> s[i] + g[i].count == s[i + 1])
            && (g != [] ==> s[|g| - 1] + g[|g| - 1].count == 3 * FaceCount(lines)))
  {
    var st := Fold(lines).value;
    FoldStarts(lines);
    CloseGroupStarts(st);
    var g := CloseGroup(st).groups;
    assert GroupStarts(g) == UseMtlStarts(lines);
    assert forall i :: 0 <= i < |g| ==> GroupStarts(g)[i] == g[i].start;
    if NamedUseMtl(lines) {
      LoadTiles(lines);
      LoadVertexCount(lines);
    }
  }

  lemma FoldSnoc(lines: seq<Line>, line: Line)
    ensures Fold(lines + [line]) ==
      if Fold(lines).Success? then Step(Fold(lines).value, line) else Fold(lines)
  {
    assert (lines + [line])[..|lines|] == lines;
  }

  /** `v a`, `v b`, `v c`. */
  lemma ThreePositions(a: Vec3, b: Vec3, c: Vec3)
    ensures Fold([VertexLine(a), VertexLine(b), VertexLine(c)]) == Success(Start.(positions := [a, b, c]))
  {
    FoldSnoc([], VertexLine(a));
    assert [] + [VertexLine(a)] == [VertexLine(a)];
    assert [] + [a] == [a];
    assert Fold([VertexLine(a)]) == Success(Start.(positions := [a]));
    FoldSnoc([VertexLine(a)], VertexLine(b));
    assert [VertexLine(a)] + [VertexLine(b)] == [VertexLine(a), VertexLine(b)];
    assert [a] + [b] == [a, b];
    assert Fold([VertexLine(a), VertexLine(b)]) == Success(Start.(positions := [a, b]));
    FoldSnoc([VertexLine(a), VertexLine(b)], VertexLine(c));
    assert [VertexLine(a), VertexLine(b)] + [VertexLine(c)] == [VertexLine(a), VertexLine(b), VertexLine(c)];
    assert [a, b] + [c] == [a, b, c];
  }

  /** A `usemtl` line with no material open: only the new group is pushed. */
  lemma FirstUseMtl(st: ParseState, name: string)
    requires Valid(st) && st.currentMaterial == [] && st.groups == []
    ensures Step(st, UseMtlLine(name)) ==
      Success(st.(currentMaterial := name, groups := [MaterialGroup(name, |st.vertices|, 0)]))
  {
    assert [] + [MaterialGroup(name, |st.vertices|, 0)] == [MaterialGroup(name, |st.vertices|, 0)];
  }

  /**
    An `f` line whose first three words resolve appends their vertices in
    word order; any further words (the fourth corner of a quad) are ignored.
   */
  lemma FaceStep(st: ParseState, tokens: seq<string>, v1: Vertex, v2: Vertex, v3: Vertex)
    requires Valid(st)
    requires FaceVertex(FaceTriple(tokens)[0], st.positions, st.texcoords, st.normals) == Success(v1)
    requires FaceVertex(FaceTriple(tokens)[1], st.positions, st.texcoords, st.normals) == Success(v2)
    requires FaceVertex(FaceTriple(tokens)[2], st.positions, st.texcoords, st.normals) == Success(v3)
    ensures Step(st, FaceLine(tokens)) == Success(st.(vertices := st.vertices + [v1, v2, v3]))
  {
    var t, vs := FaceTriple(tokens), [v1, v2, v3];
    forall i | 0 <= i < 3 ensures FaceVertex(t[i], st.positions, st.texcoords, st.normals) == Success(vs[i]) {
      if i == 0 {
      } else if i == 1 {
      } else {
      }
    }
    FaceVerticesAll(t, vs, st.positions, st.texcoords, st.normals);
  }

  /**
    An `f` line whose k-th word is the first that does not resolve fails with
    that word's error, after the k words before it resolved to `done`.
   */
  lemma FaceStepFails(st: ParseState, tokens: seq<string>, done: seq<Vertex>, k: nat)
    requires Valid(st) && k < 3 && |done| == k
    requires forall j :: 0 <= j < k ==>
      FaceVertex(FaceTriple(tokens)[j], st.positions, st.texcoords, st.normals) == Success(done[j])
    requires FaceVertex(FaceTriple(tokens)[k], st.positions, st.texcoords, st.normals).Failure?
    ensures Step(st, FaceLine(tokens)) ==
      Failure(FaceVertex(FaceTriple(tokens)[k], st.positions, st.texcoords, st.normals).error)
  {
    var t := FaceTriple(tokens);
    assert forall j :: 0 <= j < k ==> t[..k][j] == t[j];
    FaceVerticesAll(t[..k], done, st.positions, st.texcoords, st.normals);
    FaceVerticesFailure(t, k, st.positions, st.texcoords, st.normals);
  }

  /** A line that fails after a successful prefix makes the whole load fail with its error. */
  lemma LoadFailsAt(lines: seq<Line>, i: nat, st: ParseState, e: LoadError)
    requires i < |lines| && Fold(lines[..i]) == Success(st) && Step(st, lines[i]) == Failure(e)
    ensures Load(Some(lines)) == Failure(e)
  {
    FoldSnoc(lines[..i], lines[i]);
    assert lines[..i] + [lines[i]] == lines[..i + 1];
    FoldFailurePropagates(lines[..i + 1], lines);
  }

  /** Reading one more line of a prefix that parsed is one `Step` from the prefix's state. */
  lemma FoldPrefixStep(lines: seq<Line>, i: nat, st: ParseState)
    requires i < |lines| && Fold(lines[..i]) == Success(st)
    ensures Fold(lines[..i + 1]) == Step(st, lines[i])
  {
    FoldSnoc(lines[..i], lines[i]);
    assert lines[..i] + [lines[i]] == lines[..i + 1];
  }

  /** A prefix after which nothing has been emitted and no material is current, such as three `v` lines (ThreePositions). */
  predicate Fresh(st: ParseState) {
    Valid(st) && st.currentMaterial == [] && st.groups == [] && st.vertices == []
  }

  /** The three tokens of an `f` line resolve, in order, to v1, v2 and v3 against the state st. */
  predicate Resolves(st: ParseState, tokens: seq<string>, v1: Vertex, v2: Vertex, v3: Vertex) {
    && |tokens| == 3
    && FaceVertex(tokens[0], st.positions, st.texcoords, st.normals) == Success(v1)
    && FaceVertex(tokens[1], st.positions, st.texcoords, st.normals) == Success(v2)
    && FaceVertex(tokens[2], st.positions, st.texcoords, st.normals) == Success(v3)
  }

  /** An `f` line after a successful prefix whose tokens resolve. */
  lemma FoldFace(pre: seq<Line>, st: ParseState, tokens: seq<string>, v1: Vertex, v2: Vertex, v3: Vertex)
    requires Fold(pre) == Success(st) && Resolves(st, tokens, v1, v2, v3)
    ensures Fold(pre + [FaceLine(tokens)]) == Success(st.(vertices := st.vertices + [v1, v2, v3]))
  {
    FoldSnoc(pre, FaceLine(tokens));
    assert FaceTriple(tokens) == tokens;
    FaceStep(st, tokens, v1, v2, v3);
  }

  /**
    A named `usemtl` followed by one triangle: the three vertices in token
    order and the single group (name, 0, 3) covering them. FaceTokenRoundTrip
    supplies tokens that resolve, for instance `1//0 2//0 3//0` after three
    `v` lines.
   */
  lemma SingleTriangle(pre: seq<Line>, st: ParseState, name: string,
                       tokens: seq<string>, v1: Vertex, v2: Vertex, v3: Vertex)
    requires Fold(pre) == Success(st) && Fresh(st) && name != []
    requires Resolves(st, tokens, v1, v2, v3)
    ensures Load(Some(pre + [UseMtlLine(name)] + [FaceLine(tokens)])) ==
      Success(Mesh([v1, v2, v3], [MaterialGroup(name, 0, 3)]))
  {
    NamedUseMtlThenFace(pre, st, name, tokens, v1, v2, v3);
    var s2 := st.(currentMaterial := name, groups := [MaterialGroup(name, 0, 0)], vertices := [v1, v2, v3]);
    CloseSingleGroup(s2, name);
  }

  /** A named `usemtl` as the first one, then a triangle: the group is open and the vertices emitted. */
  lemma NamedUseMtlThenFace(pre: seq<Line>, st: ParseState, name: string,
                            tokens: seq<string>, v1: Vertex, v2: Vertex, v3: Vertex)
    requires Fold(pre) == Success(st) && Fresh(st) && name != []
    requires Resolves(st, tokens, v1, v2, v3)
    ensures Fold(pre + [UseMtlLine(name)] + [FaceLine(tokens)]) ==
      Success(st.(currentMaterial := name, groups := [MaterialGroup(name, 0, 0)], vertices := [v1, v2, v3]))
  {
    var pre1 := pre + [UseMtlLine(name)];
    FoldSnoc(pre, UseMtlLine(name));
    FirstUseMtl(st, name);
    var s1 := st.(currentMaterial := name, groups := [MaterialGroup(name, 0, 0)]);
    assert Fold(pre1) == Success(s1);
    assert Resolves(s1, tokens, v1, v2, v3);
    FoldFace(pre1, s1, tokens, v1, v2, v3);
    assert s1.vertices + [v1, v2, v3] == [v1, v2, v3];
  }

  /** Closing the only group, opened at vertex 0, gives it every vertex emitted. */
  lemma CloseSingleGroup(s: ParseState, name: string)
    requires s.currentMaterial == name && name != [] && s.groups == [MaterialGroup(name, 0, 0)]
    ensures Valid(s) && CloseGroup(s) == s.(groups := [MaterialGroup(name, 0, |s.vertices|)])
  {
  }

  /** A bare `usemtl` as the first one, then a triangle: the group it pushes stays open and empty. */
  lemma BareUseMtlThenFace(pre: seq<Line>, st: ParseState, tokens: seq<string>, v1: Vertex, v2: Vertex, v3: Vertex)
    requires Fold(pre) == Success(st) && Fresh(st)
    requires Resolves(st, tokens, v1, v2, v3)
    ensures Fold(pre + [UseMtlLine([])] + [FaceLine(tokens)]) ==
      Success(st.(groups := [MaterialGroup([], 0, 0)], vertices := [v1, v2, v3]))
  {
    FoldSnoc(pre, UseMtlLine([]));
    FirstUseMtl(st, []);
    var s1 := st.(groups := [MaterialGroup([], 0, 0)]);
    FoldFace(pre + [UseMtlLine([])], s1, tokens, v1, v2, v3);
    assert [] + [v1, v2, v3] == [v1, v2, v3];
  }

  /**
    Without the hypothesis of LoadTiles the groups need not tile: a bare
    `usemtl` before any named one pushes a group that is never closed,
    because closing is gated on `current_material` being non-empty. Here
    the three vertices of the face lie in no group's range.
   */
  lemma BareUseMtlBreaksTiling(pre: seq<Line>, st: ParseState, name: string,
                               tokens: seq<string>, v1: Vertex, v2: Vertex, v3: Vertex)
    requires Fold(pre) == Success(st) && Fresh(st) && name != []
    requires Resolves(st, tokens, v1, v2, v3)
    ensures var lines := pre + [UseMtlLine([])] + [FaceLine(tokens)] + [UseMtlLine(name)];
      && Load(Some(lines)) == Success(Mesh([v1, v2, v3], [MaterialGroup([], 0, 0), MaterialGroup(name, 3, 0)]))
      && !Tiled(Load(Some(lines)).value.groups, 3)
  {
    var front := pre + [UseMtlLine([])] + [FaceLine(tokens)];
    BareUseMtlThenFace(pre, st, tokens, v1, v2, v3);
    var s2 := st.(groups := [MaterialGroup([], 0, 0)], vertices := [v1, v2, v3]);
    FoldSnoc(front, UseMtlLine(name));
    assert CloseGroup(s2) == s2;
    var groups := [MaterialGroup([], 0, 0), MaterialGroup(name, 3, 0)];
    assert s2.groups + [MaterialGroup(name, 3, 0)] == groups;
    var s3 := s2.(currentMaterial := name, groups := groups);
    assert Fold(front + [UseMtlLine(name)]) == Success(s3);
    assert CloseGroup(s3).groups == groups;
    assert groups[0].start + groups[0].count != groups[1].start;
  }

  /**
    `f p q r` with single-field tokens: the C++ reads indices[1] of a
    one-element vector, so the line is malformed whatever came before it.
   */
  lemma PlainIndicesMalformed(st: ParseState, p: nat, q: nat, r: nat)
    requires Valid(st) && p <= IntMax
    ensures Step(st, FaceLine([Decimal(p), Decimal(q), Decimal(r)])) == Failure(MalformedGeometry(Decimal(p)))
  {
    ShortTokenIsMalformed(p, 0, st.positions, st.texcoords, st.normals);
    var t := FaceTriple([Decimal(p), Decimal(q), Decimal(r)]);
    assert t[0] == Decimal(p) && t[..0] == [];
    FaceVerticesFailure(t, 0, st.positions, st.texcoords, st.normals);
  }
}
