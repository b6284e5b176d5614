/**
  One face-vertex token of an `f` line (such as `3/7/2`, `3//2` or `3`):
  how Object::LoadOBJ splits it on '/', turns each field into an index, and
  looks the indices up in the position, texture-coordinate and normal lists
  read so far (Object.cpp, the `process_vertex` lambda).
 */
module ObjTokens {
  import opened Wrappers
  import opened Vectors
  import opened Materials

  /** Why loading a mesh stops. */
  datatype LoadError =
    /** The file cannot be opened: LoadOBJ returns false. */
    | CannotOpen
    /** std::stoi throws std::invalid_argument: the field does not start with a number. */
    | NotANumber(field: string)
    /** std::stoi throws std::out_of_range: the number does not fit a 32-bit int. */
    | NumberOutOfRange(field: string)
    /** The C++ reads outside one of its vectors (undefined behaviour there). */
    | MalformedGeometry(token: string)

  predicate NoSlash(s: string) {
    '/' !in s
  }

  predicate AllNoSlash(fields: seq<string>) {
    forall i :: 0 <= i < |fields| ==> NoSlash(fields[i])
  }

  // ---------------------------------------------------------------------------
  // Splitting on '/'
  // ---------------------------------------------------------------------------

  /**
    The fields that repeated `std::getline(ss, field, '/')` yields from the
    characters `rest` still unread, when `done` holds the fields already
    returned and `field` the characters of the field being read. A getline
    call fails only when no character is left, so a trailing '/' yields no
    empty last field, while an empty field between two slashes is kept.
   */
  function SplitFrom(rest: string, field: string, done: seq<string>): seq<string>
    decreases |rest|
  {
    if rest == [] then (if field == [] then done else done + [field])
    else if rest[0] == '/' then SplitFrom(rest[1..], [], done + [field])
    else SplitFrom(rest[1..], field + [rest[0]], done)
  }

  function SplitSlash(token: string): seq<string> {
    SplitFrom(token, [], [])
  }

  /** The fields written back, each followed by a '/'. */
  function Terminated(fields: seq<string>): string {
    if fields == [] then [] else Terminated(fields[..|fields| - 1]) + fields[|fields| - 1] + ['/']
  }

  /** `s` with a '/' appended unless it is empty or already ends in one. */
  function Closed(s: string): string {
    if s == [] || s[|s| - 1] == '/' then s else s + ['/']
  }

  lemma {:induction false} SplitFromSpec(rest: string, field: string, done: seq<string>)
    requires NoSlash(field) && AllNoSlash(done)
    ensures AllNoSlash(SplitFrom(rest, field, done))
    ensures Terminated(SplitFrom(rest, field, done)) == Closed(Terminated(done) + field + rest)
    decreases |rest|
  {
    if rest == [] {
      if field == [] {
        assert Terminated(done) + field + rest == Terminated(done);
      } else {
        var s := Terminated(done) + field;
        assert s[|s| - 1] != '/' by {
          assert s[|s| - 1] == field[|field| - 1];
        }
        assert Terminated(done) + field + rest == s;
        var d := done + [field];
        assert Terminated(d) == s + ['/'] by {
          assert d[..|d| - 1] == done;
        }
      }
    } else if rest[0] == '/' {
      var d := done + [field];
      assert Terminated(d) == Terminated(done) + field + ['/'] by {
        assert d[..|d| - 1] == done;
      }
      SplitFromSpec(rest[1..], [], d);
      assert Terminated(d) + [] + rest[1..] == Terminated(done) + field + rest;
    } else {
      SplitFromSpec(rest[1..], field + [rest[0]], done);
      assert Terminated(done) + (field + [rest[0]]) + rest[1..] == Terminated(done) + field + rest;
    }
  }

  /**
    The split is exact: no field holds a '/', and writing the fields back,
    each followed by '/', gives the token again (with a '/' added at its end
    if it had none there).
   */
  lemma SplitSlashRebuildsToken(token: string)
    ensures AllNoSlash(SplitSlash(token))
    ensures Terminated(SplitSlash(token)) == Closed(token)
  {
    SplitFromSpec(token, [], []);
    assert Terminated([]) + [] + token == token;
  }

  lemma {:induction false} SplitFromExtends(rest: string, field: string, done: seq<string>)
    ensures done <= SplitFrom(rest, field, done)
    decreases |rest|
  {
    if rest == [] {
    } else if rest[0] == '/' {
      SplitFromExtends(rest[1..], [], done + [field]);
    } else {
      SplitFromExtends(rest[1..], field + [rest[0]], done);
    }
  }

  /** Reading a stretch without '/' only extends the current field. */
  lemma {:induction false} SplitFromSkips(a: string, rest: string, field: string, done: seq<string>)
    requires NoSlash(a)
    ensures SplitFrom(a + rest, field, done) == SplitFrom(rest, field + a, done)
    decreases |a|
  {
    if a != [] {
      assert (a + rest)[0] == a[0] && (a + rest)[1..] == a[1..] + rest;
      assert '/' != a[0];
      SplitFromSkips(a[1..], rest, field + [a[0]], done);
      assert field + [a[0]] + a[1..] == field + a;
    } else {
      assert a + rest == rest && field + a == field;
    }
  }

  // ---------------------------------------------------------------------------
  // std::stoi on one field
  // ---------------------------------------------------------------------------

  const IntMin: int := -0x8000_0000
  const IntMax: int := 0x7fff_ffff

  predicate IsDigit(c: char) {
    '0' <= c <= '9'
  }

  predicate AllDigits(s: string) {
    forall i :: 0 <= i < |s| ==> IsDigit(s[i])
  }

  /** The longest prefix of `s` made of decimal digits. */
  function LeadingDigits(s: string): (d: string)
    ensures d <= s && AllDigits(d)
    ensures |d| < |s| ==> !IsDigit(s[|d|])
  {
    if s != [] && IsDigit(s[0]) then [s[0]] + LeadingDigits(s[1..]) else []
  }

  function DecimalValue(d: string): nat
    requires AllDigits(d)
  {
    if d == [] then 0 else 10 * DecimalValue(d[..|d| - 1]) + (d[|d| - 1] as int - '0' as int)
  }

  /**
    std::stoi on a field without blanks: an optional sign, then the longest run
    of digits; no digit is std::invalid_argument, a value outside int is
    std::out_of_range, and whatever follows the digits is ignored.
   */
  function Stoi(field: string): (r: Result<int, LoadError>)
    ensures r.Success? ==> IntMin <= r.value <= IntMax
    ensures r.Failure? ==> r.error == NotANumber(field) || r.error == NumberOutOfRange(field)
  {
    var signed := field != [] && (field[0] == '-' || field[0] == '+');
    var digits := LeadingDigits(if signed then field[1..] else field);
    if digits == [] then Failure(NotANumber(field))
    else
      var n: int := if signed && field[0] == '-' then -(DecimalValue(digits) as int) else DecimalValue(digits);
      if n < IntMin || IntMax < n then Failure(NumberOutOfRange(field)) else Success(n)
  }

  function DigitChar(k: nat): char
    requires k < 10
  {
    ('0' as int + k) as char
  }

  /** The decimal rendering of n, without sign or leading zeros. */
  function Decimal(n: nat): (s: string)
    ensures s != [] && AllDigits(s)
  {
    if n < 10 then [DigitChar(n)] else Decimal(n / 10) + [DigitChar(n % 10)]
  }

  lemma {:induction false} DecimalValueOfDecimal(n: nat)
    ensures DecimalValue(Decimal(n)) == n
  {
    if n >= 10 {
      var s := Decimal(n);
      assert s[..|s| - 1] == Decimal(n / 10);
      DecimalValueOfDecimal(n / 10);
    }
  }

  lemma {:induction false} LeadingDigitsOfDigits(s: string)
    requires AllDigits(s)
    ensures LeadingDigits(s) == s
  {
    if s != [] {
      LeadingDigitsOfDigits(s[1..]);
      assert [s[0]] + s[1..] == s;
    }
  }

  /** std::stoi reads back every number Decimal writes, with or without a minus sign. */
  lemma StoiDecimal(n: nat)
    ensures Stoi(Decimal(n)) == if n <= IntMax then Success(n) else Failure(NumberOutOfRange(Decimal(n)))
    ensures Stoi(['-'] + Decimal(n)) ==
      if n <= -IntMin then Success(-(n as int)) else Failure(NumberOutOfRange(['-'] + Decimal(n)))
  {
    DecimalValueOfDecimal(n);
    LeadingDigitsOfDigits(Decimal(n));
    var s := Decimal(n);
    assert s[0] != '-' && s[0] != '+' by { assert IsDigit(s[0]); }
    assert (['-'] + s)[1..] == s;
  }

  // ---------------------------------------------------------------------------
  // From a token to its indices
  // ---------------------------------------------------------------------------

  /** An empty field stands for index 0; any other goes through std::stoi. */
  function FieldIndex(field: string): Result<int, LoadError> {
    if field == [] then Success(0) else Stoi(field)
  }

  /** The fields converted in order; the first field that fails stops the conversion. */
  function FieldIndices(fields: seq<string>): (r: Result<seq<int>, LoadError>)
    ensures r.Success? ==> |r.value| == |fields|
  {
    if fields == [] then Success([])
    else
      var init :- FieldIndices(fields[..|fields| - 1]);
      var k :- FieldIndex(fields[|fields| - 1]);
      Success(init + [k])
  }

  lemma {:induction false} FieldIndicesPrefixFailure(pre: seq<string>, fields: seq<string>)
    requires pre <= fields && FieldIndices(pre).Failure?
    ensures FieldIndices(fields) == FieldIndices(pre)
    decreases |fields|
  {
    if |fields| > |pre| {
      assert pre <= fields[..|fields| - 1];
      FieldIndicesPrefixFailure(pre, fields[..|fields| - 1]);
    } else {
      assert pre == fields;
    }
  }

  function TokenIndices(token: string): Result<seq<int>, LoadError> {
    FieldIndices(SplitSlash(token))
  }

  /** The `while (std::getline(ss, index_str, '/'))` loop of `process_vertex`. */
  method ReadIndices(token: string) returns (r: Result<seq<int>, LoadError>)
    ensures r == TokenIndices(token)
  {
    ghost var fields: seq<string> := [];
    var indices: seq<int> := [];
    var field: string := [];
    var i := 0;
    while i < |token|
      invariant 0 <= i <= |token|
      invariant SplitFrom(token[i..], field, fields) == SplitSlash(token)
      invariant FieldIndices(fields) == Success(indices)
    {
      if token[i] == '/' {
        var k := FieldIndex(field);
        var next := fields + [field];
        assert next[..|next| - 1] == fields;
        assert SplitFrom(token[i..], field, fields) == SplitFrom(token[i + 1..], [], next);
        if k.Failure? {
          SplitFromExtends(token[i + 1..], [], next);
          FieldIndicesPrefixFailure(next, SplitSlash(token));
          return Failure(k.error);
        }
        fields, indices, field := next, indices + [k.value], [];
      } else {
        assert SplitFrom(token[i..], field, fields) == SplitFrom(token[i + 1..], field + [token[i]], fields);
        field := field + [token[i]];
      }
      i := i + 1;
    }
    assert token[i..] == [];
    if field != [] {
      var k := FieldIndex(field);
      var last := fields + [field];
      assert last[..|last| - 1] == fields;
      if k.Failure? {
        return Failure(k.error);
      }
      indices := indices + [k.value];
    }
    return Success(indices);
  }

  /**
    The vertex for one token, given its indices and the lists read so far.
    The C++ reads indices[0], indices[1] and indices[2] unconditionally and
    looks each positive index up without a bounds check; every such read
    outside a vector is reported as MalformedGeometry. Fields after the
    third are ignored.
   */
  function ResolveVertex(token: string, indices: seq<int>,
                         positions: seq<Vec3>, texcoords: seq<Vec2>, normals: seq<Vec3>): Result<Vertex, LoadError>
  {
    if |indices| < 3 || !(1 <= indices[0] <= |positions|) || indices[1] > |texcoords| || indices[2] > |normals| then
      Failure(MalformedGeometry(token))
    else
      Success(Vertex(positions[indices[0] - 1],
                     if indices[1] > 0 then texcoords[indices[1] - 1] else Vec2(0.0, 0.0),
                     if indices[2] > 0 then normals[indices[2] - 1] else Vec3(0.0, 1.0, 0.0)))
  }

  function FaceVertex(token: string, positions: seq<Vec3>, texcoords: seq<Vec2>, normals: seq<Vec3>): Result<Vertex, LoadError> {
    var indices :- TokenIndices(token);
    ResolveVertex(token, indices, positions, texcoords, normals)
  }

  /** The tokens processed in order; the first that fails stops the face. */
  function FaceVertices(tokens: seq<string>, positions: seq<Vec3>, texcoords: seq<Vec2>, normals: seq<Vec3>)
    : (r: Result<seq<Vertex>, LoadError>)
    ensures r.Success? ==> |r.value| == |tokens|
  {
    if tokens == [] then Success([])
    else
      var init :- FaceVertices(tokens[..|tokens| - 1], positions, texcoords, normals);
      var v :- FaceVertex(tokens[|tokens| - 1], positions, texcoords, normals);
      Success(init + [v])
  }

  /** A face that succeeds holds, at each position, the vertex its own token resolves to. */
  lemma {:induction false} FaceVerticesSound(tokens: seq<string>, k: nat,
                                             positions: seq<Vec3>, texcoords: seq<Vec2>, normals: seq<Vec3>)
    requires FaceVertices(tokens, positions, texcoords, normals).Success? && k < |tokens|
    ensures FaceVertex(tokens[k], positions, texcoords, normals) == Success(FaceVertices(tokens, positions, texcoords, normals).value[k])
    decreases |tokens|
  {
    var n := |tokens| - 1;
    var init := FaceVertices(tokens[..n], positions, texcoords, normals).value;
    var last := FaceVertex(tokens[n], positions, texcoords, normals);
    var whole := FaceVertices(tokens, positions, texcoords, normals).value;
    assert whole == init + [last.value];
    if k < n {
      assert FaceVertex(tokens[k], positions, texcoords, normals) == Success(whole[k]) by {
        FaceVerticesSound(tokens[..n], k, positions, texcoords, normals);
        assert tokens[..n][k] == tokens[k];
        assert whole[k] == init[k];
      }
    } else {
      assert FaceVertex(tokens[k], positions, texcoords, normals) == Success(whole[k]) by {
        assert k == n && whole[k] == last.value;
      }
    }
  }

  /** When every token resolves, the face yields exactly their vertices. */
  lemma {:induction false} FaceVerticesAll(tokens: seq<string>, vs: seq<Vertex>,
                                           positions: seq<Vec3>, texcoords: seq<Vec2>, normals: seq<Vec3>)
    requires |vs| == |tokens|
    requires forall i :: 0 <= i < |tokens| ==> FaceVertex(tokens[i], positions, texcoords, normals) == Success(vs[i])
    ensures FaceVertices(tokens, positions, texcoords, normals) == Success(vs)
    decreases |tokens|
  {
    if tokens != [] {
      var n := |tokens| - 1;
      assert forall i :: 0 <= i < n ==> tokens[..n][i] == tokens[i];
      FaceVerticesAll(tokens[..n], vs[..n], positions, texcoords, normals);
      assert vs[..n] + [vs[n]] == vs;
    }
  }

  /** A failing token whose predecessors all resolve makes the face fail with its error. */
  lemma {:induction false} FaceVerticesFailure(tokens: seq<string>, k: nat,
                                               positions: seq<Vec3>, texcoords: seq<Vec2>, normals: seq<Vec3>)
    requires k < |tokens| && FaceVertices(tokens[..k], positions, texcoords, normals).Success?
    requires FaceVertex(tokens[k], positions, texcoords, normals).Failure?
    ensures FaceVertices(tokens, positions, texcoords, normals) == Failure(FaceVertex(tokens[k], positions, texcoords, normals).error)
    decreases |tokens|
  {
    if k < |tokens| - 1 {
      assert tokens[..|tokens| - 1][..k] == tokens[..k];
      FaceVerticesFailure(tokens[..|tokens| - 1], k, positions, texcoords, normals);
    } else {
      assert tokens[..|tokens| - 1] == tokens[..k];
    }
  }

  /** The `process_vertex` lambda, up to the point where it appends the vertex. */
  method ProcessVertex(token: string, positions: seq<Vec3>, texcoords: seq<Vec2>, normals: seq<Vec3>)
    returns (r: Result<Vertex, LoadError>)
    ensures r == FaceVertex(token, positions, texcoords, normals)
  {
    var indices := ReadIndices(token);
    if indices.Failure? {
      return Failure(indices.error);
    }
    r := ResolveVertex(token, indices.value, positions, texcoords, normals);
  }

  // ---------------------------------------------------------------------------
  // Round trip through the token text
  // ---------------------------------------------------------------------------

  /** An index written as a field: 0 (absent) as the empty field. */
  function IndexField(k: nat): string {
    if k == 0 then [] else Decimal(k)
  }

  /** The token `p/t/n`, with an absent texture index left empty (as in `3//2`). */
  function FaceToken(p: nat, t: nat, n: nat): string {
    Decimal(p) + ['/'] + IndexField(t) + ['/'] + Decimal(n)
  }

  lemma DecimalNoSlash(n: nat)
    ensures NoSlash(Decimal(n)) && NoSlash(IndexField(n))
  {
    var s := Decimal(n);
    forall i | 0 <= i < |s| ensures s[i] != '/' {
      assert IsDigit(s[i]);
    }
  }

  lemma SplitFromSlash(rest: string, field: string, done: seq<string>)
    ensures SplitFrom(['/'] + rest, field, done) == SplitFrom(rest, [], done + [field])
  {
    assert (['/'] + rest)[1..] == rest;
  }

  lemma SplitThree(a: string, b: string, c: string)
    requires NoSlash(a) && NoSlash(b) && NoSlash(c) && c != []
    ensures SplitSlash(a + ['/'] + b + ['/'] + c) == [a, b, c]
  {
    SplitFromSkips(a, ['/'] + (b + (['/'] + c)), [], []);
    SplitFromSlash(b + (['/'] + c), a, []);
    SplitFromSkips(b, ['/'] + c, [], [a]);
    SplitFromSlash(c, b, [a]);
    SplitFromSkips(c, [], [], [a, b]);
    assert a + ['/'] + b + ['/'] + c == a + (['/'] + (b + (['/'] + c)));
    assert [] + a == a && [] + b == b && [] + c == c && c + [] == c;
    assert [] + [a] == [a] && [a] + [b] == [a, b];
  }

  lemma SplitTwo(a: string, b: string)
    requires NoSlash(a) && NoSlash(b) && b != []
    ensures SplitSlash(a + ['/'] + b) == [a, b]
  {
    SplitFromSkips(a, ['/'] + b, [], []);
    SplitFromSlash(b, a, []);
    SplitFromSkips(b, [], [], [a]);
    assert a + ['/'] + b == a + (['/'] + b);
    assert [] + a == a && [] + b == b && b + [] == b && [] + [a] == [a];
  }

  /** A trailing '/' closes the second field and yields no empty third one. */
  lemma SplitTrailingSlash(a: string, b: string)
    requires NoSlash(a) && NoSlash(b)
    ensures SplitSlash(a + ['/'] + b + ['/']) == [a, b]
  {
    assert a + ['/'] + b + ['/'] == a + (['/'] + (b + ['/']));
    SplitFromSkips(a, ['/'] + (b + ['/']), [], []);
    assert [] + a == a;
    SplitFromSlash(b + ['/'], a, []);
    SplitFromSkips(b, ['/'], [], [a]);
    assert [] + b == b && [] + [a] == [a];
    assert ['/'] == ['/'] + [];
    SplitFromSlash([], b, [a]);
  }

  lemma SplitOne(a: string)
    requires NoSlash(a) && a != []
    ensures SplitSlash(a) == [a]
  {
    SplitFromSkips(a, [], [], []);
    assert [] + a == a && a + [] == a;
  }

  lemma FieldIndicesThree(a: string, b: string, c: string, x: int, y: int, z: int)
    requires FieldIndex(a) == Success(x) && FieldIndex(b) == Success(y) && FieldIndex(c) == Success(z)
    ensures FieldIndices([a, b, c]) == Success([x, y, z])
  {
    assert [a, b, c][..2] == [a, b] && [a, b][..1] == [a] && [a][..0] == [];
    assert [] + [x] == [x] && [x] + [y] == [x, y] && [x, y] + [z] == [x, y, z];
    assert FieldIndices([a]) == Success([x]);
    assert FieldIndices([a, b]) == Success([x, y]);
  }

  /** The indices written into a face token are the ones read back from it. */
  lemma FaceTokenIndices(p: nat, t: nat, n: nat)
    requires p <= IntMax && t <= IntMax && n <= IntMax
    ensures TokenIndices(FaceToken(p, t, n)) == Success([p, t, n])
  {
    DecimalNoSlash(p); DecimalNoSlash(t); DecimalNoSlash(n);
    SplitThree(Decimal(p), IndexField(t), Decimal(n));
    StoiDecimal(p); StoiDecimal(t); StoiDecimal(n);
    assert FieldIndex(Decimal(p)) == Success(p);
    assert FieldIndex(IndexField(t)) == Success(t);
    assert FieldIndex(Decimal(n)) == Success(n);
    FieldIndicesThree(Decimal(p), IndexField(t), Decimal(n), p, t, n);
  }

  /**
    Writing three in-range indices as a token and processing it yields the
    vertex they name: the position p, the texture coordinate t or (0,0) when
    t is absent, the normal n or (0,1,0) when n is 0.
   */
  lemma FaceTokenRoundTrip(p: nat, t: nat, n: nat,
                           positions: seq<Vec3>, texcoords: seq<Vec2>, normals: seq<Vec3>)
    requires 1 <= p <= |positions| && t <= |texcoords| && n <= |normals|
    requires p <= IntMax && t <= IntMax && n <= IntMax
    ensures FaceVertex(FaceToken(p, t, n), positions, texcoords, normals) ==
      Success(Vertex(positions[p - 1],
                     if t > 0 then texcoords[t - 1] else Vec2(0.0, 0.0),
                     if n > 0 then normals[n - 1] else Vec3(0.0, 1.0, 0.0)))
  {
    var token := FaceToken(p, t, n);
    FaceTokenIndices(p, t, n);
    var indices := [p, t, n];
    assert indices[0] == p && indices[1] == t && indices[2] == n;
    assert FaceVertex(token, positions, texcoords, normals) == ResolveVertex(token, indices, positions, texcoords, normals);
  }

  /**
    A token with fewer than three fields, such as `7` or `7/2`, makes the
    C++ read past the end of its index vector: the model reports it.
   */
  lemma ShortTokenIsMalformed(p: nat, t: nat, positions: seq<Vec3>, texcoords: seq<Vec2>, normals: seq<Vec3>)
    requires p <= IntMax && t <= IntMax
    ensures FaceVertex(Decimal(p), positions, texcoords, normals) == Failure(MalformedGeometry(Decimal(p)))
    ensures FaceVertex(Decimal(p) + ['/'] + Decimal(t), positions, texcoords, normals)
         == Failure(MalformedGeometry(Decimal(p) + ['/'] + Decimal(t)))
  {
    StoiDecimal(p); StoiDecimal(t);
    DecimalNoSlash(p); DecimalNoSlash(t);
    var dp, dt := Decimal(p), Decimal(t);
    SplitOne(dp);
    assert FieldIndex(dp) == Success(p);
    assert [dp][..0] == [] && [] + [p] == [p] && [p] + [t] == [p, t];
    assert FieldIndices([dp]) == Success([p]);
    SplitTwo(dp, dt);
    assert FieldIndex(dt) == Success(t);
    assert [dp, dt][..1] == [dp];
    assert FieldIndices([dp, dt]) == Success([p, t]);
  }

  /**
    A trailing '/' does not add an empty field: `p//` splits into the two
    fields `p` and the empty one, so the C++ reads `indices[2]` past the end,
    and the model reports the token as malformed, whatever the lists hold.
   */
  lemma DoubleSlashMalformed(p: nat, positions: seq<Vec3>, texcoords: seq<Vec2>, normals: seq<Vec3>)
    requires p <= IntMax
    ensures FaceVertex(Decimal(p) + ['/', '/'], positions, texcoords, normals)
         == Failure(MalformedGeometry(Decimal(p) + ['/', '/']))
  {
    StoiDecimal(p);
    DecimalNoSlash(p);
    var dp := Decimal(p);
    SplitTrailingSlash(dp, []);
    assert dp + ['/', '/'] == dp + ['/'] + [] + ['/'];
    FieldIndicesTwo(dp, [], p, 0);
    ShortIndicesMalformed(dp + ['/', '/'], [p, 0], positions, texcoords, normals);
  }

  /** Likewise `p/t/` splits into the two fields `p` and `t`, and is malformed. */
  lemma TrailingSlashMalformed(p: nat, t: nat, positions: seq<Vec3>, texcoords: seq<Vec2>, normals: seq<Vec3>)
    requires p <= IntMax && t <= IntMax
    ensures FaceVertex(Decimal(p) + ['/'] + Decimal(t) + ['/'], positions, texcoords, normals)
         == Failure(MalformedGeometry(Decimal(p) + ['/'] + Decimal(t) + ['/']))
  {
    StoiDecimal(p); StoiDecimal(t);
    DecimalNoSlash(p); DecimalNoSlash(t);
    var dp, dt := Decimal(p), Decimal(t);
    SplitTrailingSlash(dp, dt);
    FieldIndicesTwo(dp, dt, p, t);
    ShortIndicesMalformed(dp + ['/'] + dt + ['/'], [p, t], positions, texcoords, normals);
  }

  lemma FieldIndicesTwo(a: string, b: string, x: int, y: int)
    requires FieldIndex(a) == Success(x) && FieldIndex(b) == Success(y)
    ensures FieldIndices([a, b]) == Success([x, y])
  {
    assert [a, b][..1] == [a] && [a][..0] == [];
    assert [] + [x] == [x] && [x] + [y] == [x, y];
    assert FieldIndices([a]) == Success([x]);
  }

  /** A token whose indices are fewer than three is malformed, whatever the lists hold. */
  lemma ShortIndicesMalformed(token: string, indices: seq<int>,
                              positions: seq<Vec3>, texcoords: seq<Vec2>, normals: seq<Vec3>)
    requires TokenIndices(token) == Success(indices) && |indices| < 3
    ensures FaceVertex(token, positions, texcoords, normals) == Failure(MalformedGeometry(token))
  {
  }
}
