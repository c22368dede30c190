/** The Wavefront OBJ reader inside ModelLoader::loadOBJ: records are lines,
    tokens are separated by single spaces, `v` and `vn` carry three numbers,
    `vt` two, and `f` a list of 1-based vertex references that are
    fan-triangulated into 32-bit unsigned indices. */
module ObjFormat {
  import opened CommonStructs
  import opened Text
  import opened GeometryData

  /** ofIndexType is a 32-bit unsigned integer. */
  const IndexModulus := 0x1_0000_0000

  /** Storing an int in an ofIndexType keeps it modulo 2^32. */
  function U32(x: int): (r: int)
    ensures 0 <= r < IndexModulus
    ensures 0 <= x < IndexModulus ==> r == x
    ensures x < 0 && -IndexModulus <= x ==> r == x + IndexModulus
    decreases if x < 0 then IndexModulus - x else x
  {
    if x < 0 then U32(x + IndexModulus) else if x >= IndexModulus then U32(x - IndexModulus) else x
  }

  /** The wrap is reduction modulo 2^32, as an unsigned conversion. */
  lemma U32IsModulo(x: int)
    ensures U32(x) == x % IndexModulus
  {
    var q := U32Quotient(x);
    assert x == q * IndexModulus + U32(x);
  }

  /** U32 removes a whole number of 2^32 steps. */
  lemma {:induction false} U32Quotient(x: int) returns (q: int)
    ensures x == q * IndexModulus + U32(x)
    decreases if x < 0 then IndexModulus - x else x
  {
    if x < 0 {
      q := U32Quotient(x + IndexModulus);
      q := q - 1;
    } else if x >= IndexModulus {
      q := U32Quotient(x - IndexModulus);
      q := q + 1;
    } else {
      q := 0;
    }
  }

  /** The four lists loadOBJ accumulates while it reads. */
  datatype ObjData = ObjData(
    vertices: seq<Vec3>,
    normals: seq<Vec3>,
    texCoords: seq<Vec2>,
    indices: seq<int>)

  const NoData := ObjData([], [], [], [])

  /** The mesh type the loader fills: positions and normals are ofVec3f. */
  type ModelMesh = Mesh<Vec3, Vec3>

  // ---------------------------------------------------------------------------
  // Faces

  /** The 0-based vertex index of one face reference ("v", "v/t", "v//n" or
      "v/t/n"): the text before the first '/' read by ofToInt, minus one. The
      texture and normal references are parsed by the source into vectors it
      never reads, so they are not part of the model. */
  function VertexRef(token: string): int
  {
    ParseInt(Split(token, '/')[0]) - 1
  }

  /** The vertex references of a face record's tokens t[1], ..., t[k - 1]
      (t[0] is the keyword "f"). */
  function FaceRefs(t: seq<string>, k: nat): (refs: seq<int>)
    requires k <= |t|
    ensures |refs| == if k == 0 then 0 else k - 1
    decreases k
  {
    if k <= 1 then [] else FaceRefs(t, k - 1) + [VertexRef(t[k - 1])]
  }

  /** The references as they are stored in the index buffer. */
  function AsIndices(refs: seq<int>): (r: seq<int>)
    ensures |r| == |refs|
    ensures forall k :: 0 <= k < |refs| ==> r[k] == U32(refs[k])
    decreases |refs|
  {
    if |refs| == 0 then [] else AsIndices(refs[..|refs| - 1]) + [U32(refs[|refs| - 1])]
  }

  /** Fan triangulation of a polygon f0 f1 ... f(k-1): the triangles
      (f0, fi, fi+1) for i = 1 .. k-2, in that order. */
  function Fan<T>(f: seq<T>): (r: seq<T>)
    ensures |r| == if |f| < 3 then 0 else 3 * (|f| - 2)
    decreases |f|
  {
    if |f| < 3 then [] else Fan(f[..|f| - 1]) + [f[0], f[|f| - 2], f[|f| - 1]]
  }

  /** Triangle t of the fan over f sits at 3 * t in r. */
  ghost predicate FanTriangle<T>(r: seq<T>, f: seq<T>, t: int)
  {
    0 <= t && t + 2 < |f| && 3 * t + 3 <= |r|
    && r[3 * t] == f[0] && r[3 * t + 1] == f[t + 1] && r[3 * t + 2] == f[t + 2]
  }

  /** Triangle t of the fan is (f0, f(t+1), f(t+2)). */
  lemma {:induction false} FanTriangles<T>(f: seq<T>, t: int)
    requires 0 <= t && t + 2 < |f|
    ensures FanTriangle(Fan(f), f, t)
    decreases |f|
  {
    var front := f[..|f| - 1];
    if t + 3 < |f| {
      FanTriangles(front, t);
      assert Fan(f)[..|Fan(front)|] == Fan(front);
    }
  }

  /** Every corner of the fan is a corner of the polygon. */
  lemma {:induction false} FanCorners<T>(f: seq<T>)
    ensures forall x :: x in Fan(f) ==> x in f
    decreases |f|
  {
    if |f| >= 3 {
      FanCorners(f[..|f| - 1]);
      assert forall x :: x in f[..|f| - 1] ==> x in f;
      assert f[0] in f && f[|f| - 2] in f && f[|f| - 1] in f;
    }
  }

  /** A triangle is its own fan. */
  lemma FanTriangleItself<T>(f: seq<T>)
    requires |f| == 3
    ensures Fan(f) == f
  {
    assert f[..2] == [f[0], f[1]];
  }

  // ---------------------------------------------------------------------------
  // Lines

  /** The indices a face record adds: the fan over its 0-based references,
      stored as ofIndexType values. */
  function FaceIndices(t: seq<string>): (r: seq<int>)
    ensures |r| == if |t| < 4 then 0 else 3 * (|t| - 3)
  {
    Fan(AsIndices(FaceRefs(t, |t|)))
  }

  /** One record, split into its tokens, applied to what has been read so
      far. A record with too few tokens or an unknown keyword is ignored. */
  function ParseRecord(d: ObjData, t: seq<string>): ObjData
    requires |t| >= 1
  {
    if t[0] == "v" && |t| >= 4 then
      d.(vertices := d.vertices + [Vec3(ParseReal(t[1]), ParseReal(t[2]), ParseReal(t[3]))])
    else if t[0] == "vn" && |t| >= 4 then
      d.(normals := d.normals + [Vec3(ParseReal(t[1]), ParseReal(t[2]), ParseReal(t[3]))])
    else if t[0] == "vt" && |t| >= 3 then
      d.(texCoords := d.texCoords + [Vec2(ParseReal(t[1]), ParseReal(t[2]))])
    else if t[0] == "f" && |t| >= 4 then
      d.(indices := d.indices + FaceIndices(t))
    else d
  }

  /** One line of the file applied to what has been read so far: empty lines
      and comments are skipped, anything else is a record of space-separated
      tokens. */
  function ParseLine(d: ObjData, line: string): ObjData
  {
    if |line| == 0 || line[0] == '#' then d else ParseRecord(d, Split(line, ' '))
  }

  /** The items xs applied in order to s by step. */
  function Fold<S, X>(step: (S, X) -> S, s: S, xs: seq<X>): S
    decreases |xs|
  {
    if |xs| == 0 then s else step(Fold(step, s, xs[..|xs| - 1]), xs[|xs| - 1])
  }

  lemma FoldSnoc<S, X>(step: (S, X) -> S, s: S, xs: seq<X>, x: X)
    ensures Fold(step, s, xs + [x]) == step(Fold(step, s, xs), x)
  {
    assert (xs + [x])[..|xs|] == xs;
  }

  /** Folding a + b is folding a, then b from where a left off. */
  lemma {:induction false} FoldConcat<S, X>(step: (S, X) -> S, s: S, a: seq<X>, b: seq<X>)
    ensures Fold(step, s, a + b) == Fold(step, Fold(step, s, a), b)
    decreases |b|
  {
    if |b| == 0 {
      assert a + b == a;
    } else {
      var front := b[..|b| - 1];
      FoldConcat(step, s, a, front);
      assert a + b == (a + front) + [b[|b| - 1]];
      FoldSnoc(step, s, a + front, b[|b| - 1]);
    }
  }

  /** The lines read in order, starting from d. */
  function ParseFrom(d: ObjData, lines: seq<string>): ObjData
  {
    Fold(ParseLine, d, lines)
  }

  /** Everything loadOBJ reads from a file's lines. */
  function ParseLines(lines: seq<string>): ObjData
  {
    ParseFrom(NoData, lines)
  }

  lemma ParseFromSnoc(d: ObjData, lines: seq<string>, line: string)
    ensures ParseFrom(d, lines + [line]) == ParseLine(ParseFrom(d, lines), line)
  {
    FoldSnoc(ParseLine, d, lines, line);
  }

  /** Reading a + b is reading a, then b from where a left off. */
  lemma ParseFromConcat(d: ObjData, a: seq<string>, b: seq<string>)
    ensures ParseFrom(d, a + b) == ParseFrom(ParseFrom(d, a), b)
  {
    FoldConcat(ParseLine, d, a, b);
  }

  /** Empty lines and comments change nothing. */
  lemma SkippedLine(lines: seq<string>, line: string)
    requires |line| == 0 || line[0] == '#'
    ensures ParseLines(lines + [line]) == ParseLines(lines)
  {
    ParseFromSnoc(NoData, lines, line);
  }

  /** A `v` or `vn` record with at least four tokens, or a `vt` record with at
      least three, appends exactly one element to its list and changes nothing
      else; a shorter one changes nothing. */
  lemma AttributeRecord(d: ObjData, line: string)
    requires |line| > 0 && line[0] != '#'
    ensures var t, after := Split(line, ' '), ParseLine(d, line);
      (t[0] == "v" ==>
        |after.vertices| == |d.vertices| + (if |t| >= 4 then 1 else 0)
        && after.vertices[..|d.vertices|] == d.vertices && after.(vertices := d.vertices) == d)
      && (t[0] == "vn" ==>
        |after.normals| == |d.normals| + (if |t| >= 4 then 1 else 0)
        && after.normals[..|d.normals|] == d.normals && after.(normals := d.normals) == d)
      && (t[0] == "vt" ==>
        |after.texCoords| == |d.texCoords| + (if |t| >= 3 then 1 else 0)
        && after.texCoords[..|d.texCoords|] == d.texCoords && after.(texCoords := d.texCoords) == d)
  {
    assert "v" != "vn" && "v" != "vt" && "vn" != "vt" && "f" != "v" && "f" != "vn" && "f" != "vt";
  }

  /** A face record with k >= 3 references appends 3 * (k - 2) indices, the
      fan over the 0-based references, and nothing else. */
  lemma FaceRecord(d: ObjData, line: string)
    requires |line| > 0 && Split(line, ' ')[0] == "f" && |Split(line, ' ')| >= 4
    ensures var after := ParseLine(d, line);
      var refs := FaceRefs(Split(line, ' '), |Split(line, ' ')|);
      |after.indices| == |d.indices| + 3 * (|refs| - 2)
      && after.indices == d.indices + Fan(AsIndices(refs))
      && after.(indices := d.indices) == d
  {
    var t := Split(line, ' ');
    assert line[0] == t[0][0];
    FaceRecordTokens(d, t);
  }

  lemma FaceRecordTokens(d: ObjData, t: seq<string>)
    requires |t| >= 4 && t[0] == "f"
    ensures ParseRecord(d, t) == d.(indices := d.indices + FaceIndices(t))
  {
    assert t[0] != "v" && t[0] != "vn" && t[0] != "vt";
  }

  // ---------------------------------------------------------------------------
  // Building the mesh

  /** loadOBJ's result after the reading loop: the vertices and indices, and
      the normals and texture coordinates only when there are as many of them
      as vertices. The mesh was cleared first, so it has no colours. */
  function BuildMesh(d: ObjData): ModelMesh
  {
    Mesh(
      d.vertices,
      if |d.normals| > 0 && |d.normals| == |d.vertices| then d.normals else [],
      [],
      if |d.texCoords| > 0 && |d.texCoords| == |d.vertices| then d.texCoords else [],
      d.indices)
  }

  /** The attributes of a built mesh are either absent or one per vertex, and
      present exactly when the file gave one per vertex. */
  lemma BuildMeshAttributes(d: ObjData)
    ensures BuildMesh(d).vertices == d.vertices && BuildMesh(d).indices == d.indices
    ensures |BuildMesh(d).normals| == 0 || BuildMesh(d).normals == d.normals
    ensures |BuildMesh(d).normals| > 0 <==> |d.normals| == |d.vertices| > 0
    ensures |BuildMesh(d).texCoords| > 0 <==> |d.texCoords| == |d.vertices| > 0
    ensures |BuildMesh(d).texCoords| == 0 || BuildMesh(d).texCoords == d.texCoords
  {
  }

  // ---------------------------------------------------------------------------
  // The reading loop

  /** loadOBJ's loop over the face tokens: one 0-based reference per token
      after "f". */
  method ReadFace(tokens: seq<string>) returns (faceVertices: seq<int>)
    requires |tokens| >= 1
    ensures faceVertices == FaceRefs(tokens, |tokens|)
  {
    faceVertices := [];
    var i := 1;
    while i < |tokens|
      invariant 1 <= i <= |tokens|
      invariant faceVertices == FaceRefs(tokens, i)
    {
      var faceTokens := Split(tokens[i], '/');
      if |faceTokens| > 0 {
        var vertexIndex := ParseInt(faceTokens[0]) - 1;
        assert vertexIndex == VertexRef(tokens[i]);
        faceVertices := faceVertices + [vertexIndex];
      }
      i := i + 1;
    }
  }

  /** loadOBJ's triangulation loop, storing each reference as an index. */
  method Triangulate(faceVertices: seq<int>) returns (tris: seq<int>)
    ensures tris == Fan(AsIndices(faceVertices))
  {
    ghost var g := AsIndices(faceVertices);
    tris := [];
    if |faceVertices| < 2 {
      return;
    }
    var i := 1;
    while i < |faceVertices| - 1
      invariant 1 <= i <= |faceVertices| - 1
      invariant tris == Fan(g[..i + 1])
    {
      assert g[..i + 2][..i + 1] == g[..i + 1];
      tris := tris + [U32(faceVertices[0]), U32(faceVertices[i]), U32(faceVertices[i + 1])];
      i := i + 1;
    }
    assert g[..i + 1] == g;
  }

  /** loadOBJ's loop over the lines of the file. */
  method ReadLines(lines: seq<string>) returns (d: ObjData)
    ensures d == ParseLines(lines)
  {
    var vertices: seq<Vec3> := [];
    var normals: seq<Vec3> := [];
    var texCoords: seq<Vec2> := [];
    var indices: seq<int> := [];
    var k := 0;
    while k < |lines|
      invariant 0 <= k <= |lines|
      invariant ObjData(vertices, normals, texCoords, indices) == ParseLines(lines[..k])
    {
      var line := lines[k];
      ParseFromSnoc(NoData, lines[..k], line);
      assert lines[..k + 1] == lines[..k] + [line];
      if |line| > 0 && line[0] != '#' {
        var tokens := Split(line, ' ');
        if tokens[0] == "v" && |tokens| >= 4 {
          vertices := vertices + [Vec3(ParseReal(tokens[1]), ParseReal(tokens[2]), ParseReal(tokens[3]))];
        } else if tokens[0] == "vn" && |tokens| >= 4 {
          normals := normals + [Vec3(ParseReal(tokens[1]), ParseReal(tokens[2]), ParseReal(tokens[3]))];
        } else if tokens[0] == "vt" && |tokens| >= 3 {
          texCoords := texCoords + [Vec2(ParseReal(tokens[1]), ParseReal(tokens[2]))];
        } else if tokens[0] == "f" && |tokens| >= 4 {
          var faceVertices := ReadFace(tokens);
          var tris := Triangulate(faceVertices);
          indices := indices + tris;
        }
      }
      k := k + 1;
    }
    assert lines[..k] == lines;
    d := ObjData(vertices, normals, texCoords, indices);
  }

  /** ModelLoader::loadOBJ on the file system `files` (path to the file's
      lines): false without touching the mesh when the file is missing or has
      no vertex; otherwise the mesh is rebuilt from what was read. */
  method LoadObj(files: map<string, seq<string>>, path: string, outMesh: ModelMesh)
    returns (success: bool, mesh: ModelMesh)
    ensures success <==> path in files && |ParseLines(files[path]).vertices| > 0
    ensures success ==> mesh == BuildMesh(ParseLines(files[path]))
    ensures !success ==> mesh == outMesh
  {
    mesh := outMesh;
    if path !in files {
      return false, mesh;
    }
    var d := ReadLines(files[path]);
    if |d.vertices| == 0 {
      return false, mesh;
    }
    mesh := EmptyMesh();
    mesh := mesh.(vertices := d.vertices);
    if |d.normals| > 0 && |d.normals| == |d.vertices| {
      mesh := mesh.(normals := d.normals);
    }
    if |d.texCoords| > 0 && |d.texCoords| == |d.vertices| {
      mesh := mesh.(texCoords := d.texCoords);
    }
    mesh := mesh.(indices := d.indices);
    success := true;
  }

  // ---------------------------------------------------------------------------
  // Writing and reading back

  /** A vertex record with integer coordinates. */
  function VertexLine(p: Point): string
  {
    Join(["v", IntToString(p.x), IntToString(p.y), IntToString(p.z)], ' ')
  }

  /** A triangle of 0-based vertex indices. */
  datatype Triangle = Triangle(a: nat, b: nat, c: nat)

  /** The record of a triangle, with 1-based references. */
  function FaceLine(t: Triangle): string
  {
    Join(["f", IntToString(t.a + 1), IntToString(t.b + 1), IntToString(t.c + 1)], ' ')
  }

  function VertexLines(ps: seq<Point>): seq<string>
    decreases |ps|
  {
    if |ps| == 0 then [] else VertexLines(ps[..|ps| - 1]) + [VertexLine(ps[|ps| - 1])]
  }

  function FaceLines(ts: seq<Triangle>): seq<string>
    decreases |ts|
  {
    if |ts| == 0 then [] else FaceLines(ts[..|ts| - 1]) + [FaceLine(ts[|ts| - 1])]
  }

  /** The index list of a triangle list. */
  function Flatten(ts: seq<Triangle>): (r: seq<int>)
    ensures |r| == 3 * |ts|
    decreases |ts|
  {
    if |ts| == 0 then []
    else
      var t := ts[|ts| - 1];
      Flatten(ts[..|ts| - 1]) + [t.a, t.b, t.c]
  }

  /** An OBJ text for points on a lattice and a triangle list. */
  function WriteObj(ps: seq<Point>, ts: seq<Triangle>): seq<string>
  {
    VertexLines(ps) + FaceLines(ts)
  }

  /** The triangle's corners fit in an ofIndexType. */
  predicate Storable(t: Triangle)
  {
    t.a < IndexModulus && t.b < IndexModulus && t.c < IndexModulus
  }

  function AsVec3(p: Point): Vec3 { Vec3(p.x as real, p.y as real, p.z as real) }

  function AsVec3s(ps: seq<Point>): (r: seq<Vec3>)
    ensures |r| == |ps|
    decreases |ps|
  {
    if |ps| == 0 then [] else AsVec3s(ps[..|ps| - 1]) + [AsVec3(ps[|ps| - 1])]
  }

  /** What std::to_string writes contains no space and no '/'. */
  lemma IntToStringPlain(n: int)
    ensures ' ' !in IntToString(n) && '/' !in IntToString(n)
  {
    IntToStringChars(n);
  }

  lemma RecordTokens(k: string, x: int, y: int, z: int)
    requires ' ' !in k
    ensures Split(Join([k, IntToString(x), IntToString(y), IntToString(z)], ' '), ' ')
      == [k, IntToString(x), IntToString(y), IntToString(z)]
  {
    IntToStringPlain(x);
    IntToStringPlain(y);
    IntToStringPlain(z);
    SplitJoin([k, IntToString(x), IntToString(y), IntToString(z)], ' ');
  }

  lemma VertexLineRead(d: ObjData, p: Point)
    ensures ParseLine(d, VertexLine(p)) == d.(vertices := d.vertices + [AsVec3(p)])
  {
    RecordTokens("v", p.x, p.y, p.z);
    ParseRealOfIntToString(p.x);
    ParseRealOfIntToString(p.y);
    ParseRealOfIntToString(p.z);
  }

  lemma RefRead(a: nat)
    requires a < IndexModulus
    ensures VertexRef(IntToString(a + 1)) == a && U32(a) == a
  {
    IntToStringPlain(a + 1);
    SplitNoDelimiter(IntToString(a + 1), '/');
    ParseIntOfIntToString(a + 1);
  }

  /** A record of three references whose targets are a, b and c, all within
      32 bits, adds the triangle a b c. */
  lemma FaceIndicesOfTriangle(t: seq<string>, a: int, b: int, c: int)
    requires |t| == 4
    requires VertexRef(t[1]) == a && VertexRef(t[2]) == b && VertexRef(t[3]) == c
    requires 0 <= a < IndexModulus && 0 <= b < IndexModulus && 0 <= c < IndexModulus
    ensures FaceIndices(t) == [a, b, c]
  {
    assert FaceRefs(t, 2) == [a];
    assert FaceRefs(t, 3) == [a, b];
    assert FaceRefs(t, 4) == [a, b, c];
    var stored := AsIndices([a, b, c]);
    assert stored[0] == a && stored[1] == b && stored[2] == c;
    assert stored == [a, b, c];
    FanTriangleItself([a, b, c]);
  }

  /** The record "f" (a + 1) (b + 1) (c + 1) adds the triangle a b c. */
  lemma FaceIndicesRead(a: nat, b: nat, c: nat)
    requires a < IndexModulus && b < IndexModulus && c < IndexModulus
    ensures FaceIndices(["f", IntToString(a + 1), IntToString(b + 1), IntToString(c + 1)]) == [a, b, c]
  {
    RefRead(a);
    RefRead(b);
    RefRead(c);
    FaceIndicesOfTriangle(["f", IntToString(a + 1), IntToString(b + 1), IntToString(c + 1)], a, b, c);
  }

  lemma FaceLineRead(d: ObjData, t: Triangle)
    requires Storable(t)
    ensures ParseLine(d, FaceLine(t)) == d.(indices := d.indices + [t.a, t.b, t.c])
  {
    var tokens := ["f", IntToString(t.a + 1), IntToString(t.b + 1), IntToString(t.c + 1)];
    assert Split(FaceLine(t), ' ') == tokens by {
      RecordTokens("f", t.a + 1, t.b + 1, t.c + 1);
    }
    assert ParseLine(d, FaceLine(t)) == ParseRecord(d, tokens) by {
      assert FaceLine(t)[0] == 'f';
    }
    assert ParseRecord(d, tokens) == d.(indices := d.indices + FaceIndices(tokens)) by {
      FaceRecordTokens(d, tokens);
    }
    FaceIndicesRead(t.a, t.b, t.c);
  }

  lemma {:induction false} VertexLinesRead(d: ObjData, ps: seq<Point>)
    ensures ParseFrom(d, VertexLines(ps)) == d.(vertices := d.vertices + AsVec3s(ps))
    decreases |ps|
  {
    if |ps| == 0 {
      assert d.vertices + AsVec3s(ps) == d.vertices;
    } else {
      var front := ps[..|ps| - 1];
      VertexLinesRead(d, front);
      ParseFromSnoc(d, VertexLines(front), VertexLine(ps[|ps| - 1]));
      VertexLineRead(ParseFrom(d, VertexLines(front)), ps[|ps| - 1]);
      SeqAssoc(d.vertices, AsVec3s(front), [AsVec3(ps[|ps| - 1])]);
    }
  }

  /** Read forward from d, the face records of ts append their corners to
      the indices. */
  lemma {:induction false} FaceLinesRead(d: ObjData, ts: seq<Triangle>)
    requires forall k :: 0 <= k < |ts| ==> Storable(ts[k])
    ensures ParseFrom(d, FaceLines(ts)) == d.(indices := d.indices + Flatten(ts))
    decreases |ts|
  {
    if |ts| == 0 {
      assert d.indices + Flatten(ts) == d.indices;
    } else {
      var front := ts[..|ts| - 1];
      var t := ts[|ts| - 1];
      FaceLinesRead(d, front);
      ParseFromSnoc(d, FaceLines(front), FaceLine(t));
      FaceLineRead(ParseFrom(d, FaceLines(front)), t);
      SeqAssoc(d.indices, Flatten(front), [t.a, t.b, t.c]);
    }
  }

  /** Writing lattice points and a triangle list as OBJ text and reading it
      back gives the points and the triangles' indices, with no normals and no
      texture coordinates. */
  lemma WriteReadObj(ps: seq<Point>, ts: seq<Triangle>)
    requires forall k :: 0 <= k < |ts| ==> Storable(ts[k])
    ensures ParseLines(WriteObj(ps, ts)) == ObjData(AsVec3s(ps), [], [], Flatten(ts))
  {
    ParseFromConcat(NoData, VertexLines(ps), FaceLines(ts));
    VertexLinesRead(NoData, ps);
    FaceLinesRead(ParseFrom(NoData, VertexLines(ps)), ts);
  }
}
