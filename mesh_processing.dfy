/** The post-processing steps ModelLoader applies to a loaded mesh: the
    bounding box, normal generation from the index buffer, normal flipping,
    and centring / size normalisation, together with the loader's option and
    info records. Coordinates are exact reals. The loops of the source are
    methods proved against the functions that specify them. */
module MeshProcessing {
  import opened CommonStructs
  import opened GeometryData
  import opened ObjFormat

  /** ModelLoader::LoadOptions with its member initialisers. */
  datatype LoadOptions = LoadOptions(
    generateNormals: bool,
    flipNormals: bool,
    centerModel: bool,
    normalizeSize: bool,
    targetSize: real,
    smoothNormals: bool)

  const DefaultLoadOptions := LoadOptions(true, false, true, true, 100.0, true)

  /** ModelLoader::ModelInfo. */
  datatype ModelInfo = ModelInfo(
    vertexCount: int,
    indexCount: int,
    boundingBoxMin: Vec3,
    boundingBoxMax: Vec3,
    center: Vec3,
    maxDimension: real,
    hasNormals: bool,
    hasTexCoords: bool,
    hasColors: bool)

  // ---------------------------------------------------------------------------
  // Bounding box

  function MinV(a: Vec3, b: Vec3): Vec3 { Vec3(Min(a.x, b.x), Min(a.y, b.y), Min(a.z, b.z)) }

  function MaxV(a: Vec3, b: Vec3): Vec3 { Vec3(Max(a.x, b.x), Max(a.y, b.y), Max(a.z, b.z)) }

  /** a <= b in every component. */
  predicate Below(a: Vec3, b: Vec3) { a.x <= b.x && a.y <= b.y && a.z <= b.z }

  /** The bounds calculateBoundingBox holds after its loop has visited the
      first k vertices, starting from min = max = vertices[0]. */
  function Scan(vs: seq<Vec3>, k: nat): (Vec3, Vec3)
    requires 0 < |vs| && k <= |vs|
  {
    if k == 0 then (vs[0], vs[0])
    else
      var b := Scan(vs, k - 1);
      (MinV(b.0, vs[k - 1]), MaxV(b.1, vs[k - 1]))
  }

  /** calculateBoundingBox: the origin twice for no vertices, otherwise the
      bounds after visiting every vertex. */
  function BoundingBox(vs: seq<Vec3>): (Vec3, Vec3)
  {
    if |vs| == 0 then (Origin, Origin) else Scan(vs, |vs|)
  }

  /** The loop of calculateBoundingBox. */
  method CalculateBoundingBox(vertices: seq<Vec3>) returns (min: Vec3, max: Vec3)
    ensures (min, max) == BoundingBox(vertices)
  {
    if |vertices| == 0 {
      min, max := Origin, Origin;
      return;
    }
    min, max := vertices[0], vertices[0];
    var k := 0;
    while k < |vertices|
      invariant 0 <= k <= |vertices|
      invariant (min, max) == Scan(vertices, k)
    {
      var vertex := vertices[k];
      min := Vec3(Min(min.x, vertex.x), Min(min.y, vertex.y), Min(min.z, vertex.z));
      max := Vec3(Max(max.x, vertex.x), Max(max.y, vertex.y), Max(max.z, vertex.z));
      k := k + 1;
    }
  }

  /** The scanned bounds enclose vertex 0 and every visited vertex. */
  lemma {:induction false} ScanEncloses(vs: seq<Vec3>, k: nat)
    requires 0 < |vs| && k <= |vs|
    ensures Below(Scan(vs, k).0, vs[0]) && Below(vs[0], Scan(vs, k).1)
    ensures forall m :: 0 <= m < k ==> Below(Scan(vs, k).0, vs[m]) && Below(vs[m], Scan(vs, k).1)
    decreases k
  {
    if k > 0 {
      ScanEncloses(vs, k - 1);
    }
  }

  /** Both bounds are below / above every vertex. */
  lemma BoundingBoxEncloses(vs: seq<Vec3>)
    ensures forall m :: 0 <= m < |vs| ==> Below(BoundingBox(vs).0, vs[m]) && Below(vs[m], BoundingBox(vs).1)
    ensures Below(BoundingBox(vs).0, BoundingBox(vs).1)
  {
    if |vs| > 0 {
      ScanEncloses(vs, |vs|);
    }
  }

  /** Each component of the scanned bounds is that component of some vertex:
      the witnesses for min.x, min.y, min.z, max.x, max.y and max.z. */
  lemma {:induction false} ScanAttained(vs: seq<Vec3>, k: nat)
    returns (lx: nat, ly: nat, lz: nat, hx: nat, hy: nat, hz: nat)
    requires 0 < |vs| && k <= |vs|
    ensures lx < |vs| && ly < |vs| && lz < |vs| && hx < |vs| && hy < |vs| && hz < |vs|
    ensures Scan(vs, k).0 == Vec3(vs[lx].x, vs[ly].y, vs[lz].z)
    ensures Scan(vs, k).1 == Vec3(vs[hx].x, vs[hy].y, vs[hz].z)
    decreases k
  {
    if k == 0 {
      lx, ly, lz, hx, hy, hz := 0, 0, 0, 0, 0, 0;
    } else {
      lx, ly, lz, hx, hy, hz := ScanAttained(vs, k - 1);
      var v := vs[k - 1];
      var b := Scan(vs, k - 1);
      if v.x < b.0.x { lx := k - 1; }
      if v.y < b.0.y { ly := k - 1; }
      if v.z < b.0.z { lz := k - 1; }
      if b.1.x < v.x { hx := k - 1; }
      if b.1.y < v.y { hy := k - 1; }
      if b.1.z < v.z { hz := k - 1; }
    }
  }

  /** Every component of both bounds of a nonempty mesh is attained by a
      vertex. */
  lemma BoundingBoxAttained(vs: seq<Vec3>)
    requires |vs| > 0
    ensures exists m :: 0 <= m < |vs| && vs[m].x == BoundingBox(vs).0.x
    ensures exists m :: 0 <= m < |vs| && vs[m].y == BoundingBox(vs).0.y
    ensures exists m :: 0 <= m < |vs| && vs[m].z == BoundingBox(vs).0.z
    ensures exists m :: 0 <= m < |vs| && vs[m].x == BoundingBox(vs).1.x
    ensures exists m :: 0 <= m < |vs| && vs[m].y == BoundingBox(vs).1.y
    ensures exists m :: 0 <= m < |vs| && vs[m].z == BoundingBox(vs).1.z
  {
    var lx, ly, lz, hx, hy, hz := ScanAttained(vs, |vs|);
  }

  /** An empty mesh has the origin for both bounds. */
  lemma BoundingBoxEmpty()
    ensures BoundingBox([]) == (Origin, Origin)
  {
  }

  // ---------------------------------------------------------------------------
  // Normal generation

  /** `vector<ofVec3f>(n, ofVec3f(0, 0, 0))`. */
  function Zeros(n: nat): (z: seq<Vec3>)
    ensures |z| == n
    ensures forall i :: 0 <= i < n ==> z[i] == Origin
  {
    if n == 0 then [] else Zeros(n - 1) + [Origin]
  }

  /** (v1 - v0) x (v2 - v0). */
  function FaceNormal(v0: Vec3, v1: Vec3, v2: Vec3): Vec3
  {
    Cross(Sub(v1, v0), Sub(v2, v0))
  }

  /** The three in-range corners of a triangle; the source's `int`
      comparisons against the vertex count act on the unsigned index values. */
  predicate InRange(V: seq<Vec3>, a: int, b: int, c: int)
  {
    0 <= a < |V| && 0 <= b < |V| && 0 <= c < |V|
  }

  /** One triangle's contribution: its face normal added at a, then at b, then
      at c (so a corner repeated in the triangle receives it repeatedly);
      nothing when a corner is out of range. */
  function AddTriangle(N: seq<Vec3>, V: seq<Vec3>, a: int, b: int, c: int): (r: seq<Vec3>)
    requires |N| == |V|
    ensures |r| == |V|
  {
    if InRange(V, a, b, c) then
      var fn := FaceNormal(V[a], V[b], V[c]);
      var n1 := N[a := Add(N[a], fn)];
      var n2 := n1[b := Add(n1[b], fn)];
      n2[c := Add(n2[c], fn)]
    else N
  }

  /** The normals after t iterations of generateNormals' loop (i = 0, 3, ...,
      3 (t - 1)); an iteration whose triple is incomplete does nothing. */
  function Accumulate(V: seq<Vec3>, I: seq<int>, t: nat): (r: seq<Vec3>)
    ensures |r| == |V|
  {
    if t == 0 then Zeros(|V|)
    else
      var N := Accumulate(V, I, t - 1);
      var k := 3 * (t - 1);
      if k + 2 < |I| then AddTriangle(N, V, I[k], I[k + 1], I[k + 2]) else N
  }

  /** The number of iterations of `for (i = 0; i < size; i += 3)`. */
  function Iterations(size: nat): nat { (size + 2) / 3 }

  /** The accumulated normals generateNormals computes, before normalisation. */
  function Accumulated(V: seq<Vec3>, I: seq<int>): seq<Vec3>
  {
    Accumulate(V, I, Iterations(|I|))
  }

  /** generateNormals: nothing for a mesh without vertices; otherwise one
      normal per vertex, the sum of the face normals of the in-range triangles
      that use it. */
  function WithGeneratedNormals(mesh: ModelMesh): ModelMesh
  {
    if |mesh.vertices| == 0 then mesh else mesh.(normals := Accumulated(mesh.vertices, mesh.indices))
  }

  /** One iteration of generateNormals' loop on the normal array. */
  method AccumulateTriangle(normals: array<Vec3>, vertices: seq<Vec3>, i0: int, i1: int, i2: int)
    requires normals.Length == |vertices|
    modifies normals
    ensures normals[..] == AddTriangle(old(normals[..]), vertices, i0, i1, i2)
  {
    if 0 <= i0 < |vertices| && 0 <= i1 < |vertices| && 0 <= i2 < |vertices| {
      var faceNormal := FaceNormal(vertices[i0], vertices[i1], vertices[i2]);
      ghost var before := normals[..];
      normals[i0] := Add(normals[i0], faceNormal);
      ghost var n1 := normals[..];
      assert n1 == before[i0 := Add(before[i0], faceNormal)];
      normals[i1] := Add(normals[i1], faceNormal);
      ghost var n2 := normals[..];
      assert n2 == n1[i1 := Add(n1[i1], faceNormal)];
      normals[i2] := Add(normals[i2], faceNormal);
      assert normals[..] == n2[i2 := Add(n2[i2], faceNormal)];
    }
  }

  /** The accumulation loop of generateNormals, over an array of normals. */
  method GenerateNormals(mesh: ModelMesh) returns (result: ModelMesh)
    ensures result == WithGeneratedNormals(mesh)
  {
    if |mesh.vertices| == 0 {
      return mesh;
    }
    var vertices := mesh.vertices;
    var indices := mesh.indices;
    var normals := new Vec3[|vertices|](_ => Origin);
    assert normals[..] == Zeros(|vertices|);
    var i := 0;
    while i < |indices|
      invariant 0 <= i <= |indices| + 2 && i % 3 == 0
      invariant normals.Length == |vertices|
      invariant normals[..] == Accumulate(vertices, indices, i / 3)
      decreases |indices| - i
    {
      if i + 2 < |indices| {
        var i0 := indices[i];
        var i1 := indices[i + 1];
        var i2 := indices[i + 2];
        AccumulateTriangle(normals, vertices, i0, i1, i2);
      }
      i := i + 3;
    }
    assert i / 3 == Iterations(|indices|);
    result := mesh.(normals := normals[..]);
  }

  /** Accumulate reads only the complete triples it visits: two index buffers
      that agree on their first 3 t entries give the same normals. */
  lemma {:induction false} AccumulateAgree(V: seq<Vec3>, I: seq<int>, J: seq<int>, t: nat)
    requires 3 * t <= |I| && 3 * t <= |J| && I[..3 * t] == J[..3 * t]
    ensures Accumulate(V, I, t) == Accumulate(V, J, t)
    decreases t
  {
    if t > 0 {
      var k := 3 * (t - 1);
      assert I[..k] == I[..3 * t][..k] && J[..k] == J[..3 * t][..k];
      AccumulateAgree(V, I, J, t - 1);
      assert I[k] == I[..3 * t][k] && I[k + 1] == I[..3 * t][k + 1] && I[k + 2] == I[..3 * t][k + 2];
      assert J[k] == J[..3 * t][k] && J[k + 1] == J[..3 * t][k + 1] && J[k + 2] == J[..3 * t][k + 2];
    }
  }

  /** A trailing incomplete triple contributes nothing: the normals are those
      of the buffer cut down to whole triangles. */
  lemma TrailingIndicesIgnored(V: seq<Vec3>, I: seq<int>)
    ensures Accumulated(V, I) == Accumulated(V, I[..3 * (|I| / 3)])
  {
    var whole := 3 * (|I| / 3);
    var J := I[..whole];
    assert Iterations(|J|) == |I| / 3;
    if Iterations(|I|) > |I| / 3 {
      assert Iterations(|I|) == |I| / 3 + 1;
      assert Accumulate(V, I, Iterations(|I|)) == Accumulate(V, I, |I| / 3);
    }
    assert J[..whole] == I[..whole];
    AccumulateAgree(V, I, J, |I| / 3);
  }

  /** A triangle with a corner past the vertices contributes nothing. */
  lemma OutOfRangeTriangleIgnored(V: seq<Vec3>, I: seq<int>, a: int, b: int, c: int)
    requires |I| % 3 == 0
    requires !InRange(V, a, b, c)
    ensures Accumulated(V, I + [a, b, c]) == Accumulated(V, I)
  {
    var J := I + [a, b, c];
    var t := |I| / 3;
    assert Iterations(|I|) == t && Iterations(|J|) == t + 1;
    assert J[..3 * t] == I[..3 * t];
    AccumulateAgree(V, J, I, t);
    assert J[3 * t] == a && J[3 * t + 1] == b && J[3 * t + 2] == c;
  }

  /** A vertex that no index names keeps the zero normal. */
  lemma {:induction false} UnreferencedVertex(V: seq<Vec3>, I: seq<int>, t: nat, v: int)
    requires 0 <= v < |V| && v !in I
    ensures Accumulate(V, I, t)[v] == Origin
    decreases t
  {
    if t > 0 {
      UnreferencedVertex(V, I, t - 1, v);
      var k := 3 * (t - 1);
      if k + 2 < |I| {
        assert I[k] != v && I[k + 1] != v && I[k + 2] != v;
      }
    }
  }

  /** generateNormals gives one normal per vertex, and an unused vertex the
      zero vector. */
  lemma GeneratedNormalsShape(mesh: ModelMesh)
    requires |mesh.vertices| > 0
    ensures |WithGeneratedNormals(mesh).normals| == |mesh.vertices|
    ensures forall v :: 0 <= v < |mesh.vertices| && v !in mesh.indices ==>
      WithGeneratedNormals(mesh).normals[v] == Origin
    ensures WithGeneratedNormals(mesh).(normals := mesh.normals) == mesh
  {
    forall v | 0 <= v < |mesh.vertices| && v !in mesh.indices
      ensures WithGeneratedNormals(mesh).normals[v] == Origin
    {
      UnreferencedVertex(mesh.vertices, mesh.indices, Iterations(|mesh.indices|), v);
    }
  }

  // ---------------------------------------------------------------------------
  // Per-vertex maps: flipping, centring, scaling

  /** Every element of vs mapped through f, in order. */
  function MapV(vs: seq<Vec3>, f: Vec3 -> Vec3): (r: seq<Vec3>)
    ensures |r| == |vs|
    ensures forall i :: 0 <= i < |vs| ==> r[i] == f(vs[i])
  {
    if |vs| == 0 then [] else MapV(vs[..|vs| - 1], f) + [f(vs[|vs| - 1])]
  }

  /** `normal *= -1` for every normal. */
  function Negated(ns: seq<Vec3>): seq<Vec3> { MapV(ns, n => Scale(n, -1.0)) }

  /** `vertex -= center` for every vertex. */
  function Translated(vs: seq<Vec3>, center: Vec3): seq<Vec3> { MapV(vs, v => Sub(v, center)) }

  /** `vertex *= scale` for every vertex. */
  function Scaled(vs: seq<Vec3>, scale: real): seq<Vec3> { MapV(vs, v => Scale(v, scale)) }

  /** The loop of `for (auto& normal : normals) normal *= -1` over the mesh's
      normal buffer. */
  method FlipNormals(normals: array<Vec3>)
    modifies normals
    ensures normals[..] == Negated(old(normals[..]))
  {
    var k := 0;
    while k < normals.Length
      invariant 0 <= k <= normals.Length
      invariant forall m :: 0 <= m < k ==> normals[m] == Scale(old(normals[m]), -1.0)
      invariant forall m :: k <= m < normals.Length ==> normals[m] == old(normals[m])
    {
      normals[k] := Scale(normals[k], -1.0);
      k := k + 1;
    }
  }

  /** Flipping twice restores the normals. */
  lemma NegatedTwice(ns: seq<Vec3>)
    ensures Negated(Negated(ns)) == ns
  {
    var once := Negated(ns);
    var twice := Negated(once);
    forall i | 0 <= i < |ns|
      ensures twice[i] == ns[i]
    {
      assert once[i] == Scale(ns[i], -1.0);
    }
  }

  /** centerAndNormalizeMesh on the vertex positions: nothing for no vertices;
      otherwise subtract the bounding box centre when centring, then, when
      normalising and the largest extent is positive, scale so that the largest
      extent becomes targetSize. Centre and extent come from the box before
      either step. */
  function CenterAndNormalized(vs: seq<Vec3>, opts: LoadOptions): seq<Vec3>
  {
    if |vs| == 0 then vs
    else
      var (lo, hi) := BoundingBox(vs);
      var center := Scale(Add(lo, hi), 0.5);
      var maxDimension := Max3(Sub(hi, lo));
      var centered := if opts.centerModel then Translated(vs, center) else vs;
      if opts.normalizeSize && maxDimension > 0.0 then Scaled(centered, opts.targetSize / maxDimension)
      else centered
  }

  /** Subtract `delta` from vertices[0 .. Length) in place. */
  method TranslateVertices(vertices: array<Vec3>, delta: Vec3)
    modifies vertices
    ensures vertices[..] == Translated(old(vertices[..]), delta)
  {
    var k := 0;
    while k < vertices.Length
      invariant 0 <= k <= vertices.Length
      invariant forall m :: 0 <= m < k ==> vertices[m] == Sub(old(vertices[m]), delta)
      invariant forall m :: k <= m < vertices.Length ==> vertices[m] == old(vertices[m])
    {
      vertices[k] := Sub(vertices[k], delta);
      k := k + 1;
    }
  }

  /** Multiply vertices[0 .. Length) by `scale` in place. */
  method ScaleVertices(vertices: array<Vec3>, scale: real)
    modifies vertices
    ensures vertices[..] == Scaled(old(vertices[..]), scale)
  {
    var k := 0;
    while k < vertices.Length
      invariant 0 <= k <= vertices.Length
      invariant forall m :: 0 <= m < k ==> vertices[m] == Scale(old(vertices[m]), scale)
      invariant forall m :: k <= m < vertices.Length ==> vertices[m] == old(vertices[m])
    {
      vertices[k] := Scale(vertices[k], scale);
      k := k + 1;
    }
  }

  /** centerAndNormalizeMesh over the mesh's vertex buffer. */
  method CenterAndNormalizeMesh(vertices: array<Vec3>, opts: LoadOptions)
    modifies vertices
    ensures vertices[..] == CenterAndNormalized(old(vertices[..]), opts)
  {
    if vertices.Length == 0 {
      return;
    }
    var min, max := CalculateBoundingBox(vertices[..]);
    var center := Scale(Add(min, max), 0.5);
    var size := Sub(max, min);
    var maxDimension := Max3(size);
    if opts.centerModel {
      TranslateVertices(vertices, center);
    }
    if opts.normalizeSize && maxDimension > 0.0 {
      var scale := opts.targetSize / maxDimension;
      ScaleVertices(vertices, scale);
    }
  }

  /** Scanning translated vertices gives the translated bounds. */
  lemma {:induction false} ScanTranslated(vs: seq<Vec3>, c: Vec3, k: nat)
    requires 0 < |vs| && k <= |vs|
    ensures Scan(Translated(vs, c), k) == (Sub(Scan(vs, k).0, c), Sub(Scan(vs, k).1, c))
    decreases k
  {
    var ts := Translated(vs, c);
    assert ts[0] == Sub(vs[0], c);
    if k > 0 {
      ScanTranslated(vs, c, k - 1);
      var b := Scan(vs, k - 1);
      var v := vs[k - 1];
      assert ts[k - 1] == Sub(v, c);
      assert Scan(ts, k) == (MinV(Sub(b.0, c), Sub(v, c)), MaxV(Sub(b.1, c), Sub(v, c)));
      BoundsTranslated(b.0, b.1, v, c);
    }
  }

  lemma BoundsTranslated(lo: Vec3, hi: Vec3, v: Vec3, c: Vec3)
    ensures MinV(Sub(lo, c), Sub(v, c)) == Sub(MinV(lo, v), c)
    ensures MaxV(Sub(hi, c), Sub(v, c)) == Sub(MaxV(hi, v), c)
  {
  }

  /** Multiplying by a positive factor keeps the order of two reals. */
  lemma ScaleOrder(a: real, b: real, s: real)
    requires s > 0.0
    ensures b < a <==> b * s < a * s
  {
    if b < a {
      assert (a - b) * s > 0.0;
    } else {
      assert (b - a) * s >= 0.0;
    }
  }

  lemma MinScaled(a: real, b: real, s: real)
    requires s > 0.0
    ensures Min(a * s, b * s) == Min(a, b) * s
  {
    ScaleOrder(a, b, s);
  }

  lemma MaxScaled(a: real, b: real, s: real)
    requires s > 0.0
    ensures Max(a * s, b * s) == Max(a, b) * s
  {
    ScaleOrder(b, a, s);
  }

  lemma MinVScaled(a: Vec3, b: Vec3, s: real)
    requires s > 0.0
    ensures MinV(Scale(a, s), Scale(b, s)) == Scale(MinV(a, b), s)
  {
    MinScaled(a.x, b.x, s);
    MinScaled(a.y, b.y, s);
    MinScaled(a.z, b.z, s);
  }

  lemma MaxVScaled(a: Vec3, b: Vec3, s: real)
    requires s > 0.0
    ensures MaxV(Scale(a, s), Scale(b, s)) == Scale(MaxV(a, b), s)
  {
    MaxScaled(a.x, b.x, s);
    MaxScaled(a.y, b.y, s);
    MaxScaled(a.z, b.z, s);
  }

  /** Scanning vertices scaled by a positive factor gives the scaled bounds. */
  lemma {:induction false} ScanScaled(vs: seq<Vec3>, s: real, k: nat)
    requires 0 < |vs| && k <= |vs| && s > 0.0
    ensures Scan(Scaled(vs, s), k) == (Scale(Scan(vs, k).0, s), Scale(Scan(vs, k).1, s))
    decreases k
  {
    var ss := Scaled(vs, s);
    assert ss[0] == Scale(vs[0], s);
    if k > 0 {
      ScanScaled(vs, s, k - 1);
      var b := Scan(vs, k - 1);
      var v := vs[k - 1];
      assert ss[k - 1] == Scale(v, s);
      assert Scan(ss, k) == (MinV(Scale(b.0, s), Scale(v, s)), MaxV(Scale(b.1, s), Scale(v, s)));
      MinVScaled(b.0, v, s);
      MaxVScaled(b.1, v, s);
    }
  }

  /** One component of the centred, scaled box: its midpoint is 0 and its
      width is the old width times s. */
  lemma CenteredComponent(l: real, h: real, s: real)
    ensures var c := (l + h) * 0.5;
      ((l - c) * s + (h - c) * s) * 0.5 == 0.0 && (h - c) * s - (l - c) * s == (h - l) * s
  {
    var c := (l + h) * 0.5;
    assert l - c == (l - h) * 0.5 && h - c == (h - l) * 0.5;
    assert (l - c) * s + (h - c) * s == (l - c + (h - c)) * s;
    assert (h - c) * s - (l - c) * s == (h - c - (l - c)) * s;
  }

  /** A box moved by its own centre and scaled by s: centred on the origin,
      with s times the width. */
  lemma CenteredBox(lo: Vec3, hi: Vec3, s: real)
    ensures var c := Scale(Add(lo, hi), 0.5);
      var lo2, hi2 := Scale(Sub(lo, c), s), Scale(Sub(hi, c), s);
      Scale(Add(lo2, hi2), 0.5) == Origin && Sub(hi2, lo2) == Scale(Sub(hi, lo), s)
  {
    CenteredComponent(lo.x, hi.x, s);
    CenteredComponent(lo.y, hi.y, s);
    CenteredComponent(lo.z, hi.z, s);
  }

  lemma Max3Scaled(e: Vec3, s: real)
    requires s > 0.0
    ensures Max3(Scale(e, s)) == Max3(e) * s
  {
    MaxScaled(e.x, e.y, s);
    MaxScaled(Max(e.x, e.y), e.z, s);
  }

  /** The box of the centred, scaled vertices. */
  lemma CenteredScaledBox(vs: seq<Vec3>, s: real)
    requires |vs| > 0 && s > 0.0
    ensures var (lo, hi) := BoundingBox(vs);
      var c := Scale(Add(lo, hi), 0.5);
      BoundingBox(Scaled(Translated(vs, c), s)) == (Scale(Sub(lo, c), s), Scale(Sub(hi, c), s))
  {
    var (lo, hi) := BoundingBox(vs);
    var c := Scale(Add(lo, hi), 0.5);
    ScanTranslated(vs, c, |vs|);
    ScanScaled(Translated(vs, c), s, |vs|);
  }

  /** With centring and normalisation both on and a positive target, a mesh
      whose largest extent is positive ends up with its bounding box centred
      on the origin and a largest extent of exactly targetSize. */
  /** The factor targetSize / maxDimension is positive and takes the largest
      extent to targetSize. */
  lemma TargetScale(t: real, m: real) returns (s: real)
    requires t > 0.0 && m > 0.0
    ensures s == t / m && s > 0.0 && m * s == t
  {
    s := t / m;
  }

  lemma CenteredAndNormalized(vs: seq<Vec3>, opts: LoadOptions)
    requires |vs| > 0 && opts.centerModel && opts.normalizeSize && opts.targetSize > 0.0
    requires Max3(Sub(BoundingBox(vs).1, BoundingBox(vs).0)) > 0.0
    ensures var (lo, hi) := BoundingBox(CenterAndNormalized(vs, opts));
      Scale(Add(lo, hi), 0.5) == Origin && Max3(Sub(hi, lo)) == opts.targetSize
  {
    var (lo, hi) := BoundingBox(vs);
    var c := Scale(Add(lo, hi), 0.5);
    var s := TargetScale(opts.targetSize, Max3(Sub(hi, lo)));
    assert CenterAndNormalized(vs, opts) == Scaled(Translated(vs, c), s);
    CenteredScaledBox(vs, s);
    ScaledToTarget(lo, hi, s, opts.targetSize);
  }

  /** The box (lo, hi) centred and scaled by s: its midpoint is the origin,
      and its largest extent is t when s times the old one is t. */
  lemma ScaledToTarget(lo: Vec3, hi: Vec3, s: real, t: real)
    requires s > 0.0 && Max3(Sub(hi, lo)) * s == t
    ensures var c := Scale(Add(lo, hi), 0.5);
      var lo2, hi2 := Scale(Sub(lo, c), s), Scale(Sub(hi, c), s);
      Scale(Add(lo2, hi2), 0.5) == Origin && Max3(Sub(hi2, lo2)) == t
  {
    CenteredBox(lo, hi, s);
    Max3Scaled(Sub(hi, lo), s);
  }

  /** With centring on and normalisation off, the box is centred on the origin
      and keeps its extent. */
  lemma CenteredOnly(vs: seq<Vec3>, opts: LoadOptions)
    requires |vs| > 0 && opts.centerModel && !opts.normalizeSize
    ensures var (lo, hi) := BoundingBox(CenterAndNormalized(vs, opts));
      Scale(Add(lo, hi), 0.5) == Origin && Sub(hi, lo) == Sub(BoundingBox(vs).1, BoundingBox(vs).0)
  {
    var (lo, hi) := BoundingBox(vs);
    ScanTranslated(vs, Scale(Add(lo, hi), 0.5), |vs|);
  }

  // ---------------------------------------------------------------------------
  // postProcessMesh and calculateModelInfo

  /** The mesh after postProcessMesh's four steps: generate normals when asked
      and the mesh has none; flip them when asked and there are some; centre /
      normalise when either is asked; smoothing does nothing. */
  function PostProcessed(mesh: ModelMesh, opts: LoadOptions): ModelMesh
  {
    var m1 := if opts.generateNormals && |mesh.normals| == 0 then WithGeneratedNormals(mesh) else mesh;
    var m2 := if opts.flipNormals && |m1.normals| > 0 then m1.(normals := Negated(m1.normals)) else m1;
    if opts.centerModel || opts.normalizeSize then m2.(vertices := CenterAndNormalized(m2.vertices, opts))
    else m2
  }

  /** calculateModelInfo: the counts, presence flags and bounding box of a
      mesh, its centre and its largest extent. */
  function ModelInfoOf(mesh: ModelMesh): ModelInfo
  {
    var box := BoundingBox(mesh.vertices);
    ModelInfo(|mesh.vertices|, |mesh.indices|, box.0, box.1, Scale(Add(box.0, box.1), 0.5), Max3(Sub(box.1, box.0)),
      |mesh.normals| > 0, |mesh.texCoords| > 0, |mesh.colors| > 0)
  }

  /** validateMesh: a mesh is valid exactly when it has a vertex. */
  predicate ValidMesh(mesh: ModelMesh) { |mesh.vertices| > 0 }

  /** Post-processing keeps the vertex count, the indices, the colours and the
      texture coordinates; it leaves a valid mesh valid. */
  lemma PostProcessedKeeps(mesh: ModelMesh, opts: LoadOptions)
    ensures |PostProcessed(mesh, opts).vertices| == |mesh.vertices|
    ensures PostProcessed(mesh, opts).indices == mesh.indices
    ensures PostProcessed(mesh, opts).colors == mesh.colors
    ensures PostProcessed(mesh, opts).texCoords == mesh.texCoords
    ensures ValidMesh(PostProcessed(mesh, opts)) <==> ValidMesh(mesh)
  {
  }

  /** With normal generation on, a valid mesh without normals leaves
      post-processing with one normal per vertex. */
  lemma PostProcessedNormals(mesh: ModelMesh, opts: LoadOptions)
    requires opts.generateNormals && ValidMesh(mesh) && |mesh.normals| == 0
    ensures |PostProcessed(mesh, opts).normals| == |mesh.vertices|
  {
  }

  /** Under the default options normals are never flipped: existing normals
      are kept, missing ones are generated; and a mesh with a positive extent
      ends up centred with largest extent 100. */
  lemma DefaultPostProcessing(mesh: ModelMesh)
    requires ValidMesh(mesh)
    ensures PostProcessed(mesh, DefaultLoadOptions).normals ==
      if |mesh.normals| == 0 then Accumulated(mesh.vertices, mesh.indices) else mesh.normals
    ensures Max3(Sub(BoundingBox(mesh.vertices).1, BoundingBox(mesh.vertices).0)) > 0.0 ==>
      var info := ModelInfoOf(PostProcessed(mesh, DefaultLoadOptions));
      info.center == Origin && info.maxDimension == 100.0
  {
    var m := PostProcessed(mesh, DefaultLoadOptions);
    var m1 := if |mesh.normals| == 0 then WithGeneratedNormals(mesh) else mesh;
    assert m1.vertices == mesh.vertices;
    if Max3(Sub(BoundingBox(mesh.vertices).1, BoundingBox(mesh.vertices).0)) > 0.0 {
      CenteredAndNormalized(mesh.vertices, DefaultLoadOptions);
    }
  }
}
