/** The welded cube-grid generator. Each of the six faces of the cube is cut
    into R x R quads; every quad corner is looked up in the vertex pool by its
    position key, added when the key is new and reused otherwise, and each quad
    contributes two triangles (six indices) to the index buffer.

    The specification functions below describe, on values, what the generator
    computes: Lookup is one pool query, WeldPoints a run of queries, WeldFaces
    the six faces in turn and CubeBuffers the finished mesh. The CubeMesh class
    at the end does the same work step by step on its fields and is proved to
    agree with them. */
module Cube {
  import opened CommonStructs
  import opened GeometryData
  import opened Text

  // ---------------------------------------------------------------------------
  // Position keys

  /** vectorToKey: the quantised coordinates written as "x_y_z" in decimal.
      The lattice point already is the quantised triple. */
  function VectorToKey(p: Point): string
  {
    KeyText([p.x, p.y, p.z])
  }

  /** The decimal forms of the numbers, '_' between neighbours. */
  function KeyText(xs: seq<int>): string
  {
    if |xs| == 0 then "" else if |xs| == 1 then IntToString(xs[0]) else IntToString(xs[0]) + "_" + KeyText(xs[1..])
  }

  /** Reads a key back into its coordinates. */
  function ParseKey(key: string): Point
  {
    var t := Split(key, '_');
    if |t| == 3 then Point(ParseInt(t[0]), ParseInt(t[1]), ParseInt(t[2])) else Point(0, 0, 0)
  }

  lemma NoUnderscore(n: int)
    ensures '_' !in IntToString(n)
  {
    var s := IntToString(n);
    IntToStringChars(n);
    forall i | 0 <= i < |s| ensures s[i] != '_' {
      assert IsDigit(s[i]) || s[i] == '-';
    }
  }

  /** The key of a point determines the point. */
  lemma ParseKeyOfKey(p: Point)
    ensures ParseKey(VectorToKey(p)) == p
  {
    var a, b, c := IntToString(p.x), IntToString(p.y), IntToString(p.z);
    NoUnderscore(p.x);
    NoUnderscore(p.y);
    NoUnderscore(p.z);
    var ts := [a, b, c];
    assert ts[1..] == [b, c] && ts[1..][1..] == [c];
    assert Join([c], '_') == c;
    assert Join([b, c], '_') == b + "_" + c;
    assert Join(ts, '_') == a + "_" + (b + "_" + c);
    var xs := [p.x, p.y, p.z];
    assert xs[1..] == [p.y, p.z] && xs[1..][1..] == [p.z];
    assert KeyText([p.z]) == c;
    assert KeyText([p.y, p.z]) == b + "_" + c;
    assert VectorToKey(p) == Join(ts, '_');
    SplitJoin(ts, '_');
    ParseIntOfIntToString(p.x);
    ParseIntOfIntToString(p.y);
    ParseIntOfIntToString(p.z);
  }

  /** Two positions share a key exactly when they are the same point. */
  lemma KeyInjective(p: Point, q: Point)
    ensures VectorToKey(p) == VectorToKey(q) <==> p == q
  {
    ParseKeyOfKey(p);
    ParseKeyOfKey(q);
  }

  // ---------------------------------------------------------------------------
  // The pool invariant and one pool query

  /** The map a pool of distinct positions induces: each position mapped to
      its slot. */
  function KeyMap(pool: seq<Point>): map<Point, int>
    decreases |pool|
  {
    if |pool| == 0 then map[]
    else KeyMap(pool[..|pool| - 1])[pool[|pool| - 1] := |pool| - 1]
  }

  ghost predicate Distinct(pool: seq<Point>)
  {
    forall a, b :: 0 <= a < b < |pool| ==> pool[a] != pool[b]
  }

  /** A position is in the induced map exactly when it is pooled, and then it
      names a slot holding that position. */
  lemma {:induction false} KeyMapAt(pool: seq<Point>, p: Point)
    ensures p in KeyMap(pool) <==> p in pool
    ensures p in KeyMap(pool) ==> 0 <= KeyMap(pool)[p] < |pool| && pool[KeyMap(pool)[p]] == p
    decreases |pool|
  {
    if |pool| > 0 {
      var front := pool[..|pool| - 1];
      var q := pool[|pool| - 1];
      assert pool == front + [q];
      KeyMapAt(front, p);
      if p != q {
        if p in front {
          var i :| 0 <= i < |front| && front[i] == p;
          assert pool[i] == p;
        }
        if p in KeyMap(front) {
          assert pool[KeyMap(front)[p]] == front[KeyMap(front)[p]];
        }
      }
    }
  }

  /** The parallel arrays are as long as the counter, the original positions
      are the pool, no position is pooled twice, and the map sends every pooled
      position to its slot and holds no other key. */
  ghost predicate PoolValid(s: PoolState)
  {
    && s.vertexIndexCounter == |s.vertexPool|
    && |s.vertexNormals| == |s.vertexPool|
    && s.originalVertices == s.vertexPool
    && Distinct(s.vertexPool)
    && s.vertexMap == KeyMap(s.vertexPool)
  }

  lemma EmptyPoolValid()
    ensures PoolValid(EmptyPool)
  {
  }

  /** Under the invariant the map takes every pooled position to the slot
      holding it. */
  lemma PoolSlots(s: PoolState, i: int)
    requires PoolValid(s) && 0 <= i < |s.vertexPool|
    ensures s.vertexPool[i] in s.vertexMap
    ensures s.vertexMap[s.vertexPool[i]] == i
  {
    KeyMapAt(s.vertexPool, s.vertexPool[i]);
  }

  /** getVertexIndexWithNormal on values: the new pool and the returned index.
      A known key returns its stored index and folds the normal into that
      vertex's normal; a new key is given the counter's value and appended. */
  function Lookup(s: PoolState, pos: Point, n: Normal): (PoolState, int)
  {
    if pos in s.vertexMap then
      var e := s.vertexMap[pos];
      if 0 <= e < |s.vertexNormals| then
        (s.(vertexNormals := s.vertexNormals[e := Renormalized(s.vertexNormals[e], n)]), e)
      else (s, e)
    else
      (PoolState(s.vertexMap[pos := s.vertexIndexCounter], s.vertexPool + [pos], s.originalVertices + [pos],
                 s.vertexNormals + [n], s.vertexIndexCounter + 1),
       s.vertexIndexCounter)
  }

  /** A query keeps the invariant, returns the slot holding pos, and appends pos
      exactly when it was not pooled yet. */
  lemma LookupFacts(s: PoolState, pos: Point, n: Normal)
    requires PoolValid(s)
    ensures PoolValid(Lookup(s, pos, n).0)
    ensures 0 <= Lookup(s, pos, n).1 < |Lookup(s, pos, n).0.vertexPool|
    ensures Lookup(s, pos, n).0.vertexPool[Lookup(s, pos, n).1] == pos
    ensures pos in s.vertexPool ==> Lookup(s, pos, n).0.vertexPool == s.vertexPool
    ensures pos !in s.vertexPool ==> Lookup(s, pos, n).0.vertexPool == s.vertexPool + [pos]
  {
    KeyMapAt(s.vertexPool, pos);
    if pos !in s.vertexPool {
      var pool := s.vertexPool + [pos];
      assert pool[..|pool| - 1] == s.vertexPool;
      assert KeyMap(pool) == s.vertexMap[pos := |s.vertexPool|];
      forall a, b | 0 <= a < b < |pool| ensures pool[a] != pool[b] {
        if b == |s.vertexPool| {
          assert pool[a] == s.vertexPool[a];
        } else {
          assert pool[a] == s.vertexPool[a] && pool[b] == s.vertexPool[b];
        }
      }
    }
  }

  // ---------------------------------------------------------------------------
  // Runs of queries and their triangles

  /** Queries the points of ps in order, all with normal n; gives the final pool
      and the index returned for each point. */
  function WeldPoints(s: PoolState, ps: seq<Point>, n: Normal): (PoolState, seq<int>)
    decreases |ps|
  {
    if |ps| == 0 then (s, [])
    else
      var w := WeldPoints(s, ps[..|ps| - 1], n);
      var l := Lookup(w.0, ps[|ps| - 1], n);
      (l.0, w.1 + [l.1])
  }

  /** Whatever the state, a query leaves the pool as it was or appends pos. */
  lemma LookupGrows(s: PoolState, pos: Point, n: Normal)
    ensures Lookup(s, pos, n).0.vertexPool == s.vertexPool
         || Lookup(s, pos, n).0.vertexPool == s.vertexPool + [pos]
  {
  }

  /** Whatever the state, a run of queries only appends to the pool, and only
      points it queried. */
  lemma {:induction false} WeldPointsGrows(s: PoolState, ps: seq<Point>, n: Normal)
    ensures s.vertexPool <= WeldPoints(s, ps, n).0.vertexPool
    ensures forall k :: |s.vertexPool| <= k < |WeldPoints(s, ps, n).0.vertexPool| ==>
      WeldPoints(s, ps, n).0.vertexPool[k] in ps
    decreases |ps|
  {
    if |ps| > 0 {
      var front := ps[..|ps| - 1];
      var p := ps[|ps| - 1];
      WeldPointsGrows(s, front, n);
      var w := WeldPoints(s, front, n);
      LookupGrows(w.0, p, n);
      var l := Lookup(w.0, p, n);
      assert WeldPoints(s, ps, n) == (l.0, w.1 + [l.1]);
      assert ps == front + [p];
      NewSnoc(|s.vertexPool|, w.0.vertexPool, l.0.vertexPool, front, p);
    }
  }

  /** A run of queries keeps the invariant and returns one index per point. */
  lemma {:induction false} WeldPointsFacts(s: PoolState, ps: seq<Point>, n: Normal)
    requires PoolValid(s)
    ensures PoolValid(WeldPoints(s, ps, n).0)
    ensures |WeldPoints(s, ps, n).1| == |ps|
    decreases |ps|
  {
    if |ps| > 0 {
      var front := ps[..|ps| - 1];
      var p := ps[|ps| - 1];
      WeldPointsFacts(s, front, n);
      var w := WeldPoints(s, front, n);
      LookupFacts(w.0, p, n);
      var l := Lookup(w.0, p, n);
      assert WeldPoints(s, ps, n) == (l.0, w.1 + [l.1]);
    }
  }

  /** Each query of a run returns the slot that holds the queried point. */
  lemma {:induction false} WeldPointsSlots(s: PoolState, ps: seq<Point>, n: Normal)
    requires PoolValid(s)
    ensures Denotes(WeldPoints(s, ps, n).1, ps, WeldPoints(s, ps, n).0.vertexPool)
    decreases |ps|
  {
    if |ps| > 0 {
      var front := ps[..|ps| - 1];
      var p := ps[|ps| - 1];
      var w := WeldPoints(s, front, n);
      var l := Lookup(w.0, p, n);
      assert WeldPoints(s, ps, n) == (l.0, w.1 + [l.1]);
      assert ps == front + [p];
      assert Denotes(w.1 + [l.1], front + [p], l.0.vertexPool) by {
        WeldPointsSlots(s, front, n);
        WeldPointsFacts(s, front, n);
        LookupSlots(w.0, w.1, front, p, n);
      }
    }
  }

  /** One more query extends what the answers denote by the queried point. */
  lemma LookupSlots(s: PoolState, r: seq<int>, ps: seq<Point>, p: Point, n: Normal)
    requires PoolValid(s) && Denotes(r, ps, s.vertexPool)
    ensures Denotes(r + [Lookup(s, p, n).1], ps + [p], Lookup(s, p, n).0.vertexPool)
  {
    LookupFacts(s, p, n);
    LookupGrows(s, p, n);
    DenotesSnoc(s.vertexPool, Lookup(s, p, n).0.vertexPool, r, ps, p, Lookup(s, p, n).1);
  }

  /** r, read through pool, is the list of points ps. */
  ghost predicate Denotes(r: seq<int>, ps: seq<Point>, pool: seq<Point>)
  {
    |r| == |ps| && forall m :: 0 <= m < |r| ==> 0 <= r[m] < |pool| && pool[r[m]] == ps[m]
  }

  lemma DenotesSnoc(pool0: seq<Point>, pool1: seq<Point>, r: seq<int>, ps: seq<Point>, p: Point, i: int)
    requires pool0 <= pool1 && Denotes(r, ps, pool0)
    requires 0 <= i < |pool1| && pool1[i] == p
    ensures Denotes(r + [i], ps + [p], pool1)
  {
    forall m | 0 <= m < |r| + 1 ensures 0 <= (r + [i])[m] < |pool1| && pool1[(r + [i])[m]] == (ps + [p])[m] {
      if m < |r| {
        assert (r + [i])[m] == r[m] && (ps + [p])[m] == ps[m];
      }
    }
  }

  lemma DenotesConcat(pool0: seq<Point>, pool1: seq<Point>, r0: seq<int>, ps0: seq<Point>, r1: seq<int>, ps1: seq<Point>)
    requires pool0 <= pool1 && Denotes(r0, ps0, pool0) && Denotes(r1, ps1, pool1)
    ensures Denotes(r0 + r1, ps0 + ps1, pool1)
  {
    var r, ps := r0 + r1, ps0 + ps1;
    forall m | 0 <= m < |r| ensures 0 <= r[m] < |pool1| && pool1[r[m]] == ps[m] {
      if m < |r0| {
        assert r[m] == r0[m] && ps[m] == ps0[m];
      } else {
        assert r[m] == r1[m - |r0|] && ps[m] == ps1[m - |r0|];
      }
    }
  }

  lemma NewSnoc(base: nat, pool0: seq<Point>, pool1: seq<Point>, ps: seq<Point>, p: Point)
    requires pool1 == pool0 || pool1 == pool0 + [p]
    requires forall k :: base <= k < |pool0| ==> pool0[k] in ps
    ensures forall k :: base <= k < |pool1| ==> pool1[k] in ps + [p]
  {
    forall k | base <= k < |pool1| ensures pool1[k] in ps + [p] {
      if k < |pool0| {
        assert pool1[k] == pool0[k];
        var i :| 0 <= i < |ps| && ps[i] == pool0[k];
        assert (ps + [p])[i] == ps[i];
      } else {
        assert pool1[k] == p && (ps + [p])[|ps|] == p;
      }
    }
  }

  lemma NewConcat(base: nat, pool0: seq<Point>, pool1: seq<Point>, soup: seq<Point>, cs: seq<Point>, q: seq<Point>)
    requires pool0 <= pool1
    requires forall k :: base <= k < |pool0| ==> pool0[k] in soup
    requires forall k :: |pool0| <= k < |pool1| ==> pool1[k] in cs
    requires forall m :: 0 <= m < |cs| ==> cs[m] in q
    ensures forall k :: base <= k < |pool1| ==> pool1[k] in soup + q
  {
    forall k | base <= k < |pool1| ensures pool1[k] in soup + q {
      if k < |pool0| {
        assert pool1[k] == pool0[k];
        var i :| 0 <= i < |soup| && soup[i] == pool0[k];
        assert (soup + q)[i] == soup[i];
      } else {
        var i :| 0 <= i < |cs| && cs[i] == pool1[k];
        assert cs[i] in q;
        var j :| 0 <= j < |q| && q[j] == cs[i];
        assert (soup + q)[|soup| + j] == q[j];
      }
    }
  }

  /** Two triangles per quad: the corners c0, c1, c2, c3 of every group of four
      become (c0, c1, c2) and (c1, c3, c2). */
  function Quads<T>(c: seq<T>): seq<T>
    decreases |c|
  {
    if |c| < 4 then []
    else
      var k := |c| - 4;
      Quads(c[..k]) + [c[k], c[k + 1], c[k + 2], c[k + 1], c[k + 3], c[k + 2]]
  }

  lemma QuadsSnoc<T>(c: seq<T>, a: T, b: T, d: T, e: T)
    ensures Quads(c + [a, b, d, e]) == Quads(c) + [a, b, d, b, e, d]
  {
    var c' := c + [a, b, d, e];
    assert c'[..|c|] == c;
  }

  lemma {:induction false} QuadsLength<T>(c: seq<T>, cells: nat)
    requires |c| == 4 * cells
    ensures |Quads(c)| == 6 * cells
    decreases cells
  {
    if cells > 0 {
      QuadsLength(c[..|c| - 4], cells - 1);
    }
  }

  /** Every element of the triangles is one of the corners. */
  lemma {:induction false} QuadsFromCorners<T>(c: seq<T>)
    ensures forall m :: 0 <= m < |Quads(c)| ==> Quads(c)[m] in c
    decreases |c|
  {
    if |c| >= 4 {
      var k := |c| - 4;
      var front := c[..k];
      QuadsFromCorners(front);
      var q := Quads(c);
      var tail := [c[k], c[k + 1], c[k + 2], c[k + 1], c[k + 3], c[k + 2]];
      assert q == Quads(front) + tail;
      forall m | 0 <= m < |q| ensures q[m] in c {
        if m < |Quads(front)| {
          assert q[m] == Quads(front)[m];
          var i :| 0 <= i < |front| && front[i] == q[m];
          assert c[i] == front[i];
        } else {
          assert q[m] in tail;
        }
      }
    }
  }

  /** Every corner is used by a triangle when the corners come in fours. */
  lemma {:induction false} QuadsUseCorners<T>(c: seq<T>, cells: nat)
    requires |c| == 4 * cells
    ensures forall m :: 0 <= m < |c| ==> c[m] in Quads(c)
    decreases cells
  {
    if cells > 0 {
      var k := |c| - 4;
      var front := c[..k];
      QuadsUseCorners(front, cells - 1);
      var q := Quads(c);
      var tail := [c[k], c[k + 1], c[k + 2], c[k + 1], c[k + 3], c[k + 2]];
      assert q == Quads(front) + tail;
      forall m | 0 <= m < |c| ensures c[m] in q {
        if m < k {
          assert c[m] == front[m];
          var i :| 0 <= i < |Quads(front)| && Quads(front)[i] == c[m];
          assert q[i] == Quads(front)[i];
        } else {
          var t := [0, 1, 2, 4][m - k];
          assert c[m] == tail[t] && q[|Quads(front)| + t] == tail[t];
        }
      }
    }
  }

  /** Expanding indices into triangles commutes with looking them up in the
      pool: the index triangles denote exactly the corner triangles. */
  lemma {:induction false} QuadsThroughPool(r: seq<int>, ps: seq<Point>, pool: seq<Point>)
    requires Denotes(r, ps, pool)
    ensures Denotes(Quads(r), Quads(ps), pool)
    decreases |r|
  {
    if |r| >= 4 {
      var k := |r| - 4;
      assert Denotes(r[..k], ps[..k], pool) by {
        forall m | 0 <= m < k ensures 0 <= r[..k][m] < |pool| && pool[r[..k][m]] == ps[..k][m] {
          assert r[..k][m] == r[m] && ps[..k][m] == ps[m];
        }
      }
      QuadsThroughPool(r[..k], ps[..k], pool);
      var tr := [r[k], r[k + 1], r[k + 2], r[k + 1], r[k + 3], r[k + 2]];
      var tp := [ps[k], ps[k + 1], ps[k + 2], ps[k + 1], ps[k + 3], ps[k + 2]];
      assert Quads(r) == Quads(r[..k]) + tr;
      assert Quads(ps) == Quads(ps[..k]) + tp;
      assert Denotes(tr, tp, pool);
      DenotesConcat(pool, pool, Quads(r[..k]), Quads(ps[..k]), tr, tp);
    }
  }

  // ---------------------------------------------------------------------------
  // The six faces

  /** FaceData: the first corner, the two edge directions and the outward
      normal of one face, lattice coordinates. */
  datatype Face = Face(origin: Point, right: Dir, down: Dir, normal: Point, name: string)

  /** The edge directions the faces use: the six unit axis vectors. */
  datatype Dir = PosX | NegX | PosY | NegY | PosZ | NegZ

  /** p + dir * k. */
  function Move(p: Point, dir: Dir, k: int): (q: Point)
  {
    match dir
    case PosX => Point(p.x + k, p.y, p.z)
    case NegX => Point(p.x - k, p.y, p.z)
    case PosY => Point(p.x, p.y + k, p.z)
    case NegY => Point(p.x, p.y - k, p.z)
    case PosZ => Point(p.x, p.y, p.z + k)
    case NegZ => Point(p.x, p.y, p.z - k)
  }

  /** The six faces of createCubeMesh; with resolution r the half size is r. */
  function Faces(r: int): seq<Face>
  {
    [ Face(Point(-r, -r, r), PosX, PosY, Point(0, 0, 1), "Front"),
      Face(Point(r, -r, -r), NegX, PosY, Point(0, 0, -1), "Back"),
      Face(Point(-r, r, r), PosX, NegZ, Point(0, 1, 0), "Top"),
      Face(Point(-r, -r, -r), PosX, PosZ, Point(0, -1, 0), "Bottom"),
      Face(Point(-r, -r, -r), PosY, PosZ, Point(-1, 0, 0), "Left"),
      Face(Point(r, -r, r), PosY, NegZ, Point(1, 0, 0), "Right") ]
  }

  /** The number of quads along a face edge: the loops `j < gridResolution`
      run no iteration when the resolution is not positive. */
  function Cells(res: int): nat { if res > 0 then res else 0 }

  /** origin + right * i * step + down * j * step, with step 2. */
  function CornerAt(o: Point, r: Dir, d: Dir, i: int, j: int): Point
  {
    Move(Move(o, r, 2 * i), d, 2 * j)
  }

  /** The grid of a face: corner (i, j) as a function of i and j. */
  function Grid(o: Point, r: Dir, d: Dir): (int, int) -> Point
  {
    (i, j) => CornerAt(o, r, d, i, j)
  }

  /** The four corners of quad (i, j) of grid g, in query order v00, v10, v01, v11. */
  function CellCorners(g: (int, int) -> Point, i: int, j: int): seq<Point>
  {
    [g(i, j), g(i + 1, j), g(i, j + 1), g(i + 1, j + 1)]
  }

  /** The corners queried for the first i quads of row j. */
  function RowCorners(g: (int, int) -> Point, j: int, i: nat): (cs: seq<Point>)
    ensures |cs| == 4 * i
  {
    if i == 0 then [] else RowCorners(g, j, i - 1) + CellCorners(g, i - 1, j)
  }

  /** The corners queried for the first j rows of n quads each. */
  function GridCorners(g: (int, int) -> Point, n: nat, j: nat): seq<Point>
  {
    if j == 0 then [] else GridCorners(g, n, j - 1) + RowCorners(g, j - 1, n)
  }

  lemma MulStep(x: int, c: int)
    ensures x * c == (x - 1) * c + c
  {
  }

  /** Row j + 1 of n quads starts 4 n slots after row j and within the grid. */
  lemma RowBound(n: nat, j: nat)
    requires j < n
    ensures 4 * (n * j) + 4 * n == 4 * (n * (j + 1)) <= 4 * (n * n)
  {
    MulStep(j + 1, n);
    assert n * (j + 1) == (j + 1) * n && n * j == j * n;
    assert (j + 1) * n <= n * n;
  }

  lemma {:induction false} GridLength(g: (int, int) -> Point, n: nat, j: nat)
    ensures |GridCorners(g, n, j)| == 4 * (n * j)
    decreases j
  {
    if j > 0 {
      GridLength(g, n, j - 1);
      MulStep(j, n);
      assert n * j == j * n && n * (j - 1) == (j - 1) * n;
    }
  }

  function FaceCorners(f: Face, n: nat): seq<Point>
  {
    GridCorners(Grid(f.origin, f.right, f.down), n, n)
  }

  /** The six faces processed in turn: the final pool and the index buffer. */
  function WeldFaces(s: PoolState, fs: seq<Face>, n: nat): (PoolState, seq<int>)
    decreases |fs|
  {
    if |fs| == 0 then (s, [])
    else
      var w := WeldFaces(s, fs[..|fs| - 1], n);
      var f := fs[|fs| - 1];
      var v := WeldPoints(w.0, FaceCorners(f, n), Axis(f.normal));
      (v.0, w.1 + Quads(v.1))
  }

  /** The triangle corners of the faces before welding, in emission order. */
  function Soup(fs: seq<Face>, n: nat): seq<Point>
    decreases |fs|
  {
    if |fs| == 0 then [] else Soup(fs[..|fs| - 1], n) + Quads(FaceCorners(fs[|fs| - 1], n))
  }

  lemma {:induction false} SoupLength(fs: seq<Face>, n: nat, cells: nat)
    requires cells == n * n
    ensures |Soup(fs, n)| == |fs| * (6 * cells)
    decreases |fs|
  {
    if |fs| > 0 {
      var front := fs[..|fs| - 1];
      SoupLength(front, n, cells);
      var f := fs[|fs| - 1];
      var cs := FaceCorners(f, n);
      GridLength(Grid(f.origin, f.right, f.down), n, n);
      QuadsLength(cs, cells);
      assert Soup(fs, n) == Soup(front, n) + Quads(cs);
      MulStep(|fs|, 6 * cells);
    }
  }

  /** Whatever the state, welding faces only appends to the pool, and only
      triangle corners; with no cells nothing changes. */
  lemma {:induction false} WeldFacesGrows(s: PoolState, fs: seq<Face>, n: nat)
    ensures s.vertexPool <= WeldFaces(s, fs, n).0.vertexPool
    ensures forall k :: |s.vertexPool| <= k < |WeldFaces(s, fs, n).0.vertexPool| ==>
      WeldFaces(s, fs, n).0.vertexPool[k] in Soup(fs, n)
    ensures n == 0 ==> WeldFaces(s, fs, n).0 == s
    decreases |fs|
  {
    if |fs| > 0 {
      var front := fs[..|fs| - 1];
      var f := fs[|fs| - 1];
      WeldFacesGrows(s, front, n);
      var w := WeldFaces(s, front, n);
      var cs := FaceCorners(f, n);
      WeldPointsGrows(w.0, cs, Axis(f.normal));
      GridLength(Grid(f.origin, f.right, f.down), n, n);
      QuadsUseCorners(cs, n * n);
      var v := WeldPoints(w.0, cs, Axis(f.normal));
      assert WeldFaces(s, fs, n) == (v.0, w.1 + Quads(v.1));
      assert Soup(fs, n) == Soup(front, n) + Quads(cs);
      NewConcat(|s.vertexPool|, w.0.vertexPool, v.0.vertexPool, Soup(front, n), cs, Quads(cs));
    }
  }

  /** Welding a list of faces keeps the pool invariant. */
  lemma {:induction false} WeldFacesFacts(s: PoolState, fs: seq<Face>, n: nat)
    requires PoolValid(s)
    ensures PoolValid(WeldFaces(s, fs, n).0)
    decreases |fs|
  {
    if |fs| > 0 {
      var front := fs[..|fs| - 1];
      var f := fs[|fs| - 1];
      WeldFacesFacts(s, front, n);
      var w := WeldFaces(s, front, n);
      WeldPointsFacts(w.0, FaceCorners(f, n), Axis(f.normal));
    }
  }

  /** The index buffer, read through the final pool, is the unwelded triangle
      list. */
  lemma {:induction false} WeldFacesSlots(s: PoolState, fs: seq<Face>, n: nat)
    requires PoolValid(s)
    ensures Denotes(WeldFaces(s, fs, n).1, Soup(fs, n), WeldFaces(s, fs, n).0.vertexPool)
    decreases |fs|
  {
    if |fs| > 0 {
      var front := fs[..|fs| - 1];
      var f := fs[|fs| - 1];
      WeldFacesSlots(s, front, n);
      WeldFacesFacts(s, front, n);
      var w := WeldFaces(s, front, n);
      var cs := FaceCorners(f, n);
      WeldPointsGrows(w.0, cs, Axis(f.normal));
      WeldPointsSlots(w.0, cs, Axis(f.normal));
      var v := WeldPoints(w.0, cs, Axis(f.normal));
      QuadsThroughPool(v.1, cs, v.0.vertexPool);
      assert WeldFaces(s, fs, n) == (v.0, w.1 + Quads(v.1));
      assert Soup(fs, n) == Soup(front, n) + Quads(cs);
      DenotesConcat(w.0.vertexPool, v.0.vertexPool, w.1, Soup(front, n), Quads(v.1), Quads(cs));
    }
  }

  // ---------------------------------------------------------------------------
  // The finished cube

  /** Every corner lies on the surface of the cube [-n, n]^3. */
  ghost predicate OnCubeSurface(p: Point, n: int)
  {
    && -n <= p.x <= n && -n <= p.y <= n && -n <= p.z <= n
    && (p.x == n || p.x == -n || p.y == n || p.y == -n || p.z == n || p.z == -n)
  }

  ghost predicate AllOnSurface(ps: seq<Point>, n: int)
  {
    forall m :: 0 <= m < |ps| ==> OnCubeSurface(ps[m], n)
  }

  lemma AllOnSurfaceConcat(a: seq<Point>, b: seq<Point>, n: int)
    requires AllOnSurface(a, n) && AllOnSurface(b, n)
    ensures AllOnSurface(a + b, n)
  {
    forall m | 0 <= m < |a + b| ensures OnCubeSurface((a + b)[m], n) {
      if m < |a| { assert (a + b)[m] == a[m]; } else { assert (a + b)[m] == b[m - |a|]; }
    }
  }

  /** Corner (i, j) of grid g lies on the surface of the cube [-n, n]^3. */
  ghost predicate SurfaceCorner(g: (int, int) -> Point, n: int, i: int, j: int)
  {
    OnCubeSurface(g(i, j), n)
  }

  /** Every corner of an n-by-n grid lies on the cube's surface. */
  ghost predicate GridOnCube(g: (int, int) -> Point, n: int)
  {
    forall i, j :: 0 <= i <= n && 0 <= j <= n ==> SurfaceCorner(g, n, i, j)
  }

  ghost predicate FaceOnSurface(f: Face, n: int)
  {
    GridOnCube(Grid(f.origin, f.right, f.down), n)
  }

  lemma CornerOnSurface(f: Face, n: nat, i: int, j: int)
    requires f in Faces(n)
    requires 0 <= i <= n && 0 <= j <= n
    ensures OnCubeSurface(CornerAt(f.origin, f.right, f.down, i, j), n)
  {
  }

  /** The six faces lie on the surface of the cube they bound. */
  lemma FacesOnSurface(n: nat)
    ensures forall k :: 0 <= k < |Faces(n)| ==> FaceOnSurface(Faces(n)[k], n)
  {
    forall k, i, j | 0 <= k < |Faces(n)| && 0 <= i <= n && 0 <= j <= n
      ensures SurfaceCorner(Grid(Faces(n)[k].origin, Faces(n)[k].right, Faces(n)[k].down), n, i, j)
    {
      var f := Faces(n)[k];
      CornerOnSurface(f, n, i, j);
      assert Grid(f.origin, f.right, f.down)(i, j) == CornerAt(f.origin, f.right, f.down, i, j);
    }
  }

  lemma CellOnSurface(g: (int, int) -> Point, n: nat, i: int, j: int)
    requires GridOnCube(g, n)
    requires 0 <= i < n && 0 <= j < n
    ensures AllOnSurface(CellCorners(g, i, j), n)
  {
    assert SurfaceCorner(g, n, i, j) && SurfaceCorner(g, n, i + 1, j);
    assert SurfaceCorner(g, n, i, j + 1) && SurfaceCorner(g, n, i + 1, j + 1);
  }

  lemma {:induction false} RowOnSurface(g: (int, int) -> Point, n: nat, j: nat, i: nat)
    requires GridOnCube(g, n) && j < n && i <= n
    ensures AllOnSurface(RowCorners(g, j, i), n)
    decreases i
  {
    if i > 0 {
      var row := RowCorners(g, j, i - 1);
      var cell := CellCorners(g, i - 1, j);
      assert RowCorners(g, j, i) == row + cell;
      RowOnSurface(g, n, j, i - 1);
      CellOnSurface(g, n, i - 1, j);
      AllOnSurfaceConcat(row, cell, n);
    }
  }

  lemma {:induction false} GridOnSurface(g: (int, int) -> Point, n: nat, j: nat)
    requires GridOnCube(g, n) && j <= n
    ensures AllOnSurface(GridCorners(g, n, j), n)
    decreases j
  {
    if j > 0 {
      GridOnSurface(g, n, j - 1);
      RowOnSurface(g, n, j - 1, n);
      AllOnSurfaceConcat(GridCorners(g, n, j - 1), RowCorners(g, j - 1, n), n);
    }
  }

  lemma {:induction false} SoupOnSurface(fs: seq<Face>, n: nat)
    requires forall k :: 0 <= k < |fs| ==> FaceOnSurface(fs[k], n)
    ensures AllOnSurface(Soup(fs, n), n)
    decreases |fs|
  {
    if |fs| > 0 {
      var front := fs[..|fs| - 1];
      var f := fs[|fs| - 1];
      assert forall k :: 0 <= k < |front| ==> front[k] == fs[k];
      SoupOnSurface(front, n);
      var cs := FaceCorners(f, n);
      GridOnSurface(Grid(f.origin, f.right, f.down), n, n);
      QuadsFromCorners(cs);
      var q := Quads(cs);
      assert AllOnSurface(q, n) by {
        forall m | 0 <= m < |q| ensures OnCubeSurface(q[m], n) {
          var i :| 0 <= i < |cs| && cs[i] == q[m];
        }
      }
      assert Soup(fs, n) == Soup(front, n) + q;
      AllOnSurfaceConcat(Soup(front, n), q, n);
    }
  }

  /** The pool and index buffer createCubeMesh builds from an empty pool. */
  function CubeBuild(res: int): (PoolState, seq<int>)
  {
    WeldFaces(EmptyPool, Faces(res), Cells(res))
  }

  /** generateVertexColor: opaque white for the wireframe, alpha 200. */
  function VertexColor(p: Point): Color { Color(255, 255, 255, 200) }

  /** The texture coordinate (u, v) = (n.x + n.y, n.z) of a vertex, where
      n = (position + cubeSize/2) / cubeSize. On the lattice the cube size
      cancels: n.x = (x + R) / (2R). */
  function TexCoord(p: Point, res: int): Vec2
  {
    if res > 0 then
      Vec2(((p.x + p.y + 2 * res) as real) / ((2 * res) as real), ((p.z + res) as real) / ((2 * res) as real))
    else Vec2(0.0, 0.0)
  }

  /** The mesh createCubeMesh leaves behind: one vertex, normal, colour and
      texture coordinate per pool entry, in pool order, and the index buffer. */
  function CubeBuffers(res: int): Mesh<Point, Normal>
  {
    var w := CubeBuild(res);
    var pool := w.0.vertexPool;
    Mesh(pool, w.0.vertexNormals,
         seq(|pool|, k requires 0 <= k < |pool| => VertexColor(pool[k])),
         seq(|pool|, k requires 0 <= k < |pool| => TexCoord(pool[k], res)),
         w.1)
  }

  lemma CubePoolValid(res: int)
    ensures PoolValid(CubeBuild(res).0)
  {
    EmptyPoolValid();
    WeldFacesFacts(EmptyPool, Faces(res), Cells(res));
  }

  lemma CubeIndexCount(res: int)
    ensures |CubeBuild(res).1| == 36 * (Cells(res) * Cells(res))
  {
    var n := Cells(res);
    var c := n * n;
    EmptyPoolValid();
    WeldFacesSlots(EmptyPool, Faces(res), n);
    SoupLength(Faces(res), n, c);
    assert |Faces(res)| == 6;
    assert |Soup(Faces(res), n)| == 6 * (6 * c);
  }

  lemma CubeIndexSlots(res: int)
    ensures Denotes(CubeBuild(res).1, Soup(Faces(res), Cells(res)), CubeBuild(res).0.vertexPool)
  {
    EmptyPoolValid();
    WeldFacesSlots(EmptyPool, Faces(res), Cells(res));
  }

  lemma CubeCorners(res: int)
    ensures forall k :: 0 <= k < |CubeBuild(res).0.vertexPool| ==>
      CubeBuild(res).0.vertexPool[k] in Soup(Faces(res), Cells(res))
  {
    WeldFacesGrows(EmptyPool, Faces(res), Cells(res));
  }

  lemma CubeOnSurface(res: int)
    ensures AllOnSurface(CubeBuild(res).0.vertexPool, Cells(res))
  {
    var n := Cells(res);
    var pool := CubeBuild(res).0.vertexPool;
    if res > 0 {
      var fs := Faces(n);
      var soup := Soup(fs, n);
      assert CubeBuild(res) == WeldFaces(EmptyPool, fs, n);
      WeldFacesGrows(EmptyPool, fs, n);
      FacesOnSurface(n);
      SoupOnSurface(fs, n);
      forall k | 0 <= k < |pool| ensures OnCubeSurface(pool[k], n) {
        var i :| 0 <= i < |soup| && soup[i] == pool[k];
      }
    } else {
      WeldFacesGrows(EmptyPool, Faces(res), n);
    }
  }

  /** What createCubeMesh's welding produces: a valid pool (so no position twice)
      and 36 R^2 indices, which, read through the pool, are the unwelded
      triangle list; every pooled point is a triangle corner on the cube's
      surface. */
  lemma CubeBuildShape(res: int)
    ensures PoolValid(CubeBuild(res).0)
    ensures |CubeBuild(res).1| == 36 * (Cells(res) * Cells(res))
    ensures Denotes(CubeBuild(res).1, Soup(Faces(res), Cells(res)), CubeBuild(res).0.vertexPool)
    ensures forall k :: 0 <= k < |CubeBuild(res).0.vertexPool| ==>
      CubeBuild(res).0.vertexPool[k] in Soup(Faces(res), Cells(res))
    ensures AllOnSurface(CubeBuild(res).0.vertexPool, Cells(res))
  {
    CubePoolValid(res);
    CubeIndexCount(res);
    CubeIndexSlots(res);
    CubeCorners(res);
    CubeOnSurface(res);
  }

  lemma DivBound(u: real, d: real, k: real)
    requires d > 0.0 && 0.0 <= u <= k * d
    ensures 0.0 <= u / d <= k
  {
    var q := u / d;
    assert q * d == u;
    if q > k {
      assert q * d > k * d;
    }
  }

  /** A texture coordinate of a surface vertex lies in [0, 2] x [0, 1]. */
  lemma TexCoordRange(p: Point, res: int)
    requires OnCubeSurface(p, Cells(res))
    ensures 0.0 <= TexCoord(p, res).x <= 2.0 && 0.0 <= TexCoord(p, res).y <= 1.0
  {
    if res > 0 {
      var d := (2 * res) as real;
      var u := (p.x + p.y + 2 * res) as real;
      var v := (p.z + res) as real;
      DivBound(u, d, 2.0);
      DivBound(v, d, 1.0);
    }
  }

  /** The mesh createCubeMesh leaves: the welded vertices in pool order with
      their normals, generateVertexColor's colour and a texture coordinate in
      [0, 2] x [0, 1] for each, and the welded index buffer, whose every index
      names a vertex. */
  lemma CubeMeshShape(res: int)
    ensures CubeBuffers(res).vertices == CubeBuild(res).0.vertexPool
    ensures CubeBuffers(res).normals == CubeBuild(res).0.vertexNormals
    ensures CubeBuffers(res).indices == CubeBuild(res).1
    ensures |CubeBuffers(res).normals| == |CubeBuffers(res).colors| == |CubeBuffers(res).texCoords|
      == |CubeBuffers(res).vertices| == CubeBuild(res).0.vertexIndexCounter
    ensures forall m :: 0 <= m < |CubeBuffers(res).indices| ==>
      0 <= CubeBuffers(res).indices[m] < |CubeBuffers(res).vertices|
    ensures forall k :: 0 <= k < |CubeBuffers(res).colors| ==> CubeBuffers(res).colors[k] == Color(255, 255, 255, 200)
    ensures forall k :: 0 <= k < |CubeBuffers(res).texCoords| ==>
      0.0 <= CubeBuffers(res).texCoords[k].x <= 2.0 && 0.0 <= CubeBuffers(res).texCoords[k].y <= 1.0
  {
    CubeBuildShape(res);
    var w := CubeBuild(res);
    var m := CubeBuffers(res);
    forall k | 0 <= k < |m.texCoords|
      ensures 0.0 <= m.texCoords[k].x <= 2.0 && 0.0 <= m.texCoords[k].y <= 1.0
    {
      assert m.texCoords[k] == TexCoord(w.0.vertexPool[k], res);
      TexCoordRange(w.0.vertexPool[k], res);
    }
  }

  /** A run over ps + qs is the run over ps followed by the run over qs. */
  lemma {:induction false} WeldPointsConcat(s: PoolState, ps: seq<Point>, qs: seq<Point>, n: Normal)
    ensures WeldPoints(s, ps + qs, n) ==
      (WeldPoints(WeldPoints(s, ps, n).0, qs, n).0, WeldPoints(s, ps, n).1 + WeldPoints(WeldPoints(s, ps, n).0, qs, n).1)
    decreases |qs|
  {
    if |qs| == 0 {
      assert ps + qs == ps;
      var w := WeldPoints(s, ps, n);
      assert WeldPoints(w.0, qs, n) == (w.0, []);
      assert w.1 + [] == w.1;
    } else {
      var front := qs[..|qs| - 1];
      var q := qs[|qs| - 1];
      WeldPointsConcat(s, ps, front, n);
      assert (ps + qs)[..|ps + qs| - 1] == ps + front;
      var w := WeldPoints(s, ps, n);
      var v := WeldPoints(w.0, front, n);
      var l := Lookup(v.0, q, n);
      assert w.1 + v.1 + [l.1] == w.1 + (v.1 + [l.1]);
    }
  }

  /** A run returns one index per point, whatever the state. */
  lemma {:induction false} WeldPointsLength(s: PoolState, ps: seq<Point>, n: Normal)
    ensures |WeldPoints(s, ps, n).1| == |ps|
    decreases |ps|
  {
    if |ps| > 0 {
      WeldPointsLength(s, ps[..|ps| - 1], n);
    }
  }

  /** The first k queries of a run over ps, read by position in ps. */
  function Run(s: PoolState, ps: seq<Point>, k: nat, n: Normal): (PoolState, seq<int>)
    requires k <= |ps|
    decreases k
  {
    if k == 0 then (s, [])
    else
      var w := Run(s, ps, k - 1, n);
      var l := Lookup(w.0, ps[k - 1], n);
      (l.0, w.1 + [l.1])
  }

  lemma RunNext(s: PoolState, ps: seq<Point>, k: nat, n: Normal)
    requires k < |ps|
    ensures Run(s, ps, k + 1, n) ==
      (Lookup(Run(s, ps, k, n).0, ps[k], n).0, Run(s, ps, k, n).1 + [Lookup(Run(s, ps, k, n).0, ps[k], n).1])
  {
  }

  /** The first k queries over ps are the run over the first k points. */
  lemma {:induction false} RunPrefix(s: PoolState, ps: seq<Point>, k: nat, n: Normal)
    requires k <= |ps|
    ensures Run(s, ps, k, n) == WeldPoints(s, ps[..k], n)
    decreases k
  {
    if k > 0 {
      RunPrefix(s, ps, k - 1, n);
      assert ps[..k][..k - 1] == ps[..k - 1];
    }
  }

  /** The four points of c stand in ps from slot k on. */
  ghost predicate Holds(ps: seq<Point>, k: int, c: seq<Point>)
  {
    && |c| == 4 && 0 <= k && k + 4 <= |ps|
    && ps[k] == c[0] && ps[k + 1] == c[1] && ps[k + 2] == c[2] && ps[k + 3] == c[3]
  }

  lemma HoldsConcat(a: seq<Point>, b: seq<Point>, k: int, c: seq<Point>)
    ensures Holds(a, k, c) ==> Holds(a + b, k, c)
    ensures Holds(b, k, c) ==> Holds(a + b, |a| + k, c)
  {
  }

  /** Quad (i, j)'s four corners stand in ps from slot k0 + 4 i on. */
  ghost predicate CellAt(ps: seq<Point>, k0: int, g: (int, int) -> Point, i: int, j: int)
  {
    Holds(ps, k0 + 4 * i, CellCorners(g, i, j))
  }

  /** Where quad (i, j) of a face stands, its four corners stand one by one. */
  lemma CellSlots(ps: seq<Point>, k0: int, o: Point, r: Dir, d: Dir, i: int, j: int)
    requires CellAt(ps, k0, Grid(o, r, d), i, j)
    ensures 0 <= k0 + 4 * i && k0 + 4 * i + 4 <= |ps|
    ensures ps[k0 + 4 * i] == CornerAt(o, r, d, i, j) && ps[k0 + 4 * i + 1] == CornerAt(o, r, d, i + 1, j)
    ensures ps[k0 + 4 * i + 2] == CornerAt(o, r, d, i, j + 1) && ps[k0 + 4 * i + 3] == CornerAt(o, r, d, i + 1, j + 1)
  {
  }

  /** The first I quads of row j lie in RowCorners in order. */
  lemma {:induction false} RowCellAt(g: (int, int) -> Point, j: int, I: nat, i: int)
    requires 0 <= i < I
    ensures CellAt(RowCorners(g, j, I), 0, g, i, j)
    decreases I
  {
    var front := RowCorners(g, j, I - 1);
    var cell := CellCorners(g, I - 1, j);
    var c := CellCorners(g, i, j);
    assert RowCorners(g, j, I) == front + cell;
    if i < I - 1 {
      RowCellAt(g, j, I - 1, i);
      HoldsConcat(front, cell, 4 * i, c);
    } else {
      assert Holds(cell, 0, c);
      HoldsConcat(front, cell, 0, c);
    }
  }

  /** Quad (i, j) of a face lies in GridCorners from slot 4 (n j + i) on. */
  lemma {:induction false} GridCellAt(g: (int, int) -> Point, n: nat, J: nat, j: nat, i: int)
    requires j < J && 0 <= i < n
    ensures CellAt(GridCorners(g, n, J), 4 * (n * j), g, i, j)
    decreases J
  {
    var front := GridCorners(g, n, J - 1);
    var row := RowCorners(g, J - 1, n);
    var c := CellCorners(g, i, j);
    assert GridCorners(g, n, J) == front + row;
    var k := 4 * (n * j) + 4 * i;
    if j < J - 1 {
      GridCellAt(g, n, J - 1, j, i);
      HoldsConcat(front, row, k, c);
    } else {
      GridLength(g, n, J - 1);
      assert j == J - 1;
      assert |front| == 4 * (n * j);
      RowCellAt(g, j, n, i);
      HoldsConcat(front, row, 4 * i, c);
    }
    assert Holds(front + row, k, c);
  }

  /** Every quad of row j of an n-by-n face lies in GridCorners, the row
      starting at slot 4 n j. */
  lemma GridRowCells(g: (int, int) -> Point, n: nat, j: nat)
    requires j < n
    ensures forall i :: 0 <= i < n ==> CellAt(GridCorners(g, n, n), 4 * (n * j), g, i, j)
  {
    forall i | 0 <= i < n ensures CellAt(GridCorners(g, n, n), 4 * (n * j), g, i, j) {
      GridCellAt(g, n, n, j, i);
    }
  }

  lemma WeldFacesSnoc(s: PoolState, fs: seq<Face>, f: Face, n: nat)
    ensures WeldFaces(s, fs + [f], n) ==
      (WeldPoints(WeldFaces(s, fs, n).0, FaceCorners(f, n), Axis(f.normal)).0,
       WeldFaces(s, fs, n).1 + Quads(WeldPoints(WeldFaces(s, fs, n).0, FaceCorners(f, n), Axis(f.normal)).1))
  {
    assert (fs + [f])[..|fs|] == fs;
  }

  /** Face k continues the welding of the faces before it; the index buffer
      behind a prefix m grows accordingly. */
  lemma WeldFacesNext(s: PoolState, fs: seq<Face>, k: nat, n: nat, m: seq<int>)
    requires k < |fs|
    ensures WeldFaces(s, fs[..k + 1], n).0 ==
      WeldPoints(WeldFaces(s, fs[..k], n).0, FaceCorners(fs[k], n), Axis(fs[k].normal)).0
    ensures m + WeldFaces(s, fs[..k + 1], n).1 == m + WeldFaces(s, fs[..k], n).1 +
      Quads(WeldPoints(WeldFaces(s, fs[..k], n).0, FaceCorners(fs[k], n), Axis(fs[k].normal)).1)
  {
    assert fs[..k + 1] == fs[..k] + [fs[k]];
    WeldFacesSnoc(s, fs[..k], fs[k], n);
    var w := WeldFaces(s, fs[..k], n);
    SeqAssoc(m, w.1, Quads(WeldPoints(w.0, FaceCorners(fs[k], n), Axis(fs[k].normal)).1));
  }

  /** A mesh whose buffers agree elementwise with the welded cube is its mesh. */
  lemma CubeBuffersOf(res: int, m: Mesh<Point, Normal>)
    requires m.vertices == CubeBuild(res).0.vertexPool && m.normals == CubeBuild(res).0.vertexNormals
    requires m.indices == CubeBuild(res).1
    requires |m.colors| == |m.vertices| && forall k :: 0 <= k < |m.colors| ==> m.colors[k] == VertexColor(m.vertices[k])
    requires |m.texCoords| == |m.vertices| && forall k :: 0 <= k < |m.texCoords| ==> m.texCoords[k] == TexCoord(m.vertices[k], res)
    ensures m == CubeBuffers(res)
  {
    var c := CubeBuffers(res);
    assert m.colors == c.colors;
    assert m.texCoords == c.texCoords;
  }

  // ---------------------------------------------------------------------------
  // The generator object

  class CubeMesh {
    var config: CubeMeshConfig
    var mesh: Mesh<Point, Normal>
    const vertexPoolData: VertexPoolData

    /** Both buffers hold nothing. */
    ghost predicate Cleared()
      reads this, vertexPoolData
    {
      mesh == EmptyMesh() && vertexPoolData.State() == EmptyPool
    }

    /** The pool and the mesh are those of a cube generated with resolution
        c.gridResolution. */
    ghost predicate Generated(c: CubeMeshConfig)
      reads this, vertexPoolData
    {
      vertexPoolData.State() == CubeBuild(c.gridResolution).0 && mesh == CubeBuffers(c.gridResolution)
    }

    /** Every public operation leaves the object cleared or holding the cube of
        its current configuration. */
    ghost predicate Valid()
      reads this, vertexPoolData
    {
      Cleared() || Generated(config)
    }

    /** CubeMesh(): default configuration, nothing generated. */
    constructor ()
      ensures config == DefaultCubeMeshConfig && Cleared() && Valid() && fresh(vertexPoolData)
    {
      config := DefaultCubeMeshConfig;
      mesh := EmptyMesh();
      vertexPoolData := new VertexPoolData();
    }

    // Accessors

    function GetMesh(): Mesh<Point, Normal> reads this { mesh }

    function GetOriginalVertices(): seq<Point> reads this, vertexPoolData { vertexPoolData.originalVertices }

    function GetVertexPool(): seq<Point> reads this, vertexPoolData { vertexPoolData.vertexPool }

    function GetVertexNormals(): seq<Normal> reads this, vertexPoolData { vertexPoolData.vertexNormals }

    function GetConfig(): CubeMeshConfig reads this { config }

    function GetVertexCount(): int reads this { |mesh.vertices| }

    function GetIndexCount(): int reads this { |mesh.indices| }

    /** Indices per vertex, 0 for an empty mesh. */
    function GetVertexSharingRatio(): (ratio: real)
      reads this
      ensures ratio >= 0.0
      ensures |mesh.vertices| == 0 ==> ratio == 0.0
      ensures |mesh.vertices| > 0 ==> ratio * (|mesh.vertices| as real) == |mesh.indices| as real
    {
      if |mesh.vertices| == 0 then 0.0 else (|mesh.indices| as real) / (|mesh.vertices| as real)
    }

    // Operations

    method Setup(meshConfig: CubeMeshConfig)
      modifies this, vertexPoolData
      ensures config == meshConfig && Generated(meshConfig) && Valid()
    {
      config := meshConfig;
      GenerateMesh();
    }

    method Clear()
      modifies this, vertexPoolData
      ensures config == old(config) && Cleared() && Valid()
    {
      mesh := EmptyMesh();
      vertexPoolData.Clear();
    }

    /** Clears first, so the result depends on the configuration alone. */
    method GenerateMesh()
      modifies this, vertexPoolData
      ensures config == old(config) && Generated(config) && Valid()
    {
      Clear();
      CreateCubeMesh();
    }

    method RegenerateWithResolution(resolution: int)
      modifies this, vertexPoolData
      ensures config == old(config).(gridResolution := resolution)
      ensures Generated(config) && Valid()
    {
      config := config.(gridResolution := resolution);
      GenerateMesh();
    }

    /** Always takes the new configuration; rebuilds only when the resolution
        or the cube size differs. */
    method UpdateConfig(newConfig: CubeMeshConfig)
      modifies this, vertexPoolData
      ensures config == newConfig
      ensures old(config.gridResolution != newConfig.gridResolution || config.cubeSize != newConfig.cubeSize) ==>
        Generated(newConfig)
      ensures old(config.gridResolution == newConfig.gridResolution && config.cubeSize == newConfig.cubeSize) ==>
        mesh == old(mesh) && vertexPoolData.State() == old(vertexPoolData.State())
      ensures old(Valid()) ==> Valid()
    {
      var needRegenerate := config.gridResolution != newConfig.gridResolution || config.cubeSize != newConfig.cubeSize;
      config := newConfig;
      if needRegenerate {
        GenerateMesh();
      }
    }

    /** Builds the six faces into the pool and index buffer, then copies the
        pool into the mesh. */
    method CreateCubeMesh()
      modifies this, vertexPoolData
      ensures config == old(config) && Generated(config)
    {
      mesh := EmptyMesh();
      vertexPoolData.Clear();
      var res := config.gridResolution;
      var faces := Faces(res);
      AddFaces(faces);
      CubePoolValid(res);
      // vertexNormals never falls behind vertexPool (PoolValid), so the source's
      // resize of the normals is never needed.
      assert |vertexPoolData.vertexNormals| == |vertexPoolData.vertexPool|;
      AddPoolVertices();
      CubeBuffersOf(res, mesh);
    }

    /** The loop of createCubeMesh over the faces: one addFaceWithNormal each. */
    method AddFaces(faces: seq<Face>)
      modifies this, vertexPoolData
      ensures config == old(config)
      ensures vertexPoolData.State() == WeldFaces(old(vertexPoolData.State()), faces, Cells(config.gridResolution)).0
      ensures mesh == old(mesh).(indices := old(mesh.indices) +
        WeldFaces(old(vertexPoolData.State()), faces, Cells(config.gridResolution)).1)
    {
      ghost var n := Cells(config.gridResolution);
      ghost var s0 := vertexPoolData.State();
      ghost var m0 := mesh;
      var k := 0;
      while k < |faces|
        invariant 0 <= k <= |faces| && config == old(config)
        invariant vertexPoolData.State() == WeldFaces(s0, faces[..k], n).0
        invariant mesh == m0.(indices := m0.indices + WeldFaces(s0, faces[..k], n).1)
      {
        var face := faces[k];
        ghost var w := WeldFaces(s0, faces[..k], n);
        ghost var v := WeldPoints(w.0, FaceCorners(face, n), Axis(face.normal));
        AddFaceWithNormal(face.origin, face.right, face.down, face.normal);
        WeldFacesNext(s0, faces, k, n, m0.indices);
        k := k + 1;
      }
      assert faces[..k] == faces;
    }

    /** The loop of createCubeMesh that copies the pool into the mesh: each
        pooled position with its normal, generateVertexColor's colour and its
        texture coordinate. */
    method AddPoolVertices()
      requires |vertexPoolData.vertexNormals| == |vertexPoolData.vertexPool|
      modifies this
      ensures config == old(config)
      ensures mesh.indices == old(mesh.indices)
      ensures mesh.vertices == old(mesh.vertices) + vertexPoolData.vertexPool
      ensures mesh.normals == old(mesh.normals) + vertexPoolData.vertexNormals
      ensures |mesh.colors| == |old(mesh.colors)| + |vertexPoolData.vertexPool|
      ensures forall m :: 0 <= m < |vertexPoolData.vertexPool| ==>
        mesh.colors[|old(mesh.colors)| + m] == VertexColor(vertexPoolData.vertexPool[m])
      ensures mesh.colors[..|old(mesh.colors)|] == old(mesh.colors)
      ensures |mesh.texCoords| == |old(mesh.texCoords)| + |vertexPoolData.vertexPool|
      ensures forall m :: 0 <= m < |vertexPoolData.vertexPool| ==>
        mesh.texCoords[|old(mesh.texCoords)| + m] == TexCoord(vertexPoolData.vertexPool[m], config.gridResolution)
      ensures mesh.texCoords[..|old(mesh.texCoords)|] == old(mesh.texCoords)
    {
      var pool := vertexPoolData.vertexPool;
      var normals := vertexPoolData.vertexNormals;
      var res := config.gridResolution;
      ghost var m0 := mesh;
      var i := 0;
      while i < |pool|
        invariant 0 <= i <= |pool| && config == old(config)
        invariant mesh.indices == m0.indices
        invariant mesh.vertices == m0.vertices + pool[..i] && mesh.normals == m0.normals + normals[..i]
        invariant |mesh.colors| == |m0.colors| + i && mesh.colors[..|m0.colors|] == m0.colors
        invariant forall m :: 0 <= m < i ==> mesh.colors[|m0.colors| + m] == VertexColor(pool[m])
        invariant |mesh.texCoords| == |m0.texCoords| + i && mesh.texCoords[..|m0.texCoords|] == m0.texCoords
        invariant forall m :: 0 <= m < i ==> mesh.texCoords[|m0.texCoords| + m] == TexCoord(pool[m], res)
      {
        mesh := mesh.(vertices := mesh.vertices + [pool[i]],
                      normals := mesh.normals + [normals[i]],
                      colors := mesh.colors + [VertexColor(pool[i])],
                      texCoords := mesh.texCoords + [TexCoord(pool[i], res)]);
        assert pool[..i + 1] == pool[..i] + [pool[i]];
        assert normals[..i + 1] == normals[..i] + [normals[i]];
        i := i + 1;
      }
      assert pool[..i] == pool && normals[..i] == normals;
    }

    /** Queries the corners of every quad of one face, row by row, and appends
        six indices per quad. */
    method AddFaceWithNormal(origin: Point, right: Dir, down: Dir, faceNormal: Point)
      modifies this, vertexPoolData
      ensures config == old(config)
      ensures vertexPoolData.State() == WeldPoints(old(vertexPoolData.State()),
        GridCorners(Grid(origin, right, down), Cells(config.gridResolution), Cells(config.gridResolution)), Axis(faceNormal)).0
      ensures mesh == old(mesh).(indices := old(mesh.indices) + Quads(WeldPoints(old(vertexPoolData.State()),
        GridCorners(Grid(origin, right, down), Cells(config.gridResolution), Cells(config.gridResolution)), Axis(faceNormal)).1))
    {
      var res := config.gridResolution;
      ghost var n := Cells(res);
      var nrm := Axis(faceNormal);
      ghost var s0 := vertexPoolData.State();
      ghost var m0 := mesh;
      ghost var g := Grid(origin, right, down);
      ghost var cs := GridCorners(g, n, n);
      GridLength(g, n, n);
      ghost var k := 0;
      var j := 0;
      while j < res
        invariant 0 <= j <= n && config == old(config)
        invariant k == 4 * (n * j) <= |cs|
        invariant vertexPoolData.State() == Run(s0, cs, k, nrm).0
        invariant mesh == m0.(indices := m0.indices + Quads(Run(s0, cs, k, nrm).1))
      {
        RowBound(n, j);
        GridRowCells(g, n, j);
        k := AddRow(origin, right, down, j, nrm, s0, cs, k, m0);
        j := j + 1;
      }
      assert k == |cs|;
      RunPrefix(s0, cs, |cs|, nrm);
      assert cs[..|cs|] == cs;
    }

    /** Row j of addFaceWithNormal's grid: the quads (0, j) to (R - 1, j), whose
        corners stand in ps from slot k0 on. */
    method AddRow(origin: Point, right: Dir, down: Dir, j: int, nrm: Normal,
                  ghost s0: PoolState, ghost ps: seq<Point>, ghost k0: nat, ghost m0: Mesh<Point, Normal>)
      returns (ghost k: nat)
      requires k0 + 4 * Cells(config.gridResolution) <= |ps|
      requires forall i :: 0 <= i < Cells(config.gridResolution) ==> CellAt(ps, k0, Grid(origin, right, down), i, j)
      requires vertexPoolData.State() == Run(s0, ps, k0, nrm).0
      requires mesh == m0.(indices := m0.indices + Quads(Run(s0, ps, k0, nrm).1))
      modifies this, vertexPoolData
      ensures config == old(config)
      ensures k == k0 + 4 * Cells(config.gridResolution)
      ensures vertexPoolData.State() == Run(s0, ps, k, nrm).0
      ensures mesh == m0.(indices := m0.indices + Quads(Run(s0, ps, k, nrm).1))
    {
      var res := config.gridResolution;
      ghost var n := Cells(res);
      k := k0;
      var i := 0;
      while i < res
        invariant 0 <= i <= n && config == old(config) && k == k0 + 4 * i
        invariant vertexPoolData.State() == Run(s0, ps, k, nrm).0
        invariant mesh == m0.(indices := m0.indices + Quads(Run(s0, ps, k, nrm).1))
      {
        var v00 := CornerAt(origin, right, down, i, j);
        var v10 := CornerAt(origin, right, down, i + 1, j);
        var v01 := CornerAt(origin, right, down, i, j + 1);
        var v11 := CornerAt(origin, right, down, i + 1, j + 1);
        CellSlots(ps, k0, origin, right, down, i, j);
        AddQuad(v00, v10, v01, v11, nrm, s0, ps, k, m0);
        k := k + 4;
        i := i + 1;
      }
    }

    /** One quad of addFaceWithNormal: queries the corners v00, v10, v01, v11,
        which stand in ps from slot k on, and appends the triangles
        (v00, v10, v01) and (v10, v11, v01). */
    method AddQuad(v00: Point, v10: Point, v01: Point, v11: Point, nrm: Normal,
                   ghost s0: PoolState, ghost ps: seq<Point>, ghost k: nat, ghost m0: Mesh<Point, Normal>)
      requires k + 4 <= |ps| && ps[k] == v00 && ps[k + 1] == v10 && ps[k + 2] == v01 && ps[k + 3] == v11
      requires vertexPoolData.State() == Run(s0, ps, k, nrm).0
      requires mesh == m0.(indices := m0.indices + Quads(Run(s0, ps, k, nrm).1))
      modifies this, vertexPoolData
      ensures config == old(config)
      ensures vertexPoolData.State() == Run(s0, ps, k + 4, nrm).0
      ensures mesh == m0.(indices := m0.indices + Quads(Run(s0, ps, k + 4, nrm).1))
    {
      ghost var r := Run(s0, ps, k, nrm).1;
      var i0 := GetVertexIndexWithNormal(v00, nrm);
      assert Run(s0, ps, k + 1, nrm) == (vertexPoolData.State(), r + [i0]);
      var i1 := GetVertexIndexWithNormal(v10, nrm);
      assert Run(s0, ps, k + 2, nrm) == (vertexPoolData.State(), r + [i0] + [i1]);
      var i2 := GetVertexIndexWithNormal(v01, nrm);
      assert Run(s0, ps, k + 3, nrm) == (vertexPoolData.State(), r + [i0] + [i1] + [i2]);
      var i3 := GetVertexIndexWithNormal(v11, nrm);
      assert Run(s0, ps, k + 4, nrm) == (vertexPoolData.State(), r + [i0] + [i1] + [i2] + [i3]);
      mesh := mesh.(indices := mesh.indices + [i0, i1, i2, i1, i3, i2]);
      SnocFour(r, i0, i1, i2, i3);
      QuadsSnoc(r, i0, i1, i2, i3);
      SeqAssoc(m0.indices, Quads(r), [i0, i1, i2, i1, i3, i2]);
    }

    /** getVertexIndexWithNormal: the pool index of pos, adding pos when it is
        new. The map is keyed by the position itself (see PoolState). */
    method GetVertexIndexWithNormal(pos: Point, normal: Normal) returns (index: int)
      modifies vertexPoolData
      ensures (vertexPoolData.State(), index) == Lookup(old(vertexPoolData.State()), pos, normal)
    {
      if pos in vertexPoolData.vertexMap {
        var existingIndex := vertexPoolData.vertexMap[pos];
        if 0 <= existingIndex < |vertexPoolData.vertexNormals| {
          vertexPoolData.vertexNormals := vertexPoolData.vertexNormals[existingIndex :=
            Renormalized(vertexPoolData.vertexNormals[existingIndex], normal)];
        }
        index := existingIndex;
      } else {
        vertexPoolData.vertexMap := vertexPoolData.vertexMap[pos := vertexPoolData.vertexIndexCounter];
        vertexPoolData.vertexPool := vertexPoolData.vertexPool + [pos];
        vertexPoolData.originalVertices := vertexPoolData.originalVertices + [pos];
        vertexPoolData.vertexNormals := vertexPoolData.vertexNormals + [normal];
        index := vertexPoolData.vertexIndexCounter;
        vertexPoolData.vertexIndexCounter := vertexPoolData.vertexIndexCounter + 1;
      }
    }
  }

  /** The accessors of a generated cube: pool and original positions coincide,
      the vertex count is the pool size, there is one normal per pool vertex, the
      index count is 36 R^2 and every index names a pool vertex. */
  lemma GeneratedAccessors(cm: CubeMesh)
    requires cm.Generated(cm.config)
    ensures cm.GetVertexPool() == cm.GetOriginalVertices()
    ensures cm.GetVertexCount() == |cm.GetVertexPool()| == |cm.GetVertexNormals()|
    ensures cm.GetIndexCount() == 36 * (Cells(cm.config.gridResolution) * Cells(cm.config.gridResolution))
    ensures forall m :: 0 <= m < |cm.GetMesh().indices| ==> 0 <= cm.GetMesh().indices[m] < cm.GetVertexCount()
    ensures cm.GetMesh().vertices == cm.GetVertexPool() && cm.GetMesh().normals == cm.GetVertexNormals()
  {
    CubeBuildShape(cm.config.gridResolution);
    CubeMeshShape(cm.config.gridResolution);
  }

  /** Two generated cubes of the same resolution hold identical pools and meshes:
      regenerating reproduces the same result. */
  lemma GeneratedIsDetermined(a: CubeMesh, b: CubeMesh)
    requires a.Generated(a.config) && b.Generated(b.config)
    requires a.config.gridResolution == b.config.gridResolution
    ensures a.mesh == b.mesh && a.vertexPoolData.State() == b.vertexPoolData.State()
  {
  }
}
