/** The geometry records shared by the cube generator and the screens: the
    cube's configuration, the flow-field centres, the mesh buffers of an
    ofVboMesh, and the vertex pool that welds the cube's grid corners. */
module GeometryData {
  import opened CommonStructs

  /** A vertex position of the cube grid on an integer lattice whose unit is half
      a grid step: with resolution R the cube spans -R..R on every axis and
      neighbouring grid corners are 2 apart. The real position is the lattice
      point times cubeSize / (2 * R). */
  datatype Point = Point(x: int, y: int, z: int)

  function PointAdd(a: Point, b: Point): Point { Point(a.x + b.x, a.y + b.y, a.z + b.z) }

  function PointScale(a: Point, k: int): Point { Point(a.x * k, a.y * k, a.z * k) }

  /** A vertex normal of the cube, kept symbolic: the face direction a vertex was
      created with, or `(prev + added).getNormalized()` once a later face shares
      the vertex. */
  datatype Normal = Axis(dir: Point) | Renormalized(prev: Normal, added: Normal)

  /** ofColor with its four 8-bit channels. */
  datatype Color = Color(r: int, g: int, b: int, a: int)

  /** The buffers of an ofVboMesh in triangle mode: parallel per-vertex arrays
      and the index buffer (ofIndexType values, that is unsigned 32-bit). */
  datatype Mesh<V, N> = Mesh(
    vertices: seq<V>,
    normals: seq<N>,
    colors: seq<Color>,
    texCoords: seq<Vec2>,
    indices: seq<int>)

  /** ofMesh::clear() leaves every buffer empty. */
  function EmptyMesh<V, N>(): Mesh<V, N> { Mesh([], [], [], [], []) }

  datatype CubeMeshConfig = CubeMeshConfig(
    gridResolution: int,
    cubeSize: real,
    noiseScale: real,
    noiseStrength: real,
    breathSpeed: real,
    breathAmount: real,
    flowFieldStrength: real)

  /** The member initialisers of CubeMeshConfig. */
  const DefaultCubeMeshConfig := CubeMeshConfig(100, 200.0, 0.05, 20.0, 0.5, 10.0, 15.0)

  datatype FlowFieldConfig = FlowFieldConfig(
    flowCenter1: Vec3, flowCenter2: Vec3, flowCenter3: Vec3, flowCenter4: Vec3,
    flowCenter5: Vec3, flowCenter6: Vec3, flowCenter7: Vec3, flowCenter8: Vec3,
    centerCount: int)

  /** The member initialisers of FlowFieldConfig. */
  const DefaultFlowFieldConfig := FlowFieldConfig(
    Vec3(80.0, 80.0, 80.0), Vec3(-80.0, -80.0, 80.0), Vec3(80.0, 80.0, -80.0),
    Vec3(-80.0, 80.0, -80.0), Vec3(0.0, 0.0, 100.0), Vec3(100.0, 0.0, 0.0),
    Vec3(-100.0, 0.0, 0.0), Vec3(0.0, 100.0, 0.0),
    8)

  /** The centres of a flow field, in declaration order. */
  function Centers(c: FlowFieldConfig): (cs: seq<Vec3>)
    ensures |cs| == 8 && cs[0] == c.flowCenter1 && cs[7] == c.flowCenter8
  {
    [c.flowCenter1, c.flowCenter2, c.flowCenter3, c.flowCenter4,
     c.flowCenter5, c.flowCenter6, c.flowCenter7, c.flowCenter8]
  }

  /** The default flow field's count agrees with the centres it declares, and
      they are pairwise distinct. */
  lemma DefaultFlowFieldCenters()
    ensures |Centers(DefaultFlowFieldConfig)| == DefaultFlowFieldConfig.centerCount
    ensures forall i, j :: 0 <= i < j < 8 ==>
      Centers(DefaultFlowFieldConfig)[i] != Centers(DefaultFlowFieldConfig)[j]
  {
  }

  /** The value held by a VertexPoolData. The source keys its map by the text
      `vectorToKey` makes of a position; the model keys it by the lattice point
      itself, which selects the same entries because that text is injective on
      lattice points (`Cube.KeyInjective`). */
  datatype PoolState = PoolState(
    vertexMap: map<Point, int>,
    vertexPool: seq<Point>,
    originalVertices: seq<Point>,
    vertexNormals: seq<Normal>,
    vertexIndexCounter: int)

  const EmptyPool := PoolState(map[], [], [], [], 0)

  /** The welding tables of the cube generator: a map from position to pool
      index, the pool itself, a copy of the original positions, the vertex normals
      and the next free index. */
  class VertexPoolData {
    var vertexMap: map<Point, int>
    var vertexPool: seq<Point>
    var originalVertices: seq<Point>
    var vertexNormals: seq<Normal>
    var vertexIndexCounter: int

    function State(): PoolState
      reads this
    {
      PoolState(vertexMap, vertexPool, originalVertices, vertexNormals, vertexIndexCounter)
    }

    /** A fresh pool: counter 0 and empty containers. */
    constructor ()
      ensures State() == EmptyPool
    {
      vertexMap := map[];
      vertexPool := [];
      originalVertices := [];
      vertexNormals := [];
      vertexIndexCounter := 0;
    }

    /** Empties the four containers and resets the counter. */
    method Clear()
      modifies this
      ensures State() == EmptyPool
    {
      vertexMap := map[];
      vertexPool := [];
      originalVertices := [];
      vertexNormals := [];
      vertexIndexCounter := 0;
    }
  }
}
