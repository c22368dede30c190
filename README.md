# Welded cube grid, OBJ loader and shared store: a Dafny model

This project models the sequential core of an openFrameworks installation
that draws one shape on three screens. Three parts are modelled.

- **The cube generator (`CubeMesh` with `VertexPoolData`).**
  - It cuts each of the six faces of a cube into R x R quads.
  - Each quad corner is looked up in a vertex pool by a position key. A new corner is appended; a known one is reused.
  - Each quad adds two triangles (six indices) to the index buffer.
  - Then the pool is copied into the mesh, with one normal, colour and texture coordinate per vertex.
- **The model loader (`ModelLoader`).**
  - It dispatches on the lower-cased file extension.
  - It reads Wavefront OBJ text: `v`, `vn`, `vt` and `f` records, `#` comments, 1-based references and fan triangulation of polygons.
  - PLY is registered but always fails.
  - It validates the mesh, then post-processes it: generates missing normals from the index buffer, optionally flips them, centres and rescales the vertices, and records the model info (counts, bounding box, centre, largest extent).
- **The shared store (`DataManager`).**
  - One object of typed members with documented initial values.
  - A setter and a getter for each member.
  - Sticky "has data" flags, raised by the mesh, texture and FBO setters and never lowered.

## Modules

Each module is one file.

| module (file) | contents |
|---|---|
| `CommonStructs` (`common_structs.dfy`) | The records of `CommonStructs.h`, with their defaults. |
| `GeometryData` (`geometry_data.dfy`) | `CubeMeshConfig`, `FlowFieldConfig`, the mesh buffers of an `ofVboMesh`, the vertex pool as a value (`PoolState`), and the `VertexPoolData` class. |
| `Text` (`text.dfy`) | Definitions of the library text helpers the core calls: `ofSplitString`, `ofToInt`, `ofToFloat`, `ofToLower`, `ofFilePath::getFileExt` and `std::to_string`. The round trips that pin them down are proved. |
| `Cube` (`cube_mesh.dfy`) | Specification functions for one pool query (`Lookup`), a run of queries (`WeldPoints`), the six faces (`WeldFaces`) and the finished mesh (`CubeBuffers`). Then the `CubeMesh` class, whose methods do the same work step by step on their fields and are proved against those functions. |
| `ObjFormat` (`obj_format.dfy`) | The OBJ reader. Line by line it is a fold (`ParseLines`); `BuildMesh` is the mesh it builds. The loops of `loadOBJ` are methods proved equal to these functions. |
| `MeshProcessing` (`mesh_processing.dfy`) | The post-processing steps and the load option and model info records. The loops that update a buffer in place are methods over `array<Vec3>`, proved against `WithGeneratedNormals`, `Negated` and `CenterAndNormalized`. The read-only bounding-box loop ranges over a `seq<Vec3>` and is proved against `BoundingBox`. |
| `Loader` (`model_loader.dfy`) | The `ModelLoader` class. `LoadModel` is proved to return what `LoadOutcome` describes. |
| `Store` (`data_manager.dfy`) | The store as a value `DataState`, grouped as the header groups the members, and every setter as a `Command`. The `DataManager` class keeps the members as fields; each setter is proved to change the state as `Apply` says. |

## Modelling decisions

- **Cube lattice.**
  - Cube positions are points of an integer lattice whose unit is half a grid step.
  - With resolution R the cube spans -R..R on every axis, and neighbouring corners are 2 apart.
  - `vectorToKey`'s quantised `x_y_z` text is then exactly the lattice triple.
  - `Cube.KeyInjective` proves that text injective, so the model keys the map by the point itself.
- **Cube normals** are symbolic (`Normal`): the face normal a vertex was created with, or the re-normalised sum once another face reuses the vertex.
- **Loader coordinates** are exact reals. The file system is a map from paths to the file's lines.
- **`outMesh` on early failures.** `loadModel` returns false without touching `outMesh` when the file is missing or the extension is unsupported (`ModelLoader.cpp:39-47`). Only the later failures leave it cleared. The model follows the code: `Loader.LoadOutcome` keeps `outMesh` in the first two cases and returns the empty mesh in the others.
- **`lastModelInfo` before the first load.** The source leaves its scalar members uninitialised. The model's constructor takes their initial value as a parameter.
- **Index width.** Face references are stored as `ofIndexType`, an unsigned 32-bit value. A reference of 0 or below (or a missing number, read as 0) therefore becomes a large index modulo 2^32 (`ObjFormat.U32`). `generateNormals` then skips it as out of range.
- **Store getters** are class functions reading a field. What they return is stated by the setters' contracts and by the `SetThenGet*` lemmas.

## Model

| member | source | states |
|---|---|---|
| GeometryData.Centers | src/shared/GeometryData.h:33-43 | The eight flow centres in declaration order, first and last as declared. |
| GeometryData.DefaultFlowFieldCenters | src/shared/GeometryData.h:34-45 | The default flow field declares eight pairwise distinct centres, and its centerCount is 8. |
| GeometryData.VertexPoolData.constructor | src/shared/GeometryData.h:16-22 | A fresh pool has counter 0 and empty map, pool, original vertices and normals. |
| GeometryData.VertexPoolData.Clear | src/shared/GeometryData.h:24-30 | Clearing empties all four containers and resets the counter to 0. |
| Text.ToLower | src/geometry/ModelLoader.cpp:28 | Same length as the input; each character lower-cased. |
| Text.FileExt | src/geometry/ModelLoader.cpp:28 | The extension contains neither '.' nor '/'. |
| Text.FileExtOfStem | src/geometry/ModelLoader.cpp:28 | The extension of `stem.ext` is `ext` when the stem is a non-empty file stem. |
| Text.LastIndexOf | src/geometry/ModelLoader.cpp:28 | The index of the last occurrence, or -1: no occurrence lies after it. |
| Text.FileName | src/geometry/ModelLoader.cpp:28 | The path's last component: a suffix of the path with no '/'. |
| Text.ExtOfName | src/geometry/ModelLoader.cpp:28 | A dot-free suffix of the file name. |
| Text.Split | src/geometry/ModelLoader.cpp:94 | ofSplitString always yields at least one piece. |
| Text.SplitPieces | src/geometry/ModelLoader.cpp:94 | No piece contains the delimiter. |
| Text.JoinSplit | src/geometry/ModelLoader.cpp:94 | Joining the pieces with the delimiter gives back the text. |
| Text.SplitJoin | src/geometry/ModelLoader.cpp:94 | Splitting the join of delimiter-free pieces gives back the pieces. |
| Text.IntToStringChars | src/geometry/CubeMesh.cpp:147 | std::to_string writes a non-empty run of digits after an optional '-'. |
| Text.ParseIntOfIntToString | src/geometry/ModelLoader.cpp:126 | ofToInt reads back what std::to_string wrote. |
| Text.ParseRealOfIntToString | src/geometry/ModelLoader.cpp:99-101 | ofToFloat reads an integer's decimal text as that integer. |
| Text.ParseRealOfDigits | src/geometry/ModelLoader.cpp:99-101 | On signed digit strings ofToFloat and ofToInt agree. |
| Cube.ParseKeyOfKey | src/geometry/CubeMesh.cpp:141-148 | The `x_y_z` key of a lattice point reads back to the point. |
| Cube.KeyInjective | src/geometry/CubeMesh.cpp:141-148 | Two points have the same key exactly when they are equal. |
| Cube.EmptyPoolValid | src/shared/GeometryData.h:16-22 | The empty pool satisfies the pool invariant: counter equals every array's length, and the map is exactly the pooled points to their slots. |
| Cube.PoolSlots | src/geometry/CubeMesh.cpp:116-134 | Under the invariant every pooled position is mapped to the slot that holds it. |
| Cube.LookupFacts | src/geometry/CubeMesh.cpp:116-134 | A query keeps the invariant and returns a valid slot holding the position. A known position leaves the pool as it was; a new one is appended. |
| Cube.LookupGrows | src/geometry/CubeMesh.cpp:119-133 | From any state, a query leaves the pool unchanged or appends the queried position. |
| Cube.WeldPointsFacts | src/geometry/CubeMesh.cpp:116-134 | A run of queries keeps the pool invariant and returns one index per point. |
| Cube.WeldPointsGrows | src/geometry/CubeMesh.cpp:116-134 | A run only appends to the pool, and only points it queried. |
| Cube.WeldPointsSlots | src/geometry/CubeMesh.cpp:97-100 | Every index a run returns names the pool slot that holds the queried point. |
| Cube.WeldPointsConcat | src/geometry/CubeMesh.cpp:97-100 | A run over ps + qs is the run over ps followed by the run over qs. |
| Cube.QuadsLength | src/geometry/CubeMesh.cpp:104-111 | Four corners per quad give six indices per quad. |
| Cube.QuadsFromCorners | src/geometry/CubeMesh.cpp:104-111 | Every triangle corner is one of the quad corners. |
| Cube.QuadsUseCorners | src/geometry/CubeMesh.cpp:104-111 | Every quad corner is used by a triangle. |
| Cube.QuadsThroughPool | src/geometry/CubeMesh.cpp:104-111 | Expanding indices into triangles commutes with looking them up in the pool. |
| Cube.RowCorners | src/geometry/CubeMesh.cpp:91-95 | The first i quads of a row query 4 i corners. |
| Cube.GridLength | src/geometry/CubeMesh.cpp:90-95 | j rows of n quads query 4 n j corners. |
| Cube.SoupLength | src/geometry/CubeMesh.cpp:66-68 | The unwelded triangle list of the faces has six indices per quad per face. |
| Cube.WeldFacesGrows | src/geometry/CubeMesh.cpp:66-68 | Welding the faces only appends triangle corners to the pool; with no quads it changes nothing. |
| Cube.WeldFacesFacts | src/geometry/CubeMesh.cpp:66-68 | Welding the faces keeps the pool invariant. |
| Cube.WeldFacesSlots | src/geometry/CubeMesh.cpp:66-68 | Read through the final pool, the index buffer is the unwelded triangle list. |
| Cube.FacesOnSurface | src/geometry/CubeMesh.cpp:50-63 | Every grid corner of the six faces lies on the cube's surface. |
| Cube.SoupOnSurface | src/geometry/CubeMesh.cpp:50-68 | Every triangle corner of the faces lies on the surface. |
| Cube.CubeIndexCount | src/geometry/CubeMesh.cpp:50-68 | createCubeMesh's welding produces exactly 36 R^2 indices. |
| Cube.CubeBuildShape | src/geometry/CubeMesh.cpp:33-84 | The welded cube: a valid pool with no position twice, and 36 R^2 indices that denote the unwelded triangles. Every pooled point is a triangle corner on the surface. |
| Cube.TexCoordRange | src/geometry/CubeMesh.cpp:82-83 | A surface vertex's texture coordinate lies in [0, 2] x [0, 1]. |
| Cube.CubeMeshShape | src/geometry/CubeMesh.cpp:71-84 | The mesh holds the pool vertices with their normals in pool order, one colour (255, 255, 255, 200) and one texture coordinate in range per vertex. Every index names a vertex. |
| Cube.CubeBuffersOf | src/geometry/CubeMesh.cpp:76-84 | A mesh whose buffers agree elementwise with the welded cube is the cube's mesh. |
| Cube.CubeMesh.constructor | src/geometry/CubeMesh.cpp:4-5 | Default configuration and empty buffers. |
| Cube.CubeMesh.GetVertexSharingRatio | src/geometry/CubeMesh.cpp:168-171 | Indices per vertex: 0 for a mesh without vertices, otherwise the non-negative ratio with ratio x vertices = indices. |
| Cube.CubeMesh.Setup | src/geometry/CubeMesh.cpp:12-15 | Stores the configuration and leaves the cube generated for it. |
| Cube.CubeMesh.Clear | src/geometry/CubeMesh.cpp:17-20 | Empties the mesh and the pool and keeps the configuration. |
| Cube.CubeMesh.GenerateMesh | src/geometry/CubeMesh.cpp:22-26 | Leaves the cube of the current configuration, whatever was there before. |
| Cube.CubeMesh.RegenerateWithResolution | src/geometry/CubeMesh.cpp:28-31 | Changes only the resolution in the configuration and generates that cube. |
| Cube.CubeMesh.UpdateConfig | src/geometry/CubeMesh.cpp:150-158 | Always takes the new configuration. Rebuilds exactly when the resolution or the size differs; otherwise mesh and pool are unchanged. |
| Cube.CubeMesh.CreateCubeMesh | src/geometry/CubeMesh.cpp:33-85 | Leaves exactly the welded cube's pool and mesh. |
| Cube.CubeMesh.AddFaces | src/geometry/CubeMesh.cpp:66-68 | The face loop: the pool after WeldFaces from the old pool, and its indices appended to the mesh. |
| Cube.CubeMesh.AddPoolVertices | src/geometry/CubeMesh.cpp:76-84 | Appends the pool's vertices and normals, plus one colour and one texture coordinate per pooled vertex. Indices are untouched. |
| Cube.CubeMesh.AddFaceWithNormal | src/geometry/CubeMesh.cpp:87-114 | The pool after querying the face's grid corners row by row, and the two triangles per quad appended to the mesh's indices. |
| Cube.CubeMesh.AddRow | src/geometry/CubeMesh.cpp:91-112 | One row of the inner loop continues the run of queries by 4 R corners. |
| Cube.CubeMesh.AddQuad | src/geometry/CubeMesh.cpp:92-111 | One quad: four queries, then triangles (i0, i1, i2) and (i1, i3, i2). |
| Cube.CubeMesh.GetVertexIndexWithNormal | src/geometry/CubeMesh.cpp:116-134 | The new pool and the returned index are exactly one Lookup. |
| Cube.GeneratedAccessors | src/geometry/CubeMesh.h:19-32 | After generation the pool equals the original vertices, and the vertex count equals the pool and normal counts. The index count is 36 R^2, and every index names a vertex. |
| Cube.GeneratedIsDetermined | src/geometry/CubeMesh.cpp:22-26 | Two cubes generated at the same resolution hold identical pools and meshes in lattice units (the cube size only scales the lattice, which the model does not carry into positions). |
| ObjFormat.U32 | src/geometry/ModelLoader.cpp:86 | Storing an int as an ofIndexType keeps it below 2^32, unchanged when it fits and raised by 2^32 when it is a small negative. |
| ObjFormat.U32IsModulo | src/geometry/ModelLoader.cpp:86 | The stored value is the int modulo 2^32. |
| ObjFormat.FaceRefs | src/geometry/ModelLoader.cpp:123-139 | One reference per token after the keyword. |
| ObjFormat.AsIndices | src/geometry/ModelLoader.cpp:143-145 | Each reference stored modulo 2^32. |
| ObjFormat.Fan | src/geometry/ModelLoader.cpp:142-146 | A k-gon with k >= 3 gives 3 (k - 2) indices; fewer corners give none. |
| ObjFormat.FanTriangles | src/geometry/ModelLoader.cpp:142-146 | Triangle t of the fan is (f0, f(t+1), f(t+2)). |
| ObjFormat.FanCorners | src/geometry/ModelLoader.cpp:142-146 | Every fan corner is a corner of the polygon. |
| ObjFormat.FanTriangleItself | src/geometry/ModelLoader.cpp:142-146 | A triangle is its own fan. |
| ObjFormat.FaceIndices | src/geometry/ModelLoader.cpp:117-147 | A face record of k tokens adds 3 (k - 3) indices. |
| ObjFormat.ParseFromConcat | src/geometry/ModelLoader.cpp:91 | Reading a + b is reading a, then b from where a left off. |
| ObjFormat.SkippedLine | src/geometry/ModelLoader.cpp:92 | Empty lines and lines starting with '#' change nothing. |
| ObjFormat.AttributeRecord | src/geometry/ModelLoader.cpp:97-115 | A `v`/`vn` record with at least 4 tokens, or a `vt` record with at least 3, appends exactly one element to its own list and changes nothing else. Shorter records change nothing. |
| ObjFormat.FaceRecord | src/geometry/ModelLoader.cpp:117-147 | A face record with k >= 3 references appends 3 (k - 2) indices, the fan over the 0-based references, and changes nothing else. |
| ObjFormat.BuildMeshAttributes | src/geometry/ModelLoader.cpp:155-178 | The built mesh has the read vertices and indices. Normals and texture coordinates are present exactly when the file gave one per vertex, and then are the file's. |
| ObjFormat.ReadFace | src/geometry/ModelLoader.cpp:123-139 | The token loop collects the face's 0-based references. |
| ObjFormat.Triangulate | src/geometry/ModelLoader.cpp:142-146 | The triangulation loop pushes the fan of the stored references. |
| ObjFormat.ReadLines | src/geometry/ModelLoader.cpp:91-148 | The line loop reads exactly ParseLines. |
| ObjFormat.LoadObj | src/geometry/ModelLoader.cpp:75-184 | Succeeds exactly when the file exists and has a vertex record; on success the mesh is the one built from what was read. On failure the mesh is untouched. |
| ObjFormat.RefRead | src/geometry/ModelLoader.cpp:126 | The 1-based reference a + 1 reads as index a. |
| ObjFormat.FaceIndicesRead | src/geometry/ModelLoader.cpp:117-147 | The record `f a+1 b+1 c+1` adds the triangle a b c. |
| ObjFormat.FaceLineRead | src/geometry/ModelLoader.cpp:117-147 | A written triangle record reads back as its three indices. |
| ObjFormat.VertexLineRead | src/geometry/ModelLoader.cpp:97-102 | A written vertex record reads back as that vertex. |
| ObjFormat.WriteReadObj | src/geometry/ModelLoader.cpp:91-148 | Lattice points and triangles written as OBJ text read back as the same points and indices, with no normals or texture coordinates. |
| MeshProcessing.CalculateBoundingBox | src/geometry/ModelLoader.cpp:296-314 | The min/max loop computes BoundingBox. |
| MeshProcessing.BoundingBoxEmpty | src/geometry/ModelLoader.cpp:297-300 | An empty mesh has the origin for both bounds. |
| MeshProcessing.BoundingBoxEncloses | src/geometry/ModelLoader.cpp:303-313 | min is below and max above every vertex, componentwise. |
| MeshProcessing.BoundingBoxAttained | src/geometry/ModelLoader.cpp:303-313 | Each of the six bound components is attained by some vertex. |
| MeshProcessing.Zeros | src/geometry/ModelLoader.cpp:227 | n zero vectors. |
| MeshProcessing.AddTriangle | src/geometry/ModelLoader.cpp:238-250 | One triangle's contribution keeps one normal per vertex. |
| MeshProcessing.Accumulate | src/geometry/ModelLoader.cpp:232-252 | The accumulation keeps one normal per vertex. |
| MeshProcessing.AccumulateTriangle | src/geometry/ModelLoader.cpp:234-250 | One loop iteration updates the array as AddTriangle says. |
| MeshProcessing.GenerateNormals | src/geometry/ModelLoader.cpp:224-262 | The index loop over a normals array yields WithGeneratedNormals. |
| MeshProcessing.AccumulateAgree | src/geometry/ModelLoader.cpp:232-236 | The normals depend only on the complete triples visited. |
| MeshProcessing.TrailingIndicesIgnored | src/geometry/ModelLoader.cpp:233 | A trailing incomplete triple contributes nothing. |
| MeshProcessing.OutOfRangeTriangleIgnored | src/geometry/ModelLoader.cpp:238 | A triangle with a corner past the vertices contributes nothing. |
| MeshProcessing.UnreferencedVertex | src/geometry/ModelLoader.cpp:227-251 | A vertex named by no index keeps the zero normal. |
| MeshProcessing.GeneratedNormalsShape | src/geometry/ModelLoader.cpp:224-262 | Exactly one normal per vertex; unused vertices get zero; nothing but the normals changes. |
| MeshProcessing.MapV | src/geometry/ModelLoader.cpp:203-206 | A per-vertex map keeps the length and maps every element. |
| MeshProcessing.FlipNormals | src/geometry/ModelLoader.cpp:202-207 | The in-place loop negates every normal. |
| MeshProcessing.NegatedTwice | src/geometry/ModelLoader.cpp:202-207 | Flipping twice restores the normals. |
| MeshProcessing.TranslateVertices | src/geometry/ModelLoader.cpp:280-284 | The in-place loop subtracts the centre from every vertex. |
| MeshProcessing.ScaleVertices | src/geometry/ModelLoader.cpp:287-292 | The in-place loop multiplies every vertex by the scale. |
| MeshProcessing.CenterAndNormalizeMesh | src/geometry/ModelLoader.cpp:267-293 | The vertex buffer after centring and normalising is CenterAndNormalized of the old one. |
| MeshProcessing.ScanTranslated | src/geometry/ModelLoader.cpp:280-284 | The box of translated vertices is the translated box. |
| MeshProcessing.ScanScaled | src/geometry/ModelLoader.cpp:287-292 | The box of vertices scaled by a positive factor is the scaled box. |
| MeshProcessing.CenteredAndNormalized | src/geometry/ModelLoader.cpp:267-293 | With both options on, a positive targetSize and a positive extent, the result's box is centred on the origin and its largest extent is targetSize. |
| MeshProcessing.CenteredOnly | src/geometry/ModelLoader.cpp:280-284 | With centring only, the box is centred on the origin and keeps its extent. |
| MeshProcessing.PostProcessedKeeps | src/geometry/ModelLoader.cpp:195-221 | Post-processing keeps vertex count, indices, colours and texture coordinates, and keeps a valid mesh valid. |
| MeshProcessing.PostProcessedNormals | src/geometry/ModelLoader.cpp:197-199 | With generation on, a valid mesh without normals gets one per vertex. |
| MeshProcessing.DefaultPostProcessing | src/geometry/ModelLoader.h:32-39 | Under the defaults normals are never flipped: existing ones are kept and missing ones generated. A mesh with positive extent ends centred with largest extent 100. |
| Loader.ToArray | src/geometry/ModelLoader.cpp:203 | A fresh array holding the buffer. |
| Loader.ModelLoader.constructor | src/geometry/ModelLoader.cpp:4-13 | Default load options (normals generated, not flipped, centred, normalised to 100, smoothed) and the formats registered. |
| Loader.ModelLoader.InitializeSupportedFormats | src/geometry/ModelLoader.cpp:19-24 | The format list becomes exactly ["obj", "ply"]. |
| Loader.ModelLoader.SetLoadOptions | src/geometry/ModelLoader.h:41-42 | getLoadOptions then returns the options set; nothing else changes. |
| Loader.ModelLoader.CalculateModelInfo | src/geometry/ModelLoader.cpp:337-349 | The info is ModelInfoOf(mesh); its counts are the mesh's. |
| Loader.ModelLoader.PostProcessMesh | src/geometry/ModelLoader.cpp:195-221 | The mesh after the steps is PostProcessed under the current options, and the info is that of the result. |
| Loader.ModelLoader.LoadModel | src/geometry/ModelLoader.cpp:38-72 | The mesh and verdict are LoadOutcome's. The info changes only on success, to that of the loaded mesh. |
| Loader.IsSupportedFormatIff | src/geometry/ModelLoader.cpp:27-30 | A file is supported exactly when its lower-cased extension is "obj" or "ply". |
| Loader.SupportedByExtension | src/geometry/ModelLoader.cpp:27-30 | `stem.ext` is supported exactly when ext lower-cases to "obj" or "ply". |
| Loader.LoadRejectsEarly | src/geometry/ModelLoader.cpp:39-47 | A missing file or an unsupported extension fails with the mesh untouched. |
| Loader.LoadPlyFails | src/geometry/ModelLoader.cpp:58-60 | A PLY file always fails, with the mesh emptied (loadPLY, lines 187-192, returns false). |
| Loader.LoadSucceedsIff | src/geometry/ModelLoader.cpp:38-72 | Success exactly for an existing OBJ file with a vertex record; the loaded mesh keeps the file's vertex count and indices. |
| Loader.LoadOutcomeShape | src/geometry/ModelLoader.cpp:52-71 | Failure leaves the mesh untouched (early exits) or empty (all later failures); success leaves a mesh with a vertex. |
| Loader.DefaultLoadHasNormals | src/geometry/ModelLoader.cpp:195-221 | Under the defaults a loaded mesh has one normal per vertex. |
| Loader.LoadWrittenObj | src/geometry/ModelLoader.cpp:38-184 | An OBJ file written from points and triangles loads with the written vertex count and the triangles' indices. |
| Store.LastWriteWins | src/core/DataManager.cpp:9-264 | Calling the same setter twice equals calling it once with the later arguments. |
| Store.DistinctSettersCommute | src/core/DataManager.cpp:9-264 | Calls of different setters commute: no two write the same member. |
| Store.OtherGroupsUnchanged | src/core/DataManager.cpp:9-264 | A setter leaves every member group but its own unchanged. |
| Store.SetThenGetAnimation | src/core/DataManager.cpp:9-69 | The animation getters return what their setters stored. |
| Store.SetThenGetEffects | src/core/DataManager.cpp:73-125 | The effect, lighting and geometry-config getters return what was stored. |
| Store.SetThenGetControl | src/core/DataManager.cpp:129-197 | The time and control getters return what was stored. setGeometryFBO raises the flag and keeps the stored FBO, not its argument. |
| Store.SetThenGetMeshes | src/core/DataManager.cpp:200-249 | The mesh getters return what was shared, and its flag is raised. |
| Store.SetThenGetTextures | src/core/DataManager.cpp:250-294 | Both textures are stored and returned; position data is then reported exactly when the position texture is allocated. |
| Store.FlagStep | src/core/DataManager.cpp:129-274 | After one call a flag is up exactly when it was up or the call was its setter; no call changes the stored FBO. |
| Store.FlagsStayRaised | src/core/DataManager.cpp:129-274 | Once raised a flag stays raised; the stored FBO never changes. |
| Store.FlagsRecordCalls | src/core/DataManager.cpp:129-274 | From the initial state, a flag is up exactly when its setter was among the calls. |
| Store.ReadsAfterCalls | src/core/DataManager.cpp:140-143 | After any calls the FBO getter returns the default FBO. Position data is reported exactly when its setter was called and the stored texture is allocated (lines 266-274). |
| Store.InitialReports | src/core/DataManager.h:129-152 | Initially no FBO, mesh or position data is reported, and the model matrix is the identity. |
| Store.DataManager.constructor | src/core/DataManager.h:106-152 | Every member starts at its initialiser. |
| Store.DataManager.SetAnimationState | src/core/DataManager.cpp:9-12 | Sets currentState only; getAnimationState returns it. |
| Store.DataManager.SetTargetState | src/core/DataManager.cpp:19-22 | Sets targetState only; the getter returns it. |
| Store.DataManager.SetStateTransition | src/core/DataManager.cpp:29-32 | Sets stateTransition only; the getter returns it. |
| Store.DataManager.SetAnimationParams | src/core/DataManager.cpp:41-44 | Sets currentAnimParams only; the getter returns it. |
| Store.DataManager.SetCalmParams | src/core/DataManager.cpp:51-54 | Sets calmParams only; the getter returns it. |
| Store.DataManager.SetIntenseParams | src/core/DataManager.cpp:61-64 | Sets intenseParams only; the getter returns it. |
| Store.DataManager.SetFractureParams | src/core/DataManager.cpp:73-76 | Sets fractureParams only; the getter returns it. |
| Store.DataManager.SetDissipationParams | src/core/DataManager.cpp:83-86 | Sets dissipationParams only; the getter returns it. |
| Store.DataManager.SetLightingParams | src/core/DataManager.cpp:95-98 | Sets lightingParams only; the getter returns it. |
| Store.DataManager.SetCubeMeshConfig | src/core/DataManager.cpp:107-110 | Sets cubeMeshConfig only; the getter returns it. |
| Store.DataManager.SetFlowFieldConfig | src/core/DataManager.cpp:117-120 | Sets flowFieldConfig only; the getter returns it. |
| Store.DataManager.SetGeometryFbo | src/core/DataManager.cpp:129-133 | Raises hasGeometryFboData only; the stored FBO is unchanged. |
| Store.DataManager.SetElapsedTime | src/core/DataManager.cpp:147-150 | Sets elapsedTime only; the getter returns it. |
| Store.DataManager.SetTransitionSpeed | src/core/DataManager.cpp:157-160 | Sets transitionSpeed only; the getter returns it. |
| Store.DataManager.SetDebugMode | src/core/DataManager.cpp:169-172 | Sets debugMode only; isDebugMode returns it. |
| Store.DataManager.SetAutoEffectCycle | src/core/DataManager.cpp:179-182 | Sets autoEffectCycle only; isAutoEffectCycle returns it. |
| Store.DataManager.SetEffectStartTime | src/core/DataManager.cpp:189-192 | Sets effectStartTime only; the getter returns it. |
| Store.DataManager.SetScreen1Mesh | src/core/DataManager.cpp:200-204 | Stores the mesh and raises hasScreen1Data, nothing else. |
| Store.DataManager.SetScreen2BaseMesh | src/core/DataManager.cpp:216-220 | Stores the mesh and raises hasScreen2Data, nothing else. |
| Store.DataManager.SetScreen1ModelMatrix | src/core/DataManager.cpp:231-234 | Sets the model matrix only; the getter returns it. |
| Store.DataManager.SetCurrentModelPath | src/core/DataManager.cpp:241-244 | Sets the model path only; the getter returns it. |
| Store.DataManager.SetScreen1PositionTexture | src/core/DataManager.cpp:250-257 | Stores both textures and raises the flag. hasScreen1PositionData then holds exactly when the position texture is allocated. |
| Store.DataManager.SetScreen2PositionTexture | src/core/DataManager.cpp:259-264 | The same for screen 2. |

## Left out

- Floating point: coordinates, scales and texture coordinates are exact reals and lattice integers, so no rounding is modelled.
- MeshProcessing.GenerateNormals: the final `normalize()` of each accumulated normal (`ModelLoader.cpp:255-257`) is not modelled. The normals are the exact sums of the face normals; a zero sum stays zero.
- Cube.CubeMesh.GetVertexIndexWithNormal: the re-normalised normal of a reused vertex is the symbolic `Renormalized(prev, added)`, not a computed unit vector.
- Cube.ParseKeyOfKey: `vectorToKey`'s truncation of `vec * 1000` to int is not modelled. The key is the exact lattice triple, so positions that float rounding would weld differently are out of scope.
- `smoothNormals` has an empty body, so post-processing does nothing for it. `removeDuplicateVertices` is declared but never defined.
- Logging (`ofLog*`, `logMeshInfo`), including the warning `validateMesh` logs for an index count that is not a multiple of three. The warning changes nothing.
- `ofSplitString`, `ofToInt`, `ofToFloat`, `ofToLower` and `getFileExt` are given definitions of their own. Their pinned-down behaviour is covered; exponents, hexadecimal, locale and 32-bit overflow in `ofToInt` are not modelled.
- File access: `ofFile::doesFileExist`, `readToBuffer` and `getLines` become a map from path to the file's lines. Line endings other than the split into lines are not modelled.
- The texture and normal references of face records are parsed by the source into vectors it never reads, so they are not modelled.
- ObjFormat.LoadObj: the 32-bit counters of the source (`int i`, `size()` comparisons) are unbounded integers, and `outMesh` is a value rather than a reference.
- `ofVboMesh`, `ofTexture`, `ofFbo` and `ofMatrix4x4` are records: a texture is its id and whether it is allocated, an FBO an opaque handle, a matrix its 16 entries.
- The `std::mutex` of DataManager: the model is one sequential object.
- `DataManager::getInstance` and the private or deleted constructors: Dafny has no static singleton, so the single instance is not modelled. Plain copies of the object are not modelled either.
- The destructors of CubeMesh and ModelLoader, and OpenGL state such as `setMode(OF_PRIMITIVE_TRIANGLES)`.
- Loader.SupportedByExtension: concrete file names are covered by this general statement about `stem.ext`, not by worked literal examples.
