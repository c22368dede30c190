/** ModelLoader: picks a reader by file extension, reads OBJ files, rejects
    PLY, validates the result and post-processes it, remembering the info of
    the last successful load. The file system is a map from path to the
    file's lines. */
module Loader {
  import opened CommonStructs
  import opened GeometryData
  import opened Text
  import opened ObjFormat
  import opened MeshProcessing

  /** The formats initializeSupportedFormats registers, in order. */
  const SupportedFormats: seq<string> := ["obj", "ply"]

  /** The lower-cased extension loadModel dispatches on. */
  function Extension(path: string): string { ToLower(FileExt(path)) }

  /** isSupportedFormat against the registered formats. */
  predicate Supported(path: string) { Extension(path) in SupportedFormats }

  /** What loadModel returns and leaves in outMesh: a missing file or an
      unsupported extension fails before the mesh is touched; otherwise the
      mesh is cleared and read, and it is kept (post-processed) only when the
      reader succeeded and the mesh has a vertex; in every other case it is
      left empty. */
  function LoadOutcome(files: map<string, seq<string>>, path: string, outMesh: ModelMesh, opts: LoadOptions)
    : (ModelMesh, bool)
  {
    if path !in files || !Supported(path) then (outMesh, false)
    else
      var read := BuildMesh(ParseLines(files[path]));
      if Extension(path) == "obj" && ValidMesh(read) then (PostProcessed(read, opts), true)
      else (EmptyMesh(), false)
  }

  /** A buffer of the mesh as a fresh array, for the steps that work in place. */
  method ToArray(s: seq<Vec3>) returns (a: array<Vec3>)
    ensures fresh(a) && a[..] == s
  {
    a := new Vec3[|s|](i requires 0 <= i < |s| => s[i]);
  }

  class ModelLoader {
    var loadOptions: LoadOptions
    var lastModelInfo: ModelInfo
    var supportedFormats: seq<string>

    /** The registered formats are the two readers'. */
    predicate Valid()
      reads this
    {
      supportedFormats == SupportedFormats
    }

    /** Default options and the two formats. The source leaves the info's
        scalar members uninitialised until the first load; the model takes
        their initial value as a parameter. */
    constructor (initialInfo: ModelInfo)
      ensures Valid()
      ensures loadOptions == DefaultLoadOptions && lastModelInfo == initialInfo
    {
      loadOptions := DefaultLoadOptions;
      lastModelInfo := initialInfo;
      supportedFormats := [];
      new;
      InitializeSupportedFormats();
      loadOptions := loadOptions.(generateNormals := true, centerModel := true, normalizeSize := true,
                                  targetSize := 100.0, smoothNormals := true);
    }

    /** Clears the format list and registers "obj" then "ply". */
    method InitializeSupportedFormats()
      modifies this
      ensures Valid()
      ensures loadOptions == old(loadOptions) && lastModelInfo == old(lastModelInfo)
    {
      supportedFormats := [];
      supportedFormats := supportedFormats + ["obj"];
      supportedFormats := supportedFormats + ["ply"];
    }

    function GetSupportedFormats(): seq<string>
      reads this
    {
      supportedFormats
    }

    /** The lower-cased extension is one of the registered formats. */
    predicate IsSupportedFormat(path: string)
      reads this
    {
      ToLower(FileExt(path)) in supportedFormats
    }

    /** Stores the options; getLoadOptions then returns them. */
    method SetLoadOptions(options: LoadOptions)
      modifies this
      ensures GetLoadOptions() == options
      ensures supportedFormats == old(supportedFormats) && lastModelInfo == old(lastModelInfo)
    {
      loadOptions := options;
    }

    function GetLoadOptions(): LoadOptions
      reads this
    {
      loadOptions
    }

    function GetLastLoadedInfo(): ModelInfo
      reads this
    {
      lastModelInfo
    }

    /** calculateModelInfo: records the mesh's counts, flags, box, centre and
        largest extent. */
    method CalculateModelInfo(mesh: ModelMesh)
      modifies this
      ensures lastModelInfo == ModelInfoOf(mesh)
      ensures lastModelInfo.vertexCount == |mesh.vertices| && lastModelInfo.indexCount == |mesh.indices|
      ensures loadOptions == old(loadOptions) && supportedFormats == old(supportedFormats)
    {
      lastModelInfo := lastModelInfo.(vertexCount := |mesh.vertices|, indexCount := |mesh.indices|);
      lastModelInfo := lastModelInfo.(hasNormals := |mesh.normals| > 0, hasTexCoords := |mesh.texCoords| > 0,
                                      hasColors := |mesh.colors| > 0);
      var min, max := CalculateBoundingBox(mesh.vertices);
      lastModelInfo := lastModelInfo.(boundingBoxMin := min, boundingBoxMax := max);
      lastModelInfo := lastModelInfo.(center := Scale(Add(min, max), 0.5));
      var size := Sub(max, min);
      lastModelInfo := lastModelInfo.(maxDimension := Max3(size));
    }

    /** postProcessMesh: the steps of PostProcessed under the current options,
        then the model info of the result. */
    method PostProcessMesh(mesh: ModelMesh) returns (result: ModelMesh)
      modifies this
      ensures result == PostProcessed(mesh, old(loadOptions))
      ensures lastModelInfo == ModelInfoOf(result)
      ensures loadOptions == old(loadOptions) && supportedFormats == old(supportedFormats)
    {
      result := mesh;
      if loadOptions.generateNormals && |result.normals| == 0 {
        result := GenerateNormals(result);
      }
      if loadOptions.flipNormals && |result.normals| > 0 {
        var normals := ToArray(result.normals);
        FlipNormals(normals);
        result := result.(normals := normals[..]);
      }
      if loadOptions.centerModel || loadOptions.normalizeSize {
        var vertices := ToArray(result.vertices);
        CenterAndNormalizeMesh(vertices, loadOptions);
        result := result.(vertices := vertices[..]);
      }
      CalculateModelInfo(result);
    }

    /** loadModel: the mesh and the verdict of LoadOutcome; the info changes
        exactly on success, to that of the loaded mesh. */
    method LoadModel(files: map<string, seq<string>>, path: string, outMesh: ModelMesh)
      returns (mesh: ModelMesh, success: bool)
      requires Valid()
      modifies this
      ensures (mesh, success) == LoadOutcome(files, path, outMesh, old(loadOptions))
      ensures success ==> lastModelInfo == ModelInfoOf(mesh)
      ensures !success ==> lastModelInfo == old(lastModelInfo)
      ensures Valid() && loadOptions == old(loadOptions)
    {
      mesh := outMesh;
      if path !in files {
        return mesh, false;
      }
      if !IsSupportedFormat(path) {
        return mesh, false;
      }
      var extension := ToLower(FileExt(path));
      success := false;
      mesh := EmptyMesh();
      if extension == "obj" {
        success, mesh := LoadObj(files, path, mesh);
      } else if extension == "ply" {
        success := false;
      }
      if success && ValidMesh(mesh) {
        mesh := PostProcessMesh(mesh);
        return mesh, true;
      } else {
        mesh := EmptyMesh();
        return mesh, false;
      }
    }
  }

  /** A loader's format test is the registered list's. */
  lemma IsSupportedFormatIff(l: ModelLoader, path: string)
    requires l.Valid()
    ensures l.IsSupportedFormat(path) <==> Extension(path) == "obj" || Extension(path) == "ply"
  {
  }

  /** The extension test reads only what follows the dot of `stem.ext`,
      ignoring case. */
  lemma SupportedByExtension(stem: string, ext: string)
    requires |stem| > 0 && stem[|stem| - 1] != '/'
    requires '/' !in ext && '.' !in ext
    ensures Extension(stem + "." + ext) == ToLower(ext)
    ensures Supported(stem + "." + ext) <==> ToLower(ext) == "obj" || ToLower(ext) == "ply"
  {
    FileExtOfStem(stem, ext);
  }

  /** A missing file and an unsupported extension fail and leave the mesh as
      it was. */
  lemma LoadRejectsEarly(files: map<string, seq<string>>, path: string, outMesh: ModelMesh, opts: LoadOptions)
    requires path !in files || !Supported(path)
    ensures LoadOutcome(files, path, outMesh, opts) == (outMesh, false)
  {
  }

  /** A PLY file always fails, with the mesh emptied. */
  lemma LoadPlyFails(files: map<string, seq<string>>, path: string, outMesh: ModelMesh, opts: LoadOptions)
    requires path in files && Extension(path) == "ply"
    ensures LoadOutcome(files, path, outMesh, opts) == (EmptyMesh(), false)
  {
  }

  /** loadModel succeeds exactly for an existing OBJ file with a vertex
      record; the loaded mesh then keeps the file's vertex count and indices. */
  lemma LoadSucceedsIff(files: map<string, seq<string>>, path: string, outMesh: ModelMesh, opts: LoadOptions)
    ensures var (mesh, ok) := LoadOutcome(files, path, outMesh, opts);
      ok <==> path in files && Extension(path) == "obj" && |ParseLines(files[path]).vertices| > 0
    ensures var (mesh, ok) := LoadOutcome(files, path, outMesh, opts);
      ok ==> |mesh.vertices| == |ParseLines(files[path]).vertices| && mesh.indices == ParseLines(files[path]).indices
  {
    var (mesh, ok) := LoadOutcome(files, path, outMesh, opts);
    if path in files && Supported(path) {
      var d := ParseLines(files[path]);
      BuildMeshAttributes(d);
      PostProcessedKeeps(BuildMesh(d), opts);
    }
  }

  /** Every failure leaves either the untouched mesh (missing file,
      unsupported extension) or an empty one; every success a valid mesh. */
  lemma LoadOutcomeShape(files: map<string, seq<string>>, path: string, outMesh: ModelMesh, opts: LoadOptions)
    ensures var (mesh, ok) := LoadOutcome(files, path, outMesh, opts);
      (!ok ==> mesh == outMesh || mesh == EmptyMesh()) &&
      (!ok && path in files && Supported(path) ==> mesh == EmptyMesh()) &&
      (ok ==> ValidMesh(mesh))
  {
    if path in files && Supported(path) {
      PostProcessedKeeps(BuildMesh(ParseLines(files[path])), opts);
    }
  }

  /** Under the default options a loaded mesh has one normal per vertex: the
      file's own when it gives one per vertex, generated ones otherwise. */
  lemma DefaultLoadHasNormals(files: map<string, seq<string>>, path: string, outMesh: ModelMesh)
    ensures var (mesh, ok) := LoadOutcome(files, path, outMesh, DefaultLoadOptions);
      ok ==> |mesh.normals| == |mesh.vertices|
  {
    if path in files && Supported(path) {
      var d := ParseLines(files[path]);
      BuildMeshAttributes(d);
      var read := BuildMesh(d);
      PostProcessedKeeps(read, DefaultLoadOptions);
      if ValidMesh(read) {
        DefaultPostProcessing(read);
      }
    }
  }

  /** An OBJ file written from lattice points and triangles loads
      successfully when it has a point, with the written vertex count and
      exactly the written triangles' indices. */
  lemma LoadWrittenObj(files: map<string, seq<string>>, path: string, outMesh: ModelMesh, opts: LoadOptions,
                       ps: seq<Point>, ts: seq<Triangle>)
    requires forall k :: 0 <= k < |ts| ==> Storable(ts[k])
    requires |ps| > 0 && Extension(path) == "obj"
    requires path in files && files[path] == WriteObj(ps, ts)
    ensures var (mesh, ok) := LoadOutcome(files, path, outMesh, opts);
      ok && |mesh.vertices| == |ps| && mesh.indices == Flatten(ts)
  {
    WriteReadObj(ps, ts);
    assert |ParseLines(files[path]).vertices| == |ps|;
    LoadSucceedsIff(files, path, outMesh, opts);
  }
}
