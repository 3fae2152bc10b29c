/** Choosing the backends: `vertices_to_h5m` picks the h5m writer named by
    its `method` argument, and `CadToDagmc.export_dagmc_h5m_file` checks its
    keyword arguments and picks the meshing backend, explicitly or from
    which backend's arguments were given. */
module Backend {
  import opened Outcomes
  import opened DagmcModel
  import opened DagmcEncoder

  /** A keyword argument's value as far as the selection looks at it. */
  datatype Arg = PyNone | PyStr(s: string) | PyOther

  datatype Mesher = Cadquery | Gmsh

  /** The ValueErrors of the selection. */
  datatype BackendError =
    | UnknownWriter
    | InvalidKeywords(keys: set<string>)
    | AmbiguousBackend
    | UnsupportedMesher(requested: Arg)
    | VolumeMeshWithCadquery
    | EncodeFailed(cause: EncodeError)

  // ---------------------------------------------------------------------
  // vertices_to_h5m

  /** What the dispatch produced: the pymoab writer's file (not part of
      this model) or the layout the h5py writer stores. */
  datatype Written = PymoabFile | H5pyFile(layout: H5mLayout)

  method VerticesToH5m(writer: Arg, vertices: seq<Point>, solids: seq<Solid>, tags: seq<string>, ic: Option<string>)
    returns (r: Result<Written, BackendError>)
    requires WellFormed(solids)
    ensures writer == PyStr("pymoab") ==> r == Ok(PymoabFile)
    ensures writer == PyStr("h5py") && Encode(vertices, solids, tags, ic).Ok? ==>
      r == Ok(H5pyFile(Encode(vertices, solids, tags, ic).value))
    ensures writer == PyStr("h5py") && Encode(vertices, solids, tags, ic).Err? ==>
      r == Err(EncodeFailed(Encode(vertices, solids, tags, ic).error))
    ensures writer != PyStr("pymoab") && writer != PyStr("h5py") ==> r == Err(UnknownWriter)
  {
    if writer == PyStr("pymoab") {
      return Ok(PymoabFile);
    } else if writer == PyStr("h5py") {
      var layout := VerticesToH5mH5py(vertices, solids, tags, ic);
      if layout.Err? {
        return Err(EncodeFailed(layout.error));
      }
      return Ok(H5pyFile(layout.value));
    }
    return Err(UnknownWriter);
  }

  // ---------------------------------------------------------------------
  // export_dagmc_h5m_file: keyword arguments

  const CadqueryKeys: set<string> := {"tolerance", "angular_tolerance"}
  const GmshKeys: set<string> :=
    {"min_mesh_size", "max_mesh_size", "mesh_algorithm", "set_size", "umesh_filename", "method", "unstructured_volumes"}
  const SelectionKeys: set<string> := {"meshing_backend", "h5m_backend"}
  const AcceptableKeys: set<string> := CadqueryKeys + GmshKeys + SelectionKeys

  /** The parameters each backend warns about when they are given to the
      other one, in the order the warning lists them. */
  const GmshOnlyParams: seq<string> :=
    ["min_mesh_size", "max_mesh_size", "mesh_algorithm", "set_size", "umesh_filename", "method"]
  const CadqueryParams: seq<string> := ["tolerance", "angular_tolerance"]

  /** The backends chosen, the h5m writer requested (checked only when the
      file is written) and the parameters a warning says are ignored. */
  datatype Selection = Selection(mesher: Mesher, writer: Arg, ignored: seq<string>)

  /** `[p for p in params if p in kwargs]` */
  function Present(params: seq<string>, kwargs: map<string, Arg>): (r: seq<string>)
    ensures forall p :: p in r <==> p in params && p in kwargs
    ensures r == [] <==> forall p :: p in params ==> p !in kwargs
  {
    if |params| == 0 then []
    else (if params[0] in kwargs then [params[0]] else []) + Present(params[1..], kwargs)
  }

  /** `kwargs.get(key)` */
  function Get(kwargs: map<string, Arg>, key: string): Arg {
    if key in kwargs then kwargs[key] else PyNone
  }

  /** The auto-selection when no meshing backend is requested. */
  function AutoSelect(kwargs: map<string, Arg>): Result<Arg, BackendError> {
    var hasCadquery := kwargs.Keys * CadqueryKeys != {};
    var hasGmsh := kwargs.Keys * GmshKeys != {};
    if hasCadquery && !hasGmsh then Ok(PyStr("cadquery"))
    else if hasGmsh && !hasCadquery then Ok(PyStr("gmsh"))
    else if hasCadquery && hasGmsh then Err(AmbiguousBackend)
    else Ok(PyStr("cadquery"))
  }

  /** The checks of export_dagmc_h5m_file before any geometry is touched. */
  function SelectBackends(kwargs: map<string, Arg>): Result<Selection, BackendError> {
    var invalid := kwargs.Keys - AcceptableKeys;
    if invalid != {} then Err(InvalidKeywords(invalid))
    else
      var rest := kwargs - SelectionKeys;
      var writer := if "h5m_backend" in kwargs then kwargs["h5m_backend"] else PyStr("h5py");
      var requested := if Get(kwargs, "meshing_backend") == PyNone then AutoSelect(rest) else Ok(kwargs["meshing_backend"]);
      if requested.Err? then Err(requested.error)
      else if requested.value == PyStr("cadquery") then
        if Get(rest, "unstructured_volumes") != PyNone then Err(VolumeMeshWithCadquery)
        else Ok(Selection(Cadquery, writer, Present(GmshOnlyParams, rest)))
      else if requested.value == PyStr("gmsh") then
        Ok(Selection(Gmsh, writer, Present(CadqueryParams, rest)))
      else Err(UnsupportedMesher(requested.value))
  }

  /** A keyword outside the accepted ones is rejected before anything
      else, with exactly the unknown keywords named. */
  lemma InvalidKeywordsFirst(kwargs: map<string, Arg>)
    ensures SelectBackends(kwargs).Err? && SelectBackends(kwargs).error.InvalidKeywords? <==>
      exists k :: k in kwargs && k !in AcceptableKeys
    ensures SelectBackends(kwargs).Err? && SelectBackends(kwargs).error.InvalidKeywords? ==>
      forall k :: k in SelectBackends(kwargs).error.keys <==> k in kwargs && k !in AcceptableKeys
  {
    if exists k :: k in kwargs && k !in AcceptableKeys {
      var k :| k in kwargs && k !in AcceptableKeys;
      assert k in kwargs.Keys - AcceptableKeys;
    }
  }

  /** Removing the selection keywords keeps a backend's keywords. */
  lemma KeysKept(kwargs: map<string, Arg>, keys: set<string>)
    requires keys * SelectionKeys == {}
    ensures (kwargs - SelectionKeys).Keys * keys != {} <==> exists k :: k in kwargs && k in keys
  {
    if exists k :: k in kwargs && k in keys {
      var k :| k in kwargs && k in keys;
      assert k !in keys * SelectionKeys;
      assert k in (kwargs - SelectionKeys).Keys;
    }
  }

  /** Without a requested meshing backend: CadQuery's arguments alone, or no
      backend arguments at all, select CadQuery; GMSH's alone select GMSH;
      both are ambiguous. */
  lemma AutoSelection(kwargs: map<string, Arg>)
    requires forall k :: k in kwargs ==> k in AcceptableKeys
    requires Get(kwargs, "meshing_backend") == PyNone
    ensures var r := SelectBackends(kwargs);
      var hasCadquery := exists k :: k in kwargs && k in CadqueryKeys;
      var hasGmsh := exists k :: k in kwargs && k in GmshKeys;
      (r.Ok? && r.value.mesher == Cadquery <==> !hasGmsh) &&
      (r.Ok? && r.value.mesher == Gmsh <==> hasGmsh && !hasCadquery) &&
      (r == Err(AmbiguousBackend) <==> hasGmsh && hasCadquery) &&
      (r.Ok? ==> r.value.ignored == [])
  {
    var rest := kwargs - SelectionKeys;
    KeysKept(kwargs, CadqueryKeys);
    KeysKept(kwargs, GmshKeys);
    if !exists k :: k in kwargs && k in GmshKeys {
      assert "unstructured_volumes" !in rest;
    }
  }

  /** A requested "gmsh" is used, with the CadQuery arguments given
      reported as ignored. */
  lemma RequestedGmsh(kwargs: map<string, Arg>)
    requires forall k :: k in kwargs ==> k in AcceptableKeys
    requires Get(kwargs, "meshing_backend") == PyStr("gmsh")
    ensures SelectBackends(kwargs).Ok? && SelectBackends(kwargs).value.mesher == Gmsh
    ensures forall p :: p in SelectBackends(kwargs).value.ignored <==> p in kwargs && p in CadqueryKeys
  {
    assert kwargs.Keys - AcceptableKeys == {};
    var rest := kwargs - SelectionKeys;
    assert forall p :: p in CadqueryParams <==> p in CadqueryKeys;
    assert forall p :: p in CadqueryKeys ==> (p in rest <==> p in kwargs);
  }

  /** A requested "cadquery" is used unless `unstructured_volumes` is given,
      with the GMSH surface-meshing arguments given reported as ignored. */
  lemma RequestedCadquery(kwargs: map<string, Arg>)
    requires forall k :: k in kwargs ==> k in AcceptableKeys
    requires Get(kwargs, "meshing_backend") == PyStr("cadquery")
    ensures SelectBackends(kwargs).Ok? <==> Get(kwargs, "unstructured_volumes") == PyNone
    ensures SelectBackends(kwargs).Err? ==> SelectBackends(kwargs).error == VolumeMeshWithCadquery
    ensures SelectBackends(kwargs).Ok? ==> SelectBackends(kwargs).value.mesher == Cadquery
    ensures SelectBackends(kwargs).Ok? ==>
      forall p :: p in SelectBackends(kwargs).value.ignored <==> p in kwargs && p in GmshKeys - {"unstructured_volumes"}
  {
    assert kwargs.Keys - AcceptableKeys == {};
    var rest := kwargs - SelectionKeys;
    assert Get(rest, "unstructured_volumes") == Get(kwargs, "unstructured_volumes");
    assert forall p :: p in GmshOnlyParams <==> p in GmshKeys - {"unstructured_volumes"};
    assert forall p :: p in GmshKeys ==> (p in rest <==> p in kwargs);
  }

  /** Any other requested meshing backend is rejected. */
  lemma RequestedUnsupported(kwargs: map<string, Arg>)
    requires forall k :: k in kwargs ==> k in AcceptableKeys
    requires Get(kwargs, "meshing_backend") !in {PyNone, PyStr("gmsh"), PyStr("cadquery")}
    ensures SelectBackends(kwargs) == Err(UnsupportedMesher(kwargs["meshing_backend"]))
  {
    assert kwargs.Keys - AcceptableKeys == {};
  }

  /** The h5m writer defaults to h5py. */
  lemma WriterDefault(kwargs: map<string, Arg>)
    requires SelectBackends(kwargs).Ok?
    ensures "h5m_backend" !in kwargs ==> SelectBackends(kwargs).value.writer == PyStr("h5py")
    ensures "h5m_backend" in kwargs ==> SelectBackends(kwargs).value.writer == kwargs["h5m_backend"]
  {
  }
}
