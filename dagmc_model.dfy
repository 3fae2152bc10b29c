/** The logical content of the DAGMC `.h5m` file that the h5py writer of
    cad_to_dagmc produces (`_vertices_to_h5m_h5py`): every dataset it
    writes, as a value computed from the tessellated input. The imperative
    writer in module DagmcEncoder is proved to build exactly this value; the
    properties a reader relies on are proved about it in DagmcProperties. */
module DagmcModel {
  import opened Outcomes
  import opened Seqs

  // ---------------------------------------------------------------------
  // Input
  // ---------------------------------------------------------------------

  datatype Point = Point(x: real, y: real, z: real)

  /** Three 0-based vertex indices. */
  datatype Triangle = Triangle(a: nat, b: nat, c: nat)

  /** One entry `face_id -> triangles` of a solid's inner dictionary. */
  datatype Face = Face(faceId: int, triangles: seq<Triangle>)

  /** One entry `solid_id -> {face_id -> triangles}` of
      `triangles_by_solid_by_face`, faces in dictionary order. */
  datatype Solid = Solid(solidId: int, faces: seq<Face>)

  /** One visit of the nested `for solid ... for face ...` loops. */
  datatype Listing = Listing(solidId: int, face: Face)

  function SolidIds(solids: seq<Solid>): seq<int> {
    seq(|solids|, i requires 0 <= i < |solids| => solids[i].solidId)
  }

  /** The input is a dictionary: its solid ids are distinct. */
  predicate WellFormed(solids: seq<Solid>) {
    Distinct(SolidIds(solids))
  }

  function FaceIds(s: Solid): seq<int> {
    seq(|s.faces|, j requires 0 <= j < |s.faces| => s.faces[j].faceId)
  }

  /** Each inner dictionary lists a face id at most once. */
  predicate FacesDistinct(solids: seq<Solid>) {
    forall i :: 0 <= i < |solids| ==> Distinct(FaceIds(solids[i]))
  }

  function Row(s: Solid): seq<Listing> {
    seq(|s.faces|, j requires 0 <= j < |s.faces| => Listing(s.solidId, s.faces[j]))
  }

  /** The (solid, face) pairs in the order the nested loops visit them. */
  function Listings(solids: seq<Solid>): seq<Listing> {
    if |solids| == 0 then [] else Listings(solids[..|solids| - 1]) + Row(solids[|solids| - 1])
  }

  function FaceIdsListed(ls: seq<Listing>): set<int> {
    if |ls| == 0 then {} else FaceIdsListed(ls[..|ls| - 1]) + {ls[|ls| - 1].face.faceId}
  }

  /** `face_ids_with_solid_ids[f]`: the solids that list face `f`, in
      visiting order. A face is listed exactly when it has an owner. */
  function OwnerIds(ls: seq<Listing>, f: int): (owners: seq<int>)
    ensures f in FaceIdsListed(ls) <==> |owners| > 0
  {
    if |ls| == 0 then []
    else OwnerIds(ls[..|ls| - 1], f) + (if ls[|ls| - 1].face.faceId == f then [ls[|ls| - 1].solidId] else [])
  }

  /** `all_faces[f]`: the triangles of face `f` as listed by the first solid
      that lists it; later listings are ignored. */
  function FirstTriangles(ls: seq<Listing>, f: int): seq<Triangle> {
    if |ls| == 0 then []
    else if f in FaceIdsListed(ls[..|ls| - 1]) then FirstTriangles(ls[..|ls| - 1], f)
    else if ls[|ls| - 1].face.faceId == f then ls[|ls| - 1].face.triangles
    else []
  }

  /** `sorted(all_faces.keys())` */
  function FaceOrder(solids: seq<Solid>): seq<int> {
    SortedInts(FaceIdsListed(Listings(solids)))
  }

  /** The vertex indices the triangles touch. */
  function VertexSet(tris: seq<Triangle>): set<int> {
    if |tris| == 0 then {}
    else VertexSet(tris[..|tris| - 1]) + {tris[|tris| - 1].a, tris[|tris| - 1].b, tris[|tris| - 1].c}
  }

  /** `face_vertex_sets[f]`: the sorted distinct vertices of a face. */
  function FaceVertices(tris: seq<Triangle>): seq<int> {
    SortedInts(VertexSet(tris))
  }

  /** `all_triangles`: each face's triangles, faces in the given order. */
  function AllTriangles(ls: seq<Listing>, order: seq<int>): seq<Triangle> {
    if |order| == 0 then []
    else AllTriangles(ls, order[..|order| - 1]) + FirstTriangles(ls, order[|order| - 1])
  }

  function OneBased(t: Triangle): Triangle {
    Triangle(t.a + 1, t.b + 1, t.c + 1)
  }

  /** The `connectivity` dataset: `all_triangles + 1`. */
  function Connectivity(tris: seq<Triangle>): seq<Triangle> {
    seq(|tris|, i requires 0 <= i < |tris| => OneBased(tris[i]))
  }

  /** Python's truth test `if implicit_complement_material_tag:`. */
  predicate ComplementRequested(ic: Option<string>) {
    ic.Some? && ic.value != ""
  }

  // ---------------------------------------------------------------------
  // Handle space
  // ---------------------------------------------------------------------

  /** The global handle numbering: vertices 1..V, triangles after them, then
      surface sets, volume sets, group sets, the optional implicit-complement
      group and the file set. */
  datatype Handles = Handles(vertexCount: nat, triangleCount: nat, surfaceCount: nat,
                             volumeCount: nat, complement: bool)
  {
    function TriangleStart(): int { 1 + vertexCount }
    function SetsStart(): int { 1 + vertexCount + triangleCount }
    function Surface(k: int): int { SetsStart() + k }
    function Volume(i: int): int { SetsStart() + surfaceCount + i }
    function Group(i: int): int { SetsStart() + surfaceCount + volumeCount + i }
    function Complement(): int { SetsStart() + surfaceCount + 2 * volumeCount }
    function FileSet(): int { Complement() + (if complement then 1 else 0) }
    function ComplementCount(): nat { if complement then 1 else 0 }
    /** Number of rows of the set table. */
    function SetCount(): nat { surfaceCount + 2 * volumeCount + ComplementCount() + 1 }
  }

  function HandlesOf(vertices: seq<Point>, solids: seq<Solid>, ic: Option<string>): Handles {
    var ls := Listings(solids);
    var order := FaceOrder(solids);
    Handles(|vertices|, |AllTriangles(ls, order)|, |order|, |solids|, ComplementRequested(ic))
  }

  function SurfaceHandles(h: Handles): seq<int> {
    seq(h.surfaceCount, k requires 0 <= k < h.surfaceCount => h.Surface(k))
  }

  function VolumeHandles(h: Handles): seq<int> {
    seq(h.volumeCount, i requires 0 <= i < h.volumeCount => h.Volume(i))
  }

  function GroupHandles(h: Handles): seq<int> {
    seq(h.volumeCount, i requires 0 <= i < h.volumeCount => h.Group(i))
  }

  function ComplementHandles(h: Handles): seq<int> {
    if h.complement then [h.Complement()] else []
  }

  /** `volume_set_ids[sid]` */
  function VolumeHandleOf(solids: seq<Solid>, h: Handles, sid: int): int {
    h.Volume(IndexOf(SolidIds(solids), sid))
  }

  /** `surface_set_ids[fid]` */
  function SurfaceHandleOf(order: seq<int>, h: Handles, fid: int): int {
    h.Surface(IndexOf(order, fid))
  }

  function Repeat<T>(x: T, n: nat): seq<T> {
    seq(n, _ => x)
  }

  // ---------------------------------------------------------------------
  // Sparse tags
  // ---------------------------------------------------------------------

  /** A sparse tag: `id_list` names the tagged handles, `values[i]` is the
      value of handle `id_list[i]`. */
  datatype SparseTag<T> = SparseTag(idList: seq<int>, values: seq<T>)

  const VolumeCategory: string := "Volume"
  const GroupCategory: string := "Group"
  const SurfaceCategory: string := "Surface"

  /** CATEGORY: volumes, then groups, then surfaces, then the complement. */
  function CategoryTag(h: Handles): SparseTag<string> {
    SparseTag(VolumeHandles(h) + GroupHandles(h) + SurfaceHandles(h) + ComplementHandles(h),
              Repeat(VolumeCategory, h.volumeCount) + Repeat(GroupCategory, h.volumeCount)
              + Repeat(SurfaceCategory, h.surfaceCount) + Repeat(GroupCategory, h.ComplementCount()))
  }

  /** GEOM_DIMENSION: 3 on volumes, 2 on surfaces, nothing on groups. */
  function GeomDimensionTag(h: Handles): SparseTag<int> {
    SparseTag(VolumeHandles(h) + SurfaceHandles(h),
              Repeat(3, h.volumeCount) + Repeat(2, h.surfaceCount))
  }

  /** The GEOM_SENSE_2 pair of a face owned by `owners`. */
  function Sense(solids: seq<Solid>, h: Handles, owners: seq<int>): (int, int)
    requires |owners| > 0
  {
    if |owners| == 2 then (VolumeHandleOf(solids, h, owners[0]), VolumeHandleOf(solids, h, owners[1]))
    else (VolumeHandleOf(solids, h, owners[0]), 0)
  }

  function SenseValues(ls: seq<Listing>, solids: seq<Solid>, order: seq<int>, h: Handles): seq<(int, int)>
    requires forall k :: 0 <= k < |order| ==> order[k] in FaceIdsListed(ls)
  {
    seq(|order|, k requires 0 <= k < |order| => Sense(solids, h, OwnerIds(ls, order[k])))
  }

  function GlobalIdTag(solids: seq<Solid>, order: seq<int>, h: Handles): SparseTag<int> {
    SparseTag(SurfaceHandles(h) + VolumeHandles(h) + GroupHandles(h),
              order + SolidIds(solids) + SolidIds(solids))
  }

  /** A NAME value as stored in its 32-byte fixed-width field. */
  function StoredName(s: string): string {
    if |s| <= 32 then s else s[..32]
  }

  function GroupName(tag: string): string {
    StoredName("mat:" + tag)
  }

  function ComplementName(tag: string): string {
    StoredName("mat:" + tag + "_comp")
  }

  function NameTag(tags: seq<string>, ic: Option<string>, h: Handles): SparseTag<string>
    requires |tags| == h.volumeCount
    requires h.complement ==> ic.Some?
  {
    SparseTag(GroupHandles(h) + ComplementHandles(h),
              seq(|tags|, i requires 0 <= i < |tags| => GroupName(tags[i]))
              + (if h.complement then [ComplementName(ic.value)] else []))
  }

  // ---------------------------------------------------------------------
  // Set table
  // ---------------------------------------------------------------------

  /** Contents of surface set `k`: its 1-based vertex handles, then the
      handles of its triangles, which lie contiguously in `connectivity`. */
  function SurfaceContents(ls: seq<Listing>, order: seq<int>, h: Handles, k: int): seq<int>
    requires 0 <= k < |order|
  {
    var tris := FirstTriangles(ls, order[k]);
    SurfaceBlock(FaceVertices(tris), h.TriangleStart(), |AllTriangles(ls, order[..k])|, |tris|)
  }

  /** A surface block from its parts: the 0-based vertex indices made
      1-based, then the handles of `count` consecutive triangles, the first
      being triangle number `offset` after `triangleStart`. */
  function SurfaceBlock(verts: seq<int>, triangleStart: int, offset: int, count: nat): seq<int> {
    Shift(verts, 1) + Range(triangleStart + offset, count)
  }

  /** The contents of set row `j`: surfaces, then volumes (empty), then
      material groups (their volume), then the implicit-complement group
      (the last volume), then the file set, which holds the range of every
      handle before it. */
  function ContentBlock(ls: seq<Listing>, order: seq<int>, h: Handles, j: int): seq<int>
    requires h.surfaceCount == |order| && (h.complement ==> h.volumeCount > 0)
    requires 0 <= j < h.SetCount()
  {
    var f := |order|;
    var n := h.volumeCount;
    if j < f then SurfaceContents(ls, order, h, j)
    else if j < f + n then []
    else if j < f + 2 * n then [h.Volume(j - (f + n))]
    else if j < h.SetCount() - 1 then [h.Volume(n - 1)]
    else [1, h.FileSet() - 1]
  }

  /** One block of `contents` per set row, in row order. */
  function ContentBlocks(ls: seq<Listing>, order: seq<int>, h: Handles): (cb: seq<seq<int>>)
    requires h.surfaceCount == |order| && (h.complement ==> h.volumeCount > 0)
    ensures |cb| == h.SetCount()
  {
    seq(h.SetCount(), j requires 0 <= j < h.SetCount() => ContentBlock(ls, order, h, j))
  }

  /** Children of a volume: the surface handles of its faces, in the
      solid's own face order. */
  function SolidChildren(s: Solid, order: seq<int>, h: Handles): seq<int> {
    seq(|s.faces|, j requires 0 <= j < |s.faces| => SurfaceHandleOf(order, h, s.faces[j].faceId))
  }

  /** The children of set row `j`: only volumes have any. */
  function ChildBlock(solids: seq<Solid>, order: seq<int>, h: Handles, j: int): seq<int> {
    if |order| <= j < |order| + |solids| then SolidChildren(solids[j - |order|], order, h) else []
  }

  function ChildBlocks(solids: seq<Solid>, order: seq<int>, h: Handles): (chb: seq<seq<int>>)
    ensures |chb| == h.SetCount()
  {
    seq(h.SetCount(), j requires 0 <= j < h.SetCount() => ChildBlock(solids, order, h, j))
  }

  /** Parents of a surface: the volume handles of every solid listing it. */
  function VolumeHandlesOf(solids: seq<Solid>, h: Handles, owners: seq<int>): seq<int> {
    seq(|owners|, j requires 0 <= j < |owners| => VolumeHandleOf(solids, h, owners[j]))
  }

  /** The parents of set row `j`: only surfaces have any. */
  function ParentBlock(ls: seq<Listing>, solids: seq<Solid>, order: seq<int>, h: Handles, j: int): seq<int> {
    if 0 <= j < |order| then VolumeHandlesOf(solids, h, OwnerIds(ls, order[j])) else []
  }

  function ParentBlocks(ls: seq<Listing>, solids: seq<Solid>, order: seq<int>, h: Handles): (pb: seq<seq<int>>)
    ensures |pb| == h.SetCount()
  {
    seq(h.SetCount(), j requires 0 <= j < h.SetCount() => ParentBlock(ls, solids, order, h, j))
  }

  /** A row of the `list` dataset. */
  datatype SetRow = SetRow(contentsEnd: int, childrenEnd: int, parentsEnd: int, flags: int)

  /** MESHSET_SET: the set stores individual handles. */
  const HandleSetFlags: int := 2
  /** MESHSET_SET | ranged contents, used by the file set. */
  const FileSetFlags: int := 10

  function SetList(cb: seq<seq<int>>, chb: seq<seq<int>>, pb: seq<seq<int>>): seq<SetRow>
    requires |cb| == |chb| == |pb|
  {
    seq(|cb|, j requires 0 <= j < |cb| =>
      SetRow(Ends(cb)[j], Ends(chb)[j], Ends(pb)[j], if j == |cb| - 1 then FileSetFlags else HandleSetFlags))
  }

  /** The dense GLOBAL_ID of every set row; -1 on the complement and the
      file set. */
  function SetGlobalIds(solids: seq<Solid>, order: seq<int>, h: Handles): seq<int> {
    order + SolidIds(solids) + SolidIds(solids) + Repeat(-1, h.ComplementCount()) + [-1]
  }

  // ---------------------------------------------------------------------
  // The file
  // ---------------------------------------------------------------------

  datatype H5mLayout = H5mLayout(
    coordinates: seq<Point>,
    nodeStartId: int,
    connectivity: seq<Triangle>,
    triangleStartId: int,
    category: SparseTag<string>,
    geomDimension: SparseTag<int>,
    geomSense: SparseTag<(int, int)>,
    globalId: SparseTag<int>,
    name: SparseTag<string>,
    contents: seq<int>,
    children: seq<int>,
    parents: seq<int>,
    setList: seq<SetRow>,
    setsStartId: int,
    setGlobalIds: seq<int>,
    maxId: int)

  datatype EncodeError =
    | MaterialTagCountMismatch(tagCount: nat, solidCount: nat)  // ValueError, core.py:294-296
    | NoVertices                                              // IndexError on vertices[0]
    | NoVolumeForComplement                                   // IndexError on solid_ids[-1]

  function LayoutOf(vertices: seq<Point>, solids: seq<Solid>, tags: seq<string>, ic: Option<string>): H5mLayout
    requires |tags| == |solids|
    requires ComplementRequested(ic) ==> |solids| > 0
  {
    var ls := Listings(solids);
    var order := FaceOrder(solids);
    var h := HandlesOf(vertices, solids, ic);
    var cb := ContentBlocks(ls, order, h);
    var chb := ChildBlocks(solids, order, h);
    var pb := ParentBlocks(ls, solids, order, h);
    H5mLayout(
      vertices, 1,
      Connectivity(AllTriangles(ls, order)), h.TriangleStart(),
      CategoryTag(h), GeomDimensionTag(h),
      SparseTag(SurfaceHandles(h), SenseValues(ls, solids, order, h)),
      GlobalIdTag(solids, order, h),
      NameTag(tags, ic, h),
      Concat(cb), Concat(chb), Concat(pb),
      SetList(cb, chb, pb), h.SetsStart(),
      SetGlobalIds(solids, order, h),
      h.FileSet())
  }

  /** The inputs the writer accepts: a dictionary of solids with one tag
      each, and at least one solid when an implicit complement is asked
      for. */
  predicate Encodable(solids: seq<Solid>, tags: seq<string>, ic: Option<string>) {
    WellFormed(solids) && |tags| == |solids| && (ComplementRequested(ic) ==> |solids| > 0)
  }

  /** What `_vertices_to_h5m_h5py` writes, or the error it raises. */
  function Encode(vertices: seq<Point>, solids: seq<Solid>, tags: seq<string>, ic: Option<string>)
    : Result<H5mLayout, EncodeError>
  {
    if |tags| != |solids| then Err(MaterialTagCountMismatch(|tags|, |solids|))
    else if |vertices| == 0 then Err(NoVertices)
    else if ComplementRequested(ic) && |solids| == 0 then Err(NoVolumeForComplement)
    else Ok(LayoutOf(vertices, solids, tags, ic))
  }

  // ---------------------------------------------------------------------
  // Structure of the model
  // ---------------------------------------------------------------------

  lemma {:induction false} ListingOf(solids: seq<Solid>, i: nat, j: nat)
    requires i < |solids| && j < |solids[i].faces|
    ensures Listing(solids[i].solidId, solids[i].faces[j]) in Listings(solids)
    decreases |solids|
  {
    var n := |solids|;
    if i == n - 1 {
      assert Row(solids[i])[j] == Listing(solids[i].solidId, solids[i].faces[j]);
    } else {
      assert solids[..n - 1][i] == solids[i];
      ListingOf(solids[..n - 1], i, j);
    }
  }

  lemma {:induction false} ListedMember(ls: seq<Listing>, p: nat)
    requires p < |ls|
    ensures ls[p].face.faceId in FaceIdsListed(ls)
    decreases |ls|
  {
    if p < |ls| - 1 {
      assert ls[..|ls| - 1][p] == ls[p];
      ListedMember(ls[..|ls| - 1], p);
    }
  }

  /** Every face of every solid is a listed face id. */
  lemma ListedFace(solids: seq<Solid>, i: nat, j: nat)
    requires i < |solids| && j < |solids[i].faces|
    ensures solids[i].faces[j].faceId in FaceIdsListed(Listings(solids))
  {
    ListingOf(solids, i, j);
    var ls := Listings(solids);
    var p :| 0 <= p < |ls| && ls[p] == Listing(solids[i].solidId, solids[i].faces[j]);
    ListedMember(ls, p);
  }

  lemma {:induction false} ListingsFromSolids(solids: seq<Solid>, p: nat)
    requires p < |Listings(solids)|
    ensures Listings(solids)[p].solidId in SolidIds(solids)
    decreases |solids|
  {
    var n := |solids|;
    var prefix := Listings(solids[..n - 1]);
    if p < |prefix| {
      ListingsFromSolids(solids[..n - 1], p);
      var q :| 0 <= q < n - 1 && SolidIds(solids[..n - 1])[q] == prefix[p].solidId;
      assert SolidIds(solids)[q] == prefix[p].solidId;
    } else {
      assert Listings(solids)[p].solidId == SolidIds(solids)[n - 1];
    }
  }

  lemma {:induction false} OwnersWithin(ls: seq<Listing>, f: int, ids: seq<int>)
    requires forall p :: 0 <= p < |ls| ==> ls[p].solidId in ids
    ensures forall j :: 0 <= j < |OwnerIds(ls, f)| ==> OwnerIds(ls, f)[j] in ids
    decreases |ls|
  {
    if |ls| > 0 {
      var prefix := ls[..|ls| - 1];
      assert forall p :: 0 <= p < |prefix| ==> prefix[p] == ls[p];
      OwnersWithin(prefix, f, ids);
    }
  }

  /** Every owner recorded for a face is one of the input's solid ids. */
  lemma OwnersAreSolids(solids: seq<Solid>, f: int)
    ensures forall j :: 0 <= j < |OwnerIds(Listings(solids), f)| ==> OwnerIds(Listings(solids), f)[j] in SolidIds(solids)
  {
    forall p | 0 <= p < |Listings(solids)|
      ensures Listings(solids)[p].solidId in SolidIds(solids)
    {
      ListingsFromSolids(solids, p);
    }
    OwnersWithin(Listings(solids), f, SolidIds(solids));
  }

  lemma IncreasingIsDistinct(s: seq<int>)
    requires StrictlyIncreasing(s)
    ensures Distinct(s)
  {
  }
}
