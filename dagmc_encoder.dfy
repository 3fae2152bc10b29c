/** The h5py writer `_vertices_to_h5m_h5py` (core.py:279-712) as the loops
    it runs: each method below is one section of that function, filling the
    same dictionaries and lists, and each is proved to produce the
    corresponding part of `DagmcModel.Encode`. The h5py dataset writes
    themselves are not modelled; the method returns what would be written. */
module DagmcEncoder {
  import opened Outcomes
  import opened Seqs
  import opened DagmcModel

  // ---------------------------------------------------------------------
  // What the dictionaries hold
  // ---------------------------------------------------------------------

  /** `face_ids_with_solid_ids` after the loops have visited `ls`. */
  ghost predicate IsOwnerMap(m: map<int, seq<int>>, ls: seq<Listing>) {
    m.Keys == FaceIdsListed(ls) && forall f :: f in m ==> m[f] == OwnerIds(ls, f)
  }

  /** `all_faces` after the loops have visited `ls`. */
  ghost predicate IsFaceMap(m: map<int, seq<Triangle>>, ls: seq<Listing>) {
    m.Keys == FaceIdsListed(ls) && forall f :: f in m ==> m[f] == FirstTriangles(ls, f)
  }

  /** `surface_set_ids` */
  ghost predicate IsSurfaceIdMap(m: map<int, int>, order: seq<int>, h: Handles) {
    (forall f :: f in m <==> f in order) && forall f :: f in m ==> m[f] == SurfaceHandleOf(order, h, f)
  }

  /** `volume_set_ids` */
  ghost predicate IsVolumeIdMap(m: map<int, int>, solids: seq<Solid>, h: Handles) {
    (forall s :: s in m <==> s in SolidIds(solids)) && forall s :: s in m ==> m[s] == VolumeHandleOf(solids, h, s)
  }

  /** `group_set_ids` */
  ghost predicate IsGroupIdMap(m: map<int, int>, solids: seq<Solid>, h: Handles) {
    (forall s :: s in m <==> s in SolidIds(solids)) && forall s :: s in m ==> m[s] == h.Group(IndexOf(SolidIds(solids), s))
  }

  lemma ListingsStep(solids: seq<Solid>, i: nat)
    requires i < |solids|
    ensures Listings(solids[..i + 1]) == Listings(solids[..i]) + Row(solids[i])
  {
    assert solids[..i + 1][..i] == solids[..i];
  }

  /** Visiting one more (solid, face) pair appends the solid to the owner
      list of a face seen before ... */
  lemma OwnerAppended(m: map<int, seq<int>>, ls: seq<Listing>, x: Listing)
    requires IsOwnerMap(m, ls) && x.face.faceId in m
    ensures IsOwnerMap(m[x.face.faceId := m[x.face.faceId] + [x.solidId]], ls + [x])
  {
    assert (ls + [x])[..|ls|] == ls;
  }

  /** ... and starts the owner list of a new face. */
  lemma OwnerStarted(m: map<int, seq<int>>, ls: seq<Listing>, x: Listing)
    requires IsOwnerMap(m, ls) && x.face.faceId !in m
    ensures IsOwnerMap(m[x.face.faceId := [x.solidId]], ls + [x])
  {
    assert (ls + [x])[..|ls|] == ls;
  }

  /** Visiting one more (solid, face) pair records the triangles of a new
      face ... */
  lemma FaceRecorded(m: map<int, seq<Triangle>>, ls: seq<Listing>, x: Listing)
    requires IsFaceMap(m, ls) && x.face.faceId !in m
    ensures IsFaceMap(m[x.face.faceId := x.face.triangles], ls + [x])
  {
    assert (ls + [x])[..|ls|] == ls;
  }

  /** ... and ignores a face seen before. */
  lemma FaceKept(m: map<int, seq<Triangle>>, ls: seq<Listing>, x: Listing)
    requires IsFaceMap(m, ls) && x.face.faceId in m
    ensures IsFaceMap(m, ls + [x])
  {
    assert (ls + [x])[..|ls|] == ls;
  }

  lemma RowPrefixStep(done: seq<Listing>, s: Solid, j: nat)
    requires j < |s.faces|
    ensures done + Row(s)[..j + 1] == (done + Row(s)[..j]) + [Listing(s.solidId, s.faces[j])]
  {
  }

  // ---------------------------------------------------------------------
  // core.py:308-333 -- shared faces, first-listed triangles, all triangles
  // ---------------------------------------------------------------------

  /** Builds `face_ids_with_solid_ids` (core.py:308-315). */
  method CollectFaceOwners(solids: seq<Solid>) returns (owners: map<int, seq<int>>)
    ensures IsOwnerMap(owners, Listings(solids))
  {
    owners := map[];
    var i := 0;
    while i < |solids|
      invariant 0 <= i <= |solids|
      invariant IsOwnerMap(owners, Listings(solids[..i]))
    {
      var solid := solids[i];
      ghost var done := Listings(solids[..i]);
      ghost var seen := done;
      var j := 0;
      assert done + Row(solid)[..j] == done;
      while j < |solid.faces|
        invariant 0 <= j <= |solid.faces|
        invariant seen == done + Row(solid)[..j]
        invariant IsOwnerMap(owners, seen)
      {
        var faceId := solid.faces[j].faceId;
        ghost var visit := Listing(solid.solidId, solid.faces[j]);
        if faceId in owners {
          OwnerAppended(owners, seen, visit);
          owners := owners[faceId := owners[faceId] + [solid.solidId]];
        } else {
          OwnerStarted(owners, seen, visit);
          owners := owners[faceId := [solid.solidId]];
        }
        RowPrefixStep(done, solid, j);
        seen := seen + [visit];
        j := j + 1;
      }
      assert Row(solid)[..j] == Row(solid);
      ListingsStep(solids, i);
      i := i + 1;
    }
    assert solids[..i] == solids;
  }

  /** Builds `all_faces`, keeping the first triangles seen for each face id
      (core.py:317-322). */
  method CollectFaces(solids: seq<Solid>) returns (allFaces: map<int, seq<Triangle>>)
    ensures IsFaceMap(allFaces, Listings(solids))
  {
    allFaces := map[];
    var i := 0;
    while i < |solids|
      invariant 0 <= i <= |solids|
      invariant IsFaceMap(allFaces, Listings(solids[..i]))
    {
      var solid := solids[i];
      ghost var done := Listings(solids[..i]);
      ghost var seen := done;
      var j := 0;
      assert done + Row(solid)[..j] == done;
      while j < |solid.faces|
        invariant 0 <= j <= |solid.faces|
        invariant seen == done + Row(solid)[..j]
        invariant IsFaceMap(allFaces, seen)
      {
        var face := solid.faces[j];
        ghost var visit := Listing(solid.solidId, face);
        if face.faceId !in allFaces {
          FaceRecorded(allFaces, seen, visit);
          allFaces := allFaces[face.faceId := face.triangles];
        } else {
          FaceKept(allFaces, seen, visit);
        }
        RowPrefixStep(done, solid, j);
        seen := seen + [visit];
        j := j + 1;
      }
      assert Row(solid)[..j] == Row(solid);
      ListingsStep(solids, i);
      i := i + 1;
    }
    assert solids[..i] == solids;
  }

  /** Concatenates the faces' triangles in sorted face order
      (core.py:328-333). */
  method CollectTriangles(allFaces: map<int, seq<Triangle>>, order: seq<int>, ghost ls: seq<Listing>)
    returns (all: seq<Triangle>)
    requires IsFaceMap(allFaces, ls)
    requires forall k :: 0 <= k < |order| ==> order[k] in allFaces
    ensures all == AllTriangles(ls, order)
  {
    all := [];
    var k := 0;
    while k < |order|
      invariant 0 <= k <= |order|
      invariant all == AllTriangles(ls, order[..k])
    {
      assert order[..k + 1][..k] == order[..k];
      all := all + allFaces[order[k]];
      k := k + 1;
    }
    assert order[..k] == order;
  }

  // ---------------------------------------------------------------------
  // core.py:401-441 -- numbering the sets
  // ---------------------------------------------------------------------

  lemma SolidAt(solids: seq<Solid>, h: Handles, i: nat)
    requires WellFormed(solids) && i < |solids|
    ensures SolidIds(solids)[i] == solids[i].solidId
    ensures VolumeHandleOf(solids, h, solids[i].solidId) == h.Volume(i)
    ensures IndexOf(SolidIds(solids), solids[i].solidId) == i
    ensures SolidIds(solids)[..i + 1] == SolidIds(solids)[..i] + [solids[i].solidId]
  {
    IndexOfDistinct(SolidIds(solids), i);
  }

  lemma FaceAt(order: seq<int>, h: Handles, k: nat)
    requires StrictlyIncreasing(order) && k < |order|
    ensures SurfaceHandleOf(order, h, order[k]) == h.Surface(k)
    ensures order[..k + 1] == order[..k] + [order[k]]
  {
    IncreasingIsDistinct(order);
    IndexOfDistinct(order, k);
  }

  /** Gives every surface, volume and group set, the implicit-complement
      group when one is requested, and the file set consecutive ids after
      the triangles (core.py:401-441). `nextId` is the counter afterwards. */
  method AssignSetIds(order: seq<int>, solids: seq<Solid>, complement: bool, setsStartId: int, ghost h: Handles)
    returns (surfaceIds: map<int, int>, volumeIds: map<int, int>, groupIds: map<int, int>,
             complementId: Option<int>, fileSetId: int, nextId: int)
    requires StrictlyIncreasing(order) && WellFormed(solids)
    requires h.SetsStart() == setsStartId && h.surfaceCount == |order|
    requires h.volumeCount == |solids| && h.complement == complement
    ensures IsSurfaceIdMap(surfaceIds, order, h)
    ensures IsVolumeIdMap(volumeIds, solids, h)
    ensures IsGroupIdMap(groupIds, solids, h)
    ensures complementId == if complement then Some(h.Complement()) else None
    ensures fileSetId == h.FileSet() && nextId == h.FileSet() + 1
  {
    var current := setsStartId;
    surfaceIds := map[];
    var k := 0;
    while k < |order|
      invariant 0 <= k <= |order| && current == h.Surface(k)
      invariant forall f :: f in surfaceIds <==> f in order[..k]
      invariant forall f :: f in surfaceIds ==> surfaceIds[f] == SurfaceHandleOf(order, h, f)
    {
      FaceAt(order, h, k);
      surfaceIds := surfaceIds[order[k] := current];
      current := current + 1;
      k := k + 1;
    }
    assert order[..k] == order;

    volumeIds := map[];
    var i := 0;
    while i < |solids|
      invariant 0 <= i <= |solids| && current == h.Volume(i)
      invariant forall s :: s in volumeIds <==> s in SolidIds(solids)[..i]
      invariant forall s :: s in volumeIds ==> volumeIds[s] == VolumeHandleOf(solids, h, s)
    {
      SolidAt(solids, h, i);
      volumeIds := volumeIds[solids[i].solidId := current];
      current := current + 1;
      i := i + 1;
    }
    assert SolidIds(solids)[..i] == SolidIds(solids);

    groupIds := map[];
    i := 0;
    while i < |solids|
      invariant 0 <= i <= |solids| && current == h.Group(i)
      invariant forall s :: s in groupIds <==> s in SolidIds(solids)[..i]
      invariant forall s :: s in groupIds ==> groupIds[s] == h.Group(IndexOf(SolidIds(solids), s))
    {
      SolidAt(solids, h, i);
      groupIds := groupIds[solids[i].solidId := current];
      current := current + 1;
      i := i + 1;
    }
    assert SolidIds(solids)[..i] == SolidIds(solids);

    complementId := None;
    if complement {
      complementId := Some(current);
      current := current + 1;
    }
    fileSetId := current;
    current := current + 1;
    nextId := current;
  }

  // ---------------------------------------------------------------------
  // core.py:446-501 -- CATEGORY and GEOM_DIMENSION
  // ---------------------------------------------------------------------

  lemma HandlesStep(h: Handles, i: nat)
    requires i < h.volumeCount
    ensures VolumeHandles(h)[..i + 1] == VolumeHandles(h)[..i] + [h.Volume(i)]
    ensures GroupHandles(h)[..i + 1] == GroupHandles(h)[..i] + [h.Group(i)]
  {
  }

  lemma SurfaceHandlesStep(h: Handles, k: nat)
    requires k < h.surfaceCount
    ensures SurfaceHandles(h)[..k + 1] == SurfaceHandles(h)[..k] + [h.Surface(k)]
  {
  }

  lemma RepeatStep<T>(x: T, n: nat)
    ensures Repeat(x, n + 1) == Repeat(x, n) + [x]
  {
  }

  /** The CATEGORY and GEOM_DIMENSION entries of the volumes: "Volume" and 3
      on each volume set, in solid order (core.py:453-458). */
  method VolumeTagEntries(solids: seq<Solid>, volumeIds: map<int, int>, ghost h: Handles)
    returns (categoryIds: seq<int>, categories: seq<string>, dimensionIds: seq<int>, dimensions: seq<int>)
    requires WellFormed(solids) && h.volumeCount == |solids|
    requires IsVolumeIdMap(volumeIds, solids, h)
    ensures categoryIds == VolumeHandles(h) && categories == Repeat(VolumeCategory, |solids|)
    ensures dimensionIds == VolumeHandles(h) && dimensions == Repeat(3, |solids|)
  {
    categoryIds, categories, dimensionIds, dimensions := [], [], [], [];
    var i := 0;
    while i < |solids|
      invariant 0 <= i <= |solids|
      invariant categoryIds == VolumeHandles(h)[..i] && categories == Repeat(VolumeCategory, i)
      invariant dimensionIds == VolumeHandles(h)[..i] && dimensions == Repeat(3, i)
    {
      SolidAt(solids, h, i);
      HandlesStep(h, i);
      RepeatStep(VolumeCategory, i);
      RepeatStep(3, i);
      var sid := solids[i].solidId;
      categoryIds := categoryIds + [volumeIds[sid]];
      categories := categories + ["Volume"];
      dimensionIds := dimensionIds + [volumeIds[sid]];
      dimensions := dimensions + [3];
      i := i + 1;
    }
    assert VolumeHandles(h)[..i] == VolumeHandles(h);
  }

  /** The CATEGORY entries of the material groups: "Group" on each group
      set (core.py:460-464). */
  method GroupTagEntries(solids: seq<Solid>, groupIds: map<int, int>, ghost h: Handles)
    returns (categoryIds: seq<int>, categories: seq<string>)
    requires WellFormed(solids) && h.volumeCount == |solids|
    requires IsGroupIdMap(groupIds, solids, h)
    ensures categoryIds == GroupHandles(h) && categories == Repeat(GroupCategory, |solids|)
  {
    categoryIds, categories := [], [];
    var i := 0;
    while i < |solids|
      invariant 0 <= i <= |solids|
      invariant categoryIds == GroupHandles(h)[..i] && categories == Repeat(GroupCategory, i)
    {
      SolidAt(solids, h, i);
      HandlesStep(h, i);
      RepeatStep(GroupCategory, i);
      categoryIds := categoryIds + [groupIds[solids[i].solidId]];
      categories := categories + ["Group"];
      i := i + 1;
    }
    assert GroupHandles(h)[..i] == GroupHandles(h);
  }

  /** The CATEGORY and GEOM_DIMENSION entries of the surfaces: "Surface" and
      2 on each surface set, in face-id order (core.py:466-471). */
  method SurfaceTagEntries(order: seq<int>, surfaceIds: map<int, int>, ghost h: Handles)
    returns (ids: seq<int>, categories: seq<string>, dimensions: seq<int>)
    requires StrictlyIncreasing(order) && h.surfaceCount == |order|
    requires IsSurfaceIdMap(surfaceIds, order, h)
    ensures ids == SurfaceHandles(h)
    ensures categories == Repeat(SurfaceCategory, |order|) && dimensions == Repeat(2, |order|)
  {
    ids, categories, dimensions := [], [], [];
    var k := 0;
    while k < |order|
      invariant 0 <= k <= |order|
      invariant ids == SurfaceHandles(h)[..k]
      invariant categories == Repeat(SurfaceCategory, k) && dimensions == Repeat(2, k)
    {
      FaceAt(order, h, k);
      SurfaceHandlesStep(h, k);
      RepeatStep(SurfaceCategory, k);
      RepeatStep(2, k);
      ids := ids + [surfaceIds[order[k]]];
      categories := categories + ["Surface"];
      dimensions := dimensions + [2];
      k := k + 1;
    }
    assert SurfaceHandles(h)[..k] == SurfaceHandles(h);
  }

  /** The CATEGORY and GEOM_DIMENSION sparse tags (core.py:446-501). */
  method CategoryAndDimensionTags(order: seq<int>, solids: seq<Solid>, surfaceIds: map<int, int>,
                                  volumeIds: map<int, int>, groupIds: map<int, int>,
                                  complementId: Option<int>, ghost h: Handles)
    returns (category: SparseTag<string>, geomDimension: SparseTag<int>)
    requires StrictlyIncreasing(order) && WellFormed(solids)
    requires h.surfaceCount == |order| && h.volumeCount == |solids|
    requires IsSurfaceIdMap(surfaceIds, order, h)
    requires IsVolumeIdMap(volumeIds, solids, h) && IsGroupIdMap(groupIds, solids, h)
    requires complementId == if h.complement then Some(h.Complement()) else None
    ensures category == CategoryTag(h) && geomDimension == GeomDimensionTag(h)
  {
    var volumeIdList, volumeCategories, dimensionIds, dimensions := VolumeTagEntries(solids, volumeIds, h);
    var groupIdList, groupCategories := GroupTagEntries(solids, groupIds, h);
    var surfaceIdList, surfaceCategories, surfaceDimensions := SurfaceTagEntries(order, surfaceIds, h);
    var categoryIds := volumeIdList + groupIdList + surfaceIdList;
    var categories := volumeCategories + groupCategories + surfaceCategories;
    if complementId.Some? {
      categoryIds := categoryIds + [complementId.value];
      categories := categories + ["Group"];
    }
    category := SparseTag(categoryIds, categories);
    geomDimension := SparseTag(dimensionIds + surfaceIdList, dimensions + surfaceDimensions);
  }

  // ---------------------------------------------------------------------
  // core.py:503-574 -- GEOM_SENSE_2, GLOBAL_ID and NAME
  // ---------------------------------------------------------------------

  /** `surface_ids_list`: the surface sets in face-id order
      (core.py:504). */
  method SurfaceHandleList(order: seq<int>, surfaceIds: map<int, int>, ghost h: Handles)
    returns (surfaceIdList: seq<int>)
    requires StrictlyIncreasing(order) && h.surfaceCount == |order|
    requires IsSurfaceIdMap(surfaceIds, order, h)
    ensures surfaceIdList == SurfaceHandles(h)
  {
    surfaceIdList := [];
    var k := 0;
    while k < |order|
      invariant 0 <= k <= |order| && surfaceIdList == SurfaceHandles(h)[..k]
    {
      FaceAt(order, h, k);
      SurfaceHandlesStep(h, k);
      surfaceIdList := surfaceIdList + [surfaceIds[order[k]]];
      k := k + 1;
    }
    assert SurfaceHandles(h)[..k] == SurfaceHandles(h);
  }

  /** `sense_values`: per surface, the volume handles of its two owners, or
      of its first owner and 0 (core.py:512-524). */
  method SenseValueList(order: seq<int>, owners: map<int, seq<int>>, volumeIds: map<int, int>,
                        ghost solids: seq<Solid>, ghost h: Handles)
    returns (values: seq<(int, int)>)
    requires IsOwnerMap(owners, Listings(solids))
    requires forall k :: 0 <= k < |order| ==> order[k] in FaceIdsListed(Listings(solids))
    requires IsVolumeIdMap(volumeIds, solids, h)
    ensures values == SenseValues(Listings(solids), solids, order, h)
  {
    ghost var ls := Listings(solids);
    values := [];
    var k := 0;
    while k < |order|
      invariant 0 <= k <= |order| && values == SenseValues(ls, solids, order, h)[..k]
    {
      var solidsForFace := owners[order[k]];
      OwnersAreSolids(solids, order[k]);
      if |solidsForFace| == 2 {
        values := values + [(volumeIds[solidsForFace[0]], volumeIds[solidsForFace[1]])];
      } else {
        values := values + [(volumeIds[solidsForFace[0]], 0)];
      }
      k := k + 1;
    }
    assert values == SenseValues(ls, solids, order, h);
  }

  /** The GEOM_SENSE_2 tag: every surface, with the volume handles of its
      two owners, or of its single (first) owner and 0 (core.py:503-533). */
  method SenseTag(order: seq<int>, owners: map<int, seq<int>>, surfaceIds: map<int, int>,
                  volumeIds: map<int, int>, ghost solids: seq<Solid>, ghost h: Handles)
    returns (sense: SparseTag<(int, int)>)
    requires StrictlyIncreasing(order) && h.surfaceCount == |order|
    requires IsOwnerMap(owners, Listings(solids))
    requires forall k :: 0 <= k < |order| ==> order[k] in FaceIdsListed(Listings(solids))
    requires IsSurfaceIdMap(surfaceIds, order, h) && IsVolumeIdMap(volumeIds, solids, h)
    ensures sense == SparseTag(SurfaceHandles(h), SenseValues(Listings(solids), solids, order, h))
  {
    var surfaceIdList := SurfaceHandleList(order, surfaceIds, h);
    var values := SenseValueList(order, owners, volumeIds, solids, h);
    sense := SparseTag(surfaceIdList, values);
  }

  /** GLOBAL_ID entries of the surfaces: each surface set carries its face
      id (core.py:539-542). */
  method SurfaceGlobalIds(order: seq<int>, surfaceIds: map<int, int>, ghost h: Handles)
    returns (ids: seq<int>, values: seq<int>)
    requires StrictlyIncreasing(order) && h.surfaceCount == |order|
    requires IsSurfaceIdMap(surfaceIds, order, h)
    ensures ids == SurfaceHandles(h) && values == order
  {
    ids, values := [], [];
    var k := 0;
    while k < |order|
      invariant 0 <= k <= |order|
      invariant ids == SurfaceHandles(h)[..k] && values == order[..k]
    {
      FaceAt(order, h, k);
      SurfaceHandlesStep(h, k);
      ids := ids + [surfaceIds[order[k]]];
      values := values + [order[k]];
      k := k + 1;
    }
    assert SurfaceHandles(h)[..k] == SurfaceHandles(h) && order[..k] == order;
  }

  /** GLOBAL_ID entries of the volumes, or of the groups: each set carries
      its solid's id (core.py:543-550). `groups` picks the group sets. */
  method SolidGlobalIds(solids: seq<Solid>, setIds: map<int, int>, groups: bool, ghost h: Handles)
    returns (ids: seq<int>, values: seq<int>)
    requires WellFormed(solids) && h.volumeCount == |solids|
    requires if groups then IsGroupIdMap(setIds, solids, h) else IsVolumeIdMap(setIds, solids, h)
    ensures ids == (if groups then GroupHandles(h) else VolumeHandles(h)) && values == SolidIds(solids)
  {
    ids, values := [], [];
    var i := 0;
    while i < |solids|
      invariant 0 <= i <= |solids|
      invariant ids == (if groups then GroupHandles(h) else VolumeHandles(h))[..i]
      invariant values == SolidIds(solids)[..i]
    {
      SolidAt(solids, h, i);
      HandlesStep(h, i);
      ids := ids + [setIds[solids[i].solidId]];
      values := values + [solids[i].solidId];
      i := i + 1;
    }
    assert (if groups then GroupHandles(h) else VolumeHandles(h))[..i] == (if groups then GroupHandles(h) else VolumeHandles(h));
    assert SolidIds(solids)[..i] == SolidIds(solids);
  }

  /** The GLOBAL_ID tag on sets: surfaces carry their face id, volumes and
      groups their solid id (core.py:535-558). */
  method GlobalIdTagOf(order: seq<int>, solids: seq<Solid>, surfaceIds: map<int, int>,
                       volumeIds: map<int, int>, groupIds: map<int, int>, ghost h: Handles)
    returns (globalId: SparseTag<int>)
    requires StrictlyIncreasing(order) && WellFormed(solids)
    requires h.surfaceCount == |order| && h.volumeCount == |solids|
    requires IsSurfaceIdMap(surfaceIds, order, h)
    requires IsVolumeIdMap(volumeIds, solids, h) && IsGroupIdMap(groupIds, solids, h)
    ensures globalId == GlobalIdTag(solids, order, h)
  {
    var surfaceIdList, faceIds := SurfaceGlobalIds(order, surfaceIds, h);
    var volumeIdList, volumeValues := SolidGlobalIds(solids, volumeIds, false, h);
    var groupIdList, groupValues := SolidGlobalIds(solids, groupIds, true, h);
    globalId := SparseTag(surfaceIdList + volumeIdList + groupIdList, faceIds + volumeValues + groupValues);
  }

  /** The NAME tag: `mat:<tag>` on each solid's group, `mat:<tag>_comp` on
      the implicit complement, each cut to its 32-byte field
      (core.py:560-574). */
  method NameTagOf(solids: seq<Solid>, tags: seq<string>, groupIds: map<int, int>,
                   ic: Option<string>, complementId: Option<int>, ghost h: Handles)
    returns (name: SparseTag<string>)
    requires WellFormed(solids) && |tags| == |solids| && h.volumeCount == |solids|
    requires IsGroupIdMap(groupIds, solids, h)
    requires h.complement == ComplementRequested(ic)
    requires complementId == if h.complement then Some(h.Complement()) else None
    ensures name == NameTag(tags, ic, h)
  {
    var ids: seq<int> := [];
    var values: seq<string> := [];
    var i := 0;
    while i < |solids|
      invariant 0 <= i <= |solids|
      invariant ids == GroupHandles(h)[..i]
      invariant values == seq(i, j requires 0 <= j < i => GroupName(tags[j]))
    {
      SolidAt(solids, h, i);
      HandlesStep(h, i);
      ids := ids + [groupIds[solids[i].solidId]];
      values := values + [StoredName("mat:" + tags[i])];
      i := i + 1;
    }
    assert GroupHandles(h)[..i] == GroupHandles(h);
    if ComplementRequested(ic) {
      ids := ids + [complementId.value];
      values := values + [StoredName("mat:" + ic.value + "_comp")];
    }
    name := SparseTag(ids, values);
  }

  // ---------------------------------------------------------------------
  // core.py:593-607 -- triangle ranges and vertex lists per face
  // ---------------------------------------------------------------------

  /** `face_triangle_ranges`: where each face's triangles start in
      `all_triangles`, and how many there are (core.py:593-599). */
  method TriangleRanges(allFaces: map<int, seq<Triangle>>, order: seq<int>, ghost ls: seq<Listing>)
    returns (ranges: map<int, (int, int)>)
    requires IsFaceMap(allFaces, ls)
    requires StrictlyIncreasing(order)
    requires forall k :: 0 <= k < |order| ==> order[k] in allFaces
    ensures forall k :: 0 <= k < |order| ==>
              order[k] in ranges && ranges[order[k]] == (|AllTriangles(ls, order[..k])|, |FirstTriangles(ls, order[k])|)
  {
    IncreasingIsDistinct(order);
    var offset := 0;
    ranges := map[];
    var k := 0;
    while k < |order|
      invariant 0 <= k <= |order|
      invariant offset == |AllTriangles(ls, order[..k])|
      invariant forall j :: 0 <= j < k ==>
                  order[j] in ranges && ranges[order[j]] == (|AllTriangles(ls, order[..j])|, |FirstTriangles(ls, order[j])|)
    {
      var tris := allFaces[order[k]];
      ranges := ranges[order[k] := (offset, |tris|)];
      assert order[..k + 1][..k] == order[..k];
      offset := offset + |tris|;
      k := k + 1;
    }
  }

  /** The vertices one face's triangles touch (the inner loop of
      core.py:604-606). */
  method TouchedVertices(tris: seq<Triangle>) returns (verts: set<int>)
    ensures verts == VertexSet(tris)
  {
    verts := {};
    var t := 0;
    while t < |tris|
      invariant 0 <= t <= |tris| && verts == VertexSet(tris[..t])
    {
      assert tris[..t + 1][..t] == tris[..t];
      verts := verts + {tris[t].a, tris[t].b, tris[t].c};
      t := t + 1;
    }
    assert tris[..t] == tris;
  }

  /** `face_vertex_sets`: the sorted distinct vertices of every face
      (core.py:601-607). The dictionary is visited in an arbitrary order;
      the result does not depend on it. */
  method FaceVertexLists(allFaces: map<int, seq<Triangle>>) returns (vertexLists: map<int, seq<int>>)
    ensures vertexLists.Keys == allFaces.Keys
    ensures forall f :: f in vertexLists ==> vertexLists[f] == FaceVertices(allFaces[f])
  {
    vertexLists := map[];
    var remaining := allFaces.Keys;
    while remaining != {}
      invariant remaining <= allFaces.Keys
      invariant vertexLists.Keys == allFaces.Keys - remaining
      invariant forall f :: f in vertexLists ==> vertexLists[f] == FaceVertices(allFaces[f])
      decreases |remaining|
    {
      HasElement(remaining);
      var f :| f in remaining;
      var verts := TouchedVertices(allFaces[f]);
      vertexLists := vertexLists[f := SortedInts(verts)];
      remaining := remaining - {f};
    }
  }

  // ---------------------------------------------------------------------
  // core.py:609-681 -- the set table
  // ---------------------------------------------------------------------

  /** The first `n` rows of the set table are in place: each flat array is
      the first `n` blocks laid end to end and each row holds their ends. */
  ghost predicate TableBuilt(contents: seq<int>, children: seq<int>, parents: seq<int>, rows: seq<SetRow>,
                             cb: seq<seq<int>>, chb: seq<seq<int>>, pb: seq<seq<int>>, n: nat)
  {
    && n <= |cb| && |cb| == |chb| == |pb|
    && contents == Concat(cb[..n]) && children == Concat(chb[..n]) && parents == Concat(pb[..n])
    && rows == SetList(cb, chb, pb)[..n]
  }

  /** Appending row `n`'s blocks and its end indices keeps the table built. */
  lemma TableStep(contents: seq<int>, children: seq<int>, parents: seq<int>, rows: seq<SetRow>,
                  cb: seq<seq<int>>, chb: seq<seq<int>>, pb: seq<seq<int>>, n: nat)
    requires TableBuilt(contents, children, parents, rows, cb, chb, pb, n) && n < |cb|
    ensures TableBuilt(contents + cb[n], children + chb[n], parents + pb[n],
                       rows + [SetRow(|contents + cb[n]| - 1, |children + chb[n]| - 1, |parents + pb[n]| - 1,
                                      if n == |cb| - 1 then FileSetFlags else HandleSetFlags)],
                       cb, chb, pb, n + 1)
  {
    ConcatPrefix(cb, n);
    ConcatPrefix(chb, n);
    ConcatPrefix(pb, n);
    var all := SetList(cb, chb, pb);
    assert Ends(cb)[n] == |contents + cb[n]| - 1;
    assert Ends(chb)[n] == |children + chb[n]| - 1;
    assert Ends(pb)[n] == |parents + pb[n]| - 1;
    assert all[..n + 1] == all[..n] + [all[n]];
  }

  /** A surface's vertex handles, then its triangle handles
      (core.py:619-626). */
  method AppendSurfaceContents(contents: seq<int>, verts: seq<int>, triangleStartId: int, triStart: int, triCount: nat)
    returns (r: seq<int>)
    ensures r == contents + SurfaceBlock(verts, triangleStartId, triStart, triCount)
  {
    r := contents;
    var t := 0;
    while t < |verts|
      invariant 0 <= t <= |verts| && r == contents + Shift(verts, 1)[..t]
    {
      assert Shift(verts, 1)[..t + 1] == Shift(verts, 1)[..t] + [verts[t] + 1];
      r := r + [verts[t] + 1];
      t := t + 1;
    }
    assert Shift(verts, 1)[..t] == Shift(verts, 1);
    var i := 0;
    while i < triCount
      invariant 0 <= i <= triCount
      invariant r == contents + Shift(verts, 1) + Range(triangleStartId + triStart, triCount)[..i]
    {
      assert Range(triangleStartId + triStart, triCount)[..i + 1]
          == Range(triangleStartId + triStart, triCount)[..i] + [triangleStartId + triStart + i];
      r := r + [triangleStartId + triStart + i];
      i := i + 1;
    }
    assert Range(triangleStartId + triStart, triCount)[..i] == Range(triangleStartId + triStart, triCount);
    assert r == contents + (Shift(verts, 1) + Range(triangleStartId + triStart, triCount));
  }

  /** A surface's parents: the volume set of each owner (core.py:630-634). */
  method AppendParents(parents: seq<int>, solidsForFace: seq<int>, volumeIds: map<int, int>,
                       ghost solids: seq<Solid>, ghost h: Handles)
    returns (r: seq<int>)
    requires IsVolumeIdMap(volumeIds, solids, h)
    requires forall j :: 0 <= j < |solidsForFace| ==> solidsForFace[j] in SolidIds(solids)
    ensures r == parents + VolumeHandlesOf(solids, h, solidsForFace)
  {
    r := parents;
    var j := 0;
    while j < |solidsForFace|
      invariant 0 <= j <= |solidsForFace|
      invariant r == parents + VolumeHandlesOf(solids, h, solidsForFace)[..j]
    {
      assert VolumeHandlesOf(solids, h, solidsForFace)[..j + 1]
          == VolumeHandlesOf(solids, h, solidsForFace)[..j] + [volumeIds[solidsForFace[j]]];
      r := r + [volumeIds[solidsForFace[j]]];
      j := j + 1;
    }
    assert VolumeHandlesOf(solids, h, solidsForFace)[..j] == VolumeHandlesOf(solids, h, solidsForFace);
  }

  /** A volume's children: the surface set of each of its faces, in the
      solid's own face order (core.py:642-646). */
  method AppendChildren(children: seq<int>, solid: Solid, surfaceIds: map<int, int>,
                        ghost order: seq<int>, ghost h: Handles)
    returns (r: seq<int>)
    requires IsSurfaceIdMap(surfaceIds, order, h)
    requires forall j :: 0 <= j < |solid.faces| ==> solid.faces[j].faceId in order
    ensures r == children + SolidChildren(solid, order, h)
  {
    r := children;
    var j := 0;
    while j < |solid.faces|
      invariant 0 <= j <= |solid.faces|
      invariant r == children + SolidChildren(solid, order, h)[..j]
    {
      assert SolidChildren(solid, order, h)[..j + 1]
          == SolidChildren(solid, order, h)[..j] + [surfaceIds[solid.faces[j].faceId]];
      r := r + [surfaceIds[solid.faces[j].faceId]];
      j := j + 1;
    }
    assert SolidChildren(solid, order, h)[..j] == SolidChildren(solid, order, h);
  }

  /** The running `contents_end`, `children_end` and `parents_end`. */
  predicate EndsTracked(contentsEnd: int, childrenEnd: int, parentsEnd: int,
                        contents: seq<int>, children: seq<int>, parents: seq<int>)
  {
    contentsEnd == |contents| - 1 && childrenEnd == |children| - 1 && parentsEnd == |parents| - 1
  }

  /** Rows 0 .. |order|-1 are the surfaces: what their blocks hold, in terms
      of the dictionaries the writer has at hand. */
  ghost predicate SurfaceBlocksFit(order: seq<int>, vertexLists: map<int, seq<int>>, ranges: map<int, (int, int)>,
                                   owners: map<int, seq<int>>, triangleStartId: int, solids: seq<Solid>, h: Handles,
                                   cb: seq<seq<int>>, chb: seq<seq<int>>, pb: seq<seq<int>>)
  {
    && |order| < |cb| == |chb| == |pb|
    && forall k :: 0 <= k < |order| ==>
         && order[k] in vertexLists && order[k] in ranges && order[k] in owners
         && ranges[order[k]].1 >= 0
         && cb[k] == SurfaceBlock(vertexLists[order[k]], triangleStartId, ranges[order[k]].0, ranges[order[k]].1)
         && chb[k] == [] && pb[k] == VolumeHandlesOf(solids, h, owners[order[k]])
         && forall j :: 0 <= j < |owners[order[k]]| ==> owners[order[k]][j] in SolidIds(solids)
  }

  /** Rows `start` .. `start+|solids|-1` are the volumes. */
  ghost predicate VolumeBlocksFit(solids: seq<Solid>, order: seq<int>, h: Handles,
                                  cb: seq<seq<int>>, chb: seq<seq<int>>, pb: seq<seq<int>>, start: nat)
  {
    && start + |solids| < |cb| == |chb| == |pb|
    && (forall j :: start <= j < start + |solids| ==> cb[j] == [] && pb[j] == [])
    && (forall i :: 0 <= i < |solids| ==> chb[start + i] == SolidChildren(solids[i], order, h))
    && (forall i, j :: 0 <= i < |solids| && 0 <= j < |solids[i].faces| ==> solids[i].faces[j].faceId in order)
  }

  /** Rows `start` .. `start+|solids|-1` are the material groups. */
  ghost predicate GroupBlocksFit(solids: seq<Solid>, h: Handles,
                                 cb: seq<seq<int>>, chb: seq<seq<int>>, pb: seq<seq<int>>, start: nat)
  {
    && start + |solids| < |cb| == |chb| == |pb|
    && forall j :: start <= j < start + |solids| ==> cb[j] == [h.Volume(j - start)] && chb[j] == [] && pb[j] == []
  }

  /** The rows from `start` on are the implicit complement, if any, and the
      file set. */
  ghost predicate ClosingBlocksFit(solids: seq<Solid>, h: Handles, fileSetId: int,
                                   cb: seq<seq<int>>, chb: seq<seq<int>>, pb: seq<seq<int>>, start: nat)
  {
    && |cb| == |chb| == |pb| == start + h.ComplementCount() + 1
    && (forall j :: start <= j < |cb| ==> chb[j] == [] && pb[j] == [])
    && (h.complement ==> |solids| > 0 && cb[start] == [h.Volume(|solids| - 1)])
    && cb[|cb| - 1] == [1, fileSetId - 1]
  }

  /** One row per surface: its vertices and triangles as contents, its
      owners' volumes as parents (core.py:613-637). */
  method SurfaceRows(order: seq<int>, vertexLists: map<int, seq<int>>, ranges: map<int, (int, int)>,
                     owners: map<int, seq<int>>, volumeIds: map<int, int>, triangleStartId: int,
                     ghost solids: seq<Solid>, ghost h: Handles,
                     ghost cb: seq<seq<int>>, ghost chb: seq<seq<int>>, ghost pb: seq<seq<int>>)
    returns (contents: seq<int>, children: seq<int>, parents: seq<int>, rows: seq<SetRow>,
             contentsEnd: int, childrenEnd: int, parentsEnd: int)
    requires SurfaceBlocksFit(order, vertexLists, ranges, owners, triangleStartId, solids, h, cb, chb, pb)
    requires IsVolumeIdMap(volumeIds, solids, h)
    ensures TableBuilt(contents, children, parents, rows, cb, chb, pb, |order|)
    ensures EndsTracked(contentsEnd, childrenEnd, parentsEnd, contents, children, parents)
  {
    contents, children, parents, rows := [], [], [], [];
    contentsEnd, childrenEnd, parentsEnd := -1, -1, -1;
    var k := 0;
    while k < |order|
      invariant 0 <= k <= |order|
      invariant TableBuilt(contents, children, parents, rows, cb, chb, pb, k)
      invariant EndsTracked(contentsEnd, childrenEnd, parentsEnd, contents, children, parents)
    {
      TableStep(contents, children, parents, rows, cb, chb, pb, k);
      assert children + chb[k] == children;
      var verts := vertexLists[order[k]];
      var (triStart, triCount) := ranges[order[k]];
      contents := AppendSurfaceContents(contents, verts, triangleStartId, triStart, triCount);
      contentsEnd := |contents| - 1;
      var solidsForFace := owners[order[k]];
      parents := AppendParents(parents, solidsForFace, volumeIds, solids, h);
      parentsEnd := |parents| - 1;
      rows := rows + [SetRow(contentsEnd, childrenEnd, parentsEnd, 2)];
      k := k + 1;
    }
  }

  /** One row per solid, whose children are its faces' surfaces
      (core.py:639-649). */
  method VolumeRows(solids: seq<Solid>, surfaceIds: map<int, int>,
                    contents: seq<int>, children0: seq<int>, parents: seq<int>, rows0: seq<SetRow>,
                    contentsEnd: int, childrenEnd0: int, parentsEnd: int,
                    ghost start: nat, ghost order: seq<int>, ghost h: Handles,
                    ghost cb: seq<seq<int>>, ghost chb: seq<seq<int>>, ghost pb: seq<seq<int>>)
    returns (children: seq<int>, rows: seq<SetRow>, childrenEnd: int)
    requires VolumeBlocksFit(solids, order, h, cb, chb, pb, start)
    requires IsSurfaceIdMap(surfaceIds, order, h)
    requires TableBuilt(contents, children0, parents, rows0, cb, chb, pb, start)
    requires EndsTracked(contentsEnd, childrenEnd0, parentsEnd, contents, children0, parents)
    ensures TableBuilt(contents, children, parents, rows, cb, chb, pb, start + |solids|)
    ensures EndsTracked(contentsEnd, childrenEnd, parentsEnd, contents, children, parents)
  {
    children, rows, childrenEnd := children0, rows0, childrenEnd0;
    var i := 0;
    while i < |solids|
      invariant 0 <= i <= |solids|
      invariant TableBuilt(contents, children, parents, rows, cb, chb, pb, start + i)
      invariant EndsTracked(contentsEnd, childrenEnd, parentsEnd, contents, children, parents)
    {
      TableStep(contents, children, parents, rows, cb, chb, pb, start + i);
      assert contents + cb[start + i] == contents && parents + pb[start + i] == parents;
      children := AppendChildren(children, solids[i], surfaceIds, order, h);
      childrenEnd := |children| - 1;
      rows := rows + [SetRow(contentsEnd, childrenEnd, parentsEnd, 2)];
      i := i + 1;
    }
  }

  /** One row per solid's material group, holding its volume
      (core.py:651-655). */
  method GroupRows(solids: seq<Solid>, volumeIds: map<int, int>,
                   contents0: seq<int>, children: seq<int>, parents: seq<int>, rows0: seq<SetRow>,
                   contentsEnd0: int, childrenEnd: int, parentsEnd: int,
                   ghost start: nat, ghost h: Handles,
                   ghost cb: seq<seq<int>>, ghost chb: seq<seq<int>>, ghost pb: seq<seq<int>>)
    returns (contents: seq<int>, rows: seq<SetRow>, contentsEnd: int)
    requires WellFormed(solids) && IsVolumeIdMap(volumeIds, solids, h)
    requires GroupBlocksFit(solids, h, cb, chb, pb, start)
    requires TableBuilt(contents0, children, parents, rows0, cb, chb, pb, start)
    requires EndsTracked(contentsEnd0, childrenEnd, parentsEnd, contents0, children, parents)
    ensures TableBuilt(contents, children, parents, rows, cb, chb, pb, start + |solids|)
    ensures EndsTracked(contentsEnd, childrenEnd, parentsEnd, contents, children, parents)
  {
    contents, rows, contentsEnd := contents0, rows0, contentsEnd0;
    var i := 0;
    while i < |solids|
      invariant 0 <= i <= |solids|
      invariant TableBuilt(contents, children, parents, rows, cb, chb, pb, start + i)
      invariant EndsTracked(contentsEnd, childrenEnd, parentsEnd, contents, children, parents)
    {
      TableStep(contents, children, parents, rows, cb, chb, pb, start + i);
      SolidAt(solids, h, i);
      assert children + chb[start + i] == children && parents + pb[start + i] == parents;
      contents := contents + [volumeIds[solids[i].solidId]];
      contentsEnd := |contents| - 1;
      rows := rows + [SetRow(contentsEnd, childrenEnd, parentsEnd, 2)];
      i := i + 1;
    }
  }

  /** The last rows of the set table: the implicit-complement group, which
      holds the last solid's volume, and the file set, whose contents are
      the range [1, file_set_id - 1] (core.py:657-667). */
  method ClosingRows(solids: seq<Solid>, volumeIds: map<int, int>, complement: bool, fileSetId: int,
                     contents0: seq<int>, children: seq<int>, parents: seq<int>, rows0: seq<SetRow>,
                     contentsEnd0: int, childrenEnd: int, parentsEnd: int,
                     ghost start: nat, ghost h: Handles,
                     ghost cb: seq<seq<int>>, ghost chb: seq<seq<int>>, ghost pb: seq<seq<int>>)
    returns (contents: seq<int>, rows: seq<SetRow>)
    requires WellFormed(solids) && IsVolumeIdMap(volumeIds, solids, h)
    requires h.volumeCount == |solids| && h.complement == complement
    requires ClosingBlocksFit(solids, h, fileSetId, cb, chb, pb, start)
    requires TableBuilt(contents0, children, parents, rows0, cb, chb, pb, start)
    requires EndsTracked(contentsEnd0, childrenEnd, parentsEnd, contents0, children, parents)
    ensures TableBuilt(contents, children, parents, rows, cb, chb, pb, |cb|)
  {
    contents, rows := contents0, rows0;
    var contentsEnd := contentsEnd0;
    ghost var n := start;
    if complement {
      TableStep(contents, children, parents, rows, cb, chb, pb, n);
      SolidAt(solids, h, |solids| - 1);
      assert children + chb[n] == children && parents + pb[n] == parents;
      contents := contents + [volumeIds[solids[|solids| - 1].solidId]];
      contentsEnd := |contents| - 1;
      rows := rows + [SetRow(contentsEnd, childrenEnd, parentsEnd, 2)];
      n := n + 1;
    }
    TableStep(contents, children, parents, rows, cb, chb, pb, n);
    assert children + chb[n] == children && parents + pb[n] == parents;
    contents := contents + [1, fileSetId - 1];
    contentsEnd := |contents| - 1;
    rows := rows + [SetRow(contentsEnd, childrenEnd, parentsEnd, 10)];
  }

  /** A completely built table is the model's set table. */
  lemma TableComplete(contents: seq<int>, children: seq<int>, parents: seq<int>, rows: seq<SetRow>,
                      cb: seq<seq<int>>, chb: seq<seq<int>>, pb: seq<seq<int>>)
    requires TableBuilt(contents, children, parents, rows, cb, chb, pb, |cb|)
    ensures contents == Concat(cb) && children == Concat(chb) && parents == Concat(pb)
    ensures rows == SetList(cb, chb, pb)
  {
    assert cb[..|cb|] == cb && chb[..|cb|] == chb && pb[..|cb|] == pb;
  }

  /** The surface and volume rows, the first half of the set table
      (core.py:609-649). */
  method EntityRows(order: seq<int>, solids: seq<Solid>, vertexLists: map<int, seq<int>>,
                    ranges: map<int, (int, int)>, owners: map<int, seq<int>>,
                    surfaceIds: map<int, int>, volumeIds: map<int, int>,
                    triangleStartId: int, ghost h: Handles,
                    ghost cb: seq<seq<int>>, ghost chb: seq<seq<int>>, ghost pb: seq<seq<int>>)
    returns (contents: seq<int>, children: seq<int>, parents: seq<int>, rows: seq<SetRow>,
             contentsEnd: int, childrenEnd: int, parentsEnd: int)
    requires IsSurfaceIdMap(surfaceIds, order, h) && IsVolumeIdMap(volumeIds, solids, h)
    requires SurfaceBlocksFit(order, vertexLists, ranges, owners, triangleStartId, solids, h, cb, chb, pb)
    requires VolumeBlocksFit(solids, order, h, cb, chb, pb, |order|)
    ensures TableBuilt(contents, children, parents, rows, cb, chb, pb, |order| + |solids|)
    ensures EndsTracked(contentsEnd, childrenEnd, parentsEnd, contents, children, parents)
  {
    contents, children, parents, rows, contentsEnd, childrenEnd, parentsEnd :=
      SurfaceRows(order, vertexLists, ranges, owners, volumeIds, triangleStartId, solids, h, cb, chb, pb);
    children, rows, childrenEnd :=
      VolumeRows(solids, surfaceIds, contents, children, parents, rows, contentsEnd, childrenEnd, parentsEnd,
                 |order|, order, h, cb, chb, pb);
  }

  /** The group rows, the implicit complement and the file set, the second
      half of the set table (core.py:651-667). */
  method GroupingRows(solids: seq<Solid>, volumeIds: map<int, int>, complement: bool, fileSetId: int,
                      contents0: seq<int>, children: seq<int>, parents: seq<int>, rows0: seq<SetRow>,
                      contentsEnd0: int, childrenEnd: int, parentsEnd: int,
                      ghost start: nat, ghost h: Handles,
                      ghost cb: seq<seq<int>>, ghost chb: seq<seq<int>>, ghost pb: seq<seq<int>>)
    returns (contents: seq<int>, rows: seq<SetRow>)
    requires WellFormed(solids) && IsVolumeIdMap(volumeIds, solids, h)
    requires h.volumeCount == |solids| && h.complement == complement
    requires GroupBlocksFit(solids, h, cb, chb, pb, start)
    requires ClosingBlocksFit(solids, h, fileSetId, cb, chb, pb, start + |solids|)
    requires TableBuilt(contents0, children, parents, rows0, cb, chb, pb, start)
    requires EndsTracked(contentsEnd0, childrenEnd, parentsEnd, contents0, children, parents)
    ensures TableBuilt(contents, children, parents, rows, cb, chb, pb, |cb|)
  {
    var contentsEnd;
    contents, rows, contentsEnd :=
      GroupRows(solids, volumeIds, contents0, children, parents, rows0, contentsEnd0, childrenEnd, parentsEnd,
                start, h, cb, chb, pb);
    contents, rows :=
      ClosingRows(solids, volumeIds, complement, fileSetId, contents, children, parents, rows,
                  contentsEnd, childrenEnd, parentsEnd, start + |solids|, h, cb, chb, pb);
  }

  /** The set table from its sections (core.py:609-681). */
  method SetTable(order: seq<int>, solids: seq<Solid>, vertexLists: map<int, seq<int>>,
                  ranges: map<int, (int, int)>, owners: map<int, seq<int>>,
                  surfaceIds: map<int, int>, volumeIds: map<int, int>,
                  complement: bool, triangleStartId: int, fileSetId: int, ghost h: Handles,
                  ghost cb: seq<seq<int>>, ghost chb: seq<seq<int>>, ghost pb: seq<seq<int>>)
    returns (contents: seq<int>, children: seq<int>, parents: seq<int>, rows: seq<SetRow>)
    requires WellFormed(solids)
    requires IsSurfaceIdMap(surfaceIds, order, h) && IsVolumeIdMap(volumeIds, solids, h)
    requires h.volumeCount == |solids| && h.complement == complement
    requires SurfaceBlocksFit(order, vertexLists, ranges, owners, triangleStartId, solids, h, cb, chb, pb)
    requires VolumeBlocksFit(solids, order, h, cb, chb, pb, |order|)
    requires GroupBlocksFit(solids, h, cb, chb, pb, |order| + |solids|)
    requires ClosingBlocksFit(solids, h, fileSetId, cb, chb, pb, |order| + |solids| + |solids|)
    ensures contents == Concat(cb) && children == Concat(chb) && parents == Concat(pb)
    ensures rows == SetList(cb, chb, pb)
  {
    var contentsEnd, childrenEnd, parentsEnd;
    contents, children, parents, rows, contentsEnd, childrenEnd, parentsEnd :=
      EntityRows(order, solids, vertexLists, ranges, owners, surfaceIds, volumeIds, triangleStartId, h, cb, chb, pb);
    contents, rows :=
      GroupingRows(solids, volumeIds, complement, fileSetId, contents, children, parents, rows,
                   contentsEnd, childrenEnd, parentsEnd, |order| + |solids|, h, cb, chb, pb);
    TableComplete(contents, children, parents, rows, cb, chb, pb);
  }

  // ---------------------------------------------------------------------
  // The model's blocks fit each section
  // ---------------------------------------------------------------------

  lemma SurfaceBlockAt(ls: seq<Listing>, order: seq<int>, h: Handles, k: nat,
                       verts: seq<int>, triStart: int, triCount: nat)
    requires k < |order|
    requires verts == FaceVertices(FirstTriangles(ls, order[k]))
    requires triStart == |AllTriangles(ls, order[..k])| && triCount == |FirstTriangles(ls, order[k])|
    ensures SurfaceBlock(verts, h.TriangleStart(), triStart, triCount) == SurfaceContents(ls, order, h, k)
  {
  }

  /** Row `k` of the model is the surface row the writer builds for face
      `order[k]`. */
  lemma SurfaceRowAt(order: seq<int>, solids: seq<Solid>, verts: seq<int>, range: (int, int),
                     owners: map<int, seq<int>>, triangleStartId: int, h: Handles,
                     contentBlock: seq<int>, childBlock: seq<int>, parentBlock: seq<int>, k: nat)
    requires k < |order| && order[k] in FaceIdsListed(Listings(solids))
    requires verts == FaceVertices(FirstTriangles(Listings(solids), order[k]))
    requires range == (|AllTriangles(Listings(solids), order[..k])|, |FirstTriangles(Listings(solids), order[k])|)
    requires IsOwnerMap(owners, Listings(solids))
    requires h.surfaceCount == |order| && h.volumeCount == |solids| && (h.complement ==> h.volumeCount > 0)
    requires triangleStartId == h.TriangleStart()
    requires contentBlock == ContentBlock(Listings(solids), order, h, k)
    requires childBlock == ChildBlock(solids, order, h, k)
    requires parentBlock == ParentBlock(Listings(solids), solids, order, h, k)
    ensures order[k] in owners && range.1 >= 0
    ensures contentBlock == SurfaceBlock(verts, triangleStartId, range.0, range.1)
    ensures childBlock == [] && parentBlock == VolumeHandlesOf(solids, h, owners[order[k]])
    ensures forall j :: 0 <= j < |owners[order[k]]| ==> owners[order[k]][j] in SolidIds(solids)
  {
    SurfaceBlockAt(Listings(solids), order, h, k, verts, range.0, range.1);
    OwnersAreSolids(solids, order[k]);
  }

  lemma SurfaceBlocksReady(order: seq<int>, solids: seq<Solid>, vertexLists: map<int, seq<int>>,
                           ranges: map<int, (int, int)>, owners: map<int, seq<int>>,
                           triangleStartId: int, h: Handles,
                           cb: seq<seq<int>>, chb: seq<seq<int>>, pb: seq<seq<int>>)
    requires forall k :: 0 <= k < |order| ==> order[k] in FaceIdsListed(Listings(solids))
    requires forall k :: 0 <= k < |order| ==>
               order[k] in vertexLists && vertexLists[order[k]] == FaceVertices(FirstTriangles(Listings(solids), order[k]))
    requires forall k :: 0 <= k < |order| ==>
               order[k] in ranges
               && ranges[order[k]] == (|AllTriangles(Listings(solids), order[..k])|, |FirstTriangles(Listings(solids), order[k])|)
    requires IsOwnerMap(owners, Listings(solids))
    requires h.surfaceCount == |order| && h.volumeCount == |solids| && (h.complement ==> h.volumeCount > 0)
    requires triangleStartId == h.TriangleStart()
    requires cb == ContentBlocks(Listings(solids), order, h)
    requires chb == ChildBlocks(solids, order, h)
    requires pb == ParentBlocks(Listings(solids), solids, order, h)
    ensures SurfaceBlocksFit(order, vertexLists, ranges, owners, triangleStartId, solids, h, cb, chb, pb)
  {
    var ls := Listings(solids);
    forall k | 0 <= k < |order|
      ensures order[k] in owners
      ensures cb[k] == SurfaceBlock(vertexLists[order[k]], triangleStartId, ranges[order[k]].0, ranges[order[k]].1)
      ensures chb[k] == [] && pb[k] == VolumeHandlesOf(solids, h, owners[order[k]])
      ensures forall j :: 0 <= j < |owners[order[k]]| ==> owners[order[k]][j] in SolidIds(solids)
    {
      assert cb[k] == ContentBlock(ls, order, h, k);
      assert chb[k] == ChildBlock(solids, order, h, k);
      assert pb[k] == ParentBlock(ls, solids, order, h, k);
      SurfaceRowAt(order, solids, vertexLists[order[k]], ranges[order[k]], owners, triangleStartId, h, cb[k], chb[k], pb[k], k);
    }
  }

  lemma VolumeBlocksReady(order: seq<int>, solids: seq<Solid>, h: Handles,
                          cb: seq<seq<int>>, chb: seq<seq<int>>, pb: seq<seq<int>>)
    requires forall f :: f in FaceIdsListed(Listings(solids)) ==> f in order
    requires h.surfaceCount == |order| && h.volumeCount == |solids| && (h.complement ==> |solids| > 0)
    requires cb == ContentBlocks(Listings(solids), order, h)
    requires chb == ChildBlocks(solids, order, h)
    requires pb == ParentBlocks(Listings(solids), solids, order, h)
    ensures VolumeBlocksFit(solids, order, h, cb, chb, pb, |order|)
  {
    VolumeContentsEmpty(order, solids, h, cb, pb);
    VolumeChildren(order, solids, h, chb);
    FacesInOrder(order, solids);
  }

  lemma VolumeContentsEmpty(order: seq<int>, solids: seq<Solid>, h: Handles, cb: seq<seq<int>>, pb: seq<seq<int>>)
    requires h.surfaceCount == |order| && h.volumeCount == |solids| && (h.complement ==> |solids| > 0)
    requires cb == ContentBlocks(Listings(solids), order, h)
    requires pb == ParentBlocks(Listings(solids), solids, order, h)
    ensures forall j :: |order| <= j < |order| + |solids| ==> cb[j] == [] && pb[j] == []
  {
    forall j | |order| <= j < |order| + |solids|
      ensures cb[j] == [] && pb[j] == []
    {
      assert cb[j] == ContentBlock(Listings(solids), order, h, j);
      assert pb[j] == ParentBlock(Listings(solids), solids, order, h, j);
    }
  }

  lemma VolumeChildren(order: seq<int>, solids: seq<Solid>, h: Handles, chb: seq<seq<int>>)
    requires h.surfaceCount == |order| && h.volumeCount == |solids|
    requires chb == ChildBlocks(solids, order, h)
    ensures forall i :: 0 <= i < |solids| ==> chb[|order| + i] == SolidChildren(solids[i], order, h)
  {
    forall i | 0 <= i < |solids|
      ensures chb[|order| + i] == SolidChildren(solids[i], order, h)
    {
      assert chb[|order| + i] == ChildBlock(solids, order, h, |order| + i);
    }
  }

  lemma FacesInOrder(order: seq<int>, solids: seq<Solid>)
    requires forall f :: f in FaceIdsListed(Listings(solids)) ==> f in order
    ensures forall i, j :: 0 <= i < |solids| && 0 <= j < |solids[i].faces| ==> solids[i].faces[j].faceId in order
  {
    forall i, j | 0 <= i < |solids| && 0 <= j < |solids[i].faces|
      ensures solids[i].faces[j].faceId in order
    {
      ListedFace(solids, i, j);
    }
  }

  lemma GroupBlocksReady(order: seq<int>, solids: seq<Solid>, h: Handles,
                         cb: seq<seq<int>>, chb: seq<seq<int>>, pb: seq<seq<int>>)
    requires h.surfaceCount == |order| && h.volumeCount == |solids| && (h.complement ==> |solids| > 0)
    requires cb == ContentBlocks(Listings(solids), order, h)
    requires chb == ChildBlocks(solids, order, h)
    requires pb == ParentBlocks(Listings(solids), solids, order, h)
    ensures GroupBlocksFit(solids, h, cb, chb, pb, |order| + |solids|)
  {
    var ls := Listings(solids);
    var start := |order| + |solids|;
    forall j | start <= j < start + |solids|
      ensures cb[j] == [h.Volume(j - start)] && chb[j] == [] && pb[j] == []
    {
      assert cb[j] == ContentBlock(ls, order, h, j);
      assert chb[j] == ChildBlock(solids, order, h, j);
      assert pb[j] == ParentBlock(ls, solids, order, h, j);
    }
  }

  lemma ClosingBlocksReady(order: seq<int>, solids: seq<Solid>, h: Handles,
                           cb: seq<seq<int>>, chb: seq<seq<int>>, pb: seq<seq<int>>)
    requires h.surfaceCount == |order| && h.volumeCount == |solids| && (h.complement ==> |solids| > 0)
    requires cb == ContentBlocks(Listings(solids), order, h)
    requires chb == ChildBlocks(solids, order, h)
    requires pb == ParentBlocks(Listings(solids), solids, order, h)
    ensures ClosingBlocksFit(solids, h, h.FileSet(), cb, chb, pb, |order| + |solids| + |solids|)
  {
    var ls := Listings(solids);
    var start := |order| + |solids| + |solids|;
    forall j | start <= j < |cb|
      ensures chb[j] == [] && pb[j] == []
    {
      assert chb[j] == ChildBlock(solids, order, h, j);
      assert pb[j] == ParentBlock(ls, solids, order, h, j);
    }
    assert cb[|cb| - 1] == ContentBlock(ls, order, h, |cb| - 1);
    if h.complement {
      assert cb[start] == ContentBlock(ls, order, h, start);
    }
  }

  /** Triangle ranges, vertex lists and the set table (core.py:593-681),
      proved to be the model's. */
  method BuildSets(order: seq<int>, solids: seq<Solid>, allFaces: map<int, seq<Triangle>>,
                   owners: map<int, seq<int>>, surfaceIds: map<int, int>, volumeIds: map<int, int>,
                   complement: bool, triangleStartId: int, fileSetId: int, ghost h: Handles)
    returns (contents: seq<int>, children: seq<int>, parents: seq<int>, rows: seq<SetRow>)
    requires WellFormed(solids) && StrictlyIncreasing(order)
    requires forall f :: f in order <==> f in FaceIdsListed(Listings(solids))
    requires IsFaceMap(allFaces, Listings(solids)) && IsOwnerMap(owners, Listings(solids))
    requires IsSurfaceIdMap(surfaceIds, order, h) && IsVolumeIdMap(volumeIds, solids, h)
    requires h.surfaceCount == |order| && h.volumeCount == |solids| && h.complement == complement
    requires complement ==> |solids| > 0
    requires triangleStartId == h.TriangleStart() && fileSetId == h.FileSet()
    ensures contents == Concat(ContentBlocks(Listings(solids), order, h))
    ensures children == Concat(ChildBlocks(solids, order, h))
    ensures parents == Concat(ParentBlocks(Listings(solids), solids, order, h))
    ensures rows == SetList(ContentBlocks(Listings(solids), order, h), ChildBlocks(solids, order, h),
                            ParentBlocks(Listings(solids), solids, order, h))
  {
    ghost var ls := Listings(solids);
    forall k | 0 <= k < |order|
      ensures order[k] in allFaces && order[k] in FaceIdsListed(ls)
    {
      assert order[k] in order;
    }
    var ranges := TriangleRanges(allFaces, order, ls);
    var vertexLists := FaceVertexLists(allFaces);
    ghost var cb := ContentBlocks(ls, order, h);
    ghost var chb := ChildBlocks(solids, order, h);
    ghost var pb := ParentBlocks(ls, solids, order, h);
    SurfaceBlocksReady(order, solids, vertexLists, ranges, owners, triangleStartId, h, cb, chb, pb);
    VolumeBlocksReady(order, solids, h, cb, chb, pb);
    GroupBlocksReady(order, solids, h, cb, chb, pb);
    ClosingBlocksReady(order, solids, h, cb, chb, pb);
    contents, children, parents, rows :=
      SetTable(order, solids, vertexLists, ranges, owners, surfaceIds, volumeIds, complement,
               triangleStartId, fileSetId, h, cb, chb, pb);
  }

  /** The dense GLOBAL_ID of the set rows (core.py:683-706). */
  method SetGlobalIdsOf(order: seq<int>, solids: seq<Solid>, complement: bool, ghost h: Handles)
    returns (ids: seq<int>)
    requires h.complement == complement
    ensures ids == SetGlobalIds(solids, order, h)
  {
    ids := [];
    var k := 0;
    while k < |order|
      invariant 0 <= k <= |order| && ids == order[..k]
    {
      assert order[..k + 1] == order[..k] + [order[k]];
      ids := ids + [order[k]];
      k := k + 1;
    }
    assert order[..k] == order;
    var i := 0;
    while i < |solids|
      invariant 0 <= i <= |solids| && ids == order + SolidIds(solids)[..i]
    {
      assert SolidIds(solids)[..i + 1] == SolidIds(solids)[..i] + [solids[i].solidId];
      ids := ids + [solids[i].solidId];
      i := i + 1;
    }
    assert SolidIds(solids)[..i] == SolidIds(solids);
    i := 0;
    while i < |solids|
      invariant 0 <= i <= |solids| && ids == order + SolidIds(solids) + SolidIds(solids)[..i]
    {
      assert SolidIds(solids)[..i + 1] == SolidIds(solids)[..i] + [solids[i].solidId];
      ids := ids + [solids[i].solidId];
      i := i + 1;
    }
    assert SolidIds(solids)[..i] == SolidIds(solids);
    if complement {
      ids := ids + [-1];
    }
    ids := ids + [-1];
  }

  // ---------------------------------------------------------------------
  // core.py:279-712 -- the writer
  // ---------------------------------------------------------------------

  /** The five sparse tags on sets: CATEGORY, GEOM_DIMENSION, GEOM_SENSE_2,
      GLOBAL_ID and NAME (core.py:446-574). */
  method Tags(order: seq<int>, solids: seq<Solid>, tags: seq<string>, ic: Option<string>,
              owners: map<int, seq<int>>, surfaceIds: map<int, int>, volumeIds: map<int, int>,
              groupIds: map<int, int>, complementId: Option<int>, ghost h: Handles)
    returns (category: SparseTag<string>, geomDimension: SparseTag<int>, sense: SparseTag<(int, int)>,
             globalIdTag: SparseTag<int>, name: SparseTag<string>)
    requires StrictlyIncreasing(order) && WellFormed(solids) && |tags| == |solids|
    requires h.surfaceCount == |order| && h.volumeCount == |solids| && h.complement == ComplementRequested(ic)
    requires IsOwnerMap(owners, Listings(solids))
    requires forall k :: 0 <= k < |order| ==> order[k] in FaceIdsListed(Listings(solids))
    requires IsSurfaceIdMap(surfaceIds, order, h)
    requires IsVolumeIdMap(volumeIds, solids, h) && IsGroupIdMap(groupIds, solids, h)
    requires complementId == if h.complement then Some(h.Complement()) else None
    ensures category == CategoryTag(h) && geomDimension == GeomDimensionTag(h)
    ensures sense == SparseTag(SurfaceHandles(h), SenseValues(Listings(solids), solids, order, h))
    ensures globalIdTag == GlobalIdTag(solids, order, h)
    ensures name == NameTag(tags, ic, h)
  {
    category, geomDimension := CategoryAndDimensionTags(order, solids, surfaceIds, volumeIds, groupIds, complementId, h);
    sense := SenseTag(order, owners, surfaceIds, volumeIds, solids, h);
    globalIdTag := GlobalIdTagOf(order, solids, surfaceIds, volumeIds, groupIds, h);
    name := NameTagOf(solids, tags, groupIds, ic, complementId, h);
  }

  /** The per-face dictionaries and the face order that every later step
      reads (core.py:308-333). */
  method FaceTables(solids: seq<Solid>)
    returns (owners: map<int, seq<int>>, allFaces: map<int, seq<Triangle>>, order: seq<int>,
             allTriangles: seq<Triangle>)
    ensures IsOwnerMap(owners, Listings(solids)) && IsFaceMap(allFaces, Listings(solids))
    ensures order == FaceOrder(solids) && StrictlyIncreasing(order)
    ensures forall f :: f in order <==> f in FaceIdsListed(Listings(solids))
    ensures forall k :: 0 <= k < |order| ==> order[k] in allFaces && order[k] in FaceIdsListed(Listings(solids))
    ensures allTriangles == AllTriangles(Listings(solids), order)
  {
    owners := CollectFaceOwners(solids);
    allFaces := CollectFaces(solids);
    order := SortedInts(allFaces.Keys);
    assert order == FaceOrder(solids);
    forall k | 0 <= k < |order|
      ensures order[k] in allFaces && order[k] in FaceIdsListed(Listings(solids))
    {
      assert order[k] in order;
    }
    allTriangles := CollectTriangles(allFaces, order, Listings(solids));
  }

  /** `_vertices_to_h5m_h5py`: checks the material tags, then lays out
      nodes, triangles, tags and sets exactly as `DagmcModel.Encode`
      describes, failing where the source raises. */
  method VerticesToH5mH5py(vertices: seq<Point>, solids: seq<Solid>, tags: seq<string>, ic: Option<string>)
    returns (r: Result<H5mLayout, EncodeError>)
    requires WellFormed(solids)
    ensures r == Encode(vertices, solids, tags, ic)
  {
    if |tags| != |solids| {
      return Err(MaterialTagCountMismatch(|tags|, |solids|));
    }
    if |vertices| == 0 {
      // `vertices[0]` on an empty list
      return Err(NoVertices);
    }
    ghost var ls := Listings(solids);
    var owners, allFaces, order, allTriangles := FaceTables(solids);

    var complement := ic.Some? && ic.value != "";
    ghost var h := Handles(|vertices|, |allTriangles|, |order|, |solids|, complement);
    assert h == HandlesOf(vertices, solids, ic);

    var globalId := 1;
    var nodeStartId := globalId;
    globalId := globalId + |vertices|;
    var connectivity := Connectivity(allTriangles);  // `all_triangles + 1`, elementwise
    var triangleStartId := globalId;
    assert triangleStartId == h.TriangleStart();
    globalId := globalId + |allTriangles|;

    var setsStartId := globalId;
    assert setsStartId == h.SetsStart();
    var surfaceIds, volumeIds, groupIds, complementId, fileSetId;
    surfaceIds, volumeIds, groupIds, complementId, fileSetId, globalId :=
      AssignSetIds(order, solids, complement, setsStartId, h);

    var category, geomDimension, sense, globalIdTag, name :=
      Tags(order, solids, tags, ic, owners, surfaceIds, volumeIds, groupIds, complementId, h);

    if complement && |solids| == 0 {
      // `solid_ids[-1]` on an empty list
      return Err(NoVolumeForComplement);
    }
    var contents, children, parents, rows :=
      BuildSets(order, solids, allFaces, owners, surfaceIds, volumeIds, complement, triangleStartId, fileSetId, h);
    var setGlobalIds := SetGlobalIdsOf(order, solids, complement, h);

    r := Ok(H5mLayout(vertices, nodeStartId, connectivity, triangleStartId, category, geomDimension,
                      sense, globalIdTag, name, contents, children, parents, rows, setsStartId,
                      setGlobalIds, globalId - 1));
  }
}
