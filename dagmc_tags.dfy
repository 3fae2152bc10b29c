/** What a reader of the file finds when it looks a handle up in one of the
    sparse tags the h5py writer stores (CATEGORY, GEOM_DIMENSION,
    GEOM_SENSE_2, GLOBAL_ID, NAME) and in the dense GLOBAL_ID of the set
    table. Each lookup is compared with an independent statement of what
    DAGMC expects for each kind of entity. */
module DagmcTags {
  import opened Outcomes
  import opened Seqs
  import opened DagmcModel
  import opened DagmcProperties

  /** The entity a handle stands for under the numbering of `Handles`. */
  datatype Entity =
    | Node(v: nat)          // 0-based vertex index
    | Tri(t: nat)           // 0-based index into `connectivity`
    | Surface(k: nat)       // k-th smallest face id
    | Volume(i: nat)        // i-th solid
    | Group(i: nat)         // material group of the i-th solid
    | ComplementGroup
    | FileSet
    | Unused

  /** The entities the file holds. */
  predicate InFile(h: Handles, e: Entity) {
    match e
    case Node(v) => v < h.vertexCount
    case Tri(t) => t < h.triangleCount
    case Surface(k) => k < h.surfaceCount
    case Volume(i) => i < h.volumeCount
    case Group(i) => i < h.volumeCount
    case ComplementGroup => h.complement
    case FileSet => true
    case Unused => false
  }

  /** The handle the writer gives each entity. */
  function HandleOf(h: Handles, e: Entity): int {
    match e
    case Node(v) => 1 + v
    case Tri(t) => h.TriangleStart() + t
    case Surface(k) => h.Surface(k)
    case Volume(i) => h.Volume(i)
    case Group(i) => h.Group(i)
    case ComplementGroup => h.Complement()
    case FileSet => h.FileSet()
    case Unused => 0
  }

  /** Decodes a handle. */
  function KindOf(h: Handles, x: int): Entity {
    if x < 1 || x > h.FileSet() then Unused
    else if x < h.TriangleStart() then Node(x - 1)
    else if x < h.SetsStart() then Tri(x - h.TriangleStart())
    else if x < h.Volume(0) then Surface(x - h.SetsStart())
    else if x < h.Group(0) then Volume(x - h.Volume(0))
    else if x < h.Complement() then Group(x - h.Group(0))
    else if x < h.FileSet() then ComplementGroup
    else FileSet
  }

  /** Handles 1 to the file set's are each the handle of an entity in the
      file, and no others are. */
  lemma KindOfDecodes(h: Handles, x: int)
    ensures KindOf(h, x).Unused? <==> x < 1 || x > h.FileSet()
    ensures !KindOf(h, x).Unused? ==> InFile(h, KindOf(h, x)) && HandleOf(h, KindOf(h, x)) == x
  {
  }

  /** Every entity's handle decodes back to that entity: no two entities
      share a handle. */
  lemma KindOfHandle(h: Handles, e: Entity)
    requires InFile(h, e)
    ensures KindOf(h, HandleOf(h, e)) == e
  {
  }

  // ---------------------------------------------------------------------
  // Sparse tag lookup
  // ---------------------------------------------------------------------

  /** The value a sparse tag gives handle `x`: a reader scans `id_list`
      and takes the value beside the first occurrence of `x`; nothing when
      `x` is not tagged. (Every tag below lists each handle at most once,
      so a reader that takes any other occurrence agrees.) */
  function TagValue<T>(t: SparseTag<T>, x: int): Option<T>
    decreases |t.idList|
  {
    if |t.idList| == 0 || |t.values| == 0 then None
    else if t.idList[0] == x then Some(t.values[0])
    else TagValue(SparseTag(t.idList[1..], t.values[1..]), x)
  }

  lemma {:induction false} LookupConcat<T>(ids1: seq<int>, vals1: seq<T>, ids2: seq<int>, vals2: seq<T>, x: int)
    requires |ids1| == |vals1|
    ensures TagValue(SparseTag(ids1 + ids2, vals1 + vals2), x)
         == if x in ids1 then TagValue(SparseTag(ids1, vals1), x) else TagValue(SparseTag(ids2, vals2), x)
    decreases |ids1|
  {
    if |ids1| == 0 {
      assert ids1 + ids2 == ids2 && vals1 + vals2 == vals2;
    } else {
      assert (ids1 + ids2)[1..] == ids1[1..] + ids2;
      assert (vals1 + vals2)[1..] == vals1[1..] + vals2;
      assert x in ids1 <==> x == ids1[0] || x in ids1[1..];
      LookupConcat(ids1[1..], vals1[1..], ids2, vals2, x);
    }
  }

  lemma {:induction false} LookupRange<T>(start: int, vals: seq<T>, x: int)
    ensures x in Range(start, |vals|) <==> start <= x < start + |vals|
    ensures TagValue(SparseTag(Range(start, |vals|), vals), x)
         == if start <= x < start + |vals| then Some(vals[x - start]) else None
    decreases |vals|
  {
    InRange(start, |vals|, x);
    if |vals| > 0 && x != start {
      assert Range(start, |vals|)[1..] == Range(start + 1, |vals[1..]|);
      LookupRange(start + 1, vals[1..], x);
    }
  }

  lemma LookupUniform<T>(start: int, v: T, n: nat, x: int)
    ensures x in Range(start, n) <==> start <= x < start + n
    ensures TagValue(SparseTag(Range(start, n), Repeat(v, n)), x)
         == if start <= x < start + n then Some(v) else None
  {
    LookupRange(start, Repeat(v, n), x);
  }

  /** The handle lists of the tags are runs of consecutive handles. */
  lemma HandleRuns(h: Handles)
    ensures SurfaceHandles(h) == Range(h.SetsStart(), h.surfaceCount)
    ensures VolumeHandles(h) == Range(h.Volume(0), h.volumeCount)
    ensures GroupHandles(h) == Range(h.Group(0), h.volumeCount)
    ensures ComplementHandles(h) == Range(h.Complement(), h.ComplementCount())
  {
    if h.complement {
      assert Range(h.Complement(), 1)[0] == h.Complement();
    }
  }

  // ---------------------------------------------------------------------
  // What DAGMC expects of each entity
  // ---------------------------------------------------------------------

  function CategoryOf(e: Entity): Option<string> {
    match e
    case Surface(_) => Some(SurfaceCategory)
    case Volume(_) => Some(VolumeCategory)
    case Group(_) => Some(GroupCategory)
    case ComplementGroup => Some(GroupCategory)
    case _ => None
  }

  function DimensionOf(e: Entity): Option<int> {
    match e
    case Surface(_) => Some(2)
    case Volume(_) => Some(3)
    case _ => None
  }

  /** The user-facing id: the face id of a surface, the solid id of a volume
      and of its material group. */
  function GlobalIdOf(solids: seq<Solid>, order: seq<int>, e: Entity): Option<int> {
    match e
    case Surface(k) => if k < |order| then Some(order[k]) else None
    case Volume(i) => if i < |solids| then Some(solids[i].solidId) else None
    case Group(i) => if i < |solids| then Some(solids[i].solidId) else None
    case _ => None
  }

  function NameOf(tags: seq<string>, ic: Option<string>, e: Entity): Option<string> {
    match e
    case Group(i) => if i < |tags| then Some(GroupName(tags[i])) else None
    case ComplementGroup => if ic.Some? then Some(ComplementName(ic.value)) else None
    case _ => None
  }

  /** The sense pair of a surface: the volumes on its two sides when two
      solids list the face, else the first lister's volume and 0. */
  function SenseOf(ls: seq<Listing>, solids: seq<Solid>, order: seq<int>, h: Handles, e: Entity): Option<(int, int)> {
    match e
    case Surface(k) =>
      if k < |order| && order[k] in FaceIdsListed(ls) then Some(Sense(solids, h, OwnerIds(ls, order[k]))) else None
    case _ => None
  }

  // ---------------------------------------------------------------------
  // Lookups
  // ---------------------------------------------------------------------

  /** CATEGORY names every volume, surface and group, the implicit-complement
      group included, and nothing else. */
  lemma CategoryLookup(h: Handles, x: int)
    ensures TagValue(CategoryTag(h), x) == CategoryOf(KindOf(h, x))
  {
    HandleRuns(h);
    var n, f, cc := h.volumeCount, h.surfaceCount, h.ComplementCount();
    var vs, gs, ss, cs := VolumeHandles(h), GroupHandles(h), SurfaceHandles(h), ComplementHandles(h);
    var rv, rg, rs, rc := Repeat(VolumeCategory, n), Repeat(GroupCategory, n),
                          Repeat(SurfaceCategory, f), Repeat(GroupCategory, cc);
    LookupConcat(vs + gs + ss, rv + rg + rs, cs, rc, x);
    LookupConcat(vs + gs, rv + rg, ss, rs, x);
    LookupConcat(vs, rv, gs, rg, x);
    LookupUniform(h.Volume(0), VolumeCategory, n, x);
    LookupUniform(h.Group(0), GroupCategory, n, x);
    LookupUniform(h.SetsStart(), SurfaceCategory, f, x);
    LookupUniform(h.Complement(), GroupCategory, cc, x);
    var v := TagValue(CategoryTag(h), x);
    if x < h.SetsStart() || x >= h.FileSet() {
      assert x !in vs + gs + ss && x !in cs;
      assert v == None;
    } else if x < h.Volume(0) {
      assert x !in vs + gs && x in ss;
      assert KindOf(h, x).Surface? && v == Some(SurfaceCategory);
    } else if x < h.Group(0) {
      assert x in vs;
      assert KindOf(h, x).Volume? && v == Some(VolumeCategory);
    } else if x < h.Complement() {
      assert x !in vs && x in gs;
      assert KindOf(h, x).Group? && v == Some(GroupCategory);
    } else {
      assert x !in vs + gs + ss && x in cs;
      assert KindOf(h, x).ComplementGroup? && v == Some(GroupCategory);
    }
  }

  /** GEOM_DIMENSION is 3 on volumes and 2 on surfaces, and absent on
      groups, mesh entities and the file set. */
  lemma DimensionLookup(h: Handles, x: int)
    ensures TagValue(GeomDimensionTag(h), x) == DimensionOf(KindOf(h, x))
  {
    HandleRuns(h);
    LookupConcat(VolumeHandles(h), Repeat(3, h.volumeCount), SurfaceHandles(h), Repeat(2, h.surfaceCount), x);
    LookupUniform(h.Volume(0), 3, h.volumeCount, x);
    LookupUniform(h.SetsStart(), 2, h.surfaceCount, x);
  }

  /** GLOBAL_ID carries the face id of every surface and the solid id of
      every volume and material group. */
  lemma GlobalIdLookup(solids: seq<Solid>, order: seq<int>, h: Handles, x: int)
    requires h.surfaceCount == |order| && h.volumeCount == |solids|
    ensures TagValue(GlobalIdTag(solids, order, h), x) == GlobalIdOf(solids, order, KindOf(h, x))
  {
    var f, n := |order|, |solids|;
    var ids := SolidIds(solids);
    GlobalIdRun(solids, order, h, x);
    var k := x - h.SetsStart();
    if 0 <= k < f {
      assert (order + ids + ids)[k] == order[k];
    } else if f <= k < f + n {
      assert (order + ids + ids)[k] == ids[k - f];
    } else if f + n <= k < f + 2 * n {
      assert (order + ids + ids)[k] == ids[k - f - n];
    }
  }

  /** GLOBAL_ID tags one run of handles: every surface, volume and group. */
  lemma GlobalIdRun(solids: seq<Solid>, order: seq<int>, h: Handles, x: int)
    requires h.surfaceCount == |order| && h.volumeCount == |solids|
    ensures var vals := order + SolidIds(solids) + SolidIds(solids);
            TagValue(GlobalIdTag(solids, order, h), x)
              == if h.SetsStart() <= x < h.SetsStart() + |vals| then Some(vals[x - h.SetsStart()]) else None
  {
    var vals := order + SolidIds(solids) + SolidIds(solids);
    HandleRuns(h);
    RangeConcat(h.SetsStart(), |order|, |solids|);
    RangeConcat(h.SetsStart(), |order| + |solids|, |solids|);
    LookupRange(h.SetsStart(), vals, x);
  }

  /** NAME labels each material group `mat:<tag>` and the
      implicit-complement group `mat:<tag>_comp`, cut to 32 bytes. */
  lemma NameLookup(tags: seq<string>, ic: Option<string>, h: Handles, x: int)
    requires |tags| == h.volumeCount
    requires h.complement ==> ic.Some?
    ensures TagValue(NameTag(tags, ic, h), x)
         == if KindOf(h, x).Group? || KindOf(h, x).ComplementGroup? then NameOf(tags, ic, KindOf(h, x)) else None
  {
    HandleRuns(h);
    var names := seq(|tags|, i requires 0 <= i < |tags| => GroupName(tags[i]));
    var comp := if h.complement then [ComplementName(ic.value)] else [];
    LookupConcat(GroupHandles(h), names, ComplementHandles(h), comp, x);
    LookupRange(h.Group(0), names, x);
    LookupRange(h.Complement(), comp, x);
  }

  /** GEOM_SENSE_2 gives every surface the sense pair built from the
      solids that list its face, and nothing else. */
  lemma SenseLookup(ls: seq<Listing>, solids: seq<Solid>, order: seq<int>, h: Handles, x: int)
    requires h.surfaceCount == |order|
    requires forall k :: 0 <= k < |order| ==> order[k] in FaceIdsListed(ls)
    ensures TagValue(SparseTag(SurfaceHandles(h), SenseValues(ls, solids, order, h)), x)
              == SenseOf(ls, solids, order, h, KindOf(h, x))
  {
    HandleRuns(h);
    LookupRange(h.SetsStart(), SenseValues(ls, solids, order, h), x);
  }

  /** The dense GLOBAL_ID of the set table agrees with the sparse GLOBAL_ID
      tag on every set, and holds -1 where the sparse tag has nothing. */
  lemma DenseGlobalIds(solids: seq<Solid>, order: seq<int>, h: Handles, r: nat, x: int)
    requires h.surfaceCount == |order| && h.volumeCount == |solids|
    requires r < h.SetCount() && x == h.SetsStart() + r
    ensures |SetGlobalIds(solids, order, h)| == h.SetCount()
    ensures var e := KindOf(h, x);
            SetGlobalIds(solids, order, h)[r] == (if GlobalIdOf(solids, order, e).Some? then GlobalIdOf(solids, order, e).value else -1)
  {
    var f, n := |order|, |solids|;
    var ids := SolidIds(solids);
    var dense := SetGlobalIds(solids, order, h);
    if r < f {
      assert dense[r] == order[r];
    } else if r < f + n {
      assert dense[r] == ids[r - f];
    } else if r < f + 2 * n {
      assert dense[r] == ids[r - f - n];
    } else {
      assert dense[r] == -1;
    }
  }

  // ---------------------------------------------------------------------
  // The written file
  // ---------------------------------------------------------------------

  /** What every handle of the written file carries in each sparse tag. */
  lemma LayoutTags(vertices: seq<Point>, solids: seq<Solid>, tags: seq<string>, ic: Option<string>, x: int)
    requires Encodable(solids, tags, ic)
    ensures var l := LayoutOf(vertices, solids, tags, ic);
            var e := KindOf(HandlesOf(vertices, solids, ic), x);
            && TagValue(l.category, x) == CategoryOf(e)
            && TagValue(l.geomDimension, x) == DimensionOf(e)
            && TagValue(l.globalId, x) == GlobalIdOf(solids, FaceOrder(solids), e)
            && TagValue(l.name, x) == (if e.Group? || e.ComplementGroup? then NameOf(tags, ic, e) else None)
            && TagValue(l.geomSense, x) == SenseOf(Listings(solids), solids, FaceOrder(solids), HandlesOf(vertices, solids, ic), e)
  {
    var h := HandlesOf(vertices, solids, ic);
    CategoryLookup(h, x);
    DimensionLookup(h, x);
    GlobalIdLookup(solids, FaceOrder(solids), h, x);
    NameLookup(tags, ic, h, x);
    SenseLookup(Listings(solids), solids, FaceOrder(solids), h, x);
  }

  /** The dense GLOBAL_ID of set row `r` is the sparse GLOBAL_ID of that
      set's handle `x`, or -1 where the sparse tag has none. */
  lemma LayoutDenseGlobalIds(vertices: seq<Point>, solids: seq<Solid>, tags: seq<string>, ic: Option<string>,
                             r: nat, x: int)
    requires Encodable(solids, tags, ic)
    requires r < |LayoutOf(vertices, solids, tags, ic).setList|
    requires x == LayoutOf(vertices, solids, tags, ic).setsStartId + r
    ensures var l := LayoutOf(vertices, solids, tags, ic);
            && |l.setGlobalIds| == |l.setList|
            && l.setGlobalIds[r] == match TagValue(l.globalId, x)
                                    case Some(v) => v
                                    case None => -1
  {
    var h := HandlesOf(vertices, solids, ic);
    DenseGlobalIds(solids, FaceOrder(solids), h, r, x);
    GlobalIdLookup(solids, FaceOrder(solids), h, x);
  }

  // ---------------------------------------------------------------------
  // Names and materials
  // ---------------------------------------------------------------------

  /** A group name is stored whole when `mat:<tag>` fits the 32-byte
      field, that is when the tag has at most 28 characters; otherwise the
      field keeps `mat:` and the tag's first 28 characters. */
  lemma GroupNameStored(tag: string)
    ensures |GroupName(tag)| <= 32
    ensures GroupName(tag) == "mat:" + tag <==> |tag| <= 28
    ensures GroupName(tag) == ("mat:" + tag)[..|GroupName(tag)|]
    ensures |tag| > 28 ==> GroupName(tag) == "mat:" + tag[..28]
  {
    if |tag| > 28 {
      assert ("mat:" + tag)[..32] == "mat:" + tag[..28];
    }
  }

  /** The complement's name `mat:<tag>_comp` is stored whole exactly when
      the tag has at most 23 characters; a longer tag loses the end of
      `_comp` first, and from 28 characters on the complement's name is
      the same as a group's. */
  lemma ComplementNameStored(tag: string)
    ensures |ComplementName(tag)| <= 32
    ensures ComplementName(tag) == "mat:" + tag + "_comp" <==> |tag| <= 23
    ensures ComplementName(tag) == ("mat:" + tag + "_comp")[..|ComplementName(tag)|]
    ensures |tag| > 23 ==> ComplementName(tag) == ("mat:" + tag + "_comp")[..32]
    ensures 23 < |tag| < 28 ==> ComplementName(tag) == "mat:" + tag + "_comp"[..28 - |tag|]
    ensures |tag| >= 28 ==> ComplementName(tag) == GroupName(tag)
  {
    var full := "mat:" + tag + "_comp";
    if 23 < |tag| < 28 {
      assert full[..32] == "mat:" + tag + "_comp"[..28 - |tag|];
    } else if |tag| >= 28 {
      assert full[..32] == ("mat:" + tag)[..32];
    }
  }

  /** A reader recovers each solid's material: the group set of solid `i`
      is set row `j`, holds that solid's volume alone, is a Group named
      after the solid's material tag, and carries the solid id, as the
      volume does. */
  lemma MaterialOfSolid(vertices: seq<Point>, solids: seq<Solid>, tags: seq<string>, ic: Option<string>,
                        i: nat, j: nat)
    requires Encodable(solids, tags, ic) && i < |solids|
    requires j == |FaceOrder(solids)| + |solids| + i
    ensures var l := LayoutOf(vertices, solids, tags, ic);
            var h := HandlesOf(vertices, solids, ic);
            && l.setsStartId + j == h.Group(i)
            && ReadContents(l, j) == Some([h.Volume(i)])
            && TagValue(l.category, h.Group(i)) == Some(GroupCategory)
            && TagValue(l.name, h.Group(i)) == Some(GroupName(tags[i]))
            && TagValue(l.globalId, h.Group(i)) == Some(solids[i].solidId)
            && TagValue(l.category, h.Volume(i)) == Some(VolumeCategory)
            && TagValue(l.globalId, h.Volume(i)) == Some(solids[i].solidId)
  {
    var h := HandlesOf(vertices, solids, ic);
    GroupSetRead(vertices, solids, tags, ic, i, j);
    KindOfHandle(h, Group(i));
    KindOfHandle(h, Volume(i));
    LayoutTags(vertices, solids, tags, ic, h.Group(i));
    LayoutTags(vertices, solids, tags, ic, h.Volume(i));
  }

  /** When an implicit complement is asked for, its group holds the last
      solid's volume, is a Group named `mat:<tag>_comp`, and has no
      GLOBAL_ID. */
  lemma ComplementMaterial(vertices: seq<Point>, solids: seq<Solid>, tags: seq<string>, ic: Option<string>, j: nat)
    requires Encodable(solids, tags, ic) && ComplementRequested(ic)
    requires j == |FaceOrder(solids)| + 2 * |solids|
    ensures var l := LayoutOf(vertices, solids, tags, ic);
            var h := HandlesOf(vertices, solids, ic);
            && l.setsStartId + j == h.Complement()
            && ReadContents(l, j) == Some([h.Volume(|solids| - 1)])
            && TagValue(l.category, h.Complement()) == Some(GroupCategory)
            && TagValue(l.name, h.Complement()) == Some(ComplementName(ic.value))
            && TagValue(l.globalId, h.Complement()) == None
  {
    var h := HandlesOf(vertices, solids, ic);
    ComplementSetRead(vertices, solids, tags, ic, j);
    KindOfHandle(h, ComplementGroup);
    LayoutTags(vertices, solids, tags, ic, h.Complement());
  }
}
