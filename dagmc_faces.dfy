/** Facts about the faces the h5py writer collects from the input
    dictionary (`face_ids_with_solid_ids`, `all_faces`,
    `face_vertex_sets`, `all_triangles`) and about the handles it derives
    from them: which solids own a face, whose triangles represent it, where
    they sit in `connectivity`, and which vertices a surface holds. */
module DagmcFaces {
  import opened Outcomes
  import opened Seqs
  import opened DagmcModel

  // ---------------------------------------------------------------------
  // Listings
  // ---------------------------------------------------------------------

  /** A face id is listed exactly when some visit of the nested loops
      meets it. */
  lemma {:induction false} ListedIff(ls: seq<Listing>, f: int)
    ensures f in FaceIdsListed(ls) <==> exists q :: 0 <= q < |ls| && ls[q].face.faceId == f
    decreases |ls|
  {
    if |ls| > 0 {
      var prefix := ls[..|ls| - 1];
      ListedIff(prefix, f);
      if exists q :: 0 <= q < |prefix| && prefix[q].face.faceId == f {
        var q :| 0 <= q < |prefix| && prefix[q].face.faceId == f;
        assert ls[q] == prefix[q];
      }
      if exists q :: 0 <= q < |ls| && ls[q].face.faceId == f {
        var q :| 0 <= q < |ls| && ls[q].face.faceId == f;
        if q < |prefix| {
          assert prefix[q] == ls[q];
        }
      }
    }
  }

  /** The first visit that meets face `f` decides both its triangles
      (`all_faces[f]`) and the head of its owner list, the solid on the
      forward side of the surface. */
  lemma {:induction false} FirstListing(ls: seq<Listing>, f: int, p: nat)
    requires p < |ls| && ls[p].face.faceId == f
    requires forall q :: 0 <= q < p ==> ls[q].face.faceId != f
    ensures FirstTriangles(ls, f) == ls[p].face.triangles
    ensures |OwnerIds(ls, f)| > 0 && OwnerIds(ls, f)[0] == ls[p].solidId
    decreases |ls|
  {
    var prefix := ls[..|ls| - 1];
    if p == |ls| - 1 {
      ListedIff(prefix, f);
    } else {
      assert prefix[p] == ls[p];
      ListedMember(prefix, p);
      FirstListing(prefix, f, p);
    }
  }

  /** A solid owns face `f` exactly when some visit pairs it with `f`. */
  lemma {:induction false} OwnerIff(ls: seq<Listing>, f: int, sid: int)
    ensures sid in OwnerIds(ls, f) <==> exists q :: 0 <= q < |ls| && ls[q].solidId == sid && ls[q].face.faceId == f
    decreases |ls|
  {
    if |ls| > 0 {
      var prefix := ls[..|ls| - 1];
      OwnerIff(prefix, f, sid);
      if exists q :: 0 <= q < |prefix| && prefix[q].solidId == sid && prefix[q].face.faceId == f {
        var q :| 0 <= q < |prefix| && prefix[q].solidId == sid && prefix[q].face.faceId == f;
        assert ls[q] == prefix[q];
      }
      if exists q :: 0 <= q < |ls| && ls[q].solidId == sid && ls[q].face.faceId == f {
        var q :| 0 <= q < |ls| && ls[q].solidId == sid && ls[q].face.faceId == f;
        if q < |prefix| {
          assert prefix[q] == ls[q];
        }
      }
    }
  }

  /** Every visit is one face of one solid of the input. */
  lemma {:induction false} ListingSource(solids: seq<Solid>, p: nat)
    requires p < |Listings(solids)|
    ensures exists i, j :: 0 <= i < |solids| && 0 <= j < |solids[i].faces|
                           && Listings(solids)[p] == Listing(solids[i].solidId, solids[i].faces[j])
    decreases |solids|
  {
    var n := |solids|;
    var prefix := Listings(solids[..n - 1]);
    if p < |prefix| {
      ListingSource(solids[..n - 1], p);
      var i, j :| 0 <= i < n - 1 && 0 <= j < |solids[..n - 1][i].faces|
                  && prefix[p] == Listing(solids[..n - 1][i].solidId, solids[..n - 1][i].faces[j]);
      assert solids[..n - 1][i] == solids[i];
      assert Listings(solids)[p] == prefix[p];
    } else {
      var j := p - |prefix|;
      assert Listings(solids)[p] == Row(solids[n - 1])[j];
    }
  }

  /** `face_ids_with_solid_ids[f]` holds a solid id exactly when that solid
      lists face `f`. */
  lemma OwnerOfSolid(solids: seq<Solid>, f: int, sid: int)
    ensures sid in OwnerIds(Listings(solids), f)
        <==> exists i, j :: 0 <= i < |solids| && 0 <= j < |solids[i].faces|
                            && solids[i].solidId == sid && solids[i].faces[j].faceId == f
  {
    var ls := Listings(solids);
    OwnerIff(ls, f, sid);
    if sid in OwnerIds(ls, f) {
      var q :| 0 <= q < |ls| && ls[q].solidId == sid && ls[q].face.faceId == f;
      ListingSource(solids, q);
    }
    if exists i, j :: 0 <= i < |solids| && 0 <= j < |solids[i].faces|
                      && solids[i].solidId == sid && solids[i].faces[j].faceId == f {
      var i, j :| 0 <= i < |solids| && 0 <= j < |solids[i].faces|
                  && solids[i].solidId == sid && solids[i].faces[j].faceId == f;
      ListingOf(solids, i, j);
      var q :| 0 <= q < |ls| && ls[q] == Listing(solids[i].solidId, solids[i].faces[j]);
    }
  }

  lemma {:induction false} OwnerIdsAppend(a: seq<Listing>, b: seq<Listing>, f: int)
    ensures OwnerIds(a + b, f) == OwnerIds(a, f) + OwnerIds(b, f)
    decreases |b|
  {
    if |b| == 0 {
      assert a + b == a;
    } else {
      var b' := b[..|b| - 1];
      var x := b[|b| - 1];
      assert (a + b)[..|a + b| - 1] == a + b';
      assert OwnerIds(a + b, f) == OwnerIds(a + b', f) + (if x.face.faceId == f then [x.solidId] else []);
      OwnerIdsAppend(a, b', f);
    }
  }

  /** Visits of one solid whose face ids are distinct record that solid at
      most once for any face. */
  lemma {:induction false} OwnersOfOneSolid(ls: seq<Listing>, f: int, sid: int)
    requires forall q :: 0 <= q < |ls| ==> ls[q].solidId == sid
    requires forall q, r :: 0 <= q < r < |ls| ==> ls[q].face.faceId != ls[r].face.faceId
    ensures OwnerIds(ls, f) == [] || OwnerIds(ls, f) == [sid]
    decreases |ls|
  {
    if |ls| > 0 {
      var prefix := ls[..|ls| - 1];
      OwnersOfOneSolid(prefix, f, sid);
      OwnerIff(prefix, f, sid);
    }
  }

  /** A face is owned by distinct solids: the owner list never names a
      solid twice, so a face with two owners is shared by two volumes. */
  lemma {:induction false} OwnersDistinct(solids: seq<Solid>, f: int)
    requires WellFormed(solids) && FacesDistinct(solids)
    ensures Distinct(OwnerIds(Listings(solids), f))
    decreases |solids|
  {
    var n := |solids|;
    if n > 0 {
      var pre := solids[..n - 1];
      var last := solids[n - 1];
      assert SolidIds(pre) == SolidIds(solids)[..n - 1];
      assert forall i :: 0 <= i < n - 1 ==> pre[i] == solids[i];
      OwnersDistinct(pre, f);
      OwnerIdsAppend(Listings(pre), Row(last), f);
      forall q, r | 0 <= q < r < |Row(last)|
        ensures Row(last)[q].face.faceId != Row(last)[r].face.faceId
      {
        assert Row(last)[q].face.faceId == FaceIds(last)[q];
        assert Row(last)[r].face.faceId == FaceIds(last)[r];
      }
      OwnersOfOneSolid(Row(last), f, last.solidId);
      OwnersAreSolids(pre, f);
      assert last.solidId == SolidIds(solids)[n - 1];
      assert last.solidId !in SolidIds(pre);
    }
  }

  // ---------------------------------------------------------------------
  // Triangles
  // ---------------------------------------------------------------------

  lemma {:induction false} AllTrianglesAppend(ls: seq<Listing>, a: seq<int>, b: seq<int>)
    ensures AllTriangles(ls, a + b) == AllTriangles(ls, a) + AllTriangles(ls, b)
    decreases |b|
  {
    if |b| == 0 {
      assert a + b == a;
    } else {
      assert (a + b)[..|a + b| - 1] == a + b[..|b| - 1];
      AllTrianglesAppend(ls, a, b[..|b| - 1]);
    }
  }

  /** The `k`-th face's triangles lie in `all_triangles` right after those
      of every smaller face id and right before those of every larger one:
      the ranges `(tri_start, tri_count)` cut `all_triangles` into the
      faces' own triangle lists. */
  lemma SurfaceTriangles(ls: seq<Listing>, order: seq<int>, k: nat)
    requires k < |order|
    ensures AllTriangles(ls, order)
         == AllTriangles(ls, order[..k]) + FirstTriangles(ls, order[k]) + AllTriangles(ls, order[k + 1..])
  {
    assert order == order[..k] + [order[k]] + order[k + 1..];
    AllTrianglesAppend(ls, order[..k] + [order[k]], order[k + 1..]);
    AllTrianglesAppend(ls, order[..k], [order[k]]);
    assert [order[k]][..0] == [];
  }

  /** Triangle `q` of face `k` sits at position `p` of `all_triangles`,
      after the triangles of every smaller face id. */
  lemma TriangleAt(ls: seq<Listing>, order: seq<int>, k: nat, q: nat, p: nat)
    requires k < |order| && q < |FirstTriangles(ls, order[k])|
    requires p == |AllTriangles(ls, order[..k])| + q
    ensures p < |AllTriangles(ls, order)|
    ensures AllTriangles(ls, order)[p] == FirstTriangles(ls, order[k])[q]
  {
    SurfaceTriangles(ls, order, k);
    var before, tris := AllTriangles(ls, order[..k]), FirstTriangles(ls, order[k]);
    assert (before + tris)[p] == tris[q];
    assert (before + tris + AllTriangles(ls, order[k + 1..]))[p] == (before + tris)[p];
  }

  /** In the written file, the triangle handles of surface `k` address
      exactly that face's triangles in `connectivity`, made 1-based: the
      `q`-th one, handle `triangleStartId + p`, is row `p`. */
  lemma LayoutSurfaceTriangles(vertices: seq<Point>, solids: seq<Solid>, tags: seq<string>, ic: Option<string>,
                               k: nat, q: nat, p: nat)
    requires Encodable(solids, tags, ic) && k < |FaceOrder(solids)|
    requires q < |FirstTriangles(Listings(solids), FaceOrder(solids)[k])|
    requires p == |AllTriangles(Listings(solids), FaceOrder(solids)[..k])| + q
    ensures var l := LayoutOf(vertices, solids, tags, ic);
            && p < |l.connectivity|
            && l.connectivity[p] == OneBased(FirstTriangles(Listings(solids), FaceOrder(solids)[k])[q])
  {
    TriangleAt(Listings(solids), FaceOrder(solids), k, q, p);
  }

  // ---------------------------------------------------------------------
  // Vertices
  // ---------------------------------------------------------------------

  predicate Touches(t: Triangle, v: int) {
    t.a == v || t.b == v || t.c == v
  }

  lemma {:induction false} VertexSetIff(tris: seq<Triangle>, v: int)
    ensures v in VertexSet(tris) <==> exists t :: 0 <= t < |tris| && Touches(tris[t], v)
    decreases |tris|
  {
    if |tris| > 0 {
      var prefix := tris[..|tris| - 1];
      VertexSetIff(prefix, v);
      if exists t :: 0 <= t < |prefix| && Touches(prefix[t], v) {
        var t :| 0 <= t < |prefix| && Touches(prefix[t], v);
        assert tris[t] == prefix[t];
      }
      if exists t :: 0 <= t < |tris| && Touches(tris[t], v) {
        var t :| 0 <= t < |tris| && Touches(tris[t], v);
        if t < |prefix| {
          assert prefix[t] == tris[t];
        }
      }
    }
  }

  /** `face_vertex_sets[f]` lists, in ascending order and once each, exactly
      the vertices that the face's triangles touch. */
  lemma FaceVerticesOf(tris: seq<Triangle>, v: int)
    ensures StrictlyIncreasing(FaceVertices(tris))
    ensures v in FaceVertices(tris) <==> exists t :: 0 <= t < |tris| && Touches(tris[t], v)
  {
    VertexSetIff(tris, v);
  }

  // ---------------------------------------------------------------------
  // Handles of solids and faces
  // ---------------------------------------------------------------------

  /** `volume_set_ids[solids[i].solidId]` is the `i`-th volume handle. */
  lemma VolumeOfSolid(solids: seq<Solid>, h: Handles, i: nat)
    requires WellFormed(solids) && i < |solids|
    ensures VolumeHandleOf(solids, h, solids[i].solidId) == h.Volume(i)
  {
    assert SolidIds(solids)[i] == solids[i].solidId;
    IndexOfDistinct(SolidIds(solids), i);
  }

  /** `surface_set_ids[order[k]]` is the `k`-th surface handle. */
  lemma SurfaceOfFace(order: seq<int>, h: Handles, k: nat)
    requires StrictlyIncreasing(order) && k < |order|
    ensures SurfaceHandleOf(order, h, order[k]) == h.Surface(k)
  {
    IndexOfDistinct(order, k);
  }

  /** Every child of a volume is the surface handle of one of its solid's
      faces, each face in place. */
  lemma ChildrenAreSurfaces(solids: seq<Solid>, h: Handles, i: nat, j: nat)
    requires i < |solids| && j < |solids[i].faces|
    ensures var order := FaceOrder(solids);
            var k := IndexOf(order, solids[i].faces[j].faceId);
            && k < |order| && order[k] == solids[i].faces[j].faceId
            && |SolidChildren(solids[i], order, h)| == |solids[i].faces|
            && SolidChildren(solids[i], order, h)[j] == h.Surface(k)
  {
    ListedFace(solids, i, j);
  }

  /** Every parent of a surface is the volume handle of a solid that lists
      the face. */
  lemma ParentsAreVolumes(solids: seq<Solid>, h: Handles, f: int, q: nat)
    requires q < |OwnerIds(Listings(solids), f)|
    ensures var owners := OwnerIds(Listings(solids), f);
            var i := IndexOf(SolidIds(solids), owners[q]);
            && i < |solids| && solids[i].solidId == owners[q]
            && VolumeHandlesOf(solids, h, owners)[q] == h.Volume(i)
  {
    OwnersAreSolids(solids, f);
  }
}
