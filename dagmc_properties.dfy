/** What a reader of the `.h5m` file produced by the h5py writer can rely
    on: the handle numbering, the set table read back through its end
    indices, the sparse tags looked up by handle, and the names. Every
    lemma is about the model value `DagmcModel.LayoutOf`, which the writer
    in DagmcEncoder is proved to produce. */
module DagmcProperties {
  import opened Outcomes
  import opened Seqs
  import opened DagmcModel

  // ---------------------------------------------------------------------
  // Reading the set table back
  // ---------------------------------------------------------------------

  function ContentsEnds(rows: seq<SetRow>): seq<int> {
    seq(|rows|, j requires 0 <= j < |rows| => rows[j].contentsEnd)
  }

  function ChildrenEnds(rows: seq<SetRow>): seq<int> {
    seq(|rows|, j requires 0 <= j < |rows| => rows[j].childrenEnd)
  }

  function ParentsEnds(rows: seq<SetRow>): seq<int> {
    seq(|rows|, j requires 0 <= j < |rows| => rows[j].parentsEnd)
  }

  /** Block `j` of a flat array as a reader cuts it out with the end
      indices, or None when the indices do not describe a block. */
  function ReadBlock(data: seq<int>, ends: seq<int>, j: int): (r: Option<seq<int>>)
    ensures r.Some? <==> 0 <= j < |ends| && 0 <= BlockStart(ends, j) <= ends[j] + 1 <= |data|
    ensures r.Some? ==> r.value == data[BlockStart(ends, j)..ends[j] + 1]
  {
    if 0 <= j < |ends| && 0 <= BlockStart(ends, j) <= ends[j] + 1 <= |data|
    then Some(Decoded(data, ends, j)) else None
  }

  /** The contents, children and parents of set row `j` of a file. */
  function ReadContents(l: H5mLayout, j: int): Option<seq<int>> {
    ReadBlock(l.contents, ContentsEnds(l.setList), j)
  }

  function ReadChildren(l: H5mLayout, j: int): Option<seq<int>> {
    ReadBlock(l.children, ChildrenEnds(l.setList), j)
  }

  function ReadParents(l: H5mLayout, j: int): Option<seq<int>> {
    ReadBlock(l.parents, ParentsEnds(l.setList), j)
  }

  /** The three end columns of the `list` rows are the end indices of the
      three block sequences. */
  lemma SetListColumns(cb: seq<seq<int>>, chb: seq<seq<int>>, pb: seq<seq<int>>)
    requires |cb| == |chb| == |pb|
    ensures ContentsEnds(SetList(cb, chb, pb)) == Ends(cb)
    ensures ChildrenEnds(SetList(cb, chb, pb)) == Ends(chb)
    ensures ParentsEnds(SetList(cb, chb, pb)) == Ends(pb)
  {
  }

  /** Reading row `j` of a table built from blocks gives back the blocks. */
  lemma SetTableRoundTrip(cb: seq<seq<int>>, chb: seq<seq<int>>, pb: seq<seq<int>>, j: nat)
    requires |cb| == |chb| == |pb| && j < |cb|
    ensures ReadBlock(Concat(cb), ContentsEnds(SetList(cb, chb, pb)), j) == Some(cb[j])
    ensures ReadBlock(Concat(chb), ChildrenEnds(SetList(cb, chb, pb)), j) == Some(chb[j])
    ensures ReadBlock(Concat(pb), ParentsEnds(SetList(cb, chb, pb)), j) == Some(pb[j])
  {
    SetListColumns(cb, chb, pb);
    EndIndexRoundTrip(cb, j);
    EndIndexRoundTrip(chb, j);
    EndIndexRoundTrip(pb, j);
  }

  /** The writer fails only on a tag count that differs from the solid
      count (checked first, whatever else is wrong), on an empty vertex
      list, and on an implicit complement with no solid to put in it;
      otherwise it writes the model layout. */
  lemma EncodeOutcome(vertices: seq<Point>, solids: seq<Solid>, tags: seq<string>, ic: Option<string>)
    ensures |tags| != |solids| ==> Encode(vertices, solids, tags, ic) == Err(MaterialTagCountMismatch(|tags|, |solids|))
    ensures Encode(vertices, solids, tags, ic) == Err(NoVertices) <==> |tags| == |solids| && |vertices| == 0
    ensures Encode(vertices, solids, tags, ic) == Err(NoVolumeForComplement)
        <==> |tags| == |solids| && |vertices| > 0 && ComplementRequested(ic) && |solids| == 0
    ensures Encode(vertices, solids, tags, ic).Ok?
        <==> |tags| == |solids| && |vertices| > 0 && (ComplementRequested(ic) ==> |solids| > 0)
    ensures Encode(vertices, solids, tags, ic).Ok? ==> Encode(vertices, solids, tags, ic).value == LayoutOf(vertices, solids, tags, ic)
  {
  }

  /** Every row of the written set table reads back as the model's block
      for that row: contents, children and parents. */
  lemma LayoutSetRow(vertices: seq<Point>, solids: seq<Solid>, tags: seq<string>, ic: Option<string>, j: nat)
    requires Encodable(solids, tags, ic)
    requires j < HandlesOf(vertices, solids, ic).SetCount()
    ensures |LayoutOf(vertices, solids, tags, ic).setList| == HandlesOf(vertices, solids, ic).SetCount()
    ensures ReadContents(LayoutOf(vertices, solids, tags, ic), j)
            == Some(ContentBlock(Listings(solids), FaceOrder(solids), HandlesOf(vertices, solids, ic), j))
    ensures ReadChildren(LayoutOf(vertices, solids, tags, ic), j)
            == Some(ChildBlock(solids, FaceOrder(solids), HandlesOf(vertices, solids, ic), j))
    ensures ReadParents(LayoutOf(vertices, solids, tags, ic), j)
            == Some(ParentBlock(Listings(solids), solids, FaceOrder(solids), HandlesOf(vertices, solids, ic), j))
  {
    var ls := Listings(solids);
    var order := FaceOrder(solids);
    var h := HandlesOf(vertices, solids, ic);
    var cb := ContentBlocks(ls, order, h);
    var chb := ChildBlocks(solids, order, h);
    var pb := ParentBlocks(ls, solids, order, h);
    SetTableRoundTrip(cb, chb, pb, j);
  }

  /** The counts the handle numbering is built from. */
  lemma HandleCounts(vertices: seq<Point>, solids: seq<Solid>, ic: Option<string>)
    ensures var h := HandlesOf(vertices, solids, ic);
            && h.vertexCount == |vertices|
            && h.triangleCount == |AllTriangles(Listings(solids), FaceOrder(solids))|
            && h.surfaceCount == |FaceOrder(solids)| && h.volumeCount == |solids|
            && h.complement == ComplementRequested(ic)
  {
  }

  // The blocks of each kind of row, on the model's own terms.

  lemma SurfaceBlocks(ls: seq<Listing>, solids: seq<Solid>, order: seq<int>, h: Handles, k: nat)
    requires h.surfaceCount == |order| && (h.complement ==> h.volumeCount > 0) && k < |order|
    ensures ContentBlock(ls, order, h, k) == SurfaceContents(ls, order, h, k)
    ensures ChildBlock(solids, order, h, k) == []
    ensures ParentBlock(ls, solids, order, h, k) == VolumeHandlesOf(solids, h, OwnerIds(ls, order[k]))
  {
  }

  lemma VolumeBlocks(ls: seq<Listing>, solids: seq<Solid>, order: seq<int>, h: Handles, i: nat, j: nat)
    requires h.surfaceCount == |order| && h.volumeCount == |solids| && (h.complement ==> h.volumeCount > 0)
    requires i < |solids| && j == |order| + i
    ensures ContentBlock(ls, order, h, j) == []
    ensures ChildBlock(solids, order, h, j) == SolidChildren(solids[i], order, h)
    ensures ParentBlock(ls, solids, order, h, j) == []
  {
  }

  lemma GroupBlocks(ls: seq<Listing>, solids: seq<Solid>, order: seq<int>, h: Handles, i: nat, j: nat)
    requires h.surfaceCount == |order| && h.volumeCount == |solids| && (h.complement ==> h.volumeCount > 0)
    requires i < |solids| && j == |order| + |solids| + i
    ensures ContentBlock(ls, order, h, j) == [h.Volume(i)]
    ensures ChildBlock(solids, order, h, j) == [] && ParentBlock(ls, solids, order, h, j) == []
  {
  }

  lemma ComplementBlocks(ls: seq<Listing>, solids: seq<Solid>, order: seq<int>, h: Handles, j: nat)
    requires h.surfaceCount == |order| && h.volumeCount == |solids| && h.complement && |solids| > 0
    requires j == |order| + 2 * |solids|
    ensures ContentBlock(ls, order, h, j) == [h.Volume(|solids| - 1)]
    ensures ChildBlock(solids, order, h, j) == [] && ParentBlock(ls, solids, order, h, j) == []
  {
  }

  lemma FileSetBlocks(ls: seq<Listing>, solids: seq<Solid>, order: seq<int>, h: Handles, j: nat)
    requires h.surfaceCount == |order| && h.volumeCount == |solids| && (h.complement ==> h.volumeCount > 0)
    requires j == h.SetCount() - 1
    ensures ContentBlock(ls, order, h, j) == [1, h.FileSet() - 1]
    ensures ChildBlock(solids, order, h, j) == [] && ParentBlock(ls, solids, order, h, j) == []
  {
  }

  // The rows as a reader of the file sees them.

  /** Surface set `k` (the `k`-th smallest face id) holds the sorted
      distinct vertices of that face's triangles, made 1-based, then the
      handles of its triangles, which follow those of every smaller face id;
      it has no children, and its parents are the volumes of every solid
      that lists the face, in listing order. */
  lemma SurfaceSetRead(vertices: seq<Point>, solids: seq<Solid>, tags: seq<string>, ic: Option<string>, k: nat)
    requires Encodable(solids, tags, ic) && k < |FaceOrder(solids)|
    ensures var l := LayoutOf(vertices, solids, tags, ic);
            var f := FaceOrder(solids)[k];
            var tris := FirstTriangles(Listings(solids), f);
            && ReadContents(l, k) == Some(SurfaceBlock(FaceVertices(tris), l.triangleStartId,
                                                       |AllTriangles(Listings(solids), FaceOrder(solids)[..k])|, |tris|))
            && ReadChildren(l, k) == Some([])
            && ReadParents(l, k) == Some(VolumeHandlesOf(solids, HandlesOf(vertices, solids, ic), OwnerIds(Listings(solids), f)))
  {
    LayoutSetRow(vertices, solids, tags, ic, k);
    SurfaceBlocks(Listings(solids), solids, FaceOrder(solids), HandlesOf(vertices, solids, ic), k);
  }

  /** Volume set `i` holds nothing itself; its children are the surface
      sets of solid `i`'s faces, in the solid's own face order. */
  lemma VolumeSetRead(vertices: seq<Point>, solids: seq<Solid>, tags: seq<string>, ic: Option<string>, i: nat, j: nat)
    requires Encodable(solids, tags, ic) && i < |solids|
    requires j == |FaceOrder(solids)| + i
    ensures var l := LayoutOf(vertices, solids, tags, ic);
            && ReadContents(l, j) == Some([])
            && ReadChildren(l, j) == Some(SolidChildren(solids[i], FaceOrder(solids), HandlesOf(vertices, solids, ic)))
            && ReadParents(l, j) == Some([])
  {
    LayoutSetRow(vertices, solids, tags, ic, j);
    VolumeBlocks(Listings(solids), solids, FaceOrder(solids), HandlesOf(vertices, solids, ic), i, j);
  }

  /** The material group of solid `i` holds exactly that solid's volume. */
  lemma GroupSetRead(vertices: seq<Point>, solids: seq<Solid>, tags: seq<string>, ic: Option<string>, i: nat, j: nat)
    requires Encodable(solids, tags, ic) && i < |solids|
    requires j == |FaceOrder(solids)| + |solids| + i
    ensures var l := LayoutOf(vertices, solids, tags, ic);
            && ReadContents(l, j) == Some([HandlesOf(vertices, solids, ic).Volume(i)])
            && ReadChildren(l, j) == Some([])
            && ReadParents(l, j) == Some([])
  {
    LayoutSetRow(vertices, solids, tags, ic, j);
    GroupBlocks(Listings(solids), solids, FaceOrder(solids), HandlesOf(vertices, solids, ic), i, j);
  }

  /** The implicit-complement group, when asked for, holds the volume of
      the last solid. */
  lemma ComplementSetRead(vertices: seq<Point>, solids: seq<Solid>, tags: seq<string>, ic: Option<string>, j: nat)
    requires Encodable(solids, tags, ic) && ComplementRequested(ic)
    requires j == |FaceOrder(solids)| + 2 * |solids|
    ensures var l := LayoutOf(vertices, solids, tags, ic);
            && ReadContents(l, j) == Some([HandlesOf(vertices, solids, ic).Volume(|solids| - 1)])
            && ReadChildren(l, j) == Some([])
            && ReadParents(l, j) == Some([])
  {
    LayoutSetRow(vertices, solids, tags, ic, j);
    ComplementBlocks(Listings(solids), solids, FaceOrder(solids), HandlesOf(vertices, solids, ic), j);
  }

  /** The file set is the last row; its contents are the range from
      handle 1 to the handle just before its own, and it has no
      parent-child links. */
  lemma FileSetRead(vertices: seq<Point>, solids: seq<Solid>, tags: seq<string>, ic: Option<string>, j: nat)
    requires Encodable(solids, tags, ic)
    requires j + 1 == HandlesOf(vertices, solids, ic).SetCount()
    ensures var l := LayoutOf(vertices, solids, tags, ic);
            && j == |l.setList| - 1
            && ReadContents(l, j) == Some([1, HandlesOf(vertices, solids, ic).FileSet() - 1])
            && ReadChildren(l, j) == Some([])
            && ReadParents(l, j) == Some([])
  {
    LayoutSetRow(vertices, solids, tags, ic, j);
    FileSetBlocks(Listings(solids), solids, FaceOrder(solids), HandlesOf(vertices, solids, ic), j);
  }

  /** Only the last row, the file set, is flagged as storing ranges. */
  lemma SetFlags(vertices: seq<Point>, solids: seq<Solid>, tags: seq<string>, ic: Option<string>, r: nat)
    requires Encodable(solids, tags, ic)
    requires r < |LayoutOf(vertices, solids, tags, ic).setList|
    ensures var rows := LayoutOf(vertices, solids, tags, ic).setList;
            rows[r].flags == if r == |rows| - 1 then FileSetFlags else HandleSetFlags
  {
  }

  /** Handles are numbered without gaps: vertices from 1, then triangles,
      then one set per row of the set table, the file set last with the
      highest handle of the file. */
  lemma HandleNumbering(vertices: seq<Point>, solids: seq<Solid>, tags: seq<string>, ic: Option<string>)
    requires Encodable(solids, tags, ic)
    ensures var l := LayoutOf(vertices, solids, tags, ic);
            && l.nodeStartId == 1
            && l.triangleStartId == l.nodeStartId + |l.coordinates|
            && l.setsStartId == l.triangleStartId + |l.connectivity|
            && l.maxId == l.setsStartId + |l.setList| - 1
            && l.maxId == HandlesOf(vertices, solids, ic).FileSet()
  {
  }

  /** The end indices never decrease from one row to the next, start at or
      above -1 and end at the last index of their array. */
  lemma EndsNonDecreasing(vertices: seq<Point>, solids: seq<Solid>, tags: seq<string>, ic: Option<string>,
                          r: nat, q: nat)
    requires Encodable(solids, tags, ic)
    requires r <= q < |LayoutOf(vertices, solids, tags, ic).setList|
    ensures var rows := LayoutOf(vertices, solids, tags, ic).setList;
            -1 <= rows[r].contentsEnd <= rows[q].contentsEnd
            && -1 <= rows[r].childrenEnd <= rows[q].childrenEnd
            && -1 <= rows[r].parentsEnd <= rows[q].parentsEnd
    ensures var l := LayoutOf(vertices, solids, tags, ic);
            q == |l.setList| - 1 ==>
              && l.setList[q].contentsEnd == |l.contents| - 1
              && l.setList[q].childrenEnd == |l.children| - 1
              && l.setList[q].parentsEnd == |l.parents| - 1
  {
    var ls := Listings(solids);
    var order := FaceOrder(solids);
    var h := HandlesOf(vertices, solids, ic);
    var cb := ContentBlocks(ls, order, h);
    var chb := ChildBlocks(solids, order, h);
    var pb := ParentBlocks(ls, solids, order, h);
    EndsMonotone(cb, r, q);
    EndsMonotone(chb, r, q);
    EndsMonotone(pb, r, q);
  }
}
