# cad_to_dagmc: a verified model of the DAGMC writer and its helpers

cad_to_dagmc turns CAD geometry into a DAGMC `.h5m` file for neutronics codes.
Once the geometry is tessellated, the package holds vertices and triangles
grouped by solid and by face (`triangles_by_solid_by_face`), plus one
material tag per solid. This project models the part of the package that
works from there:

- `vertices_to_h5m` picks the h5m writer.
- The h5py writer `_vertices_to_h5m_h5py` does the following:
  - collects the shared faces and the first-listed triangles of each face;
  - numbers nodes, triangles and entity sets in one handle space;
  - writes the CATEGORY, GEOM_DIMENSION, GEOM_SENSE_2, GLOBAL_ID and NAME
    sparse tags;
  - builds the set table (contents, children, parents and the `list` rows
    of end indices) and the dense GLOBAL_ID of the sets.
- Helpers validate material tags, reorder them into an imprinted
  assembly's order, and resolve `unstructured_volumes` and `set_size`
  selections that name a gmsh volume by id or by material tag.
- `CadToDagmc.export_dagmc_h5m_file` validates its keyword arguments and
  picks a meshing backend.
- `brep_part_finder` matches parts by centre, volume and bounding box.

The modules are:

- `Outcomes` holds `Option` and `Result`.
- `Seqs` holds sequence helpers: distinctness, sorting a set of ints,
  index ranges, concatenation and end indices.
- `DagmcModel` is the specification of the file. `Encode` is what the
  writer writes, or the error it raises, as one value (`H5mLayout`)
  computed from the input.
- `DagmcEncoder` is the writer itself, as the loops it runs. Each method
  is one section of the Python function and builds the same dictionaries
  and lists. `VerticesToH5mH5py` is proved to produce exactly `Encode`.
- `DagmcFaces`, `DagmcProperties` and `DagmcTags` prove what a reader of
  the file can rely on. The set table reads back block by block. Handles
  are dense and decode to entities. Each tag gives each handle the
  expected value. Each solid's material is recoverable.
- `Materials` covers `check_material_tags`,
  `get_ids_from_imprinted_assembly`, `order_material_ids_by_brep_order`,
  `resolve_unstructured_volumes` and `resolve_set_size`. Each method is
  proved equal to a specification function, and lemmas state what that
  function means.
- `Backend` covers the dispatch of `vertices_to_h5m` and the checks at the
  top of `export_dagmc_h5m_file`.
- `PartFinder` covers `get_matching_part_id` and `get_matching_part_ids`.

Python values are modelled as follows:

- A dictionary whose order matters becomes a sequence of entries: the
  solids, each solid's faces, `shape_properties` and `set_size`. A
  dictionary whose order never shows becomes a `map`.
- Floats are reals.
- An exception is an `Err` value naming which one it is.
- The warnings of `check_material_tags` and the parameters the backend selection warns about are returned as data; the part finder's warnings are not (see "## Left out").

The code behaves in these ways, which a DAGMC reader might not expect,
and the model follows it:

- The code writes one material group per solid, not one per distinct
  tag. Two solids with the same tag get two groups with the same NAME.
- Nothing rejects a face listed by three or more solids:
  - its GEOM_SENSE_2 is the first owner's volume and 0;
  - every owner becomes a parent of its surface.
- A solid with no faces is accepted. So is a triangle whose vertex index
  is out of range.
- Surface sets are numbered in ascending face id (`sorted(all_faces)`),
  not in the order faces are discovered.
- The writer does not check tag lengths. `check_material_tags` warns about
  tags over 28 characters. The writer stores `mat:<tag>` in a 32-byte
  field, which cuts the name.

## Model

| member | source | states |
|---|---|---|
| DagmcModel.OwnerIds | src/cad_to_dagmc/core.py:308-315 | a face id has a non-empty owner list exactly when some solid lists it |
| DagmcModel.ListedFace | src/cad_to_dagmc/core.py:317-322 | every face of every solid ends up in `all_faces` |
| DagmcModel.OwnersAreSolids | src/cad_to_dagmc/core.py:308-315 | every recorded owner of a face is a solid id of the input |
| DagmcEncoder.CollectFaceOwners | src/cad_to_dagmc/core.py:308-315 | `face_ids_with_solid_ids` holds exactly the listed faces and, for each, the solids listing it in visiting order |
| DagmcEncoder.CollectFaces | src/cad_to_dagmc/core.py:317-322 | `all_faces` maps each listed face to the triangles of its first listing |
| DagmcEncoder.CollectTriangles | src/cad_to_dagmc/core.py:328-333 | `all_triangles` concatenates each face's first-listed triangles in sorted face order |
| DagmcEncoder.FaceTables | src/cad_to_dagmc/core.py:308-333 | the owner and face dictionaries, the strictly increasing face order of exactly the listed faces, and `all_triangles` |
| DagmcEncoder.AssignSetIds | src/cad_to_dagmc/core.py:401-441 | surface, volume and group ids are the model handles; the complement id is present iff requested; the file set comes last, with the counter one past it |
| DagmcEncoder.VolumeTagEntries | src/cad_to_dagmc/core.py:453-458 | every volume handle, in solid order, with "Volume" and dimension 3 |
| DagmcEncoder.GroupTagEntries | src/cad_to_dagmc/core.py:460-464 | every group handle, in solid order, with "Group" |
| DagmcEncoder.SurfaceTagEntries | src/cad_to_dagmc/core.py:466-471 | every surface handle, in face-id order, with "Surface" and dimension 2 |
| DagmcEncoder.CategoryAndDimensionTags | src/cad_to_dagmc/core.py:446-501 | CATEGORY and GEOM_DIMENSION are the model tags, the complement tagged Group only when requested |
| DagmcEncoder.SurfaceHandleList | src/cad_to_dagmc/core.py:504 | `surface_ids_list` is the surface handles in face-id order |
| DagmcEncoder.SenseValueList | src/cad_to_dagmc/core.py:512-524 | each surface's pair: both owners' volumes for two owners, else the first owner's volume and 0 |
| DagmcEncoder.SenseTag | src/cad_to_dagmc/core.py:503-533 | GEOM_SENSE_2 tags exactly the surfaces with those pairs |
| DagmcEncoder.SurfaceGlobalIds | src/cad_to_dagmc/core.py:539-542 | every surface handle carries its face id |
| DagmcEncoder.SolidGlobalIds | src/cad_to_dagmc/core.py:543-550 | every volume handle, or else every group handle, carries its solid id |
| DagmcEncoder.GlobalIdTagOf | src/cad_to_dagmc/core.py:535-558 | the sparse GLOBAL_ID is surfaces, then volumes, then groups, with face and solid ids |
| DagmcEncoder.NameTagOf | src/cad_to_dagmc/core.py:560-574 | NAME is `mat:<tag>` on each solid's group and `mat:<tag>_comp` on a requested complement, each cut to 32 bytes |
| DagmcEncoder.Tags | src/cad_to_dagmc/core.py:446-574 | the five sparse tags on sets equal the model's |
| DagmcEncoder.TriangleRanges | src/cad_to_dagmc/core.py:593-599 | each face's triangle offset is the count of triangles of all smaller face ids, and its count is its own triangle count |
| DagmcEncoder.TouchedVertices | src/cad_to_dagmc/core.py:604-606 | the vertex set of a face is exactly the indices its triangles touch |
| DagmcEncoder.FaceVertexLists | src/cad_to_dagmc/core.py:601-607 | `face_vertex_sets` has the same keys as `all_faces`, each the sorted distinct vertices |
| DagmcEncoder.AppendSurfaceContents | src/cad_to_dagmc/core.py:619-626 | appends the 1-based vertex handles, then the consecutive triangle handles |
| DagmcEncoder.AppendParents | src/cad_to_dagmc/core.py:630-634 | appends the volume handle of each owner, in order |
| DagmcEncoder.AppendChildren | src/cad_to_dagmc/core.py:642-646 | appends the surface handle of each of the solid's faces, in the solid's order |
| DagmcEncoder.SurfaceRows | src/cad_to_dagmc/core.py:613-637 | after the surface loop, the arrays are the blocks of the surface rows and the rows hold their end indices |
| DagmcEncoder.VolumeRows | src/cad_to_dagmc/core.py:639-649 | the volume loop extends this to the volume rows |
| DagmcEncoder.GroupRows | src/cad_to_dagmc/core.py:651-655 | the group loop extends this to the group rows |
| DagmcEncoder.ClosingRows | src/cad_to_dagmc/core.py:657-667 | the complement row, when requested, and the file-set row complete the table |
| DagmcEncoder.EntityRows | src/cad_to_dagmc/core.py:609-649 | the surface and volume rows, from the initial end indices of -1 |
| DagmcEncoder.GroupingRows | src/cad_to_dagmc/core.py:651-667 | the group, complement and file-set rows |
| DagmcEncoder.SetTable | src/cad_to_dagmc/core.py:609-681 | contents, children and parents are the concatenated blocks; `list` is their end indices with flags 2, and 10 on the file set |
| DagmcEncoder.BuildSets | src/cad_to_dagmc/core.py:593-681 | the set table equals the model's, built from the triangle ranges and vertex lists |
| DagmcEncoder.SetGlobalIdsOf | src/cad_to_dagmc/core.py:683-706 | the dense set GLOBAL_ID: face ids, solid ids twice, then -1 for the complement and -1 for the file set |
| DagmcEncoder.VerticesToH5mH5py | src/cad_to_dagmc/core.py:279-712 | the writer returns exactly `Encode`: the layout, or the ValueError or IndexError it raises |
| DagmcProperties.SetListColumns | src/cad_to_dagmc/core.py:609-667 | the three end columns of `list` are the end indices of contents, children and parents |
| DagmcProperties.SetTableRoundTrip | src/cad_to_dagmc/core.py:609-681 | reading row `j` back through its end indices gives exactly the block written for it |
| DagmcProperties.EncodeOutcome | src/cad_to_dagmc/core.py:294-306 | error iff each of: tag count differs from solid count (checked first), no vertices, complement with no solid (line 660); otherwise the layout |
| DagmcProperties.LayoutSetRow | src/cad_to_dagmc/core.py:609-681 | every row of the written table reads back as the model block for contents, children and parents |
| DagmcProperties.SurfaceSetRead | src/cad_to_dagmc/core.py:613-637 | surface `k` holds its sorted 1-based vertices and its triangle handles, has no children, and has as parents the volumes of its listers in order |
| DagmcProperties.VolumeSetRead | src/cad_to_dagmc/core.py:639-649 | a volume has no contents, its faces' surfaces as children, and no parents |
| DagmcProperties.GroupSetRead | src/cad_to_dagmc/core.py:651-655 | the group of solid `i` holds exactly its volume |
| DagmcProperties.ComplementSetRead | src/cad_to_dagmc/core.py:657-662 | the implicit complement holds the last solid's volume |
| DagmcProperties.FileSetRead | src/cad_to_dagmc/core.py:664-667 | the file set is the last row, holding the range 1 to `file_set_id - 1` |
| DagmcProperties.SetFlags | src/cad_to_dagmc/core.py:636-667 | flags are 10 on the last row and 2 on every other |
| DagmcProperties.HandleNumbering | src/cad_to_dagmc/core.py:343-709 | nodes from 1, then triangles, then one handle per set row, with `max_id` the file set's handle |
| DagmcProperties.EndsNonDecreasing | src/cad_to_dagmc/core.py:609-667 | end indices never decrease, start at -1 or more, and end at each array's last index |
| DagmcTags.KindOfDecodes | src/cad_to_dagmc/core.py:401-441 | handles 1 to the file set's each decode to an entity in the file whose handle they are; no others do |
| DagmcTags.KindOfHandle | src/cad_to_dagmc/core.py:401-441 | every entity's handle decodes back to it, so no two entities share a handle |
| DagmcTags.HandleRuns | src/cad_to_dagmc/core.py:416-435 | surface, volume, group and complement handles are consecutive runs |
| DagmcTags.CategoryLookup | src/cad_to_dagmc/core.py:446-490 | CATEGORY gives each surface, volume and group, the complement included, its category, and nothing else |
| DagmcTags.DimensionLookup | src/cad_to_dagmc/core.py:492-501 | GEOM_DIMENSION is 3 on volumes and 2 on surfaces, and absent elsewhere |
| DagmcTags.GlobalIdLookup | src/cad_to_dagmc/core.py:535-558 | GLOBAL_ID is the face id of each surface and the solid id of each volume and group, and absent elsewhere |
| DagmcTags.GlobalIdRun | src/cad_to_dagmc/core.py:535-558 | GLOBAL_ID tags one run of handles starting at the first set |
| DagmcTags.NameLookup | src/cad_to_dagmc/core.py:560-574 | NAME is on groups and the complement only, with their stored names |
| DagmcTags.SenseLookup | src/cad_to_dagmc/core.py:503-533 | GEOM_SENSE_2 gives each surface the sense pair of its owners, and nothing else |
| DagmcTags.DenseGlobalIds | src/cad_to_dagmc/core.py:683-706 | the dense GLOBAL_ID of each set row agrees with the sparse tag of its handle, with -1 where that has none |
| DagmcTags.LayoutTags | src/cad_to_dagmc/core.py:446-574 | in the written file, every handle's five tag values are those of the entity it decodes to |
| DagmcTags.LayoutDenseGlobalIds | src/cad_to_dagmc/core.py:683-706 | in the written file, the dense GLOBAL_ID agrees with the sparse one, row by row |
| DagmcTags.GroupNameStored | src/cad_to_dagmc/core.py:573-574 | a group name fits in 32 bytes; it is whole iff the tag has at most 28 characters, and a longer tag is stored as `mat:` followed by its first 28 characters |
| DagmcTags.ComplementNameStored | src/cad_to_dagmc/core.py:566-574 | the complement name is whole iff its tag has at most 23 characters; a longer tag keeps the first 32 characters of `mat:<tag>_comp`, which is `mat:<tag>` plus the first 28 − len(tag) characters of `_comp` below 28 characters and the group name from 28 on |
| DagmcTags.MaterialOfSolid | src/cad_to_dagmc/core.py:651-655 | solid `i`'s group holds its volume alone, is a Group named after its tag, and carries its solid id, as its volume does |
| DagmcTags.ComplementMaterial | src/cad_to_dagmc/core.py:657-662 | the complement group holds the last volume, is a Group named `mat:<tag>_comp`, and has no GLOBAL_ID |
| DagmcFaces.ListedIff | src/cad_to_dagmc/core.py:317-322 | a face id is in `all_faces` iff some visit meets it |
| DagmcFaces.FirstListing | src/cad_to_dagmc/core.py:308-322 | the first visit of face `f` gives its triangles and its first owner |
| DagmcFaces.OwnerIff | src/cad_to_dagmc/core.py:308-315 | a solid is an owner of `f` iff some visit pairs it with `f` |
| DagmcFaces.ListingSource | src/cad_to_dagmc/core.py:308-310 | every visit is one face of one input solid |
| DagmcFaces.OwnerOfSolid | src/cad_to_dagmc/core.py:308-315 | a solid owns `f` iff one of its faces has id `f` |
| DagmcFaces.OwnersOfOneSolid | src/cad_to_dagmc/core.py:309-315 | one solid with distinct face ids records itself at most once per face |
| DagmcFaces.OwnersDistinct | src/cad_to_dagmc/core.py:308-315 | with distinct solid ids and face ids, no owner list repeats a solid |
| DagmcFaces.SurfaceTriangles | src/cad_to_dagmc/core.py:328-333 | face `k`'s triangles follow those of all smaller face ids in `all_triangles` |
| DagmcFaces.TriangleAt | src/cad_to_dagmc/core.py:328-333 | triangle `q` of face `k` is at position offset + `q` of `all_triangles` |
| DagmcFaces.LayoutSurfaceTriangles | src/cad_to_dagmc/core.py:619-626 | the triangle handles of surface `k` address its own triangles, 1-based, in `connectivity` |
| DagmcFaces.VertexSetIff | src/cad_to_dagmc/core.py:604-606 | a vertex is in the set iff some triangle touches it |
| DagmcFaces.FaceVerticesOf | src/cad_to_dagmc/core.py:601-607 | `face_vertex_sets[f]` is strictly increasing and holds exactly the touched vertices |
| DagmcFaces.VolumeOfSolid | src/cad_to_dagmc/core.py:421-424 | `volume_set_ids` of solid `i` is the `i`-th volume handle |
| DagmcFaces.SurfaceOfFace | src/cad_to_dagmc/core.py:416-419 | `surface_set_ids` of the `k`-th face is the `k`-th surface handle |
| DagmcFaces.ChildrenAreSurfaces | src/cad_to_dagmc/core.py:642-646 | every child of a volume is the surface handle of one of its faces |
| DagmcFaces.ParentsAreVolumes | src/cad_to_dagmc/core.py:630-634 | every parent of a surface is the volume handle of a solid that lists it |
| Backend.VerticesToH5m | src/cad_to_dagmc/core.py:109-126 | "pymoab" selects pymoab; "h5py" gives the h5py writer's layout or error; anything else raises ValueError |
| Backend.Present | src/cad_to_dagmc/core.py:1695 | the list of ignored parameters holds exactly those given, and is empty iff none is given |
| Backend.InvalidKeywordsFirst | src/cad_to_dagmc/core.py:1603-1622 | unknown keywords are rejected iff there are any, naming exactly them |
| Backend.KeysKept | src/cad_to_dagmc/core.py:1625-1633 | popping the two selection keywords keeps every backend keyword |
| Backend.AutoSelection | src/cad_to_dagmc/core.py:1630-1650 | with no backend requested: CadQuery iff no GMSH keywords; GMSH iff GMSH keywords only; error iff both |
| Backend.RequestedGmsh | src/cad_to_dagmc/core.py:1702-1719 | "gmsh" is used, with exactly the CadQuery keywords given reported as ignored |
| Backend.RequestedCadquery | src/cad_to_dagmc/core.py:1673-1700 | "cadquery" is used iff `unstructured_volumes` is None or absent (else ValueError), with the GMSH surface keywords given reported as ignored |
| Backend.RequestedUnsupported | src/cad_to_dagmc/core.py:1652-1657 | any other requested backend raises ValueError |
| Backend.WriterDefault | src/cad_to_dagmc/core.py:1628 | the h5m writer is `h5m_backend` when given, else "h5py" |
| Materials.CheckMaterialTags | src/cad_to_dagmc/core.py:915-934 | no check when tags are falsy; a count mismatch raises; otherwise the tag loop's outcome |
| Materials.TagWarningsMeaning | src/cad_to_dagmc/core.py:925-934 | succeeds iff every tag is a string; then the `k`-th warning names the tag at the `k`-th position of a tag over 28 characters, so each long tag gets exactly one warning, in the tags' order |
| Materials.TagWarningsFrom | src/cad_to_dagmc/core.py:929-934 | the loop from tag `i` on warns once per long tag from `i` on, in order |
| Materials.LongTagPositionsMeaning | src/cad_to_dagmc/core.py:929-934 | the long-tag positions are strictly increasing and are exactly the positions of string tags over 28 characters |
| Materials.ImprintedIds | src/cad_to_dagmc/core.py:908-912 | succeeds iff every id list is non-empty, then gives each list's first id in order; else IndexError at the first empty one |
| Materials.OrderMaterialIdsByBrepOrder | src/cad_to_dagmc/core.py:937-942 | the loop computes `TagsInBrepOrder` |
| Materials.BrepOrderMeaning | src/cad_to_dagmc/core.py:937-942 | succeeds iff every brep id is an original id whose index has a tag; position `i` gets the tag at that id's first index |
| Materials.TagFollowsSolid | src/cad_to_dagmc/core.py:937-942 | with distinct original ids, each brep position gets the tag given for that very solid |
| Materials.TaggedMembers | src/cad_to_dagmc/core.py:970-974 | a volume is listed under a tag iff it is zipped with that tag |
| Materials.TagToVolumeIds | src/cad_to_dagmc/core.py:968-974 | `material_to_volume_ids` has exactly the zipped tags, each with its volumes in order |
| Materials.VolumesOf | src/cad_to_dagmc/core.py:976-991 | an item resolves iff it is an int or a known tag, and then stands for exactly the volumes it selects |
| Materials.LookupVolumes | src/cad_to_dagmc/core.py:976-991 | the dictionary lookup agrees with `VolumesOf` |
| Materials.RemoveDuplicates | src/cad_to_dagmc/core.py:993-999 | the `seen` loop computes `Dedup` |
| Materials.DedupFromMeaning | src/cad_to_dagmc/core.py:993-999 | the result is distinct, holds exactly the unseen ids, and keeps first-occurrence order |
| Materials.ExpandMeaning | src/cad_to_dagmc/core.py:976-991 | succeeds iff every item resolves, holding exactly the selected volumes; else the first bad item's error |
| Materials.ResolveUnstructuredVolumes | src/cad_to_dagmc/core.py:945-1001 | the function computes `UnstructuredVolumes` over the zipped volumes and tags |
| Materials.UnstructuredVolumesMeaning | src/cad_to_dagmc/core.py:945-1001 | Ok iff every item resolves; then distinct, exactly the selected volumes, in first-reached order; else ValueError or TypeError by the first bad item |
| Materials.SelectsByTag | src/cad_to_dagmc/core.py:971-974 | a tag selects exactly the volumes at positions where the tag list has it |
| Materials.ResolveSetSize | src/cad_to_dagmc/core.py:1004-1064 | the function computes `SetSizes` from the empty dictionary |
| Materials.AssignSizeMeaning | src/cad_to_dagmc/core.py:1053-1062 | succeeds iff no id already has a different size; then the ids get the size and other entries are kept |
| Materials.SetSizesMeaning | src/cad_to_dagmc/core.py:1036-1062 | Ok iff all keys resolve, agree with the start map and are consistent; then the domain, kept entries and sizes are as given |
| Materials.SetSizeMeaning | src/cad_to_dagmc/core.py:1004-1064 | Ok iff every key resolves and no volume gets two sizes; then exactly the selected volumes, each with its key's size; if every key resolves, a failure is a conflicting size (ValueError); if no sizes conflict, a failure is the first unresolvable key's unknown-tag ValueError or TypeError |
| Materials.AssignSizeError | src/cad_to_dagmc/core.py:1053-1062 | assigning one key's size can only fail on a conflicting size |
| Materials.SetSizesConflict | src/cad_to_dagmc/core.py:1036-1062 | when every key resolves, the loop can only fail on a conflicting size |
| Materials.SetSizesFirstUnresolvable | src/cad_to_dagmc/core.py:1036-1062 | with no conflicting sizes, the loop fails exactly with the error of the first key that does not resolve |
| PartFinder.IsCloseToItself | src/cad_to_dagmc/brep_part_finder.py:174 | `np.isclose` holds between a value and itself for any non-negative tolerance |
| PartFinder.PartsMatching | src/cad_to_dagmc/brep_part_finder.py:172-175 | KeyError iff some part lacks the property; else exactly the parts close to the value |
| PartFinder.CollectOne | src/cad_to_dagmc/brep_part_finder.py:171-181 | one property: nothing if unqueried, KeyError if some part lacks it, else its list appended when non-empty |
| PartFinder.NotLacking | src/cad_to_dagmc/brep_part_finder.py:166-181 | if every known queried property is in every part, no part lacks a queried property |
| PartFinder.CollectMatches | src/cad_to_dagmc/brep_part_finder.py:166-183 | the property loop raises iff some part lacks a queried property, and otherwise gives the lists of `part_ids_matching` |
| PartFinder.GetMatchingPartId | src/cad_to_dagmc/brep_part_finder.py:92-240 | the function computes `MatchingPartId` |
| PartFinder.MatchListsMeaning | src/cad_to_dagmc/brep_part_finder.py:166-214 | no lists iff no property is effective; the intersection holds exactly the parts in every effective list |
| PartFinder.MatchingPartIdMeaning | src/cad_to_dagmc/brep_part_finder.py:166-214 | the result is exactly the parts close on every effective property; "No matching part found" iff no queried property matches any part |
| PartFinder.ExactPartFound | src/cad_to_dagmc/brep_part_finder.py:166-214 | a part equal to the query on every queried property is always found |
| PartFinder.GetMatchingPartIds | src/cad_to_dagmc/brep_part_finder.py:243-332 | the function computes `MatchingPartIds` |
| PartFinder.InsertByBrepMeaning | src/cad_to_dagmc/brep_part_finder.py:330 | insertion adds exactly one pair and keeps brep ids increasing |
| PartFinder.InsertBelowLast | src/cad_to_dagmc/brep_part_finder.py:330 | inserting a pair below the last of increasing brep ids keeps every brep id below the last one |
| PartFinder.SortByBrepMeaning | src/cad_to_dagmc/brep_part_finder.py:330 | sorting keeps exactly the pairs and, with distinct brep ids, orders them by brep id |
| PartFinder.MatchAccounted | src/cad_to_dagmc/brep_part_finder.py:277-279 | pairing a part and popping it keeps each part either unmatched or matched once |
| PartFinder.StepAccounted | src/cad_to_dagmc/brep_part_finder.py:257-287 | one shape keeps each part unmatched or matched once |
| PartFinder.StepRecorded | src/cad_to_dagmc/brep_part_finder.py:270-283 | one shape records its id once, either paired or left over |
| PartFinder.ScanAccounted | src/cad_to_dagmc/brep_part_finder.py:257-287 | the whole loop keeps each part unmatched or matched once |
| PartFinder.ScanRecorded | src/cad_to_dagmc/brep_part_finder.py:257-287 | the whole loop records each shape id at most once |
| PartFinder.LastResortMeaning | src/cad_to_dagmc/brep_part_finder.py:294-328 | the last-resort pairing keeps brep ids distinct, parts from the BREP and shape ids distinct |
| PartFinder.NotADictRaises | src/cad_to_dagmc/brep_part_finder.py:285-287 | any shape whose properties are not a dictionary makes the call raise |
| PartFinder.SortedPairs | src/cad_to_dagmc/brep_part_finder.py:330 | sorting keeps each pair's facts and makes brep ids increasing |
| PartFinder.MatchingPartIdsMeaning | src/cad_to_dagmc/brep_part_finder.py:243-332 | on success, pairs sorted by strictly increasing brep id, each a BREP part with a given shape, no shape twice; which pairs the result contains is stated by `UniqueMatchPaired`, `LastResortOutcome` and, conversely, `ResultPairsFound` |
| PartFinder.ScanSplit | src/cad_to_dagmc/brep_part_finder.py:257-287 | the loop over all shapes is the loop over the first `j` followed by the loop over the rest |
| PartFinder.ScanKeepsPairs | src/cad_to_dagmc/brep_part_finder.py:257-287 | a pair once appended is still there when the loop ends |
| PartFinder.ResultKeepsPairs | src/cad_to_dagmc/brep_part_finder.py:294-332 | the last-resort step and the sort keep every pair the loop found |
| PartFinder.MatchErrorsRaise | src/cad_to_dagmc/brep_part_finder.py:261-271 | a shape whose query raises makes the call raise that error, and one matched by several unmatched parts makes it raise "multiple matching volumes" |
| PartFinder.UniqueMatchPaired | src/cad_to_dagmc/brep_part_finder.py:272-279 | a shape matched by exactly one part still unmatched at its turn is paired with that part in the result |
| PartFinder.LastResortOutcome | src/cad_to_dagmc/brep_part_finder.py:294-328 | with one part and one shape left over: KeyError on a missing bounding-box entry, the check's error if it raises, and otherwise that part paired with that shape |
| PartFinder.StepPairsFound | src/cad_to_dagmc/brep_part_finder.py:270-283 | one shape adds at most one pair: the single part still unmatched that matches it, with its own shape id |
| PartFinder.ScanPairsFound | src/cad_to_dagmc/brep_part_finder.py:257-287 | every pair held at the end of the loop was held at its start or was given by a shape matched by exactly one unmatched part at its own turn |
| PartFinder.ShiftTurn | src/cad_to_dagmc/brep_part_finder.py:257-287 | turn `j` of the loop after the first shape is turn `j + 1` of the whole loop |
| PartFinder.LastResortPairs | src/cad_to_dagmc/brep_part_finder.py:294-330 | the last-resort step and the sort add at most the pair of the one part and the one shape left over |
| PartFinder.ResultPairsFound | src/cad_to_dagmc/brep_part_finder.py:243-332 | every pair of a result is the pair a shape gives at its own turn, matched by exactly one part still unmatched then, or the last-resort pair; so a shape matched by no part is only ever paired by the last resort |
| PartFinder.StepPaired | src/cad_to_dagmc/brep_part_finder.py:270-279 | a shape matched by exactly one part is paired with it, and that part is popped from the parts still to match |
| PartFinder.CenterXQuery | src/cad_to_dagmc/brep_part_finder.py:166-214 | a query on `center_x` alone, when every part has it, returns exactly the parts close on it, or "No matching part found" when there are none |
| PartFinder.CenterXStep | src/cad_to_dagmc/brep_part_finder.py:257-279 | a shape carrying only `center_x` that is close to exactly one remaining part's is paired with that part |
| PartFinder.MatchingPartIdsOrderExample | tests/test_brep_part_finder/test_get_matching_part_ids.py:5-20 | with the default tolerances, three parts and three shapes matched on `center_x` come back as `[(1, 3), (2, 2), (3, 1)]`, sorted by brep id rather than in matching order |

## Left out

- The pymoab writer `_vertices_to_h5m_pymoab` is not part of this model. `VerticesToH5m` returns a marker for it.
- HDF5 itself is left out: the files, groups, attributes, dtypes and the "DIRICHLET_SET", "MATERIAL_SET" and "NEUMANN_SET" tag stubs. Creating the output directory is left out too. The writer returns the logical content of each dataset. With no faces, the source writes no GEOM_SENSE_2 `values` dataset at all, only its `id_list` (core.py:510 and 526-533). The model gives that tag an empty value list.
- The `history` dataset is left out because it holds the clock time and the package version.
- The node and triangle GLOBAL_ID arrays are left out. They are constant `-1` arrays.
- Converting CadQuery vectors to float triples is left out. Points are given as triples. Only the `vertices[0]` access is modelled, as the IndexError.
- Meshing with CadQuery or gmsh, the `tolerance`, mesh-size and similar values read from the keyword arguments, and everything after backend selection in `export_dagmc_h5m_file` are left out. They call external libraries.
- `print` output and the text of messages are left out. The warnings of `check_material_tags` and of the backend selection are returned as the list of things they name. Each exception is a constructor without its message text.
- GetMatchingPartId: its warnings are not modelled: the one issued for each queried property that matches no part (brep_part_finder.py:176-179) and the verbose "No single part found" warnings (186-187, 217-218). They do not change the result, and the function's result type does not carry them.
- VerticesToH5mH5py: does not model the 32-bit and 64-bit integer widths (`int32` GLOBAL_ID, `uint64` handles). Ids are unbounded integers, so a face or solid id outside the int32 range is not wrapped. Triangle vertex indices are `nat`, so a negative index is not modelled. The source stores indices as `int64` (core.py:332), then adds 1 and casts them to `uint64` (core.py:385 and 622), where a negative index would wrap around.
- VerticesToH5mH5py: NAME values assume ASCII, so one character is one byte of the 32-byte field.
- Floats are modelled as reals, so NaN, infinities and rounding are not modelled. `np.isclose` is written out exactly with `rtol = 1e-5`.
- In Python, `bool` is a subclass of `int`, so `isinstance(x, int)` accepts `True` as volume id 1. The model has no boolean `Value`, so a caller passes such an item as `Int(1)`.
- CheckMaterialTags: when a non-string tag raises, the warnings already issued for earlier tags are not returned.
- GetMatchingPartId: the call `get_matching_part_id(**value)` accepts only the ten property names as keys, and any other key is an error. In Python, `verbose` would be accepted, and a key equal to another parameter raises a different TypeError.
- GetMatchingPartId: a property passed explicitly as `None` counts as not queried. The model cannot express this, because the query is a map to reals.
- GetMatchingPartIds: the caller can see the function change its `brep_part_properties` and `shape_properties` arguments (the `pop` calls). The model works on values.
- GetMatchingPartIds: shape ids are taken to be distinct, because they are dictionary keys. `MatchingPartIdsMeaning` requires this.
- MatchingPartIdsMeaning: states the order of the pairs and that no part or shape appears twice. Which pairs the result holds is stated in terms of the loop's state at each shape's turn: `UniqueMatchPaired` and `LastResortOutcome` say which pairs it contains, `ResultPairsFound` says it holds no others, and `MatchErrorsRaise` covers the raising turns. There is no closed form independent of the loop, because which parts a shape can match depends on the parts earlier shapes popped. The last-resort check's result is ignored as in the source, but its errors are raised.
- Face ids and solid ids are modelled as integers. Which ids the CAD kernel assigns is outside the model.
