/** The material-tag helpers of core.py: validating the tags given for the
    solids, putting them into the order an imprinted assembly lists its
    solids in, and resolving volume selections ("unstructured_volumes",
    "set_size") whose items name a gmsh volume by id or by material tag. */
module Materials {
  import opened Outcomes
  import opened Seqs

  /** A Python value as far as these helpers look at it. */
  datatype Value = Int(n: int) | Str(s: string) | Other

  /** The exceptions the helpers raise. */
  datatype MaterialError =
    | TagCountMismatch(tags: nat, solids: nat)            // ValueError
    | TagNotString                                        // ValueError
    | MissingOriginalId(position: nat)                    // IndexError on `id[0]`
    | IdNotFound                                          // ValueError from `list.index`
    | TagIndexOutOfRange(index: nat)                      // IndexError on `material_tags[i]`
    | UnknownTag(tag: string)                             // ValueError
    | NotIntOrStr                                         // TypeError
    | ConflictingSize(volume: int, first: real, second: real)  // ValueError

  /** DAGMC keeps this many characters of a material tag. */
  const DagmcTagLength := 28

  /** `Ok(w + ...)` for a successful result, the error otherwise. */
  function Prepend<T>(w: seq<T>, r: Result<seq<T>, MaterialError>): Result<seq<T>, MaterialError> {
    if r.Err? then r else Ok(w + r.value)
  }

  lemma PrependNothing<T>(r: Result<seq<T>, MaterialError>)
    ensures Prepend([], r) == r
  {
    if r.Ok? {
      assert [] + r.value == r.value;
    }
  }

  /** Prepending twice is prepending the concatenation. */
  lemma PrependTwice<T>(w: seq<T>, x: seq<T>, r: Result<seq<T>, MaterialError>)
    ensures Prepend(w, Prepend(x, r)) == Prepend(w + x, r)
  {
    if r.Ok? {
      assert w + (x + r.value) == (w + x) + r.value;
    }
  }

  // ---------------------------------------------------------------------
  // check_material_tags

  /** Python truthiness of the `material_tags` argument. */
  predicate TagsGiven(tags: Option<seq<Value>>) {
    tags.Some? && |tags.value| > 0
  }

  /** The loop over the tags: the first tag that is not a string raises;
      every string tag longer than DAGMC keeps is reported in a warning. */
  function TagWarnings(tags: seq<Value>): Result<seq<string>, MaterialError> {
    if |tags| == 0 then Ok([])
    else if !tags[0].Str? then Err(TagNotString)
    else Prepend(if |tags[0].s| > DagmcTagLength then [tags[0].s] else [], TagWarnings(tags[1..]))
  }

  /** The result is the list of tags a warning is issued for. */
  method CheckMaterialTags(tags: Option<seq<Value>>, solidCount: nat) returns (r: Result<seq<string>, MaterialError>)
    ensures !TagsGiven(tags) ==> r == Ok([])
    ensures TagsGiven(tags) && |tags.value| != solidCount ==> r == Err(TagCountMismatch(|tags.value|, solidCount))
    ensures TagsGiven(tags) && |tags.value| == solidCount ==> r == TagWarnings(tags.value)
  {
    if tags.None? || |tags.value| == 0 {
      return Ok([]);
    }
    var ts := tags.value;
    if |ts| != solidCount {
      return Err(TagCountMismatch(|ts|, solidCount));
    }
    var warnings: seq<string> := [];
    var i := 0;
    assert ts[i..] == ts;
    PrependNothing(TagWarnings(ts));
    while i < |ts|
      invariant 0 <= i <= |ts|
      invariant TagWarnings(ts) == Prepend(warnings, TagWarnings(ts[i..]))
    {
      assert ts[i..][1..] == ts[i + 1..];
      if !ts[i].Str? {
        return Err(TagNotString);
      }
      var w := if |ts[i].s| > DagmcTagLength then [ts[i].s] else [];
      PrependTwice(warnings, w, TagWarnings(ts[i + 1..]));
      warnings := warnings + w;
      i := i + 1;
    }
    assert ts[i..] == [];
    assert warnings + [] == warnings;
    return Ok(warnings);
  }

  /** The positions, from `i` on, of the string tags longer than DAGMC
      keeps. */
  ghost function LongTagPositions(tags: seq<Value>, i: nat): seq<nat>
    decreases |tags| - i
  {
    if i >= |tags| then []
    else (if tags[i].Str? && |tags[i].s| > DagmcTagLength then [i] else []) + LongTagPositions(tags, i + 1)
  }

  /** The long tags' positions from `i` on, each once and in increasing
      order. */
  lemma {:induction false} LongTagPositionsMeaning(tags: seq<Value>, i: nat)
    decreases |tags| - i
    ensures var p := LongTagPositions(tags, i);
      && (forall k :: 0 <= k < |p| ==> i <= p[k] < |tags| && tags[p[k]].Str? && |tags[p[k]].s| > DagmcTagLength)
      && (forall k1, k2 :: 0 <= k1 < k2 < |p| ==> p[k1] < p[k2])
      && (forall j :: i <= j < |tags| && tags[j].Str? && |tags[j].s| > DagmcTagLength ==> j in p)
  {
    if i < |tags| {
      LongTagPositionsMeaning(tags, i + 1);
    }
  }

  /** The warnings of the loop started at tag `i` name the long tags from
      `i` on, one each, in their order. */
  lemma {:induction false} TagWarningsFrom(tags: seq<Value>, i: nat)
    requires i <= |tags|
    decreases |tags| - i
    ensures TagWarnings(tags[i..]).Ok? ==>
      var w := TagWarnings(tags[i..]).value;
      var p := LongTagPositions(tags, i);
      |w| == |p| && forall k :: 0 <= k < |p| ==> p[k] < |tags| && tags[p[k]] == Str(w[k])
  {
    if i == |tags| {
      assert tags[i..] == [];
    } else {
      assert tags[i..][0] == tags[i];
      assert tags[i..][1..] == tags[i + 1..];
      TagWarningsFrom(tags, i + 1);
    }
  }

  /** The tag loop succeeds exactly when every tag is a string, and warns
      about exactly the tags longer than DAGMC keeps: the `k`-th warning
      names the tag at the `k`-th long position, so each long tag is warned
      about once, in the tags' order (`LongTagPositionsMeaning`). */
  lemma {:induction false} TagWarningsMeaning(tags: seq<Value>)
    ensures TagWarnings(tags).Ok? <==> forall i :: 0 <= i < |tags| ==> tags[i].Str?
    ensures TagWarnings(tags).Ok? ==>
      forall w :: w in TagWarnings(tags).value <==>
        exists i :: 0 <= i < |tags| && tags[i] == Str(w) && |w| > DagmcTagLength
    ensures TagWarnings(tags).Ok? ==>
      var w := TagWarnings(tags).value;
      var p := LongTagPositions(tags, 0);
      |w| == |p| && forall k :: 0 <= k < |p| ==> p[k] < |tags| && tags[p[k]] == Str(w[k])
  {
    assert tags[0..] == tags;
    TagWarningsFrom(tags, 0);
    if |tags| > 0 {
      TagWarningsMeaning(tags[1..]);
      if TagWarnings(tags).Ok? {
        var head := if |tags[0].s| > DagmcTagLength then [tags[0].s] else [];
        var rest := TagWarnings(tags[1..]).value;
        assert TagWarnings(tags).value == head + rest;
        forall w
          ensures w in TagWarnings(tags).value <==>
            exists i :: 0 <= i < |tags| && tags[i] == Str(w) && |w| > DagmcTagLength
        {
          if w in rest {
            var i :| 0 <= i < |tags[1..]| && tags[1..][i] == Str(w) && |w| > DagmcTagLength;
            assert tags[i + 1] == Str(w);
          }
          if exists i :: 0 <= i < |tags| && tags[i] == Str(w) && |w| > DagmcTagLength {
            var i :| 0 <= i < |tags| && tags[i] == Str(w) && |w| > DagmcTagLength;
            if i > 0 {
              assert tags[1..][i - 1] == Str(w);
            }
          }
        }
      } else if tags[0].Str? {
        var i :| 0 <= i < |tags[1..]| && !tags[1..][i].Str?;
        assert !tags[i + 1].Str?;
      }
    }
  }

  // ---------------------------------------------------------------------
  // get_ids_from_imprinted_assembly

  /** The first original id of each imprinted solid, in the dictionary's
      order; an empty id list raises IndexError. */
  method ImprintedIds<T>(originals: seq<seq<T>>) returns (r: Result<seq<T>, MaterialError>)
    ensures r.Ok? <==> forall i :: 0 <= i < |originals| ==> |originals[i]| > 0
    ensures r.Ok? ==> |r.value| == |originals| && forall i :: 0 <= i < |originals| ==> r.value[i] == originals[i][0]
    ensures r.Err? ==>
      (r.error.MissingOriginalId? && r.error.position < |originals| &&
       |originals[r.error.position]| == 0 && forall i :: 0 <= i < r.error.position ==> |originals[i]| > 0)
  {
    var ids: seq<T> := [];
    var i := 0;
    while i < |originals|
      invariant 0 <= i <= |originals|
      invariant |ids| == i
      invariant forall k :: 0 <= k < i ==> |originals[k]| > 0 && ids[k] == originals[k][0]
    {
      if |originals[i]| == 0 {
        return Err(MissingOriginalId(i));
      }
      ids := ids + [originals[i][0]];
      i := i + 1;
    }
    return Ok(ids);
  }

  // ---------------------------------------------------------------------
  // order_material_ids_by_brep_order

  /** For each solid id in brep order, the tag at that id's first position
      among the original ids. */
  function TagsInBrepOrder<T(==)>(original: seq<T>, scrambled: seq<T>, tags: seq<string>): Result<seq<string>, MaterialError> {
    if |scrambled| == 0 then Ok([])
    else if scrambled[0] !in original then Err(IdNotFound)
    else if IndexOf(original, scrambled[0]) >= |tags| then Err(TagIndexOutOfRange(IndexOf(original, scrambled[0])))
    else Prepend([tags[IndexOf(original, scrambled[0])]], TagsInBrepOrder(original, scrambled[1..], tags))
  }

  method OrderMaterialIdsByBrepOrder<T(==)>(original: seq<T>, scrambled: seq<T>, tags: seq<string>)
    returns (r: Result<seq<string>, MaterialError>)
    ensures r == TagsInBrepOrder(original, scrambled, tags)
  {
    var ordered: seq<string> := [];
    var i := 0;
    assert scrambled[i..] == scrambled;
    PrependNothing(TagsInBrepOrder(original, scrambled, tags));
    while i < |scrambled|
      invariant 0 <= i <= |scrambled|
      invariant TagsInBrepOrder(original, scrambled, tags) == Prepend(ordered, TagsInBrepOrder(original, scrambled[i..], tags))
    {
      assert scrambled[i..][1..] == scrambled[i + 1..];
      var k := IndexOf(original, scrambled[i]);
      if k == |original| {
        return Err(IdNotFound);
      }
      if k >= |tags| {
        return Err(TagIndexOutOfRange(k));
      }
      PrependTwice(ordered, [tags[k]], TagsInBrepOrder(original, scrambled[i + 1..], tags));
      ordered := ordered + [tags[k]];
      i := i + 1;
    }
    assert scrambled[i..] == [];
    assert ordered + [] == ordered;
    return Ok(ordered);
  }

  /** Reordering succeeds when every brep id is an original id with a tag;
      each brep position then gets the tag given for that solid. */
  lemma {:induction false} BrepOrderMeaning<T>(original: seq<T>, scrambled: seq<T>, tags: seq<string>)
    ensures TagsInBrepOrder(original, scrambled, tags).Ok? <==>
      forall i :: 0 <= i < |scrambled| ==> scrambled[i] in original && IndexOf(original, scrambled[i]) < |tags|
    ensures TagsInBrepOrder(original, scrambled, tags).Ok? ==>
      var r := TagsInBrepOrder(original, scrambled, tags).value;
      |r| == |scrambled| && forall i :: 0 <= i < |scrambled| ==> r[i] == tags[IndexOf(original, scrambled[i])]
  {
    if |scrambled| > 0 {
      BrepOrderMeaning(original, scrambled[1..], tags);
      if !TagsInBrepOrder(original, scrambled, tags).Ok? && TagsInBrepOrder(original, scrambled[1..], tags).Err? {
        var i :| 0 <= i < |scrambled[1..]| && !(scrambled[1..][i] in original && IndexOf(original, scrambled[1..][i]) < |tags|);
        assert scrambled[i + 1] == scrambled[1..][i];
      }
      if TagsInBrepOrder(original, scrambled, tags).Ok? {
        var r := TagsInBrepOrder(original, scrambled, tags).value;
        forall i | 0 <= i < |scrambled|
          ensures r[i] == tags[IndexOf(original, scrambled[i])]
        {
          if i > 0 {
            assert scrambled[i] == scrambled[1..][i - 1];
          }
        }
      }
    }
  }

  /** With distinct original ids, the tag at each brep position is the one
      given for that solid. */
  lemma TagFollowsSolid<T>(original: seq<T>, scrambled: seq<T>, tags: seq<string>, i: nat, k: nat)
    requires Distinct(original)
    requires TagsInBrepOrder(original, scrambled, tags).Ok?
    requires i < |scrambled| && k < |original| && original[k] == scrambled[i]
    ensures k < |tags| && |TagsInBrepOrder(original, scrambled, tags).value| == |scrambled|
    ensures TagsInBrepOrder(original, scrambled, tags).value[i] == tags[k]
  {
    BrepOrderMeaning(original, scrambled, tags);
    IndexOfDistinct(original, k);
  }

  // ---------------------------------------------------------------------
  // The material-tag -> volume-id mapping built by resolve_unstructured_volumes
  // and resolve_set_size

  /** `zip(volumes, material_tags)` as (volume id, tag) pairs; it stops at
      the shorter list. */
  function Zipped(volumes: seq<(int, int)>, tags: seq<string>): (z: seq<(int, string)>)
    ensures |z| == if |volumes| < |tags| then |volumes| else |tags|
  {
    var n := if |volumes| < |tags| then |volumes| else |tags|;
    seq(n, i requires 0 <= i < n => (volumes[i].1, tags[i]))
  }

  /** The volume ids zipped with tag `t`, in order. */
  function Tagged(z: seq<(int, string)>, t: string): seq<int> {
    if |z| == 0 then []
    else Tagged(z[..|z| - 1], t) + (if z[|z| - 1].1 == t then [z[|z| - 1].0] else [])
  }

  lemma {:induction false} TaggedMembers(z: seq<(int, string)>, t: string, v: int)
    ensures v in Tagged(z, t) <==> exists i :: 0 <= i < |z| && z[i] == (v, t)
  {
    if |z| > 0 {
      var p := z[..|z| - 1];
      TaggedMembers(p, t, v);
      if exists i :: 0 <= i < |p| && p[i] == (v, t) {
        var i :| 0 <= i < |p| && p[i] == (v, t);
        assert z[i] == (v, t);
      }
      if exists i :: 0 <= i < |z| && z[i] == (v, t) {
        var i :| 0 <= i < |z| && z[i] == (v, t);
        if i < |p| {
          assert p[i] == (v, t);
        }
      }
    }
  }

  /** `material_to_volume_ids`: keyed by the tags that occur in `z`, each
      holding that tag's volume ids in order. */
  ghost predicate IsTagMap(m: map<string, seq<int>>, z: seq<(int, string)>) {
    (forall t :: t in m <==> Tagged(z, t) != []) && (forall t :: t in m ==> m[t] == Tagged(z, t))
  }

  method TagToVolumeIds(volumes: seq<(int, int)>, tags: seq<string>) returns (m: map<string, seq<int>>)
    ensures IsTagMap(m, Zipped(volumes, tags))
  {
    ghost var z := Zipped(volumes, tags);
    m := map[];
    var i := 0;
    while i < |volumes| && i < |tags|
      invariant 0 <= i <= |z|
      invariant IsTagMap(m, z[..i])
    {
      assert z[..i + 1][..i] == z[..i];
      assert z[..i + 1][i] == (volumes[i].1, tags[i]);
      var volumeId := volumes[i].1;
      var tag := tags[i];
      if tag !in m {
        m := m[tag := []];
      }
      m := m[tag := m[tag] + [volumeId]];
      i := i + 1;
    }
    assert z[..i] == z;
  }

  // ---------------------------------------------------------------------
  // Resolving one item of a volume selection

  /** An item the resolvers accept: a volume id, or a tag that occurs. */
  predicate Resolvable(key: Value, z: seq<(int, string)>) {
    key.Int? || (key.Str? && Tagged(z, key.s) != [])
  }

  /** Volume `v` is one an item stands for. */
  predicate Selects(key: Value, z: seq<(int, string)>, v: int) {
    key == Int(v) || (key.Str? && v in Tagged(z, key.s))
  }

  /** The volume ids one item stands for: itself for an int, every volume
      with that tag for a string; an unknown tag raises ValueError and any
      other value TypeError. */
  function VolumesOf(key: Value, z: seq<(int, string)>): (r: Result<seq<int>, MaterialError>)
    ensures r.Ok? <==> Resolvable(key, z)
    ensures r.Ok? ==> forall v :: v in r.value <==> Selects(key, z, v)
  {
    match key
    case Int(n) => Ok([n])
    case Str(t) => if Tagged(z, t) == [] then Err(UnknownTag(t)) else Ok(Tagged(z, t))
    case Other => Err(NotIntOrStr)
  }

  /** The method's lookup agrees with the specification's. */
  method LookupVolumes(key: Value, m: map<string, seq<int>>, ghost z: seq<(int, string)>)
    returns (r: Result<seq<int>, MaterialError>)
    requires IsTagMap(m, z)
    ensures r == VolumesOf(key, z)
  {
    match key
    case Int(n) => r := Ok([n]);
    case Str(t) =>
      if t !in m {
        r := Err(UnknownTag(t));
      } else {
        r := Ok(m[t]);
      }
    case Other => r := Err(NotIntOrStr);
  }

  // ---------------------------------------------------------------------
  // resolve_unstructured_volumes

  /** `resolved_ids`: the items' volume ids one after the other. */
  function Expand(items: seq<Value>, z: seq<(int, string)>): Result<seq<int>, MaterialError> {
    if |items| == 0 then Ok([])
    else if VolumesOf(items[0], z).Err? then Err(VolumesOf(items[0], z).error)
    else Prepend(VolumesOf(items[0], z).value, Expand(items[1..], z))
  }

  /** Drops every id already in `seen` or met earlier, keeping the order. */
  function DedupFrom(s: seq<int>, seen: set<int>): seq<int> {
    if |s| == 0 then []
    else if s[0] in seen then DedupFrom(s[1..], seen)
    else [s[0]] + DedupFrom(s[1..], seen + {s[0]})
  }

  function Dedup(s: seq<int>): seq<int> {
    DedupFrom(s, {})
  }

  /** The deduplicating loop: `unique_ids` and `seen`. */
  method RemoveDuplicates(s: seq<int>) returns (unique: seq<int>)
    ensures unique == Dedup(s)
  {
    var seen: set<int> := {};
    unique := [];
    var i := 0;
    while i < |s|
      invariant 0 <= i <= |s|
      invariant forall x :: x in seen <==> x in unique
      invariant Dedup(s) == unique + DedupFrom(s[i..], seen)
    {
      assert s[i..][1..] == s[i + 1..];
      if s[i] !in seen {
        seen := seen + {s[i]};
        unique := unique + [s[i]];
      }
      i := i + 1;
    }
    assert s[i..] == [];
  }

  /** What resolve_unstructured_volumes returns. */
  function UnstructuredVolumes(items: seq<Value>, z: seq<(int, string)>): Result<seq<int>, MaterialError> {
    if Expand(items, z).Err? then Err(Expand(items, z).error) else Ok(Dedup(Expand(items, z).value))
  }

  method ResolveUnstructuredVolumes(items: seq<Value>, volumes: seq<(int, int)>, tags: seq<string>)
    returns (r: Result<seq<int>, MaterialError>)
    ensures r == UnstructuredVolumes(items, Zipped(volumes, tags))
  {
    ghost var z := Zipped(volumes, tags);
    var m := TagToVolumeIds(volumes, tags);
    var resolved: seq<int> := [];
    var i := 0;
    assert items[i..] == items;
    PrependNothing(Expand(items, z));
    while i < |items|
      invariant 0 <= i <= |items|
      invariant Expand(items, z) == Prepend(resolved, Expand(items[i..], z))
    {
      assert items[i..][1..] == items[i + 1..];
      var ids := LookupVolumes(items[i], m, z);
      if ids.Err? {
        return Err(ids.error);
      }
      PrependTwice(resolved, ids.value, Expand(items[i + 1..], z));
      resolved := resolved + ids.value;
      i := i + 1;
    }
    assert items[i..] == [];
    assert resolved + [] == resolved;
    var unique := RemoveDuplicates(resolved);
    r := Ok(unique);
  }

  /** Deduplication keeps each id not in `seen` exactly once, in the order
      of its first occurrence. */
  lemma {:induction false} DedupFromMeaning(s: seq<int>, seen: set<int>)
    ensures Distinct(DedupFrom(s, seen))
    ensures forall x :: x in DedupFrom(s, seen) <==> x in s && x !in seen
    ensures forall a, b :: 0 <= a < b < |DedupFrom(s, seen)| ==>
      IndexOf(s, DedupFrom(s, seen)[a]) < IndexOf(s, DedupFrom(s, seen)[b])
  {
    if |s| > 0 {
      var rest := s[1..];
      assert forall x :: x in s <==> x == s[0] || x in rest;
      if s[0] in seen {
        DedupFromMeaning(rest, seen);
        var d := DedupFrom(rest, seen);
        forall a, b | 0 <= a < b < |d|
          ensures IndexOf(s, d[a]) < IndexOf(s, d[b])
        {
          assert d[a] != s[0] && d[b] != s[0];
        }
      } else {
        DedupFromMeaning(rest, seen + {s[0]});
        var d := DedupFrom(rest, seen + {s[0]});
        assert DedupFrom(s, seen) == [s[0]] + d;
        forall a, b | 0 <= a < b < |[s[0]] + d|
          ensures IndexOf(s, ([s[0]] + d)[a]) < IndexOf(s, ([s[0]] + d)[b])
        {
          assert d[b - 1] != s[0];
          if a > 0 {
            assert d[a - 1] != s[0];
          }
        }
      }
    }
  }

  /** Expansion succeeds exactly when every item can be resolved, and then
      holds exactly the volumes the items stand for; otherwise the first
      item that cannot be resolved decides the error. */
  lemma {:induction false} ExpandMeaning(items: seq<Value>, z: seq<(int, string)>)
    ensures Expand(items, z).Ok? <==> forall i :: 0 <= i < |items| ==> Resolvable(items[i], z)
    ensures Expand(items, z).Ok? ==>
      forall v :: v in Expand(items, z).value <==> exists i :: 0 <= i < |items| && Selects(items[i], z, v)
    ensures Expand(items, z).Err? ==>
      exists i :: 0 <= i < |items| && !Resolvable(items[i], z) &&
        (forall j :: 0 <= j < i ==> Resolvable(items[j], z)) && Expand(items, z).error == VolumesOf(items[i], z).error
  {
    if |items| > 0 {
      var rest := items[1..];
      ExpandMeaning(rest, z);
      var e := Expand(items, z);
      if !Resolvable(items[0], z) {
        assert !Resolvable(items[0], z) && e.error == VolumesOf(items[0], z).error;
      } else {
        var head := VolumesOf(items[0], z).value;
        if e.Err? {
          var i :| 0 <= i < |rest| && !Resolvable(rest[i], z) &&
            (forall j :: 0 <= j < i ==> Resolvable(rest[j], z)) && Expand(rest, z).error == VolumesOf(rest[i], z).error;
          assert items[i + 1] == rest[i];
          forall j | 0 <= j < i + 1
            ensures Resolvable(items[j], z)
          {
            if j > 0 {
              assert items[j] == rest[j - 1];
            }
          }
        } else {
          assert e.value == head + Expand(rest, z).value;
          forall v
            ensures v in e.value <==> exists i :: 0 <= i < |items| && Selects(items[i], z, v)
          {
            if v in Expand(rest, z).value {
              var i :| 0 <= i < |rest| && Selects(rest[i], z, v);
              assert items[i + 1] == rest[i];
            }
            if exists i :: 0 <= i < |items| && Selects(items[i], z, v) {
              var i :| 0 <= i < |items| && Selects(items[i], z, v);
              if i > 0 {
                assert rest[i - 1] == items[i];
              }
            }
          }
        }
        if forall i :: 0 <= i < |rest| ==> Resolvable(rest[i], z) {
          forall i | 0 <= i < |items|
            ensures Resolvable(items[i], z)
          {
            if i > 0 {
              assert items[i] == rest[i - 1];
            }
          }
        } else {
          var i :| 0 <= i < |rest| && !Resolvable(rest[i], z);
          assert items[i + 1] == rest[i];
        }
      }
    }
  }

  /** resolve_unstructured_volumes succeeds exactly when every item is a
      volume id or a tag that occurs; it then returns, once each and in the
      order they are first reached, exactly the volumes the items stand for.
      Otherwise the first item that cannot be resolved decides between
      ValueError (unknown tag) and TypeError. */
  lemma UnstructuredVolumesMeaning(items: seq<Value>, volumes: seq<(int, int)>, tags: seq<string>)
    ensures var z := Zipped(volumes, tags);
      UnstructuredVolumes(items, z).Ok? <==> forall i :: 0 <= i < |items| ==> Resolvable(items[i], z)
    ensures var z := Zipped(volumes, tags);
      UnstructuredVolumes(items, z).Ok? ==>
        Distinct(UnstructuredVolumes(items, z).value) &&
        forall v :: v in UnstructuredVolumes(items, z).value <==> exists i :: 0 <= i < |items| && Selects(items[i], z, v)
    ensures var z := Zipped(volumes, tags);
      UnstructuredVolumes(items, z).Ok? ==>
        var resolved := Expand(items, z).value;
        var r := UnstructuredVolumes(items, z).value;
        forall a, b :: 0 <= a < b < |r| ==> IndexOf(resolved, r[a]) < IndexOf(resolved, r[b])
    ensures var z := Zipped(volumes, tags);
      UnstructuredVolumes(items, z).Err? ==>
        exists i :: 0 <= i < |items| && !Resolvable(items[i], z) &&
          (forall j :: 0 <= j < i ==> Resolvable(items[j], z)) &&
          UnstructuredVolumes(items, z).error == (if items[i].Str? then UnknownTag(items[i].s) else NotIntOrStr)
  {
    var z := Zipped(volumes, tags);
    ExpandMeaning(items, z);
    if Expand(items, z).Ok? {
      DedupFromMeaning(Expand(items, z).value, {});
    }
  }

  /** A tag selects exactly the volumes zipped with it. */
  lemma SelectsByTag(t: string, volumes: seq<(int, int)>, tags: seq<string>, v: int)
    ensures Selects(Str(t), Zipped(volumes, tags), v) <==>
      exists i :: 0 <= i < |volumes| && i < |tags| && volumes[i].1 == v && tags[i] == t
  {
    var z := Zipped(volumes, tags);
    TaggedMembers(z, t, v);
    if exists i :: 0 <= i < |z| && z[i] == (v, t) {
      var i :| 0 <= i < |z| && z[i] == (v, t);
      assert volumes[i].1 == v && tags[i] == t;
    }
    if exists i :: 0 <= i < |volumes| && i < |tags| && volumes[i].1 == v && tags[i] == t {
      var i :| 0 <= i < |volumes| && i < |tags| && volumes[i].1 == v && tags[i] == t;
      assert z[i] == (v, t);
    }
  }

  // ---------------------------------------------------------------------
  // resolve_set_size

  /** Gives each id `size`; an id that already has a different size raises
      ValueError (one that already has this size is left as it is). */
  function AssignSize(m: map<int, real>, ids: seq<int>, size: real): Result<map<int, real>, MaterialError>
    decreases |ids|
  {
    if |ids| == 0 then Ok(m)
    else if ids[0] in m && m[ids[0]] != size then Err(ConflictingSize(ids[0], m[ids[0]], size))
    else AssignSize(m[ids[0] := size], ids[1..], size)
  }

  /** The loop over the `set_size` items, in the dictionary's order. */
  function SetSizes(m: map<int, real>, items: seq<(Value, real)>, z: seq<(int, string)>): Result<map<int, real>, MaterialError>
    decreases |items|
  {
    if |items| == 0 then Ok(m)
    else if VolumesOf(items[0].0, z).Err? then Err(VolumesOf(items[0].0, z).error)
    else
      var a := AssignSize(m, VolumesOf(items[0].0, z).value, items[0].1);
      if a.Err? then a else SetSizes(a.value, items[1..], z)
  }

  method ResolveSetSize(items: seq<(Value, real)>, volumes: seq<(int, int)>, tags: seq<string>)
    returns (r: Result<map<int, real>, MaterialError>)
    ensures r == SetSizes(map[], items, Zipped(volumes, tags))
  {
    ghost var z := Zipped(volumes, tags);
    var m := TagToVolumeIds(volumes, tags);
    var resolved: map<int, real> := map[];
    var i := 0;
    assert items[i..] == items;
    while i < |items|
      invariant 0 <= i <= |items|
      invariant SetSizes(map[], items, z) == SetSizes(resolved, items[i..], z)
    {
      assert items[i..][1..] == items[i + 1..];
      var (key, size) := items[i];
      var ids := LookupVolumes(key, m, z);
      if ids.Err? {
        return Err(ids.error);
      }
      ghost var before := resolved;
      var k := 0;
      assert ids.value[k..] == ids.value;
      while k < |ids.value|
        invariant 0 <= k <= |ids.value|
        invariant AssignSize(before, ids.value, size) == AssignSize(resolved, ids.value[k..], size)
      {
        assert ids.value[k..][1..] == ids.value[k + 1..];
        var v := ids.value[k];
        if v in resolved {
          if resolved[v] != size {
            return Err(ConflictingSize(v, resolved[v], size));
          }
          assert resolved[v := size] == resolved;
        } else {
          resolved := resolved[v := size];
        }
        k := k + 1;
      }
      assert ids.value[k..] == [];
      i := i + 1;
    }
    assert items[i..] == [];
    return Ok(resolved);
  }

  /** Assigning succeeds exactly when no id already has a different size;
      every id then has `size` and every other entry is kept. */
  lemma {:induction false} AssignSizeMeaning(m: map<int, real>, ids: seq<int>, size: real)
    decreases |ids|
    ensures AssignSize(m, ids, size).Ok? <==> forall v :: v in ids && v in m ==> m[v] == size
    ensures AssignSize(m, ids, size).Ok? ==>
      var r := AssignSize(m, ids, size).value;
      (forall v :: v in r <==> v in m || v in ids) &&
      (forall v :: v in r ==> r[v] == if v in ids then size else m[v])
  {
    if |ids| > 0 {
      var rest := ids[1..];
      assert forall v :: v in ids <==> v == ids[0] || v in rest;
      if !(ids[0] in m && m[ids[0]] != size) {
        AssignSizeMeaning(m[ids[0] := size], rest, size);
      }
    }
  }

  /** Every item can be resolved. */
  ghost predicate AllResolvable(items: seq<(Value, real)>, z: seq<(int, string)>) {
    forall it :: it in items ==> Resolvable(it.0, z)
  }

  /** No item gives a volume of `m` a size other than the one it has. */
  ghost predicate Agrees(m: map<int, real>, items: seq<(Value, real)>, z: seq<(int, string)>) {
    forall it, v :: it in items && Selects(it.0, z, v) && v in m ==> m[v] == it.1
  }

  /** No two items give one volume different sizes. */
  ghost predicate Consistent(items: seq<(Value, real)>, z: seq<(int, string)>) {
    forall it1, it2, v :: it1 in items && it2 in items && Selects(it1.0, z, v) && Selects(it2.0, z, v) ==> it1.1 == it2.1
  }

  lemma {:induction false} SetSizesMeaning(m: map<int, real>, items: seq<(Value, real)>, z: seq<(int, string)>)
    decreases |items|
    ensures SetSizes(m, items, z).Ok? <==> AllResolvable(items, z) && Agrees(m, items, z) && Consistent(items, z)
    ensures SetSizes(m, items, z).Ok? ==>
      var r := SetSizes(m, items, z).value;
      (forall v :: v in r <==> v in m || exists it :: it in items && Selects(it.0, z, v)) &&
      (forall v :: v in m ==> r[v] == m[v]) &&
      (forall it, v :: it in items && Selects(it.0, z, v) ==> v in r && r[v] == it.1)
  {
    if |items| > 0 {
      var x := items[0];
      var rest := items[1..];
      assert forall it :: it in items <==> it == x || it in rest;
      if Resolvable(x.0, z) {
        var ids := VolumesOf(x.0, z).value;
        AssignSizeMeaning(m, ids, x.1);
        var a := AssignSize(m, ids, x.1);
        if a.Err? {
          var v :| v in ids && v in m && m[v] != x.1;
          assert Selects(x.0, z, v);
        } else {
          var m' := a.value;
          SetSizesMeaning(m', rest, z);
          if AllResolvable(items, z) && Agrees(m, items, z) && Consistent(items, z) {
            forall it, v | it in rest && Selects(it.0, z, v) && v in m'
              ensures m'[v] == it.1
            {
              if v in ids {
                assert Selects(x.0, z, v);
              }
            }
          }
          if SetSizes(m', rest, z).Ok? {
            var r := SetSizes(m', rest, z).value;
            forall it, v | it in items && Selects(it.0, z, v) && v in m
              ensures m[v] == it.1
            {
              if it in rest && v in ids {
                assert r[v] == m'[v];
              }
            }
            forall it1, it2, v | it1 in items && it2 in items && Selects(it1.0, z, v) && Selects(it2.0, z, v)
              ensures it1.1 == it2.1
            {
              if it1 == x || it2 == x {
                assert v in m' && m'[v] == x.1;
              }
            }
          }
        }
      }
    }
  }

  /** Assigning sizes can only fail on a conflicting size. */
  lemma {:induction false} AssignSizeError(m: map<int, real>, ids: seq<int>, size: real)
    decreases |ids|
    ensures AssignSize(m, ids, size).Err? ==> AssignSize(m, ids, size).error.ConflictingSize?
  {
    if |ids| > 0 && !(ids[0] in m && m[ids[0]] != size) {
      AssignSizeError(m[ids[0] := size], ids[1..], size);
    }
  }

  /** When every key resolves, the loop can only fail on a conflicting
      size. */
  lemma {:induction false} SetSizesConflict(m: map<int, real>, items: seq<(Value, real)>, z: seq<(int, string)>)
    decreases |items|
    requires AllResolvable(items, z)
    ensures SetSizes(m, items, z).Err? ==> SetSizes(m, items, z).error.ConflictingSize?
  {
    if |items| > 0 {
      assert items[0] in items;
      var ids := VolumesOf(items[0].0, z).value;
      AssignSizeError(m, ids, items[0].1);
      var a := AssignSize(m, ids, items[0].1);
      if a.Ok? {
        assert forall it :: it in items[1..] ==> it in items;
        SetSizesConflict(a.value, items[1..], z);
      }
    }
  }

  /** Assigning the first key's size to volumes that agree with every key
      succeeds, and the new sizes agree with the remaining keys. */
  lemma AgreesAfterAssign(m: map<int, real>, items: seq<(Value, real)>, z: seq<(int, string)>)
    requires |items| > 0 && Resolvable(items[0].0, z)
    requires Agrees(m, items, z) && Consistent(items, z)
    ensures var a := AssignSize(m, VolumesOf(items[0].0, z).value, items[0].1);
      a.Ok? && Agrees(a.value, items[1..], z) && Consistent(items[1..], z)
  {
    var x := items[0];
    assert x in items;
    var ids := VolumesOf(x.0, z).value;
    AssignSizeMeaning(m, ids, x.1);
    var m' := AssignSize(m, ids, x.1).value;
    forall it, v | it in items[1..] && Selects(it.0, z, v) && v in m'
      ensures m'[v] == it.1
    {
      assert it in items;
      if v in ids {
        assert Selects(x.0, z, v);
      }
    }
    assert forall it :: it in items[1..] ==> it in items;
  }

  /** The first unresolvable key of `items[1..]` is, shifted by one, the
      first of `items` when `items[0]` resolves. */
  lemma FirstUnresolvableShift(items: seq<(Value, real)>, z: seq<(int, string)>, j: nat)
    requires |items| > 0 && Resolvable(items[0].0, z)
    requires j < |items[1..]| && forall i :: 0 <= i < j ==> Resolvable(items[1..][i].0, z)
    ensures items[j + 1] == items[1..][j]
    ensures forall i :: 0 <= i < j + 1 ==> Resolvable(items[i].0, z)
  {
    forall i | 0 <= i < j + 1
      ensures Resolvable(items[i].0, z)
    {
      if i > 0 {
        assert items[i] == items[1..][i - 1];
      }
    }
  }

  /** When no sizes conflict, the loop fails at the first key that does not
      resolve, with that key's error. */
  lemma {:induction false} SetSizesFirstUnresolvable(m: map<int, real>, items: seq<(Value, real)>, z: seq<(int, string)>)
    decreases |items|
    requires Agrees(m, items, z) && Consistent(items, z) && !AllResolvable(items, z)
    ensures exists j ::
              && 0 <= j < |items| && !Resolvable(items[j].0, z)
              && (forall i :: 0 <= i < j ==> Resolvable(items[i].0, z))
              && SetSizes(m, items, z) == Err(VolumesOf(items[j].0, z).error)
  {
    if !Resolvable(items[0].0, z) {
      assert !Resolvable(items[0].0, z);
    } else {
      var rest := items[1..];
      AgreesAfterAssign(m, items, z);
      var m' := AssignSize(m, VolumesOf(items[0].0, z).value, items[0].1).value;
      assert !AllResolvable(rest, z) by {
        var it :| it in items && !Resolvable(it.0, z);
        assert it in rest;
      }
      SetSizesFirstUnresolvable(m', rest, z);
      var j :| && 0 <= j < |rest| && !Resolvable(rest[j].0, z)
               && (forall i :: 0 <= i < j ==> Resolvable(rest[i].0, z))
               && SetSizes(m', rest, z) == Err(VolumesOf(rest[j].0, z).error);
      FirstUnresolvableShift(items, z, j);
    }
  }

  /** resolve_set_size succeeds exactly when every key is a volume id or a
      tag that occurs and no two keys give one volume different sizes; the
      result then sizes exactly the volumes the keys stand for, each with
      the size its keys give it. When every key resolves, a failure is a
      conflicting size (ValueError); when no sizes conflict, a failure is
      the first unresolvable key's: an unknown tag (ValueError) or a key of
      another type (TypeError). */
  lemma SetSizeMeaning(items: seq<(Value, real)>, volumes: seq<(int, int)>, tags: seq<string>)
    ensures var z := Zipped(volumes, tags);
      SetSizes(map[], items, z).Ok? <==> AllResolvable(items, z) && Consistent(items, z)
    ensures var z := Zipped(volumes, tags);
      SetSizes(map[], items, z).Ok? ==>
        var r := SetSizes(map[], items, z).value;
        (forall v :: v in r <==> exists it :: it in items && Selects(it.0, z, v)) &&
        (forall it, v :: it in items && Selects(it.0, z, v) ==> r[v] == it.1)
    ensures var z := Zipped(volumes, tags);
      AllResolvable(items, z) && SetSizes(map[], items, z).Err? ==>
        SetSizes(map[], items, z).error.ConflictingSize?
    ensures var z := Zipped(volumes, tags);
      Consistent(items, z) && !AllResolvable(items, z) ==>
        && SetSizes(map[], items, z).Err?
        && (SetSizes(map[], items, z).error.UnknownTag? || SetSizes(map[], items, z).error.NotIntOrStr?)
        && exists j ::
             && 0 <= j < |items| && !Resolvable(items[j].0, z)
             && (forall i :: 0 <= i < j ==> Resolvable(items[i].0, z))
             && SetSizes(map[], items, z) == Err(VolumesOf(items[j].0, z).error)
  {
    var z := Zipped(volumes, tags);
    SetSizesMeaning(map[], items, z);
    if AllResolvable(items, z) {
      SetSizesConflict(map[], items, z);
    } else if Consistent(items, z) {
      SetSizesFirstUnresolvable(map[], items, z);
    }
  }
}
