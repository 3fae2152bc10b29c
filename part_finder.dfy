/** brep_part_finder.py: identifying which solid of a BREP file is which
    CAD shape by comparing their centres of mass, volumes and bounding
    boxes within tolerances. */
module PartFinder {
  import opened Outcomes
  import opened Seqs

  /** A part's (or a query's) property values, keyed by property name. */
  type Props = map<string, real>

  /** The properties compared, in the order they are checked. */
  const PropertyNames: seq<string> := [
    "center_x", "center_y", "center_z", "volume",
    "bounding_box_xmin", "bounding_box_ymin", "bounding_box_zmin",
    "bounding_box_xmax", "bounding_box_ymax", "bounding_box_zmax"]
  const PropertyNameSet: set<string> := set name | name in PropertyNames
  const BoundingBoxNames: set<string> := {
    "bounding_box_xmin", "bounding_box_ymin", "bounding_box_zmin",
    "bounding_box_xmax", "bounding_box_ymax", "bounding_box_zmax"}

  /** numpy's default relative tolerance in `isclose`. */
  const Rtol: real := 0.00001

  /** The absolute tolerances: `center_atol`, `volume_atol`, `bounding_box_atol`. */
  datatype Tolerances = Tolerances(center: real, volume: real, boundingBox: real)

  function ToleranceOf(tols: Tolerances, i: nat): real
    requires i < |PropertyNames|
  {
    if i < 3 then tols.center else if i == 3 then tols.volume else tols.boundingBox
  }

  function Abs(x: real): real {
    if x < 0.0 then -x else x
  }

  /** `np.isclose(a, b, atol=atol)` */
  predicate IsClose(a: real, b: real, atol: real) {
    Abs(a - b) <= atol + Rtol * Abs(b)
  }

  lemma IsCloseToItself(a: real, atol: real)
    requires atol >= 0.0
    ensures IsClose(a, a, atol)
  {
  }

  datatype FinderError =
    | UnexpectedProperty      // TypeError: the query names an argument the finder does not take
    | MissingBrepProperty     // KeyError: a part lacks a queried property
    | NoMatchingPart          // ValueError: no queried property matches any part
    | MultipleMatches         // ValueError: a shape matches several parts
    | ShapeNotADict           // ValueError: a shape's properties are not a dictionary
    | MissingBoundingBox      // KeyError: the last shape lacks a bounding-box entry

  // ---------------------------------------------------------------------
  // get_matching_part_id

  /** The parts whose property `name` is close to `x`. */
  ghost function Matching(brep: map<int, Props>, name: string, x: real, atol: real): set<int> {
    set k | k in brep && name in brep[k] && IsClose(brep[k][name], x, atol)
  }

  /** Property `i` is queried and matches at least one part. */
  ghost predicate Effective(brep: map<int, Props>, query: Props, tols: Tolerances, i: nat)
    requires i < |PropertyNames|
  {
    PropertyNames[i] in query &&
    Matching(brep, PropertyNames[i], query[PropertyNames[i]], ToleranceOf(tols, i)) != {}
  }

  /** The lists kept in `part_ids_matching` after the first `n` properties:
      one per queried property that matches some part (one that matches none
      only gives a warning). */
  ghost function MatchLists(brep: map<int, Props>, query: Props, tols: Tolerances, n: nat): seq<set<int>>
    requires n <= |PropertyNames|
  {
    if n == 0 then []
    else if Effective(brep, query, tols, n - 1) then
      MatchLists(brep, query, tols, n - 1) +
        [Matching(brep, PropertyNames[n - 1], query[PropertyNames[n - 1]], ToleranceOf(tols, n - 1))]
    else MatchLists(brep, query, tols, n - 1)
  }

  /** `set.intersection(*lists)` */
  function Intersection(ls: seq<set<int>>): set<int>
    requires |ls| > 0
  {
    if |ls| == 1 then ls[0] else Intersection(ls[..|ls| - 1]) * ls[|ls| - 1]
  }

  /** Some part lacks a queried property. */
  ghost predicate Lacks(brep: map<int, Props>, query: Props) {
    exists name, k :: name in query && k in brep && name !in brep[k]
  }

  /** What get_matching_part_id returns, as a set (it returns the list of a
      set, in no particular order). */
  ghost function MatchingPartId(brep: map<int, Props>, query: Props, tols: Tolerances): Result<set<int>, FinderError> {
    if !(query.Keys <= PropertyNameSet) then Err(UnexpectedProperty)
    else if Lacks(brep, query) then Err(MissingBrepProperty)
    else if MatchLists(brep, query, tols, |PropertyNames|) == [] then Err(NoMatchingPart)
    else Ok(Intersection(MatchLists(brep, query, tols, |PropertyNames|)))
  }

  /** The inner loop over the parts for one property. */
  method PartsMatching(brep: map<int, Props>, name: string, x: real, atol: real) returns (r: Result<set<int>, FinderError>)
    ensures r.Err? <==> exists k :: k in brep && name !in brep[k]
    ensures r.Err? ==> r.error == MissingBrepProperty
    ensures r.Ok? ==> r.value == Matching(brep, name, x, atol)
  {
    var matching: set<int> := {};
    var left := brep.Keys;
    while left != {}
      invariant left <= brep.Keys
      invariant forall k :: k in brep && k !in left ==> name in brep[k]
      invariant forall k :: k in matching <==> k in brep && k !in left && name in brep[k] && IsClose(brep[k][name], x, atol)
      decreases left
    {
      HasElement(left);
      var k :| k in left;
      if name !in brep[k] {
        return Err(MissingBrepProperty);
      }
      if IsClose(brep[k][name], x, atol) {
        matching := matching + {k};
      }
      left := left - {k};
    }
    forall k
      ensures k in matching <==> k in Matching(brep, name, x, atol)
    {
      assert k !in left;
    }
    assert matching == Matching(brep, name, x, atol);
    return Ok(matching);
  }

  /** One turn of the loop over the properties: the list of parts close
      on property `i`, appended when it is queried and not empty. */
  method CollectOne(brep: map<int, Props>, query: Props, tols: Tolerances, i: nat, lists: seq<set<int>>)
    returns (r: Result<seq<set<int>>, FinderError>)
    requires i < |PropertyNames|
    requires lists == MatchLists(brep, query, tols, i)
    ensures r.Err? <==> PropertyNames[i] in query && exists k :: k in brep && PropertyNames[i] !in brep[k]
    ensures r.Err? ==> r.error == MissingBrepProperty
    ensures r.Ok? ==> r.value == MatchLists(brep, query, tols, i + 1)
  {
    var name := PropertyNames[i];
    if name !in query {
      return Ok(lists);
    }
    var matching := PartsMatching(brep, name, query[name], ToleranceOf(tols, i));
    if matching.Err? {
      return Err(MissingBrepProperty);
    }
    if matching.value != {} {
      return Ok(lists + [matching.value]);
    }
    return Ok(lists);
  }

  /** Every queried property is a known one, so when each known property
      that is queried is present in every part, no part lacks one. */
  lemma NotLacking(brep: map<int, Props>, query: Props)
    requires query.Keys <= PropertyNameSet
    requires forall j, k :: 0 <= j < |PropertyNames| && PropertyNames[j] in query && k in brep ==> PropertyNames[j] in brep[k]
    ensures !Lacks(brep, query)
  {
    forall name, k | name in query && k in brep
      ensures name in brep[k]
    {
      assert name in PropertyNameSet;
      var j :| 0 <= j < |PropertyNames| && PropertyNames[j] == name;
    }
  }

  /** The loop over the properties: the lists of `part_ids_matching`. */
  method CollectMatches(brep: map<int, Props>, query: Props, tols: Tolerances) returns (r: Result<seq<set<int>>, FinderError>)
    requires query.Keys <= PropertyNameSet
    ensures r.Err? <==> Lacks(brep, query)
    ensures r.Err? ==> r.error == MissingBrepProperty
    ensures r.Ok? ==> r.value == MatchLists(brep, query, tols, |PropertyNames|)
  {
    var lists: seq<set<int>> := [];
    var i := 0;
    while i < |PropertyNames|
      invariant 0 <= i <= |PropertyNames|
      invariant lists == MatchLists(brep, query, tols, i)
      invariant forall j, k :: 0 <= j < i && PropertyNames[j] in query && k in brep ==> PropertyNames[j] in brep[k]
    {
      var next := CollectOne(brep, query, tols, i, lists);
      if next.Err? {
        return next;
      }
      lists := next.value;
      i := i + 1;
    }
    NotLacking(brep, query);
    return Ok(lists);
  }

  method GetMatchingPartId(brep: map<int, Props>, query: Props, tols: Tolerances) returns (r: Result<set<int>, FinderError>)
    ensures r == MatchingPartId(brep, query, tols)
  {
    if !(query.Keys <= PropertyNameSet) {
      return Err(UnexpectedProperty);
    }
    var lists := CollectMatches(brep, query, tols);
    if lists.Err? {
      return Err(lists.error);
    }
    if lists.value == [] {
      return Err(NoMatchingPart);
    }
    return Ok(Intersection(lists.value));
  }

  lemma {:induction false} MatchListsMeaning(brep: map<int, Props>, query: Props, tols: Tolerances, n: nat)
    requires n <= |PropertyNames|
    ensures MatchLists(brep, query, tols, n) == [] <==> forall i :: 0 <= i < n ==> !Effective(brep, query, tols, i)
    ensures MatchLists(brep, query, tols, n) != [] ==>
      forall k :: k in Intersection(MatchLists(brep, query, tols, n)) <==>
        forall i :: 0 <= i < n && Effective(brep, query, tols, i) ==>
          k in Matching(brep, PropertyNames[i], query[PropertyNames[i]], ToleranceOf(tols, i))
  {
    if n > 0 {
      MatchListsMeaning(brep, query, tols, n - 1);
      var p := MatchLists(brep, query, tols, n - 1);
      if Effective(brep, query, tols, n - 1) {
        var l := p + [Matching(brep, PropertyNames[n - 1], query[PropertyNames[n - 1]], ToleranceOf(tols, n - 1))];
        assert l[..|l| - 1] == p;
        if p == [] {
          assert |l| == 1;
        }
      }
    }
  }

  /** When the finder succeeds, it returns exactly the parts close to the
      query on every queried property that matches some part; it raises
      "No matching part found" exactly when no queried property matches any
      part (in particular when nothing is queried). */
  lemma MatchingPartIdMeaning(brep: map<int, Props>, query: Props, tols: Tolerances)
    ensures MatchingPartId(brep, query, tols).Ok? ==>
      forall k :: k in MatchingPartId(brep, query, tols).value <==>
        k in brep &&
        forall i :: 0 <= i < |PropertyNames| && Effective(brep, query, tols, i) ==>
          IsClose(brep[k][PropertyNames[i]], query[PropertyNames[i]], ToleranceOf(tols, i))
    ensures MatchingPartId(brep, query, tols) == Err(NoMatchingPart) <==>
      query.Keys <= PropertyNameSet && !Lacks(brep, query) &&
      forall i :: 0 <= i < |PropertyNames| && PropertyNames[i] in query ==>
        Matching(brep, PropertyNames[i], query[PropertyNames[i]], ToleranceOf(tols, i)) == {}
  {
    MatchListsMeaning(brep, query, tols, |PropertyNames|);
    var r := MatchingPartId(brep, query, tols);
    forall i | 0 <= i < |PropertyNames|
      ensures !Effective(brep, query, tols, i) <==>
        (PropertyNames[i] in query ==> Matching(brep, PropertyNames[i], query[PropertyNames[i]], ToleranceOf(tols, i)) == {})
    {
    }
    if r.Ok? {
      var i :| 0 <= i < |PropertyNames| && Effective(brep, query, tols, i);
      forall k | k in r.value
        ensures k in brep
      {
        assert k in Matching(brep, PropertyNames[i], query[PropertyNames[i]], ToleranceOf(tols, i));
      }
      forall k | k in brep &&
        forall i :: 0 <= i < |PropertyNames| && Effective(brep, query, tols, i) ==>
          IsClose(brep[k][PropertyNames[i]], query[PropertyNames[i]], ToleranceOf(tols, i))
        ensures k in r.value
      {
        forall i | 0 <= i < |PropertyNames| && Effective(brep, query, tols, i)
          ensures k in Matching(brep, PropertyNames[i], query[PropertyNames[i]], ToleranceOf(tols, i))
        {
          assert PropertyNames[i] in brep[k];
        }
      }
    }
  }

  /** A part whose values are exactly the queried ones is among those found,
      whatever the (non-negative) tolerances. */
  lemma ExactPartFound(brep: map<int, Props>, query: Props, tols: Tolerances, k: int)
    requires tols.center >= 0.0 && tols.volume >= 0.0 && tols.boundingBox >= 0.0
    requires query.Keys <= PropertyNameSet && |query| > 0 && !Lacks(brep, query)
    requires k in brep && forall name :: name in query ==> brep[k][name] == query[name]
    ensures MatchingPartId(brep, query, tols).Ok? && k in MatchingPartId(brep, query, tols).value
  {
    forall i | 0 <= i < |PropertyNames| && PropertyNames[i] in query
      ensures k in Matching(brep, PropertyNames[i], query[PropertyNames[i]], ToleranceOf(tols, i))
    {
      IsCloseToItself(query[PropertyNames[i]], ToleranceOf(tols, i));
    }
    var name :| name in query;
    assert name in PropertyNameSet;
    var j :| 0 <= j < |PropertyNames| && PropertyNames[j] == name;
    assert Effective(brep, query, tols, j);
    MatchingPartIdMeaning(brep, query, tols);
  }

  // ---------------------------------------------------------------------
  // get_matching_part_ids

  /** A shape's entry in `shape_properties`. */
  datatype ShapeValue = ShapeDict(props: Props) | NotADict

  /** The state of the matching loop: the parts not matched yet, the
      (brep id, shape id) pairs found and the shapes that matched no part. */
  datatype Search<K> = Search(brep: map<int, Props>, pairs: seq<(int, K)>, remaining: seq<(K, Props)>)

  lemma SingletonSet(s: set<int>, b: int)
    requires |s| == 1 && b in s
    ensures s == {b}
  {
    assert |s - {b}| == 0;
    assert s - {b} == {};
  }

  /** One shape: a single matching part is paired with it and removed from
      the parts still to match; no match keeps the shape for the last
      resort; several matches raise. */
  ghost function Step<K>(s: Search<K>, shape: (K, ShapeValue), tols: Tolerances): Result<Search<K>, FinderError> {
    if shape.1.NotADict? then Err(ShapeNotADict)
    else
      var m := MatchingPartId(s.brep, shape.1.props, tols);
      if m.Err? then Err(m.error)
      else if |m.value| > 1 then Err(MultipleMatches)
      else if |m.value| == 1 then
        HasElement(m.value);
        var b :| b in m.value;
        Ok(Search(s.brep - {b}, s.pairs + [(b, shape.0)], s.remaining))
      else Ok(Search(s.brep, s.pairs, s.remaining + [(shape.0, shape.1.props)]))
  }

  /** The loop over `shape_properties`, in the dictionary's order. */
  ghost function Scan<K>(s: Search<K>, shapes: seq<(K, ShapeValue)>, tols: Tolerances): Result<Search<K>, FinderError>
    decreases |shapes|
  {
    if |shapes| == 0 then Ok(s)
    else
      var n := Step(s, shapes[0], tols);
      if n.Err? then n else Scan(n.value, shapes[1..], tols)
  }

  /** When exactly one part and one shape are left over, they are paired
      after a check on the centre and volume only (the shape's bounding-box
      entries are removed; a missing one raises KeyError); the check's result
      is not used, but its errors are raised. */
  ghost function LastResort<K>(s: Search<K>, tols: Tolerances): Result<seq<(int, K)>, FinderError> {
    if |s.brep.Keys| == 1 && |s.remaining| == 1 then
      var props := s.remaining[0].1;
      if !(BoundingBoxNames <= props.Keys) then Err(MissingBoundingBox)
      else
        var probe := MatchingPartId(s.brep, props - BoundingBoxNames, tols);
        if probe.Err? then Err(probe.error)
        else
          HasElement(s.brep.Keys);
          var b :| b in s.brep;
          Ok(s.pairs + [(b, s.remaining[0].0)])
    else Ok(s.pairs)
  }

  /** Inserts `x` after every pair whose brep id is not larger. */
  function InsertByBrep<K>(sorted: seq<(int, K)>, x: (int, K)): seq<(int, K)> {
    if |sorted| == 0 then [x]
    else if sorted[|sorted| - 1].0 <= x.0 then sorted + [x]
    else InsertByBrep(sorted[..|sorted| - 1], x) + [sorted[|sorted| - 1]]
  }

  /** `sorted(pairs, key=lambda x: x[0])`, a stable sort. */
  function SortByBrep<K>(pairs: seq<(int, K)>): seq<(int, K)> {
    if |pairs| == 0 then [] else InsertByBrep(SortByBrep(pairs[..|pairs| - 1]), pairs[|pairs| - 1])
  }

  /** What get_matching_part_ids returns. */
  ghost function MatchingPartIds<K>(brep: map<int, Props>, shapes: seq<(K, ShapeValue)>, tols: Tolerances): Result<seq<(int, K)>, FinderError> {
    var s := Scan(Search(brep, [], []), shapes, tols);
    if s.Err? then Err(s.error)
    else
      var l := LastResort(s.value, tols);
      if l.Err? then l else Ok(SortByBrep(l.value))
  }

  method GetMatchingPartIds<K>(brep: map<int, Props>, shapes: seq<(K, ShapeValue)>, tols: Tolerances)
    returns (r: Result<seq<(int, K)>, FinderError>)
    ensures r == MatchingPartIds(brep, shapes, tols)
  {
    var parts := brep;
    var pairs: seq<(int, K)> := [];
    var remaining: seq<(K, Props)> := [];
    var i := 0;
    assert shapes[i..] == shapes;
    while i < |shapes|
      invariant 0 <= i <= |shapes|
      invariant Scan(Search(brep, [], []), shapes, tols) == Scan(Search(parts, pairs, remaining), shapes[i..], tols)
    {
      assert shapes[i..][1..] == shapes[i + 1..];
      var (shapeId, value) := shapes[i];
      if value.NotADict? {
        return Err(ShapeNotADict);
      }
      var m := GetMatchingPartId(parts, value.props, tols);
      if m.Err? {
        return Err(m.error);
      }
      if |m.value| > 1 {
        return Err(MultipleMatches);
      }
      if |m.value| == 1 {
        HasElement(m.value);
        var b :| b in m.value;
        SingletonSet(m.value, b);
        pairs := pairs + [(b, shapeId)];
        parts := parts - {b};
      } else {
        remaining := remaining + [(shapeId, value.props)];
      }
      i := i + 1;
    }
    assert shapes[i..] == [];
    if |parts.Keys| == 1 && |remaining| == 1 {
      var props := remaining[0].1;
      if !(BoundingBoxNames <= props.Keys) {
        return Err(MissingBoundingBox);
      }
      var probe := GetMatchingPartId(parts, props - BoundingBoxNames, tols);
      if probe.Err? {
        return Err(probe.error);
      }
      HasElement(parts.Keys);
      var b :| b in parts;
      SingletonSet(parts.Keys, b);
      pairs := pairs + [(b, remaining[0].0)];
    }
    return Ok(SortByBrep(pairs));
  }

  // ---------------------------------------------------------------------
  // Properties of get_matching_part_ids

  ghost predicate DistinctBrepIds<K>(ps: seq<(int, K)>) {
    forall i, j :: 0 <= i < j < |ps| ==> ps[i].0 != ps[j].0
  }

  ghost predicate IncreasingBrepIds<K>(ps: seq<(int, K)>) {
    forall i, j :: 0 <= i < j < |ps| ==> ps[i].0 < ps[j].0
  }

  lemma {:induction false} InsertByBrepMeaning<K>(sorted: seq<(int, K)>, x: (int, K))
    ensures |InsertByBrep(sorted, x)| == |sorted| + 1
    ensures forall p :: p in InsertByBrep(sorted, x) <==> p in sorted || p == x
    ensures IncreasingBrepIds(sorted) && (forall p :: p in sorted ==> p.0 != x.0) ==>
      IncreasingBrepIds(InsertByBrep(sorted, x))
  {
    if |sorted| > 0 && sorted[|sorted| - 1].0 > x.0 {
      var front := sorted[..|sorted| - 1];
      var last := sorted[|sorted| - 1];
      assert forall p :: p in sorted <==> p in front || p == last;
      InsertByBrepMeaning(front, x);
      if IncreasingBrepIds(sorted) && (forall p :: p in sorted ==> p.0 != x.0) {
        InsertBelowLast(sorted, front, x);
      }
    }
  }

  /** Inserting below the last pair of an increasing sequence keeps every
      brep id below the last one. */
  lemma InsertBelowLast<K>(sorted: seq<(int, K)>, front: seq<(int, K)>, x: (int, K))
    requires |sorted| > 0 && front == sorted[..|sorted| - 1]
    requires sorted[|sorted| - 1].0 > x.0 && IncreasingBrepIds(sorted)
    requires forall p :: p in InsertByBrep(front, x) <==> p in front || p == x
    ensures var ins := InsertByBrep(front, x);
      forall i :: 0 <= i < |ins| ==> ins[i].0 < sorted[|sorted| - 1].0
  {
    var ins := InsertByBrep(front, x);
    forall i | 0 <= i < |ins|
      ensures ins[i].0 < sorted[|sorted| - 1].0
    {
      assert ins[i] in ins;
      if ins[i] != x {
        var j := Position(front, ins[i]);
        assert sorted[j] == ins[i];
      }
    }
  }

  /** The pairs are sorted by brep id and no pair is lost or added. */
  lemma {:induction false} SortByBrepMeaning<K>(pairs: seq<(int, K)>)
    ensures |SortByBrep(pairs)| == |pairs|
    ensures forall p :: p in SortByBrep(pairs) <==> p in pairs
    ensures DistinctBrepIds(pairs) ==> IncreasingBrepIds(SortByBrep(pairs))
  {
    if |pairs| > 0 {
      var front := pairs[..|pairs| - 1];
      var last := pairs[|pairs| - 1];
      assert forall p :: p in pairs <==> p in front || p == last;
      SortByBrepMeaning(front);
      InsertByBrepMeaning(SortByBrep(front), last);
      if DistinctBrepIds(pairs) {
        forall p | p in SortByBrep(front)
          ensures p.0 != last.0
        {
          var j := Position(front, p);
          assert pairs[j] == p;
        }
      }
    }
  }

  /** Each part is either still unmatched (with its properties unchanged)
      or matched exactly once. */
  ghost predicate Accounted<K>(orig: map<int, Props>, s: Search<K>) {
    (forall b :: b in s.brep ==> b in orig && s.brep[b] == orig[b]) &&
    (forall i :: 0 <= i < |s.pairs| ==> s.pairs[i].0 in orig && s.pairs[i].0 !in s.brep) &&
    DistinctBrepIds(s.pairs) &&
    (forall b :: b in orig ==> b in s.brep || exists i :: 0 <= i < |s.pairs| && s.pairs[i].0 == b)
  }

  /** Every shape id recorded is one of `keys`, and none is recorded twice. */
  ghost predicate ShapesRecorded<K>(s: Search<K>, keys: set<K>) {
    (forall i :: 0 <= i < |s.pairs| ==> s.pairs[i].1 in keys) &&
    (forall i :: 0 <= i < |s.remaining| ==> s.remaining[i].0 in keys) &&
    (forall i, j :: 0 <= i < j < |s.pairs| ==> s.pairs[i].1 != s.pairs[j].1) &&
    (forall i, j :: 0 <= i < j < |s.remaining| ==> s.remaining[i].0 != s.remaining[j].0) &&
    (forall i, j :: 0 <= i < |s.pairs| && 0 <= j < |s.remaining| ==> s.pairs[i].1 != s.remaining[j].0)
  }

  ghost function KeysOf<K>(shapes: seq<(K, ShapeValue)>): set<K> {
    set i | 0 <= i < |shapes| :: shapes[i].0
  }

  ghost predicate DistinctKeys<K>(shapes: seq<(K, ShapeValue)>) {
    forall i, j :: 0 <= i < j < |shapes| ==> shapes[i].0 != shapes[j].0
  }

  /** A position of `x` in `s`. */
  ghost function Position<T>(s: seq<T>, x: T): (j: nat)
    requires x in s
    ensures j < |s| && s[j] == x
  {
    if s[0] == x then 0 else 1 + Position(s[1..], x)
  }

  /** Taking an unmatched part out of the dictionary and recording it
      keeps every part accounted for. */
  lemma MatchAccounted<K>(orig: map<int, Props>, s: Search<K>, b: int, key: K)
    requires Accounted(orig, s) && b in s.brep
    ensures Accounted(orig, Search(s.brep - {b}, s.pairs + [(b, key)], s.remaining))
  {
    var n := Search(s.brep - {b}, s.pairs + [(b, key)], s.remaining);
    forall c | c in orig
      ensures c in n.brep || exists i :: 0 <= i < |n.pairs| && n.pairs[i].0 == c
    {
      if c == b {
        assert n.pairs[|s.pairs|].0 == c;
      } else if c !in n.brep {
        var i :| 0 <= i < |s.pairs| && s.pairs[i].0 == c;
        assert n.pairs[i].0 == c;
      }
    }
  }

  lemma StepAccounted<K>(orig: map<int, Props>, s: Search<K>, shape: (K, ShapeValue), tols: Tolerances)
    requires Accounted(orig, s)
    requires Step(s, shape, tols).Ok?
    ensures Accounted(orig, Step(s, shape, tols).value)
  {
    var n := Step(s, shape, tols).value;
    var m := MatchingPartId(s.brep, shape.1.props, tols);
    if |m.value| == 1 {
      var b := n.pairs[|n.pairs| - 1].0;
      assert b in m.value;
      assert n == Search(s.brep - {b}, s.pairs + [(b, shape.0)], s.remaining);
      MatchingPartIdMeaning(s.brep, shape.1.props, tols);
      MatchAccounted(orig, s, b, shape.0);
    }
  }

  lemma StepRecorded<K>(s: Search<K>, shape: (K, ShapeValue), tols: Tolerances, keys: set<K>)
    requires ShapesRecorded(s, keys) && shape.0 !in keys
    requires Step(s, shape, tols).Ok?
    ensures ShapesRecorded(Step(s, shape, tols).value, keys + {shape.0})
  {
  }

  lemma {:induction false} ScanAccounted<K>(orig: map<int, Props>, s: Search<K>, shapes: seq<(K, ShapeValue)>, tols: Tolerances)
    requires Accounted(orig, s)
    requires Scan(s, shapes, tols).Ok?
    ensures Accounted(orig, Scan(s, shapes, tols).value)
    decreases |shapes|
  {
    if |shapes| > 0 {
      StepAccounted(orig, s, shapes[0], tols);
      ScanAccounted(orig, Step(s, shapes[0], tols).value, shapes[1..], tols);
    }
  }

  /** The keys of the shapes after the first. */
  lemma KeysOfRest<K>(shapes: seq<(K, ShapeValue)>)
    requires |shapes| > 0 && DistinctKeys(shapes)
    ensures KeysOf(shapes) == {shapes[0].0} + KeysOf(shapes[1..])
    ensures shapes[0].0 !in KeysOf(shapes[1..])
    ensures DistinctKeys(shapes[1..])
  {
    var rest := shapes[1..];
    forall k | k in KeysOf(shapes)
      ensures k in {shapes[0].0} + KeysOf(rest)
    {
      var j :| 0 <= j < |shapes| && shapes[j].0 == k;
      if j > 0 {
        assert rest[j - 1].0 == k;
      }
    }
    forall k | k in KeysOf(rest)
      ensures k in KeysOf(shapes)
    {
      var j :| 0 <= j < |rest| && rest[j].0 == k;
      assert shapes[j + 1].0 == k;
    }
    forall i, j | 0 <= i < j < |rest|
      ensures rest[i].0 != rest[j].0
    {
      assert rest[i] == shapes[i + 1] && rest[j] == shapes[j + 1];
    }
  }

  lemma {:induction false} ScanRecorded<K>(s: Search<K>, shapes: seq<(K, ShapeValue)>, tols: Tolerances, keys: set<K>)
    requires ShapesRecorded(s, keys) && DistinctKeys(shapes) && keys * KeysOf(shapes) == {}
    requires Scan(s, shapes, tols).Ok?
    ensures ShapesRecorded(Scan(s, shapes, tols).value, keys + KeysOf(shapes))
    decreases |shapes|
  {
    if |shapes| > 0 {
      KeysOfRest(shapes);
      assert shapes[0].0 in KeysOf(shapes);
      StepRecorded(s, shapes[0], tols, keys);
      var keys' := keys + {shapes[0].0};
      ScanRecorded(Step(s, shapes[0], tols).value, shapes[1..], tols, keys');
      assert keys' + KeysOf(shapes[1..]) == keys + KeysOf(shapes);
    }
  }

  lemma LastResortMeaning<K>(orig: map<int, Props>, s: Search<K>, tols: Tolerances, keys: set<K>)
    requires Accounted(orig, s) && ShapesRecorded(s, keys)
    requires LastResort(s, tols).Ok?
    ensures var ps := LastResort(s, tols).value;
      DistinctBrepIds(ps) &&
      (forall i :: 0 <= i < |ps| ==> ps[i].0 in orig && ps[i].1 in keys) &&
      (forall i, j :: 0 <= i < j < |ps| ==> ps[i].1 != ps[j].1)
  {
  }

  lemma {:induction false} NotADictRaisesInScan<K>(s: Search<K>, shapes: seq<(K, ShapeValue)>, tols: Tolerances, j: nat)
    requires j < |shapes| && shapes[j].1.NotADict?
    ensures Scan(s, shapes, tols).Err?
    decreases |shapes|
  {
    if j > 0 && Step(s, shapes[0], tols).Ok? {
      NotADictRaisesInScan(Step(s, shapes[0], tols).value, shapes[1..], tols, j - 1);
    }
  }

  /** A shape whose properties are not a dictionary makes the whole call
      raise, whatever comes before it. */
  lemma NotADictRaises<K>(brep: map<int, Props>, shapes: seq<(K, ShapeValue)>, tols: Tolerances, j: nat)
    requires j < |shapes| && shapes[j].1.NotADict?
    ensures MatchingPartIds(brep, shapes, tols).Err?
  {
    NotADictRaisesInScan(Search(brep, [], []), shapes, tols, j);
  }

  /** The loop over `shapes` is the loop over its first `j` shapes followed
      by the loop over the rest. */
  lemma {:induction false} ScanSplit<K>(s: Search<K>, shapes: seq<(K, ShapeValue)>, tols: Tolerances, j: nat)
    requires j <= |shapes|
    decreases j
    ensures Scan(s, shapes, tols) ==
      var p := Scan(s, shapes[..j], tols);
      if p.Err? then p else Scan(p.value, shapes[j..], tols)
  {
    if j == 0 {
      assert shapes[..0] == [];
      assert shapes[0..] == shapes;
    } else {
      assert shapes[..j][0] == shapes[0];
      assert shapes[..j][1..] == shapes[1..][..j - 1];
      assert shapes[1..][j - 1..] == shapes[j..];
      var n := Step(s, shapes[0], tols);
      if n.Ok? {
        ScanSplit(n.value, shapes[1..], tols, j - 1);
      }
    }
  }

  /** Pairs once found are never dropped by the rest of the loop. */
  lemma {:induction false} ScanKeepsPairs<K>(s: Search<K>, shapes: seq<(K, ShapeValue)>, tols: Tolerances)
    decreases |shapes|
    ensures Scan(s, shapes, tols).Ok? ==> forall p :: p in s.pairs ==> p in Scan(s, shapes, tols).value.pairs
  {
    if |shapes| > 0 {
      var n := Step(s, shapes[0], tols);
      if n.Ok? {
        assert forall p :: p in s.pairs ==> p in n.value.pairs;
        ScanKeepsPairs(n.value, shapes[1..], tols);
      }
    }
  }

  /** The last-resort step and the sort keep every pair the loop found. */
  lemma ResultKeepsPairs<K>(s: Search<K>, tols: Tolerances, p: (int, K))
    requires p in s.pairs && LastResort(s, tols).Ok?
    ensures p in SortByBrep(LastResort(s, tols).value)
  {
    SortByBrepMeaning(LastResort(s, tols).value);
  }

  /** A shape whose own query raises, or is matched by several of the parts
      still unmatched at its turn, makes the whole call raise that error or
      "multiple matching volumes". */
  lemma MatchErrorsRaise<K>(brep: map<int, Props>, shapes: seq<(K, ShapeValue)>, tols: Tolerances,
                            j: nat, s: Search<K>)
    requires j < |shapes| && shapes[j].1.ShapeDict?
    requires Scan(Search(brep, [], []), shapes[..j], tols) == Ok(s)
    ensures var m := MatchingPartId(s.brep, shapes[j].1.props, tols);
      && (m.Err? ==> MatchingPartIds(brep, shapes, tols) == Err(m.error))
      && (m.Ok? && |m.value| > 1 ==> MatchingPartIds(brep, shapes, tols) == Err(MultipleMatches))
  {
    ScanSplit(Search(brep, [], []), shapes, tols, j);
    assert shapes[j..][0] == shapes[j];
  }

  /** A shape matched by exactly one of the parts still unmatched at its
      turn is paired with that part in the result. */
  lemma UniqueMatchPaired<K>(brep: map<int, Props>, shapes: seq<(K, ShapeValue)>, tols: Tolerances,
                             j: nat, s: Search<K>, b: int)
    requires j < |shapes| && shapes[j].1.ShapeDict?
    requires Scan(Search(brep, [], []), shapes[..j], tols) == Ok(s)
    requires MatchingPartId(s.brep, shapes[j].1.props, tols) == Ok({b})
    ensures MatchingPartIds(brep, shapes, tols).Ok? ==> (b, shapes[j].0) in MatchingPartIds(brep, shapes, tols).value
  {
    ScanSplit(Search(brep, [], []), shapes, tols, j);
    var rest := shapes[j..];
    assert rest[0] == shapes[j];
    StepPaired(s, shapes[j].0, shapes[j].1.props, tols, b);
    var n := Search(s.brep - {b}, s.pairs + [(b, shapes[j].0)], s.remaining);
    assert Scan(s, rest, tols) == Scan(n, rest[1..], tols);
    ScanKeepsPairs(n, rest[1..], tols);
    var f := Scan(n, rest[1..], tols);
    if f.Ok? && LastResort(f.value, tols).Ok? {
      ResultKeepsPairs(f.value, tols, (b, shapes[j].0));
    }
  }

  /** When the loop leaves exactly one part `b` and one shape, the call
      raises KeyError if the shape lacks a bounding-box entry, raises what
      the check on its remaining properties raises, and otherwise pairs `b`
      with that shape. */
  lemma LastResortOutcome<K>(brep: map<int, Props>, shapes: seq<(K, ShapeValue)>, tols: Tolerances,
                             s: Search<K>, b: int)
    requires Scan(Search(brep, [], []), shapes, tols) == Ok(s)
    requires s.brep.Keys == {b} && |s.remaining| == 1
    ensures var props := s.remaining[0].1;
      var probe := MatchingPartId(s.brep, props - BoundingBoxNames, tols);
      && (!(BoundingBoxNames <= props.Keys) ==> MatchingPartIds(brep, shapes, tols) == Err(MissingBoundingBox))
      && (BoundingBoxNames <= props.Keys && probe.Err? ==> MatchingPartIds(brep, shapes, tols) == Err(probe.error))
      && (BoundingBoxNames <= props.Keys && probe.Ok? ==>
            MatchingPartIds(brep, shapes, tols).Ok? && (b, s.remaining[0].0) in MatchingPartIds(brep, shapes, tols).value)
  {
    assert |s.brep.Keys| == 1;
    var props := s.remaining[0].1;
    if BoundingBoxNames <= props.Keys && MatchingPartId(s.brep, props - BoundingBoxNames, tols).Ok? {
      assert LastResort(s, tols) == Ok(s.pairs + [(b, s.remaining[0].0)]);
      SortByBrepMeaning(LastResort(s, tols).value);
    }
  }

  /** Pair `p` is the one a shape gives at its own turn of the loop started
      in state `s`: exactly one part still unmatched at that turn matches
      the shape. */
  ghost predicate FoundFrom<K>(s: Search<K>, shapes: seq<(K, ShapeValue)>, tols: Tolerances, p: (int, K)) {
    exists j ::
      && 0 <= j < |shapes| && shapes[j].1.ShapeDict?
      && Scan(s, shapes[..j], tols).Ok?
      && MatchingPartId(Scan(s, shapes[..j], tols).value.brep, shapes[j].1.props, tols) == Ok({p.0})
      && p.1 == shapes[j].0
  }

  /** Pair `p` is the last-resort pair: the loop leaves exactly one part,
      `p.0`, and one shape, `p.1`. */
  ghost predicate LeftoverPair<K>(brep: map<int, Props>, shapes: seq<(K, ShapeValue)>, tols: Tolerances, p: (int, K)) {
    var f := Scan(Search(brep, [], []), shapes, tols);
    && f.Ok? && |f.value.brep.Keys| == 1 && |f.value.remaining| == 1
    && p.0 in f.value.brep && p.1 == f.value.remaining[0].0
  }

  /** One shape adds at most one pair: the single part matching it. */
  lemma StepPairsFound<K>(s: Search<K>, shape: (K, ShapeValue), tols: Tolerances)
    ensures Step(s, shape, tols).Ok? ==>
      forall p :: p in Step(s, shape, tols).value.pairs ==>
        p in s.pairs || (shape.1.ShapeDict? && MatchingPartId(s.brep, shape.1.props, tols) == Ok({p.0}) && p.1 == shape.0)
  {
    var n := Step(s, shape, tols);
    if n.Ok? {
      var m := MatchingPartId(s.brep, shape.1.props, tols);
      if |m.value| == 1 {
        HasElement(m.value);
        var b :| b in m.value;
        SingletonSet(m.value, b);
      }
    }
  }

  /** Every pair the loop holds at its end was held at its start or was
      given by a shape at its own turn. */
  lemma {:induction false} ScanPairsFound<K>(s: Search<K>, shapes: seq<(K, ShapeValue)>, tols: Tolerances)
    decreases |shapes|
    ensures Scan(s, shapes, tols).Ok? ==>
      forall p :: p in Scan(s, shapes, tols).value.pairs ==> p in s.pairs || FoundFrom(s, shapes, tols, p)
  {
    if |shapes| > 0 && Step(s, shapes[0], tols).Ok? {
      var n := Step(s, shapes[0], tols).value;
      StepPairsFound(s, shapes[0], tols);
      ScanPairsFound(n, shapes[1..], tols);
      if Scan(s, shapes, tols).Ok? {
        forall p | p in Scan(s, shapes, tols).value.pairs && p !in s.pairs
          ensures FoundFrom(s, shapes, tols, p)
        {
          if p in n.pairs {
            assert shapes[..0] == [];
            assert FoundFrom(s, shapes, tols, p) by {
              assert 0 < |shapes| && Scan(s, shapes[..0], tols) == Ok(s);
            }
          } else {
            var j :| && 0 <= j < |shapes[1..]| && shapes[1..][j].1.ShapeDict?
                     && Scan(n, shapes[1..][..j], tols).Ok?
                     && MatchingPartId(Scan(n, shapes[1..][..j], tols).value.brep, shapes[1..][j].1.props, tols) == Ok({p.0})
                     && p.1 == shapes[1..][j].0;
            ShiftTurn(s, shapes, tols, j);
          }
        }
      }
    }
  }

  /** Turn `j` of the loop over `shapes[1..]`, started after the first shape,
      is turn `j + 1` of the loop over `shapes`. */
  lemma ShiftTurn<K>(s: Search<K>, shapes: seq<(K, ShapeValue)>, tols: Tolerances, j: nat)
    requires 0 <= j < |shapes| - 1 && Step(s, shapes[0], tols).Ok?
    ensures shapes[j + 1] == shapes[1..][j]
    ensures Scan(s, shapes[..j + 1], tols) == Scan(Step(s, shapes[0], tols).value, shapes[1..][..j], tols)
  {
    assert shapes[..j + 1][0] == shapes[0];
    assert shapes[..j + 1][1..] == shapes[1..][..j];
  }

  /** The last-resort step and the sort add at most the pair of the one
      part and the one shape left over. */
  lemma LastResortPairs<K>(f: Search<K>, tols: Tolerances, p: (int, K))
    requires LastResort(f, tols).Ok? && p in SortByBrep(LastResort(f, tols).value)
    ensures p in f.pairs || (|f.brep.Keys| == 1 && |f.remaining| == 1 && p.0 in f.brep && p.1 == f.remaining[0].0)
  {
    SortByBrepMeaning(LastResort(f, tols).value);
  }

  /** The converse of `UniqueMatchPaired` and `LastResortOutcome`: every
      pair of a result is either the pair a shape gives at its own turn,
      matched by exactly one part still unmatched then, or the last-resort
      pair. A shape matched by no part at its turn therefore ends up paired
      only by the last resort. */
  lemma ResultPairsFound<K>(brep: map<int, Props>, shapes: seq<(K, ShapeValue)>, tols: Tolerances)
    ensures MatchingPartIds(brep, shapes, tols).Ok? ==>
      forall p :: p in MatchingPartIds(brep, shapes, tols).value ==>
        FoundFrom(Search(brep, [], []), shapes, tols, p) || LeftoverPair(brep, shapes, tols, p)
  {
    var s0: Search<K> := Search(brep, [], []);
    var f := Scan(s0, shapes, tols);
    if f.Ok? && LastResort(f.value, tols).Ok? {
      ScanPairsFound(s0, shapes, tols);
      forall p | p in SortByBrep(LastResort(f.value, tols).value)
        ensures FoundFrom(s0, shapes, tols, p) || LeftoverPair(brep, shapes, tols, p)
      {
        LastResortPairs(f.value, tols, p);
      }
    }
  }


  /** Sorting keeps the facts about each pair and makes the brep ids
      increasing. */
  lemma SortedPairs<K>(pairs: seq<(int, K)>, brep: map<int, Props>, keys: set<K>)
    requires DistinctBrepIds(pairs)
    requires forall i :: 0 <= i < |pairs| ==> pairs[i].0 in brep && pairs[i].1 in keys
    requires forall i, j :: 0 <= i < j < |pairs| ==> pairs[i].1 != pairs[j].1
    ensures var ps := SortByBrep(pairs);
      IncreasingBrepIds(ps) &&
      (forall i :: 0 <= i < |ps| ==> ps[i].0 in brep && ps[i].1 in keys) &&
      (forall i, j :: 0 <= i < j < |ps| ==> ps[i].1 != ps[j].1)
  {
    SortByBrepMeaning(pairs);
    var ps := SortByBrep(pairs);
    forall i | 0 <= i < |ps|
      ensures ps[i].0 in brep && ps[i].1 in keys
    {
      assert ps[i] in ps;
      var k := Position(pairs, ps[i]);
    }
    forall i, j | 0 <= i < j < |ps|
      ensures ps[i].1 != ps[j].1
    {
      assert ps[i] in ps && ps[j] in ps;
      var a := Position(pairs, ps[i]);
      var b := Position(pairs, ps[j]);
      assert a != b;
    }
  }

  /** get_matching_part_ids returns pairs sorted by brep id, no part twice
      and no shape twice, each pairing a part of the BREP with one of the
      shapes given. */
  lemma MatchingPartIdsMeaning<K>(brep: map<int, Props>, shapes: seq<(K, ShapeValue)>, tols: Tolerances)
    requires DistinctKeys(shapes)
    ensures MatchingPartIds(brep, shapes, tols).Ok? ==>
      var ps := MatchingPartIds(brep, shapes, tols).value;
      IncreasingBrepIds(ps) &&
      (forall i :: 0 <= i < |ps| ==> ps[i].0 in brep && ps[i].1 in KeysOf(shapes)) &&
      (forall i, j :: 0 <= i < j < |ps| ==> ps[i].1 != ps[j].1)
  {
    var s0 := Search(brep, [], []);
    var sc := Scan(s0, shapes, tols);
    if sc.Ok? {
      ScanAccounted(brep, s0, shapes, tols);
      ScanRecorded(s0, shapes, tols, {});
      assert {} + KeysOf(shapes) == KeysOf(shapes);
      var l := LastResort(sc.value, tols);
      if l.Ok? {
        LastResortMeaning(brep, sc.value, tols, KeysOf(shapes));
        SortedPairs(l.value, brep, KeysOf(shapes));
      }
    }
  }

  /** A query on `center_x` alone keeps the parts close on it, and raises
      "No matching part found" when there are none. */
  lemma CenterXQuery(brep: map<int, Props>, x: real, tols: Tolerances)
    requires forall k :: k in brep ==> "center_x" in brep[k]
    ensures var m := Matching(brep, "center_x", x, tols.center);
      MatchingPartId(brep, map["center_x" := x], tols) == if m == {} then Err(NoMatchingPart) else Ok(m)
  {
    var q := map["center_x" := x];
    assert PropertyNames[0] == "center_x";
    assert q.Keys <= PropertyNameSet;
    assert !Lacks(brep, q);
    var m := Matching(brep, "center_x", x, tols.center);
    assert MatchLists(brep, q, tols, 1) == if m == {} then [] else [m];
    forall n | 1 <= n <= |PropertyNames|
      ensures MatchLists(brep, q, tols, n) == MatchLists(brep, q, tols, 1)
    {
      MatchListsTail(brep, q, tols, n);
    }
  }

  lemma {:induction false} MatchListsTail(brep: map<int, Props>, q: Props, tols: Tolerances, n: nat)
    requires q.Keys == {"center_x"} && 1 <= n <= |PropertyNames|
    ensures MatchLists(brep, q, tols, n) == MatchLists(brep, q, tols, 1)
  {
    if n > 1 {
      assert PropertyNames[n - 1] != "center_x";
      MatchListsTail(brep, q, tols, n - 1);
    }
  }

  /** A shape that exactly one remaining part matches is paired with it. */
  lemma StepPaired<K>(s: Search<K>, shapeId: K, props: Props, tols: Tolerances, b: int)
    requires MatchingPartId(s.brep, props, tols) == Ok({b})
    ensures Step(s, (shapeId, ShapeDict(props)), tols) == Ok(Search(s.brep - {b}, s.pairs + [(b, shapeId)], s.remaining))
  {
  }

  /** The parts and shapes of `test_get_matching_part_ids_order`, with the
      default tolerances: each shape's `center_x` is close to exactly one
      part's. */
  const OrderBrep: map<int, Props> :=
    map[1 := map["center_x" := 2.4], 2 := map["center_x" := 4.2], 3 := map["center_x" := 4.1]]
  const OrderShapes: seq<(int, ShapeValue)> :=
    [(1, ShapeDict(map["center_x" := 4.1])), (2, ShapeDict(map["center_x" := 4.2])), (3, ShapeDict(map["center_x" := 2.4]))]
  const OrderTols: Tolerances := Tolerances(0.000001, 0.000001, 0.000001)

  /** A shape with only `center_x` that is close to the `center_x` of
      exactly one remaining part is paired with that part. */
  lemma CenterXStep(s: Search<int>, shapeId: int, x: real, tols: Tolerances, b: int)
    requires forall k :: k in s.brep ==> "center_x" in s.brep[k]
    requires Matching(s.brep, "center_x", x, tols.center) == {b}
    ensures Step(s, (shapeId, ShapeDict(map["center_x" := x])), tols) ==
      Ok(Search(s.brep - {b}, s.pairs + [(b, shapeId)], s.remaining))
  {
    CenterXQuery(s.brep, x, tols);
    StepPaired(s, shapeId, map["center_x" := x], tols, b);
  }

  lemma OrderStep1()
    ensures Step(Search(OrderBrep, [], []), OrderShapes[0], OrderTols) ==
      Ok(Search(map[1 := map["center_x" := 2.4], 2 := map["center_x" := 4.2]], [(3, 1)], []))
  {
    assert Matching(OrderBrep, "center_x", 4.1, OrderTols.center) == {3};
    CenterXStep(Search(OrderBrep, [], []), 1, 4.1, OrderTols, 3);
    assert OrderShapes[0] == (1, ShapeDict(map["center_x" := 4.1]));
    assert [] + [(3, 1)] == [(3, 1)];
    assert OrderBrep - {3} == map[1 := map["center_x" := 2.4], 2 := map["center_x" := 4.2]];
  }

  lemma OrderStep2()
    ensures Step(Search(map[1 := map["center_x" := 2.4], 2 := map["center_x" := 4.2]], [(3, 1)], []), OrderShapes[1], OrderTols) ==
      Ok(Search(map[1 := map["center_x" := 2.4]], [(3, 1), (2, 2)], []))
  {
    var s1: Search<int> := Search(map[1 := map["center_x" := 2.4], 2 := map["center_x" := 4.2]], [(3, 1)], []);
    assert Matching(s1.brep, "center_x", 4.2, OrderTols.center) == {2};
    CenterXStep(s1, 2, 4.2, OrderTols, 2);
    assert OrderShapes[1] == (2, ShapeDict(map["center_x" := 4.2]));
    assert [(3, 1)] + [(2, 2)] == [(3, 1), (2, 2)];
    assert s1.brep - {2} == map[1 := map["center_x" := 2.4]];
  }

  lemma OrderStep3()
    ensures Step(Search(map[1 := map["center_x" := 2.4]], [(3, 1), (2, 2)], []), OrderShapes[2], OrderTols) ==
      Ok(Search(map[], [(3, 1), (2, 2), (1, 3)], []))
  {
    var s2: Search<int> := Search(map[1 := map["center_x" := 2.4]], [(3, 1), (2, 2)], []);
    assert Matching(s2.brep, "center_x", 2.4, OrderTols.center) == {1};
    CenterXStep(s2, 3, 2.4, OrderTols, 1);
    assert OrderShapes[2] == (3, ShapeDict(map["center_x" := 2.4]));
    assert [(3, 1), (2, 2)] + [(1, 3)] == [(3, 1), (2, 2), (1, 3)];
    assert s2.brep - {1} == map[];
  }

  lemma OrderScan()
    ensures Scan(Search(OrderBrep, [], []), OrderShapes, OrderTols) == Ok(Search(map[], [(3, 1), (2, 2), (1, 3)], []))
  {
    OrderStep1();
    OrderStep2();
    OrderStep3();
    var shapes := OrderShapes;
    var s3: Search<int> := Search(map[], [(3, 1), (2, 2), (1, 3)], []);
    assert Scan(s3, shapes[1..][1..][1..], OrderTols) == Ok(s3);
    assert Scan(Search(map[1 := map["center_x" := 2.4]], [(3, 1), (2, 2)], []), shapes[1..][1..], OrderTols) == Ok(s3);
  }

  lemma OrderSort()
    ensures SortByBrep([(3, 1), (2, 2), (1, 3)]) == [(1, 3), (2, 2), (3, 1)]
  {
    var q: seq<(int, int)> := [(3, 1), (2, 2), (1, 3)];
    assert q[..2][..1] == [(3, 1)];
    assert SortByBrep(q[..2][..1]) == [(3, 1)];
    assert InsertByBrep([(3, 1)], (2, 2)) == [(2, 2), (3, 1)];
    assert SortByBrep(q[..2]) == [(2, 2), (3, 1)];
    assert InsertByBrep([(2, 2)], (1, 3)) == [(1, 3), (2, 2)];
    assert InsertByBrep([(2, 2), (3, 1)], (1, 3)) == [(1, 3), (2, 2), (3, 1)];
  }

  /** `test_get_matching_part_ids_order`: the pairs come back sorted by
      brep id, not in the order the shapes were matched. */
  lemma MatchingPartIdsOrderExample()
    ensures MatchingPartIds(OrderBrep, OrderShapes, OrderTols) == Ok([(1, 3), (2, 2), (3, 1)])
  {
    OrderScan();
    var s3: Search<int> := Search(map[], [(3, 1), (2, 2), (1, 3)], []);
    assert LastResort(s3, OrderTols) == Ok(s3.pairs);
    OrderSort();
  }
}
