/** Sequence helpers shared by the model: Python's `sorted` on a set of
    integers, `list.index`, contiguous ranges, and the "inclusive end index"
    encoding that MOAB's set table uses to cut one flat array into one block
    per entity set. */
module Seqs {

  predicate Distinct<T(==)>(s: seq<T>) {
    forall i, j :: 0 <= i < j < |s| ==> s[i] != s[j]
  }

  predicate StrictlyIncreasing(s: seq<int>) {
    forall i, j :: 0 <= i < j < |s| ==> s[i] < s[j]
  }

  /** A non-empty set has an element (stated on its own so that choosing one
      does not depend on the solver's set axioms). */
  lemma HasElement(s: set<int>)
    requires s != {}
    ensures exists x :: x in s
  {
    if forall x :: x !in s {
      assert false;
    }
  }

  predicate IsMin(s: set<int>, m: int) {
    m in s && forall y :: y in s ==> m <= y
  }

  lemma MinExists(s: set<int>)
    requires s != {}
    ensures exists m :: IsMin(s, m)
    decreases |s|
  {
    HasElement(s);
    var x :| x in s;
    var rest := s - {x};
    if rest == {} {
      assert s == {x};
      assert IsMin(s, x);
    } else {
      MinExists(rest);
      var m :| IsMin(rest, m);
      assert forall y :: y in s ==> y == x || y in rest;
      if x < m { assert IsMin(s, x); } else { assert IsMin(s, m); }
    }
  }

  /** Python's `sorted(s)` for a set of integers: the elements of `s`, each
      once, in ascending order. */
  function SortedInts(s: set<int>): (r: seq<int>)
    ensures |r| == |s|
    ensures forall i :: 0 <= i < |r| ==> r[i] in s
    ensures forall x :: x in s ==> x in r
    ensures StrictlyIncreasing(r)
    decreases |s|
  {
    if s == {} then []
    else
      MinExists(s);
      var m :| IsMin(s, m);
      var rest := SortedInts(s - {m});
      SortedCons(s, m, rest);
      [m] + rest
  }

  /** Putting the minimum in front of the sorted rest sorts the whole set. */
  lemma SortedCons(s: set<int>, m: int, rest: seq<int>)
    requires IsMin(s, m)
    requires |rest| == |s - {m}|
    requires forall i :: 0 <= i < |rest| ==> rest[i] in s - {m}
    requires forall x :: x in s - {m} ==> x in rest
    requires StrictlyIncreasing(rest)
    ensures |[m] + rest| == |s|
    ensures forall i :: 0 <= i < |[m] + rest| ==> ([m] + rest)[i] in s
    ensures forall x :: x in s ==> x in [m] + rest
    ensures StrictlyIncreasing([m] + rest)
  {
    assert s == (s - {m}) + {m};
    assert forall i :: 0 <= i < |rest| ==> m < rest[i];
  }

  /** Python's `list.index(x)`: the first position of `x`, or `|s|` when
      `x` does not occur (where Python raises). */
  function IndexOf<T(==)>(s: seq<T>, x: T): (k: nat)
    ensures k <= |s|
    ensures k < |s| ==> s[k] == x
    ensures k == |s| <==> x !in s
    ensures forall j :: 0 <= j < k ==> s[j] != x
  {
    if |s| == 0 then 0
    else if s[0] == x then 0
    else 1 + IndexOf(s[1..], x)
  }

  lemma IndexOfDistinct<T>(s: seq<T>, k: int)
    requires Distinct(s) && 0 <= k < |s|
    ensures IndexOf(s, s[k]) == k
  {
  }

  /** `range(start, start + n)` */
  function Range(start: int, n: nat): seq<int> {
    seq(n, i requires 0 <= i < n => start + i)
  }

  lemma InRange(start: int, n: nat, x: int)
    ensures x in Range(start, n) <==> start <= x < start + n
  {
    if start <= x < start + n {
      assert Range(start, n)[x - start] == x;
    }
  }

  /** Two adjacent runs make one run. */
  lemma RangeConcat(start: int, a: nat, b: nat)
    ensures Range(start, a) + Range(start + a, b) == Range(start, a + b)
  {
  }

  /** Each element plus `d` (Python's `[v + d for v in s]`). */
  function Shift(s: seq<int>, d: int): seq<int> {
    seq(|s|, i requires 0 <= i < |s| => s[i] + d)
  }

  // ---------------------------------------------------------------------
  // Inclusive end-index encoding
  // ---------------------------------------------------------------------

  /** The blocks laid end to end, first block first. */
  function Concat(bs: seq<seq<int>>): seq<int> {
    if |bs| == 0 then [] else Concat(bs[..|bs| - 1]) + bs[|bs| - 1]
  }

  /** Entry `j` is the index of the last element of block `j` in
      `Concat(bs)`; an empty block repeats the previous end (and a leading run
      of empty blocks stores -1). */
  function Ends(bs: seq<seq<int>>): seq<int> {
    seq(|bs|, j requires 0 <= j < |bs| => |Concat(bs[..j + 1])| - 1)
  }

  /** Where block `j` begins, read back from the end indices alone. */
  function BlockStart(ends: seq<int>, j: int): int
    requires 0 <= j < |ends|
  {
    if j == 0 then 0 else ends[j - 1] + 1
  }

  /** What a reader of the set table recovers as block `j`. */
  function Decoded(data: seq<int>, ends: seq<int>, j: int): seq<int>
    requires 0 <= j < |ends|
    requires 0 <= BlockStart(ends, j) <= ends[j] + 1 <= |data|
  {
    data[BlockStart(ends, j)..ends[j] + 1]
  }

  lemma {:induction false} ConcatAppend(a: seq<seq<int>>, b: seq<seq<int>>)
    ensures Concat(a + b) == Concat(a) + Concat(b)
    decreases |b|
  {
    if |b| == 0 {
      assert a + b == a;
    } else {
      var b' := b[..|b| - 1];
      assert (a + b)[..|a + b| - 1] == a + b';
      ConcatAppend(a, b');
    }
  }

  /** `n` empty blocks. */
  function Empties(n: nat): (bs: seq<seq<int>>)
    ensures |bs| == n && forall i :: 0 <= i < n ==> bs[i] == []
  {
    if n == 0 then [] else Empties(n - 1) + [[]]
  }

  lemma {:induction false} ConcatOfEmpties(n: nat)
    ensures Concat(Empties(n)) == []
  {
    if n > 0 {
      assert Empties(n)[..n - 1] == Empties(n - 1);
      ConcatOfEmpties(n - 1);
    }
  }

  lemma ConcatPrefix(bs: seq<seq<int>>, j: nat)
    requires j < |bs|
    ensures Concat(bs[..j + 1]) == Concat(bs[..j]) + bs[j]
  {
    assert bs[..j + 1][..j] == bs[..j];
  }

  /** The end indices that `Ends` stores decode back to every block: the
      encoding is lossless. */
  lemma EndIndexRoundTrip(bs: seq<seq<int>>, j: nat)
    requires j < |bs|
    ensures |Ends(bs)| == |bs|
    ensures 0 <= BlockStart(Ends(bs), j) <= Ends(bs)[j] + 1 <= |Concat(bs)|
    ensures Decoded(Concat(bs), Ends(bs), j) == bs[j]
  {
    var ends := Ends(bs);
    var before := Concat(bs[..j]);
    ConcatPrefix(bs, j);
    if j > 0 {
      ConcatPrefix(bs, j - 1);
      assert bs[..j - 1 + 1] == bs[..j];
      assert BlockStart(ends, j) == |before|;
    }
    assert bs == bs[..j + 1] + bs[j + 1..];
    ConcatAppend(bs[..j + 1], bs[j + 1..]);
    assert Concat(bs) == before + bs[j] + Concat(bs[j + 1..]);
  }

  /** The end indices never decrease, stay at or above -1, and the last one
      is the index of the last element of the whole array. */
  lemma EndsMonotone(bs: seq<seq<int>>, i: nat, j: nat)
    requires i <= j < |bs|
    ensures -1 <= Ends(bs)[i] <= Ends(bs)[j] <= |Concat(bs)| - 1
    ensures j == |bs| - 1 ==> Ends(bs)[j] == |Concat(bs)| - 1
  {
    assert bs[..j + 1] == bs[..i + 1] + bs[i + 1..j + 1];
    ConcatAppend(bs[..i + 1], bs[i + 1..j + 1]);
    assert bs == bs[..j + 1] + bs[j + 1..];
    ConcatAppend(bs[..j + 1], bs[j + 1..]);
  }
}
