/** Sequence and map facts shared by the schema model: the name->position map
    that a Rust `collect::<HashMap<_, _>>()` or a run of `HashMap::insert`
    builds from an enumerated sequence, and the ascending sort that
    `Vec::sort` performs on column ids. */
module Collections {

  /** No element occurs twice. */
  predicate Distinct<T(==)>(s: seq<T>)
  {
    forall i, j :: 0 <= i < j < |s| ==> s[i] != s[j]
  }

  /** The map obtained by inserting `(s[i], i)` for `i = 0, 1, ...` in turn,
      so that a later occurrence of an element overwrites an earlier one. */
  function LastIndex<T(==)>(s: seq<T>): map<T, nat>
  {
    if |s| == 0 then map[] else LastIndex(s[..|s| - 1])[s[|s| - 1] := |s| - 1]
  }

  /** The keys of `LastIndex(s)` are exactly the elements of `s`, every value is
      an in-bounds position holding its key, and no later position holds it. */
  lemma {:induction false} LastIndexSpec<T>(s: seq<T>)
    ensures forall x :: x in LastIndex(s) <==> x in s
    ensures forall x :: x in LastIndex(s) ==> LastIndex(s)[x] < |s| && s[LastIndex(s)[x]] == x
    ensures forall x, j :: x in LastIndex(s) && LastIndex(s)[x] < j < |s| ==> s[j] != x
  {
    if |s| > 0 {
      var t := s[..|s| - 1];
      assert s == t + [s[|s| - 1]];
      LastIndexSpec(t);
    }
  }

  /** With no repeated element, each element is mapped to its own position. */
  lemma LastIndexOfDistinct<T>(s: seq<T>)
    requires Distinct(s)
    ensures forall i :: 0 <= i < |s| ==> s[i] in LastIndex(s) && LastIndex(s)[s[i]] == i
  {
    LastIndexSpec(s);
    forall i | 0 <= i < |s|
      ensures s[i] in LastIndex(s) && LastIndex(s)[s[i]] == i
    {
      var p := LastIndex(s)[s[i]];
      assert s[p] == s[i];
    }
  }

  /** Over a sorted sequence the last-position map is strictly monotone:
      a smaller key sits at a smaller position. */
  lemma LastIndexMonotone(s: seq<nat>)
    requires Sorted(s)
    ensures forall a, b :: a in LastIndex(s) && b in LastIndex(s) && a < b ==> LastIndex(s)[a] < LastIndex(s)[b]
  {
    LastIndexSpec(s);
  }

  predicate Sorted(s: seq<nat>)
  {
    forall i, j :: 0 <= i < j < |s| ==> s[i] <= s[j]
  }

  /** Inserts `x` into a sorted sequence, keeping it sorted. */
  function Insert(x: nat, s: seq<nat>): (r: seq<nat>)
    requires Sorted(s)
    ensures Sorted(r) && multiset(r) == multiset(s) + multiset{x}
  {
    if |s| == 0 || x <= s[0] then
      [x] + s
    else
      var rest := Insert(x, s[1..]);
      InsertAfterHead(x, s, rest);
      [s[0]] + rest
  }

  lemma InsertAfterHead(x: nat, s: seq<nat>, rest: seq<nat>)
    requires Sorted(s) && |s| > 0 && s[0] < x
    requires Sorted(rest) && multiset(rest) == multiset(s[1..]) + multiset{x}
    ensures Sorted([s[0]] + rest)
    ensures multiset([s[0]] + rest) == multiset(s) + multiset{x}
  {
    assert s == [s[0]] + s[1..];
    forall y | y in rest
      ensures s[0] <= y
    {
      assert y in multiset(rest);
    }
    var r := [s[0]] + rest;
    forall i, j | 0 <= i < j < |r|
      ensures r[i] <= r[j]
    {
      if i == 0 {
        assert r[j] == rest[j - 1] && rest[j - 1] in rest;
      } else {
        assert r[i] == rest[i - 1] && r[j] == rest[j - 1];
      }
    }
  }

  /** Ascending sort: the result is sorted and a permutation of the input. */
  function Sort(s: seq<nat>): (r: seq<nat>)
    ensures Sorted(r) && multiset(r) == multiset(s)
  {
    if |s| == 0 then
      []
    else
      assert s == [s[0]] + s[1..];
      Insert(s[0], Sort(s[1..]))
  }

  lemma {:induction false} InsertDistinct(x: nat, s: seq<nat>)
    requires Sorted(s) && Distinct(s) && x !in s
    ensures Distinct(Insert(x, s))
  {
    if |s| > 0 && x > s[0] {
      assert s == [s[0]] + s[1..];
      InsertDistinct(x, s[1..]);
      var rest := Insert(x, s[1..]);
      assert s[0] !in multiset(rest);
    }
  }

  /** Sorting a sequence without repetitions yields one without repetitions. */
  lemma {:induction false} SortDistinct(s: seq<nat>)
    requires Distinct(s)
    ensures Distinct(Sort(s))
  {
    if |s| > 0 {
      assert s == [s[0]] + s[1..];
      SortDistinct(s[1..]);
      assert s[0] !in multiset(Sort(s[1..]));
      InsertDistinct(s[0], Sort(s[1..]));
    }
  }

  /** The map from each element of `s` to its last position once `s` is
      sorted: its keys are the elements of `s`, its values are positions below
      `|s|`, it is strictly monotone, and when `s` has no repetition every
      position below `|s|` is used. */
  lemma RankMapSpec(s: seq<nat>)
    ensures forall x :: x in LastIndex(Sort(s)) <==> x in s
    ensures forall x :: x in LastIndex(Sort(s)) ==> LastIndex(Sort(s))[x] < |s|
    ensures forall a, b :: a in LastIndex(Sort(s)) && b in LastIndex(Sort(s)) && a < b ==>
              LastIndex(Sort(s))[a] < LastIndex(Sort(s))[b]
    ensures Distinct(s) ==> forall k :: 0 <= k < |s| ==> k in LastIndex(Sort(s)).Values
  {
    var sorted := Sort(s);
    var m := LastIndex(sorted);
    assert |sorted| == |multiset(sorted)| == |multiset(s)| == |s|;
    LastIndexSpec(sorted);
    LastIndexMonotone(sorted);
    forall x
      ensures x in m <==> x in s
    {
      assert x in sorted <==> x in multiset(sorted);
      assert x in s <==> x in multiset(s);
    }
    if Distinct(s) {
      RankMapCovers(s);
    }
  }

  /** With distinct ids, every position of the sorted list is some id's value. */
  lemma RankMapCovers(s: seq<nat>)
    requires Distinct(s)
    ensures forall k :: 0 <= k < |s| ==> k in LastIndex(Sort(s)).Values
  {
    var sorted := Sort(s);
    var m := LastIndex(sorted);
    assert |sorted| == |multiset(sorted)| == |multiset(s)| == |s|;
    SortDistinct(s);
    LastIndexOfDistinct(sorted);
    LastIndexSpec(sorted);
    forall k | 0 <= k < |s|
      ensures k in m.Values
    {
      assert m[sorted[k]] == k;
    }
  }
}
