/** Comparing and searching the items of a header map, in which the order of names must not matter. */
module HeaderViews {
  import opened Headers
  import opened Lists
  import Grouping

  ghost predicate TotalOrder<T(!new)>(leq: (T, T) -> bool) {
    && (forall x, y :: leq(x, y) || leq(y, x))
    && (forall x, y :: leq(x, y) && leq(y, x) ==> x == y)
    && (forall x, y, z :: leq(x, y) && leq(y, z) ==> leq(x, z))
  }

  /** `sorted` is what sorting `s` gives. */
  ghost predicate IsSortOf<T(!new)>(leq: (T, T) -> bool, sorted: seq<T>, s: seq<T>) {
    && multiset(sorted) == multiset(s)
    && (forall i, j | 0 <= i < j < |sorted| :: leq(sorted[i], sorted[j]))
  }

  /** The first element of a sorted list comes before all others. */
  lemma SortedHead<T(!new)>(leq: (T, T) -> bool, a: seq<T>, x: T)
    requires TotalOrder(leq) && a != [] && x in multiset(a)
    requires forall i, j | 0 <= i < j < |a| :: leq(a[i], a[j])
    ensures leq(a[0], x)
  {
    var k :| 0 <= k < |a| && a[k] == x;
    assert leq(a[0], a[0]);
  }

  lemma TailMultiset<T>(a: seq<T>)
    requires a != []
    ensures multiset(a[1..]) == multiset(a) - multiset{a[0]}
  {
    assert a == [a[0]] + a[1..];
  }

  lemma {:induction false} SortedAreEqual<T(!new)>(leq: (T, T) -> bool, a: seq<T>, b: seq<T>)
    requires TotalOrder(leq) && multiset(a) == multiset(b)
    requires forall i, j | 0 <= i < j < |a| :: leq(a[i], a[j])
    requires forall i, j | 0 <= i < j < |b| :: leq(b[i], b[j])
    ensures a == b
  {
    assert |a| == |multiset(a)| == |multiset(b)| == |b|;
    if a != [] {
      assert a[0] == b[0] by {
        assert a[0] in multiset(a) && b[0] in multiset(b);
        SortedHead(leq, a, b[0]);
        SortedHead(leq, b, a[0]);
      }
      TailMultiset(a);
      TailMultiset(b);
      SortedAreEqual(leq, a[1..], b[1..]);
    }
  }

  /**
   * Items views are compared by sorting both sides: they are equal exactly when they hold the same pairs
   * equally often. Maps that differ only in the order of names have equal views.
   */
  lemma ItemsViewEquality(leq: ((Name, Value), (Name, Value)) -> bool, m: Entries, other: seq<(Name, Value)>,
                          v: seq<(Name, Value)>, v2: seq<(Name, Value)>)
    requires TotalOrder(leq) && Valid(m)
    requires IsSortOf(leq, v, Pairs(m)) && IsSortOf(leq, v2, other)
    ensures v == v2 <==> multiset(Pairs(m)) == multiset(other)
    ensures forall t | Valid(t) && SameMap(m, t) && other == Pairs(t) :: v == v2
  {
    if multiset(Pairs(m)) == multiset(other) {
      SortedAreEqual(leq, v, v2);
    }
    forall t | Valid(t) && SameMap(m, t) && other == Pairs(t)
      ensures v == v2
    {
      SameMapSamePairs(m, t);
    }
  }

  /** A map holds exactly the pairs of a name with its values. */
  lemma PairIn(m: Entries, key: Name, value: Value)
    requires Valid(m)
    ensures (key, value) in Pairs(m) <==> value in Lookup(m, key)
  {
    ProjectPairs(m, key);
    CountProject(Pairs(m), key, value);
    assert (key, value) in Pairs(m) <==> (key, value) in multiset(Pairs(m));
  }

  /** A pair is found among the values of its name exactly when the map holds it. */
  method ItemsContains(m: Entries, key: Name, value: Value) returns (found: bool)
    requires Valid(m)
    ensures found <==> (key, value) in Pairs(m)
  {
    PairIn(m, key, value);
    var values := Lookup(m, key);
    found := false;
    for i := 0 to |values|
      invariant value !in values[..i]
    {
      if values[i] == value {
        return true;
      }
    }
  }

  /** The multi-value dict of a map holds exactly the values of each name, as a list only for several. */
  lemma DictMultiValue(m: Entries)
    requires Valid(m)
    ensures Grouping.Proper(Grouping.Group(Pairs(m)))
    ensures forall n :: Grouping.Get(Grouping.Group(Pairs(m)), n) == Lookup(m, n)
  {
    Grouping.GroupKeeps(Pairs(m));
    forall n
      ensures Grouping.Get(Grouping.Group(Pairs(m)), n) == Lookup(m, n)
    {
      ProjectPairs(m, n);
    }
  }
}
