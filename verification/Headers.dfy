/**
 * Multi-value header maps as values: entries with distinct names and at least one value each. The order of
 * the values of one name matters; the order of the names does not, and a removal may change it.
 */
module Headers {
  import opened Lists

  type Name = string
  type Value = string

  datatype Entry = Entry(name: Name, values: seq<Value>)

  type Entries = seq<Entry>

  /** The values of a name in order, none if the name is absent. */
  function Lookup(m: Entries, n: Name): seq<Value> {
    if m == [] then [] else if m[0].name == n then m[0].values else Lookup(m[1..], n)
  }

  predicate Valid(m: Entries) {
    m == [] || (m[0].values != [] && Lookup(m[1..], m[0].name) == [] && Valid(m[1..]))
  }

  /** The same values for every name. */
  ghost predicate SameMap(a: Entries, b: Entries) {
    forall n :: Lookup(a, n) == Lookup(b, n)
  }

  /** The same entries in any order. */
  predicate Reordered(a: Entries, b: Entries) {
    && Valid(a)
    && (forall e <- a :: Lookup(b, e.name) == e.values)
    && (forall e <- b :: Lookup(a, e.name) == e.values)
  }

  lemma {:induction false} EntryOf(m: Entries, n: Name)
    ensures Lookup(m, n) != [] ==> Entry(n, Lookup(m, n)) in m
  {
    if m != [] {
      EntryOf(m[1..], n);
    }
  }

  lemma {:induction false} LookupEntries(m: Entries)
    requires Valid(m)
    ensures forall e <- m :: Lookup(m, e.name) == e.values
  {
    if m != [] {
      LookupEntries(m[1..]);
      forall e <- m
        ensures Lookup(m, e.name) == e.values
      {
        if e != m[0] {
          assert e in m[1..];
          NonEmpty(m[1..], e);
        }
      }
    }
  }

  lemma {:induction false} NonEmpty(m: Entries, e: Entry)
    requires Valid(m) && e in m
    ensures e.values != []
  {
    if e != m[0] {
      NonEmpty(m[1..], e);
    }
  }

  lemma ReorderedSame(a: Entries, b: Entries)
    requires Reordered(a, b)
    ensures SameMap(a, b)
  {
    forall n
      ensures Lookup(a, n) == Lookup(b, n)
    {
      EntryOf(a, n);
      EntryOf(b, n);
    }
  }

  /** Adds a value behind the others of its name. */
  function Append(m: Entries, n: Name, v: Value): Entries {
    if m == [] then [Entry(n, [v])]
    else if m[0].name == n then [Entry(n, m[0].values + [v])] + m[1..]
    else [m[0]] + Append(m[1..], n, v)
  }

  /** Replaces all values of a name. */
  function Replace(m: Entries, n: Name, values: seq<Value>): Entries {
    if m == [] then [Entry(n, values)]
    else if m[0].name == n then [Entry(n, values)] + m[1..]
    else [m[0]] + Replace(m[1..], n, values)
  }

  function Remove(m: Entries, n: Name): Entries {
    if m == [] then [] else if m[0].name == n then m[1..] else [m[0]] + Remove(m[1..], n)
  }

  /** Every name of `other` replaces all values of that name. */
  function Extend(m: Entries, other: Entries): Entries
    decreases |other|
  {
    if other == [] then m else Extend(Replace(m, other[0].name, other[0].values), other[1..])
  }

  lemma {:induction false} LookupAppend(m: Entries, n: Name, v: Value)
    requires Valid(m)
    ensures Valid(Append(m, n, v))
    ensures forall k :: Lookup(Append(m, n, v), k) == if k == n then Lookup(m, n) + [v] else Lookup(m, k)
  {
    if m != [] {
      LookupAppend(m[1..], n, v);
    }
  }

  lemma {:induction false} LookupReplace(m: Entries, n: Name, values: seq<Value>)
    requires Valid(m) && values != []
    ensures Valid(Replace(m, n, values))
    ensures forall k :: Lookup(Replace(m, n, values), k) == if k == n then values else Lookup(m, k)
  {
    if m != [] {
      LookupReplace(m[1..], n, values);
    }
  }

  lemma {:induction false} LookupRemove(m: Entries, n: Name)
    requires Valid(m)
    ensures Valid(Remove(m, n))
    ensures forall k :: Lookup(Remove(m, n), k) == if k == n then [] else Lookup(m, k)
  {
    if m != [] {
      LookupRemove(m[1..], n);
    }
  }

  lemma {:induction false} LookupExtend(m: Entries, other: Entries)
    requires Valid(m) && Valid(other)
    ensures Valid(Extend(m, other))
    ensures forall k :: Lookup(Extend(m, other), k) == if Lookup(other, k) != [] then Lookup(other, k) else Lookup(m, k)
    decreases |other|
  {
    if other != [] {
      LookupReplace(m, other[0].name, other[0].values);
      LookupExtend(Replace(m, other[0].name, other[0].values), other[1..]);
    }
  }

  // ----- Pairs -----

  /** The (name, value) pairs in the map's own order; a name with several values repeats. */
  function Pairs(m: Entries): seq<(Name, Value)> {
    if m == [] then [] else PairsOf(m[0].name, m[0].values) + Pairs(m[1..])
  }

  function Names(m: Entries): seq<Name> {
    if m == [] then [] else [m[0].name] + Names(m[1..])
  }

  /** The pairs of a map give every name its values. */
  lemma {:induction false} ProjectPairs(m: Entries, n: Name)
    requires Valid(m)
    ensures Project(Pairs(m), n) == Lookup(m, n)
  {
    if m != [] {
      ProjectPairs(m[1..], n);
      ProjectPairsOf(m[0].name, m[0].values, n);
      ProjectConcat(PairsOf(m[0].name, m[0].values), Pairs(m[1..]), n);
    }
  }

  /** The order of the names is all that two representations of one map can differ in. */
  lemma SameMapSamePairs(a: Entries, b: Entries)
    requires Valid(a) && Valid(b) && SameMap(a, b)
    ensures multiset(Pairs(a)) == multiset(Pairs(b)) && |Pairs(a)| == |Pairs(b)|
  {
    forall n
      ensures Project(Pairs(a), n) == Project(Pairs(b), n)
    {
      ProjectPairs(a, n);
      ProjectPairs(b, n);
    }
    SameProjections(Pairs(a), Pairs(b));
  }

  // ----- Appending and popping many pairs -----

  function AppendAll(m: Entries, pairs: seq<(Name, Value)>): Entries {
    if pairs == [] then m
    else
      var last := pairs[|pairs| - 1];
      Append(AppendAll(m, pairs[..|pairs| - 1]), last.0, last.1)
  }

  /** Every name gets its new values behind the old ones, in order. */
  lemma {:induction false} LookupAppendAll(m: Entries, pairs: seq<(Name, Value)>)
    requires Valid(m)
    ensures Valid(AppendAll(m, pairs))
    ensures forall n :: Lookup(AppendAll(m, pairs), n) == Lookup(m, n) + Project(pairs, n)
  {
    if pairs != [] {
      var last := pairs[|pairs| - 1];
      var front := pairs[..|pairs| - 1];
      LookupAppendAll(m, front);
      LookupAppend(AppendAll(m, front), last.0, last.1);
      forall n
        ensures Lookup(AppendAll(m, pairs), n) == Lookup(m, n) + Project(pairs, n)
      {
        Associative(Lookup(m, n), Project(front, n), if last.0 == n then [last.1] else []);
      }
    }
  }

  /** The pair `p` holds the first value of its name, and `t` is `m` without it. */
  ghost predicate Popped(m: Entries, t: Entries, p: (Name, Value)) {
    && Lookup(m, p.0) != [] && Lookup(m, p.0)[0] == p.1
    && forall n :: Lookup(t, n) == if n == p.0 then Lookup(m, n)[1..] else Lookup(m, n)
  }

  /** What was popped and what is left make the map: per name, in order. */
  ghost predicate DrainedSoFar(start: Entries, popped: seq<(Name, Value)>, left: Entries) {
    forall n :: Project(popped, n) + Lookup(left, n) == Lookup(start, n)
  }

  lemma PopLength(m: Entries, t: Entries, p: (Name, Value))
    requires Valid(m) && Valid(t) && Popped(m, t, p)
    ensures |Pairs(m)| == |Pairs(t)| + 1
  {
    forall n
      ensures Project(Pairs(m), n) == Project([p] + Pairs(t), n)
    {
      ProjectPairs(m, n);
      ProjectPairs(t, n);
      ProjectConcat([p], Pairs(t), n);
      assert [p][..0] == [];
    }
    SameProjections(Pairs(m), [p] + Pairs(t));
  }

  lemma PopDrains(start: Entries, popped: seq<(Name, Value)>, m: Entries, t: Entries, p: (Name, Value))
    requires DrainedSoFar(start, popped, m) && Popped(m, t, p)
    ensures DrainedSoFar(start, popped + [p], t)
  {
    forall n
      ensures Project(popped + [p], n) + Lookup(t, n) == Lookup(start, n)
    {
      ProjectAppend(popped, p, n);
      assert Project(popped, n) + Lookup(m, n) == Lookup(start, n);
    }
  }

  lemma DrainedAll(start: Entries, popped: seq<(Name, Value)>)
    requires Valid(start) && DrainedSoFar(start, popped, [])
    ensures forall n :: Project(popped, n) == Lookup(start, n)
    ensures multiset(popped) == multiset(Pairs(start))
  {
    forall n
      ensures Project(popped, n) == Lookup(start, n) == Project(Pairs(start), n)
    {
      ProjectPairs(start, n);
      assert Project(popped, n) + Lookup([], n) == Lookup(start, n);
    }
    SameProjections(popped, Pairs(start));
  }
}
