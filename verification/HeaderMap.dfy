/** The Python header map: a handle to entries that a send can take away, and its iterators. */
module HeaderMap {
  import opened Wrappers
  import opened Headers
  import opened Lists

  datatype HeaderError = Consumed | KeyMissing

  class HeaderMap {
    var inner: Option<Entries>

    ghost predicate WellFormed()
      reads this
    {
      inner.Some? ==> Valid(inner.value)
    }

    /** The values of a name; none once the map is consumed. */
    ghost function Values(n: Name): seq<Value>
      reads this
    {
      if inner.None? then [] else Lookup(inner.value, n)
    }

    ghost function Items(): seq<(Name, Value)>
      reads this
    {
      if inner.None? then [] else Pairs(inner.value)
    }

    constructor (entries: Entries)
      ensures inner == Some(entries)
    {
      inner := Some(entries);
    }

    /** The number of values, which is the number of pairs. */
    method Len() returns (r: Result<nat, HeaderError>)
      ensures r == if inner.None? then Err(Consumed) else Ok(|Items()|)
    {
      if inner.None? {
        return Err(Consumed);
      }
      var n := 0;
      for i := 0 to |inner.value|
        invariant n + |Pairs(inner.value[i..])| == |Items()|
      {
        assert inner.value[i..][1..] == inner.value[i + 1..];
        n := n + |inner.value[i].values|;
      }
      r := Ok(n);
    }

    method TryTakeInner() returns (r: Result<Entries, HeaderError>)
      modifies this
      ensures inner.None?
      ensures r == if old(inner).Some? then Ok(old(inner).value) else Err(Consumed)
    {
      if inner.None? {
        return Err(Consumed);
      }
      r := Ok(inner.value);
      inner := None;
    }

    /** Removes a name with all its values. The entries that stay may come in another order. */
    method RemoveEntry(key: Name) returns (values: seq<Value>)
      requires inner.Some? && WellFormed()
      modifies this
      ensures inner.Some? && WellFormed() && values == old(Values(key))
      ensures forall n :: Values(n) == if n == key then [] else old(Values(n))
    {
      values := Lookup(inner.value, key);
      LookupRemove(inner.value, key);
      var rest := Remove(inner.value, key);
      var reordered: Entries := *;
      if !Reordered(reordered, rest) {
        reordered := rest;
      } else {
        ReorderedSame(reordered, rest);
      }
      inner := Some(reordered);
    }

    /** Adds a value to a name; true if the name was there. */
    method AppendValue(key: Name, value: Value) returns (r: Result<bool, HeaderError>)
      requires WellFormed()
      modifies this
      ensures WellFormed() && (r.Err? <==> old(inner).None?) && inner.Some? == old(inner).Some?
      ensures r.Ok? ==> r.value == (old(Values(key)) != []) && inner.value == Append(old(inner).value, key, value)
      ensures r.Ok? ==> forall n :: Values(n) == if n == key then old(Values(n)) + [value] else old(Values(n))
    {
      if inner.None? {
        return Err(Consumed);
      }
      LookupAppend(inner.value, key, value);
      r := Ok(Lookup(inner.value, key) != []);
      inner := Some(Append(inner.value, key, value));
    }

    /** Replaces the values of a name, and returns those it had. */
    method Insert(key: Name, value: Value) returns (r: Result<seq<Value>, HeaderError>)
      requires WellFormed()
      modifies this
      ensures WellFormed() && (r.Err? <==> old(inner).None?) && inner.Some? == old(inner).Some?
      ensures r.Ok? ==> r.value == old(Values(key))
      ensures r.Ok? ==> forall n :: Values(n) == if n == key then [value] else old(Values(n))
    {
      if inner.None? {
        return Err(Consumed);
      }
      LookupReplace(inner.value, key, [value]);
      r := Ok(Lookup(inner.value, key));
      inner := Some(Replace(inner.value, key, [value]));
    }

    /** Appends pairs one by one: every name gets its new values behind the old ones, in order. */
    method ExtendPairs(pairs: seq<(Name, Value)>)
      requires WellFormed() && inner.Some?
      modifies this
      ensures WellFormed() && inner.Some?
      ensures forall n :: Values(n) == old(Values(n)) + Project(pairs, n)
    {
      ghost var start := inner.value;
      for i := 0 to |pairs|
        invariant WellFormed() && inner == Some(AppendAll(start, pairs[..i]))
      {
        assert pairs[..i + 1][..i] == pairs[..i];
        var _ := AppendValue(pairs[i].0, pairs[i].1);
      }
      assert pairs[..|pairs|] == pairs;
      LookupAppendAll(start, pairs);
    }

    /** Removes all values of a name. */
    method PopAll(key: Name) returns (r: Result<seq<Value>, HeaderError>)
      requires WellFormed()
      modifies this
      ensures WellFormed() && inner.Some? == old(inner).Some?
      ensures r == if old(inner).None? then Err(Consumed)
                   else if old(Values(key)) == [] then Err(KeyMissing) else Ok(old(Values(key)))
      ensures forall n :: Values(n) == if n == key then [] else old(Values(n))
    {
      if inner.None? {
        return Err(Consumed);
      }
      var values := RemoveEntry(key);
      r := if values == [] then Err(KeyMissing) else Ok(values);
    }

    /** Removes the first value of a name, and keeps the others in order. */
    method PopInner(key: Name) returns (r: Result<Value, HeaderError>)
      requires WellFormed() && inner.Some?
      modifies this
      ensures WellFormed() && inner.Some?
      ensures r == if old(Values(key)) == [] then Err(KeyMissing) else Ok(old(Values(key))[0])
      ensures forall n ::
                Values(n) == if n == key && old(Values(n)) != [] then old(Values(n))[1..] else old(Values(n))
    {
      var values := RemoveEntry(key);
      if values == [] {
        return Err(KeyMissing);
      }
      var newVals := values[1..];
      for i := 0 to |newVals|
        invariant WellFormed() && inner.Some?
        invariant forall n :: Values(n) == if n == key then newVals[..i] else old(Values(n))
      {
        assert newVals[..i + 1] == newVals[..i] + [newVals[i]];
        var _ := AppendValue(key, newVals[i]);
      }
      assert newVals[..|newVals|] == newVals;
      r := Ok(values[0]);
    }

    /** Removes the first pair of the current iteration order. */
    method PopItem() returns (r: Result<(Name, Value), HeaderError>)
      requires WellFormed()
      modifies this
      ensures WellFormed() && inner.Some? == old(inner).Some?
      ensures old(inner).None? ==> r == Err(Consumed)
      ensures old(inner) == Some([]) ==> r == Err(KeyMissing) && inner == Some([])
      ensures old(inner).Some? && old(inner).value != [] ==>
                && r.Ok? && old(Items()) != [] && r.value == old(Items())[0]
                && Popped(old(inner).value, inner.value, r.value)
    {
      if inner.None? {
        return Err(Consumed);
      }
      if inner.value == [] {
        return Err(KeyMissing);
      }
      var key := inner.value[0].name;
      ghost var before := inner.value;
      var value := PopInner(key);
      forall n
        ensures Lookup(inner.value, n) == if n == key then Lookup(before, n)[1..] else Lookup(before, n)
      {
        assert Values(n) == Lookup(inner.value, n) && old(Values(n)) == Lookup(before, n);
      }
      r := Ok((key, value.value));
    }
  }

  // ----- Draining -----

  /**
   * Popping items until the map is empty takes exactly as many calls as the map has values, and returns every
   * pair once, with the values of each name in their stored order.
   */
  method DrainByPopItem(headers: HeaderMap) returns (popped: seq<(Name, Value)>)
    requires headers.WellFormed() && headers.inner.Some?
    modifies headers
    ensures headers.inner == Some([])
    ensures |popped| == |old(headers.Items())|
    ensures multiset(popped) == multiset(old(headers.Items()))
    ensures forall n :: Project(popped, n) == old(headers.Values(n))
  {
    popped := [];
    ghost var start := headers.inner.value;
    while headers.inner.value != []
      invariant headers.WellFormed() && headers.inner.Some?
      invariant |popped| + |Pairs(headers.inner.value)| == |Pairs(start)|
      invariant DrainedSoFar(start, popped, headers.inner.value)
      decreases |Pairs(headers.inner.value)|
    {
      ghost var before := headers.inner.value;
      var item := headers.PopItem();
      PopLength(before, headers.inner.value, item.value);
      PopDrains(start, popped, before, headers.inner.value, item.value);
      popped := popped + [item.value];
    }
    DrainedAll(start, popped);
  }

  // ----- Iterators -----

  datatype IterError = StopIteration | MapConsumed | AssertionFailed

  /** The pairs that names with their values stand for, in the order of the names. */
  function PairsByName(m: Entries, names: seq<Name>): seq<(Name, Value)> {
    if names == [] then [] else PairsOf(names[0], Lookup(m, names[0])) + PairsByName(m, names[1..])
  }

  /** Iterates over the pairs with two queues: the names to come, and the values left of the first of them. */
  class ItemsIter {
    var keys: seq<Name>
    var curValues: seq<Value>
    const headers: HeaderMap

    constructor (headers: HeaderMap)
      requires headers.inner.Some?
      ensures this.headers == headers && keys == Names(headers.inner.value) && curValues == []
    {
      this.keys := Names(headers.inner.value);
      this.curValues := [];
      this.headers := headers;
    }

    /** The pairs to come, if the map does not change. */
    ghost function Remaining(): seq<(Name, Value)>
      reads this, headers
    {
      var m := if headers.inner.Some? then headers.inner.value else [];
      if curValues == [] then PairsByName(m, keys)
      else if keys == [] then []
      else PairsOf(keys[0], curValues) + PairsByName(m, keys[1..])
    }

    /** Values are only queued for a name, and every name still to come has values. */
    ghost predicate InStep()
      reads this, headers
    {
      && headers.inner.Some?
      && (keys == [] ==> curValues == [])
      && (forall k <- keys :: Lookup(headers.inner.value, k) != [])
    }

    method Next() returns (r: Result<(Name, Value), IterError>)
      requires curValues != [] ==> keys != []
      modifies this
      ensures curValues != [] ==> keys != []
      // The internal assertion fails exactly when the next name has lost its values since the iterator began
      ensures r == Err(AssertionFailed) <==>
              old(curValues) == [] && old(keys) != [] && headers.inner.Some?
              && Lookup(headers.inner.value, old(keys)[0]) == []
      ensures r == Err(StopIteration) <==> old(curValues) == [] && old(keys) == []
      ensures r == Err(MapConsumed) <==> old(curValues) == [] && old(keys) != [] && headers.inner.None?
      ensures old(InStep()) ==>
              && InStep()
              && (old(Remaining()) == [] ==> r == Err(StopIteration))
              && (old(Remaining()) != [] ==>
                    r == Ok(old(Remaining())[0]) && Remaining() == old(Remaining())[1..])
    {
      if curValues == [] {
        if keys == [] {
          return Err(StopIteration);
        }
        if headers.inner.None? {
          return Err(MapConsumed);
        }
        curValues := Lookup(headers.inner.value, keys[0]);
        if curValues == [] {
          return Err(AssertionFailed);
        }
      }
      var key, value := keys[0], curValues[0];
      curValues := curValues[1..];
      if curValues == [] {
        keys := keys[1..];
      }
      r := Ok((key, value));
    }
  }

  lemma {:induction false} PairsByAllNames(m: Entries, first: Entries, rest: Entries)
    requires m == first + rest && Valid(m)
    ensures PairsByName(m, Names(rest)) == Pairs(rest)
    ensures forall k <- Names(rest) :: Lookup(m, k) != []
    decreases |rest|
  {
    if rest != [] {
      LookupEntries(m);
      assert rest[0] == m[|first|];
      NonEmpty(m, rest[0]);
      PairsByAllNames(m, first + [rest[0]], rest[1..]);
    }
  }

  /** Iterating over a map yields exactly its pairs in its order, and then stops; nothing fails on the way. */
  method IterateAll(headers: HeaderMap) returns (items: seq<(Name, Value)>)
    requires headers.WellFormed() && headers.inner.Some?
    ensures items == headers.Items()
  {
    PairsByAllNames(headers.inner.value, [], headers.inner.value);
    var iter := new ItemsIter(headers);
    items := [];
    while true
      invariant iter.InStep() && iter.headers == headers && fresh(iter)
      invariant items + iter.Remaining() == headers.Items()
      decreases |iter.Remaining()|
    {
      ghost var left := iter.Remaining();
      var next := iter.Next();
      if next.Err? {
        return;
      }
      Shift(items, left);
      items := items + [next.value];
    }
  }

  /** Iterates over the values by iterating over the pairs. */
  class ValuesIter {
    const items: ItemsIter

    constructor (headers: HeaderMap)
      requires headers.inner.Some?
      ensures fresh(items) && items.headers == headers
      ensures items.keys == Names(headers.inner.value) && items.curValues == []
    {
      items := new ItemsIter(headers);
    }

    method Next() returns (r: Result<Value, IterError>)
      requires items.InStep()
      modifies items
      ensures items.InStep()
      ensures old(items.Remaining()) == [] ==> r == Err(StopIteration)
      ensures old(items.Remaining()) != [] ==>
                r == Ok(old(items.Remaining())[0].1) && items.Remaining() == old(items.Remaining())[1..]
    {
      var item := items.Next();
      r := match item
           case Ok(pair) => Ok(pair.1)
           case Err(e) => Err(e);
    }
  }

  /** Iterates over the names as they were when it was made; a name with several values repeats. */
  class KeysIter {
    var keys: seq<Name>

    constructor (headers: HeaderMap)
      requires headers.inner.Some?
      ensures keys == KeysOf(headers.Items())
    {
      keys := KeysOf(Pairs(headers.inner.value));
    }

    method Next() returns (r: Result<Name, IterError>)
      modifies this
      ensures old(keys) == [] ==> r == Err(StopIteration) && keys == []
      ensures old(keys) != [] ==> r == Ok(old(keys)[0]) && keys == old(keys)[1..]
    {
      if keys == [] {
        return Err(StopIteration);
      }
      r := Ok(keys[0]);
      keys := keys[1..];
    }
  }

  function KeysOf(pairs: seq<(Name, Value)>): (keys: seq<Name>)
    ensures |keys| == |pairs|
    ensures forall i | 0 <= i < |pairs| :: keys[i] == pairs[i].0
  {
    seq(|pairs|, i requires 0 <= i < |pairs| => pairs[i].0)
  }

  /** The names of the pairs in order, one for each value. */
  method IterateKeys(headers: HeaderMap) returns (keys: seq<Name>)
    requires headers.inner.Some?
    ensures keys == KeysOf(headers.Items())
  {
    var iter := new KeysIter(headers);
    keys := [];
    while true
      invariant fresh(iter) && keys + iter.keys == KeysOf(headers.Items())
      decreases |iter.keys|
    {
      ghost var left := iter.keys;
      var key := iter.Next();
      if key.Err? {
        return;
      }
      Shift(keys, left);
      keys := keys + [key.value];
    }
  }

  function ValuesOf(pairs: seq<(Name, Value)>): (values: seq<Value>)
    ensures |values| == |pairs|
    ensures forall i | 0 <= i < |pairs| :: values[i] == pairs[i].1
  {
    seq(|pairs|, i requires 0 <= i < |pairs| => pairs[i].1)
  }

  lemma ValuesOfNext(values: seq<Value>, left: seq<(Name, Value)>)
    requires left != []
    ensures values + ValuesOf(left) == values + [left[0].1] + ValuesOf(left[1..])
  {
    assert ValuesOf(left) == [left[0].1] + ValuesOf(left[1..]);
  }

  /** The values of the pairs in order. */
  method IterateValues(headers: HeaderMap) returns (values: seq<Value>)
    requires headers.WellFormed() && headers.inner.Some?
    ensures values == ValuesOf(headers.Items())
  {
    PairsByAllNames(headers.inner.value, [], headers.inner.value);
    var iter := new ValuesIter(headers);
    values := [];
    while true
      invariant fresh(iter.items) && iter.items.headers == headers && iter.items.InStep()
      invariant values + ValuesOf(iter.items.Remaining()) == ValuesOf(headers.Items())
      decreases |iter.items.Remaining()|
    {
      ghost var left := iter.items.Remaining();
      var value := iter.Next();
      if value.Err? {
        return;
      }
      ValuesOfNext(values, left);
      values := values + [value.value];
    }
  }

  /** The three iterators of a map agree: names and values are the two halves of the pairs, one for one. */
  method IteratorsAgree(headers: HeaderMap)
    returns (items: seq<(Name, Value)>, keys: seq<Name>, values: seq<Value>, len: nat)
    requires headers.WellFormed() && headers.inner.Some?
    ensures items == headers.Items() && len == |items|
    ensures |keys| == |values| == |items|
    ensures forall i | 0 <= i < |items| :: items[i] == (keys[i], values[i])
  {
    items := IterateAll(headers);
    keys := IterateKeys(headers);
    values := IterateValues(headers);
    var counted := headers.Len();
    len := counted.value;
  }

  /** A name is popped after an iterator was made and before it came to it: the iterator panics. */
  method IteratorPanics(name: Name, value: Value) returns (r: Result<(Name, Value), IterError>)
    ensures r == Err(AssertionFailed)
  {
    var headers := new HeaderMap([Entry(name, [value])]);
    var iter := new ItemsIter(headers);
    var _ := headers.PopInner(name);
    assert headers.Values(name) == [];
    r := iter.Next();
  }
}
